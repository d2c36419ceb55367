/** The list merge that `MergeMounts`, `MergePorts` and `MergeDrives` of
    types/types.go share: supplied entries replace the first old entry with the
    same key, and are appended when no OLD entry has it. */
module KeyedMerge {
  import opened Wrappers
  import opened SeqFacts

  /** The first of the first `n` entries with key `k`, or `n`. */
  function IndexOf<T, K(==)>(s: seq<T>, n: nat, key: T -> K, k: K): (i: nat)
    requires n <= |s|
    ensures i <= n
    ensures i < n ==> key(s[i]) == k
    ensures forall j :: 0 <= j < i ==> key(s[j]) != k
  {
    if n == 0 then 0
    else
      var i := IndexOf(s, n - 1, key, k);
      if i < n - 1 || key(s[n - 1]) == k then i else n
  }

  function Put<T, K(==)>(s: seq<T>, n: nat, key: T -> K, x: T): seq<T>
    requires n <= |s|
  {
    var i := IndexOf(s, n, key, key(x));
    if i == n then s + [x] else s[i := x]
  }

  /** The merge, entry by entry; only the entries that were there at the start are searched. */
  function Merge<T, K(==)>(base: seq<T>, supplied: seq<T>, key: T -> K): (r: seq<T>)
    ensures |base| <= |r|
  {
    if supplied == [] then base
    else Put(Merge(base, supplied[..|supplied| - 1], key), |base|, key, supplied[|supplied| - 1])
  }

  method FirstWithKey<T, K(==)>(s: seq<T>, n: nat, key: T -> K, k: K) returns (i: nat)
    requires n <= |s|
    ensures i == IndexOf(s, n, key, k)
  {
    i := 0;
    while i < n
      invariant i <= n
      invariant forall j :: 0 <= j < i ==> key(s[j]) != k
    {
      if key(s[i]) == k {
        break;
      }
      i := i + 1;
    }
  }

  /** One iteration of the outer loop. */
  method PutEntry<T, K(==)>(s: seq<T>, n: nat, key: T -> K, x: T) returns (r: seq<T>)
    requires n <= |s|
    ensures r == Put(s, n, key, x)
  {
    var i := FirstWithKey(s, n, key, key(x));
    if i == n {
      r := s + [x];
    } else {
      r := s[i := x];
    }
  }

  // ---------- lookups ----------

  function First<T, K(==)>(s: seq<T>, key: T -> K, k: K): Option<T> {
    var i := IndexOf(s, |s|, key, k);
    if i < |s| then Some(s[i]) else None
  }

  function Last<T, K(==)>(s: seq<T>, key: T -> K, k: K): Option<T> {
    if s == [] then None
    else if key(s[|s| - 1]) == k then Some(s[|s| - 1])
    else Last(s[..|s| - 1], key, k)
  }

  predicate Has<T, K(==)>(s: seq<T>, key: T -> K, k: K) {
    exists i :: 0 <= i < |s| && key(s[i]) == k
  }

  ghost predicate UniqueKeys<T, K>(s: seq<T>, key: T -> K) {
    forall i, j :: 0 <= i < j < |s| ==> key(s[i]) != key(s[j])
  }

  lemma FirstHas<T, K>(s: seq<T>, key: T -> K, k: K)
    ensures First(s, key, k).Some? <==> Has(s, key, k)
    ensures First(s, key, k).Some? ==> key(First(s, key, k).value) == k
  {}

  lemma FirstAt<T, K>(s: seq<T>, key: T -> K, k: K, i: nat)
    requires i < |s| && key(s[i]) == k && forall j :: 0 <= j < i ==> key(s[j]) != k
    ensures First(s, key, k) == Some(s[i])
  {}

  lemma FirstNone<T, K>(s: seq<T>, key: T -> K, k: K)
    requires forall i :: 0 <= i < |s| ==> key(s[i]) != k
    ensures First(s, key, k) == None
  {}

  lemma {:induction false} LastHas<T, K>(s: seq<T>, key: T -> K, k: K)
    ensures Last(s, key, k).Some? <==> Has(s, key, k)
    ensures Last(s, key, k).Some? ==> key(Last(s, key, k).value) == k
  {
    if s != [] && key(s[|s| - 1]) != k {
      LastHas(s[..|s| - 1], key, k);
    }
  }

  lemma FirstAppend<T, K>(s: seq<T>, t: seq<T>, key: T -> K, k: K)
    ensures First(s + t, key, k) == if Has(s, key, k) then First(s, key, k) else First(t, key, k)
  {
    if Has(s, key, k) {
      var i := IndexOf(s, |s|, key, k);
      assert forall j :: 0 <= j <= i ==> (s + t)[j] == s[j];
      FirstAt(s + t, key, k, i);
    } else {
      var i := IndexOf(t, |t|, key, k);
      assert forall j :: 0 <= j < |s| ==> (s + t)[j] == s[j];
      assert forall j :: |s| <= j < |s| + |t| ==> (s + t)[j] == t[j - |s|];
      if i < |t| {
        FirstAt(s + t, key, k, |s| + i);
      } else {
        FirstNone(s + t, key, k);
      }
    }
  }

  // ---------- the merge in closed form ----------

  /** The supplied entries without an old one, in order. */
  function Fresh<T, K(==)>(base: seq<T>, supplied: seq<T>, key: T -> K): seq<T> {
    if supplied == [] then []
    else
      var x := supplied[|supplied| - 1];
      Fresh(base, supplied[..|supplied| - 1], key) + if Has(base, key, key(x)) then [] else [x]
  }

  /** The old entry at `i` after the merge: replaced if it is the first with its key. */
  function Overridden<T, K(==)>(base: seq<T>, supplied: seq<T>, key: T -> K, i: nat): T
    requires i < |base|
  {
    var last := Last(supplied, key, key(base[i]));
    if last.Some? && IndexOf(base, |base|, key, key(base[i])) == i then last.value else base[i]
  }

  lemma SameIndex<T, K>(s: seq<T>, t: seq<T>, n: nat, key: T -> K, k: K)
    requires n <= |s| && n <= |t| && forall i :: 0 <= i < n ==> key(s[i]) == key(t[i])
    ensures IndexOf(s, n, key, k) == IndexOf(t, n, key, k)
  {}

  lemma OverriddenKey<T, K>(base: seq<T>, supplied: seq<T>, key: T -> K, i: nat)
    requires i < |base|
    ensures key(Overridden(base, supplied, key, i)) == key(base[i])
  {
    LastHas(supplied, key, key(base[i]));
  }

  /** Old positions keep their keys and hold the overriding entries; the added
      entries follow in the order they were supplied. */
  lemma {:induction false} MergeShape<T, K>(base: seq<T>, supplied: seq<T>, key: T -> K)
    ensures var r := Merge(base, supplied, key);
            && |r| == |base| + |Fresh(base, supplied, key)|
            && (forall i :: 0 <= i < |base| ==> r[i] == Overridden(base, supplied, key, i))
            && r[|base|..] == Fresh(base, supplied, key)
  {
    if supplied != [] {
      var init, x := supplied[..|supplied| - 1], supplied[|supplied| - 1];
      MergeShape(base, init, key);
      var m := Merge(base, init, key);
      forall i | 0 <= i < |base| ensures key(m[i]) == key(base[i]) {
        OverriddenKey(base, init, key, i);
      }
      SameIndex(m, base, |base|, key, key(x));
      var at := IndexOf(base, |base|, key, key(x));
      assert at < |base| <==> Has(base, key, key(x));
      if at < |base| {
        AppendNil(Fresh(base, init, key));
      }
    }
  }

  /** The merge as a keyed override, for every key: a supplied entry wins, and an
      entry that was not supplied stays. */
  lemma MergeLookup<T, K>(base: seq<T>, supplied: seq<T>, key: T -> K, k: K)
    ensures First(Merge(base, supplied, key), key, k) ==
              if !Has(supplied, key, k) then First(base, key, k)
              else if Has(base, key, k) then Last(supplied, key, k)
              else First(supplied, key, k)
  {
    var r := Merge(base, supplied, key);
    var kept, added := r[..|base|], Fresh(base, supplied, key);
    MergeShape(base, supplied, key);
    LastHas(supplied, key, k);
    assert r == kept + added;
    forall i | 0 <= i < |base| ensures key(kept[i]) == key(base[i]) {
      OverriddenKey(base, supplied, key, i);
    }
    FirstAppend(kept, added, key, k);
    assert Has(kept, key, k) <==> Has(base, key, k) by {
      SameIndex(kept, base, |base|, key, k);
    }
    if Has(base, key, k) {
      var i := IndexOf(base, |base|, key, k);
      FirstAt(kept, key, k, i);
    } else {
      FreshFirst(base, supplied, key, k);
    }
  }

  lemma {:induction false} FreshFirst<T, K>(base: seq<T>, supplied: seq<T>, key: T -> K, k: K)
    ensures First(Fresh(base, supplied, key), key, k) == if Has(base, key, k) then None else First(supplied, key, k)
  {
    if supplied == [] {
      assert First(supplied, key, k) == None;
    } else {
      var init, x := supplied[..|supplied| - 1], supplied[|supplied| - 1];
      FreshFirst(base, init, key, k);
      FirstHas(init, key, k);
      FirstHas(Fresh(base, init, key), key, k);
      assert supplied == init + [x];
      FirstAppend(init, [x], key, k);
      FirstSingle(x, key, k);
      if Has(base, key, key(x)) {
        AppendNil(Fresh(base, init, key));
      } else {
        FirstAppend(Fresh(base, init, key), [x], key, k);
      }
    }
  }

  lemma FirstSingle<T, K>(x: T, key: T -> K, k: K)
    ensures First([x], key, k) == if key(x) == k then Some(x) else None
  {}

  lemma {:induction false} UniqueLast<T, K>(s: seq<T>, key: T -> K, k: K)
    requires UniqueKeys(s, key)
    ensures Last(s, key, k) == First(s, key, k)
  {
    if s == [] {
      assert First(s, key, k) == None;
    } else {
      var init, x := s[..|s| - 1], s[|s| - 1];
      UniqueLast(init, key, k);
      assert s == init + [x];
      FirstAppend(init, [x], key, k);
      FirstSingle(x, key, k);
      FirstHas(init, key, k);
      assert key(x) == k ==> !Has(init, key, k) by {
        assert forall i :: 0 <= i < |init| ==> init[i] == s[i] && key(s[i]) != key(s[|s| - 1]);
      }
    }
  }

  /** Keys are unique after a merge exactly when the old keys were, and the added ones are. */
  lemma MergeUnique<T, K>(base: seq<T>, supplied: seq<T>, key: T -> K)
    ensures UniqueKeys(Merge(base, supplied, key), key) <==> UniqueKeys(base, key) && UniqueKeys(Fresh(base, supplied, key), key)
  {
    var r, added := Merge(base, supplied, key), Fresh(base, supplied, key);
    MergeShape(base, supplied, key);
    forall i | 0 <= i < |base| ensures key(r[i]) == key(base[i]) {
      OverriddenKey(base, supplied, key, i);
    }
    forall i | 0 <= i < |added| ensures r[|base| + i] == added[i] {
      assert r[|base|..][i] == added[i];
    }
    forall i, j | 0 <= i < |base| && 0 <= j < |added| ensures key(base[i]) != key(added[j]) {
      FreshNotOld(base, supplied, key, j);
    }
    if UniqueKeys(r, key) {
      assert forall i, j :: 0 <= i < j < |base| ==> key(r[i]) != key(r[j]);
      forall i, j | 0 <= i < j < |added| ensures key(added[i]) != key(added[j]) {
        assert added[i] == r[|base| + i] && added[j] == r[|base| + j];
      }
    }
    if UniqueKeys(base, key) && UniqueKeys(added, key) {
      forall i, j | 0 <= i < j < |r| ensures key(r[i]) != key(r[j]) {
        if i >= |base| {
          assert r[i] == added[i - |base|] && r[j] == added[j - |base|];
        } else if j >= |base| {
          assert r[j] == added[j - |base|];
        }
      }
    }
  }

  lemma {:induction false} FreshNotOld<T, K>(base: seq<T>, supplied: seq<T>, key: T -> K, j: nat)
    requires j < |Fresh(base, supplied, key)|
    ensures !Has(base, key, key(Fresh(base, supplied, key)[j]))
    ensures Fresh(base, supplied, key)[j] in supplied
  {
    var init := supplied[..|supplied| - 1];
    if j < |Fresh(base, init, key)| {
      FreshNotOld(base, init, key, j);
    }
  }

  lemma {:induction false} FreshUnique<T, K>(base: seq<T>, supplied: seq<T>, key: T -> K)
    requires UniqueKeys(supplied, key)
    ensures UniqueKeys(Fresh(base, supplied, key), key)
  {
    if supplied != [] {
      var init, x := supplied[..|supplied| - 1], supplied[|supplied| - 1];
      FreshUnique(base, init, key);
      var added := Fresh(base, init, key);
      forall j | 0 <= j < |added| ensures key(added[j]) != key(x) {
        FreshNotOld(base, init, key, j);
        var i :| 0 <= i < |init| && init[i] == added[j];
        assert supplied[i] == init[i];
      }
    }
  }

  // ---------- a second, identical merge ----------

  lemma PutPresent<T, K>(s: seq<T>, key: T -> K, x: T)
    requires First(s, key, key(x)) == Some(x)
    ensures Put(s, |s|, key, x) == s
  {}

  lemma {:induction false} MergePresent<T, K>(s: seq<T>, supplied: seq<T>, key: T -> K)
    requires forall x :: x in supplied ==> First(s, key, key(x)) == Some(x)
    ensures Merge(s, supplied, key) == s
  {
    if supplied != [] {
      var init, x := supplied[..|supplied| - 1], supplied[|supplied| - 1];
      assert forall y :: y in init ==> y in supplied;
      MergePresent(s, init, key);
      assert x in supplied;
      PutPresent(s, key, x);
    }
  }

  /** Merging the same list again changes nothing, if its keys are unique. */
  lemma MergeIdempotent<T, K>(base: seq<T>, supplied: seq<T>, key: T -> K)
    requires UniqueKeys(supplied, key)
    ensures Merge(Merge(base, supplied, key), supplied, key) == Merge(base, supplied, key)
  {
    var r := Merge(base, supplied, key);
    forall x | x in supplied ensures First(r, key, key(x)) == Some(x) {
      var i :| 0 <= i < |supplied| && supplied[i] == x;
      MergeLookup(base, supplied, key, key(x));
      UniqueLast(supplied, key, key(x));
      FirstAt(supplied, key, key(x), i);
    }
    MergePresent(r, supplied, key);
  }
}
