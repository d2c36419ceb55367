/** The instance name generator of ccvm/name.go: a shuffled table of all
    adjective-noun pairs, read cyclically.  The random swap partners are
    arbitrary; the word lists are parameters with the properties the source's
    lists have. */
module Names {
  import opened SeqFacts

  datatype NameIndex = NameIndex(n: nat, a: nat)

  // ---------- arithmetic of the table ----------

  lemma DivMod(q: nat, r: nat, m: nat)
    requires r < m
    ensures (q * m + r) / m == q && (q * m + r) % m == r
  {
    var x := q * m + r;
    var d := x / m - q;
    assert x == (x / m) * m + x % m;
    assert d * m == r - x % m;
    assert d >= 1 ==> d * m >= m;
    assert d <= -1 ==> d * m <= -1 * m;
  }

  lemma CellBound(i: nat, j: nat, rows: nat, cols: nat)
    requires i < rows && j < cols
    ensures i * cols + j < rows * cols
  {
    assert (i + 1) * cols <= rows * cols;
  }

  lemma RowOf(k: nat, rows: nat, cols: nat)
    requires k < rows * cols
    ensures cols > 0 && k / cols < rows && k % cols < cols && k / cols * cols + k % cols == k
  {
    assert cols > 0;
    var row := k / cols;
    assert row >= rows ==> row * cols >= rows * cols;
  }

  // ---------- permutations of the pairs ----------

  /** All pairs of an adjective and a noun, each exactly once. */
  ghost predicate AllPairs(s: seq<NameIndex>, rows: nat, cols: nat) {
    && |s| == rows * cols
    && Distinct(s)
    && (forall p :: p in s ==> p.a < rows && p.n < cols)
    && (forall a: nat, n: nat :: a < rows && n < cols ==> NameIndex(n, a) in s)
  }

  function Swap<T>(s: seq<T>, i: nat, j: nat): seq<T>
    requires i < |s| && j < |s|
  {
    s[i := s[j]][j := s[i]]
  }

  lemma SwapKeeps(s: seq<NameIndex>, i: nat, j: nat, rows: nat, cols: nat)
    requires i < |s| && j < |s| && AllPairs(s, rows, cols)
    ensures AllPairs(Swap(s, i, j), rows, cols)
  {
    var t := Swap(s, i, j);
    forall p | p in s ensures p in t {
      var k :| 0 <= k < |s| && s[k] == p;
      var k' := if k == i then j else if k == j then i else k;
      assert t[k'] == p;
    }
    forall p | p in t ensures p in s {
      var k :| 0 <= k < |t| && t[k] == p;
      assert p == s[if k == i then j else if k == j then i else k];
    }
  }

  /** The table as the nested loops fill it. */
  ghost predicate Filled(s: seq<NameIndex>, upTo: nat, cols: nat) {
    upTo <= |s| && cols > 0 && forall k :: 0 <= k < upTo ==> s[k] == NameIndex(k % cols, k / cols)
  }

  lemma FilledIsAll(s: seq<NameIndex>, rows: nat, cols: nat)
    requires |s| == rows * cols && Filled(s, |s|, cols)
    ensures AllPairs(s, rows, cols)
  {
    forall i, j | 0 <= i < j < |s| ensures s[i] != s[j] {
      RowOf(i, rows, cols);
      RowOf(j, rows, cols);
    }
    forall k | 0 <= k < |s| ensures s[k].a < rows && s[k].n < cols {
      RowOf(k, rows, cols);
    }
    forall a: nat, n: nat | a < rows && n < cols ensures NameIndex(n, a) in s {
      CellBound(a, n, rows, cols);
      DivMod(a, n, cols);
      assert s[a * cols + n] == NameIndex(n, a);
    }
  }

  // ---------- rendering ----------

  /** The words the generator draws from: distinct, and no adjective has a dash. */
  ghost predicate Words(adjectives: seq<string>, nouns: seq<string>) {
    && adjectives != [] && nouns != []
    && Distinct(adjectives) && Distinct(nouns)
    && forall a :: a in adjectives ==> '-' !in a
  }

  function Render(adjective: string, noun: string): string {
    adjective + "-" + noun
  }

  lemma RenderInjective(a: string, n: string, a': string, n': string)
    requires '-' !in a && '-' !in a' && Render(a, n) == Render(a', n')
    ensures a == a' && n == n'
  {
    var s := Render(a, n);
    assert s[|a|] == '-' && s[|a'|] == '-';
    assert forall i :: 0 <= i < |a| ==> s[i] == a[i] && a[i] in a;
    assert forall i :: 0 <= i < |a'| ==> s[i] == a'[i] && a'[i] in a';
    assert |a| == |a'|;
    assert s[..|a|] == a && s[..|a'|] == a' && s[|a| + 1..] == n && s[|a'| + 1..] == n';
  }

  lemma {:induction false} DistinctFit(s: seq<string>, all: set<string>)
    requires Distinct(s) && forall i :: 0 <= i < |s| ==> s[i] in all
    ensures |s| <= |all|
  {
    if s != [] {
      var init, last := s[..|s| - 1], s[|s| - 1];
      DistinctFit(init, all - {last});
    }
  }

  class NameGenerator {
    const adjectives: seq<string>
    const nouns: seq<string>
    const indicies: array<NameIndex>
    var counter: nat

    function MaxNames(): nat {
      |adjectives| * |nouns|
    }

    ghost predicate Valid()
      reads this, indicies
    {
      && Words(adjectives, nouns)
      && AllPairs(indicies[..], |adjectives|, |nouns|)
      && counter < MaxNames()
    }

    /** The name at position `k` of the shuffled table. */
    ghost function NameAt(k: nat): string
      requires Valid() && k < MaxNames()
      reads this, indicies
    {
      assert indicies[..][k] in indicies[..];
      Render(adjectives[indicies[k].a], nouns[indicies[k].n])
    }

    /** `init`: fill the table, then swap every position with an arbitrary one. */
    constructor (adjectives: seq<string>, nouns: seq<string>, partners: seq<nat>)
      requires Words(adjectives, nouns)
      requires |partners| == |adjectives| * |nouns| && forall p :: p in partners ==> p < |partners|
      ensures Valid() && fresh(indicies)
      ensures this.adjectives == adjectives && this.nouns == nouns && counter == 0
    {
      this.adjectives, this.nouns := adjectives, nouns;
      var rows, cols := |adjectives|, |nouns|;
      var table := new NameIndex[rows * cols](_ => NameIndex(0, 0));
      indicies := table;
      counter := 0;
      new;
      Fill(table, rows, cols);
      FilledIsAll(table[..], rows, cols);
      CellBound(0, 0, rows, cols);
      for i := 0 to table.Length
        invariant AllPairs(table[..], rows, cols)
        invariant counter == 0 && indicies == table
      {
        var r1 := partners[i];
        assert r1 in partners;
        SwapKeeps(table[..], r1, i, rows, cols);
        ghost var before := table[..];
        table[r1], table[i] := table[i], table[r1];
        assert table[..] == Swap(before, r1, i);
      }
    }

    static method Fill(table: array<NameIndex>, rows: nat, cols: nat)
      requires table.Length == rows * cols && cols > 0
      modifies table
      ensures Filled(table[..], table.Length, cols)
    {
      for i := 0 to rows
        invariant i * cols <= table.Length
        invariant Filled(table[..], i * cols, cols)
      {
        for j := 0 to cols
          invariant i * cols + j <= table.Length
          invariant Filled(table[..], i * cols + j, cols)
        {
          CellBound(i, j, rows, cols);
          DivMod(i, j, cols);
          table[i * cols + j] := NameIndex(j, i);
        }
        assert i * cols + cols == (i + 1) * cols;
      }
    }

    /** `makeRandomName`. */
    method MakeRandomName() returns (name: string)
      requires Valid()
      modifies this`counter
      ensures Valid() && name == NameAt(old(counter))
      ensures counter == (old(counter) + 1) % MaxNames()
    {
      var ni := indicies[counter];
      assert indicies[..][counter] in indicies[..];
      counter := counter + 1;
      if counter == MaxNames() {
        counter := 0;
      }
      name := Render(adjectives[ni.a], nouns[ni.n]);
    }

    /** Different positions hold different names. */
    lemma NamesDistinct(i: nat, j: nat)
      requires Valid() && i < MaxNames() && j < MaxNames() && i != j
      ensures NameAt(i) != NameAt(j)
    {
      var p, q := indicies[..][i], indicies[..][j];
      assert p in indicies[..] && q in indicies[..] && p != q;
      if NameAt(i) == NameAt(j) {
        assert adjectives[p.a] in adjectives && adjectives[q.a] in adjectives;
        RenderInjective(adjectives[p.a], nouns[p.n], adjectives[q.a], nouns[q.n]);
      }
    }

    /** Every adjective goes with every noun somewhere in the table. */
    lemma NameExists(a: nat, n: nat) returns (k: nat)
      requires Valid() && a < |adjectives| && n < |nouns|
      ensures k < MaxNames() && NameAt(k) == Render(adjectives[a], nouns[n])
    {
      assert NameIndex(n, a) in indicies[..];
      k :| k < MaxNames() && indicies[..][k] == NameIndex(n, a);
    }

    /** As many calls as there are names, from whatever point of the cycle: every
        name comes, and none comes twice. */
    method TakeAll() returns (all: seq<string>)
      requires Valid()
      modifies this`counter
      ensures Valid() && counter == old(counter)
      ensures |all| == MaxNames() && Distinct(all)
      ensures forall a: nat, n: nat :: a < |adjectives| && n < |nouns| ==> adjectives[a] + "-" + nouns[n] in all
    {
      all := [];
      var m := MaxNames();
      for i := 0 to m
        invariant Valid() && |all| == i
        invariant counter == Position(old(counter), i, m)
        invariant forall k :: 0 <= k < i ==> all[k] == NameAt(Position(old(counter), k, m))
      {
        PositionNext(old(counter), i, m);
        var name := MakeRandomName();
        all := all + [name];
      }
      forall i, j | 0 <= i < j < |all| ensures all[i] != all[j] {
        NamesDistinct(Position(old(counter), i, m), Position(old(counter), j, m));
      }
      forall a: nat, n: nat | a < |adjectives| && n < |nouns| ensures Render(adjectives[a], nouns[n]) in all {
        var k := NameExists(a, n);
        var i := if k >= old(counter) then k - old(counter) else k + m - old(counter);
        assert all[i] == NameAt(k);
      }
    }

    /** Fewer instances than names leave a name free. */
    lemma SomeNameFree(instances: set<string>)
      requires Valid() && |instances| < MaxNames()
      ensures exists k :: 0 <= k < MaxNames() && NameAt(k) !in instances
    {
      if forall k :: 0 <= k < MaxNames() ==> NameAt(k) in instances {
        var all := seq(MaxNames(), k requires 0 <= k < MaxNames() && Valid() reads this, indicies => NameAt(k));
        forall i, j | 0 <= i < j < |all| ensures all[i] != all[j] {
          NamesDistinct(i, j);
        }
        DistinctFit(all, instances);
        assert false;
      }
    }

    /** `newInstanceName`: it returns a free name exactly when some name is free;
        otherwise it returns a name in use, without an error. */
    method NewInstanceName(instances: set<string>) returns (name: string)
      requires Valid()
      modifies this`counter
      ensures Valid()
      ensures exists k :: 0 <= k < MaxNames() && name == NameAt(k)
      ensures name !in instances <==> exists k :: 0 <= k < MaxNames() && NameAt(k) !in instances
    {
      name := "";
      var m := MaxNames();
      var i := 0;
      while i < m
        invariant 0 <= i <= m && Valid()
        invariant counter == Position(old(counter), i, m)
        invariant forall k :: 0 <= k < i ==> NameAt(Position(old(counter), k, m)) in instances
        invariant i > 0 ==> name == NameAt(Position(old(counter), i - 1, m))
      {
        PositionNext(old(counter), i, m);
        name := MakeRandomName();
        if name !in instances {
          return;
        }
        i := i + 1;
      }
      forall t | 0 <= t < m ensures NameAt(t) in instances {
        var k := if t >= old(counter) then t - old(counter) else t + m - old(counter);
        assert Position(old(counter), k, m) == t;
      }
    }
  }

  /** Where the cycle of length `m` stands `k` calls after `start`. */
  function Position(start: nat, k: nat, m: nat): (p: nat)
    requires start < m && k <= m
    ensures p < m
  {
    if start + k < m then start + k else start + k - m
  }

  lemma PositionNext(start: nat, k: nat, m: nat)
    requires start < m && k < m
    ensures Position(start, k + 1, m) == (Position(start, k, m) + 1) % m
  {}
}
