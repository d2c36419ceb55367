/** Inheritance of cloud-init user data: `cloudConfig.merge`, `parse` and
    `generateCloudConfig` of ccvm/workload.go, on parsed YAML values. */
module CloudConfig {
  import opened Wrappers
  import opened SeqFacts
  import opened WorkloadDocs

  predicate NilFree(c: Config) {
    forall k :: k in c ==> !c[k].Nil?
  }

  function Strip(c: Config): (r: Config)
    ensures NilFree(r)
  {
    map k | k in c && !c[k].Nil? :: c[k]
  }

  predicate Container(v: Value) {
    v.Sequence? || v.Mapping?
  }

  predicate SameKind(a: Value, b: Value) {
    a.Sequence? == b.Sequence? && a.Mapping? == b.Mapping?
  }

  // ---------- one merge ----------

  predicate Conflict(child: Value, parent: Value) {
    Container(parent) && !SameKind(child, parent)
  }

  /** A parent's sequence comes first, its mapping fills gaps, a scalar is overridden. */
  function MergeValue(child: Value, parent: Value): Value
    requires !Conflict(child, parent)
  {
    match parent
    case Sequence(items) => Sequence(items + child.items)
    case Mapping(entries) => Mapping(entries + child.entries)
    case _ => child
  }

  ghost predicate Conflicts(cc: Config, p: Config) {
    exists k :: k in cc && k in p && Conflict(cc[k], p[k])
  }

  function MergedValue(cc: Config, p: Config, k: string): Value
    requires k in cc || k in p
  {
    if k !in cc then p[k] else if k !in p || Conflict(cc[k], p[k]) then cc[k] else MergeValue(cc[k], p[k])
  }

  function Merged(cc: Config, p: Config): Config {
    map k | k in cc.Keys + p.Keys :: MergedValue(cc, p, k)
  }

  ghost function Merge(cc: Config, p: Config): Option<Config> {
    if Conflicts(cc, p) then None else Some(Merged(cc, p))
  }

  /** The receiver of `merge`: a map that is updated in place. */
  class ConfigMap {
    var cc: Config

    constructor (cc: Config)
      ensures this.cc == cc
    {
      this.cc := cc;
    }

    /** The loop of `parse` that removes empty entries. */
    method RemoveEmpty()
      modifies this
      ensures cc == Strip(old(cc))
      ensures forall k :: k in cc <==> k in old(cc) && !old(cc)[k].Nil?
      ensures forall k :: k in cc ==> cc[k] == old(cc)[k]
    {
      var todo := cc.Keys;
      ghost var before := cc;
      while todo != {}
        invariant todo <= cc.Keys <= before.Keys
        invariant forall k :: k in cc ==> cc[k] == before[k]
        invariant forall k :: k in before && k !in todo ==> (k in cc <==> !before[k].Nil?)
        decreases todo
      {
        var k :| k in todo;
        todo := todo - {k};
        if cc[k].Nil? {
          cc := cc - {k};
        }
      }
    }

    /** The inner loop: parent entries the child does not have, in any order. */
    method FillMapping(child: map<string, Value>, parent: map<string, Value>) returns (r: map<string, Value>)
      ensures r == parent + child
    {
      r := child;
      var todo := parent.Keys;
      while todo != {}
        invariant todo <= parent.Keys
        invariant r.Keys == child.Keys + (parent.Keys - todo)
        invariant forall k :: k in r ==> r[k] == if k in child then child[k] else parent[k]
        decreases todo
      {
        var kk :| kk in todo;
        todo := todo - {kk};
        if kk !in r {
          r := r[kk := parent[kk]];
        }
      }
    }

    /** One iteration of the outer loop, for a key of the parent. */
    method MergeKey(p: Config, k: string) returns (ok: bool)
      requires k in p && NilFree(p)
      modifies this
      ensures ok <==> (k in old(cc) ==> (p[k].Sequence? ==> old(cc)[k].Sequence?) && (p[k].Mapping? ==> old(cc)[k].Mapping?))
      ensures ok <==> !(k in old(cc) && Conflict(old(cc)[k], p[k]))
      ensures cc == if ok then old(cc)[k := MergedValue(old(cc), p, k)] else old(cc)
      ensures ok ==> cc[k] == if k !in old(cc) then p[k]
                              else if p[k].Sequence? then Sequence(p[k].items + old(cc)[k].items)
                              else if p[k].Mapping? then Mapping(p[k].entries + old(cc)[k].entries)
                              else old(cc)[k]
    {
      var v := p[k];
      if k !in cc {
        cc := cc[k := v];
        return true;
      }
      if v.Sequence? {
        if !cc[k].Sequence? {
          return false;
        }
        cc := cc[k := Sequence(v.items + cc[k].items)];
      } else if v.Mapping? {
        if !cc[k].Mapping? {
          return false;
        }
        var filled := FillMapping(cc[k].entries, v.entries);
        cc := cc[k := Mapping(filled)];
      }
      return true;
    }

    /** `merge`, in the map's arbitrary order: whether it succeeds, and what it
        yields, does not depend on that order. */
    method MergeFrom(p: Config) returns (ok: bool)
      requires NilFree(cc) && NilFree(p)
      modifies this
      ensures ok <==> forall k :: k in old(cc) && k in p ==> (p[k].Sequence? ==> old(cc)[k].Sequence?) && (p[k].Mapping? ==> old(cc)[k].Mapping?)
      ensures ok <==> !Conflicts(old(cc), p)
      ensures ok ==> cc == Merged(old(cc), p)
      ensures !ok ==> forall k :: k in cc ==> (k in old(cc) && cc[k] == old(cc)[k]) || (k in p && cc[k] == MergedValue(old(cc), p, k))
      ensures NilFree(cc)
    {
      ghost var before := cc;
      var todo := p.Keys;
      while todo != {}
        invariant todo <= p.Keys
        invariant cc.Keys == before.Keys + (p.Keys - todo)
        invariant forall k :: k in cc ==> cc[k] == if k in todo then before[k] else MergedValue(before, p, k)
        invariant forall k :: k in before && k in p && k !in todo ==> !Conflict(before[k], p[k])
        invariant NilFree(cc)
        decreases todo
      {
        var k :| k in todo;
        todo := todo - {k};
        var merged := MergeKey(p, k);
        if !merged {
          return false;
        }
      }
      assert cc == Merged(before, p);
      return true;
    }
  }

  // ---------- a chain of workloads ----------

  ghost function Parsed(w: Chain): Option<Config> {
    match w.parent
    case None => Some(Strip(w.userData))
    case Some(up) =>
      var p := Parsed(up);
      if p.None? then None else Merge(Strip(w.userData), p.value)
  }

  /** `parse`: the merge's demand that nothing is nil is met at every level. */
  method Parse(w: Chain) returns (r: Option<Config>)
    ensures r == Parsed(w)
    ensures r.Some? ==> NilFree(r.value)
  {
    var p: Option<Config> := None;
    if w.parent.Some? {
      p := Parse(w.parent.value);
      if p.None? {
        return None;
      }
    }
    var cc := new ConfigMap(w.userData);
    cc.RemoveEmpty();
    if p.Some? {
      var ok := cc.MergeFrom(p.value);
      if !ok {
        return None;
      }
    }
    return Some(cc.cc);
  }

  /** What the chain says about key `k`, from the root to the leaf. */
  function Defs(w: Chain, k: string): seq<Value> {
    (match w.parent case None => [] case Some(up) => Defs(up, k))
    + if k in w.userData && !w.userData[k].Nil? then [w.userData[k]] else []
  }

  /** Once a sequence or mapping, always one of the same kind. */
  predicate Consistent(defs: seq<Value>) {
    forall i :: 0 <= i < |defs| - 1 ==> !Conflict(defs[i + 1], defs[i])
  }

  /** Below a sequence there are only sequences, and below a mapping only mappings. */
  predicate KindsStay(defs: seq<Value>) {
    forall i :: 0 <= i < |defs| - 1 ==>
      (defs[i].Sequence? ==> defs[i + 1].Sequence?) && (defs[i].Mapping? ==> defs[i + 1].Mapping?)
  }

  lemma KindsMean(defs: seq<Value>)
    ensures Consistent(defs) <==> KindsStay(defs)
  {
    if Consistent(defs) {
      assert forall i :: 0 <= i < |defs| - 1 ==> !Conflict(defs[i + 1], defs[i]);
    }
  }

  /** All items of the sequences among `defs`, in order. */
  function ConcatAll(defs: seq<Value>): seq<Value> {
    if defs == [] then []
    else
      var last := defs[|defs| - 1];
      ConcatAll(defs[..|defs| - 1]) + if last.Sequence? then last.items else []
  }

  /** All entries of the mappings among `defs`; later ones win. */
  function UnionAll(defs: seq<Value>): map<string, Value> {
    if defs == [] then map[]
    else
      var last := defs[|defs| - 1];
      UnionAll(defs[..|defs| - 1]) + if last.Mapping? then last.entries else map[]
  }

  function Combined(defs: seq<Value>): Value
    requires defs != []
  {
    var last := defs[|defs| - 1];
    match last
    case Sequence(_) => Sequence(ConcatAll(defs))
    case Mapping(_) => Mapping(UnionAll(defs))
    case _ => last
  }

  /** Before a scalar there are only scalars. */
  lemma {:induction false} ScalarsOnly(defs: seq<Value>)
    requires Consistent(defs) && defs != [] && !Container(defs[|defs| - 1])
    requires forall i :: 0 <= i < |defs| ==> !defs[i].Nil?
    ensures ConcatAll(defs) == [] && UnionAll(defs) == map[]
  {
    var init := defs[..|defs| - 1];
    if init != [] {
      assert !Conflict(defs[|init|], defs[|init| - 1]);
      assert Consistent(init);
      ScalarsOnly(init);
    }
  }

  /** In a consistent chain every earlier definition has the kind of a container that precedes it. */
  lemma {:induction false} OneContainer(defs: seq<Value>)
    requires Consistent(defs) && defs != []
    requires forall i :: 0 <= i < |defs| ==> !defs[i].Nil?
    ensures defs[|defs| - 1].Sequence? ==> UnionAll(defs) == map[]
    ensures defs[|defs| - 1].Mapping? ==> ConcatAll(defs) == []
  {
    var init := defs[..|defs| - 1];
    if init != [] {
      assert !Conflict(defs[|init|], defs[|init| - 1]);
      assert Consistent(init);
      if Container(init[|init| - 1]) {
        OneContainer(init);
      } else {
        ScalarsOnly(init);
      }
    }
  }

  /** One more definition at the leaf. */
  lemma CombineOne(defs: seq<Value>, v: Value)
    requires defs != [] && Consistent(defs) && !v.Nil?
    requires forall i :: 0 <= i < |defs| ==> !defs[i].Nil?
    ensures Consistent(defs + [v]) <==> !Conflict(v, Combined(defs))
    ensures !Conflict(v, Combined(defs)) ==> Combined(defs + [v]) == MergeValue(v, Combined(defs))
  {
    var all := defs + [v];
    var last := defs[|defs| - 1];
    TakeSnoc(defs, v);
    assert SameKind(last, Combined(defs));
    assert forall i :: 0 <= i < |defs| ==> all[i] == defs[i];
    assert Conflict(v, last) <==> Conflict(v, Combined(defs));
    if Consistent(all) {
      assert !Conflict(all[|defs|], all[|defs| - 1]);
    }
    if !Container(last) {
      ScalarsOnly(defs);
    }
  }

  lemma {:induction false} DefsNilFree(w: Chain, k: string)
    ensures forall i :: 0 <= i < |Defs(w, k)| ==> !Defs(w, k)[i].Nil?
  {
    if w.parent.Some? {
      DefsNilFree(w.parent.value, k);
    }
  }

  ghost predicate AllKindsStay(w: Chain) {
    forall k :: KindsStay(Defs(w, k))
  }

  ghost predicate AllConsistent(w: Chain) {
    forall k :: Consistent(Defs(w, k))
  }

  /** What the result of a parse holds under key `k`. */
  ghost predicate Holds(w: Chain, c: Config, k: string) {
    (k in c <==> Defs(w, k) != []) && (k in c ==> c[k] == Combined(Defs(w, k)))
  }

  lemma ParsedKey(w: Chain, p: Config, k: string)
    requires w.parent.Some? && Consistent(Defs(w.parent.value, k)) && Holds(w.parent.value, p, k)
    ensures var cc := Strip(w.userData);
            && (Consistent(Defs(w, k)) <==> !(k in cc && k in p && Conflict(cc[k], p[k])))
            && (Consistent(Defs(w, k)) ==> Holds(w, Merged(cc, p), k))
  {
    var defs := Defs(w.parent.value, k);
    DefsNilFree(w.parent.value, k);
    AppendNil(defs);
    if k in Strip(w.userData) {
      if defs == [] {
        AppendNil([w.userData[k]]);
        CombineSingle(w.userData[k]);
      } else {
        CombineOne(defs, w.userData[k]);
      }
    }
  }

  lemma {:induction false} ParseConsistent(w: Chain)
    ensures Parsed(w).Some? <==> AllConsistent(w)
    ensures Parsed(w).Some? ==> forall k :: Holds(w, Parsed(w).value, k)
  {
    match w.parent
    case None =>
      forall k ensures Consistent(Defs(w, k)) && Holds(w, Strip(w.userData), k) {
        if k in Strip(w.userData) {
          CombineSingle(w.userData[k]);
        }
      }
    case Some(up) =>
      ParseConsistent(up);
      if AllConsistent(up) {
        var cc, p := Strip(w.userData), Parsed(up).value;
        forall k
          ensures Consistent(Defs(w, k)) <==> !(k in cc && k in p && Conflict(cc[k], p[k]))
          ensures Consistent(Defs(w, k)) ==> Holds(w, Merged(cc, p), k)
        {
          assert Consistent(Defs(up, k)) && Holds(up, p, k);
          ParsedKey(w, p, k);
        }
      } else {
        var k :| !Consistent(Defs(up, k));
        var defs := Defs(up, k);
        var i :| 0 <= i < |defs| - 1 && Conflict(defs[i + 1], defs[i]);
        assert Defs(w, k)[i] == defs[i] && Defs(w, k)[i + 1] == defs[i + 1];
      }
  }

  /** Inheritance over a chain of any length.  Parsing succeeds exactly when no key
      changes kind below a sequence or mapping; then each sequence is the
      root-to-leaf concatenation, each mapping entry and each scalar the nearest
      definition, and nothing else is there. */
  lemma ParseMeaning(w: Chain)
    ensures Parsed(w).Some? <==> AllKindsStay(w)
    ensures Parsed(w).Some? ==> forall k :: Holds(w, Parsed(w).value, k)
  {
    ParseConsistent(w);
    if AllConsistent(w) {
      forall k ensures KindsStay(Defs(w, k)) {
        KindsMean(Defs(w, k));
      }
    } else {
      var k :| !Consistent(Defs(w, k));
      KindsMean(Defs(w, k));
      assert !KindsStay(Defs(w, k));
    }
  }

  lemma CombineSingle(v: Value)
    requires !v.Nil?
    ensures Combined([v]) == v
  {
    assert [v][..0] == [];
    assert ConcatAll([]) == [] && UnionAll([]) == map[];
  }

  /** Scalars are always overridden, never refused. */
  lemma ScalarsOverride(w: Chain)
    requires forall k, i :: 0 <= i < |Defs(w, k)| ==> Defs(w, k)[i].Scalar?
    ensures Parsed(w).Some?
    ensures forall k :: k in Parsed(w).value <==> Defs(w, k) != []
    ensures forall k :: k in Parsed(w).value ==> Parsed(w).value[k] == Defs(w, k)[|Defs(w, k)| - 1]
  {
    forall k ensures KindsStay(Defs(w, k)) {
      assert forall i :: 0 <= i < |Defs(w, k)| ==> Defs(w, k)[i].Scalar?;
    }
    ParseMeaning(w);
    forall k
      ensures k in Parsed(w).value <==> Defs(w, k) != []
      ensures k in Parsed(w).value ==> Parsed(w).value[k] == Defs(w, k)[|Defs(w, k)| - 1]
    {
      assert Holds(w, Parsed(w).value, k);
      if Defs(w, k) != [] {
        assert Defs(w, k)[|Defs(w, k)| - 1].Scalar?;
      }
    }
  }

  /** One level of inheritance, key by key: what the inheriting workload leaves empty
      comes from its parent; its own sequence follows the parent's; its own mapping
      wins over the parent's entry by entry; and any other value of its own wins. */
  lemma ParseLevel(w: Chain, k: string)
    requires Parsed(w).Some?
    ensures var c := Parsed(w).value;
            var p := match w.parent case None => map[] case Some(up) => if Parsed(up).Some? then Parsed(up).value else map[];
            && (w.parent.Some? ==> Parsed(w.parent.value).Some?)
            && (k !in w.userData || w.userData[k].Nil? ==> (k in c <==> k in p) && (k in c ==> c[k] == p[k]))
            && (k in w.userData && !w.userData[k].Nil? ==>
                  var own := w.userData[k];
                  && k in c
                  && (k !in p ==> c[k] == own)
                  && (k in p && p[k].Sequence? ==> own.Sequence? && c[k] == Sequence(p[k].items + own.items))
                  && (k in p && p[k].Mapping? ==> own.Mapping? && c[k] == Mapping(p[k].entries + own.entries))
                  && (k in p && p[k].Scalar? ==> c[k] == own))
  {}

  /** In a union the nearest definition that has the key decides. */
  lemma {:induction false} NearestEntry(defs: seq<Value>, key: string) returns (i: nat)
    requires key in UnionAll(defs)
    ensures i < |defs| && defs[i].Mapping? && key in defs[i].entries && UnionAll(defs)[key] == defs[i].entries[key]
    ensures forall j :: i < j < |defs| && defs[j].Mapping? ==> key !in defs[j].entries
  {
    var last := defs[|defs| - 1];
    if last.Mapping? && key in last.entries {
      i := |defs| - 1;
    } else {
      i := NearestEntry(defs[..|defs| - 1], key);
    }
  }

  // ---------- associativity ----------

  /** Merging the leaf into the middle first forgives a scalar that stands between
      two containers; merging the middle into the root first does not. */
  ghost predicate Straddled(a: Config, b: Config, c: Config) {
    exists k :: k in a && k in b && k in c && Container(c[k]) && b[k].Scalar?
  }

  lemma MergeValueAssoc(a: Value, b: Value, c: Value)
    requires !Conflict(b, c) && !Conflict(a, b) && !Conflict(a, MergeValue(b, c))
    ensures !Conflict(MergeValue(a, b), c)
    ensures MergeValue(MergeValue(a, b), c) == MergeValue(a, MergeValue(b, c))
  {}

  /** The two orders of merging three levels agree if and only if the leaf-first
      order fails too or no scalar straddles; a straddled key fails root-first. */
  lemma MergeAssociative(a: Config, b: Config, c: Config)
    requires NilFree(a) && NilFree(b) && NilFree(c)
    ensures var ab, bc := Merge(a, b), Merge(b, c);
            var l := if ab.None? then None else Merge(ab.value, c);
            var r := if bc.None? then None else Merge(a, bc.value);
            (l == r <==> (l.None? || !Straddled(a, b, c))) && (Straddled(a, b, c) ==> r.None?)
  {
    var ab, bc := Merged(a, b), Merged(b, c);
    if Straddled(a, b, c) {
      var k :| k in a && k in b && k in c && Container(c[k]) && b[k].Scalar?;
      assert Conflict(b[k], c[k]);
    }
    if !Conflicts(b, c) && !Conflicts(a, bc) {
      RightGivesLeft(a, b, c);
    }
    if !Conflicts(a, b) && !Conflicts(ab, c) && !Straddled(a, b, c) {
      LeftGivesRight(a, b, c);
    }
  }

  lemma RightGivesLeft(a: Config, b: Config, c: Config)
    requires NilFree(a) && NilFree(b) && NilFree(c)
    requires !Conflicts(b, c) && !Conflicts(a, Merged(b, c))
    ensures !Conflicts(a, b) && !Conflicts(Merged(a, b), c)
    ensures Merged(Merged(a, b), c) == Merged(a, Merged(b, c))
  {
    var ab, bc := Merged(a, b), Merged(b, c);
    forall k | k in a && k in b ensures !Conflict(a[k], b[k]) {
      assert !Conflict(a[k], bc[k]);
      assert k in c ==> !Conflict(b[k], c[k]);
    }
    forall k | k in ab && k in c ensures !Conflict(ab[k], c[k]) {
      assert k in b ==> !Conflict(b[k], c[k]);
      assert k in a ==> !Conflict(a[k], bc[k]);
    }
    SameValues(a, b, c);
  }

  lemma LeftGivesRight(a: Config, b: Config, c: Config)
    requires NilFree(a) && NilFree(b) && NilFree(c)
    requires !Conflicts(a, b) && !Conflicts(Merged(a, b), c) && !Straddled(a, b, c)
    ensures !Conflicts(b, c) && !Conflicts(a, Merged(b, c))
    ensures Merged(Merged(a, b), c) == Merged(a, Merged(b, c))
  {
    var ab, bc := Merged(a, b), Merged(b, c);
    forall k | k in b && k in c ensures !Conflict(b[k], c[k]) {
      assert !Conflict(ab[k], c[k]);
      assert k in a ==> !Conflict(a[k], b[k]);
    }
    forall k | k in a && k in bc ensures !Conflict(a[k], bc[k]) {
      assert k in b ==> !Conflict(a[k], b[k]);
      assert k in c ==> !Conflict(ab[k], c[k]);
    }
    SameValues(a, b, c);
  }

  lemma SameValues(a: Config, b: Config, c: Config)
    requires !Conflicts(a, b) && !Conflicts(Merged(a, b), c) && !Conflicts(b, c) && !Conflicts(a, Merged(b, c))
    ensures Merged(Merged(a, b), c) == Merged(a, Merged(b, c))
  {
    var ab, bc := Merged(a, b), Merged(b, c);
    forall k | k in a.Keys + b.Keys + c.Keys ensures MergedValue(ab, c, k) == MergedValue(a, bc, k) {
      if k in a && k in b && k in c {
        assert !Conflict(a[k], b[k]) && !Conflict(b[k], c[k]) && !Conflict(a[k], bc[k]);
        MergeValueAssoc(a[k], b[k], c[k]);
      }
    }
    assert Merged(ab, c).Keys == Merged(a, bc).Keys;
  }

  // ---------- the finished command ----------

  const RUNCMD := "runcmd"

  datatype Generated = Done(config: Config) | ParseError | Panic

  /** `generateCloudConfig` up to the marshalling; the type assertion on an
      inherited `runcmd` panics when that is not a sequence. */
  method Generate(w: Chain, finished: string) returns (r: Generated)
    ensures r.ParseError? <==> !AllKindsStay(w)
    ensures r.Panic? <==> AllKindsStay(w) && var d := Defs(w, RUNCMD); d != [] && !d[|d| - 1].Sequence?
    ensures r.Done? ==>
              && RUNCMD in r.config
              && r.config[RUNCMD] == Sequence(ConcatAll(Defs(w, RUNCMD)) + [Scalar(finished)])
              && forall k :: k != RUNCMD ==> Holds(w, r.config, k)
  {
    var data := Parse(w);
    ParseMeaning(w);
    if data.None? {
      return ParseError;
    }
    var config := data.value;
    assert Holds(w, config, RUNCMD);
    if RUNCMD in config {
      if !config[RUNCMD].Sequence? {
        return Panic;
      }
      config := config[RUNCMD := Sequence(config[RUNCMD].items + [Scalar(finished)])];
    } else {
      config := config[RUNCMD := Sequence([Scalar(finished)])];
      assert ConcatAll(Defs(w, RUNCMD)) + [Scalar(finished)] == [Scalar(finished)];
    }
    forall k | k != RUNCMD ensures Holds(w, config, k) {
      assert Holds(w, data.value, k);
    }
    return Done(config);
  }
}
