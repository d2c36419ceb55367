/** Host addresses over whole runs.  The service records the addresses it allocates
    or restores, and zero for one that was given explicitly; so two instances can
    run on one address, and this says exactly when. */
module ServiceAddresses {
  import opened Wrappers
  import opened HostIPs
  import opened ServiceModel
  import opened ServiceTheorems

  /** A recorded address is taken, and no later instance runs on it. */
  ghost predicate Guarded(w: World) {
    && HostMask(w.svc.mask)
    && (forall l :: l in w.svc.names ==> l < |w.loops|)
    && (forall l :: 0 <= l < |w.loops| && w.loops[l].addr.recorded ==> w.loops[l].addr.ip in w.svc.hostIPs)
    && (forall a, b :: 0 <= a < b < |w.loops| && w.loops[a].addr.recorded ==> w.loops[a].addr.ip != w.loops[b].addr.ip)
  }

  /** Two registered instances run on the same address. */
  ghost predicate Shared(w: World) {
    exists a, b :: 0 <= a < b < |w.loops| && a in w.svc.names && b in w.svc.names && w.loops[a].addr.ip == w.loops[b].addr.ip
  }

  /** The address a creation will run on, if the request is accepted. */
  function AcceptedAddress(w: World, r: Request): Option<Address>
    requires HostMask(w.svc.mask)
  {
    if !r.ReqCreate? || NameFor(w.svc, r).None? || Flat(w.svc, r.host).None? then None
    else Some(Flat(w.svc, r.host).value.1)
  }

  /** The request is accepted on an address that an instance was explicitly given. */
  ghost predicate Collides(w: World, e: Event) {
    && Enabled(w, e) && e.Start? && AcceptedAddress(w, e.r).Some?
    && exists l :: l in w.svc.names && l < |w.loops| && !w.loops[l].addr.recorded
         && w.loops[l].addr.ip == AcceptedAddress(w, e.r).value.ip
  }

  /** What a start action does to addresses. */
  lemma StartAddresses(w: World, r: Request)
    requires Enabled(w, Start(r))
    ensures var w', a := Step(w, Start(r)), AcceptedAddress(w, r);
            && w'.svc.mask == w.svc.mask && w.svc.hostIPs <= w'.svc.hostIPs
            && if a.None? then w'.loops == w.loops && w'.svc.names == w.svc.names
               else
                 && w'.loops == w.loops + [FreshLoop(a.value)]
                 && w'.svc.names.Keys == w.svc.names.Keys + {|w.loops|}
                 && a.value.ip !in w.svc.hostIPs && (a.value.recorded ==> a.value.ip in w'.svc.hostIPs)
  {
    FreeIPLeast(w.svc.mask, w.svc.hostIPs);
    var s1 := Admit(w, KindOf(r)).svc;
    if r.ReqCreate? {
      assert Flat(s1, r.host) == Flat(w.svc, r.host) && NameFor(s1, r) == NameFor(w.svc, r);
    }
  }

  /** No other step gives out an address or registers an instance. */
  lemma OtherAddresses(w: World, e: Event)
    requires !e.Start?
    ensures var w' := Step(w, e);
            && w'.svc.mask == w.svc.mask && w'.svc.hostIPs == w.svc.hostIPs && w'.svc.names.Keys <= w.svc.names.Keys
            && |w'.loops| == |w.loops| && forall l :: 0 <= l < |w.loops| ==> w'.loops[l].addr == w.loops[l].addr
  {}

  lemma StepShared(w: World, e: Event)
    requires Guarded(w)
    ensures Guarded(Step(w, e))
    ensures Shared(Step(w, e)) ==> Shared(w) || Collides(w, e)
    ensures Collides(w, e) ==> Shared(Step(w, e))
  {
    if e.Start? && Enabled(w, e) {
      StartShared(w, e.r);
    } else if !e.Start? {
      OtherAddresses(w, e);
    }
  }

  lemma StartGuarded(w: World, w': World, a: Option<Address>)
    requires Guarded(w) && w'.svc.mask == w.svc.mask && w.svc.hostIPs <= w'.svc.hostIPs
    requires if a.None? then w'.loops == w.loops && w'.svc.names == w.svc.names
             else
               && w'.loops == w.loops + [FreshLoop(a.value)]
               && w'.svc.names.Keys == w.svc.names.Keys + {|w.loops|}
               && a.value.ip !in w.svc.hostIPs && (a.value.recorded ==> a.value.ip in w'.svc.hostIPs)
    ensures Guarded(w')
  {}

  lemma StartShared(w: World, r: Request)
    requires Guarded(w) && Enabled(w, Start(r))
    ensures var w' := Step(w, Start(r));
            Guarded(w') && (Shared(w') ==> Shared(w) || Collides(w, Start(r))) && (Collides(w, Start(r)) ==> Shared(w'))
  {
    StartAddresses(w, r);
    StartGuarded(w, Step(w, Start(r)), AcceptedAddress(w, r));
    if Collides(w, Start(r)) {
      var l :| l in w.svc.names && l < |w.loops| && !w.loops[l].addr.recorded
        && w.loops[l].addr.ip == AcceptedAddress(w, r).value.ip;
      assert Step(w, Start(r)).loops[|w.loops|].addr.ip == w.loops[l].addr.ip;
    }
  }

  lemma {:induction false} RestoredGuarded(systemd: bool, uid: nat, dirs: seq<Saved>)
    ensures var w := Begin(systemd, uid, dirs);
            Guarded(w) && forall l :: 0 <= l < |w.loops| ==> w.loops[l].addr.recorded
  {
    if dirs != [] {
      RestoredGuarded(systemd, uid, dirs[..|dirs| - 1]);
    }
  }

  ghost predicate SharedAtSomeTime(w: World, es: seq<Event>) {
    Shared(Run(w, es)) || (es != [] && SharedAtSomeTime(w, es[..|es| - 1]))
  }

  ghost predicate CollidesAtSomeTime(w: World, es: seq<Event>) {
    es != [] && (Collides(Run(w, es[..|es| - 1]), es[|es| - 1]) || CollidesAtSomeTime(w, es[..|es| - 1]))
  }

  lemma {:induction false} RunGuarded(w: World, es: seq<Event>)
    requires Guarded(w)
    ensures Guarded(Run(w, es))
  {
    if es != [] {
      RunGuarded(w, es[..|es| - 1]);
      StepShared(Run(w, es[..|es| - 1]), es[|es| - 1]);
    }
  }

  /** On every run two instances share a host address at some time if and only if
      some request was accepted on an address an instance was explicitly given. */
  lemma {:induction false} SharedExactly(systemd: bool, uid: nat, dirs: seq<Saved>, es: seq<Event>)
    ensures var w := Begin(systemd, uid, dirs);
            SharedAtSomeTime(w, es) <==> CollidesAtSomeTime(w, es)
  {
    var w := Begin(systemd, uid, dirs);
    RestoredGuarded(systemd, uid, dirs);
    if es != [] {
      var init := es[..|es| - 1];
      SharedExactly(systemd, uid, dirs, init);
      RunGuarded(w, init);
      StepShared(Run(w, init), es[|es| - 1]);
    }
  }

  lemma FirstExplicit(uid: nat, name: string, ip: IP)
    requires name != "" && ip.IPv4?
    ensures var w := Step(Step(Empty(false, uid), Start(ReqCreate(name, true, "", Explicit(ip), 0, 0, false))), Handover);
            && w.svc.pc.Select? && HostMask(w.svc.mask) && w.svc.names.Keys == {0} && w.svc.instances.Keys == {name} && w.svc.hostIPs == {0}
            && |w.loops| == 1 && w.loops[0].addr.ip == Flatten(ip).value
  {
    var w0, r := Empty(false, uid), ReqCreate(name, true, "", Explicit(ip), 0, 0, false);
    StartAddresses(w0, r);
    var w1 := Step(w0, Start(r));
    assert w1.loops == [FreshLoop(Address(Flatten(ip).value, false))];
    OtherAddresses(w1, Handover);
  }

  /** Two creations with the same explicit address, other than 0.0.0.0, are both accepted. */
  lemma SharingHappens(uid: nat, n1: string, n2: string, ip: IP)
    requires n1 != "" && n2 != "" && n1 != n2 && ip.IPv4? && Flatten(ip) != Some(0)
    ensures var r1, r2 := ReqCreate(n1, true, "", Explicit(ip), 0, 0, false), ReqCreate(n2, true, "", Explicit(ip), 0, 0, false);
            Shared(Step(Step(Step(Empty(false, uid), Start(r1)), Handover), Start(r2)))
  {
    var r1, r2 := ReqCreate(n1, true, "", Explicit(ip), 0, 0, false), ReqCreate(n2, true, "", Explicit(ip), 0, 0, false);
    FirstExplicit(uid, n1, ip);
    var w := Step(Step(Empty(false, uid), Start(r1)), Handover);
    StartAddresses(w, r2);
    assert Step(w, Start(r2)).loops[1].addr.ip == w.loops[0].addr.ip;
  }

  // ---------- addresses are never given back ----------

  /** Some loop ever started, gone or not, has `a` recorded for it. */
  ghost predicate RecordedFor(loops: seq<Loop>, a: Word) {
    exists l :: 0 <= l < |loops| && loops[l].addr == Address(a, true)
  }

  ghost predicate OnlyRecorded(w: World) {
    forall a :: a in w.svc.hostIPs && a != 0 ==> RecordedFor(w.loops, a)
  }

  lemma StartRecords(w: World, r: Request)
    requires OnlyRecorded(w) && Enabled(w, Start(r))
    ensures OnlyRecorded(Step(w, Start(r)))
  {
    var w', s1 := Step(w, Start(r)), Admit(w, KindOf(r)).svc;
    StartAddresses(w, r);
    if r.ReqCreate? {
      assert Flat(s1, r.host) == Flat(w.svc, r.host) && NameFor(s1, r) == NameFor(w.svc, r);
    }
    forall a | a in w'.svc.hostIPs && a != 0 ensures RecordedFor(w'.loops, a) {
      if a in w.svc.hostIPs {
        var l :| 0 <= l < |w.loops| && w.loops[l].addr == Address(a, true);
        assert w'.loops[l].addr == Address(a, true);
      } else {
        assert w'.loops[|w.loops|].addr == Address(a, true);
      }
    }
  }

  lemma StepRecords(w: World, e: Event)
    requires OnlyRecorded(w)
    ensures OnlyRecorded(Step(w, e))
  {
    if !e.Start? {
      OtherAddresses(w, e);
      forall a | a in w.svc.hostIPs && a != 0 ensures RecordedFor(Step(w, e).loops, a) {
        var l :| 0 <= l < |w.loops| && w.loops[l].addr == Address(a, true);
        assert Step(w, e).loops[l].addr == Address(a, true);
      }
    } else if Enabled(w, e) {
      StartRecords(w, e.r);
    }
  }

  lemma {:induction false} RestoredRecords(systemd: bool, uid: nat, dirs: seq<Saved>)
    ensures OnlyRecorded(Begin(systemd, uid, dirs))
  {
    if dirs != [] {
      var w, w' := Begin(systemd, uid, dirs[..|dirs| - 1]), Begin(systemd, uid, dirs);
      RestoredRecords(systemd, uid, dirs[..|dirs| - 1]);
      forall a | a in w'.svc.hostIPs && a != 0 ensures RecordedFor(w'.loops, a) {
        if a in w.svc.hostIPs {
          var l :| 0 <= l < |w.loops| && w.loops[l].addr == Address(a, true);
          assert w'.loops[l].addr == Address(a, true);
        } else {
          assert w'.loops[|w.loops|].addr == Address(a, true);
        }
      }
    }
  }

  lemma {:induction false} RunRecords(w: World, es: seq<Event>)
    requires OnlyRecorded(w)
    ensures OnlyRecorded(Run(w, es))
  {
    if es != [] {
      RunRecords(w, es[..|es| - 1]);
      StepRecords(Run(w, es[..|es| - 1]), es[|es| - 1]);
    }
  }

  /** On every run no address is left to allocate if and only if each of the block's
      254 was once recorded for an instance, whether it still exists or not. */
  lemma ExhaustedExactly(systemd: bool, uid: nat, dirs: seq<Saved>, es: seq<Event>)
    ensures var w := Run(Begin(systemd, uid, dirs), es);
            && HostMask(w.svc.mask)
            && (FreeIP(w.svc.mask, w.svc.hostIPs).None? <==> forall a: Word :: InBlock(w.svc.mask, a) ==> RecordedFor(w.loops, a))
  {
    var w := Run(Begin(systemd, uid, dirs), es);
    RestoredGuarded(systemd, uid, dirs);
    RunGuarded(Begin(systemd, uid, dirs), es);
    RestoredRecords(systemd, uid, dirs);
    RunRecords(Begin(systemd, uid, dirs), es);
    FreeIPLeast(w.svc.mask, w.svc.hostIPs);
    forall a: Word | InBlock(w.svc.mask, a) ensures a in w.svc.hostIPs <==> RecordedFor(w.loops, a) {
      if RecordedFor(w.loops, a) {
        var l :| 0 <= l < |w.loops| && w.loops[l].addr == Address(a, true);
      }
    }
  }
}
