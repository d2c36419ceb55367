/** Runs in which the service falls short: a name clash, and two shutdowns that cannot
    end. */
module ServiceWitnesses {
  import opened Wrappers
  import opened HostIPs
  import opened ServiceModel
  import opened ServiceInv
  import opened ServiceLedger
  import opened ServiceTheorems
  import opened ServiceWork
  import opened ServiceShutdown
  import opened ServiceLimits

  /** Every creation in the schedule brings a name of its own. */
  predicate AllNamed(es: seq<Event>) {
    forall e :: e in es && e.Start? && e.r.ReqCreate? ==> e.r.name != ""
  }

  lemma {:induction false} NamedIsFree(w: World, es: seq<Event>)
    requires AllNamed(es)
    ensures FreeNames(w, es)
  {
    if es != [] {
      NamedIsFree(w, es[..|es| - 1]);
      assert es[|es| - 1] in es;
    }
  }

  lemma NamedReaches(systemd: bool, uid: nat, es: seq<Event>)
    requires AllNamed(es)
    ensures Reachable(Run(Empty(systemd, uid), es))
  {
    NamedIsFree(Empty(systemd, uid), es);
    assert Begin(systemd, uid, []) == Empty(systemd, uid);
    assert Directories([]);
  }

  lemma NamedNext(es: seq<Event>, e: Event)
    requires AllNamed(es) && (e.Start? && e.r.ReqCreate? ==> e.r.name != "")
    ensures AllNamed(es + [e])
  {}

  /** A creation with a name, handed over, and three steps that start nothing. */
  lemma NamedFive(r: Request, a: Event, b: Event, c: Event)
    requires r.ReqCreate? && r.name != "" && !a.Start? && !b.Start? && !c.Start?
    ensures AllNamed([Start(r)] + [Handover]) && AllNamed([Start(r)] + [Handover] + [a] + [b] + [c])
  {
    NamedNext([], Start(r));
    assert [] + [Start(r)] == [Start(r)];
    NamedNext([Start(r)], Handover);
    NamedNext([Start(r)] + [Handover], a);
    NamedNext([Start(r)] + [Handover] + [a], b);
    NamedNext([Start(r)] + [Handover] + [a] + [b], c);
  }

  lemma NeverGone(w: World, more: seq<Event>)
    requires Reachable(w) && Leaving(w.svc.pc)
    ensures Run(w, more).svc.pc.Gone? ==> Fits(w) && Served(w)
  {
    ShutdownEndsExactly(w);
    assert Run(w, more).svc.pc.Gone? ==> exists es :: Run(w, es).svc.pc.Gone?;
  }

  /** A first creation, just handed to its loop. */
  predicate Creating(w: World, name: string, lines: nat, asks: nat) {
    && w.svc.pc.Select? && HostMask(w.svc.mask) && name in w.svc.instances && w.svc.instances[name] == 0
    && w.svc.hostIPs == {w.svc.mask + 1} && w.svc.transactions == {0}
    && |w.loops| == 1 && w.loops[0].pc.Ready? && w.loops[0].worker == Working(0, lines, asks, false)
    && w.proc == Process(false, true)
  }

  lemma FirstRun(systemd: bool, uid: nat, name: string, lines: nat, asks: nat)
    requires name != ""
    ensures var r := ReqCreate(name, true, "", Auto, lines, asks, false);
            Creating(Run(Empty(systemd, uid), [Start(r)] + [Handover]), name, lines, asks)
  {
    var w0, r := Empty(systemd, uid), ReqCreate(name, true, "", Auto, lines, asks, false);
    RunTwo(w0, Start(r), Handover);
  }

  // ---------- a name clash ----------

  lemma Clash(w: World, name: string, r: Request, more: seq<Event>)
    requires Reachable(w) && Creating(w, name, 0, 0) && name != "" && r == ReqCreate("", true, name, Auto, 0, 0, false)
    ensures Orphan(Run(Step(w, Start(r)), more), 0)
  {
    FreeIPLeast(w.svc.mask, w.svc.hostIPs);
    assert InBlock(w.svc.mask, w.svc.mask + 2) && w.svc.mask + 2 !in w.svc.hostIPs;
    GeneratedNameMustBeFree(w, r);
  }

  /** An instance has the name that the generator gives to the next creation.  Its loop
      is orphaned, and the service will never be gone. */
  lemma ClashHappens(uid: nat, name: string, more: seq<Event>)
    requires name != ""
    ensures var r1, r2 := ReqCreate(name, true, "", Auto, 0, 0, false), ReqCreate("", true, name, Auto, 0, 0, false);
            Orphan(Run(Run(Empty(false, uid), [Start(r1)] + [Handover] + [Start(r2)]), more), 0)
  {
    var r1, r2 := ReqCreate(name, true, "", Auto, 0, 0, false), ReqCreate("", true, name, Auto, 0, 0, false);
    var w0, es := Empty(false, uid), [Start(r1)] + [Handover];
    FirstRun(false, uid, name, 0, 0);
    NamedFive(r1, Handover, Handover, Handover);
    NamedReaches(false, uid, es);
    RunSnoc(w0, es, Start(r2));
    Clash(Run(w0, es), name, r2, more);
  }

  // ---------- shutdowns that cannot end ----------

  lemma GivenUpStays(w: World)
    requires Misled(w, CAPACITY)
    ensures var w' := Step(Step(Step(w, Complete(0)), SignalComes), DoneSignal);
            Leaving(w'.svc.pc) && !Fits(w') && Served(w')
  {
    var w' := Step(Step(Step(w, Complete(0)), SignalComes), DoneSignal);
    assert w'.callers == [Caller(0, false, CallOver)];
    assert Readers(w'.callers, 0) == 0;
    assert OverAt(w', 0);
  }

  function MisreadSchedule(name: string): seq<Event> {
    [Start(ReqCreate(name, true, "", Auto, CAPACITY + 1, 0, false))] + [Handover]
    + [Inner(0, WorkerLine)] + [Call(0, false)] + [Ask(0)] + [Receive(0)]
  }

  lemma MisreadNamed(name: string)
    requires name != ""
    ensures AllNamed(MisreadSchedule(name) + [Complete(0)] + [SignalComes] + [DoneSignal])
  {
    var r := ReqCreate(name, true, "", Auto, CAPACITY + 1, 0, false);
    var es := [Start(r)] + [Handover] + [Inner(0, WorkerLine)] + [Call(0, false)] + [Ask(0)];
    NamedFive(r, Inner(0, WorkerLine), Call(0, false), Ask(0));
    NamedNext(es, Receive(0));
    NamedNext(es + [Receive(0)], Complete(0));
    NamedNext(es + [Receive(0)] + [Complete(0)], SignalComes);
    NamedNext(es + [Receive(0)] + [Complete(0)] + [SignalComes], DoneSignal);
  }

  lemma ChokedRun(uid: nat, name: string)
    requires name != ""
    ensures var w := Run(Empty(false, uid), MisreadSchedule(name) + [Complete(0)] + [SignalComes] + [DoneSignal]);
            Leaving(w.svc.pc) && !Fits(w) && Served(w)
  {
    MisreadRun(false, uid, name, CAPACITY);
    GivenUpStays(Run(Empty(false, uid), MisreadSchedule(name)));
    RunThree(Empty(false, uid), MisreadSchedule(name), Complete(0), SignalComes, DoneSignal);
  }

  /** StopResult takes the first of a creation's 257 lines, and its channel is not
      drained: the creation has more to say than fits. */
  lemma ChokedShutdown(uid: nat, name: string, more: seq<Event>)
    requires name != ""
    ensures var w := Run(Empty(false, uid), MisreadSchedule(name) + [Complete(0)] + [SignalComes] + [DoneSignal]);
            Leaving(w.svc.pc) && Served(w) && !Run(w, more).svc.pc.Gone?
  {
    var es := MisreadSchedule(name) + [Complete(0)] + [SignalComes] + [DoneSignal];
    ChokedRun(uid, name);
    MisreadNamed(name);
    NamedReaches(false, uid, es);
    NeverGone(Run(Empty(false, uid), es), more);
  }

  lemma SignalFinds(w: World, name: string)
    requires Creating(w, name, 0, 1)
    ensures var w' := Step(Step(Step(w, SignalComes), ManagerLeaves), DoneSignal);
            Leaving(w'.svc.pc) && Fits(w') && !Served(w')
  {
    var w' := Step(Step(Step(w, SignalComes), ManagerLeaves), DoneSignal);
    assert Asks(w'.loops[0]) == 1 && 0 in w'.svc.transactions;
  }

  lemma UnheardRun(uid: nat, name: string, r: Request)
    requires name != "" && r == ReqCreate(name, true, "", Auto, 0, 1, false)
    ensures var w := Run(Empty(false, uid), [Start(r)] + [Handover] + [SignalComes] + [ManagerLeaves] + [DoneSignal]);
            Leaving(w.svc.pc) && Fits(w) && !Served(w)
  {
    var w0, es := Empty(false, uid), [Start(r)] + [Handover];
    FirstRun(false, uid, name, 0, 1);
    SignalFinds(Run(w0, es), name);
    RunThree(w0, es, SignalComes, ManagerLeaves, DoneSignal);
  }

  /** The signal finds a creation that has still to ask for its image.  With nothing to
      download the manager leaves at once, the request is never taken, and the service
      drains that creation's channel for good, although everything would fit. */
  lemma UnheardShutdown(uid: nat, name: string, more: seq<Event>)
    requires name != ""
    ensures var r := ReqCreate(name, true, "", Auto, 0, 1, false);
            var w := Run(Empty(false, uid), [Start(r)] + [Handover] + [SignalComes] + [ManagerLeaves] + [DoneSignal]);
            Leaving(w.svc.pc) && Fits(w) && !Run(w, more).svc.pc.Gone?
  {
    var r := ReqCreate(name, true, "", Auto, 0, 1, false);
    var es := [Start(r)] + [Handover] + [SignalComes] + [ManagerLeaves] + [DoneSignal];
    UnheardRun(uid, name, r);
    NamedFive(r, SignalComes, ManagerLeaves, DoneSignal);
    NamedReaches(false, uid, es);
    NeverGone(Run(Empty(false, uid), es), more);
  }

  // ---------- an address block used up by instances that are gone ----------

  /** No instance is left, and `k` addresses of the block are taken. */
  ghost predicate Cleared(w: World, k: nat) {
    && w.svc.pc.Select? && HostMask(w.svc.mask)
    && w.svc.instances == map[] && w.svc.names == map[] && w.svc.cases == []
    && |w.loops| == k <= 254
    && forall a: Word :: a in w.svc.hostIPs <==> InBlock(w.svc.mask, a) && a as int <= w.svc.mask as int + k
  }

  /** There is one instance, on the latest of `k + 1` addresses taken. */
  ghost predicate OneInstance(w: World, name: string, k: nat) {
    && w.svc.pc.Select? && HostMask(w.svc.mask)
    && w.svc.instances == map[name := k] && w.svc.names == map[k := name] && w.svc.cases == [k]
    && |w.loops| == k + 1 <= 254 && !w.loops[k].inboxClosed
    && (forall a: Word :: a in w.svc.hostIPs <==> InBlock(w.svc.mask, a) && a as int <= w.svc.mask as int + k + 1)
    && |w.x.chans| > 0
  }

  lemma OneFails(w: World, name: string, k: nat)
    requires Cleared(w, k) && k < 254 && name != ""
    ensures var w' := Step(Step(w, Start(ReqCreate(name, true, "", Auto, 0, 0, true))), Handover);
            && OneInstance(w', name, k) && w'.loops[k].pc.Ready?
            && w'.loops[k].worker == Working(|w'.x.chans| - 1, 0, 0, true)
            && w'.x.chans[|w'.x.chans| - 1] == Chan(Create, [], 0, false)
  {
    var r := ReqCreate(name, true, "", Auto, 0, 0, true);
    FreeIPLeast(w.svc.mask, w.svc.hostIPs);
    var next: Word := (w.svc.mask as int + k + 1) as Word;
    assert InBlock(w.svc.mask, next) && next !in w.svc.hostIPs;
    assert FreeIP(w.svc.mask, w.svc.hostIPs) == Some(next);
    var w1 := Step(w, Start(r));
    assert Flat(Admit(w, Create).svc, Auto) == Flat(w.svc, Auto);
    assert w1.svc.pc == Sending(k, Cmd(Create, |w.x.chans|, 0, 0, true));
  }

  lemma FailureReported(w: World, name: string, k: nat)
    requires OneInstance(w, name, k) && w.loops[k].pc.Ready? && w.loops[k].worker == Working(|w.x.chans| - 1, 0, 0, true)
    requires w.x.chans[|w.x.chans| - 1] == Chan(Create, [], 0, false)
    ensures var w' := Step(Step(w, Inner(k, WorkerReturn)), Inner(k, TakeResult));
            && OneInstance(Step(w', Inner(k, Report)), name, k)
            && Step(w', Inner(k, Report)).loops[k].pc == Ending(|w.x.chans| - 1, true, false)
  {
    var w1 := Step(w, Inner(k, WorkerReturn));
    assert w1.loops[k].worker == Returned(|w.x.chans| - 1, true) && w1.x == w.x;
    var w2 := Step(w1, Inner(k, TakeResult));
    assert w2.loops[k].pc == Reporting(|w.x.chans| - 1, true, false) && w2.x == w.x;
  }

  lemma FailureEnds(w: World, name: string, k: nat, tx: nat)
    requires OneInstance(w, name, k) && w.loops[k].pc == Ending(tx, true, false)
    ensures Cleared(Step(Step(w, Inner(k, End)), Death(k)), k + 1)
  {
    var w1 := Step(w, Inner(k, End));
    assert w1.svc == w.svc && w1.loops[k].closeClosed && !w1.loops[k].inboxClosed;
    assert Without([k], k) == [];
  }

  /** `n` creations, one after the other, that fail. */
  function Failures(name: string, n: nat): seq<Event> {
    if n == 0 then []
    else
      Failures(name, n - 1) + [Start(ReqCreate(name, true, "", Auto, 0, 0, true))] + [Handover]
      + [Inner(n - 1, WorkerReturn)] + [Inner(n - 1, TakeResult)] + [Inner(n - 1, Report)] + [Inner(n - 1, End)] + [Death(n - 1)]
  }

  lemma FailureClears(w: World, es: seq<Event>, name: string, k: nat)
    requires Cleared(Run(w, es), k) && k < 254 && name != ""
    ensures Cleared(Run(w, es + [Start(ReqCreate(name, true, "", Auto, 0, 0, true))] + [Handover]
                           + [Inner(k, WorkerReturn)] + [Inner(k, TakeResult)] + [Inner(k, Report)] + [Inner(k, End)] + [Death(k)]), k + 1)
  {
    var begin := Start(ReqCreate(name, true, "", Auto, 0, 0, true));
    var e1 := es + [begin] + [Handover];
    var e2 := e1 + [Inner(k, WorkerReturn)] + [Inner(k, TakeResult)] + [Inner(k, Report)];
    RunSnoc(w, es, begin);
    RunSnoc(w, es + [begin], Handover);
    OneFails(Run(w, es), name, k);
    RunThree(w, e1, Inner(k, WorkerReturn), Inner(k, TakeResult), Inner(k, Report));
    FailureReported(Run(w, e1), name, k);
    RunSnoc(w, e2, Inner(k, End));
    RunSnoc(w, e2 + [Inner(k, End)], Death(k));
    FailureEnds(Run(w, e2), name, k, Run(w, e2).loops[k].pc.tx);
  }

  lemma {:induction false} FailuresClear(uid: nat, name: string, n: nat)
    requires n <= 254 && name != ""
    ensures Cleared(Run(Empty(false, uid), Failures(name, n)), n)
  {
    if n > 0 {
      FailuresClear(uid, name, n - 1);
      FailureClears(Empty(false, uid), Failures(name, n - 1), name, n - 1);
    }
  }

  /** After 254 creations that failed there is no instance, and no address for one. */
  lemma ExhaustionHappens(uid: nat, name: string)
    requires name != ""
    ensures var w := Run(Empty(false, uid), Failures(name, 254));
            w.svc.instances == map[] && HostMask(w.svc.mask) && FreeIP(w.svc.mask, w.svc.hostIPs).None?
  {
    FailuresClear(uid, name, 254);
    var w := Run(Empty(false, uid), Failures(name, 254));
    FreeIPLeast(w.svc.mask, w.svc.hostIPs);
  }
}
