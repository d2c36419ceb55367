/** Where the service falls short, each over whole runs: a name generator that has
    run out, two Result calls for one transaction, a Result call of the wrong kind,
    and a full result channel. */
module ServiceLimits {
  import opened HostIPs
  import opened ServiceModel
  import opened ServiceInv
  import opened ServiceLedger
  import opened ServiceSteps
  import opened ServiceTheorems

  // ---------- generated names ----------

  /** A loop whose command channel is open but that no instance name leads to, with
      the service still there to wait for it. */
  ghost predicate Orphan(w: World, l: nat) {
    && l < |w.loops| && !w.loops[l].inboxClosed && l !in w.svc.instances.Values
    && !w.svc.pc.Gone? && (w.svc.pc.Sending? ==> w.svc.pc.loop != l)
    && match w.loops[l].pc
       case Reporting(_, _, last) => !last
       case Ending(_, _, last) => !last
       case Joining => false
       case Exited => false
       case _ => true
  }

  lemma OrphanStep(w: World, l: nat, e: Event)
    requires Orphan(w, l)
    ensures Orphan(Step(w, e), l)
  {
    if Enabled(w, e) {
      match e
      case Start(r) => OrphanStart(w, l, r);
      case _ => OrphanOther(w, l, e);
    }
  }

  lemma OrphanStart(w: World, l: nat, r: Request)
    requires Orphan(w, l) && Enabled(w, Start(r))
    ensures Orphan(Step(w, Start(r)), l)
  {}

  lemma OrphanOther(w: World, l: nat, e: Event)
    requires Orphan(w, l) && Enabled(w, e) && !e.Start?
    ensures Orphan(Step(w, e), l)
  {}

  /** An orphan is never sent another command and never told to stop, and shutdown
      never ends. */
  lemma {:induction false} OrphanForever(w: World, l: nat, es: seq<Event>)
    requires Orphan(w, l)
    ensures Orphan(Run(w, es), l)
  {
    if es != [] {
      OrphanForever(w, l, es[..|es| - 1]);
      OrphanStep(Run(w, es[..|es| - 1]), l, es[|es| - 1]);
    }
  }

  /** A creation under a generated name keeps the tables exact if and only if the name
      was free; otherwise the old instance's loop is orphaned for good, and no
      continuation of the run ends with the service gone. */
  lemma GeneratedNameMustBeFree(w: World, r: Request)
    requires Reachable(w) && Enabled(w, Start(r)) && r.ReqCreate? && r.name == "" && Flat(w.svc, r.host).Some?
    ensures Registry(Step(w, Start(r)).svc) <==> r.generated !in w.svc.instances
    ensures r.generated in w.svc.instances ==>
              forall es :: Orphan(Run(Step(w, Start(r)), es), w.svc.instances[r.generated])
  {
    var own := ReachableInv(w);
    var w' := Step(w, Start(r));
    if r.generated !in w.svc.instances {
      StartCreateKeepsInv(w, own, r);
    } else {
      var l := w.svc.instances[r.generated];
      Overwritten(w, own, r);
      forall es ensures Orphan(Run(w', es), l) {
        OrphanForever(w', l, es);
      }
    }
  }

  lemma Overwritten(w: World, own: seq<Owner>, r: Request)
    requires Inv(w, own) && Enabled(w, Start(r)) && r.ReqCreate? && r.name == "" && Flat(w.svc, r.host).Some?
    requires r.generated in w.svc.instances
    ensures var w', l := Step(w, Start(r)), w.svc.instances[r.generated];
            Orphan(w', l) && l in w'.svc.names && w'.svc.instances[r.generated] != l && !Registry(w'.svc)
  {
    var w', l := Step(w, Start(r)), w.svc.instances[r.generated];
    assert Flat(Admit(w, Create).svc, r.host) == Flat(w.svc, r.host);
    assert LoopOk(w.loops[l]);
    assert l in w'.svc.names && w'.svc.instances[r.generated] == |w.loops| != l;
    forall n | n in w'.svc.instances ensures w'.svc.instances[n] != l {
      assert n != r.generated ==> w.svc.names[w.svc.instances[n]] == n;
    }
  }

  // ---------- two calls for one result ----------

  /** A service with one listing answered and closed, and two calls for it. */
  predicate TwoCalls(w: World, pc: CallPc) {
    && w.svc.pc.Select? && 0 in w.svc.transactions && !w.x.fault
    && |w.x.chans| == 1 && w.x.chans[0].kind.List? && w.x.chans[0].closed && w.x.chans[0].received <= 1 && |w.x.chans[0].sent| == 1
    && w.callers == [Caller(0, false, pc), Caller(0, false, pc)]
  }

  lemma TwoCallsBegin(uid: nat)
    ensures TwoCalls(Run(Empty(false, uid), [Start(ReqList)] + [Call(0, false)] + [Call(0, false)]), Asking)
  {
    var w0 := Empty(false, uid);
    var e := [Start(ReqList)];
    assert [] + e == e;
    RunSnoc(w0, [], Start(ReqList));
    RefuseEffect(w0.x, List, Okay);
    assert Run(w0, []) == w0 && Enabled(w0, Start(ReqList));
    var w1 := Run(w0, e);
    assert w1.x.chans == [] + [Chan(List, [Okay], 0, true)];
    RunSnoc(w0, e, Call(0, false));
    RunSnoc(w0, e + [Call(0, false)], Call(0, false));
  }

  lemma TwoCallsAsk(w: World)
    requires TwoCalls(w, Asking)
    ensures TwoCalls(Step(Step(w, Ask(0)), Ask(1)), Holding)
  {}

  lemma TwoCallsReceive(w: World)
    requires TwoCalls(w, Holding)
    ensures TwoCalls(Step(Step(w, Receive(0)), Receive(1)), Completing)
  {}

  lemma TwoCallsComplete(w: World)
    requires TwoCalls(w, Completing)
    ensures Step(Step(w, Complete(0)), Complete(1)).x.fault
  {}

  /** Two Result calls in flight for one id: both see the conversation end, both
      complete it, and the second completion panics. */
  lemma TwoCallsPanic(uid: nat)
    ensures var es := [Start(ReqList)] + [Call(0, false)] + [Call(0, false)] + [Ask(0)] + [Ask(1)]
                      + [Receive(0)] + [Receive(1)] + [Complete(0)] + [Complete(1)];
            Run(Empty(false, uid), es).x.fault
  {
    var w0 := Empty(false, uid);
    var e1 := [Start(ReqList)] + [Call(0, false)] + [Call(0, false)];
    var e2 := e1 + [Ask(0)] + [Ask(1)];
    var e3 := e2 + [Receive(0)] + [Receive(1)];
    TwoCallsBegin(uid);
    RunSnoc(w0, e1, Ask(0));
    RunSnoc(w0, e1 + [Ask(0)], Ask(1));
    TwoCallsAsk(Run(w0, e1));
    RunSnoc(w0, e2, Receive(0));
    RunSnoc(w0, e2 + [Receive(0)], Receive(1));
    TwoCallsReceive(Run(w0, e2));
    RunSnoc(w0, e3, Complete(0));
    RunSnoc(w0, e3 + [Complete(0)], Complete(1));
    TwoCallsComplete(Run(w0, e3));
  }

  // ---------- the wrong call for a creation ----------

  /** The idle timer runs and a creation does too. */
  ghost predicate TimedUnderWork(w: World) {
    && w.svc.timer.Running? && |w.loops| == 1 && w.loops[0].worker.Working?
    && |w.x.chans| == 1 && !w.x.chans[0].closed && !NoLiveWork(w)
  }

  /** A creation that has `left` lines to print, and a call that took the first for its answer. */
  predicate Misled(w: World, left: nat) {
    && w.svc.pc.Select? && w.svc.transactions == {0} && w.callers == [Caller(0, false, Completing)] && w.proc == Process(false, true)
    && |w.loops| == 1 && w.loops[0].worker == Working(0, left, 0, false) && w.loops[0].pc.Ready?
    && |w.x.chans| == 1 && !w.x.chans[0].closed && |w.x.chans[0].sent| == w.x.chans[0].received == 1
  }

  lemma MisreadLine(w: World, name: string, left: nat)
    requires Printing(w, name, 0, left + 1) && w.svc.transactions == {0} && w.proc == Process(false, true)
    ensures var w' := Step(Step(Step(Step(w, Inner(0, WorkerLine)), Call(0, false)), Ask(0)), Receive(0));
            Misled(w', left) && w'.svc == w.svc
  {
    var w1 := Step(w, Inner(0, WorkerLine));
    assert w1.x.chans[0].sent == [Line];
    var w2 := Step(Step(w1, Call(0, false)), Ask(0));
    assert w2.callers == [Caller(0, false, Holding)];
  }

  lemma MisreadCompletes(w: World)
    requires Misled(w, 0) && w.svc.systemd && w.svc.timer.Stopped?
    ensures TimedUnderWork(Step(w, Complete(0)))
  {}

  /** A creation begins and its first line is misread. */
  lemma MisreadRun(systemd: bool, uid: nat, name: string, left: nat)
    requires name != ""
    ensures var r := ReqCreate(name, true, "", Auto, left + 1, 0, false);
            var w := Run(Empty(systemd, uid), [Start(r)] + [Handover] + [Inner(0, WorkerLine)] + [Call(0, false)] + [Ask(0)] + [Receive(0)]);
            Misled(w, left) && w.svc.systemd == systemd && w.svc.timer.Stopped?
  {
    var w0, r := Empty(systemd, uid), ReqCreate(name, true, "", Auto, left + 1, 0, false);
    var e1 := [Start(r)] + [Handover];
    RunTwo(w0, Start(r), Handover);
    FirstCreate(systemd, uid, name, left + 1);
    MisreadLine(Run(w0, e1), name, left);
    RunFour(w0, e1, Inner(0, WorkerLine), Call(0, false), Ask(0), Receive(0));
  }

  /** StopResult is called for a running creation and takes its first line: the
      transaction is completed and the idle timer runs under the creation. */
  lemma TimerUnderWork(uid: nat, name: string)
    requires name != ""
    ensures var r := ReqCreate(name, true, "", Auto, 1, 0, false);
            TimedUnderWork(Run(Empty(true, uid),
              [Start(r)] + [Handover] + [Inner(0, WorkerLine)] + [Call(0, false)] + [Ask(0)] + [Receive(0)] + [Complete(0)]))
  {
    var w0, r := Empty(true, uid), ReqCreate(name, true, "", Auto, 1, 0, false);
    var es := [Start(r)] + [Handover] + [Inner(0, WorkerLine)] + [Call(0, false)] + [Ask(0)] + [Receive(0)];
    MisreadRun(true, uid, name, 0);
    MisreadCompletes(Run(w0, es));
    RunSnoc(w0, es, Complete(0));
  }

  // ---------- a command for an instance that cannot report ----------

  /** The loop has the outcome of a creation to send, on a full result channel. */
  predicate FullReport(l: Loop, chans: seq<Chan>) {
    l.pc.Reporting? && l.pc.tx < |chans| && !Room(chans[l.pc.tx])
  }

  /** The service waits to hand a command to an instance whose creation has ended
      but whose result channel is full, and no caller holds that channel. */
  predicate Stalled(w: World) {
    && w.svc.pc.Sending? && w.svc.pc.loop < |w.loops|
    && var l := w.loops[w.svc.pc.loop];
       && FullReport(l, w.x.chans) && !l.inboxClosed
       && forall c :: 0 <= c < |w.callers| && w.callers[c].pc.Holding? ==> w.callers[c].tx != l.pc.tx
  }

  /** While a command is in the air, exactly a stall keeps its loop from moving on. */
  lemma CommandProceeds(w: World)
    requires Reachable(w) && w.svc.pc.Sending?
    ensures var l := w.svc.pc.loop;
            && l < |w.loops|
            && (Enabled(w, Handover) || (exists m :: CanMove(w.loops[l], w.x.chans, m) && MoveLoop(w.loops[l], m).pc != w.loops[l].pc)
                <==> !FullReport(w.loops[l], w.x.chans))
  {
    var own := ReachableInv(w);
    var l := w.svc.pc.loop;
    var loop := w.loops[l];
    assert LoopOk(loop) && PlaceOk(own, loop, l);
    if PcTx(loop.pc).Some? {
      assert OwnedOk(w.x.chans[PcTx(loop.pc).value], own[PcTx(loop.pc).value], w.svc.pc, w.loops, PcTx(loop.pc).value);
    }
    match loop.pc
    case Executing(_) => assert CanMove(loop, w.x.chans, Execute);
    case Reporting(_, _, _) => assert CanMove(loop, w.x.chans, Report) <==> Room(w.x.chans[loop.pc.tx]);
    case Ending(_, _, _) => assert CanMove(loop, w.x.chans, End);
    case _ =>
  }

  /** A stall is for ever: no further request is taken, whatever else happens. */
  lemma StallStep(w: World, e: Event)
    requires Stalled(w)
    ensures Stalled(Step(w, e)) && Step(w, e).svc.pc == w.svc.pc
  {
    if Enabled(w, e) {
      match e
      case Inner(l, m) => StallInner(w, l, m);
      case Receive(c) =>
      case Call(_, _) =>
      case Abandon(c) =>
      case _ =>
    }
  }

  lemma StallInner(w: World, l: nat, m: Move)
    requires Stalled(w) && Enabled(w, Inner(l, m))
    ensures Stalled(Step(w, Inner(l, m)))
  {}

  lemma {:induction false} StallIsForever(w: World, es: seq<Event>)
    requires Stalled(w)
    ensures Stalled(Run(w, es)) && Run(w, es).svc.pc == w.svc.pc
  {
    if es != [] {
      StallIsForever(w, es[..|es| - 1]);
      StallStep(Run(w, es[..|es| - 1]), es[|es| - 1]);
    }
  }

  // ---------- a stall happens ----------

  /** A first creation is running and has printed `n` lines that nobody read. */
  predicate Printing(w: World, name: string, n: nat, left: nat) {
    && w.svc.pc.Select? && HostMask(w.svc.mask) && w.callers == [] && name in w.svc.instances && w.svc.instances[name] == 0
    && |w.loops| == 1 && w.loops[0].pc.Ready? && !w.loops[0].inboxClosed && w.loops[0].worker == Working(0, left, 0, false)
    && |w.x.chans| == 1 && !w.x.chans[0].closed && w.x.chans[0].received == 0 && |w.x.chans[0].sent| == n
  }

  function Lines(n: nat): seq<Event> {
    if n == 0 then [] else Lines(n - 1) + [Inner(0, WorkerLine)]
  }

  lemma {:induction false} PrintLines(w: World, name: string, n: nat, left: nat)
    requires Printing(w, name, 0, n + left) && n <= CAPACITY
    ensures Printing(Run(w, Lines(n)), name, n, left)
  {
    if n > 0 {
      PrintLines(w, name, n - 1, left + 1);
      RunSnoc(w, Lines(n - 1), Inner(0, WorkerLine));
    }
  }

  lemma FirstCreate(systemd: bool, uid: nat, name: string, lines: nat)
    requires name != ""
    ensures var r := ReqCreate(name, true, "", Auto, lines, 0, false);
            var w := Step(Step(Empty(systemd, uid), Start(r)), Handover);
            && Printing(w, name, 0, lines) && w.svc.transactions == {0} && w.svc.systemd == systemd && w.svc.timer.Stopped?
            && w.proc == Process(false, true)
  {}

  lemma PrintedStalls(w: World, name: string)
    requires Printing(w, name, CAPACITY, 0) && name != ""
    ensures Stalled(Step(Step(Step(w, Inner(0, WorkerReturn)), Inner(0, TakeResult)), Start(ReqCommand(Other, name, false))))
  {
    var w1 := Step(w, Inner(0, WorkerReturn));
    assert w1.loops[0].worker == Returned(0, false);
    var w2 := Step(w1, Inner(0, TakeResult));
    assert w2.loops[0].pc == Reporting(0, false, false);
    var w3 := Step(w2, Start(ReqCommand(Other, name, false)));
    assert w3.svc.pc == Sending(0, Cmd(Other, 1, 0, 0, false));
  }

  /** One creation whose 256 lines nobody reads, then one command for the same instance. */
  lemma StallHappens(uid: nat, name: string)
    requires name != ""
    ensures var r := ReqCreate(name, true, "", Auto, CAPACITY, 0, false);
            var es := [Start(r)] + [Handover];
            Stalled(Step(Step(Step(Run(Run(Empty(false, uid), es), Lines(CAPACITY)),
                                   Inner(0, WorkerReturn)), Inner(0, TakeResult)), Start(ReqCommand(Other, name, false))))
  {
    var w0, r := Empty(false, uid), ReqCreate(name, true, "", Auto, CAPACITY, 0, false);
    RunSnoc(w0, [], Start(r));
    assert [] + [Start(r)] == [Start(r)];
    RunSnoc(w0, [Start(r)], Handover);
    FirstCreate(false, uid, name, CAPACITY);
    var w := Run(w0, [Start(r)] + [Handover]);
    PrintLines(w, name, CAPACITY, 0);
    PrintedStalls(Run(w, Lines(CAPACITY)), name);
  }
}
