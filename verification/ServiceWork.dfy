/** The work left in a shutdown.  From the moment the service stops taking requests
    every step of the server uses some of it up, and nothing else adds to it. */
module ServiceWork {
  import opened ServiceModel
  import opened ServiceInv
  import opened ServiceSteps

  predicate Leaving(pc: ServicePc) {
    pc.Draining? || pc.Closing? || pc.Waiting? || pc.Gone?
  }

  /** Steps of the server itself; the others come from outside or need the select loop. */
  predicate ServerStep(e: Event) {
    e.Inner? || e.Receive? || e.DrainPick? || e.DrainReceive? || e.DrainEnd? || e.DrainOver? || e.CloseInboxes? || e.WaitEnd?
  }

  // ---------- the work left ----------

  function LoopWork(l: Loop): nat {
    (match l.pc
     case Ready => 2
     case Executing(_) => 5
     case Reporting(_, _, _) => 5
     case Ending(_, _, _) => 3
     case Joining => 1
     case Exited => 0)
    +
    (match l.worker
     case NoCreate => 0
     case Working(_, lines, asks, _) => 2 * lines + asks + 6
     case Returned(_, _) => 5)
  }

  function LoopsWork(loops: seq<Loop>): nat {
    if loops == [] then 0 else LoopsWork(loops[..|loops| - 1]) + LoopWork(loops[|loops| - 1])
  }

  function Backlog(c: Chan): nat {
    if c.received <= |c.sent| then |c.sent| - c.received else 0
  }

  function ChansWork(chans: seq<Chan>): nat {
    if chans == [] then 0 else ChansWork(chans[..|chans| - 1]) + Backlog(chans[|chans| - 1])
  }

  function CallersWork(callers: seq<Caller>): nat {
    if callers == [] then 0
    else CallersWork(callers[..|callers| - 1]) + if callers[|callers| - 1].pc.Holding? then 1 else 0
  }

  function ServiceWork(pc: ServicePc): nat {
    match pc
    case Draining(todo, current) => 2 * |todo| + (if current.Some? then 1 else 0) + 3
    case Closing => 2
    case Waiting => 1
    case _ => 0
  }

  function Work(w: World): nat {
    ServiceWork(w.svc.pc) + LoopsWork(w.loops) + ChansWork(w.x.chans) + CallersWork(w.callers)
  }

  lemma {:induction false} LoopsWorkSet(loops: seq<Loop>, l: nat, loop': Loop)
    requires l < |loops|
    ensures LoopsWork(loops[l := loop']) == LoopsWork(loops) - LoopWork(loops[l]) + LoopWork(loop')
  {
    var init := loops[..|loops| - 1];
    if l < |init| {
      LoopsWorkSet(init, l, loop');
      assert loops[l := loop'][..|init|] == init[l := loop'];
    } else {
      assert loops[l := loop'][..|init|] == init;
    }
  }

  lemma {:induction false} ChansWorkSet(chans: seq<Chan>, tx: nat, c': Chan)
    requires tx < |chans|
    ensures ChansWork(chans[tx := c']) == ChansWork(chans) - Backlog(chans[tx]) + Backlog(c')
  {
    var init := chans[..|chans| - 1];
    if tx < |init| {
      ChansWorkSet(init, tx, c');
      assert chans[tx := c'][..|init|] == init[tx := c'];
    } else {
      assert chans[tx := c'][..|init|] == init;
    }
  }

  function Holds(c: Caller): nat {
    if c.pc.Holding? then 1 else 0
  }

  lemma {:induction false} CallersWorkSet(callers: seq<Caller>, c: nat, k': Caller)
    requires c < |callers|
    ensures CallersWork(callers[c := k']) == CallersWork(callers) - Holds(callers[c]) + Holds(k')
  {
    var init := callers[..|callers| - 1];
    if c < |init| {
      CallersWorkSet(init, c, k');
      assert callers[c := k'][..|init|] == init[c := k'];
    } else {
      assert callers[c := k'][..|init|] == init;
    }
  }

  lemma {:induction false} LoopsWorkSame(loops: seq<Loop>, loops': seq<Loop>)
    requires |loops| == |loops'| && forall l :: 0 <= l < |loops| ==> LoopWork(loops'[l]) == LoopWork(loops[l])
    ensures LoopsWork(loops') == LoopsWork(loops)
  {
    if loops != [] {
      LoopsWorkSame(loops[..|loops| - 1], loops'[..|loops| - 1]);
    }
  }

  // ---------- every step uses some up ----------

  lemma MoveWork(x: Wires, loop: Loop, m: Move)
    requires LoopOk(loop) && CanMove(loop, x.chans, m)
    requires PcTx(loop.pc).Some? ==> PcTx(loop.pc).value < |x.chans| && !x.chans[PcTx(loop.pc).value].closed
    requires WorkerTx(loop.worker).Some? ==> WorkerTx(loop.worker).value < |x.chans| && !x.chans[WorkerTx(loop.worker).value].closed
    requires forall tx :: 0 <= tx < |x.chans| ==> x.chans[tx].received <= |x.chans[tx].sent|
    ensures LoopWork(MoveLoop(loop, m)) + ChansWork(MoveWires(x, loop, m).chans) < LoopWork(loop) + ChansWork(x.chans)
  {
    match m
    case Execute => SendWork(x, loop.pc.cmd.tx, Outcome(loop.pc.cmd.fails));
    case WorkerLine => SendWork(x, loop.worker.tx, Line);
    case Report => SendWork(x, loop.pc.tx, if loop.pc.fails then Failed else Finished);
    case End => ChansWorkSet(x.chans, loop.pc.tx, x.chans[loop.pc.tx].(closed := true));
    case _ =>
  }

  lemma SendWork(x: Wires, tx: nat, v: Value)
    requires tx < |x.chans| && !x.chans[tx].closed && Room(x.chans[tx]) && x.chans[tx].received <= |x.chans[tx].sent|
    ensures ChansWork(Send(x, tx, v).chans) == ChansWork(x.chans) + 1
  {
    ChansWorkSet(x.chans, tx, x.chans[tx].(sent := x.chans[tx].sent + [v]));
  }

  lemma InnerWork(w: World, own: seq<Owner>, l: nat, m: Move)
    requires Inv(w, own) && Ledger(w) && Enabled(w, Inner(l, m))
    ensures Work(Step(w, Inner(l, m))) < Work(w)
  {
    var loop := w.loops[l];
    assert LoopOk(loop) && PlaceOk(own, loop, l);
    if PcTx(loop.pc).Some? {
      assert OwnedOk(w.x.chans[PcTx(loop.pc).value], own[PcTx(loop.pc).value], w.svc.pc, w.loops, PcTx(loop.pc).value);
    }
    if WorkerTx(loop.worker).Some? {
      assert OwnedOk(w.x.chans[WorkerTx(loop.worker).value], own[WorkerTx(loop.worker).value], w.svc.pc, w.loops, WorkerTx(loop.worker).value);
    }
    MoveWork(w.x, loop, m);
    LoopsWorkSet(w.loops, l, MoveLoop(loop, m));
  }

  lemma TakeWork(x: Wires, tx: nat)
    requires tx < |x.chans| && Unread(x.chans[tx])
    ensures ChansWork(Take(x, tx).chans) == ChansWork(x.chans) - 1
  {
    ChansWorkSet(x.chans, tx, x.chans[tx].(received := x.chans[tx].received + 1));
  }

  lemma AfterReceiveWork(w: World, c: nat)
    requires c < |w.callers| && w.callers[c].pc.Holding? && w.callers[c].tx < |w.x.chans|
    ensures Work(AfterReceive(w, c)) < Work(w)
  {
    var w' := AfterReceive(w, c);
    CallersWorkSet(w.callers, c, w'.callers[c]);
    if Unread(w.x.chans[w.callers[c].tx]) {
      TakeWork(w.x, w.callers[c].tx);
    }
  }

  lemma ReceiveWork(w: World, c: nat)
    requires Enabled(w, Receive(c))
    ensures Work(Step(w, Receive(c))) < Work(w)
  {
    AfterReceiveWork(w, c);
  }

  lemma DrainReceiveWork(w: World)
    requires Enabled(w, DrainReceive)
    ensures Work(Step(w, DrainReceive)) < Work(w)
  {
    TakeWork(w.x, w.svc.pc.current.value);
  }

  lemma CloseAllWork(w: World, own: seq<Owner>)
    requires Inv(w, own) && w.svc.pc.Closing?
    ensures Work(CloseAll(w)) < Work(w)
  {
    CloseAllEffect(w, own);
    LoopsWorkSame(w.loops, CloseAll(w).loops);
  }

  lemma CloseInboxesWork(w: World, own: seq<Owner>)
    requires Inv(w, own) && Enabled(w, CloseInboxes)
    ensures Work(Step(w, CloseInboxes)) < Work(w)
  {
    CloseAllWork(w, own);
  }

  lemma PcWork(w: World, e: Event)
    requires Enabled(w, e) && (e.DrainPick? || e.DrainEnd? || e.DrainOver? || e.WaitEnd?)
    ensures Work(Step(w, e)) < Work(w)
  {}

  lemma OutsideWork(w: World, e: Event)
    requires Enabled(w, e) && Leaving(w.svc.pc) && !ServerStep(e)
    ensures Work(Step(w, e)) == Work(w) && Step(w, e).svc == w.svc
  {
    match e
    case Call(tx, streaming) =>
      assert (w.callers + [Caller(tx, streaming, Asking)])[..|w.callers|] == w.callers;
    case Abandon(c) =>
      CallersWorkSet(w.callers, c, w.callers[c].(pc := CallOver));
    case _ =>
  }

  lemma StepWork(w: World, own: seq<Owner>, e: Event)
    requires Inv(w, own) && Ledger(w) && Leaving(w.svc.pc)
    ensures Leaving(Step(w, e).svc.pc) && Step(w, e).svc.transactions == w.svc.transactions
    ensures Work(Step(w, e)) + (if ServerStep(e) && Enabled(w, e) then 1 else 0) <= Work(w)
  {
    if Enabled(w, e) {
      if e.Inner? {
        InnerWork(w, own, e.l, e.m);
      } else if e.Receive? {
        ReceiveWork(w, e.c);
      } else if e.DrainReceive? {
        DrainReceiveWork(w);
      } else if e.CloseInboxes? {
        CloseInboxesWork(w, own);
      } else if ServerStep(e) {
        PcWork(w, e);
      } else {
        OutsideWork(w, e);
      }
    }
  }
}
