/** When shutdown ends.  Until the service is gone some step of the server is
    possible, unless a transaction that was given up has more to say than its
    channel and its readers will take, or a creation has a request to make and the
    download manager has left. */
module ServiceShutdown {
  import opened Wrappers
  import opened ServiceModel
  import opened ServiceInv
  import opened ServiceLedger
  import opened ServiceSteps
  import opened ServiceTheorems
  import opened ServiceWork

  // ---------- given-up transactions ----------

  /** The channel a creation still reports to, and how many values are to come. */
  function CreateTx(l: Loop): Option<nat> {
    if l.pc.Reporting? then Some(l.pc.tx) else WorkerTx(l.worker)
  }

  function Rest(l: Loop): nat {
    match l.worker
    case Working(_, lines, _, _) => lines + 1
    case _ => 1
  }

  function Asks(l: Loop): nat {
    match l.worker
    case Working(_, _, asks, _) => asks
    case _ => 0
  }

  function Reads(c: Caller, tx: nat): nat {
    if c.pc.Holding? && c.tx == tx then 1 else 0
  }

  /** How many calls are about to receive from channel `tx`. */
  function Readers(callers: seq<Caller>, tx: nat): nat {
    if callers == [] then 0
    else Readers(callers[..|callers| - 1], tx) + Reads(callers[|callers| - 1], tx)
  }

  lemma {:induction false} ReadersSet(callers: seq<Caller>, c: nat, k': Caller, tx: nat)
    requires c < |callers|
    ensures Readers(callers[c := k'], tx) == Readers(callers, tx) - Reads(callers[c], tx) + Reads(k', tx)
  {
    var init := callers[..|callers| - 1];
    if c < |init| {
      ReadersSet(init, c, k', tx);
      assert callers[c := k'][..|init|] == init[c := k'];
    } else {
      assert callers[c := k'][..|init|] == init;
    }
  }

  lemma ReadersSnoc(callers: seq<Caller>, k: Caller, tx: nat)
    ensures Readers(callers + [k], tx) == Readers(callers, tx) + Reads(k, tx)
  {
    assert (callers + [k])[..|callers|] == callers;
  }

  lemma {:induction false} SomeReader(callers: seq<Caller>, tx: nat) returns (c: nat)
    requires Readers(callers, tx) > 0
    ensures c < |callers| && callers[c].pc.Holding? && callers[c].tx == tx
  {
    if Reads(callers[|callers| - 1], tx) > 0 {
      c := |callers| - 1;
    } else {
      c := SomeReader(callers[..|callers| - 1], tx);
    }
  }

  /** The creation's transaction was given up, and its channel together with the
      calls that still read from it will not take the rest. */
  predicate Over(l: Loop, chans: seq<Chan>, transactions: set<nat>, callers: seq<Caller>) {
    && CreateTx(l).Some? && CreateTx(l).value < |chans| && CreateTx(l).value !in transactions
    && var c := chans[CreateTx(l).value];
       Rest(l) + |c.sent| > c.received + CAPACITY + Readers(callers, CreateTx(l).value)
  }

  predicate OverAt(w: World, l: nat) {
    l < |w.loops| && Over(w.loops[l], w.x.chans, w.svc.transactions, w.callers)
  }

  predicate Fits(w: World) {
    forall l :: 0 <= l < |w.loops| ==> !OverAt(w, l)
  }

  /** Whatever a creation has to ask of the download manager will be heard. */
  predicate Served(w: World) {
    w.proc.manager || forall l :: 0 <= l < |w.loops| ==> Asks(w.loops[l]) == 0
  }

  // ---------- no step of a shutdown changes what is over ----------

  ghost predicate Shutting(w: World, own: seq<Owner>) {
    Inv(w, own) && Ledger(w) && Leaving(w.svc.pc)
  }

  lemma MoveTouches(loop: Loop, x: Wires, m: Move, tx: nat)
    requires tx < |x.chans| && PcTx(loop.pc) != Some(tx) && WorkerTx(loop.worker) != Some(tx)
    ensures MoveWires(x, loop, m).chans[tx] == x.chans[tx]
  {}

  /** A loop's own moves neither create nor remove the lack of room. */
  lemma OverMove(loop: Loop, x: Wires, m: Move, transactions: set<nat>, callers: seq<Caller>)
    requires LoopOk(loop) && CanMove(loop, x.chans, m)
    requires WorkerTx(loop.worker).Some? && WorkerTx(loop.worker).value < |x.chans| ==> !x.chans[WorkerTx(loop.worker).value].closed
    ensures Over(MoveLoop(loop, m), MoveWires(x, loop, m).chans, transactions, callers) <==> Over(loop, x.chans, transactions, callers)
  {}

  lemma InnerOver(w: World, own: seq<Owner>, l: nat, m: Move, k: nat)
    requires Inv(w, own) && Enabled(w, Inner(l, m)) && k < |w.loops|
    ensures OverAt(Step(w, Inner(l, m)), k) <==> OverAt(w, k)
  {
    var tx := CreateTx(w.loops[k]);
    assert PlaceOk(own, w.loops[l], l) && PlaceOk(own, w.loops[k], k) && LoopOk(w.loops[l]);
    if k == l {
      assert tx.Some? ==> OwnedOk(w.x.chans[tx.value], own[tx.value], w.svc.pc, w.loops, tx.value);
      OverMove(w.loops[l], w.x, m, w.svc.transactions, w.callers);
    } else if tx.Some? {
      MoveTouches(w.loops[l], w.x, m, tx.value);
    }
  }

  /** A receive makes room for one value and is one reader less. */
  lemma ReceiveOver(w: World, own: seq<Owner>, c: nat, k: nat)
    requires Inv(w, own) && Enabled(w, Receive(c)) && k < |w.loops|
    ensures OverAt(Step(w, Receive(c)), k) <==> OverAt(w, k)
  {
    var tx, w' := CreateTx(w.loops[k]), Step(w, Receive(c));
    assert PlaceOk(own, w.loops[k], k);
    if tx.Some? {
      assert OwnedOk(w.x.chans[tx.value], own[tx.value], w.svc.pc, w.loops, tx.value);
      ReadersSet(w.callers, c, w'.callers[c], tx.value);
    }
  }

  lemma CallerOver(w: World, e: Event, k: nat)
    requires Enabled(w, e) && (e.Call? || e.Abandon?) && k < |w.loops|
    ensures OverAt(Step(w, e), k) <==> OverAt(w, k)
  {
    var tx := CreateTx(w.loops[k]);
    if tx.Some? {
      if e.Call? {
        ReadersSnoc(w.callers, Caller(e.tx, e.streaming, Asking), tx.value);
      } else {
        ReadersSet(w.callers, e.c, w.callers[e.c].(pc := CallOver), tx.value);
      }
    }
  }

  lemma QuietOver(w: World, own: seq<Owner>, e: Event, k: nat)
    requires Shutting(w, own) && Enabled(w, e) && k < |w.loops|
    requires !e.Inner? && !e.Receive? && !e.Call? && !e.Abandon?
    ensures OverAt(Step(w, e), k) <==> OverAt(w, k)
  {
    if e.CloseInboxes? {
      CloseAllEffect(w, own);
    }
  }

  lemma StepOver(w: World, own: seq<Owner>, e: Event, k: nat)
    requires Shutting(w, own) && k < |w.loops|
    ensures |Step(w, e).loops| == |w.loops| && (OverAt(Step(w, e), k) <==> OverAt(w, k))
  {
    if Enabled(w, e) {
      if e.Inner? {
        InnerOver(w, own, e.l, e.m, k);
      } else if e.Receive? {
        ReceiveOver(w, own, e.c, k);
      } else if e.Call? || e.Abandon? {
        CallerOver(w, e, k);
      } else {
        QuietOver(w, own, e, k);
      }
    }
  }

  lemma ShuttingStep(w: World, own: seq<Owner>, e: Event)
    requires Shutting(w, own)
    ensures Shutting(Step(w, e), NextOwners(w, own, e)) && |Step(w, e).loops| == |w.loops|
    ensures Work(Step(w, e)) + (if ServerStep(e) && Enabled(w, e) then 1 else 0) <= Work(w)
    ensures Fits(Step(w, e)) <==> Fits(w)
  {
    StepWork(w, own, e);
    StepLedger(w, e);
    StepFits(w, own, e);
    assert e.Start? ==> !Enabled(w, e);
    if Enabled(w, e) {
      StepKeepsInv(w, own, e);
    }
  }

  lemma StepFits(w: World, own: seq<Owner>, e: Event)
    requires Shutting(w, own)
    ensures |Step(w, e).loops| == |w.loops| && (Fits(Step(w, e)) <==> Fits(w))
  {
    LoopsStay(w, e);
    forall k | 0 <= k < |w.loops| ensures OverAt(Step(w, e), k) <==> OverAt(w, k) {
      StepOver(w, own, e, k);
    }
  }

  lemma LoopsStay(w: World, e: Event)
    requires Leaving(w.svc.pc)
    ensures |Step(w, e).loops| == |w.loops|
  {}

  /** Creations ask only in steps of their own. */
  lemma StepAsks(w: World, e: Event, l: nat)
    requires Leaving(w.svc.pc) && l < |w.loops|
    ensures |Step(w, e).loops| == |w.loops| && Step(w, e).proc.manager == (w.proc.manager && !(Enabled(w, e) && e.ManagerLeaves?))
    ensures Asks(Step(w, e).loops[l]) == Asks(w.loops[l]) - (if Enabled(w, e) && e == Inner(l, WorkerAsk) then 1 else 0)
  {
    LoopsStay(w, e);
  }

  // ---------- some step is always possible ----------

  ghost predicate Able(w: World, e: Event) {
    ServerStep(e) && Enabled(w, e)
  }

  lemma AbleInner(w: World, l: nat, m: Move)
    requires l < |w.loops| && CanMove(w.loops[l], w.x.chans, m) && (m.WorkerAsk? ==> w.proc.manager)
    ensures Able(w, Inner(l, m))
  {}

  /** A loop that is neither waiting nor gone, or a creation, moves if its channel has room. */
  lemma LoopCanMove(loop: Loop, chans: seq<Chan>, tx: nat) returns (m: Move)
    requires LoopOk(loop) && tx < |chans| && Room(chans[tx])
    requires PcTx(loop.pc) == Some(tx) || WorkerTx(loop.worker) == Some(tx)
    ensures CanMove(loop, chans, m) && (m.WorkerAsk? ==> Asks(loop) > 0)
  {
    m := if loop.pc.Executing? then Execute
         else if loop.pc.Reporting? then Report
         else if loop.pc.Ending? then End
         else if loop.worker.Returned? then TakeResult
         else if loop.worker.lines > 0 then WorkerLine
         else if loop.worker.asks > 0 then WorkerAsk
         else WorkerReturn;
  }

  /** Whoever owes an answer on a channel with room can take a step. */
  lemma OwnerCanStep(w: World, own: seq<Owner>, tx: nat)
    requires Inv(w, own) && Served(w) && tx < |w.x.chans| && !w.x.chans[tx].closed && Room(w.x.chans[tx]) && !w.svc.pc.Sending?
    ensures exists e :: Able(w, e)
  {
    assert OwnedOk(w.x.chans[tx], own[tx], w.svc.pc, w.loops, tx);
    var l := own[tx].l;
    assert LoopOk(w.loops[l]);
    var m := LoopCanMove(w.loops[l], w.x.chans, tx);
    AbleInner(w, l, m);
  }

  lemma DrainingCanStep(w: World, own: seq<Owner>)
    requires Inv(w, own) && Ledger(w) && Served(w) && w.svc.pc.Draining?
    ensures exists e :: Able(w, e)
  {
    if w.svc.pc.current.None? {
      if w.svc.pc.todo == {} {
        assert Able(w, DrainOver);
      } else {
        var t :| t in w.svc.pc.todo;
        assert Able(w, DrainPick(t));
      }
    } else {
      var t := w.svc.pc.current.value;
      if Unread(w.x.chans[t]) {
        assert Able(w, DrainReceive);
      } else if w.x.chans[t].closed {
        assert Able(w, DrainEnd);
      } else {
        OwnerCanStep(w, own, t);
      }
    }
  }

  /** A full channel that is not over has a reader. */
  lemma FullIsRead(w: World, l: nat)
    requires l < |w.loops| && !OverAt(w, l)
    requires CreateTx(w.loops[l]).Some? && CreateTx(w.loops[l]).value < |w.x.chans| && CreateTx(w.loops[l]).value !in w.svc.transactions
    requires !Room(w.x.chans[CreateTx(w.loops[l]).value])
    ensures exists e :: Able(w, e)
  {
    var c := SomeReader(w.callers, CreateTx(w.loops[l]).value);
    assert Able(w, Receive(c));
  }

  /** After the drain, a loop that is not gone, or a call that reads from it, can move. */
  lemma WaitedForCanStep(w: World, own: seq<Owner>, l: nat)
    requires Inv(w, own) && Ledger(w) && Fits(w) && Served(w) && w.svc.pc.Waiting? && l < |w.loops| && !w.loops[l].pc.Exited?
    ensures exists e :: Able(w, e)
  {
    var loop := w.loops[l];
    assert LoopOk(loop) && PlaceOk(own, loop, l) && !OverAt(w, l);
    var tx := if PcTx(loop.pc).Some? then PcTx(loop.pc) else WorkerTx(loop.worker);
    if tx.None? {
      AbleInner(w, l, SeeClosed);
    } else {
      var c := w.x.chans[tx.value];
      assert OwnedOk(c, own[tx.value], w.svc.pc, w.loops, tx.value);
      if loop.pc.Ending? {
        AbleInner(w, l, End);
      } else if Room(c) {
        OwnerCanStep(w, own, tx.value);
      } else {
        FullIsRead(w, l);
      }
    }
  }

  lemma LeavingCanStep(w: World, own: seq<Owner>)
    requires Shutting(w, own) && Fits(w) && Served(w) && !w.svc.pc.Gone?
    ensures exists e :: Able(w, e)
  {
    if w.svc.pc.Draining? {
      DrainingCanStep(w, own);
    } else if w.svc.pc.Closing? {
      assert Able(w, CloseInboxes);
    } else if l :| 0 <= l < |w.loops| && !w.loops[l].pc.Exited? {
      WaitedForCanStep(w, own, l);
    } else {
      assert Able(w, WaitEnd);
    }
  }

  /** When the service is gone every loop has exited and every transaction was
      answered and its channel closed. */
  ghost predicate AllOver(w: World) {
    && (forall l :: 0 <= l < |w.loops| ==> w.loops[l].pc.Exited?)
    && (forall tx :: 0 <= tx < |w.x.chans| ==> w.x.chans[tx].closed && Answered(w.x.chans[tx]))
  }

  lemma GoneIsOver(w: World, own: seq<Owner>)
    requires Inv(w, own) && w.svc.pc.Gone?
    ensures AllOver(w) && Fits(w) && Served(w)
  {
    forall l | 0 <= l < |w.loops| ensures !OverAt(w, l) && Asks(w.loops[l]) == 0 {
      assert LoopOk(w.loops[l]);
    }
    forall tx | 0 <= tx < |w.x.chans| ensures w.x.chans[tx].closed && Answered(w.x.chans[tx]) {
      assert OwnedOk(w.x.chans[tx], own[tx], w.svc.pc, w.loops, tx);
      assert own[tx].PcOf? || own[tx].WorkerOf? ==> LoopOk(w.loops[own[tx].l]);
    }
  }

  /** How many server steps a schedule really makes. */
  ghost function ServerSteps(w: World, es: seq<Event>): nat {
    if es == [] then 0
    else
      var init, e := es[..|es| - 1], es[|es| - 1];
      ServerSteps(w, init) + if ServerStep(e) && Enabled(Run(w, init), e) then 1 else 0
  }

  lemma {:induction false} LeavingRun(w: World, own: seq<Owner>, es: seq<Event>) returns (own': seq<Owner>)
    requires Shutting(w, own)
    ensures Shutting(Run(w, es), own') && Work(Run(w, es)) + ServerSteps(w, es) <= Work(w)
    ensures Fits(Run(w, es)) <==> Fits(w)
  {
    if es == [] {
      own' := own;
    } else {
      var init, e := es[..|es| - 1], es[|es| - 1];
      var mid := LeavingRun(w, own, init);
      ShuttingStep(Run(w, init), mid, e);
      own' := NextOwners(Run(w, init), mid, e);
    }
  }

  /** Shutdown ends, under every schedule: none makes more server steps than `Work`
      allows; whether the given-up transactions fit is settled when it begins; if they
      do, and requests for downloads are heard, the server can make a step as long as
      the service is not gone; and when it is gone everything is over. */
  lemma ShutdownEnds(w: World, es: seq<Event>)
    requires Reachable(w) && Leaving(w.svc.pc)
    ensures var w' := Run(w, es);
            && ServerSteps(w, es) <= Work(w)
            && (Fits(w') <==> Fits(w))
            && (w'.svc.pc.Gone? ==> AllOver(w'))
            && (Fits(w') && Served(w') && !w'.svc.pc.Gone? ==> exists e :: Able(w', e))
  {
    var own := ReachableInv(w);
    var own' := LeavingRun(w, own, es);
    var w' := Run(w, es);
    if w'.svc.pc.Gone? {
      GoneIsOver(w', own');
    } else if Fits(w') && Served(w') {
      LeavingCanStep(w', own');
    }
  }

  // ---------- and when it does not ----------

  lemma ServerStepServed(w: World, own: seq<Owner>, e: Event)
    requires Shutting(w, own) && Able(w, e) && Served(w)
    ensures Served(Step(w, e))
  {
    LoopsStay(w, e);
    forall l | 0 <= l < |w.loops|
      ensures Asks(Step(w, e).loops[l]) <= Asks(w.loops[l]) && (w.proc.manager ==> Step(w, e).proc.manager)
    {
      StepAsks(w, e, l);
    }
  }

  /** A schedule that ends the shutdown. */
  lemma {:induction false} SomeEnd(w: World, own: seq<Owner>, done: seq<Event>) returns (es: seq<Event>)
    requires Shutting(Run(w, done), own) && Fits(Run(w, done)) && Served(Run(w, done))
    ensures Run(w, es).svc.pc.Gone?
    decreases Work(Run(w, done))
  {
    var mid := Run(w, done);
    if mid.svc.pc.Gone? {
      es := done;
    } else {
      LeavingCanStep(mid, own);
      var e :| Able(mid, e);
      ShuttingStep(mid, own, e);
      ServerStepServed(mid, own, e);
      RunSnoc(w, done, e);
      es := SomeEnd(w, NextOwners(mid, own, e), done + [e]);
    }
  }

  /** The manager has left and the creation of loop `l` has a request to make. */
  predicate Unheard(w: World, l: nat) {
    !w.proc.manager && l < |w.loops| && Asks(w.loops[l]) > 0
  }

  lemma UnheardStep(w: World, own: seq<Owner>, e: Event, l: nat)
    requires Shutting(w, own) && Unheard(w, l)
    ensures Unheard(Step(w, e), l)
  {
    StepAsks(w, e, l);
  }

  lemma {:induction false} UnheardForever(w: World, own: seq<Owner>, es: seq<Event>, l: nat)
    requires Shutting(w, own) && Unheard(w, l)
    ensures Unheard(Run(w, es), l)
  {
    if es != [] {
      var init := es[..|es| - 1];
      UnheardForever(w, own, init, l);
      var mid := LeavingRun(w, own, init);
      UnheardStep(Run(w, init), mid, es[|es| - 1], l);
    }
  }

  /** Shutdown can end if and only if what the given-up transactions still have to
      say fits into their channels and the hands of those who read them, and no
      creation has a request to make of a download manager that has left. */
  lemma ShutdownEndsExactly(w: World)
    requires Reachable(w) && Leaving(w.svc.pc)
    ensures (exists es :: Run(w, es).svc.pc.Gone?) <==> Fits(w) && Served(w)
  {
    var own := ReachableInv(w);
    if Fits(w) && Served(w) {
      assert Run(w, []) == w;
      var es := SomeEnd(w, own, []);
    } else if es :| Run(w, es).svc.pc.Gone? {
      var own' := LeavingRun(w, own, es);
      GoneIsOver(Run(w, es), own');
      var l :| 0 <= l < |w.loops| && Asks(w.loops[l]) > 0;
      UnheardForever(w, own, es, l);
      assert false;
    }
  }

  /** It does fit if no call of the wrong kind received a line. */
  lemma FitsUnlessMisread(systemd: bool, uid: nat, dirs: seq<Saved>, es: seq<Event>)
    requires Directories(dirs) && FreeNames(Begin(systemd, uid, dirs), es)
    ensures var w0 := Begin(systemd, uid, dirs);
            var w := Run(w0, es);
            forall l :: 0 <= l < |w.loops| && OverAt(w, l) ==> CreateTx(w.loops[l]).value in Misreads(w0, es)
  {
    var own := BegunInv(systemd, uid, dirs, es);
    RunSettled(systemd, uid, dirs, es);
    var w := Run(Begin(systemd, uid, dirs), es);
    forall l | 0 <= l < |w.loops| && OverAt(w, l)
      ensures CreateTx(w.loops[l]).value in Misreads(Begin(systemd, uid, dirs), es)
    {
      var tx := CreateTx(w.loops[l]).value;
      assert PlaceOk(own, w.loops[l], l) && OwnedOk(w.x.chans[tx], own[tx], w.svc.pc, w.loops, tx);
    }
  }
}
