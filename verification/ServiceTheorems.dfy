/** What the service guarantees over whole runs: one answer per transaction,
    exact tables, faults and early completions located exactly, and an idle timer
    that is armed exactly when nothing is outstanding. */
module ServiceTheorems {
  import opened Wrappers
  import opened HostIPs
  import opened ServiceModel
  import opened ServiceInv
  import opened ServiceLedger
  import opened ServiceLoops
  import opened ServiceSteps

  // ---------- the start ----------

  predicate Named(dirs: seq<Saved>, n: string) {
    exists i :: 0 <= i < |dirs| && dirs[i].name == n
  }

  lemma {:induction false} RestoreNames(w: World, dirs: seq<Saved>)
    ensures forall n :: n in RestoreAll(w, dirs).svc.instances ==> n in w.svc.instances || Named(dirs, n)
  {
    if dirs != [] {
      var init := dirs[..|dirs| - 1];
      RestoreNames(w, init);
      assert dirs[|dirs| - 1].name == dirs[|dirs| - 1].name;
      forall n | Named(init, n) ensures Named(dirs, n) {
        var i :| 0 <= i < |init| && init[i].name == n;
        assert dirs[i].name == n;
      }
    }
  }

  lemma RestoreOneInv(w: World, d: Saved)
    requires Inv(w, []) && w.svc.pc.Select? && d.name !in w.svc.instances
    ensures Inv(RestoreOne(w, d), []) && RestoreOne(w, d).svc.pc.Select?
  {
    if !(d.ip.None? || Flatten(d.ip.value).None? || Flatten(d.ip.value).value in w.svc.hostIPs) {
      var flat := Flatten(d.ip.value).value;
      RegisterKeeps(w.svc, w.loops, d.name, flat, Address(flat, true));
      OwnersExtend(w, [], FreshLoop(Address(flat, true)));
    }
  }

  /** The service as it enters its loop. */
  function Begin(systemd: bool, uid: nat, dirs: seq<Saved>): World {
    RestoreAll(Empty(systemd, uid), dirs)
  }

  lemma {:induction false} RestoreInv(systemd: bool, uid: nat, dirs: seq<Saved>)
    requires Directories(dirs)
    ensures Inv(Begin(systemd, uid, dirs), []) && Begin(systemd, uid, dirs).svc.pc.Select?
  {
    if dirs != [] {
      var init, d := dirs[..|dirs| - 1], dirs[|dirs| - 1];
      RestoreInv(systemd, uid, init);
      RestoreNames(Empty(systemd, uid), init);
      RestoreOneInv(Begin(systemd, uid, init), d);
    }
  }

  lemma OwnersExtend(w: World, own: seq<Owner>, loop: Loop)
    requires Owners(w.svc.pc, w.x.chans, w.loops, own) && PcTx(loop.pc).None? && WorkerTx(loop.worker).None?
    ensures Owners(w.svc.pc, w.x.chans, w.loops + [loop], own)
  {}

  /** The world after a run in which the generated names were free; nothing is
      asked of the callers. */
  ghost predicate Reachable(w: World) {
    exists systemd, uid, dirs, es ::
      Directories(dirs) && FreeNames(Begin(systemd, uid, dirs), es) && w == Run(Begin(systemd, uid, dirs), es)
  }

  lemma ReachableInv(w: World) returns (own: seq<Owner>)
    requires Reachable(w)
    ensures Inv(w, own) && Ledger(w)
  {
    var systemd, uid, dirs, es :|
      Directories(dirs) && FreeNames(Begin(systemd, uid, dirs), es) && w == Run(Begin(systemd, uid, dirs), es);
    own := BegunInv(systemd, uid, dirs, es);
  }

  lemma BegunInv(systemd: bool, uid: nat, dirs: seq<Saved>, es: seq<Event>) returns (own: seq<Owner>)
    requires Directories(dirs) && FreeNames(Begin(systemd, uid, dirs), es)
    ensures Inv(Run(Begin(systemd, uid, dirs), es), own) && Ledger(Run(Begin(systemd, uid, dirs), es))
  {
    RestoreInv(systemd, uid, dirs);
    RestoredLedger(systemd, uid, dirs);
    RunLedger(Begin(systemd, uid, dirs), es);
    own := RunKeepsInv(Begin(systemd, uid, dirs), [], es);
  }

  // ---------- safety ----------

  /** Some party of the system holds a duty to answer transaction `tx`. */
  predicate Owes(w: World, o: Owner, tx: nat) {
    match o
    case Nobody => false
    case TheService => w.svc.pc.Sending? && w.svc.pc.cmd.tx == tx
    case PcOf(l) => l < |w.loops| && PcTx(w.loops[l].pc) == Some(tx)
    case WorkerOf(l) => l < |w.loops| && WorkerTx(w.loops[l].worker) == Some(tx)
  }

  /** Unanswered transactions and duties to answer correspond one to one. */
  ghost predicate OneOwner(w: World) {
    && (forall tx: nat :: tx < |w.x.chans| ==> (!w.x.chans[tx].closed <==> exists o :: Owes(w, o, tx)))
    && (forall tx, a, b :: Owes(w, a, tx) && Owes(w, b, tx) ==> a == b)
  }

  /** Every result channel carries progress lines (a creation's only), then at
      most one terminal value, which is there when it is closed. */
  ghost predicate Conversations(chans: seq<Chan>) {
    forall tx :: 0 <= tx < |chans| ==>
      (OnlyLines(chans[tx]) || Answered(chans[tx])) && (chans[tx].closed ==> Answered(chans[tx]))
  }

  lemma OwnersMean(w: World, own: seq<Owner>)
    requires Inv(w, own)
    ensures OneOwner(w) && Conversations(w.x.chans)
    ensures forall o, tx: nat :: Owes(w, o, tx) ==> tx < |own| && own[tx] == o
  {
    forall o, tx: nat | Owes(w, o, tx) ensures tx < |own| && own[tx] == o {
      match o
      case PcOf(l) => assert PlaceOk(own, w.loops[l], l);
      case WorkerOf(l) => assert PlaceOk(own, w.loops[l], l);
      case _ =>
    }
    forall tx: nat | tx < |w.x.chans|
      ensures !w.x.chans[tx].closed <==> exists o :: Owes(w, o, tx)
      ensures (OnlyLines(w.x.chans[tx]) || Answered(w.x.chans[tx])) && (w.x.chans[tx].closed ==> Answered(w.x.chans[tx]))
    {
      assert OwnedOk(w.x.chans[tx], own[tx], w.svc.pc, w.loops, tx);
      if !w.x.chans[tx].closed {
        assert Owes(w, own[tx], tx);
      }
    }
  }

  /** A creation is handed only to a fresh loop, so it is neither refused as
      "being deleted" nor does it overwrite a pending one. */
  ghost predicate CreateIsFirst(w: World) {
    w.svc.pc.Sending? && w.svc.pc.cmd.kind.Create? ==>
      w.svc.pc.loop < |w.loops| && Accept(w.loops[w.svc.pc.loop], w.svc.pc.cmd).worker.Working?
  }

  /** Safety of every run, whatever its callers do: one answer per transaction and
      exactly one party that owes it, and exact tables. */
  lemma RunIsSafe(w: World)
    requires Reachable(w)
    ensures OneOwner(w) && Conversations(w.x.chans)
    ensures Registry(w.svc) && Inboxes(w.svc, w.loops)
    ensures CreateIsFirst(w)
  {
    var own := ReachableInv(w);
    OwnersMean(w, own);
  }

  /** No run misuses a channel: anything that goes wrong is a completion that met an
      id no longer known. */
  lemma {:induction false} FaultExactly(systemd: bool, uid: nat, dirs: seq<Saved>, es: seq<Event>)
    requires Directories(dirs) && FreeNames(Begin(systemd, uid, dirs), es)
    ensures var w := Begin(systemd, uid, dirs);
            Run(w, es).x.fault <==> CompletesUnknown(w, es)
  {
    var w := Begin(systemd, uid, dirs);
    if es == [] {
      RestoredLedger(systemd, uid, dirs);
    } else {
      var init, e := es[..|es| - 1], es[|es| - 1];
      FaultExactly(systemd, uid, dirs, init);
      var own := BegunInv(systemd, uid, dirs, init);
      StepKeepsInv(Run(w, init), own, e);
    }
  }

  /** With one Result call in flight per id nothing ever goes wrong. */
  lemma NoFault(systemd: bool, uid: nat, dirs: seq<Saved>, es: seq<Event>)
    requires Directories(dirs) && FreeNames(Begin(systemd, uid, dirs), es) && OneCallAtATime(Begin(systemd, uid, dirs), es)
    ensures !Run(Begin(systemd, uid, dirs), es).x.fault
  {
    FaultExactly(systemd, uid, dirs, es);
    RestoredLedger(systemd, uid, dirs);
    NoUnknownCompletion(Begin(systemd, uid, dirs), es);
  }

  // ---------- calls of the wrong kind ----------

  /** A Result call other than CreateResult receives a line of progress, which it
      takes for the answer. */
  predicate Misread(w: World, e: Event) {
    && Enabled(w, e) && e.Receive? && !w.callers[e.c].streaming
    && var ch := w.x.chans[w.callers[e.c].tx];
       Unread(ch) && ch.sent[ch.received].Line?
  }

  /** The transactions misread in a run. */
  ghost function Misreads(w: World, es: seq<Event>): set<nat> {
    if es == [] then {}
    else
      var init, e := es[..|es| - 1], es[|es| - 1];
      Misreads(w, init) + if Misread(Run(w, init), e) then {Run(w, init).callers[e.c].tx} else {}
  }

  /** Apart from the misread ones, only transactions whose conversation is over are
      completed. */
  ghost predicate Settled(w: World, misread: set<nat>) {
    && (forall tx :: 0 <= tx < |w.x.chans| ==> tx in w.svc.transactions || tx in misread || Delivered(w.x.chans[tx]))
    && (forall c :: 0 <= c < |w.callers| && w.callers[c].pc.Completing? ==>
          w.callers[c].tx < |w.x.chans| && (w.callers[c].tx in misread || Delivered(w.x.chans[w.callers[c].tx])))
  }

  lemma StepDelivered(w: World, own: seq<Owner>, e: Event)
    requires Inv(w, own) && Ledger(w) && FreeName(w, e)
    ensures |w.x.chans| <= |Step(w, e).x.chans|
    ensures forall tx :: 0 <= tx < |w.x.chans| && Delivered(w.x.chans[tx]) ==> Delivered(Step(w, e).x.chans[tx])
  {
    StepKeepsInv(w, own, e);
    StepExtends(w, e);
    assert forall tx :: 0 <= tx < |w.x.chans| ==> Grows(w.x.chans[tx], Step(w, e).x.chans[tx]);
  }

  /** A call that takes the terminal value, or finds the channel closed and empty,
      leaves nothing behind. */
  lemma ReceiveDelivers(w: World, own: seq<Owner>, c: nat)
    requires Inv(w, own) && Ledger(w) && Enabled(w, Receive(c))
    ensures var w' := Step(w, Receive(c));
            w'.callers[c].pc.Completing? ==> (Delivered(w'.x.chans[w.callers[c].tx]) <==> !Misread(w, Receive(c)))
  {
    var tx := w.callers[c].tx;
    var ch := w.x.chans[tx];
    assert OwnedOk(ch, own[tx], w.svc.pc, w.loops, tx);
    if Unread(ch) && !ch.sent[ch.received].Line? {
      assert Answered(ch) && ch.received == |ch.sent| - 1;
    }
  }

  lemma ReceiveSettled(w: World, own: seq<Owner>, c: nat, misread: set<nat>)
    requires Inv(w, own) && Ledger(w) && Settled(w, misread) && Enabled(w, Receive(c))
    requires forall tx :: 0 <= tx < |w.x.chans| && Delivered(w.x.chans[tx]) ==> Delivered(Step(w, Receive(c)).x.chans[tx])
    ensures Settled(Step(w, Receive(c)), misread + if Misread(w, Receive(c)) then {w.callers[c].tx} else {})
  {
    ReceiveDelivers(w, own, c);
    assert |Step(w, Receive(c)).x.chans| == |w.x.chans|;
  }

  lemma OtherSettled(w: World, e: Event, misread: set<nat>)
    requires Settled(w, misread) && Enabled(w, e) && !e.Receive? && !e.Start?
    requires |Step(w, e).x.chans| == |w.x.chans|
    requires forall tx :: 0 <= tx < |w.x.chans| && Delivered(w.x.chans[tx]) ==> Delivered(Step(w, e).x.chans[tx])
    ensures Settled(Step(w, e), misread)
  {}

  lemma StepSettled(w: World, own: seq<Owner>, e: Event, misread: set<nat>)
    requires Inv(w, own) && Ledger(w) && FreeName(w, e) && Settled(w, misread)
    ensures Settled(Step(w, e), misread + if Misread(w, e) then {w.callers[e.c].tx} else {})
  {
    StepDelivered(w, own, e);
    if Enabled(w, e) {
      if e.Receive? {
        ReceiveSettled(w, own, e.c, misread);
      } else if e.Start? {
        ActExtends(w, e.r);
      } else {
        StepExtends(w, e);
        OtherSettled(w, e, misread);
        assert misread + {} == misread;
      }
    }
  }

  lemma {:induction false} RunSettled(systemd: bool, uid: nat, dirs: seq<Saved>, es: seq<Event>)
    requires Directories(dirs) && FreeNames(Begin(systemd, uid, dirs), es)
    ensures var w := Begin(systemd, uid, dirs); Settled(Run(w, es), Misreads(w, es))
  {
    var w := Begin(systemd, uid, dirs);
    if es == [] {
      RestoredLedger(systemd, uid, dirs);
    } else {
      var init := es[..|es| - 1];
      RunSettled(systemd, uid, dirs, init);
      var own := BegunInv(systemd, uid, dirs, init);
      StepSettled(Run(w, init), own, es[|es| - 1], Misreads(w, init));
    }
  }

  /** Some call is about to complete a conversation that is not over. */
  ghost predicate Premature(w: World) {
    exists c :: 0 <= c < |w.callers| && w.callers[c].pc.Completing?
      && w.callers[c].tx < |w.x.chans| && !Delivered(w.x.chans[w.callers[c].tx])
  }

  ghost predicate PrematureAtSomeTime(w: World, es: seq<Event>) {
    Premature(Run(w, es)) || (es != [] && PrematureAtSomeTime(w, es[..|es| - 1]))
  }

  /** Over any run, calls complete only conversations that are over if and only if
      no call of the wrong kind received a line. */
  lemma {:induction false} PrematureExactly(systemd: bool, uid: nat, dirs: seq<Saved>, es: seq<Event>)
    requires Directories(dirs) && FreeNames(Begin(systemd, uid, dirs), es)
    ensures var w := Begin(systemd, uid, dirs);
            PrematureAtSomeTime(w, es) <==> Misreads(w, es) != {}
  {
    var w := Begin(systemd, uid, dirs);
    RunSettled(systemd, uid, dirs, es);
    if es == [] {
      RestoredLedger(systemd, uid, dirs);
    } else {
      var init, e := es[..|es| - 1], es[|es| - 1];
      PrematureExactly(systemd, uid, dirs, init);
      if Misread(Run(w, init), e) {
        var own := BegunInv(systemd, uid, dirs, init);
        ReceiveDelivers(Run(w, init), own, e.c);
      }
    }
  }

  // ---------- the idle timer ----------

  predicate Armed(w: World) {
    (w.svc.pc.Select? || w.svc.pc.Sending?) && !w.svc.timer.Stopped?
  }

  /** On every run, whatever callers and name generator do: the idle timer is armed
      exactly in systemd mode, after a first transaction, with none outstanding. */
  lemma TimerArmed(systemd: bool, uid: nat, dirs: seq<Saved>, es: seq<Event>)
    ensures var w := Run(Begin(systemd, uid, dirs), es);
            w.svc.pc.Select? || w.svc.pc.Sending? ==>
              (Armed(w) <==> systemd && |w.x.chans| > 0 && w.svc.transactions == {})
  {
    RestoredLedger(systemd, uid, dirs);
    RunLedger(Begin(systemd, uid, dirs), es);
  }

  /** No command is in the air or running and no creation is under way; at most
      some result channels are still to be closed. */
  ghost predicate NoLiveWork(w: World) {
    && !w.svc.pc.Sending?
    && forall l :: 0 <= l < |w.loops| ==>
         w.loops[l].worker.NoCreate? && (w.loops[l].pc.Ready? || w.loops[l].pc.Ending? || w.loops[l].pc.Exited?)
  }

  /** There is no live work exactly when every conversation has had its terminal value. */
  lemma IdleMeansAnswered(w: World, own: seq<Owner>)
    requires Inv(w, own) && (w.svc.pc.Select? || w.svc.pc.Sending?)
    ensures NoLiveWork(w) <==> forall tx :: 0 <= tx < |w.x.chans| ==> Answered(w.x.chans[tx])
  {}

  /** The timer runs, or the service times out, under live work exactly when a call
      of the wrong kind took a line of a creation that is still unfinished. */
  lemma IdleTimer(systemd: bool, uid: nat, dirs: seq<Saved>, es: seq<Event>)
    requires Directories(dirs) && FreeNames(Begin(systemd, uid, dirs), es)
    ensures var w0 := Begin(systemd, uid, dirs);
            var w := Run(w0, es);
            Armed(w) ==>
              (NoLiveWork(w) <==> forall tx :: tx in Misreads(w0, es) && tx < |w.x.chans| ==> Answered(w.x.chans[tx]))
  {
    var own := BegunInv(systemd, uid, dirs, es);
    RunSettled(systemd, uid, dirs, es);
    var w := Run(Begin(systemd, uid, dirs), es);
    if Armed(w) {
      IdleMeansAnswered(w, own);
    }
  }
}
