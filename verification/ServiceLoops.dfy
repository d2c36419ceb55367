/** Steps of instance loops, of creations, and of the hand-over of a command
    keep the invariant. */
module ServiceLoops {
  import opened ServiceModel
  import opened ServiceInv

  /** A channel only ever grows, and not after its conversation is over. */
  ghost predicate Grows(c: Chan, c': Chan) {
    && c'.kind == c.kind
    && c.sent <= c'.sent
    && (c.closed ==> c'.closed)
    && (Answered(c) ==> c'.sent == c.sent)
  }

  ghost predicate GrowAll(chans: seq<Chan>, chans': seq<Chan>) {
    |chans| <= |chans'| && forall tx :: 0 <= tx < |chans| ==> Grows(chans[tx], chans'[tx])
  }

  lemma GrowOne(chans: seq<Chan>, tx: nat, c': Chan)
    requires tx < |chans| && Grows(chans[tx], c')
    ensures GrowAll(chans, chans[tx := c'])
  {}

  /** One channel, one loop and one owner change; everybody else's duties stay. */
  lemma OwnersUpdate(pc: ServicePc, pc': ServicePc, chans: seq<Chan>, loops: seq<Loop>, own: seq<Owner>,
                     tx: nat, c': Chan, o': Owner, l: nat, loop': Loop)
    requires Owners(pc, chans, loops, own) && tx < |chans| && l < |loops|
    requires OwnedOk(c', o', pc', loops[l := loop'], tx)
    requires PlaceOk(own[tx := o'], loop', l)
    requires own[tx] == PcOf(l) || own[tx] == WorkerOf(l) || own[tx] == TheService
    requires pc' == pc || (own[tx] == TheService && pc'.Select?)
    requires pc'.Sending? ==> own[tx] != TheService
    requires PcTx(loops[l].pc).Some? && PcTx(loops[l].pc).value != tx ==> loop'.pc == loops[l].pc
    requires WorkerTx(loops[l].worker).Some? && WorkerTx(loops[l].worker).value != tx ==> loop'.worker == loops[l].worker
    ensures Owners(pc', chans[tx := c'], loops[l := loop'], own[tx := o'])
  {
    var loops', own' := loops[l := loop'], own[tx := o'];
    assert PlaceOk(own, loops[l], l);
    forall t | 0 <= t < |chans| && t != tx ensures OwnedOk(chans[t], own[t], pc', loops', t) {
      assert OwnedOk(chans[t], own[t], pc, loops, t);
      assert OwnedOk(chans[tx], own[tx], pc, loops, tx);
    }
    forall k | 0 <= k < |loops| ensures PlaceOk(own', loops'[k], k) {
      assert PlaceOk(own, loops[k], k);
    }
  }

  /** A step of a loop that touches no channel and no duty. */
  lemma OwnersLoop(pc: ServicePc, chans: seq<Chan>, loops: seq<Loop>, own: seq<Owner>, l: nat, loop': Loop)
    requires Owners(pc, chans, loops, own) && l < |loops|
    requires PcTx(loops[l].pc) == PcTx(loop'.pc) && WorkerTx(loops[l].worker) == WorkerTx(loop'.worker)
    requires PcTx(loop'.pc).Some? ==> loop'.pc == loops[l].pc
    ensures Owners(pc, chans, loops[l := loop'], own)
  {}

  /** Who owes the answer after a move. */
  function MoveOwner(own: seq<Owner>, loop: Loop, l: nat, m: Move): seq<Owner> {
    if m.TakeResult? && loop.worker.Returned? && loop.worker.tx < |own| then own[loop.worker.tx := PcOf(l)]
    else if m.End? && loop.pc.Ending? && loop.pc.tx < |own| then own[loop.pc.tx := Nobody]
    else own
  }

  lemma MoveLoopOk(loop: Loop, chans: seq<Chan>, m: Move)
    requires LoopOk(loop) && CanMove(loop, chans, m)
    ensures var loop' := MoveLoop(loop, m);
            && LoopOk(loop')
            && loop'.inboxClosed == loop.inboxClosed && loop'.addr == loop.addr
            && (loop.deleted ==> loop'.deleted)
  {}

  lemma SameOwner(own: seq<Owner>, tx: nat)
    requires tx < |own|
    ensures own[tx := own[tx]] == own
  {}

  /** A loop or its creation sends on the channel it owes an answer to. */
  lemma SendOwners(pc: ServicePc, chans: seq<Chan>, loops: seq<Loop>, own: seq<Owner>, l: nat, tx: nat, v: Value, loop': Loop)
    requires Owners(pc, chans, loops, own) && l < |loops| && tx < |chans|
    requires own[tx] == PcOf(l) || own[tx] == WorkerOf(l)
    requires OwnedOk(chans[tx].(sent := chans[tx].sent + [v]), own[tx], pc, loops[l := loop'], tx)
    requires PcTx(loop'.pc) == PcTx(loops[l].pc) && WorkerTx(loop'.worker) == WorkerTx(loops[l].worker)
    requires if own[tx] == PcOf(l) then loop'.worker == loops[l].worker else loop'.pc == loops[l].pc
    requires !Answered(chans[tx])
    ensures var chans' := chans[tx := chans[tx].(sent := chans[tx].sent + [v])];
            Owners(pc, chans', loops[l := loop'], own) && GrowAll(chans, chans')
  {
    var c' := chans[tx].(sent := chans[tx].sent + [v]);
    assert OwnedOk(chans[tx], own[tx], pc, loops, tx) && PlaceOk(own, loops[l], l);
    SameOwner(own, tx);
    GrowOne(chans, tx, c');
    OwnersUpdate(pc, pc, chans, loops, own, tx, c', own[tx], l, loop');
  }

  /** Sending moves: the answer of a command, a line of progress, the outcome of a creation. */
  lemma SendMoveOwners(pc: ServicePc, x: Wires, loops: seq<Loop>, own: seq<Owner>, l: nat, m: Move)
    requires Owners(pc, x.chans, loops, own) && l < |loops| && LoopOk(loops[l]) && CanMove(loops[l], x.chans, m)
    requires m.Execute? || m.WorkerLine? || m.Report?
    ensures var x' := MoveWires(x, loops[l], m);
            && Owners(pc, x'.chans, loops[l := MoveLoop(loops[l], m)], own)
            && x'.fault == x.fault && GrowAll(x.chans, x'.chans)
  {
    var loop, loop' := loops[l], MoveLoop(loops[l], m);
    assert PlaceOk(own, loop, l);
    match m
    case Execute =>
      var tx := loop.pc.cmd.tx;
      assert OwnedOk(x.chans[tx], own[tx], pc, loops, tx);
      SendOwners(pc, x.chans, loops, own, l, tx, Outcome(loop.pc.cmd.fails), loop');
    case WorkerLine =>
      var tx := loop.worker.tx;
      assert OwnedOk(x.chans[tx], own[tx], pc, loops, tx);
      SendOwners(pc, x.chans, loops, own, l, tx, Line, loop');
    case Report =>
      var tx := loop.pc.tx;
      assert OwnedOk(x.chans[tx], own[tx], pc, loops, tx);
      SendOwners(pc, x.chans, loops, own, l, tx, if loop.pc.fails then Failed else Finished, loop');
  }

  lemma EndOwners(pc: ServicePc, x: Wires, loops: seq<Loop>, own: seq<Owner>, l: nat)
    requires Owners(pc, x.chans, loops, own) && l < |loops| && LoopOk(loops[l]) && loops[l].pc.Ending?
    ensures var x' := MoveWires(x, loops[l], End);
            && Owners(pc, x'.chans, loops[l := MoveLoop(loops[l], End)], MoveOwner(own, loops[l], l, End))
            && x'.fault == x.fault && GrowAll(x.chans, x'.chans)
  {
    var tx, c' := loops[l].pc.tx, x.chans[loops[l].pc.tx].(closed := true);
    assert PlaceOk(own, loops[l], l) && OwnedOk(x.chans[tx], own[tx], pc, loops, tx);
    GrowOne(x.chans, tx, c');
    OwnersUpdate(pc, pc, x.chans, loops, own, tx, c', Nobody, l, MoveLoop(loops[l], End));
  }

  lemma TakeOwners(pc: ServicePc, chans: seq<Chan>, loops: seq<Loop>, own: seq<Owner>, l: nat)
    requires Owners(pc, chans, loops, own) && l < |loops| && LoopOk(loops[l]) && CanMove(loops[l], chans, TakeResult)
    ensures Owners(pc, chans, loops[l := MoveLoop(loops[l], TakeResult)], MoveOwner(own, loops[l], l, TakeResult))
  {
    var tx := loops[l].worker.tx;
    assert PlaceOk(own, loops[l], l) && OwnedOk(chans[tx], own[tx], pc, loops, tx);
    OwnersUpdate(pc, pc, chans, loops, own, tx, chans[tx], PcOf(l), l, MoveLoop(loops[l], TakeResult));
    assert chans[tx := chans[tx]] == chans;
  }

  lemma MoveOwners(pc: ServicePc, x: Wires, loops: seq<Loop>, own: seq<Owner>, l: nat, m: Move)
    requires Owners(pc, x.chans, loops, own) && l < |loops| && LoopOk(loops[l]) && CanMove(loops[l], x.chans, m)
    ensures var x' := MoveWires(x, loops[l], m);
            && Owners(pc, x'.chans, loops[l := MoveLoop(loops[l], m)], MoveOwner(own, loops[l], l, m))
            && x'.fault == x.fault && GrowAll(x.chans, x'.chans)
  {
    match m
    case TakeResult => TakeOwners(pc, x.chans, loops, own, l);
    case End => EndOwners(pc, x, loops, own, l);
    case WorkerAsk => OwnersLoop(pc, x.chans, loops, own, l, MoveLoop(loops[l], m));
    case WorkerReturn => OwnersLoop(pc, x.chans, loops, own, l, MoveLoop(loops[l], m));
    case SeeClosed => OwnersLoop(pc, x.chans, loops, own, l, MoveLoop(loops[l], m));
    case _ => SendMoveOwners(pc, x, loops, own, l, m);
  }

  lemma LoopSet(s: Service, loops: seq<Loop>, l: nat, loop': Loop)
    requires LoopsOk(loops) && Inboxes(s, loops) && l < |loops|
    requires LoopOk(loop') && loop'.inboxClosed == loops[l].inboxClosed
    requires loops[l].deleted ==> loop'.deleted
    requires s.pc.Sending? && s.pc.cmd.kind.Create? ==> s.pc.loop != l
    requires s.pc.Gone? ==> loop'.pc.Exited?
    ensures LoopsOk(loops[l := loop']) && Inboxes(s, loops[l := loop'])
  {}

  lemma InnerKeepsInv(w: World, own: seq<Owner>, l: nat, m: Move)
    requires Inv(w, own) && Enabled(w, Inner(l, m))
    ensures var w' := Step(w, Inner(l, m));
            && Inv(w', MoveOwner(own, w.loops[l], l, m))
            && w'.x.fault == w.x.fault && GrowAll(w.x.chans, w'.x.chans)
  {
    assert LoopOk(w.loops[l]);
    MoveLoopOk(w.loops[l], w.x.chans, m);
    MoveOwners(w.svc.pc, w.x, w.loops, own, l, m);
    LoopSet(w.svc, w.loops, l, MoveLoop(w.loops[l], m));
  }

  /** Who owes the answer once a loop has the command. */
  function AcceptOwner(own: seq<Owner>, loop: Loop, l: nat, cmd: Cmd): seq<Owner> {
    if cmd.tx >= |own| then own
    else own[cmd.tx := if Accept(loop, cmd).worker == loop.worker then PcOf(l) else WorkerOf(l)]
  }

  lemma AcceptOk(loop: Loop, cmd: Cmd)
    requires LoopOk(loop) && loop.pc.Ready? && !cmd.kind.List? && !loop.inboxClosed
    requires cmd.kind.Create? ==> loop.worker.NoCreate? && !loop.deleted
    ensures var loop' := Accept(loop, cmd);
            LoopOk(loop') && loop'.inboxClosed == loop.inboxClosed && loop'.deleted == loop.deleted
  {}

  lemma AcceptWiresOk(x: Wires, loop: Loop, cmd: Cmd)
    requires cmd.tx < |x.chans| && !x.chans[cmd.tx].closed && x.chans[cmd.tx].sent == [] && !loop.inboxClosed
    requires cmd.kind.Create? ==> loop.worker.NoCreate? && !loop.deleted
    ensures var x' := AcceptWires(x, loop, cmd);
            && x'.fault == x.fault && GrowAll(x.chans, x'.chans)
            && x'.chans == x.chans[cmd.tx := x'.chans[cmd.tx]]
  {}

  lemma AcceptOwners(pc: ServicePc, x: Wires, loops: seq<Loop>, own: seq<Owner>)
    requires Owners(pc, x.chans, loops, own) && pc.Sending? && pc.loop < |loops| && loops[pc.loop].pc.Ready? && !loops[pc.loop].inboxClosed
    requires pc.cmd.kind.Create? ==> loops[pc.loop].worker.NoCreate? && !loops[pc.loop].deleted
    ensures var loop, cmd := loops[pc.loop], pc.cmd;
            Owners(Select, AcceptWires(x, loop, cmd).chans, loops[pc.loop := Accept(loop, cmd)], AcceptOwner(own, loop, pc.loop, cmd))
  {
    var l, cmd := pc.loop, pc.cmd;
    var loop := loops[l];
    var loop', x' := Accept(loop, cmd), AcceptWires(x, loop, cmd);
    assert PlaceOk(own, loop, l) && OwnedOk(x.chans[cmd.tx], own[cmd.tx], pc, loops, cmd.tx);
    AcceptWiresOk(x, loop, cmd);
    OwnersUpdate(pc, Select, x.chans, loops, own, cmd.tx, x'.chans[cmd.tx],
                 if loop'.worker == loop.worker then PcOf(l) else WorkerOf(l), l, loop');
  }

  lemma HandoverKeepsInv(w: World, own: seq<Owner>)
    requires Inv(w, own) && Enabled(w, Handover)
    ensures var l := w.svc.pc.loop;
            var w' := Step(w, Handover);
            && Inv(w', AcceptOwner(own, w.loops[l], l, w.svc.pc.cmd))
            && w'.x.fault == w.x.fault && GrowAll(w.x.chans, w'.x.chans)
  {
    var l, cmd := w.svc.pc.loop, w.svc.pc.cmd;
    var s' := w.svc.(pc := Select);
    AcceptOwners(w.svc.pc, w.x, w.loops, own);
    assert LoopOk(w.loops[l]) && OwnedOk(w.x.chans[cmd.tx], own[cmd.tx], w.svc.pc, w.loops, cmd.tx);
    AcceptOk(w.loops[l], cmd);
    AcceptWiresOk(w.x, w.loops[l], cmd);
    LoopSet(s', w.loops, l, Accept(w.loops[l], cmd));
  }
}
