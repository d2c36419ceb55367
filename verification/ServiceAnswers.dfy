/** What each transaction is answered, over whole runs: the backend's own result for
    what was carried out, a failure for what was not; and which instances go. */
module ServiceAnswers {
  import opened Wrappers
  import opened ServiceModel
  import opened ServiceInv
  import opened ServiceLoops
  import opened ServiceSteps
  import opened ServiceTheorems

  // ---------- the history of a transaction ----------

  /** What was asked, to which loop it was sent if it was, and whether that loop took it
      on: ran the command, or started the creation. */
  datatype Note = Note(r: Request, loop: Option<nat>, taken: bool)

  /** The transactions that a step of a loop takes on. */
  ghost function TakenOn(w: World, e: Event): Option<nat> {
    if !Enabled(w, e) then None
    else if e.Handover? && w.svc.pc.cmd.kind.Create? then Some(w.svc.pc.cmd.tx)
    else if e.Inner? && e.m.Execute? then Some(w.loops[e.l].pc.cmd.tx)
    else None
  }

  /** One note per transaction of the run, in order. */
  ghost function History(w: World, es: seq<Event>): seq<Note> {
    if es == [] then []
    else
      var init, e := es[..|es| - 1], es[|es| - 1];
      Noted(History(w, init), Run(w, init), e)
  }

  ghost function Noted(notes: seq<Note>, w: World, e: Event): seq<Note> {
    if Enabled(w, e) && e.Start? then
      var pc := Step(w, e).svc.pc;
      notes + [Note(e.r, if pc.Sending? then Some(pc.loop) else None, false)]
    else
      var tx := TakenOn(w, e);
      if tx.Some? && tx.value < |notes| then notes[tx.value := notes[tx.value].(taken := true)] else notes
  }

  function Fails(r: Request): bool {
    match r
    case ReqCreate(_, _, _, _, _, _, fails) => fails
    case ReqCommand(_, _, fails) => fails
    case ReqList => false
  }

  /** The answer a transaction gets: a list is fine; a command or creation that was taken
      on has its own result; and one that was not has failed. */
  predicate RightAnswer(c: Chan, n: Note) {
    match n.r
    case ReqList => c.sent == [Okay]
    case ReqCommand(_, _, fails) =>
      (c.sent == [Okay] <==> n.taken && !fails) && (c.sent == [Failed] <==> !n.taken || fails)
    case ReqCreate(_, _, _, _, _, _, fails) =>
      && c.sent != []
      && (c.sent[|c.sent| - 1] == Finished <==> n.taken && !fails)
      && (c.sent[|c.sent| - 1] == Failed <==> !n.taken || fails)
      && (!n.taken ==> c.sent == [Failed])
  }

  /** The transaction ended its instance: a delete that succeeded or a creation that failed. */
  predicate EndsInstance(n: Note) {
    n.taken && match n.r
               case ReqCreate(_, _, _, _, _, _, fails) => fails
               case ReqCommand(kind, _, fails) => kind.Delete? && !fails
               case ReqList => false
  }

  predicate Matches(cmd: Cmd, n: Note) {
    cmd.kind == KindOf(n.r) && cmd.fails == Fails(n.r) && !n.taken
  }

  /** What an open transaction's note has to do with whoever owes its answer. */
  predicate NoteOk(n: Note, c: Chan, o: Owner, pc: ServicePc, loops: seq<Loop>) {
    && c.kind == KindOf(n.r) && (n.r.ReqCommand? ==> n.r.kind.Delete? || n.r.kind.Other?)
    && match o
       case Nobody => RightAnswer(c, n) && (n.taken ==> n.loop.Some? && n.loop.value < |loops|)
       case TheService => pc.Sending? && Matches(pc.cmd, n) && n.loop == Some(pc.loop)
       case PcOf(l) => l < |loops| && n.loop == Some(l) && PcNote(n, c, loops[l].pc, loops[l].inboxClosed)
       case WorkerOf(l) => l < |loops| && n.loop == Some(l) && n.taken && n.r.ReqCreate? && WorkerFails(loops[l].worker) == Fails(n.r)
  }

  predicate PcNote(n: Note, c: Chan, pc: LoopPc, inboxClosed: bool) {
    match pc
    case Executing(cmd) => Matches(cmd, n) && n.r.ReqCommand?
    case Reporting(_, fails, _) => n.taken && n.r.ReqCreate? && fails == Fails(n.r)
    case Ending(_, dies, last) => RightAnswer(c, n) && dies == (EndsInstance(n) && !last) && (last ==> inboxClosed)
    case _ => false
  }

  function WorkerFails(k: Worker): bool {
    match k
    case Working(_, _, _, fails) => fails
    case Returned(_, fails) => fails
    case NoCreate => false
  }

  ghost predicate Notes(w: World, own: seq<Owner>, notes: seq<Note>) {
    && |notes| == |w.x.chans| == |own|
    && forall tx :: 0 <= tx < |notes| ==> NoteOk(notes[tx], w.x.chans[tx], own[tx], w.svc.pc, w.loops)
  }

  // ---------- every step keeps the notes ----------

  lemma StartNotes(w: World, own: seq<Owner>, notes: seq<Note>, r: Request)
    requires Inv(w, own) && Notes(w, own, notes) && Enabled(w, Start(r)) && FreeName(w, Start(r))
    ensures Notes(Step(w, Start(r)), own + [StartOwner(w, r)], Noted(notes, w, Start(r)))
  {
    RefuseEffect(w.x, KindOf(r), Failed);
    RefuseEffect(w.x, List, Okay);
    StartKeepsInv(w, own, r);
    StartNote(w, r);
    var w' := Step(w, Start(r));
    forall tx | 0 <= tx < |notes| ensures NoteOk(notes[tx], w'.x.chans[tx], own[tx], w'.svc.pc, w'.loops) {
      assert NoteOk(notes[tx], w.x.chans[tx], own[tx], w.svc.pc, w.loops);
      assert OwnedOk(w.x.chans[tx], own[tx], w.svc.pc, w.loops, tx);
    }
  }

  lemma StartNote(w: World, r: Request)
    requires Enabled(w, Start(r))
    ensures var w' := Step(w, Start(r));
            var pc := w'.svc.pc;
            && |w'.x.chans| == |w.x.chans| + 1 && w'.x.chans[..|w.x.chans|] == w.x.chans
            && |w.loops| <= |w'.loops| && w'.loops[..|w.loops|] == w.loops
            && NoteOk(Note(r, if pc.Sending? then Some(pc.loop) else None, false), w'.x.chans[|w.x.chans|], StartOwner(w, r), pc, w'.loops)
  {
    RefuseEffect(w.x, KindOf(r), Failed);
    RefuseEffect(w.x, List, Okay);
  }

  /** A step that changes neither what was sent nor what loops are doing. */
  lemma SameNotes(w: World, w': World, own: seq<Owner>, notes: seq<Note>)
    requires Notes(w, own, notes) && Inv(w, own) && (w'.svc.pc == w.svc.pc || !w.svc.pc.Sending?)
    requires |w'.x.chans| == |w.x.chans| && forall tx :: 0 <= tx < |w.x.chans| ==>
               w'.x.chans[tx].kind == w.x.chans[tx].kind && w'.x.chans[tx].sent == w.x.chans[tx].sent
    requires |w'.loops| == |w.loops| && forall l :: 0 <= l < |w.loops| ==>
               && (w'.loops[l].pc == w.loops[l].pc || (PcTx(w.loops[l].pc).None? && PcTx(w'.loops[l].pc).None?))
               && w'.loops[l].worker == w.loops[l].worker
               && (w.loops[l].inboxClosed ==> w'.loops[l].inboxClosed)
    ensures Notes(w', own, notes)
  {
    forall tx | 0 <= tx < |notes| ensures NoteOk(notes[tx], w'.x.chans[tx], own[tx], w'.svc.pc, w'.loops) {
      assert NoteOk(notes[tx], w.x.chans[tx], own[tx], w.svc.pc, w.loops);
      assert OwnedOk(w.x.chans[tx], own[tx], w.svc.pc, w.loops, tx);
    }
  }

  /** One channel, one loop and one owner change. */
  lemma OneNote(w: World, w': World, own: seq<Owner>, own': seq<Owner>, notes: seq<Note>, l: nat, tx: nat, n': Note)
    requires Inv(w, own) && Notes(w, own, notes) && l < |w.loops| && tx < |notes|
    requires own[tx] == PcOf(l) || own[tx] == WorkerOf(l) || own[tx] == TheService
    requires |w'.loops| == |w.loops| && w'.loops == w.loops[l := w'.loops[l]]
    requires |w'.x.chans| == |w.x.chans| && w'.x.chans == w.x.chans[tx := w'.x.chans[tx]]
    requires |own'| == |own| && own' == own[tx := own'[tx]]
    requires w'.svc.pc == w.svc.pc || own[tx] == TheService
    requires PcTx(w.loops[l].pc).Some? && PcTx(w.loops[l].pc).value != tx ==> w'.loops[l].pc == w.loops[l].pc
    requires WorkerTx(w.loops[l].worker).Some? && WorkerTx(w.loops[l].worker).value != tx ==> w'.loops[l].worker == w.loops[l].worker
    requires w.loops[l].inboxClosed ==> w'.loops[l].inboxClosed
    requires NoteOk(n', w'.x.chans[tx], own'[tx], w'.svc.pc, w'.loops)
    ensures Notes(w', own', notes[tx := n'])
  {
    forall t | 0 <= t < |notes| && t != tx ensures NoteOk(notes[t], w'.x.chans[t], own'[t], w'.svc.pc, w'.loops) {
      assert NoteOk(notes[t], w.x.chans[t], own[t], w.svc.pc, w.loops);
      assert OwnedOk(w.x.chans[t], own[t], w.svc.pc, w.loops, t) && OwnedOk(w.x.chans[tx], own[tx], w.svc.pc, w.loops, tx);
      assert PlaceOk(own, w.loops[l], l);
    }
  }

  lemma SendNotes(w: World, own: seq<Owner>, notes: seq<Note>, l: nat, m: Move)
    requires Inv(w, own) && Notes(w, own, notes) && Enabled(w, Inner(l, m)) && (m.Execute? || m.WorkerLine? || m.Report? || m.End?)
    ensures Notes(Step(w, Inner(l, m)), MoveOwner(own, w.loops[l], l, m), Noted(notes, w, Inner(l, m)))
  {
    var loop, w' := w.loops[l], Step(w, Inner(l, m));
    var own' := MoveOwner(own, loop, l, m);
    assert LoopOk(loop) && PlaceOk(own, loop, l);
    var tx := if m.WorkerLine? then loop.worker.tx else PcTx(loop.pc).value;
    assert OwnedOk(w.x.chans[tx], own[tx], w.svc.pc, w.loops, tx) && NoteOk(notes[tx], w.x.chans[tx], own[tx], w.svc.pc, w.loops);
    SentNote(w, own, notes, l, m, tx);
    SentFrame(w, own, notes, l, m, tx);
    OneNote(w, w', own, own', notes, l, tx, Noted(notes, w, Inner(l, m))[tx]);
  }

  lemma SentFrame(w: World, own: seq<Owner>, notes: seq<Note>, l: nat, m: Move, tx: nat)
    requires Enabled(w, Inner(l, m)) && (m.Execute? || m.WorkerLine? || m.Report? || m.End?) && tx < |notes| == |own|
    requires Some(tx) == if m.WorkerLine? then WorkerTx(w.loops[l].worker) else PcTx(w.loops[l].pc)
    ensures var w', own', notes' := Step(w, Inner(l, m)), MoveOwner(own, w.loops[l], l, m), Noted(notes, w, Inner(l, m));
            && |notes'| == |notes| && notes' == notes[tx := notes'[tx]]
            && |own'| == |own| && own' == own[tx := own'[tx]]
            && |w'.loops| == |w.loops| && w'.loops == w.loops[l := w'.loops[l]] && w'.svc == w.svc
            && (m.WorkerLine? ==> w'.loops[l].pc == w.loops[l].pc) && (!m.WorkerLine? ==> w'.loops[l].worker == w.loops[l].worker)
            && w'.loops[l].inboxClosed == w.loops[l].inboxClosed
  {}

  lemma SentNote(w: World, own: seq<Owner>, notes: seq<Note>, l: nat, m: Move, tx: nat)
    requires |notes| == |own| == |w.x.chans| && Enabled(w, Inner(l, m)) && (m.Execute? || m.WorkerLine? || m.Report? || m.End?)
    requires LoopOk(w.loops[l]) && PlaceOk(own, w.loops[l], l) && tx < |notes|
    requires Some(tx) == if m.WorkerLine? then WorkerTx(w.loops[l].worker) else PcTx(w.loops[l].pc)
    requires OwnedOk(w.x.chans[tx], own[tx], w.svc.pc, w.loops, tx) && NoteOk(notes[tx], w.x.chans[tx], own[tx], w.svc.pc, w.loops)
    ensures var w' := Step(w, Inner(l, m));
            && NoteOk(Noted(notes, w, Inner(l, m))[tx], w'.x.chans[tx], MoveOwner(own, w.loops[l], l, m)[tx], w'.svc.pc, w'.loops)
            && w'.x.chans == w.x.chans[tx := w'.x.chans[tx]]
  {
    OneValue();
  }

  lemma OneValue()
    ensures [] + [Okay] == [Okay] && [] + [Failed] == [Failed] && [Okay] != [Failed]
  {
    assert [Okay][0] != [Failed][0];
  }

  lemma WorkNotes(w: World, own: seq<Owner>, notes: seq<Note>, l: nat, m: Move)
    requires Inv(w, own) && Notes(w, own, notes) && Enabled(w, Inner(l, m)) && (m.WorkerAsk? || m.WorkerReturn? || m.TakeResult?)
    ensures Notes(Step(w, Inner(l, m)), MoveOwner(own, w.loops[l], l, m), notes)
  {
    var loop, w' := w.loops[l], Step(w, Inner(l, m));
    var tx := loop.worker.tx;
    assert LoopOk(loop) && PlaceOk(own, loop, l);
    assert OwnedOk(w.x.chans[tx], own[tx], w.svc.pc, w.loops, tx) && NoteOk(notes[tx], w.x.chans[tx], own[tx], w.svc.pc, w.loops);
    assert w'.x.chans[tx := w'.x.chans[tx]] == w'.x.chans;
    OneNote(w, w', own, MoveOwner(own, loop, l, m), notes, l, tx, notes[tx]);
    assert notes[tx := notes[tx]] == notes;
  }

  lemma InnerNotes(w: World, own: seq<Owner>, notes: seq<Note>, l: nat, m: Move)
    requires Inv(w, own) && Notes(w, own, notes) && Enabled(w, Inner(l, m))
    ensures Notes(Step(w, Inner(l, m)), MoveOwner(own, w.loops[l], l, m), Noted(notes, w, Inner(l, m)))
  {
    if m.SeeClosed? {
      LeaveNotes(w, own, notes, l);
    } else if m.WorkerAsk? || m.WorkerReturn? || m.TakeResult? {
      WorkNotes(w, own, notes, l, m);
    } else {
      SendNotes(w, own, notes, l, m);
    }
  }

  lemma LeaveNotes(w: World, own: seq<Owner>, notes: seq<Note>, l: nat)
    requires Inv(w, own) && Notes(w, own, notes) && Enabled(w, Inner(l, SeeClosed))
    ensures Notes(Step(w, Inner(l, SeeClosed)), own, notes)
  {
    SameNotes(w, Step(w, Inner(l, SeeClosed)), own, notes);
  }

  lemma HandedNote(w: World, own: seq<Owner>, notes: seq<Note>)
    requires Enabled(w, Handover) && w.svc.pc.cmd.tx < |w.x.chans| && |notes| == |own| == |w.x.chans|
    requires var l, tx := w.svc.pc.loop, w.svc.pc.cmd.tx;
             && !w.loops[l].inboxClosed && LoopOk(w.loops[l]) && own[tx] == TheService && !w.svc.pc.cmd.kind.List?
             && (w.svc.pc.cmd.kind.Create? ==> w.loops[l].worker.NoCreate? && !w.loops[l].deleted)
             && OwnedOk(w.x.chans[tx], own[tx], w.svc.pc, w.loops, tx) && NoteOk(notes[tx], w.x.chans[tx], own[tx], w.svc.pc, w.loops)
    ensures var w', tx := Step(w, Handover), w.svc.pc.cmd.tx;
            NoteOk(Noted(notes, w, Handover)[tx], w'.x.chans[tx], AcceptOwner(own, w.loops[w.svc.pc.loop], w.svc.pc.loop, w.svc.pc.cmd)[tx], w'.svc.pc, w'.loops)
  {
    OneValue();
  }

  lemma HandoverNotes(w: World, own: seq<Owner>, notes: seq<Note>)
    requires Inv(w, own) && Notes(w, own, notes) && Enabled(w, Handover)
    ensures Notes(Step(w, Handover), NextOwners(w, own, Handover), Noted(notes, w, Handover))
  {
    var l, tx, w' := w.svc.pc.loop, w.svc.pc.cmd.tx, Step(w, Handover);
    assert LoopOk(w.loops[l]) && PlaceOk(own, w.loops[l], l);
    assert OwnedOk(w.x.chans[tx], own[tx], w.svc.pc, w.loops, tx) && NoteOk(notes[tx], w.x.chans[tx], own[tx], w.svc.pc, w.loops);
    var n' := Noted(notes, w, Handover)[tx];
    assert notes[tx := n'] == Noted(notes, w, Handover);
    AcceptWiresOk(w.x, w.loops[l], w.svc.pc.cmd);
    HandedNote(w, own, notes);
    OneNote(w, w', own, NextOwners(w, own, Handover), notes, l, tx, n');
  }

  lemma StepNotes(w: World, own: seq<Owner>, notes: seq<Note>, e: Event)
    requires Inv(w, own) && Notes(w, own, notes) && FreeName(w, e)
    ensures Notes(Step(w, e), NextOwners(w, own, e), Noted(notes, w, e))
  {
    if Enabled(w, e) {
      if e.Start? {
        StartNotes(w, own, notes, e.r);
      } else if e.Handover? {
        HandoverNotes(w, own, notes);
      } else if e.Inner? {
        InnerNotes(w, own, notes, e.l, e.m);
      } else {
        OtherNotes(w, own, notes, e);
      }
    }
  }

  lemma OtherNotes(w: World, own: seq<Owner>, notes: seq<Note>, e: Event)
    requires Inv(w, own) && Notes(w, own, notes) && Enabled(w, e) && !e.Start? && !e.Handover? && !e.Inner?
    ensures Notes(Step(w, e), own, notes)
  {
    if e.CloseInboxes? {
      CloseAllEffect(w, own);
    }
    SameNotes(w, Step(w, e), own, notes);
  }

  // ---------- instances that end ----------

  ghost predicate EndedBy(own: seq<Owner>, notes: seq<Note>, l: nat, tx: nat) {
    tx < |own| && tx < |notes| && own[tx] == Nobody && notes[tx].loop == Some(l) && EndsInstance(notes[tx])
  }

  /** A loop is deleted because of a transaction that is over, and while the service is
      at work every such transaction has ended its loop. */
  ghost predicate Deaths(w: World, own: seq<Owner>, notes: seq<Note>) {
    && (forall l :: 0 <= l < |w.loops| && w.loops[l].deleted ==> exists tx :: EndedBy(own, notes, l, tx))
    && (InService(w.svc.pc) ==> forall l: nat, tx :: EndedBy(own, notes, l, tx) ==> l < |w.loops| && w.loops[l].deleted)
  }

  /** Notes and owners of transactions that are over do not change. */
  lemma EndedStays(w: World, own: seq<Owner>, notes: seq<Note>, e: Event, l: nat, tx: nat)
    requires Inv(w, own) && Notes(w, own, notes) && FreeName(w, e) && EndedBy(own, notes, l, tx)
    requires Enabled(w, e) ==> !(e.Inner? && e.m.End?)
    ensures EndedBy(NextOwners(w, own, e), Noted(notes, w, e), l, tx)
  {
    OverIsFixed(w, own, notes, e, tx);
  }

  lemma OtherDeaths(w: World, own: seq<Owner>, notes: seq<Note>, e: Event)
    requires Inv(w, own) && Notes(w, own, notes) && FreeName(w, e) && Deaths(w, own, notes)
    requires Enabled(w, e) ==> !(e.Inner? && e.m.End?)
    ensures Deaths(Step(w, e), NextOwners(w, own, e), Noted(notes, w, e))
  {
    var w', own', notes' := Step(w, e), NextOwners(w, own, e), Noted(notes, w, e);
    NotDeadYet(w, own, e);
    forall l | 0 <= l < |w'.loops| && w'.loops[l].deleted ensures exists tx :: EndedBy(own', notes', l, tx) {
      var tx :| EndedBy(own, notes, l, tx);
      EndedStays(w, own, notes, e, l, tx);
    }
    forall l: nat, tx | InService(w'.svc.pc) && EndedBy(own', notes', l, tx) ensures l < |w'.loops| && w'.loops[l].deleted {
      EndedBefore(w, own, notes, e, l, tx);
    }
  }

  lemma NotDeadYet(w: World, own: seq<Owner>, e: Event)
    requires Inv(w, own) && (Enabled(w, e) ==> !(e.Inner? && e.m.End?))
    ensures var w' := Step(w, e);
            && |w.loops| <= |w'.loops| && (InService(w'.svc.pc) ==> InService(w.svc.pc))
            && forall l :: 0 <= l < |w'.loops| ==> (w'.loops[l].deleted <==> l < |w.loops| && w.loops[l].deleted)
  {
    if Enabled(w, e) {
      if e.Start? {
        StartNote(w, e.r);
        StartAlive(w, e.r);
      } else {
        StepAlive(w, e);
      }
    }
  }

  lemma StartAlive(w: World, r: Request)
    requires Enabled(w, Start(r))
    ensures var w' := Step(w, Start(r));
            |w.loops| <= |w'.loops| && forall l :: |w.loops| <= l < |w'.loops| ==> !w'.loops[l].deleted
  {}

  lemma StepAlive(w: World, e: Event)
    requires Enabled(w, e) && !e.Start? && !(e.Inner? && e.m.End?)
    ensures var w' := Step(w, e);
            && |w'.loops| == |w.loops| && (InService(w'.svc.pc) ==> InService(w.svc.pc))
            && forall l :: 0 <= l < |w.loops| ==> w'.loops[l].deleted == w.loops[l].deleted
  {}

  lemma EndedBefore(w: World, own: seq<Owner>, notes: seq<Note>, e: Event, l: nat, tx: nat)
    requires Inv(w, own) && Notes(w, own, notes) && FreeName(w, e) && (Enabled(w, e) ==> !(e.Inner? && e.m.End?))
    requires EndedBy(NextOwners(w, own, e), Noted(notes, w, e), l, tx)
    ensures EndedBy(own, notes, l, tx)
  {
    OverIsFixed(w, own, notes, e, tx);
  }

  /** A note or an owner changes only for a transaction that is open before and after,
      or is new and not taken on. */
  lemma OverIsFixed(w: World, own: seq<Owner>, notes: seq<Note>, e: Event, tx: nat)
    requires Inv(w, own) && Notes(w, own, notes) && FreeName(w, e) && (Enabled(w, e) ==> !(e.Inner? && e.m.End?))
    ensures var own', notes' := NextOwners(w, own, e), Noted(notes, w, e);
            && |own| <= |own'| && |notes| <= |notes'|
            && (tx < |own| ==> (own'[tx] == Nobody <==> own[tx] == Nobody) && (own[tx] == Nobody ==> notes'[tx] == notes[tx]))
            && (|notes| <= tx < |notes'| ==> !notes'[tx].taken)
  {
    if Enabled(w, e) {
      if e.Inner? {
        assert PlaceOk(own, w.loops[e.l], e.l) && LoopOk(w.loops[e.l]);
      }
    }
  }

  lemma EndDeaths(w: World, own: seq<Owner>, notes: seq<Note>, l: nat)
    requires Inv(w, own) && Notes(w, own, notes) && Deaths(w, own, notes) && Enabled(w, Inner(l, End))
    ensures Deaths(Step(w, Inner(l, End)), MoveOwner(own, w.loops[l], l, End), notes)
  {
    var w', own', t := Step(w, Inner(l, End)), MoveOwner(own, w.loops[l], l, End), w.loops[l].pc.tx;
    assert PlaceOk(own, w.loops[l], l) && LoopOk(w.loops[l]) && NoteOk(notes[t], w.x.chans[t], own[t], w.svc.pc, w.loops);
    assert own' == own[t := Nobody];
    forall k | 0 <= k < |w'.loops| && w'.loops[k].deleted ensures exists tx :: EndedBy(own', notes, k, tx) {
      if w.loops[k].deleted {
        var tx :| EndedBy(own, notes, k, tx);
        assert EndedBy(own', notes, k, tx);
      } else {
        assert EndedBy(own', notes, k, t);
      }
    }
    forall k: nat, tx | InService(w.svc.pc) && EndedBy(own', notes, k, tx) ensures k < |w'.loops| && w'.loops[k].deleted {
      if tx != t {
        assert EndedBy(own, notes, k, tx);
      }
    }
  }

  lemma StepDeaths(w: World, own: seq<Owner>, notes: seq<Note>, e: Event)
    requires Inv(w, own) && Notes(w, own, notes) && FreeName(w, e) && Deaths(w, own, notes)
    ensures Deaths(Step(w, e), NextOwners(w, own, e), Noted(notes, w, e))
  {
    if Enabled(w, e) && e.Inner? && e.m.End? {
      EndDeaths(w, own, notes, e.l);
    } else {
      OtherDeaths(w, own, notes, e);
    }
  }

  // ---------- over whole runs ----------

  lemma {:induction false} NobodyDead(systemd: bool, uid: nat, dirs: seq<Saved>)
    ensures var w := Begin(systemd, uid, dirs);
            w.x.chans == [] && forall l :: 0 <= l < |w.loops| ==> !w.loops[l].deleted
  {
    if dirs != [] {
      NobodyDead(systemd, uid, dirs[..|dirs| - 1]);
    }
  }

  lemma {:induction false} RunNotes(systemd: bool, uid: nat, dirs: seq<Saved>, es: seq<Event>) returns (own: seq<Owner>)
    requires Directories(dirs) && FreeNames(Begin(systemd, uid, dirs), es)
    ensures var w0 := Begin(systemd, uid, dirs);
            Inv(Run(w0, es), own) && Notes(Run(w0, es), own, History(w0, es)) && Deaths(Run(w0, es), own, History(w0, es))
  {
    var w0 := Begin(systemd, uid, dirs);
    if es == [] {
      RestoreInv(systemd, uid, dirs);
      NobodyDead(systemd, uid, dirs);
      own := [];
    } else {
      var init, e := es[..|es| - 1], es[|es| - 1];
      var before := RunNotes(systemd, uid, dirs, init);
      StepKeepsInv(Run(w0, init), before, e);
      StepNotes(Run(w0, init), before, History(w0, init), e);
      StepDeaths(Run(w0, init), before, History(w0, init), e);
      own := NextOwners(Run(w0, init), before, e);
    }
  }

  /** Every transaction that has its terminal value has the right one. */
  lemma AnswersAreRight(systemd: bool, uid: nat, dirs: seq<Saved>, es: seq<Event>)
    requires Directories(dirs) && FreeNames(Begin(systemd, uid, dirs), es)
    ensures var w, notes := Run(Begin(systemd, uid, dirs), es), History(Begin(systemd, uid, dirs), es);
            |notes| == |w.x.chans| && forall tx :: 0 <= tx < |notes| && Answered(w.x.chans[tx]) ==> RightAnswer(w.x.chans[tx], notes[tx])
  {
    var own := RunNotes(systemd, uid, dirs, es);
    var w, notes := Run(Begin(systemd, uid, dirs), es), History(Begin(systemd, uid, dirs), es);
    forall tx | 0 <= tx < |notes| && Answered(w.x.chans[tx]) ensures RightAnswer(w.x.chans[tx], notes[tx]) {
      assert OwnedOk(w.x.chans[tx], own[tx], w.svc.pc, w.loops, tx) && NoteOk(notes[tx], w.x.chans[tx], own[tx], w.svc.pc, w.loops);
    }
  }

  /** Transaction `tx` was a delete that loop `l` answered with success, or its creation
      answered with failure. */
  predicate Ended(w: World, notes: seq<Note>, l: nat, tx: nat) {
    && tx < |notes| && tx < |w.x.chans| && notes[tx].loop == Some(l) && w.x.chans[tx].closed && w.x.chans[tx].sent != []
    && match notes[tx].r
       case ReqCommand(kind, _, _) => kind.Delete? && w.x.chans[tx].sent == [Okay]
       case ReqCreate(_, _, _, _, _, _, _) => w.x.chans[tx].sent[|w.x.chans[tx].sent| - 1] == Failed && notes[tx].taken
       case ReqList => false
  }

  lemma EndedMeans(w: World, own: seq<Owner>, notes: seq<Note>, l: nat, tx: nat)
    requires Inv(w, own) && Notes(w, own, notes)
    ensures EndedBy(own, notes, l, tx) <==> Ended(w, notes, l, tx)
  {
    if tx < |notes| {
      assert OwnedOk(w.x.chans[tx], own[tx], w.svc.pc, w.loops, tx) && NoteOk(notes[tx], w.x.chans[tx], own[tx], w.svc.pc, w.loops);
      OneValue();
    }
  }

  /** An instance that is no longer registered was ended by a delete answered with success
      or a creation answered with failure; and while the service is at work each of
      these has ended its instance. */
  ghost predicate EndsAreAnswers(w: World, notes: seq<Note>) {
    && (forall l :: 0 <= l < |w.loops| && l !in w.svc.names ==> exists tx :: Ended(w, notes, l, tx))
    && (InService(w.svc.pc) ==> forall l: nat, tx: nat :: Ended(w, notes, l, tx) ==> l < |w.loops| && w.loops[l].deleted)
  }

  lemma InstancesEnd(systemd: bool, uid: nat, dirs: seq<Saved>, es: seq<Event>)
    requires Directories(dirs) && FreeNames(Begin(systemd, uid, dirs), es)
    ensures EndsAreAnswers(Run(Begin(systemd, uid, dirs), es), History(Begin(systemd, uid, dirs), es))
  {
    var own := RunNotes(systemd, uid, dirs, es);
    DeathsMean(Run(Begin(systemd, uid, dirs), es), own, History(Begin(systemd, uid, dirs), es));
  }

  lemma DeathsMean(w: World, own: seq<Owner>, notes: seq<Note>)
    requires Inv(w, own) && Notes(w, own, notes) && Deaths(w, own, notes)
    ensures EndsAreAnswers(w, notes)
  {
    forall l | 0 <= l < |w.loops| && l !in w.svc.names ensures exists tx :: Ended(w, notes, l, tx) {
      assert w.loops[l].deleted;
      var tx :| EndedBy(own, notes, l, tx);
      EndedMeans(w, own, notes, l, tx);
    }
    forall l: nat, tx: nat | InService(w.svc.pc) && Ended(w, notes, l, tx) ensures l < |w.loops| && w.loops[l].deleted {
      EndedMeans(w, own, notes, l, tx);
    }
  }

  // ---------- when a command is taken on ----------

  /** A loop runs a command unless its instance is deleted or still being created, and
      then it fails it at once; a creation given to a fresh loop is started. */
  lemma CommandTaken(w: World)
    requires Reachable(w) && Enabled(w, Handover)
    ensures var l, cmd := w.svc.pc.loop, w.svc.pc.cmd;
            var w' := Step(w, Handover);
            && l < |w.loops| && cmd.tx < |w.x.chans| && w'.svc == w.svc.(pc := Select)
            && var loop := w.loops[l];
               if cmd.kind.Create? then
                 && w'.loops == w.loops[l := loop.(worker := Working(cmd.tx, cmd.lines, cmd.asks, cmd.fails))] && w'.x == w.x
               else if loop.deleted || !loop.worker.NoCreate? then
                 && w'.loops == w.loops[l := loop.(pc := Ending(cmd.tx, false, false))]
                 && w'.x.chans == w.x.chans[cmd.tx := w.x.chans[cmd.tx].(sent := [Failed])]
               else
                 w'.loops == w.loops[l := loop.(pc := Executing(cmd))] && w'.x == w.x
  {
    var own := ReachableInv(w);
    var tx := w.svc.pc.cmd.tx;
    assert OwnedOk(w.x.chans[tx], own[tx], w.svc.pc, w.loops, tx);
    OneValue();
  }
}
