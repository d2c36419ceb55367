/** The invariants of the service: who owes which answer, the tables, and the
    ledger of transactions, timer and shutdown. */
module ServiceInv {
  import opened SeqFacts
  import opened Wrappers
  import opened HostIPs
  import opened ServiceModel

  // ---------- conversations on result channels ----------

  /** Nothing but progress so far, and that only from a creation. */
  predicate OnlyLines(c: Chan) {
    (forall i :: 0 <= i < |c.sent| ==> c.sent[i].Line?) && (c.sent == [] || c.kind.Create?)
  }

  /** A whole conversation: exactly one terminal value, at the end; only a
      creation has progress lines before it. */
  predicate Answered(c: Chan) {
    && c.sent != []
    && !c.sent[|c.sent| - 1].Line?
    && (forall i :: 0 <= i < |c.sent| - 1 ==> c.sent[i].Line?)
    && (|c.sent| == 1 || c.kind.Create?)
  }

  // ---------- who still owes an answer ----------

  datatype Owner = Nobody | TheService | PcOf(l: nat) | WorkerOf(l: nat)

  function PcTx(pc: LoopPc): Option<nat> {
    match pc
    case Executing(cmd) => Some(cmd.tx)
    case Reporting(tx, _, _) => Some(tx)
    case Ending(tx, _, _) => Some(tx)
    case _ => None
  }

  function WorkerTx(k: Worker): Option<nat> {
    match k
    case Working(tx, _, _, _) => Some(tx)
    case Returned(tx, _) => Some(tx)
    case NoCreate => None
  }

  /** What a channel looks like to the party that owes its answer. */
  predicate OwnedOk(c: Chan, o: Owner, pc: ServicePc, loops: seq<Loop>, tx: nat) {
    match o
    case Nobody => c.closed && Answered(c)
    case TheService => !c.closed && c.sent == [] && pc.Sending? && pc.cmd.tx == tx && pc.cmd.kind == c.kind
    case PcOf(l) =>
      && !c.closed && l < |loops| && PcTx(loops[l].pc) == Some(tx)
      && (loops[l].pc.Executing? ==> c.sent == [] && c.kind == loops[l].pc.cmd.kind)
      && (loops[l].pc.Reporting? ==> c.kind.Create? && OnlyLines(c))
      && (loops[l].pc.Ending? ==> Answered(c))
    case WorkerOf(l) =>
      !c.closed && c.kind.Create? && OnlyLines(c) && l < |loops| && WorkerTx(loops[l].worker) == Some(tx)
  }

  ghost predicate Owners(pc: ServicePc, chans: seq<Chan>, loops: seq<Loop>, own: seq<Owner>) {
    && |own| == |chans|
    && (forall tx :: 0 <= tx < |chans| ==> OwnedOk(chans[tx], own[tx], pc, loops, tx))
    && (forall l :: 0 <= l < |loops| ==> PlaceOk(own, loops[l], l))
    && (pc.Sending? ==> pc.cmd.tx < |own| && own[pc.cmd.tx] == TheService && !pc.cmd.kind.List?)
  }

  predicate PlaceOk(own: seq<Owner>, loop: Loop, l: nat) {
    && (PcTx(loop.pc).Some? ==> PcTx(loop.pc).value < |own| && own[PcTx(loop.pc).value] == PcOf(l))
    && (WorkerTx(loop.worker).Some? ==> WorkerTx(loop.worker).value < |own| && own[WorkerTx(loop.worker).value] == WorkerOf(l))
  }

  // ---------- one instance loop ----------

  predicate LoopOk(l: Loop) {
    && l.deleted == l.closeClosed
    && (l.deleted ==> l.worker.NoCreate? && !l.pc.Executing? && !l.pc.Joining? && !(l.pc.Reporting? && !l.pc.last))
    && (l.pc.Executing? ==> l.worker.NoCreate? && !l.pc.cmd.kind.Create? && !l.pc.cmd.kind.List?)
    && (l.pc.Reporting? ==> l.worker.NoCreate? && (l.pc.last ==> l.inboxClosed))
    && (l.pc.Ending? && l.pc.dies ==> l.worker.NoCreate? && !l.deleted && !l.pc.last)
    && (l.pc.Ending? && l.pc.last ==> l.worker.NoCreate? && l.inboxClosed)
    && (l.pc.Joining? ==> !l.worker.NoCreate? && l.inboxClosed)
    && (l.pc.Exited? ==> l.worker.NoCreate? && l.inboxClosed)
  }

  ghost predicate LoopsOk(loops: seq<Loop>) {
    forall l :: 0 <= l < |loops| ==> LoopOk(loops[l])
  }

  // ---------- bookkeeping ----------

  /** `instances` and `names` are inverse to each other and `cases` lists the
      close channels once each. */
  ghost predicate Registry(s: Service) {
    && (forall l :: l in s.names ==> s.names[l] in s.instances && s.instances[s.names[l]] == l)
    && (forall n :: n in s.instances ==> s.instances[n] in s.names && s.names[s.instances[n]] == n)
    && Distinct(s.cases)
    && (forall l :: l in s.cases <==> l in s.names)
  }

  predicate InService(pc: ServicePc) {
    pc.Select? || pc.Sending? || pc.Draining? || pc.Closing?
  }

  /** Registered loops are those whose command channel is open; the others were deleted. */
  ghost predicate Inboxes(s: Service, loops: seq<Loop>) {
    && (forall l :: l in s.names ==> l < |loops|)
    && (forall l :: 0 <= l < |loops| ==> (loops[l].inboxClosed <==> l !in s.names || !InService(s.pc)))
    && (forall l :: 0 <= l < |loops| && l !in s.names ==> loops[l].deleted)
    && (s.pc.Gone? ==> forall l :: 0 <= l < |loops| ==> loops[l].pc.Exited?)
    && (s.pc.Sending? ==> s.pc.loop in s.names)
    && (s.pc.Sending? && s.pc.cmd.kind.Create? ==> s.pc.loop < |loops| && loops[s.pc.loop] == FreshLoop(loops[s.pc.loop].addr))
  }

  /** The protocol and the bookkeeping: what every run keeps in which generated
      names are free, whatever the callers do. */
  ghost predicate Inv(w: World, own: seq<Owner>) {
    && Owners(w.svc.pc, w.x.chans, w.loops, own)
    && LoopsOk(w.loops)
    && Registry(w.svc)
    && Inboxes(w.svc, w.loops)
    && HostMask(w.svc.mask)
  }

  /** The name generator, if asked, found a free name. */
  predicate FreeName(w: World, e: Event) {
    Enabled(w, e) && e.Start? && e.r.ReqCreate? && e.r.name == "" ==> e.r.generated !in w.svc.instances
  }

  ghost predicate FreeNames(w: World, es: seq<Event>) {
    es == [] || (FreeNames(w, es[..|es| - 1]) && FreeName(Run(w, es[..|es| - 1]), es[|es| - 1]))
  }

  // ---------- transactions and the timer ----------

  /** Everything on the channel was received, the terminal value included. */
  predicate Delivered(c: Chan) {
    Answered(c) && c.received == |c.sent|
  }

  predicate InCall(c: Caller) {
    c.pc.Holding? || c.pc.Completing?
  }

  ghost predicate TimerOk(s: Service, chans: seq<Chan>) {
    s.pc.Select? || s.pc.Sending? ==>
      (!s.timer.Stopped? <==> s.systemd && |chans| > 0 && s.transactions == {})
  }

  /** How far shutdown has come. */
  ghost predicate Drained(s: Service, chans: seq<Chan>) {
    && (s.pc.Draining? ==>
          && s.pc.todo <= s.transactions
          && (s.pc.current.Some? ==> s.pc.current.value in s.transactions)
          && forall tx :: tx in s.transactions && tx !in s.pc.todo && s.pc.current != Some(tx) ==> tx < |chans| && chans[tx].closed)
    && (s.pc.Closing? || s.pc.Waiting? || s.pc.Gone? ==> forall tx :: tx in s.transactions ==> tx < |chans| && chans[tx].closed)
  }

  /** What every run keeps, without any condition. */
  ghost predicate Ledger(w: World) {
    && HostMask(w.svc.mask)
    && (forall tx :: tx in w.svc.transactions ==> tx < |w.x.chans|)
    && (forall tx :: 0 <= tx < |w.x.chans| ==> w.x.chans[tx].received <= |w.x.chans[tx].sent|)
    && (forall c :: 0 <= c < |w.callers| && InCall(w.callers[c]) ==> w.callers[c].tx < |w.x.chans|)
    && TimerOk(w.svc, w.x.chans)
    && Drained(w.svc, w.x.chans)
  }
}
