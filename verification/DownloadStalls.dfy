/** The download manager in single sends.  A client that has taken an update runs
    its progress callback before it receives again, and the callback prints lines
    into the result channel of a creation (ccvm/ccvm.go), which holds 256 values.
    Here the manager notifies one listener at a time and has to wait for a client
    that is still in its callback.  Every run of this finer system is a run of
    DownloadModel; what is new is exactly when the manager is stuck. */
module DownloadStalls {
  import opened Wrappers
  import opened DownloadModel
  import opened DownloadProofs
  import opened DownloadTheorems
  import ServiceModel

  /** A client's callback: the lines it has still to print, the room left in the
      channel it prints to, and whether it prints at all: the one of a download on
      behalf of the guest (ccvm/vm.go) does not. */
  datatype Screen = Screen(toPrint: nat, free: nat, prints: bool)

  /** Between two events, or inside processUpdate: `i` listeners were notified and
      `ch` is what the channels look like so far. */
  datatype Phase = Idle | Notifying(fid: nat, seen: set<nat>, i: nat, ch: Channels)

  datatype Fine = Fine(w: World, screens: map<nat, Screen>, phase: Phase)

  datatype FineEvent =
    | Signal
    | Ask(id: nat, name: Option<string>, onDisk: bool, stream: seq<UpdateInfo>, free: nat, prints: bool)
    | Begin(fid: nat, seen: set<nat>)
    | Notify
    | Conclude
    | Print(id: nat)
    | Read(id: nat)

  /** The lines the callback prints for the last update received: two on its first
      call, one on every other, none for an error. */
  function Lines(prints: bool, log: seq<Update>): nat {
    if !prints || log == [] || !Listening(log) || log[|log| - 1].err.Some? then 0
    else if |log| == 1 then 2
    else 1
  }

  // ---------- the manager inside processUpdate ----------

  function Current(f: Fine): UpdateInfo
    requires f.phase.Notifying? && f.phase.fid in f.w.fetchers && f.w.fetchers[f.phase.fid].pending != []
  {
    f.w.fetchers[f.phase.fid].pending[0]
  }

  predicate InUpdate(f: Fine) {
    && f.phase.Notifying? && f.phase.fid in f.w.fetchers && f.w.fetchers[f.phase.fid].pending != []
    && Current(f).name in f.w.files
  }

  function Listeners(f: Fine): seq<nat>
    requires InUpdate(f)
  {
    f.w.files[Current(f).name].listeners
  }

  predicate MoreToNotify(f: Fine) {
    InUpdate(f) && f.phase.i < |Listeners(f)| && Listeners(f)[f.phase.i] in f.screens
  }

  function Next(f: Fine): nat
    requires MoreToNotify(f)
  {
    Listeners(f)[f.phase.i]
  }

  function AfterNotify(f: Fine): Fine
    requires MoreToNotify(f)
  {
    var l, u := Next(f), Current(f);
    var ch := DeliverOne(f.phase.ch, f.w.files[u.name].(p := u.p), u, f.phase.seen, l);
    f.(screens := f.screens[l := f.screens[l].(toPrint := if l in ch.clients then Lines(f.screens[l].prints, ch.clients[l].log) else 0)],
       phase := f.phase.(i := f.phase.i + 1, ch := ch))
  }

  /** The rest of processUpdate and of the select case, once all were notified. */
  function AfterConclude(f: Fine): World
    requires InUpdate(f)
  {
    var u, r := Current(f), Receive(f.w, f.phase.fid);
    var file, ch := r.files[u.name], f.phase.ch;
    var file' := Processed(file, u, f.phase.seen);
    var w1 := r.(files := r.files[u.name := file'],
                 ch := ch.(fault := ch.fault || ((file'.listeners == [] || u.p.complete) && file.cancel.NoContext?)));
    CheckExit(if u.err.Some? then w1.(files := w1.files - {u.name}) else w1)
  }

  function AfterAsk(f: Fine, id: nat, name: Option<string>, onDisk: bool, stream: seq<UpdateInfo>, free: nat, prints: bool): Fine {
    var w' := Step(f.w, Request(id, name, onDisk, stream));
    f.(w := w', screens := f.screens[id := Screen(if id in w'.ch.clients then Lines(prints, w'.ch.clients[id].log) else 0, free, prints)])
  }

  predicate FineEnabled(f: Fine, e: FineEvent) {
    match e
    case Signal => f.phase.Idle? && Enabled(f.w, DoneSignal)
    case Ask(id, name, onDisk, stream, free, prints) => f.phase.Idle? && Enabled(f.w, Request(id, name, onDisk, stream)) && free <= ServiceModel.CAPACITY
    case Begin(fid, seen) => f.phase.Idle? && Enabled(f.w, Deliver(fid, seen))
    case Notify => MoreToNotify(f) && f.screens[Next(f)].toPrint == 0
    case Conclude => InUpdate(f) && f.phase.i == |Listeners(f)|
    case Print(id) => id in f.screens && f.screens[id].toPrint > 0 && f.screens[id].free > 0
    case Read(id) => id in f.screens && f.screens[id].free < ServiceModel.CAPACITY
  }

  function FineStep(f: Fine, e: FineEvent): Fine {
    if !FineEnabled(f, e) then f
    else match e
      case Signal => f.(w := Step(f.w, DoneSignal))
      case Ask(id, name, onDisk, stream, free, prints) => AfterAsk(f, id, name, onDisk, stream, free, prints)
      case Begin(fid, seen) => f.(phase := Notifying(fid, seen, 0, f.w.ch))
      case Notify => AfterNotify(f)
      case Conclude => f.(w := AfterConclude(f), phase := Idle)
      case Print(id) => var s := f.screens[id]; f.(screens := f.screens[id := s.(toPrint := s.toPrint - 1, free := s.free - 1)])
      case Read(id) => var s := f.screens[id]; f.(screens := f.screens[id := s.(free := s.free + 1)])
  }

  function FineRun(f: Fine, es: seq<FineEvent>): Fine {
    if es == [] then f else FineStep(FineRun(f, es[..|es| - 1]), es[|es| - 1])
  }

  // ---------- every fine run is a run ----------

  /** What the manager's channels look like after its first `i` sends. */
  ghost predicate FineInv(f: Fine) {
    && Inv(f.w)
    && f.screens.Keys == f.w.ch.clients.Keys
    && (forall id :: id in f.screens && !f.screens[id].prints ==> f.screens[id].toPrint == 0)
    && (f.phase.Notifying? ==>
          && InUpdate(f) && Enabled(f.w, Deliver(f.phase.fid, f.phase.seen))
          && f.phase.i <= |Listeners(f)|
          && f.phase.ch == DeliverAll(f.w.ch, f.w.files[Current(f).name].(p := Current(f).p), Current(f), f.phase.seen, Listeners(f)[..f.phase.i])
          && f.phase.ch.clients.Keys == f.w.ch.clients.Keys)
  }

  function CoarseStep(f: Fine, e: FineEvent): seq<Event> {
    if !FineEnabled(f, e) then []
    else match e
      case Signal => [DoneSignal]
      case Ask(id, name, onDisk, stream, _, _) => [Request(id, name, onDisk, stream)]
      case Conclude => [Deliver(f.phase.fid, f.phase.seen)]
      case _ => []
  }

  function Coarse(f: Fine, es: seq<FineEvent>): seq<Event> {
    if es == [] then []
    else Coarse(f, es[..|es| - 1]) + CoarseStep(FineRun(f, es[..|es| - 1]), es[|es| - 1])
  }

  lemma DeliverMore(ch: Channels, df: File, u: UpdateInfo, seen: set<nat>, ls: seq<nat>, i: nat)
    requires i < |ls|
    ensures DeliverAll(ch, df, u, seen, ls[..i + 1]) == DeliverOne(DeliverAll(ch, df, u, seen, ls[..i]), df, u, seen, ls[i])
  {
    assert ls[..i + 1][..i] == ls[..i];
  }

  lemma OneKeepsKeys(ch: Channels, df: File, u: UpdateInfo, seen: set<nat>, l: nat)
    ensures DeliverOne(ch, df, u, seen, l).clients.Keys == ch.clients.Keys
  {}

  lemma NotifyKeepsInv(f: Fine)
    requires FineInv(f) && FineEnabled(f, Notify)
    ensures FineInv(FineStep(f, Notify))
  {
    var u := Current(f);
    var df := f.w.files[u.name].(p := u.p);
    var f' := FineStep(f, Notify);
    DeliverMore(f.w.ch, df, u, f.phase.seen, Listeners(f), f.phase.i);
    OneKeepsKeys(f.phase.ch, df, u, f.phase.seen, Next(f));
    assert f'.screens.Keys == f.screens.Keys;
    assert Current(f') == u && Listeners(f') == Listeners(f);
  }

  lemma RequestClients(w: World, id: nat, name: Option<string>, onDisk: bool, stream: seq<UpdateInfo>)
    ensures AfterRequest(w, id, name, onDisk, stream).ch.clients.Keys == w.ch.clients.Keys + {id}
  {}

  lemma AskKeepsInv(f: Fine, id: nat, name: Option<string>, onDisk: bool, stream: seq<UpdateInfo>, free: nat, prints: bool)
    requires FineInv(f) && FineEnabled(f, Ask(id, name, onDisk, stream, free, prints))
    ensures FineInv(FineStep(f, Ask(id, name, onDisk, stream, free, prints)))
  {
    StepKeepsInv(f.w, Request(id, name, onDisk, stream));
    RequestClients(f.w, id, name, onDisk, stream);
    AskScreens(f, id, name, onDisk, stream, free, prints);
  }

  lemma AskScreens(f: Fine, id: nat, name: Option<string>, onDisk: bool, stream: seq<UpdateInfo>, free: nat, prints: bool)
    requires FineEnabled(f, Ask(id, name, onDisk, stream, free, prints))
    requires forall k :: k in f.screens && !f.screens[k].prints ==> f.screens[k].toPrint == 0
    ensures var f' := FineStep(f, Ask(id, name, onDisk, stream, free, prints));
            && f'.w == AfterRequest(f.w, id, name, onDisk, stream) && f'.phase.Idle?
            && f'.screens.Keys == f.screens.Keys + {id}
            && forall k :: k in f'.screens && !f'.screens[k].prints ==> f'.screens[k].toPrint == 0
  {}

  lemma ConcludeKeepsInv(f: Fine)
    requires FineInv(f) && FineEnabled(f, Conclude)
    ensures FineInv(FineStep(f, Conclude))
  {
    ConcludeDelivers(f);
    SameClients(f.w, f.phase.fid, f.phase.seen);
    StepKeepsInv(f.w, Deliver(f.phase.fid, f.phase.seen));
  }

  /** Concluding is the whole delivery of the coarse system. */
  lemma ConcludeDelivers(f: Fine)
    requires FineInv(f) && FineEnabled(f, Conclude)
    ensures AfterConclude(f) == Step(f.w, Deliver(f.phase.fid, f.phase.seen))
  {
    assert Listeners(f)[..f.phase.i] == Listeners(f);
  }

  lemma SameClients(w: World, fid: nat, seen: set<nat>)
    requires Inv(w) && Enabled(w, Deliver(fid, seen))
    ensures Step(w, Deliver(fid, seen)).ch.clients.Keys == w.ch.clients.Keys && w.fetchers[fid].pending[0].name in w.files
  {
    DeliverEffect(w, fid, seen);
  }

  lemma FineStepInv(f: Fine, e: FineEvent)
    requires FineInv(f)
    ensures FineInv(FineStep(f, e))
  {
    if FineEnabled(f, e) {
      match e
      case Signal => StepKeepsInv(f.w, DoneSignal);
      case Ask(id, name, onDisk, stream, free, prints) => AskKeepsInv(f, id, name, onDisk, stream, free, prints);
      case Begin(fid, seen) => SameClients(f.w, fid, seen);
      case Notify => NotifyKeepsInv(f);
      case Conclude => ConcludeKeepsInv(f);
      case _ =>
    }
  }

  lemma FineStepWorld(f: Fine, e: FineEvent)
    requires FineInv(f)
    ensures FineStep(f, e).w == Run(f.w, CoarseStep(f, e))
  {
    RunNil(f.w);
    if FineEnabled(f, e) {
      match e
      case Signal => RunOne(f.w, DoneSignal);
      case Ask(id, name, onDisk, stream, _, _) => RunOne(f.w, Request(id, name, onDisk, stream));
      case Conclude =>
        ConcludeDelivers(f);
        RunOne(f.w, Deliver(f.phase.fid, f.phase.seen));
      case _ =>
    }
  }

  lemma RunNil(w: World)
    ensures Run(w, []) == w
  {}

  lemma RunOne(w: World, e: Event)
    ensures Run(w, [e]) == Step(w, e)
  {
    assert [] + [e] == [e];
    RunSnoc(w, [], e);
  }

  /** No event, or one more. */
  lemma RunAppend(w: World, es: seq<Event>, more: seq<Event>)
    requires |more| <= 1
    ensures Run(w, es + more) == Run(Run(w, es), more)
  {
    if more == [] {
      assert es + more == es;
    } else {
      assert more == [more[0]];
      RunSnoc(w, es, more[0]);
      RunOne(Run(w, es), more[0]);
    }
  }

  /** Single sends do not change what the manager does: whatever happens, its world is
      one that DownloadModel reaches, so that all of its theorems hold. */
  lemma {:induction false} FineRefines(f: Fine, es: seq<FineEvent>)
    requires FineInv(f)
    ensures FineInv(FineRun(f, es)) && FineRun(f, es).w == Run(f.w, Coarse(f, es))
  {
    if es == [] {
      RunNil(f.w);
    } else {
      var init, e := es[..|es| - 1], es[|es| - 1];
      FineRefines(f, init);
      FineStepInv(FineRun(f, init), e);
      FineStepWorld(FineRun(f, init), e);
      RunAppend(f.w, Coarse(f, init), CoarseStep(FineRun(f, init), e));
    }
  }

  // ---------- stuck ----------

  /** The next listener is in its callback, and the callback's channel is full. */
  predicate Stalled(f: Fine) {
    MoreToNotify(f) && f.screens[Next(f)].toPrint > 0 && f.screens[Next(f)].free == 0
  }

  /** Only a client that prints stalls the manager. */
  lemma StalledPrints(f: Fine)
    requires FineInv(f) && Stalled(f)
    ensures f.screens[Next(f)].prints
  {}

  /** A step of the manager or its fetchers, or of the callback the manager waits for. */
  ghost predicate Advances(f: Fine, e: FineEvent) {
    FineEnabled(f, e) && (e.Begin? || e.Notify? || e.Conclude? || (e.Print? && MoreToNotify(f) && e.id == Next(f)))
  }

  lemma NextIsKnown(f: Fine)
    requires FineInv(f) && InUpdate(f) && f.phase.i < |Listeners(f)|
    ensures MoreToNotify(f)
  {
    var n := Current(f).name;
    assert FileOk(f.w, n) && Listeners(f)[f.phase.i] in f.w.files[n].listeners;
    assert Waiting(f.w, Listeners(f)[f.phase.i], n);
  }

  /** In an update the manager gets on if and only if it is not stalled. */
  lemma UpdateProceeds(f: Fine)
    requires FineInv(f) && f.phase.Notifying?
    ensures (exists e :: Advances(f, e)) <==> !Stalled(f)
  {
    if f.phase.i == |Listeners(f)| {
      assert Advances(f, Conclude);
    } else {
      NextIsKnown(f);
      if f.screens[Next(f)].toPrint == 0 {
        assert Advances(f, Notify);
      } else if f.screens[Next(f)].free > 0 {
        assert Advances(f, Print(Next(f)));
      }
    }
  }

  /** Until somebody reads from that channel, a stall lasts: no request is taken, no
      update, and not the signal to stop. */
  lemma {:induction false} StallForever(f: Fine, es: seq<FineEvent>)
    requires Stalled(f) && forall e :: e in es ==> e != Read(Next(f))
    ensures Stalled(FineRun(f, es)) && FineRun(f, es).w == f.w && FineRun(f, es).phase == f.phase
  {
    if es != [] {
      var init, e := es[..|es| - 1], es[|es| - 1];
      assert forall e :: e in init ==> e in es;
      StallForever(f, init);
      assert e in es;
    }
  }

  // ---------- shutdown ----------

  /** The deliveries to make; whether one is under way; whom it has still to reach;
      the lines of the callback it waits for. */
  datatype Rank = Rank(work: nat, idle: nat, left: nat, lines: nat)

  predicate Below(a: Rank, b: Rank) {
    || a.work < b.work
    || (a.work == b.work && a.idle < b.idle)
    || (a.work == b.work && a.idle == b.idle && a.left < b.left)
    || (a.work == b.work && a.idle == b.idle && a.left == b.left && a.lines < b.lines)
  }

  function RankOf(f: Fine): Rank {
    Rank(Work(f.w.fetchers, f.w.spawned),
         if f.phase.Idle? then 1 else 0,
         if InUpdate(f) && f.phase.i <= |Listeners(f)| then |Listeners(f)| - f.phase.i else 0,
         if MoreToNotify(f) then f.screens[Next(f)].toPrint else 0)
  }

  /** During shutdown every step of the manager, its fetchers and the awaited callback
      lowers the rank, and no other step raises it. */
  lemma ShutdownRank(f: Fine, e: FineEvent)
    requires FineInv(f) && f.w.shuttingDown
    ensures var f' := FineStep(f, e);
            f'.w.shuttingDown && if Advances(f, e) then Below(RankOf(f'), RankOf(f)) else RankOf(f') == RankOf(f)
  {
    if FineEnabled(f, e) {
      match e
      case Signal =>
      case Ask(id, name, onDisk, stream, _, _) => ShutdownStep(f.w, Request(id, name, onDisk, stream));
      case Begin(fid, seen) => BeginRank(f, fid, seen);
      case Notify => NotifyRank(f);
      case Conclude => ConcludeRank(f);
      case Print(id) => PrintRank(f, id);
      case Read(id) => ReadRank(f, id);
    }
  }

  lemma BeginRank(f: Fine, fid: nat, seen: set<nat>)
    requires FineEnabled(f, Begin(fid, seen))
    ensures var f' := FineStep(f, Begin(fid, seen)); f'.w == f.w && Below(RankOf(f'), RankOf(f))
  {}

  lemma NotifyRank(f: Fine)
    requires FineEnabled(f, Notify)
    ensures var f' := FineStep(f, Notify); f'.w == f.w && Below(RankOf(f'), RankOf(f))
  {}

  lemma ConcludeRank(f: Fine)
    requires FineInv(f) && f.w.shuttingDown && FineEnabled(f, Conclude)
    ensures var f' := FineStep(f, Conclude); f'.w.shuttingDown && Below(RankOf(f'), RankOf(f))
  {
    ConcludeDelivers(f);
    ShutdownStep(f.w, Deliver(f.phase.fid, f.phase.seen));
  }

  lemma PrintRank(f: Fine, id: nat)
    requires FineEnabled(f, Print(id))
    ensures var f' := FineStep(f, Print(id));
            if Advances(f, Print(id)) then Below(RankOf(f'), RankOf(f)) else RankOf(f') == RankOf(f)
  {}

  lemma ReadRank(f: Fine, id: nat)
    requires FineEnabled(f, Read(id))
    ensures RankOf(FineStep(f, Read(id))) == RankOf(f)
  {}

  /** While shutting down, the manager has left its loop, or it gets on, or it is
      stalled; and only one of the last two. */
  lemma ShutdownProceeds(f: Fine, es: seq<FineEvent>)
    requires FineInv(f) && f.w.shuttingDown
    ensures var f' := FineRun(f, es);
            !f'.w.exited ==> ((exists e :: Advances(f', e)) <==> !Stalled(f'))
  {
    var f' := FineRun(f, es);
    FineRefines(f, es);
    ShutdownProgress(f.w, Coarse(f, es));
    if f'.phase.Notifying? {
      UpdateProceeds(f');
    } else if !f'.w.exited {
      var fid :| fid in f'.w.fetchers && Enabled(f'.w, Deliver(fid, {}));
      assert Advances(f', Begin(fid, {}));
    }
  }

  // ---------- a stall happens ----------

  /** One client downloads one file; nobody reads what its callback prints. */
  predicate Alone(f: Fine, id: nat, n: string, pending: seq<UpdateInfo>, free: nat, first: bool) {
    && f.phase.Idle? && !f.w.exited && !f.w.shuttingDown
    && f.w.fetchers == map[0 := Fetcher(n, pending)]
    && f.w.files.Keys == {n} && f.w.files[n].listeners == [id] && !f.w.files[n].cancel.NoContext?
    && f.w.ch.clients.Keys == {id} && !f.w.ch.clients[id].closed && Listening(f.w.ch.clients[id].log)
    && (f.w.ch.clients[id].log == [] <==> first)
    && f.screens == map[id := Screen(0, free, true)]
  }

  predicate PlainUpdate(u: UpdateInfo, n: string) {
    u.name == n && u.err.None? && !u.p.complete
  }

  /** The manager takes an update and passes it to the only listener. */
  function Sent(f: Fine): Fine {
    FineStep(FineStep(f, Begin(0, {})), Notify)
  }

  lemma SentEffect(f: Fine, id: nat, n: string, pending: seq<UpdateInfo>, free: nat, first: bool)
    requires Alone(f, id, n, pending, free, first) && |pending| > 1 && PlainUpdate(pending[0], n)
    ensures var f' := Sent(f);
            && f'.w == f.w && f'.phase.Notifying? && f'.phase.fid == 0 && f'.phase.seen == {} && f'.phase.i == 1
            && f'.screens == map[id := Screen(if first then 2 else 1, free, true)]
            && f'.phase.ch.clients.Keys == {id} && !f'.phase.ch.clients[id].closed
            && f'.phase.ch.clients[id].log != [] && Listening(f'.phase.ch.clients[id].log)
  {
    var f1 := FineStep(f, Begin(0, {}));
    assert Next(f1) == id;
  }

  function Printed(f: Fine, id: nat, lines: nat): Fine {
    if lines == 0 then f else FineStep(Printed(f, id, lines - 1), Print(id))
  }

  lemma PrintedEffect(f: Fine, id: nat, lines: nat, toPrint: nat, free: nat)
    requires f.screens == map[id := Screen(toPrint, free, true)] && lines <= toPrint && lines <= free
    ensures Printed(f, id, lines) == f.(screens := map[id := Screen(toPrint - lines, free - lines, true)])
  {}

  function Round(f: Fine, id: nat, lines: nat): Fine {
    FineStep(Printed(Sent(f), id, lines), Conclude)
  }

  lemma ConcludeAlone(f: Fine, id: nat, n: string)
    requires InUpdate(f) && f.phase.seen == {} && PlainUpdate(Current(f), n) && f.phase.i == 1
    requires f.w.files.Keys == {n} && f.w.files[n].listeners == [id] && !f.w.shuttingDown && !f.w.files[n].cancel.NoContext?
    requires f.w.fetchers.Keys == {0} && f.phase.fid == 0 && |f.w.fetchers[0].pending| > 1 && !f.w.exited
    ensures var w' := FineStep(f, Conclude).w;
            && !w'.exited && !w'.shuttingDown
            && w'.fetchers == f.w.fetchers[0 := f.w.fetchers[0].(pending := f.w.fetchers[0].pending[1..])]
            && w'.files.Keys == {n} && w'.files[n].listeners == [id] && !w'.files[n].cancel.NoContext?
            && w'.ch.clients == f.phase.ch.clients
  {
    SurvivorsOne(f.w.files[n].(p := Current(f).p), id);
    var r := Receive(f.w, 0);
    assert r.fetchers == f.w.fetchers[0 := f.w.fetchers[0].(pending := f.w.fetchers[0].pending[1..])];
    assert Processed(r.files[n], Current(f), {}).listeners == [id];
  }

  lemma SurvivorsOne(df: File, id: nat)
    requires !df.p.complete
    ensures Survivors(df, {}, [id]) == [id]
  {
    assert [id][..0] == [];
  }

  /** One update that is not the last: it prints two lines or one, and all is as before. */
  lemma RoundEffect(f: Fine, id: nat, n: string, pending: seq<UpdateInfo>, free: nat, first: bool)
    requires Alone(f, id, n, pending, free, first) && |pending| > 1 && PlainUpdate(pending[0], n)
    requires free >= if first then 2 else 1
    ensures var lines := if first then 2 else 1;
            Alone(Round(f, id, lines), id, n, pending[1..], free - lines, false)
  {
    var lines := if first then 2 else 1;
    SentEffect(f, id, n, pending, free, first);
    PrintedEffect(Sent(f), id, lines, lines, free);
    ConcludeAlone(Printed(Sent(f), id, lines), id, n);
  }

  function Rounds(f: Fine, id: nat, k: nat): Fine {
    if k == 0 then f else Round(Rounds(f, id, k - 1), id, 1)
  }

  lemma {:induction false} RoundsEffect(f: Fine, id: nat, n: string, pending: seq<UpdateInfo>, free: nat, k: nat)
    requires Alone(f, id, n, pending, free, false) && |pending| > k && k <= free
    requires forall i :: 0 <= i < k ==> PlainUpdate(pending[i], n)
    ensures Alone(Rounds(f, id, k), id, n, pending[k..], free - k, false)
  {
    if k == 0 {
      assert pending[0..] == pending;
    } else {
      RoundsEffect(f, id, n, pending, free, k - 1);
      OneMoreRound(Rounds(f, id, k - 1), id, n, pending, free - k + 1, k);
    }
  }

  lemma OneMoreRound(f: Fine, id: nat, n: string, pending: seq<UpdateInfo>, free: nat, k: nat)
    requires 0 < k < |pending| && Alone(f, id, n, pending[k - 1..], free, false) && free >= 1
    requires PlainUpdate(pending[k - 1], n)
    ensures Alone(Round(f, id, 1), id, n, pending[k..], free - 1, false)
  {
    var rest := pending[k - 1..];
    assert rest[0] == pending[k - 1] && rest[1..] == pending[k..];
    RoundEffect(f, id, n, rest, free, false);
  }

  lemma FullStalls(f: Fine, id: nat, n: string, pending: seq<UpdateInfo>)
    requires Alone(f, id, n, pending, 0, false) && |pending| > 2 && PlainUpdate(pending[0], n) && PlainUpdate(pending[1], n)
    ensures Stalled(FineStep(FineStep(Sent(f), Conclude), Begin(0, {})))
  {
    SentEffect(f, id, n, pending, 0, false);
    ConcludeAlone(Sent(f), id, n);
    var f2 := FineStep(Sent(f), Conclude);
    assert f2.screens == map[id := Screen(1, 0, true)];
    var f3 := FineStep(f2, Begin(0, {}));
    assert Current(f3) == pending[1..][0] == pending[1];
    assert Next(f3) == id;
  }

  lemma AskAlone(w0: World, id: nat, n: string, stream: seq<UpdateInfo>)
    requires Initial(w0) && w0.files == map[] && Stream(n, stream)
    ensures Alone(FineStep(Fine(w0, map[], Idle), Ask(id, Some(n), false, stream, ServiceModel.CAPACITY, true)), id, n, stream, ServiceModel.CAPACITY, true)
  {
    FirstRequest(w0, id, n, stream);
  }

  /** A creation whose 256 lines of download progress nobody reads: the first update
      prints two, 254 more print one each, the next blocks the callback, and the one
      after that blocks the manager. */
  lemma StallHappens(w0: World, id: nat, n: string, stream: seq<UpdateInfo>)
    requires Initial(w0) && w0.files == map[] && Stream(n, stream) && |stream| > ServiceModel.CAPACITY + 1
    ensures var f0 := FineStep(Fine(w0, map[], Idle), Ask(id, Some(n), false, stream, ServiceModel.CAPACITY, true));
            var f := Rounds(Round(f0, id, 2), id, ServiceModel.CAPACITY - 2);
            Stalled(FineStep(FineStep(Sent(f), Conclude), Begin(0, {})))
  {
    var f0 := FineStep(Fine(w0, map[], Idle), Ask(id, Some(n), false, stream, ServiceModel.CAPACITY, true));
    AskAlone(w0, id, n, stream);
    RoundEffect(f0, id, n, stream, ServiceModel.CAPACITY, true);
    RoundsEffect(Round(f0, id, 2), id, n, stream[1..], ServiceModel.CAPACITY - 2, ServiceModel.CAPACITY - 2);
    var rest := stream[1..][ServiceModel.CAPACITY - 2..];
    assert rest == stream[ServiceModel.CAPACITY - 1..];
    assert rest[0] == stream[ServiceModel.CAPACITY - 1] && rest[1] == stream[ServiceModel.CAPACITY];
    FullStalls(Rounds(Round(f0, id, 2), id, ServiceModel.CAPACITY - 2), id, n, rest);
  }
}
