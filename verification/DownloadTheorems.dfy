/** What the download manager guarantees over whole runs. */
module DownloadTheorems {
  import opened SeqFacts
  import opened Wrappers
  import opened DownloadModel
  import opened DownloadProofs

  lemma InitialInv(w: World)
    requires Initial(w)
    ensures Inv(w)
  {}

  /** Incomplete entries and live fetchers correspond one to one.  Every incomplete
      entry has a context to cancel, which is cancelled once nobody wants the file
      or shutdown has begun; a complete entry has no listeners to lose. */
  ghost predicate OneFetchPerFile(w: World) {
    && (forall n :: Fetching(w, n) <==> exists fid :: Serves(w, fid, n))
    && (forall n, a, b :: Serves(w, a, n) && Serves(w, b, n) ==> a == b)
    && (forall n :: Fetching(w, n) ==> !w.files[n].cancel.NoContext?)
    && (forall n :: Fetching(w, n) && (w.files[n].listeners == [] || w.shuttingDown) ==> w.files[n].cancel.Cancelled?)
    && (forall n :: n in w.files && w.files[n].p.complete ==> w.files[n].listeners == [])
  }

  /** The unanswered clients are the disjoint union of the listener lists. */
  ghost predicate ListenersConserved(w: World) {
    && (forall id :: id in w.ch.clients ==>
          (!w.ch.clients[id].closed <==> exists n :: n in w.files && id in w.files[n].listeners))
    && (forall n :: n in w.files ==> Distinct(w.files[n].listeners))
    && (forall n, m, id :: n in w.files && m in w.files && id in w.files[n].listeners && id in w.files[m].listeners ==> n == m)
    && (forall n, id :: n in w.files && id in w.files[n].listeners ==> id in w.ch.clients)
  }

  ghost predicate Answered(w: World, id: nat) {
    id in w.ch.clients && w.ch.clients[id].closed && Conversation(w.ch.clients[id].log)
      && Outcome(w.cacheDir, w.ch.clients[id])
  }

  lemma InvMeans(w: World)
    requires Inv(w)
    ensures OneFetchPerFile(w) && ListenersConserved(w)
    ensures forall id :: id in w.ch.clients && w.ch.clients[id].closed ==> Answered(w, id)
  {
    forall n ensures Fetching(w, n) <==> exists fid :: Serves(w, fid, n) {
      if Fetching(w, n) {
        assert FileOk(w, n);
      }
      if fid :| Serves(w, fid, n) {
        assert FetcherOk(w, fid);
      }
    }
    forall n, a, b | Serves(w, a, n) && Serves(w, b, n) ensures a == b {
      assert FetcherOk(w, a);
    }
    forall n, id | n in w.files && id in w.files[n].listeners ensures Waiting(w, id, n) {
      assert FileOk(w, n);
    }
    forall id | id in w.ch.clients
      ensures !w.ch.clients[id].closed <==> exists n :: n in w.files && id in w.files[n].listeners
    {
      assert ClientOk(w, id);
    }
    forall n | n in w.files ensures FileOk(w, n) {}
  }

  /** Safety of every run: no send without a receiver, no double close, no nil
      cancel; one fetch per file; nobody lost; and nobody unanswered at exit. */
  lemma RunIsSafe(w0: World, es: seq<Event>)
    requires Initial(w0)
    ensures var w := Run(w0, es);
            && !w.ch.fault
            && OneFetchPerFile(w) && ListenersConserved(w)
            && (forall id :: id in w.ch.clients && w.ch.clients[id].closed ==> Answered(w, id))
            && (w.exited ==> forall id :: id in w.ch.clients ==> Answered(w, id))
  {
    InitialInv(w0);
    RunKeepsInv(w0, es);
    var w := Run(w0, es);
    InvMeans(w);
    if w.exited {
      forall n | n in w.files ensures w.files[n].listeners == [] {
        assert n !in ActiveNames(w.files);
      }
    }
  }

  // ---------- every fetch answers everyone who waits for it ----------

  lemma RequestFetchers(w: World, e: Event, n: string, fid: nat)
    requires Enabled(w, e) && e.Request? && Fetching(w, n) && Serves(Step(w, e), fid, n)
    ensures Serves(w, fid, n)
  {}

  lemma DeliverFetchers(w: World, k: nat, seen: set<nat>, n: string, fid: nat)
    requires Inv(w) && Enabled(w, Deliver(k, seen)) && Serves(Step(w, Deliver(k, seen)), fid, n)
    ensures Serves(w, fid, n)
  {}

  /** While a file is being fetched no second fetcher starts on it. */
  lemma StepFetchers(w: World, e: Event, n: string, fid: nat)
    requires Inv(w) && Fetching(w, n) && Serves(Step(w, e), fid, n)
    ensures Serves(w, fid, n)
  {
    if Enabled(w, e) {
      match e
      case DoneSignal =>
      case Request(_, _, _, _) => RequestFetchers(w, e, n, fid);
      case Deliver(k, seen) => DeliverFetchers(w, k, seen, n, fid);
    }
  }

  lemma DeliverKeepsClient(w: World, fid: nat, seen: set<nat>, id: nat)
    requires Inv(w) && id in w.ch.clients && Enabled(w, Deliver(fid, seen))
    ensures var w' := Step(w, Deliver(fid, seen));
            && id in w'.ch.clients
            && w'.ch.clients[id].name == w.ch.clients[id].name
            && (w.ch.clients[id].closed ==> w'.ch.clients[id] == w.ch.clients[id])
  {
    DeliverEffect(w, fid, seen);
    var n := w.fetchers[fid].name;
    assert FileOk(w, n);
    assert id in w.files[n].listeners ==> Waiting(w, id, n);
  }

  lemma RequestKeepsClient(w: World, e: Event, id: nat)
    requires id in w.ch.clients && Enabled(w, e) && e.Request?
    ensures var w' := Step(w, e); id in w'.ch.clients && w'.ch.clients[id] == w.ch.clients[id]
  {}

  lemma StepKeepsClient(w: World, e: Event, id: nat)
    requires Inv(w) && id in w.ch.clients
    ensures var w' := Step(w, e);
            && id in w'.ch.clients
            && w'.ch.clients[id].name == w.ch.clients[id].name
            && (w.ch.clients[id].closed ==> w'.ch.clients[id] == w.ch.clients[id])
  {
    if Enabled(w, e) {
      match e
      case DoneSignal =>
      case Request(_, _, _, _) => RequestKeepsClient(w, e, id);
      case Deliver(fid, seen) => DeliverKeepsClient(w, fid, seen, id);
    }
  }

  /** Along any run, a waiting client is answered or its fetcher is still at work. */
  lemma {:induction false} AnsweredOrFetching(w: World, es: seq<Event>, id: nat, n: string, fid: nat)
    requires Inv(w) && Waiting(w, id, n) && Serves(w, fid, n)
    ensures var w' := Run(w, es); Answered(w', id) || (Waiting(w', id, n) && Serves(w', fid, n))
  {
    RunKeepsInv(w, es);
    if es != [] {
      var init := es[..|es| - 1];
      var e := es[|es| - 1];
      AnsweredOrFetching(w, init, id, n, fid);
      RunKeepsInv(w, init);
      var mid := Run(w, init);
      var w' := Step(mid, e);
      StepKeepsClient(mid, e, id);
      InvMeans(w');
      InvMeans(mid);
      if !w'.ch.clients[id].closed {
        assert ClientOk(w', id) && FileOk(w', n);
        var other :| Serves(w', other, n);
        StepFetchers(mid, e, n, other);
      }
    }
  }

  /** Whoever waits has a fetcher, and is answered by the time that fetcher is done. */
  lemma WaitingIsAnswered(w0: World, before: seq<Event>, after: seq<Event>, id: nat) returns (fid: nat)
    requires Initial(w0)
    requires var w := Run(w0, before); id in w.ch.clients && !w.ch.clients[id].closed
    ensures fid in Run(w0, before).fetchers
    ensures fid !in Run(Run(w0, before), after).fetchers ==> Answered(Run(Run(w0, before), after), id)
  {
    var w := Run(w0, before);
    InitialInv(w0);
    RunKeepsInv(w0, before);
    assert ClientOk(w, id);
    var n := w.ch.clients[id].name.value;
    assert FileOk(w, n);
    fid :| Serves(w, fid, n);
    AnsweredOrFetching(w, after, id, n, fid);
  }

  // ---------- shutdown ----------

  /** Updates that the first `k` fetchers have still to deliver. */
  function Work(fetchers: map<nat, Fetcher>, k: nat): nat {
    if k == 0 then 0
    else Work(fetchers, k - 1) + if k - 1 in fetchers then |fetchers[k - 1].pending| else 0
  }

  lemma {:induction false} WorkReceive(w: World, fid: nat, k: nat)
    requires fid in w.fetchers && w.fetchers[fid].pending != []
    ensures Work(Receive(w, fid).fetchers, k) == Work(w.fetchers, k) - (if fid < k then 1 else 0)
  {
    if k > 0 {
      WorkReceive(w, fid, k - 1);
    }
  }

  lemma {:induction false} WorkPositive(fetchers: map<nat, Fetcher>, k: nat, fid: nat)
    requires fid in fetchers && fid < k
    ensures Work(fetchers, k) >= |fetchers[fid].pending|
  {
    if fid < k - 1 {
      WorkPositive(fetchers, k - 1, fid);
    }
  }

  /** How many deliveries a schedule really makes. */
  function Deliveries(w: World, es: seq<Event>): nat {
    if es == [] then 0
    else
      var init, e := es[..|es| - 1], es[|es| - 1];
      Deliveries(w, init) + if e.Deliver? && Enabled(Run(w, init), e) then 1 else 0
  }

  lemma ShutdownStep(w: World, e: Event)
    requires Inv(w) && w.shuttingDown
    ensures var w' := Step(w, e);
            && w'.shuttingDown && w'.spawned == w.spawned
            && Work(w'.fetchers, w.spawned) == Work(w.fetchers, w.spawned) - (if e.Deliver? && Enabled(w, e) then 1 else 0)
  {
    if Enabled(w, e) && e.Deliver? {
      DeliverEffect(w, e.fid, e.seen);
      WorkReceive(w, e.fid, w.spawned);
    }
  }

  /** Once shutdown has begun, each delivery uses up one unit of a fixed amount
      of work, whatever requests arrive; and as long as the manager has not left
      its loop some fetcher has an update for it (DownloadStalls says when a
      delivery gets stuck). */
  lemma {:induction false} ShutdownProgress(w: World, es: seq<Event>)
    requires Inv(w) && w.shuttingDown
    ensures var w' := Run(w, es);
            && w'.shuttingDown && w'.spawned == w.spawned && Inv(w')
            && Work(w'.fetchers, w'.spawned) + Deliveries(w, es) == Work(w.fetchers, w.spawned)
            && (w'.exited || exists fid :: fid in w'.fetchers && Enabled(w', Deliver(fid, {})))
            && (Deliveries(w, es) == Work(w.fetchers, w.spawned) ==> w'.exited)
  {
    if es != [] {
      ShutdownProgress(w, es[..|es| - 1]);
      ShutdownStep(Run(w, es[..|es| - 1]), es[|es| - 1]);
    }
    RunKeepsInv(w, es);
    var w' := Run(w, es);
    if !w'.exited {
      var n :| n in ActiveNames(w'.files);
      assert FileOk(w', n);
      var fid :| Serves(w', fid, n);
      assert FetcherOk(w', fid);
      WorkPositive(w'.fetchers, w'.spawned, fid);
      assert Enabled(w', Deliver(fid, {}));
    }
  }

  lemma {:induction false} ExitIsFinal(w: World, es: seq<Event>)
    requires w.exited
    ensures Run(w, es) == w
  {
    if es != [] {
      ExitIsFinal(w, es[..|es| - 1]);
    }
  }

  lemma SomebodyWaits(w: World)
    requires Inv(w)
    ensures Active(w) <==> exists k :: k in w.ch.clients && !w.ch.clients[k].closed
  {
    if k :| k in w.ch.clients && !w.ch.clients[k].closed {
      assert ClientOk(w, k);
      assert w.ch.clients[k].name.value in ActiveNames(w.files);
    }
    if n :| n in ActiveNames(w.files) {
      assert FileOk(w, n);
      assert Waiting(w, w.files[n].listeners[0], n);
    }
  }

  /** The signal ends the manager's loop at once if and only if nobody waits for an
      answer, and after that no request is ever taken. */
  lemma UntakenAfterSignal(w0: World, es: seq<Event>, later: seq<Event>, id: nat)
    requires Initial(w0) && Enabled(Run(w0, es), DoneSignal) && id !in Run(w0, es).ch.clients
    ensures var w, w' := Run(w0, es), Step(Run(w0, es), DoneSignal);
            && (w'.exited <==> forall k :: k in w.ch.clients ==> w.ch.clients[k].closed)
            && (w'.exited ==> id !in Run(w', later).ch.clients)
  {
    var w := Run(w0, es);
    InitialInv(w0);
    RunKeepsInv(w0, es);
    SomebodyWaits(w);
    if Step(w, DoneSignal).exited {
      ExitIsFinal(Step(w, DoneSignal), later);
    }
  }

  /** The final wait returns (every fetcher called wg.Done) exactly when every entry
      is complete at exit: afterwards nobody receives a fetcher's updates. */
  lemma WaitReturnsIff(w0: World, es: seq<Event>, later: seq<Event>)
    requires Initial(w0) && Run(w0, es).exited
    ensures var w := Run(w0, es);
            Run(w, later).fetchers == map[] <==> forall n :: n in w.files ==> w.files[n].p.complete
  {
    var w := Run(w0, es);
    InitialInv(w0);
    RunKeepsInv(w0, es);
    InvMeans(w);
    ExitIsFinal(w, later);
    if w.fetchers != map[] {
      var fid :| fid in w.fetchers;
      assert Serves(w, fid, w.fetchers[fid].name);
    }
  }

  /** A lone listener that gives up leaves a fetcher behind. */
  lemma GiveUp(w: World, fid: nat, id: nat)
    requires Inv(w) && !w.shuttingDown && Enabled(w, Deliver(fid, {id})) && |w.fetchers[fid].pending| > 1
    requires w.files.Keys == {w.fetchers[fid].name} && w.files[w.fetchers[fid].name].listeners == [id]
    ensures var f := w.fetchers[fid];
            var w' := Step(w, Deliver(fid, {id}));
            && !w'.exited && !w'.shuttingDown && !Active(w')
            && w'.fetchers == w.fetchers[fid := f.(pending := f.pending[1..])]
  {
    DeliverEffect(w, fid, {id});
    var w' := Step(w, Deliver(fid, {id}));
    var n := w.fetchers[fid].name;
    assert w'.files[n].listeners == [];
  }

  lemma RunSnoc(w: World, es: seq<Event>, e: Event)
    ensures Run(w, es + [e]) == Step(Run(w, es), e)
  {}

  lemma FirstRequest(w0: World, id: nat, n: string, stream: seq<UpdateInfo>)
    requires Initial(w0) && w0.files == map[] && Stream(n, stream)
    ensures var w := Step(w0, Request(id, Some(n), false, stream));
            && Inv(w) && !w.exited && !w.shuttingDown
            && w.fetchers == map[0 := Fetcher(n, stream)]
            && w.files == map[n := File(NO_PROGRESS, [id], PathOf(w.cacheDir, n), Live)]
  {
    InitialInv(w0);
    StepKeepsInv(w0, Request(id, Some(n), false, stream));
  }

  /** It can fail to return: the only client gives up, then the signal arrives. */
  lemma WaitCanBlock(w0: World, id: nat, n: string, part: UpdateInfo, last: UpdateInfo)
    requires Initial(w0) && w0.files == map[] && Stream(n, [part, last])
    ensures var w := Run(w0, [Request(id, Some(n), false, [part, last])] + [Deliver(0, {id})] + [DoneSignal]);
            w.exited && w.fetchers == map[0 := Fetcher(n, [last])]
  {
    var e1, e2 := Request(id, Some(n), false, [part, last]), Deliver(0, {id});
    FirstRequest(w0, id, n, [part, last]);
    var w1 := Step(w0, e1);
    GiveUp(w1, 0, id);
    assert [part, last][1..] == [last];
    RunSnoc(w0, [], e1);
    assert [] + [e1] == [e1];
    RunSnoc(w0, [e1], e2);
    RunSnoc(w0, [e1] + [e2], DoneSignal);
  }

  // ---------- what a client learns from the final update ----------

  /** The last update of a fetch answers all its listeners.  The error a client
      sees is the fetch's own, except that a client found cancelled at that
      moment is told nothing of a failure. */
  lemma FinalOutcome(w: World, fid: nat, seen: set<nat>, id: nat)
    requires Inv(w) && Enabled(w, Deliver(fid, seen)) && |w.fetchers[fid].pending| == 1
    requires Waiting(w, id, w.fetchers[fid].name)
    ensures var u := w.fetchers[fid].pending[0];
            var w' := Step(w, Deliver(fid, seen));
            && Answered(w', id)
            && |w'.ch.clients[id].log| == |w.ch.clients[id].log| + 1
            && var last := w'.ch.clients[id].log[|w.ch.clients[id].log|];
               && last.path == PathOf(w.cacheDir, u.name) && last.p == u.p
               && (last.err == u.err <==> (u.err.None? || id !in seen))
               && (last.err.None? <==> (u.err.None? || id in seen))
  {
    var e := Deliver(fid, seen);
    DeliverEffect(w, fid, seen);
    StepKeepsInv(w, e);
    var w' := Step(w, e);
    InvMeans(w');
    var n := w.fetchers[fid].name;
    assert ClientOk(w, id) && FileOk(w, n);
    assert w'.ch.clients[id] == Replied(w.ch.clients[id], w.files[n].(p := w.fetchers[fid].pending[0].p), w.fetchers[fid].pending[0], id in seen);
  }

  // ---------- requests that join an abandoned fetch ----------

  predicate Doomed(w: World, n: string) {
    Fetching(w, n) && w.files[n].cancel.Cancelled?
  }

  /** Some time since the fetch of `n` began nobody listened to it. */
  ghost predicate Deserted(w: World, es: seq<Event>, n: string) {
    var now := Run(w, es);
    Fetching(now, n) && (now.files[n].listeners == [] || (es != [] && Deserted(w, es[..|es| - 1], n)))
  }

  lemma StepDoomed(w: World, e: Event, n: string)
    requires Inv(w) && !Step(w, e).shuttingDown && Fetching(Step(w, e), n)
    ensures Doomed(Step(w, e), n) <==> Step(w, e).files[n].listeners == [] || Doomed(w, n)
  {
    if Enabled(w, e) {
      match e
      case DoneSignal => assert n !in ActiveNames(w.files);
      case Request(_, _, _, _) =>
      case Deliver(fid, seen) => DeliverDoomed(w, fid, seen, n);
    }
    assert Fetching(w, n) ==> FileOk(w, n);
  }

  lemma DeliverDoomed(w: World, fid: nat, seen: set<nat>, n: string)
    requires Inv(w) && Enabled(w, Deliver(fid, seen)) && !w.shuttingDown && Fetching(Step(w, Deliver(fid, seen)), n)
    ensures var w' := Step(w, Deliver(fid, seen));
            Doomed(w', n) <==> w'.files[n].listeners == [] || Doomed(w, n)
  {
    DeliverEffect(w, fid, seen);
    assert FileOk(w, n);
  }

  lemma {:induction false} DoomedExactly(w: World, es: seq<Event>, n: string)
    requires Initial(w) && !Run(w, es).shuttingDown
    ensures Doomed(Run(w, es), n) <==> Deserted(w, es, n)
  {
    if es != [] && Fetching(Run(w, es), n) {
      var init := es[..|es| - 1];
      InitialInv(w);
      RunKeepsInv(w, init);
      DoomedExactly(w, init, n);
      StepDoomed(Run(w, init), es[|es| - 1], n);
    }
  }

  /** A new request waits for a fetch that is already cancelled if and only if the
      file is being fetched and, some time since that fetch began, nobody listened. */
  lemma JoinsDoomedExactly(w0: World, es: seq<Event>, id: nat, n: string, onDisk: bool, stream: seq<UpdateInfo>)
    requires Initial(w0) && !Run(w0, es).shuttingDown && Enabled(Run(w0, es), Request(id, Some(n), onDisk, stream))
    ensures var w' := Step(Run(w0, es), Request(id, Some(n), onDisk, stream));
            Waiting(w', id, n) && Doomed(w', n) <==> Deserted(w0, es, n)
  {
    DoomedExactly(w0, es, n);
  }

  /** The only client of `n` gives up, and a second one joins the abandoned fetch. */
  lemma DoomHappens(w0: World, a: nat, b: nat, n: string, part: UpdateInfo, last: UpdateInfo)
    requires Initial(w0) && w0.files == map[] && a != b && Stream(n, [part, last])
    ensures var w := Run(w0, [Request(a, Some(n), false, [part, last])] + [Deliver(0, {a})] + [Request(b, Some(n), false, [part, last])]);
            Waiting(w, b, n) && Doomed(w, n)
  {
    var e1, e2, e3 := Request(a, Some(n), false, [part, last]), Deliver(0, {a}), Request(b, Some(n), false, [part, last]);
    FirstRequest(w0, a, n, [part, last]);
    var w1 := Step(w0, e1);
    Abandoned(w1, a, n);
    JoinsAbandoned(Step(w1, e2), a, b, n, [part, last]);
    RunSnoc(w0, [], e1);
    assert [] + [e1] == [e1];
    RunSnoc(w0, [e1], e2);
    RunSnoc(w0, [e1] + [e2], e3);
  }

  lemma Abandoned(w: World, a: nat, n: string)
    requires Inv(w) && !w.shuttingDown && Enabled(w, Deliver(0, {a})) && |w.fetchers[0].pending| > 1 && w.fetchers[0].name == n
    requires w.files.Keys == {n} && w.files[n].listeners == [a] && w.ch.clients.Keys == {a}
    ensures var w' := Step(w, Deliver(0, {a}));
            Inv(w') && !w'.exited && !w'.shuttingDown && Fetching(w', n) && w'.files[n].listeners == [] && w'.ch.clients.Keys == {a}
  {
    DeliverKeepsInv(w, 0, {a});
    GiveUp(w, 0, a);
    DeliverEffect(w, 0, {a});
    assert FetcherOk(w, 0);
  }

  lemma JoinsAbandoned(w: World, a: nat, b: nat, n: string, stream: seq<UpdateInfo>)
    requires Inv(w) && !w.exited && !w.shuttingDown && Fetching(w, n) && w.files[n].listeners == [] && w.ch.clients.Keys == {a}
    requires a != b && Stream(n, stream)
    ensures var w' := Step(w, Request(b, Some(n), false, stream));
            Waiting(w', b, n) && Doomed(w', n)
  {
    assert FileOk(w, n);
  }
}
