/** Safety and progress of the download manager, over every run. */
module DownloadProofs {
  import opened SeqFacts
  import opened Wrappers
  import opened DownloadModel

  predicate Quiet(u: Update) {
    u.err.None? && !u.alreadyDownloaded
  }

  /** A finished conversation: only its last update may end it early, and
      `alreadyDownloaded` is said only at once. */
  predicate Conversation(log: seq<Update>) {
    && log != []
    && (forall i :: 0 <= i < |log| - 1 ==> Quiet(log[i]))
    && (log[|log| - 1].alreadyDownloaded ==> |log| == 1 && log[0].err.None?)
  }

  predicate Serves(w: World, fid: nat, n: string) {
    fid in w.fetchers && w.fetchers[fid].name == n
  }

  predicate Fetching(w: World, n: string) {
    n in w.files && !w.files[n].p.complete
  }

  ghost predicate FileOk(w: World, n: string)
    requires n in w.files
  {
    var f := w.files[n];
    && f.path == PathOf(w.cacheDir, n)
    && (f.p.complete ==> f.listeners == [])
    && (!f.p.complete ==> !f.cancel.NoContext? && exists fid :: Serves(w, fid, n))
    && (!f.p.complete && (f.listeners == [] || w.shuttingDown) ==> f.cancel.Cancelled?)
    && Distinct(f.listeners)
    && forall l :: l in f.listeners ==> Waiting(w, l, n)
  }

  predicate Waiting(w: World, id: nat, n: string) {
    id in w.ch.clients && !w.ch.clients[id].closed && w.ch.clients[id].name == Some(n)
  }

  ghost predicate FetcherOk(w: World, fid: nat)
    requires fid in w.fetchers
  {
    var f := w.fetchers[fid];
    && fid < w.spawned
    && Fetching(w, f.name)
    && Stream(f.name, f.pending)
    && forall other :: Serves(w, other, f.name) ==> other == fid
  }

  ghost predicate ClientOk(w: World, id: nat)
    requires id in w.ch.clients
  {
    var c := w.ch.clients[id];
    if c.closed then
      && Conversation(c.log)
      && Outcome(w.cacheDir, c)
    else
      && c.name.Some? && c.name.value in w.files && id in w.files[c.name.value].listeners
      && forall i :: 0 <= i < |c.log| ==> Quiet(c.log[i])
  }

  /** A client that ends without an error either has a completed file's path or asked for an unparsable URL. */
  predicate Outcome(cacheDir: string, c: Client)
    requires c.log != []
  {
    var last := c.log[|c.log| - 1];
    last.err.None? ==>
      if c.name.None? then last.path == "" else last.p.complete && last.path == PathOf(cacheDir, c.name.value)
  }

  ghost predicate Core(w: World) {
    && !w.ch.fault
    && (forall n :: n in w.files ==> FileOk(w, n))
    && (forall fid :: fid in w.fetchers ==> FetcherOk(w, fid))
    && (forall id :: id in w.ch.clients ==> ClientOk(w, id))
  }

  ghost predicate Inv(w: World) {
    && Core(w)
    && (w.shuttingDown && !w.exited ==> Active(w))
    && (w.exited ==> !Active(w))
  }

  // ---------- delivering one update ----------

  function Replied(c: Client, df: File, u: UpdateInfo, cancelled: bool): Client {
    c.(log := c.log + [Notice(df, u, cancelled)], closed := cancelled || df.p.complete)
  }

  /** Every listener is sent its notice exactly once and none of the sends or closes faults. */
  lemma {:induction false} DeliverAllEffect(ch: Channels, df: File, u: UpdateInfo, seen: set<nat>, ls: seq<nat>)
    requires Distinct(ls)
    requires forall l :: l in ls ==> l in ch.clients && !ch.clients[l].closed && Listening(ch.clients[l].log)
    ensures var ch' := DeliverAll(ch, df, u, seen, ls);
            && ch'.fault == ch.fault
            && ch'.clients.Keys == ch.clients.Keys
            && forall id :: id in ch.clients ==>
                 ch'.clients[id] == if id in ls then Replied(ch.clients[id], df, u, id in seen) else ch.clients[id]
  {
    if ls != [] {
      var init, l := ls[..|ls| - 1], ls[|ls| - 1];
      assert forall k :: k in ls <==> k in init || k == l;
      assert l !in init;
      DeliverAllEffect(ch, df, u, seen, init);
    }
  }

  lemma {:induction false} SurvivorsDistinct(df: File, seen: set<nat>, ls: seq<nat>)
    requires Distinct(ls)
    ensures Distinct(Survivors(df, seen, ls))
  {
    if ls != [] {
      var init, l := ls[..|ls| - 1], ls[|ls| - 1];
      SurvivorsDistinct(df, seen, init);
      assert l !in init;
    }
  }

  /** The survivors keep their order. */
  lemma {:induction false} SurvivorsOrdered(df: File, seen: set<nat>, ls: seq<nat>, i: nat, j: nat)
    requires i < j < |ls|
    requires var kept := Survivors(df, seen, ls); ls[i] in kept && ls[j] in kept
    ensures var kept := Survivors(df, seen, ls); exists p, q :: 0 <= p < q < |kept| && kept[p] == ls[i] && kept[q] == ls[j]
  {
    var init, kept := ls[..|ls| - 1], Survivors(df, seen, ls);
    var before := Survivors(df, seen, init);
    assert before <= kept;
    if j < |ls| - 1 {
      assert ls[j] in init && ls[i] in init;
      SurvivorsOrdered(df, seen, init, i, j);
      var p, q :| 0 <= p < q < |before| && before[p] == init[i] && before[q] == init[j];
      assert kept[p] == ls[i] && kept[q] == ls[j];
    } else {
      assert ls[i] in init && ls[i] in before;
      var p :| 0 <= p < |before| && before[p] == ls[i];
      assert kept[p] == ls[i] && kept[|kept| - 1] == ls[j];
    }
  }

  lemma OpenListens(w: World, id: nat)
    requires id in w.ch.clients && ClientOk(w, id) && !w.ch.clients[id].closed
    ensures Listening(w.ch.clients[id].log)
  {}

  // ---------- each kind of step keeps the invariant ----------

  lemma FileFrame(w: World, w': World, n: string)
    requires n in w.files && FileOk(w, n)
    requires n in w'.files && w'.files[n] == w.files[n] && w'.cacheDir == w.cacheDir
    requires w'.shuttingDown ==> w.shuttingDown || w.files[n].cancel.Cancelled?
    requires forall fid :: Serves(w, fid, n) ==> Serves(w', fid, n)
    requires forall l :: l in w.files[n].listeners ==> l in w'.ch.clients && (l in w.ch.clients ==> w'.ch.clients[l] == w.ch.clients[l])
    ensures FileOk(w', n)
  {}

  lemma FetcherFrame(w: World, w': World, fid: nat)
    requires fid in w.fetchers && FetcherOk(w, fid)
    requires fid in w'.fetchers && w'.fetchers[fid] == w.fetchers[fid] && w.spawned <= w'.spawned
    requires Fetching(w', w.fetchers[fid].name)
    requires forall other :: Serves(w', other, w.fetchers[fid].name) ==> Serves(w, other, w.fetchers[fid].name)
    ensures FetcherOk(w', fid)
  {}

  /** Fetchers and clients do not notice a cancellation. */
  lemma CancelOthers(w: World, w': World)
    requires (forall fid :: fid in w.fetchers ==> FetcherOk(w, fid)) && (forall id :: id in w.ch.clients ==> ClientOk(w, id))
    requires w'.fetchers == w.fetchers && w'.spawned == w.spawned && w'.ch.clients == w.ch.clients && w'.cacheDir == w.cacheDir
    requires w'.files == map n | n in w.files :: CancelWanted(w.files[n])
    ensures (forall fid :: fid in w'.fetchers ==> FetcherOk(w', fid)) && (forall id :: id in w'.ch.clients ==> ClientOk(w', id))
  {
    forall fid | fid in w'.fetchers ensures FetcherOk(w', fid) {
      assert FetcherOk(w, fid);
      FetcherFrame(w, w', fid);
    }
  }

  lemma CancelCore(w: World, shuttingDown: bool, exited: bool)
    requires Core(w)
    requires w.shuttingDown ==> shuttingDown
    ensures var w' := CancelActive(w).(shuttingDown := shuttingDown, exited := exited);
            Core(w') && ActiveNames(w'.files) == ActiveNames(w.files)
  {
    var w' := CancelActive(w).(shuttingDown := shuttingDown, exited := exited);
    forall n | n in w'.files ensures FileOk(w', n) {
      assert FileOk(w, n);
      var f := w'.files[n];
      forall l | l in f.listeners ensures Waiting(w', l, n) {
        assert Waiting(w, l, n);
      }
      if !f.p.complete {
        var fid :| Serves(w, fid, n);
        assert Serves(w', fid, n);
      }
    }
    CancelOthers(w, w');
    forall n | n in ActiveNames(w.files) ensures n in w.files && !w.files[n].cancel.NoContext? {
      assert FileOk(w, n);
    }
  }

  lemma DoneKeepsInv(w: World)
    requires Inv(w) && Enabled(w, DoneSignal)
    ensures Inv(AfterDone(w))
  {
    CancelCore(w, Active(w), !Active(w));
    assert AfterDone(w) == CancelActive(w).(shuttingDown := Active(w), exited := !Active(w));
  }

  lemma AnswerEffect(w: World, id: nat, name: Option<string>, u: Update)
    ensures Answer(w.(ch := w.ch.(clients := w.ch.clients[id := Client(name, [], false)])), id, u)
         == w.(ch := w.ch.(clients := w.ch.clients[id := Client(name, [u], true)]))
  {
    var begun: map<nat, Client> := w.ch.clients[id := Client(name, [], false)];
    assert [] + [u] == [u];
    assert begun[id := Client(name, [u], false)][id := Client(name, [u], true)] == w.ch.clients[id := Client(name, [u], true)];
  }

  /** A request that is answered at once: one update, then close. */
  lemma AnswerCore(w: World, w': World, id: nat, name: Option<string>, u: Update)
    requires Core(w) && id !in w.ch.clients
    requires Outcome(w.cacheDir, Client(name, [u], true)) && (u.alreadyDownloaded ==> u.err.None?)
    requires w' == w.(ch := w.ch.(clients := w.ch.clients[id := Client(name, [u], true)]))
    ensures Core(w')
  {
    forall n | n in w'.files ensures FileOk(w', n) {
      NotListening(w, id, n);
      FileFrame(w, w', n);
    }
    forall fid | fid in w'.fetchers ensures FetcherOk(w', fid) {
      FetcherFrame(w, w', fid);
    }
    forall k | k in w'.ch.clients ensures ClientOk(w', k) {
      if k != id {
        assert ClientOk(w, k);
      }
    }
  }

  lemma NotListening(w: World, id: nat, n: string)
    requires Core(w) && id !in w.ch.clients && n in w.files
    ensures FileOk(w, n) && id !in w.files[n].listeners && forall l :: l in w.files[n].listeners ==> l in w.ch.clients
  {}

  lemma DistinctSnoc(s: seq<nat>, x: nat)
    requires Distinct(s) && x !in s
    ensures Distinct(s + [x])
  {}

  /** A request that joins a running download. */
  lemma JoinCore(w: World, id: nat, n: string)
    requires Core(w) && id !in w.ch.clients && Fetching(w, n) && !w.shuttingDown
    ensures Core(w.(ch := w.ch.(clients := w.ch.clients[id := Client(Some(n), [], false)]),
                    files := w.files[n := w.files[n].(listeners := w.files[n].listeners + [id])]))
  {
    var w' := w.(ch := w.ch.(clients := w.ch.clients[id := Client(Some(n), [], false)]),
                 files := w.files[n := w.files[n].(listeners := w.files[n].listeners + [id])]);
    forall m | m in w'.files ensures FileOk(w', m) {
      NotListening(w, id, m);
      if m != n {
        FileFrame(w, w', m);
      } else {
        var fid :| Serves(w, fid, m);
        assert Serves(w', fid, m);
        DistinctSnoc(w.files[n].listeners, id);
        forall l | l in w'.files[m].listeners ensures Waiting(w', l, m) {
          assert l == id || Waiting(w, l, m);
        }
      }
    }
    forall fid | fid in w'.fetchers ensures FetcherOk(w', fid) {
      FetcherFrame(w, w', fid);
    }
    forall k | k in w'.ch.clients ensures ClientOk(w', k) {
      if k != id {
        assert ClientOk(w, k);
      }
    }
  }

  /** A request that starts a download; a complete entry it replaces had no listeners. */
  lemma SpawnCore(w: World, w': World, id: nat, n: string, stream: seq<UpdateInfo>)
    requires Core(w) && id !in w.ch.clients && !Fetching(w, n) && !w.shuttingDown && Stream(n, stream)
    requires w' == w.(ch := w.ch.(clients := w.ch.clients[id := Client(Some(n), [], false)]),
                      files := w.files[n := File(NO_PROGRESS, [id], PathOf(w.cacheDir, n), Live)],
                      fetchers := w.fetchers[w.spawned := Fetcher(n, stream)],
                      spawned := w.spawned + 1)
    ensures Core(w')
  {
    SpawnFetchers(w, w', n, stream);
    SpawnClients(w, w', id, n);
    forall m | m in w'.files ensures FileOk(w', m) {
      if m == n {
        assert Serves(w', w.spawned, n);
        assert Waiting(w', id, n);
      } else {
        NotListening(w, id, m);
        FileFrame(w, w', m);
      }
    }
  }

  lemma SpawnClients(w: World, w': World, id: nat, n: string)
    requires Core(w) && id !in w.ch.clients && !Fetching(w, n)
    requires w'.ch.clients == w.ch.clients[id := Client(Some(n), [], false)] && w'.cacheDir == w.cacheDir
    requires n in w'.files && w'.files[n].listeners == [id]
    requires forall m :: m != n && m in w.files ==> m in w'.files && w'.files[m] == w.files[m]
    ensures forall k :: k in w'.ch.clients ==> ClientOk(w', k)
  {}

  lemma SpawnFetchers(w: World, w': World, n: string, stream: seq<UpdateInfo>)
    requires forall fid :: fid in w.fetchers ==> FetcherOk(w, fid)
    requires !Fetching(w, n) && Stream(n, stream) && Fetching(w', n)
    requires forall m :: m != n && Fetching(w, m) ==> Fetching(w', m)
    requires w'.fetchers == w.fetchers[w.spawned := Fetcher(n, stream)] && w'.spawned == w.spawned + 1
    ensures forall fid :: fid in w'.fetchers ==> FetcherOk(w', fid)
    ensures forall fid, m :: Serves(w, fid, m) ==> Serves(w', fid, m)
  {
    forall fid | fid in w.fetchers ensures fid < w.spawned && w.fetchers[fid].name != n {
      assert FetcherOk(w, fid);
    }
    forall fid | fid in w'.fetchers ensures FetcherOk(w', fid) {
      if fid != w.spawned {
        FetcherFrame(w, w', fid);
      }
    }
  }

  lemma RequestKeepsInv(w: World, id: nat, name: Option<string>, onDisk: bool, stream: seq<UpdateInfo>)
    requires Inv(w) && Enabled(w, Request(id, name, onDisk, stream))
    ensures Inv(AfterRequest(w, id, name, onDisk, stream))
  {
    var w' := AfterRequest(w, id, name, onDisk, stream);
    if w.shuttingDown {
      var u := Update(NO_PROGRESS, Some(ShuttingDown), "", false);
      AnswerEffect(w, id, name, u);
      AnswerCore(w, w', id, name, u);
    } else if name.None? {
      var u := Update(NO_PROGRESS, None, "", false);
      AnswerEffect(w, id, name, u);
      AnswerCore(w, w', id, name, u);
    } else {
      var n := name.value;
      if Fetching(w, n) {
        JoinCore(w, id, n);
      } else if n in w.files && onDisk {
        assert FileOk(w, n);
        var u := Update(w.files[n].p, None, w.files[n].path, true);
        AnswerEffect(w, id, name, u);
        AnswerCore(w, w', id, name, u);
      } else {
        SpawnCore(w, w', id, n, stream);
      }
    }
  }

  /** The clients after `processUpdate`: each listener got its notice, nobody else noticed. */
  ghost predicate Notified(before: map<nat, Client>, after: map<nat, Client>, df: File, u: UpdateInfo, seen: set<nat>) {
    && after.Keys == before.Keys
    && forall id :: id in before ==>
         after[id] == if id in df.listeners then Replied(before[id], df, u, id in seen) else before[id]
  }

  lemma ProcessEffect(w: World, n: string, u: UpdateInfo, seen: set<nat>)
    requires n in w.files && Distinct(w.files[n].listeners) && !w.files[n].cancel.NoContext?
    requires forall l :: l in w.files[n].listeners ==>
               l in w.ch.clients && !w.ch.clients[l].closed && Listening(w.ch.clients[l].log)
    ensures var w' := ProcessUpdate(w, n, u, seen);
            && w' == w.(files := w.files[n := Processed(w.files[n], u, seen)], ch := w'.ch)
            && w'.ch.fault == w.ch.fault
            && Notified(w.ch.clients, w'.ch.clients, w.files[n].(p := u.p), u, seen)
  {
    var df := w.files[n].(p := u.p);
    DeliverAllEffect(w.ch, df, u, seen, df.listeners);
  }

  /** The world after one update of fetcher `fid`, before the shutdown check. */
  ghost predicate Updated(w: World, w': World, fid: nat, seen: set<nat>)
    requires fid in w.fetchers && w.fetchers[fid].pending != [] && w.fetchers[fid].name in w.files
  {
    var f := w.fetchers[fid];
    var u := f.pending[0];
    && w' == w.(files := w'.files, ch := w'.ch, fetchers := w'.fetchers) && w'.ch.fault == w.ch.fault
    && w'.fetchers == Receive(w, fid).fetchers
    && w'.files == (if u.err.Some? then w.files - {f.name} else w.files[f.name := Processed(w.files[f.name], u, seen)])
    && Notified(w.ch.clients, w'.ch.clients, w.files[f.name].(p := u.p), u, seen)
  }

  lemma UpdatedFetchers(w: World, w': World, fid: nat, seen: set<nat>)
    requires Core(w) && fid in w.fetchers && FetcherOk(w, fid) && Updated(w, w', fid, seen)
    ensures forall k :: k in w'.fetchers ==> FetcherOk(w', k)
    ensures forall k, m :: m != w.fetchers[fid].name ==> (Serves(w', k, m) <==> Serves(w, k, m))
    ensures fid in w'.fetchers <==> |w.fetchers[fid].pending| > 1
  {
    var f := w.fetchers[fid];
    forall k | k in w'.fetchers ensures FetcherOk(w', k) {
      assert FetcherOk(w, k);
      if k == fid {
        assert w'.fetchers[fid] == f.(pending := f.pending[1..]);
        forall other | Serves(w', other, f.name) ensures other == fid {
          assert Serves(w, other, f.name);
        }
      } else {
        assert Serves(w, k, w.fetchers[k].name);
        FetcherFrame(w, w', k);
      }
    }
  }

  lemma UpdatedFile(w: World, w': World, fid: nat, seen: set<nat>)
    requires Core(w) && fid in w.fetchers && FetcherOk(w, fid) && Updated(w, w', fid, seen)
    requires w.fetchers[fid].name in w'.files
    ensures FileOk(w', w.fetchers[fid].name)
  {
    var f := w.fetchers[fid];
    var n, u := f.name, f.pending[0];
    var df := w.files[n].(p := u.p);
    assert FileOk(w, n);
    SurvivorsDistinct(df, seen, df.listeners);
    forall l | l in w'.files[n].listeners ensures Waiting(w', l, n) {
      assert Waiting(w, l, n);
    }
    if !u.p.complete {
      assert Serves(w', fid, n);
    }
  }

  lemma RepliedOk(c: Client, df: File, u: UpdateInfo, cancelled: bool)
    requires forall i :: 0 <= i < |c.log| ==> Quiet(c.log[i])
    requires !df.p.complete ==> u.err.None?
    ensures var c' := Replied(c, df, u, cancelled);
            if c'.closed then Conversation(c'.log) else forall i :: 0 <= i < |c'.log| ==> Quiet(c'.log[i])
    ensures cancelled || df.p.complete ==> forall i :: 0 <= i < |c.log| ==> Replied(c, df, u, cancelled).log[i] == c.log[i]
  {}

  lemma UpdatedClients(w: World, w': World, fid: nat, seen: set<nat>)
    requires Core(w) && fid in w.fetchers && FetcherOk(w, fid) && Updated(w, w', fid, seen)
    ensures forall id :: id in w'.ch.clients ==> ClientOk(w', id)
  {
    var f := w.fetchers[fid];
    var n, u := f.name, f.pending[0];
    var df := w.files[n].(p := u.p);
    assert FileOk(w, n);
    forall id | id in w'.ch.clients ensures ClientOk(w', id) {
      assert ClientOk(w, id);
      if id in df.listeners {
        assert Waiting(w, id, n);
        RepliedOk(w.ch.clients[id], df, u, id in seen);
      }
    }
  }

  lemma UpdateCore(w: World, w': World, fid: nat, seen: set<nat>)
    requires Core(w) && fid in w.fetchers && FetcherOk(w, fid) && Updated(w, w', fid, seen)
    ensures Core(w')
  {
    var f := w.fetchers[fid];
    UpdatedFetchers(w, w', fid, seen);
    UpdatedClients(w, w', fid, seen);
    forall m | m in w'.files ensures FileOk(w', m) {
      if m == f.name {
        UpdatedFile(w, w', fid, seen);
      } else {
        assert FileOk(w, m);
        forall l | l in w.files[m].listeners ensures l !in w.files[f.name].listeners && l in w.ch.clients {
          assert Waiting(w, l, m);
          assert FileOk(w, f.name);
          assert l in w.files[f.name].listeners ==> Waiting(w, l, f.name);
        }
        FileFrame(w, w', m);
      }
    }
  }

  /** One delivery, as the record it produces before the shutdown check. */
  lemma DeliverEffect(w: World, fid: nat, seen: set<nat>)
    requires Core(w) && Enabled(w, Deliver(fid, seen))
    ensures FetcherOk(w, fid) && w.fetchers[fid].name in w.files
    ensures var w' := Absorb(Receive(w, fid), w.fetchers[fid].pending[0], seen);
            Updated(w, w', fid, seen) && Core(w')
  {
    var f := w.fetchers[fid];
    var n, u := f.name, f.pending[0];
    assert FetcherOk(w, fid) && FileOk(w, n);
    forall l | l in w.files[n].listeners
      ensures l in w.ch.clients && !w.ch.clients[l].closed && Listening(w.ch.clients[l].log)
    {
      assert Waiting(w, l, n);
      OpenListens(w, l);
    }
    var w0 := Receive(w, fid);
    ProcessEffect(w0, n, u, seen);
    var w' := Absorb(w0, u, seen);
    assert ProcessUpdate(w0, n, u, seen).files - {n} == w.files - {n};
    UpdateCore(w, w', fid, seen);
  }

  lemma DeliverKeepsInv(w: World, fid: nat, seen: set<nat>)
    requires Inv(w) && Enabled(w, Deliver(fid, seen))
    ensures Inv(Step(w, Deliver(fid, seen)))
  {
    DeliverEffect(w, fid, seen);
    var w' := Absorb(Receive(w, fid), w.fetchers[fid].pending[0], seen);
    if w.shuttingDown {
      CancelCore(w', true, !Active(w'));
      assert w'.(shuttingDown := true) == w';
    }
  }

  lemma StepKeepsInv(w: World, e: Event)
    requires Inv(w)
    ensures Inv(Step(w, e))
  {
    if Enabled(w, e) {
      match e
      case DoneSignal => DoneKeepsInv(w);
      case Request(id, name, onDisk, stream) => RequestKeepsInv(w, id, name, onDisk, stream);
      case Deliver(fid, seen) => DeliverKeepsInv(w, fid, seen);
    }
  }

  lemma {:induction false} RunKeepsInv(w: World, es: seq<Event>)
    requires Inv(w)
    ensures Inv(Run(w, es))
  {
    if es != [] {
      RunKeepsInv(w, es[..|es| - 1]);
      StepKeepsInv(Run(w, es[..|es| - 1]), es[|es| - 1]);
    }
  }
}
