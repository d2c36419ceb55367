/** What the download manager does with each request, update and signal, in plain
    terms: over every run, without the functions the step system is made of. */
module DownloadAnswers {
  import opened Wrappers
  import opened DownloadModel
  import opened DownloadProofs
  import opened DownloadTheorems

  /** Client `id` has had exactly one update, and its channel is closed. */
  predicate Told(w: World, id: nat, u: Update) {
    id in w.ch.clients && w.ch.clients[id].closed && w.ch.clients[id].log == [u]
  }

  /** Nothing changed but for client `id`. */
  ghost predicate OnlyClient(w: World, w': World, id: nat) {
    && w'.files == w.files && w'.fetchers == w.fetchers && w'.shuttingDown == w.shuttingDown && w'.exited == w.exited
    && OthersKept(w, w', id)
  }

  ghost predicate OthersKept(w: World, w': World, id: nat) {
    forall k :: k in w.ch.clients && k != id ==> k in w'.ch.clients && w'.ch.clients[k] == w.ch.clients[k]
  }

  /** Client `id` waits and has heard nothing yet. */
  predicate Waits(w: World, id: nat) {
    id in w.ch.clients && !w.ch.clients[id].closed && w.ch.clients[id].log == []
  }

  predicate Unfetched(w: World, n: string, onDisk: bool) {
    n !in w.files || (w.files[n].p.complete && !onDisk)
  }

  /** A file that is not known, or was there once and is gone, is fetched; a file on
      disk is answered at once from the table; a file being fetched gets one more
      listener. */
  ghost predicate Handled(w: World, w': World, id: nat, n: string, onDisk: bool, stream: seq<UpdateInfo>) {
    && OthersKept(w, w', id)
    && (|w'.fetchers| == |w.fetchers| + 1 <==> Unfetched(w, n, onDisk))
    && (Unfetched(w, n, onDisk) ==>
          && w.spawned !in w.fetchers && w'.fetchers == w.fetchers[w.spawned := Fetcher(n, stream)]
          && w'.files == w.files[n := File(Progress(0, 0, false), [id], w.cacheDir + "/" + n, Live)]
          && Waits(w', id))
    && (n in w.files && w.files[n].p.complete && onDisk ==>
          Told(w', id, Update(w.files[n].p, None, w.cacheDir + "/" + n, true)) && OnlyClient(w, w', id))
    && (n in w.files && !w.files[n].p.complete ==>
          && w'.files == w.files[n := w.files[n].(listeners := w.files[n].listeners + [id])]
          && w'.fetchers == w.fetchers && Waits(w', id))
  }

  lemma RequestEffect(w: World, id: nat, n: string, onDisk: bool, stream: seq<UpdateInfo>)
    requires Inv(w) && Enabled(w, Request(id, Some(n), onDisk, stream)) && !w.shuttingDown
    ensures Handled(w, Step(w, Request(id, Some(n), onDisk, stream)), id, n, onDisk, stream)
  {
    assert n in w.files ==> FileOk(w, n);
    forall fid | fid in w.fetchers ensures fid < w.spawned {
      assert FetcherOk(w, fid);
    }
    assert Step(w, Request(id, Some(n), onDisk, stream)) == AfterRequest(w, id, Some(n), onDisk, stream);
  }

  lemma RequestAnswered(w0: World, es: seq<Event>, id: nat, n: string, onDisk: bool, stream: seq<UpdateInfo>)
    requires Initial(w0) && Enabled(Run(w0, es), Request(id, Some(n), onDisk, stream)) && !Run(w0, es).shuttingDown
    ensures Handled(Run(w0, es), Step(Run(w0, es), Request(id, Some(n), onDisk, stream)), id, n, onDisk, stream)
  {
    InitialInv(w0);
    RunKeepsInv(w0, es);
    RequestEffect(Run(w0, es), id, n, onDisk, stream);
  }

  /** While shutting down every request is refused; a URL that does not parse is
      answered with nothing, not even an error. */
  lemma RequestRefused(w: World, id: nat, name: Option<string>, onDisk: bool, stream: seq<UpdateInfo>)
    requires Enabled(w, Request(id, name, onDisk, stream)) && (w.shuttingDown || name.None?)
    ensures var w' := Step(w, Request(id, name, onDisk, stream));
            && Told(w', id, Update(Progress(0, 0, false), if w.shuttingDown then Some(ShuttingDown) else None, "", false))
            && OnlyClient(w, w', id)
  {}

  // ---------- one update of a fetch ----------

  /** What listener `id` is told: the progress and the file's path, with the error of
      the fetch or, if it was found cancelled, of its own cancellation; at the end of
      the fetch a cancelled listener gets no error. */
  predicate Heard(w: World, w': World, id: nat, u: UpdateInfo, cancelled: bool) {
    && id in w.ch.clients && id in w'.ch.clients
    && w'.ch.clients[id].name == w.ch.clients[id].name
    && w'.ch.clients[id].log == w.ch.clients[id].log
         + [Update(u.p, if !cancelled then u.err else if u.p.complete then None else Some(RequestCancelled), w.cacheDir + "/" + u.name, false)]
    && (w'.ch.clients[id].closed <==> cancelled || u.p.complete)
  }

  /** Every listener of the file hears of the update and nobody else does; the cancelled
      ones, and in the end all, are let go; a failed file is forgotten and any other
      has the update's progress; a fetch nobody listens to any more is cancelled. */
  lemma UpdateHeard(w0: World, es: seq<Event>, fid: nat, seen: set<nat>)
    requires Initial(w0) && Enabled(Run(w0, es), Deliver(fid, seen))
    ensures var w := Run(w0, es);
            var u := w.fetchers[fid].pending[0];
            var w' := Step(w, Deliver(fid, seen));
            && u.name in w.files
            && (forall id :: id in w.ch.clients ==>
                  if id in w.files[u.name].listeners then Heard(w, w', id, u, id in seen)
                  else id in w'.ch.clients && w'.ch.clients[id] == w.ch.clients[id])
            && Refiled(w, w', u, seen)
  {
    InitialInv(w0);
    RunKeepsInv(w0, es);
    HeardOf(Run(w0, es), fid, seen);
    FilesAfter(Run(w0, es), fid, seen);
  }

  ghost predicate Refiled(w: World, w': World, u: UpdateInfo, seen: set<nat>)
    requires u.name in w.files
  {
    && (u.name in w'.files <==> u.err.None?)
    && (u.name in w'.files ==>
          && w'.files[u.name].p == u.p && w'.files[u.name].path == w.cacheDir + "/" + u.name
          && (forall id :: id in w'.files[u.name].listeners <==> id in w.files[u.name].listeners && id !in seen && !u.p.complete)
          && (w'.files[u.name].listeners == [] ==> w'.files[u.name].cancel.Cancelled?))
    && (forall n :: n != u.name ==> (n in w'.files <==> n in w.files))
    && (forall n :: n != u.name && n in w.files ==>
          w'.files[n].p == w.files[n].p && w'.files[n].listeners == w.files[n].listeners && w'.files[n].path == w.files[n].path)
  }

  /** The check for the end of a shutdown only cancels. */
  lemma CheckKeeps(w: World)
    ensures var w' := CheckExit(w);
            && w'.files.Keys == w.files.Keys && w'.ch.clients == w.ch.clients
            && forall n :: n in w.files ==>
                 && w'.files[n].p == w.files[n].p && w'.files[n].listeners == w.files[n].listeners && w'.files[n].path == w.files[n].path
                 && (w.files[n].cancel.Cancelled? ==> w'.files[n].cancel.Cancelled?)
  {}

  lemma FilesAfter(w: World, fid: nat, seen: set<nat>)
    requires Inv(w) && Enabled(w, Deliver(fid, seen))
    ensures w.fetchers[fid].pending[0].name in w.files
    ensures Refiled(w, Step(w, Deliver(fid, seen)), w.fetchers[fid].pending[0], seen)
  {
    DeliverEffect(w, fid, seen);
    assert FetcherOk(w, fid) && FileOk(w, w.fetchers[fid].name);
    CheckKeeps(Absorb(Receive(w, fid), w.fetchers[fid].pending[0], seen));
  }

  lemma HeardOf(w: World, fid: nat, seen: set<nat>)
    requires Inv(w) && Enabled(w, Deliver(fid, seen))
    ensures var u := w.fetchers[fid].pending[0];
            var w' := Step(w, Deliver(fid, seen));
            && u.name == w.fetchers[fid].name && u.name in w.files
            && forall id :: id in w.ch.clients ==>
                 if id in w.files[u.name].listeners then Heard(w, w', id, u, id in seen)
                 else id in w'.ch.clients && w'.ch.clients[id] == w.ch.clients[id]
  {
    DeliverEffect(w, fid, seen);
    assert FetcherOk(w, fid);
    var n := w.fetchers[fid].name;
    assert FileOk(w, n);
    forall id | id in w.files[n].listeners ensures id in w.ch.clients {
      assert Waiting(w, id, n);
    }
  }

  // ---------- the signal ----------

  /** The manager stops for the signal only, and stops for it. */
  lemma {:induction false} StopsOnSignal(w: World, es: seq<Event>)
    requires Initial(w)
    ensures Run(w, es).shuttingDown || Run(w, es).exited <==> DoneSignal in es
  {
    if es != [] {
      var init, e := es[..|es| - 1], es[|es| - 1];
      assert es == init + [e];
      StopsOnSignal(w, init);
      InitialInv(w);
      RunKeepsInv(w, init);
      StopStep(Run(w, init), e);
    }
  }

  lemma StopStep(w: World, e: Event)
    requires Inv(w)
    ensures Step(w, e).shuttingDown || Step(w, e).exited <==> w.shuttingDown || w.exited || e.DoneSignal?
  {
    if Enabled(w, e) && e.Deliver? {
      DeliverEffect(w, e.fid, e.seen);
    }
  }
}
