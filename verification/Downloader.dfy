/** The code of ccvm/download.go in its own, imperative form: the manager as a
    class whose methods update its fields, the client and the fetcher as
    methods with the source's loops.  Each method is proved against
    DownloadModel; DownloadProofs and DownloadTheorems say what follows.
 */
module Downloader {
  import opened Wrappers
  import opened DownloadModel
  import opened DownloadProofs

  /** A file found in the cache directory. */
  datatype DirEntry = DirEntry(name: string, isDir: bool, size: nat)

  /** filepath.Ext(name) == ".part". */
  predicate IsPart(name: string) {
    |name| >= 5 && name[|name| - 5..] == ".part"
  }

  lemma PartMeans(name: string)
    ensures IsPart(name) <==> exists base: string :: name == base + ".part"
  {
    if IsPart(name) {
      assert name == name[..|name| - 5] + ".part";
    }
  }

  predicate Cacheable(e: DirEntry) {
    !e.isDir && !IsPart(e.name)
  }

  /** A complete file of as many whole megabytes, with nobody listening and nothing to cancel. */
  function CachedFile(cacheDir: string, e: DirEntry): File {
    File(Progress(e.size / 1000000, e.size / 1000000, true), [], PathOf(cacheDir, e.name), NoContext)
  }

  lemma Overwrite<K, V>(m: map<K, V>, k: K, a: V, b: V)
    ensures m[k := a][k := b] == m[k := b]
  {}

  class Manager {
    const cacheDir: string
    var files: map<string, File>
    var shuttingDown: bool
    var exited: bool
    var ch: Channels
    var fetchers: map<nat, Fetcher>
    var spawned: nat

    function State(): World
      reads this
    {
      World(cacheDir, files, shuttingDown, exited, ch, fetchers, spawned)
    }

    /** `setup`: the cached files, without directories and partial downloads. */
    constructor (cacheDir: string, entries: seq<DirEntry>)
      ensures Initial(State()) && this.cacheDir == cacheDir
      ensures forall n :: n in files <==> exists e :: e in entries && Cacheable(e) && e.name == n
      ensures forall n :: n in files ==> exists e :: e in entries && Cacheable(e) && e.name == n && files[n] == CachedFile(cacheDir, e)
    {
      this.cacheDir := cacheDir;
      files := map[];
      shuttingDown, exited := false, false;
      ch := Channels(map[], false);
      fetchers, spawned := map[], 0;
      new;
      for i := 0 to |entries|
        invariant Initial(State())
        invariant forall n :: n in files <==> exists e :: e in entries[..i] && Cacheable(e) && e.name == n
        invariant forall n :: n in files ==> exists e :: e in entries[..i] && Cacheable(e) && e.name == n && files[n] == CachedFile(cacheDir, e)
      {
        var e := entries[i];
        assert entries[..i + 1] == entries[..i] + [e];
        if !e.isDir && !IsPart(e.name) {
          var size := e.size / (1000 * 1000);
          files := files[e.name := File(Progress(size, size, true), [], PathOf(cacheDir, e.name), NoContext)];
        }
      }
      assert entries[..|entries|] == entries;
    }

    method SendTo(id: nat, u: Update)
      modifies this`ch
      ensures ch == Send(old(ch), id, u)
    {
      ch := Send(ch, id, u);
    }

    method CloseChannel(id: nat)
      modifies this`ch
      ensures ch == Close(old(ch), id)
    {
      ch := Close(ch, id);
    }

    /** Calling the context's cancel function; it is nil for a cached file. */
    method CancelContext(name: string)
      requires name in files
      modifies this`ch, this`files
      ensures files == if old(files[name]).cancel.NoContext? then old(files)
                       else old(files)[name := old(files[name]).(cancel := Cancelled)]
      ensures ch == old(ch).(fault := old(ch).fault || old(files[name]).cancel.NoContext?)
    {
      if files[name].cancel.NoContext? {
        ch := ch.(fault := true);
      } else {
        files := files[name := files[name].(cancel := Cancelled)];
      }
    }

    /** `activeDownloads`: in the map's arbitrary order, cancel and count. */
    method ActiveDownloads() returns (anyActive: bool)
      modifies this`ch, this`files
      ensures State() == CancelActive(old(State()))
      ensures anyActive == Active(old(State()))
    {
      var active := 0;
      var todo := files.Keys;
      ghost var before, ch0 := files, ch;
      while todo != {}
        invariant todo <= files.Keys == before.Keys
        invariant forall n :: n in before ==> files[n] == if n in todo then before[n] else CancelWanted(before[n])
        invariant ch == ch0.(fault := ch.fault)
        invariant ch.fault <==> ch0.fault || exists n :: n in before && n !in todo && NilCancel(before[n])
        invariant 0 <= active
        invariant active > 0 <==> exists n :: n in ActiveNames(before) && n !in todo
        decreases todo
      {
        var n :| n in todo;
        assert n in ActiveNames(before) <==> before[n].listeners != [];
        todo := todo - {n};
        if |files[n].listeners| > 0 {
          CancelContext(n);
          active := active + 1;
        }
      }
      assert files == map n | n in before :: CancelWanted(before[n]);
      anyActive := active > 0;
      assert Active(old(State())) <==> exists n :: n in ActiveNames(before);
    }

    /** `processUpdate`: every listener hears the update; the cancelled ones and,
        at the end of the download, all of them are then let go. */
    method ProcessOneUpdate(name: string, u: UpdateInfo, seen: set<nat>)
      requires name in files
      modifies this`ch, this`files
      ensures State() == ProcessUpdate(old(State()), name, u, seen)
    {
      var df := files[name].(p := u.p);
      files := files[name := df];
      var listeners := NotifyListeners(df, u, seen);
      files := files[name := df.(listeners := listeners)];
      if |listeners| == 0 || df.p.complete {
        CancelContext(name);
      }
      Overwrite(old(files), name, df, df.(listeners := listeners));
      Overwrite(old(files), name, df.(listeners := listeners), files[name]);
    }

    /** The loop over the listeners; it returns those that stay. */
    method NotifyListeners(df: File, u: UpdateInfo, seen: set<nat>) returns (listeners: seq<nat>)
      modifies this`ch
      ensures ch == DeliverAll(old(ch), df, u, seen, df.listeners)
      ensures listeners == Survivors(df, seen, df.listeners)
    {
      listeners := [];
      var i := 0;
      while i < |df.listeners|
        invariant 0 <= i <= |df.listeners|
        invariant ch == DeliverAll(old(ch), df, u, seen, df.listeners[..i])
        invariant listeners == Survivors(df, seen, df.listeners[..i])
      {
        var l := df.listeners[i];
        assert df.listeners[..i + 1][..i] == df.listeners[..i];
        if l in seen {
          SendTo(l, Update(df.p, if df.p.complete then None else Some(RequestCancelled), df.path, false));
          CloseChannel(l);
        } else {
          SendTo(l, Update(df.p, u.err, df.path, false));
          if df.p.complete {
            CloseChannel(l);
          } else {
            listeners := listeners + [l];
          }
        }
        i := i + 1;
      }
      assert df.listeners[..|df.listeners|] == df.listeners;
    }

    method OnDone()
      modifies this
      ensures State() == AfterDone(old(State()))
    {
      var active := ActiveDownloads();
      if !active {
        exited := true;
      } else {
        shuttingDown := true;
      }
    }

    method AnswerAndClose(id: nat, u: Update)
      modifies this`ch
      ensures State() == Answer(old(State()), id, u)
    {
      SendTo(id, u);
      CloseChannel(id);
    }

    method OnRequest(id: nat, name: Option<string>, onDisk: bool, stream: seq<UpdateInfo>)
      modifies this
      ensures State() == AfterRequest(old(State()), id, name, onDisk, stream)
    {
      ch := ch.(clients := ch.clients[id := Client(name, [], false)]);
      if shuttingDown {
        AnswerAndClose(id, Update(NO_PROGRESS, Some(ShuttingDown), "", false));
        return;
      }
      if name.None? {
        AnswerAndClose(id, Update(NO_PROGRESS, None, "", false));
        return;
      }
      var n := name.value;
      if n in files {
        if !files[n].p.complete {
          files := files[n := files[n].(listeners := files[n].listeners + [id])];
          return;
        }
        if onDisk {
          AnswerAndClose(id, Update(files[n].p, None, files[n].path, true));
          return;
        }
      }
      files := files[n := File(NO_PROGRESS, [id], PathOf(cacheDir, n), Live)];
      fetchers := fetchers[spawned := Fetcher(n, stream)];
      spawned := spawned + 1;
    }

    method OnUpdate(u: UpdateInfo, seen: set<nat>)
      modifies this
      ensures State() == AfterUpdate(old(State()), u, seen)
    {
      if u.name !in files {
        return;
      }
      ProcessOneUpdate(u.name, u, seen);
      if u.err.Some? {
        files := files - {u.name};
      }
      if shuttingDown {
        var active := ActiveDownloads();
        if !active {
          exited := true;
        }
      }
    }

    /** `start`: the select loop, under any schedule of what becomes ready. */
    method Start(schedule: seq<Event>)
      modifies this
      ensures State() == Run(old(State()), schedule)
    {
      var i := 0;
      while i < |schedule|
        invariant 0 <= i <= |schedule|
        invariant State() == Run(old(State()), schedule[..i])
      {
        assert schedule[..i + 1][..i] == schedule[..i];
        var e := schedule[i];
        if Enabled(State(), e) {
          match e
          case DoneSignal =>
            OnDone();
          case Request(id, name, onDisk, stream) =>
            OnRequest(id, name, onDisk, stream);
          case Deliver(fid, seen) =>
            var f := fetchers[fid];
            fetchers := if |f.pending| == 1 then fetchers - {fid}
                        else fetchers[fid := f.(pending := f.pending[1..])];
            OnUpdate(f.pending[0], seen);
        }
        i := i + 1;
      }
      assert schedule[..|schedule|] == schedule;
    }
  }

  /** The progress of the updates without an error, in order. */
  function Shown(log: seq<Update>): seq<Progress> {
    if log == [] then []
    else
      var last := log[|log| - 1];
      Shown(log[..|log| - 1]) + if last.err.None? then [last.p] else []
  }

  lemma ShownNext(log: seq<Update>, i: nat)
    requires i < |log|
    ensures Shown(log[..i + 1]) == Shown(log[..i]) + if log[i].err.None? then [log[i].p] else []
  {
    assert log[..i + 1][..i] == log[..i];
  }

  /** Calls of a progress callback, of which the first and only the first says so. */
  predicate Shows(calls: seq<(bool, Progress)>, shown: seq<Progress>) {
    |calls| == |shown| && forall i :: 0 <= i < |calls| ==> calls[i] == (i == 0, shown[i])
  }

  /** `downloadFile`.  Its request is sent to the manager without regard to any
      context: `taken` says whether the manager ever receives it, and if not, the
      call never returns.  Otherwise it runs over everything its channel carries
      before it is closed: the returned path and error, the progress callbacks, and
      how many updates it received.  It receives the whole conversation exactly when
      it was still listening after the first update, or there was no second one; then
      the callbacks carry the progress of every update without an error, in order. */
  method DownloadFile(taken: bool, log: seq<Update>)
    returns (returned: bool, path: string, err: Option<Error>, calls: seq<(bool, Progress)>, consumed: nat)
    ensures returned == taken
    ensures returned ==> (consumed == |log| <==> Listening(log) || |log| == 1)
    ensures returned && Conversation(log) ==>
              var last := log[|log| - 1];
              && consumed == |log|
              && err == last.err
              && path == (if last.err.None? then last.path else "")
    ensures Shows(calls, if !taken then [] else if log == [] then [NO_PROGRESS] else if Listening(log) then Shown(log) else [])
  {
    calls := [];
    consumed := 0;
    if !taken {
      return false, "", None, calls, consumed;
    }
    var d := Update(NO_PROGRESS, None, "", false);
    if |log| > 0 {
      d := log[0];
      consumed := 1;
    }
    if d.err.Some? {
      return true, "", d.err, calls, consumed;
    }
    if d.alreadyDownloaded {
      return true, d.path, None, calls, consumed;
    }
    calls := calls + [(true, d.p)];
    if log != [] {
      ShownNext(log, 0);
    }
    while consumed < |log|
      invariant consumed <= |log| && (log != [] ==> consumed > 0 && d == log[consumed - 1])
      invariant Shows(calls, if log == [] then [NO_PROGRESS] else Shown(log[..consumed])) && calls != []
    {
      ShownNext(log, consumed);
      d := log[consumed];
      consumed := consumed + 1;
      if d.err.None? {
        calls := calls + [(false, d.p)];
      }
    }
    assert log[..|log|] == log;
    if d.err.Some? {
      return true, "", d.err, calls, consumed;
    }
    return true, d.path, None, calls, consumed;
  }

  // ---------- the fetcher ----------

  function Sum(chunks: seq<nat>): nat {
    if chunks == [] then 0 else Sum(chunks[..|chunks| - 1]) + chunks[|chunks| - 1]
  }

  /** Ten-megabyte steps, strictly increasing, never ahead of the bytes read. */
  ghost predicate Reports(name: string, totalMB: int, downloaded: nat, updates: seq<UpdateInfo>) {
    && (forall i :: 0 <= i < |updates| ==>
          var u := updates[i];
          && u.name == name && u.err.None? && !u.p.complete && u.p.totalMB == totalMB
          && 0 < u.p.downloadedMB && u.p.downloadedMB % 10 == 0 && u.p.downloadedMB * 1000000 <= downloaded)
    && (forall i, j :: 0 <= i < j < |updates| ==> updates[i].p.downloadedMB < updates[j].p.downloadedMB)
    && (if updates == [] then downloaded < 10000000
        else downloaded < (updates[|updates| - 1].p.downloadedMB + 10) * 1000000)
  }

  /** What one read adds to the reports: something only when it passes a step. */
  function Report(name: string, totalMB: int, before: nat, after: nat): seq<UpdateInfo> {
    if after / 10000000 <= before / 10000000 then []
    else [UpdateInfo(Progress(after / 10000000 * 10, totalMB, false), None, name)]
  }

  /** progressReader: a running byte count that reports when it passes ten megabytes. */
  class ProgressReader {
    var downloaded: nat
    const totalMB: int
    const name: string

    constructor (totalMB: int, name: string)
      ensures downloaded == 0 && this.totalMB == totalMB && this.name == name
    {
      this.downloaded, this.totalMB, this.name := 0, totalMB, name;
    }

    method Read(read: nat) returns (sent: seq<UpdateInfo>)
      modifies this
      ensures downloaded == old(downloaded) + read
      ensures sent == Report(name, totalMB, old(downloaded), downloaded)
    {
      var oldMB := downloaded / 10000000;
      downloaded := downloaded + read;
      var newMB := downloaded / 10000000;
      sent := [];
      if newMB > oldMB {
        sent := [UpdateInfo(Progress(newMB * 10, totalMB, false), None, name)];
      }
    }
  }

  ghost predicate Tracks(name: string, totalMB: int, downloaded: nat, sent: seq<UpdateInfo>) {
    && Reports(name, totalMB, downloaded, sent)
    && (sent != [] ==> sent[|sent| - 1].p.downloadedMB == downloaded / 10000000 * 10)
  }

  lemma TracksStep(name: string, totalMB: int, before: nat, read: nat, sent: seq<UpdateInfo>)
    requires Tracks(name, totalMB, before, sent)
    ensures Tracks(name, totalMB, before + read, sent + Report(name, totalMB, before, before + read))
  {}

  function AllReports(name: string, totalMB: int, chunks: seq<nat>): seq<UpdateInfo> {
    if chunks == [] then []
    else
      var init := chunks[..|chunks| - 1];
      AllReports(name, totalMB, init) + Report(name, totalMB, Sum(init), Sum(chunks))
  }

  /** The reports of a whole transfer, however it was cut into reads. */
  lemma {:induction false} AllReportsTrack(name: string, totalMB: int, chunks: seq<nat>)
    ensures Tracks(name, totalMB, Sum(chunks), AllReports(name, totalMB, chunks))
  {
    if chunks != [] {
      var init := chunks[..|chunks| - 1];
      AllReportsTrack(name, totalMB, init);
      TracksStep(name, totalMB, Sum(init), chunks[|chunks| - 1], AllReports(name, totalMB, init));
    }
  }

  method CopyBody(name: string, totalMB: int, chunks: seq<nat>) returns (sent: seq<UpdateInfo>)
    ensures sent == AllReports(name, totalMB, chunks)
  {
    var pr := new ProgressReader(totalMB, name);
    sent := [];
    for i := 0 to |chunks|
      invariant pr.downloaded == Sum(chunks[..i])
      invariant pr.name == name && pr.totalMB == totalMB
      invariant sent == AllReports(name, totalMB, chunks[..i])
    {
      assert chunks[..i + 1][..i] == chunks[..i];
      var more := pr.Read(chunks[i]);
      sent := sent + more;
    }
    assert chunks[..|chunks|] == chunks;
  }

  /** `initiateDownload`: whatever the transfer does, what it sends is a stream of
      progress for its own name that ends in exactly one final update. */
  method InitiateDownload(name: string, connected: bool, totalMB: int, chunks: seq<nat>, err: Option<Error>)
    returns (sent: seq<UpdateInfo>)
    requires !connected ==> err.Some?
    ensures Stream(name, sent)
    ensures sent[|sent| - 1] == UpdateInfo(if err.Some? then Progress(0, 0, true) else Progress(totalMB, totalMB, true), err, name)
    ensures !connected ==> |sent| == 1
    ensures connected ==> |sent| >= 2 && sent[0] == UpdateInfo(Progress(0, totalMB, false), None, name)
                          && Tracks(name, totalMB, Sum(chunks), sent[1..|sent| - 1])
  {
    sent := [];
    if connected {
      sent := sent + [UpdateInfo(Progress(0, totalMB, false), None, name)];
      var copied := CopyBody(name, totalMB, chunks);
      AllReportsTrack(name, totalMB, chunks);
      sent := sent + copied;
    }
    var size := if err.Some? then 0 else totalMB;
    sent := sent + [UpdateInfo(Progress(size, size, true), err, name)];
  }
}
