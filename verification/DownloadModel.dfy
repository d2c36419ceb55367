/** The download manager of ccvm/download.go as a step system over three
    parties: the manager (one goroutine that runs `start`), one fetcher
    goroutine per running download (`initiateDownload`) and the clients that
    run `downloadFile`.

    All channels are unbuffered.  A client's progress channel is the log of the
    updates it received and whether the channel is closed; whether the client is
    still receiving is a function of that log.  A send that nobody will receive,
    a send or close on a closed channel and a call of a nil `cancel` set `fault`.
 */
module DownloadModel {
  import opened Wrappers

  datatype Error = ShuttingDown | RequestCancelled | FetchFailed(reason: string)

  datatype Progress = Progress(downloadedMB: int, totalMB: int, complete: bool)

  const NO_PROGRESS := Progress(0, 0, false)

  /** downloadUpdate: manager to client. */
  datatype Update = Update(p: Progress, err: Option<Error>, path: string, alreadyDownloaded: bool)

  /** updateInfo: fetcher to manager. */
  datatype UpdateInfo = UpdateInfo(p: Progress, err: Option<Error>, name: string)

  /** The download's context: a cached file has none, and its `cancel` is nil. */
  datatype Cancel = NoContext | Live | Cancelled

  datatype File = File(p: Progress, listeners: seq<nat>, path: string, cancel: Cancel)

  /** An accepted request; `name` is None when its URL does not parse. */
  datatype Client = Client(name: Option<string>, log: seq<Update>, closed: bool)

  /** A live fetcher and the updates it has still to deliver. */
  datatype Fetcher = Fetcher(name: string, pending: seq<UpdateInfo>)

  /** The clients' channels, and whether any operation of the manager went wrong. */
  datatype Channels = Channels(clients: map<nat, Client>, fault: bool)

  datatype World = World(
    cacheDir: string,
    files: map<string, File>,
    shuttingDown: bool,
    exited: bool,
    ch: Channels,
    fetchers: map<nat, Fetcher>,
    spawned: nat)

  function PathOf(cacheDir: string, name: string): string {
    cacheDir + "/" + name
  }

  // ---------- clients ----------

  /** `downloadFile` stops after a first update that carries an error or
      `alreadyDownloaded`; otherwise it receives until the channel closes. */
  predicate Listening(log: seq<Update>) {
    log == [] || (log[0].err.None? && !log[0].alreadyDownloaded)
  }

  function Send(ch: Channels, id: nat, u: Update): Channels {
    if id in ch.clients && !ch.clients[id].closed && Listening(ch.clients[id].log) then
      var c := ch.clients[id];
      ch.(clients := ch.clients[id := c.(log := c.log + [u])])
    else
      ch.(fault := true)
  }

  function Close(ch: Channels, id: nat): Channels {
    if id in ch.clients && !ch.clients[id].closed then
      ch.(clients := ch.clients[id := ch.clients[id].(closed := true)])
    else
      ch.(fault := true)
  }

  // ---------- the manager ----------

  function ActiveNames(files: map<string, File>): set<string> {
    set n | n in files && files[n].listeners != []
  }

  predicate Active(w: World) {
    ActiveNames(w.files) != {}
  }

  predicate NilCancel(f: File) {
    f.listeners != [] && f.cancel.NoContext?
  }

  function CancelWanted(f: File): File {
    if f.listeners != [] && !f.cancel.NoContext? then f.(cancel := Cancelled) else f
  }

  /** What `activeDownloads` does besides counting: it cancels what it counts. */
  function CancelActive(w: World): World {
    w.(files := map n | n in w.files :: CancelWanted(w.files[n]),
       ch := w.ch.(fault := w.ch.fault || exists n :: n in w.files && NilCancel(w.files[n])))
  }

  /** The update a listener gets; `cancelled` is what the manager's check of its context said. */
  function Notice(df: File, u: UpdateInfo, cancelled: bool): Update {
    if cancelled then
      Update(df.p, if df.p.complete then None else Some(RequestCancelled), df.path, false)
    else
      Update(df.p, u.err, df.path, false)
  }

  function DeliverOne(ch: Channels, df: File, u: UpdateInfo, seen: set<nat>, l: nat): Channels {
    var sent := Send(ch, l, Notice(df, u, l in seen));
    if l in seen || df.p.complete then Close(sent, l) else sent
  }

  function DeliverAll(ch: Channels, df: File, u: UpdateInfo, seen: set<nat>, ls: seq<nat>): Channels {
    if ls == [] then ch
    else DeliverOne(DeliverAll(ch, df, u, seen, ls[..|ls| - 1]), df, u, seen, ls[|ls| - 1])
  }

  function Survivors(df: File, seen: set<nat>, ls: seq<nat>): (kept: seq<nat>)
    ensures forall l :: l in kept <==> l in ls && l !in seen && !df.p.complete
    ensures kept == [] <==> df.p.complete || forall l :: l in ls ==> l in seen
  {
    if ls == [] then []
    else
      var l := ls[|ls| - 1];
      Survivors(df, seen, ls[..|ls| - 1]) + (if l in seen || df.p.complete then [] else [l])
  }

  /** The entry `processUpdate` leaves behind. */
  function Processed(f: File, u: UpdateInfo, seen: set<nat>): File {
    var kept := Survivors(f.(p := u.p), seen, f.listeners);
    File(u.p, kept, f.path,
         if (kept == [] || u.p.complete) && !f.cancel.NoContext? then Cancelled else f.cancel)
  }

  function ProcessUpdate(w: World, name: string, u: UpdateInfo, seen: set<nat>): World
    requires name in w.files
  {
    var f := w.files[name];
    var f' := Processed(f, u, seen);
    var ch := DeliverAll(w.ch, f.(p := u.p), u, seen, f.listeners);
    w.(files := w.files[name := f'],
       ch := ch.(fault := ch.fault || ((f'.listeners == [] || u.p.complete) && f.cancel.NoContext?)))
  }

  function AfterDone(w: World): World {
    var w1 := CancelActive(w);
    if Active(w) then w1.(shuttingDown := true) else w1.(exited := true)
  }

  /** A new client is answered on the spot. */
  function Answer(w: World, id: nat, u: Update): World {
    w.(ch := Close(Send(w.ch, id, u), id))
  }

  function AfterRequest(w: World, id: nat, name: Option<string>, onDisk: bool, stream: seq<UpdateInfo>): World {
    var w := w.(ch := w.ch.(clients := w.ch.clients[id := Client(name, [], false)]));
    if w.shuttingDown then
      Answer(w, id, Update(NO_PROGRESS, Some(ShuttingDown), "", false))
    else if name.None? then
      Answer(w, id, Update(NO_PROGRESS, None, "", false))
    else
      var n := name.value;
      if n in w.files && !w.files[n].p.complete then
        w.(files := w.files[n := w.files[n].(listeners := w.files[n].listeners + [id])])
      else if n in w.files && onDisk then
        Answer(w, id, Update(w.files[n].p, None, w.files[n].path, true))
      else
        w.(files := w.files[n := File(NO_PROGRESS, [id], PathOf(w.cacheDir, n), Live)],
           fetchers := w.fetchers[w.spawned := Fetcher(n, stream)],
           spawned := w.spawned + 1)
  }

  /** The fetcher hands over its next update and is done after the last one. */
  function Receive(w: World, fid: nat): World
    requires fid in w.fetchers && w.fetchers[fid].pending != []
  {
    var f := w.fetchers[fid];
    w.(fetchers := if |f.pending| == 1 then w.fetchers - {fid}
                   else w.fetchers[fid := f.(pending := f.pending[1..])])
  }

  /** The update is passed on; a failed download is forgotten. */
  function Absorb(w: World, u: UpdateInfo, seen: set<nat>): World
    requires u.name in w.files
  {
    var w1 := ProcessUpdate(w, u.name, u, seen);
    if u.err.Some? then w1.(files := w1.files - {u.name}) else w1
  }

  /** While shutting down, the manager leaves its loop once nobody listens. */
  function CheckExit(w: World): World {
    if !w.shuttingDown then w
    else CancelActive(w).(exited := if Active(w) then w.exited else true)
  }

  function AfterUpdate(w: World, u: UpdateInfo, seen: set<nat>): World {
    if u.name !in w.files then w else CheckExit(Absorb(w, u, seen))
  }

  // ---------- runs ----------

  /** One iteration of the manager's select.  `onDisk` is what os.Stat said,
      `stream` what a new fetcher will deliver, `seen` the listeners whose
      context the manager found cancelled when it came to them. */
  datatype Event =
    | DoneSignal
    | Request(id: nat, name: Option<string>, onDisk: bool, stream: seq<UpdateInfo>)
    | Deliver(fid: nat, seen: set<nat>)

  /** What `initiateDownload` delivers: progress without errors, then one final update. */
  predicate Stream(name: string, s: seq<UpdateInfo>) {
    && s != []
    && (forall i :: 0 <= i < |s| ==> s[i].name == name && s[i].p.complete == (i == |s| - 1))
    && (forall i :: 0 <= i < |s| - 1 ==> s[i].err.None?)
  }

  predicate Enabled(w: World, e: Event) {
    && !w.exited
    && match e
       case DoneSignal => !w.shuttingDown
       case Request(id, name, _, stream) => id !in w.ch.clients && (name.Some? ==> Stream(name.value, stream))
       case Deliver(fid, _) => fid in w.fetchers && w.fetchers[fid].pending != []
  }

  function Step(w: World, e: Event): World {
    if !Enabled(w, e) then w
    else match e
      case DoneSignal => AfterDone(w)
      case Request(id, name, onDisk, stream) => AfterRequest(w, id, name, onDisk, stream)
      case Deliver(fid, seen) => AfterUpdate(Receive(w, fid), w.fetchers[fid].pending[0], seen)
  }

  function Run(w: World, es: seq<Event>): World {
    if es == [] then w else Step(Run(w, es[..|es| - 1]), es[|es| - 1])
  }

  /** After `setup`: only complete, cached files. */
  predicate Initial(w: World) {
    && !w.shuttingDown && !w.exited && !w.ch.fault
    && w.ch.clients == map[] && w.fetchers == map[] && w.spawned == 0
    && forall n :: n in w.files ==>
         w.files[n].p.complete && w.files[n].listeners == [] && w.files[n].path == PathOf(w.cacheDir, n)
  }
}
