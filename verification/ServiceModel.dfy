/** The service of ccvm/server.go and its callers in ccvm/api.go as a system of
    interleaved steps: the central select loop, one loop per instance, the
    goroutine that runs a creation, and any number of API calls.  A creation's
    request for a download is taken only while the download manager is in its
    loop; the manager leaves on the signal, without asking the service.

    Channels are explicit.  A transaction id is the index of its result channel
    in `chans`, an instance's id the index of its loop in `loops` (it names both
    the command channel and the close channel).  A send without room, a send or
    close on a closed channel, a close of a nil channel, the overwriting of a
    pending creation and the panic of `completeAction` set `fault`.
 */
module ServiceModel {
  import opened Wrappers
  import opened HostIPs

  const CAPACITY: nat := 256

  // ---------- result channels ----------

  /** What travels on a result channel; everything but a line of progress ends the conversation. */
  datatype Value = Line | Finished | Okay | Failed

  datatype Kind = Create | Delete | Other | List

  /** A buffered channel: all it ever carried, how much of that was received, and whether it is closed. */
  datatype Chan = Chan(kind: Kind, sent: seq<Value>, received: nat, closed: bool)

  predicate Room(c: Chan) {
    |c.sent| < c.received + CAPACITY
  }

  predicate Unread(c: Chan) {
    c.received < |c.sent|
  }

  /** Channels together with the record of anything that went wrong. */
  datatype Wires = Wires(chans: seq<Chan>, fault: bool)

  function Send(x: Wires, tx: nat, v: Value): Wires {
    if tx < |x.chans| && !x.chans[tx].closed && Room(x.chans[tx]) then
      x.(chans := x.chans[tx := x.chans[tx].(sent := x.chans[tx].sent + [v])])
    else x.(fault := true)
  }

  function Close(x: Wires, tx: nat): Wires {
    if tx < |x.chans| && !x.chans[tx].closed then
      x.(chans := x.chans[tx := x.chans[tx].(closed := true)])
    else x.(fault := true)
  }

  function Outcome(fails: bool): Value {
    if fails then Failed else Okay
  }

  // ---------- instance loops ----------

  /** A command and what the backend will make of it: progress lines and requests
      for downloads, in any order, then success or failure. */
  datatype Cmd = Cmd(kind: Kind, tx: nat, lines: nat, asks: nat, fails: bool)

  /** The goroutine of a creation; `createCh` is nil exactly when there is none. */
  datatype Worker = NoCreate | Working(tx: nat, lines: nat, asks: nat, fails: bool) | Returned(tx: nat, fails: bool)

  /** Where `instanceLoop` is: at its select, inside cmd.fn(), about to send the
      outcome of a creation, about to close a result channel, waiting for the
      creation after its loop, or gone.  `last` says the loop itself is over. */
  datatype LoopPc =
    | Ready
    | Executing(cmd: Cmd)
    | Reporting(tx: nat, fails: bool, last: bool)
    | Ending(tx: nat, dies: bool, last: bool)
    | Joining
    | Exited

  datatype Loop = Loop(
    pc: LoopPc, worker: Worker, deleted: bool,
    closeClosed: bool, inboxClosed: bool,
    addr: Address)

  /** The host address an instance runs on, and whether the service recorded it:
      an address given explicitly is not, the service records zero instead. */
  datatype Address = Address(ip: Word, recorded: bool)

  function FreshLoop(addr: Address): Loop {
    Loop(Ready, NoCreate, false, false, false, addr)
  }

  /** A command reaches a loop that is at its select. */
  function Accept(l: Loop, cmd: Cmd): Loop {
    if l.inboxClosed then l
    else if l.deleted || (!cmd.kind.Create? && !l.worker.NoCreate?) then
      l.(pc := Ending(cmd.tx, false, false))
    else if cmd.kind.Create? then
      l.(worker := Working(cmd.tx, cmd.lines, cmd.asks, cmd.fails))
    else
      l.(pc := Executing(cmd))
  }

  function AcceptWires(x: Wires, l: Loop, cmd: Cmd): Wires {
    if l.inboxClosed then x.(fault := true)
    else if l.deleted || (!cmd.kind.Create? && !l.worker.NoCreate?) then Send(x, cmd.tx, Failed)
    else x.(fault := x.fault || (cmd.kind.Create? && !l.worker.NoCreate?))
  }

  /** The steps an instance loop and its creation take on their own. */
  datatype Move = Execute | WorkerLine | WorkerAsk | WorkerReturn | TakeResult | Report | End | SeeClosed

  predicate CanMove(l: Loop, chans: seq<Chan>, m: Move) {
    match m
    case Execute => l.pc.Executing? && l.pc.cmd.tx < |chans| && Room(chans[l.pc.cmd.tx])
    case WorkerLine => l.worker.Working? && l.worker.lines > 0 && l.worker.tx < |chans| && Room(chans[l.worker.tx])
    case WorkerAsk => l.worker.Working? && l.worker.asks > 0
    case WorkerReturn => l.worker.Working? && l.worker.lines == 0 && l.worker.asks == 0
    case TakeResult => (l.pc.Ready? || l.pc.Joining?) && l.worker.Returned?
    case Report => l.pc.Reporting? && l.pc.tx < |chans| && Room(chans[l.pc.tx])
    case End => l.pc.Ending?
    case SeeClosed => l.pc.Ready? && l.inboxClosed
  }

  function MoveLoop(l: Loop, m: Move): Loop {
    match m
    case Execute => if l.pc.Executing? then l.(pc := Ending(l.pc.cmd.tx, l.pc.cmd.kind.Delete? && !l.pc.cmd.fails, false)) else l
    case WorkerLine => if l.worker.Working? && l.worker.lines > 0 then l.(worker := l.worker.(lines := l.worker.lines - 1)) else l
    case WorkerAsk => if l.worker.Working? && l.worker.asks > 0 then l.(worker := l.worker.(asks := l.worker.asks - 1)) else l
    case WorkerReturn => if l.worker.Working? then l.(worker := Returned(l.worker.tx, l.worker.fails)) else l
    case TakeResult => if l.worker.Returned? then l.(pc := Reporting(l.worker.tx, l.worker.fails, l.pc.Joining?), worker := NoCreate) else l
    case Report => if l.pc.Reporting? then l.(pc := Ending(l.pc.tx, l.pc.fails && !l.pc.last, l.pc.last)) else l
    case End =>
      if l.pc.Ending? then
        l.(pc := if l.pc.last then Exited else Ready,
           deleted := l.deleted || l.pc.dies,
           closeClosed := l.closeClosed || l.pc.dies)
      else l
    case SeeClosed => l.(pc := if l.worker.NoCreate? then Exited else Joining)
  }

  function MoveWires(x: Wires, l: Loop, m: Move): Wires {
    match m
    case Execute => if l.pc.Executing? then Send(x, l.pc.cmd.tx, Outcome(l.pc.cmd.fails)) else x
    case WorkerLine => if l.worker.Working? then Send(x, l.worker.tx, Line) else x
    case Report => if l.pc.Reporting? then Send(x, l.pc.tx, if l.pc.fails then Failed else Finished) else x
    case End =>
      if l.pc.Ending? then
        var y := Close(x, l.pc.tx);
        y.(fault := y.fault || (l.pc.dies && l.closeClosed))
      else x
    case _ => x
  }

  // ---------- callers ----------

  /** A Result call: `streaming` for CreateResult, which stops at a line of
      progress without completing the transaction. */
  datatype CallPc = Asking | Holding | Completing | CallOver

  datatype Caller = Caller(tx: nat, streaming: bool, pc: CallPc)

  // ---------- the service ----------

  datatype Timer = Stopped | Running | Expired

  datatype ServicePc =
    | Select
    | Sending(loop: nat, cmd: Cmd)
    | Draining(todo: set<nat>, current: Option<nat>)
    | Closing
    | Waiting
    | Gone

  datatype Service = Service(
    systemd: bool, mask: Word,
    transactions: set<nat>, cancelled: set<nat>, timer: Timer,
    hostIPs: set<Word>, instances: map<string, nat>, names: map<nat, string>, cases: seq<nat>,
    pc: ServicePc)

  /** The process around the service: whether the signal to stop has come, and
      whether the download manager is still in its loop. */
  datatype Process = Process(signalled: bool, manager: bool)

  datatype World = World(svc: Service, x: Wires, loops: seq<Loop>, callers: seq<Caller>, proc: Process)

  datatype Host = Auto | Explicit(ip: IP)

  /** A start request.  `generated` is what the name generator returned for an empty name. */
  datatype Request =
    | ReqCreate(name: string, validName: bool, generated: string, host: Host, lines: nat, asks: nat, fails: bool)
    | ReqCommand(kind: Kind, name: string, fails: bool)
    | ReqList

  ghost function OnlyKey(m: map<string, nat>): string
    requires |m| == 1
  {
    var k :| k in m;
    k
  }

  /** `getInstance`: an empty name means the only instance. */
  ghost function GetInstance(m: map<string, nat>, name: string): Option<string> {
    if name == "" then (if |m| == 1 then Some(OnlyKey(m)) else None)
    else if name in m then Some(name)
    else None
  }

  /** The service side of `startInstanceLoop`; the loop's own state is appended to `loops`. */
  function Register(s: Service, l: nat, name: string, flat: Word): Service {
    s.(instances := s.instances[name := l], names := s.names[l := name],
       hostIPs := s.hostIPs + {flat}, cases := s.cases + [l])
  }

  /** The address under which `create` registers an instance, and the one it will
      run on: for an explicit address the former is zero. */
  function Flat(s: Service, host: Host): Option<(Word, Address)>
    requires HostMask(s.mask)
  {
    match host
    case Auto =>
      var r := FreeIP(s.mask, s.hostIPs);
      if r.None? then None else Some((r.value, Address(r.value, true)))
    case Explicit(ip) =>
      var r := Flatten(ip);
      if r.None? || r.value in s.hostIPs then None else Some((0, Address(r.value, false)))
  }

  /** The name `create` will use, unless it refuses. */
  function NameFor(s: Service, r: Request): Option<string>
    requires r.ReqCreate?
  {
    if r.name == "" then Some(r.generated)
    else if !r.validName || r.name in s.instances then None
    else Some(r.name)
  }

  /** A request refused before it reaches an instance. */
  function Refuse(x: Wires, tx: nat, v: Value): Wires {
    Close(Send(x, tx, v), tx)
  }

  function KindOf(r: Request): Kind {
    match r
    case ReqCreate(_, _, _, _, _, _, _) => Create
    case ReqCommand(kind, _, _) => kind
    case ReqList => List
  }

  /** The part of a start action that precedes the action itself. */
  function Admit(w: World, kind: Kind): World {
    var tx := |w.x.chans|;
    w.(svc := w.svc.(transactions := w.svc.transactions + {tx}, timer := Stopped),
       x := w.x.(chans := w.x.chans + [Chan(kind, [], 0, false)]))
  }

  ghost function Act(w: World, r: Request, tx: nat): World
    requires HostMask(w.svc.mask)
  {
    var s := w.svc;
    match r
    case ReqList => w.(x := Refuse(w.x, tx, Okay))
    case ReqCommand(kind, name, fails) =>
      var n := GetInstance(s.instances, name);
      if n.None? || n.value !in s.instances then w.(x := Refuse(w.x, tx, Failed))
      else w.(svc := s.(pc := Sending(s.instances[n.value], Cmd(kind, tx, 0, 0, fails))))
    case ReqCreate(_, _, _, host, lines, asks, fails) =>
      var name := NameFor(s, r);
      var flat := Flat(s, host);
      if name.None? || flat.None? then w.(x := Refuse(w.x, tx, Failed))
      else
        var l := |w.loops|;
        w.(svc := Register(s, l, name.value, flat.value.0).(pc := Sending(l, Cmd(Create, tx, lines, asks, fails))),
           loops := w.loops + [FreshLoop(flat.value.1)])
  }

  function Without(s: seq<nat>, x: nat): seq<nat> {
    if s == [] then [] else if s[0] == x then s[1..] else [s[0]] + Without(s[1..], x)
  }

  /** An instance loop has closed its close channel. */
  function AfterDeath(w: World, l: nat): World {
    var s := w.svc;
    var name := if l in s.names then s.names[l] else "";
    var known := name in s.instances && s.instances[name] < |w.loops| && !w.loops[s.instances[name]].inboxClosed;
    w.(svc := s.(instances := s.instances - {name}, names := s.names - {l}, cases := Without(s.cases, l)),
       loops := if known then w.loops[s.instances[name] := w.loops[s.instances[name]].(inboxClosed := true)] else w.loops,
       x := w.x.(fault := w.x.fault || !known))
  }

  function CloseInbox(l: Loop, i: nat, open: map<string, nat>): Loop {
    if i in open.Values then l.(inboxClosed := true) else l
  }

  function CloseAll(w: World): World {
    w.(svc := w.svc.(pc := Waiting),
       loops := seq(|w.loops|, i requires 0 <= i < |w.loops| => CloseInbox(w.loops[i], i, w.svc.instances)),
       x := w.x.(fault := w.x.fault || exists i :: 0 <= i < |w.loops| && i in w.svc.instances.Values && w.loops[i].inboxClosed))
  }

  function AfterComplete(s: Service, tx: nat): Service {
    var rest := s.transactions - {tx};
    s.(transactions := rest,
       timer := if rest == {} && s.timer.Stopped? && s.systemd then Running else s.timer)
  }

  function Take(x: Wires, tx: nat): Wires
    requires tx < |x.chans|
  {
    x.(chans := x.chans[tx := x.chans[tx].(received := x.chans[tx].received + 1)])
  }

  // ---------- runs ----------

  datatype Event =
    | Start(r: Request)
    | CancelTx(id: nat)
    | Call(tx: nat, streaming: bool)
    | Ask(c: nat)
    | Receive(c: nat)
    | Complete(c: nat)
    | Abandon(c: nat)
    | TimerExpires
    | TimeOut
    | Death(l: nat)
    | Handover
    | Inner(l: nat, m: Move)
    | SignalComes
    | ManagerLeaves
    | DoneSignal
    | DrainPick(t: nat)
    | DrainReceive
    | DrainEnd
    | DrainOver
    | CloseInboxes
    | WaitEnd

  predicate Enabled(w: World, e: Event) {
    var s := w.svc;
    match e
    case Start(r) => s.pc.Select? && HostMask(s.mask) && (r.ReqCommand? ==> r.kind.Delete? || r.kind.Other?)
    case CancelTx(_) => s.pc.Select?
    case Call(_, _) => true
    case Ask(c) => s.pc.Select? && c < |w.callers| && w.callers[c].pc.Asking?
    case Receive(c) =>
      && c < |w.callers| && w.callers[c].pc.Holding? && w.callers[c].tx < |w.x.chans|
      && (Unread(w.x.chans[w.callers[c].tx]) || w.x.chans[w.callers[c].tx].closed)
    case Complete(c) => s.pc.Select? && c < |w.callers| && w.callers[c].pc.Completing?
    case Abandon(c) => c < |w.callers| && (w.callers[c].pc.Asking? || w.callers[c].pc.Completing?)
    case TimerExpires => s.timer.Running? && (s.pc.Select? || s.pc.Sending?)
    case TimeOut => s.pc.Select? && s.timer.Expired?
    case Death(l) => s.pc.Select? && l in s.cases && l < |w.loops| && w.loops[l].closeClosed
    case Handover => s.pc.Sending? && s.pc.loop < |w.loops| && (w.loops[s.pc.loop].pc.Ready? || w.loops[s.pc.loop].inboxClosed)
    case Inner(l, m) => l < |w.loops| && CanMove(w.loops[l], w.x.chans, m) && (m.WorkerAsk? ==> w.proc.manager)
    case SignalComes => !w.proc.signalled
    case ManagerLeaves => w.proc.manager && (w.proc.signalled || s.pc.Gone?)
    case DoneSignal => s.pc.Select? && w.proc.signalled
    case DrainPick(t) => s.pc.Draining? && s.pc.current.None? && t in s.pc.todo
    case DrainReceive => s.pc.Draining? && s.pc.current.Some? && s.pc.current.value < |w.x.chans| && Unread(w.x.chans[s.pc.current.value])
    case DrainEnd =>
      && s.pc.Draining? && s.pc.current.Some? && s.pc.current.value < |w.x.chans|
      && w.x.chans[s.pc.current.value].closed && !Unread(w.x.chans[s.pc.current.value])
    case DrainOver => s.pc.Draining? && s.pc.current.None? && s.pc.todo == {}
    case CloseInboxes => s.pc.Closing?
    case WaitEnd => s.pc.Waiting? && forall i :: 0 <= i < |w.loops| ==> w.loops[i].pc.Exited?
  }

  function AfterReceive(w: World, c: nat): World
    requires c < |w.callers| && w.callers[c].tx < |w.x.chans|
  {
    var k := w.callers[c];
    var ch := w.x.chans[k.tx];
    if Unread(ch) then
      w.(x := Take(w.x, k.tx),
         callers := w.callers[c := k.(pc := if k.streaming && ch.sent[ch.received].Line? then CallOver else Completing)])
    else
      w.(callers := w.callers[c := k.(pc := Completing)])
  }

  ghost function Step(w: World, e: Event): World {
    var s := w.svc;
    if !Enabled(w, e) then w
    else match e
      case Start(r) => Act(Admit(w, KindOf(r)), r, |w.x.chans|)
      case CancelTx(id) => if id in s.transactions then w.(svc := s.(cancelled := s.cancelled + {id})) else w
      case Call(tx, streaming) => w.(callers := w.callers + [Caller(tx, streaming, Asking)])
      case Ask(c) =>
        var k := w.callers[c];
        w.(callers := w.callers[c := k.(pc := if k.tx in s.transactions then Holding else CallOver)])
      case Receive(c) => AfterReceive(w, c)
      case Complete(c) =>
        var k := w.callers[c];
        w.(svc := AfterComplete(s, k.tx),
           x := w.x.(fault := w.x.fault || k.tx !in s.transactions),
           callers := w.callers[c := k.(pc := CallOver)])
      case Abandon(c) => w.(callers := w.callers[c := w.callers[c].(pc := CallOver)])
      case TimerExpires => w.(svc := s.(timer := Expired))
      case TimeOut => w.(svc := s.(pc := Closing))
      case Death(l) => AfterDeath(w, l)
      case Handover =>
        var l := w.loops[s.pc.loop];
        w.(svc := s.(pc := Select), loops := w.loops[s.pc.loop := Accept(l, s.pc.cmd)], x := AcceptWires(w.x, l, s.pc.cmd))
      case Inner(l, m) => w.(loops := w.loops[l := MoveLoop(w.loops[l], m)], x := MoveWires(w.x, w.loops[l], m))
      case SignalComes => w.(proc := w.proc.(signalled := true))
      case ManagerLeaves => w.(proc := w.proc.(manager := false))
      case DoneSignal => w.(svc := s.(pc := Draining(s.transactions, None), timer := Stopped))
      case DrainPick(t) => w.(svc := s.(pc := Draining(s.pc.todo - {t}, Some(t)), cancelled := s.cancelled + {t}))
      case DrainReceive => w.(x := Take(w.x, s.pc.current.value))
      case DrainEnd => w.(svc := s.(pc := Draining(s.pc.todo, None)))
      case DrainOver => w.(svc := s.(pc := Closing))
      case CloseInboxes => CloseAll(w)
      case WaitEnd => w.(svc := s.(pc := Gone))
  }

  ghost function Run(w: World, es: seq<Event>): World {
    if es == [] then w else Step(Run(w, es[..|es| - 1]), es[|es| - 1])
  }

  // ---------- the start of a run ----------

  /** An instance directory: its name and the address its saved state gives, if readable. */
  datatype Saved = Saved(name: string, ip: Option<IP>)

  function RestoreOne(w: World, d: Saved): World {
    if d.ip.None? || Flatten(d.ip.value).None? || Flatten(d.ip.value).value in w.svc.hostIPs then w
    else
      var flat := Flatten(d.ip.value).value;
      w.(svc := Register(w.svc, |w.loops|, d.name, flat), loops := w.loops + [FreshLoop(Address(flat, true))])
  }

  function RestoreAll(w: World, dirs: seq<Saved>): World {
    if dirs == [] then w else RestoreOne(RestoreAll(w, dirs[..|dirs| - 1]), dirs[|dirs| - 1])
  }

  function Empty(systemd: bool, uid: nat): World {
    World(Service(systemd, MaskFor(uid), {}, {}, Stopped, {}, map[], map[], [], Select), Wires([], false), [], [], Process(false, true))
  }

  /** Instance directories have different names. */
  ghost predicate Directories(dirs: seq<Saved>) {
    forall i, j :: 0 <= i < j < |dirs| ==> dirs[i].name != dirs[j].name
  }
}
