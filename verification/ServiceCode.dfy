/** The code of the service (ccvm/server.go) in its own, imperative form: a class
    whose methods update its fields and drive the instance loops it started,
    proved against ServiceModel. */
module ServiceCode {
  import opened SeqFacts
  import opened Wrappers
  import opened HostIPs
  import opened Names
  import opened ServiceModel
  import opened ServiceInv
  import opened ServiceLedger
  import opened ServiceSteps
  import opened InstanceCode

  lemma OneKey(m: map<string, nat>, a: string, b: string)
    requires |m| == 1 && a in m && b in m
    ensures a == b
  {
    var rest := m.Keys - {a};
    assert |rest| == 0;
    assert b !in rest;
  }

  lemma {:induction false} WithoutAt(s: seq<nat>, i: nat)
    requires Distinct(s) && i < |s|
    ensures Without(s, s[i]) == s[..i] + s[i + 1..]
  {
    if i > 0 {
      var rest := s[1..];
      assert Distinct(rest) by {
        forall a, b | 0 <= a < b < |rest| ensures rest[a] != rest[b] {
          assert s[a + 1] != s[b + 1];
        }
      }
      WithoutAt(rest, i - 1);
      assert rest[i - 1] == s[i] != s[0];
      assert s[..i] == [s[0]] + rest[..i - 1];
      assert s[i + 1..] == rest[i..];
    } else {
      assert s[..0] + s[1..] == s[1..];
    }
  }

  /** The loops once every registered one has its command channel closed, but for the names in `todo`. */
  ghost function ClosedBut(w: World, todo: set<string>): (loops: seq<Loop>)
    ensures |loops| == |w.loops|
  {
    seq(|w.loops|, l requires 0 <= l < |w.loops| =>
      if l in w.svc.names && w.svc.names[l] !in todo then w.loops[l].(inboxClosed := true) else w.loops[l])
  }

  lemma ClosedButOneMore(w: World, todo: set<string>, name: string)
    requires Registry(w.svc) && Inboxes(w.svc, w.loops) && name in todo && todo <= w.svc.instances.Keys
    ensures var l := w.svc.instances[name];
            l < |w.loops| && ClosedBut(w, todo - {name}) == ClosedBut(w, todo)[l := ClosedBut(w, todo)[l].(inboxClosed := true)]
  {}

  /** Closing the command channel of every registered loop closes the last open ones. */
  lemma CloseAllIs(w: World)
    requires w.svc.pc.Closing? && Registry(w.svc) && Inboxes(w.svc, w.loops)
    ensures CloseAll(w) == w.(loops := ClosedBut(w, {}), svc := w.svc.(pc := Waiting))
    ensures forall l :: 0 <= l < |w.loops| ==> ClosedBut(w, {})[l] == w.loops[l].(inboxClosed := true)
  {}

  // ---------- schedules in which the generator chooses the names ----------

  /** The request with the name that was generated for it, if one was. */
  predicate SameRequest(r: Request, made: Request) {
    made == r || (r.ReqCreate? && made.ReqCreate? && r.name == "" && made == r.(generated := made.generated))
  }

  predicate Same(e: Event, done: Event) {
    done == e || (e.Start? && done.Start? && SameRequest(e.r, done.r))
  }

  predicate Fills(schedule: seq<Event>, done: seq<Event>) {
    |done| == |schedule| && forall i :: 0 <= i < |schedule| ==> Same(schedule[i], done[i])
  }

  /** Before every step there are fewer registered instances than names. */
  ghost predicate Roomy(w: World, es: seq<Event>, names: nat) {
    es == [] || (Roomy(w, es[..|es| - 1], names) && |ServiceModel.Run(w, es[..|es| - 1]).svc.instances| < names)
  }

  lemma {:induction false} RoomyAt(w: World, es: seq<Event>, i: nat, names: nat)
    requires i < |es| && Roomy(w, es, names)
    ensures |ServiceModel.Run(w, es[..i]).svc.instances| < names
  {
    var init := es[..|es| - 1];
    if i < |init| {
      RoomyAt(w, init, i, names);
      assert init[..i] == es[..i];
    }
  }

  lemma RoomAt(w: World, schedule: seq<Event>, i: nat, done: seq<Event>, names: nat)
    requires i < |schedule| && Fills(schedule[..i], done)
    requires forall es :: Fills(schedule, es) ==> Roomy(w, es, names)
    ensures |ServiceModel.Run(w, done).svc.instances| < names
  {
    var full := done + schedule[i..];
    assert forall k :: 0 <= k < |schedule| ==> Same(schedule[k], full[k]) by {
      assert forall k :: 0 <= k < i ==> schedule[..i][k] == schedule[k];
    }
    assert Fills(schedule, full);
    RoomyAt(w, full, i, names);
    assert full[..i] == done;
  }

  lemma FillsNext(schedule: seq<Event>, i: nat, before: seq<Event>, e: Event)
    requires i < |schedule| && Fills(schedule[..i], before) && Same(schedule[i], e)
    ensures Fills(schedule[..i + 1], before + [e])
  {}

  lemma FreeNext(w: World, before: seq<Event>, e: Event)
    requires FreeNames(w, before) && FreeName(ServiceModel.Run(w, before), e)
    ensures FreeNames(w, before + [e])
  {
    assert (before + [e])[..|before|] == before;
  }

  /** The loops' values, in order. */
  function Values(loops: seq<InstanceLoop>): (r: seq<Loop>)
    reads loops
    ensures |r| == |loops| && forall l :: 0 <= l < |loops| ==> r[l] == loops[l].Value()
  {
    seq(|loops|, l requires 0 <= l < |loops| reads loops => loops[l].Value())
  }

  /** The loops there were, and new objects. */
  twostate predicate Grown(before: seq<InstanceLoop>, new after: seq<InstanceLoop>) {
    forall i :: 0 <= i < |after| ==> after[i] in before || fresh(after[i])
  }

  class CcvmService {
    const systemd: bool
    const hostIPMask: Word
    const net: Network
    const names: NameGenerator
    var transactions: set<nat>
    var cancelled: set<nat>
    var shutdownTimer: Timer
    var hostIPs: set<Word>
    var instances: map<string, nat>
    var instanceChMap: map<nat, string>
    var cases: seq<nat>
    var pc: ServicePc
    var loops: seq<InstanceLoop>
    var callers: seq<Caller>
    var proc: Process

    function State(): World
      reads this, net, loops
    {
      World(Service(systemd, hostIPMask, transactions, cancelled, shutdownTimer, hostIPs, instances, instanceChMap, cases, pc),
            net.x, Values(loops), callers, proc)
    }

    /** Every loop is an object of its own, on the service's channels. */
    ghost predicate Separate()
      reads this, loops
    {
      && (forall i, j :: 0 <= i < j < |loops| ==> loops[i] != loops[j])
      && forall i :: 0 <= i < |loops| ==> loops[i].net == net
    }

    constructor (systemd: bool, uid: nat, names: NameGenerator)
      ensures State() == Empty(systemd, uid) && fresh(net) && Separate() && this.names == names
    {
      this.systemd, this.names := systemd, names;
      hostIPMask := MaskFor(uid);
      net := new Network();
      transactions, cancelled, shutdownTimer := {}, {}, Stopped;
      hostIPs, instances, instanceChMap, cases := {}, map[], map[], [];
      pc, loops, callers := Select, [], [];
      proc := Process(false, true);
    }

    /** `startInstanceLoop`. */
    method StartInstanceLoop(name: string, flatIP: Word, addr: Address) returns (instanceCh: nat)
      requires Separate()
      modifies this
      ensures Separate() && instanceCh == |old(loops)|
      ensures |loops| == instanceCh + 1 && loops[..instanceCh] == old(loops) && fresh(loops[instanceCh])
      ensures State() == old(State()).(svc := Register(old(State()).svc, instanceCh, name, flatIP),
                                       loops := old(State()).loops + [FreshLoop(addr)])
    {
      instanceCh := |loops|;
      instances := instances[name := instanceCh];
      instanceChMap := instanceChMap[instanceCh := name];
      hostIPs := hostIPs + {flatIP};
      var loop := new InstanceLoop(net, addr);
      loops := loops + [loop];
      cases := cases + [instanceCh];
    }

    /** `findExistingInstances`: unreadable or clashing instances are skipped. */
    method FindExistingInstances(dirs: seq<Saved>)
      requires Separate()
      modifies this
      ensures Separate() && State() == RestoreAll(old(State()), dirs)
    {
      for i := 0 to |dirs|
        invariant Separate() && State() == RestoreAll(old(State()), dirs[..i])
      {
        assert dirs[..i + 1][..i] == dirs[..i];
        if dirs[i].ip.Some? {
          var flatIP := Flatten(dirs[i].ip.value);
          if flatIP.Some? && flatIP.value !in hostIPs {
            var _ := StartInstanceLoop(dirs[i].name, flatIP.value, Address(flatIP.value, true));
          }
        }
      }
      assert dirs[..|dirs|] == dirs;
    }

    /** `getInstance`: the name itself, or the only instance there is. */
    method FindInstance(name: string) returns (r: Option<string>)
      ensures r == GetInstance(instances, name)
      ensures name != "" ==> r == if name in instances then Some(name) else None
      ensures name == "" ==> (r.Some? <==> |instances| == 1)
      ensures r.Some? ==> r.value in instances
    {
      if name == "" {
        if |instances| == 0 || |instances| > 1 {
          return None;
        }
        assert |instances.Keys| == 1;
        var k :| k in instances;
        OneKey(instances, k, OnlyKey(instances));
        return Some(k);
      }
      if name !in instances {
        return None;
      }
      return Some(name);
    }

    method RefuseWith(resultCh: nat, v: Value)
      modifies net
      ensures net.x == Refuse(old(net.x), resultCh, v)
    {
      net.SendOn(resultCh, v);
      net.CloseOn(resultCh);
    }

    /** The name part of `create`: a generated name, or the one asked for. */
    method ChooseName(r: Request) returns (name: Option<string>, ghost made: Request)
      requires r.ReqCreate? && names.Valid()
      modifies names`counter
      ensures names.Valid() && SameRequest(r, made) && name == NameFor(State().svc, made)
      ensures r.name == "" && |instances| < names.MaxNames() ==> made.generated !in instances
    {
      if r.name == "" {
        var generated := names.NewInstanceName(instances.Keys);
        assert |instances.Keys| == |instances|;
        if |instances.Keys| < names.MaxNames() {
          names.SomeNameFree(instances.Keys);
        }
        return Some(generated), r.(generated := generated);
      }
      if !r.validName || r.name in instances {
        return None, r;
      }
      return Some(r.name), r;
    }

    /** The address part of `create`: what to record, and what the instance runs on. */
    method ChooseAddress(host: Host) returns (r: Option<(Word, Address)>)
      requires HostMask(hostIPMask)
      ensures r == Flat(State().svc, host)
    {
      var flatIP: Word := 0;
      if host.Auto? {
        var found := FindFreeIP(hostIPMask, hostIPs);
        if found.None? {
          return None;
        }
        flatIP := found.value.1;
        return Some((flatIP, Address(flatIP, true)));
      }
      // The source assigns to a shadowing variable here: flatIP stays zero.
      var shadow := Flatten(host.ip);
      if shadow.None? || shadow.value in hostIPs {
        return None;
      }
      return Some((flatIP, Address(shadow.value, false)));
    }

    /** `create`. */
    method Create(resultCh: nat, r: Request) returns (ghost made: Request)
      requires r.ReqCreate? && HostMask(hostIPMask) && Separate() && names.Valid()
      modifies this, net, names`counter
      ensures Separate() && Grown(old(loops), loops) && names.Valid()
      ensures SameRequest(r, made) && (r.name == "" && |old(instances)| < names.MaxNames() ==> made.generated !in old(instances))
      ensures State() == Act(old(State()), made, resultCh)
    {
      var name;
      name, made := ChooseName(r);
      CreateNamed(resultCh, r, name, made);
    }

    /** `create`, once the name is chosen. */
    method CreateNamed(resultCh: nat, r: Request, name: Option<string>, ghost made: Request)
      requires r.ReqCreate? && HostMask(hostIPMask) && Separate()
      requires SameRequest(r, made) && name == NameFor(State().svc, made)
      modifies this, net
      ensures Separate() && Grown(old(loops), loops)
      ensures State() == Act(old(State()), made, resultCh)
    {
      if name.None? {
        RefuseWith(resultCh, Failed);
        return;
      }
      var chosen := ChooseAddress(r.host);
      if chosen.None? {
        RefuseWith(resultCh, Failed);
        return;
      }
      var instanceCh := StartInstanceLoop(name.value, chosen.value.0, chosen.value.1);
      pc := Sending(instanceCh, Cmd(Kind.Create, resultCh, r.lines, r.asks, r.fails));
    }

    /** `stop`, `start`, `quit`, `status` and `delete`. */
    method Command(resultCh: nat, r: Request)
      requires r.ReqCommand? && HostMask(hostIPMask)
      modifies this, net
      ensures loops == old(loops)
      ensures State() == Act(old(State()), r, resultCh)
    {
      var instanceName := FindInstance(r.name);
      if instanceName.None? {
        RefuseWith(resultCh, Failed);
        return;
      }
      var instanceCh := instances[instanceName.value];
      pc := Sending(instanceCh, Cmd(r.kind, resultCh, 0, 0, r.fails));
    }

    method NewTransaction(kind: Kind) returns (id: nat)
      modifies this, net
      ensures loops == old(loops) && id == |old(net.x.chans)|
      ensures State() == Admit(old(State()), kind)
    {
      id := |net.x.chans|;
      net.x := net.x.(chans := net.x.chans + [Chan(kind, [], 0, false)]);
      transactions := transactions + {id};
      shutdownTimer := Stopped;
    }

    /** `processAction`, the start action: a new transaction, no idle timer, then the action. */
    method ProcessStart(r: Request) returns (ghost made: Request)
      requires Enabled(State(), Start(r)) && Separate() && names.Valid()
      modifies this, net, names`counter
      ensures Separate() && Grown(old(loops), loops) && names.Valid()
      ensures SameRequest(r, made) && (|old(instances)| < names.MaxNames() ==> FreeName(old(State()), Start(made)))
      ensures State() == Step(old(State()), Start(made))
    {
      made := r;
      var id := NewTransaction(KindOf(r));
      match r
      case ReqList => RefuseWith(id, Okay);
      case ReqCommand(_, _, _) => Command(id, r);
      case ReqCreate(_, _, _, _, _, _, _) => made := Create(id, r);
    }

    method ProcessCancel(id: nat)
      requires Enabled(State(), CancelTx(id))
      modifies this
      ensures loops == old(loops)
      ensures State() == Step(old(State()), CancelTx(id))
    {
      if id in transactions {
        cancelled := cancelled + {id};
      }
    }

    method ProcessGetResult(c: nat)
      requires Enabled(State(), Ask(c))
      modifies this
      ensures loops == old(loops)
      ensures State() == Step(old(State()), Ask(c))
    {
      if callers[c].tx !in transactions {
        callers := callers[c := callers[c].(pc := CallOver)];
      } else {
        callers := callers[c := callers[c].(pc := Holding)];
      }
    }

    method ProcessComplete(c: nat)
      requires Enabled(State(), Complete(c))
      modifies this, net
      ensures loops == old(loops)
      ensures State() == Step(old(State()), Complete(c))
    {
      var id := callers[c].tx;
      if id !in transactions {
        net.Wrong();
      }
      transactions := transactions - {id};
      if transactions == {} {
        if shutdownTimer.Stopped? && systemd {
          shutdownTimer := Timer.Running;
        }
      }
      callers := callers[c := callers[c].(pc := CallOver)];
    }

    /** The close of a map's entry, nil or closed as it may be. */
    method CloseNamed(name: string)
      requires Separate()
      modifies net, loops
      ensures var w := old(State());
              var known := name in instances && instances[name] < |loops| && !w.loops[instances[name]].inboxClosed;
              State() == w.(loops := if known then w.loops[instances[name] := w.loops[instances[name]].(inboxClosed := true)] else w.loops,
                            x := w.x.(fault := w.x.fault || !known))
    {
      if name in instances && instances[name] < |loops| && !loops[instances[name]].inboxClosed {
        CloseInboxOf(instances[name]);
      } else {
        net.Wrong();
      }
    }

    /** The default case of `run`: the close channel at `index` was closed. */
    method LoopHasDied(index: nat)
      requires index < |cases| && Enabled(State(), Death(cases[index])) && Distinct(cases) && Separate()
      modifies this, net, loops
      ensures loops == old(loops)
      ensures State() == Step(old(State()), Death(old(cases[index])))
    {
      var closeCh := cases[index];
      var name := if closeCh in instanceChMap then instanceChMap[closeCh] else "";
      CloseNamed(name);
      Forget(name, index);
    }

    /** Deleting an instance from the tables and its case from the list. */
    method Forget(name: string, index: nat)
      requires index < |cases| && Distinct(cases)
      modifies this
      ensures loops == old(loops)
      ensures var w, closeCh := old(State()), old(cases[index]);
              State() == w.(svc := w.svc.(instances := w.svc.instances - {name}, names := w.svc.names - {closeCh},
                                          cases := Without(w.svc.cases, closeCh)))
    {
      WithoutAt(cases, index);
      instances := instances - {name};
      instanceChMap := instanceChMap - {cases[index]};
      cases := cases[..index] + cases[index + 1..];
    }

    method CloseInboxOf(l: nat)
      requires l < |loops| && Separate()
      modifies loops
      ensures State() == old(State()).(loops := old(State()).loops[l := old(State()).loops[l].(inboxClosed := true)])
    {
      loops[l].CloseInbox();
    }

    /** The last loop of `run`: close the command channel of every instance. */
    method CloseInstances()
      requires pc.Closing? && Registry(State().svc) && Inboxes(State().svc, State().loops) && Separate()
      modifies this, loops
      ensures loops == old(loops)
      ensures State() == CloseAll(old(State()))
      ensures forall l :: 0 <= l < |loops| ==> loops[l].Value() == old(loops[l].Value()).(inboxClosed := true)
    {
      ghost var w := State();
      var todo := instances.Keys;
      assert Values(loops) == ClosedBut(w, todo);
      while todo != {}
        invariant todo <= instances.Keys && loops == old(loops)
        invariant State() == w.(loops := Values(loops)) && Values(loops) == ClosedBut(w, todo)
        decreases todo
      {
        var name :| name in todo;
        ClosedButOneMore(w, todo, name);
        todo := todo - {name};
        CloseInboxOf(instances[name]);
      }
      pc := Waiting;
      CloseAllIs(w);
    }

    /** The select loop is told to stop: every outstanding transaction is to be drained. */
    method BeginDrain()
      requires pc.Select? && proc.signalled
      modifies this
      ensures loops == old(loops)
      ensures State() == Step(old(State()), DoneSignal)
    {
      shutdownTimer := Stopped;
      pc := Draining(transactions, None);
    }

    /** The loop over the transactions: cancel one, receive until its channel is closed. */
    method DrainStep(e: Event)
      requires Enabled(State(), e) && (e.DrainPick? || e.DrainReceive? || e.DrainEnd? || e.DrainOver?)
      modifies this, net
      ensures loops == old(loops)
      ensures State() == Step(old(State()), e)
    {
      match e
      case DrainPick(t) =>
        cancelled := cancelled + {t};
        pc := Draining(pc.todo - {t}, Some(t));
      case DrainReceive =>
        net.x := Take(net.x, pc.current.value);
      case DrainEnd =>
        pc := Draining(pc.todo, None);
      case DrainOver =>
        pc := Closing;
    }

    /** The send of a command reaches the instance's loop. */
    method HandOver()
      requires Enabled(State(), Handover) && Separate()
      modifies this, net, loops
      ensures loops == old(loops)
      ensures State() == Step(old(State()), Handover)
    {
      var loop := loops[pc.loop];
      if loop.inboxClosed {
        net.Wrong();
      } else {
        loop.Receive(pc.cmd);
      }
      pc := Select;
    }

    /** An instance loop or its creation takes a step. */
    method LoopMoves(l: nat, m: Move)
      requires Enabled(State(), Inner(l, m)) && Separate()
      modifies net, loops
      ensures State() == Step(old(State()), Inner(l, m))
    {
      loops[l].Move(m);
    }

    /** The receive of a Result call. */
    method CallReceives(c: nat)
      requires Enabled(State(), Receive(c))
      modifies this, net
      ensures loops == old(loops)
      ensures State() == Step(old(State()), Receive(c))
    {
      var call := callers[c];
      var r := ReceiveOne(net.x.chans[call.tx], call.streaming);
      net.Received(call.tx, r.received);
      callers := callers[c := call.(pc := if r.complete then Completing else CallOver)];
    }

    /** A step of the callers, the clock or the process that involves no result channel. */
    method Elsewhere(e: Event)
      requires Enabled(State(), e) && (e.Call? || e.Abandon? || e.TimerExpires? || e.SignalComes? || e.ManagerLeaves?)
      modifies this
      ensures loops == old(loops)
      ensures State() == Step(old(State()), e)
    {
      match e
      case Call(tx, streaming) =>
        callers := callers + [Caller(tx, streaming, Asking)];
      case Abandon(c) =>
        callers := callers[c := callers[c].(pc := CallOver)];
      case TimerExpires =>
        shutdownTimer := Expired;
      case SignalComes =>
        proc := proc.(signalled := true);
      case ManagerLeaves =>
        proc := proc.(manager := false);
    }

    /** One iteration of the select loop. */
    method ServeOne(e: Event) returns (ghost done: Event)
      requires Enabled(State(), e) && (e.Start? || e.CancelTx? || e.Ask? || e.Complete? || e.TimeOut? || e.Death? || e.DoneSignal?)
      requires Distinct(cases) && Separate() && names.Valid()
      modifies this, net, loops, names`counter
      ensures Separate() && Grown(old(loops), loops) && names.Valid()
      ensures Same(e, done) && (|old(instances)| < names.MaxNames() ==> FreeName(old(State()), done))
      ensures State() == Step(old(State()), done)
    {
      done := e;
      match e
      case Start(r) =>
        ghost var made := ProcessStart(r);
        done := Start(made);
      case CancelTx(id) => ProcessCancel(id);
      case Ask(c) => ProcessGetResult(c);
      case Complete(c) => ProcessComplete(c);
      case Death(l) =>
        var index :| 0 <= index < |cases| && cases[index] == l;
        LoopHasDied(index);
      case DoneSignal => BeginDrain();
      case TimeOut => pc := Closing;
    }

    /** Whatever is possible next, if it is. */
    method OneStep(e: Event) returns (ghost done: Event)
      requires Registry(State().svc) && Inboxes(State().svc, State().loops) && Separate() && names.Valid()
      modifies this, net, loops, names`counter
      ensures Separate() && Grown(old(loops), loops) && names.Valid()
      ensures Same(e, done) && (|old(instances)| < names.MaxNames() ==> FreeName(old(State()), done))
      ensures State() == Step(old(State()), done)
    {
      done := e;
      if Enabled(State(), e) {
        if e.Start? || e.CancelTx? || e.Ask? || e.Complete? || e.TimeOut? || e.Death? || e.DoneSignal? {
          done := ServeOne(e);
        } else {
          OtherStep(e);
        }
      }
    }

    /** A step of the shutdown, or of somebody else. */
    method OtherStep(e: Event)
      requires Registry(State().svc) && Inboxes(State().svc, State().loops) && Separate() && Enabled(State(), e)
      requires !(e.Start? || e.CancelTx? || e.Ask? || e.Complete? || e.TimeOut? || e.Death? || e.DoneSignal?)
      modifies this, net, loops
      ensures loops == old(loops)
      ensures State() == Step(old(State()), e)
    {
      if e.DrainPick? || e.DrainReceive? || e.DrainEnd? || e.DrainOver? {
        DrainStep(e);
      } else if e.CloseInboxes? {
        CloseInstances();
      } else if e.WaitEnd? {
        pc := Gone;
      } else if e.Handover? {
        HandOver();
      } else if e.Inner? {
        LoopMoves(e.l, e.m);
      } else if e.Receive? {
        CallReceives(e.c);
      } else {
        Elsewhere(e);
      }
    }

    method Iterate(schedule: seq<Event>, i: nat, ghost w: World, ghost own: seq<Owner>, ghost before: seq<Event>) returns (ghost done: seq<Event>)
      requires Inv(w, own) && FreeNames(w, before) && i < |schedule| && Separate() && names.Valid()
      requires State() == ServiceModel.Run(w, before) && Fills(schedule[..i], before)
      requires |instances| < names.MaxNames()
      modifies this, net, loops, names`counter
      ensures Separate() && Grown(old(loops), loops) && names.Valid()
      ensures State() == ServiceModel.Run(w, done) && Fills(schedule[..i + 1], done) && FreeNames(w, done)
    {
      var _ := RunKeepsInv(w, own, before);
      ghost var e := OneStep(schedule[i]);
      done := before + [e];
      RunSnoc(w, before, e);
      FillsNext(schedule, i, before, e);
      FreeNext(w, before, e);
    }

    /** `run`, from the end of findExistingInstances, under any schedule of its own
        steps and everybody else's: service, name generator, loops, creations and
        Result calls each execute their own code.  While there are fewer instances
        than names, the run is one of the model with free generated names. */
    method Run(schedule: seq<Event>, ghost own: seq<Owner>) returns (ghost done: seq<Event>)
      requires Inv(State(), own) && Separate() && names.Valid()
      requires forall es :: Fills(schedule, es) ==> Roomy(State(), es, names.MaxNames())
      modifies this, net, loops, names`counter
      ensures Separate() && names.Valid()
      ensures Fills(schedule, done) && FreeNames(old(State()), done)
      ensures State() == ServiceModel.Run(old(State()), done)
    {
      ghost var w := State();
      done := [];
      for i := 0 to |schedule|
        invariant Separate() && Grown(old(loops), loops) && names.Valid()
        invariant State() == ServiceModel.Run(w, done) && Fills(schedule[..i], done) && FreeNames(w, done)
      {
        RoomAt(w, schedule, i, done, names.MaxNames());
        done := Iterate(schedule, i, w, own, done);
      }
      assert schedule[..|schedule|] == schedule;
    }
  }
}
