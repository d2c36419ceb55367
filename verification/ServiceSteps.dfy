/** Every step keeps the protocol and the tables as long as generated names are
    free, and goes wrong only in the panic of `completeAction`. */
module ServiceSteps {
  import opened SeqFacts
  import opened HostIPs
  import opened ServiceModel
  import opened ServiceInv
  import opened ServiceLedger
  import opened ServiceLoops

  // ---------- callers ----------

  /** Those who owe answers do not look at what was received. */
  lemma TakeKeeps(pc: ServicePc, x: Wires, loops: seq<Loop>, own: seq<Owner>, tx: nat)
    requires Owners(pc, x.chans, loops, own) && tx < |x.chans|
    ensures Owners(pc, Take(x, tx).chans, loops, own) && GrowAll(x.chans, Take(x, tx).chans)
  {
    var chans' := Take(x, tx).chans;
    forall t | 0 <= t < |chans'| ensures OwnedOk(chans'[t], own[t], pc, loops, t) {
      assert OwnedOk(x.chans[t], own[t], pc, loops, t);
    }
  }

  lemma TakingKeepsInv(w: World, own: seq<Owner>, e: Event)
    requires Inv(w, own) && Enabled(w, e) && (e.Receive? || e.DrainReceive?)
    ensures var w' := Step(w, e);
            Inv(w', own) && w'.x.fault == w.x.fault && GrowAll(w.x.chans, w'.x.chans)
  {
    var tx := if e.Receive? then w.callers[e.c].tx else w.svc.pc.current.value;
    TakeKeeps(w.svc.pc, w.x, w.loops, own, tx);
  }

  // ---------- start actions ----------

  /** Appending a channel, possibly a loop, and its owner. */
  lemma OwnersAppend(w: World, own: seq<Owner>, pc: ServicePc, c: Chan, o: Owner, extra: seq<Loop>)
    requires Owners(w.svc.pc, w.x.chans, w.loops, own) && w.svc.pc.Select?
    requires OwnedOk(c, o, pc, w.loops + extra, |own|) && (o.Nobody? || o.TheService?)
    requires forall k :: k in extra ==> PcTx(k.pc).None? && WorkerTx(k.worker).None?
    requires if pc.Sending? then pc.cmd.tx == |own| && o.TheService? && !pc.cmd.kind.List? else pc.Select?
    ensures Owners(pc, w.x.chans + [c], w.loops + extra, own + [o])
  {}

  lemma RefuseEffect(x: Wires, kind: Kind, v: Value)
    requires !v.Line?
    ensures Refuse(x.(chans := x.chans + [Chan(kind, [], 0, false)]), |x.chans|, v)
         == x.(chans := x.chans + [Chan(kind, [v], 0, true)])
  {
    var tx := |x.chans|;
    var begun := x.chans + [Chan(kind, [], 0, false)];
    assert [] + [v] == [v];
    assert begun[tx := Chan(kind, [v], 0, false)][tx := Chan(kind, [v], 0, true)] == x.chans + [Chan(kind, [v], 0, true)];
  }

  /** A request that the service answers itself. */
  lemma RefuseKeepsInv(w: World, own: seq<Owner>, kind: Kind, v: Value)
    requires Inv(w, own) && w.svc.pc.Select? && !v.Line?
    ensures var w1 := Admit(w, kind);
            var x' := Refuse(w1.x, |w.x.chans|, v);
            Inv(w1.(x := x'), own + [Nobody]) && x'.fault == w.x.fault && GrowAll(w.x.chans, x'.chans)
  {
    RefuseEffect(w.x, kind, v);
    AppendNone(w.loops);
    OwnersAppend(w, own, Select, Chan(kind, [v], 0, true), Nobody, []);
  }

  lemma AppendNone(loops: seq<Loop>)
    ensures loops + [] == loops
  {}

  /** A command for an existing instance. */
  lemma CommandKeepsInv(w: World, own: seq<Owner>, n: string, kind: Kind, fails: bool)
    requires Inv(w, own) && w.svc.pc.Select? && n in w.svc.instances && (kind.Delete? || kind.Other?)
    ensures var w1 := Admit(w, kind);
            && Inv(w1.(svc := w1.svc.(pc := Sending(w.svc.instances[n], Cmd(kind, |w.x.chans|, 0, 0, fails)))), own + [TheService])
            && GrowAll(w.x.chans, w1.x.chans)
  {
    AppendNone(w.loops);
    OwnersAppend(w, own, Sending(w.svc.instances[n], Cmd(kind, |w.x.chans|, 0, 0, fails)), Chan(kind, [], 0, false), TheService, []);
  }

  lemma RegisterKeeps(s: Service, loops: seq<Loop>, name: string, flat: Word, addr: Address)
    requires Registry(s) && Inboxes(s, loops) && LoopsOk(loops) && s.pc.Select? && name !in s.instances
    ensures var s', loops' := Register(s, |loops|, name, flat), loops + [FreshLoop(addr)];
            Registry(s') && Inboxes(s', loops') && LoopsOk(loops')
  {
    RegisterRegistry(s, |loops|, name, flat);
    RegisterInboxes(s, loops, name, flat, addr);
  }

  lemma RegisterRegistry(s: Service, l: nat, name: string, flat: Word)
    requires Registry(s) && l !in s.names && name !in s.instances
    ensures Registry(Register(s, l, name, flat))
  {
    assert l !in s.cases;
  }

  lemma RegisterInboxes(s: Service, loops: seq<Loop>, name: string, flat: Word, addr: Address)
    requires Inboxes(s, loops) && s.pc.Select?
    ensures Inboxes(Register(s, |loops|, name, flat), loops + [FreshLoop(addr)])
  {}

  lemma CreateKeepsInv(w: World, own: seq<Owner>, name: string, flat: Word, addr: Address, lines: nat, asks: nat, fails: bool)
    requires Inv(w, own) && w.svc.pc.Select? && name !in w.svc.instances
    ensures var w1 := Admit(w, Create);
            var l := |w.loops|;
            && Inv(w1.(svc := Register(w1.svc, l, name, flat).(pc := Sending(l, Cmd(Create, |w.x.chans|, lines, asks, fails))),
                       loops := w.loops + [FreshLoop(addr)]),
                   own + [TheService])
            && GrowAll(w.x.chans, w1.x.chans)
  {
    var w1, l := Admit(w, Create), |w.loops|;
    var pc := Sending(l, Cmd(Create, |w.x.chans|, lines, asks, fails));
    RegisterKeeps(w1.svc, w.loops, name, flat, addr);
    OwnersAppend(w, own, pc, Chan(Create, [], 0, false), TheService, [FreshLoop(addr)]);
  }

  /** Who owes the answer to a new request. */
  ghost function StartOwner(w: World, r: Request): Owner
    requires HostMask(w.svc.mask)
  {
    if Act(Admit(w, KindOf(r)), r, |w.x.chans|).svc.pc.Sending? then TheService else Nobody
  }

  lemma StartCreateKeepsInv(w: World, own: seq<Owner>, r: Request)
    requires Inv(w, own) && Enabled(w, Start(r)) && FreeName(w, Start(r)) && r.ReqCreate?
    ensures var w' := Step(w, Start(r));
            Inv(w', own + [StartOwner(w, r)]) && w'.x.fault == w.x.fault && GrowAll(w.x.chans, w'.x.chans)
  {
    var name, flat := NameFor(w.svc, r), Flat(w.svc, r.host);
    assert Flat(Admit(w, Create).svc, r.host) == flat && NameFor(Admit(w, Create).svc, r) == name;
    if name.None? || flat.None? {
      RefuseKeepsInv(w, own, Create, Failed);
    } else {
      CreateKeepsInv(w, own, name.value, flat.value.0, flat.value.1, r.lines, r.asks, r.fails);
    }
  }

  lemma StartKeepsInv(w: World, own: seq<Owner>, r: Request)
    requires Inv(w, own) && Enabled(w, Start(r)) && FreeName(w, Start(r))
    ensures var w' := Step(w, Start(r));
            Inv(w', own + [StartOwner(w, r)]) && w'.x.fault == w.x.fault && GrowAll(w.x.chans, w'.x.chans)
  {
    match r
    case ReqList => RefuseKeepsInv(w, own, List, Okay);
    case ReqCommand(kind, name, fails) =>
      var n := GetInstance(w.svc.instances, name);
      if n.None? || n.value !in w.svc.instances {
        RefuseKeepsInv(w, own, kind, Failed);
      } else {
        CommandKeepsInv(w, own, n.value, kind, fails);
      }
    case ReqCreate(_, _, _, _, _, _, _) => StartCreateKeepsInv(w, own, r);
  }

  // ---------- the death of an instance loop ----------

  lemma {:induction false} WithoutKeeps(s: seq<nat>, x: nat)
    requires Distinct(s)
    ensures Distinct(Without(s, x))
    ensures forall y :: y in Without(s, x) <==> y in s && y != x
  {
    if s != [] {
      var rest := s[1..];
      assert forall i, j :: 0 <= i < j < |rest| ==> rest[i] == s[i + 1] && rest[j] == s[j + 1];
      WithoutKeeps(rest, x);
      assert s[0] !in rest;
      assert s == [s[0]] + rest;
    }
  }

  /** Closing a loop's command channel is invisible to those who owe answers. */
  lemma InboxOwners(pc: ServicePc, chans: seq<Chan>, loops: seq<Loop>, loops': seq<Loop>, own: seq<Owner>)
    requires Owners(pc, chans, loops, own) && |loops'| == |loops|
    requires forall l :: 0 <= l < |loops| ==> loops'[l].pc == loops[l].pc && loops'[l].worker == loops[l].worker
    ensures Owners(pc, chans, loops', own)
  {}

  lemma DeathRegistry(s: Service, l: nat)
    requires Registry(s) && l in s.names
    ensures var n := s.names[l];
            Registry(s.(instances := s.instances - {n}, names := s.names - {l}, cases := Without(s.cases, l)))
  {
    WithoutKeeps(s.cases, l);
  }

  lemma DeathBooks(s: Service, loops: seq<Loop>, l: nat)
    requires Registry(s) && Inboxes(s, loops) && LoopsOk(loops) && s.pc.Select?
    requires l in s.names && loops[l].deleted
    ensures var s' := s.(instances := s.instances - {s.names[l]}, names := s.names - {l}, cases := Without(s.cases, l));
            var loops' := loops[l := loops[l].(inboxClosed := true)];
            Inboxes(s', loops') && LoopsOk(loops')
  {
    assert LoopOk(loops[l]);
  }

  lemma DeathKeepsInv(w: World, own: seq<Owner>, l: nat)
    requires Inv(w, own) && Enabled(w, Death(l))
    ensures var w' := Step(w, Death(l));
            Inv(w', own) && w'.x == w.x
  {
    assert LoopOk(w.loops[l]);
    DeathRegistry(w.svc, l);
    DeathBooks(w.svc, w.loops, l);
    InboxOwners(w.svc.pc, w.x.chans, w.loops, w.loops[l := w.loops[l].(inboxClosed := true)], own);
  }

  // ---------- timer and shutdown ----------

  /** The service's program counter moves and no command is in the air. */
  lemma OwnersPc(pc: ServicePc, pc': ServicePc, chans: seq<Chan>, loops: seq<Loop>, own: seq<Owner>)
    requires Owners(pc, chans, loops, own) && !pc.Sending? && !pc'.Sending?
    ensures Owners(pc', chans, loops, own)
  {}

  /** At the end every command channel is closed, each of them once. */
  lemma CloseAllEffect(w: World, own: seq<Owner>)
    requires Inv(w, own) && w.svc.pc.Closing?
    ensures var w' := CloseAll(w);
            && |w'.loops| == |w.loops|
            && (forall l :: 0 <= l < |w.loops| ==> w'.loops[l] == w.loops[l].(inboxClosed := true))
            && w'.x == w.x
  {}

  lemma CloseInboxesKeepsInv(w: World, own: seq<Owner>)
    requires Inv(w, own) && Enabled(w, CloseInboxes)
    ensures Inv(Step(w, CloseInboxes), own) && Step(w, CloseInboxes).x == w.x
  {
    var w' := CloseAll(w);
    CloseAllEffect(w, own);
    OwnersPc(w.svc.pc, Waiting, w.x.chans, w.loops, own);
    InboxOwners(Waiting, w.x.chans, w.loops, w'.loops, own);
    forall l | 0 <= l < |w.loops| ensures LoopOk(w'.loops[l]) {
      assert LoopOk(w.loops[l]);
    }
  }

  /** Steps that move only callers, the timer, cancellations and the service's own
      program counter. */
  lemma QuietKeepsInv(w: World, own: seq<Owner>, s': Service, callers': seq<Caller>, proc': Process, fault': bool)
    requires Inv(w, own)
    requires s' == w.svc.(pc := s'.pc, timer := s'.timer, cancelled := s'.cancelled, transactions := s'.transactions)
    requires s'.pc == w.svc.pc || (!w.svc.pc.Sending? && !s'.pc.Sending? && InService(s'.pc) == InService(w.svc.pc))
    requires s'.pc.Gone? ==> forall l :: 0 <= l < |w.loops| ==> w.loops[l].pc.Exited?
    ensures Inv(w.(svc := s', callers := callers', proc := proc', x := w.x.(fault := fault')), own)
  {}

  lemma OtherKeepsInv(w: World, own: seq<Owner>, e: Event)
    requires Inv(w, own) && Enabled(w, e)
    requires !e.Start? && !e.Receive? && !e.Death? && !e.Handover? && !e.Inner? && !e.DrainReceive? && !e.CloseInboxes?
    ensures var w' := Step(w, e);
            && Inv(w', own) && w'.x.chans == w.x.chans
            && w'.x.fault == (w.x.fault || UnknownCompletion(w, e))
  {
    var w' := Step(w, e);
    assert w' == w.(svc := w'.svc, callers := w'.callers, proc := w'.proc, x := w.x.(fault := w'.x.fault));
    QuietKeepsInv(w, own, w'.svc, w'.callers, w'.proc, w'.x.fault);
  }

  // ---------- every step, every run ----------

  ghost function NextOwners(w: World, own: seq<Owner>, e: Event): seq<Owner>
    requires HostMask(w.svc.mask)
  {
    if !Enabled(w, e) then own
    else match e
      case Start(r) => own + [StartOwner(w, r)]
      case Handover => AcceptOwner(own, w.loops[w.svc.pc.loop], w.svc.pc.loop, w.svc.pc.cmd)
      case Inner(l, m) => MoveOwner(own, w.loops[l], l, m)
      case _ => own
  }

  /** The only fault a step can cause is the completion of an unknown id. */
  lemma StepKeepsInv(w: World, own: seq<Owner>, e: Event)
    requires Inv(w, own) && FreeName(w, e)
    ensures var w' := Step(w, e);
            && Inv(w', NextOwners(w, own, e))
            && w'.x.fault == (w.x.fault || UnknownCompletion(w, e))
            && GrowAll(w.x.chans, w'.x.chans)
  {
    if Enabled(w, e) {
      if e.Start? {
        StartKeepsInv(w, own, e.r);
      } else if e.Handover? {
        HandoverKeepsInv(w, own);
      } else if e.Inner? {
        InnerKeepsInv(w, own, e.l, e.m);
      } else {
        SameOwnersKeepInv(w, own, e);
      }
    }
  }

  lemma SameOwnersKeepInv(w: World, own: seq<Owner>, e: Event)
    requires Inv(w, own) && Enabled(w, e) && !e.Start? && !e.Handover? && !e.Inner?
    ensures var w' := Step(w, e);
            && Inv(w', own)
            && w'.x.fault == (w.x.fault || UnknownCompletion(w, e))
            && GrowAll(w.x.chans, w'.x.chans)
  {
    if e.Receive? || e.DrainReceive? {
      TakingKeepsInv(w, own, e);
    } else if e.Death? {
      DeathKeepsInv(w, own, e.l);
    } else if e.CloseInboxes? {
      CloseInboxesKeepsInv(w, own);
    } else {
      OtherKeepsInv(w, own, e);
    }
  }

  lemma {:induction false} RunKeepsInv(w: World, own: seq<Owner>, es: seq<Event>) returns (own': seq<Owner>)
    requires Inv(w, own) && FreeNames(w, es)
    ensures Inv(Run(w, es), own')
  {
    if es == [] {
      own' := own;
    } else {
      var init, e := es[..|es| - 1], es[|es| - 1];
      var mid := RunKeepsInv(w, own, init);
      StepKeepsInv(Run(w, init), mid, e);
      own' := NextOwners(Run(w, init), mid, e);
    }
  }
}
