/** What the service does with each request, in plain terms: to whom a command goes,
    when a creation is accepted and under which name and address, which instances
    are restored, what a Result call gets, and what is cancelled. */
module ServiceRequests {
  import opened Wrappers
  import opened HostIPs
  import opened ServiceModel
  import opened ServiceInv
  import opened ServiceLedger
  import opened ServiceSteps
  import opened ServiceTheorems

  // ---------- commands ----------

  /** Answered on the spot with `v`; no instance and no loop is touched. */
  ghost predicate AnsweredAtOnce(w: World, w': World, kind: Kind, v: Value) {
    && w'.x == w.x.(chans := w.x.chans + [Chan(kind, [v], 0, true)])
    && w'.loops == w.loops && w'.svc.pc.Select?
    && w'.svc.instances == w.svc.instances && w'.svc.names == w.svc.names && w'.svc.hostIPs == w.svc.hostIPs
    && w'.svc.transactions == w.svc.transactions + {|w.x.chans|}
  }

  /** On its way to the instance whose loop is `l`; nobody is answered yet. */
  ghost predicate SentTo(w: World, w': World, l: nat, cmd: Cmd) {
    && w'.svc.pc == Sending(l, cmd) && cmd.tx == |w.x.chans|
    && w'.x == w.x.(chans := w.x.chans + [Chan(cmd.kind, [], 0, false)])
    && w'.svc.transactions == w.svc.transactions + {|w.x.chans|}
  }

  /** A named command goes to the instance of that name, if there is one, and to nobody
      else; a command without a name goes to the only instance, if there is just one. */
  lemma CommandGoes(w: World, kind: Kind, name: string, fails: bool)
    requires Enabled(w, Start(ReqCommand(kind, name, fails)))
    ensures var w' := Step(w, Start(ReqCommand(kind, name, fails)));
            var cmd := Cmd(kind, |w.x.chans|, 0, 0, fails);
            && (name != "" && name in w.svc.instances ==> SentTo(w, w', w.svc.instances[name], cmd) && w'.loops == w.loops)
            && (name != "" && name !in w.svc.instances ==> AnsweredAtOnce(w, w', kind, Failed))
            && (name == "" && |w.svc.instances| != 1 ==> AnsweredAtOnce(w, w', kind, Failed))
            && (name == "" && |w.svc.instances| == 1 ==>
                  exists n :: n in w.svc.instances && SentTo(w, w', w.svc.instances[n], cmd) && w'.loops == w.loops)
  {
    RefuseEffect(w.x, kind, Failed);
    if name == "" && |w.svc.instances| == 1 {
      assert OnlyKey(w.svc.instances) in w.svc.instances;
    }
  }

  lemma ListAnswered(w: World)
    requires Enabled(w, Start(ReqList))
    ensures AnsweredAtOnce(w, Step(w, Start(ReqList)), List, Okay)
  {
    RefuseEffect(w.x, List, Okay);
  }

  // ---------- creations ----------

  predicate NameAccepted(w: World, r: Request)
    requires r.ReqCreate?
  {
    r.name == "" || (r.validName && r.name !in w.svc.instances)
  }

  /** The address is given, or the least free one of the block. */
  ghost predicate AddressAccepted(w: World, host: Host, ip: Word)
    requires HostMask(w.svc.mask)
  {
    && ip !in w.svc.hostIPs
    && match host
       case Explicit(given) => Flatten(given) == Some(ip)
       case Auto => InBlock(w.svc.mask, ip) && forall a: Word :: InBlock(w.svc.mask, a) && a < ip ==> a in w.svc.hostIPs
  }

  /** A creation is accepted if and only if its name is generated, or valid and new, and
      its address is free.  Then a fresh loop is registered under that name, and an
      allocated address is taken, but for a given one only zero. */
  lemma CreationGoes(w: World, r: Request)
    requires Enabled(w, Start(r)) && r.ReqCreate?
    ensures var w' := Step(w, Start(r));
            && (!(NameAccepted(w, r) && exists ip: Word :: AddressAccepted(w, r.host, ip)) ==> AnsweredAtOnce(w, w', Create, Failed))
            && forall ip: Word :: NameAccepted(w, r) && AddressAccepted(w, r.host, ip) ==>
                 var name := if r.name == "" then r.generated else r.name;
                 && SentTo(w, w', |w.loops|, Cmd(Create, |w.x.chans|, r.lines, r.asks, r.fails))
                 && w'.loops == w.loops + [Loop(Ready, NoCreate, false, false, false, Address(ip, r.host.Auto?))]
                 && w'.svc.instances == w.svc.instances[name := |w.loops|]
                 && w'.svc.names == w.svc.names[|w.loops| := name]
                 && w'.svc.hostIPs == w.svc.hostIPs + {if r.host.Auto? then ip else 0}
  {
    var s1 := Admit(w, Create).svc;
    assert Flat(s1, r.host) == Flat(w.svc, r.host) && NameFor(s1, r) == NameFor(w.svc, r);
    RefuseEffect(w.x, Create, Failed);
    AddressChosen(w, r.host);
  }

  lemma AddressChosen(w: World, host: Host)
    requires HostMask(w.svc.mask)
    ensures Flat(w.svc, host).None? <==> forall ip: Word :: !AddressAccepted(w, host, ip)
    ensures forall ip: Word :: AddressAccepted(w, host, ip) ==>
              Flat(w.svc, host) == Some((if host.Auto? then ip else 0, Address(ip, host.Auto?)))
  {
    FreeIPLeast(w.svc.mask, w.svc.hostIPs);
    if host.Auto? && FreeIP(w.svc.mask, w.svc.hostIPs).Some? {
      assert AddressAccepted(w, host, FreeIP(w.svc.mask, w.svc.hostIPs).value);
    }
    if host.Explicit? && Flat(w.svc, host).Some? {
      assert AddressAccepted(w, host, Flatten(host.ip).value);
    }
  }

  // ---------- restoring ----------

  /** Directory `i` has a readable address that no earlier one has. */
  predicate FirstWithAddress(dirs: seq<Saved>, i: nat) {
    && i < |dirs| && dirs[i].ip.Some? && dirs[i].ip.value.IPv4?
    && forall j :: 0 <= j < i ==> dirs[j].ip != dirs[i].ip
  }

  ghost predicate RestoredUnder(dirs: seq<Saved>, n: string) {
    exists i :: 0 <= i < |dirs| && FirstWithAddress(dirs, i) && dirs[i].name == n
  }

  ghost predicate HasAddress(dirs: seq<Saved>, a: Word) {
    exists i :: 0 <= i < |dirs| && dirs[i].ip.Some? && Flatten(dirs[i].ip.value) == Some(a)
  }

  lemma UnderLast(dirs: seq<Saved>, n: string)
    requires dirs != []
    ensures var k := |dirs| - 1;
            RestoredUnder(dirs, n) <==> RestoredUnder(dirs[..k], n) || (FirstWithAddress(dirs, k) && dirs[k].name == n)
  {
    var k := |dirs| - 1;
    var init := dirs[..k];
    assert forall i :: 0 <= i < k ==> init[i] == dirs[i] && (FirstWithAddress(init, i) <==> FirstWithAddress(dirs, i));
    if i :| 0 <= i < |init| && FirstWithAddress(init, i) && init[i].name == n {
      assert FirstWithAddress(dirs, i) && dirs[i].name == n;
    }
  }

  lemma AddressLast(dirs: seq<Saved>, a: Word)
    requires dirs != []
    ensures var k := |dirs| - 1;
            HasAddress(dirs, a) <==> HasAddress(dirs[..k], a) || (dirs[k].ip.Some? && Flatten(dirs[k].ip.value) == Some(a))
  {
    var init := dirs[..|dirs| - 1];
    if i :| 0 <= i < |init| && init[i].ip.Some? && Flatten(init[i].ip.value) == Some(a) {
      assert dirs[i].ip.Some? && Flatten(dirs[i].ip.value) == Some(a);
    }
  }

  /** The last directory is the first with its address if no other has it. */
  lemma LastIsFirst(dirs: seq<Saved>)
    requires dirs != []
    ensures var d := dirs[|dirs| - 1];
            FirstWithAddress(dirs, |dirs| - 1) <==>
              d.ip.Some? && Flatten(d.ip.value).Some? && !HasAddress(dirs[..|dirs| - 1], Flatten(d.ip.value).value)
  {
    var d, init := dirs[|dirs| - 1], dirs[..|dirs| - 1];
    if d.ip.Some? && d.ip.value.IPv4? {
      var a := Flatten(d.ip.value).value;
      if i :| 0 <= i < |init| && init[i].ip.Some? && Flatten(init[i].ip.value) == Some(a) {
        SplitFlatten(init[i].ip.value);
        SplitFlatten(d.ip.value);
        assert dirs[i].ip == d.ip;
      }
      if j :| 0 <= j < |init| && dirs[j].ip == d.ip {
        assert init[j].ip.Some? && Flatten(init[j].ip.value) == Some(a);
      }
    }
  }

  /** Exactly the directories with a readable address that no earlier one has are
      restored as instances, and exactly the readable addresses are taken. */
  lemma {:induction false} RestoredExactly(systemd: bool, uid: nat, dirs: seq<Saved>)
    ensures var s := Begin(systemd, uid, dirs).svc;
            (forall n :: n in s.instances <==> RestoredUnder(dirs, n)) && (forall a :: a in s.hostIPs <==> HasAddress(dirs, a))
  {
    if dirs != [] {
      RestoredExactly(systemd, uid, dirs[..|dirs| - 1]);
      LastIsFirst(dirs);
      forall n ensures n in Begin(systemd, uid, dirs).svc.instances <==> RestoredUnder(dirs, n) {
        UnderLast(dirs, n);
      }
      forall a ensures a in Begin(systemd, uid, dirs).svc.hostIPs <==> HasAddress(dirs, a) {
        AddressLast(dirs, a);
      }
    }
  }

  // ---------- Result calls ----------

  /** A call for an id that is not known ends at once and changes nothing. */
  lemma UnknownCallEnds(w: World, tx: nat, streaming: bool)
    requires w.svc.pc.Select? && tx !in w.svc.transactions
    ensures Step(Step(w, Call(tx, streaming)), Ask(|w.callers|)) == w.(callers := w.callers + [Caller(tx, streaming, CallOver)])
  {}

  /** A call for a known id, once there is something to receive, takes one value, or
      finds the channel closed and empty; and unless it is CreateResult and the value
      a line of progress, it completes the transaction. */
  lemma KnownCallReturns(w: World, tx: nat, streaming: bool)
    requires w.svc.pc.Select? && tx in w.svc.transactions && tx < |w.x.chans| && (Unread(w.x.chans[tx]) || w.x.chans[tx].closed)
    ensures var c, ch := |w.callers|, w.x.chans[tx];
            var w1 := Step(Step(Step(w, Call(tx, streaming)), Ask(c)), Receive(c));
            var line := Unread(ch) && streaming && ch.sent[ch.received].Line?;
            && w1.svc == w.svc && w1.loops == w.loops && w1.x.fault == w.x.fault
            && w1.x.chans == w.x.chans[tx := ch.(received := ch.received + if Unread(ch) then 1 else 0)]
            && w1.callers == w.callers + [Caller(tx, streaming, if line then CallOver else Completing)]
            && (!line ==>
                  var w2 := Step(w1, Complete(c));
                  && w2.svc.transactions == w.svc.transactions - {tx} && w2.x == w1.x && w2.loops == w.loops
                  && w2.callers == w.callers + [Caller(tx, streaming, CallOver)])
  {
    var c := |w.callers|;
    var w1 := Step(w, Call(tx, streaming));
    assert w1.callers[c] == Caller(tx, streaming, Asking);
    var w2 := Step(w1, Ask(c));
    assert w2.callers == w.callers + [Caller(tx, streaming, Holding)] && w2.x == w.x && w2.svc == w.svc;
  }

  // ---------- cancellation ----------

  /** Somewhere in the run `tx` was cancelled: by Cancel, while it was known, or when
      the shutdown came to drain it. */
  ghost predicate CancelledIn(w: World, es: seq<Event>, tx: nat) {
    es != [] &&
    var init, e := es[..|es| - 1], es[|es| - 1];
    || CancelledIn(w, init, tx)
    || (Enabled(Run(w, init), e) && (e == DrainPick(tx) || (e == CancelTx(tx) && tx in Run(w, init).svc.transactions)))
  }

  lemma StepCancels(w: World, e: Event, tx: nat)
    ensures tx in Step(w, e).svc.cancelled <==>
              tx in w.svc.cancelled || (Enabled(w, e) && (e == DrainPick(tx) || (e == CancelTx(tx) && tx in w.svc.transactions)))
  {}

  lemma {:induction false} CancelledExactly(systemd: bool, uid: nat, dirs: seq<Saved>, es: seq<Event>, tx: nat)
    ensures var w := Begin(systemd, uid, dirs);
            tx in Run(w, es).svc.cancelled <==> CancelledIn(w, es, tx)
  {
    if es == [] {
      NothingCancelled(systemd, uid, dirs);
    } else {
      var init := es[..|es| - 1];
      CancelledExactly(systemd, uid, dirs, init, tx);
      StepCancels(Run(Begin(systemd, uid, dirs), init), es[|es| - 1], tx);
    }
  }

  lemma {:induction false} NothingCancelled(systemd: bool, uid: nat, dirs: seq<Saved>)
    ensures Begin(systemd, uid, dirs).svc.cancelled == {}
  {
    if dirs != [] {
      NothingCancelled(systemd, uid, dirs[..|dirs| - 1]);
    }
  }

  /** How far the cancelling of a shutdown has come. */
  ghost predicate Cancelling(s: Service) {
    && (s.pc.Draining? ==> forall tx :: tx in s.transactions ==> tx in s.pc.todo || tx in s.cancelled)
    && (s.pc.Closing? || s.pc.Waiting? || s.pc.Gone? ==> s.transactions <= s.cancelled)
  }

  lemma StepCancelling(w: World, e: Event)
    requires Ledger(w) && Cancelling(w.svc)
    ensures Cancelling(Step(w, e).svc)
  {
    if Enabled(w, e) && e.Start? {
      ActExtends(w, e.r);
    }
  }

  /** Whenever the service has left its loop and has drained, every transaction that
      was outstanding has been cancelled. */
  lemma {:induction false} DrainCancels(systemd: bool, uid: nat, dirs: seq<Saved>, es: seq<Event>)
    ensures Cancelling(Run(Begin(systemd, uid, dirs), es).svc)
  {
    var w := Begin(systemd, uid, dirs);
    RestoredLedger(systemd, uid, dirs);
    if es != [] {
      var init := es[..|es| - 1];
      DrainCancels(systemd, uid, dirs, init);
      RunLedger(w, init);
      StepCancelling(Run(w, init), es[|es| - 1]);
    }
  }

  // ---------- staying in the loop ----------

  predicate InLoop(pc: ServicePc) {
    pc.Select? || pc.Sending?
  }

  lemma StepInLoop(w: World, e: Event)
    requires InLoop(w.svc.pc) && !w.proc.signalled && (w.svc.systemd || w.svc.timer.Stopped?) && Ledger(w)
    ensures var w' := Step(w, e);
            && w'.svc.systemd == w.svc.systemd
            && (e != SignalComes ==> !w'.proc.signalled && (InLoop(w'.svc.pc) || (e.TimeOut? && w.svc.timer.Expired?)))
            && (w'.svc.systemd || w'.svc.timer.Stopped?)
  {
    if Enabled(w, e) && e.Start? {
      ActExtends(w, e.r);
    }
  }

  /** Outside systemd mode the service leaves its loop for the signal only. */
  lemma {:induction false} StaysInLoop(uid: nat, dirs: seq<Saved>, es: seq<Event>)
    requires SignalComes !in es
    ensures var w := Run(Begin(false, uid, dirs), es);
            InLoop(w.svc.pc) && !w.proc.signalled && !w.svc.systemd && w.svc.timer.Stopped?
  {
    var w := Begin(false, uid, dirs);
    RestoredLedger(false, uid, dirs);
    if es == [] {
      Unsignalled(false, uid, dirs);
    } else {
      var init, e := es[..|es| - 1], es[|es| - 1];
      assert es == init + [e];
      StaysInLoop(uid, dirs, init);
      RunLedger(w, init);
      StepInLoop(Run(w, init), e);
    }
  }

  lemma {:induction false} Unsignalled(systemd: bool, uid: nat, dirs: seq<Saved>)
    ensures !Begin(systemd, uid, dirs).proc.signalled && Begin(systemd, uid, dirs).svc.timer.Stopped?
  {
    if dirs != [] {
      Unsignalled(systemd, uid, dirs[..|dirs| - 1]);
    }
  }

  /** The signal makes an idle select loop drain every outstanding transaction, and an
      armed timer can run out and end it. */
  lemma LeavesItsLoop(w: World)
    requires w.svc.pc.Select?
    ensures !w.proc.signalled ==>
              Step(Step(w, SignalComes), DoneSignal) ==
                w.(svc := w.svc.(pc := Draining(w.svc.transactions, None), timer := Stopped), proc := w.proc.(signalled := true))
    ensures w.svc.timer.Running? ==> Step(Step(w, TimerExpires), TimeOut) == w.(svc := w.svc.(pc := Closing, timer := Expired))
  {}
}
