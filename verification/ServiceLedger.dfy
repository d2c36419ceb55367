/** The ledger of transactions, kept by every run whatever callers and name
    generator do, and the panic of `completeAction`. */
module ServiceLedger {
  import opened HostIPs
  import opened ServiceModel
  import opened ServiceInv

  /** Channels are only added; a closed one is final; nothing is received beyond
      what was sent. */
  ghost predicate Extends(chans: seq<Chan>, chans': seq<Chan>) {
    && |chans| <= |chans'|
    && (forall tx :: 0 <= tx < |chans| && chans[tx].closed ==> chans'[tx].closed && chans'[tx].sent == chans[tx].sent)
    && (forall tx :: 0 <= tx < |chans| && chans[tx].received <= |chans[tx].sent| ==> chans'[tx].received <= |chans'[tx].sent|)
    && (forall tx :: 0 <= tx < |chans| && !Unread(chans[tx]) ==> chans'[tx].received == chans[tx].received)
    && (forall tx :: |chans| <= tx < |chans'| ==> chans'[tx].received <= |chans'[tx].sent|)
  }

  lemma RunSnoc(w: World, es: seq<Event>, e: Event)
    ensures Run(w, es + [e]) == Step(Run(w, es), e)
  {}

  lemma RunTwo(w: World, a: Event, b: Event)
    ensures Run(w, [a] + [b]) == Step(Step(w, a), b)
  {
    assert [] + [a] == [a];
    RunSnoc(w, [], a);
    RunSnoc(w, [a], b);
  }

  lemma RunThree(w: World, es: seq<Event>, a: Event, b: Event, c: Event)
    ensures Run(w, es + [a] + [b] + [c]) == Step(Step(Step(Run(w, es), a), b), c)
  {
    RunSnoc(w, es, a);
    RunSnoc(w, es + [a], b);
    RunSnoc(w, es + [a] + [b], c);
  }

  lemma RunFour(w: World, es: seq<Event>, a: Event, b: Event, c: Event, d: Event)
    ensures Run(w, es + [a] + [b] + [c] + [d]) == Step(Step(Step(Step(Run(w, es), a), b), c), d)
  {
    RunThree(w, es, a, b, c);
    RunSnoc(w, es + [a] + [b] + [c], d);
  }

  lemma ActExtends(w: World, r: Request)
    requires HostMask(w.svc.mask)
    ensures var w1 := Admit(w, KindOf(r));
            var w' := Act(w1, r, |w.x.chans|);
            && Extends(w.x.chans, w'.x.chans) && |w'.x.chans| == |w.x.chans| + 1
            && w'.svc.transactions == w1.svc.transactions && w'.svc.timer == Stopped && w'.svc.systemd == w.svc.systemd
            && (w'.svc.pc == w.svc.pc || w'.svc.pc.Sending?) && w'.svc.mask == w.svc.mask && w'.callers == w.callers
            && w.svc.hostIPs <= w'.svc.hostIPs
  {}

  lemma InnerExtends(x: Wires, loop: Loop, m: Move)
    ensures Extends(x.chans, MoveWires(x, loop, m).chans) && |MoveWires(x, loop, m).chans| == |x.chans|
  {}

  lemma StepExtends(w: World, e: Event)
    ensures Extends(w.x.chans, Step(w, e).x.chans) && w.svc.hostIPs <= Step(w, e).svc.hostIPs
    ensures !e.Start? ==> |Step(w, e).x.chans| == |w.x.chans|
  {
    if Enabled(w, e) {
      match e
      case Start(r) => ActExtends(w, r);
      case Inner(l, m) => InnerExtends(w.x, w.loops[l], m);
      case _ =>
    }
  }

  /** On any run ids are never reused, a closed result channel never changes again,
      and addresses once taken stay taken. */
  lemma {:induction false} ClosedForever(w: World, es: seq<Event>)
    ensures var w' := Run(w, es);
            && |w.x.chans| <= |w'.x.chans| && w.svc.hostIPs <= w'.svc.hostIPs
            && forall tx :: 0 <= tx < |w.x.chans| && w.x.chans[tx].closed ==>
                 w'.x.chans[tx].closed && w'.x.chans[tx].sent == w.x.chans[tx].sent
  {
    if es != [] {
      ClosedForever(w, es[..|es| - 1]);
      StepExtends(Run(w, es[..|es| - 1]), es[|es| - 1]);
    }
  }

  lemma StepLedger(w: World, e: Event)
    requires Ledger(w)
    ensures Ledger(Step(w, e)) && Step(w, e).svc.systemd == w.svc.systemd
  {
    StepExtends(w, e);
    if Enabled(w, e) {
      match e
      case Start(r) => ActExtends(w, r);
      case _ => LedgerKept(w, e);
    }
  }

  lemma LedgerKept(w: World, e: Event)
    requires Ledger(w) && Enabled(w, e) && !e.Start? && Extends(w.x.chans, Step(w, e).x.chans)
    requires |Step(w, e).x.chans| == |w.x.chans|
    ensures Ledger(Step(w, e)) && Step(w, e).svc.systemd == w.svc.systemd
  {
    TimerKept(w, e);
    DrainKept(w, e);
    InCallKept(w, e);
  }

  lemma TimerKept(w: World, e: Event)
    requires TimerOk(w.svc, w.x.chans) && Enabled(w, e) && !e.Start? && |Step(w, e).x.chans| == |w.x.chans|
    requires e.Complete? && InCall(w.callers[e.c]) ==> w.callers[e.c].tx < |w.x.chans|
    ensures TimerOk(Step(w, e).svc, Step(w, e).x.chans)
    ensures Step(w, e).svc.mask == w.svc.mask && Step(w, e).svc.systemd == w.svc.systemd
  {}

  lemma DrainKept(w: World, e: Event)
    requires TimerOk(w.svc, w.x.chans) && Drained(w.svc, w.x.chans) && Enabled(w, e) && !e.Start?
    requires Extends(w.x.chans, Step(w, e).x.chans)
    ensures Drained(Step(w, e).svc, Step(w, e).x.chans)
  {}

  lemma InCallKept(w: World, e: Event)
    requires Enabled(w, e) && !e.Start?
    requires forall tx :: tx in w.svc.transactions ==> tx < |w.x.chans|
    requires forall c :: 0 <= c < |w.callers| && InCall(w.callers[c]) ==> w.callers[c].tx < |w.x.chans|
    ensures Step(w, e).svc.transactions <= w.svc.transactions
    ensures forall c :: 0 <= c < |Step(w, e).callers| && InCall(Step(w, e).callers[c]) ==> Step(w, e).callers[c].tx < |w.x.chans|
  {}

  lemma {:induction false} RunLedger(w: World, es: seq<Event>)
    requires Ledger(w)
    ensures Ledger(Run(w, es)) && Run(w, es).svc.systemd == w.svc.systemd
  {
    if es != [] {
      RunLedger(w, es[..|es| - 1]);
      StepLedger(Run(w, es[..|es| - 1]), es[|es| - 1]);
    }
  }

  lemma {:induction false} RestoredLedger(systemd: bool, uid: nat, dirs: seq<Saved>)
    ensures var w := RestoreAll(Empty(systemd, uid), dirs);
            && Ledger(w) && w.svc.pc.Select? && !w.x.fault && w.x.chans == [] && w.callers == [] && w.svc.systemd == systemd
  {
    if dirs != [] {
      RestoredLedger(systemd, uid, dirs[..|dirs| - 1]);
    }
  }

  // ---------- the panic of completeAction ----------

  /** A call completes a transaction that is no longer known. */
  predicate UnknownCompletion(w: World, e: Event) {
    Enabled(w, e) && e.Complete? && w.callers[e.c].tx !in w.svc.transactions
  }

  /** Somewhere in the run a completion met an unknown id. */
  ghost predicate CompletesUnknown(w: World, es: seq<Event>) {
    es != [] && (CompletesUnknown(w, es[..|es| - 1]) || UnknownCompletion(Run(w, es[..|es| - 1]), es[|es| - 1]))
  }

  /** A Result call for an id that no other call is busy with. */
  predicate OneCall(w: World, e: Event) {
    e.Call? ==> forall c :: 0 <= c < |w.callers| && !w.callers[c].pc.CallOver? ==> w.callers[c].tx != e.tx
  }

  ghost predicate OneCallAtATime(w: World, es: seq<Event>) {
    es == [] || (OneCallAtATime(w, es[..|es| - 1]) && OneCall(Run(w, es[..|es| - 1]), es[|es| - 1]))
  }

  ghost predicate Separate(w: World) {
    && (forall a, b :: 0 <= a < b < |w.callers| && !w.callers[a].pc.CallOver? && !w.callers[b].pc.CallOver? ==>
          w.callers[a].tx != w.callers[b].tx)
    && (forall c :: 0 <= c < |w.callers| && InCall(w.callers[c]) ==> w.callers[c].tx in w.svc.transactions)
  }

  lemma StepSeparate(w: World, e: Event)
    requires Separate(w) && OneCall(w, e)
    ensures Separate(Step(w, e))
  {
    if Enabled(w, e) {
      if e.Start? {
        ActExtends(w, e.r);
      } else if e.Call? || e.Ask? || e.Receive? || e.Complete? || e.Abandon? {
        CallerSeparate(w, e);
      } else {
        OtherSeparate(w, e);
      }
    }
  }

  lemma CallerSeparate(w: World, e: Event)
    requires Separate(w) && OneCall(w, e) && Enabled(w, e) && (e.Call? || e.Ask? || e.Receive? || e.Complete? || e.Abandon?)
    ensures Separate(Step(w, e))
  {}

  lemma OtherSeparate(w: World, e: Event)
    requires !e.Start? && !e.Call? && !e.Ask? && !e.Receive? && !e.Complete? && !e.Abandon?
    ensures Step(w, e).callers == w.callers && Step(w, e).svc.transactions == w.svc.transactions
  {}

  /** With one Result call in flight per id, whatever its kind, no completion
      meets an unknown id. */
  lemma {:induction false} NoUnknownCompletion(w: World, es: seq<Event>)
    requires Separate(w) && OneCallAtATime(w, es)
    ensures Separate(Run(w, es)) && !CompletesUnknown(w, es)
  {
    if es != [] {
      NoUnknownCompletion(w, es[..|es| - 1]);
      StepSeparate(Run(w, es[..|es| - 1]), es[|es| - 1]);
    }
  }
}
