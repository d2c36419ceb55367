/** The code of an instance loop (ccvm/server.go) and of the Result calls
    (ccvm/api.go) in its own, imperative form.  Methods end where the source
    blocks, so that ServiceModel can interleave them. */
module InstanceCode {
  import opened Wrappers
  import opened ServiceModel
  import opened ServiceInv

  /** The result channels, shared by the service, its loops and its callers. */
  class Network {
    var x: Wires

    constructor ()
      ensures x == Wires([], false)
    {
      x := Wires([], false);
    }

    /** A send that finds room, or else goes wrong. */
    method SendOn(tx: nat, v: Value)
      modifies this
      ensures x == Send(old(x), tx, v)
    {
      if tx < |x.chans| && !x.chans[tx].closed && Room(x.chans[tx]) {
        var c := x.chans[tx];
        x := x.(chans := x.chans[tx := c.(sent := c.sent + [v])]);
      } else {
        x := x.(fault := true);
      }
    }

    method CloseOn(tx: nat)
      modifies this
      ensures x == Close(old(x), tx)
    {
      if tx < |x.chans| && !x.chans[tx].closed {
        x := x.(chans := x.chans[tx := x.chans[tx].(closed := true)]);
      } else {
        x := x.(fault := true);
      }
    }

    method Received(tx: nat, upTo: nat)
      requires tx < |x.chans|
      modifies this
      ensures x == old(x).(chans := old(x).chans[tx := old(x).chans[tx].(received := upTo)])
    {
      x := x.(chans := x.chans[tx := x.chans[tx].(received := upTo)]);
    }

    method Wrong()
      modifies this
      ensures x == old(x).(fault := true)
    {
      x := x.(fault := true);
    }
  }

  // ---------- instanceLoop ----------

  class InstanceLoop {
    var pc: LoopPc
    var worker: Worker
    var deleted: bool
    var closeClosed: bool
    var inboxClosed: bool
    const addr: Address
    const net: Network

    constructor (net: Network, addr: Address)
      ensures Value() == FreshLoop(addr) && this.net == net
    {
      pc, worker := Ready, NoCreate;
      deleted, closeClosed, inboxClosed := false, false, false;
      this.addr, this.net := addr, net;
    }

    function Value(): Loop
      reads this
    {
      Loop(pc, worker, deleted, closeClosed, inboxClosed, addr)
    }

    /** The command case of the select. */
    method Receive(cmd: Cmd)
      requires pc.Ready? && !inboxClosed
      modifies this, net
      ensures Value() == Accept(old(Value()), cmd)
      ensures net.x == AcceptWires(old(net.x), old(Value()), cmd)
    {
      if cmd.kind.Create? {
        if deleted {
          net.SendOn(cmd.tx, Failed);
          pc := Ending(cmd.tx, false, false);
          return;
        }
        if !worker.NoCreate? {
          net.Wrong();
        }
        worker := Working(cmd.tx, cmd.lines, cmd.asks, cmd.fails);
      } else {
        if deleted {
          net.SendOn(cmd.tx, Failed);
          pc := Ending(cmd.tx, false, false);
          return;
        }
        if !worker.NoCreate? {
          net.SendOn(cmd.tx, Failed);
          pc := Ending(cmd.tx, false, false);
          return;
        }
        pc := Executing(cmd);
      }
    }

    /** cmd.fn() has run: a delete's error, or whatever the command itself sent. */
    method FinishCommand()
      requires pc.Executing?
      modifies this, net
      ensures Value() == MoveLoop(old(Value()), Execute) && net.x == MoveWires(old(net.x), old(Value()), Execute)
      ensures net.x == Send(old(net.x), old(pc.cmd.tx), if old(pc.cmd.fails) then Failed else Okay)
    {
      var cmd := pc.cmd;
      var failed := cmd.fails;
      if failed {
        net.SendOn(cmd.tx, Failed);
      } else {
        net.SendOn(cmd.tx, Okay);
      }
      pc := Ending(cmd.tx, cmd.kind.Delete? && !failed, false);
    }

    /** A line of progress from the goroutine of the creation. */
    method PrintLine()
      requires worker.Working? && worker.lines > 0
      modifies this, net
      ensures Value() == MoveLoop(old(Value()), WorkerLine) && net.x == MoveWires(old(net.x), old(Value()), WorkerLine)
    {
      net.SendOn(worker.tx, Line);
      worker := worker.(lines := worker.lines - 1);
    }

    /** The download manager takes a request of the creation (downloadFile). */
    method RequestTaken()
      requires worker.Working? && worker.asks > 0
      modifies this
      ensures Value() == MoveLoop(old(Value()), WorkerAsk)
    {
      worker := worker.(asks := worker.asks - 1);
    }

    /** createInstance has returned, and its goroutine sends the error on createCh. */
    method CreateReturns()
      requires worker.Working? && worker.lines == 0 && worker.asks == 0
      modifies this
      ensures Value() == MoveLoop(old(Value()), WorkerReturn)
    {
      worker := Returned(worker.tx, worker.fails);
    }

    /** The createCh case of the select, and the receive after the loop. */
    method TakeCreateResult()
      requires (pc.Ready? || pc.Joining?) && worker.Returned?
      modifies this
      ensures Value() == MoveLoop(old(Value()), TakeResult)
    {
      var tx, err := worker.tx, worker.fails;
      pc := Reporting(tx, err, pc.Joining?);
      worker := NoCreate;
    }

    /** The send of returnCreateResult. */
    method ReturnCreateResult()
      requires pc.Reporting?
      modifies this, net
      ensures Value() == MoveLoop(old(Value()), Report) && net.x == MoveWires(old(net.x), old(Value()), Report)
    {
      if pc.fails {
        net.SendOn(pc.tx, Failed);
      } else {
        net.SendOn(pc.tx, Finished);
      }
      pc := Ending(pc.tx, pc.fails && !pc.last, pc.last);
    }

    /** The close of the result channel; a successful delete and a failed creation
        then end the instance by closing its close channel. */
    method EndCommand()
      requires pc.Ending?
      modifies this, net
      ensures Value() == MoveLoop(old(Value()), End) && net.x == MoveWires(old(net.x), old(Value()), End)
    {
      net.CloseOn(pc.tx);
      if pc.dies {
        deleted := true;
        if closeClosed {
          net.Wrong();
        }
        closeClosed := true;
      }
      pc := if pc.last then Exited else Ready;
    }

    /** The service closes the command channel. */
    method CloseInbox()
      modifies this
      ensures Value() == old(Value()).(inboxClosed := true)
    {
      inboxClosed := true;
    }

    /** The command channel was closed: leave the loop, then wait for a creation if there is one. */
    method LeaveLoop()
      requires pc.Ready? && inboxClosed
      modifies this
      ensures Value() == MoveLoop(old(Value()), SeeClosed)
    {
      if !worker.NoCreate? {
        pc := Joining;
      } else {
        pc := Exited;
      }
    }

    /** Whatever the loop or its creation does next. */
    method Move(m: Move)
      requires CanMove(Value(), net.x.chans, m)
      modifies this, net
      ensures Value() == MoveLoop(old(Value()), m) && net.x == MoveWires(old(net.x), old(Value()), m)
    {
      match m
      case Execute => FinishCommand();
      case WorkerLine => PrintLine();
      case WorkerAsk => RequestTaken();
      case WorkerReturn => CreateReturns();
      case TakeResult => TakeCreateResult();
      case Report => ReturnCreateResult();
      case End => EndCommand();
      case SeeClosed => LeaveLoop();
    }
  }

  // ---------- callers ----------

  /** What a Result call makes of its one receive: the value, or nil from a closed
      channel; `complete` says that it ends the transaction. */
  datatype Reply = Reply(value: Option<Value>, received: nat, complete: bool)

  /** The receive of `CreateResult`, `voidResult` and the other Result calls. */
  method ReceiveOne(c: Chan, streaming: bool) returns (r: Reply)
    requires Unread(c) || c.closed
    ensures r.received == c.received + (if Unread(c) then 1 else 0)
    ensures r.value == if Unread(c) then Some(c.sent[c.received]) else None
    ensures r.complete <==> !(streaming && Unread(c) && c.sent[c.received].Line?)
  {
    if c.received < |c.sent| {
      var v := c.sent[c.received];
      if streaming && v.Line? {
        return Reply(Some(v), c.received + 1, false);
      }
      return Reply(Some(v), c.received + 1, true);
    }
    return Reply(None, c.received, true);
  }

  /** A client that follows a creation to its end calls CreateResult until it
      completes: it sees every line of progress and then the one terminal value,
      and nothing is left unread. */
  method FollowCreate(c: Chan) returns (lines: nat, last: Value)
    requires Answered(c) && c.kind.Create? && c.received == 0
    ensures lines == |c.sent| - 1
    ensures last == c.sent[|c.sent| - 1] && !last.Line?
  {
    lines := 0;
    var r := ReceiveOne(c, true);
    while !r.complete
      invariant r.received == lines + 1 <= |c.sent|
      invariant r.value == Some(c.sent[lines])
      invariant r.complete <==> !c.sent[lines].Line?
      decreases |c.sent| - lines
    {
      lines := lines + 1;
      r := ReceiveOne(c.(received := r.received), true);
    }
    last := r.value.value;
  }
}
