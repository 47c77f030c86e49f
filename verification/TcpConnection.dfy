/** TcpConnection as it is written, on a Channel and an EPollPoller: each method makes the step of Connection
    that bears its name, and keeps the poller's list equal to the kernel's. */
module TcpConnection {
  import opened Connection
  import ConnectionLife
  import ConnectionRuns
  import I = Interest
  import EPollPoller

  class TcpConnection {
    var state: State
    const channel: EPollPoller.Channel
    const poller: EPollPoller.EPollPoller
    var reading: bool
    var outputBuffer: seq<Byte>
    var wire: seq<Byte>          // the socket: bytes taken, and calls of shutdownWrite
    var fins: nat
    ghost var log: seq<Message>
    ghost var lost: nat
    ghost var ups: nat
    ghost var downs: nat
    ghost var closes: nat
    ghost var destroyed: nat

    ghost function Model(): Conn
      reads this, channel
    {
      Conn(state, channel.Mark(), reading, outputBuffer, wire, fins, log, lost, ups, downs, closes, destroyed, false)
    }

    ghost predicate Valid()
      reads this, channel, poller, poller.channels.Values
    {
      poller.Valid() && poller.Knows(channel)
    }

    /** The event is in the mask that the kernel has for the socket. */
    ghost predicate Watched(e: I.Event)
      reads this, channel, poller, poller.channels.Values
    {
      channel.fd in poller.kernel && e in poller.kernel[channel.fd].events
    }

    /** An open connection in its life cycle: the kernel watches for input exactly while it reads, and for writability
        exactly while bytes are buffered. */
    lemma WatchedIff()
      requires Valid() && ConnectionLife.Life(Model()) && Open(Model())
      ensures (Watched(I.In) <==> reading) && (Watched(I.Out) <==> outputBuffer != [])
    {
      ConnectionLife.OpenMarks(reading, outputBuffer != []);
    }

    constructor (sockfd: int, poller: EPollPoller.EPollPoller)
      requires poller.Valid() && sockfd !in poller.channels
      ensures Valid() && Model() == Created && this.poller == poller && channel.fd == sockfd && fresh(channel)
    {
      this.poller := poller;
      var c := new EPollPoller.Channel(sockfd);
      channel := c;
      state, reading, outputBuffer := Connecting, true, [];
      wire, fins, log, lost, ups, downs, closes, destroyed := [], 0, [], 0, 0, 0, 0, 0;
    }

    // sockets::write; `asked` is what the network would allow.
    method Write(data: seq<Byte>, asked: WriteResult) returns (r: WriteResult)
      modifies this`wire
      ensures r == Kernel(fins, asked, |data|) && (r.Wrote? ==> r.n <= |data|)
      ensures wire == if r.Wrote? then old(wire) + data[..r.n] else old(wire)
    {
      r := Kernel(fins, asked, |data|);
      if r.Wrote? {
        wire := wire + data[..r.n];
      }
    }

    method SendInLoop(data: seq<Byte>, asked: WriteResult)
      requires Valid()
      modifies this`outputBuffer, this`wire, this`log, this`lost, channel, poller
      ensures Valid() && Model() == Connection.SendInLoop(old(Model()), data, asked)
      ensures poller.refused == old(poller.refused)
    {
      if state == Disconnected {
        log := log + [Message(data, GivenUp)];
        return;
      }
      var nwrote, faultError := WriteDirectly(data, asked);
      hide Connection.SendInLoop, Kernel;
      var remaining := |data| - nwrote;
      assert remaining <= |data|;
      if !faultError && remaining > 0 {
        Append(data[nwrote..]);
      }
      if faultError && fins > 0 && data != [] {
        lost := lost + 1;
      }
      log := log + [Message(data, if faultError then Dropped else Kept)];
    }

    // With nothing queued the message is written at once; only EPIPE and ECONNRESET count as faults.
    method WriteDirectly(data: seq<Byte>, asked: WriteResult) returns (nwrote: nat, faultError: bool)
      requires Valid() && !state.Disconnected?
      modifies this`wire
      ensures Valid() && nwrote <= |data| && (faultError ==> nwrote == 0)
      ensures Model() == old(Model()).(wire := old(wire) + data[..nwrote])
      ensures var c := Model();
        Connection.SendInLoop(old(Model()), data, asked) ==
          if faultError then Logged(c.(lost := c.lost + if c.fins > 0 && data != [] then 1 else 0), data, Dropped)
          else Logged(Buffer(c, data[nwrote..]), data, Kept)
    {
      nwrote, faultError := 0, false;
      assert wire + data[..0] == wire && data[0..] == data;
      if I.Out !in channel.events && |outputBuffer| == 0 {
        var r := Write(data, asked);
        match r {
          case Wrote(n) => nwrote := n;
          case WouldBlock =>
          case Broken => faultError := true;
          case OtherError =>
        }
      }
    }

    // The rest of a message joins the buffer, and the channel starts to watch for writability.
    method Append(rest: seq<Byte>)
      requires Valid() && rest != []
      modifies this`outputBuffer, channel, poller
      ensures Valid() && Model() == Buffer(old(Model()), rest)
      ensures poller.refused == old(poller.refused)
    {
      outputBuffer := outputBuffer + rest;
      if I.Out !in channel.events {
        channel.Change(I.EnableWriting, poller);
      }
    }

    method ShutdownInLoop()
      requires Valid()
      modifies this`fins
      ensures Valid() && Model() == Connection.ShutdownInLoop(old(Model()))
    {
      if I.Out !in channel.events {
        fins := fins + 1;
      }
    }

    method HandleWrite(asked: WriteResult)
      requires Valid()
      modifies this`outputBuffer, this`wire, this`fins, channel, poller
      ensures Valid() && Model() == Connection.HandleWrite(old(Model()), asked)
      ensures poller.refused == old(poller.refused)
    {
      if I.Out in channel.events {
        var r := Write(outputBuffer, asked);
        if r.Wrote? && r.n > 0 {
          outputBuffer := outputBuffer[r.n..];
          if |outputBuffer| == 0 {
            channel.Change(I.DisableWriting, poller);
            if state == Disconnecting {
              ShutdownInLoop();
            }
          }
        }
      }
    }

    // The connection callback and the close callback follow; what they do are steps of their own.
    method HandleClose()
      requires Valid() && Open(Model())
      modifies this`state, this`downs, this`closes, channel, poller
      ensures Valid() && Model() == Connection.HandleClose(old(Model()))
      ensures poller.refused == old(poller.refused)
    {
      state := Disconnected;
      channel.Change(I.DisableAll, poller);
      downs := downs + 1;
      closes := closes + 1;
    }

    method HandleRead(r: ReadResult)
      requires Valid() && (r.EndOfStream? ==> Open(Model()))
      modifies this`state, this`downs, this`closes, channel, poller
      ensures Valid() && Model() == Connection.HandleRead(old(Model()), r)
      ensures poller.refused == old(poller.refused)
    {
      if r.EndOfStream? {
        HandleClose();
      }
    }

    method ForceCloseInLoop()
      requires Valid()
      modifies this`state, this`downs, this`closes, channel, poller
      ensures Valid() && Model() == Connection.ForceCloseInLoop(old(Model()))
      ensures poller.refused == old(poller.refused)
    {
      if state == Connected || state == Disconnecting {
        HandleClose();
      }
    }

    method ConnectEstablished()
      requires Valid() && state == Connecting
      modifies this`state, this`ups, channel, poller
      ensures Valid() && Model() == Connection.ConnectEstablished(old(Model()))
      ensures Watched(I.In)
      ensures poller.refused == old(poller.refused)
    {
      state := Connected;
      channel.Change(I.EnableReading, poller);
      ups := ups + 1;
    }

    method StartReadInLoop()
      requires Valid()
      modifies this`reading, channel, poller
      ensures Valid() && Model() == Connection.StartReadInLoop(old(Model()))
      ensures poller.refused == old(poller.refused)
    {
      if !reading || channel.events * I.READ_EVENT == {} {
        channel.Change(I.EnableReading, poller);
        reading := true;
      }
    }

    method StopReadInLoop()
      requires Valid()
      modifies this`reading, channel, poller
      ensures Valid() && Model() == Connection.StopReadInLoop(old(Model()))
      ensures poller.refused == old(poller.refused)
    {
      if reading || channel.events * I.READ_EVENT != {} {
        channel.Change(I.DisableReading, poller);
        reading := false;
      }
    }

    // The first half of connectDestroyed, for a connection that was not closed before.
    method GoDown()
      requires Valid() && !channel.index.New?
      modifies this`state, this`downs, channel, poller
      ensures Valid() && !channel.index.New? && channel.events == I.NONE_EVENT
      ensures Model() == old(Model()).(
        state := Disconnected, channel := I.Apply(old(channel.Mark()), I.DisableAll), downs := old(downs) + 1)
      ensures poller.refused == old(poller.refused)
    {
      state := Disconnected;
      channel.Change(I.DisableAll, poller);
      downs := downs + 1;
    }

    method ConnectDestroyed()
      requires Valid() && !channel.index.New? && (!state.Connected? ==> channel.events == I.NONE_EVENT)
      modifies this`state, this`downs, this`destroyed, channel, poller
      ensures Valid() && Model() == Connection.ConnectDestroyed(old(Model()))
      ensures channel.fd !in poller.channels && channel.fd !in poller.kernel
      ensures poller.refused == old(poller.refused)
    {
      if state == Connected {
        GoDown();
      }
      channel.Remove(poller);
      destroyed := destroyed + 1;
    }

    /** send: from another thread the message is copied into a functor. */
    method Send(message: seq<Byte>, isInLoopThread: bool, asked: WriteResult) returns (queued: seq<ConnectionRuns.Task>)
      requires Valid()
      modifies this`outputBuffer, this`wire, this`log, this`lost, channel, poller
      ensures Valid()
      ensures queued == if state.Connected? && !isInLoopThread then [ConnectionRuns.SendTask(message)] else []
      ensures Model() ==
        if state.Connected? && isInLoopThread then Connection.SendInLoop(old(Model()), message, asked) else old(Model())
      ensures poller.refused == old(poller.refused)
    {
      queued := [];
      if state == Connected {
        if isInLoopThread {
          SendInLoop(message, asked);
        } else {
          queued := [ConnectionRuns.SendTask(message)];
        }
      }
    }

    /** shutdown as it stands: the test is an assignment. */
    method Shutdown(isInLoopThread: bool) returns (queued: seq<ConnectionRuns.Task>)
      requires Valid()
      modifies this`state, this`fins
      ensures Valid()
      ensures queued == if isInLoopThread then [] else [ConnectionRuns.ShutdownTask]
      ensures Model() ==
        if isInLoopThread then Connection.ShutdownInLoop(ShutdownState(old(Model()))) else ShutdownState(old(Model()))
    {
      queued := [];
      state := Connected;
      if state != Disconnected {   // kDisconnected is 0
        state := Disconnecting;
        if isInLoopThread {
          ShutdownInLoop();
        } else {
          queued := [ConnectionRuns.ShutdownTask];
        }
      }
    }

    method ForceClose() returns (queued: seq<ConnectionRuns.Task>)
      requires Valid()
      modifies this`state
      ensures Valid() && Model() == ForceCloseState(old(Model()))
      ensures queued == if Open(old(Model())) then [ConnectionRuns.ForceCloseTask] else []
    {
      queued := [];
      if state == Connected || state == Disconnecting {
        state := Disconnecting;
        queued := [ConnectionRuns.ForceCloseTask];
      }
    }
  }
}
