/** Connector as it is written, on the Channel it registers in an EPollPoller: each method makes the step of
    Connecting that bears its name. */
module Connector {
  import opened Connecting
  import I = Interest
  import EPollPoller

  class Connector {
    const poller: EPollPoller.EPollPoller
    var state: State
    var connect: bool
    var channel: EPollPoller.Channel?
    var retryDelayMs: nat
    ghost var created: seq<Fd>
    ghost var closed: seq<Fd>
    ghost var delivered: seq<Fd>
    ghost var timers: seq<nat>
    ghost var waits: seq<nat>

    ghost function Held(): Slot
      reads this, channel
    {
      if channel == null then Empty else if channel.index.New? then Removed(channel.fd) else Live(channel.fd)
    }

    ghost function Model(): Connecting.Connector
      reads this, channel
    {
      Connecting.Connector(state, connect, Held(), retryDelayMs, created, closed, delivered, timers, waits, false)
    }

    /** A held channel is registered for writing and nothing else, or no longer registered and silent. */
    ghost predicate Valid()
      reads this, channel, poller, poller.channels.Values
    {
      && poller.Valid()
      && (channel != null ==> if channel.index.New? then channel.events == I.NONE_EVENT
                              else poller.Knows(channel) && channel.events == I.WRITE_EVENT)
      && (state.Connecting? <==> Held().Live?)
    }

    /** While it connects, the kernel watches the socket for writability. */
    lemma ConnectingIsWatched()
      requires Valid() && state.Connecting?
      ensures channel != null && channel.fd in poller.kernel
      ensures poller.kernel[channel.fd] == EPollPoller.Registration(I.WRITE_EVENT, channel)
    {
      assert I.Out in channel.events;
      assert I.Coherent(channel.Mark());
    }

    constructor (poller: EPollPoller.EPollPoller)
      requires poller.Valid()
      ensures Valid() && Model() == Fresh && this.poller == poller
    {
      this.poller := poller;
      state, connect, channel, retryDelayMs := Disconnected, false, null, INIT_RETRY_DELAY_MS;
      created, closed, delivered, timers, waits := [], [], [], [], [];
    }

    // The socket is closed, and startInLoop set to run again after the delay, which then doubles.
    method Retry(sockfd: Fd, now: nat)
      requires poller.Valid() && !Held().Live?
      requires channel != null ==> channel.events == I.NONE_EVENT
      modifies this`state, this`closed, this`timers, this`waits, this`retryDelayMs
      ensures Valid() && Model() == Connecting.Retry(old(Model()), sockfd, now)
    {
      closed := closed + [sockfd];
      state := Disconnected;
      if connect {
        timers, waits := timers + [now + retryDelayMs], waits + [retryDelayMs];
        retryDelayMs := if MAX_RETRY_DELAY_MS < retryDelayMs * 2 then MAX_RETRY_DELAY_MS else retryDelayMs * 2;
      }
    }

    // The member `connecting`: the channel slot must be free.
    method Register(sockfd: Fd)
      requires poller.Valid() && channel == null && sockfd !in poller.channels
      modifies this`state, this`channel, poller
      ensures Valid() && Model() == Connecting.Register(old(Model()), sockfd)
      ensures fresh(channel)
      ensures poller.kernel == old(poller.kernel)[sockfd := EPollPoller.Registration(I.WRITE_EVENT, channel)]
      ensures poller.refused == old(poller.refused)
    {
      state := Connecting;
      assert channel == null;
      var c := new EPollPoller.Channel(sockfd);
      channel := c;
      c.Change(I.EnableWriting, poller);
    }

    /** connect, for the socket that createNonblockingOrDie returned and the errno of connect(2). */
    method Connect(sockfd: Fd, errno: Errno, now: nat)
      requires Valid() && state.Disconnected? && channel == null && sockfd !in poller.channels
      modifies this`state, this`channel, this`retryDelayMs, this`created, this`closed, this`timers, this`waits, poller
      ensures Valid() && Model() == Connecting.Connect(old(Model()), sockfd, errno, now)
      ensures poller.refused == old(poller.refused)
    {
      hide Connecting.Retry, Connecting.Register, Judge;
      created := created + [sockfd];
      match Judge(errno) {
        case Proceed => Register(sockfd);
        case TryLater => Retry(sockfd, now);
        case GiveUp => closed := closed + [sockfd];
      }
    }

    method StartInLoop(sockfd: Fd, errno: Errno, now: nat)
      requires Valid() && state.Disconnected? && (connect ==> channel == null) && sockfd !in poller.channels
      modifies this`state, this`channel, this`retryDelayMs, this`created, this`closed, this`timers, this`waits, poller
      ensures Valid() && Model() == Connecting.StartInLoop(old(Model()), sockfd, errno, now)
      ensures poller.refused == old(poller.refused)
    {
      if connect {
        Connect(sockfd, errno, now);
      }
    }

    method Restart(sockfd: Fd, errno: Errno, now: nat)
      requires Valid() && channel == null && sockfd !in poller.channels
      modifies this`state, this`connect, this`channel, this`retryDelayMs, this`created, this`closed, this`timers,
        this`waits, poller
      ensures Valid() && Model() == Connecting.Restart(old(Model()), sockfd, errno, now)
      ensures poller.refused == old(poller.refused)
    {
      state := Disconnected;
      retryDelayMs, waits := INIT_RETRY_DELAY_MS, [];
      connect := true;
      StartInLoop(sockfd, errno, now);
    }

    /** The channel leaves the poller; its object stays until resetChannel, which the caller queues. */
    method RemoveAndResetChannel() returns (sockfd: Fd)
      requires poller.Valid() && channel != null && !channel.index.New? && poller.Knows(channel)
      modifies channel, poller
      ensures poller.Valid() && channel.index.New? && channel.events == I.NONE_EVENT
      ensures Model() == Remove(old(Model())) && sockfd == old(channel.fd)
      ensures poller.kernel == old(poller.kernel) - {sockfd} && poller.refused == old(poller.refused)
    {
      channel.Change(I.DisableAll, poller);
      channel.Remove(poller);
      sockfd := channel.fd;
    }

    method ResetChannel()
      requires Valid() && !state.Connecting?
      modifies this`channel
      ensures Valid() && Model() == Connecting.ResetChannel(old(Model()))
    {
      channel := null;
    }

    method StopInLoop(now: nat)
      requires Valid()
      modifies this`state, this`closed, this`timers, this`waits, this`retryDelayMs, channel, poller
      ensures Valid() && Model() == Connecting.StopInLoop(old(Model()), now)
      ensures poller.refused == old(poller.refused)
    {
      if state == Connecting {
        state := Disconnected;
        var sockfd := RemoveAndResetChannel();
        Retry(sockfd, now);
      }
    }

    method HandleWrite(outcome: Outcome, now: nat)
      requires Valid() && !state.Connected?
      modifies this`state, this`closed, this`delivered, this`timers, this`waits, this`retryDelayMs, channel, poller
      ensures Valid() && Model() == Connecting.HandleWrite(old(Model()), outcome, now)
      ensures poller.refused == old(poller.refused)
    {
      if state == Connecting {
        var sockfd := RemoveAndResetChannel();
        if outcome == SocketError || outcome == SelfConnect {
          Retry(sockfd, now);
        } else {
          state := Connected;
          if connect {
            delivered := delivered + [sockfd];
          } else {
            closed := closed + [sockfd];
          }
        }
      }
    }

    method HandleError(now: nat)
      requires Valid()
      modifies this`state, this`closed, this`timers, this`waits, this`retryDelayMs, channel, poller
      ensures Valid() && Model() == Connecting.HandleError(old(Model()), now)
      ensures poller.refused == old(poller.refused)
    {
      if state == Connecting {
        var sockfd := RemoveAndResetChannel();
        Retry(sockfd, now);
      }
    }

    /** start: the functor runs at once in the loop's thread, and is queued from any other. */
    method Start(isInLoopThread: bool, sockfd: Fd, errno: Errno, now: nat) returns (queued: bool)
      requires Valid() && (isInLoopThread ==> state.Disconnected? && channel == null && sockfd !in poller.channels)
      modifies this`state, this`connect, this`channel, this`retryDelayMs, this`created, this`closed, this`timers,
        this`waits, poller
      ensures Valid() && queued == !isInLoopThread
      ensures var c := old(Model()).(connect := true);
        Model() == if isInLoopThread then Connecting.StartInLoop(c, sockfd, errno, now) else c
    {
      connect := true;
      queued := !isInLoopThread;
      if isInLoopThread {
        StartInLoop(sockfd, errno, now);
      }
    }

    /** stop: the flag falls at once, stopInLoop is always queued. */
    method Stop() returns (queued: bool)
      requires Valid()
      modifies this`connect
      ensures Valid() && Model() == old(Model()).(connect := false) && queued
    {
      connect := false;
      queued := true;
    }
  }
}
