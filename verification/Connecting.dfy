/** One Connector: its state, the channel it may hold, the sockets it has made, and its retry timers.
    Descriptors stand for sockets, so none is used twice. Times are milliseconds. */
module Connecting {
  type Fd = int

  const INIT_RETRY_DELAY_MS: nat := 500
  const MAX_RETRY_DELAY_MS: nat := 30 * 1000

  datatype State = Disconnected | Connecting | Connected

  /** channel_: empty; registered for writing; or removed, its object still to be destroyed. */
  datatype Slot = Empty | Live(fd: Fd) | Removed(fd: Fd)

  datatype Connector = Connector(
    state: State,
    connect: bool,
    slot: Slot,
    retryDelayMs: nat,
    created: seq<Fd>,
    closed: seq<Fd>,
    delivered: seq<Fd>,       // handed to newConnectionCallback_
    timers: seq<nat>,         // when the outstanding retries are due
    waits: seq<nat>,          // the delays of the retries since construction or restart
    failed: bool)             // an assertion did not hold

  const Fresh := Connector(Disconnected, false, Empty, INIT_RETRY_DELAY_MS, [], [], [], [], [], false)

  /** What connect(2) says. */
  datatype Errno =
    | OK | EINPROGRESS | EINTR | EISCONN
    | EAGAIN | EADDRINUSE | EADDRNOTAVAIL | ECONNREFUSED | ENETUNREACH
    | EACCES | EPERM | EAFNOSUPPORT | EALREADY | EBADF | EFAULT | ENOTSOCK
    | OtherErrno

  datatype Verdict = Proceed | TryLater | GiveUp

  function Judge(errno: Errno): Verdict {
    match errno
    case OK => Proceed
    case EINPROGRESS => Proceed
    case EINTR => Proceed
    case EISCONN => Proceed
    case EAGAIN => TryLater
    case EADDRINUSE => TryLater
    case EADDRNOTAVAIL => TryLater
    case ECONNREFUSED => TryLater
    case ENETUNREACH => TryLater
    case _ => GiveUp
  }

  function Close(c: Connector, fd: Fd): Connector {
    c.(closed := c.closed + [fd])
  }

  function Min(x: nat, y: nat): nat {
    if x < y then x else y
  }

  function Retry(c: Connector, fd: Fd, now: nat): Connector {
    var d := Close(c, fd).(state := Disconnected);
    if d.connect then
      d.(timers := d.timers + [now + d.retryDelayMs],
         waits := d.waits + [d.retryDelayMs],
         retryDelayMs := Min(d.retryDelayMs * 2, MAX_RETRY_DELAY_MS))
    else d
  }

  /** connecting asserts that no channel is held. */
  function Register(c: Connector, fd: Fd): Connector {
    c.(state := Connecting, failed := c.failed || c.slot != Empty, slot := Live(fd))
  }

  function Connect(c: Connector, fd: Fd, errno: Errno, now: nat): Connector {
    var d := c.(created := c.created + [fd]);
    match Judge(errno)
    case Proceed => Register(d, fd)
    case TryLater => Retry(d, fd, now)
    case GiveUp => Close(d, fd)
  }

  function StartInLoop(c: Connector, fd: Fd, errno: Errno, now: nat): Connector {
    var d := c.(failed := c.failed || !c.state.Disconnected?);
    if d.connect then Connect(d, fd, errno, now) else d
  }

  function Restart(c: Connector, fd: Fd, errno: Errno, now: nat): Connector {
    var d := c.(state := Disconnected, retryDelayMs := INIT_RETRY_DELAY_MS, connect := true, waits := []);
    StartInLoop(d, fd, errno, now)
  }

  /** removeAndResetChannel; resetChannel itself is queued. */
  function Remove(c: Connector): Connector
    requires c.slot.Live?
  {
    c.(slot := Removed(c.slot.fd))
  }

  /** The channel's destructor asserts that it is not registered. */
  function ResetChannel(c: Connector): Connector {
    c.(failed := c.failed || c.slot.Live?, slot := Empty)
  }

  // Only a channel that is registered can be removed.
  function Drop(c: Connector, now: nat): Connector {
    if c.slot.Live? then Retry(Remove(c), c.slot.fd, now) else c.(failed := true)
  }

  function StopInLoop(c: Connector, now: nat): Connector {
    if c.state.Connecting? then Drop(c, now) else c
  }

  /** What SO_ERROR and the address check say about a socket that has become writable. */
  datatype Outcome = Established | SocketError | SelfConnect

  function HandleWrite(c: Connector, outcome: Outcome, now: nat): Connector {
    if c.state.Connecting? then
      if !outcome.Established? || !c.slot.Live? then Drop(c, now)
      else
        var fd, d := c.slot.fd, Remove(c).(state := Connected);
        if d.connect then d.(delivered := d.delivered + [fd]) else Close(d, fd)
    else c.(failed := c.failed || !c.state.Disconnected?)
  }

  function HandleError(c: Connector, now: nat): Connector {
    if c.state.Connecting? then Drop(c, now) else c
  }

  // ---- what each answer leads to ----

  /** The answers of connect(2): with these the attempt is under way or done, with those it is made again later. */
  const GOING: set<Errno> := {OK, EINPROGRESS, EINTR, EISCONN}
  const PASSING: set<Errno> := {EAGAIN, EADDRINUSE, EADDRNOTAVAIL, ECONNREFUSED, ENETUNREACH}

  /** Which answer of connect(2) does what: the channel watches the socket exactly if the attempt is going on, and
      otherwise the socket is closed; a retry is set for the current delay exactly if the failure may pass and the
      connection is still wanted; after any other failure nothing is left to happen. */
  lemma ConnectByErrno(c: Connector, fd: Fd, errno: Errno, now: nat)
    requires c.state.Disconnected? && c.slot.Empty?
    ensures var d := Connect(c, fd, errno, now);
      && (d.slot == Live(fd) && d.state.Connecting? <==> errno in GOING)
      && (d.slot.Empty? && d.state.Disconnected? && d.closed == c.closed + [fd] <==> errno !in GOING)
      && (d.timers == c.timers + [now + c.retryDelayMs] <==> errno in PASSING && c.connect)
      && (d.timers == c.timers <==> !(errno in PASSING && c.connect))
      && d.delivered == c.delivered && d.failed == c.failed && d.connect == c.connect
  {
    assert |c.closed + [fd]| != |c.closed| && |c.timers + [now + c.retryDelayMs]| != |c.timers|;
  }

  /** What becomes of a socket that is writable: handed over exactly if it is established and still wanted; closed
      otherwise, and tried again exactly if it failed and is still wanted. The channel is removed in every case. */
  lemma WriteByOutcome(c: Connector, outcome: Outcome, now: nat)
    requires c.state.Connecting? && c.slot.Live?
    ensures var d, fd := HandleWrite(c, outcome, now), c.slot.fd;
      && d.slot == Removed(fd) && d.failed == c.failed
      && (d.delivered == c.delivered + [fd] <==> outcome.Established? && c.connect)
      && (d.closed == c.closed + [fd] <==> !(outcome.Established? && c.connect))
      && (d.timers == c.timers + [now + c.retryDelayMs] <==> !outcome.Established? && c.connect)
      && (d.timers == c.timers <==> !(!outcome.Established? && c.connect))
      && (d.state.Connected? <==> outcome.Established?) && (d.state.Disconnected? <==> !outcome.Established?)
  {
    assert |c.closed + [c.slot.fd]| != |c.closed| && |c.delivered + [c.slot.fd]| != |c.delivered|;
    assert |c.timers + [now + c.retryDelayMs]| != |c.timers|;
  }

  /** An attempt under way ends, at the latest, with an error or with stopInLoop: the socket is closed, its channel is
      removed, and it is tried again exactly if it is still wanted. Otherwise neither of them does anything. */
  lemma ErrorAndStopGiveUp(c: Connector, now: nat)
    requires c.state.Connecting? <==> c.slot.Live?
    ensures HandleError(c, now) == StopInLoop(c, now)
    ensures var d := StopInLoop(c, now);
      if !c.slot.Live? then d == c
      else
        && d.state.Disconnected? && d.slot == Removed(c.slot.fd) && d.closed == c.closed + [c.slot.fd]
        && d.delivered == c.delivered && d.failed == c.failed
        && d.timers == if c.connect then c.timers + [now + c.retryDelayMs] else c.timers
  {
  }

  /** start and restart make an attempt exactly if one is wanted, and after restart it is, with the first delay. */
  lemma StartsAttempt(c: Connector, fd: Fd, errno: Errno, now: nat)
    ensures StartInLoop(c, fd, errno, now).created == if c.connect then c.created + [fd] else c.created
    ensures var d := Restart(c, fd, errno, now);
      && d.created == c.created + [fd] && d.connect
      && (errno in PASSING ==> d.timers == c.timers + [now + 500] && d.retryDelayMs == 1000)
  {
  }

  // ---- the back-off ----

  function Power2(k: nat): nat {
    if k == 0 then 1 else 2 * Power2(k - 1)
  }

  /** min(500 * 2^k, 30000) */
  function Backoff(k: nat): nat {
    Min(INIT_RETRY_DELAY_MS * Power2(k), MAX_RETRY_DELAY_MS)
  }

  lemma BackoffDoubles(k: nat)
    ensures Min(Backoff(k) * 2, MAX_RETRY_DELAY_MS) == Backoff(k + 1) && Backoff(k) >= INIT_RETRY_DELAY_MS
  {
    if k > 0 { BackoffDoubles(k - 1); }
  }

  lemma PowersOfTwo(k: nat)
    ensures Power2(0) == 1 && Power2(1) == 2 && Power2(2) == 4 && Power2(3) == 8 && Power2(4) == 16
    ensures Power2(5) == 32 && (k >= 6 ==> Power2(k) >= 64)
  {
    if k == 6 { assert Power2(6) == 2 * Power2(5); }
    if k > 6 { PowersOfTwo(k - 1); }
  }

  /** In milliseconds: half a second, one second, and so on up to thirty seconds. */
  lemma BackoffTable(k: nat)
    ensures Backoff(k) ==
      if k == 0 then 500 else if k == 1 then 1000 else if k == 2 then 2000 else if k == 3 then 4000
      else if k == 4 then 8000 else if k == 5 then 16000 else 30000
  {
    PowersOfTwo(k);
  }

  /** The k-th retry since construction or restart waits exactly Backoff(k). */
  ghost predicate BacksOff(c: Connector) {
    c.retryDelayMs == Backoff(|c.waits|) && forall k | 0 <= k < |c.waits| :: c.waits[k] == Backoff(k)
  }

  lemma RetryBacksOff(c: Connector, fd: Fd, now: nat)
    requires BacksOff(c)
    ensures BacksOff(Retry(c, fd, now))
    ensures c.connect ==>
      Retry(c, fd, now).timers == c.timers + [now + c.retryDelayMs] && c.retryDelayMs >= INIT_RETRY_DELAY_MS
  {
    BackoffDoubles(|c.waits|);
  }

  // ---- sockets ----

  function Count(fds: seq<Fd>, fd: Fd): nat {
    multiset(fds)[fd]
  }

  /** A socket in use: in the channel, handed over, or closed. */
  function Places(c: Connector, fd: Fd): nat {
    (if c.slot == Live(fd) then 1 else 0) + Count(c.delivered, fd) + Count(c.closed, fd)
  }

  /** Every socket made is in exactly one place; no other is anywhere. */
  ghost predicate Conserved(c: Connector) {
    && (forall fd :: Places(c, fd) == if fd in c.created then 1 else 0)
    && (forall i, j | 0 <= i < j < |c.created| :: c.created[i] != c.created[j])
  }

  lemma RemovedThenClosed(c: Connector, now: nat)
    requires Conserved(c) && c.slot.Live?
    ensures Conserved(Retry(Remove(c), c.slot.fd, now))
  {
    var d := Retry(Remove(c), c.slot.fd, now);
    forall fd ensures Places(d, fd) == Places(c, fd) {
      assert Count(c.closed + [c.slot.fd], fd) == Count(c.closed, fd) + if fd == c.slot.fd then 1 else 0;
    }
  }

  lemma WriteConserves(c: Connector, outcome: Outcome, now: nat)
    requires Conserved(c) && (c.state.Connecting? ==> c.slot.Live?)
    ensures Conserved(HandleWrite(c, outcome, now))
  {
    if c.state.Connecting? {
      RemovedThenClosed(c, now);
      var d, f := HandleWrite(c, outcome, now), c.slot.fd;
      forall fd ensures Places(d, fd) == Places(c, fd) {
        assert Count(c.closed + [f], fd) == Count(c.closed, fd) + if fd == f then 1 else 0;
        assert Count(c.delivered + [f], fd) == Count(c.delivered, fd) + if fd == f then 1 else 0;
      }
    }
  }

  /** Whatever connect(2) answers, the new socket is in the channel or closed. The channel must be free. */
  lemma ConnectConserves(c: Connector, fd: Fd, errno: Errno, now: nat)
    requires Conserved(c) && fd !in c.created && !c.slot.Live?
    ensures Conserved(Connect(c, fd, errno, now))
  {
    hide Places, Connect;
    var d := Connect(c, fd, errno, now);
    forall x ensures Places(d, x) == if x in d.created then 1 else 0 {
      ConnectPlaces(c, fd, errno, now, x);
      assert x in d.created <==> x in c.created || x == fd;
    }
    ConnectPlaces(c, fd, errno, now, fd);
  }

  lemma ConnectPlaces(c: Connector, fd: Fd, errno: Errno, now: nat, x: Fd)
    requires !c.slot.Live?
    ensures var d := Connect(c, fd, errno, now);
      d.created == c.created + [fd] && Places(d, x) == Places(c, x) + if x == fd then 1 else 0
  {
    assert Count(c.closed + [fd], x) == Count(c.closed, x) + if x == fd then 1 else 0;
  }
}
