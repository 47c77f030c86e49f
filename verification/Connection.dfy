/** One TCP connection in its I/O loop: state, mask, output buffer and what the kernel has taken. */
module Connection {
  import I = Interest

  type Byte = b: int | 0 <= b < 256

  datatype State = Connecting | Connected | Disconnecting | Disconnected

  /** What write(2) is asked to answer; Broken is EPIPE or ECONNRESET. */
  datatype WriteResult = Wrote(n: nat) | WouldBlock | Broken | OtherError

  /** What became of a message that reached sendInLoop. */
  datatype Fate = Kept | Dropped | GivenUp

  datatype Message = Message(data: seq<Byte>, fate: Fate)

  datatype Conn = Conn(
    state: State,
    channel: I.Mark,
    reading: bool,            // reading_
    output: seq<Byte>,        // outputBuffer_
    wire: seq<Byte>,          // every byte write(2) accepted
    fins: nat,                // calls of shutdownWrite
    log: seq<Message>,        // every message that reached sendInLoop
    lost: nat,                // non-empty messages dropped after our own shutdownWrite
    ups: nat,                 // connection callbacks with the connection up
    downs: nat,               // connection callbacks with the connection down
    closes: nat,              // close callbacks
    destroyed: nat,
    failed: bool)             // an assertion did not hold

  const Created := Conn(Connecting, I.Fresh, true, [], [], 0, [], 0, 0, 0, 0, 0, false)

  predicate Open(c: Conn) {
    c.state.Connected? || c.state.Disconnecting?
  }

  predicate Writing(c: Conn) {
    I.Out in c.channel.events
  }

  /** After shutdownWrite every write fails with EPIPE; no write takes more than it is given. */
  function Kernel(fins: nat, asked: WriteResult, len: nat): WriteResult {
    if fins > 0 then Broken
    else if asked.Wrote? && asked.n > len then Wrote(len)
    else asked
  }

  function EnableWriting(c: Conn): Conn {
    c.(channel := I.Apply(c.channel, I.EnableWriting))
  }

  /** `rest` joins the buffer, and somebody watches for the socket to become writable. */
  function Buffer(c: Conn, rest: seq<Byte>): Conn {
    if rest == [] then c
    else
      var d := c.(output := c.output + rest);
      if Writing(d) then d else EnableWriting(d)
  }

  function Logged(c: Conn, data: seq<Byte>, fate: Fate): Conn {
    c.(log := c.log + [Message(data, fate)])
  }

  function SendInLoop(c: Conn, data: seq<Byte>, asked: WriteResult): Conn {
    if c.state.Disconnected? then Logged(c, data, GivenUp)
    else if Writing(c) || c.output != [] then Logged(Buffer(c, data), data, Kept)
    else
      match Kernel(c.fins, asked, |data|)
      case Wrote(n) => Logged(Buffer(c.(wire := c.wire + data[..n]), data[n..]), data, Kept)
      case Broken => Logged(c.(lost := c.lost + if c.fins > 0 && data != [] then 1 else 0), data, Dropped)
      case _ => Logged(Buffer(c, data), data, Kept)
  }

  function ShutdownInLoop(c: Conn): Conn {
    if Writing(c) then c else c.(fins := c.fins + 1)
  }

  function Drained(c: Conn): Conn {
    var d := c.(channel := I.Apply(c.channel, I.DisableWriting));
    if d.state.Disconnecting? then ShutdownInLoop(d) else d
  }

  function HandleWrite(c: Conn, asked: WriteResult): Conn {
    if !Writing(c) then c
    else
      match Kernel(c.fins, asked, |c.output|)
      case Wrote(n) =>
        var d := c.(wire := c.wire + c.output[..n], output := c.output[n..]);
        if n > 0 && d.output == [] then Drained(d) else d
      case _ => c
  }

  function HandleClose(c: Conn): Conn {
    c.(failed := c.failed || !Open(c), state := Disconnected, channel := I.Apply(c.channel, I.DisableAll),
       downs := c.downs + 1, closes := c.closes + 1)
  }

  /** What readFd found: a message, the end of the stream, or an error. */
  datatype ReadResult = Data | EndOfStream | ReadError

  function HandleRead(c: Conn, r: ReadResult): Conn {
    if r.EndOfStream? then HandleClose(c) else c
  }

  function ForceCloseInLoop(c: Conn): Conn {
    if Open(c) then HandleClose(c) else c
  }

  function ConnectEstablished(c: Conn): Conn {
    c.(failed := c.failed || !c.state.Connecting?, state := Connected,
       channel := I.Apply(c.channel, I.EnableReading), ups := c.ups + 1)
  }

  predicate Reading(c: Conn) {
    c.channel.events * I.READ_EVENT != {}
  }

  function StartReadInLoop(c: Conn): Conn {
    if !c.reading || !Reading(c) then c.(channel := I.Apply(c.channel, I.EnableReading), reading := true) else c
  }

  function StopReadInLoop(c: Conn): Conn {
    if c.reading || Reading(c) then c.(channel := I.Apply(c.channel, I.DisableReading), reading := false) else c
  }

  /** channel->remove() asserts that the mask is empty and that the poller knows the channel. */
  function ConnectDestroyed(c: Conn): Conn {
    var d :=
      if c.state.Connected?
      then c.(state := Disconnected, channel := I.Apply(c.channel, I.DisableAll), downs := c.downs + 1)
      else c;
    d.(failed := d.failed || d.channel.events != I.NONE_EVENT || d.channel.index.New?,
       channel := I.Fresh, destroyed := d.destroyed + 1)
  }

  // The part of a public call that happens in the caller's thread.
  function ShutdownState(c: Conn): Conn {
    c.(state := Disconnecting)   // the test assigns kConnected, so it never fails
  }

  function ForceCloseState(c: Conn): Conn {
    if Open(c) then c.(state := Disconnecting) else c
  }

  // ---- the byte stream ----

  function KeptBytes(log: seq<Message>): seq<Byte> {
    if log == [] then []
    else KeptBytes(log[..|log| - 1]) + (if log[|log| - 1].fate.Kept? then log[|log| - 1].data else [])
  }

  /** Bytes on the wire, then bytes in the buffer: exactly the kept messages, in order. */
  ghost predicate Preserved(c: Conn) {
    c.wire + c.output == KeptBytes(c.log)
  }

  /** While the connection is open, write interest is on exactly when the buffer is not empty, and our own
      shutdownWrite has left nothing behind. */
  ghost predicate Watching(c: Conn) {
    && (Open(c) ==> (Writing(c) <==> c.output != []))
    && (Open(c) && c.fins > 0 ==> c.output == [])
    && (c.state.Connecting? ==> c.channel == I.Fresh && c.output == [])
  }

  lemma LogGrows(log: seq<Message>, m: Message)
    ensures KeptBytes(log + [m]) == KeptBytes(log) + if m.fate.Kept? then m.data else []
  {
    assert (log + [m])[..|log|] == log;
  }

  /** A message is taken whole or not at all: the bytes of a kept one go to the wire and the buffer, none of a
      message hit by EPIPE or ECONNRESET does. */
  lemma SendTakesAllOrNothing(c: Conn, data: seq<Byte>, asked: WriteResult)
    ensures var d := SendInLoop(c, data, asked);
      && |d.log| == |c.log| + 1 && d.log[|c.log|].data == data && d.log == c.log + [d.log[|c.log|]]
      && c.wire <= d.wire
      && d.wire + d.output == c.wire + c.output + (if d.log[|c.log|].fate.Kept? then data else [])
      && (!d.log[|c.log|].fate.Kept? ==> d.wire == c.wire && d.output == c.output)
  {
    SendLogs(c, data, asked);
    SendBytes(c, data, asked);
  }

  lemma SendLogs(c: Conn, data: seq<Byte>, asked: WriteResult)
    ensures exists fate :: SendInLoop(c, data, asked).log == c.log + [Message(data, fate)]
  {
    hide Buffer;
    BufferGrows(c, data);
    var fate :=
      if c.state.Disconnected? then GivenUp
      else if Writing(c) || c.output != [] then Kept
      else if Kernel(c.fins, asked, |data|).Broken? then Dropped
      else Kept;
    if Kernel(c.fins, asked, |data|).Wrote? {
      var n := Kernel(c.fins, asked, |data|).n;
      BufferGrows(c.(wire := c.wire + data[..n]), data[n..]);
    }
    assert SendInLoop(c, data, asked).log == c.log + [Message(data, fate)];
  }

  lemma SendBytes(c: Conn, data: seq<Byte>, asked: WriteResult)
    ensures var d := SendInLoop(c, data, asked);
      && d.log != [] && c.wire <= d.wire
      && (if d.log[|d.log| - 1].fate.Kept? then d.wire + d.output == c.wire + c.output + data
          else d.wire == c.wire && d.output == c.output)
  {
    hide Buffer;
    BufferGrows(c, data);
    assert c.wire + (c.output + data) == c.wire + c.output + data;
    if !c.state.Disconnected? && !Writing(c) && c.output == [] { AtOnceBytes(c, data, asked); }
  }

  lemma AtOnceBytes(c: Conn, data: seq<Byte>, asked: WriteResult)
    requires !c.state.Disconnected? && !Writing(c) && c.output == []
    ensures var d := SendInLoop(c, data, asked);
      && d.log != [] && c.wire <= d.wire
      && (if d.log[|d.log| - 1].fate.Kept? then d.wire + d.output == c.wire + data
          else d.wire == c.wire && d.output == [])
  {
    hide Buffer;
    BufferGrows(c, data);
    var r := Kernel(c.fins, asked, |data|);
    if r.Wrote? {
      BufferGrows(c.(wire := c.wire + data[..r.n]), data[r.n..]);
      assert c.wire + data[..r.n] + ([] + data[r.n..]) == c.wire + data;
    } else {
      assert c.wire + ([] + data) == c.wire + data;
    }
    hide Kernel;
  }

  lemma BufferGrows(c: Conn, rest: seq<Byte>)
    ensures var d := Buffer(c, rest); d.output == c.output + rest && d.wire == c.wire && d.log == c.log
  {
  }

  /** Why a message is not taken: one on a closed connection is given up; one that is written at once, with nothing
      buffered and nobody watching for writability, is dropped if that write says EPIPE or ECONNRESET. Every other
      message is kept, in particular every one that must wait behind buffered bytes. */
  lemma SendFate(c: Conn, data: seq<Byte>, asked: WriteResult)
    ensures |SendInLoop(c, data, asked).log| == |c.log| + 1
    ensures var fate, atOnce := SendInLoop(c, data, asked).log[|c.log|].fate, !Writing(c) && c.output == [];
      && (fate.GivenUp? <==> c.state.Disconnected?)
      && (fate.Dropped? <==> !c.state.Disconnected? && atOnce && (c.fins > 0 || asked.Broken?))
      && (fate.Kept? <==> !c.state.Disconnected? && !(atOnce && (c.fins > 0 || asked.Broken?)))
  {
    SendTakesAllOrNothing(c, data, asked);
  }

  /** How much of a kept message goes to the socket at once: nothing behind buffered bytes; otherwise as much as the
      kernel takes, and the rest is buffered with write interest on. */
  lemma SendWritesAtOnce(c: Conn, data: seq<Byte>, asked: WriteResult)
    requires !c.state.Disconnected?
    ensures var d, n := SendInLoop(c, data, asked), if asked.Wrote? then asked.n else 0;
      && (Writing(c) || c.output != [] ==> d.wire == c.wire && d.output == c.output + data)
      && (!Writing(c) && c.output == [] && c.fins == 0 && !asked.Broken? ==>
            if n < |data| then d.wire == c.wire + data[..n] && d.output == data[n..] && Writing(d)
            else d.wire == c.wire + data && d.output == [] && !Writing(d))
  {
    assert c.wire + data[..0] == c.wire && data[0..] == data;
    assert data[..|data|] == data;
  }

  lemma SendKeepsBytes(c: Conn, data: seq<Byte>, asked: WriteResult)
    ensures Preserved(c) ==> Preserved(SendInLoop(c, data, asked))
  {
    SendTakesAllOrNothing(c, data, asked);
    LogGrows(c.log, SendInLoop(c, data, asked).log[|c.log|]);
    hide SendInLoop;
  }

  lemma SendKeepsWatching(c: Conn, data: seq<Byte>, asked: WriteResult)
    ensures Watching(c) && !c.state.Connecting? ==> Watching(SendInLoop(c, data, asked))
  {
  }

  lemma SendKeeps(c: Conn, data: seq<Byte>, asked: WriteResult)
    ensures Preserved(c) ==> Preserved(SendInLoop(c, data, asked))
    ensures Watching(c) && !c.state.Connecting? ==> Watching(SendInLoop(c, data, asked))
  {
    SendKeepsBytes(c, data, asked);
    SendKeepsWatching(c, data, asked);
    hide SendInLoop;
  }

  lemma WriteKeeps(c: Conn, asked: WriteResult)
    ensures Preserved(c) ==> Preserved(HandleWrite(c, asked))
    ensures Watching(c) ==> Watching(HandleWrite(c, asked))
    ensures c.wire <= HandleWrite(c, asked).wire
  {
    if Writing(c) && Kernel(c.fins, asked, |c.output|).Wrote? {
      var n := Kernel(c.fins, asked, |c.output|).n;
      assert c.output == c.output[..n] + c.output[n..];
      assert c.wire + c.output[..n] + c.output[n..] == c.wire + c.output;
    }
  }

  /** A writable event that the socket answers takes exactly what the socket takes, from the front of the buffer; the
      channel stops watching for writability exactly when nothing is left. */
  lemma WriteTakes(c: Conn, n: nat)
    requires Writing(c) && c.fins == 0
    ensures var d, k := HandleWrite(c, Wrote(n)), if n < |c.output| then n else |c.output|;
      && d.wire == c.wire + c.output[..k] && d.output == c.output[k..] && d.log == c.log
      && (Writing(d) <==> c.output[k..] != [] || c.output == [])
      && d.fins == (if k > 0 && k == |c.output| && c.state.Disconnecting? then 1 else 0)
  {
    assert c.output == [] ==> c.wire + c.output[..0] == c.wire && c.output[0..] == c.output;
  }

  /** Closing takes the channel out of epoll exactly when its mask was not empty. With reading stopped and
      nothing to write, disableAll registers the closed connection again, and a hang-up would close it twice. */
  lemma CloseLeavesEpollIffInterested(c: Conn)
    requires I.Coherent(c.channel) && !c.channel.index.New?
    requires c.channel.events == I.NONE_EVENT ==> c.channel.index.Deleted?
    ensures HandleClose(c).channel.index.Deleted? <==> c.channel.events != I.NONE_EVENT
  {
  }

  /** stopRead while nothing is being written, then a close: the closed connection is in epoll. */
  lemma CloseAfterStopRead(c: Conn)
    requires Watching(c) && Open(c) && c.output == [] && c.channel.index.Added? && c.channel.events == I.READ_EVENT
    ensures HandleClose(StopReadInLoop(c)).channel == I.Mark(I.Added, I.NONE_EVENT)
  {
    assert I.In in c.channel.events * I.READ_EVENT;
  }

  /** How far along a connection is. */
  function Rank(s: State): nat {
    match s
    case Connecting => 0
    case Connected => 1
    case Disconnecting => 2
    case Disconnected => 3
  }

  /** The first line of shutdown moves the state forward exactly when the connection is not yet closed. */
  lemma ShutdownForwardIffNotClosed(c: Conn)
    ensures Rank(c.state) <= Rank(ShutdownState(c).state) <==> !c.state.Disconnected?
  {
  }
}
