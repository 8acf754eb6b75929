/** A device connection: draining the stream, and pairing write commands with their
    acknowledgements. */
module Session {
  import opened Crc
  import opened Codec

  // ---------------------------------------------------------------- draining the stream

  /** A frame handed on by the connection. */
  datatype Delivered = Delivered(device: seq<byte>, frame: seq<byte>, correlation: string)

  /** `device` is who the session found out it talks to, `profile` whom its access profile names, if anybody. */
  datatype Connection = Connection(
    buffer: seq<byte>, profile: seq<byte>, device: seq<byte>, state: State, delivered: seq<Delivered>, closed: bool)

  /** The identity the codec is told: the session's own, and the profile's as long as there is none. */
  function Told(c: Connection): seq<byte> { if c.device != [] then c.device else c.profile }

  /** One frame off the buffer. A rejected buffer or a change of the session's identity closes the
      connection; what was buffered is then lost. A first frame may name another device than the profile. */
  function TakeFrame(c: Connection): Connection
    requires Ready(c)
  {
    match Ingress(c.buffer, Told(c), c.state)
    case Refused(_) => c.(buffer := [], closed := true)
    case Accepted(consumed, device, correlation, state) =>
      if c.device != [] && device != c.device then c.(buffer := [], closed := true)
      else
        var frame := SensorFrame(c.buffer, Told(c)).frame;
        var delivered := c.delivered + [Delivered(device, frame, correlation)];
        Connection(c.buffer[consumed..], c.profile, device, state, delivered, false)
  }

  predicate Ready(c: Connection) {
    !c.closed && c.buffer != [] && !Ingress(c.buffer, Told(c), c.state).More?
  }

  function Drain(c: Connection): Connection
    decreases |c.buffer|
  {
    if !Ready(c) then c
    else Drain(TakeFrame(c))
  }

  function Extend(c: Connection, chunk: seq<byte>): Connection {
    if c.closed then c else c.(buffer := c.buffer + chunk)
  }

  /** A chunk read from the socket. */
  function Feed(c: Connection, chunk: seq<byte>): Connection { Drain(Extend(c, chunk)) }

  /** The receiving loop. */
  method Receive(c: Connection, chunk: seq<byte>) returns (r: Connection)
    ensures r == Feed(c, chunk)
  {
    r := Extend(c, chunk);
    while Ready(r)
      invariant Drain(r) == Feed(c, chunk)
      decreases |r.buffer|
    {
      r := TakeFrame(r);
    }
  }

  lemma IngressIsStable(data: seq<byte>, more: seq<byte>, device: seq<byte>, state: State)
    requires !Ingress(data, device, state).More?
    ensures Ingress(data + more, device, state) == Ingress(data, device, state)
    ensures SensorFrame(data + more, device) == SensorFrame(data, device)
  {
    hide SensorFrame;
    AnswerIsStable(data, more, device);
  }

  lemma ReadyIsStable(c: Connection, more: seq<byte>)
    requires Ready(c)
    ensures Ready(Extend(c, more)) && TakeFrame(Extend(c, more)) == Extend(TakeFrame(c), more)
  {
    hide Ingress, SensorFrame;
    IngressIsStable(c.buffer, more, Told(c), c.state);
    var a := Ingress(c.buffer, Told(c), c.state);
    if a.Accepted? {
      assert (c.buffer + more)[a.consumed..] == c.buffer[a.consumed..] + more;
    }
  }

  lemma {:induction false} DrainThenExtend(c: Connection, more: seq<byte>)
    ensures Drain(Extend(Drain(c), more)) == Drain(Extend(c, more))
    decreases |c.buffer|
  {
    if Ready(c) {
      ReadyIsStable(c, more);
      DrainThenExtend(TakeFrame(c), more);
    }
  }

  function FeedAll(c: Connection, chunks: seq<seq<byte>>): Connection
    decreases |chunks|
  {
    if chunks == [] then c else FeedAll(Feed(c, chunks[0]), chunks[1..])
  }

  function Concat(chunks: seq<seq<byte>>): seq<byte>
    decreases |chunks|
  {
    if chunks == [] then [] else chunks[0] + Concat(chunks[1..])
  }

  lemma FeedTwice(c: Connection, a: seq<byte>, b: seq<byte>)
    ensures Feed(Feed(c, a), b) == Feed(c, a + b)
  {
    DrainThenExtend(Extend(c, a), b);
    assert c.buffer + a + b == c.buffer + (a + b);
  }

  lemma {:induction false} FeedAllIsFeed(c: Connection, chunks: seq<seq<byte>>)
    requires chunks != []
    ensures FeedAll(c, chunks) == Feed(c, Concat(chunks))
    decreases |chunks|
  {
    if |chunks| == 1 {
      assert chunks[0] + [] == chunks[0];
    } else {
      FeedAllIsFeed(Feed(c, chunks[0]), chunks[1..]);
      FeedTwice(c, chunks[0], Concat(chunks[1..]));
    }
  }

  /** However the network cuts a byte stream, the frames delivered, the device, the state and the
      bytes left over are the same. */
  lemma SegmentationIndependence(c: Connection, one: seq<seq<byte>>, other: seq<seq<byte>>)
    requires one != [] && other != [] && Concat(one) == Concat(other)
    ensures FeedAll(c, one) == FeedAll(c, other)
  {
    FeedAllIsFeed(c, one);
    FeedAllIsFeed(c, other);
  }

  // ---------------------------------------------------------------- the listener's buffer

  /** What a connection keeps waiting for is shorter than an IMEI and the longest report. */
  lemma {:induction false} LeftoverIsShort(c: Connection)
    requires |c.buffer| < 274 || !c.closed
    ensures Drain(c).buffer == [] || |Drain(c).buffer| < 274
    decreases |c.buffer|
  {
    hide Ingress, SensorFrame;
    if Ready(c) {
      LeftoverIsShort(TakeFrame(c));
    } else if c.buffer != [] && !c.closed {
      WaitingIsShort(c.buffer, Told(c), c.state);
    }
  }

  lemma WaitingIsShort(data: seq<byte>, device: seq<byte>, state: State)
    requires Ingress(data, device, state).More?
    ensures |data| < 274
  {
    hide ValidCrc;
  }

  const MAX_BUFFER := 65536
  const CHUNK := 16384

  /** However long the stream, the listener's buffer limit never cuts a read short: after every
      drained chunk there is room for a whole next one. */
  lemma {:induction false} BufferLimitNeverBinds(c: Connection, chunks: seq<seq<byte>>)
    requires |c.buffer| < 274
    ensures |FeedAll(c, chunks).buffer| < 274 && |FeedAll(c, chunks).buffer| + CHUNK <= MAX_BUFFER
    decreases |chunks|
  {
    hide Drain;
    if chunks != [] {
      LeftoverIsShort(Extend(c, chunks[0]));
      BufferLimitNeverBinds(Feed(c, chunks[0]), chunks[1..]);
    }
  }
}
