/** Messages over a byte stream: length-prefixed frames (lab 3) and fixed 1024-byte frames (lab 2). */
module Framing {

  type Byte = b: int | 0 <= b < 256

  type Bytes = seq<Byte>

  datatype Option<T> = None | Some(value: T)

  // ------------------------------------------------------------ big-endian numbers

  function Power(width: nat): (p: nat)
    ensures 0 < p
  {
    if width == 0 then 1 else 256 * Power(width - 1)
  }

  /** The `width` lowest bytes of `n`, most significant first. */
  function BigEndian(n: nat, width: nat): (bytes: Bytes)
    ensures |bytes| == width
  {
    if width == 0 then [] else BigEndian(n / 256, width - 1) + [n % 256]
  }

  function FromBigEndian(bytes: Bytes): nat {
    if bytes == [] then 0 else FromBigEndian(bytes[..|bytes| - 1]) * 256 + bytes[|bytes| - 1]
  }

  lemma {:induction false} NumberRoundTrip(n: nat, width: nat)
    requires n < Power(width)
    ensures FromBigEndian(BigEndian(n, width)) == n
  {
    hide Power, FromBigEndian;
    if width == 0 {
      NoDigits();
    } else {
      FirstDigits(n, width);
      NumberRoundTrip(n / 256, width - 1);
      LastDigit(BigEndian(n / 256, width - 1), n % 256);
    }
  }

  /** The widths in use: four bytes and eight. */
  lemma Powers()
    ensures Power(4) == 0x1_0000_0000 && Power(8) == 0x1_0000_0000_0000_0000
  {
    assert Power(2) == 0x1_0000;
  }

  /** The most significant byte comes first. */
  lemma {:induction false} BigEndianDigits(n: nat, width: nat, i: nat)
    requires i < width
    ensures BigEndian(n, width)[i] == n / Power(width - 1 - i) % 256
  {
    if i < width - 1 {
      BigEndianDigits(n / 256, width - 1, i);
      DividedTwice(n, Power(width - 2 - i));
    }
  }

  lemma DividedTwice(n: nat, p: nat)
    requires 0 < p
    ensures n / 256 / p == n / (256 * p)
  {
    var q, r := n / (256 * p), n % (256 * p);
    assert n == 256 * (p * q) + r by {
      assert n == 256 * p * q + r;
    }
    assert n / 256 == p * q + r / 256;
    assert 0 <= r / 256 < p;
    QuotientIs(n / 256, p, q);
  }

  lemma QuotientIs(n: nat, p: nat, q: nat)
    requires 0 < p && p * q <= n < p * q + p
    ensures n / p == q
  {
    var d := n / p;
    assert n == p * d + n % p;
    assert p * (d - q) == p * d - p * q;
    SmallMultiple(p, d - q);
  }

  lemma SmallMultiple(p: nat, k: int)
    requires 0 < p + p * k && p * k < p
    ensures k == 0
  {
    if 1 <= k {
      PositiveMultiple(p, k);
    } else if k <= -1 {
      PositiveMultiple(p, -k);
    }
  }

  lemma PositiveMultiple(p: nat, k: int)
    requires 1 <= k
    ensures p <= p * k
  {
    assert p * k == p * (k - 1) + p;
  }

  lemma NoDigits()
    ensures Power(0) == 1 && FromBigEndian([]) == 0
  {
  }

  lemma LastDigit(front: Bytes, last: Byte)
    ensures FromBigEndian(front + [last]) == FromBigEndian(front) * 256 + last
  {
    assert (front + [last])[..|front|] == front;
  }

  lemma FirstDigits(n: nat, width: nat)
    requires 0 < width && n < Power(width)
    ensures n / 256 < Power(width - 1)
  {
  }

  lemma {:induction false} BytesRoundTrip(bytes: Bytes)
    ensures FromBigEndian(bytes) < Power(|bytes|)
    ensures BigEndian(FromBigEndian(bytes), |bytes|) == bytes
  {
    if bytes != [] {
      var front, last := bytes[..|bytes| - 1], bytes[|bytes| - 1];
      BytesRoundTrip(front);
      assert FromBigEndian(bytes) / 256 == FromBigEndian(front) && FromBigEndian(bytes) % 256 == last;
      assert bytes == front + [last];
    }
  }

  // ------------------------------------------------------------ the connection

  function Flat(chunks: seq<Bytes>): Bytes {
    if chunks == [] then [] else chunks[0] + Flat(chunks[1..])
  }

  /** The receiving end of a connection that the peer will close: the bytes still to come, as the network cuts them. */
  class Socket {
    var chunks: seq<Bytes>

    ghost predicate Valid()
      reads this
    {
      forall c :: c in chunks ==> c != []
    }

    ghost function Rest(): Bytes
      reads this
    {
      Flat(chunks)
    }

    constructor (chunks: seq<Bytes>)
      requires forall c :: c in chunks ==> c != []
      ensures Valid() && Rest() == Flat(chunks)
    {
      this.chunks := chunks;
    }

    /** `recv`: some bytes of what is to come, at most `n`; none only at the end. */
    method Recv(n: nat) returns (packet: Bytes)
      requires Valid() && 0 < n
      modifies this
      ensures Valid() && old(Rest()) == packet + Rest() && |packet| <= n
      ensures packet == [] <==> old(Rest()) == []
    {
      if chunks == [] {
        return [];
      }
      assert chunks[0] in chunks && forall c :: c in chunks[1..] ==> c in chunks;
      var first := chunks[0];
      if |first| <= n {
        packet := first;
        chunks := chunks[1..];
      } else {
        packet := first[..n];
        assert first == packet + first[n..];
        chunks := [first[n..]] + chunks[1..];
      }
    }

    /** `recvall`: exactly `n` bytes, or None (with the connection drained) if the stream ends before. */
    method RecvAll(n: nat) returns (r: Option<Bytes>)
      requires Valid()
      modifies this
      ensures Valid()
      ensures n <= |old(Rest())| ==> r == Some(old(Rest())[..n]) && Rest() == old(Rest())[n..]
      ensures n > |old(Rest())| ==> r == None && Rest() == []
    {
      var data := [];
      while |data| < n
        invariant Valid() && |data| <= n && old(Rest()) == data + Rest()
        decreases n - |data|
      {
        var packet := Recv(n - |data|);
        if packet == [] {
          return None;
        }
        data := data + packet;
      }
      return Some(data);
    }

    /**
     * `recv_message`. A body of length zero counts as invalid: an empty byte string is false in the code. The three
     * status codes of the code are all 0, so only the missing message tells a failure.
     */
    method RecvMessage() returns (r: Option<Bytes>)
      requires Valid()
      modifies this
      ensures Valid() && r == Next(old(Rest())).0 && Rest() == Next(old(Rest())).1
    {
      var header := RecvAll(8);
      if header == None {
        return None;
      }
      var length := FromBigEndian(header.value);
      ghost var stream := old(Rest());
      assert length <= |stream| - 8 ==>
        stream[8..][..length] == stream[8..8 + length] && stream[8..][length..] == stream[8 + length..];
      var data := RecvAll(length);
      if data == None || data.value == [] {
        return None;
      }
      return data;
    }

    /**
     * `handle_client`: an invalid message is answered with an error and reading goes on; the thread ends when a reply
     * cannot be sent any more, here after `replies` of them. `messages` are those that get processed.
     */
    method HandleClient(replies: nat) returns (messages: seq<Bytes>)
      requires Valid()
      modifies this
      ensures Valid() && messages <= Decoded(old(Rest()))
      ensures Rounds(old(Rest())) <= replies + 1 ==> messages == Decoded(old(Rest()))
    {
      hide Next, Decoded, Rounds;
      messages := [];
      ghost var rounds := Rounds(Rest());
      var left: nat := replies;
      var more := true;
      while more
        invariant Valid() && left <= replies
        invariant Decoded(old(Rest())) == messages + Decoded(Rest())
        invariant var done := replies - left + if more then 0 else 1;
          Rounds(Rest()) == if done < rounds then rounds - done else 0
        invariant !more ==> left == 0
        decreases left, more
      {
        NextShrinks(Rest());
        DecodedStep(Rest());
        var r := RecvMessage();
        if r.Some? {
          messages := messages + [r.value];
        }
        if left == 0 {
          more := false;
        } else {
          left := left - 1;
        }
      }
      DrainedIsDecoded(Rest());
    }

    /** The lab 2 reader: 1024 bytes at a time until the stream ends. */
    method RecvFrames() returns (bodies: seq<Bytes>)
      requires Valid()
      modifies this
      ensures Valid() && bodies == Cut(old(Rest()))
    {
      hide Body, Flat;
      bodies := [];
      var more := true;
      while more
        invariant Valid()
        invariant Cut(old(Rest())) == bodies + if more then Cut(Rest()) else []
        decreases more, |Rest()|
      {
        var frame := RecvAll(FRAME);
        if frame == None {
          more := false;
        } else {
          bodies := bodies + [Body(frame.value)];
        }
      }
    }
  }

  // ------------------------------------------------------------ length-prefixed frames

  /** What `recv_message` finds at the front of a stream, and what it leaves. */
  function Next(stream: Bytes): (Option<Bytes>, Bytes) {
    if |stream| < 8 then (None, [])
    else
      var length := FromBigEndian(stream[..8]);
      if |stream| - 8 < length then (None, [])
      else if length == 0 then (None, stream[8..])
      else (Some(stream[8..8 + length]), stream[8 + length..])
  }

  lemma NextShrinks(stream: Bytes)
    ensures stream != [] ==> |Next(stream).1| < |stream|
    ensures stream == [] ==> Next(stream) == (None, [])
  {
  }

  /** The messages that come out when reading goes on until the stream is drained. */
  function Decoded(stream: Bytes): seq<Bytes>
    decreases |stream|
  {
    NextShrinks(stream);
    if stream == [] then []
    else (if Next(stream).0 == None then [] else [Next(stream).0.value]) + Decoded(Next(stream).1)
  }

  /** How many calls of `recv_message` drain the stream. */
  function Rounds(stream: Bytes): nat
    decreases |stream|
  {
    NextShrinks(stream);
    if stream == [] then 0 else 1 + Rounds(Next(stream).1)
  }

  lemma DecodedStep(stream: Bytes)
    ensures Decoded(stream) == (if Next(stream).0 == None then [] else [Next(stream).0.value]) + Decoded(Next(stream).1)
    ensures Rounds(Next(stream).1) == if Rounds(stream) == 0 then 0 else Rounds(stream) - 1
  {
    hide Next;
    NextShrinks(stream);
  }

  lemma DrainedIsDecoded(stream: Bytes)
    ensures Rounds(stream) == 0 ==> Decoded(stream) == []
  {
    hide Next;
  }

  /** `serialize`: None stands for the overflow error of the eight-byte length. */
  function Serialize(body: Bytes): Option<Bytes> {
    if Power(8) <= |body| then None else Some(BigEndian(|body|, 8) + body)
  }

  /** The length in eight bytes, then the body; a length that eight bytes cannot hold is an error. */
  lemma OneMessage(body: Bytes)
    ensures Serialize(body).Some? <==> |body| < 0x1_0000_0000_0000_0000
    ensures Serialize(body).Some? ==>
      var bytes := Serialize(body).value;
      |bytes| == 8 + |body| && bytes[8..] == body
        && forall i :: 0 <= i < 8 ==> bytes[i] == |body| / Power(7 - i) % 256
  {
    Powers();
    forall i | 0 <= i < 8 ensures BigEndian(|body|, 8)[i] == |body| / Power(7 - i) % 256 {
      BigEndianDigits(|body|, 8, i);
    }
    hide Power, BigEndian;
  }

  /** Bodies that the length field can describe; the empty one is framed but not accepted. */
  ghost predicate Sendable(bodies: seq<Bytes>) {
    forall b :: b in bodies ==> |b| < Power(8)
  }

  function Stream(bodies: seq<Bytes>): Bytes
    requires Sendable(bodies)
  {
    if bodies == [] then [] else Serialize(bodies[0]).value + Stream(bodies[1..])
  }

  function NonEmpty(bodies: seq<Bytes>): (accepted: seq<Bytes>)
    ensures [] !in bodies ==> accepted == bodies
  {
    if bodies == [] then [] else (if bodies[0] == [] then [] else [bodies[0]]) + NonEmpty(bodies[1..])
  }

  lemma NextOfFrame(body: Bytes, rest: Bytes)
    requires |body| < Power(8)
    ensures Next(Serialize(body).value + rest) == (if body == [] then None else Some(body), rest)
  {
    var header := BigEndian(|body|, 8);
    var stream := Serialize(body).value + rest;
    assert stream[..8] == header;
    NumberRoundTrip(|body|, 8);
    assert stream[8..8 + |body|] == body;
    assert stream[8 + |body|..] == rest;
  }

  /** The stream breaks off before the end of its first frame. */
  ghost predicate Truncated(tail: Bytes) {
    |tail| < 8 || |tail| - 8 < FromBigEndian(tail[..8])
  }

  ghost predicate Framed(stream: Bytes, bodies: seq<Bytes>, tail: Bytes) {
    Sendable(bodies) && Truncated(tail) && stream == Stream(bodies) + tail
  }

  /**
   * Reading a stream is exactly undoing its framing: the messages read are the given ones if and only if the stream is
   * the frames of these messages, with any empty frames in between, followed by something cut off.
   */
  lemma DecodedExactly(stream: Bytes, messages: seq<Bytes>)
    ensures Decoded(stream) == messages <==>
      exists bodies, tail :: Framed(stream, bodies, tail) && NonEmpty(bodies) == messages
  {
    hide Framed, NonEmpty, Decoded;
    var bodies, tail := DecodedParts(stream);
    forall bodies, tail | Framed(stream, bodies, tail) ensures Decoded(stream) == NonEmpty(bodies) {
      StreamRoundTrip(stream, bodies, tail);
    }
  }

  /** Every stream has the form of frames followed by a cut-off tail. */
  lemma {:induction false} DecodedParts(stream: Bytes) returns (bodies: seq<Bytes>, tail: Bytes)
    ensures Framed(stream, bodies, tail)
    decreases |stream|
  {
    hide Serialize, FromBigEndian;
    if Truncated(stream) {
      bodies, tail := [], stream;
      assert [] + stream == stream;
    } else {
      hide Truncated;
      var first, rest := FirstFrame(stream);
      var more;
      more, tail := DecodedParts(rest);
      bodies := [first] + more;
      StreamSplit(bodies, tail);
      assert bodies[1..] == more;
    }
  }

  lemma FirstFrame(stream: Bytes) returns (body: Bytes, rest: Bytes)
    requires !Truncated(stream)
    ensures |body| < Power(8) && |rest| < |stream|
    ensures Serialize(body).Some? && stream == Serialize(body).value + rest
  {
    hide BigEndian, FromBigEndian, Power;
    BytesRoundTrip(stream[..8]);
    var length := FromBigEndian(stream[..8]);
    body, rest := stream[8..8 + length], stream[8 + length..];
    assert Serialize(body).value == stream[..8] + body;
    assert stream == stream[..8] + body + rest;
  }

  lemma {:induction false} StreamRoundTrip(stream: Bytes, bodies: seq<Bytes>, tail: Bytes)
    requires Framed(stream, bodies, tail)
    ensures Decoded(stream) == NonEmpty(bodies)
    ensures Rounds(stream) == |bodies| + if tail == [] then 0 else 1
    decreases |bodies|
  {
    hide Next, Serialize, Decoded, Rounds, Truncated;
    if bodies == [] {
      assert [] + tail == tail == stream;
      TailIsNothing(tail);
    } else {
      var rest := Stream(bodies[1..]) + tail;
      StreamRoundTrip(rest, bodies[1..], tail);
      StreamSplit(bodies, tail);
      NextOfFrame(bodies[0], rest);
      DecodedStep(stream);
      FrameIsRound(bodies[0], rest);
    }
  }

  lemma TailIsNothing(tail: Bytes)
    requires Truncated(tail)
    ensures Decoded(tail) == [] && Rounds(tail) == if tail == [] then 0 else 1
  {
    assert Next(tail) == (None, []);
  }

  lemma FrameIsRound(body: Bytes, rest: Bytes)
    requires |body| < Power(8)
    ensures Serialize(body).Some? && Rounds(Serialize(body).value + rest) == 1 + Rounds(rest)
  {
    NextOfFrame(body, rest);
    hide Next;
  }

  lemma StreamSplit(bodies: seq<Bytes>, tail: Bytes)
    requires Sendable(bodies) && bodies != []
    ensures Serialize(bodies[0]).Some?
    ensures Stream(bodies) + tail == Serialize(bodies[0]).value + (Stream(bodies[1..]) + tail)
  {
    hide BigEndian, Power;
    assert bodies[0] in bodies && Sendable(bodies[1..]);
    Concatenated(Serialize(bodies[0]).value, Stream(bodies[1..]), tail);
  }

  lemma Concatenated(a: Bytes, b: Bytes, c: Bytes)
    ensures (a + b) + c == a + (b + c)
  {
  }

  /** Sender, network and receiver together: however the network cuts the stream, the messages arrive as sent. */
  method SendAndReceive(bodies: seq<Bytes>, chunks: seq<Bytes>, replies: nat) returns (received: seq<Bytes>)
    requires Sendable(bodies) && |bodies| <= replies
    requires (forall c :: c in chunks ==> c != []) && Flat(chunks) == Stream(bodies)
    ensures received == NonEmpty(bodies)
  {
    hide Decoded, Rounds, NonEmpty;
    var socket := new Socket(chunks);
    assert Stream(bodies) + [] == Stream(bodies);
    StreamRoundTrip(Stream(bodies), bodies, []);
    received := socket.HandleClient(replies);
  }

  // ------------------------------------------------------------ fixed frames

  const FRAME := 1024

  function Zeros(n: nat): (z: Bytes)
    ensures |z| == n
  {
    seq(n, i => 0)
  }

  /** `Message.serialize`: a four-byte length, the body, zeros up to 1024 bytes. A longer message is not cut. */
  function Padded(body: Bytes): Option<Bytes> {
    if Power(4) <= |body| then None
    else
      var full := BigEndian(|body|, 4) + body;
      Some(full + if |full| < FRAME then Zeros(FRAME - |full|) else [])
  }

  /** `Message.deserialize`, up to decoding the text. */
  function Body(frame: Bytes): Bytes
    requires |frame| == FRAME
  {
    var length := FromBigEndian(frame[..4]);
    if length <= FRAME - 4 then frame[4..4 + length] else frame[4..]
  }

  function Cut(stream: Bytes): seq<Bytes> {
    if |stream| < FRAME then [] else [Body(stream[..FRAME])] + Cut(stream[FRAME..])
  }

  ghost predicate Packable(bodies: seq<Bytes>) {
    forall b :: b in bodies ==> |b| < Power(4)
  }

  function Frames(bodies: seq<Bytes>): Bytes
    requires Packable(bodies)
  {
    if bodies == [] then [] else Padded(bodies[0]).value + Frames(bodies[1..])
  }

  /**
   * One frame: the length in four bytes, the body, and zeros. It has 1024 bytes and holds its body exactly when the
   * body has at most 1020 bytes; of a longer one the first 1020 bytes are read. A length that four bytes cannot hold is
   * an error.
   */
  lemma OneFrame(body: Bytes)
    ensures Padded(body).Some? <==> |body| < 0x1_0000_0000
    ensures Padded(body).Some? ==>
      var frame := Padded(body).value;
      && |frame| == (if |body| <= 1020 then 1024 else 4 + |body|)
      && FromBigEndian(frame[..4]) == |body| && frame[4..4 + |body|] == body
      && (forall i :: 4 + |body| <= i < |frame| ==> frame[i] == 0)
      && Body(frame[..1024]) == (if |body| <= 1020 then body else body[..1020])
  {
    Powers();
    hide Power, FromBigEndian, BigEndian;
    if |body| < 0x1_0000_0000 {
      var frame := Padded(body).value;
      NumberRoundTrip(|body|, 4);
      assert frame[..1024][..4] == frame[..4] == BigEndian(|body|, 4);
      assert frame[4..4 + |body|] == body;
      if |body| <= 1020 {
        assert frame[..1024][4..4 + |body|] == body;
      } else {
        assert frame[..1024][4..] == body[..1020];
      }
    }
  }

  lemma CutFirst(frame: Bytes, rest: Bytes)
    requires FRAME <= |frame|
    ensures Cut(frame + rest) != [] && Cut(frame + rest)[0] == Body(frame[..FRAME])
    ensures |frame| == FRAME ==> Cut(frame + rest) == [Body(frame[..FRAME])] + Cut(rest)
  {
    hide Body;
    assert (frame + rest)[..FRAME] == frame[..FRAME];
    assert |frame| == FRAME ==> (frame + rest)[FRAME..] == rest;
  }

  /** Cutting the stream every 1024 bytes recovers the messages if and only if all of them fit. */
  lemma {:induction false} CutRoundTrip(bodies: seq<Bytes>)
    requires Packable(bodies)
    ensures Cut(Frames(bodies)) == bodies <==> forall b :: b in bodies ==> |b| <= 1020
  {
    hide Body, Padded, Cut;
    if bodies == [] {
      NothingToCut();
    } else {
      OneFrame(bodies[0]);
      CutRoundTrip(bodies[1..]);
      CutFirst(Padded(bodies[0]).value, Frames(bodies[1..]));
      assert bodies == [bodies[0]] + bodies[1..];
    }
  }

  lemma NothingToCut()
    ensures Cut([]) == []
  {
  }
}
