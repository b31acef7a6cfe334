// Length-prefixed messages on a byte stream: the writer, the reader and the
// connection handler.
module Framing {
  import opened Bytes
  import opened RaftTypes
  import opened Wrappers

  const MAX_MESSAGE := 10 * 1024 * 1024

  /** The payload encoding of consensus messages, which belongs to raft-rs. */
  datatype Codec = Codec(encode: Message -> seq<byte>, decode: seq<byte> -> Option<Message>)

  ghost predicate Inverse(c: Codec) {
    forall m :: c.decode(c.encode(m)) == Some(m)
  }

  predicate Fits(c: Codec, m: Message) {
    |c.encode(m)| <= MAX_MESSAGE
  }

  /** The length is cast to 32 bits, so it wraps for payloads of 4 GiB and more. */
  function Frame(c: Codec, m: Message): seq<byte> {
    ToBE(|c.encode(m)| % U32_LIMIT, 4) + c.encode(m)
  }

  function Frames(c: Codec, ms: seq<Message>): seq<byte> {
    if ms == [] then [] else Frame(c, ms[0]) + Frames(c, ms[1..])
  }

  datatype ReadResult = Got(message: Message, rest: seq<byte>) | UnexpectedEof | InvalidData

  function ReadFrame(c: Codec, bytes: seq<byte>): (r: ReadResult)
    ensures r.Got? ==> |r.rest| < |bytes|
  {
    if |bytes| < 4 then UnexpectedEof
    else
      var len := FromBE(bytes[..4]);
      if len > MAX_MESSAGE then InvalidData
      else if |bytes| < 4 + len then UnexpectedEof
      else
        match c.decode(bytes[4..4 + len])
        case None => InvalidData
        case Some(m) => Got(m, bytes[4 + len..])
  }

  /** Everything a connection delivers, and whether it ended with a clean or partial end of file. */
  function ReadAll(c: Codec, bytes: seq<byte>): (seq<Message>, bool)
    decreases |bytes|
  {
    match ReadFrame(c, bytes)
    case UnexpectedEof => ([], true)
    case InvalidData => ([], false)
    case Got(m, rest) =>
      var (ms, clean) := ReadAll(c, rest);
      ([m] + ms, clean)
  }

  lemma LengthBytes(p: byte, q: byte, r: byte, s: byte)
    ensures FromBE([p, q, r, s]) == 0x100_0000 * p + 0x1_0000 * q + 0x100 * r + s
  {
    assert [p, q, r, s][..3] == [p, q, r] && [p, q, r][..2] == [p, q] && [p, q][..1] == [p] && [p][..0] == [];
    assert FromBE([p]) == p;
    assert FromBE([p, q]) == 0x100 * FromBE([p]) + q;
    assert FromBE([p, q, r]) == 0x100 * FromBE([p, q]) + r;
  }

  /** Four bytes of length, the most significant first, then the payload. */
  lemma FrameBytes(c: Codec, m: Message, p: byte, q: byte, r: byte, s: byte)
    requires |c.encode(m)| == 0x100_0000 * p + 0x1_0000 * q + 0x100 * r + s
    ensures Frame(c, m) == [p, q, r, s] + c.encode(m)
  {
    LengthBytes(p, q, r, s);
    ToFromBE([p, q, r, s]);
    hide ToBE, FromBE;
  }

  lemma LengthPrefix(c: Codec, m: Message, tail: seq<byte>)
    ensures var s := Frame(c, m) + tail;
            && |s| == 4 + |c.encode(m)| + |tail|
            && FromBE(s[..4]) == |c.encode(m)| % U32_LIMIT
            && s[4..] == c.encode(m) + tail
  {
    var len := |c.encode(m)| % U32_LIMIT;
    var prefix := ToBE(len, 4);
    var s := Frame(c, m) + tail;
    Pow256Widths();
    FromToBE(len, 4);
    assert s[..4] == prefix;
  }

  /** A frame is read back, leaving exactly what follows it, if and only if its payload is at
      most 10 MiB. */
  lemma FrameRoundTripIff(c: Codec, m: Message, tail: seq<byte>)
    requires Inverse(c)
    ensures ReadFrame(c, Frame(c, m) + tail) == Got(m, tail) <==> |c.encode(m)| <= 10_485_760
    ensures Fits(c, m) <==> |c.encode(m)| <= 10_485_760
  {
    var s := Frame(c, m) + tail;
    var payload := c.encode(m);
    LengthPrefix(c, m, tail);
    var len := FromBE(s[..4]);
    hide ToBE, FromBE, Frame;
    assert c.decode(payload) == Some(m);
    if Fits(c, m) {
      assert len == |payload|;
      assert s[4..4 + len] == payload && s[4 + len..] == tail;
    } else if len <= MAX_MESSAGE && |s| >= 4 + len {
      assert len < |payload|;
      assert |s[4 + len..]| > |tail|;
    }
  }

  /** A frame that is not all there reads as the end of the stream. */
  lemma PartialFrame(c: Codec, m: Message, cut: nat)
    requires Fits(c, m) && cut < |Frame(c, m)|
    ensures ReadFrame(c, Frame(c, m)[..cut]) == UnexpectedEof
  {
    LengthPrefix(c, m, []);
    var s := Frame(c, m) + [];
    assert s == Frame(c, m);
    hide ToBE, FromBE, Frame;
    if cut >= 4 {
      assert s[..cut][..4] == s[..4];
    }
  }

  /** How many whole frames lie before the cut. */
  function WholeFrames(c: Codec, ms: seq<Message>, cut: nat): (k: nat)
    ensures k <= |ms|
  {
    if ms == [] || cut < |Frame(c, ms[0])| then 0
    else 1 + WholeFrames(c, ms[1..], cut - |Frame(c, ms[0])|)
  }

  /** The count is exact: that many frames fit before the cut and one more does not. */
  lemma {:induction false} WholeFramesExact(c: Codec, ms: seq<Message>, cut: nat)
    ensures var k := WholeFrames(c, ms, cut);
            && |Frames(c, ms[..k])| <= cut
            && (k < |ms| ==> cut < |Frames(c, ms[..k + 1])|)
  {
    hide Frame;
    if ms != [] && cut >= |Frame(c, ms[0])| {
      var k := WholeFrames(c, ms[1..], cut - |Frame(c, ms[0])|);
      WholeFramesExact(c, ms[1..], cut - |Frame(c, ms[0])|);
      assert ms[..k + 1][1..] == ms[1..][..k];
      if k + 1 < |ms| {
        assert ms[..k + 2][1..] == ms[1..][..k + 1];
      }
    } else if ms != [] {
      assert ms[..1][1..] == [];
    }
  }

  /** Cut anywhere, a stream of frames yields exactly the whole ones before the cut and then
      the end of the stream. */
  lemma {:induction false} CutStream(c: Codec, ms: seq<Message>, cut: nat)
    requires Inverse(c) && (forall m | m in ms :: Fits(c, m)) && cut <= |Frames(c, ms)|
    ensures ReadAll(c, Frames(c, ms)[..cut]) == (ms[..WholeFrames(c, ms, cut)], true)
  {
    hide Frame, ReadFrame, Fits, Inverse;
    var s := Frames(c, ms)[..cut];
    if ms == [] {
      EmptyStream(c);
      assert s == [];
    } else {
      var first := Frame(c, ms[0]);
      if cut < |first| {
        assert s == first[..cut];
        PartialFrame(c, ms[0], cut);
      } else {
        var tail := Frames(c, ms[1..])[..cut - |first|];
        assert s == first + tail;
        FrameRoundTripIff(c, ms[0], tail);
        CutStream(c, ms[1..], cut - |first|);
        assert ms[..WholeFrames(c, ms, cut)] == [ms[0]] + ms[1..][..WholeFrames(c, ms[1..], cut - |first|)];
      }
    }
  }

  lemma EmptyStream(c: Codec)
    ensures ReadAll(c, []) == ([], true)
  {
  }

  lemma {:induction false} AllFramesWhole(c: Codec, ms: seq<Message>)
    ensures WholeFrames(c, ms, |Frames(c, ms)|) == |ms|
  {
    if ms != [] {
      AllFramesWhole(c, ms[1..]);
    }
  }

  /** Reading what was written yields the same messages. */
  lemma StreamRoundTrip(c: Codec, ms: seq<Message>)
    requires Inverse(c) && forall m | m in ms :: Fits(c, m)
    ensures ReadAll(c, Frames(c, ms)) == (ms, true)
  {
    AllFramesWhole(c, ms);
    CutStream(c, ms, |Frames(c, ms)|);
    assert Frames(c, ms)[..|Frames(c, ms)|] == Frames(c, ms);
    assert ms[..|ms|] == ms;
  }

  /** A length prefix above 10 MiB, or a payload that does not decode, is an error. */
  lemma BadFrame(c: Codec, len: nat, payload: seq<byte>)
    requires len < U32_LIMIT
    requires len > 10_485_760 || (len <= |payload| && c.decode(payload[..len]) == None)
    ensures ReadFrame(c, ToBE(len, 4) + payload) == InvalidData
  {
    var s := ToBE(len, 4) + payload;
    Pow256Widths();
    FromToBE(len, 4);
    assert s[..4] == ToBE(len, 4) && s[4..] == payload;
    hide ToBE, FromBE;
    if len <= |payload| {
      assert s[4..4 + len] == payload[..len];
    }
  }

  /** It ends the connection after the frames before it, whatever follows. */
  lemma {:induction false} BadFrameEndsStream(c: Codec, ms: seq<Message>, len: nat, payload: seq<byte>)
    requires Inverse(c) && (forall x | x in ms :: Fits(c, x)) && len < U32_LIMIT
    requires len > 10_485_760 || (len <= |payload| && c.decode(payload[..len]) == None)
    ensures ReadAll(c, Frames(c, ms) + (ToBE(len, 4) + payload)) == (ms, false)
  {
    hide Frame, ReadFrame, Inverse, ToBE;
    var last := ToBE(len, 4) + payload;
    if ms == [] {
      assert Frames(c, ms) + last == last;
      BadFrame(c, len, payload);
    } else {
      var rest := Frames(c, ms[1..]) + last;
      assert Frames(c, ms) + last == Frame(c, ms[0]) + rest;
      FrameRoundTripIff(c, ms[0], rest);
      BadFrameEndsStream(c, ms[1..], len, payload);
      assert ms == [ms[0]] + ms[1..];
    }
  }

  // ---- the reading side ------------------------------------------------------------

  /** The messages addressed to this node, in order. */
  function Addressed(ms: seq<Message>, node: u64): seq<Message> {
    if ms == [] then []
    else if ms[0].to == node then [ms[0]] + Addressed(ms[1..], node)
    else Addressed(ms[1..], node)
  }

  /** It keeps or drops each message on its own. */
  lemma {:induction false} AddressedEach(a: seq<Message>, b: seq<Message>, m: Message, node: u64)
    ensures Addressed(a + b, node) == Addressed(a, node) + Addressed(b, node)
    ensures Addressed([m], node) == if m.to == node then [m] else []
  {
    assert [m][1..] == [];
    assert Addressed([], node) == [];
    if a == [] {
      assert a + b == b;
    } else {
      AddressedEach(a[1..], b, m, node);
      assert (a + b)[1..] == a[1..] + b;
    }
  }

  /** What arrives on a connection, and whether it then fails instead of ending. */
  class InputStream {
    const bytes: seq<byte>
    const fails: bool
    var position: nat

    constructor (bytes: seq<byte>, fails: bool)
      ensures this.bytes == bytes && this.fails == fails && position == 0
    {
      this.bytes, this.fails, position := bytes, fails, 0;
    }

    predicate Valid()
      reads this
    {
      position <= |bytes|
    }

    function Rest(): seq<byte>
      requires Valid()
      reads this
    {
      bytes[position..]
    }

    /** All of the bytes, or the end of the stream. */
    method ReadExact(count: nat) returns (r: Option<seq<byte>>)
      requires Valid()
      modifies this
      ensures Valid()
      ensures if count <= |old(Rest())| then r == Some(old(Rest())[..count]) && Rest() == old(Rest())[count..]
              else r == None && Rest() == []
    {
      if |bytes| - position < count {
        position := |bytes|;
        return None;
      }
      ghost var rest := Rest();
      r := Some(bytes[position..position + count]);
      assert r.value == rest[..count] && bytes[position + count..] == rest[count..];
      position := position + count;
    }
  }

  method ReadMessage(c: Codec, stream: InputStream) returns (r: ReadResult, lost: bool)
    requires stream.Valid()
    modifies stream
    ensures stream.Valid()
    ensures r == ReadFrame(c, old(stream.Rest()))
    ensures lost <==> r.UnexpectedEof? && stream.fails
    ensures r.Got? ==> stream.Rest() == r.rest
  {
    ghost var all := stream.Rest();
    var lengthBytes := stream.ReadExact(4);
    if lengthBytes.None? { return UnexpectedEof, stream.fails; }
    var len := FromBE(lengthBytes.value);
    if len > MAX_MESSAGE { return InvalidData, false; }
    var payload := stream.ReadExact(len);
    if payload.None? { return UnexpectedEof, stream.fails; }
    assert lengthBytes.value == all[..4] && payload.value == all[4..4 + len];
    assert stream.Rest() == all[4 + len..];
    match c.decode(payload.value) {
      case None => return InvalidData, false;
      case Some(m) => return Got(m, stream.bytes[stream.position..]), false;
    }
  }

  /** The channel to the ready loop; its receiver goes away after `room` more messages. */
  class Inbox {
    var queue: seq<Message>
    var room: nat

    method Send(m: Message) returns (ok: bool)
      modifies this
      ensures ok <==> old(room) > 0
      ensures queue == if ok then old(queue) + [m] else old(queue)
      ensures room == if ok then old(room) - 1 else 0
    {
      if room == 0 { return false; }
      queue, room := queue + [m], room - 1;
      return true;
    }
  }

  lemma ReadAllStep(c: Codec, bytes: seq<byte>, node: u64)
    ensures ReadFrame(c, bytes).UnexpectedEof? ==> ReadAll(c, bytes) == ([], true)
    ensures ReadFrame(c, bytes).InvalidData? ==> ReadAll(c, bytes) == ([], false)
    ensures !ReadFrame(c, bytes).Got? ==> Addressed(ReadAll(c, bytes).0, node) == []
    ensures var r := ReadFrame(c, bytes);
            r.Got? ==>
              && |r.rest| < |bytes| && ReadAll(c, bytes).1 == ReadAll(c, r.rest).1
              && Addressed(ReadAll(c, bytes).0, node)
                 == (if r.message.to == node then [r.message] else []) + Addressed(ReadAll(c, r.rest).0, node)
  {
    hide ReadFrame;
  }

  /** `rest` is left to read of a connection that carried `all`, and everything addressed to this
      node before it is `forwarded`. */
  ghost predicate Forwarding(c: Codec, node: u64, all: seq<byte>, rest: seq<byte>, forwarded: seq<Message>) {
    && ReadAll(c, all).1 == ReadAll(c, rest).1
    && Addressed(ReadAll(c, all).0, node) == forwarded + Addressed(ReadAll(c, rest).0, node)
  }

  lemma NothingForwarded(c: Codec, node: u64, all: seq<byte>)
    ensures Forwarding(c, node, all, all, [])
  {
  }

  /** A message for this node is forwarded, any other is dropped. */
  lemma OneMoreMessage(c: Codec, node: u64, all: seq<byte>, rest: seq<byte>, forwarded: seq<Message>)
    requires Forwarding(c, node, all, rest, forwarded) && ReadFrame(c, rest).Got?
    ensures var r := ReadFrame(c, rest);
            && |r.rest| < |rest|
            && Forwarding(c, node, all, r.rest, if r.message.to == node then forwarded + [r.message] else forwarded)
  {
    hide ReadFrame;
    var r := ReadFrame(c, rest);
    var more := Addressed(ReadAll(c, r.rest).0, node);
    ReadAllStep(c, rest, node);
    hide ReadAll, Addressed;
    assert forwarded + ([r.message] + more) == (forwarded + [r.message]) + more;
    assert [] + more == more;
  }

  /** When no further message comes, all of them have been forwarded. */
  lemma NoMoreMessages(c: Codec, node: u64, all: seq<byte>, rest: seq<byte>, forwarded: seq<Message>)
    requires Forwarding(c, node, all, rest, forwarded) && !ReadFrame(c, rest).Got?
    ensures Addressed(ReadAll(c, all).0, node) == forwarded
    ensures ReadAll(c, all).1 <==> ReadFrame(c, rest).UnexpectedEof?
  {
    hide ReadFrame;
    ReadAllStep(c, rest, node);
    hide ReadAll, Addressed;
    assert forwarded + [] == forwarded;
  }

  /** A message that finds the receiver gone leaves what was forwarded before. */
  lemma ReceiverGone(c: Codec, node: u64, all: seq<byte>, rest: seq<byte>, forwarded: seq<Message>)
    requires Forwarding(c, node, all, rest, forwarded)
    requires ReadFrame(c, rest).Got? && ReadFrame(c, rest).message.to == node
    ensures var mine := Addressed(ReadAll(c, all).0, node);
            |mine| > |forwarded| && Take(mine, |forwarded|) == forwarded
  {
    hide ReadFrame;
    ReadAllStep(c, rest, node);
    hide ReadAll, Addressed;
  }

  /** Reads until the connection ends and forwards, in order, what is addressed to this node. */
  method HandleConnection(c: Codec, node: u64, stream: InputStream, inbox: Inbox) returns (ok: bool)
    requires stream.Valid()
    modifies stream, inbox
    ensures var (ms, clean) := ReadAll(c, old(stream.Rest()));
            var mine := Addressed(ms, node);
            && inbox.queue == old(inbox.queue) + Take(mine, old(inbox.room))
            && (ok <==> clean && !stream.fails && |mine| <= old(inbox.room))
  {
    hide ReadFrame, ReadAll, Addressed, Forwarding;
    ghost var all := stream.Rest();
    ghost var forwarded: seq<Message> := [];
    NothingForwarded(c, node, all);
    while true
      invariant stream.Valid()
      invariant Forwarding(c, node, all, stream.Rest(), forwarded)
      invariant inbox.queue == old(inbox.queue) + forwarded
      invariant inbox.room == old(inbox.room) - |forwarded|
      decreases |stream.Rest()|
    {
      ghost var rest := stream.Rest();
      var r, lost := ReadMessage(c, stream);
      match r {
        case UnexpectedEof =>
          NoMoreMessages(c, node, all, rest, forwarded);
          return !lost;
        case InvalidData =>
          NoMoreMessages(c, node, all, rest, forwarded);
          return false;
        case Got(m, _) =>
          OneMoreMessage(c, node, all, rest, forwarded);
          if m.to != node { continue; }
          var sent := inbox.Send(m);
          if !sent {
            ReceiverGone(c, node, all, rest, forwarded);
            return false;
          }
          forwarded := forwarded + [m];
      }
    }
  }
}
