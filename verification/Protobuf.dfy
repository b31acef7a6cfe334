// The Protocol Buffers wire format as prost reads and writes it: base-128
// varints, field keys, length-delimited records and skipped unknown fields.
module Protobuf {
  import opened Bytes
  import opened Wrappers

  const VARINT := 0
  const FIXED64 := 1
  const DELIMITED := 2
  const START_GROUP := 3
  const END_GROUP := 4
  const FIXED32 := 5

  /** How deep messages and unknown groups may nest. */
  const RECURSION_LIMIT := 100

  function EncodeVarint(n: nat): (s: seq<byte>)
    ensures s != []
  {
    if n < 0x80 then [n] else [n % 0x80 + 0x80] + EncodeVarint(n / 0x80)
  }

  /** What the bytes from the count-th on may still hold of a 64-bit value. */
  function VarintRoom(count: nat): nat
    requires count <= 9
    decreases 9 - count
  {
    if count == 9 then 2 else 0x80 * VarintRoom(count + 1)
  }

  function DecodeVarintFrom(buf: seq<byte>, count: nat): (r: Result<(nat, seq<byte>)>)
    requires count <= 10
    ensures r.Ok? ==> |r.value.1| < |buf|
    decreases 10 - count
  {
    if buf == [] || count == 10 then Err
    else if buf[0] < 0x80 then
      if count == 9 && buf[0] >= 2 then Err else Ok((buf[0], buf[1..]))
    else
      var (high, rest) :- DecodeVarintFrom(buf[1..], count + 1);
      Ok((buf[0] - 0x80 + 0x80 * high, rest))
  }

  function DecodeVarint(buf: seq<byte>): (r: Result<(nat, seq<byte>)>)
    ensures r.Ok? ==> |r.value.1| < |buf|
  {
    DecodeVarintFrom(buf, 0)
  }

  lemma {:induction false} VarintRoundTripFrom(n: nat, rest: seq<byte>, count: nat)
    requires count <= 9 && n < VarintRoom(count)
    ensures DecodeVarintFrom(EncodeVarint(n) + rest, count) == Ok((n, rest))
    decreases 9 - count
  {
    var s := EncodeVarint(n) + rest;
    if n < 0x80 {
      assert s[1..] == rest;
    } else {
      VarintRoundTripFrom(n / 0x80, rest, count + 1);
      assert s[1..] == EncodeVarint(n / 0x80) + rest;
    }
  }

  lemma {:induction false} VarintRoundTrip(n: u64, rest: seq<byte>)
    ensures DecodeVarint(EncodeVarint(n) + rest) == Ok((n, rest))
  {
    assert VarintRoom(7) == 0x80 * (0x80 * VarintRoom(9));
    assert VarintRoom(5) == 0x80 * (0x80 * VarintRoom(7));
    assert VarintRoom(3) == 0x80 * (0x80 * VarintRoom(5));
    assert VarintRoom(1) == 0x80 * (0x80 * VarintRoom(3));
    assert VarintRoom(0) == U64_LIMIT;
    VarintRoundTripFrom(n, rest, 0);
  }

  lemma VarintStep(n: nat, rest: nat)
    requires n >= 0x80 && rest == n / 0x80
    ensures EncodeVarint(n) == [n % 0x80 + 0x80] + EncodeVarint(rest)
  {
  }

  lemma VarintEnd(n: nat)
    requires n < 0x80
    ensures EncodeVarint(n) == [n]
  {
  }

  /** Seven bits a byte, the least significant first, with the top bit set on all but the last. */
  lemma VarintBytes()
    ensures EncodeVarint(0) == [0] && EncodeVarint(127) == [127] && EncodeVarint(128) == [0x80, 0x01]
    ensures EncodeVarint(300) == [0xAC, 0x02]
    ensures EncodeVarint(0xFFFF_FFFF) == [0xFF, 0xFF, 0xFF, 0xFF, 0x0F]
  {
    hide EncodeVarint;
    VarintEnd(0);
    VarintEnd(1);
    VarintEnd(2);
    VarintEnd(0xF);
    VarintEnd(127);
    VarintStep(128, 1);
    VarintStep(300, 2);
    VarintStep(0x7FF, 0xF);
    VarintStep(0x3_FFFF, 0x7FF);
    VarintStep(0x1FF_FFFF, 0x3_FFFF);
    VarintStep(0xFFFF_FFFF, 0x1FF_FFFF);
  }

  /** Splits a field key into tag and wire type. */
  function DecodeKey(buf: seq<byte>): (r: Result<(nat, nat, seq<byte>)>)
    ensures r.Ok? ==> |r.value.2| < |buf| && r.value.0 > 0 && r.value.1 <= FIXED32
  {
    var (key, rest) :- DecodeVarint(buf);
    if key >= U32_LIMIT || key % 8 > FIXED32 || key / 8 == 0 then Err
    else Ok((key / 8, key % 8, rest))
  }

  /** A length prefix and that many bytes. */
  function DecodeDelimited(buf: seq<byte>): (r: Result<(seq<byte>, seq<byte>)>)
    ensures r.Ok? ==> |r.value.0| + |r.value.1| < |buf|
  {
    var (len, rest) :- DecodeVarint(buf);
    if len > |rest| then Err else Ok((rest[..len], rest[len..]))
  }

  function Prefixed(payload: seq<byte>): seq<byte> {
    EncodeVarint(|payload|) + payload
  }

  function EncodeDelimited(tag: nat, payload: seq<byte>): seq<byte> {
    EncodeVarint(8 * tag + DELIMITED) + Prefixed(payload)
  }

  lemma PrefixedRoundTrip(payload: seq<byte>, rest: seq<byte>)
    requires |payload| < U64_LIMIT
    ensures DecodeDelimited(Prefixed(payload) + rest) == Ok((payload, rest))
  {
    var tail := payload + rest;
    assert Prefixed(payload) + rest == EncodeVarint(|payload|) + tail;
    VarintRoundTrip(|payload|, tail);
  }

  lemma {:induction false} CutVarintFrom(n: nat, cut: nat, count: nat)
    requires cut < |EncodeVarint(n)| && count <= 10
    ensures DecodeVarintFrom(EncodeVarint(n)[..cut], count) == Err
    decreases 10 - count
  {
    if cut > 0 && count < 10 {
      assert EncodeVarint(n)[..cut][1..] == EncodeVarint(n / 0x80)[..cut - 1];
      CutVarintFrom(n / 0x80, cut - 1, count + 1);
    }
  }

  /** A length-delimited field cut short does not decode. */
  lemma CutPrefixed(payload: seq<byte>, cut: nat)
    requires |payload| < U64_LIMIT && cut < |Prefixed(payload)|
    ensures DecodeDelimited(Prefixed(payload)[..cut]) == Err
  {
    var len := EncodeVarint(|payload|);
    var s := Prefixed(payload)[..cut];
    if cut < |len| {
      assert s == len[..cut];
      CutVarintFrom(|payload|, cut, 0);
    } else {
      assert s == len + payload[..cut - |len|];
      VarintRoundTrip(|payload|, payload[..cut - |len|]);
    }
  }

  /** A written record is read back as its key followed by its payload. */
  lemma DelimitedKey(tag: nat, payload: seq<byte>, rest: seq<byte>)
    requires 0 < tag < 16
    ensures DecodeKey(EncodeDelimited(tag, payload) + rest) == Ok((tag, DELIMITED, Prefixed(payload) + rest))
  {
    var key := 8 * tag + DELIMITED;
    var tail := Prefixed(payload) + rest;
    assert EncodeDelimited(tag, payload) + rest == EncodeVarint(key) + tail;
    VarintRoundTrip(key, tail);
  }

  /** The bytes after an unknown field; groups nest at most `depth` deep. */
  function SkipField(wire: nat, tag: nat, buf: seq<byte>, depth: nat): (r: Result<seq<byte>>)
    ensures r.Ok? ==> |r.value| <= |buf|
    decreases |buf|, 1
  {
    if depth == 0 then Err
    else if wire == VARINT then
      var (_, rest) :- DecodeVarint(buf);
      Ok(rest)
    else if wire == FIXED64 then
      if |buf| < 8 then Err else Ok(buf[8..])
    else if wire == FIXED32 then
      if |buf| < 4 then Err else Ok(buf[4..])
    else if wire == DELIMITED then
      var (_, rest) :- DecodeDelimited(buf);
      Ok(rest)
    else if wire == START_GROUP then
      SkipGroup(tag, buf, depth)
    else Err
  }

  function SkipGroup(tag: nat, buf: seq<byte>, depth: nat): (r: Result<seq<byte>>)
    requires depth > 0
    ensures r.Ok? ==> |r.value| <= |buf|
    decreases |buf|, 0
  {
    var (inner, wire, rest) :- DecodeKey(buf);
    if wire == END_GROUP then
      if inner == tag then Ok(rest) else Err
    else
      var after :- SkipField(wire, inner, rest, depth - 1);
      SkipGroup(tag, after, depth)
  }
}
