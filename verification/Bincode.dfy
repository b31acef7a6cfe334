// bincode 2 in its standard configuration: little-endian, variable-length
// integers; strings and maps are a length followed by their contents.
module Bincode {
  import opened Bytes
  import opened Utf8
  import opened Wrappers

  type KvMap = map<Str, Str>

  const SINGLE_BYTE_MAX := 250
  const U16_MARK := 251
  const U32_MARK := 252
  const U64_MARK := 253

  function Marked(mark: byte, n: nat, width: nat): seq<byte> {
    [mark] + ToLE(n, width)
  }

  function EncodeInt(n: u64): seq<byte> {
    if n <= SINGLE_BYTE_MAX then [n]
    else if n < 0x1_0000 then Marked(U16_MARK, n, 2)
    else if n < U32_LIMIT then Marked(U32_MARK, n, 4)
    else Marked(U64_MARK, n, 8)
  }

  function DecodeFixed(buf: seq<byte>, width: nat): (r: Result<(nat, seq<byte>)>)
    ensures r.Ok? ==> |r.value.1| <= |buf|
  {
    if |buf| < width then Err else Ok((FromLE(buf[..width]), buf[width..]))
  }

  /** Marks 254 and 255 announce no 64-bit value. */
  function DecodeInt(buf: seq<byte>): (r: Result<(nat, seq<byte>)>)
    ensures r.Ok? ==> |r.value.1| < |buf|
  {
    if buf == [] then Err
    else if buf[0] <= SINGLE_BYTE_MAX then Ok((buf[0], buf[1..]))
    else if buf[0] == U16_MARK then DecodeFixed(buf[1..], 2)
    else if buf[0] == U32_MARK then DecodeFixed(buf[1..], 4)
    else if buf[0] == U64_MARK then DecodeFixed(buf[1..], 8)
    else Err
  }

  lemma MarkedRoundTrip(mark: byte, width: nat, n: nat, rest: seq<byte>)
    requires n < Pow256(width)
    ensures var s := Marked(mark, n, width) + rest;
            s[0] == mark && DecodeFixed(s[1..], width) == Ok((n, rest))
  {
    var low := ToLE(n, width);
    var tail := low + rest;
    assert ([mark] + low + rest)[1..] == tail;
    assert tail[..width] == low && tail[width..] == rest;
    FromToLE(n, width);
  }

  lemma IntRoundTrip(n: u64, rest: seq<byte>)
    ensures DecodeInt(EncodeInt(n) + rest) == Ok((n, rest))
  {
    Pow256Widths();
    if n <= SINGLE_BYTE_MAX {
      assert ([n] + rest)[1..] == rest;
    } else if n < 0x1_0000 {
      MarkedRoundTrip(U16_MARK, 2, n, rest);
    } else if n < U32_LIMIT {
      MarkedRoundTrip(U32_MARK, 4, n, rest);
    } else {
      MarkedRoundTrip(U64_MARK, 8, n, rest);
    }
  }

  /** The layout of integers: one byte up to 250, else a mark and two, four or eight bytes, the
      least significant first. */
  lemma IntBytes(n: u64, a: byte, b: byte, c: byte, d: byte)
    ensures n <= 250 ==> EncodeInt(n) == [n]
    ensures n > 250 && n == a + 0x100 * b ==> EncodeInt(n) == [251, a, b]
    ensures n > 0xFFFF && n == a + 0x100 * b + 0x1_0000 * c + 0x100_0000 * d ==> EncodeInt(n) == [252, a, b, c, d]
  {
    TwoBytes(a, b);
    FourBytes(a, b, c, d);
    ToFromLE([a, b]);
    ToFromLE([a, b, c, d]);
    hide ToLE, FromLE;
  }

  lemma LongIntBytes(n: u64, a: byte, b: byte, c: byte, d: byte, e: byte, f: byte, g: byte, h: byte)
    requires n > 0xFFFF_FFFF
    requires n == a + 0x100 * b + 0x1_0000 * c + 0x100_0000 * d
                  + 0x1_0000_0000 * (e + 0x100 * f + 0x1_0000 * g + 0x100_0000 * h)
    ensures EncodeInt(n) == [253, a, b, c, d, e, f, g, h]
  {
    FourBytes(e, f, g, h);
    EightBytes(a, b, c, d, [e, f, g, h]);
    ToFromLE([a, b, c, d] + [e, f, g, h]);
    hide ToLE, FromLE;
  }

  lemma TwoBytes(a: byte, b: byte)
    ensures FromLE([a, b]) == a + 0x100 * b
  {
    assert [a, b][1..] == [b] && [b][1..] == [];
    assert FromLE([b]) == b;
  }

  lemma FourBytes(a: byte, b: byte, c: byte, d: byte)
    ensures FromLE([a, b, c, d]) == a + 0x100 * b + 0x1_0000 * c + 0x100_0000 * d
  {
    TwoBytes(c, d);
    assert [a, b, c, d][1..] == [b, c, d] && [b, c, d][1..] == [c, d];
    assert FromLE([b, c, d]) == b + 256 * FromLE([c, d]);
  }

  lemma EightBytes(a: byte, b: byte, c: byte, d: byte, high: seq<byte>)
    ensures FromLE([a, b, c, d] + high)
            == a + 0x100 * b + 0x1_0000 * c + 0x100_0000 * d + 0x1_0000_0000 * FromLE(high)
  {
    assert ([a, b, c, d] + high)[1..] == [b, c, d] + high && ([b, c, d] + high)[1..] == [c, d] + high;
    assert ([c, d] + high)[1..] == [d] + high && ([d] + high)[1..] == high;
    assert FromLE([d] + high) == d + 256 * FromLE(high);
    assert FromLE([c, d] + high) == c + 256 * FromLE([d] + high);
    assert FromLE([b, c, d] + high) == b + 256 * FromLE([c, d] + high);
  }

  function EncodeString(s: Str): seq<byte> {
    EncodeInt(|s|) + s
  }

  function DecodeString(buf: seq<byte>): (r: Result<(Str, seq<byte>)>)
    ensures r.Ok? ==> |r.value.1| < |buf|
  {
    var (len, rest) :- DecodeInt(buf);
    if len <= |rest| && len <= ISIZE_MAX && ValidUtf8(rest[..len]) then Ok((rest[..len], rest[len..]))
    else Err
  }

  lemma StringRoundTrip(s: Str, rest: seq<byte>)
    ensures DecodeString(EncodeString(s) + rest) == Ok((s, rest))
  {
    assert EncodeString(s) + rest == EncodeInt(|s|) + (s + rest);
    IntRoundTrip(|s|, s + rest);
  }

  // ---- maps: length, then the pairs in key order -------------------------

  /** The keys in the ascending order an ordered map iterates in. */
  function SortedKeys(keys: set<Str>): (ks: seq<Str>)
    ensures |ks| == |keys|
    ensures forall k :: k in ks <==> k in keys
    decreases |keys|
  {
    if keys == {} then []
    else
      var k: Str := LexMin(keys);
      [k] + SortedKeys(keys - {k})
  }

  lemma {:induction false} SortedKeysAscend(keys: set<Str>)
    ensures forall i, j | 0 <= i < j < |SortedKeys(keys)| :: LexLess(SortedKeys(keys)[i], SortedKeys(keys)[j])
    decreases |keys|
  {
    if keys != {} {
      hide LexLess;
      var k: Str := LexMin(keys);
      var others := SortedKeys(keys - {k});
      SortedKeysAscend(keys - {k});
      forall j | 0 <= j < |others|
        ensures LexLess(k, others[j])
      {
        assert others[j] in keys - {k};
        assert LexLe(k, others[j]);
      }
      assert SortedKeys(keys) == [k] + others;
    }
  }

  function EncodePairs(m: KvMap, ks: seq<Str>): seq<byte>
    requires forall k | k in ks :: k in m
  {
    if ks == [] then [] else EncodeString(ks[0]) + EncodeString(m[ks[0]]) + EncodePairs(m, ks[1..])
  }

  function EncodeMap(m: KvMap): seq<byte>
    requires |m| < U64_LIMIT
  {
    EncodeInt(|m|) + EncodePairs(m, SortedKeys(m.Keys))
  }

  /** Reads `count` pairs into `m`; a repeated key keeps its last value. */
  function DecodePairs(count: nat, buf: seq<byte>, m: KvMap): (r: Result<(KvMap, seq<byte>)>) {
    if count == 0 then Ok((m, buf))
    else
      var (k, afterKey) :- DecodeString(buf);
      var (v, afterValue) :- DecodeString(afterKey);
      DecodePairs(count - 1, afterValue, m[k := v])
  }

  function DecodeMap(buf: seq<byte>): (r: Result<(KvMap, seq<byte>)>) {
    var (count, rest) :- DecodeInt(buf);
    DecodePairs(count, rest, map[])
  }

  ghost function Overlay(m: KvMap, ks: seq<Str>, acc: KvMap): (r: KvMap)
    requires forall k | k in ks :: k in m
    ensures forall k :: k in r <==> k in acc || k in ks
    ensures forall k | k in r :: r[k] == if k in ks then m[k] else acc[k]
  {
    if ks == [] then acc else Overlay(m, ks[1..], acc[ks[0] := m[ks[0]]])
  }

  lemma ReadPair(k: Str, v: Str, count: nat, tail: seq<byte>, acc: KvMap)
    requires count > 0
    ensures DecodePairs(count, EncodeString(k) + EncodeString(v) + tail, acc)
            == DecodePairs(count - 1, tail, acc[k := v])
  {
    var afterKey := EncodeString(v) + tail;
    assert EncodeString(k) + EncodeString(v) + tail == EncodeString(k) + afterKey;
    StringRoundTrip(k, afterKey);
    StringRoundTrip(v, tail);
  }

  lemma EncodedPairsStep(m: KvMap, ks: seq<Str>, rest: seq<byte>)
    requires ks != [] && forall k | k in ks :: k in m
    ensures EncodePairs(m, ks) + rest
            == EncodeString(ks[0]) + EncodeString(m[ks[0]]) + (EncodePairs(m, ks[1..]) + rest)
  {
    hide EncodeString;
  }

  lemma {:induction false} PairsRoundTrip(m: KvMap, ks: seq<Str>, acc: KvMap, rest: seq<byte>)
    requires forall k | k in ks :: k in m
    ensures DecodePairs(|ks|, EncodePairs(m, ks) + rest, acc) == Ok((Overlay(m, ks, acc), rest))
  {
    hide EncodeString, DecodeString;
    if ks == [] {
      assert [] + rest == rest;
    } else {
      hide EncodePairs, DecodePairs;
      var k := ks[0];
      var tail := EncodePairs(m, ks[1..]) + rest;
      EncodedPairsStep(m, ks, rest);
      ReadPair(k, m[k], |ks|, tail, acc);
      PairsRoundTrip(m, ks[1..], acc[k := m[k]], rest);
    }
  }

  lemma CountedPairs(buf: seq<byte>, n: nat, tail: seq<byte>)
    requires DecodeInt(buf) == Ok((n, tail))
    ensures DecodeMap(buf) == DecodePairs(n, tail, map[])
  {
  }

  lemma OverlayAll(m: KvMap)
    ensures Overlay(m, SortedKeys(m.Keys), map[]) == m
  {
    hide *;
  }

  lemma EncodedMapHeader(m: KvMap, rest: seq<byte>)
    requires |m| < U64_LIMIT
    ensures DecodeInt(EncodeMap(m) + rest) == Ok((|SortedKeys(m.Keys)|, EncodePairs(m, SortedKeys(m.Keys)) + rest))
  {
    var tail := EncodePairs(m, SortedKeys(m.Keys)) + rest;
    assert EncodeMap(m) + rest == EncodeInt(|m|) + tail;
    IntRoundTrip(|m|, tail);
  }

  /** The map and the bytes after it come back. */
  lemma MapRoundTrip(m: KvMap, rest: seq<byte>)
    requires |m| < U64_LIMIT
    ensures DecodeMap(EncodeMap(m) + rest) == Ok((m, rest))
  {
    var ks := SortedKeys(m.Keys);
    EncodedMapHeader(m, rest);
    CountedPairs(EncodeMap(m) + rest, |ks|, EncodePairs(m, ks) + rest);
    PairsRoundTrip(m, ks, map[], rest);
    OverlayAll(m);
  }

  /** The bytes of a map with one short pair. */
  lemma OnePairBytes(k: Str, v: Str)
    requires |k| <= 250 && |v| <= 250
    ensures EncodeMap(map[k := v]) == [1, |k|] + k + [|v|] + v
  {
    var m := map[k := v];
    assert m.Keys == {k};
    OneKey(k);
    var ks := SortedKeys(m.Keys);
    assert EncodePairs(m, ks) == EncodeString(k) + EncodeString(v) + EncodePairs(m, ks[1..]);
    assert ks[1..] == [] && EncodePairs(m, []) == [];
    assert |m| == 1;
  }

  lemma OneKey(k: Str)
    ensures SortedKeys({k}) == [k]
  {
    var ks := SortedKeys({k});
    assert |{k}| == 1 && ks[0] in ks;
    assert ks[0] == k;
  }

  // ---- bytes that were cut off ---------------------------------------------

  lemma CutInt(n: u64, cut: nat)
    requires cut < |EncodeInt(n)|
    ensures DecodeInt(EncodeInt(n)[..cut]) == Err
  {
    if cut > 0 {
      var s := EncodeInt(n)[..cut];
      assert s[0] == EncodeInt(n)[0] && |s[1..]| == cut - 1;
      hide ToLE, FromLE;
    }
  }

  lemma CutString(s: Str, cut: nat)
    requires cut < |EncodeString(s)|
    ensures DecodeString(EncodeString(s)[..cut]) == Err
  {
    var len := EncodeInt(|s|);
    if cut < |len| {
      assert EncodeString(s)[..cut] == len[..cut];
      CutInt(|s|, cut);
    } else {
      assert EncodeString(s)[..cut] == len + s[..cut - |len|];
      IntRoundTrip(|s|, s[..cut - |len|]);
    }
  }

  lemma {:induction false} CutPairs(m: KvMap, ks: seq<Str>, acc: KvMap, cut: nat)
    requires (forall k | k in ks :: k in m) && cut < |EncodePairs(m, ks)|
    ensures DecodePairs(|ks|, EncodePairs(m, ks)[..cut], acc) == Err
  {
    hide EncodeString, DecodeString;
    var key, value := EncodeString(ks[0]), EncodeString(m[ks[0]]);
    var s := EncodePairs(m, ks)[..cut];
    if cut < |key| {
      assert s == key[..cut];
      CutString(ks[0], cut);
    } else if cut < |key| + |value| {
      assert s == key + value[..cut - |key|];
      StringRoundTrip(ks[0], value[..cut - |key|]);
      CutString(m[ks[0]], cut - |key|);
    } else {
      var tail := EncodePairs(m, ks[1..])[..cut - |key| - |value|];
      assert s == key + value + tail;
      ReadPair(ks[0], m[ks[0]], |ks|, tail, acc);
      CutPairs(m, ks[1..], acc[ks[0] := m[ks[0]]], cut - |key| - |value|);
    }
  }

  /** A written map that is cut off anywhere does not decode. */
  lemma CutMap(m: KvMap, cut: nat)
    requires |m| < U64_LIMIT && cut < |EncodeMap(m)|
    ensures DecodeMap(EncodeMap(m)[..cut]) == Err
  {
    var len, ks := EncodeInt(|m|), SortedKeys(m.Keys);
    assert EncodeMap(m) == len + EncodePairs(m, ks) && |ks| == |m|;
    CutMapAt(m, ks, cut);
  }

  lemma CutMapAt(m: KvMap, ks: seq<Str>, cut: nat)
    requires |ks| == |m| < U64_LIMIT && (forall k | k in ks :: k in m)
    requires cut < |EncodeInt(|m|) + EncodePairs(m, ks)|
    ensures DecodeMap((EncodeInt(|m|) + EncodePairs(m, ks))[..cut]) == Err
  {
    hide EncodeInt, DecodeInt, EncodePairs, DecodePairs;
    var len := EncodeInt(|m|);
    var s := (len + EncodePairs(m, ks))[..cut];
    if cut < |len| {
      assert s == len[..cut];
      CutInt(|m|, cut);
    } else {
      var pairs := EncodePairs(m, ks)[..cut - |len|];
      assert s == len + pairs;
      IntRoundTrip(|m|, pairs);
      CountedPairs(s, |ks|, pairs);
      CutPairs(m, ks, map[], cut - |len|);
    }
  }
}
