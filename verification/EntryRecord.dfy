// A log entry as the store writes and measures it: the proto3 record of raft-rs's Entry message.
module EntryRecord {
  import opened Bytes
  import opened Protobuf
  import opened RaftTypes
  import opened Utf8
  import opened Wrappers

  const KIND_TAG := 1
  const TERM_TAG := 2
  const INDEX_TAG := 3
  const DATA_TAG := 4
  const SYNC_LOG_TAG := 5
  const CONTEXT_TAG := 6

  const NO_ENTRY := Entry(0, 0, EntryNormal, [], [])

  function KindCode(kind: EntryKind): u64 {
    match kind
    case EntryNormal => 0
    case EntryConfChange => 1
    case EntryConfChangeV2 => 2
  }

  /** Enumeration values are 32 bits wide; an unknown one stands for a normal entry. */
  function KindOf(n: nat): EntryKind {
    if n % U32_LIMIT == 1 then EntryConfChange
    else if n % U32_LIMIT == 2 then EntryConfChangeV2
    else EntryNormal
  }

  // ---- the bytes -------------------------------------------------------------

  /** proto3 leaves out a field that holds its default value. */
  function EncodeNumber(tag: nat, n: u64): seq<byte> {
    if n == 0 then [] else EncodeVarint(8 * tag + VARINT) + EncodeVarint(n)
  }

  function EncodeBytes(tag: nat, b: seq<byte>): seq<byte> {
    if b == [] then [] else EncodeDelimited(tag, b)
  }

  function EncodeEntry(e: Entry): seq<byte> {
    EncodeNumber(KIND_TAG, KindCode(e.kind)) + EncodeNumber(TERM_TAG, e.term) + EncodeNumber(INDEX_TAG, e.index)
    + EncodeBytes(DATA_TAG, e.data) + EncodeBytes(CONTEXT_TAG, e.context)
  }

  /** The records of several entries, one after the other. */
  function Records(es: seq<Entry>): seq<byte> {
    if es == [] then [] else Records(es[..|es| - 1]) + EncodeEntry(es[|es| - 1])
  }

  function WithNumber(e: Entry, tag: nat, n: nat): Entry {
    if tag == KIND_TAG then e.(kind := KindOf(n))
    else if tag == TERM_TAG then e.(term := Wrap64(n))
    else if tag == INDEX_TAG then e.(index := Wrap64(n))
    else e
  }

  /** Merges the fields in `buf` into `e`; a repeated field replaces the earlier one. */
  function MergeEntry(e: Entry, buf: seq<byte>): (r: Result<Entry>)
    decreases |buf|
  {
    if buf == [] then Ok(e)
    else
      var (tag, wire, rest) :- DecodeKey(buf);
      if tag == KIND_TAG || tag == TERM_TAG || tag == INDEX_TAG || tag == SYNC_LOG_TAG then
        if wire != VARINT then Err
        else
          var (n, after) :- DecodeVarint(rest);
          MergeEntry(WithNumber(e, tag, n), after)
      else if tag == DATA_TAG || tag == CONTEXT_TAG then
        if wire != DELIMITED then Err
        else
          var (b, after) :- DecodeDelimited(rest);
          MergeEntry(if tag == DATA_TAG then e.(data := b) else e.(context := b), after)
      else
        var after :- SkipField(wire, tag, rest, RECURSION_LIMIT);
        MergeEntry(e, after)
  }

  function DecodeEntry(buf: seq<byte>): Result<Entry> {
    MergeEntry(NO_ENTRY, buf)
  }

  // ---- the length ------------------------------------------------------------

  function NumberLen(n: u64): nat {
    if n == 0 then 0 else 1 + |EncodeVarint(n)|
  }

  function BytesLen(b: seq<byte>): nat {
    if b == [] then 0 else 1 + |EncodeVarint(|b|)| + |b|
  }

  /** The size computed without encoding: field keys take one byte each. */
  function EncodedLen(e: Entry): nat {
    NumberLen(KindCode(e.kind)) + NumberLen(e.term) + NumberLen(e.index) + BytesLen(e.data) + BytesLen(e.context)
  }

  /** It is the length of the bytes. */
  lemma EncodedLenExact(e: Entry)
    ensures EncodedLen(e) == |EncodeEntry(e)|
  {
    hide EncodeVarint;
    OneByteKey(8 * KIND_TAG + VARINT);
    OneByteKey(8 * TERM_TAG + VARINT);
    OneByteKey(8 * INDEX_TAG + VARINT);
    OneByteKey(8 * DATA_TAG + DELIMITED);
    OneByteKey(8 * CONTEXT_TAG + DELIMITED);
  }

  lemma OneByteKey(key: nat)
    requires key < 0x80
    ensures EncodeVarint(key) == [key]
  {
  }

  // ---- reading back ----------------------------------------------------------

  lemma NumberRoundTrip(e: Entry, tag: nat, n: u64, rest: seq<byte>)
    requires tag == KIND_TAG || tag == TERM_TAG || tag == INDEX_TAG
    requires n == 0 ==> WithNumber(e, tag, 0) == e
    ensures MergeEntry(e, EncodeNumber(tag, n) + rest) == MergeEntry(WithNumber(e, tag, n), rest)
  {
    if n == 0 {
      assert EncodeNumber(tag, n) + rest == rest;
    } else {
      var s := EncodeNumber(tag, n) + rest;
      NumberKey(tag, n, rest);
      VarintRoundTrip(n, rest);
      hide EncodeVarint, DecodeVarint, DecodeKey, EncodeNumber, WithNumber;
      assert s != [] && DecodeKey(s) == Ok((tag, VARINT, EncodeVarint(n) + rest));
    }
  }

  lemma NumberKey(tag: nat, n: u64, rest: seq<byte>)
    requires 0 < tag < 16 && n != 0
    ensures var s := EncodeNumber(tag, n) + rest;
            s != [] && DecodeKey(s) == Ok((tag, VARINT, EncodeVarint(n) + rest))
  {
    hide EncodeVarint;
    var key, tail := 8 * tag + VARINT, EncodeVarint(n) + rest;
    assert EncodeNumber(tag, n) + rest == EncodeVarint(key) + tail;
    VarintRoundTrip(key, tail);
  }

  lemma BytesRoundTrip(e: Entry, tag: nat, b: seq<byte>, rest: seq<byte>)
    requires tag == DATA_TAG || tag == CONTEXT_TAG
    requires |b| <= ISIZE_MAX && (b == [] ==> (if tag == DATA_TAG then e.data else e.context) == [])
    ensures MergeEntry(e, EncodeBytes(tag, b) + rest)
            == MergeEntry(if tag == DATA_TAG then e.(data := b) else e.(context := b), rest)
  {
    if b == [] {
      assert EncodeBytes(tag, b) + rest == rest;
    } else {
      DelimitedKey(tag, b, rest);
      PrefixedRoundTrip(b, rest);
      hide EncodeDelimited, DecodeKey, DecodeDelimited, Prefixed;
    }
  }

  /** Every entry that fits in memory is read back from its record. */
  lemma EntryRoundTrip(e: Entry)
    requires |e.data| <= ISIZE_MAX && |e.context| <= ISIZE_MAX
    ensures DecodeEntry(EncodeEntry(e)) == Ok(e)
  {
    hide EncodeNumber, EncodeBytes, MergeEntry;
    var context := EncodeBytes(CONTEXT_TAG, e.context);
    var data := EncodeBytes(DATA_TAG, e.data) + context;
    var index := EncodeNumber(INDEX_TAG, e.index) + data;
    var term := EncodeNumber(TERM_TAG, e.term) + index;
    assert EncodeEntry(e) == EncodeNumber(KIND_TAG, KindCode(e.kind)) + term;
    NumberRoundTrip(NO_ENTRY, KIND_TAG, KindCode(e.kind), term);
    var e1 := NO_ENTRY.(kind := e.kind);
    NumberRoundTrip(e1, TERM_TAG, e.term, index);
    var e2 := e1.(term := e.term);
    NumberRoundTrip(e2, INDEX_TAG, e.index, data);
    var e3 := e2.(index := e.index);
    BytesRoundTrip(e3, DATA_TAG, e.data, context);
    var e4 := e3.(data := e.data);
    assert context + [] == context;
    BytesRoundTrip(e4, CONTEXT_TAG, e.context, []);
    EntryEnd(e);
  }

  lemma EntryEnd(e: Entry)
    ensures MergeEntry(e, []) == Ok(e)
  {
  }

  /** Two different entries never share a record. */
  lemma EntryInjective(e: Entry, f: Entry)
    requires |e.data| <= ISIZE_MAX && |e.context| <= ISIZE_MAX && |f.data| <= ISIZE_MAX && |f.context| <= ISIZE_MAX
    requires EncodeEntry(e) == EncodeEntry(f)
    ensures e == f
  {
    EntryRoundTrip(e);
    EntryRoundTrip(f);
  }

  /** The bytes of one entry with every field set: keys 0x08, 0x10, 0x18, 0x22 and 0x32. */
  lemma RecordBytes(data: byte, context: byte)
    ensures EncodeEntry(Entry(300, 1, EntryConfChangeV2, [data], [context]))
            == [0x08, 2, 0x10, 1, 0x18, 0xAC, 0x02, 0x22, 1, data, 0x32, 1, context]
  {
    assert EncodeVarint(300) == [0xAC] + EncodeVarint(2);
  }
}
