// The replicated command: a oneof holding a Put of two strings.
module KvCommand {
  import opened Bytes
  import opened Protobuf
  import opened Utf8
  import opened Wrappers

  datatype Put = Put(key: Str, value: Str)

  /** proto3 leaves out a field that holds its default value. */
  function EncodeStringField(tag: nat, s: Str): seq<byte> {
    if s == [] then [] else EncodeDelimited(tag, s)
  }

  function EncodePutBody(p: Put): seq<byte> {
    EncodeStringField(1, p.key) + EncodeStringField(2, p.value)
  }

  function EncodePutCommand(p: Put): seq<byte> {
    EncodeDelimited(1, EncodePutBody(p))
  }

  function DecodeString(wire: nat, buf: seq<byte>): (r: Result<(Str, seq<byte>)>)
    ensures r.Ok? ==> |r.value.1| < |buf|
  {
    if wire != DELIMITED then Err
    else
      var (payload, rest) :- DecodeDelimited(buf);
      if |payload| <= ISIZE_MAX && ValidUtf8(payload) then Ok((payload, rest)) else Err
  }

  /** Merges the fields in `buf` into `p`; a repeated field replaces the earlier one. */
  function MergePut(p: Put, buf: seq<byte>): (r: Result<Put>)
    decreases |buf|
  {
    if buf == [] then Ok(p)
    else
      var (tag, wire, rest) :- DecodeKey(buf);
      if tag == 1 then
        var (s, after) :- DecodeString(wire, rest);
        MergePut(p.(key := s), after)
      else if tag == 2 then
        var (s, after) :- DecodeString(wire, rest);
        MergePut(p.(value := s), after)
      else
        var after :- SkipField(wire, tag, rest, RECURSION_LIMIT - 1);
        MergePut(p, after)
  }

  function MergeCommand(cmd: Option<Put>, buf: seq<byte>): (r: Result<Option<Put>>)
    decreases |buf|
  {
    if buf == [] then Ok(cmd)
    else
      var (tag, wire, rest) :- DecodeKey(buf);
      if tag == 1 then
        if wire != DELIMITED then Err
        else
          var (body, after) :- DecodeDelimited(rest);
          var p :- MergePut(if cmd.Some? then cmd.value else Put([], []), body);
          MergeCommand(Some(p), after)
      else
        var after :- SkipField(wire, tag, rest, RECURSION_LIMIT);
        MergeCommand(cmd, after)
  }

  function DecodeCommand(data: seq<byte>): Result<Option<Put>> {
    MergeCommand(None, data)
  }

  /** The buffer prost allocates for the command must be a legal allocation. */
  predicate Encodable(p: Put) {
    |EncodePutBody(p)| <= ISIZE_MAX
  }

  lemma StringFieldRoundTrip(tag: nat, p: Put, s: Str, rest: seq<byte>)
    requires tag == 1 || tag == 2
    ensures var q := if s == [] then p else if tag == 1 then p.(key := s) else p.(value := s);
            MergePut(p, EncodeStringField(tag, s) + rest) == MergePut(q, rest)
  {
    if s == [] {
      assert EncodeStringField(tag, s) + rest == rest;
    } else {
      DelimitedKey(tag, s, rest);
      PrefixedRoundTrip(s, rest);
    }
  }

  /** The body of a Put decodes to that Put. */
  lemma PutBodyRoundTrip(p: Put)
    ensures MergePut(Put([], []), EncodePutBody(p)) == Ok(p)
  {
    var second := EncodeStringField(2, p.value);
    StringFieldRoundTrip(1, Put([], []), p.key, second);
    StringFieldRoundTrip(2, Put(p.key, []), p.value, []);
    assert second + [] == second;
  }

  lemma CommandOfBody(data: seq<byte>, body: seq<byte>, p: Put)
    requires data != [] && DecodeKey(data) == Ok((1, DELIMITED, Prefixed(body) + []))
    requires DecodeDelimited(Prefixed(body) + []) == Ok((body, []))
    requires MergePut(Put([], []), body) == Ok(p)
    ensures DecodeCommand(data) == Ok(Some(p))
  {
    var none: Option<Put> := None;
    assert MergeCommand(Some(p), []) == Ok(Some(p));
    assert MergeCommand(none, data) == MergeCommand(Some(p), []);
  }

  /** No proposed Put is lost: its bytes are never empty and decode to the same pair. */
  lemma PutCommandRoundTrip(p: Put)
    requires Encodable(p)
    ensures EncodePutCommand(p) != []
    ensures DecodeCommand(EncodePutCommand(p)) == Ok(Some(p))
  {
    var body := EncodePutBody(p);
    var data := EncodePutCommand(p);
    assert data + [] == data;
    DelimitedKey(1, body, []);
    PrefixedRoundTrip(body, []);
    PutBodyRoundTrip(p);
    CommandOfBody(data, body, p);
  }

  /** Two different Puts never share an encoding. */
  lemma PutCommandInjective(p: Put, q: Put)
    requires Encodable(p) && Encodable(q) && EncodePutCommand(p) == EncodePutCommand(q)
    ensures p == q
  {
    PutCommandRoundTrip(p);
    PutCommandRoundTrip(q);
  }

  /** The bytes of a short Put: field 1 of the command holds fields 1 and 2 of the Put. */
  lemma PutBytes(key: Str, value: Str)
    requires key != [] && value != [] && |key| + |value| + 4 < 0x80
    ensures EncodePutCommand(Put(key, value))
            == [0x0A, |key| + |value| + 4, 0x0A, |key|] + key + [0x12, |value|] + value
    ensures EncodePutCommand(Put([], [])) == [0x0A, 0]
  {
  }

  /** A field of the command that is not known is skipped. */
  lemma UnknownFieldSkipped(p: Put, tag: nat, payload: seq<byte>)
    requires Encodable(p) && 1 < tag < 16 && |payload| < U64_LIMIT
    ensures DecodeCommand(EncodePutCommand(p) + EncodeDelimited(tag, payload)) == Ok(Some(p))
    ensures DecodeCommand(EncodeDelimited(tag, payload)) == Ok(None)
  {
    var unknown := EncodeDelimited(tag, payload);
    CommandStep(None, p, unknown);
    assert unknown + [] == unknown;
    DelimitedKey(tag, payload, []);
    PrefixedRoundTrip(payload, []);
    var none: Option<Put> := None;
    hide EncodePutCommand, EncodeDelimited, DecodeKey, DecodeDelimited, Prefixed;
    assert MergeCommand(Some(p), []) == Ok(Some(p)) && MergeCommand(none, []) == Ok(none);
    Skipped(Some(p), unknown, tag, Prefixed(payload) + []);
    Skipped(none, unknown, tag, Prefixed(payload) + []);
  }

  lemma Skipped(cmd: Option<Put>, buf: seq<byte>, tag: nat, rest: seq<byte>)
    requires buf != [] && tag != 1 && DecodeKey(buf) == Ok((tag, DELIMITED, rest))
    requires DecodeDelimited(rest).Ok? && DecodeDelimited(rest).value.1 == []
    ensures MergeCommand(cmd, buf) == MergeCommand(cmd, [])
  {
    hide DecodeKey, DecodeDelimited;
  }

  /** Reading one written Put merges it into what was read before. */
  lemma CommandStep(cmd: Option<Put>, p: Put, rest: seq<byte>)
    requires Encodable(p)
    ensures MergeCommand(cmd, EncodePutCommand(p) + rest)
            == MergeCommand(Some(match cmd case None => p case Some(q) => Merged(q, p)), rest)
  {
    var body := EncodePutBody(p);
    var data := EncodePutCommand(p) + rest;
    DelimitedKey(1, body, rest);
    PrefixedRoundTrip(body, rest);
    PutBodyRoundTrip(p);
    if cmd.Some? {
      BodyMerges(cmd.value, p);
    }
    assert data != [];
    hide EncodePutBody, EncodeDelimited, DecodeKey, DecodeDelimited, MergePut, Prefixed;
  }

  /** Fields that are present replace the earlier ones. */
  function Merged(q: Put, p: Put): Put {
    Put(if p.key == [] then q.key else p.key, if p.value == [] then q.value else p.value)
  }

  lemma BodyMerges(q: Put, p: Put)
    ensures MergePut(q, EncodePutBody(p)) == Ok(Merged(q, p))
  {
    var second := EncodeStringField(2, p.value);
    StringFieldRoundTrip(1, q, p.key, second);
    var q1 := if p.key == [] then q else q.(key := p.key);
    StringFieldRoundTrip(2, q1, p.value, []);
    assert second + [] == second;
    assert MergePut(Merged(q, p), []) == Ok(Merged(q, p));
    hide EncodeStringField;
  }

  /** Two written Puts after each other read as one, whose fields are the later ones where the
      later Put has them. */
  lemma LaterPutMerges(p: Put, q: Put)
    requires Encodable(p) && Encodable(q)
    ensures DecodeCommand(EncodePutCommand(p) + EncodePutCommand(q))
            == Ok(Some(Put(if q.key == [] then p.key else q.key, if q.value == [] then p.value else q.value)))
  {
    hide EncodePutCommand, Encodable;
    CommandStep(None, p, EncodePutCommand(q));
    CommandStep(Some(p), q, []);
    assert EncodePutCommand(q) + [] == EncodePutCommand(q);
    CommandEnd(Some(Merged(p, q)));
    hide MergeCommand;
  }

  lemma CommandEnd(cmd: Option<Put>)
    ensures MergeCommand(cmd, []) == Ok(cmd)
  {
  }

  /** A Put cut short anywhere does not decode. */
  lemma CutPutFails(p: Put, cut: nat)
    requires Encodable(p) && 0 < cut < |EncodePutCommand(p)|
    ensures DecodeCommand(EncodePutCommand(p)[..cut]) == Err
  {
    var body := EncodePutBody(p);
    var data := EncodePutCommand(p)[..cut];
    var rest := Prefixed(body)[..cut - 1];
    assert data == EncodeVarint(0x0A) + rest;
    VarintRoundTrip(0x0A, rest);
    CutPrefixed(body, cut - 1);
    hide EncodePutBody, EncodePutCommand, EncodeVarint, DecodeVarint, DecodeDelimited, Prefixed;
    assert DecodeKey(data) == Ok((1, DELIMITED, rest));
    hide DecodeKey;
  }
}
