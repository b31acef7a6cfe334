// The production snapshot codec of the key-value state.
module SnapshotCodec {
  import opened Bincode
  import opened Bytes
  import opened Wrappers

  function Encode(m: KvMap): seq<byte>
    requires |m| < U64_LIMIT
  {
    EncodeMap(m)
  }

  /** Zero bytes stand for the empty map; bytes after the map are ignored. */
  function Decode(data: seq<byte>): Result<KvMap> {
    if data == [] then Ok(map[])
    else
      var (m, _) :- DecodeMap(data);
      Ok(m)
  }

  /** Every map comes back from its snapshot, whatever follows it. */
  lemma RoundTrip(m: KvMap, trailing: seq<byte>)
    requires |m| < U64_LIMIT
    ensures Encode(m) != []
    ensures Decode(Encode(m) + trailing) == Ok(m)
    ensures Decode(Encode(m)) == Ok(m)
    ensures Decode([]) == Ok(map[])
  {
    MapRoundTrip(m, trailing);
    MapRoundTrip(m, []);
    assert Encode(m) + [] == Encode(m);
  }

  /** A snapshot that is cut off anywhere does not decode; nothing at all is the empty map. */
  lemma CutFails(m: KvMap, cut: nat)
    requires |m| < U64_LIMIT && cut < |Encode(m)|
    ensures Decode(Encode(m)[..cut]) == if cut == 0 then Ok(map[]) else Err
  {
    hide DecodeMap, EncodeMap;
    CutMap(m, cut);
  }

  /** A snapshot names exactly one map. */
  lemma Injective(m: KvMap, n: KvMap)
    requires |m| < U64_LIMIT && |n| < U64_LIMIT && Encode(m) == Encode(n)
    ensures m == n
  {
    RoundTrip(m, []);
    RoundTrip(n, []);
  }
}
