// The key-value node: the map that commands and snapshots change in place.
module Node {
  import opened Bincode
  import opened Bytes
  import opened KvCommand
  import opened StateMachine
  import opened Utf8
  import opened Wrappers
  import SnapshotCodec

  datatype UserCommand = UserPut(key: Str, value: Str) | UserGet(key: Str) | UserKeys | UserStatus | UserCampaign

  /** What a command printed, before it is formatted as text. */
  datatype NodeOutput =
    | Stored(key: Str, value: Str)
    | Looked(found: Option<Str>)
    | Listed(keys: seq<Str>)
    | StandaloneStatus
    | CampaignIgnored

  class KvNode {
    var kv: KvMap

    constructor ()
      ensures kv == map[]
    {
      kv := map[];
    }

    /** Applies a replicated command; bytes that do not decode change nothing. */
    method ApplyKvCommand(data: seq<byte>) returns (ok: bool)
      modifies this
      ensures ok <==> DecodeCommand(data).Ok?
      ensures kv == match DecodeCommand(data)
                    case Ok(Some(p)) => Assign(old(kv), p)
                    case _ => old(kv)
    {
      match DecodeCommand(data) {
        case Err => return false;
        case Ok(None) => return true;
        case Ok(Some(p)) =>
          kv := kv[p.key := p.value];
          return true;
      }
    }

    method CreateSnapshot() returns (data: seq<byte>)
      requires |kv| < U64_LIMIT
      ensures SnapshotCodec.Decode(data) == Ok(kv)
      ensures data == SnapshotCodec.Encode(kv)
    {
      SnapshotCodec.RoundTrip(kv, []);
      data := SnapshotCodec.Encode(kv);
    }

    /** Replaces the whole map, or nothing when the data does not decode. */
    method RestoreFromSnapshot(data: seq<byte>) returns (ok: bool)
      modifies this
      ensures ok <==> SnapshotCodec.Decode(data).Ok?
      ensures kv == if ok then SnapshotCodec.Decode(data).value else old(kv)
      ensures forall m: KvMap | |m| < U64_LIMIT && data == SnapshotCodec.Encode(m) :: ok && kv == m
      ensures data == [] ==> ok && kv == map[]
    {
      forall m: KvMap | |m| < U64_LIMIT && data == SnapshotCodec.Encode(m)
        ensures SnapshotCodec.Decode(data) == Ok(m)
      {
        SnapshotCodec.RoundTrip(m, []);
      }
      match SnapshotCodec.Decode(data) {
        case Err => return false;
        case Ok(restored) =>
          kv := restored;
          return true;
      }
    }

    /** The standalone interpreter; only its Put writes the map. */
    method ApplyUserCommand(cmd: UserCommand) returns (output: NodeOutput)
      modifies this
      ensures kv == if cmd.UserPut? then old(kv)[cmd.key := cmd.value] else old(kv)
      ensures output == ReadOutput(kv, cmd)
      ensures output == match cmd
                        case UserPut(key, value) => Stored(key, value)
                        case UserGet(key) => Looked(if key in kv then Some(kv[key]) else None)
                        case UserKeys => Listed(SortedKeys(kv.Keys))
                        case UserStatus => StandaloneStatus
                        case UserCampaign => CampaignIgnored
    {
      match cmd {
        case UserPut(key, value) =>
          kv := kv[key := value];
          output := Stored(key, value);
        case UserGet(key) => output := Looked(Lookup(kv, key));
        case UserKeys => output := Listed(SortedKeys(kv.Keys));
        case UserStatus => output := StandaloneStatus;
        case UserCampaign => output := CampaignIgnored;
      }
    }
  }

  function ReadOutput(m: KvMap, cmd: UserCommand): NodeOutput {
    match cmd
    case UserPut(key, value) => Stored(key, value)
    case UserGet(key) => Looked(Lookup(m, key))
    case UserKeys => Listed(SortedKeys(m.Keys))
    case UserStatus => StandaloneStatus
    case UserCampaign => CampaignIgnored
  }
}
