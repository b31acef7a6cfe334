// The raft-rs values that cross the storage and application boundary.
module RaftTypes {
  import opened Bytes
  import opened Wrappers

  datatype EntryKind = EntryNormal | EntryConfChange | EntryConfChangeV2

  datatype Entry = Entry(index: u64, term: u64, kind: EntryKind, data: seq<byte>, context: seq<byte>)

  datatype HardState = HardState(term: u64, vote: u64, commit: u64)

  datatype ConfState = ConfState(voters: seq<u64>)

  datatype Snapshot = Snapshot(index: u64, term: u64, conf: ConfState, data: seq<byte>)

  /** A consensus message; only its addresses matter to the modelled code. */
  datatype Message = Message(to: u64, from: u64, body: seq<byte>)

  const DEFAULT_HARD_STATE := HardState(0, 0, 0)

  /** What one poll of raft-rs hands over. */
  datatype Ready = Ready(
    messages: seq<Message>,
    snapshot: Option<Snapshot>,
    entries: seq<Entry>,
    hardState: Option<HardState>,
    persistedMessages: seq<Message>,
    committed: seq<Entry>)

  /** What advancing past a Ready hands over. */
  datatype LightReady = LightReady(commitIndex: Option<u64>, messages: seq<Message>, committed: seq<Entry>)

  /** The parts of raft-rs's own state that the code reads. */
  datatype RaftView = RaftView(leader: bool, leaderId: u64, term: u64, commit: u64)

  /** Entries carry consecutive indices starting at `first`. */
  predicate Contiguous(es: seq<Entry>, first: nat) {
    forall i | 0 <= i < |es| :: es[i].index == first + i
  }
}
