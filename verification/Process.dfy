// The loop's outgoing channels, and the running objects seen as one value.
module Process {
  import opened Bytes
  import opened Replicas
  import opened Wrappers
  import KvNodes = Node
  import RaftNodes = RaftNode

  /** Replies to waiting callers, updates to the terminal, messages to the transport. */
  class Outbox {
    var replies: seq<Reply>
    var updates: seq<StateUpdate>
    var sends: seq<Sent>
    var previousLeader: Option<u64>

    ghost var position: nat
    ghost var since: nat
    ghost var mark: nat
    ghost var restored: bool
    ghost var refused: set<nat>
    ghost var delivered: set<nat>

    constructor (start: nat, sends: seq<Sent>)
      ensures replies == [] && updates == [] && this.sends == sends && previousLeader == None
      ensures position == start && since == start && mark == 0 && !restored && refused == {} && delivered == {}
    {
      replies, updates, this.sends, previousLeader := [], [], sends, None;
      position, since, mark, restored, refused, delivered := start, start, 0, false, {}, {};
    }
  }

  /** The objects of a running node as a value. */
  ghost function View(raft: RaftNodes.RaftNode, node: KvNodes.KvNode, out: Outbox): (n: Replica)
    reads raft, raft.store, node, out
    ensures !n.stopped
  {
    Replica(
      raft.store.Live(), raft.store.appliedIndex, raft.store.fuel, raft.store.written,
      node.kv, raft.callbacks, out.replies, out.updates, out.sends, out.previousLeader,
      out.position, out.since, out.mark, out.restored, out.refused, out.delivered, raft.store.trace, false)
  }
}
