// The wrapper around raft-rs: storage plus the table of reply callbacks.
module RaftNode {
  import opened Bytes
  import opened KvCommand
  import opened Replicas
  import opened Wrappers
  import Storage = DiskStorage

  /** What is handed to raft-rs as a proposal. */
  datatype Proposal = Proposal(context: Context, data: seq<byte>)

  class RaftNode {
    const store: Storage.DiskStorage
    var callbacks: map<Context, ReplyId>

    constructor (store: Storage.DiskStorage)
      ensures this.store == store && callbacks == map[]
    {
      this.store := store;
      callbacks := map[];
    }

    /** Only a leader proposes; a callback is registered before raft-rs answers and
        stays registered when raft-rs refuses. */
    method ProposeCommand(put: Put, callback: Option<ReplyId>, env: CommandEnv)
      returns (result: ProposeResult, proposed: Option<Proposal>)
      modifies this`callbacks
      ensures result == if env.view.leader then env.propose else ProposalDropped
      ensures callbacks == if env.view.leader && callback.Some? then old(callbacks)[env.callbackId := callback.value]
                           else old(callbacks)
      ensures proposed.Some? <==> env.view.leader
      ensures proposed.Some? && Encodable(put) ==>
                && proposed.value.context == env.callbackId
                && proposed.value.data != []
                && DecodeCommand(proposed.value.data) == Ok(Some(put))
    {
      if !env.view.leader {
        return ProposalDropped, None;
      }
      if Encodable(put) {
        PutCommandRoundTrip(put);
      }
      var data := EncodePutCommand(put);
      if callback.Some? {
        callbacks := callbacks[env.callbackId := callback.value];
      }
      return env.propose, Some(Proposal(env.callbackId, data));
    }

    /** Removes and returns the callback, so that it can fire only once. */
    method TakeCallback(context: Context) returns (callback: Option<ReplyId>)
      modifies this`callbacks
      ensures callback == if context in old(callbacks) then Some(old(callbacks)[context]) else None
      ensures callbacks == old(callbacks) - {context}
    {
      if context !in callbacks {
        assert callbacks == callbacks - {context};
        return None;
      }
      callback := Some(callbacks[context]);
      callbacks := callbacks - {context};
    }
  }
}
