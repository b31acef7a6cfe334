// Client and terminal commands: who may propose, who is answered at once.
module CommandHandler {
  import opened Bincode
  import opened KvCommand
  import opened Process
  import opened Replicas
  import opened StateMachine
  import opened Wrappers
  import KvNodes = Node
  import RaftNodes = RaftNode

  method HandleRpcCommand(raft: RaftNodes.RaftNode, node: KvNodes.KvNode, out: Outbox,
                          cmd: ServerCommand, env: CommandEnv)
    requires !cmd.User?
    modifies raft`callbacks, out`replies
    ensures View(raft, node, out) == Handle(old(View(raft, node, out)), cmd, env)
    ensures match cmd
            case RpcPut(_, resp) =>
              if env.view.leader then
                raft.callbacks == old(raft.callbacks)[env.callbackId := resp] && out.replies == old(out.replies)
              else
                && raft.callbacks == old(raft.callbacks)
                && out.replies == old(out.replies) + [PutReply(resp, NotLeader(env.view.leaderId))]
            case RpcGet(key, resp) =>
              && raft.callbacks == old(raft.callbacks)
              && out.replies == old(out.replies) + [GetReply(resp, if key in node.kv then Some(node.kv[key]) else None)]
  {
    match cmd {
      case RpcPut(put, resp) =>
        if !env.view.leader {
          out.replies := out.replies + [PutReply(resp, NotLeader(env.view.leaderId))];
          return;
        }
        // A refusal is only logged; nobody is answered.
        var _, _ := raft.ProposeCommand(put, Some(resp), env);
      case RpcGet(key, resp) =>
        out.replies := out.replies + [GetReply(resp, Lookup(node.kv, key))];
    }
  }

  method HandleUserCommand(raft: RaftNodes.RaftNode, node: KvNodes.KvNode, out: Outbox,
                           cmd: KvNodes.UserCommand, env: CommandEnv)
    modifies raft`callbacks, node, out`updates
    ensures View(raft, node, out) == HandleUser(old(View(raft, node, out)), cmd, env)
    ensures raft.callbacks == old(raft.callbacks) && node.kv == old(node.kv)
    ensures cmd.UserCampaign? && !env.campaignOk ==> out.updates == old(out.updates)
    ensures !(cmd.UserCampaign? && !env.campaignOk) ==>
              out.updates == old(out.updates) + [SystemMessage(
                match cmd
                case UserPut(key, value) =>
                  if !env.view.leader || env.propose.ProposalDropped? then WritesGoToLeader(env.view.leaderId)
                  else if env.propose.ProposeOk? then Proposed(Put(key, value))
                  else ProposeFailed
                case UserCampaign => CampaignStarted
                case UserStatus => StatusReport(env.view, raft.store.appliedIndex)
                case UserGet(key) =>
                  ReadOnly(KvNodes.Looked(if key in node.kv then Some(node.kv[key]) else None))
                case UserKeys => ReadOnly(KvNodes.Listed(SortedKeys(node.kv.Keys))))]
  {
    hide DecodeCommand, Encodable, SortedKeys;
    var note: Note;
    match cmd {
      case UserPut(key, value) =>
        var put := Put(key, value);
        var result, _ := raft.ProposeCommand(put, None, env);
        note := match result
          case ProposeOk => Proposed(put)
          case ProposalDropped => WritesGoToLeader(env.view.leaderId)
          case ProposeError => ProposeFailed;
      case UserCampaign =>
        if !env.campaignOk { return; }
        note := CampaignStarted;
      case UserStatus =>
        note := StatusReport(env.view, raft.store.appliedIndex);
      case _ =>
        var output := node.ApplyUserCommand(cmd);
        note := ReadOnly(output);
    }
    out.updates := out.updates + [SystemMessage(note)];
  }

  method HandleCommand(raft: RaftNodes.RaftNode, node: KvNodes.KvNode, out: Outbox, cmd: ServerCommand, env: CommandEnv)
    modifies raft`callbacks, node, out`replies, out`updates
    ensures View(raft, node, out) == Handle(old(View(raft, node, out)), cmd, env)
    ensures node.kv == old(node.kv)
    ensures match cmd
            case RpcPut(_, resp) =>
              && out.updates == old(out.updates)
              && raft.callbacks == (if env.view.leader then old(raft.callbacks)[env.callbackId := resp]
                                    else old(raft.callbacks))
              && out.replies == old(out.replies) + (if env.view.leader then []
                                                    else [PutReply(resp, NotLeader(env.view.leaderId))])
            case RpcGet(key, resp) =>
              && out.updates == old(out.updates) && raft.callbacks == old(raft.callbacks)
              && out.replies == old(out.replies) + [GetReply(resp, if key in node.kv then Some(node.kv[key]) else None)]
            case User(user) =>
              && raft.callbacks == old(raft.callbacks) && out.replies == old(out.replies)
              && (user.UserCampaign? && !env.campaignOk ==> out.updates == old(out.updates))
              && (!(user.UserCampaign? && !env.campaignOk) ==>
                    out.updates == old(out.updates) + [SystemMessage(
                      match user
                      case UserPut(key, value) =>
                        if !env.view.leader || env.propose.ProposalDropped? then WritesGoToLeader(env.view.leaderId)
                        else if env.propose.ProposeOk? then Proposed(Put(key, value))
                        else ProposeFailed
                      case UserCampaign => CampaignStarted
                      case UserStatus => StatusReport(env.view, raft.store.appliedIndex)
                      case UserGet(key) =>
                        ReadOnly(KvNodes.Looked(if key in node.kv then Some(node.kv[key]) else None))
                      case UserKeys => ReadOnly(KvNodes.Listed(SortedKeys(node.kv.Keys))))])
  {
    hide SortedKeys;
    match cmd {
      case User(user) => HandleUserCommand(raft, node, out, user, env);
      case _ => HandleRpcCommand(raft, node, out, cmd, env);
    }
  }
}
