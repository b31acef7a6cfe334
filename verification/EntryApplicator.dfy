// Applying committed entries and restored snapshots to the key-value node.
module EntryApplicator {
  import opened Bytes
  import opened Disk
  import opened KvCommand
  import opened Process
  import opened RaftTypes
  import opened Replicas
  import opened RoundEffects
  import opened StateMachine
  import opened Wrappers
  import KvNodes = Node
  import RaftNodes = RaftNode
  import SnapshotCodec

  method ReplyTo(raft: RaftNodes.RaftNode, node: KvNodes.KvNode, out: Outbox, context: Context, outcome: PutOutcome)
    modifies raft`callbacks, out`replies
    ensures View(raft, node, out) == Answer(old(View(raft, node, out)), context, outcome)
    ensures raft.callbacks == old(raft.callbacks) - {context}
    ensures out.replies == old(out.replies) + (if context in old(raft.callbacks)
                                               then [PutReply(old(raft.callbacks)[context], outcome)] else [])
  {
    var callback := raft.TakeCallback(context);
    if callback.Some? {
      out.replies := out.replies + [PutReply(callback.value, outcome)];
    } else {
      assert raft.callbacks == old(raft.callbacks);
    }
  }

  method NotifyKvUpdate(raft: RaftNodes.RaftNode, node: KvNodes.KvNode, out: Outbox, entry: Entry)
    modifies raft`callbacks, out`replies, out`updates
    ensures View(raft, node, out) ==
      match DecodeCommand(entry.data)
      case Ok(Some(p)) =>
        var n := old(View(raft, node, out));
        Answer(n.(updates := n.updates + [KvUpdate(p), LogEntry(entry.index, entry.term, p)]), entry.context, Accepted)
      case _ => old(View(raft, node, out))
    ensures match DecodeCommand(entry.data)
            case Ok(Some(p)) =>
              && out.updates == old(out.updates) + [KvUpdate(p), LogEntry(entry.index, entry.term, p)]
              && raft.callbacks == old(raft.callbacks) - {entry.context}
              && out.replies == old(out.replies)
                                + (if entry.context in old(raft.callbacks)
                                   then [PutReply(old(raft.callbacks)[entry.context], Accepted)] else [])
            case _ => out.updates == old(out.updates) && raft.callbacks == old(raft.callbacks)
                      && out.replies == old(out.replies)
  {
    match DecodeCommand(entry.data) {
      case Ok(Some(p)) =>
        out.updates := out.updates + [KvUpdate(p)];
        out.updates := out.updates + [LogEntry(entry.index, entry.term, p)];
        ReplyTo(raft, node, out, entry.context, Accepted);
      case _ =>
    }
  }

  /** The map, the terminal and the waiting caller learn of the entry. */
  method DeliverEntry(raft: RaftNodes.RaftNode, node: KvNodes.KvNode, out: Outbox, entry: Entry)
    modifies raft`callbacks, node, out
    ensures View(raft, node, out) == DoDeliver(old(View(raft, node, out)), entry)
    ensures out.position == entry.index && out.sends == old(out.sends)
    ensures match DecodeCommand(entry.data)
            case Ok(Some(p)) =>
              && node.kv == old(node.kv)[p.key := p.value]
              && out.updates == old(out.updates) + [KvUpdate(p), LogEntry(entry.index, entry.term, p)]
              && raft.callbacks == old(raft.callbacks) - {entry.context}
              && out.replies == old(out.replies)
                                + (if entry.context in old(raft.callbacks)
                                   then [PutReply(old(raft.callbacks)[entry.context], Accepted)] else [])
            case Ok(None) =>
              node.kv == old(node.kv) && out.updates == old(out.updates)
              && raft.callbacks == old(raft.callbacks) && out.replies == old(out.replies)
            case Err =>
              && node.kv == old(node.kv) && out.updates == old(out.updates)
              && raft.callbacks == old(raft.callbacks) - {entry.context}
              && out.replies == old(out.replies)
                                + (if entry.context in old(raft.callbacks)
                                   then [PutReply(old(raft.callbacks)[entry.context], ApplyFailed)] else [])
  {
    out.position, out.delivered := entry.index, out.delivered + {entry.index as nat};
    var applied := node.ApplyKvCommand(entry.data);
    if applied {
      NotifyKvUpdate(raft, node, out, entry);
    } else {
      ReplyTo(raft, node, out, entry.context, ApplyFailed);
    }
  }

  method RecordApplied(raft: RaftNodes.RaftNode, node: KvNodes.KvNode, out: Outbox, index: u64) returns (ok: bool)
    requires raft.store.Synced()
    modifies raft.store
    ensures ok ==> raft.store.Synced()
    ensures View(raft, node, out).(stopped := !ok) == DoPersist(old(View(raft, node, out)), StoreApplied(index))
    ensures raft.store.appliedIndex == index
    ensures ok ==> raft.store.durable == SetApplied(old(raft.store.durable), index)
  {
    ok := raft.store.SetAppliedIndex(index);
  }

  method RecordConf(raft: RaftNodes.RaftNode, node: KvNodes.KvNode, out: Outbox, cs: ConfState) returns (ok: bool)
    requires raft.store.Synced()
    modifies raft.store
    ensures ok ==> raft.store.Synced()
    ensures View(raft, node, out).(stopped := !ok) == DoPersist(old(View(raft, node, out)), StoreConf(cs))
    ensures raft.store.appliedIndex == old(raft.store.appliedIndex)
    ensures ok ==> raft.store.durable == SetConf(old(raft.store.durable), cs)
  {
    ok := raft.store.SetConfState(cs);
  }

  method ApplyNormalEntry(raft: RaftNodes.RaftNode, node: KvNodes.KvNode, out: Outbox, entry: Entry) returns (ok: bool)
    requires raft.store.Synced()
    modifies raft`callbacks, raft.store, node, out
    ensures ok ==> raft.store.Synced()
    ensures View(raft, node, out).(stopped := !ok)
            == Perform(old(View(raft, node, out)), [Deliver(entry), Persist(StoreApplied(entry.index))])
    ensures node.kv == (match DecodeCommand(entry.data)
                        case Ok(Some(p)) => old(node.kv)[p.key := p.value]
                        case _ => old(node.kv))
    ensures raft.store.appliedIndex == entry.index && out.position == entry.index
    ensures ok ==> raft.store.durable == old(raft.store.durable).(
                     meta := old(raft.store.durable.meta).(applied := Some(entry.index)))
  {
    hide DoDeliver, DoPersist;
    PerformPair(View(raft, node, out), Deliver(entry), Persist(StoreApplied(entry.index)));
    hide Perform;
    DeliverEntry(raft, node, out, entry);
    assert View(raft, node, out) == Do(old(View(raft, node, out)), Deliver(entry)) by {
      hide DoDeliver;
    }
    ok := RecordApplied(raft, node, out, entry.index);
  }

  /** A configuration change that failed to decode or apply is only counted. */
  method SkipConfChange(raft: RaftNodes.RaftNode, node: KvNodes.KvNode, out: Outbox, entry: Entry)
    modifies out
    ensures View(raft, node, out) == Do(old(View(raft, node, out)), Pass(entry, true))
  {
    out.position, out.refused := entry.index, out.refused + {entry.index as nat};
  }

  /** Both encodings of a configuration change are applied the same way. */
  method ApplyConfChange(raft: RaftNodes.RaftNode, node: KvNodes.KvNode, out: Outbox, entry: Entry, conf: ConfResults)
    returns (ok: bool)
    requires raft.store.Synced() && entry.data != [] && !entry.kind.EntryNormal?
    modifies raft`callbacks, raft.store, node, out
    ensures ok ==> raft.store.Synced()
    ensures View(raft, node, out).(stopped := !ok)
            == Perform(old(View(raft, node, out)), EntryActions(entry, conf))
    ensures node.kv == old(node.kv) && out.position == entry.index && out.replies == old(out.replies)
    ensures entry.index !in conf ==>
              ok && unchanged(raft.store) && out.refused == old(out.refused) + {entry.index as nat}
    ensures entry.index in conf && ok ==>
              && raft.store.appliedIndex == entry.index && out.refused == old(out.refused)
              && raft.store.durable == old(raft.store.durable).(meta := old(raft.store.durable.meta).(
                   conf := Some(conf[entry.index]), applied := Some(entry.index)))
  {
    hide Perform, DoPersist;
    ghost var n := View(raft, node, out);
    if entry.index !in conf {
      PerformOne(n, Pass(entry, true));
      SkipConfChange(raft, node, out, entry);
      return true;
    }
    PerformTriple(n, Pass(entry, false), Persist(StoreConf(conf[entry.index])), Persist(StoreApplied(entry.index)));
    out.position := entry.index;
    assert View(raft, node, out) == Do(n, Pass(entry, false));
    hide View;
    ok := RecordConf(raft, node, out, conf[entry.index]);
    if !ok { return; }
    ok := RecordApplied(raft, node, out, entry.index);
  }

  /** Dispatch on one committed entry; empty ones are only counted. */
  method ApplyEntry(raft: RaftNodes.RaftNode, node: KvNodes.KvNode, out: Outbox, entry: Entry, conf: ConfResults)
    returns (ok: bool)
    requires raft.store.Synced()
    modifies raft`callbacks, raft.store, node, out
    ensures ok ==> raft.store.Synced()
    ensures View(raft, node, out).(stopped := !ok)
            == Perform(old(View(raft, node, out)), EntryActions(entry, conf))
  {
    if entry.data == [] {
      PerformOne(View(raft, node, out), Pass(entry, false));
      out.position := entry.index;
      return true;
    }
    hide Perform;
    match entry.kind {
      case EntryNormal => ok := ApplyNormalEntry(raft, node, out, entry);
      case EntryConfChange => ok := ApplyConfChange(raft, node, out, entry, conf);
      case EntryConfChangeV2 => ok := ApplyConfChange(raft, node, out, entry, conf);
    }
  }

  method ApplyEntries(raft: RaftNodes.RaftNode, node: KvNodes.KvNode, out: Outbox,
                      entries: seq<Entry>, conf: ConfResults)
    returns (ok: bool)
    requires raft.store.Synced()
    modifies raft`callbacks, raft.store, node, out
    ensures ok ==> raft.store.Synced()
    ensures View(raft, node, out).(stopped := !ok)
            == Perform(old(View(raft, node, out)), ApplyActions(entries, conf))
    ensures ok ==>
              && node.kv == Fold(old(node.kv), entries)
              && out.position == (if entries == [] then old(out.position) else entries[|entries| - 1].index)
              && out.replies == old(out.replies) + Replies(old(raft.callbacks), entries)
              && SameLog(old(raft.store.durable), raft.store.durable) && out.sends == old(out.sends)
  {
    hide EntryActions, Do;
    ghost var n := View(raft, node, out);
    ok := true;
    for i := 0 to |entries|
      invariant ok && raft.store.Synced()
      invariant View(raft, node, out) == Perform(n, ApplyActions(entries[..i], conf))
    {
      hide Perform, View;
      ApplyOneMore(n, entries, i, conf);
      ok := ApplyEntry(raft, node, out, entries[i], conf);
      if !ok {
        ApplyRestSkipped(n, entries, i + 1, conf);
        return;
      }
      assert View(raft, node, out).(stopped := false) == View(raft, node, out);
    }
    assert entries[..|entries|] == entries;
    hide Perform, ApplyActions;
    EntriesApplied(n, entries, conf);
    hide Fold, Replies, Announced, Deliveries, Recorded, Confs, Told;
  }

  method RestoreSnapshot(raft: RaftNodes.RaftNode, node: KvNodes.KvNode, out: Outbox, s: Snapshot) returns (ok: bool)
    modifies node, out
    ensures View(raft, node, out).(stopped := !ok) == DoRestore(old(View(raft, node, out)), s)
    ensures ok <==> SnapshotCodec.Decode(s.data).Ok?
    ensures ok ==> SnapshotCodec.Decode(s.data) == Ok(node.kv) && out.position == s.index
    ensures !ok ==> node.kv == old(node.kv) && out.position == old(out.position)
    ensures out.updates == old(out.updates) && out.replies == old(out.replies) && out.sends == old(out.sends)
  {
    ok := node.RestoreFromSnapshot(s.data);
    if ok {
      out.position, out.since, out.mark, out.restored := s.index, s.index, |out.updates|, true;
    }
  }

  lemma ApplyOneMore(n: Replica, es: seq<Entry>, i: nat, conf: ConfResults)
    requires i < |es|
    ensures Perform(n, ApplyActions(es[..i + 1], conf))
            == Perform(Perform(n, ApplyActions(es[..i], conf)), EntryActions(es[i], conf))
  {
    assert es[..i + 1][..i] == es[..i];
    PerformConcat(n, ApplyActions(es[..i], conf), EntryActions(es[i], conf));
  }

  /** After a stop the remaining entries have no effect. */
  lemma {:induction false} ApplyRestSkipped(n: Replica, es: seq<Entry>, i: nat, conf: ConfResults)
    requires i <= |es| && Perform(n, ApplyActions(es[..i], conf)).stopped
    ensures Perform(n, ApplyActions(es, conf)) == Perform(n, ApplyActions(es[..i], conf))
    decreases |es| - i
  {
    if i == |es| {
      assert es[..i] == es;
    } else {
      ApplyOneMore(n, es, i, conf);
      PerformStopped(Perform(n, ApplyActions(es[..i], conf)), EntryActions(es[i], conf));
      ApplyRestSkipped(n, es, i + 1, conf);
    }
  }
}
