// One round of the ready loop: send, store, send what storage unlocked, apply.
module ReadyProcessor {
  import opened Disk
  import opened EntryApplicator
  import opened Process
  import opened RaftTypes
  import opened Replicas
  import opened RoundEffects
  import opened StateMachine
  import opened Wrappers
  import KvNodes = Node
  import RaftNodes = RaftNode
  import SnapshotCodec

  /** Hands one message to the transport; a transport error is only logged. What is recorded
      with a message is what a crash at that moment would leave. */
  method SendMessage(raft: RaftNodes.RaftNode, node: KvNodes.KvNode, out: Outbox, phase: Phase, m: Message, r: Ready)
    requires raft.store.Synced()
    modifies out`sends
    ensures View(raft, node, out) == Do(old(View(raft, node, out)), Send(phase, m, r))
    ensures out.sends == old(out.sends) + [Sent(phase, m, r, raft.store.durable)]
  {
    out.sends := out.sends + [Sent(phase, m, r, raft.store.Live())];
  }

  method SendMessages(raft: RaftNodes.RaftNode, node: KvNodes.KvNode, out: Outbox,
                      phase: Phase, messages: seq<Message>, r: Ready)
    requires raft.store.Synced()
    modifies out`sends
    ensures View(raft, node, out) == Perform(old(View(raft, node, out)), SendActions(phase, messages, r))
    ensures out.sends == old(out.sends) + Batch(phase, messages, r, raft.store.durable)
  {
    hide View, Do;
    ghost var n := View(raft, node, out);
    for i := 0 to |messages|
      invariant View(raft, node, out) == Perform(n, SendActions(phase, messages[..i], r))
      invariant out.sends == old(out.sends) + Batch(phase, messages[..i], r, raft.store.durable)
    {
      SendOneMore(n, phase, messages, i, r);
      SendMessage(raft, node, out, phase, messages[i], r);
    }
    assert messages[..|messages|] == messages;
  }

  lemma SendOneMore(n: Replica, phase: Phase, messages: seq<Message>, i: nat, r: Ready)
    requires i < |messages|
    ensures Perform(n, SendActions(phase, messages[..i + 1], r))
            == Do(Perform(n, SendActions(phase, messages[..i], r)), Send(phase, messages[i], r))
  {
    hide Do;
    assert messages[..i + 1][..i] == messages[..i];
    PerformConcat(n, SendActions(phase, messages[..i], r), [Send(phase, messages[i], r)]);
    PerformOne(Perform(n, SendActions(phase, messages[..i], r)), Send(phase, messages[i], r));
  }

  method InstallRecord(raft: RaftNodes.RaftNode, node: KvNodes.KvNode, out: Outbox, s: Snapshot) returns (ok: bool)
    requires raft.store.Synced()
    modifies raft.store
    ensures ok ==> raft.store.Synced()
    ensures View(raft, node, out).(stopped := !ok) == DoPersist(old(View(raft, node, out)), InstallSnapshot(s))
    ensures ok ==>
              && raft.store.snapshotsTree == Some(s)
              && raft.store.metaTree == old(raft.store.metaTree).(conf := Some(s.conf))
              && (forall k :: k in raft.store.entriesTree
                              <==> k in old(raft.store.entriesTree) && KeyToIndex(k) > s.index)
  {
    ok := raft.store.ApplySnapshot(s);
  }

  method ApplySnapshot(raft: RaftNodes.RaftNode, node: KvNodes.KvNode, out: Outbox, s: Snapshot) returns (ok: bool)
    requires raft.store.Synced()
    modifies raft.store, node, out
    ensures ok ==> raft.store.Synced()
    ensures View(raft, node, out).(stopped := !ok) == Perform(old(View(raft, node, out)), SnapshotActions(s))
    ensures ok ==>
              && SnapshotCodec.Decode(s.data) == Ok(node.kv) && out.position == s.index
              && raft.store.snapshotsTree == Some(s)
              && raft.store.metaTree == old(raft.store.metaTree).(conf := Some(s.conf), applied := Some(s.index))
              && (forall k :: k in raft.store.entriesTree
                              <==> k in old(raft.store.entriesTree) && KeyToIndex(k) > s.index)
              && out.updates == old(out.updates) + [SystemMessage(SnapshotApplied(s.index, s.term))]
  {
    PerformSnapshot(View(raft, node, out), s);
    hide Perform, SnapshotActions, DoPersist, DoRestore, KeyToIndex, SnapshotCodec.Decode;
    ok := InstallRecord(raft, node, out, s);
    if !ok { return; }
    ok := RestoreSnapshot(raft, node, out, s);
    if !ok { return; }
    ok := RecordApplied(raft, node, out, s.index);
    if !ok { return; }
    out.updates := out.updates + [SystemMessage(SnapshotApplied(s.index, s.term))];
  }

  method AppendEntries(raft: RaftNodes.RaftNode, node: KvNodes.KvNode, out: Outbox, entries: seq<Entry>)
    returns (ok: bool)
    requires raft.store.Synced()
    modifies raft.store
    ensures ok ==> raft.store.Synced()
    ensures View(raft, node, out).(stopped := !ok)
            == Perform(old(View(raft, node, out)), [Persist(StoreEntries(entries))])
    ensures raft.store.metaTree == old(raft.store.metaTree) && raft.store.snapshotsTree == old(raft.store.snapshotsTree)
    ensures ok ==> forall j |
                     0 <= j < |entries| && (forall k | j < k < |entries| :: entries[k].index != entries[j].index) ::
                       Present(raft.store.durable, entries[j].index)
                       && raft.store.durable.entries[IndexToKey(entries[j].index)] == entries[j]
  {
    PerformOne(View(raft, node, out), Persist(StoreEntries(entries)));
    ok := raft.store.Append(entries);
  }

  method PersistHardState(raft: RaftNodes.RaftNode, node: KvNodes.KvNode, out: Outbox, hs: HardState) returns (ok: bool)
    requires raft.store.Synced()
    modifies raft.store
    ensures ok ==> raft.store.Synced()
    ensures View(raft, node, out).(stopped := !ok)
            == Perform(old(View(raft, node, out)), [Persist(StoreHard(hs))])
    ensures ok ==> raft.store.durable == old(raft.store.durable).(
                     meta := old(raft.store.durable.meta).(hard := Some(hs)))
  {
    PerformOne(View(raft, node, out), Persist(StoreHard(hs)));
    ok := raft.store.SetHardState(hs);
  }

  method UpdateTuiState(raft: RaftNodes.RaftNode, node: KvNodes.KvNode, out: Outbox, view: RaftView)
    modifies out`updates, out`previousLeader
    ensures View(raft, node, out) == Perform(old(View(raft, node, out)), [ShowState(view)])
    ensures out.previousLeader == Some(view.leaderId)
    ensures var before := old(out.previousLeader);
            out.updates
            == old(out.updates)
               + (if before.None? || before.value == view.leaderId || view.leaderId == 0 then []
                  else if before.value == 0 then [SystemMessage(LeaderElected(view.leaderId, view.term))]
                  else [SystemMessage(LeaderChanged(before.value, view.leaderId, view.term))])
               + [RaftState(view, raft.store.appliedIndex)]
  {
    PerformOne(View(raft, node, out), ShowState(view));
    if out.previousLeader.Some? {
      var before := out.previousLeader.value;
      if before != view.leaderId && view.leaderId != 0 {
        var note := if before == 0 then LeaderElected(view.leaderId, view.term)
                    else LeaderChanged(before, view.leaderId, view.term);
        out.updates := out.updates + [SystemMessage(note)];
      }
    }
    out.previousLeader := Some(view.leaderId);
    out.updates := out.updates + [RaftState(view, raft.store.appliedIndex)];
  }

  /** Steps 2 to 4: snapshot, entries, hard state, each flushed before the next. */
  method StoreReady(raft: RaftNodes.RaftNode, node: KvNodes.KvNode, out: Outbox, r: Ready) returns (ok: bool)
    requires raft.store.Synced()
    modifies raft.store, node, out
    ensures ok ==> raft.store.Synced()
    ensures View(raft, node, out).(stopped := !ok) == Perform(old(View(raft, node, out)), StoreActions(r))
  {
    hide Perform, SnapshotActions, View;
    ghost var n := View(raft, node, out);
    ghost var a := if r.snapshot.Some? then SnapshotActions(r.snapshot.value) else [];
    ghost var b := if r.entries != [] then [Persist(StoreEntries(r.entries))] else [];
    ghost var c := if r.hardState.Some? then [Persist(StoreHard(r.hardState.value))] else [];
    assert StoreActions(r) == a + b + c;
    PerformConcat(n, a, b);
    PerformConcat(n, a + b, c);
    ok := true;
    PerformNone(n);
    if r.snapshot.Some? {
      ok := ApplySnapshot(raft, node, out, r.snapshot.value);
      if !ok { PerformCut(n, a, b); PerformCut(n, a + b, c); return; }
    }
    assert View(raft, node, out) == Perform(n, a);
    PerformNone(Perform(n, a));
    if r.entries != [] {
      ok := AppendEntries(raft, node, out, r.entries);
      if !ok { PerformCut(n, a + b, c); return; }
    }
    assert View(raft, node, out) == Perform(n, a + b);
    PerformNone(Perform(n, a + b));
    if r.hardState.Some? {
      ok := PersistHardState(raft, node, out, r.hardState.value);
    }
  }

  /** The steps in their order; the first error ends the round. */
  method TakeSteps(raft: RaftNodes.RaftNode, node: KvNodes.KvNode, out: Outbox,
                   r: Ready, l: LightReady, view: RaftView, conf: ConfResults)
    returns (ok: bool)
    requires raft.store.Synced()
    modifies raft`callbacks, raft.store, node, out
    ensures ok ==> raft.store.Synced()
    ensures View(raft, node, out).(stopped := !ok)
            == Perform(old(View(raft, node, out)), RoundActions(r, l, view, conf))
  {
    hide Perform, View;
    ghost var n := View(raft, node, out);
    ghost var a := SendActions(Immediate, r.messages, r);
    ghost var b := a + StoreActions(r);
    ghost var c := b + SendActions(Persisted, r.persistedMessages, r);
    ghost var d := c + ApplyActions(r.committed, conf);
    ghost var e := d + [ShowState(view)];
    ghost var f := e + SendActions(Light, l.messages, r);
    assert RoundActions(r, l, view, conf) == f + ApplyActions(l.committed, conf);
    PerformConcat(n, a, StoreActions(r));
    PerformConcat(n, b, SendActions(Persisted, r.persistedMessages, r));
    PerformConcat(n, c, ApplyActions(r.committed, conf));
    PerformConcat(n, d, [ShowState(view)]);
    PerformConcat(n, e, SendActions(Light, l.messages, r));
    PerformConcat(n, f, ApplyActions(l.committed, conf));
    hide RoundActions, StoreActions, SendActions, ApplyActions;

    SendMessages(raft, node, out, Immediate, r.messages, r);
    ok := StoreReady(raft, node, out, r);
    if !ok {
      PerformCut(n, b, SendActions(Persisted, r.persistedMessages, r));
      PerformCut(n, c, ApplyActions(r.committed, conf));
      PerformCut(n, d, [ShowState(view)]);
      PerformCut(n, e, SendActions(Light, l.messages, r));
      PerformCut(n, f, ApplyActions(l.committed, conf));
      return;
    }
    SendMessages(raft, node, out, Persisted, r.persistedMessages, r);
    ok := ApplyEntries(raft, node, out, r.committed, conf);
    if !ok {
      PerformCut(n, d, [ShowState(view)]);
      PerformCut(n, e, SendActions(Light, l.messages, r));
      PerformCut(n, f, ApplyActions(l.committed, conf));
      return;
    }
    UpdateTuiState(raft, node, out, view);
    SendMessages(raft, node, out, Light, l.messages, r);
    ok := ApplyEntries(raft, node, out, l.committed, conf);
  }

  /** A round that ends without an error leaves the map, or the snapshot's if there is one, with
      every committed entry of the Ready and then of the LightReady applied, and has sent each of
      the three groups of messages once and in order. */
  method ProcessReady(raft: RaftNodes.RaftNode, node: KvNodes.KvNode, out: Outbox,
                      r: Ready, l: LightReady, view: RaftView, conf: ConfResults)
    returns (ok: bool)
    requires raft.store.Synced()
    modifies raft`callbacks, raft.store, node, out
    ensures ok ==> raft.store.Synced()
    ensures View(raft, node, out).(stopped := !ok)
            == Perform(old(View(raft, node, out)), RoundActions(r, l, view, conf))
    ensures ok && r.snapshot.Some? ==> SnapshotCodec.Decode(r.snapshot.value.data).Ok?
    ensures ok ==>
              && node.kv == Fold(if r.snapshot.Some? then SnapshotCodec.Decode(r.snapshot.value.data).value
                                 else old(node.kv), r.committed + l.committed)
              && out.position == (if l.committed != [] then l.committed[|l.committed| - 1].index
                                  else if r.committed != [] then r.committed[|r.committed| - 1].index
                                  else if r.snapshot.Some? then r.snapshot.value.index
                                  else old(out.position))
    ensures ok ==>
              exists stored, applied ::
                && SameLog(stored, raft.store.durable) && SameLog(applied, raft.store.durable)
                && out.sends == old(out.sends) + Batch(Immediate, r.messages, r, old(raft.store.durable))
                                + Batch(Persisted, r.persistedMessages, r, stored)
                                + Batch(Light, l.messages, r, applied)
    ensures ok ==>
              && raft.store.entriesTree == InsertAll(if r.snapshot.Some? then RemoveThrough(old(raft.store.entriesTree),
                                                                                            r.snapshot.value.index)
                                                     else old(raft.store.entriesTree), r.entries)
              && raft.store.snapshotsTree == (if r.snapshot.Some? then r.snapshot else old(raft.store.snapshotsTree))
              && raft.store.metaTree.hard == (if r.hardState.Some? then r.hardState else old(raft.store.metaTree.hard))
    ensures ok ==> raft.store.metaTree.conf
                   == LastConf(old(raft.store.metaTree.conf),
                               (if r.snapshot.Some? then [r.snapshot.value.conf] else [])
                               + Confs(r.committed, conf) + Confs(l.committed, conf))
    ensures ok ==>
              && out.replies == old(out.replies) + Replies(old(raft.callbacks), r.committed + l.committed)
              && raft.callbacks == old(raft.callbacks)
                                   - (set e | e in r.committed + l.committed && Outcome(e).Some? :: e.context)
  {
    ghost var n := View(raft, node, out);
    ok := TakeSteps(raft, node, out, r, l, view, conf);
    hide Perform, RoundActions, Fold, InsertAll, RemoveThrough, SameLog, Batch, Replies, Outcome, Confs, LastConf;
    hide SnapshotCodec.Decode;
    if ok {
      RoundDone(n, r, l, view, conf);
      ghost var stored, applied := RoundSent(n, r, l, view, conf);
      RoundStored(n, r, l, view, conf);
      RoundAnswered(n, r, l, view, conf);
      RoundConfigured(n, r, l, view, conf);
    }
  }
}
