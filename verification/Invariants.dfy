// What every effect keeps, whenever it is in order.
module Invariants {
  import opened Bincode
  import opened Bytes
  import opened Disk
  import opened KvCommand
  import opened RaftTypes
  import opened Replicas
  import opened StateMachine
  import opened Terminal
  import opened World
  import opened Wrappers
  import SnapshotCodec

  // ---- storage: the trees hold a log, and the durable commit index lies in it ----

  ghost predicate StorageInv(w: World, d: Disk)
    requires Sound(w)
  {
    && (exists l :: Represents(d, l))
    && Base(d) <= |w.log| && (!w.snapshots ==> Base(d) == 0)
    && HasVoters(d)
    && CommitOf(d) <= |w.log| && CommitOf(d) <= LastIndex(d)
    && HoldsCommitted(w, d, CommitOf(d))
    && d.snapshot.Some? && HasMap(w, d.snapshot.value)
  }

  /** The snapshot's data decodes to the map of its index. */
  ghost predicate HasMap(w: World, s: Snapshot) {
    s.index <= |w.log| && SnapshotCodec.Decode(s.data) == Ok(MapAt(w, s.index))
  }

  lemma CarriedMap(w: World, s: Snapshot)
    requires CarriesMap(w, s)
    ensures HasMap(w, s)
  {
    hide MapAt;
    SnapshotCodec.RoundTrip(MapAt(w, s.index), []);
  }

  lemma EmptyMap(w: World, peers: ConfState)
    ensures HasMap(w, EmptySnapshot(peers))
  {
    assert MapAt(w, 0) == map[];
  }

  lemma EntriesKeepStorage(w: World, d: Disk, es: seq<Entry>)
    requires Sound(w) && StorageInv(w, d) && EntriesInOrder(w, d, es)
    ensures StorageInv(w, Append(d, es))
  {
    hide IndexToKey, Sound, LastIndex, InsertAll, Represents, HasMap;
    var l :| Represents(d, l);
    ReadsAgree(d, l);
    AppendRefines(d, l, es[0].index, es);
    EntriesKeepCommitted(w, d, es);
  }

  lemma EntriesKeepCommitted(w: World, d: Disk, es: seq<Entry>)
    requires Sound(w) && EntriesInOrder(w, d, es)
    requires CommitOf(d) <= |w.log| && HoldsCommitted(w, d, CommitOf(d))
    ensures HoldsCommitted(w, Append(d, es), CommitOf(d))
  {
    hide IndexToKey, Sound, LastIndex, InsertAll;
    var d' := Append(d, es);
    var first := es[0].index;
    InsertAllContents(d.entries, es, first);
    forall i: u64 | Base(d) < i <= CommitOf(d)
      ensures Present(d', i) && d'.entries[IndexToKey(i)] == w.log[i - 1]
    {
      assert Present(d, i);
      if first <= i < first + |es| {
        assert es[i - first] in es;
      }
    }
  }

  lemma SnapshotKeepsStorage(w: World, d: Disk, s: Snapshot)
    requires Sound(w) && StorageInv(w, d)
    requires Base(d) <= s.index <= |w.log| && s.conf.voters != [] && w.snapshots && HasMap(w, s)
    ensures StorageInv(w, ApplySnapshot(d, s))
  {
    hide IndexToKey, Sound, HasMap;
    var l :| Represents(d, l);
    SnapshotRefines(d, l, s);
    RemoveThroughContents(d.entries, s.index);
    var d' := ApplySnapshot(d, s);
    forall i: u64 | Base(d') < i <= CommitOf(d')
      ensures Present(d', i) && d'.entries[IndexToKey(i)] == w.log[i - 1]
    {
      assert Present(d, i);
    }
  }

  lemma MetaKeepsStorage(w: World, d: Disk, d': Disk)
    requires Sound(w) && StorageInv(w, d)
    requires d'.entries == d.entries && d'.snapshot == d.snapshot && HasVoters(d')
    requires d'.meta.hard == d.meta.hard || (d'.meta.hard.Some? && HardInOrder(w, d, d'.meta.hard.value))
    ensures StorageInv(w, d')
  {
    hide IndexToKey, Sound, HasMap;
    var l :| Represents(d, l);
    assert forall i: u64 :: Present(d, i) == Present(d', i);
    SameEntriesRepresent(d, d', l);
    hide Represents;
  }

  lemma PrefixInOrder(w: World, d: Disk, es: seq<Entry>, k: nat)
    requires Sound(w) && EntriesInOrder(w, d, es) && 0 < k <= |es|
    ensures EntriesInOrder(w, d, es[..k])
  {
    hide Sound, LastIndex;
    assert forall e | e in es[..k] :: e in es;
  }

  lemma InsertNone(d: Disk)
    ensures Append(d, []) == d
  {
  }

  /** A write in order keeps storage sound whether it completes or fails part-way. */
  lemma WriteKeepsStorage(w: World, n: Replica, write: Write)
    requires Sound(w) && !n.stopped && StorageInv(w, n.disk) && Enabled(w, n, Persist(write))
    ensures StorageInv(w, Do(n, Persist(write)).disk)
  {
    hide StorageInv, HardInOrder, EntriesInOrder, InsertAll, CarriesMap, HasMap, KeysThrough, RemoveKeys, RemoveThrough;
    match write {
      case StoreEntries(es) =>
        EntriesKeepStorage(w, n.disk, es);
        if 0 < n.written < |es| {
          PrefixInOrder(w, n.disk, es, n.written);
          EntriesKeepStorage(w, n.disk, es[..n.written]);
        } else if n.written == 0 {
          assert es[..0] == [];
          InsertNone(n.disk);
        }
      case InstallSnapshot(s) =>
        CarriedMap(w, s);
        SnapshotKeepsStorage(w, n.disk, s);
        if n.written >= 2 + |Covered(n.disk, s)| {
          AllRemoved(n.disk, s, n.written);
        }
      case StoreHard(hs) =>
        VotersIn(w, n.disk);
        MetaKeepsStorage(w, n.disk, SetHard(n.disk, hs));
      case StoreConf(cs) =>
        VotersIn(w, n.disk);
        MetaKeepsStorage(w, n.disk, SetConf(n.disk, cs));
      case StoreApplied(i) =>
        VotersIn(w, n.disk);
        MetaKeepsStorage(w, n.disk, SetApplied(n.disk, i));
    }
  }

  lemma VotersIn(w: World, d: Disk)
    requires Sound(w) && StorageInv(w, d)
    ensures HasVoters(d)
  {
  }

  // ---- the map: the fold of the committed entries consumed since its origin -----

  ghost predicate MapInv(w: World, n: Replica) {
    && n.since <= n.position <= |w.log|
    && n.kv == Fold(map[], w.log[n.Origin()..n.position])
    && (!w.snapshots ==> n.since == 0 && !n.restored)
  }

  lemma ConsumeEntry(w: World, from: nat, position: nat, m: KvMap)
    requires from <= position < |w.log|
    ensures Fold(m, w.log[from..position + 1]) == ApplyEntry(Fold(m, w.log[from..position]), w.log[position])
  {
    hide ApplyEntry;
    var es := w.log[from..position + 1];
    assert es[..|es| - 1] == w.log[from..position] by {
      hide *;
    }
    assert es[|es| - 1] == w.log[position];
  }

  lemma DeliverMap(n: Replica, e: Entry)
    requires !n.stopped && e.data != [] && e.kind.EntryNormal?
    ensures Do(n, Deliver(e)).kv == ApplyEntry(n.kv, e)
  {
    hide DecodeCommand, Assign, Answer;
    var n1 := n.(position := e.index, delivered := n.delivered + {e.index});
    match DecodeCommand(e.data) {
      case Err => AnswerFrame(n1, e.context, ApplyFailed);
      case Ok(None) =>
      case Ok(Some(p)) =>
        var us := n.updates + [KvUpdate(p), LogEntry(e.index, e.term, p)];
        AnswerFrame(n1.(kv := Assign(n.kv, p), updates := us), e.context, Accepted);
    }
  }

  /** Storage, messages and the terminal do not move the map. */
  lemma MapFrame(n: Replica, a: Action)
    requires a.Send? || a.Persist? || a.Announce? || a.ShowState?
    ensures var n' := Do(n, a);
            && n'.kv == n.kv && n'.since == n.since && n'.position == n.position && n'.restored == n.restored
            && n'.callbacks == n.callbacks && n'.replies == n.replies
            && n'.delivered == n.delivered && n'.mark == n.mark
  {
    hide Complete, Interrupted, LeadershipNotes;
  }

  lemma RestoreMap(w: World, n: Replica, s: Snapshot)
    requires Sound(w) && !n.stopped && Enabled(w, n, Restore(s))
    ensures w.snapshots && n.position <= s.index
    ensures Do(n, Restore(s)) == n.(kv := MapAt(w, s.index), position := s.index, since := s.index,
            mark := |n.updates|, restored := true)
  {
    SnapshotCodec.RoundTrip(MapAt(w, s.index), []);
  }

  lemma ActionKeepsMap(w: World, n: Replica, a: Action)
    requires Sound(w) && MapInv(w, n) && Enabled(w, n, a)
    ensures MapInv(w, Do(n, a))
  {
    hide Fold, MapInv, MapAt, Sound;
    if n.stopped {
      return;
    }
    match a {
      case Deliver(e) => DeliverKeepsMap(w, n, e);
      case Pass(e, failed) => PassKeepsMap(w, n, e, failed);
      case Restore(s) => RestoreKeepsMap(w, n, s);
      case _ =>
        MapFrame(n, a);
        hide Do, Enabled;
        SameMap(w, n, Do(n, a));
    }
  }

  lemma SameMap(w: World, n: Replica, n': Replica)
    requires MapInv(w, n) && n'.kv == n.kv && n'.since == n.since && n'.position == n.position
    requires n'.restored == n.restored
    ensures MapInv(w, n')
  {
    hide Fold;
  }

  /** An entry that is passed over puts nothing. */
  lemma PassInOrder(w: World, n: Replica, e: Entry, failed: bool)
    requires Sound(w) && !n.stopped && Enabled(w, n, Pass(e, failed))
    ensures n.position < |w.log| && e == w.log[n.position] && e.index == n.position + 1
    ensures forall m :: ApplyEntry(m, e) == m
  {
    hide DecodeCommand;
  }

  lemma PassKeepsMap(w: World, n: Replica, e: Entry, failed: bool)
    requires Sound(w) && !n.stopped && MapInv(w, n) && Enabled(w, n, Pass(e, failed))
    ensures MapInv(w, Do(n, Pass(e, failed)))
  {
    PassInOrder(w, n, e, failed);
    hide Fold, Sound, Enabled, ApplyEntry;
    ConsumeEntry(w, n.Origin(), n.position, map[]);
  }

  lemma RestoreKeepsMap(w: World, n: Replica, s: Snapshot)
    requires Sound(w) && !n.stopped && Enabled(w, n, Restore(s))
    ensures MapInv(w, Do(n, Restore(s)))
  {
    RestoreMap(w, n, s);
    hide Do, Fold, Sound;
    assert s.index <= |w.log|;
    hide Enabled;
    assert w.log[0..s.index] == w.log[..s.index];
  }

  lemma DeliverKeepsMap(w: World, n: Replica, e: Entry)
    requires Sound(w) && !n.stopped && MapInv(w, n) && Enabled(w, n, Deliver(e))
    ensures MapInv(w, Do(n, Deliver(e)))
  {
    hide Do, Fold, ApplyEntry;
    ConsumeEntry(w, n.Origin(), n.position, map[]);
    DeliverMap(n, e);
    DeliverFrame(n, e);
  }

  // ---- callbacks: registered or answered, never both, never twice ----------------

  function Answers(replies: seq<Reply>, id: ReplyId): nat {
    if replies == [] then 0
    else Answers(replies[..|replies| - 1], id)
         + (if replies[|replies| - 1].PutReply? && replies[|replies| - 1].id == id then 1 else 0)
  }

  predicate Registered(n: Replica, id: ReplyId) {
    exists c | c in n.callbacks :: n.callbacks[c] == id
  }

  /** The call's entry is among the committed entries applied to the current map. */
  ghost predicate CallApplied(w: World, n: Replica, id: ReplyId) {
    exists i :: n.Origin() <= i < n.position && i < |w.log| && CarriesCall(w, w.log[i], id)
  }

  predicate CarriesCall(w: World, e: Entry, id: ReplyId) {
    e.context in w.calls && w.calls[e.context].id == id
  }

  ghost predicate CallInv(w: World, n: Replica, issued: set<ReplyId>) {
    && (forall c | c in n.callbacks :: c in w.calls && w.calls[c].id == n.callbacks[c] && n.callbacks[c] in issued)
    && (forall id | id in issued :: Answers(n.replies, id) == if Registered(n, id) then 0 else 1)
    && (forall id | id !in issued :: Answers(n.replies, id) == 0)
    && (forall j | 0 <= j < |n.replies| && n.replies[j].PutReply? && n.replies[j].outcome.Accepted? ::
          CallApplied(w, n, n.replies[j].id))
  }

  lemma AnswersSnoc(replies: seq<Reply>, r: Reply)
    ensures forall id :: Answers(replies + [r], id)
                         == Answers(replies, id) + (if r.PutReply? && r.id == id then 1 else 0)
  {
    assert (replies + [r])[..|replies|] == replies;
  }

  lemma RegisteredAfterAnswer(w: World, n: Replica, context: Context, outcome: PutOutcome)
    requires Sound(w) && context in n.callbacks
    requires forall c | c in n.callbacks :: c in w.calls && w.calls[c].id == n.callbacks[c]
    ensures forall id :: Registered(Answer(n, context, outcome), id)
                         <==> Registered(n, id) && id != n.callbacks[context]
  {
    var n' := Answer(n, context, outcome);
    forall id
      ensures Registered(n', id) <==> Registered(n, id) && id != n.callbacks[context]
    {
      if Registered(n', id) {
        var c :| c in n'.callbacks && n'.callbacks[c] == id;
        assert c in n.callbacks && n.callbacks[c] == id && w.calls[c].id == id;
      }
      if Registered(n, id) && id != n.callbacks[context] {
        var c :| c in n.callbacks && n.callbacks[c] == id;
        assert c in n'.callbacks && n'.callbacks[c] == id;
      }
    }
  }

  /** Answering moves a callback from registered to answered. */
  lemma AnswerKeepsCalls(w: World, n: Replica, issued: set<ReplyId>, context: Context, outcome: PutOutcome)
    requires Sound(w) && CallInv(w, n, issued)
    requires outcome.Accepted? && context in n.callbacks ==> CallApplied(w, n, n.callbacks[context])
    ensures CallInv(w, Answer(n, context, outcome), issued)
  {
    if context in n.callbacks {
      var n' := Answer(n, context, outcome);
      var last := PutReply(n.callbacks[context], outcome);
      assert n' == n.(callbacks := n.callbacks - {context}, replies := n.replies + [last]);
      RegisteredAfterAnswer(w, n, context, outcome);
      AnsweredOnce(w, n, n', issued, context, last);
      AcceptedApplied(w, n, n', issued, last);
      hide Registered, Sound, Answers, Answer, CallApplied;
    }
  }

  lemma AnsweredOnce(w: World, n: Replica, n': Replica, issued: set<ReplyId>, context: Context, last: Reply)
    requires CallInv(w, n, issued) && context in n.callbacks && n'.replies == n.replies + [last]
    requires last.PutReply? && last.id == n.callbacks[context]
    requires forall id :: Registered(n', id) <==> Registered(n, id) && id != last.id
    ensures forall id | id in issued :: Answers(n'.replies, id) == if Registered(n', id) then 0 else 1
    ensures forall id | id !in issued :: Answers(n'.replies, id) == 0
  {
    AnswersSnoc(n.replies, last);
    assert Registered(n, last.id);
    hide Registered, Answers, CallApplied;
  }

  lemma AcceptedApplied(w: World, n: Replica, n': Replica, issued: set<ReplyId>, last: Reply)
    requires CallInv(w, n, issued) && n'.replies == n.replies + [last]
    requires n'.since == n.since && n'.restored == n.restored && n'.position == n.position
    requires last.PutReply? && last.outcome.Accepted? ==> CallApplied(w, n, last.id)
    ensures forall j | 0 <= j < |n'.replies| && n'.replies[j].PutReply? && n'.replies[j].outcome.Accepted? ::
              CallApplied(w, n', n'.replies[j].id)
  {
    hide Answers, Registered;
    forall j | 0 <= j < |n'.replies| && n'.replies[j].PutReply? && n'.replies[j].outcome.Accepted?
      ensures CallApplied(w, n', n'.replies[j].id)
    {
      assert CallApplied(w, n, n'.replies[j].id);
    }
  }

  /** Moving on, or replacing the map by a later one, keeps what was already applied. */
  lemma AdvanceKeepsCalls(w: World, n: Replica, n': Replica, issued: set<ReplyId>)
    requires CallInv(w, n, issued)
    requires n'.callbacks == n.callbacks && n'.replies == n.replies
    requires n'.Origin() <= n.Origin() && n.position <= n'.position
    ensures CallInv(w, n', issued)
  {
    forall id ensures CallApplied(w, n, id) ==> CallApplied(w, n', id) {
      if CallApplied(w, n, id) {
        var i :| n.Origin() <= i < n.position && i < |w.log| && CarriesCall(w, w.log[i], id);
        assert n'.Origin() <= i < n'.position;
      }
    }
    assert forall id :: Registered(n', id) == Registered(n, id);
  }

  lemma ActionKeepsCalls(w: World, n: Replica, a: Action, issued: set<ReplyId>)
    requires Sound(w) && MapInv(w, n) && CallInv(w, n, issued) && Enabled(w, n, a)
    ensures CallInv(w, Do(n, a), issued)
  {
    if n.stopped {
      return;
    }
    match a {
      case Deliver(e) => DeliverKeepsCalls(w, n, e, issued);
      case Pass(_, _) =>
        hide CallInv;
        AdvanceKeepsCalls(w, n, Do(n, a), issued);
      case Restore(s) =>
        RestoreMap(w, n, s);
        hide CallInv, Do, Enabled;
        AdvanceKeepsCalls(w, n, Do(n, a), issued);
      case _ =>
        MapFrame(n, a);
        hide CallInv, Do, Enabled;
        AdvanceKeepsCalls(w, n, Do(n, a), issued);
    }
  }

  lemma DeliverKeepsCalls(w: World, n: Replica, e: Entry, issued: set<ReplyId>)
    requires Sound(w) && !n.stopped && MapInv(w, n) && CallInv(w, n, issued) && Enabled(w, n, Deliver(e))
    ensures CallInv(w, Do(n, Deliver(e)), issued)
  {
    hide DecodeCommand, CallInv;
    var n1 := n.(position := e.index, delivered := n.delivered + {e.index});
    AdvanceKeepsCalls(w, n, n1, issued);
    if e.context in n.callbacks {
      assert CallApplied(w, n1, n.callbacks[e.context]) by {
        CallbackOf(w, n, e.context, issued);
        assert CarriesCall(w, w.log[n.position], n.callbacks[e.context]);
      }
    }
    match DecodeCommand(e.data) {
      case Err => AnswerKeepsCalls(w, n1, issued, e.context, ApplyFailed);
      case Ok(None) =>
      case Ok(Some(p)) =>
        var n2 := n1.(kv := Assign(n.kv, p), updates := n.updates + [KvUpdate(p), LogEntry(e.index, e.term, p)]);
        AdvanceKeepsCalls(w, n1, n2, issued);
        assert e.context in n.callbacks ==> CallApplied(w, n2, n.callbacks[e.context]);
        AnswerKeepsCalls(w, n2, issued, e.context, Accepted);
    }
  }

  lemma CallbackOf(w: World, n: Replica, context: Context, issued: set<ReplyId>)
    requires CallInv(w, n, issued) && context in n.callbacks
    ensures context in w.calls && w.calls[context].id == n.callbacks[context]
  {
  }

  // ---- the terminal: what was queued since the map was last replaced rebuilds its changes ----

  ghost predicate MirrorInv(w: World, n: Replica) {
    && n.mark <= |n.updates| && n.since <= n.position <= |w.log|
    && (!n.restored ==> n.mark == 0)
    && (forall m :: Shown(m, n.updates[n.mark..]) == Fold(m, w.log[n.since..n.position]))
  }

  /** Updates without a key-value change show nothing new. */
  lemma QuietUpdates(n: Replica, us: seq<StateUpdate>)
    requires forall i | 0 <= i < |us| :: !us[i].KvUpdate?
    ensures Shown(map[], n.updates + us) == Shown(map[], n.updates)
    ensures n.mark <= |n.updates| ==> forall m :: Shown(m, (n.updates + us)[n.mark..]) == Shown(m, n.updates[n.mark..])
  {
    hide Shown;
    ShownConcat(map[], n.updates, us);
    ShownQuiet(Shown(map[], n.updates), us);
    if n.mark <= |n.updates| {
      var recent := n.updates[n.mark..];
      assert (n.updates + us)[n.mark..] == recent + us;
      forall m ensures Shown(m, recent + us) == Shown(m, recent) {
        ShownConcat(m, recent, us);
        ShownQuiet(Shown(m, recent), us);
      }
    }
  }

  lemma ActionKeepsMirror(w: World, n: Replica, a: Action)
    requires Sound(w) && MirrorInv(w, n) && Enabled(w, n, a)
    ensures MirrorInv(w, Do(n, a))
  {
    hide MirrorInv, MapAt, Sound;
    if n.stopped {
      return;
    }
    match a {
      case Deliver(e) => DeliverKeepsMirror(w, n, e);
      case Pass(e, failed) => PassKeepsMirror(w, n, e, failed);
      case Restore(s) =>
        RestoreMap(w, n, s);
        hide Do, Enabled;
        RestoredMirror(w, Do(n, a));
      case _ =>
        var us := QuietFrame(n, a);
        hide Do, Enabled;
        QuietKeepsMirror(w, n, Do(n, a), us);
    }
  }

  lemma RestoredMirror(w: World, n: Replica)
    requires n.mark == |n.updates| && n.since == n.position <= |w.log| && n.restored
    ensures MirrorInv(w, n)
  {
    assert n.updates[n.mark..] == [] && w.log[n.since..n.position] == [];
  }

  lemma QuietKeepsMirror(w: World, n: Replica, n': Replica, us: seq<StateUpdate>)
    requires MirrorInv(w, n) && n'.updates == n.updates + us && forall i | 0 <= i < |us| :: !us[i].KvUpdate?
    requires n'.mark == n.mark && n'.since == n.since && n'.position == n.position && n'.restored == n.restored
    ensures MirrorInv(w, n')
  {
    hide Fold, Shown;
    QuietUpdates(n, us);
  }

  lemma QuietFrame(n: Replica, a: Action) returns (us: seq<StateUpdate>)
    requires a.Send? || a.Persist? || a.Announce? || a.ShowState?
    ensures var n' := Do(n, a);
            && n'.updates == n.updates + us && n'.mark == n.mark && n'.since == n.since
            && n'.position == n.position && n'.restored == n.restored
    ensures forall i | 0 <= i < |us| :: !us[i].KvUpdate?
  {
    hide Complete, Interrupted;
    us := if n.stopped then [] else
      match a
      case Announce(s) => [SystemMessage(SnapshotApplied(s.index, s.term))]
      case ShowState(view) => LeadershipNotes(n.previousLeader, view) + [RaftState(view, n.applied)]
      case _ => [];
    assert n.updates + [] == n.updates;
    assert a.ShowState? ==>
      n.updates + LeadershipNotes(n.previousLeader, a.view) + [RaftState(a.view, n.applied)]
      == n.updates + (LeadershipNotes(n.previousLeader, a.view) + [RaftState(a.view, n.applied)]);
  }

  /** One more entry, and the updates it queued. */
  lemma MirrorStep(w: World, n: Replica, n': Replica, us: seq<StateUpdate>)
    requires MirrorInv(w, n) && n.position < |w.log| && n'.position == n.position + 1
    requires n'.updates == n.updates + us && n'.mark == n.mark && n'.since == n.since && n'.restored == n.restored
    requires forall m :: Shown(m, us) == ApplyEntry(m, w.log[n.position])
    ensures MirrorInv(w, n')
  {
    hide Fold, Shown, ApplyEntry;
    var recent := n.updates[n.mark..];
    assert n'.updates[n.mark..] == recent + us;
    forall m ensures Shown(m, recent + us) == Fold(m, w.log[n.since..n.position + 1]) {
      ConsumeEntry(w, n.since, n.position, m);
      ShownConcat(m, recent, us);
      assert Shown(m, recent) == Fold(m, w.log[n.since..n.position]);
    }
  }

  lemma PassKeepsMirror(w: World, n: Replica, e: Entry, failed: bool)
    requires Sound(w) && !n.stopped && MirrorInv(w, n) && Enabled(w, n, Pass(e, failed))
    ensures MirrorInv(w, Do(n, Pass(e, failed)))
  {
    PassInOrder(w, n, e, failed);
    var n' := Do(n, Pass(e, failed));
    assert n' == n.(position := e.index, refused := n'.refused);
    hide Shown, Sound, Enabled, ApplyEntry, Do, MirrorInv;
    assert n.updates + [] == n.updates;
    ShownNothing();
    MirrorStep(w, n, n', []);
  }

  lemma ShownNothing()
    ensures forall m :: Shown(m, []) == m
  {
  }

  lemma DeliveryInOrder(w: World, n: Replica, e: Entry)
    requires Sound(w) && !n.stopped && Enabled(w, n, Deliver(e))
    ensures n.position < |w.log| && e == w.log[n.position] && e.index == n.position + 1
    ensures e.data != [] && e.kind.EntryNormal?
  {
  }

  lemma DeliverKeepsMirror(w: World, n: Replica, e: Entry)
    requires Sound(w) && !n.stopped && MirrorInv(w, n) && Enabled(w, n, Deliver(e))
    ensures MirrorInv(w, Do(n, Deliver(e)))
  {
    hide Do, DecodeCommand, Shown, ApplyEntry, Enabled, Sound, PutUpdates, MirrorInv;
    var us := DeliveredUpdates(n, e);
    DeliverFrame(n, e);
    DeliveryInOrder(w, n, e);
    forall m ensures Shown(m, us) == ApplyEntry(m, e) {
      DeliveredShown(m, e, us);
    }
    MirrorStep(w, n, Do(n, Deliver(e)), us);
  }

  /** The key-value update and the log line of a Put, nothing for anything else. */
  function PutUpdates(e: Entry): seq<StateUpdate> {
    match DecodeCommand(e.data)
    case Ok(Some(p)) => [KvUpdate(p), LogEntry(e.index, e.term, p)]
    case _ => []
  }

  lemma DeliveredUpdates(n: Replica, e: Entry) returns (us: seq<StateUpdate>)
    requires !n.stopped
    ensures us == PutUpdates(e) && Do(n, Deliver(e)).updates == n.updates + us
  {
    hide DecodeCommand, Assign;
    us := PutUpdates(e);
    assert n.updates + [] == n.updates;
  }

  lemma DeliveredShown(m: KvMap, e: Entry, us: seq<StateUpdate>)
    requires e.data != [] && e.kind.EntryNormal? && us == PutUpdates(e)
    ensures Shown(m, us) == ApplyEntry(m, e)
  {
    hide DecodeCommand;
    match DecodeCommand(e.data) {
      case Ok(Some(p)) =>
        ShownConcat(m, [us[0]], [us[1]]);
        assert us == [us[0]] + [us[1]];
      case _ =>
    }
  }

  // ---- progress: what was delivered and recorded lies behind the position ------------------

  ghost predicate ProgressInv(n: Replica) {
    && (forall i | i in n.delivered :: 0 < i <= n.position)
    && n.trace != [] && n.applied == n.trace[|n.trace| - 1]
    && (forall i, j | 1 <= i <= j < |n.trace| :: n.trace[i] <= n.trace[j])
    && (forall i | 1 <= i < |n.trace| :: n.trace[i] <= n.position)
  }

  /** The process goes on: it takes back no reply, and its record of applied indices grows only
      by what it has consumed. */
  ghost predicate Advances(n: Replica, n': Replica) {
    && n.position <= n'.position && n.trace <= n'.trace && n.delivered <= n'.delivered && n.replies <= n'.replies
    && (forall k | |n.trace| <= k < |n'.trace| :: n.position <= n'.trace[k] <= n'.position)
  }

  lemma AdvancesChain(n: Replica, m: Replica, n': Replica)
    requires Advances(n, m) && Advances(m, n')
    ensures Advances(n, n')
  {
  }

  lemma ProgressStep(n: Replica, n': Replica)
    requires n.position <= n'.position && n.replies <= n'.replies
    requires n'.delivered == n.delivered
             || (n.position < n'.position && n'.delivered == n.delivered + {n'.position})
    requires (n'.trace == n.trace && n'.applied == n.applied)
             || (n'.trace == n.trace + [n'.applied] && n'.applied == n'.position)
    ensures Advances(n, n')
    ensures ProgressInv(n) ==> ProgressInv(n')
  {
  }

  lemma ActionAdvances(w: World, n: Replica, a: Action)
    requires Sound(w) && Enabled(w, n, a)
    ensures Advances(n, Do(n, a))
    ensures ProgressInv(n) ==> ProgressInv(Do(n, a))
  {
    hide Advances, ProgressInv, Complete, Interrupted, MapAt, LeadershipNotes;
    hide SnapshotInOrder, EntriesInOrder, HardInOrder;
    if !n.stopped {
      match a {
        case Deliver(e) =>
          assert e.index == n.position + 1;
          DeliverFrame(n, e);
          hide Do;
        case Restore(s) =>
          RestoreMap(w, n, s);
          hide Do;
        case _ =>
      }
    }
    ProgressStep(n, Do(n, a));
  }

  // ---- the transport: what waits for storage is sent only once it is stored -------

  ghost predicate SendInv(n: Replica) {
    forall j | 0 <= j < |n.sends| && !n.sends[j].phase.Immediate? :: OnDisk(n.sends[j].disk, n.sends[j].ready)
  }

  lemma ActionKeepsSends(w: World, n: Replica, a: Action)
    requires Sound(w) && SendInv(n) && Enabled(w, n, a)
    ensures SendInv(Do(n, a))
  {
    SendFrame(n, a);
    if a.Send? {
      hide OnDisk;
    } else {
      hide Do, OnDisk;
    }
  }

  lemma SendFrame(n: Replica, a: Action)
    ensures a.Send? || Do(n, a).sends == n.sends
  {
    hide DecodeCommand, Complete, Interrupted, LeadershipNotes, SnapshotCodec.Decode;
  }

  // ---- all of them together ---------------------------------------------------------

  ghost predicate Inv(w: World, n: Replica, issued: set<ReplyId>)
    requires Sound(w)
  {
    StorageInv(w, n.disk) && MapInv(w, n) && CallInv(w, n, issued) && MirrorInv(w, n) && SendInv(n) && ProgressInv(n)
  }

  lemma ActionKeepsInv(w: World, n: Replica, a: Action, issued: set<ReplyId>)
    requires Sound(w) && Inv(w, n, issued) && Enabled(w, n, a)
    ensures Inv(w, Do(n, a), issued)
  {
    hide StorageInv, MapInv, CallInv, MirrorInv, SendInv, ProgressInv, Sound, Enabled;
    ActionKeepsMap(w, n, a);
    ActionKeepsCalls(w, n, a, issued);
    ActionKeepsMirror(w, n, a);
    ActionAdvances(w, n, a);
    ActionKeepsSends(w, n, a);
    DiskChangesByPersist(n, a);
    if a.Persist? && !n.stopped {
      WriteKeepsStorage(w, n, a.write);
    }
  }

  lemma DiskChangesByPersist(n: Replica, a: Action)
    ensures a.Persist? || Do(n, a).disk == n.disk
    ensures n.stopped ==> Do(n, a) == n
  {
    hide DecodeCommand;
  }

  /** A list of effects that are in order, cut anywhere, keeps everything. */
  lemma {:induction false} LicensedKeepsInv(w: World, n: Replica, acts: seq<Action>, cut: nat, issued: set<ReplyId>)
    requires Sound(w) && Inv(w, n, issued) && Licensed(w, n, acts) && cut <= |acts|
    ensures Inv(w, Perform(n, acts[..cut]), issued)
    decreases |acts|
  {
    hide Inv, Sound, Enabled, Do;
    if cut < |acts| {
      LicensedKeepsInv(w, n, acts[..|acts| - 1], cut, issued);
      assert acts[..|acts| - 1][..cut] == acts[..cut];
    } else {
      assert acts[..cut] == acts;
      if acts != [] {
        var front := acts[..|acts| - 1];
        LicensedKeepsInv(w, n, front, |front|, issued);
        assert front[..|front|] == front;
        ActionKeepsInv(w, Perform(n, front), acts[|acts| - 1], issued);
      }
    }
  }

  lemma {:induction false} LicensedAdvances(w: World, n: Replica, acts: seq<Action>, cut: nat)
    requires Sound(w) && Licensed(w, n, acts) && cut <= |acts|
    ensures Advances(n, Perform(n, acts[..cut]))
    decreases |acts|
  {
    hide Sound, Enabled, Do, Advances;
    if acts == [] {
      ProgressStep(n, n);
      assert acts[..cut] == [];
    } else {
      var front := acts[..|acts| - 1];
      if cut < |acts| {
        LicensedAdvances(w, n, front, cut);
        assert front[..cut] == acts[..cut];
      } else {
        LicensedAdvances(w, n, front, |front|);
        assert front[..|front|] == front && acts[..cut] == acts;
        ActionAdvances(w, Perform(n, front), acts[|acts| - 1]);
        AdvancesChain(n, Perform(n, front), Perform(n, acts));
      }
    }
  }
}
