// Runs in which the node falls short of what Raft or its own comments promise.
// The exact conditions are in Disk and Theorems.
module Shortcomings {
  import opened AppliedLag
  import opened Bincode
  import opened Bytes
  import opened Disk
  import opened KvCommand
  import opened RaftTypes
  import opened Replicas
  import opened Runs
  import opened Server
  import opened StateMachine
  import opened Terminal
  import opened Theorems
  import opened World
  import opened Wrappers
  import Invariants
  import Protobuf
  import SnapshotCodec
  import Utf8

  const NO_LIGHT := LightReady(None, [], [])
  const NO_VIEW := RaftView(false, 0, 0, 0)

  /** The snapshot a correct replica sends at `index`. */
  function SnapshotAt(w: World, index: u64, peers: ConfState): Snapshot
    requires index <= |w.log| && |MapAt(w, index)| < U64_LIMIT
  {
    Snapshot(index, 1, peers, SnapshotCodec.Encode(MapAt(w, index)))
  }

  /** A follower that catches up by snapshot alone. */
  function SnapshotReady(s: Snapshot): Ready {
    Ready([], Some(s), [], Some(HardState(1, 0, s.index)), [], [])
  }

  lemma SnapshotReadyLegal(w: World, n: Replica, s: Snapshot)
    requires Sound(w) && w.snapshots && 0 < s.index <= |w.log| && CarriesMap(w, s) && s.conf.voters != []
    requires Represents(n.disk, Log(0, 0, [])) && CommitOf(n.disk) == 0 && n.position == 0 && n.fuel > 0
    ensures ReadyOk(w, n, SnapshotReady(s), NO_LIGHT, map[])
    ensures Represents(ApplySnapshot(n.disk, s), Log(s.index, s.term, []))
  {
    hide CarriesMap, RemoveThrough;
    var l := Log(0, 0, []);
    ReadsAgree(n.disk, l);
    SnapshotRefines(n.disk, l, s);
    ReadsAgree(ApplySnapshot(n.disk, s), l.Compact(s));
    assert InsertAll(ApplySnapshot(n.disk, s).entries, []) == ApplySnapshot(n.disk, s).entries;
    hide Represents, LastIndex;
  }

  lemma FreshBoot(peers: ConfState, fuel: nat)
    requires peers.voters != []
    ensures var n := Boot(FRESH, peers, fuel, 0, []);
            && Represents(n.disk, Log(0, 0, [])) && CommitOf(n.disk) == 0 && n.position == 0 && n.fuel == fuel
            && FirstStart(Sys(n, {}, NO_PAST))
  {
    FreshRepresents();
    SnapshotRefines(FRESH, Log(0, 0, []), EmptySnapshot(peers));
  }

  lemma SnapshotEffects(w: World, n: Replica, s: Snapshot)
    requires Sound(w) && w.snapshots && !n.stopped && n.fuel > 3 && n.position <= s.index <= |w.log| && CarriesMap(w, s)
    ensures Perform(n, SnapshotActions(s))
            == n.(disk := SetApplied(ApplySnapshot(n.disk, s), s.index), applied := s.index,
                  trace := n.trace + [s.index], fuel := n.fuel - 2,
                  kv := MapAt(w, s.index), position := s.index, since := s.index,
            mark := |n.updates|, restored := true,
                  updates := n.updates + [SystemMessage(SnapshotApplied(s.index, s.term))])
  {
    hide Perform, SnapshotActions, ApplySnapshot, Do, MapAt, Sound, CarriesMap, SetApplied;
    PerformSnapshot(n, s);
    PersistDone(n, InstallSnapshot(s));
    var n1 := n.(disk := ApplySnapshot(n.disk, s), fuel := n.fuel - 1);
    assert Do(n, Persist(InstallSnapshot(s))) == n1;
    RestoreDone(w, n1, s);
    PersistDone(Do(n1, Restore(s)), StoreApplied(s.index));
    AnnounceDone(Do(Do(n1, Restore(s)), Persist(StoreApplied(s.index))), s);
  }

  lemma RestoreDone(w: World, n: Replica, s: Snapshot)
    requires Sound(w) && !n.stopped && CarriesMap(w, s)
    ensures Do(n, Restore(s)) == n.(kv := MapAt(w, s.index), position := s.index, since := s.index,
            mark := |n.updates|, restored := true)
  {
    hide MapAt, Sound;
    SnapshotCodec.RoundTrip(MapAt(w, s.index), []);
  }

  lemma AnnounceDone(n: Replica, s: Snapshot)
    requires !n.stopped
    ensures Do(n, Announce(s)) == n.(updates := n.updates + [SystemMessage(SnapshotApplied(s.index, s.term))])
  {
  }

  lemma HardAndShow(n: Replica, hs: HardState)
    requires !n.stopped && n.fuel > 0
    ensures var n' := Perform(n, [Persist(StoreHard(hs)), ShowState(NO_VIEW)]);
            && !n'.stopped && n'.kv == n.kv && n'.position == n.position && n'.fuel == n.fuel - 1
            && n'.disk == SetHard(n.disk, hs) && n'.callbacks == n.callbacks
            && Shown(map[], n'.updates) == Shown(map[], n.updates)
  {
    hide Perform, Do, Shown, SetHard;
    PerformPair(n, Persist(StoreHard(hs)), ShowState(NO_VIEW));
    PersistDone(n, StoreHard(hs));
    ShowQuiet(Do(n, Persist(StoreHard(hs))));
  }

  lemma ShowQuiet(n: Replica)
    requires !n.stopped
    ensures var n' := Do(n, ShowState(NO_VIEW));
            && n' == n.(updates := n'.updates, previousLeader := n'.previousLeader)
            && Shown(map[], n'.updates) == Shown(map[], n.updates)
  {
    hide Shown;
    var notes := LeadershipNotes(n.previousLeader, NO_VIEW) + [RaftState(NO_VIEW, n.applied)];
    Invariants.QuietUpdates(n, notes);
    assert n.updates + LeadershipNotes(n.previousLeader, NO_VIEW) + [RaftState(NO_VIEW, n.applied)]
           == n.updates + notes;
  }

  lemma SnapshotRoundActions(s: Snapshot)
    ensures RoundActions(SnapshotReady(s), NO_LIGHT, NO_VIEW, map[])
            == SnapshotActions(s) + [Persist(StoreHard(HardState(1, 0, s.index))), ShowState(NO_VIEW)]
  {
    hide SnapshotActions;
    var none, hard := SendActions(Immediate, [], SnapshotReady(s)), Persist(StoreHard(HardState(1, 0, s.index)));
    assert none == [] && SendActions(Persisted, [], SnapshotReady(s)) == [] && ApplyActions([], map[]) == [];
    assert StoreActions(SnapshotReady(s)) == SnapshotActions(s) + [] + [hard] == SnapshotActions(s) + [hard];
    hide StoreActions, SendActions, ApplyActions;
  }

  /** What a snapshot round leaves: the map and the log of the snapshot, and nothing new on the screen. */
  ghost predicate CaughtUp(w: World, n: Replica, n': Replica, s: Snapshot)
    requires s.index <= |w.log|
  {
    && !n'.stopped && n'.kv == MapAt(w, s.index) && n'.position == s.index
    && n'.disk.entries == ApplySnapshot(n.disk, s).entries && n'.disk.snapshot == Some(s)
    && n'.disk.meta.hard == Some(HardState(1, 0, s.index)) && n'.disk.meta.conf == Some(s.conf)
    && Shown(map[], n'.updates) == Shown(map[], n.updates)
  }

  lemma SnapshotRound(w: World, n: Replica, s: Snapshot)
    requires Sound(w) && w.snapshots && !n.stopped && n.fuel > 3 && n.position <= s.index <= |w.log| && CarriesMap(w, s)
    ensures CaughtUp(w, n, Perform(n, RoundActions(SnapshotReady(s), NO_LIGHT, NO_VIEW, map[])), s)
  {
    var hs := HardState(1, 0, s.index);
    var rest := [Persist(StoreHard(hs)), ShowState(NO_VIEW)];
    hide RoundActions, SnapshotActions, Perform, CarriesMap, Shown, MapAt, Sound;
    hide ApplySnapshot, SetApplied, SetHard;
    SnapshotRoundActions(s);
    PerformConcat(n, SnapshotActions(s), rest);
    SnapshotEffects(w, n, s);
    HardAndShow(Perform(n, SnapshotActions(s)), hs);
    Invariants.QuietUpdates(n, [SystemMessage(SnapshotApplied(s.index, s.term))]);
    SnapshotDisk(n.disk, s, hs);
  }

  lemma SnapshotDisk(d: Disk, s: Snapshot, hs: HardState)
    ensures var d' := SetHard(SetApplied(ApplySnapshot(d, s), s.index), hs);
            && d'.entries == ApplySnapshot(d, s).entries && d'.snapshot == Some(s)
            && d'.meta.hard == Some(hs) && d'.meta.conf == Some(s.conf)
  {
    hide RemoveThrough;
  }

  /** For every committed log and every position of a snapshot there is a node that has the right
      map after installing it, while its terminal shows nothing and a restart leaves it empty. */
  lemma SnapshotIsForgotten(w: World, index: u64, peers: ConfState) returns (s: Sys, t: Sys)
    requires Sound(w) && w.snapshots && 0 < index <= |w.log| && peers.voters != []
    ensures Reachable(w, s) && Reachable(w, t) && !s.rep.stopped
    ensures s.rep.position == t.rep.position == index
    ensures s.rep.kv == MapAt(w, index) && Shown(map[], s.rep.updates) == map[]
    ensures t.rep.kv == map[]
  {
    hide Sound, Reachable, MapAt, Shown, CanStart, Base, Step;
    s := SnapshotInstalled(w, index, peers);
    ReachableInv(w, s);
    hide SysInv;
    var again := RestartEvent(peers, 9, 0);
    Restarted(w, s, peers, 9, 0);
    ReachableStep(w, s, again);
    t := Step(s, again);
  }

  /** A new node that has caught up by a snapshot. */
  lemma SnapshotInstalled(w: World, index: u64, peers: ConfState) returns (s: Sys)
    requires Sound(w) && w.snapshots && 0 < index <= |w.log| && peers.voters != []
    ensures Reachable(w, s) && !s.rep.stopped && s.rep.position == index && s.rep.kv == MapAt(w, index)
    ensures Shown(map[], s.rep.updates) == map[]
    ensures CanStart(s.rep.disk) && Base(s.rep.disk) == index
  {
    MapAtSize(w, index);
    hide Sound, Reachable, MapAt, Shown, CanStart, Base, Perform, RoundActions, ReadyOk, Represents, CommitOf;
    var snap, r := SnapshotAt(w, index, peers), SnapshotReady(SnapshotAt(w, index, peers));
    var start := Sys(Boot(FRESH, peers, 9, 0, []), {}, NO_PAST);
    FreshBoot(peers, 9);
    assert !start.rep.stopped && start.rep.updates == [] && !start.rep.restored;
    hide Boot;
    SnapshotReadyLegal(w, start.rep, snap);
    SnapshotRound(w, start.rep, snap);
    NothingShown();
    var ev := RoundEvent(r, NO_LIGHT, NO_VIEW, map[], |RoundActions(r, NO_LIGHT, NO_VIEW, map[])|);
    assert Legal(w, start, ev);
    WholeRound(start, r, NO_LIGHT, NO_VIEW, map[]);
    hide Step, Legal, FirstStart;
    s := Step(start, ev);
    OneStepReachable(w, start, ev);
    StoredSnapshotStarts(start.rep.disk, s.rep.disk, snap);
  }

  lemma NothingShown()
    ensures Shown(map[], []) == map[]
  {
  }

  lemma StoredSnapshotStarts(d: Disk, d': Disk, s: Snapshot)
    requires Represents(ApplySnapshot(d, s), Log(s.index, s.term, []))
    requires d'.entries == ApplySnapshot(d, s).entries && d'.snapshot == Some(s) && s.conf.voters != []
    requires d'.meta.hard == Some(HardState(1, 0, s.index)) && d'.meta.conf == Some(s.conf)
    ensures CanStart(d') && HasVoters(d') && Base(d') == s.index
  {
    ReadsAgree(ApplySnapshot(d, s), Log(s.index, s.term, []));
  }

  lemma TwoStepsReachable(w: World, start: Sys, a: Event, b: Event)
    requires Sound(w) && FirstStart(start) && Legal(w, start, a) && Legal(w, Step(start, a), b)
    ensures Reachable(w, Step(start, a)) && Reachable(w, Step(Step(start, a), b))
  {
    hide Step, FirstStart, Legal, Sound, Reachable;
    OneStepReachable(w, start, a);
    ReachableStep(w, Step(start, a), b);
  }

  // ---- the applied index after a restart ----------------------------------------------------

  predicate HasCommand(e: Entry) {
    e.data != [] && e.kind.EntryNormal?
  }

  /** Delivers the first committed entry and nothing else. */
  function FirstEntryReady(w: World): Ready
    requires w.log != []
  {
    Ready([], None, [], None, [], [w.log[0]])
  }

  lemma FirstEntryActions(w: World)
    requires w.log != [] && HasCommand(w.log[0])
    ensures RoundActions(FirstEntryReady(w), NO_LIGHT, NO_VIEW, map[])
            == [Deliver(w.log[0]), Persist(StoreApplied(w.log[0].index))] + [ShowState(NO_VIEW)]
  {
    var e, r := w.log[0], FirstEntryReady(w);
    assert ApplyActions([e], map[]) == [] + EntryActions(e, map[]);
    assert StoreActions(r) == [] && ApplyActions([], map[]) == [];
    assert SendActions(Immediate, [], r) == [] && SendActions(Persisted, [], r) == [];
    assert SendActions(Light, [], r) == [];
    hide SendActions, ApplyActions, StoreActions;
  }

  lemma FirstEntryRound(w: World, n: Replica)
    requires Sound(w) && w.log != [] && HasCommand(w.log[0]) && !n.stopped && n.position == 0
    ensures ReadyOk(w, n, FirstEntryReady(w), NO_LIGHT, map[])
    ensures var n' := Perform(n, RoundActions(FirstEntryReady(w), NO_LIGHT, NO_VIEW, map[]));
            n'.applied == 1 && n'.position == 1
  {
    var e := w.log[0];
    var deliver := [Deliver(e), Persist(StoreApplied(e.index))];
    assert Enabled(w, n, Deliver(e)) && w.log[0..1] == [e] && e.index == 1;
    hide Perform, RoundActions, Sound, Do;
    FirstEntryActions(w);
    PerformConcat(n, deliver, [ShowState(NO_VIEW)]);
    PerformOne(Perform(n, deliver), ShowState(NO_VIEW));
    DeliverRecords(n, e);
    UnrelatedFrame(Perform(n, deliver), ShowState(NO_VIEW));
  }

  lemma CaughtUpApplied(w: World, s: Sys)
    requires Sound(w) && !w.snapshots && Reachable(w, s) && !s.rep.stopped && s.rep.position == |w.log| > 0
    requires HasCommand(w.log[0]) && HasCommand(w.log[|w.log| - 1])
    ensures s.rep.applied == |w.log| == AppliedOf(s.rep.disk) && HasVoters(s.rep.disk) && CanStart(s.rep.disk)
  {
    hide Sound, Reachable, Fold, CanStart;
    ReachableInv(w, s);
    assert s.rep.Origin() == 0;
    assert !Silent(s.rep, w.log[0]);
    AppliedIndexLag(w, s);
    CommitRecoverable(w, s);
    assert !Silent(s.rep, w.log[|w.log| - 1]);
  }

  /** Whatever was committed, a node that had applied all of it starts again with an applied
      index ahead of what it has consumed, and lowers it with the first entry it replays. */
  lemma AppliedIndexFallsBack(w: World, peers: ConfState) returns (s: Sys, t: Sys, u: Sys)
    requires Sound(w) && !w.snapshots && |w.log| >= 2 && peers.voters != []
    requires HasCommand(w.log[0]) && HasCommand(w.log[|w.log| - 1])
    ensures Reachable(w, s) && Reachable(w, t) && Reachable(w, u)
    ensures s.rep.applied == s.rep.position == |w.log|
    ensures t.rep.applied == |w.log| && t.rep.position == 0
    ensures u.rep.applied == 1 && u.rep.position == 1
  {
    hide Sound, Reachable, RoundActions, Perform, ReadyOk, CanStart, SysInv, Step, MapAt, HasCommand;
    s := CaughtUpReachable(w, peers);
    CaughtUpApplied(w, s);
    ReachableInv(w, s);
    NoSnapshotBase(w, s);
    var again := RestartEvent(peers, 9, 0);
    t := Step(s, again);
    Restarted(w, s, peers, 9, 0);
    ReachableStep(w, s, again);
    u := FirstEntryDelivered(w, t);
  }

  lemma FirstEntryDelivered(w: World, t: Sys) returns (u: Sys)
    requires Sound(w) && Reachable(w, t) && w.log != [] && HasCommand(w.log[0])
    requires !t.rep.stopped && t.rep.position == 0
    ensures Reachable(w, u) && u.rep.applied == 1 && u.rep.position == 1
  {
    hide Sound, Reachable, RoundActions, Perform, ReadyOk, HasCommand;
    var r := FirstEntryReady(w);
    FirstEntryRound(w, t.rep);
    var first := RoundEvent(r, NO_LIGHT, NO_VIEW, map[], |RoundActions(r, NO_LIGHT, NO_VIEW, map[])|);
    WholeRound(t, r, NO_LIGHT, NO_VIEW, map[]);
    ReachableStep(w, t, first);
    u := Step(t, first);
  }

  lemma NoSnapshotBase(w: World, s: Sys)
    requires Sound(w) && SysInv(w, s) && !w.snapshots
    ensures Base(s.rep.disk) == 0
  {
  }

  // ---- concrete instances -----------------------------------------------------------------

  const KEY: Utf8.Str := [107]
  const VALUE: Utf8.Str := [118]

  /** One committed Put, later covered by a snapshot. */
  function OnePutWorld(): World {
    World([Entry(1, 1, EntryNormal, EncodePutCommand(Put(KEY, VALUE)), [])], map[], true)
  }

  lemma OnePutMap()
    ensures Sound(OnePutWorld()) && MapAt(OnePutWorld(), 1) == map[KEY := VALUE]
  {
    var p := Put(KEY, VALUE);
    var w := OnePutWorld();
    SmallPut();
    PutCommandRoundTrip(p);
    hide EncodePutCommand, DecodeCommand;
    assert w.log[..1] == w.log && w.log[..0] == [];
    assert PutIn(w.log[0]) == Some(p);
    var none: KvMap := map[];
    assert Fold(none, w.log[..0]) == none;
    assert Fold(none, w.log) == ApplyEntry(Fold(none, w.log[..0]), w.log[0]);
  }

  lemma SmallPut()
    ensures Encodable(Put(KEY, VALUE))
  {
    assert |Protobuf.EncodeVarint(1)| == 1;
    assert |Protobuf.EncodeVarint(8 * 1 + 2)| == 1 && |Protobuf.EncodeVarint(8 * 2 + 2)| == 1;
  }

  /** A restart after a snapshot loses the only key; the terminal never showed it. */
  lemma RestartLosesKey() returns (s: Sys, t: Sys)
    ensures Sound(OnePutWorld()) && Reachable(OnePutWorld(), s) && Reachable(OnePutWorld(), t)
    ensures s.rep.position == t.rep.position && KEY in s.rep.kv && KEY !in t.rep.kv
    ensures KEY !in Shown(map[], s.rep.updates)
  {
    OnePutMap();
    hide Sound, Reachable, MapAt, Shown;
    s, t := SnapshotIsForgotten(OnePutWorld(), 1, ConfState([1]));
  }

  /** Any Put can be acknowledged and then, after a restart and before its entry is replayed, not
      be seen by a Get on the same node: it returns nothing. */
  lemma RestartForgetsAcknowledged(put: Put, context: Context, id: ReplyId, peers: ConfState) returns (s: Sys, t: Sys)
    requires Encodable(put) && peers.voters != []
    ensures var w := CallWorld(put, context, id);
            && Sound(w) && Reachable(w, s) && Reachable(w, t) && t == Step(s, RestartEvent(peers, 9, 0))
            && Acknowledged(w, s, context) && Acknowledged(w, t, context)
            && (forall resp, env :: Handle(s.rep, RpcGet(put.key, resp), env).replies
                                    == s.rep.replies + [GetReply(resp, Some(put.value))])
            && (forall resp, env :: Handle(t.rep, RpcGet(put.key, resp), env).replies == [GetReply(resp, None)])
  {
    hide Sound, Reachable, CanStart, Boot, Encodable, EncodePutCommand, SysInv;
    s := PutAnswered(put, context, id, peers);
    var w := CallWorld(put, context, id);
    CommitRecoverable(w, s);
    var again := RestartEvent(peers, 9, 0);
    ReachableStep(w, s, again);
    ReachableInv(w, s);
    Restarted(w, s, peers, 9, 0);
    t := Step(s, again);
    assert t.past.replies == s.past.replies + s.rep.replies;
  }

  const VOTE := HardState(1, 1, 0)

  function VoteReady(): Ready {
    Ready([], None, [], Some(VOTE), [], [])
  }

  lemma VoteRound(w: World, n: Replica)
    requires Sound(w) && !n.stopped && n.fuel > 1 && n.position == 0
    requires Represents(n.disk, Log(0, 0, [])) && CommitOf(n.disk) == 0
    ensures ReadyOk(w, n, VoteReady(), NO_LIGHT, map[])
    ensures var acts := RoundActions(VoteReady(), NO_LIGHT, NO_VIEW, map[]);
            var n' := Perform(n, acts);
            && |acts| == 2 && acts[..2] == acts
            && !n'.stopped && n'.position == 0 && n'.fuel == n.fuel - 1
            && n'.disk == SetHard(n.disk, VOTE) && Represents(n'.disk, Log(0, 0, []))
  {
    VoteLegal(w, n);
    VoteActions();
    hide Perform, ReadyOk, RoundActions, Shown, CommitOf, Represents;
    HardAndShow(n, VOTE);
    SameEntriesRepresent(n.disk, SetHard(n.disk, VOTE), Log(0, 0, []));
  }

  lemma VoteActions()
    ensures RoundActions(VoteReady(), NO_LIGHT, NO_VIEW, map[]) == [Persist(StoreHard(VOTE)), ShowState(NO_VIEW)]
  {
  }

  lemma VoteLegal(w: World, n: Replica)
    requires Sound(w) && n.position == 0 && Represents(n.disk, Log(0, 0, [])) && CommitOf(n.disk) == 0
    ensures ReadyOk(w, n, VoteReady(), NO_LIGHT, map[])
  {
    assert InsertAll(n.disk.entries, []) == n.disk.entries;
    hide Represents, LastIndex, InsertAll;
  }

  /** The node after its vote: nothing but the hard state is stored. */
  lemma VotedStep(w: World, start: Sys)
    requires Sound(w) && !start.rep.stopped && start.rep.fuel > 1 && start.rep.position == 0
    requires Represents(start.rep.disk, Log(0, 0, [])) && CommitOf(start.rep.disk) == 0
    ensures var vote := RoundEvent(VoteReady(), NO_LIGHT, NO_VIEW, map[], 2);
            var mid := Step(start, vote);
            && Legal(w, start, vote) && !mid.rep.stopped && mid.rep.position == 0 && mid.rep.fuel > 0
            && mid.rep.disk.meta.hard == Some(VOTE) && Represents(mid.rep.disk, Log(0, 0, []))
  {
    VoteRound(w, start.rep);
    hide Perform, RoundActions, ReadyOk, Represents, Sound;
  }

  /** A node that has voted and crashes right after storing a snapshot cannot start again. */
  lemma CrashBlocksRestart() returns (s: Sys)
    ensures Sound(OnePutWorld()) && Reachable(OnePutWorld(), s) && !CanStart(s.rep.disk)
  {
    OnePutMap();
    var w, peers := OnePutWorld(), ConfState([1]);
    assert w.snapshots && |w.log| == 1;
    var start := Sys(Boot(FRESH, peers, 9, 0, []), {}, NO_PAST);
    assert !start.rep.stopped;
    hide OnePutWorld, Boot, Represents, Sound, MapAt, ReadyOk, FirstStart, Step;
    hide CanStart, Reachable, RoundActions, CommitOf;
    FreshBoot(peers, 9);
    VotedStep(w, start);
    var vote := RoundEvent(VoteReady(), NO_LIGHT, NO_VIEW, map[], 2);
    s := CrashAfterVote(w, start, vote, peers);
  }

  lemma CrashAfterVote(w: World, start: Sys, vote: Event, peers: ConfState) returns (s: Sys)
    requires Sound(w) && w.snapshots && |w.log| > 0 && peers.voters != []
    requires FirstStart(start) && Legal(w, start, vote)
    requires var mid := Step(start, vote);
             && !mid.rep.stopped && mid.rep.position == 0 && mid.rep.fuel > 0
             && mid.rep.disk.meta.hard == Some(VOTE) && Represents(mid.rep.disk, Log(0, 0, []))
    ensures Reachable(w, s) && !CanStart(s.rep.disk)
  {
    hide Sound, FirstStart, Step, Represents, CanStart, Reachable, Legal;
    var mid := Step(start, vote);
    OneStepReachable(w, start, vote);
    var r := SnapshotAfterVote(w, mid, peers);
    SnapshotCrashIff(w, mid, r, NO_LIGHT, NO_VIEW, map[]);
    var crash := RoundEvent(r, NO_LIGHT, NO_VIEW, map[], 1);
    ReachableStep(w, mid, crash);
    s := Step(mid, crash);
  }

  lemma SnapshotAfterVote(w: World, mid: Sys, peers: ConfState) returns (r: Ready)
    requires Sound(w) && w.snapshots && |w.log| > 0 && peers.voters != []
    requires !mid.rep.stopped && mid.rep.position == 0 && mid.rep.fuel > 0
    requires CommitOf(mid.rep.disk) == 0 && Represents(mid.rep.disk, Log(0, 0, []))
    ensures r.messages == [] && r.snapshot.Some? && r.snapshot.value.index == 1
    ensures Legal(w, mid, RoundEvent(r, NO_LIGHT, NO_VIEW, map[], 1))
  {
    MapAtSize(w, 1);
    hide Sound, Represents, MapAt, ReadyOk, RoundActions, CommitOf;
    r := SnapshotReady(SnapshotAt(w, 1, peers));
    SnapshotReadyLegal(w, mid.rep, SnapshotAt(w, 1, peers));
  }

  lemma StaleSuffixStays(before: seq<Entry>, batch: seq<Entry>)
    requires Contiguous(before, 1) && Contiguous(batch, 1) && 0 < |batch| < |before| < U64_LIMIT
    ensures var d := Append(FRESH, before);
            && Represents(d, Log(0, 0, before))
            && Represents(Append(d, batch), Log(0, 0, batch + before[|batch|..]))
            && !Represents(Append(d, batch), Log(0, 0, batch))
  {
    hide Append, Represents, LastIndex, Contiguous;
    FreshRepresents();
    AppendRefines(FRESH, Log(0, 0, []), 1, before);
    var d, l := Append(FRESH, before), Log(0, 0, before);
    OverwrittenStart(before, batch);
    ReadsAgree(d, l);
    AppendTruncatesIff(d, l, 1, batch);
    AppendRefines(d, l, 1, batch);
  }

  lemma OverwrittenStart(before: seq<Entry>, batch: seq<Entry>)
    requires |batch| < |before| < U64_LIMIT
    ensures Log(0, 0, []).Overwrite(1, before) == Log(0, 0, before)
    ensures Log(0, 0, before).Overwrite(1, batch) == Log(0, 0, batch + before[|batch|..])
    ensures Log(0, 0, before).Replace(1, batch) == Log(0, 0, batch)
  {
  }

  /** Overwriting entry 1 of a log of two leaves the conflicting entry 2 in place. */
  lemma AppendKeepsStaleEntry()
    ensures var before := [Entry(1, 1, EntryNormal, [], []), Entry(2, 1, EntryNormal, [], [])];
            var batch := [Entry(1, 2, EntryNormal, [], [])];
            var d := Append(Append(FRESH, before), batch);
            Represents(d, Log(0, 0, batch + [before[1]])) && !Represents(d, Log(0, 0, batch))
  {
    hide InsertAll, Represents;
    var before := [Entry(1, 1, EntryNormal, [], []), Entry(2, 1, EntryNormal, [], [])];
    StaleSuffixStays(before, [Entry(1, 2, EntryNormal, [], [])]);
    assert before[1..] == [before[1]];
  }
}
