// Start-up wiring, the driver's loop as a run, and a run that catches up with
// the whole committed log.
module Server {
  import opened AppliedLag
  import opened Bytes
  import opened Disk
  import opened Licensing
  import opened Process
  import opened RaftLoop
  import opened RaftTypes
  import opened Replicas
  import opened Runs
  import opened StateMachine
  import opened World
  import opened Wrappers
  import KvCommand
  import KvNodes = Node
  import RaftNodes = RaftNode
  import Storage = DiskStorage
  import Theorems

  /** The storage raft-rs is started on: a failure to store the first configuration is ignored. */
  function StartDisk(stored: Disk, peers: ConfState, fuel: nat, written: nat): Disk {
    if HasVoters(stored) then stored
    else if fuel > 0 then Complete(stored, InstallSnapshot(EmptySnapshot(peers)))
    else Interrupted(stored, InstallSnapshot(EmptySnapshot(peers)), written)
  }

  /** What is left of the disk's `fuel` after start-up. */
  function StartFuel(stored: Disk, fuel: nat): nat {
    if HasVoters(stored) || fuel == 0 then fuel else fuel - 1
  }

  lemma StartsOn(stored: Disk, peers: ConfState, fuel: nat, written: nat)
    ensures HasVoters(stored) || fuel > 0 ==>
              StartDisk(stored, peers, fuel, written).meta
              == if HasVoters(stored) then stored.meta else stored.meta.(conf := Some(peers))
    ensures HasVoters(stored) ==>
              forall l | Represents(stored, l) && l.base + 1 < U64_LIMIT ::
                CanStart(stored) <==> stored.meta.hard.None? || stored.meta.hard.value == HardState(0, 0, 0)
                                      || l.base <= stored.meta.hard.value.commit <= l.Last()
    ensures stored == FRESH && fuel > 0 ==> CanStart(StartDisk(stored, peers, fuel, written))
  {
    hide Represents, LastIndex, FirstIndex, RemoveThrough;
    forall l | Represents(stored, l) && l.base + 1 < U64_LIMIT
      ensures CanStart(stored) <==> stored.meta.hard.None? || stored.meta.hard.value == HardState(0, 0, 0)
                                    || l.base <= stored.meta.hard.value.commit <= l.Last()
    {
      ReadsAgree(stored, l);
    }
  }

  /** Validates the node id, opens the storage, gives it a configuration if it has none, lets
      raft-rs check the commit index, and starts with an empty key-value node. The stored
      snapshot is not loaded. */
  method Start(id: u64, stored: Disk, peers: ConfState, fuel: nat, written: nat, sends: seq<Sent>)
    returns (driver: RaftDriver?)
    ensures driver == null <==> id == 0 || !CanStart(StartDisk(stored, peers, fuel, written))
    ensures driver != null ==>
              && fresh(driver) && fresh(driver.raft) && fresh(driver.raft.store)
              && fresh(driver.node) && fresh(driver.out)
              && driver.State() == ProcessOn(StartDisk(stored, peers, fuel, written),
                                             StartFuel(stored, fuel), written, sends)
              && (HasVoters(stored) || fuel > 0 ==> driver.raft.store.Synced())
    ensures driver != null && (HasVoters(stored) || fuel > 0) ==>
              && driver.raft.store.metaTree.conf == (if HasVoters(stored) then stored.meta.conf else Some(peers))
              && driver.raft.store.metaTree.hard == stored.meta.hard
              && driver.raft.store.appliedIndex == (if stored.meta.applied.Some? then stored.meta.applied.value else 0)
              && driver.node.kv == map[] && driver.raft.callbacks == map[]
              && driver.out.replies == [] && driver.out.updates == [] && driver.out.sends == sends
    ensures HasVoters(stored) ==>
              (forall l | Represents(stored, l) && l.base + 1 < U64_LIMIT ::
                 driver == null <==> id == 0 || (stored.meta.hard.Some? && stored.meta.hard.value != HardState(0, 0, 0)
                                                 && !(l.base <= stored.meta.hard.value.commit <= l.Last())))
    ensures stored == FRESH && fuel > 0 && id != 0 ==> driver != null
  {
    hide ReplayBase, LastIndex;
    StartsOn(stored, peers, fuel, written);
    if id == 0 {
      return null;
    }
    var store := new Storage.DiskStorage(stored, fuel, written);
    var _ := store.InitializeWithConfState(peers);
    assert store.Live() == StartDisk(stored, peers, fuel, written);
    if !CanStart(store.Live()) {
      return null;
    }
    var raft := new RaftNodes.RaftNode(store);
    var node := new KvNodes.KvNode();
    var out := new Outbox(ReplayBase(store.Live()), sends);
    driver := new RaftDriver(raft, node, out);
  }

  // ---- the driver's loop is a run --------------------------------------------------

  function InputEvents(a: Arrival): seq<Event> {
    if a.Command? then [CommandEvent(a.command, a.env)] else []
  }

  function RoundEvents(round: Option<Round>): seq<Event> {
    match round
    case None => []
    case Some(r) =>
      [RoundEvent(r.ready, r.light, r.view, r.conf, |RoundActions(r.ready, r.light, r.view, r.conf)|)]
  }

  /** The events of the turns the loop takes before it exits. */
  function TurnEvents(n: Replica, turns: seq<Turn>): seq<Event>
    decreases |turns|
  {
    if turns == [] || !ExitOn(turns[0].arrival).Running? then []
    else
      var n' := TakeRound(TakeInput(n, turns[0].arrival), turns[0].round);
      InputEvents(turns[0].arrival) + RoundEvents(turns[0].round)
      + (if n'.stopped then [] else TurnEvents(n', turns[1..]))
  }

  lemma ExecTurn(s: Sys, turn: Turn)
    ensures Exec(s, InputEvents(turn.arrival) + RoundEvents(turn.round)).rep
            == TakeRound(TakeInput(s.rep, turn.arrival), turn.round)
  {
    hide Perform, Handle, RoundActions;
    var a, b := InputEvents(turn.arrival), RoundEvents(turn.round);
    ExecConcat(s, a, b);
    var none: seq<Event> := [];
    assert Exec(s, none) == s && Exec(Exec(s, a), none) == Exec(s, a);
    if a != [] {
      assert a[..0] == none;
    }
    if b != [] {
      assert b[..0] == none;
      var r := turn.round.value;
      var acts := RoundActions(r.ready, r.light, r.view, r.conf);
      assert acts[..|acts|] == acts;
    }
  }

  /** What the loop leaves behind is the state after the corresponding run, so everything
      proved of runs holds of the driver. */
  lemma {:induction false} LoopIsRun(s: Sys, turns: seq<Turn>)
    ensures Exec(s, TurnEvents(s.rep, turns)).rep == RunTurns(s.rep, turns).0
    decreases |turns|
  {
    hide Step, TakeInput, TakeRound, InputEvents, RoundEvents;
    if turns != [] && ExitOn(turns[0].arrival).Running? {
      var here := InputEvents(turns[0].arrival) + RoundEvents(turns[0].round);
      var t := Exec(s, here);
      ExecTurn(s, turns[0]);
      if t.rep.stopped {
        assert here + [] == here;
      } else {
        ExecConcat(s, here, TurnEvents(t.rep, turns[1..]));
        LoopIsRun(t, turns[1..]);
      }
    }
  }

  /** If the inputs are legal, that run is one of the reachable ones. */
  lemma DriverReachable(w: World, s: Sys, turns: seq<Turn>)
    requires Sound(w) && Reachable(w, s) && LegalRun(w, s, TurnEvents(s.rep, turns))
    ensures exists t :: Reachable(w, t) && t.rep == RunTurns(s.rep, turns).0
  {
    hide Sound, Reachable, LegalRun, TurnEvents, Exec, RunTurns;
    LoopIsRun(s, turns);
    ReachableRun(w, s, TurnEvents(s.rep, turns));
  }

  /** A driver whose inputs are legal for the state `s` it was started in ends up in a reachable
      state, so every result about runs is one about it. Two of them, in its own terms: its map is
      the fold of the committed entries it consumed, and whatever waited for storage was sent when
      all it waited for was flushed. */
  method Serve(ghost w: World, ghost s: Sys, id: u64, stored: Disk, peers: ConfState, fuel: nat, written: nat,
               sends: seq<Sent>, turns: seq<Turn>)
    returns (driver: RaftDriver, exit: Exit)
    requires Sound(w) && Reachable(w, s) && LegalRun(w, s, TurnEvents(s.rep, turns))
    requires id != 0 && CanStart(Prepared(stored, peers)) && (HasVoters(stored) || fuel > 0)
    requires s.rep == Boot(stored, peers, StartFuel(stored, fuel), written, sends)
    ensures fresh(driver) && fresh(driver.raft) && fresh(driver.raft.store) && fresh(driver.node) && fresh(driver.out)
    ensures var t := Exec(s, TurnEvents(s.rep, turns));
            Reachable(w, t) && driver.State().(stopped := exit.Failed?) == t.rep
    ensures var n := driver.State();
            && n.Origin() <= n.position <= |w.log|
            && n.kv == Fold(map[], w.log[n.Origin()..n.position])
            && forall j | 0 <= j < |n.sends| && !n.sends[j].phase.Immediate? ::
                 OnDisk(n.sends[j].disk, n.sends[j].ready)
  {
    hide Sound, Reachable, LegalRun, CanStart, Fold, OnDisk, RunTurns, TurnEvents, Exec, ProcessOn;
    var d := Start(id, stored, peers, fuel, written, sends);
    assert StartDisk(stored, peers, fuel, written) == Prepared(stored, peers);
    driver := d;
    assert driver.State() == s.rep;
    exit := driver.Run(turns);
    LoopIsRun(s, turns);
    ReachableRun(w, s, TurnEvents(s.rep, turns));
    var t := Exec(s, TurnEvents(s.rep, turns));
    Theorems.MapIsFold(w, t);
    Theorems.PersistBeforeReply(w, t);
  }

  // ---- the environment is not empty --------------------------------------------------

  /** Stores and delivers the whole log in one round. */
  function CatchUpReady(w: World): Ready
    requires Sound(w)
  {
    Ready([], None, w.log, Some(HardState(1, 0, |w.log|)), [], w.log)
  }

  lemma {:induction false} PerformFuel(n: Replica, acts: seq<Action>)
    requires !n.stopped && n.fuel >= |acts| && forall a | a in acts :: !a.Restore?
    ensures !Perform(n, acts).stopped && Perform(n, acts).fuel >= n.fuel - |acts|
  {
    if acts != [] {
      PerformFuel(n, acts[..|acts| - 1]);
      hide KvCommand.DecodeCommand, Complete, Interrupted, LeadershipNotes, Perform;
      var mid, last := Perform(n, acts[..|acts| - 1]), acts[|acts| - 1];
      assert Perform(n, acts) == Do(mid, last) by { PerformLast(n, acts); }
      FuelFrame(mid, last);
    }
  }

  lemma PerformLast(n: Replica, acts: seq<Action>)
    requires acts != []
    ensures Perform(n, acts) == Do(Perform(n, acts[..|acts| - 1]), acts[|acts| - 1])
  {
  }

  lemma FuelFrame(n: Replica, a: Action)
    requires !n.stopped && n.fuel > 0 && !a.Restore?
    ensures !Do(n, a).stopped && Do(n, a).fuel >= n.fuel - 1
  {
    hide LeadershipNotes;
    match a {
      case Deliver(e) =>
        DeliverFrame(n, e);
        hide Do;
      case Persist(w) =>
        PersistDone(n, w);
        hide Do;
      case _ =>
    }
  }

  lemma {:induction false} ApplyNoRestore(es: seq<Entry>, conf: ConfResults)
    ensures forall a | a in ApplyActions(es, conf) :: !a.Restore?
  {
    if es != [] {
      ApplyNoRestore(es[..|es| - 1], conf);
    }
  }

  lemma CatchUpHard(w: World, d: Disk)
    requires Sound(w) && w.log != [] && Represents(d, Log(0, 0, [])) && CommitOf(d) == 0
    ensures HardInOrder(w, Append(d, w.log), HardState(1, 0, |w.log|))
    ensures EntriesInOrder(w, d, w.log)
  {
    hide IndexToKey, InsertAll, LastIndex, Represents;
    var l := Log(0, 0, []);
    ReadsAgree(d, l);
    AppendRefines(d, l, 1, w.log);
    assert l.Overwrite(1, w.log).entries == w.log;
    ReadsAgree(Append(d, w.log), l.Overwrite(1, w.log));
    assert Base(d) == 0;
    WholeLogHeld(w, d);
  }

  lemma WholeLogHeld(w: World, d: Disk)
    requires Sound(w) && Base(d) == 0
    ensures HoldsCommitted(w, Append(d, w.log), |w.log|)
  {
    hide IndexToKey, InsertAll;
    InsertAllContents(d.entries, w.log, 1);
    var d' := Append(d, w.log);
    forall i: u64 | 0 < i <= |w.log| ensures Present(d', i) && d'.entries[IndexToKey(i)] == w.log[i - 1] {
      assert IndexToKey(i) in InsertAll(d.entries, w.log);
    }
  }

  lemma CatchUpLegal(w: World, n: Replica)
    requires Sound(w) && w.log != []
    requires Represents(n.disk, Log(0, 0, [])) && CommitOf(n.disk) == 0 && n.position == 0
    ensures ReadyOk(w, n, CatchUpReady(w), LightReady(None, [], []), map[])
  {
    hide HardInOrder, EntriesInOrder, Represents, Append, SnapshotInOrder, CommitOf;
    CatchUpHard(w, n.disk);
    assert w.log[0..|w.log|] == w.log && w.log[|w.log|..|w.log|] == [];
  }

  /** Whatever was committed, some reachable node has consumed all of it and holds its fold. */
  lemma CaughtUpReachable(w: World, peers: ConfState) returns (s: Sys)
    requires Sound(w) && w.log != [] && peers.voters != []
    ensures Reachable(w, s) && !s.rep.stopped
    ensures s.rep.position == |w.log| && s.rep.kv == MapAt(w, |w.log|)
  {
    var r, l, view := CatchUpReady(w), LightReady(None, [], []), RaftView(false, 0, 0, 0);
    hide RoundActions, Perform, Reachable, ReadyOk, Tracked, Sound, MapAt;
    var acts := RoundActions(r, l, view, map[]);
    var start := EmptyStart(w, peers, |acts|);
    CatchUpLegal(w, start.rep);
    var ev := RoundEvent(r, l, view, map[], |acts|);
    assert Legal(w, start, ev);
    WholeRound(start, r, l, view, map[]);
    s := Step(start, ev);
    hide Step, Legal, FirstStart;
    OneStepReachable(w, start, ev);
    CatchUpActs(w, view);
    PerformFuel(start.rep, acts);
    CatchUpPosition(w, start.rep, view);
    OriginStays(w, start.rep, acts);
    WholeFold(w, s);
  }

  lemma EmptyStart(w: World, peers: ConfState, fuel: nat) returns (start: Sys)
    requires Sound(w) && peers.voters != []
    ensures FirstStart(start) && Tracked(w, start.rep)
    ensures var n := start.rep;
            && !n.stopped && n.fuel == fuel && n.position == 0 && n.Origin() == 0
            && Represents(n.disk, Log(0, 0, [])) && CommitOf(n.disk) == 0
  {
    start := Sys(Boot(FRESH, peers, fuel, 0, []), {}, NO_PAST);
    assert FirstStart(start);
    hide Sound, Tracked;
    FreshRepresents();
    SnapshotRefines(FRESH, Log(0, 0, []), EmptySnapshot(peers));
    FirstStartTracked(w, start);
    hide Represents;
  }

  lemma WholeFold(w: World, s: Sys)
    requires Sound(w) && Reachable(w, s) && s.rep.Origin() == 0 && s.rep.position == |w.log|
    ensures s.rep.kv == MapAt(w, |w.log|)
  {
    hide Sound, Reachable, Fold;
    Theorems.MapIsFold(w, s);
    assert w.log[0..|w.log|] == w.log[..|w.log|];
  }

  lemma OneStepReachable(w: World, start: Sys, ev: Event)
    requires Sound(w) && FirstStart(start) && Legal(w, start, ev)
    ensures Reachable(w, Step(start, ev))
  {
    hide Sound, Step, FirstStart, Legal, Reachable;
    FirstReachable(w, start);
    ReachableStep(w, start, ev);
  }

  lemma CatchUpActs(w: World, view: RaftView)
    requires Sound(w)
    ensures forall a | a in RoundActions(CatchUpReady(w), LightReady(None, [], []), view, map[]) :: !a.Restore?
  {
    ApplyNoRestore(w.log, map[]);
  }

  lemma CatchUpPosition(w: World, n: Replica, view: RaftView)
    requires Sound(w) && !n.stopped && n.position == 0 && Tracked(w, n)
    requires ReadyOk(w, n, CatchUpReady(w), LightReady(None, [], []), map[])
    ensures var n' := Perform(n, RoundActions(CatchUpReady(w), LightReady(None, [], []), view, map[]));
            n'.stopped || n'.position == |w.log|
  {
    var r, l := CatchUpReady(w), LightReady(None, [], []);
    var before := SendActions(Immediate, r.messages, r) + StoreActions(r)
                  + SendActions(Persisted, r.persistedMessages, r);
    var applied := before + ApplyActions(w.log, map[]);
    assert RoundActions(r, l, view, map[]) == applied + [ShowState(view)] by {
      hide StoreActions;
    }
    hide Sound, Tracked, ReadyOk, Advanced, Perform;
    StoringLag(w, n, r, l, map[]);
    PerformConcat(n, before, ApplyActions(w.log, map[]));
    PerformConcat(n, applied, [ShowState(view)]);
    hide Perform, StoreActions, SendActions, ApplyActions, ReadyOk, RoundActions, Tracked;
    assert DeliversFrom(w, 0, w.log);
    ApplyLicensed(w, Perform(n, before), w.log, map[]);
    ShowLicensed(w, Perform(n, applied), view);
  }

  lemma {:induction false} OriginStays(w: World, n: Replica, acts: seq<Action>)
    requires forall a | a in acts :: !a.Restore?
    ensures Perform(n, acts).Origin() == n.Origin()
  {
    if acts != [] {
      OriginStays(w, n, acts[..|acts| - 1]);
      hide Perform;
      PerformLast(n, acts);
      OriginFrame(Perform(n, acts[..|acts| - 1]), acts[|acts| - 1]);
    }
  }

  lemma OriginFrame(n: Replica, a: Action)
    requires !a.Restore?
    ensures Do(n, a).Origin() == n.Origin()
  {
    hide Complete, Interrupted, LeadershipNotes;
    if a.Deliver? && !n.stopped {
      DeliverFrame(n, a.entry);
      hide Do;
    }
  }

  // ---- a Put from request to reply -----------------------------------------------------

  lemma PersistDone(n: Replica, w: Write)
    requires !n.stopped && n.fuel > 0
    ensures Do(n, Persist(w)) == n.(disk := Complete(n.disk, w), fuel := n.fuel - 1,
                                    applied := if w.StoreApplied? then w.index else n.applied,
                                    trace := if w.StoreApplied? then n.trace + [w.index] else n.trace)
  {
    hide Complete, Interrupted;
  }

  lemma DeliverDone(n: Replica, e: Entry, put: KvCommand.Put)
    requires !n.stopped && KvCommand.DecodeCommand(e.data) == Ok(Some(put)) && e.context in n.callbacks
    ensures var n' := Do(n, Deliver(e));
            && n'.kv == Assign(n.kv, put) && n'.callbacks == n.callbacks - {e.context}
            && n'.replies == n.replies + [PutReply(n.callbacks[e.context], Accepted)]
            && n'.fuel == n.fuel && !n'.stopped
  {
    hide KvCommand.DecodeCommand, Assign;
  }

  /** One committed Put, proposed through this node. */
  function CallWorld(put: KvCommand.Put, context: Context, id: ReplyId): World {
    World([Entry(1, 1, EntryNormal, KvCommand.EncodePutCommand(put), context)], map[context := Call(id, put)], false)
  }

  const LEADING := RaftView(true, 1, 1, 0)

  lemma CallRound(w: World, n: Replica, put: KvCommand.Put, view: RaftView)
    requires Sound(w) && |w.log| == 1 && w.log[0].data != [] && w.log[0].kind.EntryNormal?
    requires KvCommand.DecodeCommand(w.log[0].data) == Ok(Some(put))
    requires !n.stopped && n.fuel > 3 && w.log[0].context in n.callbacks
    ensures var n' := Perform(n, RoundActions(CatchUpReady(w), LightReady(None, [], []), view, map[]));
            && !n'.stopped && n'.kv == Assign(n.kv, put) && n'.callbacks == n.callbacks - {w.log[0].context}
            && n'.replies == n.replies + [PutReply(n.callbacks[w.log[0].context], Accepted)]
  {
    var e := w.log[0];
    var entries, hard := StoreEntries(w.log), StoreHard(HardState(1, 0, 1));
    var stored := [Persist(entries), Persist(hard)];
    var applied := [Deliver(e), Persist(StoreApplied(e.index))];
    CallActions(w, view);
    hide KvCommand.DecodeCommand, RoundActions, Do, Perform, Assign, Sound;
    PerformConcat(n, stored + applied, [ShowState(view)]);
    PerformConcat(n, stored, applied);
    PerformPair(n, Persist(entries), Persist(hard));
    PersistDone(n, entries);
    PersistDone(Do(n, Persist(entries)), hard);
    var m := Perform(n, stored);
    PerformPair(m, Deliver(e), Persist(StoreApplied(e.index)));
    DeliverDone(m, e, put);
    PersistDone(Do(m, Deliver(e)), StoreApplied(e.index));
    PerformOne(Perform(m, applied), ShowState(view));
    ShowFrame(Perform(m, applied), view);
  }

  lemma ShowFrame(n: Replica, view: RaftView)
    requires !n.stopped
    ensures var n' := Do(n, ShowState(view));
            n' == n.(updates := n'.updates, previousLeader := n'.previousLeader)
  {
    hide LeadershipNotes;
  }

  lemma CallActions(w: World, view: RaftView)
    requires Sound(w) && |w.log| == 1 && w.log[0].data != [] && w.log[0].kind.EntryNormal?
    ensures RoundActions(CatchUpReady(w), LightReady(None, [], []), view, map[])
            == [Persist(StoreEntries(w.log)), Persist(StoreHard(HardState(1, 0, 1)))]
               + [Deliver(w.log[0]), Persist(StoreApplied(w.log[0].index))] + [ShowState(view)]
  {
    hide Sound;
    var r := CatchUpReady(w);
    assert w.log == [w.log[0]] && w.log[..0] == [];
    assert ApplyActions(w.log, map[]) == [] + EntryActions(w.log[0], map[]);
    assert ApplyActions([], map[]) == [] && SendActions(Immediate, [], r) == [] && SendActions(Persisted, [], r) == [];
    assert SendActions(Light, [], r) == [];
    assert StoreActions(r) == [Persist(StoreEntries(w.log)), Persist(StoreHard(HardState(1, 0, 1)))];
    hide ApplyActions, SendActions, StoreActions;
  }

  /** Any Put can be received, committed, applied and answered: the answer to its caller is a
      state some run reaches. */
  lemma PutAnswered(put: KvCommand.Put, context: Context, id: ReplyId, peers: ConfState) returns (s: Sys)
    requires KvCommand.Encodable(put) && peers.voters != []
    ensures var w := CallWorld(put, context, id);
            && Sound(w) && Reachable(w, s) && !s.rep.stopped
            && s.rep.replies == [PutReply(id, Accepted)] && s.rep.callbacks == map[]
            && s.rep.kv == map[put.key := put.value]
  {
    var w := CallWorld(put, context, id);
    KvCommand.PutCommandRoundTrip(put);
    hide KvCommand.DecodeCommand, KvCommand.EncodePutCommand, KvCommand.Encodable;
    assert Sound(w);
    hide Sound, Reachable;
    s := AnsweredRun(w, put, context, id, peers);
    assert map[context := id] - {context} == map[];
  }

  lemma AnsweredRun(w: World, put: KvCommand.Put, context: Context, id: ReplyId, peers: ConfState) returns (s: Sys)
    requires Sound(w) && |w.log| == 1 && w.log[0].kind.EntryNormal? && w.log[0].context == context
    requires w.log[0].data != [] && KvCommand.DecodeCommand(w.log[0].data) == Ok(Some(put))
    requires w.calls == map[context := Call(id, put)] && peers.voters != []
    ensures Reachable(w, s) && !s.rep.stopped
    ensures s.rep.replies == [PutReply(id, Accepted)] && s.rep.kv == map[put.key := put.value]
    ensures s.rep.callbacks == map[context := id] - {context}
  {
    hide KvCommand.DecodeCommand, Sound, Perform, RoundActions, ReadyOk, Reachable;
    var start, ask := AskedStart(w, put, context, id, peers);
    var asked := Step(start, ask);
    var r, l := CatchUpReady(w), LightReady(None, [], []);
    CatchUpLegal(w, asked.rep);
    CallRound(w, asked.rep, put, LEADING);
    var answer := RoundEvent(r, l, LEADING, map[], |RoundActions(r, l, LEADING, map[])|);
    assert Legal(w, asked, answer);
    WholeRound(asked, r, l, LEADING, map[]);
    hide Step, Legal, FirstStart, CallWorld;
    s := Step(asked, answer);
    OneStepReachable(w, start, ask);
    ReachableStep(w, asked, answer);
  }

  /** A leader that has just been started and has taken the Put. */
  lemma AskedStart(w: World, put: KvCommand.Put, context: Context, id: ReplyId, peers: ConfState)
    returns (start: Sys, ask: Event)
    requires Sound(w) && w.calls == map[context := Call(id, put)] && peers.voters != []
    ensures FirstStart(start) && Legal(w, start, ask)
    ensures var n := Step(start, ask).rep;
            && !n.stopped && n.fuel == 9 && n.kv == map[] && n.replies == [] && n.callbacks == map[context := id]
            && Represents(n.disk, Log(0, 0, [])) && CommitOf(n.disk) == 0 && n.position == 0
  {
    hide Sound;
    start := Sys(Boot(FRESH, peers, 9, 0, []), {}, NO_PAST);
    ask := CommandEvent(RpcPut(put, id), CommandEnv(LEADING, context, ProposeOk, true));
    assert Step(start, ask).rep == start.rep.(callbacks := map[context := id]);
    FreshRepresents();
    SnapshotRefines(FRESH, Log(0, 0, []), EmptySnapshot(peers));
    hide Represents;
  }
}
