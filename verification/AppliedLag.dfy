// How far the recorded applied index may trail the entries consumed.
module AppliedLag {
  import opened Bytes
  import opened Disk
  import opened Licensing
  import opened RaftTypes
  import opened Replicas
  import opened Runs
  import opened StateMachine
  import opened World

  /** An empty entry or a configuration change that failed. */
  predicate Silent(n: Replica, e: Entry) {
    e.data == [] || (e.index in n.refused && !e.kind.EntryNormal?)
  }

  /** Everything between the applied index and the position is silent. */
  ghost predicate LagInv(w: World, n: Replica) {
    && n.applied <= n.position <= |w.log|
    && forall i | n.applied <= i < n.position :: Silent(n, w.log[i])
  }

  /** Nothing but silent entries since the process started: the applied index is the one it loaded. */
  ghost predicate SilentSince(w: World, n: Replica) {
    && !n.restored && n.since <= n.position <= |w.log|
    && forall i | n.since <= i < n.position :: Silent(n, w.log[i])
  }

  /** `index` is that of the first entry consumed since the process started that is not silent. */
  ghost predicate FirstApplied(w: World, n: Replica, index: nat) {
    && n.since < index <= n.position <= |w.log|
    && !Silent(n, w.log[index - 1])
    && forall i | n.since <= i < index - 1 :: Silent(n, w.log[i])
  }

  /** The applied index is the durable one. As long as nothing was written to it the process has
      consumed only silent entries; from then on it trails the position, and the first index
      written, if no snapshot came in between, is that of the first entry that is not silent. */
  ghost predicate Tracked(w: World, n: Replica) {
    && n.applied == AppliedOf(n.disk) && n.trace != []
    && (forall i | i in n.refused :: i <= n.position)
    && if |n.trace| == 1 then SilentSince(w, n)
       else LagInv(w, n) && (n.restored || FirstApplied(w, n, n.trace[1]))
  }

  /** Effects that concern neither index. */
  predicate Unrelated(a: Action) {
    a.Send? || a.Announce? || a.ShowState? || (a.Persist? && !a.write.StoreApplied?)
  }

  predicate SameIndices(n: Replica, n': Replica) {
    && n'.applied == n.applied && n'.position == n.position && n'.refused == n.refused
    && n'.since == n.since && n'.restored == n.restored && n'.trace == n.trace
    && AppliedOf(n'.disk) == AppliedOf(n.disk)
  }

  lemma WriteKeepsApplied(d: Disk, w: Write, done: nat)
    requires !w.StoreApplied?
    ensures AppliedOf(Complete(d, w)) == AppliedOf(d) && AppliedOf(Interrupted(d, w, done)) == AppliedOf(d)
  {
    hide InsertAll, RemoveThrough;
  }

  lemma UnrelatedFrame(n: Replica, a: Action)
    requires Unrelated(a)
    ensures SameIndices(n, Do(n, a)) && (n.stopped ==> Do(n, a).stopped)
  {
    hide Complete, Interrupted, LeadershipNotes, AppliedOf;
    if a.Persist? {
      WriteKeepsApplied(n.disk, a.write, n.written);
    }
  }

  lemma {:induction false} UnrelatedKeepIndices(n: Replica, acts: seq<Action>)
    requires forall a | a in acts :: Unrelated(a)
    ensures SameIndices(n, Perform(n, acts)) && (n.stopped ==> Perform(n, acts).stopped)
  {
    hide Do, Unrelated;
    if acts != [] {
      UnrelatedKeepIndices(n, acts[..|acts| - 1]);
      UnrelatedFrame(Perform(n, acts[..|acts| - 1]), acts[|acts| - 1]);
    }
  }

  lemma {:induction false} SendsUnrelated(phase: Phase, messages: seq<Message>, r: Ready)
    ensures forall a | a in SendActions(phase, messages, r) :: Unrelated(a)
  {
    if messages != [] {
      SendsUnrelated(phase, messages[..|messages| - 1], r);
    }
  }

  /** Unless the node stopped the indices stay tracked, and an applied index that trails the
      position does not decrease and goes on trailing it. */
  ghost predicate Advanced(w: World, n: Replica, n': Replica) {
    && (n'.stopped || (!n.stopped && Tracked(w, n')))
    && (LagInv(w, n) ==> n.applied <= n'.applied && (n'.stopped || LagInv(w, n')))
  }

  lemma AdvancedChain(w: World, n: Replica, m: Replica, n': Replica)
    requires Advanced(w, n, m) && Advanced(w, m, n') && (m.stopped ==> n' == m)
    ensures Advanced(w, n, n')
  {
    hide LagInv, Tracked;
  }

  /** Consuming one entry keeps the indices tracked if it is silent, or is not and was applied. */
  lemma LagStep(w: World, n: Replica, n': Replica)
    requires Sound(w) && !n.stopped && Tracked(w, n) && n.position < |w.log|
    requires n'.position == n.position + 1 && n.refused <= n'.refused <= n.refused + {n'.position}
    requires n'.since == n.since && n'.restored == n.restored
    requires n'.stopped || n'.applied == AppliedOf(n'.disk)
    requires if Silent(n', w.log[n.position]) then n'.applied == n.applied && n'.trace == n.trace
             else (n'.applied == n'.position && n'.trace == n.trace + [n'.applied])
                  || (n'.stopped && n'.applied == n.applied)
    ensures Advanced(w, n, n')
  {
    hide AppliedOf;
    forall i | 0 <= i < n.position ensures Silent(n, w.log[i]) <==> Silent(n', w.log[i]) {
      assert w.log[i].index == i + 1;
    }
    hide Silent;
  }

  lemma PassLag(w: World, n: Replica, e: Entry, failed: bool)
    requires Sound(w) && !n.stopped && Tracked(w, n) && n.position < |w.log| && e == w.log[n.position]
    requires e.data == [] || (failed && !e.kind.EntryNormal?)
    ensures Advanced(w, n, Perform(n, [Pass(e, failed)]))
  {
    assert e.index == n.position + 1;
    PerformOne(n, Pass(e, failed));
    LagStep(w, n, Do(n, Pass(e, failed)));
  }

  lemma DeliverLag(w: World, n: Replica, e: Entry)
    requires Sound(w) && !n.stopped && Tracked(w, n) && n.position < |w.log| && e == w.log[n.position]
    requires e.data != [] && e.kind.EntryNormal?
    ensures Advanced(w, n, Perform(n, [Deliver(e), Persist(StoreApplied(e.index))]))
  {
    assert e.index == n.position + 1;
    DeliverFrame(n, e);
    hide Do;
    hide Silent, AppliedOf;
    var n' := Do(Do(n, Deliver(e)), Persist(StoreApplied(e.index)));
    PerformPair(n, Deliver(e), Persist(StoreApplied(e.index)));
    AppliedFrame(Do(n, Deliver(e)), e.index);
    LagStep(w, n, n');
  }

  lemma ConfLag(w: World, n: Replica, e: Entry, cs: ConfState)
    requires Sound(w) && !n.stopped && Tracked(w, n) && n.position < |w.log| && e == w.log[n.position]
    requires e.data != [] && !e.kind.EntryNormal?
    ensures Advanced(w, n, Perform(n, [Pass(e, false), Persist(StoreConf(cs)), Persist(StoreApplied(e.index))]))
  {
    assert e.index == n.position + 1;
    var n1 := Do(n, Pass(e, false));
    assert SameIndices(n.(position := e.index), n1);
    hide Do, Silent, AppliedOf;
    var n2 := Do(n1, Persist(StoreConf(cs)));
    PerformTriple(n, Pass(e, false), Persist(StoreConf(cs)), Persist(StoreApplied(e.index)));
    UnrelatedFrame(n1, Persist(StoreConf(cs)));
    AppliedFrame(n2, e.index);
    LagStep(w, n, Do(n2, Persist(StoreApplied(e.index))));
  }

  lemma EntryLag(w: World, n: Replica, e: Entry, conf: ConfResults)
    requires Sound(w) && !n.stopped && Tracked(w, n) && n.position < |w.log| && e == w.log[n.position]
    ensures Advanced(w, n, Perform(n, EntryActions(e, conf)))
  {
    hide Sound, Perform, Tracked, Advanced;
    if e.data == [] || (!e.kind.EntryNormal? && e.index !in conf) {
      PassLag(w, n, e, e.data != []);
    } else if e.kind.EntryNormal? {
      DeliverLag(w, n, e);
    } else {
      ConfLag(w, n, e, conf[e.index]);
    }
  }

  lemma AppliedFrame(n: Replica, index: u64)
    ensures var n' := Do(n, Persist(StoreApplied(index)));
            && n'.applied == (if n.stopped then n.applied else index) && n'.position == n.position
            && n'.refused == n.refused && n'.since == n.since && n'.restored == n.restored
            && n'.trace == (if n.stopped then n.trace else n.trace + [index])
            && (n'.stopped || n'.applied == AppliedOf(n'.disk))
    ensures n.stopped ==> Do(n, Persist(StoreApplied(index))).stopped
  {
    hide Interrupted;
  }

  lemma {:induction false} EntriesLag(w: World, n: Replica, es: seq<Entry>, conf: ConfResults)
    requires Sound(w) && (n.stopped || (Tracked(w, n) && DeliversFrom(w, n.position, es)))
    requires forall i | i in conf :: conf[i].voters != []
    ensures Advanced(w, n, Perform(n, ApplyActions(es, conf)))
  {
    hide Sound, EntryActions, LagInv, Tracked, DeliversFrom, Perform, Do, SameLog;
    if n.stopped {
      PerformStopped(n, ApplyActions(es, conf));
    } else if es == [] {
      PerformNone(n);
    } else {
      var k := |es| - 1;
      var done := ApplyActions(es[..k], conf);
      var mid := Perform(n, done);
      DeliversSplit(w, n.position, es);
      EntriesLag(w, n, es[..k], conf);
      ApplyLicensed(w, n, es[..k], conf);
      PerformConcat(n, done, EntryActions(es[k], conf));
      if mid.stopped {
        PerformStopped(mid, EntryActions(es[k], conf));
      } else {
        EntryLag(w, mid, es[k], conf);
      }
      AdvancedChain(w, n, mid, Perform(n, ApplyActions(es, conf)));
    }
  }

  lemma SnapshotLag(w: World, n: Replica, s: Snapshot)
    requires Sound(w) && !n.stopped && Tracked(w, n) && SnapshotInOrder(w, n, s)
    ensures Advanced(w, n, Perform(n, SnapshotActions(s)))
  {
    LicensedSnapshot(w, n, s);
    assert n.position <= s.index <= |w.log|;
    hide Perform, SnapshotActions, SnapshotInOrder, Sound, Tracked, Advanced, Do, SameLog, ApplySnapshot, Licensed;
    PerformSnapshot(n, s);
    var n1 := Do(n, Persist(InstallSnapshot(s)));
    var n2 := Do(n1, Restore(s));
    UnrelatedFrame(n, Persist(InstallSnapshot(s)));
    RestoreIndices(n1, s);
    AppliedFrame(n2, s.index);
    UnrelatedFrame(Do(n2, Persist(StoreApplied(s.index))), Announce(s));
    hide AppliedOf;
    RestoredTracked(w, n, Perform(n, SnapshotActions(s)), s.index);
  }

  lemma RestoredTracked(w: World, n: Replica, n': Replica, index: u64)
    requires !n.stopped && Tracked(w, n) && n.position <= index <= |w.log| && n'.refused == n.refused
    requires n'.applied == n.applied || n'.applied == index
    requires n'.stopped || (n'.restored && n'.position == n'.applied == index && n'.trace == n.trace + [index]
                            && n'.applied == AppliedOf(n'.disk))
    ensures Advanced(w, n, n')
  {
  }

  lemma RestoreIndices(n: Replica, s: Snapshot)
    ensures var n' := Do(n, Restore(s));
            && n'.applied == n.applied && n'.trace == n.trace && n'.refused == n.refused && (n.stopped ==> n'.stopped)
            && (n'.stopped || n'.restored)
  {
  }

  lemma StoreLag(w: World, n: Replica, r: Ready, l: LightReady, conf: ConfResults)
    requires Sound(w) && !n.stopped && Tracked(w, n) && ReadyOk(w, n, r, l, conf)
    ensures Advanced(w, n, Perform(n, StoreActions(r)))
  {
    hide Sound, Perform, SnapshotActions, SnapshotInOrder, EntriesInOrder, HardInOrder;
    var a := if r.snapshot.Some? then SnapshotActions(r.snapshot.value) else [];
    var rest := (if r.entries != [] then [Persist(StoreEntries(r.entries))] else [])
                + (if r.hardState.Some? then [Persist(StoreHard(r.hardState.value))] else []);
    assert StoreActions(r) == a + rest;
    PerformConcat(n, a, rest);
    PerformNone(n);
    if r.snapshot.Some? {
      SnapshotLag(w, n, r.snapshot.value);
    }
    QuietLag(w, Perform(n, a), rest);
    PerformStays(Perform(n, a), rest);
    AdvancedChain(w, n, Perform(n, a), Perform(Perform(n, a), rest));
  }

  /** Everything before the committed entries: the position is where they start. */
  lemma StoringLag(w: World, n: Replica, r: Ready, l: LightReady, conf: ConfResults)
    requires Sound(w) && !n.stopped && Tracked(w, n) && ReadyOk(w, n, r, l, conf)
    ensures var before := SendActions(Immediate, r.messages, r) + StoreActions(r)
                          + SendActions(Persisted, r.persistedMessages, r);
            var n' := Perform(n, before);
            Advanced(w, n, n') && (n'.stopped || n'.position == PositionAfterSnapshot(n, r))
  {
    hide Sound, Perform, StoreActions, SendActions, LagInv, Tracked, Unrelated, ReadyOk;
    var a := SendActions(Immediate, r.messages, r);
    var c := SendActions(Persisted, r.persistedMessages, r);
    PerformConcat(n, a, StoreActions(r));
    PerformConcat(n, a + StoreActions(r), c);
    SendsUnrelated(Immediate, r.messages, r);
    SendsUnrelated(Persisted, r.persistedMessages, r);
    var nA := Perform(n, a);
    var nB := Perform(nA, StoreActions(r));
    SendsLicensed(w, n, Immediate, r.messages, r);
    QuietLag(w, n, a);
    ReadyOkAfterSends(w, n, nA, r, l, conf);
    StoreLag(w, nA, r, l, conf);
    StoreLicensed(w, nA, r, l, conf);
    QuietLag(w, nB, c);
    PerformStays(nA, StoreActions(r));
    AdvancedChain(w, n, nA, nB);
    AdvancedChain(w, n, nB, Perform(nB, c));
  }

  /** A whole round, whether it completes or ends in an error. */
  lemma RoundLag(w: World, n: Replica, r: Ready, l: LightReady, view: RaftView, conf: ConfResults)
    requires Sound(w) && !n.stopped && Tracked(w, n) && ReadyOk(w, n, r, l, conf)
    ensures Advanced(w, n, Perform(n, RoundActions(r, l, view, conf)))
  {
    hide Sound, Perform, StoreActions, SendActions, ApplyActions, LagInv, Tracked, ReadyOk;
    var before := SendActions(Immediate, r.messages, r) + StoreActions(r)
                  + SendActions(Persisted, r.persistedMessages, r);
    var applied := before + ApplyActions(r.committed, conf);
    var quiet := [ShowState(view)] + SendActions(Light, l.messages, r);
    assert RoundActions(r, l, view, conf) == applied + quiet + ApplyActions(l.committed, conf);
    PerformConcat(n, before, ApplyActions(r.committed, conf));
    PerformConcat(n, applied, quiet);
    PerformConcat(n, applied + quiet, ApplyActions(l.committed, conf));
    SendsUnrelated(Light, l.messages, r);
    var n1, n2, n3 := Perform(n, before), Perform(n, applied), Perform(n, applied + quiet);
    StoringLag(w, n, r, l, conf);
    DeliveriesOf(w, n, r, l, conf);
    EntriesLag(w, n1, r.committed, conf);
    ApplyLicensed(w, n1, r.committed, conf);
    QuietLag(w, n2, quiet);
    EntriesLag(w, n3, l.committed, conf);
    PerformStays(n1, ApplyActions(r.committed, conf));
    PerformStays(n3, ApplyActions(l.committed, conf));
    hide Advanced;
    AdvancedChain(w, n, n1, n2);
    AdvancedChain(w, n, n2, n3);
    AdvancedChain(w, n, n3, Perform(n3, ApplyActions(l.committed, conf)));
  }

  lemma PerformStays(n: Replica, acts: seq<Action>)
    ensures n.stopped ==> Perform(n, acts) == n
  {
    if n.stopped {
      PerformStopped(n, acts);
    }
  }

  lemma QuietLag(w: World, n: Replica, acts: seq<Action>)
    requires (n.stopped || Tracked(w, n)) && forall a | a in acts :: Unrelated(a)
    ensures Advanced(w, n, Perform(n, acts)) && (n.stopped ==> Perform(n, acts) == n)
    ensures SameIndices(n, Perform(n, acts))
  {
    hide Perform, Unrelated, LagInv, Tracked;
    UnrelatedKeepIndices(n, acts);
    PerformStays(n, acts);
    SameIndicesLag(w, n, Perform(n, acts));
  }

  lemma SameIndicesLag(w: World, n: Replica, n': Replica)
    requires SameIndices(n, n')
    ensures LagInv(w, n) ==> LagInv(w, n')
    ensures Tracked(w, n) ==> Tracked(w, n')
  {
  }

  lemma DeliveriesOf(w: World, n: Replica, r: Ready, l: LightReady, conf: ConfResults)
    requires Sound(w) && ReadyOk(w, n, r, l, conf)
    ensures DeliversFrom(w, PositionAfterSnapshot(n, r), r.committed)
    ensures DeliversFrom(w, PositionAfterSnapshot(n, r) + |r.committed|, l.committed)
    ensures forall i | i in conf :: conf[i].voters != []
  {
  }

  // ---- whole runs ----------------------------------------------------------------------

  /** A command, or a round that no crash cuts short. */
  predicate Uncut(ev: Event) {
    match ev
    case RestartEvent(_, _, _) => false
    case RoundEvent(r, l, view, conf, cut) => cut >= |RoundActions(r, l, view, conf)|
    case CommandEvent(_, _) => true
  }

  lemma EventLag(w: World, s: Sys, ev: Event)
    requires Sound(w) && !s.rep.stopped && Tracked(w, s.rep) && Legal(w, s, ev) && Uncut(ev)
    ensures Advanced(w, s.rep, Step(s, ev).rep)
  {
    hide Sound, ReadyOk, LagInv, Tracked;
    match ev {
      case CommandEvent(command, env) =>
        HandleIndices(s.rep, command, env);
        SameIndicesLag(w, s.rep, Step(s, ev).rep);
      case RoundEvent(r, l, view, conf, cut) =>
        hide RoundActions, Perform;
        var acts := RoundActions(r, l, view, conf);
        assert acts[..|acts|] == acts;
        RoundLag(w, s.rep, r, l, view, conf);
    }
  }

  lemma HandleIndices(n: Replica, cmd: ServerCommand, env: CommandEnv)
    ensures SameIndices(n, Handle(n, cmd, env)) && Handle(n, cmd, env).stopped == n.stopped
  {
    hide Handle, AppliedOf;
    var us := HandleFrame(n, cmd, env);
  }

  /** A process starts with the applied index its disk holds and nothing consumed. */
  lemma BootTracked(w: World, d: Disk, peers: ConfState, fuel: nat, written: nat, sends: seq<Sent>)
    requires Sound(w) && Boot(d, peers, fuel, written, sends).position <= |w.log|
    ensures Tracked(w, Boot(d, peers, fuel, written, sends))
  {
    hide Sound, Prepared, ReplayBase;
  }

  lemma StepTracked(w: World, s: Sys, ev: Event)
    requires Sound(w) && SysInv(w, s) && (s.rep.stopped || Tracked(w, s.rep)) && Legal(w, s, ev)
    ensures Step(s, ev).rep.stopped || Tracked(w, Step(s, ev).rep)
  {
    hide Sound, Tracked, Boot, SysInv, Step, Uncut, Advanced;
    if ev.RestartEvent? {
      StepKeepsInv(w, s, ev);
      PositionInLog(w, Step(s, ev));
      RestartedRep(s, ev.peers, ev.fuel, ev.written);
      BootTracked(w, s.rep.disk, ev.peers, ev.fuel, ev.written, s.rep.sends);
    } else if Uncut(ev) {
      LiveStep(w, s, ev);
      EventLag(w, s, ev);
      AdvancedTracked(w, s.rep, Step(s, ev).rep);
    } else {
      CutStops(s, ev);
    }
  }

  lemma RestartedRep(s: Sys, peers: ConfState, fuel: nat, written: nat)
    ensures Step(s, RestartEvent(peers, fuel, written)).rep == Boot(s.rep.disk, peers, fuel, written, s.rep.sends)
  {
    hide Boot;
  }

  lemma LiveStep(w: World, s: Sys, ev: Event)
    requires Sound(w) && Legal(w, s, ev) && Uncut(ev)
    ensures !s.rep.stopped
  {
    hide ReadyOk, Proposes, RoundActions;
  }

  lemma AdvancedTracked(w: World, n: Replica, n': Replica)
    requires Advanced(w, n, n')
    ensures n'.stopped || Tracked(w, n')
  {
    hide Tracked, LagInv;
  }

  lemma CutStops(s: Sys, ev: Event)
    requires !Uncut(ev) && !ev.RestartEvent?
    ensures Step(s, ev).rep.stopped
  {
    hide Perform, RoundActions;
  }

  lemma PositionInLog(w: World, s: Sys)
    requires Sound(w) && SysInv(w, s)
    ensures s.rep.Origin() <= s.rep.since <= s.rep.position <= |w.log|
    ensures s.rep.kv == Fold(map[], w.log[s.rep.Origin()..s.rep.position])
  {
    hide Fold;
  }

  lemma {:induction false} RunTracked(w: World, start: Sys, evs: seq<Event>)
    requires Sound(w) && FirstStart(start) && LegalRun(w, start, evs)
    ensures SysInv(w, Exec(start, evs)) && (Exec(start, evs).rep.stopped || Tracked(w, Exec(start, evs).rep))
  {
    hide Sound, SysInv, Tracked, Step, Legal;
    FirstStartInv(w, start);
    RunKeepsInv(w, start, evs);
    if evs == [] {
      PositionInLog(w, start);
      FirstStartTracked(w, start);
    } else {
      var k := |evs| - 1;
      RunTracked(w, start, evs[..k]);
      StepTracked(w, Exec(start, evs[..k]), evs[k]);
    }
  }

  lemma FirstStartTracked(w: World, start: Sys)
    requires Sound(w) && FirstStart(start) && start.rep.position <= |w.log|
    ensures Tracked(w, start.rep)
  {
  }

  lemma ReachableTracked(w: World, s: Sys)
    requires Sound(w) && Reachable(w, s) && !s.rep.stopped
    ensures Tracked(w, s.rep)
  {
    hide Sound, Tracked, SysInv;
    var start, evs :| FirstStart(start) && LegalRun(w, start, evs) && s == Exec(start, evs);
    RunTracked(w, start, evs);
  }

  /** In a running node the cached applied index is the durable one. Once anything but an empty
      entry or a failed configuration change has been consumed since the process started, it does
      not pass the position, only such entries lie in between, and the map is also the fold up to
      it; before that it is the index the process loaded. */
  lemma AppliedIndexLag(w: World, s: Sys)
    requires Sound(w) && Reachable(w, s) && !s.rep.stopped
    ensures var n := s.rep;
            && n.applied == AppliedOf(n.disk) && n.since <= n.position <= |w.log|
            && (n.restored || (exists i :: n.since <= i < n.position && !Silent(n, w.log[i])) ==>
                  && n.applied <= n.position
                  && (forall i | n.applied <= i < n.position :: Silent(n, w.log[i]))
                  && (n.Origin() == 0 ==> n.kv == MapAt(w, n.applied)))
  {
    hide Sound, Fold, Reachable, SysInv, Silent, AppliedOf;
    var n := s.rep;
    ReachableTracked(w, s);
    ReachableInv(w, s);
    PositionInLog(w, s);
    if n.restored || exists i :: n.since <= i < n.position && !Silent(n, w.log[i]) {
      FoldToApplied(w, n);
    }
  }

  lemma FoldToApplied(w: World, n: Replica)
    requires LagInv(w, n) && n.Origin() <= n.position && n.kv == Fold(map[], w.log[n.Origin()..n.position])
    ensures n.Origin() == 0 ==> n.kv == MapAt(w, n.applied)
  {
    hide Fold, PutIn;
    var done, rest := w.log[..n.applied], w.log[n.applied..n.position];
    assert w.log[0..n.position] == done + rest;
    FoldConcat(map[], done, rest);
    forall i | 0 <= i < |rest| ensures PutIn(rest[i]).None? {
      assert Silent(n, w.log[n.applied + i]);
      SilentPutsNothing(n, rest[i]);
    }
    FoldSilent(MapAt(w, n.applied), rest);
  }

  lemma SilentPutsNothing(n: Replica, e: Entry)
    requires Silent(n, e)
    ensures PutIn(e).None?
  {
  }

  // ---- when the applied index goes down ---------------------------------------------------

  /** In every reachable state, whatever happened before: an applied index within the position
      does not go down and stays within it, in whole rounds, failing rounds and crashed ones. */
  lemma AppliedIndexMonotone(w: World, s: Sys, ev: Event)
    requires Sound(w) && Reachable(w, s) && Legal(w, s, ev) && !ev.RestartEvent?
    requires s.rep.applied <= s.rep.position
    ensures var t := Step(s, ev); s.rep.applied <= t.rep.applied <= t.rep.position
  {
    hide Sound, Reachable, SysInv, Step, Legal;
    ReachableInv(w, s);
    StepKeepsInv(w, s, ev);
    ProgressOf(w, s);
    ProgressOf(w, Step(s, ev));
    StepAdvances(w, s, ev);
  }

  predicate NonDecreasing(s: seq<u64>) {
    forall i, j | 0 <= i <= j < |s| :: s[i] <= s[j]
  }

  /** At every crash point of every run: of the applied index a process loads and the values it
      then writes, only the first written one can be lower than its predecessor. In a running
      process that has restored no snapshot this is so exactly when the loaded index passes the
      first entry consumed that is not silent, if there is one. */
  lemma AppliedIndexLoweredIff(w: World, s: Sys)
    requires Sound(w) && Reachable(w, s)
    ensures var n := s.rep;
            && n.trace != [] && n.applied == n.trace[|n.trace| - 1] && NonDecreasing(n.trace[1..])
            && (NonDecreasing(n.trace) <==> |n.trace| == 1 || n.trace[0] <= n.trace[1])
    ensures !s.rep.stopped && !s.rep.restored ==>
              var n := s.rep;
              n.position <= |w.log|
              && (NonDecreasing(n.trace)
                  <==> forall i | n.since <= i < n.position && !Silent(n, w.log[i]) :: n.trace[0] <= i + 1)
  {
    hide Sound, Reachable, SysInv, Silent, AppliedOf;
    ReachableInv(w, s);
    ProgressOf(w, s);
    var n := s.rep;
    if !n.stopped {
      ReachableTracked(w, s);
      if !n.restored && |n.trace| > 1 {
        assert !Silent(n, w.log[n.trace[1] - 1]);
      }
    }
  }

  /** What applying an entry records. */
  lemma DeliverRecords(n: Replica, e: Entry)
    requires !n.stopped
    ensures var n' := Perform(n, [Deliver(e), Persist(StoreApplied(e.index))]);
            n'.applied == e.index && n'.position == e.index && n'.trace == n.trace + [e.index]
  {
    DeliverFrame(n, e);
    hide Do;
    PerformPair(n, Deliver(e), Persist(StoreApplied(e.index)));
    AppliedFrame(Do(n, Deliver(e)), e.index);
  }
}
