// What a round that completes has done, field by field, without the list of its effects.
module RoundEffects {
  import opened Bincode
  import opened Bytes
  import opened Disk
  import opened KvCommand
  import opened RaftTypes
  import opened Replicas
  import opened StateMachine
  import opened Wrappers
  import Invariants
  import SnapshotCodec

  /** An entry whose data goes to the key-value node. */
  predicate Delivers(e: Entry) {
    e.data != [] && e.kind.EntryNormal?
  }

  /** A configuration change that took effect. */
  predicate Reconfigures(e: Entry, conf: ConfResults) {
    e.data != [] && !e.kind.EntryNormal? && e.index in conf
  }

  /** The configurations that the entries put in force, in order. */
  function Confs(es: seq<Entry>, conf: ConfResults): seq<ConfState> {
    if es == [] then []
    else Confs(es[..|es| - 1], conf)
         + (if Reconfigures(es[|es| - 1], conf) then [conf[es[|es| - 1].index]] else [])
  }

  /** The indices recorded as applied, in order. */
  function Recorded(es: seq<Entry>, conf: ConfResults): seq<u64> {
    if es == [] then []
    else Recorded(es[..|es| - 1], conf)
         + (if Delivers(es[|es| - 1]) || Reconfigures(es[|es| - 1], conf) then [es[|es| - 1].index] else [])
  }

  /** What the terminal is told of the Puts among the entries, in order. */
  function Announced(es: seq<Entry>): seq<StateUpdate> {
    if es == [] then []
    else Announced(es[..|es| - 1]) + (match PutIn(es[|es| - 1])
                                      case Some(p) => [KvUpdate(p), LogEntry(es[|es| - 1].index, es[|es| - 1].term, p)]
                                      case None => [])
  }

  /** What the caller behind an entry is told when it is applied. */
  function Outcome(e: Entry): Option<PutOutcome> {
    if e.data == [] || !e.kind.EntryNormal? then None
    else
      match DecodeCommand(e.data)
      case Err => Some(ApplyFailed)
      case Ok(None) => None
      case Ok(Some(_)) => Some(Accepted)
  }

  /** The callback ids of the entries that answer. */
  function Told(es: seq<Entry>): set<Context> {
    set e | e in es && Outcome(e).Some? :: e.context
  }

  /** Each waiting caller is told the outcome of the first entry that carries its callback id. */
  function Replies(callbacks: map<Context, ReplyId>, es: seq<Entry>): seq<Reply> {
    if es == [] then []
    else
      var front, e := es[..|es| - 1], es[|es| - 1];
      Replies(callbacks, front)
      + (if Outcome(e).Some? && e.context in callbacks && e.context !in Told(front)
         then [PutReply(callbacks[e.context], Outcome(e).value)] else [])
  }

  /** The indices of the entries whose data goes to the key-value node. */
  function Deliveries(es: seq<Entry>): set<nat> {
    set e | e in es && Delivers(e) :: e.index as nat
  }

  lemma ToldConcat(a: seq<Entry>, b: seq<Entry>)
    ensures Told(a + b) == Told(a) + Told(b)
  {
    hide Outcome;
    assert forall e :: e in a + b <==> e in a || e in b;
  }

  /** The last of the configurations, or the one before if there is none. */
  function LastConf(before: Option<ConfState>, given: seq<ConfState>): Option<ConfState> {
    if given == [] then before else Some(given[|given| - 1])
  }

  function LastOr(before: u64, indices: seq<u64>): u64 {
    if indices == [] then before else indices[|indices| - 1]
  }

  /** The records of one batch handed to the transport. */
  function Batch(phase: Phase, messages: seq<Message>, r: Ready, d: Disk): (sends: seq<Sent>)
    ensures |sends| == |messages|
    ensures forall i | 0 <= i < |messages| :: sends[i] == Sent(phase, messages[i], r, d)
  {
    seq(|messages|, i requires 0 <= i < |messages| => Sent(phase, messages[i], r, d))
  }

  // ---- sending ---------------------------------------------------------------

  lemma {:induction false} SendsDone(n: Replica, phase: Phase, messages: seq<Message>, r: Ready)
    requires !n.stopped
    ensures Perform(n, SendActions(phase, messages, r)) == n.(sends := n.sends + Batch(phase, messages, r, n.disk))
  {
    if messages == [] {
      assert n.sends + Batch(phase, messages, r, n.disk) == n.sends;
    } else {
      var front, last := messages[..|messages| - 1], messages[|messages| - 1];
      SendsDone(n, phase, front, r);
      PerformConcat(n, SendActions(phase, front, r), [Send(phase, last, r)]);
      PerformOne(Perform(n, SendActions(phase, front, r)), Send(phase, last, r));
      assert n.sends + Batch(phase, front, r, n.disk) + [Sent(phase, last, r, n.disk)]
             == n.sends + Batch(phase, messages, r, n.disk);
    }
  }

  // ---- applying --------------------------------------------------------------

  /** From `n` to `n'` exactly the entries `es` were applied. */
  ghost predicate Applied(n: Replica, n': Replica, es: seq<Entry>, conf: ConfResults) {
    !n'.stopped && AppliedToMap(n, n', es) && AppliedToCallers(n, n', es) && AppliedToDisk(n, n', es, conf)
  }

  ghost predicate AppliedToMap(n: Replica, n': Replica, es: seq<Entry>) {
    && n'.kv == Fold(n.kv, es)
    && n'.position == (if es == [] then n.position else es[|es| - 1].index)
    && n'.delivered == n.delivered + Deliveries(es)
    && n'.updates == n.updates + Announced(es)
    && n'.sends == n.sends && n'.previousLeader == n.previousLeader
    && n'.since == n.since && n'.restored == n.restored && n'.mark == n.mark
  }

  ghost predicate AppliedToCallers(n: Replica, n': Replica, es: seq<Entry>) {
    && n'.callbacks == n.callbacks - Told(es)
    && n'.replies == n.replies + Replies(n.callbacks, es)
  }

  ghost predicate AppliedToDisk(n: Replica, n': Replica, es: seq<Entry>, conf: ConfResults) {
    && SameLog(n.disk, n'.disk)
    && n'.disk.meta.conf == LastConf(n.disk.meta.conf, Confs(es, conf))
    && n'.trace == n.trace + Recorded(es, conf)
    && n'.applied == LastOr(n.applied, Recorded(es, conf))
    && (es == [] ==> n'.disk == n.disk)
  }

  lemma AppliedNone(n: Replica, conf: ConfResults)
    requires !n.stopped
    ensures Applied(n, n, [], conf)
  {
  }

  lemma DeliverApplies(n: Replica, e: Entry, conf: ConfResults)
    requires !n.stopped && Delivers(e)
    ensures var n' := Perform(n, [Deliver(e), Persist(StoreApplied(e.index))]);
            n'.stopped || Applied(n, n', [e], conf)
  {
    DeliverFrame(n, e);
    Invariants.DeliverMap(n, e);
    var us := Invariants.DeliveredUpdates(n, e);
    PerformPair(n, Deliver(e), Persist(StoreApplied(e.index)));
    FoldOne(n.kv, e);
    OneRecord(e, conf);
    DeliverAnswers(n, e);
    assert us == Announced([e]) by { hide DecodeCommand; }
    hide DoDeliver, ApplyEntry, Fold, Perform, Announced, Outcome, Told, Replies;
  }

  lemma DeliverAnswers(n: Replica, e: Entry)
    requires !n.stopped && Delivers(e)
    ensures AppliedToCallers(n, Do(n, Deliver(e)), [e])
  {
    hide DecodeCommand, Assign;
    OneReply(n.callbacks, e);
    hide Replies;
    assert Outcome(e).None? ==> n.callbacks - {} == n.callbacks && n.replies + [] == n.replies;
    assert e.context !in n.callbacks ==> n.callbacks - {e.context} == n.callbacks && n.replies + [] == n.replies;
  }

  lemma OneReply(callbacks: map<Context, ReplyId>, e: Entry)
    ensures Told([e]) == if Outcome(e).Some? then {e.context} else {}
    ensures Replies(callbacks, [e])
            == if Outcome(e).Some? && e.context in callbacks then [PutReply(callbacks[e.context], Outcome(e).value)]
               else []
  {
    hide Outcome;
    var none: seq<Entry> := [];
    assert [e][..0] == none;
    assert Replies(callbacks, none) == [] && Told(none) == {};
    assert e in [e];
  }

  /** A silent entry answers nobody. */
  lemma NobodyAnswered(n: Replica, e: Entry)
    requires !Delivers(e)
    ensures n.callbacks == n.callbacks - Told([e])
    ensures n.replies == n.replies + Replies(n.callbacks, [e])
  {
    assert Outcome(e).None?;
    OneReply(n.callbacks, e);
    hide Outcome, Replies;
    assert n.callbacks - {} == n.callbacks;
  }

  lemma FoldOne(m: KvMap, e: Entry)
    ensures Fold(m, [e]) == ApplyEntry(m, e)
  {
    hide ApplyEntry;
    assert Fold(m, []) == m;
    assert [e][..0] == [];
  }

  lemma OneRecord(e: Entry, conf: ConfResults)
    ensures Deliveries([e]) == if Delivers(e) then {e.index as nat} else {}
    ensures Recorded([e], conf) == if Delivers(e) || Reconfigures(e, conf) then [e.index] else []
    ensures Confs([e], conf) == if Reconfigures(e, conf) then [conf[e.index]] else []
    ensures !Delivers(e) ==> Announced([e]) == []
  {
    hide DecodeCommand;
    assert !Delivers(e) ==> PutIn(e).None?;
    hide Delivers, Reconfigures, PutIn;
    var none: seq<Entry> := [];
    assert [e][..0] == none;
    assert Recorded(none, conf) == [] && Confs(none, conf) == [] && Announced(none) == [];
    assert e in [e];
  }

  lemma PassApplies(n: Replica, e: Entry, failed: bool, conf: ConfResults)
    requires !n.stopped && !Delivers(e) && !Reconfigures(e, conf)
    ensures Applied(n, Perform(n, [Pass(e, failed)]), [e], conf)
  {
    hide Fold, Perform, Announced, Recorded, Confs, Deliveries, Outcome, Told, Replies, DecodeCommand;
    PerformOne(n, Pass(e, failed));
    FoldOne(n.kv, e);
    OneRecord(e, conf);
    NobodyAnswered(n, e);
    assert n.trace + [] == n.trace && n.delivered + {} == n.delivered && n.updates + [] == n.updates;
  }

  lemma ConfApplies(n: Replica, e: Entry, conf: ConfResults)
    requires !n.stopped && Reconfigures(e, conf)
    ensures var n' := Perform(n, [Pass(e, false), Persist(StoreConf(conf[e.index])), Persist(StoreApplied(e.index))]);
            n'.stopped || Applied(n, n', [e], conf)
  {
    hide Fold, Perform, Announced, Recorded, Confs, Deliveries, Outcome, Told, Replies, DecodeCommand;
    PerformTriple(n, Pass(e, false), Persist(StoreConf(conf[e.index])), Persist(StoreApplied(e.index)));
    FoldOne(n.kv, e);
    OneRecord(e, conf);
    NobodyAnswered(n, e);
    assert n.delivered + {} == n.delivered && n.updates + [] == n.updates;
  }

  lemma EntryApplies(n: Replica, e: Entry, conf: ConfResults)
    requires !n.stopped
    ensures var n' := Perform(n, EntryActions(e, conf)); n'.stopped || Applied(n, n', [e], conf)
  {
    hide Perform, Applied;
    if Delivers(e) {
      DeliverApplies(n, e, conf);
    } else if Reconfigures(e, conf) {
      ConfApplies(n, e, conf);
    } else {
      PassApplies(n, e, e.data != [], conf);
    }
  }

  /** One entry after the others. */
  lemma AppliedSnoc(n: Replica, m: Replica, n': Replica, es: seq<Entry>, conf: ConfResults)
    requires es != [] && Applied(n, m, es[..|es| - 1], conf) && Applied(m, n', [es[|es| - 1]], conf)
    ensures Applied(n, n', es, conf)
  {
    MapSnoc(n, m, n', es, conf);
    CallersSnoc(n, m, n', es);
    DiskSnoc(n, m, n', es, conf);
    hide AppliedToMap, AppliedToCallers, AppliedToDisk;
  }

  lemma CallersSnoc(n: Replica, m: Replica, n': Replica, es: seq<Entry>)
    requires es != [] && AppliedToCallers(n, m, es[..|es| - 1]) && AppliedToCallers(m, n', [es[|es| - 1]])
    ensures AppliedToCallers(n, n', es)
  {
    var front, e := es[..|es| - 1], es[|es| - 1];
    RepliesConcat(n.callbacks, front, [e]);
    ToldConcat(front, [e]);
    assert es == front + [e];
    hide Outcome, Told, Replies;
    LeaveOut(n.callbacks, Told(front), Told([e]));
  }

  lemma LeaveOut(callbacks: map<Context, ReplyId>, a: set<Context>, b: set<Context>)
    ensures callbacks - (a + b) == (callbacks - a) - b
  {
  }

  lemma RepliesSnoc(callbacks: map<Context, ReplyId>, es: seq<Entry>)
    requires es != []
    ensures var front, e := es[..|es| - 1], es[|es| - 1];
            Replies(callbacks, es)
            == Replies(callbacks, front)
               + (if Outcome(e).Some? && e.context in callbacks && e.context !in Told(front)
                  then [PutReply(callbacks[e.context], Outcome(e).value)] else [])
  {
  }

  /** Those answered by the first entries are not answered again by the others. */
  lemma {:induction false} RepliesConcat(callbacks: map<Context, ReplyId>, a: seq<Entry>, b: seq<Entry>)
    ensures Replies(callbacks, a + b) == Replies(callbacks, a) + Replies(callbacks - Told(a), b)
  {
    hide Outcome;
    if b == [] {
      assert a + b == a;
    } else {
      var front, e := b[..|b| - 1], b[|b| - 1];
      RepliesConcat(callbacks, a, front);
      ToldConcat(a, front);
      assert (a + b)[..|a + b| - 1] == a + front && (a + b)[|a + b| - 1] == e;
      hide Told;
      RepliesSnoc(callbacks, a + b);
      RepliesSnoc(callbacks - Told(a), b);
      hide Replies;
    }
  }

  lemma MapSnoc(n: Replica, m: Replica, n': Replica, es: seq<Entry>, conf: ConfResults)
    requires es != [] && AppliedToMap(n, m, es[..|es| - 1]) && AppliedToMap(m, n', [es[|es| - 1]])
    ensures AppliedToMap(n, n', es)
  {
    hide Fold, Deliveries, Announced, Recorded, Confs;
    var front, e := es[..|es| - 1], es[|es| - 1];
    assert es == front + [e];
    FoldConcat(n.kv, front, [e]);
    RecordsSnoc(es, conf);
    DeliveriesConcat(front, [e]);
    assert n.delivered + Deliveries(front) + Deliveries([e]) == n.delivered + (Deliveries(front) + Deliveries([e]));
    assert n.updates + Announced(front) + Announced([e]) == n.updates + (Announced(front) + Announced([e]));
  }

  lemma DiskSnoc(n: Replica, m: Replica, n': Replica, es: seq<Entry>, conf: ConfResults)
    requires es != [] && AppliedToDisk(n, m, es[..|es| - 1], conf) && AppliedToDisk(m, n', [es[|es| - 1]], conf)
    ensures AppliedToDisk(n, n', es, conf)
  {
    RecordsSnoc(es, conf);
    hide Recorded, Confs;
  }

  lemma DeliveriesConcat(a: seq<Entry>, b: seq<Entry>)
    ensures Deliveries(a + b) == Deliveries(a) + Deliveries(b)
  {
    hide Delivers;
    assert forall e :: e in a + b <==> e in a || e in b;
  }

  lemma RecordsSnoc(es: seq<Entry>, conf: ConfResults)
    requires es != []
    ensures var front, e := es[..|es| - 1], es[|es| - 1];
            && Recorded(es, conf) == Recorded(front, conf) + Recorded([e], conf)
            && Confs(es, conf) == Confs(front, conf) + Confs([e], conf)
            && Announced(es) == Announced(front) + Announced([e])
  {
    hide Delivers, Reconfigures, PutIn;
    OneRecord(es[|es| - 1], conf);
    assert [es[|es| - 1]][..0] == [];
    assert Announced([]) == [];
  }

  /** A list of entries that is applied to its end. */
  lemma {:induction false} EntriesApplied(n: Replica, es: seq<Entry>, conf: ConfResults)
    requires !n.stopped
    ensures var n' := Perform(n, ApplyActions(es, conf)); n'.stopped || Applied(n, n', es, conf)
  {
    hide Applied, EntryActions, Do;
    if es == [] {
      AppliedNone(n, conf);
    } else {
      hide Perform;
      var front, e := es[..|es| - 1], es[|es| - 1];
      var m := Perform(n, ApplyActions(front, conf));
      EntriesApplied(n, front, conf);
      PerformConcat(n, ApplyActions(front, conf), EntryActions(e, conf));
      if m.stopped {
        PerformStopped(m, EntryActions(e, conf));
      } else {
        EntryApplies(m, e, conf);
        var n' := Perform(m, EntryActions(e, conf));
        if !n'.stopped {
          AppliedSnoc(n, m, n', es, conf);
        }
      }
    }
  }

  // ---- storing ---------------------------------------------------------------

  /** From `n` to `n'` exactly what the Ready asks to persist was stored, in the map as well. */
  ghost predicate Stored(n: Replica, n': Replica, r: Ready) {
    && !n'.stopped
    && n'.sends == n.sends && n'.callbacks == n.callbacks && n'.replies == n.replies && n'.delivered == n.delivered
    && n'.previousLeader == n.previousLeader
    && n'.applied == (if r.snapshot.Some? then r.snapshot.value.index else n.applied)
    && n'.disk.meta.hard == (if r.hardState.Some? then r.hardState else n.disk.meta.hard)
    && match r.snapshot
       case None =>
         && n'.kv == n.kv && n'.position == n.position && n'.trace == n.trace && n'.updates == n.updates
         && n'.disk.entries == InsertAll(n.disk.entries, r.entries) && n'.disk.snapshot == n.disk.snapshot
         && n'.disk.meta.conf == n.disk.meta.conf
       case Some(s) =>
         && SnapshotCodec.Decode(s.data) == Ok(n'.kv)
         && n'.position == s.index && n'.trace == n.trace + [s.index]
         && n'.updates == n.updates + [SystemMessage(SnapshotApplied(s.index, s.term))]
         && n'.disk.entries == InsertAll(RemoveThrough(n.disk.entries, s.index), r.entries)
         && n'.disk.snapshot == r.snapshot && n'.disk.meta.conf == Some(s.conf)
  }

  lemma SnapshotDone(n: Replica, s: Snapshot)
    requires !n.stopped
    ensures var n' := Perform(n, SnapshotActions(s));
            n'.stopped ||
            (&& SnapshotCodec.Decode(s.data) == Ok(n'.kv)
             && n' == n.(disk := SetApplied(ApplySnapshot(n.disk, s), s.index), applied := s.index,
                         fuel := n'.fuel, trace := n.trace + [s.index], kv := n'.kv, position := s.index,
                         since := s.index, mark := |n.updates|, restored := true,
                         updates := n.updates + [SystemMessage(SnapshotApplied(s.index, s.term))]))
  {
    PerformSnapshot(n, s);
    hide Perform, ApplySnapshot, SetApplied, SnapshotActions, SnapshotCodec.Decode;
    var n1 := Do(n, Persist(InstallSnapshot(s)));
    var n2 := Do(n1, Restore(s));
    var n3 := Do(n2, Persist(StoreApplied(s.index)));
    assert n1.stopped || n1 == n.(disk := ApplySnapshot(n.disk, s), fuel := n1.fuel);
    assert n2.stopped || n2 == n1.(kv := n2.kv, position := s.index, since := s.index, mark := |n.updates|,
                                   restored := true);
    assert n3.stopped || n3 == n2.(disk := SetApplied(n2.disk, s.index), applied := s.index, fuel := n3.fuel,
                                   trace := n.trace + [s.index]);
  }

  lemma StoreDone(n: Replica, r: Ready)
    requires !n.stopped
    ensures var n' := Perform(n, StoreActions(r)); n'.stopped || Stored(n, n', r)
  {
    hide Perform, SnapshotActions, InsertAll, RemoveThrough, Do;
    var a := if r.snapshot.Some? then SnapshotActions(r.snapshot.value) else [];
    var b := if r.entries != [] then [Persist(StoreEntries(r.entries))] else [];
    var c := if r.hardState.Some? then [Persist(StoreHard(r.hardState.value))] else [];
    assert StoreActions(r) == a + b + c;
    PerformConcat(n, a, b);
    PerformConcat(n, a + b, c);
    var n1 := Perform(n, a);
    var n2 := Perform(n1, b);
    PerformNone(n);
    PerformNone(n1);
    PerformNone(n2);
    if r.snapshot.Some? {
      SnapshotDone(n, r.snapshot.value);
    }
    EntriesDone(n1, r.entries, b);
    HardDone(n2, r.hardState, c);
  }

  lemma EntriesDone(n: Replica, es: seq<Entry>, b: seq<Action>)
    requires b == if es != [] then [Persist(StoreEntries(es))] else []
    ensures var n' := Perform(n, b);
            n'.stopped || (!n.stopped && n' == n.(disk := n.disk.(entries := InsertAll(n.disk.entries, es)),
                                                  fuel := n'.fuel))
  {
    if es != [] {
      PerformOne(n, b[0]);
      hide Perform, InsertAll;
    }
  }

  lemma HardDone(n: Replica, hs: Option<HardState>, c: seq<Action>)
    requires c == if hs.Some? then [Persist(StoreHard(hs.value))] else []
    ensures var n' := Perform(n, c);
            n'.stopped || (!n.stopped && n' == n.(disk := if hs.Some? then SetHard(n.disk, hs.value) else n.disk,
                                                  fuel := n'.fuel))
  {
    if hs.Some? {
      PerformOne(n, c[0]);
      hide Perform;
    }
  }

  // ---- a whole round ---------------------------------------------------------

  /** The states between the steps of a round that completes, with what each step did. */
  ghost predicate Steps(n: Replica, a: Replica, b: Replica, c: Replica, d: Replica, n': Replica,
                        r: Ready, l: LightReady, view: RaftView, conf: ConfResults)
  {
    && a == n.(sends := n.sends + Batch(Immediate, r.messages, r, n.disk))
    && Stored(a, b, r)
    && Applied(b.(sends := b.sends + Batch(Persisted, r.persistedMessages, r, b.disk)), c, r.committed, conf)
    && d == DoShowState(c, view)
    && Applied(d.(sends := d.sends + Batch(Light, l.messages, r, d.disk)), n', l.committed, conf)
  }

  lemma RoundSteps(n: Replica, r: Ready, l: LightReady, view: RaftView, conf: ConfResults)
    returns (a: Replica, b: Replica, c: Replica, d: Replica)
    requires !n.stopped && !Perform(n, RoundActions(r, l, view, conf)).stopped
    ensures Steps(n, a, b, c, d, Perform(n, RoundActions(r, l, view, conf)), r, l, view, conf)
  {
    hide Perform, Do, StoreActions, SendActions, ApplyActions, Stored, Applied, DoShowState;
    var sends, stores := SendActions(Immediate, r.messages, r), StoreActions(r);
    var persisted, light := SendActions(Persisted, r.persistedMessages, r), SendActions(Light, l.messages, r);
    var first, second := ApplyActions(r.committed, conf), ApplyActions(l.committed, conf);
    var acts := RoundActions(r, l, view, conf);
    assert acts == sends + stores + persisted + first + [ShowState(view)] + light + second;
    PerformConcat(n, sends + stores + persisted + first + [ShowState(view)] + light, second);
    PerformConcat(n, sends + stores + persisted + first + [ShowState(view)], light);
    PerformConcat(n, sends + stores + persisted + first, [ShowState(view)]);
    PerformConcat(n, sends + stores + persisted, first);
    PerformConcat(n, sends + stores, persisted);
    PerformConcat(n, sends, stores);
    hide RoundActions;
    a := Perform(n, sends);
    b := Perform(a, stores);
    var b' := Perform(b, persisted);
    c := Perform(b', first);
    d := Perform(c, [ShowState(view)]);
    var d' := Perform(d, light);
    NeverStopped(d', second);
    NeverStopped(d, light);
    NeverStopped(c, [ShowState(view)]);
    NeverStopped(b', first);
    NeverStopped(b, persisted);
    SendsDone(n, Immediate, r.messages, r);
    StoreDone(a, r);
    SendsDone(b, Persisted, r.persistedMessages, r);
    EntriesApplied(b', r.committed, conf);
    PerformOne(c, ShowState(view));
    ShowDone(c, view);
    SendsDone(d, Light, l.messages, r);
    EntriesApplied(d', l.committed, conf);
  }

  lemma ShowDone(n: Replica, view: RaftView)
    requires !n.stopped
    ensures Do(n, ShowState(view)) == DoShowState(n, view)
  {
  }

  lemma NeverStopped(n: Replica, acts: seq<Action>)
    requires !Perform(n, acts).stopped
    ensures !n.stopped
  {
    if n.stopped {
      PerformStopped(n, acts);
    }
  }

  /** A round that completes: the map is the one before, or the snapshot's, with every committed
      entry of the Ready and then of the LightReady applied; the position is that of the last of
      them; each of the three groups of messages was sent once and in order. */
  lemma RoundDone(n: Replica, r: Ready, l: LightReady, view: RaftView, conf: ConfResults)
    requires !n.stopped && !Perform(n, RoundActions(r, l, view, conf)).stopped
    ensures var n' := Perform(n, RoundActions(r, l, view, conf));
            && (r.snapshot.Some? ==> SnapshotCodec.Decode(r.snapshot.value.data).Ok?)
            && n'.kv == Fold(if r.snapshot.Some? then SnapshotCodec.Decode(r.snapshot.value.data).value else n.kv,
                             r.committed + l.committed)
            && n'.position == (if l.committed != [] then l.committed[|l.committed| - 1].index
                               else if r.committed != [] then r.committed[|r.committed| - 1].index
                               else if r.snapshot.Some? then r.snapshot.value.index
                               else n.position)
  {
    hide Perform, RoundActions, Fold;
    var a, b, c, d := RoundSteps(n, r, l, view, conf);
    FoldConcat(b.kv, r.committed, l.committed);
    hide AppliedToCallers, Confs, Recorded, Announced, Delivers, InsertAll, RemoveThrough, LeadershipNotes;
  }

  /** What the transport was handed: the three groups of messages, each once and in order; those
      that waited for storage with the stored log, snapshot and hard state of the round's end. */
  lemma RoundSent(n: Replica, r: Ready, l: LightReady, view: RaftView, conf: ConfResults)
    returns (stored: Disk, applied: Disk)
    requires !n.stopped && !Perform(n, RoundActions(r, l, view, conf)).stopped
    ensures var n' := Perform(n, RoundActions(r, l, view, conf));
            && SameLog(stored, n'.disk) && SameLog(applied, n'.disk)
            && n'.sends == n.sends + Batch(Immediate, r.messages, r, n.disk)
                           + Batch(Persisted, r.persistedMessages, r, stored) + Batch(Light, l.messages, r, applied)
  {
    hide *;
    var a, b, c, d := RoundSteps(n, r, l, view, conf);
    StepSends(n, a, b, c, d, Perform(n, RoundActions(r, l, view, conf)), r, l, view, conf);
    stored, applied := b.disk, d.disk;
  }

  lemma StepSends(n: Replica, a: Replica, b: Replica, c: Replica, d: Replica, n': Replica,
                  r: Ready, l: LightReady, view: RaftView, conf: ConfResults)
    requires Steps(n, a, b, c, d, n', r, l, view, conf)
    ensures n'.sends == n.sends + Batch(Immediate, r.messages, r, n.disk)
                        + Batch(Persisted, r.persistedMessages, r, b.disk) + Batch(Light, l.messages, r, d.disk)
    ensures SameLog(b.disk, n'.disk) && SameLog(d.disk, n'.disk)
  {
    hide Batch, Fold, Delivers, AppliedToCallers, Confs, Recorded, Announced, InsertAll, RemoveThrough, LeadershipNotes;
  }

  /** What the round left on disk and recorded: the entries inserted after the snapshot's removals,
      snapshot and hard state replaced if the Ready had them, and every handed-over entry with data
      for the map delivered. */
  lemma RoundStored(n: Replica, r: Ready, l: LightReady, view: RaftView, conf: ConfResults)
    requires !n.stopped && !Perform(n, RoundActions(r, l, view, conf)).stopped
    ensures var n' := Perform(n, RoundActions(r, l, view, conf));
            && n'.disk.entries
               == InsertAll(if r.snapshot.Some? then RemoveThrough(n.disk.entries, r.snapshot.value.index)
                            else n.disk.entries, r.entries)
            && n'.disk.snapshot == (if r.snapshot.Some? then r.snapshot else n.disk.snapshot)
            && n'.disk.meta.hard == (if r.hardState.Some? then r.hardState else n.disk.meta.hard)
            && n'.delivered == n.delivered + (set e | e in r.committed + l.committed && e.data != []
                                                      && e.kind.EntryNormal? :: e.index as nat)
  {
    hide *;
    var a, b, c, d := RoundSteps(n, r, l, view, conf);
    StepStores(n, a, b, c, d, Perform(n, RoundActions(r, l, view, conf)), r, l, view, conf);
    DeliveriesConcat(r.committed, l.committed);
    AllDelivered(r.committed + l.committed);
  }

  lemma AllDelivered(es: seq<Entry>)
    ensures Deliveries(es) == set e | e in es && e.data != [] && e.kind.EntryNormal? :: e.index as nat
  {
    assert forall e :: Delivers(e) <==> e.data != [] && e.kind.EntryNormal?;
  }

  lemma StepStores(n: Replica, a: Replica, b: Replica, c: Replica, d: Replica, n': Replica,
                   r: Ready, l: LightReady, view: RaftView, conf: ConfResults)
    requires Steps(n, a, b, c, d, n', r, l, view, conf)
    ensures n'.disk.entries == InsertAll(if r.snapshot.Some? then RemoveThrough(n.disk.entries, r.snapshot.value.index)
                                         else n.disk.entries, r.entries)
    ensures n'.disk.snapshot == (if r.snapshot.Some? then r.snapshot else n.disk.snapshot)
    ensures n'.disk.meta.hard == (if r.hardState.Some? then r.hardState else n.disk.meta.hard)
    ensures n'.delivered == n.delivered + (Deliveries(r.committed) + Deliveries(l.committed))
  {
    hide Batch, Fold, Deliveries, AppliedToCallers, Confs, Recorded, Announced, InsertAll, RemoveThrough;
    hide LeadershipNotes;
  }

  /** The terminal is told of the snapshot, of every Put in order, of a change of leader and of the
      new state, which comes between the entries of the Ready and those of the LightReady. */
  lemma RoundShown(n: Replica, r: Ready, l: LightReady, view: RaftView, conf: ConfResults)
    requires !n.stopped && !Perform(n, RoundActions(r, l, view, conf)).stopped
    ensures var n' := Perform(n, RoundActions(r, l, view, conf));
            var stored := if r.snapshot.Some? then r.snapshot.value.index else n.applied;
            && n'.previousLeader == Some(view.leaderId)
            && n'.updates == n.updates
                             + (match r.snapshot
                                case None => []
                                case Some(s) => [SystemMessage(SnapshotApplied(s.index, s.term))])
                             + Announced(r.committed)
                             + LeadershipNotes(n.previousLeader, view)
                             + [RaftState(view, LastOr(stored, Recorded(r.committed, conf)))]
                             + Announced(l.committed)
            && n'.trace == n.trace + (if r.snapshot.Some? then [r.snapshot.value.index] else [])
                           + Recorded(r.committed, conf) + Recorded(l.committed, conf)
  {
    hide Perform, RoundActions;
    var a, b, c, d := RoundSteps(n, r, l, view, conf);
    hide Batch, Fold, Deliveries, AppliedToCallers, Confs, Recorded, Announced, InsertAll, RemoveThrough;
    hide LeadershipNotes, LastOr;
    assert n.updates + [] == n.updates && n.trace + [] == n.trace;
  }

  /** The configuration left on disk is that of the last configuration change that took effect, or
      else the snapshot's, or else the one before. */
  lemma RoundConfigured(n: Replica, r: Ready, l: LightReady, view: RaftView, conf: ConfResults)
    requires !n.stopped && !Perform(n, RoundActions(r, l, view, conf)).stopped
    ensures var n' := Perform(n, RoundActions(r, l, view, conf));
            n'.disk.meta.conf
            == LastConf(n.disk.meta.conf, (if r.snapshot.Some? then [r.snapshot.value.conf] else [])
                                          + Confs(r.committed, conf) + Confs(l.committed, conf))
  {
    hide Perform, RoundActions, Fold;
    var a, b, c, d := RoundSteps(n, r, l, view, conf);
    hide AppliedToCallers, Confs, Recorded, Announced, Delivers, InsertAll, RemoveThrough, LeadershipNotes;
  }

  /** Who is answered: each caller waiting for one of the entries is told the outcome of the first
      that carries its id, once, in the order of the entries, and is then forgotten. */
  lemma RoundAnswered(n: Replica, r: Ready, l: LightReady, view: RaftView, conf: ConfResults)
    requires !n.stopped && !Perform(n, RoundActions(r, l, view, conf)).stopped
    ensures var n' := Perform(n, RoundActions(r, l, view, conf));
            && n'.replies == n.replies + Replies(n.callbacks, r.committed + l.committed)
            && n'.callbacks == n.callbacks - (set e | e in r.committed + l.committed && Outcome(e).Some? :: e.context)
  {
    hide *;
    var a, b, c, d := RoundSteps(n, r, l, view, conf);
    var n' := Perform(n, RoundActions(r, l, view, conf));
    StepAnswers(n, a, b, c, d, n', r, l, view, conf);
    RepliesConcat(n.callbacks, r.committed, l.committed);
    ToldConcat(r.committed, l.committed);
    LeaveOut(n.callbacks, Told(r.committed), Told(l.committed));
    AllTold(r.committed + l.committed);
    assert n.replies + Replies(n.callbacks, r.committed) + Replies(n.callbacks - Told(r.committed), l.committed)
           == n.replies + (Replies(n.callbacks, r.committed) + Replies(n.callbacks - Told(r.committed), l.committed));
  }

  lemma AllTold(es: seq<Entry>)
    ensures Told(es) == set e | e in es && Outcome(e).Some? :: e.context
  {
  }

  lemma StepAnswers(n: Replica, a: Replica, b: Replica, c: Replica, d: Replica, n': Replica,
                    r: Ready, l: LightReady, view: RaftView, conf: ConfResults)
    requires Steps(n, a, b, c, d, n', r, l, view, conf)
    ensures n'.callbacks == (n.callbacks - Told(r.committed)) - Told(l.committed)
    ensures n'.replies == n.replies + Replies(n.callbacks, r.committed)
                          + Replies(n.callbacks - Told(r.committed), l.committed)
  {
    hide Batch, Told, Replies, AppliedToMap, AppliedToDisk, InsertAll, RemoveThrough, LeadershipNotes;
  }
}
