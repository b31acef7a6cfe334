// The order in which a round performs its effects keeps every one of them in
// order: this is where "store, then send, then apply" matters.
module Licensing {
  import opened Bytes
  import opened Disk
  import opened RaftTypes
  import opened Replicas
  import opened World
  import SnapshotCodec

  /** Only the send record changes. */
  predicate OnlySends(n: Replica, n': Replica) {
    n' == n.(sends := n'.sends)
  }

  lemma {:induction false} SendsLicensed(w: World, n: Replica, phase: Phase, messages: seq<Message>, r: Ready)
    requires Sound(w) && (n.stopped || phase.Immediate? || OnDisk(n.disk, r))
    ensures Licensed(w, n, SendActions(phase, messages, r))
    ensures OnlySends(n, Perform(n, SendActions(phase, messages, r)))
  {
    hide OnDisk, Sound;
    if messages != [] {
      var front := messages[..|messages| - 1];
      SendsLicensed(w, n, phase, front, r);
      var acts := SendActions(phase, messages, r);
      assert acts[..|acts| - 1] == SendActions(phase, front, r);
    }
  }

  lemma LicensedOne(w: World, n: Replica, a: Action)
    requires Sound(w)
    ensures Licensed(w, n, [a]) <==> Enabled(w, n, a)
  {
    hide Enabled, Do, Sound;
    var none: seq<Action> := [];
    assert [a][..0] == none;
    assert Licensed(w, n, none);
    PerformNone(n);
  }

  lemma LicensedPair(w: World, n: Replica, a: Action, b: Action)
    requires Sound(w)
    ensures Licensed(w, n, [a, b]) <==> Enabled(w, n, a) && Enabled(w, Do(n, a), b)
  {
    hide Enabled, Do, Sound, Licensed;
    assert [a, b] == [a] + [b];
    LicensedConcat(w, n, [a], [b]);
    LicensedOne(w, n, a);
    PerformOne(n, a);
    LicensedOne(w, Do(n, a), b);
  }

  lemma LicensedTriple(w: World, n: Replica, a: Action, b: Action, c: Action)
    requires Sound(w)
    ensures Licensed(w, n, [a, b, c])
            <==> Enabled(w, n, a) && Enabled(w, Do(n, a), b) && Enabled(w, Do(Do(n, a), b), c)
  {
    hide Enabled, Do, Sound, Licensed;
    assert [a, b, c] == [a, b] + [c];
    LicensedConcat(w, n, [a, b], [c]);
    LicensedPair(w, n, a, b);
    PerformPair(n, a, b);
    LicensedOne(w, Do(Do(n, a), b), c);
  }

  lemma MetaWriteFrame(n: Replica, w: Write)
    requires w.StoreApplied? || w.StoreConf?
    ensures SameLog(n.disk, Do(n, Persist(w)).disk) && Do(n, Persist(w)).position == n.position
  {
  }

  lemma EntryLicensed(w: World, n: Replica, e: Entry, conf: ConfResults)
    requires Sound(w) && !n.stopped && n.position < |w.log| && e == w.log[n.position]
    requires forall i | i in conf :: conf[i].voters != []
    ensures Licensed(w, n, EntryActions(e, conf))
    ensures SameLog(n.disk, Perform(n, EntryActions(e, conf)).disk)
    ensures Perform(n, EntryActions(e, conf)).position == n.position + 1
  {
    assert e.index == n.position + 1;
    hide Licensed, Perform, Sound, SameLog;
    if e.data == [] || (!e.kind.EntryNormal? && e.index !in conf) {
      PassLicensed(w, n, e, e.data != []);
    } else if e.kind.EntryNormal? {
      DeliverLicensed(w, n, e);
    } else {
      ConfLicensed(w, n, e, conf[e.index]);
    }
  }

  lemma PassLicensed(w: World, n: Replica, e: Entry, failed: bool)
    requires Sound(w) && !n.stopped && n.position < |w.log| && e == w.log[n.position] && e.index == n.position + 1
    requires e.data == [] || !e.kind.EntryNormal?
    ensures Licensed(w, n, [Pass(e, failed)]) && SameLog(n.disk, Perform(n, [Pass(e, failed)]).disk)
    ensures Perform(n, [Pass(e, failed)]).position == n.position + 1
  {
    hide Licensed, Perform, Sound;
    PerformOne(n, Pass(e, failed));
    LicensedOne(w, n, Pass(e, failed));
  }

  lemma DeliverLicensed(w: World, n: Replica, e: Entry)
    requires Sound(w) && !n.stopped && n.position < |w.log| && e == w.log[n.position] && e.index == n.position + 1
    requires e.data != [] && e.kind.EntryNormal?
    ensures var acts := [Deliver(e), Persist(StoreApplied(e.index))];
            && Licensed(w, n, acts) && SameLog(n.disk, Perform(n, acts).disk)
            && Perform(n, acts).position == n.position + 1
  {
    hide Licensed, Perform, Sound, Do;
    var applied := StoreApplied(e.index);
    DeliverFrame(n, e);
    PerformPair(n, Deliver(e), Persist(applied));
    LicensedPair(w, n, Deliver(e), Persist(applied));
    MetaWriteFrame(Do(n, Deliver(e)), applied);
  }

  lemma ConfLicensed(w: World, n: Replica, e: Entry, cs: ConfState)
    requires Sound(w) && !n.stopped && n.position < |w.log| && e == w.log[n.position] && e.index == n.position + 1
    requires e.data != [] && !e.kind.EntryNormal? && cs.voters != []
    ensures var acts := [Pass(e, false), Persist(StoreConf(cs)), Persist(StoreApplied(e.index))];
            && Licensed(w, n, acts) && SameLog(n.disk, Perform(n, acts).disk)
            && Perform(n, acts).position == n.position + 1
  {
    hide Licensed, Perform, Sound;
    var pass, setConf, applied := Pass(e, false), StoreConf(cs), StoreApplied(e.index);
    var n1 := Do(n, pass);
    assert n1.disk == n.disk && n1.position == e.index;
    hide Do;
    PerformTriple(n, pass, Persist(setConf), Persist(applied));
    LicensedTriple(w, n, pass, Persist(setConf), Persist(applied));
    MetaWriteFrame(n1, setConf);
    MetaWriteFrame(Do(n1, Persist(setConf)), applied);
  }

  lemma DeliversSplit(w: World, position: nat, es: seq<Entry>)
    requires es != [] && DeliversFrom(w, position, es)
    ensures DeliversFrom(w, position, es[..|es| - 1])
    ensures position + |es| - 1 < |w.log| && es[|es| - 1] == w.log[position + |es| - 1]
  {
  }

  lemma {:induction false} ApplyLicensed(w: World, n: Replica, es: seq<Entry>, conf: ConfResults)
    requires Sound(w) && (n.stopped || DeliversFrom(w, n.position, es))
    requires forall i | i in conf :: conf[i].voters != []
    ensures Licensed(w, n, ApplyActions(es, conf))
    ensures SameLog(n.disk, Perform(n, ApplyActions(es, conf)).disk)
    ensures var n' := Perform(n, ApplyActions(es, conf));
            n'.stopped || (!n.stopped && n'.position == n.position + |es|)
  {
    hide EntryActions, Sound, Do, Enabled, DeliversFrom;
    if n.stopped {
      StoppedLicensed(w, n, ApplyActions(es, conf));
    } else if es != [] {
      var k := |es| - 1;
      DeliversSplit(w, n.position, es);
      ApplyLicensed(w, n, es[..k], conf);
      var done := ApplyActions(es[..k], conf);
      var mid := Perform(n, done);
      PerformConcat(n, done, EntryActions(es[k], conf));
      LicensedConcat(w, n, done, EntryActions(es[k], conf));
      if mid.stopped {
        StoppedLicensed(w, mid, EntryActions(es[k], conf));
      } else {
        EntryLicensed(w, mid, es[k], conf);
      }
    }
  }

  lemma {:induction false} StoppedLicensed(w: World, n: Replica, acts: seq<Action>)
    requires Sound(w) && n.stopped
    ensures Licensed(w, n, acts) && Perform(n, acts) == n
  {
    hide Sound;
    PerformStopped(n, acts);
    if acts != [] {
      StoppedLicensed(w, n, acts[..|acts| - 1]);
    }
  }

  lemma LicensedSnapshot(w: World, n: Replica, s: Snapshot)
    requires Sound(w) && !n.stopped && SnapshotInOrder(w, n, s)
    ensures Licensed(w, n, SnapshotActions(s))
    ensures var n' := Perform(n, SnapshotActions(s));
            n'.stopped || (SameLog(ApplySnapshot(n.disk, s), n'.disk) && n'.position == s.index)
  {
    var install, restore, applied := Persist(InstallSnapshot(s)), Restore(s), Persist(StoreApplied(s.index));
    var n1 := Do(n, install);
    var n2 := Do(n1, restore);
    assert n1.stopped || n1.disk == ApplySnapshot(n.disk, s);
    assert Enabled(w, n, install) && Enabled(w, n1, restore);
    SnapshotCodec.RoundTrip(MapAt(w, s.index), []);
    assert n1.stopped || (n2.disk == n1.disk && n2.position == s.index && !n2.stopped);
    hide Licensed, Perform, Do, SnapshotActions, Enabled, SnapshotInOrder, MapAt;
    MetaWriteFrame(n2, StoreApplied(s.index));
    PerformSnapshot(n, s);
    LicensedSnapshotParts(w, n, s);
    AnnounceFrame(w, n2, s);
    AnnounceFrame(w, Do(n2, applied), s);
    StoppedStays(n1, restore);
    StoppedStays(n2, applied);
  }

  lemma AnnounceFrame(w: World, n: Replica, s: Snapshot)
    requires Sound(w)
    ensures Enabled(w, n, Announce(s))
    ensures n.stopped || n.position == s.index ==> Enabled(w, n, Persist(StoreApplied(s.index)))
    ensures Do(n, Announce(s)).disk == n.disk && Do(n, Announce(s)).position == n.position
    ensures Do(n, Announce(s)).stopped == n.stopped
  {
  }

  lemma StoppedStays(n: Replica, a: Action)
    ensures n.stopped ==> Do(n, a) == n
  {
  }

  lemma LicensedSnapshotParts(w: World, n: Replica, s: Snapshot)
    requires Sound(w)
    ensures Licensed(w, n, SnapshotActions(s))
            <==> Enabled(w, n, Persist(InstallSnapshot(s)))
                 && Enabled(w, Do(n, Persist(InstallSnapshot(s))), Restore(s))
                 && Enabled(w, Do(Do(n, Persist(InstallSnapshot(s))), Restore(s)), Persist(StoreApplied(s.index)))
  {
    hide Licensed, Do, Enabled, Perform;
    var front := [Persist(InstallSnapshot(s)), Restore(s), Persist(StoreApplied(s.index))];
    assert SnapshotActions(s) == front + [Announce(s)];
    LicensedConcat(w, n, front, [Announce(s)]);
    LicensedTriple(w, n, front[0], front[1], front[2]);
    LicensedOne(w, Perform(n, front), Announce(s));
    AnnounceFrame(w, Perform(n, front), s);
  }

  /** Where the log is the same, the same entries and commit indices are in order. */
  lemma SameLogSameOrder(w: World, d: Disk, d': Disk)
    requires Sound(w) && SameLog(d, d')
    ensures Base(d) == Base(d') && LastIndex(d) == LastIndex(d') && CommitOf(d) == CommitOf(d')
    ensures forall es :: EntriesInOrder(w, d, es) <==> EntriesInOrder(w, d', es)
    ensures forall hs :: HardInOrder(w, d, hs) <==> HardInOrder(w, d', hs)
    ensures forall es :: SameLog(Append(d, es), Append(d', es))
  {
    assert forall i: u64 :: Present(d, i) == Present(d', i);
  }

  lemma EntriesStored(d: Disk, es: seq<Entry>)
    requires es != [] && Contiguous(es, es[0].index)
    ensures forall e | e in es :: Present(Append(d, es), e.index) && Append(d, es).entries[IndexToKey(e.index)] == e
  {
    hide IndexToKey;
    InsertAllContents(d.entries, es, es[0].index);
    forall e | e in es
      ensures Present(Append(d, es), e.index) && Append(d, es).entries[IndexToKey(e.index)] == e
    {
      var i :| 0 <= i < |es| && es[i] == e;
    }
  }

  lemma StoreLicensed(w: World, n: Replica, r: Ready, l: LightReady, conf: ConfResults)
    requires Sound(w) && !n.stopped && ReadyOk(w, n, r, l, conf)
    ensures Licensed(w, n, StoreActions(r))
    ensures var n' := Perform(n, StoreActions(r));
            n'.stopped || (OnDisk(n'.disk, r) && n'.position == PositionAfterSnapshot(n, r))
  {
    hide Licensed, Perform, Do, SnapshotActions, Sound, Enabled, SnapshotInOrder, EntriesInOrder, HardInOrder;
    var a := if r.snapshot.Some? then SnapshotActions(r.snapshot.value) else [];
    var b := if r.entries != [] then [Persist(StoreEntries(r.entries))] else [];
    var c := if r.hardState.Some? then [Persist(StoreHard(r.hardState.value))] else [];
    assert StoreActions(r) == a + b + c;
    PerformConcat(n, a, b);
    PerformConcat(n, a + b, c);
    LicensedConcat(w, n, a, b);
    LicensedConcat(w, n, a + b, c);
    var n1 := Perform(n, a);
    var n2 := Perform(n1, b);
    SnapshotPhase(w, n, r, a);
    EntriesPhase(w, n, n1, r, b);
    HardPhase(w, n, n2, r, c);
  }

  lemma SnapshotPhase(w: World, n: Replica, r: Ready, a: seq<Action>)
    requires Sound(w) && !n.stopped
    requires r.snapshot.Some? ==> SnapshotInOrder(w, n, r.snapshot.value)
    requires a == if r.snapshot.Some? then SnapshotActions(r.snapshot.value) else []
    ensures Licensed(w, n, a)
    ensures var n1 := Perform(n, a);
            n1.stopped || (SameLog(DiskAfterSnapshot(n, r), n1.disk) && n1.position == PositionAfterSnapshot(n, r))
  {
    if r.snapshot.Some? {
      hide Licensed, Perform, SnapshotActions, SnapshotInOrder;
      LicensedSnapshot(w, n, r.snapshot.value);
    }
  }

  /** The disk holds the snapshot and the entries of the Ready. */
  ghost predicate EntriesPhaseDone(n: Replica, r: Ready, n2: Replica) {
    n2.stopped
    || (SameLog(DiskAfterEntries(n, r), n2.disk)
        && n2.position == PositionAfterSnapshot(n, r)
        && (r.entries == [] || Contiguous(r.entries, r.entries[0].index)))
  }

  lemma EntriesPhase(w: World, n: Replica, n1: Replica, r: Ready, b: seq<Action>)
    requires Sound(w)
    requires n1.stopped || (SameLog(DiskAfterSnapshot(n, r), n1.disk) && n1.position == PositionAfterSnapshot(n, r))
    requires r.entries != [] ==> EntriesInOrder(w, DiskAfterSnapshot(n, r), r.entries)
    requires b == if r.entries != [] then [Persist(StoreEntries(r.entries))] else []
    ensures Licensed(w, n1, b)
    ensures EntriesPhaseDone(n, r, Perform(n1, b))
  {
    if n1.stopped {
      StoppedLicensed(w, n1, b);
    } else {
      SameLogSameOrder(w, DiskAfterSnapshot(n, r), n1.disk);
      if r.entries != [] {
        PerformOne(n1, b[0]);
        LicensedOne(w, n1, b[0]);
        hide Licensed, Perform;
        assert Enabled(w, n1, b[0]);
        assert Do(n1, b[0]).stopped || Do(n1, b[0]).disk == Append(n1.disk, r.entries);
      } else {
        assert InsertAll(n1.disk.entries, []) == n1.disk.entries;
      }
    }
  }

  lemma HardPhase(w: World, n: Replica, n2: Replica, r: Ready, c: seq<Action>)
    requires Sound(w) && EntriesPhaseDone(n, r, n2)
    requires r.hardState.Some? ==> HardInOrder(w, DiskAfterEntries(n, r), r.hardState.value)
    requires c == if r.hardState.Some? then [Persist(StoreHard(r.hardState.value))] else []
    ensures Licensed(w, n2, c)
    ensures var n3 := Perform(n2, c);
            n3.stopped || (OnDisk(n3.disk, r) && n3.position == PositionAfterSnapshot(n, r))
  {
    hide OnDisk;
    if n2.stopped {
      StoppedLicensed(w, n2, c);
    } else {
      SameLogSameOrder(w, DiskAfterEntries(n, r), n2.disk);
      hide IndexToKey, HardInOrder, InsertAll, RemoveThrough, Sound;
      var n3 := Perform(n2, c);
      if r.hardState.Some? {
        PerformOne(n2, c[0]);
        LicensedOne(w, n2, c[0]);
        assert n3.stopped || n3.disk == SetHard(n2.disk, r.hardState.value);
      } else {
        PerformNone(n2);
      }
      hide Perform, Licensed;
      if !n3.stopped {
        ReadyOnDisk(n, r, n3.disk);
      }
    }
  }

  lemma ReadyOnDisk(n: Replica, r: Ready, d: Disk)
    requires d.entries == DiskAfterEntries(n, r).entries && d.snapshot == DiskAfterSnapshot(n, r).snapshot
    requires r.hardState.Some? ==> d.meta.hard == r.hardState
    requires r.entries == [] || Contiguous(r.entries, r.entries[0].index)
    ensures OnDisk(d, r)
  {
    hide IndexToKey, InsertAll, RemoveThrough;
    if r.entries != [] {
      EntriesStored(DiskAfterSnapshot(n, r), r.entries);
    }
  }

  /** Every effect of a round is in order when it is performed, up to any point. */
  lemma RoundLicensed(w: World, n: Replica, r: Ready, l: LightReady, view: RaftView, conf: ConfResults)
    requires Sound(w) && !n.stopped && ReadyOk(w, n, r, l, conf)
    ensures Licensed(w, n, RoundActions(r, l, view, conf))
  {
    hide Licensed, Perform, Do, Sound, Enabled, StoreActions, SendActions, ApplyActions, OnDisk;
    var a := SendActions(Immediate, r.messages, r);
    var b := a + StoreActions(r);
    var c := b + SendActions(Persisted, r.persistedMessages, r);
    var d := c + ApplyActions(r.committed, conf);
    var e := d + [ShowState(view)];
    var f := e + SendActions(Light, l.messages, r);
    LicensedConcat(w, n, a, StoreActions(r));
    LicensedConcat(w, n, b, SendActions(Persisted, r.persistedMessages, r));
    LicensedConcat(w, n, c, ApplyActions(r.committed, conf));
    LicensedConcat(w, n, d, [ShowState(view)]);
    LicensedConcat(w, n, e, SendActions(Light, l.messages, r));
    LicensedConcat(w, n, f, ApplyActions(l.committed, conf));
    PerformConcat(n, a, StoreActions(r));
    PerformConcat(n, b, SendActions(Persisted, r.persistedMessages, r));
    PerformConcat(n, c, ApplyActions(r.committed, conf));
    PerformConcat(n, d, [ShowState(view)]);
    PerformConcat(n, e, SendActions(Light, l.messages, r));
    var nA, nB, nC := Perform(n, a), Perform(n, b), Perform(n, c);
    var nD, nE, nF := Perform(n, d), Perform(n, e), Perform(n, f);
    SendsLicensed(w, n, Immediate, r.messages, r);
    ReadyOkAfterSends(w, n, nA, r, l, conf);
    StoreLicensed(w, nA, r, l, conf);
    SendsLicensed(w, nB, Persisted, r.persistedMessages, r);
    ApplyLicensed(w, nC, r.committed, conf);
    StoredAfterApply(nC.disk, nD.disk, r);
    ShowLicensed(w, nD, view);
    SendsLicensed(w, nE, Light, l.messages, r);
    ApplyLicensed(w, nF, l.committed, conf);
  }

  lemma ReadyOkAfterSends(w: World, n: Replica, n': Replica, r: Ready, l: LightReady, conf: ConfResults)
    requires Sound(w) && ReadyOk(w, n, r, l, conf) && OnlySends(n, n')
    ensures ReadyOk(w, n', r, l, conf)
    ensures PositionAfterSnapshot(n', r) == PositionAfterSnapshot(n, r)
  {
    hide EntriesInOrder, HardInOrder, CarriesMap, DeliversFrom, ApplySnapshot, Append, Sound;
  }

  lemma StoredAfterApply(d: Disk, d': Disk, r: Ready)
    requires SameLog(d, d')
    ensures OnDisk(d, r) ==> OnDisk(d', r)
  {
  }

  lemma ShowLicensed(w: World, n: Replica, view: RaftView)
    requires Sound(w)
    ensures Licensed(w, n, [ShowState(view)])
    ensures var n' := Perform(n, [ShowState(view)]);
            n'.disk == n.disk && n'.position == n.position && n'.stopped == n.stopped
  {
    LicensedOne(w, n, ShowState(view));
    PerformOne(n, ShowState(view));
  }
}
