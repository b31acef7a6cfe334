// What a round does in a run: its outcome when it completes, and the configurations that stay on
// disk when it completes, fails or is cut short by a crash.
module Rounds {
  import opened AppliedLag
  import opened Disk
  import opened Invariants
  import opened Licensing
  import opened RaftTypes
  import opened Replicas
  import opened RoundEffects
  import opened Runs
  import opened StateMachine
  import opened World
  import opened Wrappers
  import SnapshotCodec

  /** A round after which the process still runs was not cut short. */
  lemma LiveRound(s: Sys, r: Ready, l: LightReady, view: RaftView, conf: ConfResults, cut: nat)
    requires !Step(s, RoundEvent(r, l, view, conf, cut)).rep.stopped
    ensures Step(s, RoundEvent(r, l, view, conf, cut)).rep == Perform(s.rep, RoundActions(r, l, view, conf))
  {
    hide RoundActions, Perform;
    var acts := RoundActions(r, l, view, conf);
    assert acts[..|acts|] == acts;
  }

  lemma LegalRound(w: World, s: Sys, r: Ready, l: LightReady, view: RaftView, conf: ConfResults, cut: nat)
    requires Sound(w) && Legal(w, s, RoundEvent(r, l, view, conf, cut))
    ensures !s.rep.stopped && ReadyOk(w, s.rep, r, l, conf)
  {
    hide ReadyOk, Sound;
  }

  lemma SnapshotMap(w: World, n: Replica, r: Ready, l: LightReady, conf: ConfResults)
    requires Sound(w) && ReadyOk(w, n, r, l, conf) && r.snapshot.Some?
    ensures r.snapshot.value.index <= |w.log|
    ensures SnapshotCodec.Decode(r.snapshot.value.data) == Ok(MapAt(w, r.snapshot.value.index))
  {
    hide Sound, CarriesMap, MapAt, HardInOrder, EntriesInOrder, DeliversFrom, ApplySnapshot;
    CarriedMap(w, r.snapshot.value);
  }

  lemma DeliversBoth(w: World, start: nat, a: seq<Entry>, b: seq<Entry>)
    requires Sound(w) && DeliversFrom(w, start, a) && DeliversFrom(w, start + |a|, b)
    ensures start + |a| + |b| <= |w.log| && a + b == w.log[start..start + |a| + |b|]
    ensures a != [] ==> a[|a| - 1].index == start + |a|
    ensures b != [] ==> b[|b| - 1].index == start + |a| + |b|
  {
    assert Contiguous(w.log, 1);
    hide Sound;
  }

  /** Where the entries handed over start, and which they are. */
  lemma HandedOver(w: World, n: Replica, r: Ready, l: LightReady, conf: ConfResults)
    requires Sound(w) && ReadyOk(w, n, r, l, conf)
    ensures var start := if r.snapshot.Some? then r.snapshot.value.index as int else n.position;
            && start + |r.committed| + |l.committed| <= |w.log|
            && r.committed + l.committed == w.log[start..start + |r.committed| + |l.committed|]
            && (r.committed != [] ==> r.committed[|r.committed| - 1].index == start + |r.committed|)
            && (l.committed != [] ==> l.committed[|l.committed| - 1].index == start + |r.committed| + |l.committed|)
  {
    hide Sound, ReadyOk, DeliversFrom;
    DeliveriesOf(w, n, r, l, conf);
    DeliversBoth(w, PositionAfterSnapshot(n, r), r.committed, l.committed);
  }

  /** A round that ends without an error, in any run: every entry handed over was consumed, in the
      Ready's order and then the LightReady's, and nothing else; the map is the one before, or that
      of the snapshot, with all of them applied. */
  lemma RoundOutcome(w: World, s: Sys, r: Ready, l: LightReady, view: RaftView, conf: ConfResults, cut: nat)
    requires Sound(w) && Legal(w, s, RoundEvent(r, l, view, conf, cut))
    requires !Step(s, RoundEvent(r, l, view, conf, cut)).rep.stopped
    ensures var n, n' := s.rep, Step(s, RoundEvent(r, l, view, conf, cut)).rep;
            var start := if r.snapshot.Some? then r.snapshot.value.index as int else n.position;
            && n'.position == start + |r.committed| + |l.committed| <= |w.log|
            && r.committed + l.committed == w.log[start..n'.position]
            && n'.kv == Fold(if r.snapshot.Some? then MapAt(w, start) else n.kv, r.committed + l.committed)
  {
    hide *;
    LiveRound(s, r, l, view, conf, cut);
    LegalRound(w, s, r, l, view, conf, cut);
    NeverStopped(s.rep, RoundActions(r, l, view, conf));
    RoundDone(s.rep, r, l, view, conf);
    HandedOver(w, s.rep, r, l, conf);
    if r.snapshot.Some? {
      SnapshotMap(w, s.rep, r, l, conf);
    }
  }

  /** In such a round every entry handed over that has data for the map was delivered, and each
      caller that waited for one was told its outcome, once, and forgotten. */
  lemma RoundCallers(w: World, s: Sys, r: Ready, l: LightReady, view: RaftView, conf: ConfResults, cut: nat)
    requires Sound(w) && Legal(w, s, RoundEvent(r, l, view, conf, cut))
    requires !Step(s, RoundEvent(r, l, view, conf, cut)).rep.stopped
    ensures var n, n', es := s.rep, Step(s, RoundEvent(r, l, view, conf, cut)).rep, r.committed + l.committed;
            && n'.delivered == n.delivered + (set e | e in es && e.data != [] && e.kind.EntryNormal? :: e.index as nat)
            && n'.callbacks == n.callbacks - (set e | e in es && Outcome(e).Some? :: e.context)
            && n'.replies == n.replies + Replies(n.callbacks, es)
  {
    hide *;
    LiveRound(s, r, l, view, conf, cut);
    LegalRound(w, s, r, l, view, conf, cut);
    NeverStopped(s.rep, RoundActions(r, l, view, conf));
    RoundStored(s.rep, r, l, view, conf);
    RoundAnswered(s.rep, r, l, view, conf);
  }

  /** The messages of such a round: each of the three groups once and in order, those that waited
      for storage when everything of the Ready was on disk. */
  lemma RoundMessages(w: World, s: Sys, r: Ready, l: LightReady, view: RaftView, conf: ConfResults, cut: nat)
    requires Sound(w) && Legal(w, s, RoundEvent(r, l, view, conf, cut))
    requires !Step(s, RoundEvent(r, l, view, conf, cut)).rep.stopped
    ensures exists stored, applied ::
              && OnDisk(stored, r) && OnDisk(applied, r)
              && Step(s, RoundEvent(r, l, view, conf, cut)).rep.sends
                 == s.rep.sends + Batch(Immediate, r.messages, r, s.rep.disk)
                    + Batch(Persisted, r.persistedMessages, r, stored) + Batch(Light, l.messages, r, applied)
  {
    LiveRound(s, r, l, view, conf, cut);
    LegalRound(w, s, r, l, view, conf, cut);
    hide *;
    NeverStopped(s.rep, RoundActions(r, l, view, conf));
    ReadyStored(w, s.rep, r, l, view, conf);
    var stored, applied := RoundSent(s.rep, r, l, view, conf);
    var d := Perform(s.rep, RoundActions(r, l, view, conf)).disk;
    SameOnDisk(stored, d, r);
    SameOnDisk(applied, d, r);
  }

  lemma SameOnDisk(d: Disk, d': Disk, r: Ready)
    requires SameLog(d, d') && OnDisk(d', r)
    ensures OnDisk(d, r)
  {
  }

  lemma ReadyStored(w: World, n: Replica, r: Ready, l: LightReady, view: RaftView, conf: ConfResults)
    requires Sound(w) && ReadyOk(w, n, r, l, conf) && !n.stopped
    requires !Perform(n, RoundActions(r, l, view, conf)).stopped
    ensures OnDisk(Perform(n, RoundActions(r, l, view, conf)).disk, r)
  {
    RoundStored(n, r, l, view, conf);
    EntriesOf(w, n, r, l, conf);
    hide Perform, RoundActions, ReadyOk, Sound, InsertAll, RemoveThrough, OnDisk;
    ReadyOnDisk(n, r, Perform(n, RoundActions(r, l, view, conf)).disk);
  }

  lemma EntriesOf(w: World, n: Replica, r: Ready, l: LightReady, conf: ConfResults)
    requires Sound(w) && ReadyOk(w, n, r, l, conf)
    ensures r.entries == [] || Contiguous(r.entries, r.entries[0].index)
  {
  }
}
