// The storage object: live trees over durable ones, written in place and
// flushed before a write reports success.
module DiskStorage {
  import opened Bytes
  import opened Disk
  import opened EntryRecord
  import opened RaftTypes
  import opened RangeRead
  import opened Wrappers

  class DiskStorage {
    var metaTree: Meta
    var entriesTree: EntryTree
    var snapshotsTree: Option<Snapshot>
    var appliedIndex: u64

    // The disk's behaviour: it completes `fuel` more writes; the one after them
    // fails once `written` of its inserts are done.
    var fuel: nat
    var written: nat

    // What a crash leaves: the trees as of their last flush.
    ghost var durable: Disk

    // The applied index as loaded, then every value it was set to.
    ghost var trace: seq<u64>

    function Live(): Disk
      reads this
    {
      Disk(metaTree, entriesTree, snapshotsTree)
    }

    ghost predicate Synced()
      reads this
    {
      durable == Live()
    }

    /** The outcome of a write: complete and flushed, or interrupted and at most partly flushed. */
    twostate predicate Wrote(w: Write, ok: bool)
      reads this
    {
      && ok == (old(fuel) > 0)
      && written == old(written)
      && fuel == (if ok then old(fuel) - 1 else 0)
      && Live() == (if ok then Complete(old(Live()), w) else Interrupted(old(Live()), w, old(written)))
      && (ok ==> Synced())
      && (!ok ==> durable == Flushed(old(durable), w, old(written)))
      && appliedIndex == (if w.StoreApplied? then w.index else old(appliedIndex))
      && trace == old(trace) + (if w.StoreApplied? then [w.index] else [])
    }

    /** Opens what an earlier process left on disk. */
    constructor (stored: Disk, fuel: nat, written: nat)
      ensures Live() == stored && Synced()
      ensures appliedIndex == AppliedOf(stored)
      ensures trace == [appliedIndex]
      ensures this.fuel == fuel && this.written == written
    {
      metaTree, entriesTree, snapshotsTree := stored.meta, stored.entries, stored.snapshot;
      appliedIndex := if stored.meta.applied.Some? then stored.meta.applied.value else 0;
      this.fuel, this.written := fuel, written;
      durable := stored;
      trace := [appliedIndex];
    }

    method FlushMeta()
      modifies this`durable
      ensures durable == old(durable).(meta := metaTree)
    {
      durable := durable.(meta := metaTree);
    }

    method FlushEntries()
      modifies this`durable
      ensures durable == old(durable).(entries := entriesTree)
    {
      durable := durable.(entries := entriesTree);
    }

    method FlushSnapshots()
      modifies this`durable
      ensures durable == old(durable).(snapshot := snapshotsTree)
    {
      durable := durable.(snapshot := snapshotsTree);
    }

    /** The cached index changes even when the write fails. */
    method SetAppliedIndex(index: u64) returns (ok: bool)
      requires Synced()
      modifies this
      ensures Wrote(StoreApplied(index), ok)
      ensures appliedIndex == index && entriesTree == old(entriesTree) && snapshotsTree == old(snapshotsTree)
      ensures ok ==> metaTree == old(metaTree).(applied := Some(index)) && durable == Live()
      ensures !ok ==> old(fuel) == 0 && durable == old(durable)
    {
      appliedIndex, trace := index, trace + [index];
      if fuel == 0 && written == 0 { return false; }
      metaTree := metaTree.(applied := Some(index));
      if fuel == 0 { return false; }
      FlushMeta();
      fuel := fuel - 1;
      return true;
    }

    method SetHardState(hs: HardState) returns (ok: bool)
      requires Synced()
      modifies this
      ensures Wrote(StoreHard(hs), ok)
      ensures entriesTree == old(entriesTree) && snapshotsTree == old(snapshotsTree)
      ensures ok ==> metaTree == old(metaTree).(hard := Some(hs)) && durable == Live()
      ensures !ok ==> old(fuel) == 0 && durable == old(durable)
    {
      if fuel == 0 && written == 0 { return false; }
      metaTree := metaTree.(hard := Some(hs));
      if fuel == 0 { return false; }
      FlushMeta();
      fuel := fuel - 1;
      return true;
    }

    method SetConfState(cs: ConfState) returns (ok: bool)
      requires Synced()
      modifies this
      ensures Wrote(StoreConf(cs), ok)
      ensures entriesTree == old(entriesTree) && snapshotsTree == old(snapshotsTree)
      ensures ok ==> metaTree == old(metaTree).(conf := Some(cs)) && durable == Live()
      ensures !ok ==> old(fuel) == 0 && durable == old(durable)
    {
      if fuel == 0 && written == 0 { return false; }
      metaTree := metaTree.(conf := Some(cs));
      if fuel == 0 { return false; }
      FlushMeta();
      fuel := fuel - 1;
      return true;
    }

    method Append(es: seq<Entry>) returns (ok: bool)
      requires Synced()
      modifies this
      ensures Wrote(StoreEntries(es), ok)
      ensures metaTree == old(metaTree) && snapshotsTree == old(snapshotsTree)
      ensures ok ==> durable == Live()
      ensures !ok ==> old(fuel) == 0 && durable == old(durable)
      ensures ok ==> forall j | 0 <= j < |es| && (forall k | j < k < |es| :: es[k].index != es[j].index) ::
                       IndexToKey(es[j].index) in entriesTree && entriesTree[IndexToKey(es[j].index)] == es[j]
      ensures ok ==> forall key: Key | (forall e | e in es :: IndexToKey(e.index) != key) ::
                       && (key in entriesTree <==> key in old(entriesTree))
                       && (key in entriesTree ==> entriesTree[key] == old(entriesTree)[key])
    {
      for i := 0 to |es|
        invariant entriesTree == InsertAll(old(entriesTree), es[..i])
        invariant metaTree == old(metaTree) && snapshotsTree == old(snapshotsTree)
        invariant durable == old(durable) && appliedIndex == old(appliedIndex) && trace == old(trace)
        invariant fuel == old(fuel) && written == old(written)
        invariant fuel == 0 ==> i <= written
      {
        if fuel == 0 && i == written { return false; }
        entriesTree := entriesTree[IndexToKey(es[i].index) := es[i]];
        assert es[..i + 1][..i] == es[..i];
      }
      assert es[..|es|] == es;
      if fuel == 0 { return false; }
      FlushEntries();
      fuel := fuel - 1;
      InsertAllWrites(old(entriesTree), es);
      return true;
    }

    method CollectThrough(limit: u64) returns (keys: seq<Key>)
      ensures keys == KeysThrough(entriesTree.Keys, limit)
    {
      hide KeyToIndex, KeysThrough;
      keys := [];
      var unread: set<Key> := entriesTree.Keys;
      assert [] + KeysThrough(unread, limit) == KeysThrough(unread, limit);
      while unread != {}
        invariant keys + KeysThrough(unread, limit) == KeysThrough(entriesTree.Keys, limit)
        decreases |unread|
      {
        var key: Key := LexMin(unread);
        NextKey(keys, unread, limit);
        if KeyToIndex(key) <= limit {
          keys := keys + [key];
        }
        unread := unread - {key};
      }
      NoKeys(limit);
      assert keys + [] == keys;
    }

    /** Collects the keys at or below `limit` in key order, then removes them one by one; on a
        failing disk only the first `done`. */
    method RemoveEntriesThrough(limit: u64, done: nat) returns (ok: bool, removed: nat)
      modifies this`entriesTree
      ensures ok <==> fuel > 0 || |KeysThrough(old(entriesTree).Keys, limit)| <= done
      ensures ok ==> removed == |KeysThrough(old(entriesTree).Keys, limit)|
      ensures ok ==> entriesTree == RemoveThrough(old(entriesTree), limit)
      ensures fuel == 0 ==>
                entriesTree == RemoveKeys(old(entriesTree), Take(KeysThrough(old(entriesTree).Keys, limit), done))
    {
      hide KeysThrough, KeyToIndex;
      var toRemove := CollectThrough(limit);
      RemoveAllKeys(entriesTree, limit);
      for i := 0 to |toRemove|
        invariant entriesTree == RemoveKeys(old(entriesTree), toRemove[..i])
        invariant fuel == 0 ==> i <= done
      {
        if fuel == 0 && i == done { return false, i; }
        assert toRemove[..i + 1] == toRemove[..i] + [toRemove[i]];
        entriesTree := entriesTree - {toRemove[i]};
      }
      assert toRemove[..|toRemove|] == toRemove;
      return true, |toRemove|;
    }

    method ApplySnapshot(s: Snapshot) returns (ok: bool)
      requires Synced()
      modifies this
      ensures Wrote(InstallSnapshot(s), ok)
      ensures ok ==>
                && metaTree == old(metaTree).(conf := Some(s.conf)) && snapshotsTree == Some(s) && durable == Live()
                && (forall k :: k in entriesTree <==> k in old(entriesTree) && KeyToIndex(k) > s.index)
                && (forall k | k in entriesTree :: entriesTree[k] == old(entriesTree)[k])
      ensures !ok ==>
                var removals := |KeysThrough(old(entriesTree).Keys, s.index)|;
                && snapshotsTree == (if written >= 1 then Some(s) else old(snapshotsTree))
                && metaTree == (if written >= 2 then old(metaTree).(conf := Some(s.conf)) else old(metaTree))
                && entriesTree == (if written < 2 then old(entriesTree)
                                   else RemoveKeys(old(entriesTree),
                                                   Take(KeysThrough(old(entriesTree).Keys, s.index), written - 2)))
                && durable.entries == old(entriesTree)
                && durable.snapshot == (if written >= 3 + removals then Some(s) else old(snapshotsTree))
                && durable.meta == (if written >= 4 + removals then metaTree else old(metaTree))
    {
      hide KeysThrough, KeyToIndex, RemoveKeys, RemoveThrough;
      RemoveAllKeys(entriesTree, s.index);
      if fuel == 0 && written == 0 { return false; }
      snapshotsTree := Some(s);
      if fuel == 0 && written == 1 { return false; }
      metaTree := metaTree.(conf := Some(s.conf));
      var removed;
      ok, removed := RemoveEntriesThrough(s.index, written - if fuel == 0 then 2 else 0);
      if !ok { return; }
      if fuel == 0 && written <= 2 + removed { return false; }
      FlushSnapshots();
      if fuel == 0 && written == 3 + removed { return false; }
      FlushMeta();
      if fuel == 0 { return false; }
      FlushEntries();
      fuel := fuel - 1;
      RemoveThroughKeeps(old(entriesTree), s.index);
      return true;
    }

    /** Removes entries; the snapshot record, and with it the first index, stays as it is. */
    method Compact(limit: u64) returns (ok: bool)
      requires Synced()
      modifies this
      ensures ok <==> old(fuel) > 0
      ensures ok ==> Live() == old(Live()).(entries := RemoveThrough(old(entriesTree), limit)) && Synced()
      ensures !ok ==>
                Live() == old(Live()).(entries := RemoveKeys(old(entriesTree),
                                                             Take(KeysThrough(old(entriesTree).Keys, limit), written)))
                && durable == old(durable)
      ensures old(snapshotsTree).Some? ==> FirstIndex(Live()) == FirstIndex(old(Live()))
      ensures appliedIndex == old(appliedIndex) && trace == old(trace) && written == old(written)
      ensures fuel == if ok then old(fuel) - 1 else 0
    {
      hide KeysThrough, RemoveKeys, RemoveThrough;
      var removed;
      ok, removed := RemoveEntriesThrough(limit, written);
      if !ok { return; }
      if fuel == 0 { return false; }
      FlushEntries();
      fuel := fuel - 1;
    }

    /** A storage without voters takes the configuration through an empty snapshot at index 0.
        Start-up goes on whether or not that could be stored. */
    method InitializeWithConfState(cs: ConfState) returns (ok: bool)
      requires Synced()
      modifies this
      ensures HasVoters(old(Live())) ==> ok && unchanged(this)
      ensures !HasVoters(old(Live())) ==> Wrote(InstallSnapshot(EmptySnapshot(cs)), ok)
      ensures ok && !HasVoters(old(Live())) ==>
                && metaTree == old(metaTree).(conf := Some(cs)) && snapshotsTree == Some(Snapshot(0, 0, cs, []))
                && durable == Live()
    {
      if metaTree.conf.Some? && metaTree.conf.value.voters != [] { return true; }
      ok := ApplySnapshot(EmptySnapshot(cs));
    }

    method ReadFirstIndex() returns (index: u64)
      ensures index == FirstIndex(Live())
      ensures forall l | Represents(Live(), l) && l.base + 1 < U64_LIMIT :: index == l.base + 1
    {
      forall l | Represents(Live(), l) ensures l.base + 1 < U64_LIMIT ==> FirstIndex(Live()) == l.base + 1 {
        ReadsAgree(Live(), l);
      }
      if snapshotsTree.Some? { return Wrap64(snapshotsTree.value.index + 1); }
      if entriesTree == map[] { return 1; }
      return KeyToIndex(LexMin(entriesTree.Keys));
    }

    method ReadLastIndex() returns (index: u64)
      ensures index == LastIndex(Live())
      ensures forall l | Represents(Live(), l) :: index == l.Last()
    {
      forall l | Represents(Live(), l) ensures LastIndex(Live()) == l.Last() {
        ReadsAgree(Live(), l);
      }
      if entriesTree != map[] { return KeyToIndex(LexMax(entriesTree.Keys)); }
      if snapshotsTree.Some? { return snapshotsTree.value.index; }
      return 0;
    }

    method ReadTerm(index: u64) returns (r: TermResult)
      ensures r == TermOf(Live(), index)
      ensures forall l | Represents(Live(), l) ::
                r == if index < l.base then NoTerm(Compacted)
                     else if index == l.base && snapshotsTree.Some? then Term(l.baseTerm)
                     else if l.base < index <= l.Last() then Term(l.At(index).term)
                     else NoTerm(Unavailable)
    {
      forall l | Represents(Live(), l)
        ensures TermOf(Live(), index) == if index < l.base then NoTerm(Compacted)
                                         else if index == l.base && snapshotsTree.Some? then Term(l.baseTerm)
                                         else if l.base < index <= l.Last() then Term(l.At(index).term)
                                         else NoTerm(Unavailable)
      {
        ReadsAgree(Live(), l);
      }
      if snapshotsTree.Some? {
        if index == snapshotsTree.value.index { return Term(snapshotsTree.value.term); }
        if index < snapshotsTree.value.index { return NoTerm(Compacted); }
      }
      if IndexToKey(index) in entriesTree { return Term(entriesTree[IndexToKey(index)].term); }
      return NoTerm(Unavailable);
    }

    /** What a lagging follower is sent covers exactly the compacted prefix, whatever was asked
        for: a follower no further than that ends up with this log's base. */
    method ReadSnapshot(requestIndex: u64, to: u64) returns (s: Snapshot)
      ensures forall l | Represents(Live(), l) :: s.index == l.base && s.term == l.baseTerm
      ensures forall l | Represents(Live(), l) :: l.entries != [] ==> l.entries[0].index == s.index + 1
      ensures snapshotsTree.Some? ==> Some(s) == snapshotsTree && TermOf(Live(), s.index) == Term(s.term)
      ensures snapshotsTree.None? ==> s == EmptySnapshot(ConfState([]))
      ensures forall d, l, m | Represents(Live(), l) && Represents(d, m) && m.base <= s.index <= m.Last() ::
                Represents(Complete(d, InstallSnapshot(s)), Log(l.base, l.baseTerm, m.entries[s.index - m.base..]))
    {
      hide Represents, Complete, TermOf;
      s := if snapshotsTree.Some? then snapshotsTree.value else EmptySnapshot(ConfState([]));
      assert s == Served(Live());
      assert snapshotsTree.Some? ==> TermOf(Live(), s.index) == Term(s.term) by {
        RecordTerm(Live());
      }
      forall l | Represents(Live(), l)
        ensures s.index == l.base && s.term == l.baseTerm
        ensures l.entries != [] ==> l.entries[0].index == s.index + 1
      {
        ServedCoversBase(Live(), l);
      }
      forall d, l, m | Represents(Live(), l) && Represents(d, m) && m.base <= s.index <= m.Last()
        ensures Represents(Complete(d, InstallSnapshot(s)), Log(l.base, l.baseTerm, m.entries[s.index - m.base..]))
      {
        ServedInstalls(Live(), l, d, m);
      }
    }

    method ReadEntries(low: u64, high: u64, maxSize: Option<u64>) returns (r: ReadResult)
      ensures var max := if maxSize.Some? then maxSize.value else U64_LIMIT - 1;
              SizesFit(Live(), low, high, max) ==> IsRead(Live(), low, high, max, r)
      ensures r.Entries? ==>
                low + |r.entries| <= (if low < high then high else low)
                && RunPresent(Live(), low, |r.entries|) && r.entries == Run(Live(), low, |r.entries|)
      ensures var max := if maxSize.Some? then maxSize.value else U64_LIMIT - 1;
              SizesFit(Live(), low, high, max) && r.Entries? ==>
                && (|r.entries| >= 2 ==> |Records(r.entries)| <= max)
                && (low + |r.entries| < high && Present(Live(), low + |r.entries|) ==>
                      && r.entries != []
                      && |Records(r.entries + [Live().entries[IndexToKey(low + |r.entries|)]])| > max)
    {
      hide Collected, IsRead, SizesFit, Run, Records, EncodeEntry, EncodedLen, IndexToKey;
      var max := if maxSize.Some? then maxSize.value else U64_LIMIT - 1;
      var entries: seq<Entry> := [];
      var total: u64 := 0;
      ghost var d := Live();
      CollectNone(d, low, high, max);
      var index := low as int;
      while index < high
        invariant index == low + |entries|
        invariant Collected(d, low, high, max, entries, total)
      {
        if IndexToKey(index) in entriesTree {
          var entry := entriesTree[IndexToKey(index)];
          var sum := Wrap64(total + EncodedLen(entry));
          CollectNext(d, low, high, max, entries, total, sum);
          if sum > max && entries != [] { break; }
          total, entries, index := sum, entries + [entry], index + 1;
        } else {
          CollectedAll(d, low, high, max, entries, total);
          if snapshotsTree.Some? && index <= snapshotsTree.value.index {
            return ReadFailed(Compacted);
          }
          break;
        }
      }
      CollectedAll(d, low, high, max, entries, total);
      if SizesFit(d, low, high, max) {
        ReadWithinBound(d, low, high, max, Entries(entries));
      }
      return Entries(entries);
    }
  }
}
