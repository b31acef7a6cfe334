// The three persistent trees as values, the writes made to them, and the
// abstract log that raft-rs expects to find there.
module Disk {
  import opened Bytes
  import opened RaftTypes
  import opened Wrappers

  // ---- keys ----------------------------------------------------------------

  type Key = k: seq<byte> | |k| == 8 witness ToBE(0, 8)

  function IndexToKey(index: u64): Key {
    ToBE(index, 8)
  }

  function KeyToIndex(key: Key): u64 {
    Pow256Widths();
    FromBE(key)
  }

  lemma KeyRoundTrip(index: u64, key: Key)
    ensures KeyToIndex(IndexToKey(index)) == index
    ensures IndexToKey(KeyToIndex(key)) == key
  {
    Pow256Widths();
    FromToBE(index, 8);
    ToFromBE(key);
  }

  /** Byte order of keys is numeric order of indices. */
  lemma KeyOrder(i: u64, j: u64)
    ensures LexLess(IndexToKey(i), IndexToKey(j)) <==> i < j
    ensures IndexToKey(i) == IndexToKey(j) <==> i == j
  {
    KeyRoundTrip(i, IndexToKey(i));
    KeyRoundTrip(j, IndexToKey(j));
    BigEndianOrder(IndexToKey(i), IndexToKey(j));
  }

  lemma KeysDistinct()
    ensures forall i: u64 :: KeyToIndex(IndexToKey(i)) == i
    ensures forall k: Key :: IndexToKey(KeyToIndex(k)) == k
  {
    forall i: u64 ensures KeyToIndex(IndexToKey(i)) == i { KeyRoundTrip(i, IndexToKey(i)); }
    forall k: Key ensures IndexToKey(KeyToIndex(k)) == k { KeyRoundTrip(0, k); }
  }

  // ---- trees ---------------------------------------------------------------

  type EntryTree = map<Key, Entry>

  datatype Meta = Meta(hard: Option<HardState>, conf: Option<ConfState>, applied: Option<u64>)

  datatype Disk = Disk(meta: Meta, entries: EntryTree, snapshot: Option<Snapshot>)

  const FRESH := Disk(Meta(None, None, None), map[], None)

  function InsertAll(tree: EntryTree, es: seq<Entry>): EntryTree {
    if es == [] then tree
    else
      var last := es[|es| - 1];
      InsertAll(tree, es[..|es| - 1])[IndexToKey(last.index) := last]
  }

  /** The last entry with an index is the one stored under it. */
  lemma {:induction false} LastInserted(tree: EntryTree, es: seq<Entry>, j: nat)
    requires j < |es| && forall k | j < k < |es| :: es[k].index != es[j].index
    ensures IndexToKey(es[j].index) in InsertAll(tree, es) && InsertAll(tree, es)[IndexToKey(es[j].index)] == es[j]
  {
    hide IndexToKey;
    if j < |es| - 1 {
      DistinctKeys(es[j].index, es[|es| - 1].index);
      LastInserted(tree, es[..|es| - 1], j);
    }
  }

  /** Keys of no entry are left alone. */
  lemma {:induction false} OthersKept(tree: EntryTree, es: seq<Entry>, key: Key)
    requires forall e | e in es :: IndexToKey(e.index) != key
    ensures key in InsertAll(tree, es) <==> key in tree
    ensures key in tree ==> InsertAll(tree, es)[key] == tree[key]
  {
    hide IndexToKey;
    if es != [] {
      OthersKept(tree, es[..|es| - 1], key);
    }
  }

  lemma InsertAllWrites(tree: EntryTree, es: seq<Entry>)
    ensures forall j | 0 <= j < |es| && (forall k | j < k < |es| :: es[k].index != es[j].index) ::
              IndexToKey(es[j].index) in InsertAll(tree, es) && InsertAll(tree, es)[IndexToKey(es[j].index)] == es[j]
    ensures forall key: Key | (forall e | e in es :: IndexToKey(e.index) != key) ::
              (key in InsertAll(tree, es) <==> key in tree) && (key in tree ==> InsertAll(tree, es)[key] == tree[key])
  {
    hide *;
    forall j | 0 <= j < |es| && (forall k | j < k < |es| :: es[k].index != es[j].index)
      ensures IndexToKey(es[j].index) in InsertAll(tree, es) && InsertAll(tree, es)[IndexToKey(es[j].index)] == es[j]
    {
      LastInserted(tree, es, j);
    }
    forall key: Key | forall e | e in es :: IndexToKey(e.index) != key
      ensures key in InsertAll(tree, es) <==> key in tree
      ensures key in tree ==> InsertAll(tree, es)[key] == tree[key]
    {
      OthersKept(tree, es, key);
    }
  }

  lemma DistinctKeys(i: u64, j: u64)
    ensures IndexToKey(i) == IndexToKey(j) <==> i == j
  {
    KeyRoundTrip(i, IndexToKey(i));
    KeyRoundTrip(j, IndexToKey(j));
  }

  function RemoveThrough(tree: EntryTree, index: u64): EntryTree {
    map k | k in tree && KeyToIndex(k) > index :: tree[k]
  }

  /** The stored keys at or below `limit`, in the order of an iteration. */
  function KeysThrough(keys: set<Key>, limit: u64): (ks: seq<Key>)
    ensures forall k :: k in ks <==> k in keys && KeyToIndex(k) <= limit
    decreases |keys|
  {
    if keys == {} then []
    else
      var k: Key := LexMin(keys);
      (if KeyToIndex(k) <= limit then [k] else []) + KeysThrough(keys - {k}, limit)
  }

  lemma NoKeys(limit: u64)
    ensures KeysThrough({}, limit) == []
  {
  }

  /** Looking at the first unread key moves it over, or drops it. */
  lemma NextKey(read: seq<Key>, unread: set<Key>, limit: u64)
    requires unread != {}
    ensures var k: Key := LexMin(unread);
            read + KeysThrough(unread, limit)
            == (if KeyToIndex(k) <= limit then read + [k] else read) + KeysThrough(unread - {k}, limit)
  {
    hide KeyToIndex, LexLe, KeysThrough;
    FirstKey(unread, limit);
    var k: Key := LexMin(unread);
    MoveOver(read, k, KeysThrough(unread - {k}, limit));
  }

  lemma MoveOver(read: seq<Key>, k: Key, rest: seq<Key>)
    ensures read + ([k] + rest) == (read + [k]) + rest
  {
  }

  lemma FirstKey(keys: set<Key>, limit: u64)
    requires keys != {}
    ensures var k: Key := LexMin(keys);
            KeysThrough(keys, limit)
            == if KeyToIndex(k) <= limit then [k] + KeysThrough(keys - {k}, limit) else KeysThrough(keys - {k}, limit)
  {
    hide KeyToIndex, LexLess;
  }

  function RemoveKeys(tree: EntryTree, ks: seq<Key>): EntryTree {
    map k | k in tree && k !in ks :: tree[k]
  }

  lemma RemoveAllKeys(tree: EntryTree, limit: u64)
    ensures RemoveKeys(tree, KeysThrough(tree.Keys, limit)) == RemoveThrough(tree, limit)
  {
    hide KeyToIndex;
  }

  lemma RemoveThroughKeeps(tree: EntryTree, index: u64)
    ensures forall k :: k in RemoveThrough(tree, index) <==> k in tree && KeyToIndex(k) > index
    ensures forall k | k in RemoveThrough(tree, index) :: RemoveThrough(tree, index)[k] == tree[k]
  {
    hide KeyToIndex;
  }

  function Append(d: Disk, es: seq<Entry>): Disk {
    d.(entries := InsertAll(d.entries, es))
  }

  function RecordSnapshot(d: Disk, s: Snapshot): Disk {
    d.(snapshot := Some(s))
  }

  function SetConf(d: Disk, cs: ConfState): Disk {
    d.(meta := d.meta.(conf := Some(cs)))
  }

  function SetHard(d: Disk, hs: HardState): Disk {
    d.(meta := d.meta.(hard := Some(hs)))
  }

  function SetApplied(d: Disk, index: u64): Disk {
    d.(meta := d.meta.(applied := Some(index)))
  }

  function ApplySnapshot(d: Disk, s: Snapshot): Disk {
    var recorded := SetConf(RecordSnapshot(d, s), s.conf);
    recorded.(entries := RemoveThrough(d.entries, s.index))
  }

  function AppliedOf(d: Disk): u64 {
    if d.meta.applied.Some? then d.meta.applied.value else 0
  }

  predicate HasVoters(d: Disk) {
    d.meta.conf.Some? && d.meta.conf.value.voters != []
  }

  /** Carries the initial configuration into a new storage. */
  function EmptySnapshot(cs: ConfState): Snapshot {
    Snapshot(0, 0, cs, [])
  }

  // ---- writes and their interruption ---------------------------------------

  datatype Write =
    | StoreEntries(entries: seq<Entry>)
    | InstallSnapshot(snapshot: Snapshot)
    | StoreHard(hard: HardState)
    | StoreConf(conf: ConfState)
    | StoreApplied(index: u64)

  function Complete(d: Disk, w: Write): Disk {
    match w
    case StoreEntries(es) => Append(d, es)
    case InstallSnapshot(s) => ApplySnapshot(d, s)
    case StoreHard(hs) => SetHard(d, hs)
    case StoreConf(cs) => SetConf(d, cs)
    case StoreApplied(index) => SetApplied(d, index)
  }

  /** The removals a snapshot makes after its record and its configuration. */
  function Covered(d: Disk, s: Snapshot): seq<Key> {
    KeysThrough(d.entries.Keys, s.index)
  }

  /** What the trees hold when a write fails after `done` of its inserts and removals. */
  function Interrupted(d: Disk, w: Write, done: nat): Disk {
    match w
    case StoreEntries(es) => Append(d, Take(es, done))
    case InstallSnapshot(s) =>
      if done == 0 then d
      else if done == 1 then RecordSnapshot(d, s)
      else SetConf(RecordSnapshot(d, s), s.conf).(entries := RemoveKeys(d.entries, Take(Covered(d, s), done - 2)))
    case _ => if done == 0 then d else Complete(d, w)
  }

  /** What was flushed by then: a snapshot flushes its three trees one after the other. */
  function Flushed(d: Disk, w: Write, done: nat): Disk {
    match w
    case InstallSnapshot(s) =>
      if done <= 2 + |Covered(d, s)| then d
      else if done == 3 + |Covered(d, s)| then RecordSnapshot(d, s)
      else SetConf(RecordSnapshot(d, s), s.conf)
    case _ => d
  }

  /** A snapshot write that fails after its last removal has changed the trees completely. */
  lemma AllRemoved(d: Disk, s: Snapshot, done: nat)
    requires done >= 2 + |Covered(d, s)|
    ensures Interrupted(d, InstallSnapshot(s), done) == ApplySnapshot(d, s)
  {
    hide KeysThrough, RemoveKeys, RemoveThrough;
    RemoveAllKeys(d.entries, s.index);
  }

  // ---- what storage reports ------------------------------------------------

  datatype StorageError = Compacted | Unavailable
  datatype TermResult = Term(term: u64) | NoTerm(error: StorageError)

  function Base(d: Disk): u64 {
    if d.snapshot.Some? then d.snapshot.value.index else 0
  }

  function FirstIndex(d: Disk): u64 {
    if d.snapshot.Some? then Wrap64(d.snapshot.value.index + 1)
    else if d.entries == map[] then 1
    else KeyToIndex(LexMin(d.entries.Keys))
  }

  function LastIndex(d: Disk): u64 {
    if d.entries == map[] then Base(d) else KeyToIndex(LexMax(d.entries.Keys))
  }

  function TermOf(d: Disk, index: u64): TermResult {
    if d.snapshot.Some? && index == d.snapshot.value.index then Term(d.snapshot.value.term)
    else if d.snapshot.Some? && index < d.snapshot.value.index then NoTerm(Compacted)
    else if IndexToKey(index) in d.entries then Term(d.entries[IndexToKey(index)].term)
    else NoTerm(Unavailable)
  }

  // ---- the abstract log ----------------------------------------------------

  /** Entries base+1, base+2, ... after a compacted prefix that ended at `base`. */
  datatype Log = Log(base: u64, baseTerm: u64, entries: seq<Entry>) {
    function Last(): nat { base + |entries| }

    function At(index: nat): Entry
      requires base < index <= Last()
    {
      entries[index - base - 1]
    }

    /** Writes `es` over the positions from `first` on and keeps what lies past them. */
    function Overwrite(first: nat, es: seq<Entry>): Log
      requires base < first <= Last() + 1
    {
      var k := first - base - 1;
      var past := if k + |es| < |entries| then entries[k + |es|..] else [];
      Log(base, baseTerm, entries[..k] + es + past)
    }

    /** What Raft asks of an append: nothing stays after the new entries. */
    function Replace(first: nat, es: seq<Entry>): Log
      requires base < first <= Last() + 1
    {
      Log(base, baseTerm, entries[..first - base - 1] + es)
    }

    /** Drops everything up to and including the snapshot. */
    function Compact(s: Snapshot): Log
      requires base <= s.index
    {
      Log(s.index, s.term, if s.index - base < |entries| then entries[s.index - base..] else [])
    }

    /** The position the snapshot ends at is in the log, with the snapshot's term. */
    predicate Matches(s: Snapshot) {
      base <= s.index <= Last() && s.term == if s.index == base then baseTerm else At(s.index).term
    }

    /** What Raft asks of a snapshot: entries after it stay only if it matches the log. */
    function Install(s: Snapshot): Log {
      if Matches(s) then Compact(s) else Log(s.index, s.term, [])
    }
  }

  predicate Present(d: Disk, index: u64) {
    IndexToKey(index) in d.entries
  }

  /** The same log and hard state, whatever the configuration and the applied index. */
  predicate SameLog(d: Disk, d': Disk) {
    d'.entries == d.entries && d'.snapshot == d.snapshot && d'.meta.hard == d.meta.hard
  }

  /** The trees hold exactly the log: no gaps, nothing at or below the base. */
  ghost predicate Represents(d: Disk, l: Log) {
    && l.base == Base(d)
    && l.baseTerm == (if d.snapshot.Some? then d.snapshot.value.term else 0)
    && l.Last() < U64_LIMIT
    && (forall i: u64 :: Present(d, i) <==> l.base < i <= l.Last())
    && (forall i: u64 | Present(d, i) :: d.entries[IndexToKey(i)] == l.At(i) && l.At(i).index == i)
  }

  // ---- refinement ----------------------------------------------------------

  lemma LastIsMax(d: Disk, last: u64)
    requires Present(d, last) && forall i: u64 :: Present(d, i) ==> i <= last
    ensures LastIndex(d) == last
  {
    KeysDistinct();
    var m: Key := LexMax(d.entries.Keys);
    KeyOrder(KeyToIndex(m), last);
    LexAsymmetric(m, IndexToKey(last));
    assert Present(d, KeyToIndex(m));
    assert LexLe(IndexToKey(last), m);
  }

  lemma FirstIsMin(d: Disk, first: u64)
    requires d.snapshot.None? && Present(d, first) && forall i: u64 :: Present(d, i) ==> first <= i
    ensures FirstIndex(d) == first
  {
    KeysDistinct();
    var m: Key := LexMin(d.entries.Keys);
    KeyOrder(first, KeyToIndex(m));
    LexAsymmetric(m, IndexToKey(first));
    assert Present(d, KeyToIndex(m));
    assert LexLe(m, IndexToKey(first));
  }

  lemma SomePresent(d: Disk)
    requires d.entries != map[]
    ensures exists i: u64 :: Present(d, i)
  {
    KeysDistinct();
    var k :| k in d.entries;
    assert Present(d, KeyToIndex(k));
  }

  /** Every read agrees with the log; position `base` has a term only through a snapshot record. */
  lemma ReadsAgree(d: Disk, l: Log)
    requires Represents(d, l)
    ensures Base(d) == l.base && LastIndex(d) == l.Last()
    ensures l.base + 1 < U64_LIMIT ==> FirstIndex(d) == l.base + 1
    ensures forall i: u64 ::
              TermOf(d, i) == if i < l.base then NoTerm(Compacted)
                              else if i == l.base && d.snapshot.Some? then Term(l.baseTerm)
                              else if l.base < i <= l.Last() then Term(l.At(i).term)
                              else NoTerm(Unavailable)
  {
    hide IndexToKey, KeyToIndex;
    if l.entries == [] {
      if d.entries != map[] {
        SomePresent(d);
      }
    } else {
      assert Present(d, l.Last());
      LastIsMax(d, l.Last());
      if d.snapshot.None? {
        assert Present(d, l.base + 1);
        FirstIsMin(d, l.base + 1);
      }
    }
    forall i: u64 ensures
      TermOf(d, i) == if i < l.base then NoTerm(Compacted)
                      else if i == l.base && d.snapshot.Some? then Term(l.baseTerm)
                      else if l.base < i <= l.Last() then Term(l.At(i).term)
                      else NoTerm(Unavailable)
    {
      assert Present(d, i) <==> l.base < i <= l.Last();
    }
  }

  /** The trees determine the log. */
  lemma LogUnique(d: Disk, l: Log, m: Log)
    requires Represents(d, l) && Represents(d, m)
    ensures l == m
  {
    hide IndexToKey, KeyToIndex;
    ReadsAgree(d, l);
    ReadsAgree(d, m);
    forall j | 0 <= j < |l.entries|
      ensures l.entries[j] == m.entries[j]
    {
      assert Present(d, l.base + 1 + j);
    }
  }

  /** Only the entries and the snapshot record matter. */
  lemma SameEntriesRepresent(d: Disk, d': Disk, l: Log)
    requires Represents(d, l) && d'.entries == d.entries && d'.snapshot == d.snapshot
    ensures Represents(d', l)
  {
    hide IndexToKey;
    assert forall i: u64 :: Present(d', i) == Present(d, i);
  }

  lemma FreshRepresents()
    ensures Represents(FRESH, Log(0, 0, []))
  {
  }

  /** Which index holds what after a batch of consecutive inserts. */
  lemma {:induction false} InsertAllContents(tree: EntryTree, es: seq<Entry>, first: nat)
    requires Contiguous(es, first)
    ensures forall i: u64 ::
              IndexToKey(i) in InsertAll(tree, es) <==> IndexToKey(i) in tree || first <= i < first + |es|
    ensures forall i: u64 | IndexToKey(i) in InsertAll(tree, es) ::
              InsertAll(tree, es)[IndexToKey(i)]
              == if first <= i < first + |es| then es[i - first] else tree[IndexToKey(i)]
  {
    hide IndexToKey, KeyToIndex;
    if es != [] {
      KeysDistinct();
      InsertAllContents(tree, es[..|es| - 1], first);
    }
  }

  lemma RemoveThroughContents(tree: EntryTree, index: u64)
    ensures forall i: u64 :: IndexToKey(i) in RemoveThrough(tree, index) <==> IndexToKey(i) in tree && i > index
    ensures forall k | k in RemoveThrough(tree, index) :: RemoveThrough(tree, index)[k] == tree[k]
  {
    KeysDistinct();
  }

  lemma AppendHolds(d: Disk, l: Log, first: nat, es: seq<Entry>, i: u64)
    requires Represents(d, l) && Contiguous(es, first)
    requires l.base < first <= l.Last() + 1
    ensures var d', l' := Append(d, es), l.Overwrite(first, es);
            && (Present(d', i) <==> l'.base < i <= l'.Last())
            && (Present(d', i) ==> d'.entries[IndexToKey(i)] == l'.At(i) && l'.At(i).index == i)
  {
    InsertAllContents(d.entries, es, first);
    hide IndexToKey, KeyToIndex, InsertAll;
    assert Present(d, i) <==> l.base < i <= l.Last();
  }

  /** An append that starts inside the log or right after it overwrites a range of it. */
  lemma AppendRefines(d: Disk, l: Log, first: nat, es: seq<Entry>)
    requires Represents(d, l) && Contiguous(es, first)
    requires l.base < first <= l.Last() + 1
    ensures Represents(Append(d, es), l.Overwrite(first, es))
    ensures LastIndex(Append(d, es)) >= LastIndex(d)
  {
    hide IndexToKey, KeyToIndex, InsertAll, LastIndex, FirstIndex, TermOf;
    var d', l' := Append(d, es), l.Overwrite(first, es);
    assert es != [] ==> es[|es| - 1].index == first + |es| - 1;
    forall i: u64
      ensures Present(d', i) <==> l'.base < i <= l'.Last()
      ensures Present(d', i) ==> d'.entries[IndexToKey(i)] == l'.At(i) && l'.At(i).index == i
    {
      AppendHolds(d, l, first, es, i);
    }
    assert Represents(d', l');
    hide Represents;
    ReadsAgree(d, l);
    ReadsAgree(d', l');
  }

  lemma SnapshotHolds(d: Disk, l: Log, s: Snapshot, i: u64)
    requires Represents(d, l) && l.base <= s.index
    ensures var d', l' := ApplySnapshot(d, s), l.Compact(s);
            && (Present(d', i) <==> l'.base < i <= l'.Last())
            && (Present(d', i) ==> d'.entries[IndexToKey(i)] == l'.At(i) && l'.At(i).index == i)
  {
    KeyRoundTrip(i, IndexToKey(i));
    hide IndexToKey, KeyToIndex;
    assert Present(d, i) <==> l.base < i <= l.Last();
  }

  /** A snapshot at or above the base drops exactly the prefix it covers. */
  lemma SnapshotRefines(d: Disk, l: Log, s: Snapshot)
    requires Represents(d, l) && l.base <= s.index
    ensures Represents(ApplySnapshot(d, s), l.Compact(s))
    ensures LastIndex(ApplySnapshot(d, s)) >= LastIndex(d)
  {
    hide IndexToKey, KeyToIndex, RemoveThrough, LastIndex, FirstIndex, TermOf;
    var d', l' := ApplySnapshot(d, s), l.Compact(s);
    forall i: u64
      ensures Present(d', i) <==> l'.base < i <= l'.Last()
      ensures Present(d', i) ==> d'.entries[IndexToKey(i)] == l'.At(i) && l'.At(i).index == i
    {
      SnapshotHolds(d, l, s, i);
    }
    assert Represents(d', l');
    hide Represents, ApplySnapshot;
    ReadsAgree(d, l);
    ReadsAgree(d', l');
  }

  /** What a lagging follower is sent: the latest snapshot, or an empty one. */
  function Served(d: Disk): Snapshot {
    if d.snapshot.Some? then d.snapshot.value else EmptySnapshot(ConfState([]))
  }

  lemma RecordTerm(d: Disk)
    ensures d.snapshot.Some? ==> TermOf(d, Served(d).index) == Term(Served(d).term)
  {
  }

  /** It covers exactly the compacted prefix. */
  lemma ServedCoversBase(d: Disk, l: Log)
    requires Represents(d, l)
    ensures Served(d).index == l.base && Served(d).term == l.baseTerm
    ensures l.entries != [] ==> l.entries[0].index == Served(d).index + 1
  {
    hide IndexToKey;
    if l.entries != [] {
      assert Present(d, l.base + 1);
    }
  }

  /** A follower whose log reaches it ends up with the same base. */
  lemma ServedInstalls(d: Disk, l: Log, follower: Disk, m: Log)
    requires Represents(d, l) && Represents(follower, m) && m.base <= Served(d).index <= m.Last()
    ensures Represents(Complete(follower, InstallSnapshot(Served(d))),
                       Log(l.base, l.baseTerm, m.entries[Served(d).index - m.base..]))
  {
    hide Represents, ApplySnapshot, TermOf, LastIndex, IndexToKey;
    ServedCoversBase(d, l);
    SnapshotRefines(follower, m, Served(d));
    CompactWithin(m, Served(d));
  }

  lemma CompactWithin(l: Log, s: Snapshot)
    requires l.base <= s.index <= l.Last()
    ensures l.Compact(s) == Log(s.index, s.term, l.entries[s.index - l.base..])
  {
  }

  // ---- where the code is weaker than Raft ------------------------------------

  /** Append gives the log Raft requires exactly when the batch reaches the old last index. */
  lemma AppendTruncatesIff(d: Disk, l: Log, first: nat, es: seq<Entry>)
    requires Represents(d, l) && Contiguous(es, first)
    requires l.base < first <= l.Last() + 1
    ensures Represents(Append(d, es), l.Replace(first, es)) <==> first + |es| > LastIndex(d)
    ensures first + |es| <= l.Last() ==>
              l.Overwrite(first, es).entries
              == l.Replace(first, es).entries + l.entries[first + |es| - l.base - 1..]
  {
    hide IndexToKey, KeyToIndex;
    ReadsAgree(d, l);
    AppendRefines(d, l, first, es);
    if first + |es| > l.Last() {
      assert l.Overwrite(first, es) == l.Replace(first, es);
    } else if Represents(Append(d, es), l.Replace(first, es)) {
      LogUnique(Append(d, es), l.Overwrite(first, es), l.Replace(first, es));
    }
  }

  /** A snapshot gives the log Raft requires exactly when it matches the log or reaches its end. */
  lemma SnapshotTruncatesIff(d: Disk, l: Log, s: Snapshot)
    requires Represents(d, l) && l.base <= s.index
    ensures Represents(ApplySnapshot(d, s), l.Install(s)) <==> l.Matches(s) || s.index >= LastIndex(d)
  {
    ReadsAgree(d, l);
    SnapshotRefines(d, l, s);
    hide Represents, LastIndex, ApplySnapshot;
    if Represents(ApplySnapshot(d, s), l.Install(s)) {
      LogUnique(ApplySnapshot(d, s), l.Compact(s), l.Install(s));
    }
  }

  /** Trees with a gap above the base, or an entry at or below it, hold no log. */
  lemma NoLog(d: Disk, present: u64, absent: u64)
    requires Present(d, present)
    requires present <= Base(d) || (Base(d) < absent < present && !Present(d, absent))
    ensures !exists m :: Represents(d, m)
  {
    forall m ensures !Represents(d, m) {
      assert Represents(d, m) ==> Present(d, absent) || !(m.base < absent <= m.Last());
    }
  }

  /** A non-empty append leaves a log behind exactly when it starts above the base and leaves no gap. */
  lemma AppendKeepsLogIff(d: Disk, l: Log, first: u64, es: seq<Entry>)
    requires Represents(d, l) && Contiguous(es, first) && es != []
    ensures (exists m :: Represents(Append(d, es), m)) <==> l.base < first <= l.Last() + 1
  {
    if l.base < first <= l.Last() + 1 {
      AppendRefines(d, l, first, es);
    } else {
      InsertAllContents(d.entries, es, first);
      assert Present(Append(d, es), first);
      if first > l.base {
        assert !Present(d, first - 1);
        NoLog(Append(d, es), first, first - 1);
      } else {
        NoLog(Append(d, es), first, 0);
      }
    }
  }

  /** A snapshot leaves a log behind exactly when it does not go backwards or no entry is stored. */
  lemma SnapshotKeepsLogIff(d: Disk, l: Log, s: Snapshot)
    requires Represents(d, l)
    ensures (exists m :: Represents(ApplySnapshot(d, s), m)) <==> l.base <= s.index || l.entries == []
  {
    var d' := ApplySnapshot(d, s);
    RemoveThroughContents(d.entries, s.index);
    if l.base <= s.index {
      SnapshotRefines(d, l, s);
    } else if l.entries == [] {
      forall i: u64 ensures !Present(d', i) {
        assert Present(d, i) <==> l.base < i <= l.Last();
      }
      assert Represents(d', Log(s.index, s.term, []));
    } else {
      assert Present(d, l.Last()) && !Present(d, s.index + 1);
      NoLog(d', l.Last(), s.index + 1);
    }
  }

  lemma {:induction false} KeysAscend(keys: set<Key>, limit: u64)
    ensures forall i, j | 0 <= i < j < |KeysThrough(keys, limit)| ::
              LexLess(KeysThrough(keys, limit)[i], KeysThrough(keys, limit)[j])
    decreases |keys|
  {
    hide LexLess, KeyToIndex;
    if keys != {} {
      var k: Key := LexMin(keys);
      var others := KeysThrough(keys - {k}, limit);
      KeysAscend(keys - {k}, limit);
      forall j | 0 <= j < |others|
        ensures LexLess(k, others[j])
      {
        assert others[j] in others;
        assert LexLe(k, others[j]);
      }
    }
  }

  /** Removals go upwards: as long as one is missing, the last entry is still there. */
  lemma LastRemains(d: Disk, last: u64, limit: u64, count: nat)
    requires Present(d, last) && forall i: u64 :: Present(d, i) ==> i <= last
    requires count < |KeysThrough(d.entries.Keys, limit)|
    ensures IndexToKey(last) !in Take(KeysThrough(d.entries.Keys, limit), count)
  {
    KeysDistinct();
    KeysAscend(d.entries.Keys, limit);
    hide IndexToKey, KeyToIndex, KeysThrough, LexLess;
    var ks := KeysThrough(d.entries.Keys, limit);
    var key, top := IndexToKey(last), ks[|ks| - 1];
    if key in ks[..count] {
      var j :| 0 <= j < count && ks[j] == key;
      assert top in ks;
      assert Present(d, KeyToIndex(top));
      KeyOrder(last, KeyToIndex(top));
    }
  }

  /** After a snapshot write that fails anywhere past its record, first and last index are
      consistent exactly when the old log reached the snapshot, was empty, or every removal was made. */
  lemma InterruptedSnapshotIff(d: Disk, l: Log, s: Snapshot, done: nat)
    requires Represents(d, l) && s.index + 1 < U64_LIMIT && done >= 1
    ensures var d' := Interrupted(d, InstallSnapshot(s), done);
            FirstIndex(d') <= LastIndex(d') + 1
            <==> s.index <= l.Last() || l.entries == [] || done >= 2 + |Covered(d, s)|
  {
    hide IndexToKey, KeyToIndex, KeysThrough;
    var d' := Interrupted(d, InstallSnapshot(s), done);
    var ks := Covered(d, s);
    if l.entries == [] {
      if d.entries != map[] {
        SomePresent(d);
      }
    } else {
      assert Present(d, l.Last());
      if done < 2 + |ks| {
        if done >= 2 {
          LastRemains(d, l.Last(), s.index, done - 2);
        }
        RemainingLast(d, d', l.Last());
      } else {
        AllRemoved(d, s, done);
        RemoveThroughContents(d.entries, s.index);
        if s.index < l.Last() {
          RemainingLast(d, d', l.Last());
        } else if d'.entries != map[] {
          SomePresent(d');
        }
      }
    }
  }

  lemma RemainingLast(d: Disk, d': Disk, last: u64)
    requires forall i: u64 :: Present(d, i) ==> i <= last
    requires d'.entries.Keys <= d.entries.Keys && Present(d', last)
    ensures LastIndex(d') == last
  {
    hide IndexToKey, KeyToIndex, LastIndex;
    assert forall i: u64 :: Present(d', i) ==> Present(d, i);
    LastIsMax(d', last);
  }
}
