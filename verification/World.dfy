// The environment of one node: what raft-rs and the disk may do in a run, and
// when each effect of the ready loop is therefore in order.
module World {
  import opened Bincode
  import opened Bytes
  import opened Disk
  import opened KvCommand
  import opened RaftTypes
  import opened Replicas
  import opened StateMachine
  import SnapshotCodec

  /** A client's Put and the caller waiting for it. */
  datatype Call = Call(id: ReplyId, put: Put)

  /** The committed log as far as the run gets, the Puts proposed through this node by
      callback id, and whether any snapshot is received in the run. */
  datatype World = World(log: seq<Entry>, calls: map<Context, Call>, snapshots: bool)

  /** Raft commits proposals as they were made; callback ids and callers are unique. */
  ghost predicate Sound(w: World) {
    && |w.log| + 1 < U64_LIMIT
    && Contiguous(w.log, 1)
    && (forall i | 0 <= i < |w.log| && w.log[i].context in w.calls ::
          w.log[i].kind.EntryNormal? && w.log[i].data == EncodePutCommand(w.calls[w.log[i].context].put))
    && (forall c | c in w.calls :: Encodable(w.calls[c].put))
    && (forall c, d | c in w.calls && d in w.calls && w.calls[c].id == w.calls[d].id :: c == d)
  }

  function CommitOf(d: Disk): u64 {
    if d.meta.hard.Some? then d.meta.hard.value.commit else 0
  }

  /** The stored entries above the base up to `commit` are the committed ones. */
  ghost predicate HoldsCommitted(w: World, d: Disk, commit: nat)
    requires commit <= |w.log| < U64_LIMIT
  {
    forall i: u64 | Base(d) < i <= commit :: Present(d, i) && d.entries[IndexToKey(i)] == w.log[i - 1]
  }

  /** The map a correct replica has after `index` committed entries. */
  function MapAt(w: World, index: nat): KvMap
    requires index <= |w.log|
  {
    Fold(map[], w.log[..index])
  }

  lemma MapAtSize(w: World, index: nat)
    requires Sound(w) && index <= |w.log|
    ensures |MapAt(w, index)| < U64_LIMIT
  {
    FoldSize(map[], w.log[..index]);
  }

  /** If the snapshot cannot be stored, it leaves nothing or everything in the trees. */
  predicate SnapshotAtomic(n: Replica, s: Snapshot) {
    n.fuel > 0 || n.written == 0 || n.written >= 2 + |Covered(n.disk, s)|
  }

  /** A snapshot sent by a correct replica, not older than what the node has. */
  ghost predicate SnapshotInOrder(w: World, n: Replica, s: Snapshot) {
    && w.snapshots && SnapshotAtomic(n, s)
    && Base(n.disk) <= s.index && n.position <= s.index <= |w.log|
    && s.conf.voters != []
    && CarriesMap(w, s)
  }

  ghost predicate CarriesMap(w: World, s: Snapshot) {
    s.index <= |w.log|
    && |MapAt(w, s.index)| < U64_LIMIT && s.data == SnapshotCodec.Encode(MapAt(w, s.index))
  }

  /** New entries start inside the log or right after it and keep what is committed. */
  ghost predicate EntriesInOrder(w: World, d: Disk, es: seq<Entry>)
    requires |w.log| < U64_LIMIT
  {
    && es != [] && Contiguous(es, es[0].index)
    && Base(d) < es[0].index <= LastIndex(d) + 1
    && (forall e | e in es && e.index <= CommitOf(d) :: e.index <= |w.log| && e == w.log[e.index - 1])
  }

  /** The commit index does not go back, is stored, and commits the right entries. */
  ghost predicate HardInOrder(w: World, d: Disk, hs: HardState)
    requires |w.log| < U64_LIMIT
  {
    && CommitOf(d) <= hs.commit <= |w.log|
    && hs.commit <= LastIndex(d)
    && HoldsCommitted(w, d, hs.commit)
  }

  /** Everything the Ready asked to persist is on disk. */
  ghost predicate OnDisk(d: Disk, r: Ready) {
    && (r.snapshot.Some? ==> d.snapshot == r.snapshot)
    && (forall e | e in r.entries :: Present(d, e.index) && d.entries[IndexToKey(e.index)] == e)
    && (r.hardState.Some? ==> d.meta.hard == r.hardState)
  }

  /** The effect is in order in this state. */
  ghost predicate Enabled(w: World, n: Replica, a: Action)
    requires Sound(w)
  {
    n.stopped ||
    match a
    case Send(phase, _, r) => phase.Immediate? || OnDisk(n.disk, r)
    case Persist(StoreEntries(es)) => EntriesInOrder(w, n.disk, es)
    case Persist(InstallSnapshot(s)) => SnapshotInOrder(w, n, s)
    case Persist(StoreHard(hs)) => HardInOrder(w, n.disk, hs)
    case Persist(StoreConf(cs)) => cs.voters != []
    case Persist(StoreApplied(index)) => index == n.position
    case Restore(s) => w.snapshots && n.position <= s.index <= |w.log| && CarriesMap(w, s)
    case Announce(_) => true
    case Deliver(e) => n.position < |w.log| && e == w.log[n.position] && e.data != [] && e.kind.EntryNormal?
    case Pass(e, _) => n.position < |w.log| && e == w.log[n.position] && (e.data == [] || !e.kind.EntryNormal?)
    case ShowState(_) => true
  }

  /** Each effect of the list is in order when it is reached. */
  ghost predicate Licensed(w: World, n: Replica, acts: seq<Action>)
    requires Sound(w)
  {
    acts == [] ||
    (Licensed(w, n, acts[..|acts| - 1])
     && Enabled(w, Perform(n, acts[..|acts| - 1]), acts[|acts| - 1]))
  }

  lemma {:induction false} LicensedConcat(w: World, n: Replica, a: seq<Action>, b: seq<Action>)
    requires Sound(w)
    ensures Licensed(w, n, a + b) <==> Licensed(w, n, a) && Licensed(w, Perform(n, a), b)
  {
    hide Enabled, Do, Sound;
    if b == [] {
      assert a + b == a;
    } else {
      var front := b[..|b| - 1];
      LicensedConcat(w, n, a, front);
      PerformConcat(n, a, front);
      assert (a + b)[..|a + b| - 1] == a + front;
    }
  }

  // ---- what raft-rs promises about a Ready -------------------------------------

  function DiskAfterSnapshot(n: Replica, r: Ready): Disk {
    if r.snapshot.Some? then ApplySnapshot(n.disk, r.snapshot.value) else n.disk
  }

  function DiskAfterEntries(n: Replica, r: Ready): Disk {
    Append(DiskAfterSnapshot(n, r), r.entries)
  }

  function PositionAfterSnapshot(n: Replica, r: Ready): nat {
    if r.snapshot.Some? then r.snapshot.value.index else n.position
  }

  /** Committed entries are handed over in order, from where the last ones ended. */
  predicate DeliversFrom(w: World, position: nat, es: seq<Entry>) {
    position + |es| <= |w.log| && es == w.log[position..position + |es|]
  }

  ghost predicate ReadyOk(w: World, n: Replica, r: Ready, l: LightReady, conf: ConfResults)
    requires Sound(w)
  {
    && (r.snapshot.Some? ==> SnapshotInOrder(w, n, r.snapshot.value) && r.snapshot.value.index > 0)
    && (r.entries != [] ==> EntriesInOrder(w, DiskAfterSnapshot(n, r), r.entries))
    && (r.hardState.Some? ==> HardInOrder(w, DiskAfterEntries(n, r), r.hardState.value))
    && DeliversFrom(w, PositionAfterSnapshot(n, r), r.committed)
    && DeliversFrom(w, PositionAfterSnapshot(n, r) + |r.committed|, l.committed)
    && (forall i | i in conf :: conf[i].voters != [])
  }
}
