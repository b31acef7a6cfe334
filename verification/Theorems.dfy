// What the node guarantees in every reachable state.
module Theorems {
  import opened Bincode
  import opened Bytes
  import opened Disk
  import opened Invariants
  import opened KvCommand
  import opened Licensing
  import opened RaftTypes
  import opened RangeRead
  import opened Replicas
  import opened Runs
  import opened StateMachine
  import opened Terminal
  import opened Utf8
  import opened World
  import opened Wrappers
  import SnapshotCodec

  // ---- the state machine ---------------------------------------------------------

  /** The map is the fold of the committed entries consumed since its origin, however they
      were split over rounds and whatever crashed in between; no command changes it. */
  lemma MapIsFold(w: World, s: Sys)
    requires Sound(w) && Reachable(w, s)
    ensures s.rep.Origin() <= s.rep.position <= |w.log|
    ensures s.rep.kv == Fold(map[], w.log[s.rep.Origin()..s.rep.position])
    ensures forall cmd, env :: Handle(s.rep, cmd, env).kv == s.rep.kv
  {
    hide Reachable, Sound;
    ReachableInv(w, s);
    hide Handle;
    forall cmd, env ensures Handle(s.rep, cmd, env).kv == s.rep.kv {
      HandleKeepsMap(s.rep, cmd, env);
    }
  }

  lemma HandleKeepsMap(n: Replica, cmd: ServerCommand, env: CommandEnv)
    ensures Handle(n, cmd, env).kv == n.kv
  {
    hide Handle;
    var us := HandleFrame(n, cmd, env);
  }

  /** Without snapshots the map is the fold of all the entries up to the position, wherever the
      node crashed before and whatever applied index it had persisted. */
  lemma MapFromScratch(w: World, s: Sys)
    requires Sound(w) && !w.snapshots && Reachable(w, s)
    ensures s.rep.position <= |w.log| && s.rep.kv == MapAt(w, s.rep.position)
  {
    hide Reachable, Sound, Fold;
    ReachableInv(w, s);
    assert w.log[0..s.rep.position] == w.log[..s.rep.position];
  }

  /** Any two such runs that consumed equally many entries have the same map. */
  lemma CrashRecovery(w: World, s: Sys, t: Sys)
    requires Sound(w) && !w.snapshots && Reachable(w, s) && Reachable(w, t)
    requires s.rep.position == t.rep.position
    ensures s.rep.kv == t.rep.kv
  {
    hide Reachable, Sound;
    MapFromScratch(w, s);
    MapFromScratch(w, t);
  }

  /** At any crash point the disk holds a snapshot that decodes to the map of its index and the
      committed entries from there to the durable commit index, so loading the one and replaying
      the others would rebuild the map of every position in between. */
  lemma DurableReplay(w: World, s: Sys, p: u64)
    requires Sound(w) && Reachable(w, s) && Base(s.rep.disk) <= p <= CommitOf(s.rep.disk)
    ensures p <= |w.log|
    ensures RunPresent(s.rep.disk, Base(s.rep.disk) + 1, p - Base(s.rep.disk))
    ensures Run(s.rep.disk, Base(s.rep.disk) + 1, p - Base(s.rep.disk)) == w.log[Base(s.rep.disk)..p]
    ensures s.rep.disk.snapshot.Some?
            && var stored := SnapshotCodec.Decode(s.rep.disk.snapshot.value.data);
               && stored.Ok?
               && Fold(stored.value, Run(s.rep.disk, Base(s.rep.disk) + 1, p - Base(s.rep.disk))) == MapAt(w, p)
    ensures !w.snapshots ==> Fold(map[], Run(s.rep.disk, Base(s.rep.disk) + 1, p - Base(s.rep.disk))) == MapAt(w, p)
  {
    hide Reachable, Fold, MapAt, SysInv;
    ReachableInv(w, s);
    StorageOf(w, s);
    hide Sound, Represents, LastIndex, ReplayBase;
    CommittedRun(w, s.rep.disk, p);
    hide Run, RunPresent, HoldsCommitted;
    ReplayFrom(w, Base(s.rep.disk), p);
  }

  /** Going on from the map of one position gives the map of a later one. */
  lemma ReplayFrom(w: World, base: nat, p: nat)
    requires base <= p <= |w.log|
    ensures Fold(MapAt(w, base), w.log[base..p]) == MapAt(w, p)
    ensures base == 0 ==> Fold(map[], w.log[base..p]) == MapAt(w, p)
  {
    hide Fold;
    assert w.log[..p] == w.log[..base] + w.log[base..p];
    FoldConcat(map[], w.log[..base], w.log[base..p]);
    assert w.log[0..p] == w.log[..p];
  }

  lemma StorageOf(w: World, s: Sys)
    requires Sound(w) && SysInv(w, s)
    ensures var d := s.rep.disk;
            && CommitOf(d) <= |w.log| && Base(d) + 1 < U64_LIMIT && HoldsCommitted(w, d, CommitOf(d))
            && Base(d) <= |w.log| && (!w.snapshots ==> Base(d) == 0)
            && d.snapshot.Some? && HasMap(w, d.snapshot.value)
            && HasVoters(d) && CommitOf(d) <= LastIndex(d) && ReplayBase(d) == Base(d)
            && exists l :: Represents(d, l)
  {
    hide Represents, HoldsCommitted, CallInv, Fold, LastIndex, HasMap, MapInv, MirrorInv, ProgressInv, SendInv, PastInv;
  }

  lemma CommittedRun(w: World, d: Disk, p: u64)
    requires CommitOf(d) <= |w.log| < U64_LIMIT && Base(d) + 1 < U64_LIMIT
    requires HoldsCommitted(w, d, CommitOf(d)) && Base(d) <= p <= CommitOf(d)
    ensures RunPresent(d, Base(d) + 1, p - Base(d))
    ensures Run(d, Base(d) + 1, p - Base(d)) == w.log[Base(d)..p]
  {
    hide IndexToKey;
    var low, n := Base(d) + 1, p - Base(d);
    assert forall i: u64 | low <= i < low + n :: Present(d, i);
    var run := Run(d, low, n);
    forall j | 0 <= j < n ensures run[j] == w.log[Base(d)..p][j] {
      var i: u64 := low + j;
      assert Present(d, i);
    }
  }

  /** After a restart above a snapshot the map is the right one exactly when every key put
      in the part that is not replayed has been put again since. */
  lemma RestartedMapIff(w: World, s: Sys)
    requires Sound(w) && Reachable(w, s)
    ensures s.rep.Origin() <= s.rep.position <= |w.log|
    ensures s.rep.kv == MapAt(w, s.rep.position)
            <==> forall key | PutSomewhere(w.log[..s.rep.Origin()], key) ::
                   PutSomewhere(w.log[s.rep.Origin()..s.rep.position], key)
  {
    hide Reachable, Sound, Fold;
    ReachableInv(w, s);
    var before, after := w.log[..s.rep.Origin()], w.log[s.rep.Origin()..s.rep.position];
    assert before + after == w.log[..s.rep.position];
    SuffixFoldIff(before, after);
  }

  /** Right after a restart the map is right exactly when nothing was ever put up to the snapshot. */
  lemma RestartLosesSnapshotIff(w: World, s: Sys, peers: ConfState, fuel: nat, written: nat)
    requires Sound(w) && Reachable(w, s) && Legal(w, s, RestartEvent(peers, fuel, written))
    ensures Base(s.rep.disk) <= |w.log|
    ensures var t := Step(s, RestartEvent(peers, fuel, written));
            && t.rep.position == Base(s.rep.disk)
            && (t.rep.kv == MapAt(w, t.rep.position)
                <==> forall i | 0 <= i < Base(s.rep.disk) :: PutIn(w.log[i]).None?)
  {
    hide Reachable, Fold, SysInv, PutIn;
    ReachableInv(w, s);
    StorageOf(w, s);
    hide Legal, Step;
    Restarted(w, s, peers, fuel, written);
    var base := Base(s.rep.disk);
    hide Sound, Represents, HasMap, LastIndex, ReplayBase, Base;
    FoldEmptyIff(w.log[..base]);
    assert forall i | 0 <= i < base :: w.log[..base][i] == w.log[i];
  }

  /** Two replicas of one log, each started without a snapshot or having received one since:
      the map further on is the other one with the entries in between applied. */
  lemma ReplicasAgree(w: World, s: Sys, v: World, t: Sys)
    requires Sound(w) && Sound(v) && w.log <= v.log
    requires Reachable(w, s) && Reachable(v, t)
    requires s.rep.Origin() == 0 && t.rep.Origin() == 0 && s.rep.position <= t.rep.position
    ensures t.rep.position <= |v.log|
    ensures t.rep.kv == Fold(s.rep.kv, v.log[s.rep.position..t.rep.position])
    ensures s.rep.position == t.rep.position ==> s.rep.kv == t.rep.kv
  {
    hide Reachable, Sound, Fold;
    ReachableInv(w, s);
    ReachableInv(v, t);
    var a, b := w.log[0..s.rep.position], v.log[s.rep.position..t.rep.position];
    assert a + b == v.log[0..t.rep.position];
    FoldConcat(map[], a, b);
    FoldNone(s.rep.kv);
  }

  lemma FoldNone(m: KvMap)
    ensures Fold(m, []) == m
  {
  }

  // ---- durability --------------------------------------------------------------------

  /** Whatever waited for storage was sent when its snapshot, entries and hard state were
      all on disk, on every path including the failing ones. */
  lemma PersistBeforeReply(w: World, s: Sys)
    requires Sound(w) && Reachable(w, s)
    ensures forall j | 0 <= j < |s.rep.sends| && !s.rep.sends[j].phase.Immediate? ::
              OnDisk(s.rep.sends[j].disk, s.rep.sends[j].ready)
  {
    hide Reachable, Sound;
    ReachableInv(w, s);
  }

  /** At every crash point the durable commit index lies in the durable log, so that only a
      commit index below the snapshot can keep the node from starting again. */
  lemma CommitRecoverable(w: World, s: Sys)
    requires Sound(w) && Reachable(w, s)
    ensures CommitOf(s.rep.disk) <= LastIndex(s.rep.disk)
    ensures exists l :: Represents(s.rep.disk, l)
    ensures CanStart(s.rep.disk)
            <==> s.rep.disk.meta.hard.None? || s.rep.disk.meta.hard.value == DEFAULT_HARD_STATE
                 || Base(s.rep.disk) <= CommitOf(s.rep.disk)
    ensures !w.snapshots ==> CanStart(s.rep.disk)
  {
    hide Reachable, SysInv;
    ReachableInv(w, s);
    StorageOf(w, s);
    hide Sound, Represents, HasMap, ReplayBase, LastIndex;
  }

  lemma {:induction false} SendCount(phase: Phase, messages: seq<Message>, r: Ready)
    ensures |SendActions(phase, messages, r)| == |messages|
  {
    if messages != [] {
      SendCount(phase, messages[..|messages| - 1], r);
    }
  }

  /** The state of a round that crashes right after its snapshot is stored. */
  lemma CrashAfterInstall(w: World, s: Sys, r: Ready, l: LightReady, view: RaftView, conf: ConfResults)
    requires Sound(w) && Legal(w, s, RoundEvent(r, l, view, conf, |r.messages| + 1))
    requires r.snapshot.Some? && s.rep.fuel > 0
    ensures Step(s, RoundEvent(r, l, view, conf, |r.messages| + 1)).rep.disk
            == ApplySnapshot(s.rep.disk, r.snapshot.value)
  {
    hide Sound, ReadyOk, Perform, ApplyActions;
    var sends := SendActions(Immediate, r.messages, r);
    var install := Persist(InstallSnapshot(r.snapshot.value));
    var acts := RoundActions(r, l, view, conf);
    SendCount(Immediate, r.messages, r);
    assert StoreActions(r)[0] == install;
    assert acts[..|r.messages| + 1] == sends + [install];
    PerformConcat(s.rep, sends, [install]);
    SendsLicensed(w, s.rep, Immediate, r.messages, r);
    PerformOne(Perform(s.rep, sends), install);
  }

  /** A crash between storing a snapshot and storing the hard state leaves a node that can
      start again exactly when the snapshot is not ahead of the stored commit index. */
  lemma SnapshotCrashIff(w: World, s: Sys, r: Ready, l: LightReady, view: RaftView, conf: ConfResults)
    requires Sound(w) && Reachable(w, s) && Legal(w, s, RoundEvent(r, l, view, conf, |r.messages| + 1))
    requires r.snapshot.Some? && s.rep.fuel > 0
    ensures var d := Step(s, RoundEvent(r, l, view, conf, |r.messages| + 1)).rep.disk;
            CanStart(d) <==> s.rep.disk.meta.hard.None? || s.rep.disk.meta.hard.value == DEFAULT_HARD_STATE
                             || r.snapshot.value.index <= CommitOf(s.rep.disk)
  {
    hide Reachable, Step, SysInv, Legal, CanStart;
    var ev := RoundEvent(r, l, view, conf, |r.messages| + 1);
    CrashAfterInstall(w, s, r, l, view, conf);
    ReachableInv(w, s);
    StepKeepsInv(w, s, ev);
    ReachableStep(w, s, ev);
    CommitRecoverable(w, Step(s, ev));
    hide Sound;
  }

  // ---- callers ------------------------------------------------------------------------

  /** Every reply the node ever gave. */
  function AllReplies(s: Sys): seq<Reply> {
    s.past.replies + s.rep.replies
  }

  /** Of the callers a process received, each is waiting or was answered once, never both, and
      nobody else is answered. Over all processes of the node each caller is waiting, was
      answered once, or was still waiting when its process ended: exactly one of these. */
  lemma CallsConserved(w: World, s: Sys)
    requires Sound(w) && Reachable(w, s)
    ensures forall id | id in s.issued :: Answers(s.rep.replies, id) == if Registered(s.rep, id) then 0 else 1
    ensures forall id | id !in s.issued :: !Registered(s.rep, id) && Answers(s.rep.replies, id) == 0
    ensures forall id | id in s.issued + s.past.issued ::
              Answers(AllReplies(s), id)
              + (if Registered(s.rep, id) then 1 else 0) + (if id in s.past.dropped then 1 else 0) == 1
    ensures forall id | id !in s.issued + s.past.issued :: Answers(AllReplies(s), id) == 0 && id !in s.past.dropped
  {
    hide Reachable, Sound, SysInv;
    ReachableInv(w, s);
    CallersOf(w, s);
    forall id ensures Answers(AllReplies(s), id) == Answers(s.past.replies, id) + Answers(s.rep.replies, id) {
      AnswersConcat(s.past.replies, s.rep.replies, id);
    }
  }

  lemma CallersOf(w: World, s: Sys)
    requires Sound(w) && SysInv(w, s)
    ensures CallInv(w, s.rep, s.issued) && PastInv(w, s)
  {
    hide CallInv, PastInv;
  }

  /** A Put answered with success is a committed entry already applied, and every later Get
      that the same process answers returns its value or that of a later committed Put of the
      key. */
  lemma ReadYourWrites(w: World, s: Sys, context: Context, k: nat, resp: ReplyId, env: CommandEnv)
    requires Sound(w) && Reachable(w, s)
    requires context in w.calls && k < |s.rep.replies|
    requires s.rep.replies[k] == PutReply(w.calls[context].id, Accepted)
    ensures var put := w.calls[context].put;
            exists i, j ::
              && 0 <= i <= j < s.rep.position <= |w.log|
              && w.log[i].context == context && PutIn(w.log[i]) == Some(put)
              && Puts(w.log[j], put.key)
              && Handle(s.rep, RpcGet(put.key, resp), env).replies
                 == s.rep.replies + [GetReply(resp, Some(PutIn(w.log[j]).value.value))]
  {
    hide Reachable, PutIn, Inv;
    ReachableInv(w, s);
    var put := w.calls[context].put;
    var i := AppliedEntryOf(w, s, context, k);
    assert Puts(w.log[i], put.key);
    var j := LastReflected(w, s.rep, put.key, i);
    hide Sound;
    assert Lookup(s.rep.kv, put.key) == Some(PutIn(w.log[j]).value.value);
  }

  lemma AppliedEntryOf(w: World, s: Sys, context: Context, k: nat) returns (i: nat)
    requires Sound(w) && SysInv(w, s) && context in w.calls && k < |s.rep.replies|
    requires s.rep.replies[k] == PutReply(w.calls[context].id, Accepted)
    ensures MapInv(w, s.rep)
    ensures s.rep.Origin() <= i < s.rep.position && i < |w.log|
    ensures w.log[i].context == context && PutIn(w.log[i]) == Some(w.calls[context].put)
  {
    hide StorageInv, MapInv;
    var n := s.rep;
    var id := w.calls[context].id;
    assert CallApplied(w, n, id);
    i :| n.Origin() <= i < n.position && i < |w.log| && CarriesCall(w, w.log[i], id);
    PutCommandRoundTrip(w.calls[context].put);
  }

  /** Some process of the node answered the Put with success. */
  predicate Acknowledged(w: World, s: Sys, context: Context) {
    context in w.calls && PutReply(w.calls[context].id, Accepted) in AllReplies(s)
  }

  /** A Get of the key returns the value of the last Put of it that the map reflects, and that
      one is at or after log position `i`. */
  ghost predicate Sees(w: World, n: Replica, key: Str, i: nat, resp: ReplyId, env: CommandEnv) {
    exists j: nat ::
      && i <= j < n.position && j < |w.log| && Puts(w.log[j], key)
      && (forall k | j < k < n.position && k < |w.log| :: !Puts(w.log[k], key))
      && Handle(n, RpcGet(key, resp), env).replies
         == n.replies + [GetReply(resp, Some(PutIn(w.log[j]).value.value))]
  }

  /** Whatever crashed and restarted since a Put was acknowledged: it is committed at some log
      position, and a Get sees it or a later Put of its key exactly when the part of the log that
      the map is built from reaches one of them. Without snapshots that is when the position has
      passed the entry. */
  lemma AcknowledgedVisibleIff(w: World, s: Sys, context: Context, resp: ReplyId, env: CommandEnv) returns (i: nat)
    requires Sound(w) && Reachable(w, s) && Acknowledged(w, s, context)
    ensures i < |w.log| && w.log[i].context == context && PutIn(w.log[i]) == Some(w.calls[context].put)
    ensures var key := w.calls[context].put.key;
            Sees(w, s.rep, key, i, resp, env)
            <==> exists j :: i <= j && s.rep.Origin() <= j < s.rep.position && j < |w.log| && Puts(w.log[j], key)
    ensures !w.snapshots ==> (Sees(w, s.rep, w.calls[context].put.key, i, resp, env) <==> i < s.rep.position)
  {
    hide Reachable, SysInv, PutIn, Sees, Handle;
    var n, key := s.rep, w.calls[context].put.key;
    ReachableInv(w, s);
    i := CommittedEntryOf(w, s, context);
    MapOf(w, s);
    hide Sound;
    SeesIff(w, n, key, i, resp, env);
    if i < n.position {
      assert Puts(w.log[i], key);
    }
  }

  lemma MapOf(w: World, s: Sys)
    requires Sound(w) && SysInv(w, s)
    ensures MapInv(w, s.rep)
  {
    hide MapInv;
  }

  lemma SeesIff(w: World, n: Replica, key: Str, i: nat, resp: ReplyId, env: CommandEnv)
    requires MapInv(w, n)
    ensures Sees(w, n, key, i, resp, env)
            <==> exists j :: i <= j && n.Origin() <= j < n.position && j < |w.log| && Puts(w.log[j], key)
  {
    hide PutIn, Puts, Fold, Sees;
    if j :| i <= j && n.Origin() <= j < n.position && j < |w.log| && Puts(w.log[j], key) {
      ReachedSeen(w, n, key, i, j, resp, env);
    } else if Sees(w, n, key, i, resp, env) {
      SeenReached(w, n, key, i, resp, env);
    }
  }

  lemma ReachedSeen(w: World, n: Replica, key: Str, i: nat, j: nat, resp: ReplyId, env: CommandEnv)
    requires MapInv(w, n) && i <= j && n.Origin() <= j < n.position && Puts(w.log[j], key)
    ensures Sees(w, n, key, i, resp, env)
  {
    hide PutIn, Fold;
    var k := LastReflected(w, n, key, j);
    hide MapInv;
    assert Lookup(n.kv, key) == Some(PutIn(w.log[k]).value.value);
  }

  /** The map holds the value of the last Put of the key that it reflects. */
  lemma LastReflected(w: World, n: Replica, key: Str, j: nat) returns (k: nat)
    requires MapInv(w, n) && n.Origin() <= j < n.position && Puts(w.log[j], key)
    ensures j <= k < n.position <= |w.log| && Puts(w.log[k], key)
    ensures forall m | k < m < n.position :: !Puts(w.log[m], key)
    ensures key in n.kv && n.kv[key] == PutIn(w.log[k]).value.value
  {
    hide PutIn, Fold;
    var es := w.log[n.Origin()..n.position];
    assert Puts(es[j - n.Origin()], key);
    FoldLookup(map[], es, key);
    var last :| IsLastPut(es, key, last) && key in n.kv && n.kv[key] == PutIn(es[last]).value.value;
    k := n.Origin() + last;
    hide MapInv, PutSomewhere;
    NoneAfter(w, n, key, es, last);
    hide Puts;
    assert j - n.Origin() <= last;
  }

  lemma NoneAfter(w: World, n: Replica, key: Str, es: seq<Entry>, last: int)
    requires n.Origin() <= n.position <= |w.log| && es == w.log[n.Origin()..n.position] && IsLastPut(es, key, last)
    ensures forall m | n.Origin() + last < m < n.position :: !Puts(w.log[m], key)
  {
    hide Puts;
    forall m | n.Origin() + last < m < n.position ensures !Puts(w.log[m], key) {
      assert !Puts(es[m - n.Origin()], key);
    }
  }

  lemma SeenReached(w: World, n: Replica, key: Str, i: nat, resp: ReplyId, env: CommandEnv)
    requires MapInv(w, n) && Sees(w, n, key, i, resp, env)
    ensures exists j :: i <= j && n.Origin() <= j < n.position && j < |w.log| && Puts(w.log[j], key)
  {
    hide PutIn, Fold, MapInv;
    var j: nat :|
      && i <= j < n.position && j < |w.log| && Puts(w.log[j], key)
      && (forall k | j < k < n.position && k < |w.log| :: !Puts(w.log[k], key))
      && Handle(n, RpcGet(key, resp), env).replies
         == n.replies + [GetReply(resp, Some(PutIn(w.log[j]).value.value))];
    var got := GetReply(resp, Some(PutIn(w.log[j]).value.value));
    assert (n.replies + [GetReply(resp, Lookup(n.kv, key))])[|n.replies|] == got;
    assert key in n.kv;
    hide Handle, Puts;
    var k := PutBehindKey(w, n, key);
    assert k <= j;
  }

  /** Every key of the map was put by an entry that the map reflects. */
  lemma PutBehindKey(w: World, n: Replica, key: Str) returns (k: nat)
    requires MapInv(w, n) && key in n.kv
    ensures n.Origin() <= k < n.position <= |w.log| && Puts(w.log[k], key)
  {
    hide PutIn, Fold, Puts;
    var es := w.log[n.Origin()..n.position];
    FoldLookup(map[], es, key);
    var j :| 0 <= j < |es| && Puts(es[j], key);
    k := n.Origin() + j;
  }

  lemma CommittedCall(w: World, s: Sys, context: Context)
    requires Sound(w) && SysInv(w, s) && Acknowledged(w, s, context)
    ensures CallCommitted(w, w.calls[context].id)
  {
    CallersOf(w, s);
    hide SysInv, Answers, Registered, Sound;
    var r := PutReply(w.calls[context].id, Accepted);
    if r !in s.past.replies {
      assert CallApplied(w, s.rep, r.id);
    }
  }

  lemma CommittedEntryOf(w: World, s: Sys, context: Context) returns (i: nat)
    requires Sound(w) && SysInv(w, s) && Acknowledged(w, s, context)
    ensures i < |w.log| && w.log[i].context == context && PutIn(w.log[i]) == Some(w.calls[context].put)
  {
    hide SysInv;
    CommittedCall(w, s, context);
    var id := w.calls[context].id;
    i :| 0 <= i < |w.log| && CarriesCall(w, w.log[i], id);
    PutCommandRoundTrip(w.calls[context].put);
  }

  // ---- the terminal ---------------------------------------------------------------------

  /** Until a snapshot replaces the map, the screen catches up with it: after any part of the
      update queue, the rest of the queue leads to the node's map. */
  lemma TerminalMirror(w: World, s: Sys, c: nat)
    requires Sound(w) && Reachable(w, s) && !s.rep.restored && c <= |s.rep.updates|
    ensures Shown(Shown(map[], s.rep.updates[..c]), s.rep.updates[c..]) == s.rep.kv
    ensures !w.snapshots ==> !s.rep.restored
  {
    hide Reachable, SysInv;
    ReachableInv(w, s);
    MapOf(w, s);
    ScreenOf(w, s);
    hide Sound;
    ShownConcat(map[], s.rep.updates[..c], s.rep.updates[c..]);
    assert s.rep.updates[..c] + s.rep.updates[c..] == s.rep.updates;
  }

  lemma ScreenOf(w: World, s: Sys)
    requires Sound(w) && SysInv(w, s) && !s.rep.restored
    ensures Shown(map[], s.rep.updates) == s.rep.kv
  {
    MapOf(w, s);
    MirrorOf(w, s);
    hide SysInv, Sound, Fold, Shown;
    var none: KvMap := map[];
    assert s.rep.updates[0..] == s.rep.updates;
    assert Shown(none, s.rep.updates[s.rep.mark..]) == Fold(none, w.log[s.rep.since..s.rep.position]);
  }

  /** The map as it was last replaced as a whole: by a snapshot, or empty at the start. */
  function ReplacedBy(w: World, n: Replica): KvMap
    requires n.since <= |w.log|
  {
    if n.restored then MapAt(w, n.since) else map[]
  }

  /** In every reachable state the screen, once it has caught up with the queue, is right exactly
      when every key on which it differed from the map when a snapshot last replaced the map has
      been put again since. */
  lemma ScreenRightIff(w: World, s: Sys)
    requires Sound(w) && Reachable(w, s)
    ensures var n := s.rep;
            && n.since <= n.position <= |w.log| && n.mark <= |n.updates| && (!n.restored ==> n.mark == 0)
            && (Shown(map[], n.updates) == n.kv
                <==> forall key | Lookup(Shown(map[], n.updates[..n.mark]), key) != Lookup(ReplacedBy(w, n), key) ::
                       PutSomewhere(w.log[n.since..n.position], key))
  {
    hide Reachable, SysInv;
    ReachableInv(w, s);
    MapOf(w, s);
    MirrorOf(w, s);
    hide Sound, Fold, Shown, PutSomewhere, Lookup;
    var n := s.rep;
    ScreenFold(w, n);
    SameFoldIff(Shown(map[], n.updates[..n.mark]), ReplacedBy(w, n), w.log[n.since..n.position]);
    hide ReplacedBy;
  }

  /** The screen and the map went through the same entries since the map was last replaced. */
  lemma ScreenFold(w: World, n: Replica)
    requires MapInv(w, n) && MirrorInv(w, n)
    ensures Shown(map[], n.updates) == Fold(Shown(map[], n.updates[..n.mark]), w.log[n.since..n.position])
    ensures n.kv == Fold(ReplacedBy(w, n), w.log[n.since..n.position])
  {
    hide Fold, Shown;
    var before, es := Shown(map[], n.updates[..n.mark]), w.log[n.since..n.position];
    ShownConcat(map[], n.updates[..n.mark], n.updates[n.mark..]);
    assert n.updates[..n.mark] + n.updates[n.mark..] == n.updates;
    assert Shown(before, n.updates[n.mark..]) == Fold(before, es);
    assert w.log[..n.since] + es == w.log[0..n.position];
    FoldConcat(map[], w.log[..n.since], es);
  }

  lemma MirrorOf(w: World, s: Sys)
    requires Sound(w) && SysInv(w, s)
    ensures MirrorInv(w, s.rep)
  {
    hide MirrorInv;
  }

  /** A restored snapshot leaves the screen right exactly when it does not change the map. */
  lemma RestoreShownIff(w: World, s: Sys, snap: Snapshot)
    requires Sound(w) && Reachable(w, s) && !s.rep.restored && !s.rep.stopped
    requires Enabled(w, s.rep, Restore(snap))
    ensures var n := Do(s.rep, Restore(snap));
            Shown(map[], n.updates) == n.kv <==> s.rep.kv == MapAt(w, snap.index)
  {
    hide Reachable, SysInv, Shown;
    ReachableInv(w, s);
    ScreenOf(w, s);
    RestoreMap(w, s.rep, snap);
    hide Do, Enabled;
  }
}
