// One node as a value, and a round of the ready loop as the ordered list of
// effects it performs. Storage failures cut the list short.
module Replicas {
  import opened Bincode
  import opened Bytes
  import opened Disk
  import opened KvCommand
  import opened Node
  import opened RaftTypes
  import opened StateMachine
  import opened Utf8
  import opened Wrappers
  import SnapshotCodec

  type Context = seq<byte>
  type ReplyId = nat

  datatype PutOutcome = Accepted | NotLeader(leader: u64) | ApplyFailed

  datatype Reply = PutReply(id: ReplyId, outcome: PutOutcome) | GetReply(id: ReplyId, value: Option<Str>)

  /** System messages before they are formatted as text. */
  datatype Note =
    | SnapshotApplied(index: u64, term: u64)
    | LeaderElected(leader: u64, term: u64)
    | LeaderChanged(before: u64, leader: u64, term: u64)
    | Proposed(put: Put)
    | WritesGoToLeader(leader: u64)
    | ProposeFailed
    | CampaignStarted
    | StatusReport(view: RaftView, applied: u64)
    | ReadOnly(output: NodeOutput)

  datatype StateUpdate =
    | RaftState(view: RaftView, applied: u64)
    | KvUpdate(put: Put)
    | LogEntry(index: u64, term: u64, put: Put)
    | SystemMessage(note: Note)

  datatype Phase = Immediate | Persisted | Light

  /** A message handed to the transport, with what was durable at that moment. */
  datatype Sent = Sent(phase: Phase, message: Message, ready: Ready, disk: Disk)

  datatype Replica = Replica(
    disk: Disk,
    applied: u64,
    fuel: nat,
    written: nat,
    kv: KvMap,
    callbacks: map<Context, ReplyId>,
    replies: seq<Reply>,
    updates: seq<StateUpdate>,
    sends: seq<Sent>,
    previousLeader: Option<u64>,
    // history of the process: entries consumed; the position and the number of updates when
    // the map was last replaced as a whole, and whether a snapshot did that; configuration
    // changes that failed; entries handed to the map; the applied index as loaded, then
    // every value written to it
    position: nat,
    since: nat,
    mark: nat,
    restored: bool,
    refused: set<nat>,
    delivered: set<nat>,
    trace: seq<u64>,
    // an error ended the loop
    stopped: bool)
  {
    /** The map is the fold of the committed entries from here to the position. */
    function Origin(): nat { if restored then 0 else since }
  }

  datatype Action =
    | Send(phase: Phase, message: Message, ready: Ready)
    | Persist(write: Write)
    | Restore(snapshot: Snapshot)
    | Announce(snapshot: Snapshot)
    | Deliver(entry: Entry)
    | Pass(entry: Entry, failed: bool)
    | ShowState(view: RaftView)

  // ---- effects ---------------------------------------------------------------

  function DoPersist(n: Replica, w: Write): Replica {
    var n' := if w.StoreApplied? then n.(applied := w.index, trace := n.trace + [w.index]) else n;
    if n.fuel == 0 then n'.(disk := Interrupted(n.disk, w, n.written), stopped := true)
    else n'.(disk := Complete(n.disk, w), fuel := n.fuel - 1)
  }

  function DoRestore(n: Replica, s: Snapshot): Replica {
    match SnapshotCodec.Decode(s.data)
    case Err => n.(stopped := true)
    case Ok(m) => n.(kv := m, position := s.index, since := s.index, mark := |n.updates|, restored := true)
  }

  /** Answers and forgets the callback registered under `context`, if there is one. */
  function Answer(n: Replica, context: Context, outcome: PutOutcome): Replica {
    if context in n.callbacks then
      n.(callbacks := n.callbacks - {context}, replies := n.replies + [PutReply(n.callbacks[context], outcome)])
    else n
  }

  function DoDeliver(n: Replica, e: Entry): Replica {
    var n' := n.(position := e.index, delivered := n.delivered + {e.index});
    match DecodeCommand(e.data)
    case Err => Answer(n', e.context, ApplyFailed)
    case Ok(None) => n'
    case Ok(Some(p)) =>
      Answer(n'.(kv := Assign(n.kv, p), updates := n.updates + [KvUpdate(p), LogEntry(e.index, e.term, p)]),
             e.context, Accepted)
  }

  lemma AnswerFrame(n: Replica, context: Context, outcome: PutOutcome)
    ensures var n' := Answer(n, context, outcome);
            && n' == n.(callbacks := n'.callbacks, replies := n'.replies)
            && n.replies <= n'.replies
            && n'.callbacks == n.callbacks - {context}
  {
    if context !in n.callbacks {
      assert n.callbacks - {context} == n.callbacks;
    }
  }

  /** Delivering an entry touches neither the disk, the transport nor the stop flag. */
  lemma DeliverFrame(n: Replica, e: Entry)
    requires !n.stopped
    ensures var n' := Do(n, Deliver(e));
            && n'.disk == n.disk && n'.sends == n.sends && !n'.stopped && n'.position == e.index
            && n'.since == n.since && n'.restored == n.restored && n'.applied == n.applied && n'.refused == n.refused
            && n'.mark == n.mark && n'.trace == n.trace && n'.delivered == n.delivered + {e.index}
            && n.replies <= n'.replies && n'.fuel == n.fuel && n'.previousLeader == n.previousLeader
  {
    hide DecodeCommand, Assign, Answer;
    var n1 := n.(position := e.index, delivered := n.delivered + {e.index});
    match DecodeCommand(e.data) {
      case Err => AnswerFrame(n1, e.context, ApplyFailed);
      case Ok(None) =>
      case Ok(Some(p)) =>
        var us := n.updates + [KvUpdate(p), LogEntry(e.index, e.term, p)];
        AnswerFrame(n1.(kv := Assign(n.kv, p), updates := us), e.context, Accepted);
    }
  }

  function LeadershipNotes(before: Option<u64>, view: RaftView): seq<StateUpdate> {
    if before.None? || before.value == view.leaderId || view.leaderId == 0 then []
    else if before.value == 0 then [SystemMessage(LeaderElected(view.leaderId, view.term))]
    else [SystemMessage(LeaderChanged(before.value, view.leaderId, view.term))]
  }

  function DoShowState(n: Replica, view: RaftView): Replica {
    n.(updates := n.updates + LeadershipNotes(n.previousLeader, view) + [RaftState(view, n.applied)],
       previousLeader := Some(view.leaderId))
  }

  function Do(n: Replica, a: Action): Replica {
    if n.stopped then n
    else
      match a
      case Send(phase, m, r) => n.(sends := n.sends + [Sent(phase, m, r, n.disk)])
      case Persist(w) => DoPersist(n, w)
      case Restore(s) => DoRestore(n, s)
      case Announce(s) => n.(updates := n.updates + [SystemMessage(SnapshotApplied(s.index, s.term))])
      case Deliver(e) => DoDeliver(n, e)
      case Pass(e, failed) => n.(position := e.index, refused := if failed then n.refused + {e.index} else n.refused)
      case ShowState(view) => DoShowState(n, view)
  }

  function Perform(n: Replica, acts: seq<Action>): Replica {
    if acts == [] then n else Do(Perform(n, acts[..|acts| - 1]), acts[|acts| - 1])
  }

  lemma {:induction false} PerformConcat(n: Replica, a: seq<Action>, b: seq<Action>)
    ensures Perform(n, a + b) == Perform(Perform(n, a), b)
  {
    if b == [] {
      assert a + b == a;
    } else {
      PerformConcat(n, a, b[..|b| - 1]);
      assert (a + b)[..|a + b| - 1] == a + b[..|b| - 1];
    }
  }

  lemma {:induction false} PerformStopped(n: Replica, acts: seq<Action>)
    requires n.stopped
    ensures Perform(n, acts) == n
  {
    if acts != [] {
      PerformStopped(n, acts[..|acts| - 1]);
    }
  }

  lemma PerformNone(n: Replica)
    ensures Perform(n, []) == n
  {
  }

  lemma PerformOne(n: Replica, a: Action)
    ensures Perform(n, [a]) == Do(n, a)
  {
    assert Perform(n, []) == n;
  }

  lemma PerformPair(n: Replica, a: Action, b: Action)
    ensures Perform(n, [a, b]) == Do(Do(n, a), b)
  {
    PerformOne(n, a);
    assert [a, b][..1] == [a];
  }

  lemma PerformTriple(n: Replica, a: Action, b: Action, c: Action)
    ensures Perform(n, [a, b, c]) == Do(Do(Do(n, a), b), c)
  {
    PerformPair(n, a, b);
    assert [a, b, c][..2] == [a, b];
  }

  /** Once stopped, the rest of a list has no effect. */
  lemma PerformCut(n: Replica, done: seq<Action>, rest: seq<Action>)
    requires Perform(n, done).stopped
    ensures Perform(n, done + rest) == Perform(n, done)
  {
    PerformConcat(n, done, rest);
    PerformStopped(Perform(n, done), rest);
  }

  // ---- a round of the ready loop ---------------------------------------------

  function SendActions(phase: Phase, messages: seq<Message>, r: Ready): seq<Action> {
    if messages == [] then []
    else SendActions(phase, messages[..|messages| - 1], r) + [Send(phase, messages[|messages| - 1], r)]
  }

  function SnapshotActions(s: Snapshot): seq<Action> {
    [Persist(InstallSnapshot(s)), Restore(s), Persist(StoreApplied(s.index)), Announce(s)]
  }

  lemma PerformSnapshot(n: Replica, s: Snapshot)
    ensures Perform(n, SnapshotActions(s))
            == Do(Do(Do(Do(n, Persist(InstallSnapshot(s))), Restore(s)), Persist(StoreApplied(s.index))), Announce(s))
  {
    hide Do;
    var front := [Persist(InstallSnapshot(s)), Restore(s), Persist(StoreApplied(s.index))];
    PerformTriple(n, front[0], front[1], front[2]);
    PerformConcat(n, front, [Announce(s)]);
    PerformOne(Perform(n, front), Announce(s));
    assert SnapshotActions(s) == front + [Announce(s)];
  }

  /** What raft-rs answers to each configuration change that decodes and applies, by index. */
  type ConfResults = map<u64, ConfState>

  function EntryActions(e: Entry, conf: ConfResults): seq<Action> {
    if e.data == [] then [Pass(e, false)]
    else if e.kind.EntryNormal? then [Deliver(e), Persist(StoreApplied(e.index))]
    else if e.index in conf then
      [Pass(e, false), Persist(StoreConf(conf[e.index])), Persist(StoreApplied(e.index))]
    else [Pass(e, true)]
  }

  function ApplyActions(es: seq<Entry>, conf: ConfResults): seq<Action> {
    if es == [] then []
    else ApplyActions(es[..|es| - 1], conf) + EntryActions(es[|es| - 1], conf)
  }

  /** Snapshot, then entries, then hard state. */
  function StoreActions(r: Ready): seq<Action> {
    (if r.snapshot.Some? then SnapshotActions(r.snapshot.value) else [])
    + (if r.entries != [] then [Persist(StoreEntries(r.entries))] else [])
    + (if r.hardState.Some? then [Persist(StoreHard(r.hardState.value))] else [])
  }

  function RoundActions(r: Ready, l: LightReady, view: RaftView, conf: ConfResults): seq<Action> {
    SendActions(Immediate, r.messages, r)
    + StoreActions(r)
    + SendActions(Persisted, r.persistedMessages, r)
    + ApplyActions(r.committed, conf)
    + [ShowState(view)]
    + SendActions(Light, l.messages, r)
    + ApplyActions(l.committed, conf)
  }

  // ---- commands ----------------------------------------------------------------

  datatype ServerCommand =
    | User(command: UserCommand)
    | RpcPut(put: Put, resp: ReplyId)
    | RpcGet(key: Str, resp: ReplyId)

  datatype ProposeResult = ProposeOk | ProposalDropped | ProposeError

  /** What the command handler learns from outside: raft-rs's state, a fresh
      callback id, and the outcome of a raw propose or campaign. */
  datatype CommandEnv = CommandEnv(view: RaftView, callbackId: Context, propose: ProposeResult, campaignOk: bool)

  function Say(n: Replica, note: Note): Replica {
    n.(updates := n.updates + [SystemMessage(note)])
  }

  function HandleRpcPut(n: Replica, resp: ReplyId, env: CommandEnv): Replica {
    if !env.view.leader then n.(replies := n.replies + [PutReply(resp, NotLeader(env.view.leaderId))])
    else n.(callbacks := n.callbacks[env.callbackId := resp])
  }

  function UserNote(n: Replica, cmd: UserCommand, env: CommandEnv): Option<Note> {
    match cmd
    case UserPut(key, value) =>
      if !env.view.leader || env.propose.ProposalDropped? then Some(WritesGoToLeader(env.view.leaderId))
      else if env.propose.ProposeOk? then Some(Proposed(Put(key, value)))
      else Some(ProposeFailed)
    case UserCampaign => if env.campaignOk then Some(CampaignStarted) else None
    case UserStatus => Some(StatusReport(env.view, n.applied))
    case _ => Some(ReadOnly(ReadOutput(n.kv, cmd)))
  }

  function HandleUser(n: Replica, cmd: UserCommand, env: CommandEnv): Replica {
    match UserNote(n, cmd, env)
    case None => n
    case Some(note) => Say(n, note)
  }

  function Handle(n: Replica, cmd: ServerCommand, env: CommandEnv): Replica {
    match cmd
    case User(user) => HandleUser(n, user, env)
    case RpcPut(_, resp) => HandleRpcPut(n, resp, env)
    case RpcGet(key, resp) => n.(replies := n.replies + [GetReply(resp, Lookup(n.kv, key))])
  }

  // ---- start-up ------------------------------------------------------------------

  function Prepared(d: Disk, peers: ConfState): Disk {
    if HasVoters(d) then d else ApplySnapshot(d, EmptySnapshot(peers))
  }

  /** raft-rs starts delivering right after this index. */
  function ReplayBase(d: Disk): nat {
    if FirstIndex(d) == 0 then 0 else FirstIndex(d) - 1
  }

  /** raft-rs refuses to start when the stored commit index is outside the stored log. */
  predicate CanStart(d: Disk) {
    d.meta.hard.None? || d.meta.hard.value == DEFAULT_HARD_STATE
    || ReplayBase(d) <= d.meta.hard.value.commit <= LastIndex(d)
  }

  /** A process on storage `d`: empty map, no callbacks, delivery from the first index on. */
  function ProcessOn(d: Disk, fuel: nat, written: nat, sends: seq<Sent>): Replica {
    var loaded := AppliedOf(d);
    Replica(d, loaded, fuel, written, map[], map[], [], [], sends, None,
            ReplayBase(d), ReplayBase(d), 0, false, {}, {}, [loaded], false)
  }

  /** A process started on `d` once its storage has a configuration. */
  function Boot(d: Disk, peers: ConfState, fuel: nat, written: nat, sends: seq<Sent>): Replica {
    ProcessOn(Prepared(d, peers), fuel, written, sends)
  }
}
