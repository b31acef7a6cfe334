// Runs of one node: commands, rounds that may be cut short anywhere, restarts;
// and what holds after every one of them.
module Runs {
  import opened Bytes
  import opened Disk
  import opened Invariants
  import opened KvCommand
  import opened Licensing
  import opened Node
  import opened RaftTypes
  import opened Replicas
  import opened World

  /** What earlier processes of the node left behind: the callers whose Puts they received, the
      replies they gave, and the callers that were still waiting when their process ended. */
  datatype Past = Past(issued: set<ReplyId>, replies: seq<Reply>, dropped: set<ReplyId>)

  const NO_PAST := Past({}, [], {})

  /** A node, the callers whose Puts it has received since it started, and its past. */
  datatype Sys = Sys(rep: Replica, issued: set<ReplyId>, past: Past)

  datatype Event =
    | CommandEvent(command: ServerCommand, env: CommandEnv)
    // The first `cut` effects of the round happen; a shorter cut is a crash.
    | RoundEvent(ready: Ready, light: LightReady, view: RaftView, conf: ConfResults, cut: nat)
    | RestartEvent(peers: ConfState, fuel: nat, written: nat)

  function CutRound(n: Replica, acts: seq<Action>, cut: nat): Replica
    requires cut <= |acts|
  {
    var n' := Perform(n, acts[..cut]);
    if cut < |acts| then n'.(stopped := true) else n'
  }

  function PastOf(s: Sys): Past {
    Past(s.past.issued + s.issued, s.past.replies + s.rep.replies, s.past.dropped + s.rep.callbacks.Values)
  }

  function Step(s: Sys, ev: Event): Sys {
    match ev
    case CommandEvent(command, env) =>
      Sys(Handle(s.rep, command, env), if command.RpcPut? then s.issued + {command.resp} else s.issued, s.past)
    case RoundEvent(r, l, view, conf, cut) =>
      var acts := RoundActions(r, l, view, conf);
      Sys(CutRound(s.rep, acts, if cut <= |acts| then cut else |acts|), s.issued, s.past)
    case RestartEvent(peers, fuel, written) =>
      Sys(Boot(s.rep.disk, peers, fuel, written, s.rep.sends), {}, PastOf(s))
  }

  /** The callback id is new: nothing consumed so far carries it. What raft-rs refuses it never
      commits. */
  ghost predicate Proposes(w: World, n: Replica, command: ServerCommand, env: CommandEnv)
    requires command.RpcPut?
  {
    && env.callbackId in w.calls && w.calls[env.callbackId] == Call(command.resp, command.put)
    && (forall i | 0 <= i < n.position && i < |w.log| :: w.log[i].context != env.callbackId)
    && (!env.propose.ProposeOk? ==> forall e | e in w.log :: e.context != env.callbackId)
  }

  /** What the clients, raft-rs and the operator may do next. */
  ghost predicate Legal(w: World, s: Sys, ev: Event)
    requires Sound(w)
  {
    match ev
    case CommandEvent(command, env) =>
      && !s.rep.stopped
      && (command.RpcPut? ==> command.resp !in s.issued + s.past.issued)
      && (command.RpcPut? && env.view.leader ==> Proposes(w, s.rep, command, env))
    case RoundEvent(r, l, view, conf, cut) =>
      !s.rep.stopped && ReadyOk(w, s.rep, r, l, conf)
    case RestartEvent(peers, _, _) =>
      CanStart(s.rep.disk) && peers.voters != []
  }

  function Exec(s: Sys, evs: seq<Event>): Sys {
    if evs == [] then s else Step(Exec(s, evs[..|evs| - 1]), evs[|evs| - 1])
  }

  ghost predicate LegalRun(w: World, s: Sys, evs: seq<Event>)
    requires Sound(w)
  {
    evs == [] ||
    (LegalRun(w, s, evs[..|evs| - 1]) && Legal(w, Exec(s, evs[..|evs| - 1]), evs[|evs| - 1]))
  }

  /** A node started for the first time. */
  ghost predicate FirstStart(s: Sys) {
    exists peers: ConfState, fuel: nat, written: nat ::
      peers.voters != [] && s == Sys(Boot(FRESH, peers, fuel, written, []), {}, NO_PAST)
  }

  /** The states a node can be in, at any crash point of any run. */
  ghost predicate Reachable(w: World, s: Sys)
    requires Sound(w)
  {
    exists start, evs :: FirstStart(start) && LegalRun(w, start, evs) && s == Exec(start, evs)
  }

  // ---- every run keeps the invariants --------------------------------------------

  ghost predicate SysInv(w: World, s: Sys)
    requires Sound(w)
  {
    Inv(w, s.rep, s.issued) && PastInv(w, s)
  }

  /** A committed entry carries the call. */
  ghost predicate CallCommitted(w: World, id: ReplyId) {
    exists i :: 0 <= i < |w.log| && CarriesCall(w, w.log[i], id)
  }

  /** Earlier callers were answered once or dropped with their process; success was committed. */
  ghost predicate PastInv(w: World, s: Sys) {
    && s.issued !! s.past.issued && s.past.dropped <= s.past.issued
    && (forall id | id in s.past.issued :: Answers(s.past.replies, id) == if id in s.past.dropped then 0 else 1)
    && (forall id | id !in s.past.issued :: Answers(s.past.replies, id) == 0)
    && (forall r | r in s.past.replies && r.PutReply? && r.outcome.Accepted? :: CallCommitted(w, r.id))
  }

  lemma {:induction false} AnswersConcat(a: seq<Reply>, b: seq<Reply>, id: ReplyId)
    ensures Answers(a + b, id) == Answers(a, id) + Answers(b, id)
  {
    if b == [] {
      assert a + b == a;
    } else {
      AnswersConcat(a, b[..|b| - 1], id);
      assert (a + b)[..|a + b| - 1] == a + b[..|b| - 1];
    }
  }

  /** A restart turns the current callers into past ones. */
  lemma RestartKeepsPast(w: World, s: Sys, t: Sys)
    requires PastInv(w, s) && CallInv(w, s.rep, s.issued) && t.past == PastOf(s) && t.issued == {}
    ensures PastInv(w, t)
  {
    var n := s.rep;
    forall id ensures Answers(t.past.replies, id) == Answers(s.past.replies, id) + Answers(n.replies, id)
              ensures Registered(n, id) <==> id in n.callbacks.Values
    {
      AnswersConcat(s.past.replies, n.replies, id);
    }
    hide Answers, Registered;
    forall r | r in t.past.replies && r.PutReply? && r.outcome.Accepted?
      ensures CallCommitted(w, r.id)
    {
      if r in n.replies {
        var j :| 0 <= j < |n.replies| && n.replies[j] == r;
        assert CallApplied(w, n, r.id);
      }
    }
  }

  lemma BootInv(w: World, d: Disk, peers: ConfState, fuel: nat, written: nat, sends: seq<Sent>)
    requires Sound(w) && StorageInv(w, Prepared(d, peers))
    requires forall j | 0 <= j < |sends| && !sends[j].phase.Immediate? :: OnDisk(sends[j].disk, sends[j].ready)
    ensures Inv(w, Boot(d, peers, fuel, written, sends), {})
  {
    hide StorageInv, OnDisk;
    var n := Boot(d, peers, fuel, written, sends);
    StorageBase(w, n.disk);
    assert w.log[n.position..n.position] == [] && n.updates[n.mark..] == [];
  }

  lemma StorageBase(w: World, d: Disk)
    requires Sound(w) && StorageInv(w, d)
    ensures Base(d) <= |w.log| && (!w.snapshots ==> Base(d) == 0)
    ensures ReplayBase(d) == Base(d) && HasVoters(d)
  {
  }

  lemma FirstStartInv(w: World, s: Sys)
    requires Sound(w) && FirstStart(s)
    ensures SysInv(w, s)
  {
    var peers: ConfState, fuel: nat, written: nat :|
      peers.voters != [] && s == Sys(Boot(FRESH, peers, fuel, written, []), {}, NO_PAST);
    FreshRepresents();
    SnapshotRefines(FRESH, Log(0, 0, []), EmptySnapshot(peers));
    EmptyMap(w, peers);
    BootInv(w, FRESH, peers, fuel, written, []);
  }

  /** A command touches the callbacks, the replies and the update queue, nothing else. */
  lemma HandleFrame(n: Replica, command: ServerCommand, env: CommandEnv) returns (us: seq<StateUpdate>)
    ensures var n' := Handle(n, command, env);
            n' == n.(callbacks := n'.callbacks, replies := n'.replies, updates := n.updates + us)
    ensures forall i | 0 <= i < |us| :: !us[i].KvUpdate?
  {
    us := [];
    assert n.updates + [] == n.updates;
    if command.User? {
      us := UserUpdates(n, command.command, env);
    }
  }

  lemma CommandKeepsInv(w: World, s: Sys, command: ServerCommand, env: CommandEnv)
    requires Sound(w) && SysInv(w, s) && Legal(w, s, CommandEvent(command, env))
    ensures SysInv(w, Step(s, CommandEvent(command, env)))
  {
    hide StorageInv, OnDisk, Sound, CallInv, PastInv, MirrorInv, Handle;
    var n, n' := s.rep, Handle(s.rep, command, env);
    CommandKeepsCalls(w, s, command, env);
    var us := HandleFrame(n, command, env);
    QuietKeepsMirror(w, n, n', us);
    CommandKeepsPast(w, s, command, env);
  }

  lemma CommandKeepsPast(w: World, s: Sys, command: ServerCommand, env: CommandEnv)
    requires Sound(w) && PastInv(w, s) && Legal(w, s, CommandEvent(command, env))
    ensures PastInv(w, Step(s, CommandEvent(command, env)))
  {
    hide Handle, Sound;
  }

  lemma CommandKeepsCalls(w: World, s: Sys, command: ServerCommand, env: CommandEnv)
    requires Sound(w) && CallInv(w, s.rep, s.issued) && Legal(w, s, CommandEvent(command, env))
    ensures var t := Step(s, CommandEvent(command, env)); CallInv(w, t.rep, t.issued)
  {
    hide Sound, ReadOutput, CallInv, Answers;
    var n, n' := s.rep, Handle(s.rep, command, env);
    match command {
      case User(user) =>
        var us := UserUpdates(n, user, env);
        AdvanceKeepsCalls(w, n, n', s.issued);
      case RpcGet(key, resp) =>
        GetKeepsCalls(w, n, n', s.issued);
      case RpcPut(put, resp) =>
        PutKeepsCalls(w, n, resp, put, env, s.issued);
    }
  }

  /** A terminal command only adds messages. */
  lemma UserUpdates(n: Replica, user: UserCommand, env: CommandEnv) returns (us: seq<StateUpdate>)
    ensures HandleUser(n, user, env) == n.(updates := n.updates + us)
    ensures forall i | 0 <= i < |us| :: !us[i].KvUpdate?
  {
    hide UserNote;
    us := match UserNote(n, user, env) case None => [] case Some(note) => [SystemMessage(note)];
    assert n.updates + [] == n.updates;
  }

  lemma GetKeepsCalls(w: World, n: Replica, n': Replica, issued: set<ReplyId>)
    requires CallInv(w, n, issued)
    requires n' == n.(replies := n'.replies) && |n'.replies| == |n.replies| + 1
    requires n'.replies[..|n.replies|] == n.replies && n'.replies[|n.replies|].GetReply?
    ensures CallInv(w, n', issued)
  {
    var last := n'.replies[|n.replies|];
    assert n'.replies == n.replies + [last];
    AnswersSnoc(n.replies, last);
    assert forall id :: Registered(n', id) == Registered(n, id);
    forall j | 0 <= j < |n'.replies| && n'.replies[j].PutReply? && n'.replies[j].outcome.Accepted?
      ensures CallApplied(w, n', n'.replies[j].id)
    {
      assert n.replies[j] == n'.replies[j];
      assert CallApplied(w, n, n.replies[j].id);
    }
  }

  lemma RegisteredAfterPut(w: World, n: Replica, context: Context, resp: ReplyId)
    requires context !in n.callbacks
    ensures forall id ::
              Registered(n.(callbacks := n.callbacks[context := resp]), id) <==> Registered(n, id) || id == resp
  {
    var n' := n.(callbacks := n.callbacks[context := resp]);
    forall id ensures Registered(n', id) <==> Registered(n, id) || id == resp {
      if Registered(n, id) {
        var c :| c in n.callbacks && n.callbacks[c] == id;
        assert c in n'.callbacks && n'.callbacks[c] == id;
      }
      assert context in n'.callbacks && n'.callbacks[context] == resp;
      if Registered(n', id) && id != resp {
        var c :| c in n'.callbacks && n'.callbacks[c] == id;
        assert c in n.callbacks && n.callbacks[c] == id;
      }
    }
  }

  lemma PutKeepsCalls(w: World, n: Replica, resp: ReplyId, put: Put, env: CommandEnv, issued: set<ReplyId>)
    requires Sound(w) && CallInv(w, n, issued) && resp !in issued
    requires env.view.leader ==> env.callbackId in w.calls && w.calls[env.callbackId] == Call(resp, put)
    ensures CallInv(w, HandleRpcPut(n, resp, env), issued + {resp})
  {
    hide Sound, Answers;
    var n' := HandleRpcPut(n, resp, env);
    if env.view.leader {
      assert env.callbackId !in n.callbacks;
      assert !Registered(n, resp);
      RegisteredAfterPut(w, n, env.callbackId, resp);
      hide Registered;
      forall j | 0 <= j < |n'.replies| && n'.replies[j].PutReply? && n'.replies[j].outcome.Accepted?
        ensures CallApplied(w, n', n'.replies[j].id)
      {
        assert CallApplied(w, n, n.replies[j].id);
      }
    } else {
      RejectKeepsCalls(w, n, resp, env.view.leaderId, issued);
    }
  }

  lemma RejectKeepsCalls(w: World, n: Replica, resp: ReplyId, leader: u64, issued: set<ReplyId>)
    requires CallInv(w, n, issued) && resp !in issued
    ensures CallInv(w, n.(replies := n.replies + [PutReply(resp, NotLeader(leader))]), issued + {resp})
  {
    hide Answers;
    var n' := n.(replies := n.replies + [PutReply(resp, NotLeader(leader))]);
    AnswersSnoc(n.replies, PutReply(resp, NotLeader(leader)));
    assert forall id :: Registered(n', id) == Registered(n, id);
    assert !Registered(n, resp);
    hide Registered;
    forall j | 0 <= j < |n'.replies| && n'.replies[j].PutReply? && n'.replies[j].outcome.Accepted?
      ensures CallApplied(w, n', n'.replies[j].id)
    {
      assert CallApplied(w, n, n.replies[j].id);
    }
  }

  lemma StepKeepsInv(w: World, s: Sys, ev: Event)
    requires Sound(w) && SysInv(w, s) && Legal(w, s, ev)
    ensures SysInv(w, Step(s, ev))
  {
    hide Sound, SysInv, Legal, Step;
    match ev {
      case CommandEvent(command, env) => CommandKeepsInv(w, s, command, env);
      case RoundEvent(r, l, view, conf, cut) => RoundKeepsInv(w, s, r, l, view, conf, cut);
      case RestartEvent(peers, fuel, written) => RestartKeepsInv(w, s, peers, fuel, written);
    }
  }

  lemma RoundKeepsInv(w: World, s: Sys, r: Ready, l: LightReady, view: RaftView, conf: ConfResults, cut: nat)
    requires Sound(w) && SysInv(w, s) && Legal(w, s, RoundEvent(r, l, view, conf, cut))
    ensures SysInv(w, Step(s, RoundEvent(r, l, view, conf, cut)))
  {
    hide Sound, ReadyOk, Licensed, Perform, RoundActions, Inv;
    var acts := RoundActions(r, l, view, conf);
    var done := if cut <= |acts| then cut else |acts|;
    RoundLicensed(w, s.rep, r, l, view, conf);
    LicensedKeepsInv(w, s.rep, acts, done, s.issued);
    StopKeepsInv(w, Perform(s.rep, acts[..done]), s.issued);
  }

  lemma RestartKeepsInv(w: World, s: Sys, peers: ConfState, fuel: nat, written: nat)
    requires Sound(w) && SysInv(w, s) && Legal(w, s, RestartEvent(peers, fuel, written))
    ensures SysInv(w, Step(s, RestartEvent(peers, fuel, written)))
  {
    var t := Step(s, RestartEvent(peers, fuel, written));
    hide StorageInv, OnDisk, Sound, CanStart, MapInv, CallInv, MirrorInv, ProgressInv, PastInv;
    VotersIn(w, s.rep.disk);
    BootInv(w, s.rep.disk, peers, fuel, written, s.rep.sends);
    RestartKeepsPast(w, s, t);
  }

  lemma StopKeepsInv(w: World, n: Replica, issued: set<ReplyId>)
    requires Sound(w) && Inv(w, n, issued)
    ensures Inv(w, n.(stopped := true), issued)
  {
    hide StorageInv, OnDisk, Sound, CallInv;
    AdvanceKeepsCalls(w, n, n.(stopped := true), issued);
  }

  lemma {:induction false} RunKeepsInv(w: World, s: Sys, evs: seq<Event>)
    requires Sound(w) && SysInv(w, s) && LegalRun(w, s, evs)
    ensures SysInv(w, Exec(s, evs))
  {
    hide Sound, SysInv, Legal, Step;
    if evs != [] {
      RunKeepsInv(w, s, evs[..|evs| - 1]);
      StepKeepsInv(w, Exec(s, evs[..|evs| - 1]), evs[|evs| - 1]);
    }
  }

  /** Storage, map, callbacks, terminal and transport invariants hold in every reachable state. */
  lemma ReachableInv(w: World, s: Sys)
    requires Sound(w) && Reachable(w, s)
    ensures SysInv(w, s)
  {
    hide Sound, SysInv;
    var start, evs :| FirstStart(start) && LegalRun(w, start, evs) && s == Exec(start, evs);
    FirstStartInv(w, start);
    RunKeepsInv(w, start, evs);
  }

  lemma ProgressOf(w: World, s: Sys)
    requires Sound(w) && SysInv(w, s)
    ensures ProgressInv(s.rep)
  {
  }

  /** A round that is not cut performs all of its effects. */
  lemma WholeRound(s: Sys, r: Ready, l: LightReady, view: RaftView, conf: ConfResults)
    ensures var acts := RoundActions(r, l, view, conf);
            Step(s, RoundEvent(r, l, view, conf, |acts|)) == Sys(Perform(s.rep, acts), s.issued, s.past)
  {
    hide RoundActions, Perform;
    var acts := RoundActions(r, l, view, conf);
    assert acts[..|acts|] == acts;
  }

  /** What a restart on a disk that a run left starts with. */
  lemma Restarted(w: World, s: Sys, peers: ConfState, fuel: nat, written: nat)
    requires Sound(w) && SysInv(w, s)
    ensures var t := Step(s, RestartEvent(peers, fuel, written)).rep;
            && t.disk == s.rep.disk && t.position == Base(s.rep.disk) && t.applied == AppliedOf(s.rep.disk)
            && t.kv == map[] && t.replies == [] && !t.stopped
  {
    hide MapInv, CallInv, MirrorInv, SendInv, ProgressInv, PastInv;
    StorageBase(w, s.rep.disk);
    hide StorageInv, ReplayBase, Base;
  }

  // ---- within one process ------------------------------------------------------------

  lemma StepAdvances(w: World, s: Sys, ev: Event)
    requires Sound(w) && Legal(w, s, ev) && !ev.RestartEvent?
    ensures Advances(s.rep, Step(s, ev).rep)
  {
    hide Sound, ReadyOk, Licensed, Perform, RoundActions, Advances;
    match ev {
      case CommandEvent(command, env) =>
        HandleReplies(s.rep, command, env);
        var us := HandleFrame(s.rep, command, env);
        hide Handle;
        ProgressStep(s.rep, Step(s, ev).rep);
      case RoundEvent(r, l, view, conf, cut) =>
        var acts := RoundActions(r, l, view, conf);
        var done := if cut <= |acts| then cut else |acts|;
        RoundLicensed(w, s.rep, r, l, view, conf);
        LicensedAdvances(w, s.rep, acts, done);
        var n := Perform(s.rep, acts[..done]);
        ProgressStep(n, n.(stopped := true));
        AdvancesChain(s.rep, n, n.(stopped := true));
    }
  }

  lemma HandleReplies(n: Replica, command: ServerCommand, env: CommandEnv)
    ensures n.replies <= Handle(n, command, env).replies
  {
    hide UserNote;
  }

  predicate SameProcess(evs: seq<Event>) {
    forall ev | ev in evs :: !ev.RestartEvent?
  }

  lemma {:induction false} RunAdvances(w: World, s: Sys, evs: seq<Event>)
    requires Sound(w) && LegalRun(w, s, evs) && SameProcess(evs)
    ensures Advances(s.rep, Exec(s, evs).rep)
  {
    hide Sound, Legal, Step, Advances;
    if evs == [] {
      ProgressStep(s.rep, s.rep);
    } else {
      var k := |evs| - 1;
      RunAdvances(w, s, evs[..k]);
      StepAdvances(w, Exec(s, evs[..k]), evs[k]);
      AdvancesChain(s.rep, Exec(s, evs[..k]).rep, Exec(s, evs).rep);
    }
  }

  lemma {:induction false} ExecConcat(s: Sys, a: seq<Event>, b: seq<Event>)
    ensures Exec(s, a + b) == Exec(Exec(s, a), b)
  {
    hide Step;
    if b == [] {
      assert a + b == a;
    } else {
      ExecConcat(s, a, b[..|b| - 1]);
      assert (a + b)[..|a + b| - 1] == a + b[..|b| - 1];
    }
  }

  lemma {:induction false} LegalRunConcat(w: World, s: Sys, a: seq<Event>, b: seq<Event>)
    requires Sound(w)
    ensures LegalRun(w, s, a + b) <==> LegalRun(w, s, a) && LegalRun(w, Exec(s, a), b)
  {
    hide Sound, Legal, Step;
    if b == [] {
      assert a + b == a;
    } else {
      var front := b[..|b| - 1];
      LegalRunConcat(w, s, a, front);
      ExecConcat(s, a, front);
      assert (a + b)[..|a + b| - 1] == a + front;
    }
  }

  /** A legal run from a reachable state ends in one. */
  lemma ReachableRun(w: World, s: Sys, evs: seq<Event>)
    requires Sound(w) && Reachable(w, s) && LegalRun(w, s, evs)
    ensures Reachable(w, Exec(s, evs))
  {
    hide Sound, FirstStart, Legal, Step;
    var start, before :| FirstStart(start) && LegalRun(w, start, before) && s == Exec(start, before);
    LegalRunConcat(w, start, before, evs);
    ExecConcat(start, before, evs);
    hide Exec, LegalRun;
  }

  lemma OneStepRun(w: World, s: Sys, ev: Event)
    requires Sound(w) && Legal(w, s, ev)
    ensures LegalRun(w, s, [ev]) && Exec(s, [ev]) == Step(s, ev)
  {
    hide Sound, Legal, Step;
    var none: seq<Event> := [];
    assert LegalRun(w, s, none) && Exec(s, none) == s;
    assert [ev][..0] == none;
  }

  lemma ReachableStep(w: World, s: Sys, ev: Event)
    requires Sound(w) && Reachable(w, s) && Legal(w, s, ev)
    ensures Reachable(w, Step(s, ev))
  {
    hide Sound, Reachable, Legal, Step;
    OneStepRun(w, s, ev);
    ReachableRun(w, s, [ev]);
  }

  lemma FirstReachable(w: World, s: Sys)
    requires Sound(w) && FirstStart(s)
    ensures Reachable(w, s)
  {
    hide Sound, FirstStart;
    assert LegalRun(w, s, []) && Exec(s, []) == s;
  }
}
