// Which callers a process answers: a Put is answered by the delivery of its entry and by
// nothing else.
module Callers {
  import opened Disk
  import opened Invariants
  import opened KvCommand
  import opened Licensing
  import opened RaftTypes
  import opened Replicas
  import opened Runs
  import opened Theorems
  import opened World
  import opened Wrappers
  import StateMachine

  /** The process has delivered an entry that carries `context`. */
  ghost predicate DeliveredCall(w: World, n: Replica, context: Context) {
    exists i :: i in n.delivered && 0 < i <= |w.log| && w.log[i - 1].context == context
  }

  /** The callback is registered until such an entry is delivered. */
  ghost predicate Waiting(w: World, n: Replica, context: Context, id: ReplyId) {
    if DeliveredCall(w, n, context) then context !in n.callbacks
    else context in n.callbacks && n.callbacks[context] == id
  }

  /** Nothing but success was answered to the caller, and every callback belongs to its call. */
  ghost predicate OnlyAccepted(w: World, n: Replica, id: ReplyId) {
    && (forall o | PutReply(id, o) in n.replies :: o == Accepted)
    && (forall c | c in n.callbacks :: c in w.calls && w.calls[c].id == n.callbacks[c])
  }

  lemma SameCallbacks(w: World, n: Replica, n': Replica, context: Context, id: ReplyId)
    requires n'.callbacks == n.callbacks && n'.delivered == n.delivered
    ensures Waiting(w, n, context, id) <==> Waiting(w, n', context, id)
    ensures n'.replies == n.replies ==> (OnlyAccepted(w, n, id) <==> OnlyAccepted(w, n', id))
  {
  }

  /** Only a delivery touches the callbacks, the replies or the deliveries. */
  lemma CallbackFrame(n: Replica, a: Action)
    requires !a.Deliver?
    ensures Do(n, a).callbacks == n.callbacks && Do(n, a).delivered == n.delivered && Do(n, a).replies == n.replies
  {
    hide Complete, Interrupted, LeadershipNotes;
  }

  /** A delivery answers at most the caller registered under the entry's id. */
  lemma DeliverReplies(n: Replica, e: Entry) returns (answers: seq<Reply>)
    requires !n.stopped
    ensures Do(n, Deliver(e)).replies == n.replies + answers
    ensures forall r | r in answers :: e.context in n.callbacks && r.PutReply? && r.id == n.callbacks[e.context]
    ensures (exists p :: DecodeCommand(e.data) == Ok(Some(p))) ==> forall r | r in answers :: r.outcome == Accepted
    ensures Do(n, Deliver(e)).callbacks.Items <= n.callbacks.Items
  {
    hide DecodeCommand, StateMachine.Assign;
    answers := Do(n, Deliver(e)).replies[|n.replies|..];
    assert n.replies + [] == n.replies;
  }

  lemma DeliverOnlyAccepts(w: World, n: Replica, e: Entry, context: Context, id: ReplyId)
    requires Sound(w) && !n.stopped && context in w.calls && w.calls[context].id == id && OnlyAccepted(w, n, id)
    requires Enabled(w, n, Deliver(e))
    ensures OnlyAccepted(w, Do(n, Deliver(e)), id)
  {
    hide Do, Enabled, DecodeCommand;
    DeliveryInOrder(w, n, e);
    CallEntry(w, e, n.position, context);
    var answers := DeliverReplies(n, e);
    var n' := Do(n, Deliver(e));
    forall c | c in n'.callbacks ensures c in n.callbacks && n.callbacks[c] == n'.callbacks[c] {
      assert (c, n'.callbacks[c]) in n'.callbacks.Items;
    }
    forall o | PutReply(id, o) in n'.replies ensures o == Accepted {
      if PutReply(id, o) !in n.replies {
        assert PutReply(id, o) in answers;
        assert e.context == context;
      }
    }
  }

  lemma DeliverCallbacks(n: Replica, e: Entry, put: Put)
    requires !n.stopped
    ensures var n' := Do(n, Deliver(e));
            && n'.delivered == n.delivered + {e.index}
            && (n'.callbacks == n.callbacks || n'.callbacks == n.callbacks - {e.context})
            && (DecodeCommand(e.data) == Ok(Some(put)) ==> e.context !in n'.callbacks)
  {
    DeliverFrame(n, e);
    hide DecodeCommand, Answer;
    var n1 := n.(position := e.index, delivered := n.delivered + {e.index});
    match DecodeCommand(e.data) {
      case Err => AnswerFrame(n1, e.context, ApplyFailed);
      case Ok(None) =>
      case Ok(Some(p)) =>
        var us := n.updates + [KvUpdate(p), LogEntry(e.index, e.term, p)];
        AnswerFrame(n1.(kv := n.kv[p.key := p.value], updates := us), e.context, Accepted);
    }
  }

  lemma DeliverKeepsWaiting(w: World, n: Replica, e: Entry, context: Context, id: ReplyId)
    requires Sound(w) && !n.stopped && context in w.calls && Waiting(w, n, context, id)
    requires Enabled(w, n, Deliver(e))
    ensures Waiting(w, Do(n, Deliver(e)), context, id)
  {
    hide Do, Sound, Enabled, DecodeCommand, DeliveredCall;
    DeliveryInOrder(w, n, e);
    CallEntry(w, e, n.position, context);
    DeliverCallbacks(n, e, w.calls[context].put);
    DeliveredMore(w, n, Do(n, Deliver(e)), e, context);
  }

  lemma DeliveredMore(w: World, n: Replica, n': Replica, e: Entry, context: Context)
    requires 0 < e.index <= |w.log| && w.log[e.index - 1] == e && n'.delivered == n.delivered + {e.index}
    ensures DeliveredCall(w, n', context) <==> DeliveredCall(w, n, context) || e.context == context
  {
    assert e.index in n'.delivered;
    assert n.delivered <= n'.delivered;
  }

  lemma CallEntry(w: World, e: Entry, i: nat, context: Context)
    requires Sound(w) && context in w.calls && i < |w.log| && w.log[i] == e
    ensures e.context == context ==> DecodeCommand(e.data) == Ok(Some(w.calls[context].put))
  {
    if e.context == context {
      PutCommandRoundTrip(w.calls[context].put);
    }
  }

  lemma {:induction false} LicensedKeepsWaiting(w: World, n: Replica, acts: seq<Action>, cut: nat,
                                                context: Context, id: ReplyId)
    requires Sound(w) && Licensed(w, n, acts) && cut <= |acts| && context in w.calls && w.calls[context].id == id
    requires Waiting(w, n, context, id) && OnlyAccepted(w, n, id)
    ensures Waiting(w, Perform(n, acts[..cut]), context, id) && OnlyAccepted(w, Perform(n, acts[..cut]), id)
    decreases cut
  {
    hide Sound, Enabled, Do, Waiting, OnlyAccepted;
    if cut == 0 {
      assert acts[..cut] == [];
    } else {
      var front, last := acts[..cut - 1], acts[cut - 1];
      LicensedPrefix(w, n, acts, cut);
      LicensedKeepsWaiting(w, n, acts, cut - 1, context, id);
      assert acts[..cut][..cut - 1] == front;
      var m := Perform(n, front);
      if m.stopped {
        StoppedDoes(m, last);
      } else if last.Deliver? {
        DeliverKeepsWaiting(w, m, last.entry, context, id);
        DeliverOnlyAccepts(w, m, last.entry, context, id);
      } else {
        CallbackFrame(m, last);
        SameCallbacks(w, m, Do(m, last), context, id);
      }
    }
  }

  lemma StoppedDoes(n: Replica, a: Action)
    requires n.stopped
    ensures Do(n, a) == n
  {
  }

  lemma {:induction false} LicensedPrefix(w: World, n: Replica, acts: seq<Action>, cut: nat)
    requires Sound(w) && Licensed(w, n, acts) && 0 < cut <= |acts|
    ensures Enabled(w, Perform(n, acts[..cut - 1]), acts[cut - 1])
    decreases |acts|
  {
    hide Sound, Enabled, Do;
    if cut < |acts| {
      var front := acts[..|acts| - 1];
      LicensedPrefix(w, n, front, cut);
      assert front[..cut - 1] == acts[..cut - 1];
    }
  }

  lemma CommandKeepsWaiting(w: World, s: Sys, command: ServerCommand, env: CommandEnv, context: Context, id: ReplyId)
    requires Sound(w) && Legal(w, s, CommandEvent(command, env)) && id in s.issued
    requires context in w.calls && w.calls[context].id == id && Waiting(w, s.rep, context, id)
    requires OnlyAccepted(w, s.rep, id)
    ensures Waiting(w, Handle(s.rep, command, env), context, id) && OnlyAccepted(w, Handle(s.rep, command, env), id)
  {
    hide Sound, Waiting, UserNote;
    if command.RpcPut? && env.view.leader {
      assert env.callbackId != context;
      OtherCallback(w, s.rep, env.callbackId, command.resp, context, id);
    } else {
      SameCallbacks(w, s.rep, Handle(s.rep, command, env), context, id);
    }
  }

  lemma StepKeepsWaiting(w: World, s: Sys, ev: Event, context: Context, id: ReplyId)
    requires Sound(w) && Legal(w, s, ev) && !ev.RestartEvent? && id in s.issued
    requires context in w.calls && w.calls[context].id == id && Waiting(w, s.rep, context, id)
    requires OnlyAccepted(w, s.rep, id)
    ensures Waiting(w, Step(s, ev).rep, context, id) && id in Step(s, ev).issued
    ensures OnlyAccepted(w, Step(s, ev).rep, id)
  {
    hide Sound, ReadyOk, Proposes, Licensed, Perform, RoundActions, Waiting, OnlyAccepted, Handle;
    match ev {
      case CommandEvent(command, env) => CommandKeepsWaiting(w, s, command, env, context, id);
      case RoundEvent(r, l, view, conf, cut) =>
        var acts := RoundActions(r, l, view, conf);
        var done := if cut <= |acts| then cut else |acts|;
        RoundLicensed(w, s.rep, r, l, view, conf);
        LicensedKeepsWaiting(w, s.rep, acts, done, context, id);
        var n := Perform(s.rep, acts[..done]);
        SameCallbacks(w, n, n.(stopped := true), context, id);
    }
  }

  lemma OtherCallback(w: World, n: Replica, other: Context, resp: ReplyId, context: Context, id: ReplyId)
    requires other != context && Waiting(w, n, context, id)
    ensures Waiting(w, n.(callbacks := n.callbacks[other := resp]), context, id)
  {
    var n' := n.(callbacks := n.callbacks[other := resp]);
    assert DeliveredCall(w, n, context) <==> DeliveredCall(w, n', context);
  }

  lemma {:induction false} RunKeepsWaiting(w: World, s: Sys, evs: seq<Event>, context: Context, id: ReplyId)
    requires Sound(w) && LegalRun(w, s, evs) && SameProcess(evs) && id in s.issued
    requires context in w.calls && w.calls[context].id == id && Waiting(w, s.rep, context, id)
    requires OnlyAccepted(w, s.rep, id)
    ensures Waiting(w, Exec(s, evs).rep, context, id) && id in Exec(s, evs).issued
    ensures OnlyAccepted(w, Exec(s, evs).rep, id)
  {
    hide Sound, Legal, Step, Waiting, OnlyAccepted;
    if evs != [] {
      var k := |evs| - 1;
      RunKeepsWaiting(w, s, evs[..k], context, id);
      StepKeepsWaiting(w, Exec(s, evs[..k]), evs[k], context, id);
    }
  }

  /** A Put just taken by a leader waits: nothing delivered so far carries its new id, and its
      caller was told nothing. */
  lemma TakenWaits(w: World, s: Sys, put: Put, resp: ReplyId, env: CommandEnv)
    requires Sound(w) && SysInv(w, s) && Legal(w, s, CommandEvent(RpcPut(put, resp), env)) && env.view.leader
    ensures Waiting(w, Step(s, CommandEvent(RpcPut(put, resp), env)).rep, env.callbackId, resp)
    ensures OnlyAccepted(w, Step(s, CommandEvent(RpcPut(put, resp), env)).rep, resp)
  {
    ProgressOf(w, s);
    CallersOf(w, s);
    hide Sound, SysInv;
    var n := Step(s, CommandEvent(RpcPut(put, resp), env)).rep;
    assert n == s.rep.(callbacks := s.rep.callbacks[env.callbackId := resp]);
    assert Proposes(w, s.rep, RpcPut(put, resp), env);
    NoAnswer(s.rep.replies, resp);
    hide Legal, Step, Answers, Registered;
    forall i | i in n.delivered && 0 < i <= |w.log|
      ensures w.log[i - 1].context != env.callbackId
    {
    }
  }

  /** The count of answers and what they say. */
  lemma {:induction false} NoAnswer(replies: seq<Reply>, id: ReplyId)
    ensures Answers(replies, id) == 0 <==> forall o :: PutReply(id, o) !in replies
  {
    if replies != [] {
      var front, last := replies[..|replies| - 1], replies[|replies| - 1];
      NoAnswer(front, id);
      assert forall r :: r in replies <==> r in front || r == last;
    }
  }

  lemma {:induction false} OneAnswer(replies: seq<Reply>, id: ReplyId, o: PutOutcome, p: PutOutcome)
    requires Answers(replies, id) <= 1 && PutReply(id, o) in replies && PutReply(id, p) in replies
    ensures o == p
  {
    if replies != [] {
      var front, last := replies[..|replies| - 1], replies[|replies| - 1];
      NoAnswer(front, id);
      assert forall r :: r in replies <==> r in front || r == last;
      if PutReply(id, o) in front && PutReply(id, p) in front {
        OneAnswer(front, id, o, p);
      }
    }
  }

  /** In a sound state a waiting Put is registered and one that is not is no longer. */
  lemma WaitingRegistered(w: World, s: Sys, context: Context, id: ReplyId)
    requires Sound(w) && SysInv(w, s) && context in w.calls && w.calls[context].id == id && id in s.issued
    requires Waiting(w, s.rep, context, id)
    ensures Registered(s.rep, id) <==> !DeliveredCall(w, s.rep, context)
    ensures Answers(s.rep.replies, id) == if DeliveredCall(w, s.rep, context) then 1 else 0
  {
    CallersOf(w, s);
    hide SysInv, Answers, DeliveredCall;
    if Registered(s.rep, id) {
      var c :| c in s.rep.callbacks && s.rep.callbacks[c] == id;
      assert c == context;
    }
  }

  /** Until the process ends, a Put it received goes unanswered exactly when a leader took it and
      no entry the process delivered carries it. A follower answers it at once with the leader's
      id, a leader with success once its entry is delivered, and nothing else is ever answered. */
  lemma UnansweredIff(w: World, s: Sys, put: Put, resp: ReplyId, env: CommandEnv, evs: seq<Event>)
    requires Sound(w) && Reachable(w, s) && Legal(w, s, CommandEvent(RpcPut(put, resp), env))
    requires LegalRun(w, Step(s, CommandEvent(RpcPut(put, resp), env)), evs) && SameProcess(evs)
    ensures var t := Exec(Step(s, CommandEvent(RpcPut(put, resp), env)), evs);
            && (Answers(t.rep.replies, resp) == 0
                <==> env.view.leader && !DeliveredCall(w, t.rep, env.callbackId))
            && Answers(t.rep.replies, resp) <= 1
            && (forall o :: PutReply(resp, o) in t.rep.replies
                            <==> if env.view.leader then o == Accepted && DeliveredCall(w, t.rep, env.callbackId)
                                 else o == NotLeader(env.view.leaderId))
  {
    hide Reachable, SysInv, Inv, Waiting, OnlyAccepted, DeliveredCall;
    var ask := CommandEvent(RpcPut(put, resp), env);
    var u := Step(s, ask);
    ReachableInv(w, s);
    StepKeepsInv(w, s, ask);
    RunKeepsInv(w, u, evs);
    var t := Exec(u, evs);
    if env.view.leader {
      TakenWaits(w, s, put, resp, env);
      hide Sound, LegalRun;
      RunKeepsWaiting(w, u, evs, env.callbackId, resp);
      WaitingRegistered(w, t, env.callbackId, resp);
      hide Legal, Step;
      AnsweredAccepted(w, t, env.callbackId, resp);
    } else {
      RefusedByFollower(w, s, put, resp, env);
      hide Sound, LegalRun, Legal, Step;
      RunAdvances(w, u, evs);
      AnswersKept(w, t, u.rep.replies, resp);
      forall o ensures PutReply(resp, o) in t.rep.replies <==> o == NotLeader(env.view.leaderId) {
        FirstAnswerStays(u.rep.replies, t.rep.replies, resp, o, NotLeader(env.view.leaderId));
      }
    }
  }

  lemma AnsweredAccepted(w: World, t: Sys, context: Context, id: ReplyId)
    requires OnlyAccepted(w, t.rep, id)
    requires Answers(t.rep.replies, id) == if DeliveredCall(w, t.rep, context) then 1 else 0
    ensures forall o :: PutReply(id, o) in t.rep.replies <==> o == Accepted && DeliveredCall(w, t.rep, context)
  {
    hide DeliveredCall, Answers;
    NoAnswer(t.rep.replies, id);
  }

  lemma FirstAnswerStays(before: seq<Reply>, replies: seq<Reply>, id: ReplyId, o: PutOutcome, told: PutOutcome)
    requires before <= replies && PutReply(id, told) in before && Answers(replies, id) == 1
    ensures PutReply(id, o) in replies <==> o == told
  {
    hide Answers;
    assert PutReply(id, told) in replies;
    if PutReply(id, o) in replies {
      OneAnswer(replies, id, o, told);
    }
  }

  lemma RefusedByFollower(w: World, s: Sys, put: Put, resp: ReplyId, env: CommandEnv)
    requires !env.view.leader
    ensures var replies := Step(s, CommandEvent(RpcPut(put, resp), env)).rep.replies;
            Answers(replies, resp) >= 1 && PutReply(resp, NotLeader(env.view.leaderId)) in replies
  {
    AnswersSnoc(s.rep.replies, PutReply(resp, NotLeader(env.view.leaderId)));
  }

  lemma AnswersKept(w: World, t: Sys, before: seq<Reply>, id: ReplyId)
    requires Sound(w) && SysInv(w, t) && before <= t.rep.replies && Answers(before, id) >= 1
    ensures Answers(t.rep.replies, id) == 1
  {
    CallersOf(w, t);
    hide SysInv, Answers;
    assert t.rep.replies == before + t.rep.replies[|before|..];
    AnswersConcat(before, t.rep.replies[|before|..], id);
  }

  /** A Put that raft-rs refuses on a leader leaves its caller registered and unanswered for as
      long as the process lives. */
  lemma RefusedPutStaysRegistered(w: World, s: Sys, put: Put, resp: ReplyId, env: CommandEnv, evs: seq<Event>)
    requires Sound(w) && Reachable(w, s) && Legal(w, s, CommandEvent(RpcPut(put, resp), env))
    requires env.view.leader && !env.propose.ProposeOk?
    requires LegalRun(w, Step(s, CommandEvent(RpcPut(put, resp), env)), evs) && SameProcess(evs)
    ensures var t := Exec(Step(s, CommandEvent(RpcPut(put, resp), env)), evs);
            Registered(t.rep, resp) && Answers(t.rep.replies, resp) == 0
  {
    hide Reachable, SysInv, Inv;
    var ask := CommandEvent(RpcPut(put, resp), env);
    var u := Step(s, ask);
    ReachableInv(w, s);
    StepKeepsInv(w, s, ask);
    RunKeepsInv(w, u, evs);
    TakenWaits(w, s, put, resp, env);
    RunKeepsWaiting(w, u, evs, env.callbackId, resp);
    var t := Exec(u, evs);
    assert !DeliveredCall(w, t.rep, env.callbackId);
    hide DeliveredCall, Waiting, Sound, LegalRun;
    WaitingRegistered(w, t, env.callbackId, resp);
  }
}
