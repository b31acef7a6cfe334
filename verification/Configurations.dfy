// Which configuration is on disk: over every run, the last one given.
module Configurations {
  import opened Disk
  import opened RaftTypes
  import opened Replicas
  import opened RoundEffects
  import opened Runs
  import opened World
  import opened Wrappers
  import KvCommand
  import SnapshotCodec

  /** The configurations that raft-rs hands over in a round, in order: the snapshot's, then those of
      the configuration changes that take effect. */
  function GivenIn(ev: Event): seq<ConfState> {
    match ev
    case RoundEvent(r, l, _, conf, _) =>
      (if r.snapshot.Some? then [r.snapshot.value.conf] else []) + Confs(r.committed, conf) + Confs(l.committed, conf)
    case _ => []
  }

  function Joined(parts: seq<seq<ConfState>>): seq<ConfState> {
    if parts == [] then [] else Joined(parts[..|parts| - 1]) + parts[|parts| - 1]
  }

  lemma {:induction false} NoConfs(es: seq<Entry>, conf: ConfResults)
    ensures Confs(es, conf) == [] <==> forall e | e in es :: !Reconfigures(e, conf)
  {
    hide Reconfigures;
    if es != [] {
      NoConfs(es[..|es| - 1], conf);
      assert forall e :: e in es <==> e in es[..|es| - 1] || e == es[|es| - 1];
    }
  }

  lemma {:induction false} LastDecides(es: seq<Entry>, conf: ConfResults, i: nat)
    requires i < |es| && Reconfigures(es[i], conf) && forall j | i < j < |es| :: !Reconfigures(es[j], conf)
    ensures Confs(es, conf) != [] && Confs(es, conf)[|Confs(es, conf)| - 1] == conf[es[i].index]
  {
    hide Reconfigures;
    if i < |es| - 1 {
      LastDecides(es[..|es| - 1], conf, i);
    }
  }

  /** The last configuration change of a list decides, if one takes effect. */
  lemma LastOfConfs(es: seq<Entry>, conf: ConfResults, i: nat)
    ensures Confs(es, conf) == [] <==> forall e | e in es :: e.data == [] || e.kind.EntryNormal? || e.index !in conf
    ensures i < |es| && es[i].data != [] && !es[i].kind.EntryNormal? && es[i].index in conf
            && (forall j | i < j < |es| :: es[j].data == [] || es[j].kind.EntryNormal? || es[j].index !in conf) ==>
              Confs(es, conf) != [] && Confs(es, conf)[|Confs(es, conf)| - 1] == conf[es[i].index]
  {
    hide Confs;
    NoConfs(es, conf);
    assert forall e :: Reconfigures(e, conf) <==> e.data != [] && !e.kind.EntryNormal? && e.index in conf;
    hide Reconfigures;
    if i < |es| && Reconfigures(es[i], conf) && forall j | i < j < |es| :: !Reconfigures(es[j], conf) {
      LastDecides(es, conf, i);
    }
  }

  // ---- effects ---------------------------------------------------------------

  function ConfIn(a: Action): seq<ConfState> {
    match a
    case Persist(InstallSnapshot(s)) => [s.conf]
    case Persist(StoreConf(cs)) => [cs]
    case _ => []
  }

  function ConfsIn(acts: seq<Action>): seq<ConfState> {
    if acts == [] then [] else ConfsIn(acts[..|acts| - 1]) + ConfIn(acts[|acts| - 1])
  }

  lemma {:induction false} ConfsInConcat(a: seq<Action>, b: seq<Action>)
    ensures ConfsIn(a + b) == ConfsIn(a) + ConfsIn(b)
  {
    hide ConfIn;
    if b == [] {
      assert a + b == a;
    } else {
      ConfsInConcat(a, b[..|b| - 1]);
      assert (a + b)[..|a + b| - 1] == a + b[..|b| - 1];
    }
  }

  lemma DoConf(n: Replica, a: Action)
    requires !n.stopped
    ensures var n' := Do(n, a);
            || n'.disk.meta.conf == LastConf(n.disk.meta.conf, ConfIn(a))
            || (n'.stopped && n'.disk.meta.conf == n.disk.meta.conf)
  {
    hide KvCommand.DecodeCommand, LeadershipNotes, SnapshotCodec.Decode;
    hide KeysThrough, RemoveKeys, RemoveThrough, InsertAll;
    if a.Deliver? {
      DeliverFrame(n, a.entry);
    }
  }

  /** A list of effects stores its configurations in order, all of them unless it ends early. */
  lemma {:induction false} PerformConf(n: Replica, acts: seq<Action>) returns (k: nat)
    requires !n.stopped
    ensures k <= |ConfsIn(acts)|
    ensures Perform(n, acts).disk.meta.conf == LastConf(n.disk.meta.conf, ConfsIn(acts)[..k])
    ensures !Perform(n, acts).stopped ==> k == |ConfsIn(acts)|
  {
    hide Do, ConfIn;
    if acts == [] {
      k := 0;
    } else {
      var front, last := acts[..|acts| - 1], acts[|acts| - 1];
      k := PerformConf(n, front);
      var m := Perform(n, front);
      assert ConfsIn(acts)[..k] == ConfsIn(front)[..k];
      if m.stopped {
        StoppedDo(m, last);
      } else {
        DoConf(m, last);
        if Do(m, last).disk.meta.conf == LastConf(m.disk.meta.conf, ConfIn(last)) {
          k := |ConfsIn(acts)|;
          assert ConfsIn(front)[..|ConfsIn(front)|] == ConfsIn(front) && ConfsIn(acts)[..k] == ConfsIn(acts);
        }
      }
    }
  }

  lemma StoppedDo(n: Replica, a: Action)
    requires n.stopped
    ensures Do(n, a) == n
  {
  }

  // ---- rounds ----------------------------------------------------------------

  lemma {:induction false} SendsGiveNone(phase: Phase, messages: seq<Message>, r: Ready)
    ensures ConfsIn(SendActions(phase, messages, r)) == []
  {
    if messages != [] {
      var front := messages[..|messages| - 1];
      SendsGiveNone(phase, front, r);
      ConfsInConcat(SendActions(phase, front, r), [Send(phase, messages[|messages| - 1], r)]);
    }
  }

  lemma NoActions()
    ensures ConfsIn([]) == []
  {
  }

  lemma OneConf(a: Action)
    ensures ConfsIn([a]) == ConfIn(a)
  {
    hide ConfIn;
    assert [a][..0] == [];
    NoActions();
  }

  lemma TwoConfs(a: Action, b: Action)
    ensures ConfsIn([a, b]) == ConfIn(a) + ConfIn(b)
  {
    hide ConfIn;
    assert [a, b][..1] == [a];
    OneConf(a);
  }

  lemma ThreeConfs(a: Action, b: Action, c: Action)
    ensures ConfsIn([a, b, c]) == ConfIn(a) + ConfIn(b) + ConfIn(c)
  {
    hide ConfIn;
    assert [a, b, c][..2] == [a, b];
    TwoConfs(a, b);
  }

  lemma EntryGives(e: Entry, conf: ConfResults)
    ensures ConfsIn(EntryActions(e, conf)) == if Reconfigures(e, conf) then [conf[e.index]] else []
  {
    hide ConfsIn;
    if Delivers(e) {
      TwoConfs(Deliver(e), Persist(StoreApplied(e.index)));
    } else if Reconfigures(e, conf) {
      ThreeConfs(Pass(e, false), Persist(StoreConf(conf[e.index])), Persist(StoreApplied(e.index)));
    } else {
      OneConf(Pass(e, e.data != []));
    }
  }

  lemma {:induction false} EntriesGive(es: seq<Entry>, conf: ConfResults)
    ensures ConfsIn(ApplyActions(es, conf)) == Confs(es, conf)
  {
    hide EntryActions, Reconfigures;
    if es != [] {
      EntriesGive(es[..|es| - 1], conf);
      EntryGives(es[|es| - 1], conf);
      ConfsInConcat(ApplyActions(es[..|es| - 1], conf), EntryActions(es[|es| - 1], conf));
    }
  }

  lemma SnapshotGives(s: Snapshot)
    ensures ConfsIn(SnapshotActions(s)) == [s.conf]
  {
    var install, restore, applied := Persist(InstallSnapshot(s)), Restore(s), Persist(StoreApplied(s.index));
    hide ConfsIn;
    ThreeConfs(install, restore, applied);
    OneConf(Announce(s));
    ConfsInConcat([install, restore, applied], [Announce(s)]);
    assert SnapshotActions(s) == [install, restore, applied] + [Announce(s)];
  }

  lemma StoreGives(r: Ready)
    ensures ConfsIn(StoreActions(r)) == if r.snapshot.Some? then [r.snapshot.value.conf] else []
  {
    hide ConfsIn, SnapshotActions;
    var a := if r.snapshot.Some? then SnapshotActions(r.snapshot.value) else [];
    var b := if r.entries != [] then [Persist(StoreEntries(r.entries))] else [];
    var c := if r.hardState.Some? then [Persist(StoreHard(r.hardState.value))] else [];
    NoActions();
    if r.snapshot.Some? {
      SnapshotGives(r.snapshot.value);
    }
    OneConf(Persist(StoreEntries(r.entries)));
    if r.hardState.Some? {
      OneConf(Persist(StoreHard(r.hardState.value)));
    }
    assert ConfsIn(b) == [] && ConfsIn(c) == [];
    hide ConfIn;
    ConfsInConcat(a + b, c);
    ConfsInConcat(a, b);
    assert StoreActions(r) == a + b + c;
  }

  lemma RoundGives(r: Ready, l: LightReady, view: RaftView, conf: ConfResults, cut: nat)
    ensures ConfsIn(RoundActions(r, l, view, conf)) == GivenIn(RoundEvent(r, l, view, conf, cut))
  {
    hide ConfsIn, SendActions, StoreActions, ApplyActions, Confs;
    var sends, stores := SendActions(Immediate, r.messages, r), StoreActions(r);
    var persisted, light := SendActions(Persisted, r.persistedMessages, r), SendActions(Light, l.messages, r);
    var first, second := ApplyActions(r.committed, conf), ApplyActions(l.committed, conf);
    ConfsInConcat(sends + stores + persisted + first + [ShowState(view)] + light, second);
    ConfsInConcat(sends + stores + persisted + first + [ShowState(view)], light);
    ConfsInConcat(sends + stores + persisted + first, [ShowState(view)]);
    ConfsInConcat(sends + stores + persisted, first);
    ConfsInConcat(sends + stores, persisted);
    ConfsInConcat(sends, stores);
    SendsGiveNone(Immediate, r.messages, r);
    SendsGiveNone(Persisted, r.persistedMessages, r);
    SendsGiveNone(Light, l.messages, r);
    StoreGives(r);
    EntriesGive(r.committed, conf);
    EntriesGive(l.committed, conf);
    OneConf(ShowState(view));
    LeaveOutEmpty(ConfsIn(stores), ConfsIn(first), ConfsIn(second));
    assert RoundActions(r, l, view, conf)
           == sends + stores + persisted + first + [ShowState(view)] + light + second;
    hide ConfIn;
  }

  lemma LeaveOutEmpty(a: seq<ConfState>, b: seq<ConfState>, c: seq<ConfState>)
    ensures [] + a + [] + b + [] + [] + c == a + b + c
  {
  }

  // ---- runs ------------------------------------------------------------------

  /** `given` is what the event gave, or the first of it if the round did not complete. */
  predicate Took(ev: Event, given: seq<ConfState>, stopped: bool) {
    given <= GivenIn(ev) && (!stopped ==> given == GivenIn(ev))
  }

  lemma CommandConf(n: Replica, command: ServerCommand, env: CommandEnv)
    ensures Handle(n, command, env).disk == n.disk
  {
    hide Handle;
    var us := HandleFrame(n, command, env);
  }

  lemma StepConf(w: World, s: Sys, ev: Event) returns (given: seq<ConfState>)
    requires Sound(w) && SysInv(w, s) && Legal(w, s, ev)
    ensures Took(ev, given, Step(s, ev).rep.stopped)
    ensures Step(s, ev).rep.disk.meta.conf == LastConf(s.rep.disk.meta.conf, given)
  {
    hide Sound, SysInv, Legal, Handle, CutRound, RoundActions, Boot;
    given := [];
    match ev {
      case CommandEvent(command, env) => CommandConf(s.rep, command, env);
      case RestartEvent(peers, fuel, written) => Restarted(w, s, peers, fuel, written);
      case RoundEvent(r, l, view, conf, cut) =>
        LegalIsLive(w, s, ev);
        given := RoundConf(s.rep, r, l, view, conf, cut);
    }
  }

  lemma RoundConf(n: Replica, r: Ready, l: LightReady, view: RaftView, conf: ConfResults, cut: nat)
    returns (given: seq<ConfState>)
    requires !n.stopped
    ensures var acts := RoundActions(r, l, view, conf);
            var n' := CutRound(n, acts, if cut <= |acts| then cut else |acts|);
            && Took(RoundEvent(r, l, view, conf, cut), given, n'.stopped)
            && n'.disk.meta.conf == LastConf(n.disk.meta.conf, given)
  {
    hide Perform, RoundActions, GivenIn, ConfsIn, LastConf;
    var acts := RoundActions(r, l, view, conf);
    var done := if cut <= |acts| then cut else |acts|;
    var k := PerformConf(n, acts[..done]);
    RoundGives(r, l, view, conf, cut);
    ConfsInConcat(acts[..done], acts[done..]);
    assert acts[..done] + acts[done..] == acts;
    given := ConfsIn(acts[..done])[..k];
    if done == |acts| {
      assert acts[..done] == acts;
    }
    assert given <= ConfsIn(acts);
  }

  lemma LegalIsLive(w: World, s: Sys, ev: Event)
    requires Sound(w) && Legal(w, s, ev) && ev.RoundEvent?
    ensures !s.rep.stopped
  {
    hide ReadyOk;
  }

  /** The last of the configurations of the first start and those given since. */
  function LastGiven(peers: ConfState, given: seq<seq<ConfState>>): ConfState {
    var all := [peers] + Joined(given);
    all[|all| - 1]
  }

  lemma GivenMore(peers: ConfState, given: seq<seq<ConfState>>, more: seq<ConfState>)
    ensures LastConf(Some(LastGiven(peers, given)), more) == Some(LastGiven(peers, given + [more]))
  {
    assert (given + [more])[..|given|] == given;
  }

  /** Over every run, whatever fails, crashes or restarts: the configuration on disk is that of the
      first start followed by the configurations given since, the last of them; a round that does
      not complete contributes the first of its own, and a restart nothing. */
  lemma {:induction false} ConfigurationStored(w: World, start: Sys, peers: ConfState, fuel: nat, written: nat,
                                               evs: seq<Event>)
    returns (given: seq<seq<ConfState>>)
    requires Sound(w) && peers.voters != [] && start == Sys(Boot(FRESH, peers, fuel, written, []), {}, NO_PAST)
    requires LegalRun(w, start, evs)
    ensures |given| == |evs|
    ensures forall i | 0 <= i < |evs| :: Took(evs[i], given[i], Exec(start, evs[..i + 1]).rep.stopped)
    ensures Exec(start, evs).rep.disk.meta.conf == Some(LastGiven(peers, given))
  {
    FirstConf(peers, fuel, written);
    hide Sound, SysInv, Legal, Step, Took, Boot, FirstStart, LastGiven;
    if evs == [] {
      given := [];
      NothingGiven(peers);
    } else {
      var k := |evs| - 1;
      var front := evs[..k];
      var before := ConfigurationStored(w, start, peers, fuel, written, front);
      FirstStartInv(w, start);
      RunKeepsInv(w, start, front);
      var more := StepConf(w, Exec(start, front), evs[k]);
      hide LegalRun;
      given := before + [more];
      GivenMore(peers, before, more);
      TookMore(start, evs, before, more);
    }
  }

  lemma TookMore(start: Sys, evs: seq<Event>, before: seq<seq<ConfState>>, more: seq<ConfState>)
    requires evs != [] && |before| == |evs| - 1 && Took(evs[|evs| - 1], more, Exec(start, evs).rep.stopped)
    requires var front := evs[..|evs| - 1];
             forall i | 0 <= i < |front| :: Took(front[i], before[i], Exec(start, front[..i + 1]).rep.stopped)
    ensures forall i | 0 <= i < |evs| :: Took(evs[i], (before + [more])[i], Exec(start, evs[..i + 1]).rep.stopped)
  {
    hide Took, Exec;
    var front := evs[..|evs| - 1];
    forall i | 0 <= i < |evs| ensures Took(evs[i], (before + [more])[i], Exec(start, evs[..i + 1]).rep.stopped) {
      if i < |front| {
        assert front[..i + 1] == evs[..i + 1] && front[i] == evs[i];
      } else {
        assert evs[..i + 1] == evs;
      }
    }
  }

  lemma NothingGiven(peers: ConfState)
    ensures LastGiven(peers, []) == peers
  {
    assert Joined([]) == [];
  }

  lemma FirstConf(peers: ConfState, fuel: nat, written: nat)
    requires peers.voters != []
    ensures Boot(FRESH, peers, fuel, written, []).disk.meta.conf == Some(peers)
    ensures FirstStart(Sys(Boot(FRESH, peers, fuel, written, []), {}, NO_PAST))
  {
  }
}
