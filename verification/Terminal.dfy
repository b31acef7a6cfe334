// The terminal's mirror of the node: a map, the latest state and the last
// hundred messages, fed by the queue of state updates.
module Terminal {
  import opened Bincode
  import opened Bytes
  import opened KvCommand
  import opened RaftTypes
  import opened Replicas
  import opened StateMachine
  import opened Wrappers

  const MAX_MESSAGES := 100

  /** System message lines before they are formatted as text. */
  datatype Line = UpdateLine(put: Put) | EntryLine(index: u64, term: u64, put: Put) | NoteLine(note: Note)

  function LineOf(u: StateUpdate): seq<Line> {
    match u
    case RaftState(_, _) => []
    case KvUpdate(p) => [UpdateLine(p)]
    case LogEntry(index, term, p) => [EntryLine(index, term, p)]
    case SystemMessage(note) => [NoteLine(note)]
  }

  function Lines(us: seq<StateUpdate>): seq<Line> {
    if us == [] then [] else Lines(us[..|us| - 1]) + LineOf(us[|us| - 1])
  }

  function Show(m: KvMap, u: StateUpdate): KvMap {
    if u.KvUpdate? then Assign(m, u.put) else m
  }

  /** The map on screen after a sequence of updates. */
  function Shown(m: KvMap, us: seq<StateUpdate>): KvMap {
    if us == [] then m else Show(Shown(m, us[..|us| - 1]), us[|us| - 1])
  }

  function Newest(lines: seq<Line>): seq<Line> {
    if |lines| <= MAX_MESSAGES then lines else lines[|lines| - MAX_MESSAGES..]
  }

  lemma {:induction false} ShownConcat(m: KvMap, a: seq<StateUpdate>, b: seq<StateUpdate>)
    ensures Shown(m, a + b) == Shown(Shown(m, a), b)
  {
    if b == [] {
      assert a + b == a;
    } else {
      ShownConcat(m, a, b[..|b| - 1]);
      assert (a + b)[..|a + b| - 1] == a + b[..|b| - 1];
    }
  }

  /** Updates without a key-value change show nothing new. */
  lemma {:induction false} ShownQuiet(m: KvMap, us: seq<StateUpdate>)
    requires forall i | 0 <= i < |us| :: !us[i].KvUpdate?
    ensures Shown(m, us) == m
  {
    if us != [] {
      ShownQuiet(m, us[..|us| - 1]);
    }
  }

  class App {
    var kvStore: KvMap
    var raftState: Option<(RaftView, u64)>
    var systemMessages: seq<Line>

    constructor ()
      ensures kvStore == map[] && raftState == None && systemMessages == []
    {
      kvStore, raftState, systemMessages := map[], None, [];
    }

    /** A ring buffer: the oldest line makes room for the new one. */
    method AddSystemMessage(line: Line)
      requires |systemMessages| <= MAX_MESSAGES
      modifies this`systemMessages
      ensures |systemMessages| <= MAX_MESSAGES
      ensures systemMessages == Newest(old(systemMessages) + [line])
      ensures systemMessages == (if |old(systemMessages)| < 100 then old(systemMessages) else old(systemMessages)[1..])
                                + [line]
    {
      if |systemMessages| >= MAX_MESSAGES {
        systemMessages := systemMessages[1..];
      }
      systemMessages := systemMessages + [line];
    }

    method ApplyStateUpdate(update: StateUpdate)
      requires |systemMessages| <= MAX_MESSAGES
      modifies this
      ensures |systemMessages| <= MAX_MESSAGES
      ensures kvStore == Show(old(kvStore), update)
      ensures systemMessages == Newest(old(systemMessages) + LineOf(update))
      ensures var kept := if |old(systemMessages)| < 100 then old(systemMessages) else old(systemMessages)[1..];
              match update
              case RaftState(view, applied) =>
                kvStore == old(kvStore) && raftState == Some((view, applied)) && systemMessages == old(systemMessages)
              case KvUpdate(p) =>
                && kvStore == old(kvStore)[p.key := p.value] && raftState == old(raftState)
                && systemMessages == kept + [UpdateLine(p)]
              case LogEntry(index, term, p) =>
                && kvStore == old(kvStore) && raftState == old(raftState)
                && systemMessages == kept + [EntryLine(index, term, p)]
              case SystemMessage(note) =>
                && kvStore == old(kvStore) && raftState == old(raftState)
                && systemMessages == kept + [NoteLine(note)]
    {
      NewestOfFew(systemMessages);
      hide Newest;
      match update {
        case RaftState(view, applied) =>
          raftState := Some((view, applied));
        case KvUpdate(p) =>
          kvStore := kvStore[p.key := p.value];
          AddSystemMessage(UpdateLine(p));
        case LogEntry(index, term, p) => AddSystemMessage(EntryLine(index, term, p));
        case SystemMessage(note) => AddSystemMessage(NoteLine(note));
      }
    }

    /** Empties the queue: the map shows every update, the buffer holds the newest lines. */
    method Drain(updates: seq<StateUpdate>)
      requires |systemMessages| <= MAX_MESSAGES
      modifies this
      ensures |systemMessages| <= MAX_MESSAGES
      ensures kvStore == Shown(old(kvStore), updates)
      ensures var all := old(systemMessages) + Lines(updates);
              systemMessages == if |all| <= 100 then all else all[|all| - 100..]
    {
      for i := 0 to |updates|
        invariant |systemMessages| <= MAX_MESSAGES
        invariant kvStore == Shown(old(kvStore), updates[..i])
        invariant systemMessages == Newest(old(systemMessages) + Lines(updates[..i]))
      {
        NewestStep(old(systemMessages), updates, i);
        ApplyStateUpdate(updates[i]);
        assert updates[..i + 1][..i] == updates[..i];
      }
      assert updates[..|updates|] == updates;
    }
  }

  lemma NewestOfFew(lines: seq<Line>)
    ensures |lines| <= MAX_MESSAGES ==> Newest(lines + []) == lines
  {
    assert lines + [] == lines;
  }

  /** Dropping old lines early or late makes no difference. */
  lemma NewestAppend(all: seq<Line>, more: seq<Line>)
    ensures Newest(Newest(all) + more) == Newest(all + more)
  {
    if |all| > MAX_MESSAGES {
      DropEarly(all, more, |all| - MAX_MESSAGES);
    }
  }

  lemma DropEarly(all: seq<Line>, more: seq<Line>, dropped: nat)
    requires dropped <= |all|
    ensures (all + more)[dropped + |more|..] == (all[dropped..] + more)[|more|..]
  {
  }

  lemma NewestStep(before: seq<Line>, us: seq<StateUpdate>, i: nat)
    requires i < |us|
    ensures Newest(Newest(before + Lines(us[..i])) + LineOf(us[i])) == Newest(before + Lines(us[..i + 1]))
  {
    hide Newest, LineOf;
    NewestAppend(before + Lines(us[..i]), LineOf(us[i]));
    assert us[..i + 1][..i] == us[..i];
    assert before + Lines(us[..i + 1]) == before + Lines(us[..i]) + LineOf(us[i]);
  }
}
