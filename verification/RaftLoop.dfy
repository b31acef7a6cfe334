// The driver: takes one input per turn, then processes a ready state if there is one.
module RaftLoop {
  import opened CommandHandler
  import opened Process
  import opened RaftTypes
  import opened ReadyProcessor
  import opened Replicas
  import opened Wrappers
  import KvNodes = Node
  import RaftNodes = RaftNode

  /** What the select picked. Raft messages and ticks change raft-rs only. */
  datatype Arrival =
    | Command(command: ServerCommand, env: CommandEnv)
    | RaftMessage
    | Timeout
    | Shutdown
    | CommandsClosed
    | MessagesClosed

  datatype Round = Round(ready: Ready, light: LightReady, view: RaftView, conf: ConfResults)

  /** One iteration: an input, and the ready state that is then pending, if any. */
  datatype Turn = Turn(arrival: Arrival, round: Option<Round>)

  datatype Exit = Running | Clean | CommandChannelClosed | MessageChannelClosed | Failed

  function TakeInput(n: Replica, a: Arrival): Replica {
    if a.Command? then Handle(n, a.command, a.env) else n
  }

  function TakeRound(n: Replica, round: Option<Round>): Replica {
    match round
    case None => n
    case Some(r) => Perform(n, RoundActions(r.ready, r.light, r.view, r.conf))
  }

  function ExitOn(a: Arrival): Exit {
    match a
    case Shutdown => Clean
    case CommandsClosed => CommandChannelClosed
    case MessagesClosed => MessageChannelClosed
    case _ => Running
  }

  /** A shutdown signal or a closed channel; a quiet tick is not among them. */
  predicate EndsLoop(a: Arrival) {
    a.Shutdown? || a.CommandsClosed? || a.MessagesClosed?
  }

  /** The loop over a finite stretch of turns. */
  function RunTurns(n: Replica, turns: seq<Turn>): (Replica, Exit)
    decreases |turns|
  {
    if turns == [] then (n, Running)
    else if !ExitOn(turns[0].arrival).Running? then (n, ExitOn(turns[0].arrival))
    else
      var n' := TakeRound(TakeInput(n, turns[0].arrival), turns[0].round);
      if n'.stopped then (n', Failed) else RunTurns(n', turns[1..])
  }

  class RaftDriver {
    const raft: RaftNodes.RaftNode
    const node: KvNodes.KvNode
    const out: Outbox

    constructor (raft: RaftNodes.RaftNode, node: KvNodes.KvNode, out: Outbox)
      ensures this.raft == raft && this.node == node && this.out == out
    {
      this.raft, this.node, this.out := raft, node, out;
    }

    ghost function State(): Replica
      reads this, raft, raft.store, node, out
    {
      View(raft, node, out)
    }

    method Run(turns: seq<Turn>) returns (exit: Exit)
      requires raft.store.Synced()
      modifies raft`callbacks, raft.store, node, out
      ensures (State().(stopped := exit.Failed?), exit) == RunTurns(old(State()), turns)
      ensures !exit.Failed? ==> raft.store.Synced()
      ensures exit.Running? ==> forall j | 0 <= j < |turns| :: !EndsLoop(turns[j].arrival)
      ensures exit.Failed? ==>
                exists k ::
                  0 <= k < |turns| && turns[k].round.Some? && forall j | 0 <= j <= k :: !EndsLoop(turns[j].arrival)
      ensures !exit.Running? && !exit.Failed? ==>
                exists k ::
                  && 0 <= k < |turns| && (forall j | 0 <= j < k :: !EndsLoop(turns[j].arrival))
                  && (exit.Clean? <==> turns[k].arrival.Shutdown?)
                  && (exit.CommandChannelClosed? <==> turns[k].arrival.CommandsClosed?)
                  && (exit.MessageChannelClosed? <==> turns[k].arrival.MessagesClosed?)
    {
      hide Handle, Perform, RoundActions, View;
      ghost var n := State();
      for i := 0 to |turns|
        invariant raft.store.Synced()
        invariant RunTurns(n, turns) == RunTurns(State(), turns[i..])
        invariant forall j | 0 <= j < i :: !EndsLoop(turns[j].arrival)
      {
        var turn := turns[i];
        assert turns[i..][0] == turn && turns[i..][1..] == turns[i + 1..];
        match turn.arrival {
          case Command(command, env) => HandleCommand(raft, node, out, command, env);
          case Shutdown => return Clean;
          case CommandsClosed => return CommandChannelClosed;
          case MessagesClosed => return MessageChannelClosed;
          case _ =>
        }
        if turn.round.None? { continue; }
        var r := turn.round.value;
        var ok := ProcessReady(raft, node, out, r.ready, r.light, r.view, r.conf);
        if !ok { return Failed; }
      }
      return Running;
    }
  }
}
