// Which inputs end the driver's loop, and the run it is until then.
module LoopRuns {
  import opened RaftLoop
  import opened Replicas
  import opened Runs
  import opened Server

  /** One command event for each command that arrives and one whole round for each ready state
      that is pending, in order. */
  function Events(turns: seq<Turn>): seq<Event> {
    if turns == [] then []
    else
      (match turns[0].arrival
       case Command(command, env) => [CommandEvent(command, env)]
       case _ => [])
      + (match turns[0].round
         case None => []
         case Some(r) =>
           [RoundEvent(r.ready, r.light, r.view, r.conf, |RoundActions(r.ready, r.light, r.view, r.conf)|)])
      + Events(turns[1..])
  }

  /** An error has ended the run of the first `j` turns. */
  predicate StoppedAfter(s: Sys, turns: seq<Turn>, j: nat)
    requires j <= |turns|
  {
    Exec(s, Events(turns[..j])).rep.stopped
  }

  lemma EventsOfTurn(turns: seq<Turn>)
    requires turns != []
    ensures Events(turns) == (InputEvents(turns[0].arrival) + RoundEvents(turns[0].round)) + Events(turns[1..])
  {
    hide RoundActions;
  }

  lemma FirstTurn(s: Sys, turns: seq<Turn>, j: nat)
    requires 0 < j <= |turns|
    ensures Exec(s, Events(turns[..j]))
            == Exec(Exec(s, InputEvents(turns[0].arrival) + RoundEvents(turns[0].round)), Events(turns[1..][..j - 1]))
  {
    hide Step, RoundActions, InputEvents, RoundEvents;
    EventsOfTurn(turns[..j]);
    assert turns[..j][1..] == turns[1..][..j - 1];
    ExecConcat(s, InputEvents(turns[0].arrival) + RoundEvents(turns[0].round), Events(turns[1..][..j - 1]));
  }

  lemma NoEvents(s: Sys)
    ensures Events([]) == [] && Exec(s, []) == s
  {
  }

  /** A turn without such an arrival is taken; the loop goes on unless it stopped. */
  lemma TurnTaken(s: Sys, turns: seq<Turn>)
    requires turns != [] && !EndsLoop(turns[0].arrival)
    ensures var here := InputEvents(turns[0].arrival) + RoundEvents(turns[0].round);
            var t := Exec(s, here);
            if t.rep.stopped then RunTurns(s.rep, turns) == (t.rep, Failed) && TurnEvents(s.rep, turns) == here
            else RunTurns(s.rep, turns) == RunTurns(t.rep, turns[1..])
                 && TurnEvents(s.rep, turns) == here + TurnEvents(t.rep, turns[1..])
  {
    hide Exec, TakeInput, TakeRound, InputEvents, RoundEvents;
    ExecTurn(s, turns[0]);
    var here := InputEvents(turns[0].arrival) + RoundEvents(turns[0].round);
    assert here + [] == here;
  }

  function ExitFor(a: Arrival): (exit: Exit)
    requires EndsLoop(a)
    ensures exit.Clean? <==> a.Shutdown?
    ensures exit.CommandChannelClosed? <==> a.CommandsClosed?
    ensures exit.MessageChannelClosed? <==> a.MessagesClosed?
    ensures !exit.Running? && !exit.Failed?
  {
    if a.Shutdown? then Clean else if a.CommandsClosed? then CommandChannelClosed else MessageChannelClosed
  }

  lemma NoTurn(n: Replica, turns: seq<Turn>)
    requires turns != [] ==> EndsLoop(turns[0].arrival)
    ensures RunTurns(n, turns) == (n, if turns == [] then Running else ExitFor(turns[0].arrival))
    ensures TurnEvents(n, turns) == []
  {
    hide RoundEvents, InputEvents, TakeInput, TakeRound;
  }

  /** `k` is the first turn on which a shutdown signal or a closed channel arrives, or there is
      none. The loop takes turns until then or through the first whose round stops it; what it
      leaves is the run of exactly the commands and rounds of those turns; and how it ends names
      the reason. */
  lemma {:induction false} LoopOutcome(s: Sys, turns: seq<Turn>, k: nat) returns (taken: nat)
    requires k <= |turns| && forall j | 0 <= j < k :: !EndsLoop(turns[j].arrival)
    requires k < |turns| ==> EndsLoop(turns[k].arrival)
    ensures taken <= k && forall j | 0 < j < taken :: !StoppedAfter(s, turns, j)
    ensures RunTurns(s.rep, turns).0 == Exec(s, Events(turns[..taken])).rep
    ensures TurnEvents(s.rep, turns) == Events(turns[..taken])
    ensures if taken > 0 && StoppedAfter(s, turns, taken) then RunTurns(s.rep, turns).1 == Failed
            else taken == k && RunTurns(s.rep, turns).1 == if k == |turns| then Running else ExitFor(turns[k].arrival)
    decreases k
  {
    hide *;
    assert turns[..0] == [];
    NoEvents(s);
    if k == 0 {
      NoTurn(s.rep, turns);
      taken := 0;
    } else {
      var here := InputEvents(turns[0].arrival) + RoundEvents(turns[0].round);
      var t := Exec(s, here);
      TurnTaken(s, turns);
      NoEvents(t);
      if t.rep.stopped {
        taken := 1;
        OneTurn(s, turns);
      } else {
        taken := LoopOutcome(t, turns[1..], k - 1);
        LaterTurns(s, turns, t, taken);
        taken := taken + 1;
      }
    }
  }

  lemma OneTurn(s: Sys, turns: seq<Turn>)
    requires turns != []
    ensures var here := InputEvents(turns[0].arrival) + RoundEvents(turns[0].round);
            Events(turns[..1]) == here && (StoppedAfter(s, turns, 1) <==> Exec(s, here).rep.stopped)
  {
    hide InputEvents, RoundEvents, Exec;
    EventsOfTurn(turns[..1]);
    assert turns[..1][1..] == [];
    var here := InputEvents(turns[0].arrival) + RoundEvents(turns[0].round);
    assert here + [] == here;
  }

  /** The turns after the first are those of a run from the state it leaves. */
  lemma LaterTurns(s: Sys, turns: seq<Turn>, t: Sys, later: nat)
    requires turns != [] && t == Exec(s, InputEvents(turns[0].arrival) + RoundEvents(turns[0].round))
    requires !t.rep.stopped && later <= |turns| - 1 && forall j | 0 < j < later :: !StoppedAfter(t, turns[1..], j)
    ensures Exec(s, Events(turns[..later + 1])) == Exec(t, Events(turns[1..][..later]))
    ensures Events(turns[..later + 1])
            == InputEvents(turns[0].arrival) + RoundEvents(turns[0].round) + Events(turns[1..][..later])
    ensures StoppedAfter(s, turns, later + 1) <==> later > 0 && StoppedAfter(t, turns[1..], later)
    ensures forall j | 0 < j < later + 1 :: !StoppedAfter(s, turns, j)
  {
    hide InputEvents, RoundEvents, Exec, Events;
    NoEvents(t);
    EventsOfTurn(turns[..later + 1]);
    assert turns[..later + 1][1..] == turns[1..][..later];
    FirstTurn(s, turns, later + 1);
    forall j | 0 < j < later + 1 ensures !StoppedAfter(s, turns, j) {
      FirstTurn(s, turns, j);
      if j > 1 {
        assert !StoppedAfter(t, turns[1..], j - 1);
      } else {
        assert turns[1..][..0] == [];
      }
    }
    if later == 0 {
      assert turns[1..][..0] == [];
    }
  }

  /** The loop fails exactly when some round before the first such arrival stops it. */
  lemma LoopFailsIff(s: Sys, turns: seq<Turn>, k: nat)
    requires k <= |turns| && forall j | 0 <= j < k :: !EndsLoop(turns[j].arrival)
    requires k < |turns| ==> EndsLoop(turns[k].arrival)
    ensures RunTurns(s.rep, turns).1.Failed? <==> exists j :: 0 < j <= k && StoppedAfter(s, turns, j)
  {
    hide *;
    var taken := LoopOutcome(s, turns, k);
  }
}
