// The log that a whole history of writes leaves behind, and the history behind every state
// of a run.
module LogHistory {
  import opened Bytes
  import opened Disk
  import opened Invariants
  import opened Licensing
  import opened RaftTypes
  import opened RangeRead
  import opened Replicas
  import opened Runs
  import opened World
  import opened Wrappers

  /** The trees after a sequence of writes. */
  function WriteAll(d: Disk, ws: seq<Write>): Disk {
    if ws == [] then d else Complete(WriteAll(d, ws[..|ws| - 1]), ws[|ws| - 1])
  }

  /** Entries start inside the log or right after it; a snapshot does not go backwards. */
  predicate Fits(l: Log, w: Write) {
    match w
    case StoreEntries(es) => es == [] || (Contiguous(es, es[0].index) && l.base < es[0].index <= l.Last() + 1)
    case InstallSnapshot(s) => l.base <= s.index
    case _ => true
  }

  /** The log after a write: entries overwrite a range, a snapshot drops a prefix. */
  function After(l: Log, w: Write): Log
    requires Fits(l, w)
  {
    match w
    case StoreEntries(es) => if es == [] then l else l.Overwrite(es[0].index, es)
    case InstallSnapshot(s) => l.Compact(s)
    case _ => l
  }

  /** The log after a sequence of writes, if each fits the log it finds. */
  function LogOf(ws: seq<Write>): Option<Log> {
    if ws == [] then Some(Log(0, 0, []))
    else
      match LogOf(ws[..|ws| - 1])
      case None => None
      case Some(l) => if Fits(l, ws[|ws| - 1]) then Some(After(l, ws[|ws| - 1])) else None
  }

  lemma WriteRefines(d: Disk, l: Log, w: Write)
    requires Represents(d, l) && Fits(l, w)
    ensures Represents(Complete(d, w), After(l, w))
    ensures l.Last() <= After(l, w).Last() && l.base <= After(l, w).base
  {
    hide InsertAll, RemoveThrough;
    match w {
      case StoreEntries(es) =>
        if es == [] {
          NothingInserted(d);
        } else {
          hide Represents;
          AppendRefines(d, l, es[0].index, es);
        }
      case InstallSnapshot(s) =>
        hide Represents;
        SnapshotRefines(d, l, s);
      case _ =>
        hide Represents;
        SameEntriesRepresent(d, Complete(d, w), l);
    }
  }

  lemma NothingInserted(d: Disk)
    ensures Append(d, []) == d
  {
  }

  lemma LogOfSnoc(ws: seq<Write>)
    requires ws != [] && LogOf(ws[..|ws| - 1]).Some? && Fits(LogOf(ws[..|ws| - 1]).value, ws[|ws| - 1])
    ensures LogOf(ws) == Some(After(LogOf(ws[..|ws| - 1]).value, ws[|ws| - 1]))
  {
    hide Complete, Fits, After;
  }

  lemma WriteAllSnoc(d: Disk, ws: seq<Write>)
    requires ws != []
    ensures WriteAll(d, ws) == Complete(WriteAll(d, ws[..|ws| - 1]), ws[|ws| - 1])
  {
    hide Complete;
  }

  /** Starting from an empty disk, after every sequence of writes that fit, the trees hold the
      very log that the same writes make of the empty log, and every read answers from it. */
  lemma {:induction false} HistoryRefines(ws: seq<Write>)
    requires LogOf(ws).Some?
    ensures var d, l := WriteAll(FRESH, ws), LogOf(ws).value;
            && Represents(d, l)
            && Base(d) == l.base && LastIndex(d) == l.Last()
            && (l.base + 1 < U64_LIMIT ==> FirstIndex(d) == l.base + 1)
            && (forall i: u64 ::
                  TermOf(d, i) == if i < l.base then NoTerm(Compacted)
                                  else if i == l.base && d.snapshot.Some? then Term(l.baseTerm)
                                  else if l.base < i <= l.Last() then Term(l.At(i).term)
                                  else NoTerm(Unavailable))
  {
    hide Represents, Complete, Fits, After, LastIndex, FirstIndex, TermOf, Log.At;
    if ws == [] {
      FreshRepresents();
    } else {
      HistoryRefines(ws[..|ws| - 1]);
      WriteRefines(WriteAll(FRESH, ws[..|ws| - 1]), LogOf(ws[..|ws| - 1]).value, ws[|ws| - 1]);
    }
    ReadsAgree(WriteAll(FRESH, ws), LogOf(ws).value);
  }

  /** A bounded read after any such history: Compacted exactly at or below the last snapshot,
      otherwise a stretch of that log. */
  lemma HistoryRead(ws: seq<Write>, low: u64, high: u64, max: u64, r: ReadResult)
    requires LogOf(ws).Some? && IsRead(WriteAll(FRESH, ws), low, high, max, r)
    ensures var d, l := WriteAll(FRESH, ws), LogOf(ws).value;
            && (r == ReadFailed(Compacted) <==> low < high && low <= l.base && d.snapshot.Some?)
            && (r.Entries? && r.entries != [] ==>
                  && l.base < low && low + |r.entries| <= high && low + |r.entries| <= l.Last() + 1
                  && r.entries == l.entries[low - l.base - 1..low - l.base - 1 + |r.entries|])
            && (l.base < low <= l.Last() && low < high ==> r.Entries? && r.entries != [])
  {
    hide Represents, IsRead, WriteAll, LogOf;
    HistoryRefines(ws);
    ReadOfLog(WriteAll(FRESH, ws), LogOf(ws).value, low, high, max, r);
  }

  /** Neither the base nor the last index ever goes back. */
  lemma {:induction false} HistoryGrows(ws: seq<Write>, k: nat)
    requires LogOf(ws).Some? && k <= |ws|
    ensures LogOf(ws[..k]).Some?
    ensures LogOf(ws[..k]).value.base <= LogOf(ws).value.base
    ensures LogOf(ws[..k]).value.Last() <= LogOf(ws).value.Last()
    decreases |ws|
  {
    if k == |ws| {
      assert ws[..k] == ws;
    } else {
      var front := ws[..|ws| - 1];
      HistoryGrows(front, k);
      assert front[..k] == ws[..k];
      HistoryRefines(front);
      WriteRefines(WriteAll(FRESH, front), LogOf(front).value, ws[|ws| - 1]);
    }
  }

  // ---- the log Raft asks for --------------------------------------------------------------

  /** The log Raft asks for after a write: nothing stays after new entries, and nothing after a
      snapshot that does not match. */
  function RaftAfter(l: Log, w: Write): Log
    requires Fits(l, w)
  {
    match w
    case StoreEntries(es) => if es == [] then l else l.Replace(es[0].index, es)
    case InstallSnapshot(s) => l.Install(s)
    case _ => l
  }

  /** The log Raft asks for after a sequence of writes, if each fits the one it finds. */
  function RaftLogOf(ws: seq<Write>): Option<Log> {
    if ws == [] then Some(Log(0, 0, []))
    else
      match RaftLogOf(ws[..|ws| - 1])
      case None => None
      case Some(l) => if Fits(l, ws[|ws| - 1]) then Some(RaftAfter(l, ws[|ws| - 1])) else None
  }

  /** The highest last index that log ever had. */
  function Peak(ws: seq<Write>): nat {
    if ws == [] then 0
    else
      var before := Peak(ws[..|ws| - 1]);
      if RaftLogOf(ws).Some? && RaftLogOf(ws).value.Last() > before then RaftLogOf(ws).value.Last() else before
  }

  /** `r` is `l` without some of its last entries. */
  predicate Truncation(r: Log, l: Log) {
    r.base == l.base && r.baseTerm == l.baseTerm && r.entries <= l.entries
  }

  lemma AfterTruncation(r: Log, l: Log, w: Write)
    requires Truncation(r, l) && Fits(r, w)
    ensures Fits(l, w) && Truncation(RaftAfter(r, w), After(l, w))
    ensures After(l, w).Last() == if RaftAfter(r, w).Last() > l.Last() then RaftAfter(r, w).Last() else l.Last()
  {
  }

  /** What is stored is the log Raft asks for and then whatever lay past it at its longest. */
  lemma {:induction false} StoredPastRaft(ws: seq<Write>)
    requires RaftLogOf(ws).Some?
    ensures LogOf(ws).Some? && Truncation(RaftLogOf(ws).value, LogOf(ws).value)
    ensures LogOf(ws).value.Last() == Peak(ws)
  {
    hide Fits, After, RaftAfter;
    if ws != [] {
      hide Truncation;
      var front := ws[..|ws| - 1];
      StoredPastRaft(front);
      AfterTruncation(RaftLogOf(front).value, LogOf(front).value, ws[|ws| - 1]);
      LogOfSnoc(ws);
    }
  }

  /** After any history of writes that Raft's own log allows, the trees hold that log, and a
      restart reads it back, exactly when it is as long as it ever was. */
  lemma HistoryTruncatesIff(ws: seq<Write>)
    requires RaftLogOf(ws).Some?
    ensures Represents(WriteAll(FRESH, ws), RaftLogOf(ws).value) <==> RaftLogOf(ws).value.Last() == Peak(ws)
  {
    hide Represents, WriteAll, LogOf, RaftLogOf, Peak, TermOf, FirstIndex, LastIndex, Base;
    StoredPastRaft(ws);
    HistoryRefines(ws);
    var d, l, r := WriteAll(FRESH, ws), LogOf(ws).value, RaftLogOf(ws).value;
    if r.Last() == l.Last() {
      assert r.entries == l.entries;
    } else if Represents(d, r) {
      LogUnique(d, l, r);
    }
  }

  // ---- in a run -------------------------------------------------------------------------

  /** The disk is what some history of fitting writes left. */
  ghost predicate Written(d: Disk) {
    exists ws :: LogOf(ws).Some? && d == WriteAll(FRESH, ws)
  }

  lemma WriteMore(d: Disk, ws: seq<Write>, w: Write)
    requires LogOf(ws).Some? && d == WriteAll(FRESH, ws) && Fits(LogOf(ws).value, w)
    ensures Written(Complete(d, w))
  {
    hide Complete, Fits, After, Represents, LogOf, WriteAll;
    var more := ws + [w];
    assert more[..|more| - 1] == ws && more[|more| - 1] == w;
    LogOfSnoc(more);
    WriteAllSnoc(FRESH, more);
  }

  /** An effect in order extends the history by one write, by part of one, or not at all. */
  lemma WriteKeepsWritten(w: World, n: Replica, write: Write)
    requires Sound(w) && !n.stopped && Enabled(w, n, Persist(write)) && Written(n.disk)
    ensures Written(Do(n, Persist(write)).disk)
  {
    var ws :| LogOf(ws).Some? && n.disk == WriteAll(FRESH, ws);
    HistoryRefines(ws);
    WriteFits(w, n, LogOf(ws).value, write);
    var part := PartWritten(w, n, LogOf(ws).value, write);
    hide Enabled, Fits, Written, Interrupted, Complete, LogOf, WriteAll, Represents, LastIndex, FirstIndex, TermOf;
    WriteMore(n.disk, ws, write);
    if part.Some? {
      WriteMore(n.disk, ws, part.value);
    }
    AfterPersist(n, write);
  }

  lemma AfterPersist(n: Replica, write: Write)
    requires !n.stopped
    ensures Do(n, Persist(write)).disk
            == if n.fuel == 0 then Interrupted(n.disk, write, n.written) else Complete(n.disk, write)
  {
    hide Interrupted, Complete;
  }

  lemma WriteFits(w: World, n: Replica, l: Log, write: Write)
    requires Sound(w) && !n.stopped && Enabled(w, n, Persist(write))
    requires Base(n.disk) == l.base && LastIndex(n.disk) == l.Last()
    ensures Fits(l, write)
  {
    hide HoldsCommitted, CarriesMap, LastIndex;
  }

  /** What an interrupted write leaves is what a write of part of it would, or nothing. */
  lemma PartWritten(w: World, n: Replica, l: Log, write: Write) returns (part: Option<Write>)
    requires Sound(w) && !n.stopped && Enabled(w, n, Persist(write)) && Fits(l, write)
    ensures part.Some? ==> Fits(l, part.value)
    ensures n.fuel == 0 ==>
              Interrupted(n.disk, write, n.written) == if part.Some? then Complete(n.disk, part.value) else n.disk
  {
    hide HoldsCommitted, CarriesMap, LastIndex, InsertAll, KeysThrough, RemoveKeys, RemoveThrough;
    match write {
      case StoreEntries(es) =>
        part := Some(StoreEntries(Take(es, n.written)));
      case InstallSnapshot(s) =>
        part := if n.written == 0 then None else Some(write);
        if n.written >= 2 + |Covered(n.disk, s)| {
          AllRemoved(n.disk, s, n.written);
        }
      case _ =>
        part := if n.written == 0 then None else Some(write);
    }
  }

  lemma {:induction false} LicensedKeepsWritten(w: World, n: Replica, acts: seq<Action>, cut: nat)
    requires Sound(w) && Licensed(w, n, acts) && cut <= |acts| && Written(n.disk)
    ensures Written(Perform(n, acts[..cut]).disk)
    decreases |acts|
  {
    hide Written, Sound, Enabled, Do;
    if cut < |acts| {
      LicensedKeepsWritten(w, n, acts[..|acts| - 1], cut);
      assert acts[..|acts| - 1][..cut] == acts[..cut];
    } else {
      assert acts[..cut] == acts;
      if acts != [] {
        var front, last := acts[..|acts| - 1], acts[|acts| - 1];
        LicensedKeepsWritten(w, n, front, |front|);
        assert front[..|front|] == front;
        var m := Perform(n, front);
        DiskChangesByPersist(m, last);
        if last.Persist? && !m.stopped {
          WriteKeepsWritten(w, m, last.write);
        }
      }
    }
  }

  lemma StepKeepsWritten(w: World, s: Sys, ev: Event)
    requires Sound(w) && SysInv(w, s) && Legal(w, s, ev) && Written(s.rep.disk)
    ensures Written(Step(s, ev).rep.disk)
  {
    hide Written, Sound, SysInv, ReadyOk, Licensed, Perform, RoundActions, UserNote;
    match ev {
      case CommandEvent(command, env) =>
      case RoundEvent(r, l, view, conf, cut) =>
        var acts := RoundActions(r, l, view, conf);
        RoundLicensed(w, s.rep, r, l, view, conf);
        LicensedKeepsWritten(w, s.rep, acts, if cut <= |acts| then cut else |acts|);
      case RestartEvent(peers, _, _) =>
        VotersOf(w, s);
    }
  }

  lemma VotersOf(w: World, s: Sys)
    requires Sound(w) && SysInv(w, s)
    ensures HasVoters(s.rep.disk)
  {
  }

  lemma FirstWritten(peers: ConfState)
    ensures Written(Prepared(FRESH, peers))
  {
    var w := InstallSnapshot(EmptySnapshot(peers));
    var none: seq<Write> := [];
    assert LogOf(none) == Some(Log(0, 0, [])) && WriteAll(FRESH, none) == FRESH;
    hide ApplySnapshot, LogOf, WriteAll, Written;
    WriteMore(FRESH, none, w);
    assert Complete(FRESH, w) == ApplySnapshot(FRESH, EmptySnapshot(peers));
  }

  lemma {:induction false} RunWritten(w: World, start: Sys, evs: seq<Event>)
    requires Sound(w) && FirstStart(start) && LegalRun(w, start, evs)
    ensures SysInv(w, Exec(start, evs)) && Written(Exec(start, evs).rep.disk)
  {
    hide Sound, SysInv, Written, Step, Legal, Prepared;
    FirstStartInv(w, start);
    RunKeepsInv(w, start, evs);
    if evs == [] {
      var peers: ConfState, fuel: nat, written: nat :|
        peers.voters != [] && start == Sys(Boot(FRESH, peers, fuel, written, []), {}, NO_PAST);
      FirstWritten(peers);
    } else {
      RunWritten(w, start, evs[..|evs| - 1]);
      StepKeepsWritten(w, Exec(start, evs[..|evs| - 1]), evs[|evs| - 1]);
    }
  }

  /** At every crash point of every run the disk is what a history of contiguous appends and
      non-decreasing snapshots left, and it holds that history's log, which contains the durable
      commit index. */
  lemma ReachableLog(w: World, s: Sys) returns (ws: seq<Write>)
    requires Sound(w) && Reachable(w, s)
    ensures LogOf(ws).Some? && s.rep.disk == WriteAll(FRESH, ws) && Represents(s.rep.disk, LogOf(ws).value)
    ensures CommitOf(s.rep.disk) <= LogOf(ws).value.Last()
  {
    hide Sound, SysInv, LegalRun, FirstStart, Exec, Written, LogOf, WriteAll, Represents, LastIndex;
    var start, evs :| FirstStart(start) && LegalRun(w, start, evs) && s == Exec(start, evs);
    RunWritten(w, start, evs);
    ws := HistoryOf(s.rep.disk);
    HistoryRefines(ws);
    CommitStored(w, s);
  }

  lemma HistoryOf(d: Disk) returns (ws: seq<Write>)
    requires Written(d)
    ensures LogOf(ws).Some? && d == WriteAll(FRESH, ws)
  {
    ws :| LogOf(ws).Some? && d == WriteAll(FRESH, ws);
  }

  lemma CommitStored(w: World, s: Sys)
    requires Sound(w) && SysInv(w, s)
    ensures CommitOf(s.rep.disk) <= LastIndex(s.rep.disk)
  {
    hide LastIndex;
  }
}
