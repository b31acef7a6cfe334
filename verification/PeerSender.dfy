// The thread that sends one peer's queue over a connection that may fail at any
// point, and what the peer then reads.
module PeerSender {
  import opened Bytes
  import opened Framing
  import opened RaftTypes
  import opened Wrappers

  const MAX_RETRIES := 3

  /** What happens to a write: the connection takes all of it, or breaks after some bytes. Bytes
      that were taken may still be lost on the way when the connection breaks later. */
  datatype Fate = Delivered | Broken(bytes: nat)

  /** The network, by attempt number. */
  datatype Network = Network(connects: nat -> bool, writes: nat -> Fate)

  /** One attempt for queue position `msg`, on connection `conn` unless connecting failed. */
  datatype Attempt = Attempt(msg: nat, tries: nat, conn: Option<nat>, sent: bool, bytes: nat)

  /** The attempt settles its message: it was sent or had its last chance. */
  predicate Settles(a: Attempt) {
    a.sent || a.tries == MAX_RETRIES
  }

  /** Attempts follow the queue: a settled message makes room for the next, any other is retried. */
  predicate Paced(log: seq<Attempt>) {
    && (forall a | 0 <= a < |log| :: 1 <= log[a].tries <= MAX_RETRIES)
    && (log != [] ==> log[0].msg == 0 && log[0].tries == 1)
    && (forall a | 0 < a < |log| ::
          if Settles(log[a - 1]) then log[a].msg == log[a - 1].msg + 1 && log[a].tries == 1
          else log[a].msg == log[a - 1].msg && log[a].tries == log[a - 1].tries + 1)
  }

  /** The last attempt settles the last message of the queue. */
  predicate Finished(log: seq<Attempt>, count: nat) {
    if log == [] then count == 0 else log[|log| - 1].msg == count - 1 && Settles(log[|log| - 1])
  }

  /** A connection is kept while writes succeed and replaced by a new one after a failure. */
  predicate Connected(log: seq<Attempt>, net: Network) {
    forall a | 0 <= a < |log| :: AttemptOn(log, net, a)
  }

  predicate AttemptOn(log: seq<Attempt>, net: Network, a: nat)
    requires a < |log|
  {
    && (log[a].sent <==> log[a].conn.Some? && net.writes(a).Delivered?)
    && (net.writes(a).Broken? ==> log[a].bytes == net.writes(a).bytes)
    && if a > 0 && log[a - 1].sent then log[a].conn == log[a - 1].conn
       else if net.connects(a) then log[a].conn.Some? && NewConnection(log, a)
       else log[a].conn == None
  }

  predicate NewConnection(log: seq<Attempt>, a: nat)
    requires a < |log| && log[a].conn.Some?
  {
    forall b | 0 <= b < a && log[b].conn.Some? :: log[b].conn.value < log[a].conn.value
  }

  /** The bytes an attempt puts on its connection. */
  function BytesOf(c: Codec, queue: seq<Message>, a: Attempt): seq<byte>
    requires a.msg < |queue|
  {
    if a.sent then Frame(c, queue[a.msg]) else Take(Frame(c, queue[a.msg]), a.bytes)
  }

  predicate InQueue(log: seq<Attempt>, queue: seq<Message>) {
    forall a | 0 <= a < |log| :: log[a].msg < |queue|
  }

  /** Everything that went over connection `id`. */
  function Carried(c: Codec, queue: seq<Message>, log: seq<Attempt>, id: nat): seq<byte>
    requires InQueue(log, queue)
  {
    if log == [] then []
    else
      var last := log[|log| - 1];
      Carried(c, queue, log[..|log| - 1], id)
      + (if last.conn == Some(id) then BytesOf(c, queue, last) else [])
  }

  /** The messages whose write on connection `id` succeeded, in order. */
  function SentOn(queue: seq<Message>, log: seq<Attempt>, id: nat): seq<Message>
    requires InQueue(log, queue)
  {
    if log == [] then []
    else
      var last := log[|log| - 1];
      SentOn(queue, log[..|log| - 1], id)
      + (if last.conn == Some(id) && last.sent then [queue[last.msg]] else [])
  }

  /** Works through the queue; `conns` collects the bytes of every connection opened. */
  method SendQueue(c: Codec, queue: seq<Message>, net: Network)
    returns (log: seq<Attempt>, conns: seq<seq<byte>>)
    ensures Paced(log) && Finished(log, |queue|) && InQueue(log, queue) && Connected(log, net)
    ensures forall id | 0 <= id < |conns| :: conns[id] == Carried(c, queue, log, id)
    ensures forall a | 0 <= a < |log| && log[a].conn.Some? :: log[a].conn.value < |conns|
    ensures forall a | 0 <= a < |log| ::
              && (log[a].sent <==> log[a].conn.Some? && net.writes(a).Delivered?)
              && (if a > 0 && log[a - 1].sent then log[a].conn == log[a - 1].conn
                  else log[a].conn.Some? <==> net.connects(a))
  {
    hide Carried, Connected, InQueue, Paced, Frame;
    EmptyLog(c, queue, net);
    log, conns := [], [];
    var stream: Option<nat> := None;
    for i := 0 to |queue|
      invariant Sending(c, queue, net, log, conns, stream)
      invariant Finished(log, i)
    {
      var sent, attempt := false, 0;
      while !sent && attempt < MAX_RETRIES
        invariant attempt <= MAX_RETRIES
        invariant Sending(c, queue, net, log, conns, stream)
        invariant attempt == 0 ==> !sent && Finished(log, i)
        invariant attempt > 0 ==> log != [] && log[|log| - 1].msg == i
                                  && log[|log| - 1].tries == attempt && log[|log| - 1].sent == sent
        decreases MAX_RETRIES - attempt
      {
        attempt := attempt + 1;
        ghost var before, earlier, was := log, conns, stream;
        if stream.None? {
          if !net.connects(|log|) {
            log := log + [Attempt(i, attempt, None, false, BrokenBytes(net, |log|))];
            Extended(c, queue, net, before, log, earlier, conns, was, stream);
            continue;
          }
          stream, conns := Some(|conns|), conns + [[]];
        }
        var id := stream.value;
        stream := None;
        var fate := net.writes(|log|);
        match fate {
          case Delivered =>
            conns := conns[id := conns[id] + Frame(c, queue[i])];
            sent, stream := true, Some(id);
          case Broken(bytes) =>
            conns := conns[id := conns[id] + Take(Frame(c, queue[i]), bytes)];
        }
        log := log + [Attempt(i, attempt, Some(id), sent, BrokenBytes(net, |log|))];
        ghost var put := BytesOf(c, queue, log[|log| - 1]);
        assert was.None? ==> [] + put == put && conns[id] == put;
        assert was.None? ==> conns == earlier + [BytesOf(c, queue, log[|log| - 1])];
        Extended(c, queue, net, before, log, earlier, conns, was, stream);
      }
    }
    ConnectionRules(log, net);
  }

  /** Success is an accepted write; after it the connection is kept; otherwise there is one exactly
      if connecting anew succeeds. */
  lemma ConnectionRules(log: seq<Attempt>, net: Network)
    requires Connected(log, net)
    ensures forall a | 0 <= a < |log| ::
              && (log[a].sent <==> log[a].conn.Some? && net.writes(a).Delivered?)
              && (if a > 0 && log[a - 1].sent then log[a].conn == log[a - 1].conn
                  else log[a].conn.Some? <==> net.connects(a))
  {
    hide NewConnection;
    forall a | 0 <= a < |log|
      ensures log[a].sent <==> log[a].conn.Some? && net.writes(a).Delivered?
      ensures if a > 0 && log[a - 1].sent then log[a].conn == log[a - 1].conn
              else log[a].conn.Some? <==> net.connects(a)
    {
      assert AttemptOn(log, net, a);
    }
  }

  function BrokenBytes(net: Network, a: nat): nat {
    match net.writes(a)
    case Delivered => 0
    case Broken(bytes) => bytes
  }

  ghost predicate Sending(c: Codec, queue: seq<Message>, net: Network, log: seq<Attempt>,
                          conns: seq<seq<byte>>, stream: Option<nat>)
  {
    && Paced(log) && InQueue(log, queue) && Connected(log, net)
    && (forall a | 0 <= a < |log| && log[a].conn.Some? :: log[a].conn.value < |conns|)
    && (forall id | 0 <= id < |conns| :: conns[id] == Carried(c, queue, log, id))
    && stream == (if log != [] && log[|log| - 1].sent then log[|log| - 1].conn else None)
  }

  lemma EmptyLog(c: Codec, queue: seq<Message>, net: Network)
    ensures Sending(c, queue, net, [], [], None)
  {
  }

  lemma {:induction false} CarriedNothing(c: Codec, queue: seq<Message>, log: seq<Attempt>, id: nat)
    requires InQueue(log, queue) && forall a | 0 <= a < |log| :: log[a].conn != Some(id)
    ensures Carried(c, queue, log, id) == []
  {
    if log != [] {
      CarriedNothing(c, queue, log[..|log| - 1], id);
    }
  }

  /** `log` is `before` and one more attempt; `conns` has its bytes. */
  ghost predicate Follows(c: Codec, queue: seq<Message>, net: Network, before: seq<Attempt>, log: seq<Attempt>,
                          earlier: seq<seq<byte>>, conns: seq<seq<byte>>, was: Option<nat>, stream: Option<nat>)
  {
    && |log| == |before| + 1 && log[..|before|] == before
    && var a := log[|before|];
    && a.msg < |queue| && 1 <= a.tries <= MAX_RETRIES
    && (if before == [] then a.msg == 0 && a.tries == 1
        else if Settles(before[|before| - 1]) then a.msg == before[|before| - 1].msg + 1 && a.tries == 1
        else a.msg == before[|before| - 1].msg && a.tries == before[|before| - 1].tries + 1)
    && a.bytes == BrokenBytes(net, |before|)
    && (a.sent <==> a.conn.Some? && net.writes(|before|).Delivered?)
    && stream == (if a.sent then a.conn else None)
    && (if was.Some? then
          a.conn == was && was.value < |earlier|
          && conns == earlier[was.value := earlier[was.value] + BytesOf(c, queue, a)]
        else if net.connects(|before|) then
          a.conn == Some(|earlier|) && conns == earlier + [BytesOf(c, queue, a)]
        else a.conn == None && conns == earlier)
  }

  lemma FollowsConnected(c: Codec, queue: seq<Message>, net: Network, before: seq<Attempt>, log: seq<Attempt>,
                         earlier: seq<seq<byte>>, conns: seq<seq<byte>>, was: Option<nat>, stream: Option<nat>)
    requires Sending(c, queue, net, before, earlier, was)
    requires Follows(c, queue, net, before, log, earlier, conns, was, stream)
    ensures Connected(log, net)
  {
    hide Frame, BytesOf, Carried, Paced, InQueue;
    var n := |before|;
    assert log == before + [log[n]];
    if n > 0 {
      assert AttemptOn(before, net, n - 1);
    }
    forall a | 0 <= a < |log| ensures AttemptOn(log, net, a) {
      if a < n {
        assert AttemptOn(before, net, a);
        if log[a].conn.Some? && NewConnection(before, a) {
          assert NewConnection(log, a);
        }
      }
    }
  }

  lemma FollowsCarried(c: Codec, queue: seq<Message>, net: Network, before: seq<Attempt>, log: seq<Attempt>,
                       earlier: seq<seq<byte>>, conns: seq<seq<byte>>, was: Option<nat>, stream: Option<nat>)
    requires Sending(c, queue, net, before, earlier, was)
    requires Follows(c, queue, net, before, log, earlier, conns, was, stream)
    ensures InQueue(log, queue)
    ensures forall id | 0 <= id < |conns| :: conns[id] == Carried(c, queue, log, id)
  {
    hide Frame, BytesOf, Connected, Paced;
    assert log == before + [log[|before|]];
    forall id | 0 <= id < |conns| ensures conns[id] == Carried(c, queue, log, id) {
      if id == |earlier| {
        CarriedNothing(c, queue, before, id);
      }
    }
  }

  lemma FollowsPaced(c: Codec, queue: seq<Message>, net: Network, before: seq<Attempt>, log: seq<Attempt>,
                     earlier: seq<seq<byte>>, conns: seq<seq<byte>>, was: Option<nat>, stream: Option<nat>)
    requires Paced(before) && Follows(c, queue, net, before, log, earlier, conns, was, stream)
    ensures Paced(log)
  {
    hide Frame, BytesOf, BrokenBytes, Settles;
    assert log == before + [log[|before|]];
  }

  lemma FollowsStreams(c: Codec, queue: seq<Message>, net: Network, before: seq<Attempt>, log: seq<Attempt>,
                       earlier: seq<seq<byte>>, conns: seq<seq<byte>>, was: Option<nat>, stream: Option<nat>)
    requires forall a | 0 <= a < |before| && before[a].conn.Some? :: before[a].conn.value < |earlier|
    requires Follows(c, queue, net, before, log, earlier, conns, was, stream)
    ensures forall a | 0 <= a < |log| && log[a].conn.Some? :: log[a].conn.value < |conns|
    ensures stream == (if log != [] && log[|log| - 1].sent then log[|log| - 1].conn else None)
  {
    hide Frame, BytesOf, BrokenBytes, Settles;
    assert log == before + [log[|before|]];
  }

  /** One more attempt keeps the bookkeeping of the loop. */
  lemma Extended(c: Codec, queue: seq<Message>, net: Network, before: seq<Attempt>, log: seq<Attempt>,
                 earlier: seq<seq<byte>>, conns: seq<seq<byte>>, was: Option<nat>, stream: Option<nat>)
    requires Sending(c, queue, net, before, earlier, was)
    requires Follows(c, queue, net, before, log, earlier, conns, was, stream)
    ensures Sending(c, queue, net, log, conns, stream)
  {
    FollowsConnected(c, queue, net, before, log, earlier, conns, was, stream);
    FollowsCarried(c, queue, net, before, log, earlier, conns, was, stream);
    FollowsPaced(c, queue, net, before, log, earlier, conns, was, stream);
    FollowsStreams(c, queue, net, before, log, earlier, conns, was, stream);
    hide Follows, Carried, Connected, Paced, InQueue;
  }

  // ---- what the log says about the queue ---------------------------------------------

  /** All attempts for one message precede any for the next, at most three of them, and none
      after a success: the successful writes are a subsequence of the queue. */
  lemma {:induction false} AttemptsInOrder(log: seq<Attempt>, a: nat, b: nat)
    requires Paced(log) && a < b < |log|
    ensures log[a].msg < log[b].msg
            || (log[a].msg == log[b].msg && log[a].tries < log[b].tries <= MAX_RETRIES && !log[a].sent)
    decreases b - a
  {
    if a + 1 < b {
      AttemptsInOrder(log, a, b - 1);
    }
  }

  /** Every message is settled: sent, or given up after exactly three failed attempts. */
  lemma EveryMessageSettled(log: seq<Attempt>, count: nat, m: nat)
    requires Paced(log) && Finished(log, count) && m < count
    ensures exists a :: 0 <= a < |log| && log[a].msg == m && Settles(log[a])
                        && (!log[a].sent ==> ThreeFailures(log, a))
  {
    SettledUpTo(log, |log| - 1, m);
    var a :| 0 <= a < |log| && log[a].msg == m && Settles(log[a]);
    if !log[a].sent {
      assert !Settles(log[a - 1]) && !Settles(log[a - 2]);
    }
  }

  /** Attempts 1, 2 and 3 for the message of attempt `a` all failed. */
  predicate ThreeFailures(log: seq<Attempt>, a: nat) {
    && 2 <= a < |log|
    && (forall b | a - 2 <= b <= a :: log[b].msg == log[a].msg && log[b].tries == b - a + 3 && !log[b].sent)
  }

  lemma {:induction false} SettledUpTo(log: seq<Attempt>, last: int, m: nat)
    requires Paced(log) && 0 <= last < |log|
    requires m < log[last].msg || (m == log[last].msg && Settles(log[last]))
    ensures exists a :: 0 <= a <= last && log[a].msg == m && Settles(log[a])
  {
    if m < log[last].msg {
      SettledUpTo(log, last - 1, m);
    }
  }

  /** A connection on which a write failed carries no later attempt. */
  lemma {:induction false} FailedConnectionNotReused(log: seq<Attempt>, net: Network, a: nat, b: nat)
    requires Connected(log, net) && a < b < |log|
    requires log[a].conn.Some? && !log[a].sent
    ensures log[b].conn.Some? ==> log[b].conn.value > log[a].conn.value
    decreases b
  {
    assert AttemptOn(log, net, b);
    if log[b - 1].sent {
      FailedConnectionNotReused(log, net, a, b - 1);
      assert AttemptOn(log, net, b - 1);
    }
  }

  // ---- what the peer reads on one connection -------------------------------------------

  lemma {:induction false} FramesSnoc(c: Codec, ms: seq<Message>, m: Message)
    ensures Frames(c, ms + [m]) == Frames(c, ms) + Frame(c, m)
  {
    hide Frame;
    if ms == [] {
      assert [] + [m] == [m] && [m][1..] == [];
      assert Frame(c, m) + [] == Frame(c, m);
      assert Frames(c, [m]) == Frame(c, m) + Frames(c, []);
    } else {
      FramesSnoc(c, ms[1..], m);
      assert (ms + [m])[1..] == ms[1..] + [m];
    }
  }

  predicate FailedOn(log: seq<Attempt>, id: nat, a: nat) {
    a < |log| && log[a].conn == Some(id) && !log[a].sent
  }

  /** A connection carries the frames sent on it, then part of the one whose write broke it. */
  ghost predicate CarriesFrames(c: Codec, queue: seq<Message>, log: seq<Attempt>, id: nat)
    requires InQueue(log, queue)
  {
    var ms := SentOn(queue, log, id);
    if exists a: nat :: FailedOn(log, id, a) then
      exists a: nat :: FailedOn(log, id, a)
        && Carried(c, queue, log, id) == Frames(c, ms) + Take(Frame(c, queue[log[a].msg]), log[a].bytes)
    else Carried(c, queue, log, id) == Frames(c, ms)
  }

  lemma {:induction false} ConnectionContents(c: Codec, queue: seq<Message>, log: seq<Attempt>, net: Network, id: nat)
    requires InQueue(log, queue) && Connected(log, net)
    ensures CarriesFrames(c, queue, log, id)
  {
    hide Frame;
    if log != [] {
      var n := |log| - 1;
      var front, last := log[..n], log[n];
      assert Connected(front, net) by {
        forall a | 0 <= a < n ensures AttemptOn(front, net, a) {
          assert AttemptOn(log, net, a);
          if log[a].conn.Some? && NewConnection(log, a) {
            assert NewConnection(front, a);
          }
        }
      }
      ConnectionContents(c, queue, front, net, id);
      if last.conn == Some(id) {
        forall a: nat | FailedOn(front, id, a) ensures false {
          FailedConnectionNotReused(log, net, a, n);
        }
        if last.sent {
          FramesSnoc(c, SentOn(queue, front, id), queue[last.msg]);
          NoNewFailure(log, id);
        } else {
          var ms := SentOn(queue, front, id);
          assert FailedOn(log, id, n);
          assert !exists a: nat :: FailedOn(front, id, a);
          assert SentOn(queue, log, id) == ms + [] == ms;
          assert Carried(c, queue, log, id) == Frames(c, ms) + Take(Frame(c, queue[last.msg]), last.bytes);
        }
      } else {
        NoNewFailure(log, id);
        assert SentOn(queue, log, id) == SentOn(queue, front, id);
        assert Carried(c, queue, log, id) == Carried(c, queue, front, id);
        if exists a: nat :: FailedOn(front, id, a) {
          var a: nat :| FailedOn(front, id, a)
            && Carried(c, queue, front, id)
               == Frames(c, SentOn(queue, front, id)) + Take(Frame(c, queue[front[a].msg]), front[a].bytes);
          assert FailedOn(log, id, a) && log[a] == front[a];
        }
      }
    }
  }

  lemma NoNewFailure(log: seq<Attempt>, id: nat)
    requires log != [] && !FailedOn(log, id, |log| - 1)
    ensures forall a: nat :: FailedOn(log, id, a) <==> FailedOn(log[..|log| - 1], id, a)
  {
  }

  /** However many of a connection's bytes arrive, the peer reads exactly the whole frames among
      them: the first of the messages whose write succeeded, in order, and after all of them at
      most the one whose write failed, if all of its bytes were taken and arrived. */
  lemma PeerReadsSent(c: Codec, queue: seq<Message>, log: seq<Attempt>, net: Network, id: nat, cut: nat)
    requires Inverse(c) && InQueue(log, queue) && Connected(log, net)
    requires forall m | m in queue :: Fits(c, m)
    requires cut <= |Carried(c, queue, log, id)|
    ensures var ms := SentOn(queue, log, id);
            var read := ReadAll(c, Carried(c, queue, log, id)[..cut]);
            && read.1
            && (read.0 == ms[..WholeFrames(c, ms, cut)]
                || exists a: nat :: FailedOn(log, id, a) && log[a].bytes >= |Frame(c, queue[log[a].msg])|
                                    && cut == |Carried(c, queue, log, id)| && read.0 == ms + [queue[log[a].msg]])
  {
    hide Frame, Fits, Inverse, ReadAll, WholeFrames;
    var ms := SentOn(queue, log, id);
    ConnectionContents(c, queue, log, net, id);
    SentInQueue(queue, log, id);
    if exists a: nat :: FailedOn(log, id, a) {
      var a: nat :| FailedOn(log, id, a)
        && Carried(c, queue, log, id) == Frames(c, ms) + Take(Frame(c, queue[log[a].msg]), log[a].bytes);
      BrokenStream(c, ms, queue[log[a].msg], log[a].bytes, cut);
    } else {
      CutStream(c, ms, cut);
    }
  }

  /** If nothing is lost, the peer reads all of the messages reported as sent. */
  lemma PeerReadsAll(c: Codec, queue: seq<Message>, log: seq<Attempt>, net: Network, id: nat)
    requires Inverse(c) && InQueue(log, queue) && Connected(log, net)
    requires forall m | m in queue :: Fits(c, m)
    ensures var ms := SentOn(queue, log, id);
            var read := ReadAll(c, Carried(c, queue, log, id));
            && read.1
            && (read.0 == ms
                || exists a: nat :: FailedOn(log, id, a) && log[a].bytes >= |Frame(c, queue[log[a].msg])|
                                    && read.0 == ms + [queue[log[a].msg]])
  {
    hide Frame, Fits, Inverse, ReadAll, FailedOn;
    var ms, all := SentOn(queue, log, id), Carried(c, queue, log, id);
    PeerReadsSent(c, queue, log, net, id, |all|);
    assert all[..|all|] == all;
    ConnectionContents(c, queue, log, net, id);
    AllFramesWhole(c, ms);
    WholeFramesGrow(c, ms, |Frames(c, ms)|, |all|);
    assert ms[..|ms|] == ms;
  }

  lemma {:induction false} WholeFramesGrow(c: Codec, ms: seq<Message>, cut: nat, more: nat)
    requires cut <= more
    ensures WholeFrames(c, ms, cut) <= WholeFrames(c, ms, more)
  {
    hide Frame;
    if ms != [] && cut >= |Frame(c, ms[0])| {
      WholeFramesGrow(c, ms[1..], cut - |Frame(c, ms[0])|, more - |Frame(c, ms[0])|);
    }
  }

  lemma {:induction false} SentInQueue(queue: seq<Message>, log: seq<Attempt>, id: nat)
    requires InQueue(log, queue)
    ensures forall m | m in SentOn(queue, log, id) :: m in queue
  {
    if log != [] {
      SentInQueue(queue, log[..|log| - 1], id);
    }
  }

  lemma BrokenStream(c: Codec, ms: seq<Message>, m: Message, bytes: nat, cut: nat)
    requires Inverse(c) && Fits(c, m) && forall x | x in ms :: Fits(c, x)
    requires cut <= |Frames(c, ms) + Take(Frame(c, m), bytes)|
    ensures ReadAll(c, (Frames(c, ms) + Take(Frame(c, m), bytes))[..cut])
            == (if cut == |Frames(c, ms)| + |Frame(c, m)| then ms + [m] else ms[..WholeFrames(c, ms, cut)], true)
  {
    hide Frame, Fits, Inverse, ReadAll, Frames, WholeFrames;
    var all := ms + [m];
    FramesSnoc(c, ms, m);
    assert Frames(c, all)[..cut] == (Frames(c, ms) + Take(Frame(c, m), bytes))[..cut];
    CutStream(c, all, cut);
    WholeFramesSnoc(c, ms, m, cut);
    assert all[..|all|] == all;
    var k := WholeFrames(c, ms, cut);
    assert all[..k] == ms[..k];
  }

  lemma {:induction false} WholeFramesSnoc(c: Codec, ms: seq<Message>, m: Message, cut: nat)
    ensures WholeFrames(c, ms + [m], cut)
            == if cut >= |Frames(c, ms)| + |Frame(c, m)| then |ms| + 1 else WholeFrames(c, ms, cut)
  {
    hide Frame;
    if ms == [] {
      assert [] + [m] == [m];
    } else {
      assert (ms + [m])[1..] == ms[1..] + [m];
      if cut >= |Frame(c, ms[0])| {
        WholeFramesSnoc(c, ms[1..], m, cut - |Frame(c, ms[0])|);
      }
    }
  }
}
