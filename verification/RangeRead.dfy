// What a bounded read of the log may return, stated without the loop.
module RangeRead {
  import opened Bytes
  import opened Disk
  import opened EntryRecord
  import opened RaftTypes

  datatype ReadResult = Entries(entries: seq<Entry>) | ReadFailed(error: StorageError)

  predicate RunPresent(d: Disk, low: u64, n: nat)
    requires low + n <= U64_LIMIT
  {
    forall i: u64 | low <= i < low + n :: Present(d, i)
  }

  /** The `n` consecutive entries from `low`. */
  function Run(d: Disk, low: u64, n: nat): (r: seq<Entry>)
    requires low + n <= U64_LIMIT && RunPresent(d, low, n)
    ensures |r| == n && forall j | 0 <= j < n :: Present(d, low + j) && r[j] == d.entries[IndexToKey(low + j)]
  {
    if n == 0 then []
    else
      assert Present(d, low + n - 1);
      Run(d, low, n - 1) + [d.entries[IndexToKey(low + n - 1)]]
  }

  /** Length of the record of an entry. */
  function SizeAt(d: Disk, index: u64): nat {
    if Present(d, index) then |EncodeEntry(d.entries[IndexToKey(index)])| else 0
  }

  /** Length of the records of the `n` positions from `low`. */
  function RunSize(d: Disk, low: u64, n: nat): nat
    requires low + n <= U64_LIMIT
  {
    if n == 0 then 0 else RunSize(d, low, n - 1) + SizeAt(d, low + n - 1)
  }

  lemma {:induction false} RunSizeIsTotal(d: Disk, low: u64, n: nat)
    requires low + n <= U64_LIMIT && RunPresent(d, low, n)
    ensures |Records(Run(d, low, n))| == RunSize(d, low, n)
  {
    hide IndexToKey, EncodeEntry;
    if n > 0 {
      RunSizeIsTotal(d, low, n - 1);
      assert Present(d, low + n - 1);
      assert Run(d, low, n)[..n - 1] == Run(d, low, n - 1);
    }
  }

  lemma {:induction false} RunSizeGrows(d: Disk, low: u64, m: nat, n: nat)
    requires m <= n && low + n <= U64_LIMIT
    ensures RunSize(d, low, m) <= RunSize(d, low, n)
    decreases n - m
  {
    if m < n {
      RunSizeGrows(d, low, m, n - 1);
    }
  }

  /** `n` is the length of the longest gap-free run from `low` below `high` that
      stays within `max` bytes; a first entry that is present always counts. */
  predicate LongestRun(d: Disk, low: u64, high: u64, max: u64, n: nat) {
    && low + n <= (if low < high then high else low)
    && RunPresent(d, low, n)
    && (n >= 2 ==> RunSize(d, low, n) <= max)
    && (low + n >= high
        || !Present(d, low + n)
        || (n >= 1 && RunSize(d, low, n + 1) > max))
  }

  /** The run ended on a missing entry that the snapshot covers. */
  predicate EndsCompacted(d: Disk, low: u64, high: u64, n: nat) {
    low + n < high && !Present(d, low + n) && d.snapshot.Some? && low + n <= d.snapshot.value.index
  }

  function Answer(d: Disk, low: u64, high: u64, n: nat): ReadResult
    requires low + n <= U64_LIMIT && RunPresent(d, low, n)
  {
    if EndsCompacted(d, low, high, n) then ReadFailed(Compacted) else Entries(Run(d, low, n))
  }

  ghost predicate IsRead(d: Disk, low: u64, high: u64, max: u64, r: ReadResult) {
    exists n: nat :: LongestRun(d, low, high, max, n) && r == Answer(d, low, high, n)
  }

  /** The entries read together with the one after them stay below 2^64 bytes. */
  ghost predicate SizesFit(d: Disk, low: u64, high: u64, max: u64) {
    forall n: nat | low + n <= high && RunPresent(d, low, n) && (n <= 2 || RunSize(d, low, n - 1) <= max) ::
      RunSize(d, low, n) < U64_LIMIT
  }

  lemma RunExtends(d: Disk, low: u64, n: nat)
    requires low + n < U64_LIMIT && RunPresent(d, low, n) && Present(d, low + n)
    ensures RunPresent(d, low, n + 1)
    ensures Run(d, low, n + 1) == Run(d, low, n) + [d.entries[IndexToKey(low + n)]]
    ensures RunSize(d, low, n + 1) == RunSize(d, low, n) + |EncodeEntry(d.entries[IndexToKey(low + n)])|
  {
  }

  /** What the loop has read so far: the first entries of the answer and their size. */
  ghost predicate Collected(d: Disk, low: u64, high: u64, max: u64, entries: seq<Entry>, total: u64) {
    var n := |entries|;
    && low + n <= (if low < high then high else low)
    && RunPresent(d, low, n) && entries == Run(d, low, n)
    && (SizesFit(d, low, high, max) ==> total == RunSize(d, low, n) && (n >= 2 ==> total <= max))
  }

  lemma CollectNone(d: Disk, low: u64, high: u64, max: u64)
    ensures Collected(d, low, high, max, [], 0)
  {
  }

  /** The next entry either would exceed the bound, and the run ends, or joins it. */
  lemma CollectNext(d: Disk, low: u64, high: u64, max: u64, entries: seq<Entry>, total: u64, sum: u64)
    requires Collected(d, low, high, max, entries, total)
    requires low + |entries| < high && Present(d, low + |entries|)
    requires sum == Wrap64(total + EncodedLen(d.entries[IndexToKey(low + |entries|)]))
    ensures if sum > max && entries != [] then
              SizesFit(d, low, high, max) ==> IsRead(d, low, high, max, Entries(entries))
            else Collected(d, low, high, max, entries + [d.entries[IndexToKey(low + |entries|)]], sum)
  {
    hide EncodeEntry, EncodedLen;
    var n := |entries|;
    RunExtends(d, low, n);
    hide Run, SizeAt, IndexToKey, RunPresent, EndsCompacted, RunSize, LongestRun, IsRead, Wrap64;
    var fits := SizesFit(d, low, high, max);
    if fits {
      SumFits(d, low, high, max, entries, total, sum);
      if sum > max && entries != [] {
        NextTooBig(d, low, high, max, entries);
      }
    }
    hide SizesFit;
  }

  lemma SumFits(d: Disk, low: u64, high: u64, max: u64, entries: seq<Entry>, total: u64, sum: u64)
    requires Collected(d, low, high, max, entries, total) && SizesFit(d, low, high, max)
    requires low + |entries| < high && Present(d, low + |entries|)
    requires sum == Wrap64(total + EncodedLen(d.entries[IndexToKey(low + |entries|)]))
    ensures sum == RunSize(d, low, |entries| + 1)
  {
    hide Run, RunSize, SizeAt, EncodeEntry, EncodedLen, IndexToKey, SizesFit;
    TotalFits(d, low, high, max, entries, total);
    RunExtends(d, low, |entries|);
    EncodedLenExact(d.entries[IndexToKey(low + |entries|)]);
  }

  lemma TotalFits(d: Disk, low: u64, high: u64, max: u64, entries: seq<Entry>, total: u64)
    requires Collected(d, low, high, max, entries, total) && SizesFit(d, low, high, max)
    requires low + |entries| < high && Present(d, low + |entries|)
    ensures RunPresent(d, low, |entries|) && total == RunSize(d, low, |entries|)
    ensures RunSize(d, low, |entries| + 1) < U64_LIMIT
  {
    hide Run, SizeAt, IndexToKey, RunSize;
  }

  /** A run that the next entry would take past the bound is the longest. */
  lemma NextTooBig(d: Disk, low: u64, high: u64, max: u64, entries: seq<Entry>)
    requires low + |entries| < high && RunPresent(d, low, |entries|) && entries == Run(d, low, |entries|)
    requires entries != [] && (|entries| >= 2 ==> RunSize(d, low, |entries|) <= max)
    requires Present(d, low + |entries|) && RunSize(d, low, |entries| + 1) > max
    ensures IsRead(d, low, high, max, Entries(entries))
  {
    hide Run, RunSize, IndexToKey, RunPresent;
    assert LongestRun(d, low, high, max, |entries|);
  }

  /** At the end of the range or at a missing entry the run is complete. */
  lemma CollectedAll(d: Disk, low: u64, high: u64, max: u64, entries: seq<Entry>, total: u64)
    requires Collected(d, low, high, max, entries, total)
    ensures low + |entries| <= (if low < high then high else low)
    ensures RunPresent(d, low, |entries|) && entries == Run(d, low, |entries|)
    ensures SizesFit(d, low, high, max) && (low + |entries| >= high || !Present(d, low + |entries|)) ==>
              IsRead(d, low, high, max,
                     if EndsCompacted(d, low, high, |entries|) then ReadFailed(Compacted) else Entries(entries))
  {
    hide Run, RunSize;
    if SizesFit(d, low, high, max) && (low + |entries| >= high || !Present(d, low + |entries|)) {
      assert LongestRun(d, low, high, max, |entries|);
    }
  }

  lemma LongerRunImpossible(d: Disk, low: u64, high: u64, max: u64, m: nat, n: nat)
    requires LongestRun(d, low, high, max, m) && m < n
    ensures !LongestRun(d, low, high, max, n)
  {
    hide SizeAt;
    if low + n <= (if low < high then high else low) && RunPresent(d, low, n) {
      assert Present(d, low + m);
      RunSizeGrows(d, low, m + 1, n);
    }
  }

  /** The description pins the answer down. */
  lemma ReadUnique(d: Disk, low: u64, high: u64, max: u64, r: ReadResult, q: ReadResult)
    requires IsRead(d, low, high, max, r) && IsRead(d, low, high, max, q)
    ensures r == q
  {
    var m: nat :| LongestRun(d, low, high, max, m) && r == Answer(d, low, high, m);
    var n: nat :| LongestRun(d, low, high, max, n) && q == Answer(d, low, high, n);
    if m < n {
      LongerRunImpossible(d, low, high, max, m, n);
    } else if n < m {
      LongerRunImpossible(d, low, high, max, n, m);
    }
  }

  /** The bound in bytes: of two entries or more the records stay within it, and with the record
      of the next entry asked for, if it is stored, they would not. */
  lemma ReadWithinBound(d: Disk, low: u64, high: u64, max: u64, r: ReadResult)
    requires IsRead(d, low, high, max, r) && r.Entries?
    ensures |r.entries| >= 2 ==> |Records(r.entries)| <= max
    ensures var next := low + |r.entries|;
            next < high && Present(d, next) ==>
              r.entries != [] && |Records(r.entries + [d.entries[IndexToKey(next)]])| > max
  {
    hide IndexToKey, EncodeEntry, RunPresent, RunSize, SizeAt, Run, Records;
    var n: nat :| LongestRun(d, low, high, max, n) && r == Answer(d, low, high, n);
    RunSizeIsTotal(d, low, n);
    if low + n < high && Present(d, low + n) {
      RunExtends(d, low, n);
      RunSizeIsTotal(d, low, n + 1);
    }
  }

  /** In trees that hold a log a run is a stretch of that log. */
  lemma RunOfLog(d: Disk, l: Log, low: u64, n: nat)
    requires Represents(d, l) && low + n <= U64_LIMIT && n > 0
    requires RunPresent(d, low, n)
    ensures l.base < low && low + n <= l.Last() + 1
    ensures Run(d, low, n) == l.entries[low - l.base - 1..low - l.base - 1 + n]
  {
    hide IndexToKey;
    assert Present(d, low) && Present(d, low + n - 1);
    var stretch := l.entries[low - l.base - 1..low - l.base - 1 + n];
    forall j | 0 <= j < n
      ensures Run(d, low, n)[j] == stretch[j]
    {
      var i: u64 := low + j;
      assert Present(d, i);
    }
  }

  /** On trees that hold a log: Compacted exactly at or below the snapshot, otherwise a
      stretch of the log from `low`, never empty when `low` itself is stored and asked for. */
  lemma ReadOfLog(d: Disk, l: Log, low: u64, high: u64, max: u64, r: ReadResult)
    requires Represents(d, l) && IsRead(d, low, high, max, r)
    ensures r == ReadFailed(Compacted) <==> low < high && low <= l.base && d.snapshot.Some?
    ensures r.Entries? && r.entries != [] ==>
              && l.base < low && low + |r.entries| <= high && low + |r.entries| <= l.Last() + 1
              && r.entries == l.entries[low - l.base - 1..low - l.base - 1 + |r.entries|]
    ensures l.base < low <= l.Last() && low < high ==> r.Entries? && r.entries != []
  {
    hide RunSize, SizeAt, IndexToKey;
    var n: nat :| LongestRun(d, low, high, max, n) && r == Answer(d, low, high, n);
    if n > 0 {
      RunOfLog(d, l, low, n);
    } else {
      assert Present(d, low) <==> l.base < low <= l.Last();
    }
  }
}
