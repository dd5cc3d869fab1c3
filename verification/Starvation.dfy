/**
 Which due schedules a tick attempts, and which it never gets to: the claim takes the 50 earliest dates,
 and a schedule that fails keeps its date.
 */
module Starvation {
  import opened Prelude
  import opened Schedules

  /** The due schedules with a date before that of schedule i. */
  function EarlierDue(rows: seq<Schedule>, i: nat, now: int): (s: set<nat>)
    requires i < |rows| && Due(rows[i], now)
    ensures forall j: nat :: j in s
              <==> j < |rows| && Due(rows[j], now) && rows[j].nextFire.value < rows[i].nextFire.value
  {
    set j: nat | j < |rows| && Due(rows[j], now) && rows[j].nextFire.value < rows[i].nextFire.value
  }

  /** No other due schedule has the very date of schedule i; the claim leaves open which of those comes first. */
  predicate Untied(rows: seq<Schedule>, i: nat, now: int)
    requires i < |rows| && Due(rows[i], now)
  {
    forall j: nat :: j < |rows| && j != i && Due(rows[j], now) ==> rows[j].nextFire != rows[i].nextFire
  }

  function Elements(ids: seq<nat>): (s: set<nat>)
    ensures forall x :: x in s <==> x in ids
  {
    set x | x in ids
  }

  lemma {:induction false} DistinctCount(ids: seq<nat>)
    requires Distinct(ids)
    ensures |Elements(ids)| == |ids|
  {
    if ids != [] {
      var n := |ids| - 1;
      DistinctCount(ids[..n]);
      assert ids == ids[..n] + [ids[n]];
      assert Elements(ids) == Elements(ids[..n]) + {ids[n]};
      assert ids[n] !in ids[..n];
    }
  }

  lemma {:induction false} SubsetCount(a: set<nat>, b: set<nat>)
    requires a <= b
    ensures |a| <= |b|
  {
    if a != {} {
      var x :| x in a;
      SubsetCount(a - {x}, b - {x});
    }
  }

  /** What is claimed along with schedule i includes everything due before it. */
  lemma EarlierAreClaimed(rows: seq<Schedule>, ids: seq<nat>, now: int, limit: nat, i: nat)
    requires Claimed(rows, ids, now, limit) && i < |rows| && Due(rows[i], now) && i in ids
    ensures EarlierDue(rows, i, now) + {i} <= Elements(ids)
  {
    forall j | j in EarlierDue(rows, i, now) ensures j in ids {
      var k :| 0 <= k < |ids| && ids[k] == i;
    }
  }

  /** A schedule that too many others precede is not claimed, however ties are resolved. */
  lemma PrecededIsNotClaimed(rows: seq<Schedule>, ids: seq<nat>, now: int, limit: nat, i: nat)
    requires Claimed(rows, ids, now, limit) && i < |rows| && Due(rows[i], now)
    requires |EarlierDue(rows, i, now)| >= limit
    ensures i !in ids
  {
    var earlier := EarlierDue(rows, i, now);
    assert |earlier + {i}| == |earlier| + 1;
    DistinctCount(ids);
    if i in ids {
      EarlierAreClaimed(rows, ids, now, limit, i);
      SubsetCount(earlier + {i}, Elements(ids));
    }
  }

  /** A due schedule is claimed by a tick if and only if fewer due ones than the limit have an earlier date. */
  lemma ClaimedIff(rows: seq<Schedule>, ids: seq<nat>, now: int, limit: nat, i: nat)
    requires Claimed(rows, ids, now, limit) && i < |rows| && Due(rows[i], now) && Untied(rows, i, now)
    ensures i in ids <==> |EarlierDue(rows, i, now)| < limit
  {
    if |EarlierDue(rows, i, now)| >= limit {
      PrecededIsNotClaimed(rows, ids, now, limit, i);
    } else if i !in ids {
      forall x | x in ids ensures x in EarlierDue(rows, i, now) {
        var k :| 0 <= k < |ids| && ids[k] == x;
      }
      SubsetCount(Elements(ids), EarlierDue(rows, i, now));
      DistinctCount(ids);
    }
  }

  // ---- for ever ----

  /** One tick over the whole table: what it claims, and what it fires and records. */
  datatype WholeTick = WholeTick(now: int, due: seq<nat>, fired: map<nat, int>)

  ghost predicate TickedTo(before: seq<Schedule>, after: seq<Schedule>, tick: WholeTick, cron: CronNext) {
    && Claimed(before, tick.due, tick.now, 50)
    && TickRows(before, after, tick.now, tick.fired, cron)
    && forall id :: id in tick.fired ==> id in tick.due
  }

  /** Successive ticks under a clock that does not run backwards, with no edits between. */
  ghost predicate WholeRun(tables: seq<seq<Schedule>>, ticks: seq<WholeTick>, cron: CronNext) {
    && |tables| == |ticks| + 1
    && (forall k :: 0 <= k < |ticks| ==> TickedTo(tables[k], tables[k + 1], ticks[k], cron))
    && forall j, k :: 0 <= j < k < |ticks| ==> ticks[j].now <= ticks[k].now
  }

  /**
   The schedules in `first` are due by the first tick, before schedule i is, and no tick succeeds in
   firing one of them.
   */
  ghost predicate KeepFailing(tables: seq<seq<Schedule>>, ticks: seq<WholeTick>, first: set<nat>, i: nat)
    requires |tables| > 0
  {
    var rows := tables[0];
    && i < |rows| && rows[i].nextFire.Some?
    && (forall j :: j in first ==> j < |rows| && rows[j].nextFire.Some?
                                   && rows[j].nextFire.value < rows[i].nextFire.value)
    && (forall k, j :: 0 <= k < |ticks| && j in first ==> Due(rows[j], ticks[k].now) && j !in ticks[k].fired)
  }

  /** Fifty schedules that keep failing starve every later one: no tick ever claims it, and it stays as it is. */
  lemma {:induction false} FailuresStarve(tables: seq<seq<Schedule>>, ticks: seq<WholeTick>, cron: CronNext,
                                          first: set<nat>, i: nat, k: nat)
    requires WholeRun(tables, ticks, cron) && KeepFailing(tables, ticks, first, i) && |first| >= 50 && k <= |ticks|
    ensures |tables[k]| == |tables[0]| && tables[k][i] == tables[0][i]
    ensures forall j :: j in first ==> tables[k][j] == tables[0][j]
    ensures k < |ticks| ==> i !in ticks[k].due
  {
    if k > 0 {
      FailuresStarve(tables, ticks, cron, first, i, k - 1);
      assert TickedTo(tables[k - 1], tables[k - 1 + 1], ticks[k - 1], cron);
      StarvedTick(tables[k - 1], tables[k], ticks[k - 1], cron, first, i);
    }
    if k < |ticks| {
      assert TickedTo(tables[k], tables[k + 1], ticks[k], cron);
      NotReached(tables[k], ticks[k].due, ticks[k].now, first, i);
    }
  }

  lemma StarvedTick(before: seq<Schedule>, after: seq<Schedule>, tick: WholeTick, cron: CronNext, first: set<nat>,
                    i: nat)
    requires TickedTo(before, after, tick, cron) && i < |before| && i !in tick.due
    requires forall j :: j in first ==> j < |before| && j !in tick.fired
    ensures |after| == |before| && after[i] == before[i] && forall j :: j in first ==> after[j] == before[j]
  {
    assert FiredAt(tick.fired, i) == None;
    forall j | j in first ensures after[j] == before[j] {
      assert FiredAt(tick.fired, j) == None;
    }
  }

  lemma NotReached(rows: seq<Schedule>, due: seq<nat>, now: int, first: set<nat>, i: nat)
    requires Claimed(rows, due, now, 50) && |first| >= 50 && i < |rows| && rows[i].nextFire.Some?
    requires forall j :: j in first
               ==> j < |rows| && Due(rows[j], now) && rows[j].nextFire.value < rows[i].nextFire.value
    ensures i !in due
  {
    if i in due {
      var k :| 0 <= k < |due| && due[k] == i;
      SubsetCount(first, EarlierDue(rows, i, now));
      PrecededIsNotClaimed(rows, due, now, 50, i);
    }
  }
}
