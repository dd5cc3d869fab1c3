/**
 Time-weighted daily availability. A host's status log is cut into segments by the next record's
 timestamp, each segment is clipped to each day, and lengths are summed by status group. The
 reference meaning is instant by instant: the group of the last record at or before the instant.
 Time is counted in microseconds.
 */
module Availability {
  import opened Prelude

  datatype Group = Available | Allocating | Validating | Cordon | OFR | Deallocated | Other

  function GroupOf(status: string): Group {
    if status == "available" then Available
    else if status in ["allocated_ua", "allocated_platform"] then Allocating
    else if status in ["ready_ua", "validating", "new"] then Validating
    else if status in ["cordoned", "triaged_unknown", "triaged_hardware", "triaged_platform"] then Cordon
    else if status in ["ua", "deallocated_ua"] then OFR
    else if status in ["deallocated_platform", "deallocated_capacity"] then Deallocated
    else Other
  }

  datatype Record = Record(at: int, status: string) {
    function StatusGroup(): Group { GroupOf(status) }
  }

  /** Midnight at the start of a day, 24 hours after that of the day before. */
  function StartOf(day: int): int {
    day * 86_400_000_000
  }

  const ALL: set<Group> := {Available, Allocating, Validating, Cordon, OFR, Deallocated, Other}

  /** One host's records in the order of `ORDER BY timestamp`. */
  predicate Sorted(log: seq<Record>) {
    forall i, j :: 0 <= i < j < |log| ==> log[i].at <= log[j].at
  }

  function Min(a: int, b: int): int { if a < b then a else b }
  function Max(a: int, b: int): int { if a < b then b else a }

  // ---- the query ----

  /** A segment's clipped length in [lo, hi); an open segment lasts until hi. Segments outside are not joined. */
  function Clipped(at: int, next: Option<int>, lo: int, hi: int): int {
    var end := Min(if next.Some? then next.value else hi, hi);
    if at < hi && end > lo then end - Max(at, lo) else 0
  }

  function LeadOf(log: seq<Record>): Option<int>
    requires log != []
  {
    if |log| > 1 then Some(log[1].at) else None
  }

  /** SUM(hours) over the segments of the given groups. */
  function Time(log: seq<Record>, lo: int, hi: int, groups: set<Group>): int {
    if log == [] then 0
    else
      var own := if log[0].StatusGroup() in groups then Clipped(log[0].at, LeadOf(log), lo, hi) else 0;
      own + Time(log[1..], lo, hi, groups)
  }

  /** `WHERE timestamp < limit`, applied before LEAD. */
  function Before(log: seq<Record>, limit: int): seq<Record> {
    if log == [] then [] else (if log[0].at < limit then [log[0]] else []) + Before(log[1..], limit)
  }

  function DayTime(log: seq<Record>, to: int, day: int, groups: set<Group>): int {
    Time(Before(log, StartOf(to + 1)), StartOf(day), StartOf(day + 1), groups)
  }

  // ---- the meaning ----

  /** The group a host is in at an instant, once its first record is reached. */
  function GroupAt(log: seq<Record>, t: int): Option<Group> {
    if log == [] || log[0].at > t then None
    else if |log| > 1 && log[1].at <= t then GroupAt(log[1..], t)
    else Some(log[0].StatusGroup())
  }

  /** GroupAt reads the last record at or before the instant. */
  lemma {:induction false} GroupAtIsLastRecord(log: seq<Record>, t: int)
    requires Sorted(log)
    ensures GroupAt(log, t).None? <==> forall i :: 0 <= i < |log| ==> log[i].at > t
    ensures GroupAt(log, t).Some?
        ==> exists i :: 0 <= i < |log| && log[i].at <= t && GroupAt(log, t) == Some(log[i].StatusGroup())
                                        && forall j :: i < j < |log| ==> log[j].at > t
  {
    if log != [] && log[0].at <= t {
      if |log| > 1 && log[1].at <= t {
        GroupAtIsLastRecord(log[1..], t);
        var i :| 0 <= i < |log| - 1 && log[1..][i].at <= t && GroupAt(log[1..], t) == Some(log[1..][i].StatusGroup())
                 && forall j :: i < j < |log| - 1 ==> log[1..][j].at > t;
        assert log[i + 1] == log[1..][i];
        assert forall j :: i + 1 < j < |log| ==> log[j] == log[1..][j - 1];
      } else {
        assert GroupAt(log, t) == Some(log[0].StatusGroup());
      }
    }
  }

  /** The instants of [lo, hi) at which the host is in one of the groups. */
  function Instants(log: seq<Record>, lo: int, hi: int, groups: set<Group>): nat
    decreases hi - lo
  {
    if hi <= lo then 0
    else
      var now := GroupAt(log, hi - 1);
      Instants(log, lo, hi - 1, groups) + if now.Some? && now.value in groups then 1 else 0
  }

  /** Lengthening the window by one instant adds that instant's group and nothing else. */
  lemma {:induction false} TimeStep(log: seq<Record>, lo: int, hi: int, groups: set<Group>)
    requires Sorted(log) && lo <= hi
    ensures var now := GroupAt(log, hi);
            Time(log, lo, hi + 1, groups) == Time(log, lo, hi, groups)
                + if now.Some? && now.value in groups then 1 else 0
  {
    if log != [] {
      TimeStep(log[1..], lo, hi, groups);
    }
  }

  lemma {:induction false} TimeOfNothing(log: seq<Record>, lo: int, groups: set<Group>)
    requires Sorted(log)
    ensures Time(log, lo, lo, groups) == 0
  {
    if log != [] {
      TimeOfNothing(log[1..], lo, groups);
    }
  }

  /** Clipping and summing segments measures exactly the instants spent in the groups. */
  lemma {:induction false} TimeIsMeasure(log: seq<Record>, lo: int, hi: int, groups: set<Group>)
    requires Sorted(log) && lo <= hi
    ensures Time(log, lo, hi, groups) == Instants(log, lo, hi, groups)
    decreases hi - lo
  {
    if lo == hi {
      TimeOfNothing(log, lo, groups);
    } else {
      TimeIsMeasure(log, lo, hi - 1, groups);
      TimeStep(log, lo, hi - 1, groups);
    }
  }

  /** In a sorted log the range cut keeps a prefix. */
  lemma {:induction false} CutIsPrefix(log: seq<Record>, limit: int) returns (n: nat)
    requires Sorted(log)
    ensures n <= |log| && Before(log, limit) == log[..n]
    ensures forall i :: 0 <= i < |log| ==> (log[i].at < limit <==> i < n)
  {
    n := 0;
    if log != [] {
      var m := CutIsPrefix(log[1..], limit);
      if log[0].at < limit {
        n := m + 1;
        assert log[..n] == [log[0]] + log[1..][..m];
        assert forall i :: 0 < i < |log| ==> log[i] == log[1..][i - 1];
      } else {
        assert |log| > 1 ==> log[1..][0] == log[1];
      }
    }
  }

  lemma {:induction false} PrefixKeepsMeaning(log: seq<Record>, n: nat, t: int)
    requires Sorted(log) && n <= |log| && forall i :: n <= i < |log| ==> log[i].at > t
    ensures GroupAt(log[..n], t) == GroupAt(log, t)
  {
    if n > 0 {
      assert log[..n][1..] == log[1..][..n - 1];
      PrefixKeepsMeaning(log[1..], n - 1, t);
    }
  }

  lemma {:induction false} InstantsAgree(a: seq<Record>, b: seq<Record>, lo: int, hi: int, groups: set<Group>)
    requires forall t :: t < hi ==> GroupAt(a, t) == GroupAt(b, t)
    ensures Instants(a, lo, hi, groups) == Instants(b, lo, hi, groups)
    decreases hi - lo
  {
    if lo < hi {
      InstantsAgree(a, b, lo, hi - 1, groups);
    }
  }

  /** A day of the report is the measure of that day in the host's own log; the range cut changes nothing. */
  lemma DayTimeIsMeasure(log: seq<Record>, to: int, day: int, groups: set<Group>)
    requires Sorted(log) && day <= to
    ensures DayTime(log, to, day, groups) == Instants(log, StartOf(day), StartOf(day + 1), groups)
  {
    var limit, end := StartOf(to + 1), StartOf(day + 1);
    assert StartOf(day) <= end <= limit;
    var cut := Before(log, limit);
    var n := CutIsPrefix(log, limit);
    forall t | t < end ensures GroupAt(cut, t) == GroupAt(log, t) {
      PrefixKeepsMeaning(log, n, t);
    }
    TimeIsMeasure(cut, StartOf(day), end, groups);
    InstantsAgree(cut, log, StartOf(day), end, groups);
  }

  // ---- conservation ----

  /** The part of [lo, hi) from the first record on. */
  function KnownPart(log: seq<Record>, lo: int, hi: int): int {
    if log == [] || log[0].at >= hi then 0 else hi - Max(lo, log[0].at)
  }

  lemma EveryGroup(g: Group)
    ensures g in ALL
  {
    assert g.Available? || g.Allocating? || g.Validating? || g.Cordon? || g.OFR? || g.Deallocated? || g.Other?;
  }

  lemma {:induction false} AllInstants(log: seq<Record>, lo: int, hi: int)
    requires Sorted(log) && lo <= hi
    ensures Instants(log, lo, hi, ALL) == KnownPart(log, lo, hi)
    decreases hi - lo
  {
    if lo < hi {
      AllInstants(log, lo, hi - 1);
      GroupAtIsLastRecord(log, hi - 1);
      var now := GroupAt(log, hi - 1);
      if now.Some? { EveryGroup(now.value); }
    }
  }

  lemma {:induction false} InstantsAdd(log: seq<Record>, lo: int, mid: int, hi: int, groups: set<Group>)
    requires lo <= mid <= hi
    ensures Instants(log, lo, hi, groups) == Instants(log, lo, mid, groups) + Instants(log, mid, hi, groups)
    decreases hi - mid
  {
    if mid < hi {
      InstantsAdd(log, lo, mid, hi - 1, groups);
    }
  }

  /** A day is conserved: all groups together are the part of the day after the host's first record, 24 h once known. */
  lemma DayIsConserved(log: seq<Record>, to: int, day: int)
    requires Sorted(log) && day <= to
    ensures DayTime(log, to, day, ALL) == KnownPart(log, StartOf(day), StartOf(day + 1))
    ensures log != [] && log[0].at <= StartOf(day) ==> DayTime(log, to, day, ALL) == 24 * 3600 * 1_000_000
  {
    DayTimeIsMeasure(log, to, day, ALL);
    AllInstants(log, StartOf(day), StartOf(day + 1));
  }

  function RangeTime(log: seq<Record>, from: int, to: int, upTo: int, groups: set<Group>): int
    decreases upTo - from
  {
    if upTo < from then 0 else RangeTime(log, from, to, upTo - 1, groups) + DayTime(log, to, upTo, groups)
  }

  lemma {:induction false} RangeIsMeasure(log: seq<Record>, from: int, to: int, upTo: int, groups: set<Group>)
    requires Sorted(log) && from - 1 <= upTo <= to
    ensures RangeTime(log, from, to, upTo, groups) == Instants(log, StartOf(from), StartOf(upTo + 1), groups)
    decreases upTo - from
  {
    if from <= upTo {
      RangeIsMeasure(log, from, to, upTo - 1, groups);
      DayTimeIsMeasure(log, to, upTo, groups);
      InstantsAdd(log, StartOf(from), StartOf(upTo), StartOf(upTo + 1), groups);
    }
  }

  /** The days telescope: over [from, to] a host accounts for the time from its first record to the end of the range. */
  lemma RangeTelescopes(log: seq<Record>, from: int, to: int)
    requires Sorted(log) && from <= to
    ensures RangeTime(log, from, to, to, ALL) == KnownPart(log, StartOf(from), StartOf(to + 1))
  {
    RangeIsMeasure(log, from, to, to, ALL);
    AllInstants(log, StartOf(from), StartOf(to + 1));
  }

  // ---- the report row ----

  function FleetTime(hosts: seq<seq<Record>>, to: int, day: int, groups: set<Group>): int {
    if hosts == [] then 0 else DayTime(hosts[0], to, day, groups) + FleetTime(hosts[1..], to, day, groups)
  }

  lemma {:induction false} TimeSplits(log: seq<Record>, lo: int, hi: int, a: set<Group>, b: set<Group>)
    requires a !! b
    ensures Time(log, lo, hi, a + b) == Time(log, lo, hi, a) + Time(log, lo, hi, b)
  {
    if log != [] {
      TimeSplits(log[1..], lo, hi, a, b);
    }
  }

  lemma {:induction false} FleetSplits(hosts: seq<seq<Record>>, to: int, day: int, a: set<Group>, b: set<Group>)
    requires a !! b
    ensures FleetTime(hosts, to, day, a + b) == FleetTime(hosts, to, day, a) + FleetTime(hosts, to, day, b)
  {
    if hosts != [] {
      TimeSplits(Before(hosts[0], StartOf(to + 1)), StartOf(day), StartOf(day + 1), a, b);
      FleetSplits(hosts[1..], to, day, a, b);
    }
  }

  lemma {:induction false} FleetIsNonNegative(hosts: seq<seq<Record>>, to: int, day: int, groups: set<Group>)
    requires day <= to && forall i :: 0 <= i < |hosts| ==> Sorted(hosts[i])
    ensures FleetTime(hosts, to, day, groups) >= 0
  {
    if hosts != [] {
      DayTimeIsMeasure(hosts[0], to, day, groups);
      FleetIsNonNegative(hosts[1..], to, day, groups);
    }
  }

  /** The six columns and the unlisted rest add up to the total column. */
  lemma GroupsAddUp(hosts: seq<seq<Record>>, to: int, day: int)
    ensures FleetTime(hosts, to, day, ALL)
         == FleetTime(hosts, to, day, {Available}) + FleetTime(hosts, to, day, {Allocating})
             + FleetTime(hosts, to, day, {Validating})
          + FleetTime(hosts, to, day, {Cordon}) + FleetTime(hosts, to, day, {OFR})
              + FleetTime(hosts, to, day, {Deallocated})
          + FleetTime(hosts, to, day, {Other})
  {
    FleetSplits(hosts, to, day, {Available}, {Allocating});
    FleetSplits(hosts, to, day, {Available} + {Allocating}, {Validating});
    FleetSplits(hosts, to, day, {Available} + {Allocating} + {Validating}, {Cordon});
    FleetSplits(hosts, to, day, {Available} + {Allocating} + {Validating} + {Cordon}, {OFR});
    FleetSplits(hosts, to, day, {Available} + {Allocating} + {Validating} + {Cordon} + {OFR}, {Deallocated});
    FleetSplits(hosts, to, day, {Available} + {Allocating} + {Validating} + {Cordon} + {OFR} + {Deallocated}, {Other});
    assert ALL == {Available} + {Allocating} + {Validating} + {Cordon} + {OFR} + {Deallocated} + {Other};
  }

  /** `avail_pct` before rounding: NULLIF and COALESCE turn an empty denominator into 0. */
  function AvailablePercent(hosts: seq<seq<Record>>, to: int, day: int): real {
    var managed := FleetTime(hosts, to, day, ALL - {Deallocated});
    if managed == 0 then 0.0
    else FleetTime(hosts, to, day, {Available}) as real / managed as real * 100.0
  }

  // ---- the report row from the hosts' own logs ----

  /** The report counts every host once. */
  lemma {:induction false} FleetAdds(a: seq<seq<Record>>, b: seq<seq<Record>>, to: int, day: int, groups: set<Group>)
    ensures FleetTime(a + b, to, day, groups) == FleetTime(a, to, day, groups) + FleetTime(b, to, day, groups)
  {
    if a == [] {
      assert a + b == b;
    } else {
      assert (a + b)[1..] == a[1..] + b;
      FleetAdds(a[1..], b, to, day, groups);
    }
  }

  lemma FleetOfOne(log: seq<Record>, to: int, day: int, groups: set<Group>)
    requires Sorted(log) && day <= to
    ensures FleetTime([log], to, day, groups) == Instants(log, StartOf(day), StartOf(day + 1), groups)
  {
    assert [log][1..] == [];
    DayTimeIsMeasure(log, to, day, groups);
  }

  /** The status names behind the six columns; every other name counts in the total only. */
  predicate Named(g: Group, status: string) {
    match g
    case Available => status == "available"
    case Allocating => status == "allocated_ua" || status == "allocated_platform"
    case Validating => status == "ready_ua" || status == "validating" || status == "new"
    case Cordon =>
      status == "cordoned" || status == "triaged_unknown" || status == "triaged_hardware"
          || status == "triaged_platform"
    case OFR => status == "ua" || status == "deallocated_ua"
    case Deallocated => status == "deallocated_platform" || status == "deallocated_capacity"
    case Other => false
  }

  lemma NamedIff(status: string, g: Group)
    ensures Named(g, status) <==> GroupOf(status) == g && g != Other
  {
    match g {
      case Available =>
      case Allocating =>
      case Validating =>
      case Cordon =>
      case OFR =>
      case Deallocated =>
      case Other =>
    }
  }

  /**
   A host that has had one status since before the day spends the day's 24 hours in the total, in the
   column that names its status if one does, and in no other.
   */
  lemma WholeDayCounts(status: string, since: int, to: int, day: int, g: Group)
    requires since <= StartOf(day) && day <= to && g != Other
    ensures FleetTime([[Record(since, status)]], to, day, ALL) == 24 * 3600 * 1_000_000
    ensures FleetTime([[Record(since, status)]], to, day, {g}) == if Named(g, status) then 24 * 3600 * 1_000_000 else 0
  {
    var log := [Record(since, status)];
    NamedIff(status, g);
    EveryGroup(GroupOf(status));
    forall groups: set<Group>
      ensures FleetTime([log], to, day, groups) == if GroupOf(status) in groups then 24 * 3600 * 1_000_000 else 0
    {
      FleetOfOne(log, to, day, groups);
      TimeIsMeasure(log, StartOf(day), StartOf(day + 1), groups);
      assert log[1..] == [];
    }
  }

  /** The percentage is the available share of all time that is not deallocated, unlisted statuses included. */
  lemma PercentIsShare(hosts: seq<seq<Record>>, to: int, day: int)
    ensures var managed := FleetTime(hosts, to, day, ALL) - FleetTime(hosts, to, day, {Deallocated});
            && (managed == 0 ==> AvailablePercent(hosts, to, day) == 0.0)
            && (managed != 0 ==>
                  AvailablePercent(hosts, to, day) * managed as real
                      == 100.0 * FleetTime(hosts, to, day, {Available}) as real)
  {
    assert (ALL - {Deallocated}) + {Deallocated} == ALL;
    FleetSplits(hosts, to, day, ALL - {Deallocated}, {Deallocated});
    var managed := FleetTime(hosts, to, day, ALL - {Deallocated});
    if managed != 0 {
      ShareTimesWhole(FleetTime(hosts, to, day, {Available}) as real, managed as real);
    }
  }

  lemma ShareTimesWhole(part: real, whole: real)
    requires whole != 0.0
    ensures part / whole * 100.0 * whole == 100.0 * part
  {
    assert part / whole * whole == part;
  }

  lemma FractionIsPercent(part: int, whole: int)
    requires 0 <= part <= whole && whole > 0
    ensures 0.0 <= part as real / whole as real * 100.0 <= 100.0
  {
    assert part as real / whole as real <= 1.0;
  }

  /** The percentage is one. */
  lemma PercentIsBounded(hosts: seq<seq<Record>>, to: int, day: int)
    requires day <= to && forall i :: 0 <= i < |hosts| ==> Sorted(hosts[i])
    ensures 0.0 <= AvailablePercent(hosts, to, day) <= 100.0
  {
    var rest := ALL - {Deallocated, Available};
    assert {Available} + rest == ALL - {Deallocated};
    FleetSplits(hosts, to, day, {Available}, rest);
    FleetIsNonNegative(hosts, to, day, {Available});
    FleetIsNonNegative(hosts, to, day, rest);
    if FleetTime(hosts, to, day, ALL - {Deallocated}) != 0 {
      FractionIsPercent(FleetTime(hosts, to, day, {Available}), FleetTime(hosts, to, day, ALL - {Deallocated}));
    }
  }
}
