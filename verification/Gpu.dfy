/**
 GPU utilization snapshots. The live collector builds rows from one instant of every metric, the
 backfill from ranges of samples. The source writes every loop twice. Here the loops that fill the
 per-metric maps are written twice as well; those over the finished maps, which are word for word the
 same in both, are shared. The backfill's rows are proved to be, timestamp by timestamp, the live rows
 of the slice at that timestamp.
 */
module Gpu {
  import opened Prelude
  import opened OrderedMap

  type Labels = map<string, string>

  /** One metric at one instant, and one metric over a range, in the order Prometheus returned them. */
  datatype Sample = Sample(labels: Labels, value: string)
  datatype Series = Series(labels: Labels, values: seq<(int, string)>)

  /** `parseInt(text) || 0` and `parseFloat(text) || 0`. */
  datatype Parse = Parse(whole: string -> int, fraction: string -> real)

  datatype VcTotal = VcTotal(vc: string, sku: string, total: int)

  datatype Snapshot = Snapshot(
    timestamp: int, sku: string, vc: string,
    total: int, used: int, active: int, idle: int, sumUtil: real, avgUtil: real, unhealthy: int)

  function Label(l: Labels, name: string): string {
    if name in l then l[name] else ""
  }

  /** `l.first || l.second || ""` */
  function Either(l: Labels, first: string, second: string): string {
    if Label(l, first) != "" then Label(l, first) else Label(l, second)
  }

  function TotalOf(p: Parse, s: Sample): VcTotal {
    VcTotal(Either(s.labels, "vc_stat", "virtual_cluster"), Label(s.labels, "sku"), p.whole(s.value))
  }

  function KeyOf(t: VcTotal): string {
    t.vc + "|" + t.sku
  }

  // ---- specification: the maps of one instant ----

  function Totals(p: Parse, res: seq<Sample>): OMap<string, VcTotal> {
    if res == [] then []
    else
      var t := TotalOf(p, res[|res| - 1]);
      Put(Totals(p, res[..|res| - 1]), KeyOf(t), t)
  }

  function UsedSoFar(m: OMap<string, int>, vc: string): int {
    match Get(m, vc) case None => 0 case Some(n) => n
  }

  function Used(p: Parse, res: seq<Sample>): OMap<string, int> {
    if res == [] then []
    else
      var last := res[|res| - 1];
      var m := Used(p, res[..|res| - 1]);
      var vc := Either(last.labels, "virtual_cluster", "vc_stat");
      Put(m, vc, UsedSoFar(m, vc) + p.whole(last.value))
  }

  /** A metric by virtual cluster; a later sample replaces an earlier one. */
  function Column<V>(value: string -> V, res: seq<Sample>): map<string, V> {
    if res == [] then map[]
    else
      var last := res[|res| - 1];
      Column(value, res[..|res| - 1])[Label(last.labels, "virtual_cluster") := value(last.value)]
  }

  function At<V>(m: map<string, V>, vc: string, default: V): V {
    if vc in m then m[vc] else default
  }

  /** Every cluster of the scheduler, under its last total but in the place of its first. */
  function Scheduled(totals: OMap<string, VcTotal>): OMap<string, VcTotal> {
    if totals == [] then []
    else
      var t := totals[|totals| - 1].1;
      Put(Scheduled(totals[..|totals| - 1]), t.vc, t)
  }

  /** ... and after them the clusters only the job exporter knows. */
  function Clusters(totals: OMap<string, VcTotal>, used: OMap<string, int>): OMap<string, VcTotal> {
    if used == [] then Scheduled(totals)
    else
      var vc := used[|used| - 1].0;
      var m := Clusters(totals, used[..|used| - 1]);
      if Get(m, vc).None? && vc != "" then Put(m, vc, VcTotal(vc, "unknown", 0)) else m
  }

  /** What one instant's metrics say, looked up by cluster. */
  datatype Metrics = Metrics(
    used: OMap<string, int>, active: map<string, int>, idle: map<string, int>,
    sumUtil: map<string, real>, avgUtil: map<string, real>, unhealthy: map<string, int>)

  function Clamp(x: real, lo: real, hi: real): real {
    if x < lo then lo else if x > hi then hi else x
  }

  function RowOf(ts: int, t: VcTotal, m: Metrics): Snapshot {
    var active := At(m.active, t.vc, 0);
    var idle := At(m.idle, t.vc, 0);
    var shown := if active < 0 then 0 else active;
    Snapshot(ts, if t.sku == "" then "unknown" else t.sku, t.vc, t.total, UsedSoFar(m.used, t.vc),
             shown, if idle < 0 then 0 else idle,
             Clamp(At(m.sumUtil, t.vc, 0.0), 0.0, shown as real), Clamp(At(m.avgUtil, t.vc, 0.0), 0.0, 100.0),
             At(m.unhealthy, t.vc, 0))
  }

  function RowsOf(ts: int, clusters: OMap<string, VcTotal>, m: Metrics): seq<Snapshot> {
    if clusters == [] then []
    else
      var t := clusters[|clusters| - 1].1;
      RowsOf(ts, clusters[..|clusters| - 1], m) + if t.vc == "" then [] else [RowOf(ts, t, m)]
  }

  /** The seven queries, at one instant or over a range. */
  datatype Queries<T> = Queries(total: seq<T>, used: seq<T>, active: seq<T>, idle: seq<T>, sumUtil: seq<T>,
                                avgUtil: seq<T>, unhealthy: seq<T>)

  function MetricsOf(p: Parse, q: Queries<Sample>): Metrics {
    Metrics(Used(p, q.used), Column(p.whole, q.active), Column(p.whole, q.idle),
            Column(Percent(p), q.sumUtil), Column(p.fraction, q.avgUtil), Column(p.whole, q.unhealthy))
  }

  function Percent(p: Parse): string -> real {
    (text: string) => p.fraction(text) / 100.0
  }

  function Snapshots(p: Parse, ts: int, q: Queries<Sample>): seq<Snapshot> {
    RowsOf(ts, Clusters(Totals(p, q.total), Used(p, q.used)), MetricsOf(p, q))
  }

  // ---- specification: slices of a range ----

  /** `values.find(([t]) => t === ts)` */
  function SampleAt(values: seq<(int, string)>, ts: int): Option<string> {
    if values == [] then None
    else if values[0].0 == ts then Some(values[0].1)
    else SampleAt(values[1..], ts)
  }

  function Slice(res: seq<Series>, ts: int): seq<Sample> {
    if res == [] then []
    else
      var last := res[|res| - 1];
      Slice(res[..|res| - 1], ts)
          + match SampleAt(last.values, ts) case None => [] case Some(v) => [Sample(last.labels, v)]
  }

  function SliceAll(q: Queries<Series>, ts: int): Queries<Sample> {
    Queries(Slice(q.total, ts), Slice(q.used, ts), Slice(q.active, ts), Slice(q.idle, ts), Slice(q.sumUtil, ts),
            Slice(q.avgUtil, ts), [])
  }

  function RangeSnapshots(p: Parse, times: seq<int>, q: Queries<Series>): seq<Snapshot> {
    if times == [] then []
    else
      var ts := times[|times| - 1];
      RangeSnapshots(p, times[..|times| - 1], q) + Snapshots(p, ts, SliceAll(q, ts))
  }

  // ---- the loops of the live collector ----

  method BuildTotals(p: Parse, res: seq<Sample>) returns (m: OMap<string, VcTotal>)
    ensures m == Totals(p, res)
  {
    m := [];
    for i := 0 to |res|
      invariant m == Totals(p, res[..i])
    {
      var t := TotalOf(p, res[i]);
      m := Put(m, KeyOf(t), t);
      assert res[..i + 1][..i] == res[..i];
    }
    assert res[..|res|] == res;
  }

  method BuildUsed(p: Parse, res: seq<Sample>) returns (m: OMap<string, int>)
    ensures m == Used(p, res)
  {
    m := [];
    for i := 0 to |res|
      invariant m == Used(p, res[..i])
    {
      var vc := Either(res[i].labels, "virtual_cluster", "vc_stat");
      assert res[..i + 1] == res[..i] + [res[i]];
      UsedGrows(p, res[..i], res[..i + 1], res[i].labels, Some(res[i].value));
      m := Put(m, vc, UsedSoFar(m, vc) + p.whole(res[i].value));
    }
    assert res[..|res|] == res;
  }

  method BuildColumn<V>(value: string -> V, res: seq<Sample>) returns (m: map<string, V>)
    ensures m == Column(value, res)
  {
    m := map[];
    for i := 0 to |res|
      invariant m == Column(value, res[..i])
    {
      m := m[Label(res[i].labels, "virtual_cluster") := value(res[i].value)];
      assert res[..i + 1][..i] == res[..i];
    }
    assert res[..|res|] == res;
  }

  method BuildClusters(totals: OMap<string, VcTotal>, used: OMap<string, int>) returns (m: OMap<string, VcTotal>)
    ensures m == Clusters(totals, used)
  {
    m := [];
    for i := 0 to |totals|
      invariant m == Scheduled(totals[..i])
    {
      m := Put(m, totals[i].1.vc, totals[i].1);
      assert totals[..i + 1][..i] == totals[..i];
    }
    assert totals[..|totals|] == totals;
    for i := 0 to |used|
      invariant m == Clusters(totals, used[..i])
    {
      var vc := used[i].0;
      if Get(m, vc).None? && vc != "" {
        m := Put(m, vc, VcTotal(vc, "unknown", 0));
      }
      assert used[..i + 1][..i] == used[..i];
    }
    assert used[..|used|] == used;
  }

  method BuildRow(ts: int, t: VcTotal, m: Metrics) returns (row: Snapshot)
    ensures row == RowOf(ts, t, m)
  {
    var active, idle := At(m.active, t.vc, 0), At(m.idle, t.vc, 0);
    var sumUtil, avgUtil := At(m.sumUtil, t.vc, 0.0), At(m.avgUtil, t.vc, 0.0);
    if active < 0 { active := 0; }
    if idle < 0 { idle := 0; }
    if avgUtil > 100.0 { avgUtil := 100.0; }
    if avgUtil < 0.0 { avgUtil := 0.0; }
    if sumUtil > active as real { sumUtil := active as real; }
    if sumUtil < 0.0 { sumUtil := 0.0; }
    row := Snapshot(ts, if t.sku == "" then "unknown" else t.sku, t.vc, t.total, UsedSoFar(m.used, t.vc),
                    active, idle, sumUtil, avgUtil, At(m.unhealthy, t.vc, 0));
  }

  method BuildRows(ts: int, clusters: OMap<string, VcTotal>, m: Metrics) returns (rows: seq<Snapshot>)
    ensures rows == RowsOf(ts, clusters, m)
  {
    rows := [];
    for i := 0 to |clusters|
      invariant rows == RowsOf(ts, clusters[..i], m)
    {
      var t := clusters[i].1;
      assert clusters[..i + 1][..i] == clusters[..i];
      if t.vc != "" {
        var row := BuildRow(ts, t, m);
        rows := rows + [row];
      }
    }
    assert clusters[..|clusters|] == clusters;
  }

  method BuildSnapshots(p: Parse, ts: int, q: Queries<Sample>) returns (rows: seq<Snapshot>)
    ensures rows == Snapshots(p, ts, q)
  {
    var totals := BuildTotals(p, q.total);
    var used := BuildUsed(p, q.used);
    var active := BuildColumn(p.whole, q.active);
    var idle := BuildColumn(p.whole, q.idle);
    var sumUtil := BuildColumn(Percent(p), q.sumUtil);
    var avgUtil := BuildColumn(p.fraction, q.avgUtil);
    var unhealthy := BuildColumn(p.whole, q.unhealthy);
    var clusters := BuildClusters(totals, used);
    rows := BuildRows(ts, clusters, Metrics(used, active, idle, sumUtil, avgUtil, unhealthy));
  }

  // ---- the loops of the backfill ----

  method CollectTimes(res: seq<Series>) returns (times: seq<int>)
    ensures forall t :: t in times <==> exists i :: 0 <= i < |res| && SampleAt(res[i].values, t).Some?
    ensures DistinctTimes(times)
  {
    times := [];
    for i := 0 to |res|
      invariant forall t :: t in times <==> exists j :: 0 <= j < i && SampleAt(res[j].values, t).Some?
      invariant DistinctTimes(times)
    {
      ghost var before := times;
      var values := res[i].values;
      for k := 0 to |values|
        invariant forall t :: t in times <==> t in before || SampleAt(values[..k], t).Some?
        invariant DistinctTimes(times)
      {
        forall t ensures SampleAt(values[..k + 1], t).Some? <==> SampleAt(values[..k], t).Some? || t == values[k].0 {
          SampleAtSnoc(values, k, t);
        }
        if values[k].0 !in times {
          times := times + [values[k].0];
        }
      }
      assert values[..|values|] == values;
    }
  }

  lemma {:induction false} SampleAtSnoc(values: seq<(int, string)>, k: nat, t: int)
    requires k < |values|
    ensures SampleAt(values[..k + 1], t).Some? <==> SampleAt(values[..k], t).Some? || t == values[k].0
  {
    if k > 0 {
      assert values[..k + 1][1..] == values[1..][..k] && values[..k][1..] == values[1..][..k - 1];
      SampleAtSnoc(values[1..], k - 1, t);
    }
  }

  lemma SliceSnoc(res: seq<Series>, i: nat, ts: int)
    requires i < |res|
    ensures match SampleAt(res[i].values, ts)
            case None => Slice(res[..i + 1], ts) == Slice(res[..i], ts)
            case Some(v) => Slice(res[..i + 1], ts) == Slice(res[..i], ts) + [Sample(res[i].labels, v)]
  {
    assert res[..i + 1][..i] == res[..i];
  }

  lemma TotalsSnoc(p: Parse, s: seq<Sample>, x: Sample)
    ensures Totals(p, s + [x]) == Put(Totals(p, s), KeyOf(TotalOf(p, x)), TotalOf(p, x))
  {
    assert (s + [x])[..|s|] == s;
  }

  lemma UsedSnoc(p: Parse, s: seq<Sample>, x: Sample)
    ensures var vc := Either(x.labels, "virtual_cluster", "vc_stat");
            Used(p, s + [x]) == Put(Used(p, s), vc, UsedSoFar(Used(p, s), vc) + p.whole(x.value))
  {
    assert (s + [x])[..|s|] == s;
  }

  /** The used counts after an instant's next series, which may have no sample there. */
  function WithUse(p: Parse, used: OMap<string, int>, l: Labels, v: Option<string>): OMap<string, int> {
    var vc := Either(l, "virtual_cluster", "vc_stat");
    match v case None => used case Some(x) => Put(used, vc, UsedSoFar(used, vc) + p.whole(x))
  }

  lemma UsedGrows(p: Parse, s: seq<Sample>, after: seq<Sample>, l: Labels, v: Option<string>)
    requires after == match v case None => s case Some(x) => s + [Sample(l, x)]
    ensures Used(p, after) == WithUse(p, Used(p, s), l, v)
  {
    if v.Some? {
      UsedSnoc(p, s, Sample(l, v.value));
    }
  }

  lemma ColumnSnoc<V>(value: string -> V, s: seq<Sample>, x: Sample)
    ensures Column(value, s + [x]) == Column(value, s)[Label(x.labels, "virtual_cluster") := value(x.value)]
  {
    assert (s + [x])[..|s|] == s;
  }

  method BuildTotalsAt(p: Parse, res: seq<Series>, ts: int) returns (m: OMap<string, VcTotal>)
    ensures m == Totals(p, Slice(res, ts))
  {
    m := [];
    for i := 0 to |res|
      invariant m == Totals(p, Slice(res[..i], ts))
    {
      SliceSnoc(res, i, ts);
      var val := SampleAt(res[i].values, ts);
      if val.Some? {
        var s := Sample(res[i].labels, val.value);
        TotalsSnoc(p, Slice(res[..i], ts), s);
        var t := TotalOf(p, s);
        m := Put(m, KeyOf(t), t);
      }
    }
    assert res[..|res|] == res;
  }

  method BuildUsedAt(p: Parse, res: seq<Series>, ts: int) returns (m: OMap<string, int>)
    ensures m == Used(p, Slice(res, ts))
  {
    m := [];
    for i := 0 to |res|
      invariant m == Used(p, Slice(res[..i], ts))
    {
      var val := SampleAt(res[i].values, ts);
      SliceSnoc(res, i, ts);
      UsedGrows(p, Slice(res[..i], ts), Slice(res[..i + 1], ts), res[i].labels, val);
      m := WithUse(p, m, res[i].labels, val);
    }
    assert res[..|res|] == res;
  }

  method BuildColumnAt<V>(value: string -> V, res: seq<Series>, ts: int) returns (m: map<string, V>)
    ensures m == Column(value, Slice(res, ts))
  {
    m := map[];
    for i := 0 to |res|
      invariant m == Column(value, Slice(res[..i], ts))
    {
      SliceSnoc(res, i, ts);
      var val := SampleAt(res[i].values, ts);
      if val.Some? {
        ColumnSnoc(value, Slice(res[..i], ts), Sample(res[i].labels, val.value));
        m := m[Label(res[i].labels, "virtual_cluster") := value(val.value)];
      }
    }
    assert res[..|res|] == res;
  }

  /** The loop body of the backfill: one timestamp's rows, with 0 for the unhealthy count. */
  method BuildSnapshotsAt(p: Parse, q: Queries<Series>, ts: int) returns (rows: seq<Snapshot>)
    ensures rows == Snapshots(p, ts, SliceAll(q, ts))
  {
    var totals := BuildTotalsAt(p, q.total, ts);
    var used := BuildUsedAt(p, q.used, ts);
    var active := BuildColumnAt(p.whole, q.active, ts);
    var idle := BuildColumnAt(p.whole, q.idle, ts);
    var sumUtil := BuildColumnAt(Percent(p), q.sumUtil, ts);
    var avgUtil := BuildColumnAt(p.fraction, q.avgUtil, ts);
    var clusters := BuildClusters(totals, used);
    rows := BuildRows(ts, clusters, Metrics(used, active, idle, sumUtil, avgUtil, map[]));
  }

  predicate DistinctTimes(times: seq<int>) {
    forall a, b :: 0 <= a < b < |times| ==> times[a] != times[b]
  }

  lemma {:induction false} DistinctIffCountedOnce(times: seq<int>)
    ensures DistinctTimes(times) <==> forall x :: multiset(times)[x] <= 1
  {
    if times != [] {
      var first, rest := times[0], times[1..];
      DistinctIffCountedOnce(rest);
      assert times == [first] + rest;
      assert forall x :: multiset(times)[x] == multiset(rest)[x] + if x == first then 1 else 0;
      if DistinctTimes(times) {
        assert first !in rest;
      }
      if first in rest {
        assert multiset(times)[first] >= 2;
        var b :| 0 <= b < |rest| && rest[b] == first;
        assert times[0] == times[b + 1];
      }
    }
  }

  lemma SameElements(a: seq<int>, b: seq<int>)
    requires multiset(a) == multiset(b)
    ensures forall x :: x in a <==> x in b
    ensures DistinctTimes(a) <==> DistinctTimes(b)
  {
    forall x ensures x in a <==> x in b {
      assert x in a <==> x in multiset(a);
    }
    DistinctIffCountedOnce(a);
    DistinctIffCountedOnce(b);
  }

  /**
   The backfill refines the live collector: for each timestamp of the totals, once and in the order the
   sort yields, its rows are the live rows of that instant's slice, with no unhealthy count.
   `sort` is the runtime's default array sort.
   */
  method BuildSnapshotsFromRange(p: Parse, q: Queries<Series>, sort: seq<int> -> seq<int>)
    returns (rows: seq<Snapshot>, times: seq<int>)
    requires forall s :: multiset(sort(s)) == multiset(s)
    ensures rows == RangeSnapshots(p, times, q)
    ensures forall t :: t in times <==> exists i :: 0 <= i < |q.total| && SampleAt(q.total[i].values, t).Some?
    ensures DistinctTimes(times)
  {
    var found := CollectTimes(q.total);
    times := sort(found);
    SameElements(times, found);
    rows := [];
    for k := 0 to |times|
      invariant rows == RangeSnapshots(p, times[..k], q)
    {
      var part := BuildSnapshotsAt(p, q, times[k]);
      assert times[..k + 1][..k] == times[..k];
      rows := rows + part;
    }
    assert times[..|times|] == times;
  }

  // ---- one row per cluster, in bounds ----

  ghost predicate KnownTo(totals: OMap<string, VcTotal>, vc: string) {
    exists i :: 0 <= i < |totals| && totals[i].1.vc == vc
  }

  ghost predicate UsedBy(used: OMap<string, int>, vc: string) {
    exists i :: 0 <= i < |used| && used[i].0 == vc
  }

  lemma KnownSnoc(totals: OMap<string, VcTotal>, vc: string)
    requires totals != []
    ensures var n := |totals| - 1;
            KnownTo(totals, vc) <==> totals[n].1.vc == vc || KnownTo(totals[..n], vc)
  {
    var n := |totals| - 1;
    if i :| 0 <= i < n && totals[i].1.vc == vc {
      assert totals[..n][i].1.vc == vc;
    }
  }

  lemma UsedBySnoc(used: OMap<string, int>, vc: string)
    requires used != []
    ensures var n := |used| - 1;
            UsedBy(used, vc) <==> used[n].0 == vc || UsedBy(used[..n], vc)
  {
    var n := |used| - 1;
    if i :| 0 <= i < n && used[i].0 == vc {
      assert used[..n][i].0 == vc;
    }
  }

  lemma {:induction false} ScheduledKey(totals: OMap<string, VcTotal>, vc: string)
    ensures Get(Scheduled(totals), vc).Some? <==> KnownTo(totals, vc)
    ensures Get(Scheduled(totals), vc).Some? ==> Get(Scheduled(totals), vc).value.vc == vc
    ensures DistinctKeys(Scheduled(totals))
  {
    if totals != [] {
      var n := |totals| - 1;
      var rest, t := Scheduled(totals[..n]), totals[n].1;
      ScheduledKey(totals[..n], vc);
      KnownSnoc(totals, vc);
      PutKeys(rest, t.vc, t);
      GetPut(rest, t.vc, t, vc);
    }
  }

  lemma {:induction false} ClusterKey(totals: OMap<string, VcTotal>, used: OMap<string, int>, vc: string)
    ensures Get(Clusters(totals, used), vc).Some? <==> KnownTo(totals, vc) || (vc != "" && UsedBy(used, vc))
    ensures Get(Clusters(totals, used), vc).Some? ==> Get(Clusters(totals, used), vc).value.vc == vc
    ensures DistinctKeys(Clusters(totals, used))
  {
    if used == [] {
      ScheduledKey(totals, vc);
    } else {
      var n := |used| - 1;
      var rest, added := Clusters(totals, used[..n]), used[n].0;
      ClusterKey(totals, used[..n], vc);
      UsedBySnoc(used, vc);
      PutKeys(rest, added, VcTotal(added, "unknown", 0));
      GetPut(rest, added, VcTotal(added, "unknown", 0), vc);
    }
  }

  /** The clusters are those of the totals and the nonempty ones of the used metric, each once, under their own name. */
  lemma ClusterKeys(totals: OMap<string, VcTotal>, used: OMap<string, int>)
    ensures DistinctKeys(Clusters(totals, used))
    ensures forall vc ::
              Get(Clusters(totals, used), vc).Some? <==> KnownTo(totals, vc) || (vc != "" && UsedBy(used, vc))
    ensures forall vc :: Get(Clusters(totals, used), vc).Some? ==> Get(Clusters(totals, used), vc).value.vc == vc
  {
    forall vc
      ensures Get(Clusters(totals, used), vc).Some? <==> KnownTo(totals, vc) || (vc != "" && UsedBy(used, vc))
      ensures Get(Clusters(totals, used), vc).Some? ==> Get(Clusters(totals, used), vc).value.vc == vc
    {
      ClusterKey(totals, used, vc);
    }
    ClusterKey(totals, used, "");
  }

  ghost predicate HasRow(rows: seq<Snapshot>, vc: string) {
    exists k :: 0 <= k < |rows| && rows[k].vc == vc
  }

  ghost predicate HasKey<V>(m: OMap<string, V>, vc: string) {
    exists i :: 0 <= i < |m| && m[i].0 == vc
  }

  lemma HasRowSnoc(rows: seq<Snapshot>, r: Snapshot, vc: string)
    ensures HasRow(rows + [r], vc) <==> HasRow(rows, vc) || r.vc == vc
  {
    var all := rows + [r];
    if k :| 0 <= k < |rows| && rows[k].vc == vc { assert all[k].vc == vc; }
    if r.vc == vc { assert all[|rows|].vc == vc; }
  }

  lemma HasKeySnoc<V>(m: OMap<string, V>, e: (string, V), vc: string)
    ensures HasKey(m + [e], vc) <==> HasKey(m, vc) || e.0 == vc
  {
    var all := m + [e];
    if i :| 0 <= i < |m| && m[i].0 == vc { assert all[i].0 == vc; }
    if e.0 == vc { assert all[|m|].0 == vc; }
  }

  predicate DistinctVcs(rows: seq<Snapshot>) {
    forall a, b :: 0 <= a < b < |rows| ==> rows[a].vc != rows[b].vc
  }

  predicate SelfNamed(clusters: OMap<string, VcTotal>) {
    forall i :: 0 <= i < |clusters| ==> clusters[i].1.vc == clusters[i].0
  }

  lemma {:induction false} RowIffCluster(ts: int, clusters: OMap<string, VcTotal>, m: Metrics, vc: string)
    requires SelfNamed(clusters)
    ensures HasRow(RowsOf(ts, clusters, m), vc) <==> vc != "" && HasKey(clusters, vc)
  {
    if clusters != [] {
      var n := |clusters| - 1;
      var t := clusters[n].1;
      RowIffCluster(ts, clusters[..n], m, vc);
      assert clusters == clusters[..n] + [clusters[n]];
      HasKeySnoc(clusters[..n], clusters[n], vc);
      var rest := RowsOf(ts, clusters[..n], m);
      assert rest + [] == rest;
      assert RowOf(ts, t, m).vc == t.vc;
      HasRowSnoc(rest, RowOf(ts, t, m), vc);
    }
  }

  lemma {:induction false} RowsAreDistinct(ts: int, clusters: OMap<string, VcTotal>, m: Metrics)
    requires DistinctKeys(clusters) && SelfNamed(clusters)
    ensures DistinctVcs(RowsOf(ts, clusters, m))
  {
    if clusters != [] {
      var n := |clusters| - 1;
      var rest := RowsOf(ts, clusters[..n], m);
      RowsAreDistinct(ts, clusters[..n], m);
      assert rest + [] == rest;
      assert RowOf(ts, clusters[n].1, m).vc == clusters[n].0;
      forall a | 0 <= a < |rest| ensures rest[a].vc != clusters[n].0 {
        RowIffCluster(ts, clusters[..n], m, rest[a].vc);
        assert HasRow(rest, rest[a].vc);
        var i :| 0 <= i < n && clusters[..n][i].0 == rest[a].vc;
        assert clusters[i].0 != clusters[n].0;
      }
      var rows := RowsOf(ts, clusters, m);
      forall a, b | 0 <= a < b < |rows| ensures rows[a].vc != rows[b].vc {
        assert rows[a] == rest[a];
        if b < |rest| {
          assert rows[b] == rest[b];
          assert rest[a].vc != rest[b].vc;
        } else {
          assert rows[b] == RowOf(ts, clusters[n].1, m);
          assert rest[a].vc != clusters[n].0;
        }
      }
    }
  }

  /** Every nonempty cluster of the totals or the used metric gets exactly one row, and no other cluster gets any. */
  lemma OneRowPerCluster(p: Parse, ts: int, q: Queries<Sample>, vc: string)
    ensures var rows := Snapshots(p, ts, q);
            && DistinctVcs(rows)
            && (HasRow(rows, vc) <==> vc != "" && (KnownTo(Totals(p, q.total), vc) || UsedBy(Used(p, q.used), vc)))
  {
    var totals, used := Totals(p, q.total), Used(p, q.used);
    var clusters := Clusters(totals, used);
    ClusterKeys(totals, used);
    EntriesNameThemselves(clusters);
    RowsAreDistinct(ts, clusters, MetricsOf(p, q));
    RowIffCluster(ts, clusters, MetricsOf(p, q), vc);
    GetIsEntry(clusters, vc);
    assert HasKey(clusters, vc) <==> Get(clusters, vc).Some?;
  }

  lemma EntriesNameThemselves(m: OMap<string, VcTotal>)
    requires DistinctKeys(m) && forall vc :: Get(m, vc).Some? ==> Get(m, vc).value.vc == vc
    ensures forall i :: 0 <= i < |m| ==> m[i].1.vc == m[i].0
  {
    forall i | 0 <= i < |m| ensures m[i].1.vc == m[i].0 {
      GetAt(m, i);
    }
  }

  /** Every row is in bounds, whatever the metrics claimed. */
  lemma {:induction false} RowsInBounds(ts: int, clusters: OMap<string, VcTotal>, m: Metrics)
    ensures forall k :: 0 <= k < |RowsOf(ts, clusters, m)| ==>
              var r := RowsOf(ts, clusters, m)[k];
              r.timestamp == ts && r.idle >= 0 && 0.0 <= r.sumUtil <= r.active as real && 0.0 <= r.avgUtil <= 100.0
  {
    if clusters != [] {
      RowsInBounds(ts, clusters[..|clusters| - 1], m);
    }
  }

  // ---- what a row shows, sample by sample ----

  /** The sum over the samples that name the cluster, in either label. */
  function SumFor(p: Parse, res: seq<Sample>, vc: string): int {
    if res == [] then 0
    else
      var l := res[0].labels;
      var named := if "virtual_cluster" in l && l["virtual_cluster"] != "" then l["virtual_cluster"]
                   else if "vc_stat" in l then l["vc_stat"] else "";
      (if named == vc then p.whole(res[0].value) else 0) + SumFor(p, res[1..], vc)
  }

  lemma {:induction false} SumForSnoc(p: Parse, res: seq<Sample>, x: Sample, vc: string)
    ensures SumFor(p, res + [x], vc) == SumFor(p, res, vc) + SumFor(p, [x], vc)
  {
    if res == [] {
      assert res + [x] == [x];
    } else {
      assert (res + [x])[1..] == res[1..] + [x];
      SumForSnoc(p, res[1..], x, vc);
    }
  }

  /** The used count of a cluster is the sum over its samples. */
  lemma {:induction false} UsedIsSum(p: Parse, res: seq<Sample>, vc: string)
    ensures UsedSoFar(Used(p, res), vc) == SumFor(p, res, vc)
  {
    if res != [] {
      var n := |res| - 1;
      var m, x := Used(p, res[..n]), res[n];
      var named := Either(x.labels, "virtual_cluster", "vc_stat");
      UsedIsSum(p, res[..n], vc);
      assert res == res[..n] + [x];
      SumForSnoc(p, res[..n], x, vc);
      assert [x][1..] == [] && SumFor(p, [x][1..], vc) == 0;
      GetPut(m, named, UsedSoFar(m, named) + p.whole(x.value), vc);
    }
  }

  /** Sample i is the last one labelled with the cluster. */
  predicate LastFor(res: seq<Sample>, vc: string, i: nat) {
    && i < |res| && Label(res[i].labels, "virtual_cluster") == vc
    && forall j :: i < j < |res| ==> Label(res[j].labels, "virtual_cluster") != vc
  }

  /** Every other metric shows the value of the cluster's last sample, and its default when there is none. */
  lemma {:induction false} ColumnIsLast<V>(value: string -> V, res: seq<Sample>, vc: string, default: V, i: nat)
    ensures LastFor(res, vc, i) ==> At(Column(value, res), vc, default) == value(res[i].value)
    ensures NoneFor(res, vc) ==> At(Column(value, res), vc, default) == default
  {
    if res != [] {
      var n := |res| - 1;
      ColumnIsLast(value, res[..n], vc, default, i);
      if LastFor(res, vc, i) && i < n {
        assert LastFor(res[..n], vc, i);
      }
    }
  }

  function AtLeastZero(n: int): int {
    if n < 0 then 0 else n
  }

  function Between(x: real, hi: real): real {
    if x < 0.0 then 0.0 else if x > hi then hi else x
  }

  /**
   Each column of a row shows its own metric: used the sum, the others the last sample of the cluster,
   counts not below zero, the summed utilization in whole GPUs and not above the active ones, the average
   in percent.
   */
  lemma RowShows(p: Parse, ts: int, t: VcTotal, q: Queries<Sample>, a: nat, i: nat, s: nat, v: nat, h: nat)
    requires LastFor(q.active, t.vc, a) && LastFor(q.idle, t.vc, i) && LastFor(q.sumUtil, t.vc, s)
    requires LastFor(q.avgUtil, t.vc, v) && LastFor(q.unhealthy, t.vc, h)
    ensures var row, active := RowOf(ts, t, MetricsOf(p, q)), AtLeastZero(p.whole(q.active[a].value));
            && row.timestamp == ts && row.vc == t.vc && row.total == t.total
            && row.sku == (if t.sku == "" then "unknown" else t.sku)
            && row.used == SumFor(p, q.used, t.vc)
            && row.active == active
            && row.idle == AtLeastZero(p.whole(q.idle[i].value))
            && row.sumUtil == Between(p.fraction(q.sumUtil[s].value) / 100.0, active as real)
            && row.avgUtil == Between(p.fraction(q.avgUtil[v].value), 100.0)
            && row.unhealthy == p.whole(q.unhealthy[h].value)
  {
    UsedIsSum(p, q.used, t.vc);
    ColumnIsLast(p.whole, q.active, t.vc, 0, a);
    ColumnIsLast(p.whole, q.idle, t.vc, 0, i);
    ColumnIsLast(Percent(p), q.sumUtil, t.vc, 0.0, s);
    ColumnIsLast(p.fraction, q.avgUtil, t.vc, 0.0, v);
    ColumnIsLast(p.whole, q.unhealthy, t.vc, 0, h);
  }

  predicate NoneFor(res: seq<Sample>, vc: string) {
    forall j :: 0 <= j < |res| ==> Label(res[j].labels, "virtual_cluster") != vc
  }

  /** A cluster without samples in a metric shows zero there. */
  lemma RowShowsZero(p: Parse, ts: int, t: VcTotal, q: Queries<Sample>)
    requires NoneFor(q.active, t.vc) && NoneFor(q.idle, t.vc) && NoneFor(q.sumUtil, t.vc)
    requires NoneFor(q.avgUtil, t.vc) && NoneFor(q.unhealthy, t.vc)
    ensures var row := RowOf(ts, t, MetricsOf(p, q));
            row.active == 0 && row.idle == 0 && row.sumUtil == 0.0 && row.avgUtil == 0.0 && row.unhealthy == 0
  {
    ColumnIsLast(p.whole, q.active, t.vc, 0, 0);
    ColumnIsLast(p.whole, q.idle, t.vc, 0, 0);
    ColumnIsLast(Percent(p), q.sumUtil, t.vc, 0.0, 0);
    ColumnIsLast(p.fraction, q.avgUtil, t.vc, 0.0, 0);
    ColumnIsLast(p.whole, q.unhealthy, t.vc, 0, 0);
  }

  /** The cluster a total is filed under: the scheduler's label, and the job exporter's where that is missing. */
  function TotalName(l: Labels): string {
    if "vc_stat" in l && l["vc_stat"] != "" then l["vc_stat"]
    else if "virtual_cluster" in l then l["virtual_cluster"] else ""
  }

  function TotalType(l: Labels): string {
    if "sku" in l then l["sku"] else ""
  }

  predicate SameTotal(a: Labels, b: Labels) {
    TotalName(a) + "|" + TotalType(a) == TotalName(b) + "|" + TotalType(b)
  }

  /** The total of a cluster and type is that of its last sample. */
  lemma {:induction false} TotalIsLast(p: Parse, res: seq<Sample>, i: nat)
    requires i < |res| && forall j :: i < j < |res| ==> !SameTotal(res[j].labels, res[i].labels)
    ensures var l := res[i].labels;
            Get(Totals(p, res), TotalName(l) + "|" + TotalType(l))
                == Some(VcTotal(TotalName(l), TotalType(l), p.whole(res[i].value)))
  {
    var n := |res| - 1;
    var l, t := res[i].labels, TotalOf(p, res[n]);
    GetPut(Totals(p, res[..n]), KeyOf(t), t, TotalName(l) + "|" + TotalType(l));
    if i < n {
      TotalIsLast(p, res[..n], i);
    }
  }

  /** A cluster with totals of several types shows the one listed last, not their sum. */
  lemma {:induction false} ClusterShowsLast(totals: OMap<string, VcTotal>, used: OMap<string, int>, i: nat)
    requires i < |totals| && forall j :: i < j < |totals| ==> totals[j].1.vc != totals[i].1.vc
    ensures Get(Scheduled(totals), totals[i].1.vc) == Some(totals[i].1)
    ensures Get(Clusters(totals, used), totals[i].1.vc) == Some(totals[i].1)
  {
    if used != [] {
      var n := |used| - 1;
      ClusterShowsLast(totals, used[..n], i);
      GetPut(Clusters(totals, used[..n]), used[n].0, VcTotal(used[n].0, "unknown", 0), totals[i].1.vc);
    } else {
      ScheduledShowsLast(totals, i);
    }
  }

  lemma {:induction false} ScheduledShowsLast(totals: OMap<string, VcTotal>, i: nat)
    requires i < |totals| && forall j :: i < j < |totals| ==> totals[j].1.vc != totals[i].1.vc
    ensures Get(Scheduled(totals), totals[i].1.vc) == Some(totals[i].1)
  {
    var n := |totals| - 1;
    GetPut(Scheduled(totals[..n]), totals[n].1.vc, totals[n].1, totals[i].1.vc);
    if i < n {
      ScheduledShowsLast(totals[..n], i);
    }
  }

  /** A cluster without a total shows type unknown and no GPUs. */
  lemma {:induction false} UnscheduledShows(totals: OMap<string, VcTotal>, used: OMap<string, int>, vc: string)
    requires !KnownTo(totals, vc) && vc != "" && UsedBy(used, vc)
    ensures Get(Clusters(totals, used), vc) == Some(VcTotal(vc, "unknown", 0))
  {
    var n := |used| - 1;
    var m := Clusters(totals, used[..n]);
    ClusterKeys(totals, used[..n]);
    GetPut(m, used[n].0, VcTotal(used[n].0, "unknown", 0), vc);
    if UsedBy(used[..n], vc) {
      UnscheduledShows(totals, used[..n], vc);
    } else {
      assert forall k :: 0 <= k < n ==> used[..n][k] == used[k];
      assert used[n].0 == vc;
    }
  }

  /** The sample of a range at a timestamp is the first one the series has for it. */
  lemma {:induction false} SampleAtIsFirst(values: seq<(int, string)>, ts: int, i: nat)
    requires i < |values| && values[i].0 == ts && forall j :: 0 <= j < i ==> values[j].0 != ts
    ensures SampleAt(values, ts) == Some(values[i].1)
  {
    if i > 0 {
      SampleAtIsFirst(values[1..], ts, i - 1);
    }
  }

  /** Series i is the last one labelled with the cluster that has a sample at the timestamp, and v is that sample. */
  predicate LastSeries(res: seq<Series>, vc: string, ts: int, i: nat, v: string) {
    && i < |res| && Label(res[i].labels, "virtual_cluster") == vc && SampleAt(res[i].values, ts) == Some(v)
    && forall j :: i < j < |res| ==> Label(res[j].labels, "virtual_cluster") != vc || SampleAt(res[j].values, ts).None?
  }

  lemma ColumnOfSlice<V>(value: string -> V, res: seq<Series>, ts: int)
    requires res != []
    ensures var n, v := |res| - 1, SampleAt(res[|res| - 1].values, ts);
            var before := Column(value, Slice(res[..n], ts));
            Column(value, Slice(res, ts))
            == if v.None? then before else before[Label(res[n].labels, "virtual_cluster") := value(v.value)]
  {
    var n := |res| - 1;
    var before, v := Slice(res[..n], ts), SampleAt(res[n].values, ts);
    if v.None? {
      assert before + [] == before;
    } else {
      ColumnSnoc(value, before, Sample(res[n].labels, v.value));
    }
  }

  lemma {:induction false} SlicedColumn<V>(value: string -> V, res: seq<Series>, vc: string, ts: int, default: V,
                                           i: nat, v: string)
    requires LastSeries(res, vc, ts, i, v)
    ensures At(Column(value, Slice(res, ts)), vc, default) == value(v)
    ensures vc in Column(value, Slice(res, ts))
  {
    var n := |res| - 1;
    ColumnOfSlice(value, res, ts);
    if i < n {
      assert forall j :: 0 <= j < n ==> res[..n][j] == res[j];
      SlicedColumn(value, res[..n], vc, ts, default, i, v);
    }
  }

  /** A backfilled row shows each metric's own sample at its timestamp, and no unhealthy count. */
  lemma BackfilledRowShows(p: Parse, ts: int, t: VcTotal, q: Queries<Series>, i: nat, j: nat, k: nat, l: nat,
                           active: string, idle: string, sum: string, avg: string)
    requires LastSeries(q.active, t.vc, ts, i, active) && LastSeries(q.idle, t.vc, ts, j, idle)
    requires LastSeries(q.sumUtil, t.vc, ts, k, sum) && LastSeries(q.avgUtil, t.vc, ts, l, avg)
    ensures var row := RowOf(ts, t, MetricsOf(p, SliceAll(q, ts)));
            && row.active == AtLeastZero(p.whole(active)) && row.idle == AtLeastZero(p.whole(idle))
            && row.sumUtil == Between(p.fraction(sum) / 100.0, AtLeastZero(p.whole(active)) as real)
            && row.avgUtil == Between(p.fraction(avg), 100.0) && row.unhealthy == 0
            && row.used == SumFor(p, Slice(q.used, ts), t.vc)
  {
    SlicedColumn(p.whole, q.active, t.vc, ts, 0, i, active);
    SlicedColumn(p.whole, q.idle, t.vc, ts, 0, j, idle);
    SlicedColumn(Percent(p), q.sumUtil, t.vc, ts, 0.0, k, sum);
    SlicedColumn(p.fraction, q.avgUtil, t.vc, ts, 0.0, l, avg);
    UsedIsSum(p, Slice(q.used, ts), t.vc);
  }
}
