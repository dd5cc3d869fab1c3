/**
 Grouping a session's events into per-task buckets. A bucket runs from its task's first sequence
 number to the next known one. The buckets partition the events from the first task's start on
 exactly when the known starts do not go down in creation order.
 */
module Timeline {
  import opened Prelude

  datatype Task = Task(id: nat, createdAt: int, start: Option<nat>)
  datatype Event = Event(seqNo: nat, payload: string)

  // ---- creation order ----

  predicate ByCreation(tasks: seq<Task>) {
    forall i, j :: 0 <= i < j < |tasks| ==> tasks[i].createdAt <= tasks[j].createdAt
  }

  /** Stable insertion of a task before the first one not created earlier. */
  function Insert(t: Task, sorted: seq<Task>): seq<Task> {
    if sorted == [] then [t]
    else if t.createdAt <= sorted[0].createdAt then [t] + sorted
    else [sorted[0]] + Insert(t, sorted[1..])
  }

  /** `[...tasks].sort(...)`: a stable sort by creation time. */
  function SortedByCreation(tasks: seq<Task>): seq<Task> {
    if tasks == [] then [] else Insert(tasks[0], SortedByCreation(tasks[1..]))
  }

  lemma {:induction false} InsertAdds(t: Task, sorted: seq<Task>)
    ensures multiset(Insert(t, sorted)) == multiset(sorted) + multiset{t}
  {
    if sorted != [] && t.createdAt > sorted[0].createdAt {
      InsertAdds(t, sorted[1..]);
      assert sorted == [sorted[0]] + sorted[1..];
    }
  }

  lemma {:induction false} InsertSorts(t: Task, sorted: seq<Task>)
    requires ByCreation(sorted)
    ensures ByCreation(Insert(t, sorted))
    ensures sorted != [] ==> Insert(t, sorted)[0].createdAt <= sorted[0].createdAt
    ensures Insert(t, sorted)[0] == t || (sorted != [] && Insert(t, sorted)[0] == sorted[0])
  {
    if sorted != [] && t.createdAt > sorted[0].createdAt {
      InsertSorts(t, sorted[1..]);
      var rest := Insert(t, sorted[1..]);
      assert sorted[0].createdAt <= rest[0].createdAt;
    }
  }

  predicate DistinctIds(tasks: seq<Task>) {
    forall i, j :: 0 <= i < j < |tasks| ==> tasks[i].id != tasks[j].id
  }

  lemma {:induction false} InsertKeepsIds(t: Task, sorted: seq<Task>)
    requires DistinctIds(sorted) && forall i :: 0 <= i < |sorted| ==> sorted[i].id != t.id
    ensures DistinctIds(Insert(t, sorted))
    ensures forall x :: x in Insert(t, sorted) <==> x == t || x in sorted
  {
    if sorted != [] && t.createdAt > sorted[0].createdAt {
      InsertKeepsIds(t, sorted[1..]);
      var rest := Insert(t, sorted[1..]);
      assert sorted == [sorted[0]] + sorted[1..];
      forall k | 0 <= k < |rest| ensures rest[k].id != sorted[0].id {
        assert rest[k] in rest;
        assert rest[k] == t || exists i :: 1 <= i < |sorted| && sorted[i] == rest[k];
      }
    }
  }

  lemma {:induction false} SortingKeepsIds(tasks: seq<Task>)
    requires DistinctIds(tasks)
    ensures DistinctIds(SortedByCreation(tasks))
    ensures forall x :: x in SortedByCreation(tasks) <==> x in tasks
  {
    if tasks != [] {
      var rest := SortedByCreation(tasks[1..]);
      SortingKeepsIds(tasks[1..]);
      assert tasks == [tasks[0]] + tasks[1..];
      forall i | 0 <= i < |rest| ensures rest[i].id != tasks[0].id {
        assert rest[i] in tasks[1..];
      }
      InsertKeepsIds(tasks[0], rest);
    }
  }

  /** The order the buckets follow is by creation time and drops or repeats no task. */
  lemma {:induction false} SortedIsPermutation(tasks: seq<Task>)
    ensures multiset(SortedByCreation(tasks)) == multiset(tasks) && ByCreation(SortedByCreation(tasks))
  {
    if tasks != [] {
      SortedIsPermutation(tasks[1..]);
      InsertAdds(tasks[0], SortedByCreation(tasks[1..]));
      InsertSorts(tasks[0], SortedByCreation(tasks[1..]));
      assert tasks == [tasks[0]] + tasks[1..];
    }
  }

  /** Only the tasks created at this time, in the order they are listed. */
  function CreatedAt(tasks: seq<Task>, at: int): seq<Task> {
    if tasks == [] then [] else (if tasks[0].createdAt == at then [tasks[0]] else []) + CreatedAt(tasks[1..], at)
  }

  lemma {:induction false} InsertKeepsTies(t: Task, sorted: seq<Task>, at: int)
    requires ByCreation(sorted)
    ensures CreatedAt(Insert(t, sorted), at) == (if t.createdAt == at then [t] else []) + CreatedAt(sorted, at)
  {
    if sorted != [] && t.createdAt > sorted[0].createdAt {
      InsertKeepsTies(t, sorted[1..], at);
      if t.createdAt == at {
        assert sorted[0].createdAt != at;
      }
    }
  }

  /** Tasks created at the same time keep their order. */
  lemma {:induction false} SortIsStable(tasks: seq<Task>, at: int)
    ensures CreatedAt(SortedByCreation(tasks), at) == CreatedAt(tasks, at)
  {
    if tasks != [] {
      SortIsStable(tasks[1..], at);
      SortedIsPermutation(tasks[1..]);
      InsertKeepsTies(tasks[0], SortedByCreation(tasks[1..]), at);
    }
  }

  // ---- buckets ----

  /** The events with start <= seq, and seq < end when there is an end. */
  function Within(events: seq<Event>, start: nat, end: Option<nat>): seq<Event> {
    if events == [] then []
    else
      (if start <= events[0].seqNo && (end.None? || events[0].seqNo < end.value) then [events[0]] else [])
      + Within(events[1..], start, end)
  }

  /** The first known start at position i or later. */
  function NextStart(tasks: seq<Task>, i: nat): Option<nat>
    requires i <= |tasks|
    decreases |tasks| - i
  {
    if i == |tasks| then None
    else if tasks[i].start.Some? then tasks[i].start
    else NextStart(tasks, i + 1)
  }

  /**
   Where bucket i starts: the known start, 0 for the first task, else after the previous bucket, if that
   has events.
   */
  function StartOf(tasks: seq<Task>, events: seq<Event>, i: nat): Option<nat>
    requires i < |tasks|
    decreases i, 0
  {
    if tasks[i].start.Some? then tasks[i].start
    else if i == 0 then Some(0)
    else
      var previous := Bucket(tasks, events, i - 1);
      if previous == [] then None else Some(previous[|previous| - 1].seqNo + 1)
  }

  function Bucket(tasks: seq<Task>, events: seq<Event>, i: nat): seq<Event>
    requires i < |tasks|
    decreases i, 1
  {
    match StartOf(tasks, events, i)
    case None => []
    case Some(start) => Within(events, start, NextStart(tasks, i + 1))
  }

  method FindEnd(tasks: seq<Task>, i: nat) returns (end: Option<nat>)
    requires i < |tasks|
    ensures end == NextStart(tasks, i + 1)
  {
    end := None;
    for j := i + 1 to |tasks|
      invariant NextStart(tasks, i + 1) == NextStart(tasks, j)
    {
      if tasks[j].start.Some? {
        return tasks[j].start;
      }
    }
  }

  /** `result` holds the buckets of the first n tasks and nothing else. */
  ghost predicate Filed(result: map<nat, seq<Event>>, tasks: seq<Task>, events: seq<Event>, n: nat)
    requires n <= |tasks|
  {
    && (forall j :: 0 <= j < n ==> tasks[j].id in result && result[tasks[j].id] == Bucket(tasks, events, j))
    && (forall id :: id in result ==> exists j :: 0 <= j < n && tasks[j].id == id)
  }

  method GroupEventsByTask(tasks: seq<Task>, events: seq<Event>) returns (result: map<nat, seq<Event>>)
    requires DistinctIds(tasks)
    ensures Filed(result, SortedByCreation(tasks), events, |SortedByCreation(tasks)|)
  {
    result := map[];
    var sorted := SortedByCreation(tasks);
    SortingKeepsIds(tasks);
    for i := 0 to |sorted|
      invariant Filed(result, sorted, events, i)
    {
      var task := sorted[i];
      var bucket := BuildBucket(sorted, events, i, if i == 0 then [] else result[sorted[i - 1].id]);
      FiledGrows(result, sorted, events, i);
      result := result[task.id := bucket];
    }
  }

  lemma FiledGrows(result: map<nat, seq<Event>>, tasks: seq<Task>, events: seq<Event>, i: nat)
    requires DistinctIds(tasks) && i < |tasks| && Filed(result, tasks, events, i)
    ensures Filed(result[tasks[i].id := Bucket(tasks, events, i)], tasks, events, i + 1)
  {
    forall id | id in result ensures exists j :: 0 <= j < i + 1 && tasks[j].id == id {
      var j :| 0 <= j < i && tasks[j].id == id;
    }
  }

  /** The body of the loop over tasks; `prevBucket` is the bucket already filed for the task before. */
  method BuildBucket(sorted: seq<Task>, events: seq<Event>, i: nat, prevBucket: seq<Event>) returns (bucket: seq<Event>)
    requires i < |sorted| && (i > 0 ==> prevBucket == Bucket(sorted, events, i - 1))
    ensures bucket == Bucket(sorted, events, i)
  {
    var start := sorted[i].start;
    if start.None? {
      if i == 0 {
        start := Some(0);
      } else if |prevBucket| > 0 {
        start := Some(prevBucket[|prevBucket| - 1].seqNo + 1);
      } else {
        return [];
      }
    }
    var end := FindEnd(sorted, i);
    bucket := Within(events, start.value, end);
  }

  // ---- what a bucket holds ----

  predicate InOrder(events: seq<Event>) {
    forall i, j :: 0 <= i < j < |events| ==> events[i].seqNo < events[j].seqNo
  }

  lemma {:induction false} WithinHolds(events: seq<Event>, start: nat, end: Option<nat>)
    ensures forall e :: e in Within(events, start, end)
              <==> e in events && start <= e.seqNo && (end.None? || e.seqNo < end.value)
  {
    if events != [] {
      WithinHolds(events[1..], start, end);
      assert events == [events[0]] + events[1..];
    }
  }

  lemma {:induction false} WithinKeepsOrder(events: seq<Event>, start: nat, end: Option<nat>)
    requires InOrder(events)
    ensures InOrder(Within(events, start, end))
  {
    if events != [] {
      WithinKeepsOrder(events[1..], start, end);
      WithinHolds(events[1..], start, end);
      var rest := Within(events[1..], start, end);
      forall k | 0 <= k < |rest| ensures events[0].seqNo < rest[k].seqNo {
        assert rest[k] in rest && rest[k] in events[1..];
      }
    }
  }

  lemma {:induction false} NothingWithin(events: seq<Event>, start: nat, end: Option<nat>)
    requires forall e :: e in events ==> !(start <= e.seqNo && (end.None? || e.seqNo < end.value))
    ensures Within(events, start, end) == []
  {
    if events != [] {
      NothingWithin(events[1..], start, end);
    }
  }

  /** No event of the bucket comes after its last one. */
  predicate LastIsLatest(bucket: seq<Event>) {
    forall e :: e in bucket ==> e.seqNo <= bucket[|bucket| - 1].seqNo
  }

  lemma NothingLaterIff(events: seq<Event>, from: nat, end: Option<nat>, last: Event)
    requires last in Within(events, from, end)
    ensures Within(events, last.seqNo + 1, end) == []
       <==> forall e :: e in Within(events, from, end) ==> e.seqNo <= last.seqNo
  {
    var later := Within(events, last.seqNo + 1, end);
    WithinHolds(events, from, end);
    WithinHolds(events, last.seqNo + 1, end);
    if later != [] {
      assert later[0] in later && later[0] in Within(events, from, end);
    }
  }

  /**
   Whatever order the events are in, the bucket of a later task without a known start is empty if and
   only if the bucket before it ends with its latest event.
   */
  lemma UnknownStartIsEmptyIff(tasks: seq<Task>, events: seq<Event>, i: nat)
    requires 0 < i < |tasks| && tasks[i].start.None?
    ensures Bucket(tasks, events, i) == [] <==> LastIsLatest(Bucket(tasks, events, i - 1))
  {
    var previous := Bucket(tasks, events, i - 1);
    if previous != [] {
      var last := previous[|previous| - 1];
      assert last in previous;
      NothingLaterIff(events, StartOf(tasks, events, i - 1).value, NextStart(tasks, i), last);
    }
  }

  /** With events in order, a later task without a known start gets an empty bucket. */
  lemma UnknownStartIsEmpty(tasks: seq<Task>, events: seq<Event>, i: nat)
    requires InOrder(events) && 0 < i < |tasks| && tasks[i].start.None?
    ensures Bucket(tasks, events, i) == []
  {
    var previous := Bucket(tasks, events, i - 1);
    UnknownStartIsEmptyIff(tasks, events, i);
    if previous != [] {
      WithinKeepsOrder(events, StartOf(tasks, events, i - 1).value, NextStart(tasks, i));
    }
  }

  // ---- the partition ----

  /** The buckets from position i on, one after the other. */
  function BucketsFrom(tasks: seq<Task>, events: seq<Event>, i: nat): seq<Event>
    requires i <= |tasks|
    decreases |tasks| - i
  {
    if i == |tasks| then [] else Bucket(tasks, events, i) + BucketsFrom(tasks, events, i + 1)
  }

  function FirstStart(tasks: seq<Task>): nat
    requires tasks != []
  {
    if tasks[0].start.Some? then tasks[0].start.value else 0
  }

  /** Position i has a start of its own that exceeds the next known one. */
  predicate Drops(tasks: seq<Task>, i: nat) {
    && i < |tasks| && (i == 0 || tasks[i].start.Some?)
    && NextStart(tasks, i + 1).Some?
    && NextStart(tasks, i + 1).value < if i == 0 then FirstStart(tasks) else tasks[i].start.value
  }

  ghost predicate NonDecreasing(tasks: seq<Task>) {
    forall i: nat :: !Drops(tasks, i)
  }

  lemma {:induction false} WithinSplits(events: seq<Event>, start: nat, mid: nat)
    requires InOrder(events) && start <= mid
    ensures Within(events, start, Some(mid)) + Within(events, mid, None) == Within(events, start, None)
  {
    if events != [] {
      WithinSplits(events[1..], start, mid);
      if events[0].seqNo >= mid {
        forall e | e in events ensures !(start <= e.seqNo && e.seqNo < mid) {
          var k :| 0 <= k < |events| && events[k] == e;
        }
        NothingWithin(events, start, Some(mid));
        NothingWithin(events[1..], start, Some(mid));
      }
    }
  }

  lemma {:induction false} LaterBuckets(tasks: seq<Task>, events: seq<Event>, i: nat)
    requires InOrder(events) && NonDecreasing(tasks) && 0 < i <= |tasks|
    ensures BucketsFrom(tasks, events, i)
         == match NextStart(tasks, i) case None => [] case Some(start) => Within(events, start, None)
    decreases |tasks| - i
  {
    if i < |tasks| {
      LaterBuckets(tasks, events, i + 1);
      if tasks[i].start.None? {
        UnknownStartIsEmpty(tasks, events, i);
      } else if NextStart(tasks, i + 1).Some? {
        assert !Drops(tasks, i);
        WithinSplits(events, tasks[i].start.value, NextStart(tasks, i + 1).value);
      } else {
        assert Bucket(tasks, events, i) + [] == Within(events, tasks[i].start.value, None);
      }
    }
  }

  /** In task order the buckets are the events from the first start on, each exactly once. */
  lemma BucketsPartition(tasks: seq<Task>, events: seq<Event>)
    requires InOrder(events) && tasks != [] && NonDecreasing(tasks)
    ensures BucketsFrom(tasks, events, 0) == Within(events, FirstStart(tasks), None)
  {
    LaterBuckets(tasks, events, 1);
    assert StartOf(tasks, events, 0) == Some(FirstStart(tasks));
    if NextStart(tasks, 1).Some? {
      assert !Drops(tasks, 0);
      WithinSplits(events, FirstStart(tasks), NextStart(tasks, 1).value);
    }
  }

  // ---- and only then ----

  function Reaches(start: Option<nat>, x: nat): nat {
    if start.Some? && start.value <= x then 1 else 0
  }

  /** How many drops from position i on pass over x. */
  function DropsOver(tasks: seq<Task>, i: nat, x: nat): nat
    requires i <= |tasks|
    decreases |tasks| - i
  {
    if i == |tasks| then 0
    else
      var own := if i == 0 then FirstStart(tasks) else if tasks[i].start.Some? then tasks[i].start.value else 0;
      (if Drops(tasks, i) && NextStart(tasks, i + 1).value <= x < own then 1 else 0)
      + DropsOver(tasks, i + 1, x)
  }

  lemma WithinOne(e: Event, start: nat, end: Option<nat>)
    ensures Within([e], start, end) == if start <= e.seqNo && (end.None? || e.seqNo < end.value) then [e] else []
  {
    var one := [e];
    assert one[1..] == [];
    assert Within(one[1..], start, end) == [];
  }

  /** A single event is shown once for the start it reaches and once more for every drop passing over it. */
  lemma {:induction false} TimesShown(tasks: seq<Task>, e: Event, i: nat)
    requires i <= |tasks|
    ensures |BucketsFrom(tasks, [e], i)|
         == Reaches(if i == 0 && tasks != [] then Some(FirstStart(tasks)) else NextStart(tasks, i), e.seqNo)
             + DropsOver(tasks, i, e.seqNo)
    decreases |tasks| - i
  {
    if i < |tasks| {
      TimesShown(tasks, e, i + 1);
      if i > 0 && tasks[i].start.None? {
        UnknownStartIsEmpty(tasks, [e], i);
      } else {
        WithinOne(e, StartOf(tasks, [e], i).value, NextStart(tasks, i + 1));
      }
    }
  }

  lemma {:induction false} DropIsOver(tasks: seq<Task>, i: nat, k: nat)
    requires i <= k < |tasks| && Drops(tasks, k)
    ensures DropsOver(tasks, i, NextStart(tasks, k + 1).value) > 0
    decreases k - i
  {
    if i < k {
      DropIsOver(tasks, i + 1, k);
    }
  }

  /** Grouping is a partition for every event list exactly when no known start drops below an earlier one's. */
  lemma PartitionIffNonDecreasing(tasks: seq<Task>)
    requires tasks != []
    ensures NonDecreasing(tasks)
       <==> forall events :: InOrder(events)
              ==> BucketsFrom(tasks, events, 0) == Within(events, FirstStart(tasks), None)
  {
    if NonDecreasing(tasks) {
      forall events | InOrder(events) ensures BucketsFrom(tasks, events, 0) == Within(events, FirstStart(tasks), None) {
        BucketsPartition(tasks, events);
      }
    } else {
      var k: nat :| Drops(tasks, k);
      var e := Event(NextStart(tasks, k + 1).value, "");
      TimesShown(tasks, e, 0);
      DropIsOver(tasks, 0, k);
      WithinOne(e, FirstStart(tasks), None);
      assert InOrder([e]);
      assert |BucketsFrom(tasks, [e], 0)| > |Within([e], FirstStart(tasks), None)|;
    }
  }
}
