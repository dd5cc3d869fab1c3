/** Schedules: next-fire computation, the schedule store, one scheduler tick, and bounds over runs of ticks. */
module Schedules {
  import opened Prelude
  import opened TaskRows
  import opened TaskStores

  datatype Trigger = Once | Interval | Cron
  datatype SessionMode = NewSession | ReuseSession

  datatype Schedule = Schedule(
    prompt: string,
    trigger: Trigger,
    runAt: Option<int>,
    intervalSeconds: Option<int>,
    cronExpr: Option<string>,
    timezone: string,
    sessionMode: SessionMode,
    reuseSession: Option<nat>,
    mode: Mode,
    enabled: bool,
    lastFired: Option<int>,
    nextFire: Option<int>)

  /** The cron library: the next date after `from`, or None when the expression is rejected. */
  type CronNext = (string, string, int) -> Option<int>

  ghost predicate CronOk(cron: CronNext) {
    && (forall e, tz, from :: cron(e, tz, from).Some? ==> cron(e, tz, from).value > from)
    && (forall e, tz, a, b :: cron(e, tz, a).Some? ==> cron(e, tz, b).Some?)
  }

  datatype Computed = Next(at: Option<int>) | Rejected

  function ComputeNextFire(s: Schedule, cron: CronNext, from: int): Computed {
    match s.trigger
    case Once =>
      if s.runAt.None? then Rejected else Next(if s.runAt.value > from then s.runAt else None)
    case Interval =>
      if s.intervalSeconds.None? || s.intervalSeconds.value < 1 then Rejected
      else Next(Some(from + s.intervalSeconds.value * 1000))
    case Cron =>
      if Blank(s.cronExpr) then Rejected
      else match cron(s.cronExpr.value, s.timezone, from)
        case None => Rejected
        case Some(at) => Next(Some(at))
  }

  /** A stored schedule can always be advanced, and a one-shot schedule only ever waits for its own date. */
  ghost predicate WellFormed(s: Schedule, cron: CronNext) {
    && (forall from :: ComputeNextFire(s, cron, from).Next?)
    && (s.trigger == Once ==> s.nextFire.None? || s.nextFire == s.runAt)
  }

  /** A partial update; None leaves a column alone, and a nullable column can be set to null. */
  datatype Patch = Patch(
    prompt: Option<string>,
    trigger: Option<Trigger>,
    runAt: Option<Option<int>>,
    intervalSeconds: Option<Option<int>>,
    cronExpr: Option<Option<string>>,
    timezone: Option<string>,
    sessionMode: Option<SessionMode>,
    reuseSession: Option<Option<nat>>,
    mode: Option<Mode>,
    enabled: Option<bool>)

  function Or<T>(patch: Option<T>, current: T): T {
    if patch.Some? then patch.value else current
  }

  function Merged(s: Schedule, p: Patch): Schedule {
    s.(prompt := Or(p.prompt, s.prompt), trigger := Or(p.trigger, s.trigger), runAt := Or(p.runAt, s.runAt),
       intervalSeconds := Or(p.intervalSeconds, s.intervalSeconds), cronExpr := Or(p.cronExpr, s.cronExpr),
       timezone := Or(p.timezone, s.timezone), sessionMode := Or(p.sessionMode, s.sessionMode),
       reuseSession := Or(p.reuseSession, s.reuseSession), mode := Or(p.mode, s.mode),
       enabled := Or(p.enabled, s.enabled))
  }

  predicate ChangesTrigger(p: Patch) {
    p.trigger.Some? || p.runAt.Some? || p.intervalSeconds.Some? || p.cronExpr.Some? || p.timezone.Some?
  }

  /** The row after an update, or None when the merged trigger is rejected and nothing is written. */
  function Updated(s: Schedule, p: Patch, cron: CronNext, now: int): Option<Schedule> {
    var m := Merged(s, p);
    if !ChangesTrigger(p) then Some(m)
    else match ComputeNextFire(m, cron, now)
      case Rejected => None
      case Next(at) => Some(m.(nextFire := at))
  }

  predicate Due(s: Schedule, now: int) {
    s.enabled && s.nextFire.Some? && s.nextFire.value <= now
  }

  /** The row a new schedule is stored as. */
  function Created(s: Schedule, next: Option<int>): Schedule {
    s.(enabled := true, lastFired := None, nextFire := next)
  }

  function RecordedAs(s: Schedule, firedAt: int, next: Option<int>, disableIfDone: bool): Schedule {
    if disableIfDone && next.None? then s.(lastFired := Some(firedAt), nextFire := None, enabled := false)
    else s.(lastFired := Some(firedAt), nextFire := next)
  }

  /** The scheduler asks for one-shot schedules to be disabled, and for no others. */
  function Recorded(s: Schedule, firedAt: int, next: Option<int>): Schedule {
    RecordedAs(s, firedAt, next, s.trigger == Once)
  }

  /** The earliest due schedule not yet taken. */
  function Earliest(rows: seq<Schedule>, now: int, taken: seq<nat>): (r: Option<nat>)
    ensures r.Some? ==> r.value < |rows| && Due(rows[r.value], now) && r.value !in taken
    ensures forall i :: 0 <= i < |rows| && Due(rows[i], now) && i !in taken
              ==> r.Some? && rows[r.value].nextFire.value <= rows[i].nextFire.value
    decreases |rows|
  {
    if rows == [] then None
    else
      var n := |rows| - 1;
      var r := Earliest(rows[..n], now, taken);
      if !Due(rows[n], now) || n in taken then r
      else if r.None? || rows[n].nextFire.value < rows[r.value].nextFire.value then Some(n)
      else r
  }

  predicate Distinct(ids: seq<nat>) {
    forall a, b :: 0 <= a < b < |ids| ==> ids[a] != ids[b]
  }

  predicate AllDue(rows: seq<Schedule>, ids: seq<nat>, now: int) {
    forall k :: 0 <= k < |ids| ==> ids[k] < |rows| && Due(rows[ids[k]], now)
  }

  /**
   The ids are at most `limit` due schedules, earliest first; one that is left out is due no earlier than
   any of them, and left out only for lack of room.
   */
  ghost predicate Claimed(rows: seq<Schedule>, ids: seq<nat>, now: int, limit: nat) {
    && |ids| <= limit && Distinct(ids) && AllDue(rows, ids, now)
    && (forall a, b :: 0 <= a < b < |ids| ==> rows[ids[a]].nextFire.value <= rows[ids[b]].nextFire.value)
    && forall i: nat :: i < |rows| && Due(rows[i], now) && i !in ids
         ==> |ids| == limit && forall k :: 0 <= k < |ids| ==> rows[ids[k]].nextFire.value <= rows[i].nextFire.value
  }

  class ScheduleStore {
    var rows: seq<Schedule>

    constructor ()
      ensures rows == []
    {
      rows := [];
    }

    /** Stores a schedule with its first firing date; a trigger that cannot be computed is rejected. */
    method Create(s: Schedule, cron: CronNext, now: int) returns (id: Option<nat>)
      modifies this
      ensures match ComputeNextFire(s, cron, now)
              case Rejected => id.None? && rows == old(rows)
              case Next(at) => id == Some(|old(rows)|) && rows == old(rows) + [Created(s, at)]
    {
      var next := ComputeNextFire(s, cron, now);
      if next.Rejected? {
        return None;
      }
      id := Some(|rows|);
      rows := rows + [s.(enabled := true, lastFired := None, nextFire := next.at)];
    }

    method Update(id: nat, p: Patch, cron: CronNext, now: int) returns (done: bool)
      modifies this
      ensures done == (id < |old(rows)| && Updated(old(rows)[id], p, cron, now).Some?)
      ensures rows == if done then old(rows)[id := Updated(old(rows)[id], p, cron, now).value] else old(rows)
    {
      if id >= |rows| {
        return false;
      }
      var m := Merged(rows[id], p);
      if ChangesTrigger(p) {
        var next := ComputeNextFire(m, cron, now);
        if next.Rejected? {
          return false;
        }
        m := m.(nextFire := next.at);
      }
      rows := rows[id := m];
      done := true;
    }

    /** Up to `limit` due schedules, earliest first; none left out is due before one returned. */
    method ClaimDue(now: int, limit: nat) returns (ids: seq<nat>)
      ensures Claimed(rows, ids, now, limit)
    {
      ids := [];
      while |ids| < limit
        invariant |ids| <= limit && Distinct(ids) && AllDue(rows, ids, now)
        invariant forall a, b :: 0 <= a < b < |ids| ==> rows[ids[a]].nextFire.value <= rows[ids[b]].nextFire.value
        invariant forall i: nat, k :: i < |rows| && Due(rows[i], now) && i !in ids && 0 <= k < |ids|
                    ==> rows[ids[k]].nextFire.value <= rows[i].nextFire.value
      {
        var next := Earliest(rows, now, ids);
        if next.None? {
          break;
        }
        ids := ids + [next.value];
      }
    }

    method RecordFiring(id: nat, firedAt: int, next: Option<int>, disableIfDone: bool)
      modifies this
      ensures rows == if id < |old(rows)| then old(rows)[id := RecordedAs(old(rows)[id], firedAt, next, disableIfDone)]
          else old(rows)
    {
      if id < |rows| {
        var s := rows[id];
        if disableIfDone && next.None? {
          rows := rows[id := s.(lastFired := Some(firedAt), nextFire := None, enabled := false)];
        } else {
          rows := rows[id := s.(lastFired := Some(firedAt), nextFire := next)];
        }
      }
    }
  }

  // ---- firing ----

  /** What one firing meets: agent lookup, gateway session creation, session lookup, message delivery. */
  datatype FireEnv = FireEnv(agentFound: bool, createOk: bool, newSession: nat, sessionFound: bool, sendOk: bool,
                             error: string)

  /** Tasks after a firing, and whether it succeeded. A failed delivery leaves an errored task behind. */
  function Fired(t: Table, id: nat, s: Schedule, e: FireEnv, now: int): (Table, bool) {
    if !e.agentFound then (t, false)
    else match s.sessionMode
      case NewSession =>
        if !e.createOk then (t, false)
        else (t + [NewRow(e.newSession, s.prompt, Running, s.mode, Some(id), now)], true)
      case ReuseSession =>
        if s.reuseSession.None? || s.reuseSession.value == 0 || !e.sessionFound then (t, false)
        else
          var session := s.reuseSession.value;
          if HasWorking(t, session) then (t + [NewRow(session, s.prompt, Pending, s.mode, Some(id), now)], true)
          else
            var r := NewRow(session, s.prompt, Running, s.mode, Some(id), now);
            if e.sendOk then (t + [r], true)
            else (t + [r.(status := Error, endedAt := Some(now), preview := Some(Truncate("Error: " + e.error, 200)))],
                  false)
  }

  method FireSchedule(store: TaskStore, id: nat, s: Schedule, e: FireEnv, now: int) returns (ok: bool)
    modifies store
    ensures (store.rows, ok) == Fired(old(store.rows), id, s, e, now)
  {
    if !e.agentFound {
      return false;
    }
    if s.sessionMode == NewSession {
      if !e.createOk {
        return false;
      }
      var _ := store.Create(e.newSession, s.prompt, Running, s.mode, Some(id), now);
      return true;
    }
    if s.reuseSession.None? || s.reuseSession.value == 0 || !e.sessionFound {
      return false;
    }
    var session := s.reuseSession.value;
    var active := Latest(store.rows, session, WORKING);
    assert active.Some? <==> HasWorking(store.rows, session);
    if active.Some? {
      var _ := store.Create(session, s.prompt, Pending, s.mode, Some(id), now);
      return true;
    }
    var task := store.Create(session, s.prompt, Running, s.mode, Some(id), now);
    if !e.sendOk {
      store.UpdateStatus(task, Error, Some(now));
      store.UpdateOutputPreview(task, Truncate("Error: " + e.error, 200));
      assert store.rows == Fired(old(store.rows), id, s, e, now).0;
      return false;
    }
    ok := true;
  }

  /** Tasks after firing the listed schedules in turn. */
  ghost function FiredAll(t: Table, rows: seq<Schedule>, ids: seq<nat>, env: nat -> FireEnv, now: int): Table
    requires forall k :: 0 <= k < |ids| ==> ids[k] < |rows|
  {
    if ids == [] then t
    else
      var n := |ids| - 1;
      Fired(FiredAll(t, rows, ids[..n], env, now), ids[n], rows[ids[n]], env(ids[n]), now).0
  }

  /** What one tick does to one schedule: nothing, or one firing that it was due for. */
  ghost predicate TickRow(before: Schedule, after: Schedule, now: int, fired: Option<int>, cron: CronNext) {
    match fired
    case None => after == before
    case Some(at) =>
      && Due(before, now) && now <= at
      && ComputeNextFire(before, cron, at).Next?
      && after == Recorded(before, at, ComputeNextFire(before, cron, at).at)
  }

  function FiredAt(fired: map<nat, int>, i: nat): Option<int> {
    if i in fired then Some(fired[i]) else None
  }

  ghost predicate TickRows(before: seq<Schedule>, after: seq<Schedule>, now: int, fired: map<nat, int>,
                           cron: CronNext) {
    && |after| == |before|
    && forall i: nat :: i < |before| ==> TickRow(before[i], after[i], now, FiredAt(fired, i), cron)
  }

  datatype Attempt = Success(at: int) | Failure | Abort

  /** One turn of the tick's loop: fire, and on success record the firing with the date that follows it. */
  method FireAndRecord(schedules: ScheduleStore, tasks: TaskStore, id: nat, s: Schedule, e: FireEnv, cron: CronNext,
                       now: int, at: int)
    returns (outcome: Attempt)
    requires id < |schedules.rows| && schedules.rows[id] == s && Due(s, now) && now <= at
    modifies schedules, tasks
    ensures tasks.rows == Fired(old(tasks.rows), id, s, e, now).0
    ensures outcome.Failure? <==> !Fired(old(tasks.rows), id, s, e, now).1
    ensures outcome.Success? ==> outcome.at == at
    ensures outcome.Abort? ==> ComputeNextFire(s, cron, at).Rejected?
    ensures |schedules.rows| == |old(schedules.rows)|
    ensures forall i :: 0 <= i < |schedules.rows| && i != id ==> schedules.rows[i] == old(schedules.rows)[i]
    ensures TickRow(s, schedules.rows[id], now, if outcome.Success? then Some(at) else None, cron)
  {
    var ok := FireSchedule(tasks, id, s, e, now);
    if !ok {
      return Failure;
    }
    var next := ComputeNextFire(s, cron, at);
    if next.Rejected? {
      return Abort;
    }
    schedules.RecordFiring(id, at, next.at, s.trigger == Once);
    outcome := Success(at);
  }

  lemma FiredAllStep(t: Table, rows: seq<Schedule>, ids: seq<nat>, k: nat, env: nat -> FireEnv, now: int)
    requires k < |ids| && forall a :: 0 <= a < |ids| ==> ids[a] < |rows|
    ensures FiredAll(t, rows, ids[..k + 1], env, now)
         == Fired(FiredAll(t, rows, ids[..k], env, now), ids[k], rows[ids[k]], env(ids[k]), now).0
  {
    assert ids[..k + 1][..k] == ids[..k];
  }

  /** Every claimed schedule so far has been attempted, with one of two outcomes. */
  ghost predicate Tallied(done: seq<nat>, fired: map<nat, int>, failed: set<nat>) {
    && failed !! fired.Keys
    && (forall i: nat :: i in failed || i in fired ==> i in done)
    && (forall k :: 0 <= k < |done| ==> done[k] in failed || done[k] in fired)
  }

  lemma TalliedStep(due: seq<nat>, k: nat, fired: map<nat, int>, failed: set<nat>)
    requires k < |due| && Distinct(due) && Tallied(due[..k], fired, failed)
    ensures FiredAt(fired, due[k]) == None
    ensures Tallied(due[..k + 1], fired, failed + {due[k]})
    ensures forall at {:trigger fired[due[k] := at]} :: Tallied(due[..k + 1], fired[due[k] := at], failed)
  {
    assert due[k] !in due[..k];
    assert due[..k + 1] == due[..k] + [due[k]];
  }

  lemma TickRowsStep(rows: seq<Schedule>, mid: seq<Schedule>, after: seq<Schedule>, now: int,
                     fired: map<nat, int>, id: nat, outcome: Option<int>, cron: CronNext)
    requires TickRows(rows, mid, now, fired, cron) && id < |rows| && FiredAt(fired, id) == None
    requires |after| == |rows| && forall i :: 0 <= i < |rows| && i != id ==> after[i] == mid[i]
    requires TickRow(rows[id], after[id], now, outcome, cron)
    ensures TickRows(rows, after, now, if outcome.Some? then fired[id := outcome.value] else fired, cron)
  {
  }

  /** What a tick starts from: tasks, schedules and clock at its beginning, the claimed ids, the environment. */
  datatype TickOf = TickOf(tasks: Table, rows: seq<Schedule>, now: int, due: seq<nat>, env: nat -> FireEnv,
                           cron: CronNext)

  /** Where a tick stands after its first n attempts: the tasks t and the schedules `after` they have led to. */
  ghost predicate Progress(tick: TickOf, n: nat, t: Table, after: seq<Schedule>, fired: map<nat, int>,
                           failed: set<nat>) {
    && n <= |tick.due| && AllDue(tick.rows, tick.due, tick.now) && Distinct(tick.due)
    && t == FiredAll(tick.tasks, tick.rows, tick.due[..n], tick.env, tick.now)
    && TickRows(tick.rows, after, tick.now, fired, tick.cron)
    && Tallied(tick.due[..n], fired, failed)
  }

  lemma NextIsUntouched(tick: TickOf, n: nat, t: Table, after: seq<Schedule>, fired: map<nat, int>, failed: set<nat>)
    requires Progress(tick, n, t, after, fired, failed) && n < |tick.due|
    ensures |after| == |tick.rows| && after[tick.due[n]] == tick.rows[tick.due[n]]
  {
    TalliedStep(tick.due, n, fired, failed);
  }

  lemma AttemptProgress(tick: TickOf, n: nat, t: Table, mid: seq<Schedule>, fired: map<nat, int>, failed: set<nat>,
                        u: Table, after: seq<Schedule>, outcome: Attempt)
    requires Progress(tick, n, t, mid, fired, failed) && n < |tick.due| && |after| == |mid|
    requires u == Fired(t, tick.due[n], tick.rows[tick.due[n]], tick.env(tick.due[n]), tick.now).0
    requires forall i :: 0 <= i < |after| && i != tick.due[n] ==> after[i] == mid[i]
    requires TickRow(tick.rows[tick.due[n]], after[tick.due[n]], tick.now,
                     if outcome.Success? then Some(outcome.at) else None, tick.cron)
    ensures match outcome
            case Failure => Progress(tick, n + 1, u, after, fired, failed + {tick.due[n]})
            case Success(at) => Progress(tick, n + 1, u, after, fired[tick.due[n] := at], failed)
            case Abort => u == FiredAll(tick.tasks, tick.rows, tick.due[..n + 1], tick.env, tick.now)
                          && TickRows(tick.rows, after, tick.now, fired, tick.cron)
  {
    TalliedStep(tick.due, n, fired, failed);
    FiredAllStep(tick.tasks, tick.rows, tick.due, n, tick.env, tick.now);
    TickRowsStep(tick.rows, mid, after, tick.now, fired, tick.due[n],
                 if outcome.Success? then Some(outcome.at) else None, tick.cron);
  }

  ghost predicate StillDue(before: seq<Schedule>, after: seq<Schedule>, failed: set<nat>, now: int) {
    |after| == |before| && forall id :: id in failed ==>
      id < |before| && after[id] == before[id] && forall later :: now <= later ==> Due(after[id], later)
  }

  /** Whatever failed in a tick is stored as it was and stays due, so every later tick finds it again. */
  lemma FailedStaysDue(tick: TickOf, n: nat, t: Table, after: seq<Schedule>, fired: map<nat, int>, failed: set<nat>)
    requires Progress(tick, n, t, after, fired, failed)
    ensures StillDue(tick.rows, after, failed, tick.now)
  {
    forall id | id in failed ensures id < |tick.rows| && after[id] == tick.rows[id] && Due(after[id], tick.now) {
      assert id in tick.due[..n];
      assert FiredAt(fired, id) == None;
    }
  }

  /**
   One scheduler tick. `clock(k)` is the reading taken after the k-th firing. Each claimed schedule
   is attempted in turn; a failed attempt leaves its row as it was. The tick breaks off, with one
   schedule fired but not recorded, only when a stored trigger is rejected.
   */
  method FireOnce(schedules: ScheduleStore, tasks: TaskStore, env: nat -> FireEnv, cron: CronNext, now: int,
                  clock: nat -> int)
    returns (due: seq<nat>, attempted: nat, fired: map<nat, int>, failed: set<nat>, aborted: bool)
    requires forall k: nat :: now <= clock(k)
    modifies schedules, tasks
    ensures Claimed(old(schedules.rows), due, now, 50)
    ensures attempted <= |due| && tasks.rows
        == FiredAll(old(tasks.rows), old(schedules.rows), due[..attempted], env, now)
    ensures TickRows(old(schedules.rows), schedules.rows, now, fired, cron)
    ensures !aborted ==> attempted == |due| && Tallied(due, fired, failed)
    ensures aborted ==> 0 < attempted && Tallied(due[..attempted - 1], fired, failed)
                        && !WellFormed(old(schedules.rows)[due[attempted - 1]], cron)
    ensures StillDue(old(schedules.rows), schedules.rows, failed, now)
  {
    var snapshot := schedules.rows;
    due := schedules.ClaimDue(now, 50);
    ghost var tick := TickOf(tasks.rows, snapshot, now, due, env, cron);
    fired, failed, aborted := map[], {}, false;
    attempted := 0;
    while attempted < |due|
      invariant Progress(tick, attempted, tasks.rows, schedules.rows, fired, failed)
    {
      var id := due[attempted];
      ghost var t, mid := tasks.rows, schedules.rows;
      NextIsUntouched(tick, attempted, t, mid, fired, failed);
      FailedStaysDue(tick, attempted, t, mid, fired, failed);
      var outcome := FireAndRecord(schedules, tasks, id, snapshot[id], env(id), cron, now, clock(attempted));
      AttemptProgress(tick, attempted, t, mid, fired, failed, tasks.rows, schedules.rows, outcome);
      attempted := attempted + 1;
      match outcome {
        case Failure => failed := failed + {id};
        case Success(at) => fired := fired[id := at];
        case Abort =>
          aborted := true;
          return;
      }
    }
    assert due[..|due|] == due;
    FailedStaysDue(tick, attempted, tasks.rows, schedules.rows, fired, failed);
  }

  // ---- well-formedness over every store operation ----

  lemma ValidityIgnoresTheClock(s: Schedule, cron: CronNext, a: int, b: int)
    requires CronOk(cron) && ComputeNextFire(s, cron, a).Next?
    ensures ComputeNextFire(s, cron, b).Next?
  {
    if s.trigger == Cron {
      assert cron(s.cronExpr.value, s.timezone, a).Some?;
    }
  }

  lemma AcceptedIsWellFormed(s: Schedule, m: Schedule, cron: CronNext, now: int)
    requires CronOk(cron) && ComputeNextFire(m, cron, now).Next?
    requires s == m.(enabled := s.enabled, lastFired := s.lastFired, nextFire := ComputeNextFire(m, cron, now).at)
    ensures WellFormed(s, cron)
  {
    forall from ensures ComputeNextFire(s, cron, from).Next? {
      ValidityIgnoresTheClock(m, cron, now, from);
      assert ComputeNextFire(s, cron, from) == ComputeNextFire(m, cron, from);
    }
  }

  /** Whatever columns a patch touches, the row stays one the scheduler can advance. */
  lemma UpdateKeepsWellFormed(s: Schedule, p: Patch, cron: CronNext, now: int)
    requires CronOk(cron) && WellFormed(s, cron) && Updated(s, p, cron, now).Some?
    ensures WellFormed(Updated(s, p, cron, now).value, cron)
  {
    var m := Merged(s, p);
    var u := Updated(s, p, cron, now).value;
    if ChangesTrigger(p) {
      AcceptedIsWellFormed(u, m, cron, now);
    } else {
      forall from ensures ComputeNextFire(u, cron, from).Next? {
        assert ComputeNextFire(u, cron, from) == ComputeNextFire(s, cron, from);
      }
    }
  }

  lemma TickKeepsWellFormed(before: Schedule, after: Schedule, now: int, fired: Option<int>, cron: CronNext)
    requires WellFormed(before, cron) && TickRow(before, after, now, fired, cron)
    ensures WellFormed(after, cron)
  {
    forall from ensures ComputeNextFire(after, cron, from).Next? {
      assert ComputeNextFire(after, cron, from) == ComputeNextFire(before, cron, from);
    }
  }

  // ---- every stored schedule is well-formed ----

  /** A row stored by `Create` is well-formed: the invariant has its start. */
  lemma CreatedIsWellFormed(s: Schedule, cron: CronNext, now: int)
    requires CronOk(cron) && ComputeNextFire(s, cron, now).Next?
    ensures WellFormed(Created(s, ComputeNextFire(s, cron, now).at), cron)
  {
    AcceptedIsWellFormed(Created(s, ComputeNextFire(s, cron, now).at), s, cron, now);
  }

  /** The store's operations: one schedule created, one patched, or one tick. */
  datatype StoreOp = Creates(s: Schedule) | Patches(id: nat, p: Patch) | Ticks(fired: map<nat, int>)

  ghost predicate StoreStep(before: seq<Schedule>, after: seq<Schedule>, op: StoreOp, now: int, cron: CronNext) {
    match op
    case Creates(s) =>
      (match ComputeNextFire(s, cron, now)
       case Rejected => after == before
       case Next(at) => after == before + [Created(s, at)])
    case Patches(id, p) =>
      if id < |before| && Updated(before[id], p, cron, now).Some?
      then after == before[id := Updated(before[id], p, cron, now).value] else after == before
    case Ticks(fired) => TickRows(before, after, now, fired, cron)
  }

  ghost predicate AllWellFormed(rows: seq<Schedule>, cron: CronNext) {
    forall i :: 0 <= i < |rows| ==> WellFormed(rows[i], cron)
  }

  lemma StoreKeepsWellFormed(before: seq<Schedule>, after: seq<Schedule>, op: StoreOp, now: int, cron: CronNext)
    requires CronOk(cron) && StoreStep(before, after, op, now, cron) && AllWellFormed(before, cron)
    ensures AllWellFormed(after, cron)
  {
    match op
    case Creates(s) =>
      if ComputeNextFire(s, cron, now).Next? { CreatedIsWellFormed(s, cron, now); }
    case Patches(id, p) =>
      if id < |before| && Updated(before[id], p, cron, now).Some? { UpdateKeepsWellFormed(before[id], p, cron, now); }
    case Ticks(fired) =>
      forall i | 0 <= i < |after| ensures WellFormed(after[i], cron) {
        TickKeepsWellFormed(before[i], after[i], now, FiredAt(fired, i), cron);
      }
  }

  /** A history of the schedule table from its creation. */
  ghost predicate StoreRun(tables: seq<seq<Schedule>>, ops: seq<(StoreOp, int)>, cron: CronNext) {
    && |tables| == |ops| + 1 && tables[0] == []
    && forall k :: 0 <= k < |ops| ==> StoreStep(tables[k], tables[k + 1], ops[k].0, ops[k].1, cron)
  }

  /**
   In every reachable schedule table each row can be advanced, and a one-shot row waits for its own date
   or for nothing.
   */
  lemma {:induction false} StoredIsWellFormed(tables: seq<seq<Schedule>>, ops: seq<(StoreOp, int)>, cron: CronNext,
                                              k: nat)
    requires CronOk(cron) && StoreRun(tables, ops, cron) && k < |tables|
    ensures AllWellFormed(tables[k], cron)
  {
    if k > 0 {
      StoredIsWellFormed(tables, ops, cron, k - 1);
      StoreKeepsWellFormed(tables[k - 1], tables[k], ops[k - 1].0, ops[k - 1].1, cron);
    }
  }

  // ---- runs of ticks over one schedule ----

  datatype Tick = Tick(now: int, fired: Option<int>)

  /** Successive ticks that do not overlap, under a clock that does not run backwards, with no edits between. */
  ghost predicate TickRun(rows: seq<Schedule>, ticks: seq<Tick>, cron: CronNext) {
    && |rows| == |ticks| + 1
    && (forall k :: 0 <= k < |ticks| ==> TickRow(rows[k], rows[k + 1], ticks[k].now, ticks[k].fired, cron))
    && (forall j, k :: 0 <= j < k < |ticks| ==> ticks[j].now <= ticks[k].now)
    && (forall j, k :: 0 <= j < k < |ticks| && ticks[j].fired.Some? ==> ticks[j].fired.value <= ticks[k].now)
  }

  lemma {:induction false} TriggerNeverChanges(rows: seq<Schedule>, ticks: seq<Tick>, cron: CronNext, k: nat)
    requires TickRun(rows, ticks, cron) && k < |rows|
    ensures rows[k].trigger == rows[0].trigger && rows[k].intervalSeconds == rows[0].intervalSeconds
        && rows[k].runAt == rows[0].runAt
  {
    if k > 0 {
      TriggerNeverChanges(rows, ticks, cron, k - 1);
      assert TickRow(rows[k - 1], rows[k], ticks[k - 1].now, ticks[k - 1].fired, cron);
    }
  }

  lemma {:induction false} WaitsAfterFiring(rows: seq<Schedule>, ticks: seq<Tick>, cron: CronNext, j: nat, k: nat)
    requires TickRun(rows, ticks, cron) && j < k < |rows|
    requires rows[0].trigger == Interval && ticks[j].fired.Some?
    ensures rows[0].intervalSeconds.Some? && rows[0].intervalSeconds.value >= 1
    ensures rows[k].nextFire.Some?
        && rows[k].nextFire.value >= ticks[j].fired.value + rows[0].intervalSeconds.value * 1000
    decreases k
  {
    TriggerNeverChanges(rows, ticks, cron, k - 1);
    assert TickRow(rows[k - 1], rows[k], ticks[k - 1].now, ticks[k - 1].fired, cron);
    if j < k - 1 {
      WaitsAfterFiring(rows, ticks, cron, j, k - 1);
    }
  }

  /** Successful firings of an interval schedule are at least its interval apart. */
  lemma IntervalSpacing(rows: seq<Schedule>, ticks: seq<Tick>, cron: CronNext, j: nat, k: nat)
    requires TickRun(rows, ticks, cron) && j < k < |ticks|
    requires rows[0].trigger == Interval && ticks[j].fired.Some? && ticks[k].fired.Some?
    ensures rows[0].intervalSeconds.Some?
    ensures ticks[k].fired.value - ticks[j].fired.value >= rows[0].intervalSeconds.value * 1000
  {
    WaitsAfterFiring(rows, ticks, cron, j, k);
    assert TickRow(rows[k], rows[k + 1], ticks[k].now, ticks[k].fired, cron);
  }

  /** Number of the first n ticks that fired at a time in [lo, hi]. */
  function FiringsWithin(ticks: seq<Tick>, n: nat, lo: int, hi: int): nat
    requires n <= |ticks|
  {
    if n == 0 then 0
    else
      var fired := ticks[n - 1].fired;
      FiringsWithin(ticks, n - 1, lo, hi) + if fired.Some? && lo <= fired.value <= hi then 1 else 0
  }

  lemma {:induction false} NarrowWindow(ticks: seq<Tick>, n: nat, lo: int, hi: int, cut: int)
    requires n <= |ticks| && cut <= hi
    requires forall k :: 0 <= k < n && ticks[k].fired.Some? ==> ticks[k].fired.value <= cut
    ensures FiringsWithin(ticks, n, lo, hi) == FiringsWithin(ticks, n, lo, cut)
  {
    if n > 0 {
      NarrowWindow(ticks, n - 1, lo, hi, cut);
    }
  }

  /** Firings `period` apart or more: c of them in a window span at least c - 1 periods. */
  lemma {:induction false} FiringsFit(ticks: seq<Tick>, n: nat, lo: int, hi: int, period: int)
    requires n <= |ticks| && period > 0
    requires forall j, k :: 0 <= j < k < |ticks| && ticks[j].fired.Some? && ticks[k].fired.Some?
               ==> ticks[k].fired.value - ticks[j].fired.value >= period
    ensures FiringsWithin(ticks, n, lo, hi) > 0 ==> (FiringsWithin(ticks, n, lo, hi) - 1) * period <= hi - lo
    decreases n
  {
    if n > 0 {
      var last := ticks[n - 1];
      if last.fired.Some? && lo <= last.fired.value <= hi {
        var cut := last.fired.value - period;
        NarrowWindow(ticks, n - 1, lo, hi, cut);
        FiringsFit(ticks, n - 1, lo, cut, period);
        var c := FiringsWithin(ticks, n - 1, lo, cut);
        assert FiringsWithin(ticks, n, lo, hi) == c + 1;
        OneMorePeriod(c, period);
      } else {
        FiringsFit(ticks, n - 1, lo, hi, period);
      }
    }
  }

  lemma OneMorePeriod(c: int, period: int)
    ensures (c + 1 - 1) * period == (c - 1) * period + period
  {
  }

  lemma Scales(x: int, y: int, p: int)
    requires x >= y && p > 0
    ensures x * p >= y * p
  {
    assert x * p - y * p == (x - y) * p;
  }

  lemma TooManyDoNotFit(c: int, period: int, length: int)
    requires period > 0 && length >= 0 && c > length / period + 1
    ensures (c - 1) * period > length
  {
    var q := length / period;
    assert length == q * period + length % period;
    assert (q + 1) * period == q * period + period;
    Scales(c - 1, q + 1, period);
  }

  /** A window of `length` milliseconds holds at most floor(length / period) + 1 firings. */
  lemma WindowBound(rows: seq<Schedule>, ticks: seq<Tick>, cron: CronNext, from: int, length: nat, period: int)
    requires TickRun(rows, ticks, cron)
    requires rows[0].trigger == Interval && rows[0].intervalSeconds.Some?
        && period == rows[0].intervalSeconds.value * 1000 > 0
    ensures FiringsWithin(ticks, |ticks|, from, from + length) <= length / period + 1
  {
    forall j, k | 0 <= j < k < |ticks| && ticks[j].fired.Some? && ticks[k].fired.Some?
      ensures ticks[k].fired.value - ticks[j].fired.value >= period
    {
      IntervalSpacing(rows, ticks, cron, j, k);
    }
    FiringsFit(ticks, |ticks|, from, from + length, period);
    var c := FiringsWithin(ticks, |ticks|, from, from + length);
    if c > length / period + 1 {
      TooManyDoNotFit(c, period, length);
    }
  }

  lemma {:induction false} OnceStaysDone(rows: seq<Schedule>, ticks: seq<Tick>, cron: CronNext, j: nat, k: nat)
    requires TickRun(rows, ticks, cron) && j < k < |rows|
    requires rows[0].trigger == Once && WellFormed(rows[j], cron) && ticks[j].fired.Some?
    ensures rows[k].nextFire.None? && !rows[k].enabled
    decreases k
  {
    assert TickRow(rows[k - 1], rows[k], ticks[k - 1].now, ticks[k - 1].fired, cron);
    TriggerNeverChanges(rows, ticks, cron, k - 1);
    if j < k - 1 {
      OnceStaysDone(rows, ticks, cron, j, k - 1);
    }
  }

  lemma {:induction false} WellFormedThroughout(rows: seq<Schedule>, ticks: seq<Tick>, cron: CronNext, k: nat)
    requires TickRun(rows, ticks, cron) && k < |rows| && WellFormed(rows[0], cron)
    ensures WellFormed(rows[k], cron)
  {
    if k > 0 {
      WellFormedThroughout(rows, ticks, cron, k - 1);
      TickKeepsWellFormed(rows[k - 1], rows[k], ticks[k - 1].now, ticks[k - 1].fired, cron);
    }
  }

  /** A one-shot schedule fires successfully at most once and is disabled from then on. */
  lemma OnceFiresOnce(rows: seq<Schedule>, ticks: seq<Tick>, cron: CronNext, j: nat, k: nat)
    requires TickRun(rows, ticks, cron) && j < |ticks| && k < |ticks|
    requires rows[0].trigger == Once && WellFormed(rows[0], cron)
    requires ticks[j].fired.Some? && ticks[k].fired.Some?
    ensures j == k && !rows[|ticks|].enabled
  {
    WellFormedThroughout(rows, ticks, cron, j);
    WellFormedThroughout(rows, ticks, cron, k);
    assert TickRow(rows[j], rows[j + 1], ticks[j].now, ticks[j].fired, cron);
    assert TickRow(rows[k], rows[k + 1], ticks[k].now, ticks[k].fired, cron);
    if j < k {
      OnceStaysDone(rows, ticks, cron, j, k);
    } else if k < j {
      OnceStaysDone(rows, ticks, cron, k, j);
    } else {
      OnceStaysDone(rows, ticks, cron, j, |ticks|);
    }
  }
}
