/** When schedules fire and what a firing leaves behind, stated from the columns and flags alone. */
module FiringDates {
  import opened Prelude
  import opened TaskRows
  import opened TaskStores
  import opened Schedules

  // ---- dates ----

  /** A trigger is rejected exactly when the column it needs is missing or unusable. */
  lemma RejectedIff(s: Schedule, cron: CronNext, from: int)
    ensures ComputeNextFire(s, cron, from).Rejected? <==>
              match s.trigger
              case Once => s.runAt.None?
              case Interval => s.intervalSeconds.None? || s.intervalSeconds.value <= 0
              case Cron => s.cronExpr.None? || s.cronExpr == Some("") || cron(s.cronExpr.value, s.timezone, from).None?
  {
  }

  /** After a firing an enabled interval schedule is due exactly when its whole interval has passed. */
  lemma IntervalDueIff(s: Schedule, cron: CronNext, at: int, now: int)
    requires s.trigger == Interval && s.enabled && ComputeNextFire(s, cron, at).Next?
    ensures Due(Recorded(s, at, ComputeNextFire(s, cron, at).at), now) <==> at + 1000 * s.intervalSeconds.value <= now
  {
  }

  /** A cron schedule is due again exactly from the date its own expression gives in its own time zone. */
  lemma CronDueIff(s: Schedule, cron: CronNext, at: int, now: int)
    requires s.trigger == Cron && s.enabled && ComputeNextFire(s, cron, at).Next?
    ensures var next := cron(s.cronExpr.value, s.timezone, at);
            next.Some? && (Due(Recorded(s, at, ComputeNextFire(s, cron, at).at), now) <==> next.value <= now)
  {
  }

  /** A one-shot schedule is created due from its run date on, if that is still to come, and else never. */
  lemma OnceDueIff(s: Schedule, cron: CronNext, created: int, now: int)
    requires s.trigger == Once && s.runAt.Some?
    ensures ComputeNextFire(s, cron, created).Next?
    ensures Due(Created(s, ComputeNextFire(s, cron, created).at), now) <==> created < s.runAt.value <= now
  {
  }

  /** The first firing of an interval schedule comes one interval after its creation. */
  lemma FirstIntervalIff(s: Schedule, cron: CronNext, created: int, now: int)
    requires s.trigger == Interval && ComputeNextFire(s, cron, created).Next?
    ensures Due(Created(s, ComputeNextFire(s, cron, created).at), now)
        <==> created + 1000 * s.intervalSeconds.value <= now
  {
  }

  /** A new schedule is switched on, has never fired, and keeps every column it was given. */
  lemma CreatedOutcome(s: Schedule, next: Option<int>)
    ensures var u := Created(s, next);
            && u.enabled && u.lastFired.None? && u.nextFire == next
            && u == s.(enabled := true, lastFired := u.lastFired, nextFire := u.nextFire)
  {
  }

  /** A firing is recorded with its time, and only a one-shot schedule without a further date is switched off. */
  lemma RecordedOutcome(s: Schedule, at: int, next: Option<int>)
    ensures var u := Recorded(s, at, next);
            && u.lastFired == Some(at) && u.nextFire == next
            && u.enabled == (s.enabled && !(s.trigger == Once && next.None?))
            && u == s.(lastFired := u.lastFired, nextFire := u.nextFire, enabled := u.enabled)
  {
  }

  /** Between successes nothing moves: an interval schedule keeps the date one interval after its last success. */
  lemma {:induction false} WaitsExactly(rows: seq<Schedule>, ticks: seq<Tick>, cron: CronNext, j: nat, k: nat)
    requires TickRun(rows, ticks, cron) && j < k < |rows|
    requires rows[0].trigger == Interval && ticks[j].fired.Some?
    requires forall m :: j < m < k ==> ticks[m].fired.None?
    ensures rows[0].intervalSeconds.Some? && rows[k].enabled
    ensures rows[k].nextFire == Some(ticks[j].fired.value + 1000 * rows[0].intervalSeconds.value)
    decreases k
  {
    TriggerNeverChanges(rows, ticks, cron, k - 1);
    assert TickRow(rows[k - 1], rows[k], ticks[k - 1].now, ticks[k - 1].fired, cron);
    if j < k - 1 {
      WaitsExactly(rows, ticks, cron, j, k - 1);
    }
  }

  /** Over every run of ticks: after a success an interval schedule is due again exactly one interval later. */
  lemma DueAgainIff(rows: seq<Schedule>, ticks: seq<Tick>, cron: CronNext, j: nat, k: nat, now: int)
    requires TickRun(rows, ticks, cron) && j < k < |rows|
    requires rows[0].trigger == Interval && ticks[j].fired.Some?
    requires forall m :: j < m < k ==> ticks[m].fired.None?
    ensures rows[0].intervalSeconds.Some?
    ensures Due(rows[k], now) <==> ticks[j].fired.value + 1000 * rows[0].intervalSeconds.value <= now
  {
    WaitsExactly(rows, ticks, cron, j, k);
  }

  // ---- updates ----

  /** A patched column takes the patch's value, any other keeps its own; the rest of the row is the store's. */
  lemma PatchOutcome(s: Schedule, p: Patch, cron: CronNext, now: int)
    requires Updated(s, p, cron, now).Some?
    ensures var u := Updated(s, p, cron, now).value;
            && u.prompt == (match p.prompt case Some(v) => v case None => s.prompt)
            && u.trigger == (match p.trigger case Some(v) => v case None => s.trigger)
            && u.runAt == (match p.runAt case Some(v) => v case None => s.runAt)
            && u.intervalSeconds == (match p.intervalSeconds case Some(v) => v case None => s.intervalSeconds)
            && u.cronExpr == (match p.cronExpr case Some(v) => v case None => s.cronExpr)
            && u.timezone == (match p.timezone case Some(v) => v case None => s.timezone)
            && u.sessionMode == (match p.sessionMode case Some(v) => v case None => s.sessionMode)
            && u.reuseSession == (match p.reuseSession case Some(v) => v case None => s.reuseSession)
            && u.mode == (match p.mode case Some(v) => v case None => s.mode)
            && u.enabled == (match p.enabled case Some(v) => v case None => s.enabled)
            && u.lastFired == s.lastFired
  {
  }

  /** Touching a trigger column dates the schedule anew from the moment of the update; touching none keeps its date. */
  lemma RedatedIff(s: Schedule, p: Patch, cron: CronNext, now: int)
    ensures var redated := p.trigger.Some? || p.runAt.Some? || p.intervalSeconds.Some? || p.cronExpr.Some?
        || p.timezone.Some?;
            match Updated(s, p, cron, now)
            case None => redated && ComputeNextFire(Merged(s, p), cron, now).Rejected?
            case Some(u) =>
              if redated then ComputeNextFire(u, cron, now) == Next(u.nextFire) else u.nextFire == s.nextFire
  {
    if ChangesTrigger(p) && Updated(s, p, cron, now).Some? {
      var m := Merged(s, p);
      assert ComputeNextFire(m.(nextFire := ComputeNextFire(m, cron, now).at), cron, now)
          == ComputeNextFire(m, cron, now);
    }
  }

  // ---- firings ----

  /** A running, busy or waiting task of the session. */
  predicate AtWork(t: Table, session: nat) {
    exists i :: 0 <= i < |t| && t[i].session == session
                && (t[i].status == Running || t[i].status == Busy || t[i].status == WaitingInput)
  }

  lemma AtWorkIff(t: Table, session: nat)
    ensures HasWorking(t, session) <==> AtWork(t, session)
  {
    if i :| 0 <= i < |t| && t[i].session == session
            && (t[i].status == Running || t[i].status == Busy || t[i].status == WaitingInput) {
      assert InSession(t[i], session, WORKING);
    }
    if i :| 0 <= i < |t| && InSession(t[i], session, WORKING) {
      assert t[i].session == session;
    }
  }

  /** The session to be reused, when there is one. */
  predicate Reusable(s: Schedule, e: FireEnv) {
    s.reuseSession.Some? && s.reuseSession.value != 0 && e.sessionFound
  }

  /** Whether a firing adds a task, in which session, with which status, and whether it counts as a success. */
  lemma FiringOutcome(t: Table, id: nat, s: Schedule, e: FireEnv, now: int)
    ensures var (u, ok) := Fired(t, id, s, e, now);
            var opens, reused := s.sessionMode == NewSession, s.sessionMode == ReuseSession;
            var added := e.agentFound && ((opens && e.createOk) || (reused && Reusable(s, e)));
            var session := if opens then e.newSession else match s.reuseSession case Some(v) => v case None => 0;
            && (!added ==> u == t && !ok)
            && (added ==>
                  && |u| == |t| + 1 && u[..|t|] == t
                  && var r := u[|t|];
                     && r.session == session && r.prompt == s.prompt && r.mode == s.mode && r.fromSchedule == Some(id)
                     && r.createdAt == now && r.output.None? && r.decision.None? && r.seqStart.None?
                     && (r.status == Pending <==> reused && AtWork(t, session))
                     && (r.status == Error <==> reused && !AtWork(t, session) && !e.sendOk)
                     && (r.status != Pending && r.status != Error ==> r.status == Running)
                     && r.startedAt == (if r.status == Pending then None else Some(now))
                     && r.endedAt == (if r.status == Error then Some(now) else None)
                     && r.preview == (if r.status == Error then Some(Truncate("Error: " + e.error, 200)) else None)
                     && ok == (r.status != Error))
  {
    if s.sessionMode == ReuseSession && s.reuseSession.Some? {
      AtWorkIff(t, s.reuseSession.value);
    }
  }
}
