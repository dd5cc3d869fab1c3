/** What the transition table implies over runs made of gateway events only. */
module EventPaths {
  import opened Prelude
  import opened TaskRows
  import opened EventHandler

  datatype Delivered = Delivered(session: nat, ev: Event, d: Delivery, now: int)

  /** ts[0], ts[1], ... are the tables before, between and after the events. */
  ghost predicate EventRun(ts: seq<Table>, steps: seq<Delivered>) {
    && |ts| == |steps| + 1
    && forall k :: 0 <= k < |steps| ==>
         ts[k + 1] == EventApplied(ts[k], steps[k].session, steps[k].ev, steps[k].d, steps[k].now)
  }

  /** The three ways one event can leave a row. */
  lemma EventRowCases(t: Table, session: nat, ev: Event, d: Delivery, now: int, i: nat)
    requires i < |t|
    ensures var u := EventApplied(t, session, ev, d, now);
            && |u| == |t|
            && (|| u[i] == t[i]
                || (Latest(t, session, ANY) == Some(i) && u[i] == AfterEvent(ev, t[i], now))
                || (t[i].status == Pending && t[i].session == session && u[i] == PromotedRow(t[i], d, now)))
  {
    var latest := Latest(t, session, ANY);
    if latest.Some? {
      var w := SetRow(t, latest.value, AfterEvent(ev, t[latest.value], now));
      if Advances(ev, t[latest.value]) {
        assert w[latest.value].status != Pending;
        var p := LowestPending(w, session);
        assert p.Some? ==> w[p.value] == t[p.value];
      }
    }
  }

  /**
   The comments in the handler promise that `session.started` and `message.user` bring both an
   errored and an interrupted task back; the store's guard lets only the errored one through.
   */
  lemma RecoveryReachesOnlyErrored(ev: Event, r: Task, now: int)
    requires ev.SessionStarted? || ev.UserMessage?
    requires r.status in {Error, Interrupted}
    ensures AfterEvent(ev, r, now).status == Running <==> r.status == Error
  {
    assert r.status == Interrupted ==> Transition(ev, r) == None;
  }

  /** The partial text of an interrupted session never reaches the preview: the row is frozen first. */
  lemma PartialContentIsDropped(r: Task, partial: string, now: int)
    ensures AfterEvent(SessionInterrupted(partial), r, now) == r.(status := Interrupted, endedAt := Some(now))
  {
    assert NextPreview(SessionInterrupted(partial), r) == r.preview;
  }

  const STOPPED: set<Status> := {Interrupted, Cancelled}
  const WAYPOINTS: set<Status> := {Completed, Error, PendingApproval}

  lemma StoppedStep(t: Table, session: nat, ev: Event, d: Delivery, now: int, id: nat)
    requires id < |t| && t[id].status in STOPPED
    ensures var u := EventApplied(t, session, ev, d, now);
            |u| == |t| && u[id].status in STOPPED + WAYPOINTS
  {
    EventRowCases(t, session, ev, d, now, id);
    var next := Transition(ev, t[id]);
    assert next.Some? ==> next.value in {Interrupted, Completed, Error, PendingApproval};
  }

  /**
   In any event-only run, a task seen interrupted or cancelled and later running or waiting for
   input was completed, in error or awaiting approval at some moment strictly between.
   */
  lemma {:induction false} RevivalPassesAWaypoint(ts: seq<Table>, steps: seq<Delivered>, i: nat, j: nat, id: nat)
    requires EventRun(ts, steps)
    requires i < j < |ts|
    requires id < |ts[i]| && ts[i][id].status in STOPPED
    requires id < |ts[j]| && ts[j][id].status in {Running, WaitingInput}
    ensures exists k :: i < k < j && id < |ts[k]| && ts[k][id].status in WAYPOINTS
    decreases j - i
  {
    var s := steps[i];
    StoppedStep(ts[i], s.session, s.ev, s.d, s.now, id);
    if ts[i + 1][id].status in STOPPED {
      RevivalPassesAWaypoint(ts, steps, i + 1, j, id);
    } else {
      assert ts[i + 1][id].status in WAYPOINTS;
    }
  }

  /** The newest task of a session stays the newest while no row changes its session. */
  lemma StaysNewest(t: Table, u: Table, session: nat, id: nat)
    requires Latest(t, session, ANY) == Some(id) && |u| == |t|
    requires forall i :: 0 <= i < |t| ==> u[i].session == t[i].session
    ensures Latest(u, session, ANY) == Some(id)
  {
    AnyIsEvery(u[id].status);
    assert InSession(u[id], session, ANY);
    forall j | id < j < |t| ensures !InSession(u[j], session, ANY) {
      AnyIsEvery(t[j].status);
      assert !InSession(t[j], session, ANY);
    }
  }

  lemma SessionsStay(t: Table, session: nat, ev: Event, d: Delivery, now: int)
    ensures var u := EventApplied(t, session, ev, d, now);
            |u| == |t| && forall i :: 0 <= i < |t| ==> u[i].session == t[i].session
  {
    forall i | 0 <= i < |t|
      ensures var u := EventApplied(t, session, ev, d, now); |u| == |t| && u[i].session == t[i].session
    {
      EventRowCases(t, session, ev, d, now, i);
    }
  }

  /** The newest row after an event is the table's successor; the promotion that may follow is of another row. */
  lemma NewestRow(t: Table, session: nat, ev: Event, d: Delivery, now: int, id: nat)
    requires Latest(t, session, ANY) == Some(id)
    ensures |EventApplied(t, session, ev, d, now)| == |t|
    ensures EventApplied(t, session, ev, d, now)[id] == AfterEvent(ev, t[id], now)
  {
    var w := SetRow(t, id, AfterEvent(ev, t[id], now));
    if Advances(ev, t[id]) {
      assert w[id].status != Pending;
      assert LowestPending(w, session) != Some(id);
    }
  }

  /** Cancelled is not final: two events bring any cancelled automatic newest task back to running. */
  lemma CancelledCanRevive(t: Table, session: nat, d: Delivery, now: int, id: nat)
    requires Latest(t, session, ANY) == Some(id) && t[id].status == Cancelled && t[id].mode == Auto
    ensures var u := EventApplied(t, session, SessionCompleted, d, now);
            var v := EventApplied(u, session, StateChanged(GRunning), d, now);
            |v| == |t| && v[id].status == Running
  {
    var u := EventApplied(t, session, SessionCompleted, d, now);
    SessionsStay(t, session, SessionCompleted, d, now);
    StaysNewest(t, u, session, id);
    NewestRow(t, session, SessionCompleted, d, now, id);
    NewestRow(u, session, StateChanged(GRunning), d, now, id);
  }
}
