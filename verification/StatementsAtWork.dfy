/**
 At most one task at work per session, at the grain of single statements. What decides is no longer
 what an operation saw when it read the table but the table its statement meets: for every statement
 the exact condition is stated, and two overlapping submissions are shown to meet it.
 */
module StatementsAtWork {
  import opened Prelude
  import opened TaskRows
  import opened EventHandler
  import opened Reconciler
  import opened OneAtWork
  import opened Interleaving

  /** The statement sets a row that is not at work running, busy or waiting for input. */
  predicate SetsRowToWork(r: Task, st: RowStatement, now: int) {
    match st
    case Blind(status, _) => status in {Running, WaitingInput}
    case LateSync(seen, g) => Sync(seen, g, now).Some? && Sync(seen, g, now).value.status in WORKING
    case DecideRow(decision) => r.status == PendingApproval && decision == OverriddenByHuman
    case ReopenRow => r.status in TERMINAL
    case _ => false
  }

  /** The statement puts a task to work in a session where another one is. */
  predicate DoublesNow(t: Table, st: Statement, now: int) {
    match st
    case Insert(session, _, status, _, _) => status == Running && HasWorking(t, session)
    case TakePending(session) => LowestPending(t, session).Some? && HasWorking(t, session)
    case OnRow(id, rs) => id < |t| && SetsRowToWork(t[id], rs, now) && WorksBeside(t, id)
  }

  lemma RowSetToWorkIff(r: Task, st: RowStatement, now: int)
    requires IssuedTo(r.mode, st, now) && r.status !in WORKING
    ensures RowAfter(r, st, now).status in WORKING <==> SetsRowToWork(r, st, now)
  {
  }

  lemma RowStatementIff(t: Table, id: nat, st: RowStatement, now: int)
    requires SingleActive(t) && id < |t| && IssuedTo(t[id].mode, st, now)
    ensures SingleActive(SetRow(t, id, RowAfter(t[id], st, now)))
        <==> !(SetsRowToWork(t[id], st, now) && WorksBeside(t, id))
  {
    var r := RowAfter(t[id], st, now);
    RowStatementLaws(t[id], st, now);
    OneRowChanged(t, id, r);
    if WorksBeside(t, id) {
      NotAtWork(t, id);
      RowSetToWorkIff(t[id], st, now);
    }
  }

  lemma TakingIff(t: Table, session: nat, now: int)
    requires SingleActive(t)
    ensures SingleActive(Exec(t, TakePending(session), now)) <==> !DoublesNow(t, TakePending(session), now)
  {
    var p := LowestPending(t, session);
    if p.Some? {
      OneRowChanged(t, p.value, t[p.value].(status := Running, startedAt := Some(now)));
      assert HasWorking(t, session) <==> WorksBeside(t, p.value);
    }
  }

  /** For every statement, the exact condition under which it keeps the property, however stale its decision. */
  lemma StatementKeepsSingleIff(t: Table, st: Statement, now: int)
    requires SingleActive(t) && Issued(t, st, now)
    ensures SingleActive(Exec(t, st, now)) <==> !DoublesNow(t, st, now)
  {
    match st
    case Insert(session, prompt, status, mode, schedule) =>
      OneRowAdded(t, NewRow(session, prompt, status, mode, schedule, now));
    case TakePending(session) => TakingIff(t, session, now);
    case OnRow(id, rs) => RowStatementIff(t, id, rs, now);
  }

  /** Along every interleaving the property holds up to the first doubling statement, and fails right after it. */
  lemma {:induction false} SingleUntilFirstDoubling(ts: seq<Table>, ms: seq<Moment>, k: nat)
    requires StatementRun(ts, ms) && k < |ts|
    requires forall m :: 0 <= m < k ==> !DoublesNow(ts[m], ms[m].st, ms[m].now)
    ensures SingleActive(ts[k])
    ensures k < |ms| ==> (SingleActive(ts[k + 1]) <==> !DoublesNow(ts[k], ms[k].st, ms[k].now))
  {
    if k > 0 {
      SingleUntilFirstDoubling(ts, ms, k - 1);
    }
    if k < |ms| {
      StatementKeepsSingleIff(ts[k], ms[k].st, ms[k].now);
    }
  }

  /** It is reached: two submissions that both found the session idle both start their task. */
  lemma SubmissionsOverlap(session: nat, now: int) returns (ts: seq<Table>, ms: seq<Moment>)
    ensures StatementRun(ts, ms) && |ms| == 4
    ensures !HasWorking(ts[2], session)
    ensures ms[2].st == ms[3].st == Insert(session, "", Running, Auto, None)
    ensures SingleActive(ts[3]) && !SingleActive(ts[4])
  {
    var submit, complete := Insert(session, "", Running, Auto, None), OnRow(0, CompleteRow);
    var first := NewRow(session, "", Running, Auto, None, now);
    ts, ms := [[]], [];
    ts, ms := Lengthened(ts, ms, submit, now);
    ts, ms := Lengthened(ts, ms, complete, now);
    assert ts[2] == [first.(status := TaskRows.Completed, endedAt := Some(now))];
    StatementKeepsSingleIff(ts[2], submit, now);
    ts, ms := Lengthened(ts, ms, submit, now);
    assert InSession(ts[3][1], session, WORKING);
    StatementKeepsSingleIff(ts[3], submit, now);
    ts, ms := Lengthened(ts, ms, submit, now);
  }
}
