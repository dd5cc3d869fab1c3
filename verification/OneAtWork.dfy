/**
 At most one task at work per session. Not every writer keeps this: for each operation the exact
 condition under which it puts a second task to work is stated, and a history satisfies the
 property up to the first step that meets its condition.
 */
module OneAtWork {
  import opened Prelude
  import opened TaskRows
  import opened EventHandler
  import opened Reconciler
  import opened Schedules
  import opened ControlPlane

  ghost predicate SingleActive(t: Table) {
    forall i, j :: 0 <= i < j < |t| && t[i].session == t[j].session
        ==> t[i].status !in WORKING || t[j].status !in WORKING
  }

  /** Another task of row id's session is at work. */
  predicate WorksBeside(t: Table, id: nat)
    requires id < |t|
  {
    exists j :: 0 <= j < |t| && j != id && InSession(t[j], t[id].session, WORKING)
  }

  /** The gateway's answer puts a task that is interrupted or in error back to work. */
  predicate PutsBack(r: Task, g: Answer) {
    && r.status in {Interrupted, Error} && g.sessionFound && g.agentFound && g.reply.Reports?
    && match g.reply.state
       case GRunning => true
       case GBusy => true
       case GWaitingInput => true
       case GCompleted => r.mode == Manual
       case GInterrupted => r.mode == Auto && g.resumeOk
       case GError => g.reply.overflow && r.status == Interrupted
       case GPendingApproval => false
       case GOther => false
  }

  /** Such an answer comes for the picked task of a session while an older one is at work. */
  ghost predicate RevivesBeside(t: Table, g: nat -> Answer) {
    exists i: nat :: Picked(t, i) && PutsBack(t[i], g(t[i].session)) && WorksBeside(t, i)
  }

  /** The event sets a task that is not at work running or waiting for input. */
  predicate SetsToWork(ev: Event, r: Task) {
    match ev
    case SessionStarted(_) => r.status == Error
    case StateChanged(to) => to in {GRunning, GBusy} && r.status == Completed
    case UserMessage(_, _) => r.status == Error
    case AgentMessage(_) => r.status in {Pending, PendingApproval, Approved, Error}
    case WaitingForInput => !AwaitsApproval(r) && r.status !in {Interrupted, Cancelled}
    case SessionCompleted => r.mode == Manual && r.status !in {PendingApproval, Approved, Interrupted, Cancelled}
    case SessionError(info) => info.overflow && !info.lost && !info.recoverable && r.status == Error
    case _ => false
  }

  /** The event ends a task that is not at work. */
  predicate Ends(ev: Event, r: Task) {
    match ev
    case SessionCompleted => r.mode == Auto
    case SessionError(info) => info.lost || (!info.recoverable && !(info.overflow && r.status in {Error, Interrupted}))
    case SessionInterrupted(_) => true
    case _ => false
  }

  /** Another task of row id's session is queued. */
  predicate QueuedBeside(t: Table, id: nat)
    requires id < |t|
  {
    exists j :: 0 <= j < |t| && j != id && InSession(t[j], t[id].session, {Pending})
  }

  /** The step puts a task to work in a session where another one already is. */
  ghost predicate Doubles(t: Table, op: Op) {
    match op
    case GatewayEvent(session, ev, d) =>
      (match Latest(t, session, ANY)
       case None => false
       case Some(id) =>
         WorksBeside(t, id)
         && (SetsToWork(ev, t[id]) || (Ends(ev, t[id]) && QueuedBeside(t, id) && DeliveryError(d).None?)))
    case StatusPass(g) => RevivesBeside(t, g)
    case QueuePass(_) => false
    case FireOne(_, _, _) => false
    case Submit(_, _, _, _) => false
    case OpenSession(_, _, _) => false
    case CompleteByHand(id, d) =>
      && id < |t| && t[id].status in WORKING + {Interrupted} && WorksBeside(t, id)
      && QueuedBeside(t, id) && DeliveryError(d).None?
    case DecideByHand(id, decision) =>
      id < |t| && t[id].status == PendingApproval && decision == OverriddenByHuman && WorksBeside(t, id)
    case CancelByHand(_) => false
    case Message(_) => false
  }

  // ---- one row changed, one row added ----

  lemma WorkingIsSeen(t: Table, i: nat)
    requires i < |t| && t[i].status in WORKING
    ensures HasWorking(t, t[i].session)
  {
    assert InSession(t[i], t[i].session, WORKING);
  }

  lemma NoneWorking(t: Table, session: nat)
    requires !HasWorking(t, session)
    ensures forall i :: 0 <= i < |t| && t[i].session == session ==> t[i].status !in WORKING
  {
    forall i | 0 <= i < |t| && t[i].session == session ensures t[i].status !in WORKING {
      assert !InSession(t[i], session, WORKING);
    }
  }

  lemma OneRowChanged(t: Table, id: nat, r: Task)
    requires SingleActive(t) && id < |t| && r.session == t[id].session
    ensures SingleActive(SetRow(t, id, r)) <==> !(r.status in WORKING && WorksBeside(t, id))
    ensures r.status !in WORKING ==> (HasWorking(SetRow(t, id, r), r.session) <==> WorksBeside(t, id))
  {
    var u := SetRow(t, id, r);
    if WorksBeside(t, id) {
      var j :| 0 <= j < |t| && j != id && InSession(t[j], t[id].session, WORKING);
      assert u[j] == t[j] && u[id] == r;
      assert InSession(u[j], r.session, WORKING);
    } else {
      forall j | 0 <= j < |t| && j != id && u[j].session == r.session ensures u[j].status !in WORKING {
        assert !InSession(t[j], t[id].session, WORKING);
      }
    }
  }

  lemma OneRowAdded(t: Table, r: Task)
    requires SingleActive(t)
    ensures SingleActive(t + [r]) <==> !(r.status in WORKING && HasWorking(t, r.session))
  {
    var u := t + [r];
    if HasWorking(t, r.session) {
      var j :| 0 <= j < |t| && InSession(t[j], r.session, WORKING);
      assert u[j] == t[j] && u[|t|] == r;
    } else {
      NoneWorking(t, r.session);
    }
  }

  // ---- one operation at a time ----

  /** A bare promotion keeps it exactly when it does not deliver a second task into a session at work. */
  lemma PromotionKeepsSingleActiveIff(t: Table, session: nat, d: Delivery, now: int)
    requires SingleActive(t)
    ensures SingleActive(Promoted(t, session, d, now))
       <==> !(HasWorking(t, session) && LowestPending(t, session).Some? && DeliveryError(d).None?)
  {
    var p := LowestPending(t, session);
    if p.Some? {
      var r := PromotedRow(t[p.value], d, now);
      OneRowChanged(t, p.value, r);
      assert HasWorking(t, session) <==> WorksBeside(t, p.value);
    }
  }

  lemma QueueBesideIff(t: Table, id: nat, r: Task)
    requires id < |t| && r.session == t[id].session && r.status != Pending
    ensures LowestPending(SetRow(t, id, r), r.session).Some? <==> QueuedBeside(t, id)
  {
    var u := SetRow(t, id, r);
    var p := LowestPending(u, r.session);
    if j :| 0 <= j < |t| && j != id && InSession(t[j], t[id].session, {Pending}) {
      assert InSession(u[j], r.session, {Pending});
    }
    if p.Some? {
      assert p.value != id && InSession(t[p.value], t[id].session, {Pending});
    }
  }

  /** For a task that is not at work the guards are the table's verdicts. */
  lemma GuardsAreTable(ev: Event, r: Task)
    requires r.status !in WORKING
    ensures SetsToWork(ev, r) <==> Transition(ev, r) in {Some(Running), Some(WaitingInput)}
    ensures Ends(ev, r) <==> Advances(ev, r)
  {
    AnyIsEvery(r.status);
  }

  lemma NotAtWork(t: Table, id: nat)
    requires SingleActive(t) && id < |t| && WorksBeside(t, id)
    ensures t[id].status !in WORKING
  {
    var j :| 0 <= j < |t| && j != id && InSession(t[j], t[id].session, WORKING);
  }

  /** Ending one task and promoting the next doubles exactly when both another one is at work and one is delivered. */
  lemma EndAndPromoteIff(t: Table, id: nat, r: Task, d: Delivery, now: int)
    requires SingleActive(t) && id < |t| && r.session == t[id].session && r.status !in WORKING + {Pending}
    ensures SingleActive(Promoted(SetRow(t, id, r), r.session, d, now))
       <==> !(WorksBeside(t, id) && QueuedBeside(t, id) && DeliveryError(d).None?)
  {
    OneRowChanged(t, id, r);
    QueueBesideIff(t, id, r);
    PromotionKeepsSingleActiveIff(SetRow(t, id, r), r.session, d, now);
  }

  lemma EndedByEvent(ev: Event, r: Task, now: int)
    requires Advances(ev, r)
    ensures AfterEvent(ev, r, now).session == r.session
        && AfterEvent(ev, r, now).status in {Completed, Error, Interrupted}
  {
  }

  /** An event that ends the newest task doubles only through the promotion that follows. */
  lemma EndingEventIff(t: Table, session: nat, ev: Event, d: Delivery, now: int, id: nat)
    requires SingleActive(t) && Latest(t, session, ANY) == Some(id) && Advances(ev, t[id])
    ensures SingleActive(EventApplied(t, session, ev, d, now))
       <==> !(WorksBeside(t, id) && QueuedBeside(t, id) && DeliveryError(d).None?)
  {
    var r := AfterEvent(ev, t[id], now);
    EndedByEvent(ev, t[id], now);
    EndAndPromoteIff(t, id, r, d, now);
    assert EventApplied(t, session, ev, d, now) == Promoted(SetRow(t, id, r), session, d, now);
  }

  lemma OtherEventIff(t: Table, session: nat, ev: Event, d: Delivery, now: int, id: nat)
    requires SingleActive(t) && Latest(t, session, ANY) == Some(id) && !Advances(ev, t[id])
    ensures SingleActive(EventApplied(t, session, ev, d, now))
       <==> !(WorksBeside(t, id) && Transition(ev, t[id]) in {Some(Running), Some(WaitingInput)})
  {
    var r := AfterEvent(ev, t[id], now);
    OneRowChanged(t, id, r);
    if t[id].status in WORKING {
      OneRowChanged(t, id, t[id]);
      assert SetRow(t, id, t[id]) == t;
    }
  }

  lemma EventKeepsSingleActiveIff(t: Table, session: nat, ev: Event, d: Delivery, now: int)
    requires SingleActive(t)
    ensures SingleActive(EventApplied(t, session, ev, d, now)) <==> !Doubles(t, GatewayEvent(session, ev, d))
  {
    var latest := Latest(t, session, ANY);
    if latest.Some? {
      if WorksBeside(t, latest.value) {
        NotAtWork(t, latest.value);
        GuardsAreTable(ev, t[latest.value]);
      }
      if Advances(ev, t[latest.value]) {
        EndingEventIff(t, session, ev, d, now, latest.value);
      } else {
        OtherEventIff(t, session, ev, d, now, latest.value);
      }
    }
  }

  /** Pass B keeps at most one task at work per session. */
  lemma PassBKeepsSingleActive(t: Table, d: nat -> Delivery, now: int)
    requires SingleActive(t)
    ensures SingleActive(PassB(t, d, now))
  {
    var u := PassB(t, d, now);
    forall i, j | 0 <= i < j < |t| && u[i].session == u[j].session
      ensures u[i].status !in WORKING || u[j].status !in WORKING
    {
      if t[i].status in WORKING { WorkingIsSeen(t, i); }
      if t[j].status in WORKING { WorkingIsSeen(t, j); }
      assert !(DueForPromotion(t, i) && DueForPromotion(t, j));
    }
  }

  /** Beside a task at work, the picked one is at work after the pass exactly when the answer puts it back. */
  lemma RevivedIff(t: Table, g: nat -> Answer, now: int, i: nat)
    requires SingleActive(t) && Picked(t, i) && WorksBeside(t, i)
    ensures Synced(t[i], g(t[i].session), now).status in WORKING <==> PutsBack(t[i], g(t[i].session))
  {
    var j :| 0 <= j < |t| && j != i && InSession(t[j], t[i].session, WORKING);
    assert t[i].status !in WORKING;
  }

  lemma PassAKeepsSingleActiveIff(t: Table, g: nat -> Answer, now: int)
    requires SingleActive(t)
    ensures SingleActive(PassA(t, g, now)) <==> !RevivesBeside(t, g)
  {
    var u := PassA(t, g, now);
    if RevivesBeside(t, g) {
      var i: nat :| Picked(t, i) && PutsBack(t[i], g(t[i].session)) && WorksBeside(t, i);
      RevivedIff(t, g, now, i);
      var j :| 0 <= j < |t| && j != i && InSession(t[j], t[i].session, WORKING);
      assert !Picked(t, j);
      assert u[j] == t[j] && u[i].session == t[i].session;
    } else {
      forall i, j | 0 <= i < j < |t| && u[i].session == u[j].session
        ensures u[i].status !in WORKING || u[j].status !in WORKING
      {
        OnlyOneRevived(t, g, now, i, j);
      }
    }
  }

  lemma OnlyOneRevived(t: Table, g: nat -> Answer, now: int, i: nat, j: nat)
    requires SingleActive(t) && !RevivesBeside(t, g)
    requires i < j < |t| && PassA(t, g, now)[i].session == PassA(t, g, now)[j].session
    ensures PassA(t, g, now)[i].status !in WORKING || PassA(t, g, now)[j].status !in WORKING
  {
    var u := PassA(t, g, now);
    assert u[i].session == t[i].session && u[j].session == t[j].session;
    if Picked(t, i) {
      assert !Picked(t, j) && u[j] == t[j];
    } else if Picked(t, j) {
      assert u[i] == t[i];
      if InSession(t[i], t[j].session, WORKING) {
        assert WorksBeside(t, j);
        RevivedIff(t, g, now, j);
      }
    }
  }

  /** Operations that add a row keep it: a task starts at work only in a session that has none at work. */
  lemma RowsAppendedKeep(t: Table, op: Op, now: int)
    requires SingleActive(t) && (op.FireOne? || op.Submit? || op.OpenSession?) && Fresh(t, op)
    ensures SingleActive(Apply(t, op, now))
  {
    var u := Apply(t, op, now);
    if |u| > |t| {
      var r := u[|t|];
      assert u == t + [r];
      OneRowAdded(t, r);
      assert HasWorking(t, r.session) ==> HasTask(t, r.session);
    }
  }

  lemma CompletionKeepsSingleActiveIff(t: Table, id: nat, d: Delivery, now: int)
    requires SingleActive(t)
    ensures SingleActive(HandCompleted(t, id, d, now)) <==> !Doubles(t, CompleteByHand(id, d))
  {
    if id < |t| && t[id].status in WORKING + {Interrupted} {
      EndAndPromoteIff(t, id, t[id].(status := Completed, endedAt := Some(now)), d, now);
    }
  }

  lemma ReopeningKeepsSingleActive(t: Table, session: nat, now: int)
    requires SingleActive(t)
    ensures SingleActive(Messaged(t, session, now))
  {
    var latest := Latest(t, session, ANY);
    if !HasWorking(t, session) && latest.Some? {
      assert !WorksBeside(t, latest.value);
      OneRowChanged(t, latest.value, Messaged(t, session, now)[latest.value]);
    }
  }

  lemma DecisionKeepsSingleActiveIff(t: Table, op: Op, now: int)
    requires SingleActive(t) && (op.DecideByHand? || op.CancelByHand?)
    ensures SingleActive(Apply(t, op, now)) <==> !Doubles(t, op)
  {
    if op.id < |t| {
      OneRowChanged(t, op.id, Apply(t, op, now)[op.id]);
      assert Apply(t, op, now) == t || Apply(t, op, now) == SetRow(t, op.id, Apply(t, op, now)[op.id]);
    }
  }

  // ---- every operation, every history ----

  /** For every writer of the table, the exact condition under which one step keeps the property. */
  lemma StepKeepsSingleActiveIff(t: Table, op: Op, now: int)
    requires SingleActive(t) && Fresh(t, op)
    ensures SingleActive(Apply(t, op, now)) <==> !Doubles(t, op)
  {
    match op
    case GatewayEvent(session, ev, d) => EventKeepsSingleActiveIff(t, session, ev, d, now);
    case StatusPass(g) => PassAKeepsSingleActiveIff(t, g, now);
    case QueuePass(ds) => PassBKeepsSingleActive(t, ds, now);
    case CompleteByHand(id, d) => CompletionKeepsSingleActiveIff(t, id, d, now);
    case DecideByHand(_, _) => DecisionKeepsSingleActiveIff(t, op, now);
    case CancelByHand(_) => DecisionKeepsSingleActiveIff(t, op, now);
    case Message(session) => ReopeningKeepsSingleActive(t, session, now);
    case _ => RowsAppendedKeep(t, op, now);
  }

  /** Along every history the property holds up to the first doubling step, and fails right after it. */
  lemma {:induction false} SingleActiveUntilFirstDoubling(ts: seq<Table>, steps: seq<Step>, k: nat)
    requires Run(ts, steps) && k < |ts|
    requires forall m :: 0 <= m < k ==> !Doubles(ts[m], steps[m].op)
    ensures SingleActive(ts[k])
    ensures k < |steps| ==> (SingleActive(ts[k + 1]) <==> !Doubles(ts[k], steps[k].op))
  {
    if k > 0 {
      SingleActiveUntilFirstDoubling(ts, steps, k - 1);
    }
    if k < |steps| {
      StepKeepsSingleActiveIff(ts[k], steps[k].op, steps[k].now);
    }
  }

  // ---- every kind of doubling step is reached ----

  /** The history's last step, and no step before it, puts a second task of a session to work. */
  ghost predicate DoublesLast(ts: seq<Table>, steps: seq<Step>) {
    && |steps| > 0 && Run(ts, steps)
    && SingleActive(ts[|steps| - 1]) && !SingleActive(ts[|steps|])
  }

  lemma Extended(ts: seq<Table>, steps: seq<Step>, op: Op, now: int)
    requires Run(ts, steps) && Fresh(ts[|steps|], op)
    ensures Run(ts + [Apply(ts[|steps|], op, now)], steps + [Step(op, now)])
  {
    var us, all := ts + [Apply(ts[|steps|], op, now)], steps + [Step(op, now)];
    forall k | 0 <= k < |all| ensures Fresh(us[k], all[k].op) && us[k + 1] == Apply(us[k], all[k].op, all[k].now) {
      if k < |steps| {
        assert us[k] == ts[k] && us[k + 1] == ts[k + 1] && all[k] == steps[k];
      }
    }
  }

  lemma NewestIs(t: Table, session: nat)
    requires t != [] && t[|t| - 1].session == session
    ensures Latest(t, session, ANY) == Some(|t| - 1)
  {
    AnyIsEvery(t[|t| - 1].status);
  }

  /** A session just opened, its one task at work. */
  lemma Opened(session: nat, now: int) returns (ts: seq<Table>, steps: seq<Step>)
    ensures Run(ts, steps) && |steps| == 1 && ts[1] == [NewRow(session, "", Running, Auto, None, now)]
  {
    var first, open := NewRow(session, "", Running, Auto, None, now), OpenSession(session, "", Auto);
    assert Run([[]], []);
    Extended([[]], [], open, now);
    ts, steps := [[], [first]], [Step(open, now)];
    assert [[]] + [[first]] == ts && [] + [first] == [first];
  }

  /** The same with a second task queued behind the first. */
  lemma Queued(session: nat, d: Delivery, now: int) returns (ts: seq<Table>, steps: seq<Step>)
    requires d.sessionFound
    ensures Run(ts, steps) && |steps| == 2
    ensures ts[2] == [NewRow(session, "", Running, Auto, None, now), NewRow(session, "", Pending, Auto, None, now)]
  {
    ts, steps := Opened(session, now);
    var submit := Submit(session, "", Auto, d);
    assert InSession(ts[1][0], session, WORKING);
    Extended(ts, steps, submit, now);
    ts, steps := ts + [Apply(ts[1], submit, now)], steps + [Step(submit, now)];
  }

  /** Agent output is credited to the newest task even while that one is queued. */
  lemma EventDoubles(session: nat, d: Delivery, now: int) returns (ts: seq<Table>, steps: seq<Step>)
    requires d.sessionFound
    ensures DoublesLast(ts, steps) && steps[|steps| - 1].op.GatewayEvent?
  {
    ts, steps := Queued(session, d, now);
    var op := GatewayEvent(session, AgentMessage(""), d);
    NewestIs(ts[2], session);
    Extended(ts, steps, op, now);
    var u := Apply(ts[2], op, now);
    assert u[0].status == Running && u[1].status == Running && u[0].session == u[1].session;
    ts, steps := ts + [u], steps + [Step(op, now)];
  }

  /** The queued task is interrupted in place of the one at work. */
  lemma Interruptible(session: nat, d: Delivery, now: int) returns (ts: seq<Table>, steps: seq<Step>)
    requires d.sessionFound
    ensures Run(ts, steps) && |steps| == 3
    ensures ts[3] == [NewRow(session, "", Running, Auto, None, now),
                      NewRow(session, "", Pending, Auto, None, now).(status := Interrupted, endedAt := Some(now))]
  {
    ts, steps := Queued(session, d, now);
    var op := GatewayEvent(session, SessionInterrupted(""), d);
    NewestIs(ts[2], session);
    Extended(ts, steps, op, now);
    var u := SetRow(ts[2], 1, AfterEvent(SessionInterrupted(""), ts[2][1], now));
    assert LowestPending(u, session).None?;
    assert Apply(ts[2], op, now) == u;
    ts, steps := ts + [u], steps + [Step(op, now)];
  }

  /** Pass A sees the gateway running and revives the interrupted task. */
  lemma PassADoubles(session: nat, d: Delivery, now: int) returns (ts: seq<Table>, steps: seq<Step>)
    requires d.sessionFound
    ensures DoublesLast(ts, steps) && steps[|steps| - 1].op.StatusPass?
  {
    ts, steps := Interruptible(session, d, now);
    var op := StatusPass((s: nat) => Answer(true, true, Reports(GRunning, false), None, false));
    Extended(ts, steps, op, now);
    var u := Apply(ts[3], op, now);
    assert Picked(ts[3], 1) && !Picked(ts[3], 0);
    assert u[0].status == Running && u[1].status == Running && u[0].session == u[1].session;
    ts, steps := ts + [u], steps + [Step(op, now)];
  }

  /** A third task, queued behind the one at work. */
  lemma Behind(session: nat, d: Delivery, now: int) returns (ts: seq<Table>, steps: seq<Step>)
    requires d.sessionFound
    ensures Run(ts, steps) && |steps| == 4 && |ts[4]| == 3 && SingleActive(ts[4])
    ensures forall i :: 0 <= i < 3 ==> ts[4][i].session == session
    ensures ts[4][0].status == Running && ts[4][1].status == Interrupted && ts[4][2].status == Pending
  {
    ts, steps := Interruptible(session, d, now);
    var submit := Submit(session, "", Auto, d);
    assert InSession(ts[3][0], session, WORKING);
    Extended(ts, steps, submit, now);
    ts, steps := ts + [Apply(ts[3], submit, now)], steps + [Step(submit, now)];
    assert ts[4] == ts[3] + [NewRow(session, "", Pending, Auto, None, now)];
  }

  /** Completing the interrupted task by hand delivers a third task beside the first. */
  lemma CompletionDoubles(session: nat, d: Delivery, now: int) returns (ts: seq<Table>, steps: seq<Step>)
    requires DeliveryError(d).None?
    ensures DoublesLast(ts, steps) && steps[|steps| - 1].op.CompleteByHand?
  {
    ts, steps := Behind(session, d, now);
    var complete := CompleteByHand(1, d);
    Extended(ts, steps, complete, now);
    var v := SetRow(ts[4], 1, ts[4][1].(status := Completed, endedAt := Some(now)));
    assert InSession(v[2], session, {Pending}) && !InSession(v[0], session, {Pending})
        && !InSession(v[1], session, {Pending});
    assert LowestPending(v, session) == Some(2);
    var u := Apply(ts[4], complete, now);
    assert u[0].status == Running && u[2].status == Running && u[0].session == u[2].session;
    ts, steps := ts + [u], steps + [Step(complete, now)];
  }

  function Asking(session: nat, d: Delivery): Op {
    GatewayEvent(session, AgentMessage("AWAITING_APPROVAL"), d)
  }

  /** Output that carries the marker, from a running task. */
  lemma Asked(t: Table, session: nat, d: Delivery, now: int)
    requires |t| == 1 && t[0].session == session && t[0].status == Running
    ensures var u := Apply(t, Asking(session, d), now);
            |u| == 1 && u[0].session == session && AwaitsApproval(u[0])
  {
    NewestIs(t, session);
    assert MatchesAt("AWAITING_APPROVAL", "AWAITING_APPROVAL", 0);
  }

  /** A session whose only task awaits approval. */
  lemma Awaiting(session: nat, d: Delivery, now: int) returns (ts: seq<Table>, steps: seq<Step>)
    ensures Run(ts, steps) && |steps| == 3 && |ts[3]| == 1
    ensures ts[3][0].session == session && ts[3][0].status == PendingApproval
  {
    ts, steps := Opened(session, now);
    var ask := Asking(session, d);
    Asked(ts[1], session, d, now);
    Extended(ts, steps, ask, now);
    ts, steps := ts + [Apply(ts[1], ask, now)], steps + [Step(ask, now)];
    ts, steps := Waited(ts, steps, session, d, now);
  }

  lemma Waited(before: seq<Table>, done: seq<Step>, session: nat, d: Delivery, now: int)
    returns (ts: seq<Table>, steps: seq<Step>)
    requires Run(before, done) && |done| == 2 && |before[2]| == 1
    requires before[2][0].session == session && AwaitsApproval(before[2][0])
    ensures Run(ts, steps) && |steps| == 3 && |ts[3]| == 1
    ensures ts[3][0].session == session && ts[3][0].status == PendingApproval
  {
    var wait := GatewayEvent(session, WaitingForInput, d);
    NewestIs(before[2], session);
    Extended(before, done, wait, now);
    ts, steps := before + [Apply(before[2], wait, now)], done + [Step(wait, now)];
  }

  /** A task pending approval makes way for another one, and overriding it hands it back. */
  lemma DecisionDoubles(session: nat, d: Delivery, now: int) returns (ts: seq<Table>, steps: seq<Step>)
    requires d.sessionFound && d.sendOk
    ensures DoublesLast(ts, steps) && steps[|steps| - 1].op.DecideByHand?
  {
    ts, steps := Awaiting(session, d, now);
    var submit, decide := Submit(session, "", Auto, d), DecideByHand(0, OverriddenByHuman);
    assert !HasWorking(ts[3], session);
    Extended(ts, steps, submit, now);
    var t := ts[3] + [NewRow(session, "", Running, Auto, None, now)];
    assert Apply(ts[3], submit, now) == t;
    ts, steps := ts + [t], steps + [Step(submit, now)];
    Extended(ts, steps, decide, now);
    var u := Apply(t, decide, now);
    assert u[0].status == WaitingInput && u[1].status == Running && u[0].session == u[1].session;
    ts, steps := ts + [u], steps + [Step(decide, now)];
  }
}
