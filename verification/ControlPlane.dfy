/**
 All writers of the task table together: gateway events, both reconciler passes, scheduler firings
 and user operations, interleaved in any order with arbitrary gateway answers. What every step does
 to every row is collected in one transitive relation, and the run theorems follow from it.
 */
module ControlPlane {
  import opened Prelude
  import opened TaskRows
  import opened TaskStores
  import opened EventHandler
  import opened Reconciler
  import opened Convergence
  import opened Schedules

  // ---- the user's operations ----

  /** `POST /sessions/:id/tasks`: queue behind work in progress, otherwise start and deliver. */
  function Submitted(t: Table, session: nat, prompt: string, mode: Mode, d: Delivery, now: int): Table {
    if !d.sessionFound then t
    else if HasWorking(t, session) then t + [NewRow(session, prompt, Pending, mode, None, now)]
    else
      var r := NewRow(session, prompt, Running, mode, None, now);
      if !d.agentFound || d.sendOk || d.resumeOk then t + [r]
      else t + [r.(status := Error, endedAt := Some(now), preview := Some(Truncate("Error: " + d.error, 200)))]
  }

  /** `POST /tasks/:id/complete`: the guarded update, then promotion in the task's session. */
  function HandCompleted(t: Table, id: nat, d: Delivery, now: int): Table {
    if id < |t| && t[id].status in WORKING + {Interrupted} then
      Promoted(SetRow(t, id, t[id].(status := Completed, endedAt := Some(now))), t[id].session, d, now)
    else t
  }

  /** `POST /sessions/:id/messages`: reopen the newest task unless something is already at work. */
  function Messaged(t: Table, session: nat, now: int): Table {
    if HasWorking(t, session) then t else Reopened(t, session, now)
  }

  method SubmitTask(store: TaskStore, session: nat, prompt: string, mode: Mode, d: Delivery, now: int)
    modifies store
    ensures store.rows == Submitted(old(store.rows), session, prompt, mode, d, now)
  {
    if !d.sessionFound {
      return;
    }
    var active := Latest(store.rows, session, WORKING);
    assert active.Some? <==> HasWorking(store.rows, session);
    if active.Some? {
      var _ := store.Create(session, prompt, Pending, mode, None, now);
      return;
    }
    var task := store.Create(session, prompt, Running, mode, None, now);
    if d.agentFound && !d.sendOk && !d.resumeOk {
      store.UpdateStatus(task, Error, Some(now));
      store.UpdateOutputPreview(task, Truncate("Error: " + d.error, 200));
      assert store.rows == Submitted(old(store.rows), session, prompt, mode, d, now);
    }
  }

  method CompleteTask(store: TaskStore, id: nat, d: Delivery, now: int)
    modifies store
    ensures store.rows == HandCompleted(old(store.rows), id, d, now)
  {
    if id >= |store.rows| || store.rows[id].status !in WORKING + {Interrupted} {
      return;
    }
    var session := store.rows[id].session;
    var done := store.CompleteManually(id, now);
    if done {
      var _ := PromoteNext(store, session, d, now);
    }
  }

  method SendMessage(store: TaskStore, session: nat, now: int)
    modifies store
    ensures store.rows == Messaged(old(store.rows), session, now)
  {
    var active := Latest(store.rows, session, WORKING);
    assert active.Some? <==> HasWorking(store.rows, session);
    if active.None? {
      var _ := store.ReopenLatestForSession(session, now);
    }
  }

  // ---- the step relation ----

  datatype Op =
    | GatewayEvent(session: nat, ev: Event, d: Delivery)
    | StatusPass(g: nat -> Answer)
    | QueuePass(ds: nat -> Delivery)
    | FireOne(schedule: nat, s: Schedule, e: FireEnv)
    | Submit(session: nat, prompt: string, mode: Mode, d: Delivery)
    | OpenSession(session: nat, prompt: string, mode: Mode)
    | CompleteByHand(id: nat, d: Delivery)
    | DecideByHand(id: nat, decision: Decision)
    | CancelByHand(id: nat)
    | Message(session: nat)

  function Apply(t: Table, op: Op, now: int): Table {
    match op
    case GatewayEvent(session, ev, d) => EventApplied(t, session, ev, d, now)
    case StatusPass(g) => PassA(t, g, now)
    case QueuePass(ds) => PassB(t, ds, now)
    case FireOne(id, s, e) => Fired(t, id, s, e, now).0
    case Submit(session, prompt, mode, d) => Submitted(t, session, prompt, mode, d, now)
    case OpenSession(session, prompt, mode) => t + [NewRow(session, prompt, Running, mode, None, now)]
    case CompleteByHand(id, d) => HandCompleted(t, id, d, now)
    case DecideByHand(id, decision) =>
      if id < |t| && t[id].status == PendingApproval then SetRow(t, id, Decided(t[id], decision, now)) else t
    case CancelByHand(id) =>
      if id < |t| && t[id].status == Pending then SetRow(t, id, t[id].(status := Cancelled, endedAt := Some(now)))
          else t
    case Message(session) => Messaged(t, session, now)
  }

  datatype Step = Step(op: Op, now: int)

  predicate HasTask(t: Table, session: nat) {
    exists i :: 0 <= i < |t| && t[i].session == session
  }

  /** A session that an operation creates has no tasks yet. */
  ghost predicate Fresh(t: Table, op: Op) {
    match op
    case OpenSession(session, _, _) => !HasTask(t, session)
    case FireOne(_, s, e) => s.sessionMode == NewSession ==> !HasTask(t, e.newSession)
    case _ => true
  }

  /** A history of the table from its creation. */
  ghost predicate Run(ts: seq<Table>, steps: seq<Step>) {
    && |ts| == |steps| + 1 && ts[0] == []
    && forall k :: 0 <= k < |steps|
        ==> Fresh(ts[k], steps[k].op) && ts[k + 1] == Apply(ts[k], steps[k].op, steps[k].now)
  }

  // ---- what a step may do to a row ----

  /** `byHand` says whether the step is the manual completion of this row. */
  ghost predicate RowOk(r: Task, s: Task, byHand: bool) {
    RowLaws(r, s, byHand) && (EndedOk(r) ==> EndedOk(s))
  }

  ghost predicate RowLaws(r: Task, s: Task, byHand: bool) {
    && s.session == r.session && s.prompt == r.prompt && s.mode == r.mode && s.createdAt == r.createdAt
    && (r.decision.Some? ==> s.decision == r.decision)
    && (r.modelVersion.Some? ==> s.modelVersion == r.modelVersion)
    && (r.seqStart.Some? ==> s.seqStart == r.seqStart)
    && (s.status == Pending ==> r.status == Pending)
    && (r.mode == Manual && r.status != Completed && s.status == Completed ==> byHand)
  }

  ghost predicate TableOk(t: Table, u: Table, hand: Option<nat>) {
    && |t| <= |u|
    && (forall i :: 0 <= i < |t| ==> RowOk(t[i], u[i], hand == Some(i)))
    && (forall i :: |t| <= i < |u| ==> EndedOk(u[i]) && u[i].status in {Pending, Running, Error} && u[i].decision.None?)
  }

  lemma EventRowOk(ev: Event, r: Task, now: int)
    ensures RowOk(r, AfterEvent(ev, r, now), false)
  {
    var s := AfterEvent(ev, r, now);
    assert Transition(ev, r) != Some(Pending);
  }

  lemma PromotedRowOk(r: Task, d: Delivery, now: int)
    requires r.status == Pending
    ensures RowOk(r, PromotedRow(r, d, now), false)
  {
  }

  /** With the row the decision was made from still current, even the write that keeps the end time is sound. */
  lemma SyncedRowOk(r: Task, g: Answer, now: int)
    requires r.status in RECONCILABLE
    ensures RowOk(r, Synced(r, g, now), false)
  {
  }

  lemma PromotedTableOk(t: Table, session: nat, d: Delivery, now: int)
    ensures TableOk(t, Promoted(t, session, d, now), None)
  {
    var p := LowestPending(t, session);
    if p.Some? {
      PromotedRowOk(t[p.value], d, now);
    }
  }

  lemma TableOkCompose(t: Table, u: Table, v: Table, hand: Option<nat>)
    requires TableOk(t, u, hand) && TableOk(u, v, None) && |u| == |t|
    ensures TableOk(t, v, hand)
  {
    forall i | 0 <= i < |t| ensures RowOk(t[i], v[i], hand == Some(i)) {
      assert RowOk(t[i], u[i], hand == Some(i)) && RowOk(u[i], v[i], false);
    }
  }

  lemma EventTableOk(t: Table, session: nat, ev: Event, d: Delivery, now: int)
    ensures TableOk(t, EventApplied(t, session, ev, d, now), None)
  {
    var latest := Latest(t, session, ANY);
    if latest.Some? {
      var u := SetRow(t, latest.value, AfterEvent(ev, t[latest.value], now));
      EventRowOk(ev, t[latest.value], now);
      PromotedTableOk(u, session, d, now);
      TableOkCompose(t, u, Promoted(u, session, d, now), None);
    }
  }

  ghost function HandOf(op: Op): Option<nat> {
    if op.CompleteByHand? then Some(op.id) else None
  }

  lemma PassesTableOk(t: Table, op: Op, now: int)
    requires op.StatusPass? || op.QueuePass?
    ensures TableOk(t, Apply(t, op, now), None)
  {
    forall i | 0 <= i < |t| ensures RowOk(t[i], Apply(t, op, now)[i], false) {
      match op {
        case StatusPass(g) => if Picked(t, i) { SyncedRowOk(t[i], g(t[i].session), now); }
        case QueuePass(ds) => if DueForPromotion(t, i) { PromotedRowOk(t[i], ds(t[i].session), now); }
      }
    }
  }

  lemma CompletedTableOk(t: Table, id: nat, d: Delivery, now: int)
    ensures TableOk(t, HandCompleted(t, id, d, now), Some(id))
  {
    if id < |t| && t[id].status in WORKING + {Interrupted} {
      var u := SetRow(t, id, t[id].(status := Completed, endedAt := Some(now)));
      PromotedTableOk(u, t[id].session, d, now);
      TableOkCompose(t, u, HandCompleted(t, id, d, now), Some(id));
    }
  }

  lemma AppendTableOk(t: Table, op: Op, now: int)
    requires op.FireOne? || op.Submit? || op.OpenSession?
    ensures TableOk(t, Apply(t, op, now), None)
  {
    var u := Apply(t, op, now);
    assert u == t || (u == t + [u[|t|]] && u[|t|].status in {Pending, Running, Error} && EndedOk(u[|t|])
        && u[|t|].decision.None?);
  }

  lemma UserTableOk(t: Table, op: Op, now: int)
    requires op.DecideByHand? || op.CancelByHand? || op.Message?
    ensures TableOk(t, Apply(t, op, now), None)
  {
    forall i | 0 <= i < |t| ensures RowOk(t[i], Apply(t, op, now)[i], false) {
    }
  }

  /** Every step of every writer respects the row discipline. */
  lemma StepTableOk(t: Table, op: Op, now: int)
    ensures TableOk(t, Apply(t, op, now), HandOf(op))
  {
    match op
    case GatewayEvent(session, ev, d) => EventTableOk(t, session, ev, d, now);
    case StatusPass(_) => PassesTableOk(t, op, now);
    case QueuePass(_) => PassesTableOk(t, op, now);
    case CompleteByHand(id, d) => CompletedTableOk(t, id, d, now);
    case FireOne(_, _, _) => AppendTableOk(t, op, now);
    case Submit(_, _, _, _) => AppendTableOk(t, op, now);
    case OpenSession(_, _, _) => AppendTableOk(t, op, now);
    case _ => UserTableOk(t, op, now);
  }

  // ---- run theorems ----

  lemma StepAt(ts: seq<Table>, steps: seq<Step>, k: nat)
    requires Run(ts, steps) && k < |steps|
    ensures TableOk(ts[k], ts[k + 1], HandOf(steps[k].op))
  {
    StepTableOk(ts[k], steps[k].op, steps[k].now);
  }

  ghost predicate AllEndedOk(t: Table) {
    forall i :: 0 <= i < |t| ==> EndedOk(t[i])
  }

  lemma TableKeepsEnded(t: Table, u: Table, hand: Option<nat>)
    requires TableOk(t, u, hand) && AllEndedOk(t)
    ensures AllEndedOk(u)
  {
    forall i | 0 <= i < |t| ensures EndedOk(u[i]) {
      assert RowOk(t[i], u[i], hand == Some(i));
    }
  }

  lemma {:induction false} EndedPersists(ts: seq<Table>, k: nat)
    requires k < |ts| && AllEndedOk(ts[0])
    requires forall a, b :: 0 <= a && b == a + 1 && b < |ts| && AllEndedOk(ts[a]) ==> AllEndedOk(ts[b])
    ensures AllEndedOk(ts[k])
  {
    if k > 0 {
      EndedPersists(ts, k - 1);
    }
  }

  /** In every reachable table a task has an end time exactly when its status is an ending one. */
  lemma EndedInvariant(ts: seq<Table>, steps: seq<Step>, k: nat)
    requires Run(ts, steps) && k < |ts|
    ensures forall i :: 0 <= i < |ts[k]| ==>
              (ts[k][i].endedAt.Some? <==> ts[k][i].status in {Completed, Error, Interrupted, Cancelled, Approved})
  {
    forall a, b | 0 <= a && b == a + 1 && b < |ts| && AllEndedOk(ts[a]) ensures AllEndedOk(ts[b]) {
      StepAt(ts, steps, a);
      TableKeepsEnded(ts[a], ts[b], HandOf(steps[a].op));
    }
    EndedPersists(ts, k);
  }

  /** Rows are only added, and each row obeys the laws; completions by hand are not told apart. */
  ghost predicate Follows(t: Table, u: Table) {
    |t| <= |u| && forall i :: 0 <= i < |t| ==> RowLaws(t[i], u[i], true)
  }

  ghost predicate Lawful(ts: seq<Table>) {
    forall a, b :: 0 <= a && b == a + 1 && b < |ts| ==> Follows(ts[a], ts[b])
  }

  lemma RunIsLawful(ts: seq<Table>, steps: seq<Step>)
    requires Run(ts, steps)
    ensures Lawful(ts)
  {
    forall a, b | 0 <= a && b == a + 1 && b < |ts| ensures Follows(ts[a], ts[b]) {
      StepAt(ts, steps, a);
      forall i | 0 <= i < |ts[a]| ensures RowLaws(ts[a][i], ts[b][i], true) {
        assert RowOk(ts[a][i], ts[b][i], HandOf(steps[a].op) == Some(i));
      }
    }
  }

  /** Identity columns agree, and a decision, model version or first sequence number that is set is kept. */
  ghost predicate Kept(r: Task, s: Task) {
    && s.session == r.session && s.prompt == r.prompt && s.mode == r.mode && s.createdAt == r.createdAt
    && (r.decision.Some? ==> s.decision == r.decision)
    && (r.modelVersion.Some? ==> s.modelVersion == r.modelVersion)
    && (r.seqStart.Some? ==> s.seqStart == r.seqStart)
  }

  lemma {:induction false} LawfulKeeps(ts: seq<Table>, j: nat, k: nat, id: nat)
    requires Lawful(ts) && j <= k < |ts| && id < |ts[j]|
    ensures id < |ts[k]| && Kept(ts[j][id], ts[k][id])
    decreases k
  {
    if j < k {
      LawfulKeeps(ts, j, k - 1, id);
      assert Follows(ts[k - 1], ts[k]);
      assert RowLaws(ts[k - 1][id], ts[k][id], true);
    }
  }

  /** Over every history identity columns never change, and write-once columns are written once. */
  lemma WriteOnce(ts: seq<Table>, steps: seq<Step>, j: nat, k: nat, id: nat)
    requires Run(ts, steps) && j <= k < |ts| && id < |ts[j]|
    ensures id < |ts[k]| && Kept(ts[j][id], ts[k][id])
  {
    RunIsLawful(ts, steps);
    LawfulKeeps(ts, j, k, id);
  }

  /** From t to u a manual task becomes completed only as the one that `hand` names, from a completable status. */
  ghost predicate ManualMove(t: Table, u: Table, hand: Option<nat>) {
    forall id :: 0 <= id < |u| && u[id].mode == Manual && u[id].status == Completed ==>
      id < |t| && t[id].mode == Manual
      && (t[id].status == Completed || (hand == Some(id) && t[id].status in WORKING + {Interrupted}))
  }

  ghost predicate ManualMoves(ts: seq<Table>, hands: seq<Option<nat>>) {
    && |ts| == |hands| + 1 && ts[0] == []
    && forall a, b :: 0 <= a && b == a + 1 && b < |ts| ==> ManualMove(ts[a], ts[b], hands[a])
  }

  /** Row id is completable in table m, and completed in every table after it, up to and including table k. */
  ghost predicate CompletedAt(ts: seq<Table>, id: nat, m: nat, k: nat) {
    && m < k < |ts| && id < |ts[m]| && ts[m][id].status in WORKING + {Interrupted}
    && forall n :: m < n <= k ==> id < |ts[n]| && ts[n][id].status == Completed
  }

  lemma {:induction false} HandFound(ts: seq<Table>, hands: seq<Option<nat>>, k: nat, id: nat) returns (m: nat)
    requires ManualMoves(ts, hands) && k < |ts| && id < |ts[k]|
    requires ts[k][id].mode == Manual && ts[k][id].status == Completed
    ensures m < k && hands[m] == Some(id) && CompletedAt(ts, id, m, k)
  {
    assert ManualMove(ts[k - 1], ts[k], hands[k - 1]);
    if ts[k - 1][id].status == Completed {
      m := HandFound(ts, hands, k - 1, id);
    } else {
      m := k - 1;
    }
  }

  lemma ManualStep(t: Table, op: Op, now: int)
    ensures ManualMove(t, Apply(t, op, now), HandOf(op))
  {
    var u := Apply(t, op, now);
    StepTableOk(t, op, now);
    forall id | 0 <= id < |t| ensures RowLaws(t[id], u[id], HandOf(op) == Some(id)) {
      assert RowOk(t[id], u[id], HandOf(op) == Some(id));
    }
    assert op.CompleteByHand? && op.id < |t| && t[op.id].status !in WORKING + {Interrupted} ==> u == t;
  }

  /**
   A completed manual task was completed by its owner: some step of the history is the completion of
   that very task, from a completable status, and the task has been completed ever since.
   */
  lemma ManualCompletionIsByHand(ts: seq<Table>, steps: seq<Step>, k: nat, id: nat)
    requires Run(ts, steps) && k < |ts| && id < |ts[k]|
    requires ts[k][id].mode == Manual && ts[k][id].status == Completed
    ensures exists m :: 0 <= m < k && steps[m].op.CompleteByHand? && steps[m].op.id == id && CompletedAt(ts, id, m, k)
  {
    var hands := seq(|steps|, m requires 0 <= m < |steps| => HandOf(steps[m].op));
    forall a, b | 0 <= a && b == a + 1 && b < |ts| ensures ManualMove(ts[a], ts[b], hands[a]) {
      ManualStep(ts[a], steps[a].op, steps[a].now);
    }
    var m := HandFound(ts, hands, k, id);
    assert hands[m] == HandOf(steps[m].op);
  }

  // ---- the queue ----

  /** The task a step takes from the head of a session's queue, if it takes one. */
  ghost function PromotedBy(t: Table, op: Op, session: nat, now: int): Option<nat> {
    match op
    case GatewayEvent(s, ev, d) =>
      if s == session then PromotedByEvent(t, session, ev, now) else None
    case QueuePass(ds) => if Promotable(t, session) then LowestPending(t, session) else None
    case CompleteByHand(id, d) =>
      if id < |t| && t[id].status in WORKING + {Interrupted} && t[id].session == session
      then LowestPending(SetRow(t, id, t[id].(status := Completed, endedAt := Some(now))), session) else None
    case _ => None
  }

  /** Row q and everything older in its session has left the queue. */
  ghost predicate PassedBy(t: Table, session: nat, q: nat) {
    forall i :: 0 <= i < |t| && i <= q && t[i].session == session ==> t[i].status != Pending
  }

  /** Taking the lowest pending row out leaves none at or below it. */
  lemma PromotedPasses(t: Table, session: nat, d: Delivery, now: int)
    requires LowestPending(t, session).Some?
    ensures var q := LowestPending(t, session).value;
            t[q].session == session && t[q].status == Pending && PassedBy(Promoted(t, session, d, now), session, q)
  {
    var q := LowestPending(t, session).value;
    forall i | 0 <= i < q && t[i].session == session ensures t[i].status != Pending {
      assert !InSession(t[i], session, {Pending});
    }
  }

  lemma QueuePassPasses(t: Table, session: nat, d: nat -> Delivery, now: int)
    requires Promotable(t, session)
    ensures var p := LowestPending(t, session);
            p.Some? && PassedBy(PassB(t, d, now), session, p.value)
  {
    PassBInSession(t, d, now, session);
    PromotedPasses(t, session, d(session), now);
  }

  lemma PromotionPasses(t: Table, op: Op, session: nat, now: int)
    requires PromotedBy(t, op, session, now).Some?
    ensures var q := PromotedBy(t, op, session, now).value;
            && q < |t| && t[q].session == session && t[q].status == Pending
            && PassedBy(Apply(t, op, now), session, q)
            && |Apply(t, op, now)| == |t|
  {
    match op
    case GatewayEvent(s, ev, d) =>
      var latest := Latest(t, s, ANY).value;
      PromotedPasses(SetRow(t, latest, AfterEvent(ev, t[latest], now)), session, d, now);
    case QueuePass(ds) =>
      QueuePassPasses(t, session, ds, now);
    case CompleteByHand(id, d) =>
      PromotedPasses(SetRow(t, id, t[id].(status := Completed, endedAt := Some(now))), session, d, now);
  }

  lemma FollowingKeepsPassed(t: Table, u: Table, session: nat, q: nat)
    requires Follows(t, u) && q < |t| && PassedBy(t, session, q)
    ensures PassedBy(u, session, q)
  {
    forall i | 0 <= i < |u| && i <= q && u[i].session == session ensures u[i].status != Pending {
      assert RowLaws(t[i], u[i], true);
    }
  }

  lemma {:induction false} PassedStaysPassed(ts: seq<Table>, j: nat, k: nat, session: nat, q: nat)
    requires Lawful(ts) && j <= k < |ts|
    requires q < |ts[j]| && PassedBy(ts[j], session, q)
    ensures q < |ts[k]| && PassedBy(ts[k], session, q)
    decreases k
  {
    if j < k {
      PassedStaysPassed(ts, j, k - 1, session, q);
      assert Follows(ts[k - 1], ts[k]);
      FollowingKeepsPassed(ts[k - 1], ts[k], session, q);
    }
  }

  /** Over any run the promoted ids of a session strictly increase, so no task is promoted twice. */
  lemma PromotionsIncrease(ts: seq<Table>, steps: seq<Step>, j: nat, k: nat, session: nat)
    requires Run(ts, steps) && j < k < |steps|
    requires PromotedBy(ts[j], steps[j].op, session, steps[j].now).Some?
    requires PromotedBy(ts[k], steps[k].op, session, steps[k].now).Some?
    ensures PromotedBy(ts[j], steps[j].op, session, steps[j].now).value
          < PromotedBy(ts[k], steps[k].op, session, steps[k].now).value
  {
    PromotionPasses(ts[j], steps[j].op, session, steps[j].now);
    var p := PromotedBy(ts[j], steps[j].op, session, steps[j].now).value;
    RunIsLawful(ts, steps);
    PassedStaysPassed(ts, j + 1, k, session, p);
    PromotionPasses(ts[k], steps[k].op, session, steps[k].now);
  }

  lemma {:induction false} PendingOnlyLeaves(t: Table, u: Table, session: nat)
    requires |u| == |t|
    requires forall i :: 0 <= i < |t|
               ==> u[i].session == t[i].session && (u[i].status == Pending ==> t[i].status == Pending)
    ensures CountIn(u, session, {Pending}) <= CountIn(t, session, {Pending})
    ensures forall q :: 0 <= q < |t| && InSession(t[q], session, {Pending}) && !InSession(u[q], session, {Pending})
              ==> CountIn(u, session, {Pending}) < CountIn(t, session, {Pending})
  {
    if t != [] {
      PendingOnlyLeaves(t[..|t| - 1], u[..|u| - 1], session);
    }
  }

  /** No step puts a task into the queue that was not there. */
  lemma PendingWasPending(t: Table, op: Op, now: int)
    ensures |t| <= |Apply(t, op, now)|
    ensures forall i :: 0 <= i < |t| ==>
              var u := Apply(t, op, now);
              u[i].session == t[i].session && (u[i].status == Pending ==> t[i].status == Pending)
  {
    StepTableOk(t, op, now);
    var u := Apply(t, op, now);
    forall i | 0 <= i < |t| ensures RowLaws(t[i], u[i], HandOf(op) == Some(i)) {
      assert RowOk(t[i], u[i], HandOf(op) == Some(i));
    }
  }

  /** Every promotion shortens its session's queue. */
  lemma PromotionShortensQueue(t: Table, op: Op, session: nat, now: int)
    requires PromotedBy(t, op, session, now).Some?
    ensures CountIn(Apply(t, op, now), session, {Pending}) < CountIn(t, session, {Pending})
  {
    PromotionPasses(t, op, session, now);
    PendingWasPending(t, op, now);
    PendingOnlyLeaves(t, Apply(t, op, now), session);
  }
}
