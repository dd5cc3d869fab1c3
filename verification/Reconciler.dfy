/**
 The periodic reconciler. Pass A compares the newest reconcilable task of every session with what
 the gateway reports; Pass B promotes one queued task in every session that has nothing at work.
 The specification of Pass A is a table over (gateway report, task status, completion mode); the
 method below follows the source's chain of early exits.
 */
module Reconciler {
  import opened Prelude
  import opened TaskRows
  import opened TaskStores
  import opened EventHandler

  const STALE_TIMEOUT_MS: int := 1_800_000

  datatype StateReply = Unreachable | NoState | Reports(state: GatewayState, overflow: bool)

  /**
   What one session's lookups and gateway calls answer during a pass: the state reply, the
   `updated_at` of a second state request if it came, and whether a resume request succeeds.
   */
  datatype Answer = Answer(sessionFound: bool, agentFound: bool, reply: StateReply, updatedAt: Option<int>,
                           resumeOk: bool)

  // ---- specification of Pass A ----

  function Decimal(n: nat): string {
    var digit := "0123456789"[n % 10];
    if n < 10 then [digit] else Decimal(n / 10) + [digit]
  }

  function StaleNote(ms: int): string
    requires ms >= 0
  {
    "Session stale (no activity for " + Decimal(ms / 60000)
        + " min) \U{2014} likely lost after restart. Start a new task."
  }

  function Age(r: Task, now: int): int {
    now - (if r.startedAt.Some? then r.startedAt.value else r.createdAt)
  }

  /** A running task older than the timeout whose gateway session has been silent for longer than it. */
  predicate Stale(r: Task, g: Answer, now: int) {
    && Age(r, now) > STALE_TIMEOUT_MS
    && g.updatedAt.Some? && now - g.updatedAt.value > STALE_TIMEOUT_MS
  }

  /** The task status an active gateway state stands for; `busy` is not distinguished from `running`. */
  function ActiveTarget(s: GatewayState): Option<Status> {
    match s
    case GRunning => Some(Running)
    case GBusy => Some(Running)
    case GWaitingInput => Some(WaitingInput)
    case GPendingApproval => Some(PendingApproval)
    case _ => None
  }

  function ActiveSync(r: Task, g: Answer, target: Status, now: int): Option<Write>
    requires g.reply.Reports?
  {
    if r.status in {Interrupted, Error} then Some(Write(target, Clear, None))
    else if r.status == Running && g.reply.state == GRunning && Stale(r, g, now) then
      Some(Write(Error, Stamp(now), Some(StaleNote(now - g.updatedAt.value))))
    else if r.status != target then Some(Write(target, Keep, None))
    else None
  }

  /** What Pass A writes to a picked row. */
  function Sync(r: Task, g: Answer, now: int): Option<Write> {
    if !g.sessionFound || !g.agentFound then None
    else match g.reply
      case Unreachable => if r.status in {Running, WaitingInput} then Some(Write(Interrupted, Stamp(now), None))
          else None
      case NoState => None
      case Reports(state, overflow) =>
        match state
        case GCompleted =>
          if r.mode == Auto then Some(Write(Completed, Stamp(now), None))
          else if r.status == WaitingInput then None else Some(Write(WaitingInput, Clear, None))
        case GInterrupted =>
          if r.mode == Auto && g.resumeOk then Some(Write(Running, Clear, None))
          else if r.status == Interrupted then None else Some(Write(Interrupted, Stamp(now), None))
        case GError =>
          if r.status == Error then None
          else if overflow then Some(Write(WaitingInput, Clear, None))
          else Some(Write(Error, Stamp(now), None))
        case GOther => None
        case _ => ActiveSync(r, g, ActiveTarget(state).value, now)
  }

  function Synced(r: Task, g: Answer, now: int): Task {
    match Sync(r, g, now)
    case None => r
    case Some(w) => Overwritten(r, w)
  }

  /** Row i is the one Pass A picks for its session: newest among the reconcilable ones. */
  predicate Picked(t: Table, i: nat) {
    && i < |t| && t[i].status in RECONCILABLE
    && forall j :: i < j < |t| && t[j].session == t[i].session ==> t[j].status !in RECONCILABLE
  }

  function PassA(t: Table, g: nat -> Answer, now: int): (u: Table)
    ensures |u| == |t|
    ensures forall i :: 0 <= i < |t| ==> u[i] == if Picked(t, i) then Synced(t[i], g(t[i].session), now) else t[i]
  {
    seq(|t|, i requires 0 <= i < |t| => if Picked(t, i) then Synced(t[i], g(t[i].session), now) else t[i])
  }

  // ---- specification of Pass B ----

  /** Row i leaves the queue in Pass B: lowest pending task of a session with nothing at work. */
  predicate DueForPromotion(t: Table, i: nat) {
    && i < |t| && LowestPending(t, t[i].session) == Some(i)
    && !HasWorking(t, t[i].session)
  }

  function PassB(t: Table, d: nat -> Delivery, now: int): (u: Table)
    ensures |u| == |t|
    ensures forall i :: 0 <= i < |t|
              ==> u[i] == if DueForPromotion(t, i) then PromotedRow(t[i], d(t[i].session), now) else t[i]
  {
    seq(|t|, i requires 0 <= i < |t| => if DueForPromotion(t, i) then PromotedRow(t[i], d(t[i].session), now) else t[i])
  }

  // ---- the queries ----

  /** The rows of `SELECT DISTINCT ON (session_id)`, by id. */
  method QueryTasksToReconcile(t: Table) returns (ids: seq<nat>)
    ensures forall i: nat :: i in ids <==> Picked(t, i)
    ensures forall a, b :: 0 <= a < b < |ids| ==> ids[a] != ids[b]
  {
    ids := [];
    for k := 0 to |t|
      invariant forall i: nat :: i in ids <==> i < k && Picked(t, i)
      invariant forall a, b :: 0 <= a < b < |ids| ==> ids[a] != ids[b]
    {
      if Picked(t, k) {
        ids := ids + [k];
      }
    }
  }

  predicate Promotable(t: Table, session: nat) {
    && (exists i :: 0 <= i < |t| && InSession(t[i], session, {Pending}))
    && !HasWorking(t, session)
  }

  /** `SELECT DISTINCT session_id`: sessions with a pending task and none at work. */
  method QueryPromotableSessions(t: Table) returns (sessions: seq<nat>)
    ensures forall s: nat :: s in sessions <==> Promotable(t, s)
    ensures forall a, b :: 0 <= a < b < |sessions| ==> sessions[a] != sessions[b]
  {
    sessions := [];
    for k := 0 to |t|
      invariant forall s: nat :: s in sessions
                  <==> (exists i :: 0 <= i < k && InSession(t[i], s, {Pending})) && !HasWorking(t, s)
      invariant forall a, b :: 0 <= a < b < |sessions| ==> sessions[a] != sessions[b]
    {
      var s := t[k].session;
      if InSession(t[k], s, {Pending}) && s !in sessions && !HasWorking(t, s) {
        sessions := sessions + [s];
      }
    }
  }

  // ---- the passes ----

  /** The body of Pass A's loop; `task` is the row as the query returned it. */
  method ReconcileTask(store: TaskStore, id: nat, task: Task, g: Answer, now: int)
    requires id < |store.rows| && store.rows[id] == task
    requires task.status in RECONCILABLE
    modifies store
    ensures store.rows == SetRow(old(store.rows), id, Synced(task, g, now))
  {
    if !g.sessionFound || !g.agentFound {
      return;
    }
    if g.reply.Unreachable? {
      if task.status == Running || task.status == WaitingInput {
        store.Overwrite(id, Write(Interrupted, Stamp(now), None));
      }
      return;
    }
    if g.reply.NoState? {
      return;
    }
    var state := g.reply.state;
    var active := ActiveTarget(state);
    if task.status == Interrupted && active.Some? {
      store.Overwrite(id, Write(active.value, Clear, None));
      return;
    }
    if task.status == Running && state == GRunning {
      if Age(task, now) > STALE_TIMEOUT_MS && g.updatedAt.Some? {
        var silentMs := now - g.updatedAt.value;
        if silentMs > STALE_TIMEOUT_MS {
          store.Overwrite(id, Write(Error, Stamp(now), Some(StaleNote(silentMs))));
          return;
        }
      }
    }
    if task.status == Error && active.Some? {
      store.Overwrite(id, Write(active.value, Clear, None));
      return;
    }
    if active.Some? && task.status != active.value {
      store.Overwrite(id, Write(active.value, Keep, None));
      return;
    }
    ReconcileEnded(store, id, task, g, now);
  }

  /** The second half of the loop body: gateway states that end a session. */
  method ReconcileEnded(store: TaskStore, id: nat, task: Task, g: Answer, now: int)
    requires id < |store.rows| && store.rows[id] == task
    requires task.status in RECONCILABLE
    requires g.sessionFound && g.agentFound && g.reply.Reports?
    requires var active := ActiveTarget(g.reply.state);
             active.Some? ==> task.status == active.value && Sync(task, g, now) == None
    modifies store
    ensures store.rows == SetRow(old(store.rows), id, Synced(task, g, now))
  {
    var state := g.reply.state;
    if state != GCompleted && state != GError && state != GInterrupted {
      return;
    }
    if state == GCompleted && task.mode == Manual {
      if task.status != WaitingInput {
        store.Overwrite(id, Write(WaitingInput, Clear, None));
      }
      return;
    }
    if state == GInterrupted && task.mode == Manual {
      if task.status != Interrupted {
        store.Overwrite(id, Write(Interrupted, Stamp(now), None));
      }
      return;
    }
    if state == GInterrupted && task.mode == Auto {
      if g.resumeOk {
        store.Overwrite(id, Write(Running, Clear, None));
      } else if task.status != Interrupted {
        store.Overwrite(id, Write(Interrupted, Stamp(now), None));
      }
      return;
    }
    var ended := match state case GCompleted => Completed case GError => Error case _ => Interrupted;
    if task.status == ended {
      return;
    }
    if ended == Error && g.reply.overflow {
      store.Overwrite(id, Write(WaitingInput, Clear, None));
      return;
    }
    store.Overwrite(id, Write(ended, Stamp(now), None));
  }

  method ReconcileStatuses(store: TaskStore, g: nat -> Answer, now: int)
    modifies store
    ensures store.rows == PassA(old(store.rows), g, now)
  {
    ghost var t := store.rows;
    var snapshot := store.rows;
    var ids := QueryTasksToReconcile(snapshot);
    for k := 0 to |ids|
      invariant |store.rows| == |t|
      invariant forall i :: 0 <= i < |t| ==>
        store.rows[i] == if i in ids[..k] then Synced(t[i], g(t[i].session), now) else t[i]
    {
      var id := ids[k];
      assert Picked(t, id);
      assert id !in ids[..k];
      ReconcileTask(store, id, snapshot[id], g(snapshot[id].session), now);
      assert ids[..k + 1] == ids[..k] + [id];
    }
    assert ids[..|ids|] == ids;
    assert store.rows == PassA(t, g, now);
  }

  /** Promotion looks at and changes one session only. */
  lemma {:induction false} LowestPendingAgrees(t: Table, u: Table, session: nat, k: nat := 0)
    requires |u| == |t| && k <= |t|
    requires forall i :: 0 <= i < |t| && (t[i].session == session || u[i].session == session) ==> u[i] == t[i]
    ensures LowestPending(u, session, k) == LowestPending(t, session, k)
    decreases |t| - k
  {
    if k < |t| && !InSession(t[k], session, {Pending}) {
      LowestPendingAgrees(t, u, session, k + 1);
    }
  }

  /** Pass B restricted to the sessions in `done`. */
  ghost function PassBIn(t: Table, done: set<nat>, d: nat -> Delivery, now: int): (u: Table)
    ensures |u| == |t|
    ensures forall i :: 0 <= i < |t| ==>
      u[i] == if t[i].session in done && DueForPromotion(t, i) then PromotedRow(t[i], d(t[i].session), now) else t[i]
  {
    seq(|t|, i requires 0 <= i < |t| =>
      if t[i].session in done && DueForPromotion(t, i) then PromotedRow(t[i], d(t[i].session), now) else t[i])
  }

  lemma PassBStep(t: Table, done: set<nat>, session: nat, d: nat -> Delivery, now: int)
    requires session !in done && Promotable(t, session)
    ensures Promoted(PassBIn(t, done, d, now), session, d(session), now) == PassBIn(t, done + {session}, d, now)
  {
    var u := PassBIn(t, done, d, now);
    LowestPendingAgrees(t, u, session);
    var p := LowestPending(t, session);
    assert p.Some? && DueForPromotion(t, p.value);
    forall i | 0 <= i < |t|
      ensures Promoted(u, session, d(session), now)[i] == PassBIn(t, done + {session}, d, now)[i]
    {
      assert i != p.value && t[i].session == session ==> !DueForPromotion(t, i);
    }
  }

  method PromoteQueued(store: TaskStore, d: nat -> Delivery, now: int)
    modifies store
    ensures store.rows == PassB(old(store.rows), d, now)
  {
    ghost var t := store.rows;
    var sessions := QueryPromotableSessions(store.rows);
    ghost var done: set<nat> := {};
    assert PassBIn(t, {}, d, now) == t;
    for k := 0 to |sessions|
      invariant forall s: nat :: s in done <==> s in sessions[..k]
      invariant store.rows == PassBIn(t, done, d, now)
    {
      var s := sessions[k];
      PassBStep(t, done, s, d, now);
      var _ := PromoteNext(store, s, d(s), now);
      done := done + {s};
      assert sessions[..k + 1] == sessions[..k] + [s];
    }
    PassBComplete(t, done, d, now);
  }

  lemma PassBComplete(t: Table, done: set<nat>, d: nat -> Delivery, now: int)
    requires forall s: nat :: s in done <==> Promotable(t, s)
    ensures PassBIn(t, done, d, now) == PassB(t, d, now)
  {
    forall i | 0 <= i < |t| && DueForPromotion(t, i)
      ensures t[i].session in done
    {
      assert Promotable(t, t[i].session);
    }
  }

  /** One tick of the reconciler. */
  method ReconcileOnce(store: TaskStore, g: nat -> Answer, d: nat -> Delivery, now: int)
    modifies store
    ensures store.rows == PassB(PassA(old(store.rows), g, now), d, now)
  {
    ReconcileStatuses(store, g, now);
    PromoteQueued(store, d, now);
  }
}
