/**
 The task table. A table is the sequence of its rows in creation order; a row's position is its
 id. Each function below is what one SQL statement does to a row or to the table.
 */
module TaskRows {
  import opened Prelude

  datatype Status =
    | Pending | Running | Busy | WaitingInput | PendingApproval
    | Approved | Completed | Error | Interrupted | Cancelled

  datatype Mode = Auto | Manual

  datatype Decision = ApprovedByHuman | OverriddenByHuman | DeclinedByHuman

  datatype Task = Task(
    session: nat,
    prompt: string,
    mode: Mode,
    fromSchedule: Option<nat>,
    createdAt: int,
    status: Status,
    startedAt: Option<int>,
    endedAt: Option<int>,
    preview: Option<string>,
    output: Option<string>,
    seqStart: Option<int>,
    modelVersion: Option<string>,
    decision: Option<Decision>,
    toolErrors: nat,
    llmErrors: nat)

  type Table = seq<Task>

  // ---- the status lists the source tests against ----

  const TERMINAL: set<Status> := {Completed, Error, Interrupted, Cancelled}
  const ACTIVE: set<Status> := {Running, Busy, WaitingInput, PendingApproval}
  const WORKING: set<Status> := {Running, Busy, WaitingInput}
  const RECONCILABLE: set<Status> := {Running, Busy, WaitingInput, Interrupted, Error}

  /** The statuses a row may carry only together with an end time. */
  const ENDED: set<Status> := {Completed, Error, Interrupted, Cancelled, Approved}

  predicate EndedOk(r: Task) {
    r.endedAt.Some? <==> r.status in ENDED
  }

  // ---- single-row statements ----

  /** The row an INSERT creates. */
  function NewRow(session: nat, prompt: string, status: Status, mode: Mode, fromSchedule: Option<nat>, now: int): Task {
    Task(session, prompt, mode, fromSchedule, now, status,
         if status == Running then Some(now) else None,
         None, None, None, None, None, None, 0, 0)
  }

  /**
   The guarded status write: a late `running` or `waiting_input` reaches a terminal row only if
   that row is `error` or `completed`, and then it clears the end time.
   */
  function GuardedStatus(r: Task, status: Status, ended: Option<int>): Task {
    if r.status in TERMINAL && status in {Running, WaitingInput} then
      if r.status in {Error, Completed} then r.(status := status, endedAt := None) else r
    else
      r.(status := status, endedAt := ended)
  }

  /** The preview is frozen once a task is completed, interrupted or cancelled. */
  function GuardedPreview(r: Task, text: string): Task {
    if r.status in TERMINAL - {Error} then r else r.(preview := Some(Truncate(text, 200)))
  }

  /** An unguarded UPDATE: what it does to the end time is its own choice. */
  datatype EndedAction = Keep | Clear | Stamp(at: int)

  datatype Write = Write(status: Status, ended: EndedAction, note: Option<string>)

  function Overwritten(r: Task, w: Write): Task {
    r.(status := w.status,
       endedAt := match w.ended case Keep => r.endedAt case Clear => None case Stamp(at) => Some(at),
       preview := if w.note.Some? then w.note else r.preview)
  }

  // ---- table operations ----

  function SetRow(t: Table, id: nat, r: Task): (u: Table)
    ensures |u| == |t|
    ensures forall i :: 0 <= i < |t| ==> u[i] == if i == id then r else t[i]
  {
    if id < |t| then t[id := r] else t
  }

  predicate InSession(r: Task, session: nat, among: set<Status>) {
    r.session == session && r.status in among
  }

  const ANY: set<Status> := TERMINAL + ACTIVE + {Pending, Approved}

  lemma AnyIsEvery(s: Status)
    ensures s in ANY
  {
    assert s.Pending? || s.Approved? || s.Completed? || s.Error? || s.Interrupted? || s.Cancelled?
        || s.Running? || s.Busy? || s.WaitingInput? || s.PendingApproval?;
  }

  /** `ORDER BY created_at DESC LIMIT 1` over the rows of a session whose status is in `among`. */
  function Latest(t: Table, session: nat, among: set<Status>): (r: Option<nat>)
    ensures r.Some? ==> r.value < |t| && InSession(t[r.value], session, among)
    ensures forall j :: 0 <= j < |t| && (r.Some? ==> r.value < j) ==> !InSession(t[j], session, among)
  {
    if t == [] then None
    else if InSession(t[|t| - 1], session, among) then Some(|t| - 1)
    else Latest(t[..|t| - 1], session, among)
  }

  /** `ORDER BY id ASC LIMIT 1` over the pending rows of a session, from position k on. */
  function LowestPending(t: Table, session: nat, k: nat := 0): (r: Option<nat>)
    requires k <= |t|
    ensures r.Some? ==> k <= r.value < |t| && InSession(t[r.value], session, {Pending})
    ensures forall j :: k <= j < |t| && (r.Some? ==> j < r.value) ==> !InSession(t[j], session, {Pending})
    decreases |t| - k
  {
    if k == |t| then None
    else if InSession(t[k], session, {Pending}) then Some(k)
    else LowestPending(t, session, k + 1)
  }

  predicate HasWorking(t: Table, session: nat) {
    exists i :: 0 <= i < |t| && InSession(t[i], session, WORKING)
  }

  function CountIn(t: Table, session: nat, among: set<Status>): nat {
    if t == [] then 0
    else CountIn(t[..|t| - 1], session, among) + if InSession(t[|t| - 1], session, among) then 1 else 0
  }

  /** Changing one row moves the count of a session by exactly what that row contributes. */
  lemma {:induction false} CountSetRow(t: Table, id: nat, r: Task, session: nat, among: set<Status>)
    requires id < |t|
    ensures CountIn(SetRow(t, id, r), session, among) + (if InSession(t[id], session, among) then 1 else 0)
         == CountIn(t, session, among) + (if InSession(r, session, among) then 1 else 0)
  {
    var u := SetRow(t, id, r);
    if id == |t| - 1 {
      assert u[..|u| - 1] == t[..|t| - 1];
    } else {
      CountSetRow(t[..|t| - 1], id, r, session, among);
      assert u[..|u| - 1] == SetRow(t[..|t| - 1], id, r);
    }
  }

  lemma {:induction false} CountPositive(t: Table, id: nat, session: nat, among: set<Status>)
    requires id < |t| && InSession(t[id], session, among)
    ensures CountIn(t, session, among) > 0
  {
    if id < |t| - 1 {
      CountPositive(t[..|t| - 1], id, session, among);
    }
  }
}
