/**
 The task table at the grain of single reads and single SQL statements. Event handlers are written out
 as programs over their row and may overlap freely with each other and with every other statement: a
 write may rest on a row read any time earlier. All row laws survive; the end-time invariant survives
 except for one statement, Pass A's state sync, and exactly when it reaches a task that has meanwhile
 ended.
 */
module Interleaving {
  import opened Prelude
  import opened TaskRows
  import opened TaskStores
  import opened EventHandler
  import opened Reconciler
  import opened ControlPlane

  datatype RowStatement =
    | Blind(status: Status, ended: Option<int>)
    | LateSync(seen: Task, g: Answer)
    | CompleteRow
    | DecideRow(decision: Decision)
    | CancelRow
    | ReopenRow
    | SetSeqStart(seqNo: int)
    | SetVersion(version: string)
    | SetDecision(detected: Decision)
    | SetPreview(text: string)
    | SetOutput(text: string)
    | CountToolError
    | CountLlmError

  datatype Statement =
    | Insert(session: nat, prompt: string, status: Status, mode: Mode, fromSchedule: Option<nat>)
    | TakePending(session: nat)
    | OnRow(id: nat, st: RowStatement)

  /**
   What can be issued against a row of the given completion mode, the one thing about a row that no
   statement changes. `Blind` is either UPDATE of the guarded status write, whose guard was evaluated
   on an earlier row; `LateSync` carries the row its decision was made from.
   */
  ghost predicate IssuedTo(mode: Mode, st: RowStatement, now: int) {
    match st
    case Blind(_, _) => HandlerStatement(mode, st)
    case LateSync(seen, g) => seen.status in RECONCILABLE && seen.mode == mode && Sync(seen, g, now).Some?
    case _ => true
  }

  /** What an event handler or a delivery can issue. */
  predicate HandlerStatement(mode: Mode, st: RowStatement) {
    match st
    case Blind(status, ended) =>
      && status in {Running, WaitingInput, PendingApproval, Completed, Error, Interrupted}
      && (ended.Some? <==> status in ENDED) && (status == Completed ==> mode == Auto)
    case LateSync(_, _) => false
    case _ => true
  }

  ghost predicate Issued(t: Table, st: Statement, now: int) {
    match st
    case Insert(_, _, status, _, _) => status in {Pending, Running}
    case TakePending(_) => true
    case OnRow(id, rs) => id < |t| && IssuedTo(t[id].mode, rs, now)
  }

  /** The row after one UPDATE; the conditions are those of its WHERE clause. */
  function RowAfter(r: Task, st: RowStatement, now: int): Task {
    match st
    case Blind(status, ended) => r.(status := status, endedAt := ended)
    case LateSync(seen, g) => (match Sync(seen, g, now) case None => r case Some(w) => Overwritten(r, w))
    case CompleteRow => if r.status in WORKING + {Interrupted} then r.(status := Completed, endedAt := Some(now)) else r
    case DecideRow(decision) => if r.status == PendingApproval then Decided(r, decision, now) else r
    case CancelRow => if r.status == Pending then r.(status := Cancelled, endedAt := Some(now)) else r
    case ReopenRow =>
      if r.status in TERMINAL
      then r.(status := Running, startedAt := if r.startedAt.Some? then r.startedAt else Some(now), endedAt := None)
      else r
    case SetSeqStart(seqNo) => WithSeqStart(r, seqNo)
    case SetVersion(version) => WithModelVersion(r, version)
    case SetDecision(detected) => WithDecision(r, detected)
    case SetPreview(text) => r.(preview := Some(text))
    case SetOutput(text) => r.(output := Some(text))
    case CountToolError => r.(toolErrors := r.toolErrors + 1)
    case CountLlmError => r.(llmErrors := r.llmErrors + 1)
  }

  function Exec(t: Table, st: Statement, now: int): Table {
    match st
    case Insert(session, prompt, status, mode, schedule) => t + [NewRow(session, prompt, status, mode, schedule, now)]
    case TakePending(session) =>
      var id := LowestPending(t, session);
      if id.None? then t else SetRow(t, id.value, t[id.value].(status := Running, startedAt := Some(now)))
    case OnRow(id, rs) => if id < |t| then SetRow(t, id, RowAfter(t[id], rs, now)) else t
  }

  // ---- handlers as programs over one row ----

  /** What a handler still has to do to its row: issue a statement, or read the row and choose from what it shows. */
  datatype Program =
    | Done
    | Issue(st: RowStatement, rest: Program)
    | Look(choose: Task -> nat, ways: seq<Program>)

  /** One read, one decision. */
  function Branch(test: Task -> bool, yes: Program, no: Program): Program {
    Look((current: Task) => if test(current) then 0 else 1, [yes, no])
  }

  /** The store's guarded status write: a read, then one of two UPDATEs or none. */
  function WriteStatus(status: Status, ended: Option<int>, rest: Program): Program {
    var write := Issue(Blind(status, ended), rest);
    if status !in {Running, WaitingInput} then Look((current: Task) => 0, [write])
    else
      Look((current: Task) =>
             if current.status !in TERMINAL then 0 else if current.status in {Error, TaskRows.Completed} then 1 else 2,
           [write, Issue(Blind(status, None), rest), rest])
  }

  function WritePreview(text: string, rest: Program): Program {
    Branch((current: Task) => current.status in TERMINAL - {Error}, rest, Issue(SetPreview(Truncate(text, 200)), rest))
  }

  function WriteNoteIfBlank(text: string, rest: Program): Program {
    Branch((current: Task) => Blank(current.preview), WritePreview(Truncate(text, 200), rest), rest)
  }

  function ErrorProgram(info: ErrorInfo, seen: Task, now: int): Program {
    var tail := " (" + Truncate(info.text, 100) + ")";
    if info.lost && seen.status == Running
        then WriteNoteIfBlank("Recovering: session data lost, retrying fresh...", Done)
    else if info.lost then
      WriteStatus(Error, Some(now),
                  WritePreview(Truncate("Session data lost \U{2014} please start a new task." + tail, 200), Done))
    else if info.recoverable then WriteNoteIfBlank("Recovering" + info.retryInfo + ": " + info.text, Done)
    else if info.overflow && seen.status == Running then WriteNoteIfBlank("Compacting: " + info.text, Done)
    else if info.overflow && seen.status in {Error, Interrupted} then
      WriteStatus(WaitingInput, None,
        WritePreview(Truncate("Session context full \U{2014} please start a new session to continue." + tail, 200),
                     Done))
    else if seen.status == Running then
      var note := WriteNoteIfBlank("Recovering: " + info.text, Done);
      if info.transient then Issue(CountLlmError, note) else note
    else WriteStatus(Error, Some(now), WriteNoteIfBlank("Error: " + info.text, Done))
  }

  /** The handler of an event, in the source's order of statements; `seen` is the row as first read. */
  function HandlerProgram(ev: Event, seen: Task, now: int): Program {
    match ev
    case SessionStarted(model) =>
      var version := if seen.modelVersion.None? then Issue(SetVersion(model), Done) else Done;
      if seen.status in {Error, Interrupted} then WriteStatus(Running, None, version) else version
    case StateChanged(to) =>
      if to in {GRunning, GBusy} && seen.status == TaskRows.Completed then
        var reopen := WriteStatus(Running, None, Done);
        if seen.mode == Auto && seen.decision.None? then Issue(SetDecision(OverriddenByHuman), reopen) else reopen
      else Done
    case UserMessage(seqNo, detected) =>
      var decide := if seen.decision.None? && detected.Some? then Issue(SetDecision(detected.value), Done) else Done;
      var resume := if seen.status in {WaitingInput, Error, Interrupted} then WriteStatus(Running, None, decide)
          else decide;
      if seen.seqStart.None? then Issue(SetSeqStart(seqNo), resume) else resume
    case AgentMessage(content) =>
      var run := if seen.status !in {Running, TaskRows.Completed, Cancelled} then WriteStatus(Running, None, Done)
          else Done;
      WritePreview(Truncate(content, 200), Issue(SetOutput(content), run))
    case WaitingForInput =>
      WriteStatus(if AwaitsApproval(seen) then PendingApproval else WaitingInput, None, Done)
    case SessionCompleted =>
      if seen.mode == Auto then WriteStatus(TaskRows.Completed, Some(now), Done)
      else if seen.status in {PendingApproval, Approved} then Done
      else WriteStatus(WaitingInput, None, Done)
    case SessionError(info) => ErrorProgram(info, seen, now)
    case SessionInterrupted(partial) =>
      WriteStatus(Interrupted, Some(now),
        Branch((current: Task) => Blank(current.preview) && partial != "", WritePreview(Truncate(partial, 200), Done),
               Done))
    case ToolFinished(failed) => if failed then Issue(CountToolError, Done) else Done
    case OtherEvent => Done
  }

  /** What promotion does to the task it took from the queue. */
  function DeliveryProgram(d: Delivery, now: int): Program {
    match DeliveryError(d)
    case None => Done
    case Some(text) => WriteStatus(Error, Some(now), WritePreview(text, Done))
  }

  /** A program run to its end with nothing in between. */
  function RunAlone(p: Program, row: Task, now: int): Task
    decreases p
  {
    match p
    case Done => row
    case Issue(st, rest) => RunAlone(rest, RowAfter(row, st, now), now)
    case Look(choose, ways) => if choose(row) < |ways| then RunAlone(ways[choose(row)], row, now) else row
  }

  lemma WriteStatusAlone(status: Status, ended: Option<int>, rest: Program, row: Task, now: int)
    ensures RunAlone(WriteStatus(status, ended, rest), row, now)
        == RunAlone(rest, GuardedStatus(row, status, ended), now)
  {
  }

  lemma WritePreviewAlone(text: string, rest: Program, row: Task, now: int)
    ensures RunAlone(WritePreview(text, rest), row, now) == RunAlone(rest, GuardedPreview(row, text), now)
  {
  }

  lemma WriteNoteAlone(text: string, rest: Program, row: Task, now: int)
    ensures RunAlone(WriteNoteIfBlank(text, rest), row, now)
         == RunAlone(rest, if Blank(row.preview) then GuardedPreview(row, Truncate(text, 200)) else row, now)
  {
    WritePreviewAlone(Truncate(text, 200), rest, row, now);
  }

  lemma NoteRefines(info: ErrorInfo, r: Task, now: int)
    requires r.status == Running || (info.recoverable && !info.lost)
    ensures RunAlone(ErrorProgram(info, r, now), r, now) == AfterEvent(SessionError(info), r, now)
  {
    var row := if CountsLlmError(SessionError(info), r) then r.(llmErrors := r.llmErrors + 1) else r;
    WriteNoteAlone(ErrorNote(info, r.status).0, Done, row, now);
  }

  lemma OverwritingRefines(info: ErrorInfo, r: Task, now: int)
    requires r.status != Running
        && (info.lost || (!info.recoverable && info.overflow && r.status in {Error, Interrupted}))
    ensures RunAlone(ErrorProgram(info, r, now), r, now) == AfterEvent(SessionError(info), r, now)
  {
    var text := Truncate(ErrorNote(info, r.status).0, 200);
    var status := if info.lost then Error else WaitingInput;
    var ended := if info.lost then Some(now) else None;
    WriteStatusAlone(status, ended, WritePreview(text, Done), r, now);
    WritePreviewAlone(text, Done, GuardedStatus(r, status, ended), now);
  }

  lemma FailureRefines(info: ErrorInfo, r: Task, now: int)
    requires r.status != Running && !info.lost && !info.recoverable
        && !(info.overflow && r.status in {Error, Interrupted})
    ensures RunAlone(ErrorProgram(info, r, now), r, now) == AfterEvent(SessionError(info), r, now)
  {
    var text := "Error: " + info.text;
    WriteStatusAlone(Error, Some(now), WriteNoteIfBlank(text, Done), r, now);
    WriteNoteAlone(text, Done, GuardedStatus(r, Error, Some(now)), now);
  }

  lemma OutputRefines(content: string, r: Task, now: int)
    ensures RunAlone(HandlerProgram(AgentMessage(content), r, now), r, now) == AfterEvent(AgentMessage(content), r, now)
  {
    var run := if r.status !in {Running, TaskRows.Completed, Cancelled} then WriteStatus(Running, None, Done) else Done;
    var text, store := Truncate(content, 200), Issue(SetOutput(content), run);
    var shown := GuardedPreview(r, text);
    assert HandlerProgram(AgentMessage(content), r, now) == WritePreview(text, store);
    WritePreviewAlone(text, store, r, now);
    var row := shown.(output := Some(content));
    assert RunAlone(store, shown, now) == RunAlone(run, row, now);
    WriteStatusAlone(Running, None, Done, row, now);
    AnyIsEvery(r.status);
  }

  lemma InputRefines(seqNo: int, detected: Option<Decision>, r: Task, now: int)
    ensures RunAlone(HandlerProgram(UserMessage(seqNo, detected), r, now), r, now)
        == AfterEvent(UserMessage(seqNo, detected), r, now)
  {
    var decide := if r.decision.None? && detected.Some? then Issue(SetDecision(detected.value), Done) else Done;
    WriteStatusAlone(Running, None, decide, WithSeqStart(r, seqNo), now);
  }

  lemma StateRefines(ev: Event, r: Task, now: int)
    requires ev.SessionStarted? || ev.StateChanged?
    ensures RunAlone(HandlerProgram(ev, r, now), r, now) == AfterEvent(ev, r, now)
  {
    match ev {
      case SessionStarted(model) =>
        WriteStatusAlone(Running, None, if r.modelVersion.None? then Issue(SetVersion(model), Done) else Done, r, now);
      case StateChanged(to) =>
        WriteStatusAlone(Running, None, Done, r, now);
        WriteStatusAlone(Running, None, Done, WithDecision(r, OverriddenByHuman), now);
    }
  }

  lemma EndingRefines(ev: Event, r: Task, now: int)
    requires ev.WaitingForInput? || ev.SessionCompleted? || ev.SessionInterrupted?
    ensures RunAlone(HandlerProgram(ev, r, now), r, now) == AfterEvent(ev, r, now)
  {
    match ev {
      case WaitingForInput =>
        WriteStatusAlone(if AwaitsApproval(r) then PendingApproval else WaitingInput, None, Done, r, now);
      case SessionCompleted =>
        WriteStatusAlone(TaskRows.Completed, Some(now), Done, r, now);
        WriteStatusAlone(WaitingInput, None, Done, r, now);
      case SessionInterrupted(partial) =>
        var note := Branch((current: Task) => Blank(current.preview) && partial != "",
                           WritePreview(Truncate(partial, 200), Done), Done);
        WriteStatusAlone(Interrupted, Some(now), note, r, now);
        WritePreviewAlone(Truncate(partial, 200), Done, GuardedStatus(r, Interrupted, Some(now)), now);
    }
  }

  /** Alone, with the row it first read still current, a handler does to the row what the event does in one go. */
  lemma HandlerRefines(ev: Event, r: Task, now: int)
    ensures RunAlone(HandlerProgram(ev, r, now), r, now) == AfterEvent(ev, r, now)
  {
    match ev {
      case SessionError(info) =>
        if r.status == Running || (info.recoverable && !info.lost) {
          NoteRefines(info, r, now);
        } else if info.lost || (info.overflow && r.status in {Error, Interrupted}) {
          OverwritingRefines(info, r, now);
        } else {
          FailureRefines(info, r, now);
        }
      case AgentMessage(content) => OutputRefines(content, r, now);
      case UserMessage(seqNo, detected) => InputRefines(seqNo, detected, r, now);
      case SessionStarted(_) => StateRefines(ev, r, now);
      case StateChanged(_) => StateRefines(ev, r, now);
      case ToolFinished(failed) => assert RunAlone(HandlerProgram(ev, r, now), r, now) == AfterEvent(ev, r, now);
      case OtherEvent => assert RunAlone(HandlerProgram(ev, r, now), r, now) == r;
      case _ => EndingRefines(ev, r, now);
    }
  }

  /** So does promotion: the task leaves the queue, and an undelivered one is then marked and annotated. */
  lemma PromotionIsStatements(t: Table, session: nat, d: Delivery, now: int)
    ensures var u := Exec(t, TakePending(session), now);
            var p := LowestPending(t, session);
            Promoted(t, session, d, now) ==
              if p.None? then u else SetRow(u, p.value, RunAlone(DeliveryProgram(d, now), u[p.value], now))
  {
    var p := LowestPending(t, session);
    if p.Some? && DeliveryError(d).Some? {
      var row := Exec(t, TakePending(session), now)[p.value];
      WriteStatusAlone(Error, Some(now), WritePreview(DeliveryError(d).value, Done), row, now);
      WritePreviewAlone(DeliveryError(d).value, Done, GuardedStatus(row, Error, Some(now)), now);
    }
  }

  /** Whatever its reads may still show, the program issues only statements that fit the mode. */
  ghost predicate Safe(p: Program, mode: Mode)
    decreases p
  {
    match p
    case Done => true
    case Issue(st, rest) => HandlerStatement(mode, st) && Safe(rest, mode)
    case Look(_, ways) => forall k :: 0 <= k < |ways| ==> Safe(ways[k], mode)
  }

  lemma BranchIsSafe(test: Task -> bool, yes: Program, no: Program, mode: Mode)
    requires Safe(yes, mode) && Safe(no, mode)
    ensures Safe(Branch(test, yes, no), mode)
  {
  }

  lemma WriteStatusIsSafe(status: Status, ended: Option<int>, rest: Program, mode: Mode)
    requires HandlerStatement(mode, Blind(status, ended)) && Safe(rest, mode)
    ensures Safe(WriteStatus(status, ended, rest), mode)
  {
    assert status in {Running, WaitingInput} ==> HandlerStatement(mode, Blind(status, None));
  }

  lemma WriteNoteIsSafe(text: string, rest: Program, mode: Mode)
    requires Safe(rest, mode)
    ensures Safe(WritePreview(text, rest), mode) && Safe(WriteNoteIfBlank(text, rest), mode)
  {
    var issue, short := Issue(SetPreview(Truncate(text, 200)), rest), Truncate(text, 200);
    BranchIsSafe((current: Task) => current.status in TERMINAL - {Error}, rest, issue, mode);
    BranchIsSafe((current: Task) => current.status in TERMINAL - {Error}, rest,
                 Issue(SetPreview(Truncate(short, 200)), rest), mode);
    BranchIsSafe((current: Task) => Blank(current.preview), WritePreview(short, rest), rest, mode);
  }

  lemma DeliveryIsSafe(d: Delivery, mode: Mode, now: int)
    ensures Safe(DeliveryProgram(d, now), mode)
  {
    if DeliveryError(d).Some? {
      WriteNoteIsSafe(DeliveryError(d).value, Done, mode);
      WriteStatusIsSafe(Error, Some(now), WritePreview(DeliveryError(d).value, Done), mode);
    }
  }

  lemma ErrorIsSafe(info: ErrorInfo, seen: Task, now: int)
    ensures Safe(ErrorProgram(info, seen, now), seen.mode)
  {
    forall text ensures Safe(WritePreview(text, Done), seen.mode) && Safe(WriteNoteIfBlank(text, Done), seen.mode) {
      WriteNoteIsSafe(text, Done, seen.mode);
    }
    forall rest | Safe(rest, seen.mode)
      ensures Safe(WriteStatus(Error, Some(now), rest), seen.mode)
          && Safe(WriteStatus(WaitingInput, None, rest), seen.mode)
    {
      WriteStatusIsSafe(Error, Some(now), rest, seen.mode);
      WriteStatusIsSafe(WaitingInput, None, rest, seen.mode);
    }
  }

  /** However stale the rows it reads, a handler issues only statements that can be issued on its row. */
  lemma HandlerIsSafe(ev: Event, seen: Task, now: int)
    ensures Safe(HandlerProgram(ev, seen, now), seen.mode)
  {
    match ev {
      case SessionStarted(model) =>
        WriteStatusIsSafe(Running, None, if seen.modelVersion.None? then Issue(SetVersion(model), Done) else Done,
                          seen.mode);
      case StateChanged(_) => WriteStatusIsSafe(Running, None, Done, seen.mode);
      case UserMessage(_, detected) =>
        var decide := if seen.decision.None? && detected.Some? then Issue(SetDecision(detected.value), Done) else Done;
        WriteStatusIsSafe(Running, None, decide, seen.mode);
      case AgentMessage(content) =>
        WriteStatusIsSafe(Running, None, Done, seen.mode);
        var run := if seen.status !in {Running, TaskRows.Completed, Cancelled} then WriteStatus(Running, None, Done)
            else Done;
        WriteNoteIsSafe(Truncate(content, 200), Issue(SetOutput(content), run), seen.mode);
      case WaitingForInput =>
        WriteStatusIsSafe(if AwaitsApproval(seen) then PendingApproval else WaitingInput, None, Done, seen.mode);
      case SessionCompleted =>
        if seen.mode == Auto { WriteStatusIsSafe(TaskRows.Completed, Some(now), Done, seen.mode); }
        WriteStatusIsSafe(WaitingInput, None, Done, seen.mode);
      case SessionError(info) => ErrorIsSafe(info, seen, now);
      case SessionInterrupted(partial) =>
        var test := (current: Task) => Blank(current.preview) && partial != "";
        var note := Branch(test, WritePreview(Truncate(partial, 200), Done), Done);
        WriteNoteIsSafe(Truncate(partial, 200), Done, seen.mode);
        BranchIsSafe(test, WritePreview(Truncate(partial, 200), Done), Done, seen.mode);
        WriteStatusIsSafe(Interrupted, Some(now), note, seen.mode);
      case _ =>
    }
  }

  // ---- the operations are made of these statements ----

  /** A user's decision, cancellation and first half of a completion are one statement each, on the row as it is. */
  lemma UserOperationsAreStatements(t: Table, id: nat, decision: Decision, now: int)
    requires id < |t|
    ensures Apply(t, DecideByHand(id, decision), now) == Exec(t, OnRow(id, DecideRow(decision)), now)
    ensures Apply(t, CancelByHand(id), now) == Exec(t, OnRow(id, CancelRow), now)
    ensures Exec(t, OnRow(id, CompleteRow), now) ==
              if t[id].status in WORKING + {Interrupted}
              then SetRow(t, id, t[id].(status := TaskRows.Completed, endedAt := Some(now))) else t
  {
  }

  /** Completing by hand is its statement, the taking of the next task from the queue, and that task's delivery. */
  lemma CompletionIsStatements(t: Table, id: nat, d: Delivery, now: int)
    requires id < |t| && t[id].status in WORKING + {Interrupted}
    ensures var u := Exec(t, OnRow(id, CompleteRow), now);
            var v := Exec(u, TakePending(t[id].session), now);
            var p := LowestPending(u, t[id].session);
            HandCompleted(t, id, d, now) ==
              if p.None? then v else SetRow(v, p.value, RunAlone(DeliveryProgram(d, now), v[p.value], now))
  {
    PromotionIsStatements(Exec(t, OnRow(id, CompleteRow), now), t[id].session, d, now);
  }

  /**
   A message that finds nothing at work is one statement on the newest row, and a submission begins with
   an insertion.
   */
  lemma OtherOperationsAreStatements(t: Table, session: nat, prompt: string, mode: Mode, d: Delivery, now: int)
    ensures !HasWorking(t, session) && Latest(t, session, ANY).Some? ==>
              Messaged(t, session, now) == Exec(t, OnRow(Latest(t, session, ANY).value, ReopenRow), now)
    ensures d.sessionFound && (HasWorking(t, session) || d.sendOk) ==>
              Submitted(t, session, prompt, mode, d, now)
              == Exec(t, Insert(session, prompt, if HasWorking(t, session) then Pending else Running, mode, None), now)
  {
  }

  /** Pass A's write to a picked row is the sync decided on that row. */
  lemma SyncIsStatement(t: Table, id: nat, g: Answer, now: int)
    requires id < |t|
    ensures SetRow(t, id, Synced(t[id], g, now)) == Exec(t, OnRow(id, LateSync(t[id], g)), now)
  {
  }

  /** The one dangerous statement: a sync that leaves the end time alone, on a task that has one. */
  ghost predicate HitsEnded(t: Table, st: Statement, now: int) {
    && st.OnRow? && st.id < |t| && st.st.LateSync?
    && Sync(st.st.seen, st.st.g, now).Some? && Sync(st.st.seen, st.st.g, now).value.ended == Keep
    && t[st.id].status in ENDED
  }

  lemma RowStatementLaws(r: Task, st: RowStatement, now: int)
    requires IssuedTo(r.mode, st, now)
    ensures RowLaws(r, RowAfter(r, st, now), st.CompleteRow?)
    ensures !st.LateSync? && EndedOk(r) ==> EndedOk(RowAfter(r, st, now))
    ensures st.LateSync? && EndedOk(r) ==>
      (EndedOk(RowAfter(r, st, now)) <==> !(Sync(st.seen, st.g, now).value.ended == Keep && r.status in ENDED))
  {
  }

  /** The row laws hold for every statement, however stale the row it was decided on. */
  lemma StatementKeepsLaws(t: Table, st: Statement, now: int, i: nat)
    requires Issued(t, st, now) && i < |t|
    ensures var u := Exec(t, st, now);
            i < |u| && RowLaws(t[i], u[i], st == OnRow(i, CompleteRow))
  {
    if st.OnRow? {
      RowStatementLaws(t[st.id], st.st, now);
    }
  }

  /** One statement keeps the end-time invariant if and only if it is not a sync on an ended task. */
  lemma StatementKeepsEndedIff(t: Table, st: Statement, now: int)
    requires Issued(t, st, now) && AllEndedOk(t)
    ensures AllEndedOk(Exec(t, st, now)) <==> !HitsEnded(t, st, now)
  {
    if st.OnRow? {
      RowStatementLaws(t[st.id], st.st, now);
      assert EndedOk(t[st.id]);
      assert Exec(t, st, now)[st.id] == RowAfter(t[st.id], st.st, now);
    }
  }

  datatype Moment = Moment(st: Statement, now: int)

  ghost predicate StatementRun(ts: seq<Table>, ms: seq<Moment>) {
    && |ts| == |ms| + 1 && ts[0] == []
    && forall k :: 0 <= k < |ms| ==> Issued(ts[k], ms[k].st, ms[k].now) && ts[k + 1] == Exec(ts[k], ms[k].st, ms[k].now)
  }

  /** The invariant holds along every interleaving up to the first sync that hits an ended task. */
  lemma {:induction false} EndedUntilFirstHit(ts: seq<Table>, ms: seq<Moment>, k: nat)
    requires StatementRun(ts, ms) && k < |ts|
    requires forall m :: 0 <= m < k ==> !HitsEnded(ts[m], ms[m].st, ms[m].now)
    ensures AllEndedOk(ts[k])
    ensures k < |ms| ==> (AllEndedOk(ts[k + 1]) <==> !HitsEnded(ts[k], ms[k].st, ms[k].now))
  {
    if k > 0 {
      EndedUntilFirstHit(ts, ms, k - 1);
    }
    if k < |ms| {
      StatementKeepsEndedIff(ts[k], ms[k].st, ms[k].now);
    }
  }

  lemma StatementRunIsLawful(ts: seq<Table>, ms: seq<Moment>)
    requires StatementRun(ts, ms)
    ensures Lawful(ts)
  {
    forall a, b | 0 <= a && b == a + 1 && b < |ts| ensures Follows(ts[a], ts[b]) {
      assert Issued(ts[a], ms[a].st, ms[a].now) && ts[a + 1] == Exec(ts[a], ms[a].st, ms[a].now);
      forall i | 0 <= i < |ts[a]| ensures RowLaws(ts[a][i], ts[b][i], true) {
        StatementKeepsLaws(ts[a], ms[a].st, ms[a].now, i);
      }
    }
  }

  /** Along every interleaving identity columns never change, and write-once columns are written once. */
  lemma WriteOnceSurvives(ts: seq<Table>, ms: seq<Moment>, j: nat, k: nat, id: nat)
    requires StatementRun(ts, ms) && j <= k < |ts| && id < |ts[j]|
    ensures id < |ts[k]| && Kept(ts[j][id], ts[k][id])
  {
    StatementRunIsLawful(ts, ms);
    LawfulKeeps(ts, j, k, id);
  }

  lemma TakingPasses(t: Table, session: nat, now: int)
    requires LowestPending(t, session).Some?
    ensures var q := LowestPending(t, session).value;
            q < |Exec(t, TakePending(session), now)| && PassedBy(Exec(t, TakePending(session), now), session, q)
  {
    var q := LowestPending(t, session).value;
    forall i | 0 <= i < q && t[i].session == session ensures t[i].status != Pending {
      assert !InSession(t[i], session, {Pending});
    }
  }

  /** Along every interleaving the ids taken from a session's queue strictly increase. */
  lemma PromotionsStillIncrease(ts: seq<Table>, ms: seq<Moment>, j: nat, k: nat, session: nat)
    requires StatementRun(ts, ms) && j < k < |ms|
    requires ms[j].st == TakePending(session) && ms[k].st == TakePending(session)
    requires LowestPending(ts[j], session).Some? && LowestPending(ts[k], session).Some?
    ensures LowestPending(ts[j], session).value < LowestPending(ts[k], session).value
  {
    var p := LowestPending(ts[j], session).value;
    TakingPasses(ts[j], session, ms[j].now);
    StatementRunIsLawful(ts, ms);
    assert ts[j + 1] == Exec(ts[j], ms[j].st, ms[j].now);
    PassedStaysPassed(ts, j + 1, k, session, p);
  }

  ghost function HandOfStatement(st: Statement): Option<nat> {
    if st.OnRow? && st.st.CompleteRow? then Some(st.id) else None
  }

  lemma ManualStatement(t: Table, st: Statement, now: int)
    requires Issued(t, st, now)
    ensures ManualMove(t, Exec(t, st, now), HandOfStatement(st))
  {
    var u := Exec(t, st, now);
    forall id | 0 <= id < |t| ensures RowLaws(t[id], u[id], HandOfStatement(st) == Some(id)) {
      StatementKeepsLaws(t, st, now, id);
    }
  }

  /**
   Manual tasks are completed by hand only, along every interleaving of statements: the completion
   took effect on a completable row, and the row has been completed ever since.
   */
  lemma ManualCompletionSurvives(ts: seq<Table>, ms: seq<Moment>, k: nat, id: nat)
    requires StatementRun(ts, ms) && k < |ts| && id < |ts[k]|
    requires ts[k][id].mode == Manual && ts[k][id].status == TaskRows.Completed
    ensures exists m :: 0 <= m < k && ms[m].st == OnRow(id, CompleteRow) && CompletedAt(ts, id, m, k)
  {
    var hands := seq(|ms|, m requires 0 <= m < |ms| => HandOfStatement(ms[m].st));
    forall a, b | 0 <= a && b == a + 1 && b < |ts| ensures ManualMove(ts[a], ts[b], hands[a]) {
      ManualStatement(ts[a], ms[a].st, ms[a].now);
    }
    var m := HandFound(ts, hands, k, id);
    assert hands[m] == HandOfStatement(ms[m].st);
  }

  // ---- overlapping handlers ----

  /** Programs in progress, each on its row, over the table they share. */
  datatype Thread = Thread(id: nat, p: Program)
  datatype Shared = Shared(t: Table, threads: seq<Thread>)

  /** A handler starts on a row, a thread makes its next move, or some other statement is executed. */
  datatype Move = Start(id: nat, p: Program) | Advance(k: nat) | Direct(st: Statement)

  ghost predicate ThreadOk(t: Table, th: Thread) {
    th.id < |t| && Safe(th.p, t[th.id].mode)
  }

  ghost predicate AllSafe(s: Shared) {
    forall k :: 0 <= k < |s.threads| ==> ThreadOk(s.t, s.threads[k])
  }

  ghost predicate Enabled(s: Shared, mv: Move, now: int) {
    match mv
    case Start(id, p) => ThreadOk(s.t, Thread(id, p))
    case Advance(k) => k < |s.threads|
    case Direct(st) => Issued(s.t, st, now)
  }

  /** The statement a move executes, if it executes one. */
  function StatementOf(s: Shared, mv: Move): Option<Statement> {
    match mv
    case Start(_, _) => None
    case Advance(k) =>
      if k < |s.threads| && s.threads[k].p.Issue? then Some(OnRow(s.threads[k].id, s.threads[k].p.st)) else None
    case Direct(st) => Some(st)
  }

  function Continued(t: Table, th: Thread): Thread {
    match th.p
    case Done => th
    case Issue(_, rest) => th.(p := rest)
    case Look(choose, ways) =>
      if th.id < |t| && choose(t[th.id]) < |ways| then th.(p := ways[choose(t[th.id])]) else th
  }

  function Moved(s: Shared, mv: Move, now: int): Shared {
    var t := match StatementOf(s, mv) case None => s.t case Some(st) => Exec(s.t, st, now);
    match mv
    case Start(id, p) => Shared(t, s.threads + [Thread(id, p)])
    case Advance(k) => Shared(t, if k < |s.threads| then s.threads[k := Continued(s.t, s.threads[k])] else s.threads)
    case Direct(_) => Shared(t, s.threads)
  }

  lemma ModesStay(t: Table, st: Statement, now: int, th: Thread)
    requires Issued(t, st, now) && ThreadOk(t, th)
    ensures ThreadOk(Exec(t, st, now), th)
  {
    StatementKeepsLaws(t, st, now, th.id);
  }

  /** Handlers that overlap freely are an interleaving of issued statements: every move executes one, or none. */
  lemma MovesAreStatements(s: Shared, mv: Move, now: int)
    requires AllSafe(s) && Enabled(s, mv, now)
    ensures AllSafe(Moved(s, mv, now))
    ensures match StatementOf(s, mv)
            case None => Moved(s, mv, now).t == s.t
            case Some(st) => Issued(s.t, st, now) && Moved(s, mv, now).t == Exec(s.t, st, now)
  {
    var u, st := Moved(s, mv, now), StatementOf(s, mv);
    if mv.Advance? {
      assert ThreadOk(s.t, s.threads[mv.k]);
      assert ThreadOk(s.t, Continued(s.t, s.threads[mv.k]));
    }
    forall k | 0 <= k < |u.threads| ensures ThreadOk(u.t, u.threads[k]) {
      assert ThreadOk(s.t, u.threads[k]);
      if st.Some? {
        ModesStay(s.t, st.value, now, u.threads[k]);
      }
    }
  }

  datatype Turn = Turn(mv: Move, now: int)

  ghost predicate SharedRun(ss: seq<Shared>, turns: seq<Turn>) {
    && |ss| == |turns| + 1 && ss[0] == Shared([], [])
    && forall k :: 0 <= k < |turns|
        ==> Enabled(ss[k], turns[k].mv, turns[k].now) && ss[k + 1] == Moved(ss[k], turns[k].mv, turns[k].now)
  }

  /** The table of a shared run is the table of a run of statements. */
  lemma {:induction false} SharedRunIsStatementRun(ss: seq<Shared>, turns: seq<Turn>, k: nat)
    returns (ts: seq<Table>, ms: seq<Moment>)
    requires SharedRun(ss, turns) && k < |ss|
    ensures AllSafe(ss[k]) && StatementRun(ts, ms) && ts[|ms|] == ss[k].t
    ensures forall m :: 0 <= m < |ms|
              ==> exists n :: 0 <= n < k && ss[n].t == ts[m] && StatementOf(ss[n], turns[n].mv) == Some(ms[m].st)
  {
    if k == 0 {
      ts, ms := [[]], [];
    } else {
      ts, ms := SharedRunIsStatementRun(ss, turns, k - 1);
      var s, turn := ss[k - 1], turns[k - 1];
      MovesAreStatements(s, turn.mv, turn.now);
      var st := StatementOf(s, turn.mv);
      if st.Some? {
        ts, ms := Lengthened(ts, ms, st.value, turn.now);
      }
    }
  }

  lemma Lengthened(ts: seq<Table>, ms: seq<Moment>, st: Statement, now: int) returns (us: seq<Table>, ns: seq<Moment>)
    requires StatementRun(ts, ms) && Issued(ts[|ms|], st, now)
    ensures us == ts + [Exec(ts[|ms|], st, now)] && ns == ms + [Moment(st, now)] && StatementRun(us, ns)
  {
    us, ns := ts + [Exec(ts[|ms|], st, now)], ms + [Moment(st, now)];
    forall k | 0 <= k < |ns|
      ensures Issued(us[k], ns[k].st, ns[k].now) && us[k + 1] == Exec(us[k], ns[k].st, ns[k].now)
    {
      if k < |ms| {
        assert us[k] == ts[k] && us[k + 1] == ts[k + 1] && ns[k] == ms[k];
      }
    }
  }

  /** However handlers, deliveries and other statements overlap, only a late sync can break the end-time invariant. */
  lemma OverlapKeepsEnded(ss: seq<Shared>, turns: seq<Turn>, k: nat)
    requires SharedRun(ss, turns) && k < |ss|
    requires forall n :: 0 <= n < k && turns[n].mv.Direct? ==> !turns[n].mv.st.OnRow? || !turns[n].mv.st.st.LateSync?
    ensures AllEndedOk(ss[k].t)
  {
    var ts, ms := SharedRunIsStatementRun(ss, turns, k);
    forall m | 0 <= m < |ms| ensures !HitsEnded(ts[m], ms[m].st, ms[m].now) {
      var n :| 0 <= n < k && ss[n].t == ts[m] && StatementOf(ss[n], turns[n].mv) == Some(ms[m].st);
      NoLateSync(ss, turns, n);
    }
    EndedUntilFirstHit(ts, ms, |ms|);
  }

  lemma NoLateSync(ss: seq<Shared>, turns: seq<Turn>, n: nat)
    requires SharedRun(ss, turns) && n < |turns|
    ensures turns[n].mv.Advance? && StatementOf(ss[n], turns[n].mv).Some?
      ==> StatementOf(ss[n], turns[n].mv).value.OnRow? && !StatementOf(ss[n], turns[n].mv).value.st.LateSync?
  {
    var _, _ := SharedRunIsStatementRun(ss, turns, n);
    if turns[n].mv.Advance? {
      assert ThreadOk(ss[n].t, ss[n].threads[turns[n].mv.k]);
    }
  }

  // ---- the race ----

  /** It is reached: completed by hand between query and update, a task ends up waiting for input with an end time. */
  lemma LateSyncRace(session: nat, now: int) returns (ts: seq<Table>, ms: seq<Moment>)
    ensures StatementRun(ts, ms) && |ms| == 3
    ensures ms[1].st == OnRow(0, CompleteRow) && HitsEnded(ts[2], ms[2].st, now)
    ensures AllEndedOk(ts[2]) && !AllEndedOk(ts[3])
  {
    var seen := NewRow(session, "", Running, Manual, None, now);
    var late := OnRow(0, LateSync(seen, Answer(true, true, Reports(GWaitingInput, false), None, false)));
    ts, ms := [[]], [];
    ts, ms := Lengthened(ts, ms, Insert(session, "", Running, Manual, None), now);
    assert ts[1] == [seen];
    ts, ms := Lengthened(ts, ms, OnRow(0, CompleteRow), now);
    assert ts[2] == [seen.(status := TaskRows.Completed, endedAt := Some(now))];
    ts, ms := Lengthened(ts, ms, late, now);
    StatementKeepsEndedIff(ts[2], late, now);
  }
}
