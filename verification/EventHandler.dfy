/**
 The gateway-event handler and queue promotion. Each handler is a method on the store, in the
 source's own order of statements; its contract equates the new table with an explicit transition
 table (`Transition`, `NextPreview`, `NextDecision`) that does not follow the handler's control flow.
 */
module EventHandler {
  import opened Prelude
  import opened TaskRows
  import opened TaskStores

  /** How the environment answers one attempt to hand a prompt to the gateway. */
  datatype Delivery = Delivery(sessionFound: bool, agentFound: bool, sendOk: bool, resumeOk: bool, error: string)

  /** A session state name sent by the gateway. */
  datatype GatewayState =
    | GRunning | GBusy | GWaitingInput | GPendingApproval | GCompleted | GError | GInterrupted | GOther

  /** The outcome of matching an error text and payload against the handler's lists. */
  datatype ErrorInfo = ErrorInfo(text: string, overflow: bool, lost: bool, recoverable: bool, transient: bool,
                                 retryInfo: string)

  datatype Event =
    | SessionStarted(model: string)
    | StateChanged(to: GatewayState)
    | UserMessage(seqNo: int, detected: Option<Decision>)
    | AgentMessage(content: string)
    | WaitingForInput
    | SessionCompleted
    | SessionError(info: ErrorInfo)
    | SessionInterrupted(partial: string)
    | ToolFinished(failed: bool)
    | OtherEvent

  // ---- specification: promotion ----

  /** None when the prompt reached the gateway, otherwise the text stored on the failed task. */
  function DeliveryError(d: Delivery): Option<string> {
    if !d.sessionFound then Some("Error: session not found")
    else if !d.agentFound then Some("Error: agent not found")
    else if d.sendOk || d.resumeOk then None
    else Some(Truncate("Error: " + d.error, 200))
  }

  function PromotedRow(r: Task, d: Delivery, now: int): Task {
    match DeliveryError(d)
    case None => r.(status := Running, startedAt := Some(now))
    case Some(text) => r.(status := Error, startedAt := Some(now), endedAt := Some(now), preview := Some(text))
  }

  function Promoted(t: Table, session: nat, d: Delivery, now: int): Table {
    match LowestPending(t, session)
    case None => t
    case Some(id) => SetRow(t, id, PromotedRow(t[id], d, now))
  }

  // ---- specification: the transition table ----

  /** The text the approval marker is looked for in. */
  function VisibleOutput(r: Task): string {
    if r.output.Some? then r.output.value else if r.preview.Some? then r.preview.value else ""
  }

  predicate AwaitsApproval(r: Task) {
    MentionsIgnoringCase(VisibleOutput(r), "AWAITING_APPROVAL")
  }

  /**
   The status an event writes to the newest task of its session, or None when it writes none.
   Handler and store guard are already combined here.
   */
  function Transition(ev: Event, r: Task): Option<Status> {
    match ev
    case SessionStarted(_) =>
      if r.status == Error then Some(Running) else None
    case StateChanged(to) =>
      if to in {GRunning, GBusy} && r.status == Completed then Some(Running) else None
    case UserMessage(_, _) =>
      if r.status in {WaitingInput, Error} then Some(Running) else None
    case AgentMessage(_) =>
      if r.status in {Pending, Busy, WaitingInput, PendingApproval, Approved, Error} then Some(Running) else None
    case WaitingForInput =>
      if AwaitsApproval(r) then Some(PendingApproval)
      else if r.status in {Interrupted, Cancelled} then None
      else Some(WaitingInput)
    case SessionCompleted =>
      if r.mode == Auto then Some(Completed)
      else if r.status in {PendingApproval, Approved, Interrupted, Cancelled} then None
      else Some(WaitingInput)
    case SessionError(info) =>
      if r.status == Running then None
      else if info.lost then Some(Error)
      else if info.recoverable then None
      else if info.overflow && r.status == Error then Some(WaitingInput)
      else if info.overflow && r.status == Interrupted then None
      else Some(Error)
    case SessionInterrupted(_) => Some(Interrupted)
    case ToolFinished(_) => None
    case OtherEvent => None
  }

  /** The queue is advanced exactly when the event ended the task. */
  predicate Advances(ev: Event, r: Task) {
    Transition(ev, r) in {Some(Completed), Some(Error), Some(Interrupted)}
  }

  /** An end time is written with the status: set with an ending status, cleared with any other. */
  function NextEnded(ev: Event, r: Task, now: int): Option<int> {
    match Transition(ev, r)
    case None => r.endedAt
    case Some(status) => if status in ENDED then Some(now) else None
  }

  const LOST_RUNNING: string := "Recovering: session data lost, retrying fresh..."

  /** The note a session error leaves, and whether it replaces a note already there. */
  function ErrorNote(info: ErrorInfo, status: Status): (string, bool) {
    var tail := " (" + Truncate(info.text, 100) + ")";
    if info.lost && status == Running then (LOST_RUNNING, false)
    else if info.lost then ("Session data lost \U{2014} please start a new task." + tail, true)
    else if info.recoverable then ("Recovering" + info.retryInfo + ": " + info.text, false)
    else if info.overflow && status == Running then ("Compacting: " + info.text, false)
    else if info.overflow && status in {Error, Interrupted}
        then ("Session context full \U{2014} please start a new session to continue." + tail, true)
    else if status == Running then ("Recovering: " + info.text, false)
    else ("Error: " + info.text, false)
  }

  /** The store accepts a preview on every row that is not completed, interrupted or cancelled after the event. */
  function NextPreview(ev: Event, r: Task): Option<string> {
    match ev
    case AgentMessage(content) =>
      if r.status in {Completed, Interrupted, Cancelled} then r.preview else Some(Truncate(content, 200))
    case SessionError(info) =>
      var after := match Transition(ev, r) case Some(s) => s case None => r.status;
      var (text, overwrites) := ErrorNote(info, r.status);
      if after in {Completed, Interrupted, Cancelled} || (!overwrites && !Blank(r.preview)) then r.preview
      else Some(Truncate(text, 200))
    case _ => r.preview
  }

  function NextDecision(ev: Event, r: Task): Option<Decision> {
    if r.decision.Some? then r.decision
    else match ev
      case UserMessage(_, detected) => detected
      case StateChanged(_) => if Transition(ev, r).Some? && r.mode == Auto then Some(OverriddenByHuman) else None
      case _ => None
  }

  /** The whole row after the event. */
  function AfterEvent(ev: Event, r: Task, now: int): Task {
    r.(status := match Transition(ev, r) case Some(s) => s case None => r.status,
       endedAt := NextEnded(ev, r, now),
       preview := NextPreview(ev, r),
       output := if ev.AgentMessage? then Some(ev.content) else r.output,
       seqStart := if ev.UserMessage? && r.seqStart.None? then Some(ev.seqNo) else r.seqStart,
       modelVersion := if ev.SessionStarted? && r.modelVersion.None? then Some(ev.model) else r.modelVersion,
       decision := NextDecision(ev, r),
       toolErrors := r.toolErrors + if ev == ToolFinished(true) then 1 else 0,
       llmErrors := r.llmErrors + if CountsLlmError(ev, r) then 1 else 0)
  }

  predicate CountsLlmError(ev: Event, r: Task) {
    ev.SessionError? && r.status == Running && ev.info.transient && !ev.info.lost && !ev.info.recoverable
        && !ev.info.overflow
  }

  function EventApplied(t: Table, session: nat, ev: Event, d: Delivery, now: int): Table {
    match Latest(t, session, ANY)
    case None => t
    case Some(id) =>
      var u := SetRow(t, id, AfterEvent(ev, t[id], now));
      if Advances(ev, t[id]) then Promoted(u, session, d, now) else u
  }

  /** The task the event takes from the head of the queue, if any. */
  function PromotedByEvent(t: Table, session: nat, ev: Event, now: int): Option<nat> {
    match Latest(t, session, ANY)
    case None => None
    case Some(id) =>
      if Advances(ev, t[id]) then LowestPending(SetRow(t, id, AfterEvent(ev, t[id], now)), session) else None
  }

  // ---- the handlers ----

  method PromoteNext(store: TaskStore, session: nat, d: Delivery, now: int) returns (promoted: Option<nat>)
    modifies store
    ensures promoted == LowestPending(old(store.rows), session)
    ensures store.rows == Promoted(old(store.rows), session, d, now)
  {
    promoted := store.PromoteNextPending(session, now);
    if promoted.None? {
      return;
    }
    var id := promoted.value;
    if !d.sessionFound {
      store.UpdateStatus(id, Error, Some(now));
      store.UpdateOutputPreview(id, "Error: session not found");
      return;
    }
    if !d.agentFound {
      store.UpdateStatus(id, Error, Some(now));
      store.UpdateOutputPreview(id, "Error: agent not found");
      return;
    }
    if !d.sendOk {
      if !d.resumeOk {
        store.UpdateStatus(id, Error, Some(now));
        store.UpdateOutputPreview(id, Truncate("Error: " + d.error, 200));
      }
    }
  }

  method NoteIfBlank(store: TaskStore, id: nat, text: string)
    requires id < |store.rows|
    modifies store
    ensures var r := old(store.rows)[id];
            store.rows == if Blank(r.preview) then SetRow(old(store.rows), id, GuardedPreview(r, Truncate(text, 200)))
                else old(store.rows)
  {
    if Blank(store.rows[id].preview) {
      store.UpdateOutputPreview(id, Truncate(text, 200));
    }
  }

  /** The `session.error` case. Returns whether the queue is to be advanced. */
  method HandleSessionError(store: TaskStore, id: nat, task: Task, info: ErrorInfo, now: int) returns (advance: bool)
    requires id < |store.rows| && store.rows[id] == task
    modifies store
    ensures advance == Advances(SessionError(info), task)
    ensures store.rows == SetRow(old(store.rows), id, AfterEvent(SessionError(info), task, now))
  {
    advance := false;
    var tail := " (" + Truncate(info.text, 100) + ")";
    if info.lost && task.status == Running {
      NoteIfBlank(store, id, LOST_RUNNING);
    } else if info.lost {
      store.UpdateStatus(id, Error, Some(now));
      store.UpdateOutputPreview(id, Truncate("Session data lost \U{2014} please start a new task." + tail, 200));
      advance := true;
    } else if info.recoverable {
      NoteIfBlank(store, id, "Recovering" + info.retryInfo + ": " + info.text);
    } else {
      advance := HandleOtherError(store, id, task, info, now);
    }
  }

  /** The second half of the ladder: the conversation is there and the adapter has not announced a retry. */
  method HandleOtherError(store: TaskStore, id: nat, task: Task, info: ErrorInfo, now: int) returns (advance: bool)
    requires id < |store.rows| && store.rows[id] == task && !info.lost && !info.recoverable
    modifies store
    ensures advance == Advances(SessionError(info), task)
    ensures store.rows == SetRow(old(store.rows), id, AfterEvent(SessionError(info), task, now))
  {
    advance := false;
    var tail := " (" + Truncate(info.text, 100) + ")";
    if info.overflow && task.status == Running {
      NoteIfBlank(store, id, "Compacting: " + info.text);
    } else if info.overflow && (task.status == Error || task.status == Interrupted) {
      store.UpdateStatus(id, WaitingInput, None);
      var text := "Session context full \U{2014} please start a new session to continue." + tail;
      store.UpdateOutputPreview(id, Truncate(text, 200));
    } else if task.status == Running {
      if info.transient {
        store.IncrementLlmError(id);
      }
      NoteIfBlank(store, id, "Recovering: " + info.text);
    } else {
      store.UpdateStatus(id, Error, Some(now));
      NoteIfBlank(store, id, "Error: " + info.text);
      advance := true;
    }
  }

  method HandleAgentMessage(store: TaskStore, id: nat, task: Task, content: string, now: int)
    requires id < |store.rows| && store.rows[id] == task
    modifies store
    ensures store.rows == SetRow(old(store.rows), id, AfterEvent(AgentMessage(content), task, now))
  {
    store.UpdateOutputPreview(id, Truncate(content, 200));
    store.UpdateFullOutput(id, content);
    if task.status != Running && task.status != Completed && task.status != Cancelled {
      store.UpdateStatus(id, Running, None);
    }
  }

  method HandleUserMessage(store: TaskStore, id: nat, task: Task, seqNo: int, detected: Option<Decision>, now: int)
    requires id < |store.rows| && store.rows[id] == task
    modifies store
    ensures store.rows == SetRow(old(store.rows), id, AfterEvent(UserMessage(seqNo, detected), task, now))
  {
    if task.seqStart.None? {
      store.SetGatewaySeqStart(id, seqNo);
    }
    if task.status == WaitingInput || task.status == Error || task.status == Interrupted {
      store.UpdateStatus(id, Running, None);
    }
    if task.decision.None? && detected.Some? {
      store.AutoSetHumanDecision(id, detected.value);
    }
  }

  method HandleSessionStarted(store: TaskStore, id: nat, task: Task, model: string, now: int)
    requires id < |store.rows| && store.rows[id] == task
    modifies store
    ensures store.rows == SetRow(old(store.rows), id, AfterEvent(SessionStarted(model), task, now))
  {
    if task.status == Error || task.status == Interrupted {
      store.UpdateStatus(id, Running, None);
    }
    if task.modelVersion.None? {
      store.SetModelVersion(id, model);
    }
  }

  method HandleStateChanged(store: TaskStore, id: nat, task: Task, to: GatewayState, now: int)
    requires id < |store.rows| && store.rows[id] == task
    modifies store
    ensures store.rows == SetRow(old(store.rows), id, AfterEvent(StateChanged(to), task, now))
  {
    if (to == GRunning || to == GBusy) && task.status == Completed {
      if task.mode == Auto && task.decision.None? {
        store.AutoSetHumanDecision(id, OverriddenByHuman);
      }
      store.UpdateStatus(id, Running, None);
    }
  }

  method HandleSessionCompleted(store: TaskStore, id: nat, task: Task, now: int) returns (advance: bool)
    requires id < |store.rows| && store.rows[id] == task
    modifies store
    ensures advance == Advances(SessionCompleted, task)
    ensures store.rows == SetRow(old(store.rows), id, AfterEvent(SessionCompleted, task, now))
  {
    advance := false;
    if task.mode == Manual {
      if task.status != PendingApproval && task.status != Approved {
        store.UpdateStatus(id, WaitingInput, None);
      }
    } else {
      store.UpdateStatus(id, Completed, Some(now));
      advance := true;
    }
  }

  method HandleSessionInterrupted(store: TaskStore, id: nat, task: Task, partial: string, now: int)
    requires id < |store.rows| && store.rows[id] == task
    modifies store
    ensures store.rows == SetRow(old(store.rows), id, AfterEvent(SessionInterrupted(partial), task, now))
  {
    store.UpdateStatus(id, Interrupted, Some(now));
    if Blank(store.rows[id].preview) && partial != "" {
      store.UpdateOutputPreview(id, Truncate(partial, 200));
    }
  }

  method HandleQuietEvent(store: TaskStore, id: nat, task: Task, ev: Event, now: int)
    requires id < |store.rows| && store.rows[id] == task
    requires ev.WaitingForInput? || ev.ToolFinished? || ev.OtherEvent?
    modifies store
    ensures store.rows == SetRow(old(store.rows), id, AfterEvent(ev, task, now))
  {
    if ev.WaitingForInput? {
      store.UpdateStatus(id, if AwaitsApproval(task) then PendingApproval else WaitingInput, None);
    } else if ev == ToolFinished(true) {
      store.IncrementToolError(id);
    }
  }

  /** The switch over event types. Returns whether the queue is to be advanced. */
  method HandleEvent(store: TaskStore, id: nat, task: Task, ev: Event, now: int) returns (advance: bool)
    requires id < |store.rows| && store.rows[id] == task
    modifies store
    ensures advance == Advances(ev, task)
    ensures store.rows == SetRow(old(store.rows), id, AfterEvent(ev, task, now))
  {
    advance := false;
    match ev {
      case SessionStarted(model) =>
        HandleSessionStarted(store, id, task, model, now);
      case StateChanged(to) =>
        HandleStateChanged(store, id, task, to, now);
      case UserMessage(seqNo, detected) =>
        HandleUserMessage(store, id, task, seqNo, detected, now);
      case AgentMessage(content) =>
        HandleAgentMessage(store, id, task, content, now);
      case SessionCompleted =>
        advance := HandleSessionCompleted(store, id, task, now);
      case SessionError(info) =>
        advance := HandleSessionError(store, id, task, info, now);
      case SessionInterrupted(partial) =>
        HandleSessionInterrupted(store, id, task, partial, now);
        advance := true;
      case _ =>
        HandleQuietEvent(store, id, task, ev, now);
    }
  }

  /** One event, applied to the newest task of its session and followed by promotion when it ended that task. */
  method ApplyEventToTask(store: TaskStore, session: nat, ev: Event, d: Delivery, now: int)
    returns (promoted: Option<nat>)
    modifies store
    ensures promoted == PromotedByEvent(old(store.rows), session, ev, now)
    ensures store.rows == EventApplied(old(store.rows), session, ev, d, now)
  {
    promoted := None;
    var latest := Latest(store.rows, session, ANY);
    if latest.Some? {
      var id := latest.value;
      var advance := HandleEvent(store, id, store.rows[id], ev, now);
      if advance {
        promoted := PromoteNext(store, session, d, now);
      }
    }
  }
}
