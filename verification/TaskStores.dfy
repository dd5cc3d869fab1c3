/** The task store: every method is one of the store's SQL statements, run on the current rows. */
module TaskStores {
  import opened Prelude
  import opened TaskRows

  class TaskStore {
    var rows: Table

    constructor ()
      ensures rows == []
    {
      rows := [];
    }

    method Create(session: nat, prompt: string, status: Status, mode: Mode, fromSchedule: Option<nat>, now: int)
      returns (id: nat)
      requires status in {Pending, Running}
      modifies this
      ensures id == |old(rows)|
      ensures rows == old(rows) + [NewRow(session, prompt, status, mode, fromSchedule, now)]
    {
      id := |rows|;
      rows := rows + [NewRow(session, prompt, status, mode, fromSchedule, now)];
    }

    /** Reports whether the guarded UPDATE matched the row. */
    method CompleteManually(id: nat, now: int) returns (done: bool)
      modifies this
      ensures done == (id < |old(rows)| && old(rows)[id].status in WORKING + {Interrupted})
      ensures rows == if done then SetRow(old(rows), id, old(rows)[id].(status := Completed, endedAt := Some(now)))
          else old(rows)
    {
      done := id < |rows| && rows[id].status in WORKING + {Interrupted};
      if done {
        rows := rows[id := rows[id].(status := Completed, endedAt := Some(now))];
      }
    }

    /** Reopens the newest task of a session unless it is active, pending or approved. */
    method ReopenLatestForSession(session: nat, now: int) returns (id: Option<nat>)
      modifies this
      ensures id == Latest(old(rows), session, ANY)
      ensures rows == Reopened(old(rows), session, now)
    {
      id := Latest(rows, session, ANY);
      if id.None? || rows[id.value].status in ACTIVE {
        return;
      }
      var r := rows[id.value];
      if r.status in TERMINAL {
        rows := rows[id.value := r.(status := Running,
                                    startedAt := if r.startedAt.Some? then r.startedAt else Some(now),
                                    endedAt := None)];
      }
    }

    method UpdateStatus(id: nat, status: Status, ended: Option<int>)
      modifies this
      ensures rows == if id < |old(rows)| then SetRow(old(rows), id, GuardedStatus(old(rows)[id], status, ended))
          else old(rows)
    {
      if id < |rows| {
        var current := rows[id];
        if current.status in TERMINAL && (status == Running || status == WaitingInput) {
          if current.status == Error || current.status == Completed {
            rows := rows[id := current.(status := status, endedAt := None)];
          }
          return;
        }
        rows := rows[id := current.(status := status, endedAt := ended)];
      }
    }

    method UpdateOutputPreview(id: nat, text: string)
      modifies this
      ensures rows == if id < |old(rows)| then SetRow(old(rows), id, GuardedPreview(old(rows)[id], text)) else old(rows)
    {
      if id < |rows| {
        var current := rows[id];
        if current.status != Error && current.status in TERMINAL {
          return;
        }
        rows := rows[id := current.(preview := Some(Truncate(text, 200)))];
      }
    }

    method UpdateFullOutput(id: nat, text: string)
      modifies this
      ensures rows == if id < |old(rows)| then SetRow(old(rows), id, old(rows)[id].(output := Some(text)))
          else old(rows)
    {
      if id < |rows| {
        rows := rows[id := rows[id].(output := Some(text))];
      }
    }

    method SetGatewaySeqStart(id: nat, seqNo: int)
      modifies this
      ensures rows == if id < |old(rows)| then SetRow(old(rows), id, WithSeqStart(old(rows)[id], seqNo)) else old(rows)
    {
      if id < |rows| && rows[id].seqStart.None? {
        rows := rows[id := rows[id].(seqStart := Some(seqNo))];
      }
    }

    method SetModelVersion(id: nat, version: string)
      modifies this
      ensures rows == if id < |old(rows)| then SetRow(old(rows), id, WithModelVersion(old(rows)[id], version))
          else old(rows)
    {
      if id < |rows| && rows[id].modelVersion.None? {
        rows := rows[id := rows[id].(modelVersion := Some(version))];
      }
    }

    method AutoSetHumanDecision(id: nat, decision: Decision)
      modifies this
      ensures rows == if id < |old(rows)| then SetRow(old(rows), id, WithDecision(old(rows)[id], decision))
          else old(rows)
    {
      if id < |rows| && rows[id].decision.None? {
        rows := rows[id := rows[id].(decision := Some(decision))];
      }
    }

    method RecordHumanDecision(id: nat, decision: Decision, now: int) returns (done: bool)
      modifies this
      ensures done == (id < |old(rows)| && old(rows)[id].status == PendingApproval)
      ensures rows == if done then SetRow(old(rows), id, Decided(old(rows)[id], decision, now)) else old(rows)
    {
      done := id < |rows| && rows[id].status == PendingApproval;
      if done {
        var status := match decision
          case ApprovedByHuman => Approved
          case DeclinedByHuman => Cancelled
          case OverriddenByHuman => WaitingInput;
        var r := rows[id];
        rows := rows[id := r.(decision := if r.decision.Some? then r.decision else Some(decision),
                              status := status,
                              endedAt := if status == Approved || status == Cancelled then Some(now) else r.endedAt)];
      }
    }

    method IncrementToolError(id: nat)
      modifies this
      ensures rows == if id < |old(rows)|
          then SetRow(old(rows), id, old(rows)[id].(toolErrors := old(rows)[id].toolErrors + 1)) else old(rows)
    {
      if id < |rows| {
        rows := rows[id := rows[id].(toolErrors := rows[id].toolErrors + 1)];
      }
    }

    method IncrementLlmError(id: nat)
      modifies this
      ensures rows == if id < |old(rows)|
          then SetRow(old(rows), id, old(rows)[id].(llmErrors := old(rows)[id].llmErrors + 1)) else old(rows)
    {
      if id < |rows| {
        rows := rows[id := rows[id].(llmErrors := rows[id].llmErrors + 1)];
      }
    }

    method CancelPending(id: nat, now: int) returns (count: nat)
      modifies this
      ensures count == if id < |old(rows)| && old(rows)[id].status == Pending then 1 else 0
      ensures rows == if count == 1
          then SetRow(old(rows), id, old(rows)[id].(status := Cancelled, endedAt := Some(now))) else old(rows)
    {
      count := 0;
      if id < |rows| && rows[id].status == Pending {
        rows := rows[id := rows[id].(status := Cancelled, endedAt := Some(now))];
        count := 1;
      }
    }

    /** Takes the lowest-id pending task of the session out of the queue; the end time is not written. */
    method PromoteNextPending(session: nat, now: int) returns (id: Option<nat>)
      modifies this
      ensures id == LowestPending(old(rows), session)
      ensures rows == if id.Some?
          then SetRow(old(rows), id.value, old(rows)[id.value].(status := Running, startedAt := Some(now)))
          else old(rows)
    {
      id := LowestPending(rows, session);
      if id.Some? {
        rows := rows[id.value := rows[id.value].(status := Running, startedAt := Some(now))];
      }
    }

    /** An UPDATE issued on the table directly, past the guards above. */
    method Overwrite(id: nat, w: Write)
      modifies this
      ensures rows == if id < |old(rows)| then SetRow(old(rows), id, Overwritten(old(rows)[id], w)) else old(rows)
    {
      if id < |rows| {
        rows := rows[id := Overwritten(rows[id], w)];
      }
    }
  }

  // ---- what the conditional statements write ----

  function WithSeqStart(r: Task, seqNo: int): Task {
    if r.seqStart.None? then r.(seqStart := Some(seqNo)) else r
  }

  function WithModelVersion(r: Task, version: string): Task {
    if r.modelVersion.None? then r.(modelVersion := Some(version)) else r
  }

  function WithDecision(r: Task, decision: Decision): Task {
    if r.decision.None? then r.(decision := Some(decision)) else r
  }

  /** The first decision is kept; approving and declining end the task, overriding hands it back. */
  function Decided(r: Task, decision: Decision, now: int): Task {
    var d := WithDecision(r, decision);
    match decision
    case ApprovedByHuman => d.(status := Approved, endedAt := Some(now))
    case DeclinedByHuman => d.(status := Cancelled, endedAt := Some(now))
    case OverriddenByHuman => d.(status := WaitingInput)
  }

  function Reopened(t: Table, session: nat, now: int): Table {
    var id := Latest(t, session, ANY);
    if id.None? || t[id.value].status !in TERMINAL then t
    else
      var r := t[id.value];
      SetRow(t, id.value, r.(status := Running,
                             startedAt := if r.startedAt.Some? then r.startedAt else Some(now),
                             endedAt := None))
  }
}
