/**
 What the operations on the task table lead to, in terms of the columns and flags a caller sees: each
 result is stated from the inputs alone, and operations are compared with one another where the source
 means them to agree.
 */
module Outcomes {
  import opened Prelude
  import opened TaskRows
  import opened TaskStores
  import opened EventHandler
  import opened Reconciler
  import opened Convergence
  import opened Schedules
  import opened ControlPlane
  import opened FiringDates

  // ---- the approval marker ----

  /** Letter by letter the word, in capitals or not; `word` is given in capitals. */
  predicate InEitherCase(part: string, word: string) {
    && |part| == |word|
    && forall k :: 0 <= k < |word| ==>
         part[k] == word[k] || ('A' <= word[k] <= 'Z' && part[k] as int == word[k] as int + 32)
  }

  lemma EitherCaseMatches(text: string, word: string, i: nat)
    requires i + |word| <= |text| && forall k :: 0 <= k < |word| ==> 'A' <= word[k] <= 'Z' || word[k] == '_'
    ensures MatchesAt(text, word, i) <==> InEitherCase(text[i..i + |word|], word)
  {
    forall k | 0 <= k < |word|
      ensures UpperAscii(text[i + k]) == word[k]
         <==> text[i + k] == word[k] || ('A' <= word[k] <= 'Z' && text[i + k] as int == word[k] as int + 32)
    {
    }
    var part := text[i..i + |word|];
    assert forall k :: 0 <= k < |word| ==> part[k] == text[i + k];
  }

  /** The search for the marker finds it anywhere in the text, in any mixture of cases, and finds nothing else. */
  lemma MentionedIff(text: string, word: string)
    requires forall k :: 0 <= k < |word| ==> 'A' <= word[k] <= 'Z' || word[k] == '_'
    ensures MentionsIgnoringCase(text, word)
       <==> exists before, part, rest :: text == before + part + rest && InEitherCase(part, word)
  {
    if i :| 0 <= i <= |text| && MatchesAt(text, word, i) {
      EitherCaseMatches(text, word, i);
      assert text == text[..i] + text[i..i + |word|] + text[i + |word|..];
    }
    if before, part, rest :| text == before + part + rest && InEitherCase(part, word) {
      EitherCaseMatches(text, word, |before|);
      assert text[|before|..|before| + |word|] == part;
    }
  }

  const MARKER: string := "AWAITING_APPROVAL"

  /**
   After agent output, a wait for input becomes a request for approval exactly when that whole output has
   the marker.
   */
  lemma ApprovalIsAskedIff(content: string, r: Task, a: int, b: int)
    ensures AfterEvent(WaitingForInput, AfterEvent(AgentMessage(content), r, a), b).status ==
              if MentionsIgnoringCase(content, MARKER) then PendingApproval
              else if r.status in {Interrupted, Cancelled} then r.status
              else WaitingInput
  {
    AnyIsEvery(r.status);
  }

  /** The preview decides only for a task without output. */
  lemma OutputDecidesFirst(r: Task, now: int)
    ensures AfterEvent(WaitingForInput, r, now).status == PendingApproval <==>
              || (r.output.Some? && MentionsIgnoringCase(r.output.value, MARKER))
              || (r.output.None? && r.preview.Some? && MentionsIgnoringCase(r.preview.value, MARKER))
  {
  }

  // ---- delivery ----

  /** The prompt reaches the gateway by the message or, failing that, by the resume. */
  predicate Reaches(d: Delivery) {
    d.sessionFound && d.agentFound && (d.sendOk || d.resumeOk)
  }

  function FailureText(d: Delivery): string {
    if !d.sessionFound then "Error: session not found"
    else if !d.agentFound then "Error: agent not found"
    else Truncate("Error: " + d.error, 200)
  }

  lemma PromotedOutcome(r: Task, d: Delivery, now: int)
    ensures var s := PromotedRow(r, d, now);
            && (s.status == Running <==> Reaches(d)) && (s.status == Error <==> !Reaches(d))
            && s.startedAt == Some(now)
            && s.endedAt == (if Reaches(d) then r.endedAt else Some(now))
            && s.preview == (if Reaches(d) then r.preview else Some(FailureText(d)))
            && s == r.(status := s.status, startedAt := s.startedAt, endedAt := s.endedAt, preview := s.preview)
  {
  }

  /** Where the agent is known, a task queued and promoted ends as the same row as one submitted to the idle session. */
  lemma PromotedLikeSubmitted(session: nat, prompt: string, mode: Mode, d: Delivery, now: int)
    requires d.sessionFound && d.agentFound
    ensures Submitted([], session, prompt, mode, d, now)
         == [PromotedRow(NewRow(session, prompt, Pending, mode, None, now), d, now)]
  {
    assert !HasWorking([], session);
  }

  /** Where it is not, the promoted task fails and the submitted one is left running. */
  lemma UnknownAgentDiffers(session: nat, prompt: string, mode: Mode, d: Delivery, now: int)
    requires d.sessionFound && !d.agentFound
    ensures PromotedRow(NewRow(session, prompt, Pending, mode, None, now), d, now).status == Error
    ensures |Submitted([], session, prompt, mode, d, now)| == 1
        && Submitted([], session, prompt, mode, d, now)[0].status == Running
  {
    assert !HasWorking([], session);
  }

  // ---- errors ----

  predicate HasText(preview: Option<string>) {
    preview.Some? && preview.value != ""
  }

  /** A running task survives every error; what the error is only shows in an empty preview and in the error count. */
  lemma RunningSurvivesError(r: Task, info: ErrorInfo, now: int)
    requires r.status == Running
    ensures var s := AfterEvent(SessionError(info), r, now);
            var text := if info.lost then "Recovering: session data lost, retrying fresh..."
                        else if info.recoverable then "Recovering" + info.retryInfo + ": " + info.text
                        else if info.overflow then "Compacting: " + info.text
                        else "Recovering: " + info.text;
            var counted := info.transient && !info.lost && !info.recoverable && !info.overflow;
            s == r.(preview := if HasText(r.preview) then r.preview else Some(Truncate(text, 200)),
                    llmErrors := if counted then r.llmErrors + 1 else r.llmErrors)
  {
  }

  /** Any other task is ended by an error that is neither announced as recoverable nor an overflow it may sit out. */
  lemma OtherErrorOutcome(r: Task, info: ErrorInfo, now: int)
    requires r.status != Running
    ensures var s := AfterEvent(SessionError(info), r, now);
            var sitsOut := !info.lost && info.overflow && (r.status == Error || r.status == Interrupted);
            && (!info.lost && info.recoverable ==> s.status == r.status && s.endedAt == r.endedAt)
            && (sitsOut && !info.recoverable && r.status == Error ==> s.status == WaitingInput && s.endedAt.None?)
            && (sitsOut && !info.recoverable && r.status == Interrupted ==> s == r)
            && (info.lost || (!info.recoverable && !sitsOut) ==> s.status == Error && s.endedAt == Some(now))
  {
  }

  // ---- operations of the user ----

  lemma SubmissionOutcome(t: Table, session: nat, prompt: string, mode: Mode, d: Delivery, now: int)
    ensures var u := Submitted(t, session, prompt, mode, d, now);
            && (!d.sessionFound ==> u == t)
            && (d.sessionFound ==>
                  && |u| == |t| + 1 && u[..|t|] == t
                  && var r := u[|t|];
                     && r.session == session && r.prompt == prompt && r.mode == mode && r.createdAt == now
                     && r.fromSchedule.None? && r.output.None? && r.decision.None? && r.seqStart.None?
                         && r.modelVersion.None?
                     && (r.status == Pending <==> AtWork(t, session))
                     && (r.status == Error <==> !AtWork(t, session) && d.agentFound && !d.sendOk && !d.resumeOk)
                     && (r.status != Pending && r.status != Error ==> r.status == Running)
                     && r.startedAt == (if AtWork(t, session) then None else Some(now))
                     && r.endedAt == (if r.status == Error then Some(now) else None)
                     && r.preview == if r.status == Error then Some(Truncate("Error: " + d.error, 200)) else None)
  {
    AtWorkIff(t, session);
  }

  predicate Completable(s: Status) {
    s == Running || s == Busy || s == WaitingInput || s == Interrupted
  }

  lemma CompletionOutcome(t: Table, id: nat, d: Delivery, now: int)
    ensures var u := HandCompleted(t, id, d, now);
            && |u| == |t|
            && (id < |t| && Completable(t[id].status) ==> u[id] == t[id].(status := Completed, endedAt := Some(now)))
            && (id >= |t| || !Completable(t[id].status) ==> u == t)
  {
    if id < |t| && Completable(t[id].status) {
      var w := SetRow(t, id, t[id].(status := Completed, endedAt := Some(now)));
      assert LowestPending(w, t[id].session) != Some(id);
    }
  }

  lemma NewestIff(t: Table, session: nat, i: nat)
    ensures Latest(t, session, ANY) == Some(i) <==> Newest(t, i) && t[i].session == session
  {
    var newest := Latest(t, session, ANY);
    forall j | 0 <= j < |t| ensures InSession(t[j], session, ANY) <==> t[j].session == session {
      AnyIsEvery(t[j].status);
    }
  }

  /**
   A message reopens the session's newest task exactly when nothing of the session is at work and that
   task has ended without approval.
   */
  lemma MessageOutcome(t: Table, session: nat, now: int, i: nat)
    requires i < |t|
    ensures var u := Messaged(t, session, now);
            var s := t[i].status;
            var reopened := t[i].session == session && Newest(t, i) && !AtWork(t, session)
                            && (s == Completed || s == Error || s == Interrupted || s == Cancelled);
            && |u| == |t|
            && u[i] == if reopened
                       then t[i].(status := Running, endedAt := None,
                                  startedAt := if t[i].startedAt.Some? then t[i].startedAt else Some(now))
                       else t[i]
  {
    AtWorkIff(t, session);
    NewestIff(t, session, i);
  }

  /** Approving ends a task, declining cancels it, overriding hands it back; the first decision stays on record. */
  lemma DecisionOutcome(t: Table, id: nat, decision: Decision, now: int)
    requires id < |t|
    ensures var u := Apply(t, DecideByHand(id, decision), now);
            && |u| == |t| && (forall i :: 0 <= i < |t| && i != id ==> u[i] == t[i])
            && (t[id].status != PendingApproval ==> u[id] == t[id])
            && (t[id].status == PendingApproval ==>
                  && (decision == ApprovedByHuman ==> u[id].status == Approved && u[id].endedAt == Some(now))
                  && (decision == DeclinedByHuman ==> u[id].status == Cancelled && u[id].endedAt == Some(now))
                  && (decision == OverriddenByHuman ==> u[id].status == WaitingInput && u[id].endedAt == t[id].endedAt)
                  && u[id].decision == (if t[id].decision.Some? then t[id].decision else Some(decision))
                  && u[id] == t[id].(status := u[id].status, endedAt := u[id].endedAt, decision := u[id].decision))
  {
  }

  /** A decision is taken once: whatever is decided next has no effect. */
  lemma DecidedOnce(t: Table, id: nat, first: Decision, second: Decision, a: int, b: int)
    ensures var u := Apply(t, DecideByHand(id, first), a);
            Apply(u, DecideByHand(id, second), b) == u
  {
  }

  /** Of the three decisions, overriding alone lets the user's next message set the task running again. */
  lemma OnlyOverriddenResumes(r: Task, decision: Decision, seqNo: int, detected: Option<Decision>, a: int, b: int)
    ensures AfterEvent(UserMessage(seqNo, detected), Decided(r, decision, a), b).status == Running
        <==> decision == OverriddenByHuman
  {
  }

  lemma CancellationOutcome(t: Table, id: nat, now: int)
    requires id < |t|
    ensures var u := Apply(t, CancelByHand(id), now);
            && |u| == |t| && (forall i :: 0 <= i < |t| && i != id ==> u[i] == t[i])
            && u[id] == if t[id].status == Pending then t[id].(status := Cancelled, endedAt := Some(now)) else t[id]
  {
  }

  // ---- Pass A, report by report ----

  /** The statuses Pass A looks at. */
  predicate Listed(s: Status) {
    s == Running || s == Busy || s == WaitingInput || s == Interrupted || s == Error
  }

  lemma PickedIff(t: Table, i: nat)
    ensures Picked(t, i) <==> i < |t| && Listed(t[i].status)
                              && forall j :: i < j < |t| && t[j].session == t[i].session ==> !Listed(t[j].status)
  {
    assert forall s: Status :: Listed(s) <==> s in RECONCILABLE;
  }

  predicate Found(g: Answer) {
    g.sessionFound && g.agentFound
  }

  /** The end time an active report leaves behind: cleared on a task it revives, as it was on any other. */
  function RevivedEnd(r: Task): Option<int> {
    if r.status == Interrupted || r.status == Error then None else r.endedAt
  }

  /** Silent for more than thirty minutes on a task at work for more than thirty minutes. */
  predicate Silent(r: Task, g: Answer, now: int) {
    && r.status == Running && g.updatedAt.Some? && now - g.updatedAt.value > 30 * 60 * 1000
    && now - (match r.startedAt case Some(start) => start case None => r.createdAt) > 30 * 60 * 1000
  }

  lemma NothingToSync(r: Task, g: Answer, now: int)
    requires !Found(g) || g.reply.NoState? || (g.reply.Reports? && g.reply.state == GOther)
    ensures Synced(r, g, now) == r
  {
  }

  lemma UnreachableOutcome(r: Task, g: Answer, now: int)
    requires Found(g) && g.reply.Unreachable?
    ensures Synced(r, g, now) ==
              if r.status == Running || r.status == WaitingInput then r.(status := Interrupted, endedAt := Some(now))
                  else r
  {
  }

  lemma CompletedOutcome(r: Task, g: Answer, now: int)
    requires Found(g) && g.reply.Reports? && g.reply.state == GCompleted
    ensures Synced(r, g, now) ==
              if r.mode == Auto then r.(status := Completed, endedAt := Some(now))
              else if r.status == WaitingInput then r
              else r.(status := WaitingInput, endedAt := None)
  {
  }

  lemma InterruptedOutcome(r: Task, g: Answer, now: int)
    requires Found(g) && g.reply.Reports? && g.reply.state == GInterrupted
    ensures Synced(r, g, now) ==
              if r.mode == Auto && g.resumeOk then r.(status := Running, endedAt := None)
              else if r.status == Interrupted then r
              else r.(status := Interrupted, endedAt := Some(now))
  {
  }

  lemma ErrorOutcome(r: Task, g: Answer, now: int)
    requires Found(g) && g.reply.Reports? && g.reply.state == GError
    ensures Synced(r, g, now) ==
              if r.status == Error then r
              else if g.reply.overflow then r.(status := WaitingInput, endedAt := None)
              else r.(status := Error, endedAt := Some(now))
  {
  }

  lemma WaitingOutcome(r: Task, g: Answer, now: int)
    requires Found(g) && g.reply.Reports? && Listed(r.status)
    ensures g.reply.state == GWaitingInput ==> Synced(r, g, now) == r.(status := WaitingInput, endedAt := RevivedEnd(r))
    ensures g.reply.state == GPendingApproval
        ==> Synced(r, g, now) == r.(status := PendingApproval, endedAt := RevivedEnd(r))
  {
  }

  lemma RunningOutcome(r: Task, g: Answer, now: int)
    requires Found(g) && g.reply.Reports? && Listed(r.status)
    ensures g.reply.state == GBusy ==> Synced(r, g, now) == r.(status := Running, endedAt := RevivedEnd(r))
    ensures g.reply.state == GRunning && !Silent(r, g, now) ==>
              Synced(r, g, now) == r.(status := Running, endedAt := RevivedEnd(r))
    ensures g.reply.state == GRunning && Silent(r, g, now) ==>
              var s := Synced(r, g, now);
              && s == r.(status := Error, endedAt := Some(now), preview := s.preview)
              && s.preview.Some? && TellsSilence(s.preview.value, now - g.updatedAt.value)
  {
    if g.reply.state == GRunning && Silent(r, g, now) {
      DecimalIsNumber((now - g.updatedAt.value) / 60000);
      assert StaleNote(now - g.updatedAt.value) == Synced(r, g, now).preview.value;
    }
  }

  predicate Digits(s: string) {
    forall k :: 0 <= k < |s| ==> '0' <= s[k] <= '9'
  }

  /** The number a string of decimal digits writes. */
  function NumberOf(digits: string): nat
    requires Digits(digits)
  {
    if digits == "" then 0
    else 10 * NumberOf(digits[..|digits| - 1]) + (digits[|digits| - 1] as int - '0' as int)
  }

  /** The note on a silent task names the whole minutes of silence, in decimal digits without a leading zero. */
  ghost predicate TellsSilence(note: string, ms: int) {
    exists n :: Digits(n) && n != "" && (n[0] == '0' ==> n == "0") && NumberOf(n) == ms / 60000
                && note == "Session stale (no activity for " + n
                           + " min) \U{2014} likely lost after restart. Start a new task."
  }

  lemma {:induction false} DecimalIsNumber(n: nat)
    ensures Decimal(n) != "" && (n > 0 ==> Decimal(n)[0] != '0') && (n == 0 ==> Decimal(n) == "0")
    ensures Digits(Decimal(n)) && NumberOf(Decimal(n)) == n
  {
    if n >= 10 {
      DecimalIsNumber(n / 10);
      var d := Decimal(n);
      assert d[..|d| - 1] == Decimal(n / 10);
    } else {
      var d := Decimal(n);
      assert d[..|d| - 1] == "";
      assert NumberOf(d[..|d| - 1]) == 0;
    }
  }

  // ---- Pass A and the other operations ----

  /** A task whose gateway cannot be reached is left where its owner can complete it by hand. */
  lemma UnreachableCanBeCompleted(t: Table, g: nat -> Answer, i: nat, d: Delivery, a: int, b: int)
    requires Picked(t, i) && Found(g(t[i].session)) && g(t[i].session).reply.Unreachable?
    requires t[i].status == Running || t[i].status == WaitingInput
    ensures |HandCompleted(PassA(t, g, a), i, d, b)| == |t|
    ensures HandCompleted(PassA(t, g, a), i, d, b)[i].status == Completed
  {
    UnreachableOutcome(t[i], g(t[i].session), a);
    CompletionOutcome(PassA(t, g, a), i, d, b);
  }

  /** Status and end time agree. */
  predicate SameState(r: Task, s: Task) {
    r.status == s.status && r.endedAt == s.endedAt
  }

  /**
   A missed completion or interruption is made up for: Pass A leads a task at work to where the event
   would have led it.
   */
  lemma MissedEndIsMadeUp(r: Task, g: Answer, partial: string, now: int)
    requires Found(g) && g.reply.Reports? && EndedOk(r)
    requires r.status == Running || r.status == Busy || r.status == WaitingInput
    ensures g.reply.state == GCompleted ==> SameState(Synced(r, g, now), AfterEvent(SessionCompleted, r, now))
    ensures g.reply.state == GInterrupted && !(r.mode == Auto && g.resumeOk) ==>
              SameState(Synced(r, g, now), AfterEvent(SessionInterrupted(partial), r, now))
  {
  }

  /** A missed error is too, except that the event alone leaves a running task running, for the adapter to recover. */
  lemma MissedErrorIsMadeUp(r: Task, g: Answer, info: ErrorInfo, now: int)
    requires Found(g) && g.reply == Reports(GError, false) && EndedOk(r)
    requires r.status == Running || r.status == Busy || r.status == WaitingInput
    requires !info.lost && !info.recoverable && !info.overflow
    ensures SameState(Synced(r, g, now), AfterEvent(SessionError(info), r, now)) <==> r.status != Running
    ensures Synced(r, g, now).status == Error
  {
  }

  // ---- Pass B ----

  /** No task of the session before row i is queued, row i is, and none is at work. */
  predicate FirstInLine(t: Table, i: nat) {
    && i < |t| && t[i].status == Pending && !AtWork(t, t[i].session)
    && forall j :: 0 <= j < i && t[j].session == t[i].session ==> t[j].status != Pending
  }

  lemma FirstInLineIff(t: Table, i: nat)
    ensures DueForPromotion(t, i) <==> FirstInLine(t, i)
  {
    if i < |t| {
      var s := t[i].session;
      AtWorkIff(t, s);
      var p := LowestPending(t, s);
      forall j | 0 <= j < |t| ensures InSession(t[j], s, {Pending}) <==> t[j].session == s && t[j].status == Pending {
      }
      assert p.Some? && p.value < i ==> InSession(t[p.value], s, {Pending});
    }
  }

  /**
   Row by row: exactly the first in line of an idle session is started, or ends in error when it cannot be
   delivered.
   */
  lemma PassBOutcome(t: Table, d: nat -> Delivery, now: int, i: nat)
    requires i < |t|
    ensures var r, s, e := t[i], PassB(t, d, now)[i], d(t[i].session);
            s == if !FirstInLine(t, i) then r
                 else if Reaches(e) then r.(status := Running, startedAt := Some(now))
                 else r.(status := Error, startedAt := Some(now), endedAt := Some(now), preview := Some(FailureText(e)))
  {
    FirstInLineIff(t, i);
    PromotedOutcome(t[i], d(t[i].session), now);
  }
}
