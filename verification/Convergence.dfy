/**
 What repeated reconciler passes do. With the gateway's answers held fixed, Pass A settles every
 session after at most as many passes as the session has reconcilable tasks, unless the picked
 task is stale; then error recovery and staleness undo each other for ever. Pass B is exact.
 */
module Convergence {
  import opened Prelude
  import opened TaskRows
  import opened EventHandler
  import opened Reconciler

  /** Pass A at each of the given clock readings in turn. */
  ghost function Passes(t: Table, g: nat -> Answer, times: seq<int>): (u: Table)
    ensures |u| == |t|
    decreases |times|
  {
    if times == [] then t else Passes(PassA(t, g, times[0]), g, times[1..])
  }

  ghost predicate SameRows(t: Table, u: Table, session: nat) {
    |u| == |t| && forall i :: 0 <= i < |t| && (t[i].session == session || u[i].session == session) ==> u[i] == t[i]
  }

  /** Pass A will take its stale branch for this session at this time. */
  ghost predicate StaleLoop(t: Table, session: nat, g: nat -> Answer, now: int) {
    var a := g(session);
    && a.sessionFound && a.agentFound && a.reply.Reports? && a.reply.state == GRunning
    && exists i: nat :: Picked(t, i) && t[i].session == session && Stale(t[i], a, now)
  }

  ghost predicate Calm(t: Table, session: nat, g: nat -> Answer, times: seq<int>) {
    forall now :: now in times ==> !StaleLoop(t, session, g, now)
  }

  /** No further pass changes the session while it stays calm. */
  ghost predicate Settled(t: Table, session: nat, g: nat -> Answer) {
    forall i: nat, now :: Picked(t, i) && t[i].session == session && !StaleLoop(t, session, g, now)
      ==> Synced(t[i], g(session), now) == t[i]
  }

  // ---- one pass ----

  /** A pass touches at most one row of a session. */
  lemma PassAChangesOneRowPerSession(t: Table, g: nat -> Answer, now: int, i: nat, j: nat)
    requires i < |t| && j < |t| && t[i].session == t[j].session
    requires PassA(t, g, now)[i] != t[i] && PassA(t, g, now)[j] != t[j]
    ensures i == j && t[i].status in RECONCILABLE
  {
    assert Picked(t, i) && Picked(t, j);
  }

  lemma SyncKeepsIdentity(r: Task, g: Answer, now: int)
    ensures var s := Synced(r, g, now);
            s.session == r.session && s.mode == r.mode && s.createdAt == r.createdAt && s.startedAt == r.startedAt
  {
  }

  /** A row that a calm pass leaves reconcilable is left alone by every later calm pass. */
  lemma SyncIsIdempotent(r: Task, g: Answer, first: int, second: int)
    requires r.status in RECONCILABLE && Synced(r, g, first).status in RECONCILABLE
    requires g.reply.Reports? && g.reply.state == GRunning && g.sessionFound && g.agentFound
      ==> !Stale(r, g, first) && !Stale(r, g, second)
    ensures Synced(Synced(r, g, first), g, second) == Synced(r, g, first)
  {
    SyncKeepsIdentity(r, g, first);
  }

  lemma {:induction false} CountAgrees(t: Table, u: Table, session: nat, among: set<Status>)
    requires SameRows(t, u, session)
    ensures CountIn(u, session, among) == CountIn(t, session, among)
  {
    if t != [] {
      CountAgrees(t[..|t| - 1], u[..|u| - 1], session, among);
    }
  }

  lemma PassAInSession(t: Table, g: nat -> Answer, now: int, i: nat)
    requires Picked(t, i)
    ensures SameRows(SetRow(t, i, Synced(t[i], g(t[i].session), now)), PassA(t, g, now), t[i].session)
  {
    var u := PassA(t, g, now);
    forall j | 0 <= j < |t|
      ensures u[j].session == t[j].session && (j != i && t[j].session == t[i].session ==> u[j] == t[j])
    {
      SyncKeepsIdentity(t[j], g(t[j].session), now);
      assert j != i && t[j].session == t[i].session ==> !Picked(t, j);
    }
    SyncKeepsIdentity(t[i], g(t[i].session), now);
  }

  /** If nothing in the session is picked, a pass leaves the session as it is. */
  lemma UnpickedSession(t: Table, g: nat -> Answer, now: int, session: nat)
    requires forall i: nat :: Picked(t, i) ==> t[i].session != session
    ensures SameRows(t, PassA(t, g, now), session)
  {
    forall j | 0 <= j < |t|
      ensures PassA(t, g, now)[j].session == t[j].session
    {
      SyncKeepsIdentity(t[j], g(t[j].session), now);
    }
  }

  lemma StaleBefore(t: Table, session: nat, g: nat -> Answer, now: int, later: int)
    requires StaleLoop(PassA(t, g, now), session, g, later)
    ensures StaleLoop(t, session, g, later)
  {
    var u := PassA(t, g, now);
    var i: nat :| Picked(u, i) && u[i].session == session && Stale(u[i], g(session), later);
    SyncKeepsIdentity(t[i], g(t[i].session), now);
    PickedStaysPicked(t, g, now, i);
    assert Stale(t[i], g(session), later);
  }

  /** Staleness concerns a row that stays picked, so a pass leaves the rest of a calm schedule calm. */
  lemma CalmPersists(t: Table, session: nat, g: nat -> Answer, now: int, times: seq<int>)
    requires Calm(t, session, g, times)
    ensures Calm(PassA(t, g, now), session, g, times)
  {
    forall later | later in times
      ensures !StaleLoop(PassA(t, g, now), session, g, later)
    {
      if StaleLoop(PassA(t, g, now), session, g, later) {
        StaleBefore(t, session, g, now, later);
      }
    }
  }

  lemma PickedStaysPicked(t: Table, g: nat -> Answer, now: int, i: nat)
    requires Picked(PassA(t, g, now), i)
    requires var a := g(t[i].session);
             a.sessionFound && a.agentFound && a.reply.Reports? && a.reply.state == GRunning
    ensures Picked(t, i)
  {
    var u := PassA(t, g, now);
    forall j | i <= j < |t| && t[j].session == t[i].session
      ensures u[j].session == t[j].session && (u[j].status in RECONCILABLE <==> t[j].status in RECONCILABLE)
    {
      SyncKeepsIdentity(t[j], g(t[j].session), now);
      assert t[j].status in RECONCILABLE ==> Synced(t[j], g(t[j].session), now).status in {Running, Error};
    }
  }

  /** After a calm pass the session is settled, or it has one reconcilable task less. */
  lemma PassASettlesOrShrinks(t: Table, session: nat, g: nat -> Answer, now: int)
    requires !StaleLoop(t, session, g, now)
    ensures var u := PassA(t, g, now);
            || (SameRows(t, u, session) && Settled(u, session, g) && Settled(t, session, g))
            || (CountIn(t, session, RECONCILABLE) > 0 && Settled(u, session, g))
            || CountIn(u, session, RECONCILABLE) + 1 == CountIn(t, session, RECONCILABLE)
  {
    var u := PassA(t, g, now);
    if i: nat :| Picked(t, i) && t[i].session == session {
      var r := Synced(t[i], g(session), now);
      SyncKeepsIdentity(t[i], g(session), now);
      PassAInSession(t, g, now, i);
      CountSetRow(t, i, r, session, RECONCILABLE);
      CountAgrees(SetRow(t, i, r), u, session, RECONCILABLE);
      CountPositive(t, i, session, RECONCILABLE);
      if r.status in RECONCILABLE {
        SettledAfterSync(t, session, g, now, i);
      }
    } else {
      UnpickedSession(t, g, now, session);
      assert forall i: nat :: Picked(u, i) && u[i].session == session ==> Picked(t, i);
    }
  }

  lemma SettledAfterSync(t: Table, session: nat, g: nat -> Answer, now: int, i: nat)
    requires !StaleLoop(t, session, g, now)
    requires Picked(t, i) && t[i].session == session
    requires Synced(t[i], g(session), now).status in RECONCILABLE
    ensures Settled(PassA(t, g, now), session, g)
  {
    var u := PassA(t, g, now);
    var r := Synced(t[i], g(session), now);
    PassAInSession(t, g, now, i);
    SyncKeepsIdentity(t[i], g(session), now);
    assert u[i] == r && Picked(u, i);
    forall j: nat, later | Picked(u, j) && u[j].session == session && !StaleLoop(u, session, g, later)
      ensures Synced(u[j], g(session), later) == u[j]
    {
      assert j == i;
      var a := g(session);
      if a.reply.Reports? && a.reply.state == GRunning && a.sessionFound && a.agentFound {
        assert !Stale(u[i], g(session), later);
        assert !Stale(t[i], g(session), later) && !Stale(t[i], g(session), now);
      }
      SyncIsIdempotent(t[i], g(session), now, later);
    }
  }

  /** A settled session is not changed by calm passes. */
  lemma {:induction false} SettledIsFixed(t: Table, session: nat, g: nat -> Answer, times: seq<int>)
    requires Settled(t, session, g) && Calm(t, session, g, times)
    ensures SameRows(t, Passes(t, g, times), session)
    decreases |times|
  {
    if times != [] {
      var now := times[0];
      var u := PassA(t, g, now);
      forall i | 0 <= i < |t|
        ensures u[i].session == t[i].session && (t[i].session == session ==> u[i] == t[i])
      {
        SyncKeepsIdentity(t[i], g(t[i].session), now);
        assert now in times && !StaleLoop(t, session, g, now);
        assert Picked(t, i) || u[i] == t[i];
      }
      SettledTransfers(t, u, session, g);
      CalmPersists(t, session, g, now, times[1..]);
      SettledIsFixed(u, session, g, times[1..]);
    }
  }

  lemma StaleLoopTransfers(t: Table, u: Table, session: nat, g: nat -> Answer, now: int)
    requires SameRows(t, u, session) && StaleLoop(t, session, g, now)
    ensures StaleLoop(u, session, g, now)
  {
    var k: nat :| Picked(t, k) && t[k].session == session && Stale(t[k], g(session), now);
    assert Picked(u, k);
  }

  lemma SettledTransfers(t: Table, u: Table, session: nat, g: nat -> Answer)
    requires SameRows(t, u, session) && Settled(t, session, g)
    ensures Settled(u, session, g)
  {
    forall i: nat, now | Picked(u, i) && u[i].session == session && !StaleLoop(u, session, g, now)
      ensures Synced(u[i], g(session), now) == u[i]
    {
      assert Picked(t, i) && u[i] == t[i];
      if StaleLoop(t, session, g, now) {
        StaleLoopTransfers(t, u, session, g, now);
      }
    }
  }

  // ---- convergence ----

  lemma {:induction false} SettledInTime(t: Table, session: nat, g: nat -> Answer, times: seq<int>)
    requires Calm(t, session, g, times)
    requires |times| >= CountIn(t, session, RECONCILABLE)
    ensures Settled(Passes(t, g, times), session, g)
    decreases |times|
  {
    if CountIn(t, session, RECONCILABLE) == 0 {
      assert Settled(t, session, g) by {
        forall i: nat | Picked(t, i) ensures t[i].session != session {
          if t[i].session == session { CountPositive(t, i, session, RECONCILABLE); }
        }
      }
      SettledIsFixed(t, session, g, times);
      SettledTransfers(t, Passes(t, g, times), session, g);
    } else {
      var u := PassA(t, g, times[0]);
      PassASettlesOrShrinks(t, session, g, times[0]);
      CalmPersists(t, session, g, times[0], times[1..]);
      if Settled(u, session, g) {
        SettledIsFixed(u, session, g, times[1..]);
        SettledTransfers(u, Passes(u, g, times[1..]), session, g);
      } else {
        SettledInTime(u, session, g, times[1..]);
      }
    }
  }

  lemma {:induction false} PassesCompose(t: Table, g: nat -> Answer, first: seq<int>, rest: seq<int>)
    ensures Passes(t, g, first + rest) == Passes(Passes(t, g, first), g, rest)
    decreases |first|
  {
    if first == [] {
      assert first + rest == rest;
    } else {
      PassesCompose(PassA(t, g, first[0]), g, first[1..], rest);
      assert (first + rest)[1..] == first[1..] + rest;
    }
  }

  lemma {:induction false} CalmThroughout(t: Table, session: nat, g: nat -> Answer, first: seq<int>, rest: seq<int>)
    requires Calm(t, session, g, first + rest)
    ensures Calm(Passes(t, g, first), session, g, rest)
    decreases |first|
  {
    if first == [] {
      assert first + rest == rest;
    } else {
      assert (first + rest)[1..] == first[1..] + rest;
      CalmPersists(t, session, g, first[0], first[1..] + rest);
      CalmThroughout(PassA(t, g, first[0]), session, g, first[1..], rest);
    }
  }

  /**
   Convergence of Pass A: with the gateway's and the resume answers fixed and the session not
   stale, it is at its fixed point after as many passes as it has reconcilable tasks.
   */
  lemma PassAConverges(t: Table, session: nat, g: nat -> Answer, times: seq<int>)
    requires Calm(t, session, g, times)
    requires |times| >= CountIn(t, session, RECONCILABLE)
    ensures SameRows(Passes(t, g, times[..CountIn(t, session, RECONCILABLE)]), Passes(t, g, times), session)
  {
    var k := CountIn(t, session, RECONCILABLE);
    var first, rest := times[..k], times[k..];
    assert first + rest == times;
    PassesCompose(t, g, first, rest);
    CalmThroughout(t, session, g, first, rest);
    SettledInTime(t, session, g, first);
    SettledIsFixed(Passes(t, g, first), session, g, rest);
  }

  /** The whole table: n passes suffice when no session has more than n reconcilable tasks. */
  lemma PassAConvergesEverywhere(t: Table, g: nat -> Answer, times: seq<int>, n: nat)
    requires forall session: nat :: Calm(t, session, g, times) && CountIn(t, session, RECONCILABLE) <= n
    requires |times| >= n
    ensures Passes(t, g, times) == Passes(t, g, times[..n])
  {
    var u, v := Passes(t, g, times[..n]), Passes(t, g, times);
    forall i | 0 <= i < |t| ensures u[i] == v[i] {
      var session := u[i].session;
      var k := CountIn(t, session, RECONCILABLE);
      PassAConverges(t, session, g, times);
      PassAConverges(t, session, g, times[..n]);
      assert times[..n][..k] == times[..k];
    }
  }

  // ---- which tasks a pass changes ----

  /** The answer changes a picked row. */
  predicate Changes(r: Task, g: Answer, now: int) {
    g.sessionFound && g.agentFound
    && match g.reply
       case Unreachable => r.status in {Running, WaitingInput}
       case NoState => false
       case Reports(state, overflow) =>
         match state
         case GCompleted => r.mode == Auto || r.status != WaitingInput
         case GInterrupted =>
           if r.mode == Auto && g.resumeOk then r.status != Running || r.endedAt.Some? else r.status != Interrupted
         case GError => r.status != Error && !(overflow && r.status == WaitingInput && r.endedAt.None?)
         case GRunning => r.status != Running || Stale(r, g, now)
         case GBusy => r.status != Running
         case GWaitingInput => r.status != WaitingInput
         case GPendingApproval => true
         case GOther => false
  }

  lemma ChangesIff(r: Task, g: Answer, now: int)
    requires r.status in RECONCILABLE
    ensures Synced(r, g, now) != r <==> Changes(r, g, now)
  {
    AnyIsEvery(r.status);
  }

  predicate Newest(t: Table, i: nat) {
    i < |t| && forall j :: i < j < |t| ==> t[j].session != t[i].session
  }

  /**
   The reconciler's comment promises that only a session's newest task is synced. A pass keeps every
   older task if and only if the task it picks is the newest or gets an answer that changes nothing.
   */
  lemma OlderKeptIff(t: Table, g: nat -> Answer, now: int, session: nat)
    ensures (forall i: nat :: i < |t| && t[i].session == session && !Newest(t, i) ==> PassA(t, g, now)[i] == t[i])
       <==> (forall i: nat :: Picked(t, i) && t[i].session == session && !Newest(t, i)
               ==> !Changes(t[i], g(session), now))
  {
    forall i: nat | i < |t| && t[i].session == session
      ensures PassA(t, g, now)[i] == t[i] <==> !(Picked(t, i) && Changes(t[i], g(session), now))
    {
      if Picked(t, i) { ChangesIff(t[i], g(session), now); }
    }
  }

  // ---- the bound is tight ----

  /** n automatic tasks of one session, the newest |done| completed, newest first, at the times in `done`. */
  function Backlog(n: nat, created: int, done: seq<int>): (t: Table)
    ensures |t| == n && forall i :: 0 <= i < n ==> t[i] == BacklogRow(n - 1 - i, created, done)
  {
    seq(n, i => BacklogRow(n - 1 - i, created, done))
  }

  /** The k-th newest of them. */
  function BacklogRow(k: int, created: int, done: seq<int>): Task {
    var r := NewRow(0, "", Running, Auto, None, created);
    if 0 <= k < |done| then r.(status := Completed, endedAt := Some(done[k])) else r
  }

  const COMPLETED_ANSWER: Answer := Answer(true, true, Reports(GCompleted, false), None, false)

  lemma BacklogStep(n: nat, created: int, done: seq<int>, now: int)
    requires |done| < n
    ensures PassA(Backlog(n, created, done), (s: nat) => COMPLETED_ANSWER, now) == Backlog(n, created, done + [now])
  {
    var t := Backlog(n, created, done);
    var p := n - 1 - |done|;
    assert t[p].status == Running;
    assert Picked(t, p);
    assert forall i: nat :: Picked(t, i) ==> i == p;
  }

  /** A backlog of n tasks needs all n passes, whenever they are made: after fewer, a row is still running. */
  lemma {:induction false} BoundIsTight(n: nat, created: int, done: seq<int>, times: seq<int>)
    requires |done| + |times| <= n
    ensures Passes(Backlog(n, created, done), (s: nat) => COMPLETED_ANSWER, times) == Backlog(n, created, done + times)
    ensures |done| + |times| < n ==> Backlog(n, created, done + times)[n - 1 - |done| - |times|].status == Running
    decreases |times|
  {
    if times == [] {
      assert done + times == done;
    } else {
      BacklogStep(n, created, done, times[0]);
      BoundIsTight(n, created, done + [times[0]], times[1..]);
      assert done + [times[0]] + times[1..] == done + times;
    }
  }

  // ---- stale sessions never settle ----

  /** Silence only grows: what is stale once is stale at every later reading. */
  lemma StaleStaysStale(t: Table, session: nat, g: nat -> Answer, now: int, later: int)
    requires StaleLoop(t, session, g, now) && now <= later
    ensures StaleLoop(t, session, g, later)
  {
    var i: nat :| Picked(t, i) && t[i].session == session && Stale(t[i], g(session), now);
    assert Stale(t[i], g(session), later);
  }

  /** A pass at any time leaves the stale row picked and stale. */
  lemma StaleSurvives(t: Table, session: nat, g: nat -> Answer, now: int, at: int, i: nat)
    requires StaleLoop(t, session, g, at)
    requires Picked(t, i) && t[i].session == session
    ensures var u := PassA(t, g, now);
            Picked(u, i) && u[i].session == session && u[i].status in {Running, Error} && StaleLoop(u, session, g, at)
  {
    var u := PassA(t, g, now);
    SyncKeepsIdentity(t[i], g(session), now);
    PassAInSession(t, g, now, i);
    assert Picked(u, i) && Stale(u[i], g(session), at);
  }

  lemma StaleFlips(t: Table, session: nat, g: nat -> Answer, now: int, i: nat)
    requires StaleLoop(t, session, g, now)
    requires Picked(t, i) && t[i].session == session
    ensures PassA(t, g, now)[i].status != t[i].status
  {
    assert Stale(t[i], g(session), now);
  }

  /** Row i is the session's picked task, running or in error, and stale at `now`. */
  ghost predicate Flipping(t: Table, session: nat, g: nat -> Answer, now: int, i: nat) {
    var a := g(session);
    && a.sessionFound && a.agentFound && a.reply.Reports? && a.reply.state == GRunning
    && Picked(t, i) && t[i].session == session && t[i].status in {Running, Error} && Stale(t[i], a, now)
  }

  function Flip(s: Status, n: nat): Status {
    if n % 2 == 0 then s else if s == Running then Error else Running
  }

  lemma FlipAgain(s: Status, n: nat)
    requires s in {Running, Error}
    ensures Flip(Flip(s, 1), n) == Flip(s, n + 1)
  {
  }

  /** One pass after a stale reading: the picked task goes from running to error or back, and stays stale. */
  lemma StaleTurn(t: Table, session: nat, g: nat -> Answer, now: int, at: int, i: nat)
    requires Flipping(t, session, g, now, i) && now <= at
    ensures var u := PassA(t, g, at);
            Flipping(u, session, g, now, i) && u[i].status == Flip(t[i].status, 1)
  {
    assert StaleLoop(t, session, g, now);
    StaleStaysStale(t, session, g, now, at);
    StaleSurvives(t, session, g, at, now, i);
    StaleFlips(t, session, g, at, i);
  }

  /** While the gateway keeps saying `running` and stays silent, every pass flips the picked task. */
  lemma {:induction false} StaleNeverSettles(t: Table, session: nat, g: nat -> Answer, now: int, times: seq<int>,
                                             i: nat)
    requires Flipping(t, session, g, now, i) && forall k :: 0 <= k < |times| ==> now <= times[k]
    ensures var u := Passes(t, g, times);
            Flipping(u, session, g, now, i) && u[i].status == Flip(t[i].status, |times|)
    decreases |times|
  {
    if times != [] {
      var u := PassA(t, g, times[0]);
      StaleTurn(t, session, g, now, times[0], i);
      StaleNeverSettles(u, session, g, now, times[1..], i);
      assert Passes(t, g, times) == Passes(u, g, times[1..]);
      FlipAgain(t[i].status, |times[1..]|);
    }
  }

  // ---- exactly the stale sessions never come to rest ----

  /** The first n readings of a clock. */
  function Readings(clock: nat -> int, n: nat): (times: seq<int>)
    ensures |times| == n && forall k: nat :: k < n ==> times[k] == clock(k)
  {
    seq(n, k requires 0 <= k => clock(k))
  }

  /** From some pass on, the session's rows never change again. */
  ghost predicate ComesToRest(t: Table, session: nat, g: nat -> Answer, clock: nat -> int) {
    exists n: nat :: AtRest(t, session, g, clock, n)
  }

  ghost predicate AtRest(t: Table, session: nat, g: nat -> Answer, clock: nat -> int, n: nat) {
    forall m: nat :: n <= m ==> SameRows(Passes(t, g, Readings(clock, n)), Passes(t, g, Readings(clock, m)), session)
  }

  lemma NextReading(t: Table, g: nat -> Answer, clock: nat -> int, n: nat)
    ensures Passes(t, g, Readings(clock, n + 1)) == PassA(Passes(t, g, Readings(clock, n)), g, clock(n))
  {
    assert Readings(clock, n + 1) == Readings(clock, n) + [clock(n)];
    PassesCompose(t, g, Readings(clock, n), [clock(n)]);
    var u := Passes(t, g, Readings(clock, n));
    assert [clock(n)][1..] == [];
    assert Passes(u, g, [clock(n)]) == Passes(PassA(u, g, clock(n)), g, []);
  }

  lemma {:induction false} StaleForEver(t: Table, session: nat, g: nat -> Answer, at: int, times: seq<int>)
    requires StaleLoop(t, session, g, at)
    ensures StaleLoop(Passes(t, g, times), session, g, at)
    decreases |times|
  {
    if times != [] {
      var i: nat :| Picked(t, i) && t[i].session == session;
      StaleSurvives(t, session, g, times[0], at, i);
      StaleForEver(PassA(t, g, times[0]), session, g, at, times[1..]);
    }
  }

  /** Once the clock has passed a stale reading, the next pass changes the session. */
  lemma StaleUnsettles(t: Table, session: nat, g: nat -> Answer, clock: nat -> int, at: int, m: nat)
    requires StaleLoop(t, session, g, at) && at <= clock(m)
    ensures !SameRows(Passes(t, g, Readings(clock, m)), Passes(t, g, Readings(clock, m + 1)), session)
  {
    var u := Passes(t, g, Readings(clock, m));
    StaleForEver(t, session, g, at, Readings(clock, m));
    StaleStaysStale(u, session, g, at, clock(m));
    var i: nat :| Picked(u, i) && u[i].session == session;
    StaleFlips(u, session, g, clock(m), i);
    NextReading(t, g, clock, m);
  }

  lemma CalmComesToRest(t: Table, session: nat, g: nat -> Answer, clock: nat -> int)
    requires forall k: nat :: !StaleLoop(t, session, g, clock(k))
    ensures AtRest(t, session, g, clock, CountIn(t, session, RECONCILABLE))
  {
    var n := CountIn(t, session, RECONCILABLE);
    forall m: nat | n <= m
      ensures SameRows(Passes(t, g, Readings(clock, n)), Passes(t, g, Readings(clock, m)), session)
    {
      var times := Readings(clock, m);
      forall now | now in times ensures !StaleLoop(t, session, g, now) {
        var k: nat :| k < m && times[k] == now;
      }
      assert times[..n] == Readings(clock, n);
      PassAConverges(t, session, g, times);
    }
  }

  /**
   Under any clock that does not run backwards a session comes to rest if and only if it is stale at
   none of the clock's readings. The condition looks at the table before the first pass only.
   */
  lemma RestIffNeverStale(t: Table, session: nat, g: nat -> Answer, clock: nat -> int)
    requires forall j: nat, k: nat :: j <= k ==> clock(j) <= clock(k)
    ensures ComesToRest(t, session, g, clock) <==> forall k: nat :: !StaleLoop(t, session, g, clock(k))
  {
    if k: nat :| StaleLoop(t, session, g, clock(k)) {
      forall n: nat ensures !AtRest(t, session, g, clock, n) {
        var m := if n < k then k else n;
        StaleUnsettles(t, session, g, clock, clock(k), m);
        if AtRest(t, session, g, clock, n) {
          RestIsFinal(t, session, g, clock, n, m);
        }
      }
    } else {
      CalmComesToRest(t, session, g, clock);
    }
  }

  lemma RestIsFinal(t: Table, session: nat, g: nat -> Answer, clock: nat -> int, n: nat, m: nat)
    requires n <= m && AtRest(t, session, g, clock, n)
    ensures SameRows(Passes(t, g, Readings(clock, m)), Passes(t, g, Readings(clock, m + 1)), session)
  {
    assert SameRows(Passes(t, g, Readings(clock, n)), Passes(t, g, Readings(clock, m)), session);
    assert SameRows(Passes(t, g, Readings(clock, n)), Passes(t, g, Readings(clock, m + 1)), session);
  }

  // ---- Pass B ----

  lemma PassBInSession(t: Table, d: nat -> Delivery, now: int, session: nat)
    requires Promotable(t, session)
    ensures var p := LowestPending(t, session);
            p.Some? && SameRows(SetRow(t, p.value, PromotedRow(t[p.value], d(session), now)), PassB(t, d, now), session)
  {
    var p := LowestPending(t, session);
    assert DueForPromotion(t, p.value);
    assert forall i: nat | DueForPromotion(t, i) && t[i].session == session :: i == p.value;
  }

  lemma UnpromotableSession(t: Table, d: nat -> Delivery, now: int, session: nat)
    requires !Promotable(t, session)
    ensures SameRows(t, PassB(t, d, now), session)
  {
    forall i: nat | DueForPromotion(t, i)
      ensures t[i].session != session
    {
      assert InSession(t[i], t[i].session, {Pending});
    }
  }

  /** Pass B takes exactly one task, the oldest, out of every session that has a queue and nothing at work. */
  lemma PassBIsExact(t: Table, d: nat -> Delivery, now: int, session: nat)
    ensures var u := PassB(t, d, now);
            && CountIn(u, session, {Pending})
                + (if Promotable(t, session) then 1 else 0) == CountIn(t, session, {Pending})
            && (!Promotable(t, session) ==> SameRows(t, u, session))
            && (Promotable(t, session) ==>
                  var p := LowestPending(t, session);
                  && p.Some? && SameRows(SetRow(t, p.value, PromotedRow(t[p.value], d(session), now)), u, session)
                  && var e := d(session);
                     u[p.value].status ==
                       if e.sessionFound && e.agentFound && (e.sendOk || e.resumeOk) then Running else Error)
  {
    var u := PassB(t, d, now);
    if Promotable(t, session) {
      PassBInSession(t, d, now, session);
      var p := LowestPending(t, session).value;
      var w := SetRow(t, p, PromotedRow(t[p], d(session), now));
      CountSetRow(t, p, w[p], session, {Pending});
      CountAgrees(w, u, session, {Pending});
    } else {
      UnpromotableSession(t, d, now, session);
      CountAgrees(t, u, session, {Pending});
    }
  }
}
