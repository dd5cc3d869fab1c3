/**
 Repeated ticks of the reconciler: Pass A, then Pass B. With the gateway's answers and the outcomes of
 deliveries held fixed, the two passes together drain a session's queue as far as its tasks let them
 and come to rest, by a measure that both of them lower.
 */
module Ticks {
  import opened Prelude
  import opened TaskRows
  import opened EventHandler
  import opened Reconciler
  import opened Convergence

  function Tick(t: Table, g: nat -> Answer, d: nat -> Delivery, now: int): (u: Table)
    ensures |u| == |t|
  {
    PassB(PassA(t, g, now), d, now)
  }

  /** The table after the first n ticks of a clock. */
  function AfterTicks(t: Table, g: nat -> Answer, d: nat -> Delivery, clock: nat -> int, n: nat): (u: Table)
    ensures |u| == |t|
  {
    if n == 0 then t else Tick(AfterTicks(t, g, d, clock, n - 1), g, d, clock(n - 1))
  }

  /** The n-th tick does not find the session stale. */
  ghost predicate CalmAt(t: Table, session: nat, g: nat -> Answer, d: nat -> Delivery, clock: nat -> int, n: nat) {
    !StaleLoop(AfterTicks(t, g, d, clock, n), session, g, clock(n))
  }

  /** Pass A has nothing to sync in the session and Pass B nothing to promote. */
  ghost predicate Resting(t: Table, session: nat, g: nat -> Answer) {
    Settled(t, session, g) && !Promotable(t, session)
  }

  /** What is left to do: a queued task will be promoted and then synced, a reconcilable one synced. */
  function Work(t: Table, session: nat): nat {
    2 * CountIn(t, session, {Pending}) + CountIn(t, session, RECONCILABLE)
  }

  // ---- rows of one session ----

  lemma SameRowsCompose(t: Table, u: Table, v: Table, session: nat)
    requires SameRows(t, u, session) && SameRows(u, v, session)
    ensures SameRows(t, v, session)
  {
  }

  lemma PromotableAgrees(t: Table, u: Table, session: nat)
    requires SameRows(t, u, session)
    ensures Promotable(u, session) <==> Promotable(t, session)
  {
    forall i | 0 <= i < |t|
      ensures InSession(u[i], session, {Pending}) <==> InSession(t[i], session, {Pending})
      ensures InSession(u[i], session, WORKING) <==> InSession(t[i], session, WORKING)
    {
    }
  }

  lemma {:induction false} NoneToCount(t: Table, session: nat, among: set<Status>)
    requires CountIn(t, session, among) == 0
    ensures forall i :: 0 <= i < |t| ==> !InSession(t[i], session, among)
  {
    forall i | 0 <= i < |t| ensures !InSession(t[i], session, among) {
      if InSession(t[i], session, among) { CountPositive(t, i, session, among); }
    }
  }

  // ---- one tick ----

  /** Pass A leaves the queue alone and makes no task reconcilable. */
  lemma PassACounts(t: Table, session: nat, g: nat -> Answer, now: int)
    ensures CountIn(PassA(t, g, now), session, {Pending}) == CountIn(t, session, {Pending})
    ensures CountIn(PassA(t, g, now), session, RECONCILABLE) <= CountIn(t, session, RECONCILABLE)
  {
    var u := PassA(t, g, now);
    if i: nat :| Picked(t, i) && t[i].session == session {
      var r := Synced(t[i], g(session), now);
      SyncKeepsIdentity(t[i], g(session), now);
      SyncNeverQueues(t[i], g(session), now);
      PassAInSession(t, g, now, i);
      CountSetRow(t, i, r, session, RECONCILABLE);
      CountSetRow(t, i, r, session, {Pending});
      CountAgrees(SetRow(t, i, r), u, session, RECONCILABLE);
      CountAgrees(SetRow(t, i, r), u, session, {Pending});
    } else {
      UnpickedSession(t, g, now, session);
      CountAgrees(t, u, session, RECONCILABLE);
      CountAgrees(t, u, session, {Pending});
    }
  }

  lemma SyncNeverQueues(r: Task, g: Answer, now: int)
    requires r.status in RECONCILABLE
    ensures Synced(r, g, now).status != Pending
  {
  }

  /** Promotion trades a queued task for a reconcilable one. */
  lemma PassBCounts(t: Table, session: nat, d: nat -> Delivery, now: int)
    requires Promotable(t, session)
    ensures Work(PassB(t, d, now), session) + 1 == Work(t, session)
  {
    var u := PassB(t, d, now);
    PassBInSession(t, d, now, session);
    var p := LowestPending(t, session).value;
    var r := PromotedRow(t[p], d(session), now);
    assert r.status in {Running, Error};
    CountSetRow(t, p, r, session, {Pending});
    CountSetRow(t, p, r, session, RECONCILABLE);
    CountAgrees(SetRow(t, p, r), u, session, {Pending});
    CountAgrees(SetRow(t, p, r), u, session, RECONCILABLE);
  }

  /** After a calm tick the session is at rest, or there is less left to do. */
  lemma TickRestsOrShrinks(t: Table, session: nat, g: nat -> Answer, d: nat -> Delivery, now: int)
    requires !StaleLoop(t, session, g, now)
    ensures Resting(Tick(t, g, d, now), session, g) || Work(Tick(t, g, d, now), session) < Work(t, session)
  {
    var a := PassA(t, g, now);
    PassACounts(t, session, g, now);
    if Promotable(a, session) {
      PassBCounts(a, session, d, now);
    } else {
      UnpromotableSession(a, d, now, session);
      PassASettlesOrShrinks(t, session, g, now);
      IdlePassB(a, PassB(a, d, now), session, g);
    }
  }

  lemma IdlePassB(a: Table, u: Table, session: nat, g: nat -> Answer)
    requires SameRows(a, u, session) && !Promotable(a, session)
    ensures Work(u, session) == Work(a, session)
    ensures Settled(a, session, g) ==> Resting(u, session, g)
  {
    CountAgrees(a, u, session, {Pending});
    CountAgrees(a, u, session, RECONCILABLE);
    PromotableAgrees(a, u, session);
    if Settled(a, session, g) { SettledTransfers(a, u, session, g); }
  }

  /** A calm tick does not change a session at rest. */
  lemma RestingTick(t: Table, session: nat, g: nat -> Answer, d: nat -> Delivery, now: int)
    requires Resting(t, session, g) && !StaleLoop(t, session, g, now)
    ensures SameRows(t, Tick(t, g, d, now), session) && Resting(Tick(t, g, d, now), session, g)
  {
    var a := PassA(t, g, now);
    assert Calm(t, session, g, [now]);
    SettledIsFixed(t, session, g, [now]);
    assert [now][1..] == [] && Passes(t, g, [now]) == Passes(a, g, []) == a;
    PromotableAgrees(t, a, session);
    UnpromotableSession(a, d, now, session);
    SettledTransfers(t, a, session, g);
    IdlePassB(a, Tick(t, g, d, now), session, g);
    SameRowsCompose(t, a, Tick(t, g, d, now), session);
  }

  // ---- convergence ----

  lemma NoWorkRests(t: Table, session: nat, g: nat -> Answer)
    requires Work(t, session) == 0
    ensures Resting(t, session, g)
  {
    NoneToCount(t, session, {Pending});
    NoneToCount(t, session, RECONCILABLE);
    forall i: nat | Picked(t, i) ensures t[i].session != session {
      assert !InSession(t[i], session, RECONCILABLE);
    }
  }

  lemma RestingQueue(u: Table, session: nat, g: nat -> Answer)
    requires Resting(u, session, g)
    ensures HasWorking(u, session) || forall i :: 0 <= i < |u| ==> !InSession(u[i], session, {Pending})
  {
  }

  /** What holds at n and passes from each number to the next holds from n on. */
  lemma {:induction false} Persists(p: nat -> bool, n: nat, m: nat)
    requires n <= m && p(n) && forall k: nat :: n <= k < m && p(k) ==> p(k + 1)
    ensures p(m)
    decreases m - n
  {
    if n < m { Persists(p, n + 1, m); }
  }

  predicate Falls(p: nat -> bool, left: nat -> nat, k: nat) {
    p(k + 1) || 0 < left(k + 1) < left(k)
  }

  /** A number that falls until p holds has at most its own value of steps to fall. */
  lemma {:induction false} Descends(p: nat -> bool, left: nat -> nat, n: nat, m: nat)
    requires n <= m && m - n >= left(n) && (left(n) == 0 ==> p(n))
    requires forall k: nat :: n <= k < m && p(k) ==> p(k + 1)
    requires forall k: nat :: n <= k < m ==> Falls(p, left, k)
    ensures p(m)
    decreases m - n
  {
    if left(n) == 0 {
      Persists(p, n, m);
    } else if p(n + 1) {
      Persists(p, n + 1, m);
    } else {
      assert Falls(p, left, n);
      Descends(p, left, n + 1, m);
    }
  }

  /** After k ticks the session is at rest, with the rows it had after n. */
  ghost function RestsSince(t: Table, session: nat, g: nat -> Answer, d: nat -> Delivery, clock: nat -> int,
                            n: nat): nat -> bool {
    (k: nat) => Resting(AfterTicks(t, g, d, clock, k), session, g)
                && SameRows(AfterTicks(t, g, d, clock, n), AfterTicks(t, g, d, clock, k), session)
  }

  ghost function RestsAt(t: Table, session: nat, g: nat -> Answer, d: nat -> Delivery, clock: nat -> int): nat -> bool {
    (k: nat) => Resting(AfterTicks(t, g, d, clock, k), session, g)
  }

  ghost function WorkAt(t: Table, session: nat, g: nat -> Answer, d: nat -> Delivery, clock: nat -> int): nat -> nat {
    (k: nat) => Work(AfterTicks(t, g, d, clock, k), session)
  }

  lemma TickKeepsRest(t: Table, session: nat, g: nat -> Answer, d: nat -> Delivery, clock: nat -> int, n: nat, k: nat)
    requires CalmAt(t, session, g, d, clock, k)
    ensures var p := RestsSince(t, session, g, d, clock, n); p(k) ==> p(k + 1)
    ensures var q := RestsAt(t, session, g, d, clock); q(k) ==> q(k + 1)
  {
    var u := AfterTicks(t, g, d, clock, k);
    if Resting(u, session, g) {
      RestingTick(u, session, g, d, clock(k));
      if SameRows(AfterTicks(t, g, d, clock, n), u, session) {
        SameRowsCompose(AfterTicks(t, g, d, clock, n), u, AfterTicks(t, g, d, clock, k + 1), session);
      }
    }
  }

  lemma TickLowersWork(t: Table, session: nat, g: nat -> Answer, d: nat -> Delivery, clock: nat -> int, k: nat)
    requires CalmAt(t, session, g, d, clock, k)
    ensures Falls(RestsAt(t, session, g, d, clock), WorkAt(t, session, g, d, clock), k)
  {
    var u, v := AfterTicks(t, g, d, clock, k), AfterTicks(t, g, d, clock, k + 1);
    TickRestsOrShrinks(u, session, g, d, clock(k));
    if Work(v, session) == 0 { NoWorkRests(v, session, g); }
  }

  lemma RestLasts(t: Table, session: nat, g: nat -> Answer, d: nat -> Delivery, clock: nat -> int, n: nat, m: nat)
    requires n <= m && RestsSince(t, session, g, d, clock, n)(n)
    requires forall k: nat :: n <= k < m ==> CalmAt(t, session, g, d, clock, k)
    ensures RestsSince(t, session, g, d, clock, n)(m)
  {
    var p := RestsSince(t, session, g, d, clock, n);
    forall k: nat | n <= k < m ensures p(k) ==> p(k + 1) {
      TickKeepsRest(t, session, g, d, clock, n, k);
    }
    Persists(p, n, m);
  }

  lemma RestInTime(t: Table, session: nat, g: nat -> Answer, d: nat -> Delivery, clock: nat -> int, n: nat, m: nat)
    requires n <= m && m - n >= WorkAt(t, session, g, d, clock)(n)
    requires forall k: nat :: n <= k < m ==> CalmAt(t, session, g, d, clock, k)
    ensures RestsAt(t, session, g, d, clock)(m)
  {
    var p, left := RestsAt(t, session, g, d, clock), WorkAt(t, session, g, d, clock);
    forall k: nat | n <= k < m ensures p(k) ==> p(k + 1) {
      TickKeepsRest(t, session, g, d, clock, k, k);
    }
    forall k: nat | n <= k < m ensures Falls(p, left, k) {
      TickLowersWork(t, session, g, d, clock, k);
    }
    NoWorkAt(t, session, g, d, clock, n);
    Descends(p, left, n, m);
  }

  lemma NoWorkAt(t: Table, session: nat, g: nat -> Answer, d: nat -> Delivery, clock: nat -> int, n: nat)
    ensures WorkAt(t, session, g, d, clock)(n) == 0 ==> RestsAt(t, session, g, d, clock)(n)
  {
    if Work(AfterTicks(t, g, d, clock, n), session) == 0 {
      NoWorkRests(AfterTicks(t, g, d, clock, n), session, g);
    }
  }

  lemma RestBegins(t: Table, session: nat, g: nat -> Answer, d: nat -> Delivery, clock: nat -> int, n: nat)
    requires RestsAt(t, session, g, d, clock)(n)
    ensures RestsSince(t, session, g, d, clock, n)(n)
  {
  }

  /**
   Whole ticks converge: with answers and deliveries fixed and the session never found stale, it is at
   rest after as many ticks as it has reconcilable tasks and twice its queued ones; its rows do not
   change any more, and what is still queued waits behind a task at work.
   */
  lemma TicksConverge(t: Table, session: nat, g: nat -> Answer, d: nat -> Delivery, clock: nat -> int, m: nat)
    requires m >= Work(t, session) && forall k: nat :: k < m ==> CalmAt(t, session, g, d, clock, k)
    ensures var u := AfterTicks(t, g, d, clock, Work(t, session));
            && SameRows(u, AfterTicks(t, g, d, clock, m), session)
            && (HasWorking(u, session) || forall i :: 0 <= i < |u| ==> !InSession(u[i], session, {Pending}))
  {
    var n := Work(t, session);
    RestInTime(t, session, g, d, clock, 0, n);
    RestBegins(t, session, g, d, clock, n);
    RestLasts(t, session, g, d, clock, n, m);
    RestingQueue(AfterTicks(t, g, d, clock, n), session, g);
  }

  // ---- exactly when ticks come to rest ----

  /** From the n-th tick on the session's rows never change again. */
  ghost predicate RestsFrom(t: Table, session: nat, g: nat -> Answer, d: nat -> Delivery, clock: nat -> int, n: nat) {
    forall m: nat :: n <= m ==> SameRows(AfterTicks(t, g, d, clock, n), AfterTicks(t, g, d, clock, m), session)
  }

  ghost predicate CalmFrom(t: Table, session: nat, g: nat -> Answer, d: nat -> Delivery, clock: nat -> int, n: nat) {
    forall m: nat :: n <= m ==> CalmAt(t, session, g, d, clock, m)
  }

  lemma CalmRests(t: Table, session: nat, g: nat -> Answer, d: nat -> Delivery, clock: nat -> int, n: nat)
    requires CalmFrom(t, session, g, d, clock, n)
    ensures RestsFrom(t, session, g, d, clock, n + Work(AfterTicks(t, g, d, clock, n), session))
  {
    var r := n + Work(AfterTicks(t, g, d, clock, n), session);
    RestInTime(t, session, g, d, clock, n, r);
    RestBegins(t, session, g, d, clock, r);
    forall m: nat | r <= m ensures SameRows(AfterTicks(t, g, d, clock, r), AfterTicks(t, g, d, clock, m), session) {
      RestLasts(t, session, g, d, clock, r, m);
    }
  }

  /** A tick that finds the session stale changes it: Pass A flips a task that is not queued. */
  lemma StaleTickChanges(t: Table, session: nat, g: nat -> Answer, d: nat -> Delivery, now: int)
    requires StaleLoop(t, session, g, now)
    ensures !SameRows(t, Tick(t, g, d, now), session)
  {
    var a := PassA(t, g, now);
    var i: nat :| Picked(t, i) && t[i].session == session;
    StaleSurvives(t, session, g, now, now, i);
    StaleFlips(t, session, g, now, i);
    assert a[i].status in {Running, Error} && !DueForPromotion(a, i);
  }

  lemma RestedIsCalm(t: Table, session: nat, g: nat -> Answer, d: nat -> Delivery, clock: nat -> int, n: nat)
    requires RestsFrom(t, session, g, d, clock, n)
    ensures CalmFrom(t, session, g, d, clock, n)
  {
    forall m: nat | n <= m ensures CalmAt(t, session, g, d, clock, m) {
      var u, v := AfterTicks(t, g, d, clock, m), AfterTicks(t, g, d, clock, m + 1);
      assert SameRows(AfterTicks(t, g, d, clock, n), u, session) && SameRows(AfterTicks(t, g, d, clock, n), v, session);
      if StaleLoop(u, session, g, clock(m)) {
        StaleTickChanges(u, session, g, d, clock(m));
      }
    }
  }

  /** Under any clock, a session comes to rest under repeated ticks if and only if only finitely many find it stale. */
  lemma TicksRestIff(t: Table, session: nat, g: nat -> Answer, d: nat -> Delivery, clock: nat -> int)
    ensures (exists n: nat :: RestsFrom(t, session, g, d, clock, n))
        <==> (exists n: nat :: CalmFrom(t, session, g, d, clock, n))
  {
    if n: nat :| RestsFrom(t, session, g, d, clock, n) {
      RestedIsCalm(t, session, g, d, clock, n);
    }
    if n: nat :| CalmFrom(t, session, g, d, clock, n) {
      CalmRests(t, session, g, d, clock, n);
    }
  }

  // ---- a guard that needs no history ----

  /** The gateway's answer for the session can be held against no task at this time. */
  predicate Talking(g: Answer, now: int) {
    || !(g.sessionFound && g.agentFound && g.reply.Reports? && g.reply.state == GRunning && g.updatedAt.Some?)
    || now - g.updatedAt.value <= STALE_TIMEOUT_MS
  }

  /** While the gateway does not report a silent running session, every session comes to rest. */
  lemma TalkingRests(t: Table, session: nat, g: nat -> Answer, d: nat -> Delivery, clock: nat -> int)
    requires forall k: nat :: Talking(g(session), clock(k))
    ensures RestsFrom(t, session, g, d, clock, Work(t, session))
  {
    forall m: nat ensures CalmAt(t, session, g, d, clock, m) {
      assert Talking(g(session), clock(m));
    }
    CalmRests(t, session, g, d, clock, 0);
  }
}
