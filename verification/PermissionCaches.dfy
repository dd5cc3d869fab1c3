/**
 The four permission caches at the grain of single steps. A cache refill is two steps, the query and
 the fill; a write of the store is two steps, the statement and the invalidation; and any other steps
 may come in between. Values are left out here: a cache entry is known by the version of the database
 it was read from.
 */
module PermissionCaches {
  import opened Prelude
  import opened Permissions

  const TTL_MS: int := 5 * 60 * 1000

  const NO_DB: Db := Db([], [], [], [])

  datatype Which = GroupList | GroupsOfUsers | LevelsOfAgents | GrantsOfGroups

  /** A state of the database, the moment it came into force, and whether this store wrote it. */
  datatype Version = Version(db: Db, since: int, own: bool)

  /** A query that was answered from version `version` at time `at`. */
  datatype Read = Read(which: Which, version: nat, at: int)

  /** A cache entry: the query it holds, when it was filled, and how many versions there were by then. */
  datatype Filled = Filled(read: Read, at: int, seen: nat)

  /**
   `pending` are the queries answered but not yet filled in; `inFlight` counts writes not yet followed by
   their invalidation.
   */
  datatype State = State(history: seq<Version>, entries: map<Which, Filled>, pending: seq<Read>, inFlight: nat,
                         clock: int)

  datatype Step =
    | OwnWrite(c: Change)
    | OtherWrite(next: Db)
    | Invalidation
    | Query(which: Which)
    | Fill(k: nat)
    | Hit(which: Which)

  function Present(s: State): Db
    requires s.history != []
  {
    s.history[|s.history| - 1].db
  }

  predicate Usable(f: Filled, now: int) {
    now <= f.at + TTL_MS
  }

  ghost predicate Enabled(s: State, step: Step, now: int) {
    && s.history != [] && s.clock <= now
    && match step
       case Invalidation => s.inFlight > 0
       case Fill(k) => k < |s.pending|
       case Hit(which) => which in s.entries && Usable(s.entries[which], now)
       case _ => true
  }

  function Next(s: State, step: Step, now: int): State
    requires s.history != []
  {
    match step
    case OwnWrite(c) => s.(history := s.history + [Version(Changed(Present(s), c), now, true)],
                           inFlight := s.inFlight + 1, clock := now)
    case OtherWrite(next) => s.(history := s.history + [Version(next, now, false)], clock := now)
    case Invalidation => s.(entries := map[], inFlight := if s.inFlight > 0 then s.inFlight - 1 else 0, clock := now)
    case Query(which) => s.(pending := s.pending + [Read(which, |s.history| - 1, now)], clock := now)
    case Fill(k) =>
      if k < |s.pending| then
        s.(entries := s.entries[s.pending[k].which := Filled(s.pending[k], now, |s.history|)],
           pending := s.pending[..k] + s.pending[k + 1..], clock := now)
      else s.(clock := now)
    case Hit(_) => s.(clock := now)
  }

  // ---- what every step keeps ----

  ghost predicate GoodHistory(h: seq<Version>, clock: int) {
    && h != [] && h[|h| - 1].since <= clock
    && forall i, j :: 0 <= i < j < |h| ==> h[i].since <= h[j].since
  }

  /** Version k was in force at time `at`. */
  ghost predicate InForce(h: seq<Version>, k: nat, at: int) {
    k < |h| && h[k].since <= at && (k + 1 < |h| ==> at <= h[k + 1].since)
  }

  ghost predicate ReadOk(h: seq<Version>, r: Read, clock: int) {
    r.at <= clock && InForce(h, r.version, r.at)
  }

  /**
   An entry holds an answered query; own writes since it was filled are still to be followed by their
   invalidation.
   */
  ghost predicate EntryOk(s: State, f: Filled) {
    && ReadOk(s.history, f.read, f.at) && f.at <= s.clock
    && f.read.version < f.seen <= |s.history|
    && forall v :: f.seen <= v < |s.history| && s.history[v].own ==> s.inFlight > 0
  }

  ghost predicate Sound(s: State) {
    && GoodHistory(s.history, s.clock)
    && (forall k :: 0 <= k < |s.pending| ==> ReadOk(s.history, s.pending[k], s.clock))
    && (forall w :: w in s.entries ==> s.entries[w].read.which == w && EntryOk(s, s.entries[w]))
  }

  lemma ReadStaysOk(h: seq<Version>, v: Version, r: Read, clock: int)
    requires ReadOk(h, r, clock) && clock <= v.since
    ensures ReadOk(h + [v], r, clock)
  {
  }

  lemma WriteKeepsSound(s: State, v: Version, inFlight: nat)
    requires Sound(s) && s.clock <= v.since
    requires inFlight >= s.inFlight && (v.own ==> inFlight > 0)
    ensures Sound(s.(history := s.history + [v], inFlight := inFlight, clock := v.since))
  {
    var u := s.(history := s.history + [v], inFlight := inFlight, clock := v.since);
    forall k | 0 <= k < |s.pending| ensures ReadOk(u.history, s.pending[k], u.clock) {
      ReadStaysOk(s.history, v, s.pending[k], s.clock);
    }
    forall w | w in s.entries ensures EntryOk(u, s.entries[w]) {
      ReadStaysOk(s.history, v, s.entries[w].read, s.entries[w].at);
    }
  }

  lemma FillKeepsSound(s: State, k: nat, now: int)
    requires Sound(s) && s.clock <= now && k < |s.pending|
    ensures Sound(Next(s, Fill(k), now))
  {
    var u := Next(s, Fill(k), now);
    forall j | 0 <= j < |u.pending| ensures ReadOk(u.history, u.pending[j], u.clock) {
      assert u.pending[j] == s.pending[if j < k then j else j + 1];
    }
    forall w | w in u.entries ensures u.entries[w].read.which == w && EntryOk(u, u.entries[w]) {
      assert ReadOk(s.history, s.pending[k], s.clock);
      assert w != s.pending[k].which ==> w in s.entries && EntryOk(s, s.entries[w]);
    }
  }

  lemma NextIsSound(s: State, step: Step, now: int)
    requires Sound(s) && Enabled(s, step, now)
    ensures Sound(Next(s, step, now))
  {
    match step {
      case OwnWrite(c) => WriteKeepsSound(s, Version(Changed(Present(s), c), now, true), s.inFlight + 1);
      case OtherWrite(next) => WriteKeepsSound(s, Version(next, now, false), s.inFlight);
      case Fill(k) => FillKeepsSound(s, k, now);
      case _ =>
    }
  }

  // ---- histories ----

  datatype Turn = Turn(step: Step, now: int)

  function Initial(db: Db, now: int): State {
    State([Version(db, now, true)], map[], [], 0, now)
  }

  /** Steps of any calls, of this store and of others, in any order. */
  ghost predicate Run(ss: seq<State>, turns: seq<Turn>) {
    && |ss| == |turns| + 1 && (exists db, now :: ss[0] == Initial(db, now))
    && forall k :: 0 <= k < |turns|
        ==> Enabled(ss[k], turns[k].step, turns[k].now) && ss[k + 1] == Next(ss[k], turns[k].step, turns[k].now)
  }

  lemma {:induction false} SoundThroughout(ss: seq<State>, turns: seq<Turn>, k: nat)
    requires Run(ss, turns) && k < |ss|
    ensures Sound(ss[k])
  {
    if k > 0 {
      SoundThroughout(ss, turns, k - 1);
      NextIsSound(ss[k - 1], turns[k - 1].step, turns[k - 1].now);
    }
  }

  // ---- bounded staleness ----

  /** The step returns the answer for this cache to its caller. */
  predicate Returns(step: Step, s: State, which: Which) {
    match step
    case Hit(w) => w == which && which in s.entries
    case Fill(k) => k < |s.pending| && s.pending[k].which == which
    case _ => false
  }

  /** The query whose answer is returned. */
  function Returned(step: Step, s: State, which: Which): Read
    requires Returns(step, s, which)
  {
    match step
    case Hit(w) => s.entries[which].read
    case Fill(k) => s.pending[k]
  }

  /**
   How old an answer may be: a hit's the time-to-live and the time its refill took, a refilling call's
   just that time.
   */
  function Allowance(step: Step, s: State, which: Which, now: int): int
    requires Returns(step, s, which)
  {
    match step
    case Hit(w) => 5 * 60 * 1000 + (s.entries[which].at - s.entries[which].read.at)
    case Fill(k) => now - s.pending[k].at
  }

  lemma {:induction false} InForceLasts(ss: seq<State>, turns: seq<Turn>, i: nat, j: nat, r: Read)
    requires Run(ss, turns) && i <= j < |ss| && r.at <= ss[i].clock && InForce(ss[i].history, r.version, r.at)
    ensures r.at <= ss[j].clock && InForce(ss[j].history, r.version, r.at)
    ensures ss[j].history[r.version] == ss[i].history[r.version]
    decreases j
  {
    if i < j {
      InForceLasts(ss, turns, i, j - 1, r);
      SoundThroughout(ss, turns, j - 1);
      assert ss[j - 1 + 1] == Next(ss[j - 1], turns[j - 1].step, turns[j - 1].now);
    }
  }

  /**
   Bounded staleness, under any interleaving: whatever a call returns, from the cache or after a refill,
   is the query's answer in a version that was in force no longer ago than the call's allowance.
   */
  lemma StalenessIsBounded(ss: seq<State>, turns: seq<Turn>, k: nat, which: Which)
    requires Run(ss, turns) && k < |turns| && Returns(turns[k].step, ss[k], which)
    ensures var r := Returned(turns[k].step, ss[k], which);
            && r.which == which && InForce(ss[k + 1].history, r.version, r.at)
            && 0 <= turns[k].now - r.at <= Allowance(turns[k].step, ss[k], which, turns[k].now)
  {
    SoundThroughout(ss, turns, k);
    ReturnedIsKnown(ss, turns, k, which);
    InForceLasts(ss, turns, k, k + 1, Returned(turns[k].step, ss[k], which));
  }

  /** The database that answered a query. */
  function AnsweredBy(s: State, r: Read): Db {
    if r.version < |s.history| then s.history[r.version].db else NO_DB
  }

  /**
   A level resolved by a call that got its two maps at different moments, with anything in between: it is
   the level of the memberships in one version and the permissions in another, each within its allowance.
   */
  lemma ResolutionIsRecent(ss: seq<State>, turns: seq<Turn>, a: nat, b: nat, user: string, agent: string)
    requires Run(ss, turns) && a < b < |turns|
    requires Returns(turns[a].step, ss[a], GroupsOfUsers) && Returns(turns[b].step, ss[b], LevelsOfAgents)
    ensures var r, q := Returned(turns[a].step, ss[a], GroupsOfUsers), Returned(turns[b].step, ss[b], LevelsOfAgents);
            var groupMap := UserGroups(AnsweredBy(ss[a], r).groups, AnsweredBy(ss[a], r).members);
            var perms := AgentLevels(AnsweredBy(ss[b], q).access);
            && InForce(ss[b + 1].history, r.version, r.at)
            && turns[a].now - r.at <= Allowance(turns[a].step, ss[a], GroupsOfUsers, turns[a].now)
            && InForce(ss[b + 1].history, q.version, q.at)
            && turns[b].now - q.at <= Allowance(turns[b].step, ss[b], LevelsOfAgents, turns[b].now)
            && LevelFor(GroupsOf(groupMap, user), perms, agent)
               == ResolvedFrom(ss[b + 1].history[r.version].db, ss[b + 1].history[q.version].db, user, agent)
  {
    var r, q := Returned(turns[a].step, ss[a], GroupsOfUsers), Returned(turns[b].step, ss[b], LevelsOfAgents);
    StalenessIsBounded(ss, turns, a, GroupsOfUsers);
    StalenessIsBounded(ss, turns, b, LevelsOfAgents);
    ReturnedIsKnown(ss, turns, a, GroupsOfUsers);
    ReturnedIsKnown(ss, turns, b, LevelsOfAgents);
    InForceLasts(ss, turns, a, b + 1, r);
    InForceLasts(ss, turns, b, b + 1, q);
  }

  lemma ReturnedIsKnown(ss: seq<State>, turns: seq<Turn>, k: nat, which: Which)
    requires Run(ss, turns) && k < |turns| && Returns(turns[k].step, ss[k], which)
    ensures var r := Returned(turns[k].step, ss[k], which);
            r.at <= ss[k].clock && InForce(ss[k].history, r.version, r.at)
  {
    SoundThroughout(ss, turns, k);
    if turns[k].step.Hit? {
      assert EntryOk(ss[k], ss[k].entries[which]);
    }
  }

  // ---- freshness ----

  /** The entry was read from the version in force now. */
  predicate Current(s: State, f: Filled) {
    f.read.version + 1 == |s.history|
  }

  /** A write came between the entry's query and its fill. */
  predicate Crossed(f: Filled) {
    f.read.version + 1 < f.seen
  }

  ghost predicate OthersWroteSince(s: State, f: Filled) {
    exists v :: f.seen <= v < |s.history| && !s.history[v].own
  }

  /**
   With no write of the store under way, an entry has the present version if and only if its refill
   crossed no write and no other process wrote since.
   */
  lemma CurrentIff(s: State, which: Which)
    requires Sound(s) && s.inFlight == 0 && which in s.entries
    ensures Current(s, s.entries[which]) <==> !Crossed(s.entries[which]) && !OthersWroteSince(s, s.entries[which])
  {
    var f := s.entries[which];
    assert EntryOk(s, f);
    if f.seen < |s.history| {
      assert s.history[f.seen].own ==> s.inFlight > 0;
    }
  }

  predicate IsWrite(step: Step) {
    step.OwnWrite? || step.OtherWrite?
  }

  /** Versions are added by writes and by nothing else. */
  lemma {:induction false} HistoryGrowsIff(ss: seq<State>, turns: seq<Turn>, i: nat, j: nat)
    requires Run(ss, turns) && i <= j < |ss|
    ensures |ss[i].history| <= |ss[j].history|
    ensures |ss[i].history| < |ss[j].history| <==> exists m :: i <= m < j && IsWrite(turns[m].step)
    decreases j
  {
    if i < j {
      HistoryGrowsIff(ss, turns, i, j - 1);
      assert ss[j - 1 + 1] == Next(ss[j - 1], turns[j - 1].step, turns[j - 1].now);
    }
  }

  /** A refill crosses a write exactly when some write's statement is executed between its query and its fill. */
  lemma CrossedIffWriteBetween(ss: seq<State>, turns: seq<Turn>, q: nat, f: nat, which: Which, k: nat)
    requires Run(ss, turns) && q < f < |turns|
    requires turns[q].step == Query(which) && turns[f].step == Fill(k)
    requires ss[f].pending[k] == Read(which, |ss[q].history| - 1, turns[q].now)
    ensures which in ss[f + 1].entries
    ensures Crossed(ss[f + 1].entries[which]) <==> exists m :: q < m < f && IsWrite(turns[m].step)
  {
    HistoryGrowsIff(ss, turns, q + 1, f);
    assert ss[q + 1] == Next(ss[q], turns[q].step, turns[q].now);
    assert ss[f + 1] == Next(ss[f], turns[f].step, turns[f].now);
  }

  ghost predicate OwnOnly(turns: seq<Turn>, k: nat)
    requires k <= |turns|
  {
    forall m :: 0 <= m < k ==> !turns[m].step.OtherWrite?
  }

  lemma {:induction false} OwnOnlyHistory(ss: seq<State>, turns: seq<Turn>, k: nat)
    requires Run(ss, turns) && k < |ss| && OwnOnly(turns, k)
    ensures forall v :: 0 <= v < |ss[k].history| ==> ss[k].history[v].own
  {
    if k > 0 {
      OwnOnlyHistory(ss, turns, k - 1);
      assert ss[k - 1 + 1] == Next(ss[k - 1], turns[k - 1].step, turns[k - 1].now);
    }
  }

  /**
   When all writes go through the store: whenever none is under way, every entry has the version of a
   fresh query if and only if none of the refills behind the entries crossed a write.
   */
  lemma FreshIffNoneCrossed(ss: seq<State>, turns: seq<Turn>, k: nat)
    requires Run(ss, turns) && k < |ss| && OwnOnly(turns, k) && ss[k].inFlight == 0
    ensures (forall w :: w in ss[k].entries ==> Current(ss[k], ss[k].entries[w]))
       <==> (forall w :: w in ss[k].entries ==> !Crossed(ss[k].entries[w]))
  {
    SoundThroughout(ss, turns, k);
    OwnOnlyHistory(ss, turns, k);
    forall w | w in ss[k].entries ensures Current(ss[k], ss[k].entries[w]) <==> !Crossed(ss[k].entries[w]) {
      CurrentIff(ss[k], w);
    }
  }

  // ---- and when its value is fresh all the same ----

  datatype Answer =
    | GroupListIs(groups: seq<Group>)
    | UserGroupsAre(userGroups: map<string, seq<string>>)
    | LevelsAre(levels: map<string, map<string, Level>>)
    | GrantsAre(grants: map<string, map<string, bool>>)

  /** What the query behind a cache answers. */
  function AnswerOf(which: Which, db: Db): Answer {
    match which
    case GroupList => GroupListIs(db.groups)
    case GroupsOfUsers => UserGroupsAre(UserGroups(db.groups, db.members))
    case LevelsOfAgents => LevelsAre(AgentLevels(db.access))
    case GrantsOfGroups => GrantsAre(DashboardGrants(db.dashboards))
  }

  /** The write concerns a table the query reads. */
  predicate Touches(c: Change, which: Which) {
    match c
    case CreateGroup(_, _) => which in {GroupList, GroupsOfUsers}
    case UpdateGroup(_, _, _) => which in {GroupList, GroupsOfUsers}
    case DeleteGroup(_) => which in {GroupList, GroupsOfUsers, GrantsOfGroups}
    case AddMember(_, _) => which == GroupsOfUsers
    case RemoveMember(_, _) => which == GroupsOfUsers
    case SetAgentPermission(_, _, _) => which == LevelsOfAgents
    case RemoveAgentPermission(_, _) => which == LevelsOfAgents
    case SetDashboardPermission(_, _, _) => which == GrantsOfGroups
    case RemoveDashboardPermission(_, _) => which == GrantsOfGroups
  }

  /** The step leaves the query's answer as it was. */
  predicate LeavesAnswer(step: Step, which: Which) {
    match step
    case OwnWrite(c) => !Touches(c, which)
    case OtherWrite(_) => false
    case _ => true
  }

  lemma {:induction false} AnswerStays(ss: seq<State>, turns: seq<Turn>, i: nat, j: nat, which: Which)
    requires Run(ss, turns) && i <= j < |ss|
    requires forall m :: i <= m < j ==> LeavesAnswer(turns[m].step, which)
    ensures ss[i].history != [] && ss[j].history != []
    ensures AnswerOf(which, Present(ss[j])) == AnswerOf(which, Present(ss[i]))
    decreases j
  {
    SoundThroughout(ss, turns, i);
    SoundThroughout(ss, turns, j);
    if i < j {
      AnswerStays(ss, turns, i, j - 1, which);
      assert ss[j - 1 + 1] == Next(ss[j - 1], turns[j - 1].step, turns[j - 1].now);
    }
  }

  /**
   A query answered at step q gives what a fresh query gives at any later moment before which no other
   process wrote and the store wrote to other tables only, however many such writes its refill crossed.
   */
  lemma AnswerIsFresh(ss: seq<State>, turns: seq<Turn>, q: nat, k: nat, which: Which)
    requires Run(ss, turns) && q < k < |ss| && turns[q].step == Query(which)
    requires forall m :: q < m < k ==> LeavesAnswer(turns[m].step, which)
    ensures ss[k].history != []
    ensures AnswerOf(which, AnsweredBy(ss[k], Read(which, |ss[q].history| - 1, turns[q].now)))
        == AnswerOf(which, Present(ss[k]))
  {
    var r := Read(which, |ss[q].history| - 1, turns[q].now);
    assert ss[q + 1] == Next(ss[q], turns[q].step, turns[q].now);
    SoundThroughout(ss, turns, q);
    SoundThroughout(ss, turns, q + 1);
    AnswerStays(ss, turns, q + 1, k, which);
    InForceLasts(ss, turns, q + 1, k, r);
  }

  // ---- a crossing is possible ----

  lemma Extended(ss: seq<State>, turns: seq<Turn>, step: Step, now: int) returns (us: seq<State>, all: seq<Turn>)
    requires Run(ss, turns) && Enabled(ss[|turns|], step, now)
    ensures us == ss + [Next(ss[|turns|], step, now)] && all == turns + [Turn(step, now)] && Run(us, all)
  {
    us, all := ss + [Next(ss[|turns|], step, now)], turns + [Turn(step, now)];
    assert us[0] == ss[0];
    forall k | 0 <= k < |all|
      ensures Enabled(us[k], all[k].step, all[k].now) && us[k + 1] == Next(us[k], all[k].step, all[k].now)
    {
      if k < |turns| {
        assert us[k] == ss[k] && us[k + 1] == ss[k + 1] && all[k] == turns[k];
      }
    }
  }

  /** A refill that starts before a write of the store and ends after its invalidation. */
  lemma CrossingRefill(c: Change, now: int) returns (ss: seq<State>, turns: seq<Turn>)
    ensures Run(ss, turns) && |turns| == 4 && OwnOnly(turns, 4)
    ensures ss[4].history == [Version(NO_DB, now, true), Version(Changed(NO_DB, c), now, true)]
    ensures ss[4].entries == map[LevelsOfAgents := Filled(Read(LevelsOfAgents, 0, now), now, 2)]
    ensures ss[4].inFlight == 0 && ss[4].clock == now
  {
    ss, turns := [Initial(NO_DB, now)], [];
    ss, turns := Extended(ss, turns, Query(LevelsOfAgents), now);
    ss, turns := Extended(ss, turns, OwnWrite(c), now);
    ss, turns := Extended(ss, turns, Invalidation, now);
    ss, turns := Extended(ss, turns, Fill(0), now);
  }

  lemma LevelAppears(group: string, agent: string)
    ensures AgentLevels(Changed(NO_DB, SetAgentPermission(group, agent, Interactive)).access)
        != AgentLevels(NO_DB.access)
  {
    var rows := Changed(NO_DB, SetAgentPermission(group, agent, Interactive)).access;
    assert rows == [Access(agent, group, Interactive)];
    assert agent in AgentLevels(rows);
  }

  /** Such a refill keeps the old levels for a whole time-to-live after the store itself has changed them. */
  lemma CrossingIsReached(group: string, agent: string, now: int) returns (ss: seq<State>, turns: seq<Turn>)
    ensures Run(ss, turns) && |turns| == 5 && OwnOnly(turns, 5) && ss[5].inFlight == 0
    ensures turns[4] == Turn(Hit(LevelsOfAgents), now + 5 * 60 * 1000)
    ensures LevelsOfAgents in ss[4].entries && ss[4].entries[LevelsOfAgents].read.version < |ss[4].history|
    ensures AgentLevels(ss[4].history[ss[4].entries[LevelsOfAgents].read.version].db.access)
        != AgentLevels(Present(ss[4]).access)
  {
    ss, turns := CrossingRefill(SetAgentPermission(group, agent, Interactive), now);
    LevelAppears(group, agent);
    ss, turns := Extended(ss, turns, Hit(LevelsOfAgents), now + 5 * 60 * 1000);
  }
}
