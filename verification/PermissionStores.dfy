/**
 The permission store. Every method up to an await is one method here, so that calls can overlap: a
 getter is its start (the cache test and the query) and its finish (the fill), a write is its statement
 and its invalidation. The ghost state names the step each of them takes; the methods after them are
 the calls as a caller sees them when nothing comes in between.
 */
module PermissionStores {
  import opened Prelude
  import opened Permissions
  import opened PermissionCaches

  datatype Entry<T> = Entry(data: T, expires: int)

  // What a cache field holds, given the steps taken so far.

  ghost predicate Holds<T>(cache: Option<Entry<T>>, which: Which, st: State, data: T) {
    && (cache.Some? <==> which in st.entries)
    && (cache.Some? ==> cache.value == Entry(data, st.entries[which].at + TTL_MS))
  }

  /** The version an entry was read from; the present one when there is no entry. */
  ghost function Source(st: State, which: Which): Db
    requires Sound(st)
  {
    if which in st.entries then
      assert EntryOk(st, st.entries[which]);
      st.history[st.entries[which].read.version].db
    else Present(st)
  }

  ghost function GroupsIn(st: State): seq<Group>
    requires Sound(st)
  {
    Source(st, GroupList).groups
  }

  ghost function UserGroupsIn(st: State): map<string, seq<string>>
    requires Sound(st)
  {
    UserGroups(Source(st, GroupsOfUsers).groups, Source(st, GroupsOfUsers).members)
  }

  ghost function LevelsIn(st: State): map<string, map<string, Level>>
    requires Sound(st)
  {
    AgentLevels(Source(st, LevelsOfAgents).access)
  }

  ghost function GrantsIn(st: State): map<string, map<string, bool>>
    requires Sound(st)
  {
    DashboardGrants(Source(st, GrantsOfGroups).dashboards)
  }

  /** The k-th answered query is of this kind, and `db` is the version it was answered from. */
  ghost predicate Pending(st: State, k: nat, which: Which, db: Db) {
    && Sound(st) && k < |st.pending| && st.pending[k].which == which
    && ReadOk(st.history, st.pending[k], st.clock) && st.history[st.pending[k].version].db == db
  }

  lemma FillChanges(st: State, k: nat, which: Which, db: Db, now: int)
    requires Pending(st, k, which, db) && st.clock <= now
    ensures var u := Next(st, Fill(k), now);
            && Sound(u) && u.history == st.history && which in u.entries && u.entries[which].at == now
                && Source(u, which) == db
            && forall w :: w != which ==> Unmoved(st, u, w)
  {
    NextIsSound(st, Fill(k), now);
  }

  /** The step leaves this cache as it was. */
  ghost predicate Unmoved(s: State, u: State, which: Which)
    requires Sound(s) && Sound(u)
  {
    && (which in s.entries <==> which in u.entries)
    && (which in s.entries ==> u.entries[which] == s.entries[which])
    && (which in s.entries ==> Source(u, which) == Source(s, which))
  }

  lemma QuietStep(st: State, step: Step, now: int)
    requires Sound(st) && Enabled(st, step, now) && (IsWrite(step) || step.Query? || step.Hit?)
    ensures Sound(Next(st, step, now)) && forall w :: Unmoved(st, Next(st, step, now), w)
  {
    NextIsSound(st, step, now);
    forall w ensures Unmoved(st, Next(st, step, now), w) {
      if w in st.entries {
        assert EntryOk(st, st.entries[w]);
      }
    }
  }

  lemma QueryAnswered(st: State, which: Which, now: int)
    requires Sound(st) && st.clock <= now
    ensures Pending(Next(st, Query(which), now), |st.pending|, which, Present(st))
  {
    NextIsSound(st, Query(which), now);
    var u := Next(st, Query(which), now);
    assert ReadOk(u.history, u.pending[|st.pending|], u.clock);
  }

  /** The four cache fields. */
  datatype Caches = Caches(
    groups: Option<Entry<seq<Group>>>,
    userGroups: Option<Entry<map<string, seq<string>>>>,
    agentPerms: Option<Entry<map<string, map<string, Level>>>>,
    dashboardPerms: Option<Entry<map<string, map<string, bool>>>>)

  ghost predicate StoreOk(db: Db, c: Caches, st: State) {
    && Sound(st) && Present(st) == db
    && Holds(c.groups, GroupList, st, GroupsIn(st))
    && Holds(c.userGroups, GroupsOfUsers, st, UserGroupsIn(st))
    && Holds(c.agentPerms, LevelsOfAgents, st, LevelsIn(st))
    && Holds(c.dashboardPerms, GrantsOfGroups, st, GrantsIn(st))
  }

  ghost predicate AllFresh(db: Db, c: Caches) {
    && (c.groups.Some? ==> c.groups.value.data == db.groups)
    && (c.userGroups.Some? ==> c.userGroups.value.data == UserGroups(db.groups, db.members))
    && (c.agentPerms.Some? ==> c.agentPerms.value.data == AgentLevels(db.access))
    && (c.dashboardPerms.Some? ==> c.dashboardPerms.value.data == DashboardGrants(db.dashboards))
  }

  /** Entries replaced by present answers leave all answers present. */
  lemma FreshRefill(db: Db, c: Caches, d: Caches)
    requires d.groups == c.groups || (d.groups.Some? && d.groups.value.data == db.groups)
    requires d.userGroups == c.userGroups
        || (d.userGroups.Some? && d.userGroups.value.data == UserGroups(db.groups, db.members))
    requires d.agentPerms == c.agentPerms || (d.agentPerms.Some? && d.agentPerms.value.data == AgentLevels(db.access))
    requires d.dashboardPerms == c.dashboardPerms
        || (d.dashboardPerms.Some? && d.dashboardPerms.value.data == DashboardGrants(db.dashboards))
    ensures AllFresh(db, c) ==> AllFresh(db, d)
  {
  }

  lemma HoldsStays<T>(cache: Option<Entry<T>>, which: Which, s: State, u: State, before: T, after: T)
    requires Sound(s) && Sound(u) && Unmoved(s, u, which) && Holds(cache, which, s, before)
    requires which in s.entries ==> after == before
    ensures Holds(cache, which, u, after)
  {
  }

  lemma QuietKeepsStore(db: Db, c: Caches, st: State, step: Step, now: int)
    requires StoreOk(db, c, st) && Enabled(st, step, now) && (IsWrite(step) || step.Query? || step.Hit?)
    ensures StoreOk(Present(Next(st, step, now)), c, Next(st, step, now))
  {
    var u := Next(st, step, now);
    QuietStep(st, step, now);
    HoldsStays(c.groups, GroupList, st, u, GroupsIn(st), GroupsIn(u));
    HoldsStays(c.userGroups, GroupsOfUsers, st, u, UserGroupsIn(st), UserGroupsIn(u));
    HoldsStays(c.agentPerms, LevelsOfAgents, st, u, LevelsIn(st), LevelsIn(u));
    HoldsStays(c.dashboardPerms, GrantsOfGroups, st, u, GrantsIn(st), GrantsIn(u));
  }

  /** Filling one cache: its field takes the query's answer, the others are as they were. */
  lemma FillKeepsStore(db: Db, c: Caches, d: Caches, st: State, k: nat, which: Which, from: Db, now: int)
    requires StoreOk(db, c, st) && Pending(st, k, which, from) && st.clock <= now
    requires if which == GroupList then d.groups == Some(Entry(from.groups, now + TTL_MS)) else d.groups == c.groups
    requires if which == GroupsOfUsers
        then d.userGroups == Some(Entry(UserGroups(from.groups, from.members), now + TTL_MS))
        else d.userGroups == c.userGroups
    requires if which == LevelsOfAgents then d.agentPerms == Some(Entry(AgentLevels(from.access), now + TTL_MS))
        else d.agentPerms == c.agentPerms
    requires if which == GrantsOfGroups
        then d.dashboardPerms == Some(Entry(DashboardGrants(from.dashboards), now + TTL_MS))
        else d.dashboardPerms == c.dashboardPerms
    ensures StoreOk(db, d, Next(st, Fill(k), now))
  {
    var u := Next(st, Fill(k), now);
    FillChanges(st, k, which, from, now);
    if which != GroupList { HoldsStays(c.groups, GroupList, st, u, GroupsIn(st), GroupsIn(u)); }
    if which != GroupsOfUsers { HoldsStays(c.userGroups, GroupsOfUsers, st, u, UserGroupsIn(st), UserGroupsIn(u)); }
    if which != LevelsOfAgents { HoldsStays(c.agentPerms, LevelsOfAgents, st, u, LevelsIn(st), LevelsIn(u)); }
    if which != GrantsOfGroups { HoldsStays(c.dashboardPerms, GrantsOfGroups, st, u, GrantsIn(st), GrantsIn(u)); }
  }

  lemma HitKeepsAnswers(st: State, which: Which, now: int)
    requires Sound(st) && Enabled(st, Hit(which), now)
    ensures Sound(Next(st, Hit(which), now)) && Source(Next(st, Hit(which), now), which) == Source(st, which)
  {
    QuietStep(st, Hit(which), now);
  }

  class PermissionStore {
    var db: Db
    var groupsCache: Option<Entry<seq<Group>>>
    var userGroupsCache: Option<Entry<map<string, seq<string>>>>
    var agentPermsCache: Option<Entry<map<string, map<string, Level>>>>
    var dashboardPermsCache: Option<Entry<map<string, map<string, bool>>>>

    ghost var st: State

    ghost predicate Valid()
      reads this
    {
      StoreOk(db, Fields(), st)
    }

    ghost function Fields(): Caches
      reads this
    {
      Caches(groupsCache, userGroupsCache, agentPermsCache, dashboardPermsCache)
    }

    /** Every cached answer is what the query would give now. */
    ghost predicate Coherent()
      reads this
    {
      AllFresh(db, Fields())
    }

    constructor (initial: Db, now: int)
      ensures Valid() && Coherent() && db == initial && st == Initial(initial, now)
    {
      db := initial;
      groupsCache, userGroupsCache, agentPermsCache, dashboardPermsCache := None, None, None, None;
      st := Initial(initial, now);
    }

    // ---- writes ----

    /** The statement of one of the store's own writes; its call now awaits the answer. */
    method Execute(c: Change, now: int)
      requires Valid() && st.clock <= now
      modifies this`db, this`st
      ensures Valid() && db == Changed(old(db), c) && st == Next(old(st), OwnWrite(c), now)
    {
      QuietKeepsStore(db, Fields(), st, OwnWrite(c), now);
      db := Changed(db, c);
      st := Next(st, OwnWrite(c), now);
    }

    /** ... and what it does when the answer has come. */
    method Invalidate(now: int)
      requires Valid() && st.clock <= now && st.inFlight > 0
      modifies this`groupsCache, this`userGroupsCache, this`agentPermsCache, this`dashboardPermsCache, this`st
      ensures Valid() && Coherent() && st == Next(old(st), Invalidation, now)
      ensures groupsCache.None? && userGroupsCache.None? && agentPermsCache.None? && dashboardPermsCache.None?
    {
      NextIsSound(st, Invalidation, now);
      groupsCache, userGroupsCache, agentPermsCache, dashboardPermsCache := None, None, None, None;
      st := Next(st, Invalidation, now);
    }

    /** Another process changes the database; this store learns nothing of it. */
    method OutsideWrite(next: Db, now: int)
      requires Valid() && st.clock <= now
      modifies this`db, this`st
      ensures Valid() && db == next && st == Next(old(st), OtherWrite(next), now)
    {
      QuietKeepsStore(db, Fields(), st, OtherWrite(next), now);
      db := next;
      st := Next(st, OtherWrite(next), now);
    }

    // ---- the getters, up to their await and after it ----

    method StartGetAllGroups(now: int) returns (cached: bool, data: seq<Group>)
      requires Valid() && st.clock <= now
      modifies this`st
      ensures Valid() && cached == (GroupList in old(st).entries && Usable(old(st).entries[GroupList], now))
      ensures st == Next(old(st), if cached then Hit(GroupList) else Query(GroupList), now)
      ensures cached ==> data == GroupsIn(st) && groupsCache.Some? && data == groupsCache.value.data
      ensures !cached ==> data == db.groups && Pending(st, |old(st).pending|, GroupList, db)
    {
      cached := groupsCache.Some? && now <= groupsCache.value.expires;
      if cached {
        data := groupsCache.value.data;
        HitKeepsAnswers(st, GroupList, now);
      } else {
        data := db.groups;
        QueryAnswered(st, GroupList, now);
      }
      var step := if cached then Hit(GroupList) else Query(GroupList);
      QuietKeepsStore(db, Fields(), st, step, now);
      st := Next(st, step, now);
    }

    method FinishGetAllGroups(data: seq<Group>, ghost k: nat, ghost from: Db, now: int)
      requires Valid() && st.clock <= now && Pending(st, k, GroupList, from) && data == from.groups
      modifies this`groupsCache, this`st
      ensures Valid() && st == Next(old(st), Fill(k), now)
      ensures groupsCache == Some(Entry(data, now + TTL_MS)) && data == GroupsIn(st)
    {
      ghost var filled := Fields().(groups := Some(Entry(data, now + TTL_MS)));
      FillKeepsStore(db, Fields(), filled, st, k, GroupList, from, now);
      groupsCache := Some(Entry(data, now + TTL_MS));
      st := Next(st, Fill(k), now);
    }

    method StartGetUserGroupsMap(now: int) returns (cached: bool, data: map<string, seq<string>>)
      requires Valid() && st.clock <= now
      modifies this`st
      ensures Valid() && cached == (GroupsOfUsers in old(st).entries && Usable(old(st).entries[GroupsOfUsers], now))
      ensures st == Next(old(st), if cached then Hit(GroupsOfUsers) else Query(GroupsOfUsers), now)
      ensures cached ==> data == UserGroupsIn(st) && userGroupsCache.Some? && data == userGroupsCache.value.data
      ensures !cached ==> data == UserGroups(db.groups, db.members) && Pending(st, |old(st).pending|, GroupsOfUsers, db)
    {
      cached := userGroupsCache.Some? && now <= userGroupsCache.value.expires;
      if cached {
        data := userGroupsCache.value.data;
        HitKeepsAnswers(st, GroupsOfUsers, now);
      } else {
        data := QueryUserGroups(db.groups, db.members);
        QueryAnswered(st, GroupsOfUsers, now);
      }
      var step := if cached then Hit(GroupsOfUsers) else Query(GroupsOfUsers);
      QuietKeepsStore(db, Fields(), st, step, now);
      st := Next(st, step, now);
    }

    method FinishGetUserGroupsMap(data: map<string, seq<string>>, ghost k: nat, ghost from: Db, now: int)
      requires Valid() && st.clock <= now && Pending(st, k, GroupsOfUsers, from)
          && data == UserGroups(from.groups, from.members)
      modifies this`userGroupsCache, this`st
      ensures Valid() && st == Next(old(st), Fill(k), now)
      ensures userGroupsCache == Some(Entry(data, now + TTL_MS)) && data == UserGroupsIn(st)
    {
      ghost var filled := Fields().(userGroups := Some(Entry(data, now + TTL_MS)));
      FillKeepsStore(db, Fields(), filled, st, k, GroupsOfUsers, from, now);
      userGroupsCache := Some(Entry(data, now + TTL_MS));
      st := Next(st, Fill(k), now);
    }

    method StartGetAllAgentPermissions(now: int) returns (cached: bool, data: map<string, map<string, Level>>)
      requires Valid() && st.clock <= now
      modifies this`st
      ensures Valid() && cached == (LevelsOfAgents in old(st).entries && Usable(old(st).entries[LevelsOfAgents], now))
      ensures st == Next(old(st), if cached then Hit(LevelsOfAgents) else Query(LevelsOfAgents), now)
      ensures cached ==> data == LevelsIn(st) && agentPermsCache.Some? && data == agentPermsCache.value.data
      ensures !cached ==> data == AgentLevels(db.access) && Pending(st, |old(st).pending|, LevelsOfAgents, db)
    {
      cached := agentPermsCache.Some? && now <= agentPermsCache.value.expires;
      if cached {
        data := agentPermsCache.value.data;
        HitKeepsAnswers(st, LevelsOfAgents, now);
      } else {
        data := QueryAgentLevels(db.access);
        QueryAnswered(st, LevelsOfAgents, now);
      }
      var step := if cached then Hit(LevelsOfAgents) else Query(LevelsOfAgents);
      QuietKeepsStore(db, Fields(), st, step, now);
      st := Next(st, step, now);
    }

    method FinishGetAllAgentPermissions(data: map<string, map<string, Level>>, ghost k: nat, ghost from: Db, now: int)
      requires Valid() && st.clock <= now && Pending(st, k, LevelsOfAgents, from) && data == AgentLevels(from.access)
      modifies this`agentPermsCache, this`st
      ensures Valid() && st == Next(old(st), Fill(k), now)
      ensures agentPermsCache == Some(Entry(data, now + TTL_MS)) && data == LevelsIn(st)
    {
      ghost var filled := Fields().(agentPerms := Some(Entry(data, now + TTL_MS)));
      FillKeepsStore(db, Fields(), filled, st, k, LevelsOfAgents, from, now);
      agentPermsCache := Some(Entry(data, now + TTL_MS));
      st := Next(st, Fill(k), now);
    }

    method StartGetAllDashboardPermissions(now: int) returns (cached: bool, data: map<string, map<string, bool>>)
      requires Valid() && st.clock <= now
      modifies this`st
      ensures Valid() && cached == (GrantsOfGroups in old(st).entries && Usable(old(st).entries[GrantsOfGroups], now))
      ensures st == Next(old(st), if cached then Hit(GrantsOfGroups) else Query(GrantsOfGroups), now)
      ensures cached ==> data == GrantsIn(st) && dashboardPermsCache.Some? && data == dashboardPermsCache.value.data
      ensures !cached ==> data == DashboardGrants(db.dashboards) && Pending(st, |old(st).pending|, GrantsOfGroups, db)
    {
      cached := dashboardPermsCache.Some? && now <= dashboardPermsCache.value.expires;
      if cached {
        data := dashboardPermsCache.value.data;
        HitKeepsAnswers(st, GrantsOfGroups, now);
      } else {
        data := QueryDashboardGrants(db.dashboards);
        QueryAnswered(st, GrantsOfGroups, now);
      }
      var step := if cached then Hit(GrantsOfGroups) else Query(GrantsOfGroups);
      QuietKeepsStore(db, Fields(), st, step, now);
      st := Next(st, step, now);
    }

    method FinishGetAllDashboardPermissions(data: map<string, map<string, bool>>, ghost k: nat, ghost from: Db,
                                            now: int)
      requires Valid() && st.clock <= now && Pending(st, k, GrantsOfGroups, from)
          && data == DashboardGrants(from.dashboards)
      modifies this`dashboardPermsCache, this`st
      ensures Valid() && st == Next(old(st), Fill(k), now)
      ensures dashboardPermsCache == Some(Entry(data, now + TTL_MS)) && data == GrantsIn(st)
    {
      ghost var filled := Fields().(dashboardPerms := Some(Entry(data, now + TTL_MS)));
      FillKeepsStore(db, Fields(), filled, st, k, GrantsOfGroups, from, now);
      dashboardPermsCache := Some(Entry(data, now + TTL_MS));
      st := Next(st, Fill(k), now);
    }

    // ---- calls that nothing interrupts ----

    /** One of the store's own writes: the statement, then the invalidation. */
    method Write(c: Change, now: int, later: int)
      requires Valid() && st.clock <= now <= later
      modifies this
      ensures Valid() && Coherent() && db == Changed(old(db), c) && st.clock == later
      ensures groupsCache.None? && userGroupsCache.None? && agentPermsCache.None? && dashboardPermsCache.None?
    {
      Execute(c, now);
      Invalidate(later);
    }

    method GetAllGroups(now: int, later: int) returns (data: seq<Group>)
      requires Valid() && st.clock <= now <= later
      modifies this`groupsCache, this`st
      ensures Valid() && Answers(old(st), st, GroupList, now, later) && data == GroupsIn(st)
      ensures old(Coherent()) ==> Coherent() && data == db.groups
    {
      ghost var before, fields := st, Fields();
      var cached;
      cached, data := StartGetAllGroups(now);
      if cached {
        HitAnswers(before, GroupList, now, later);
        assert Fields() == fields;
        assert AllFresh(db, fields) ==> data == db.groups;
      } else {
        FinishGetAllGroups(data, |before.pending|, db, later);
        RefillAnswers(before, GroupList, now, later);
        FreshRefill(db, fields, fields.(groups := Some(Entry(data, later + TTL_MS))));
      }
    }

    method GetUserGroupsMap(now: int, later: int) returns (data: map<string, seq<string>>)
      requires Valid() && st.clock <= now <= later
      modifies this`userGroupsCache, this`st
      ensures Valid() && Answers(old(st), st, GroupsOfUsers, now, later) && data == UserGroupsIn(st)
      ensures old(Coherent()) ==> Coherent() && data == UserGroups(db.groups, db.members)
    {
      ghost var before, fields := st, Fields();
      var cached;
      cached, data := StartGetUserGroupsMap(now);
      if cached {
        HitAnswers(before, GroupsOfUsers, now, later);
        assert Fields() == fields;
        assert AllFresh(db, fields) ==> data == UserGroups(db.groups, db.members);
      } else {
        FinishGetUserGroupsMap(data, |before.pending|, db, later);
        RefillAnswers(before, GroupsOfUsers, now, later);
        FreshRefill(db, fields, fields.(userGroups := Some(Entry(data, later + TTL_MS))));
      }
    }

    method GetAllAgentPermissions(now: int, later: int) returns (data: map<string, map<string, Level>>)
      requires Valid() && st.clock <= now <= later
      modifies this`agentPermsCache, this`st
      ensures Valid() && Answers(old(st), st, LevelsOfAgents, now, later) && data == LevelsIn(st)
      ensures old(Coherent()) ==> Coherent() && data == AgentLevels(db.access)
    {
      ghost var before, fields := st, Fields();
      var cached;
      cached, data := StartGetAllAgentPermissions(now);
      if cached {
        HitAnswers(before, LevelsOfAgents, now, later);
        assert Fields() == fields;
        assert AllFresh(db, fields) ==> data == AgentLevels(db.access);
      } else {
        FinishGetAllAgentPermissions(data, |before.pending|, db, later);
        RefillAnswers(before, LevelsOfAgents, now, later);
        FreshRefill(db, fields, fields.(agentPerms := Some(Entry(data, later + TTL_MS))));
      }
    }

    method GetAllDashboardPermissions(now: int, later: int) returns (data: map<string, map<string, bool>>)
      requires Valid() && st.clock <= now <= later
      modifies this`dashboardPermsCache, this`st
      ensures Valid() && Answers(old(st), st, GrantsOfGroups, now, later) && data == GrantsIn(st)
      ensures old(Coherent()) ==> Coherent() && data == DashboardGrants(db.dashboards)
    {
      ghost var before, fields := st, Fields();
      var cached;
      cached, data := StartGetAllDashboardPermissions(now);
      if cached {
        HitAnswers(before, GrantsOfGroups, now, later);
        assert Fields() == fields;
        assert AllFresh(db, fields) ==> data == DashboardGrants(db.dashboards);
      } else {
        FinishGetAllDashboardPermissions(data, |before.pending|, db, later);
        RefillAnswers(before, GrantsOfGroups, now, later);
        FreshRefill(db, fields, fields.(dashboardPerms := Some(Entry(data, later + TTL_MS))));
      }
    }

    /** The two maps are fetched one after the other, the second only for a user who has groups. */
    method GetUserAgentLevel(user: string, agent: string, now: int, until: int, after: int, later: int)
      returns (best: Option<Level>)
      requires Valid() && st.clock <= now <= until <= after <= later
      modifies this`userGroupsCache, this`agentPermsCache, this`st
      ensures Valid() && st.clock <= later && st.history == old(st).history
      ensures Served(st, GroupsOfUsers, now) && (best.Some? ==> Served(st, LevelsOfAgents, after))
      ensures best == ResolvedFrom(Source(st, GroupsOfUsers), Source(st, LevelsOfAgents), user, agent)
      ensures old(Coherent()) ==> Coherent() && best == ResolvedFrom(db, db, user, agent)
    {
      var groupMap := GetUserGroupsMap(now, until);
      if |GroupsOf(groupMap, user)| == 0 {
        return None;
      }
      ghost var between := st;
      var perms := GetAllAgentPermissions(after, later);
      StillServed(between, st, GroupsOfUsers, now);
      best := LevelFromMaps(groupMap, perms, user, agent);
    }

    /** All agents at once: the same level for every agent that has one, and no entry for the others. */
    method GetUserAgentLevels(user: string, now: int, until: int, after: int, later: int)
      returns (levels: map<string, Level>)
      requires Valid() && st.clock <= now <= until <= after <= later
      modifies this`userGroupsCache, this`agentPermsCache, this`st
      ensures Valid() && st.clock <= later && st.history == old(st).history
      ensures Served(st, GroupsOfUsers, now) && (levels != map[] ==> Served(st, LevelsOfAgents, after))
      ensures AgreesEverywhere(levels, Source(st, GroupsOfUsers), Source(st, LevelsOfAgents), user)
      ensures old(Coherent()) ==> Coherent() && AgreesEverywhere(levels, db, db, user)
    {
      var groupMap := GetUserGroupsMap(now, until);
      if |GroupsOf(groupMap, user)| == 0 {
        return map[];
      }
      ghost var between := st;
      var perms := GetAllAgentPermissions(after, later);
      StillServed(between, st, GroupsOfUsers, now);
      levels := LevelsOf(GroupsOf(groupMap, user), perms);
    }

    /** The dashboards some group of the user allows. */
    method GetUserDashboardAccess(user: string, now: int, until: int, after: int, later: int)
      returns (allowed: set<string>)
      requires Valid() && st.clock <= now <= until <= after <= later
      modifies this`userGroupsCache, this`dashboardPermsCache, this`st
      ensures Valid() && st.clock <= later && st.history == old(st).history
      ensures Served(st, GroupsOfUsers, now) && Served(st, GrantsOfGroups, after)
      ensures AllowedFrom(allowed, Source(st, GroupsOfUsers), Source(st, GrantsOfGroups), user)
      ensures old(Coherent()) ==> Coherent() && AllowedFrom(allowed, db, db, user)
    {
      var groupMap := GetUserGroupsMap(now, until);
      ghost var between := st;
      var perms := GetAllDashboardPermissions(after, later);
      StillServed(between, st, GroupsOfUsers, now);
      allowed := AllowedOf(GroupsOf(groupMap, user), perms);
    }
  }

  /** What remains of the level lookup when both maps have come, however much later the second one. */
  method LevelFromMaps(groupMap: map<string, seq<string>>, perms: map<string, map<string, Level>>, user: string,
                       agent: string) returns (best: Option<Level>)
    ensures best == LevelFor(GroupsOf(groupMap, user), perms, agent)
  {
    best := None;
    if agent in perms {
      best := BestOf(GroupsOf(groupMap, user), perms[agent]);
    }
  }

  // ---- what an uninterrupted getter serves ----

  /** The entry was read at most the time-to-live plus the refill's own duration before `now`. */
  ghost predicate Served(st: State, which: Which, now: int) {
    && Sound(st) && which in st.entries
    && var f := st.entries[which];
       InForce(st.history, f.read.version, f.read.at) && now - f.read.at <= TTL_MS + (f.at - f.read.at)
  }

  ghost predicate OthersUnmoved(s: State, u: State, which: Which) {
    Sound(s) && Sound(u) && forall w :: w != which ==> Unmoved(s, u, w)
  }

  lemma StillServed(s: State, u: State, which: Which, now: int)
    requires Served(s, which, now) && Sound(u) && u.history == s.history && Unmoved(s, u, which)
    ensures Served(u, which, now)
  {
  }

  /**
   A call from s to u answered from this cache: recently enough, at no other cache's expense, with no
   version added.
   */
  ghost predicate Answers(s: State, u: State, which: Which, now: int, later: int) {
    Served(u, which, now) && OthersUnmoved(s, u, which) && u.history == s.history && u.clock <= later
  }

  lemma HitAnswers(s: State, which: Which, now: int, later: int)
    requires Sound(s) && Enabled(s, Hit(which), now) && now <= later
    ensures Answers(s, Next(s, Hit(which), now), which, now, later)
  {
    QuietStep(s, Hit(which), now);
    assert EntryOk(s, s.entries[which]);
  }

  /** A refill that nothing interrupts reads the present version and leaves the other caches alone. */
  lemma RefillAnswers(s: State, which: Which, now: int, later: int)
    requires Sound(s) && s.clock <= now <= later
    ensures var u := Next(Next(s, Query(which), now), Fill(|s.pending|), later);
            Answers(s, u, which, now, later) && Source(u, which) == Present(s)
  {
    var q := Next(s, Query(which), now);
    QuietStep(s, Query(which), now);
    QueryAnswered(s, which, now);
    FillChanges(q, |s.pending|, which, Present(s), later);
    var u := Next(q, Fill(|s.pending|), later);
    assert EntryOk(u, u.entries[which]);
    forall w | w != which ensures Unmoved(s, u, w) {
      assert Unmoved(s, q, w) && Unmoved(q, u, w);
    }
  }
}
