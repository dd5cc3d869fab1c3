/** Group permissions: the queries behind the four caches, level resolution, and the store's writes. */
module Permissions {
  import opened Prelude

  datatype Level = ReadonlySummary | ReadonlyInput | Readonly | Interactive

  function Rank(l: Level): nat {
    match l
    case ReadonlySummary => 1
    case ReadonlyInput => 2
    case Readonly => 3
    case Interactive => 4
  }

  datatype Group = Group(id: string, name: string, active: bool)
  datatype Membership = Membership(group: string, user: string)
  datatype Access = Access(agent: string, group: string, level: Level)
  datatype Dashboard = Dashboard(group: string, dashboard: string, allowed: bool)

  datatype Db = Db(groups: seq<Group>, members: seq<Membership>, access: seq<Access>, dashboards: seq<Dashboard>)

  // ---- the cached queries ----

  predicate ActiveGroup(groups: seq<Group>, id: string) {
    exists i :: 0 <= i < |groups| && groups[i].id == id && groups[i].active
  }

  /** user -> ids of the active groups the user is in */
  function UserGroups(groups: seq<Group>, members: seq<Membership>): map<string, seq<string>> {
    if members == [] then map[]
    else
      var last := members[|members| - 1];
      var m := UserGroups(groups, members[..|members| - 1]);
      if !ActiveGroup(groups, last.group) then m
      else m[last.user := GroupsOf(m, last.user) + [last.group]]
  }

  lemma {:induction false} UserGroupsAreMemberships(groups: seq<Group>, members: seq<Membership>, user: string,
                                                    group: string)
    ensures group in GroupsOf(UserGroups(groups, members), user)
       <==> Membership(group, user) in members && ActiveGroup(groups, group)
  {
    if members != [] {
      var last := members[|members| - 1];
      assert members == members[..|members| - 1] + [last];
      UserGroupsAreMemberships(groups, members[..|members| - 1], user, group);
    }
  }

  /** agent -> group -> level */
  function AgentLevels(rows: seq<Access>): map<string, map<string, Level>> {
    if rows == [] then map[]
    else
      var last := rows[|rows| - 1];
      var m := AgentLevels(rows[..|rows| - 1]);
      m[last.agent := (if last.agent in m then m[last.agent] else map[])[last.group := last.level]]
  }

  function LevelAt(m: map<string, map<string, Level>>, agent: string, group: string): Option<Level> {
    if agent in m && group in m[agent] then Some(m[agent][group]) else None
  }

  /** The table's unique key on (agent, group). */
  ghost predicate UniqueAccess(rows: seq<Access>) {
    forall i, j :: 0 <= i < j < |rows| ==> !(rows[i].agent == rows[j].agent && rows[i].group == rows[j].group)
  }

  lemma {:induction false} AgentLevelsAreRows(rows: seq<Access>, agent: string, group: string)
    ensures var r := LevelAt(AgentLevels(rows), agent, group);
            && (r.Some? ==> Access(agent, group, r.value) in rows)
            && (UniqueAccess(rows) ==> forall l :: Access(agent, group, l) in rows ==> r == Some(l))
  {
    if rows != [] {
      var last := rows[|rows| - 1];
      assert rows == rows[..|rows| - 1] + [last];
      AgentLevelsAreRows(rows[..|rows| - 1], agent, group);
    }
  }

  /** group -> dashboard -> allowed */
  function DashboardGrants(rows: seq<Dashboard>): map<string, map<string, bool>> {
    if rows == [] then map[]
    else
      var last := rows[|rows| - 1];
      var m := DashboardGrants(rows[..|rows| - 1]);
      m[last.group := (if last.group in m then m[last.group] else map[])[last.dashboard := last.allowed]]
  }

  /** The table's unique key on (group, dashboard). */
  ghost predicate UniqueDashboards(rows: seq<Dashboard>) {
    forall i, j :: 0 <= i < j < |rows| ==> !(rows[i].group == rows[j].group && rows[i].dashboard == rows[j].dashboard)
  }

  /** A group opens a dashboard exactly when the table has a row that allows it. */
  lemma {:induction false} DashboardGrantsAreRows(rows: seq<Dashboard>, group: string, dashboard: string)
    requires UniqueDashboards(rows)
    ensures Opens(DashboardGrants(rows), group, dashboard) <==> Dashboard(group, dashboard, true) in rows
  {
    if rows != [] {
      var n := |rows| - 1;
      assert rows == rows[..n] + [rows[n]];
      DashboardGrantsAreRows(rows[..n], group, dashboard);
    }
  }

  // ---- level resolution ----

  function GroupsOf(m: map<string, seq<string>>, user: string): seq<string> {
    if user in m then m[user] else []
  }

  function Better(best: Option<Level>, l: Level): Option<Level> {
    if best.None? || Rank(l) > Rank(best.value) then Some(l) else best
  }

  /** The best level any of the groups has in `perms`. */
  function Best(groups: seq<string>, perms: map<string, Level>): (r: Option<Level>)
    ensures r.Some? ==> exists g :: g in groups && g in perms && perms[g] == r.value
    ensures forall g :: g in groups && g in perms ==> r.Some? && Rank(perms[g]) <= Rank(r.value)
  {
    if groups == [] then None
    else
      var last := groups[|groups| - 1];
      var r := Best(groups[..|groups| - 1], perms);
      if last in perms then Better(r, perms[last]) else r
  }

  function LevelFor(groups: seq<string>, perms: map<string, map<string, Level>>, agent: string): Option<Level> {
    if agent in perms then Best(groups, perms[agent]) else None
  }

  /** Only which groups there are matters, not their order or repetition. */
  lemma BestIgnoresOrder(a: seq<string>, b: seq<string>, perms: map<string, Level>)
    requires forall g :: g in a <==> g in b
    ensures Best(a, perms) == Best(b, perms)
  {
    var x, y := Best(a, perms), Best(b, perms);
    if x.Some? {
      assert y.Some? && Rank(x.value) <= Rank(y.value);
    }
    if y.Some? {
      assert x.Some? && Rank(y.value) <= Rank(x.value);
    }
  }

  /** Being in more groups never lowers a level. */
  lemma BestIsMonotone(a: seq<string>, b: seq<string>, perms: map<string, Level>)
    requires forall g :: g in a ==> g in b
    ensures Best(a, perms).Some? ==> Best(b, perms).Some? && Rank(Best(a, perms).value) <= Rank(Best(b, perms).value)
  {
  }

  /** A row of the access table that reaches the user through an active group. */
  ghost predicate Grants(db: Db, user: string, row: Access) {
    row in db.access && Membership(row.group, user) in db.members && ActiveGroup(db.groups, row.group)
  }

  lemma GrantCounts(db: Db, user: string, agent: string, row: Access)
    requires UniqueAccess(db.access) && Grants(db, user, row) && row.agent == agent
    ensures var r := ResolvedFrom(db, db, user, agent);
            r.Some? && Rank(row.level) <= Rank(r.value)
  {
    UserGroupsAreMemberships(db.groups, db.members, user, row.group);
    AgentLevelsAreRows(db.access, agent, row.group);
    assert Access(agent, row.group, row.level) == row;
  }

  /** The resolved level is the highest-ranked grant reaching the user, and None exactly when no grant does. */
  lemma LevelIsHighestGrant(db: Db, user: string, agent: string)
    requires UniqueAccess(db.access)
    ensures var r := ResolvedFrom(db, db, user, agent);
            && (r.Some? ==> exists g :: Grants(db, user, Access(agent, g, r.value)))
            && forall row :: Grants(db, user, row) && row.agent == agent ==> r.Some? && Rank(row.level) <= Rank(r.value)
  {
    var r := ResolvedFrom(db, db, user, agent);
    forall row | Grants(db, user, row) && row.agent == agent
      ensures r.Some? && Rank(row.level) <= Rank(r.value)
    {
      GrantCounts(db, user, agent, row);
    }
    if r.Some? {
      var groups, perms := GroupsOf(UserGroups(db.groups, db.members), user), AgentLevels(db.access);
      var g :| g in groups && g in perms[agent] && perms[agent][g] == r.value;
      UserGroupsAreMemberships(db.groups, db.members, user, g);
      AgentLevelsAreRows(db.access, agent, g);
      assert Grants(db, user, Access(agent, g, r.value));
    }
  }

  /** Joining a group never lowers anyone's level for any agent. */
  lemma AddMemberNeverLowers(db: Db, group: string, member: string, user: string, agent: string)
    ensures var after := Changed(db, AddMember(group, member));
            var a, b := ResolvedFrom(db, db, user, agent), ResolvedFrom(after, after, user, agent);
            a.Some? ==> b.Some? && Rank(a.value) <= Rank(b.value)
  {
    var after := Changed(db, AddMember(group, member));
    var less := GroupsOf(UserGroups(db.groups, db.members), user);
    var more := GroupsOf(UserGroups(after.groups, after.members), user);
    forall g | g in less ensures g in more {
      UserGroupsAreMemberships(db.groups, db.members, user, g);
      UserGroupsAreMemberships(after.groups, after.members, user, g);
    }
    var perms := AgentLevels(db.access);
    if agent in perms {
      BestIsMonotone(less, more, perms[agent]);
    }
  }

  // ---- the store's writes ----

  /** The store's own writes. */
  datatype Change =
    | CreateGroup(id: string, name: string)
    | UpdateGroup(id: string, newName: Option<string>, newActive: Option<bool>)
    | DeleteGroup(id: string)
    | AddMember(group: string, user: string)
    | RemoveMember(group: string, user: string)
    | SetAgentPermission(group: string, agent: string, level: Level)
    | RemoveAgentPermission(group: string, agent: string)
    | SetDashboardPermission(group: string, dashboard: string, allowed: bool)
    | RemoveDashboardPermission(group: string, dashboard: string)

  function Without<T(!new)>(rows: seq<T>, drop: T -> bool): (r: seq<T>)
    ensures forall x :: x in r <==> x in rows && !drop(x)
  {
    if rows == [] then []
    else (if drop(rows[0]) then [] else [rows[0]]) + Without(rows[1..], drop)
  }

  function Renamed(g: Group, id: string, newName: Option<string>, newActive: Option<bool>): Group {
    if g.id != id then g
    else g.(name := if newName.Some? then newName.value else g.name,
            active := if newActive.Some? then newActive.value else g.active)
  }

  function Changed(db: Db, c: Change): Db {
    match c
    case CreateGroup(id, name) => db.(groups := db.groups + [Group(id, name, true)])
    case UpdateGroup(id, n, a) =>
      db.(groups := seq(|db.groups|, i requires 0 <= i < |db.groups| => Renamed(db.groups[i], id, n, a)))
    case DeleteGroup(id) =>
      db.(groups := Without(db.groups, (g: Group) => g.id == id),
          dashboards := Without(db.dashboards, (d: Dashboard) => d.group == id))
    case AddMember(g, u) => if Membership(g, u) in db.members then db
        else db.(members := db.members + [Membership(g, u)])
    case RemoveMember(g, u) => db.(members := Without(db.members, (m: Membership) => m == Membership(g, u)))
    case SetAgentPermission(g, a, l) =>
      db.(access := Without(db.access, (x: Access) => x.group == g && x.agent == a) + [Access(a, g, l)])
    case RemoveAgentPermission(g, a) => db.(access := Without(db.access, (x: Access) => x.group == g && x.agent == a))
    case SetDashboardPermission(g, d, allowed) =>
      db.(dashboards := Without(db.dashboards, (x: Dashboard) => x.group == g && x.dashboard == d)
          + [Dashboard(g, d, allowed)])
    case RemoveDashboardPermission(g, d) =>
      db.(dashboards := Without(db.dashboards, (x: Dashboard) => x.group == g && x.dashboard == d))
  }

  // ---- what a resolution must yield ----

  function ResolvedFrom(memberDb: Db, accessDb: Db, user: string, agent: string): Option<Level> {
    LevelFor(GroupsOf(UserGroups(memberDb.groups, memberDb.members), user), AgentLevels(accessDb.access), agent)
  }

  ghost predicate LevelsMatch(levels: map<string, Level>, groups: seq<string>, perms: map<string, map<string, Level>>) {
    forall agent :: LevelFor(groups, perms, agent) == if agent in levels then Some(levels[agent]) else None
  }

  ghost predicate AgreesEverywhere(levels: map<string, Level>, memberDb: Db, accessDb: Db, user: string) {
    LevelsMatch(levels, GroupsOf(UserGroups(memberDb.groups, memberDb.members), user), AgentLevels(accessDb.access))
  }

  predicate Opens(perms: map<string, map<string, bool>>, group: string, dashboard: string) {
    group in perms && dashboard in perms[group] && perms[group][dashboard]
  }

  ghost predicate AllowedMatch(allowed: set<string>, groups: seq<string>, perms: map<string, map<string, bool>>) {
    forall d :: d in allowed <==> exists g :: g in groups && Opens(perms, g, d)
  }

  ghost predicate AllowedFrom(allowed: set<string>, memberDb: Db, grantDb: Db, user: string) {
    AllowedMatch(allowed, GroupsOf(UserGroups(memberDb.groups, memberDb.members), user),
                 DashboardGrants(grantDb.dashboards))
  }

  // ---- the loops ----

  method QueryUserGroups(groups: seq<Group>, members: seq<Membership>) returns (m: map<string, seq<string>>)
    ensures m == UserGroups(groups, members)
  {
    m := map[];
    for i := 0 to |members|
      invariant m == UserGroups(groups, members[..i])
    {
      var r := members[i];
      assert members[..i + 1][..i] == members[..i];
      if ActiveGroup(groups, r.group) {
        if r.user !in m {
          m := m[r.user := []];
        }
        m := m[r.user := m[r.user] + [r.group]];
      }
    }
    assert members[..|members|] == members;
  }

  method QueryAgentLevels(rows: seq<Access>) returns (m: map<string, map<string, Level>>)
    ensures m == AgentLevels(rows)
  {
    m := map[];
    for i := 0 to |rows|
      invariant m == AgentLevels(rows[..i])
    {
      var r := rows[i];
      assert rows[..i + 1][..i] == rows[..i];
      if r.agent !in m {
        m := m[r.agent := map[]];
      }
      m := m[r.agent := m[r.agent][r.group := r.level]];
    }
    assert rows[..|rows|] == rows;
  }

  method QueryDashboardGrants(rows: seq<Dashboard>) returns (m: map<string, map<string, bool>>)
    ensures m == DashboardGrants(rows)
  {
    m := map[];
    for i := 0 to |rows|
      invariant m == DashboardGrants(rows[..i])
    {
      var r := rows[i];
      assert rows[..i + 1][..i] == rows[..i];
      if r.group !in m {
        m := m[r.group := map[]];
      }
      m := m[r.group := m[r.group][r.dashboard := r.allowed]];
    }
    assert rows[..|rows|] == rows;
  }

  method BestOf(groups: seq<string>, perms: map<string, Level>) returns (best: Option<Level>)
    ensures best == Best(groups, perms)
  {
    best := None;
    for i := 0 to |groups|
      invariant best == Best(groups[..i], perms)
    {
      var g := groups[i];
      assert groups[..i + 1][..i] == groups[..i];
      if g in perms {
        if best.None? || Rank(perms[g]) > Rank(best.value) {
          best := Some(perms[g]);
        }
      }
    }
    assert groups[..|groups|] == groups;
  }

  method LevelsOf(groups: seq<string>, perms: map<string, map<string, Level>>) returns (levels: map<string, Level>)
    ensures LevelsMatch(levels, groups, perms)
  {
    levels := map[];
    var agents := perms.Keys;
    while agents != {}
      invariant agents <= perms.Keys
      invariant forall a :: a in levels <==> a in perms && a !in agents && Best(groups, perms[a]).Some?
      invariant forall a :: a in levels ==> Some(levels[a]) == Best(groups, perms[a])
      decreases agents
    {
      var a :| a in agents;
      agents := agents - {a};
      var best := BestOf(groups, perms[a]);
      if best.Some? {
        levels := levels[a := best.value];
      }
    }
  }

  lemma AllowedGrows(before: set<string>, after: set<string>, groups: seq<string>, g: string,
                     perms: map<string, map<string, bool>>)
    requires AllowedMatch(before, groups, perms)
    requires forall d :: d in after <==> d in before || Opens(perms, g, d)
    ensures AllowedMatch(after, groups + [g], perms)
  {
    forall d ensures d in after <==> exists x :: x in groups + [g] && Opens(perms, x, d) {
      if d in before {
        var x :| x in groups && Opens(perms, x, d);
        assert x in groups + [g];
      } else if Opens(perms, g, d) {
        assert g in groups + [g];
      }
    }
  }

  method AllowedOf(groups: seq<string>, perms: map<string, map<string, bool>>) returns (allowed: set<string>)
    ensures AllowedMatch(allowed, groups, perms)
  {
    allowed := {};
    for i := 0 to |groups|
      invariant AllowedMatch(allowed, groups[..i], perms)
    {
      assert groups[..i + 1] == groups[..i] + [groups[i]];
      ghost var before := allowed;
      if groups[i] in perms {
        var grants := perms[groups[i]];
        allowed := allowed + set d | d in grants && grants[d];
      }
      AllowedGrows(before, allowed, groups[..i], groups[i], perms);
    }
    assert groups[..|groups|] == groups;
  }

  /** A new membership never takes a dashboard away. */
  lemma AllowedIsMonotone(less: set<string>, more: set<string>, a: seq<string>, b: seq<string>,
                          perms: map<string, map<string, bool>>)
    requires AllowedMatch(less, a, perms) && AllowedMatch(more, b, perms)
    requires forall g :: g in a ==> g in b
    ensures less <= more
  {
    forall d | d in less ensures d in more {
      var g :| g in a && Opens(perms, g, d);
      assert g in b;
    }
  }

  // ---- what a user gets, row by row ----

  /** The table allows the dashboard to this group, which is active and has the user as a member. */
  ghost predicate GrantsDashboard(db: Db, user: string, group: string, dashboard: string) {
    && Dashboard(group, dashboard, true) in db.dashboards
    && Membership(group, user) in db.members && ActiveGroup(db.groups, group)
  }

  /** The allowed dashboards are exactly those that a row of an active group of the user's allows. */
  lemma DashboardAllowedIff(db: Db, user: string, allowed: set<string>, dashboard: string)
    requires UniqueDashboards(db.dashboards) && AllowedFrom(allowed, db, db, user)
    ensures dashboard in allowed <==>
              exists g :: GrantsDashboard(db, user, g, dashboard)
  {
    var groups := GroupsOf(UserGroups(db.groups, db.members), user);
    var grants := DashboardGrants(db.dashboards);
    forall g
      ensures g in groups && Opens(grants, g, dashboard) <==> GrantsDashboard(db, user, g, dashboard)
    {
      UserGroupsAreMemberships(db.groups, db.members, user, g);
      DashboardGrantsAreRows(db.dashboards, g, dashboard);
    }
  }

  /** Some active group of the user's has this level for the agent. */
  ghost predicate HasGrant(db: Db, user: string, agent: string, level: Level) {
    exists g :: Grants(db, user, Access(agent, g, level))
  }

  /** The levels in order: interactive before read-only, before read-only with input, before the summary. */
  lemma LevelByOrder(db: Db, user: string, agent: string)
    requires UniqueAccess(db.access)
    ensures ResolvedFrom(db, db, user, agent) ==
              if HasGrant(db, user, agent, Interactive) then Some(Interactive)
              else if HasGrant(db, user, agent, Readonly) then Some(Readonly)
              else if HasGrant(db, user, agent, ReadonlyInput) then Some(ReadonlyInput)
              else if HasGrant(db, user, agent, ReadonlySummary) then Some(ReadonlySummary)
              else None
  {
    LevelIsHighestGrant(db, user, agent);
    var r := ResolvedFrom(db, db, user, agent);
    forall l | HasGrant(db, user, agent, l) ensures r.Some? && Rank(l) <= Rank(r.value) {
      var g :| Grants(db, user, Access(agent, g, l));
    }
    if r.Some? {
      var g :| Grants(db, user, Access(agent, g, r.value));
      assert HasGrant(db, user, agent, r.value);
    }
  }

  // ---- what the store's writes do, row by row ----

  lemma ChangedMembers(db: Db, c: Change, group: string, user: string)
    ensures Membership(group, user) in Changed(db, c).members <==>
              (Membership(group, user) in db.members || c == AddMember(group, user)) && c != RemoveMember(group, user)
  {
  }

  lemma ChangedAccess(db: Db, c: Change, row: Access)
    ensures row in Changed(db, c).access <==>
              if c.SetAgentPermission? && c.group == row.group && c.agent == row.agent then c.level == row.level
              else row in db.access && c != RemoveAgentPermission(row.group, row.agent)
  {
  }

  lemma ChangedDashboards(db: Db, c: Change, row: Dashboard)
    ensures row in Changed(db, c).dashboards <==>
              if c.SetDashboardPermission? && c.group == row.group && c.dashboard == row.dashboard
              then c.allowed == row.allowed
              else
                && row in db.dashboards
                && c != RemoveDashboardPermission(row.group, row.dashboard) && c != DeleteGroup(row.group)
  {
  }

  lemma ChangedGroups(db: Db, c: Change, i: nat)
    requires i < |db.groups|
    ensures !c.DeleteGroup? ==> i < |Changed(db, c).groups|
    ensures var g := db.groups[i];
            match c
            case DeleteGroup(id) => g in Changed(db, c).groups <==> g.id != id
            case UpdateGroup(id, name, active) =>
              Changed(db, c).groups[i] ==
                if g.id != id then g
                else Group(g.id, if name.Some? then name.value else g.name,
                           if active.Some? then active.value else g.active)
            case _ => Changed(db, c).groups[i] == g
  {
  }

  lemma ChangedActive(db: Db, c: Change, id: string)
    ensures ActiveGroup(Changed(db, c).groups, id) <==>
              match c
              case CreateGroup(created, _) => created == id || ActiveGroup(db.groups, id)
              case UpdateGroup(updated, _, Some(active)) =>
                if updated == id then active && exists g :: g in db.groups && g.id == id else ActiveGroup(db.groups, id)
              case DeleteGroup(gone) => gone != id && ActiveGroup(db.groups, id)
              case _ => ActiveGroup(db.groups, id)
  {
    var after := Changed(db, c).groups;
    match c {
      case CreateGroup(created, name) =>
        assert after[|db.groups|] == Group(created, name, true);
        assert forall i :: 0 <= i < |db.groups| ==> after[i] == db.groups[i];
      case UpdateGroup(_, _, _) =>
        assert |after| == |db.groups|;
        if i :| 0 <= i < |db.groups| && db.groups[i].id == id && db.groups[i].active { assert after[i].id == id; }
        if g :| g in db.groups && g.id == id {
          var i :| 0 <= i < |db.groups| && db.groups[i] == g;
          assert after[i].id == id;
        }
        if i :| 0 <= i < |after| && after[i].id == id && after[i].active { assert db.groups[i] in db.groups; }
      case DeleteGroup(gone) =>
        if i :| 0 <= i < |after| && after[i].id == id && after[i].active { assert after[i] in db.groups; }
        if i :| 0 <= i < |db.groups| && db.groups[i].id == id && db.groups[i].active && gone != id {
          assert db.groups[i] in after;
        }
      case _ =>
    }
  }

  /** The store's writes keep both unique keys. */
  lemma {:induction false} WithoutKeepsAccess(rows: seq<Access>, drop: Access -> bool)
    requires UniqueAccess(rows)
    ensures UniqueAccess(Without(rows, drop))
  {
    if rows != [] {
      WithoutKeepsAccess(rows[1..], drop);
      var rest := Without(rows[1..], drop);
      forall k | 0 <= k < |rest| ensures !(rest[k].agent == rows[0].agent && rest[k].group == rows[0].group) {
        assert rest[k] in rows[1..];
      }
    }
  }

  lemma {:induction false} WithoutKeepsDashboards(rows: seq<Dashboard>, drop: Dashboard -> bool)
    requires UniqueDashboards(rows)
    ensures UniqueDashboards(Without(rows, drop))
  {
    if rows != [] {
      WithoutKeepsDashboards(rows[1..], drop);
      var rest := Without(rows[1..], drop);
      forall k | 0 <= k < |rest| ensures !(rest[k].group == rows[0].group && rest[k].dashboard == rows[0].dashboard) {
        assert rest[k] in rows[1..];
      }
    }
  }

  lemma ChangedKeepsUnique(db: Db, c: Change)
    requires UniqueAccess(db.access) && UniqueDashboards(db.dashboards)
    ensures UniqueAccess(Changed(db, c).access) && UniqueDashboards(Changed(db, c).dashboards)
  {
    match c {
      case SetAgentPermission(g, a, l) =>
        var rest := Without(db.access, (x: Access) => x.group == g && x.agent == a);
        WithoutKeepsAccess(db.access, (x: Access) => x.group == g && x.agent == a);
        forall k | 0 <= k < |rest| ensures !(rest[k].agent == a && rest[k].group == g) { assert rest[k] in rest; }
      case RemoveAgentPermission(g, a) => WithoutKeepsAccess(db.access, (x: Access) => x.group == g && x.agent == a);
      case SetDashboardPermission(g, d, allowed) =>
        var rest := Without(db.dashboards, (x: Dashboard) => x.group == g && x.dashboard == d);
        WithoutKeepsDashboards(db.dashboards, (x: Dashboard) => x.group == g && x.dashboard == d);
        forall k | 0 <= k < |rest| ensures !(rest[k].group == g && rest[k].dashboard == d) { assert rest[k] in rest; }
      case RemoveDashboardPermission(g, d) =>
        WithoutKeepsDashboards(db.dashboards, (x: Dashboard) => x.group == g && x.dashboard == d);
      case DeleteGroup(id) => WithoutKeepsDashboards(db.dashboards, (d: Dashboard) => d.group == id);
      case _ =>
    }
  }
}
