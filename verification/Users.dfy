/** Users (internal/provisioner/users.go): created or updated, granted roles, and put into groups named by path. */
module Users {
  import opened Text
  import opened Ids
  import opened Directory
  import opened Reconcile
  import opened LiveRuns
  import opened GroupTrees
  import opened Holdings
  import ConfigMaps

  datatype UserConfig = UserConfig(username: string, roles: Option<Roles>, groups: seq<string>)

  // ---------- what the steps do ----------

  function WalkTo(a: Api, realm: string, path: string): Option<Id> {
    Walk(a, realm, "", ConfigMaps.PathNames(ConfigMaps.NormalizeGroupPath(path)))
  }

  /** Joins each group named that the user is not known to be in; a path that leads nowhere is passed over. */
  function JoinGroups(a: Api, realm: string, user: Id, paths: seq<string>, memberOf: set<string>): (Api, Status)
    decreases |paths|
  {
    if paths == [] then (a, Done)
    else
      var path := ConfigMaps.NormalizeGroupPath(paths[0]);
      if path in memberOf then JoinGroups(a, realm, user, paths[1..], memberOf)
      else
        match WalkTo(a, realm, paths[0])
        case None => JoinGroups(a, realm, user, paths[1..], memberOf)
        case Some(group) =>
          var (b, status) := AddToGroup(a, Membership(user, group));
          if status != Done then (b, status) else JoinGroups(b, realm, user, paths[1..], memberOf + {path})
  }

  function ReconcileUser(a: Api, realm: string, username: string, createOnly: bool): (Api, Option<Id>) {
    var k := User(realm, username);
    match Peek(a, k)
    case None => Create(a, k, false)
    case Some(id) => (if createOnly then a else Update(a, k, id, false), Some(id))
  }

  function GrantUserRoles(a: Api, realm: string, user: Id, roles: Option<Roles>): (Api, Status) {
    if roles.None? then (a, Done)
    else EnsureRoleMappings(a, realm, HolderKind.Users, user, roles.value.realm, roles.value.clients)
  }

  function EnsureUser(a: Api, realm: string, u: UserConfig, createOnly: bool): (Api, Status) {
    var (b, id) := ReconcileUser(a, realm, u.username, createOnly);
    if id.None? then (b, Refused)
    else
      var (c, status) := GrantUserRoles(b, realm, id.value, u.roles);
      if status != Done then (c, status)
      else if u.groups == [] then (c, Done)
      else JoinGroups(c, realm, id.value, u.groups, GroupPathsOf(c, realm, id.value))
  }

  function EnsureUsers(a: Api, realm: string, us: seq<UserConfig>, createOnly: bool): (Api, Status)
    decreases |us|
  {
    if us == [] then (a, Done)
    else
      var (b, status) := EnsureUser(a, realm, us[0], createOnly);
      if status != Done then (b, status) else EnsureUsers(b, realm, us[1..], createOnly)
  }

  // ---------- memberships ----------

  /** The user is in a group that has this path. */
  ghost predicate MemberAt(s: Server, user: Id, path: string) {
    exists m :: m in s.memberships && m.user == user &&
      PathText(PathOf(s, m.group)) == ConfigMaps.NormalizeGroupPath(path)
  }

  lemma PathTextIs(path: string)
    ensures PathText(ConfigMaps.PathNames(ConfigMaps.NormalizeGroupPath(path))) == ConfigMaps.NormalizeGroupPath(path)
    ensures ConfigMaps.PathNames(ConfigMaps.NormalizeGroupPath(path)) == ConfigMaps.PathNames(path)
  {
    TrimTwice(path);
    JoinSplit(ConfigMaps.Trim(path), "/");
  }

  /** A canonical path is trimmed to what it was made from. */
  lemma TrimTwice(path: string)
    ensures ConfigMaps.Trim("/" + ConfigMaps.Trim(path)) == ConfigMaps.Trim(path)
  {
    var left := ConfigMaps.TrimLeft(path);
    var t := ConfigMaps.TrimRight(left);
    var front := ConfigMaps.TrimLeftMeans(path);
    var back := ConfigMaps.TrimRightMeans(left);
    assert left == t + back;
    assert ("/" + t)[1..] == t;
    assert ConfigMaps.TrimLeft(t) == t;
    assert ConfigMaps.TrimRight(t) == t;
  }

  /** A path that is walked leads to the group with that path. */
  lemma WalkedHasPath(a: Api, realm: string, path: string)
    requires IsLive(a) && WalkTo(a, realm, path).Some?
    ensures
      var group := WalkTo(a, realm, path).value;
      && group in a.server.paths && a.server.owner[group].realm == realm && group in a.server.owner
      && a.server.owner[group].Group?
      && PathText(PathOf(a.server, group)) == ConfigMaps.NormalizeGroupPath(path)
  {
    var names := ConfigMaps.PathNames(ConfigMaps.NormalizeGroupPath(path));
    PathTextIs(path);
    WalkFollowsPaths(a, realm, names, Walk(a, realm, "", names).value);
  }

  lemma {:induction false} SameWalk(a: Api, b: Api, realm: string, parent: Id, names: seq<string>)
    requires a.overlay == b.overlay == None
    requires forall k: Key :: k.Group? ==> Lookup(a.server, k) == Lookup(b.server, k)
    ensures Walk(a, realm, parent, names) == Walk(b, realm, parent, names)
    decreases |names|
  {
    if names != [] {
      var next := Peek(a, GroupKey(realm, parent, names[0]));
      if next.Some? {
        SameWalk(a, b, realm, next.value, names[1..]);
      }
    }
  }

  /** The memberships that joining adds: of the groups the paths lead to, less those whose path is known. */
  function NewMemberships(a: Api, realm: string, user: Id, paths: seq<string>, memberOf: set<string>): set<Membership> {
    set p | p in paths && ConfigMaps.NormalizeGroupPath(p) !in memberOf && WalkTo(a, realm, p).Some? ::
      Membership(user, WalkTo(a, realm, p).value)
  }

  ghost predicate CanJoin(s: Server, realm: string, user: Id) {
    user in s.owner && (s.owner[user].User? || s.owner[user].ServiceAccount?) && s.owner[user].realm == realm
  }

  lemma JoinGroupsStep(a: Api, realm: string, user: Id, paths: seq<string>, memberOf: set<string>)
    requires IsLive(a) && CanJoin(a.server, realm, user)
    ensures paths == [] ==> JoinGroups(a, realm, user, paths, memberOf) == (a, Done)
    ensures paths != [] && (ConfigMaps.NormalizeGroupPath(paths[0]) in memberOf || WalkTo(a, realm, paths[0]).None?) ==>
              JoinGroups(a, realm, user, paths, memberOf) == JoinGroups(a, realm, user, paths[1..], memberOf)
    ensures paths != [] && ConfigMaps.NormalizeGroupPath(paths[0]) !in memberOf && WalkTo(a, realm, paths[0]).Some? ==>
              var b := AddToGroup(a, Membership(user, WalkTo(a, realm, paths[0]).value)).0;
              && JoinGroups(a, realm, user, paths, memberOf) ==
                 JoinGroups(b, realm, user, paths[1..], memberOf + {ConfigMaps.NormalizeGroupPath(paths[0])})
              && IsLive(b) && Grows(a.server, b.server) && CanJoin(b.server, realm, user)
              && b.server == a.server.(memberships :=
                   a.server.memberships + {Membership(user, WalkTo(a, realm, paths[0]).value)})
  {
    hide JoinGroups, Directory.WellFormed, Grows, WalkTo;
    JoinGroupsIs(a, realm, user, paths, memberOf);
    if paths != [] && ConfigMaps.NormalizeGroupPath(paths[0]) !in memberOf && WalkTo(a, realm, paths[0]).Some? {
      WalkedHasPath(a, realm, paths[0]);
      NewMemberKeeps(a.server, Membership(user, WalkTo(a, realm, paths[0]).value));
    }
  }

  lemma JoinGroupsIs(a: Api, realm: string, user: Id, paths: seq<string>, memberOf: set<string>)
    ensures paths == [] ==> JoinGroups(a, realm, user, paths, memberOf) == (a, Done)
    ensures paths != [] && (ConfigMaps.NormalizeGroupPath(paths[0]) in memberOf || WalkTo(a, realm, paths[0]).None?) ==>
              JoinGroups(a, realm, user, paths, memberOf) == JoinGroups(a, realm, user, paths[1..], memberOf)
    ensures paths != [] && ConfigMaps.NormalizeGroupPath(paths[0]) !in memberOf && WalkTo(a, realm, paths[0]).Some? ==>
              var (b, status) := AddToGroup(a, Membership(user, WalkTo(a, realm, paths[0]).value));
              JoinGroups(a, realm, user, paths, memberOf) ==
              if status != Done then (b, status)
              else JoinGroups(b, realm, user, paths[1..], memberOf + {ConfigMaps.NormalizeGroupPath(paths[0])})
  {}

  /** Joining never fails, and adds exactly the memberships missing of the groups that the paths lead to. */
  lemma {:induction false} JoinGroupsLive(a: Api, realm: string, user: Id, paths: seq<string>, memberOf: set<string>)
    requires IsLive(a) && CanJoin(a.server, realm, user)
    ensures
      var (b, status) := JoinGroups(a, realm, user, paths, memberOf);
      && status == Done && IsLive(b) && Grows(a.server, b.server)
      && b.server == a.server.(memberships :=
           a.server.memberships + NewMemberships(a, realm, user, paths, memberOf))
    decreases |paths|
  {
    hide *;
    LiveIs(a);
    JoinGroupsStep(a, realm, user, paths, memberOf);
    GrowsItself(a.server);
    OneMorePath(a, a, realm, user, paths, memberOf);
    if paths != [] {
      var path := ConfigMaps.NormalizeGroupPath(paths[0]);
      if path in memberOf || WalkTo(a, realm, paths[0]).None? {
        JoinGroupsLive(a, realm, user, paths[1..], memberOf);
      } else {
        var b := AddToGroup(a, Membership(user, WalkTo(a, realm, paths[0]).value)).0;
        LiveIs(b);
        JoinGroupsLive(b, realm, user, paths[1..], memberOf + {path});
        OneMorePath(a, b, realm, user, paths, memberOf);
        var c := JoinGroups(b, realm, user, paths[1..], memberOf + {path}).0;
        GrowsTransitive(a.server, b.server, c.server);
      }
    }
  }

  /** The first path's membership, then the rest's; repeated paths make no difference. */
  lemma OneMorePath(a: Api, b: Api, realm: string, user: Id, paths: seq<string>, memberOf: set<string>)
    requires a.overlay == b.overlay == None && b.server == a.server.(memberships := b.server.memberships)
    ensures paths == [] ==> NewMemberships(a, realm, user, paths, memberOf) == {}
    ensures paths != [] ==>
      var path := ConfigMaps.NormalizeGroupPath(paths[0]);
      var group := WalkTo(a, realm, paths[0]);
      if path in memberOf || group.None? then
        NewMemberships(a, realm, user, paths, memberOf) == NewMemberships(a, realm, user, paths[1..], memberOf)
      else
        NewMemberships(a, realm, user, paths, memberOf) ==
        {Membership(user, group.value)} + NewMemberships(b, realm, user, paths[1..], memberOf + {path})
  {
    if paths != [] {
      assert paths == [paths[0]] + paths[1..];
      forall p ensures WalkTo(b, realm, p) == WalkTo(a, realm, p) {
        SameWalk(a, b, realm, "", ConfigMaps.PathNames(ConfigMaps.NormalizeGroupPath(p)));
      }
      forall p, q | ConfigMaps.NormalizeGroupPath(p) == ConfigMaps.NormalizeGroupPath(q)
        ensures WalkTo(a, realm, p) == WalkTo(a, realm, q) {}
    }
  }

  /** Where a path leads on the server itself. */
  function GroupAt(s: Server, realm: string, path: string): Option<Id> {
    WalkTo(Api(s, None, []), realm, path)
  }

  lemma GroupAtIs(a: Api, realm: string, path: string)
    requires a.overlay == None
    ensures WalkTo(a, realm, path) == GroupAt(a.server, realm, path)
  {
    SameWalk(a, Api(a.server, None, []), realm, "",
             ConfigMaps.PathNames(ConfigMaps.NormalizeGroupPath(path)));
  }

  lemma SameGroupAt(a: Api, b: Api, realm: string, path: string)
    requires a.server.objects == b.server.objects
    ensures GroupAt(a.server, realm, path) == GroupAt(b.server, realm, path)
  {
    SameWalk(Api(a.server, None, []), Api(b.server, None, []), realm, "",
             ConfigMaps.PathNames(ConfigMaps.NormalizeGroupPath(path)));
  }

  /** `b` is `a` once the user has joined. */
  ghost predicate HasJoined(a: Api, b: Api, realm: string, user: Id, paths: seq<string>) {
    && IsLive(a) && CanJoin(a.server, realm, user)
    && b.server == a.server.(memberships :=
         a.server.memberships + NewMemberships(a, realm, user, paths, GroupPathsOf(a, realm, user)))
  }

  lemma StillMember(a: Api, b: Api, realm: string, user: Id, paths: seq<string>, path: string)
    requires HasJoined(a, b, realm, user, paths) && MemberAt(a.server, user, path)
    ensures MemberAt(b.server, user, path)
  {
    var m :| m in a.server.memberships && m.user == user &&
      PathText(PathOf(a.server, m.group)) == ConfigMaps.NormalizeGroupPath(path);
    assert m in b.server.memberships && PathOf(b.server, m.group) == PathOf(a.server, m.group);
  }

  lemma MemberIfItLeads(a: Api, b: Api, realm: string, user: Id, paths: seq<string>, path: string)
    requires HasJoined(a, b, realm, user, paths) && path in paths && WalkTo(a, realm, path).Some?
    ensures MemberAt(b.server, user, path)
  {
    if ConfigMaps.NormalizeGroupPath(path) in GroupPathsOf(a, realm, user) {
      assert MemberAt(a.server, user, path);
      StillMember(a, b, realm, user, paths, path);
    } else {
      WalkedHasPath(a, realm, path);
      var m := Membership(user, WalkTo(a, realm, path).value);
      assert m in b.server.memberships && PathOf(b.server, m.group) == PathOf(a.server, m.group);
    }
  }

  lemma LedIfNewMember(a: Api, b: Api, realm: string, user: Id, paths: seq<string>, path: string)
    requires HasJoined(a, b, realm, user, paths) && MemberAt(b.server, user, path) && !MemberAt(a.server, user, path)
    ensures WalkTo(a, realm, path).Some?
  {
    var m :| m in b.server.memberships && m.user == user &&
      PathText(PathOf(b.server, m.group)) == ConfigMaps.NormalizeGroupPath(path);
    assert PathOf(b.server, m.group) == PathOf(a.server, m.group) && m !in a.server.memberships;
    var p :| p in paths && WalkTo(a, realm, p).Some? && m == Membership(user, WalkTo(a, realm, p).value);
    WalkedHasPath(a, realm, p);
  }

  /** What a user's group paths come to: membership exactly where there was one or where the path leads somewhere. */
  lemma MembersWhereItLeads(a: Api, b: Api, realm: string, user: Id, paths: seq<string>, path: string)
    requires HasJoined(a, b, realm, user, paths) && path in paths
    ensures MemberAt(b.server, user, path) <==>
            MemberAt(a.server, user, path) || GroupAt(b.server, realm, path).Some?
  {
    GroupAtIs(a, realm, path);
    SameGroupAt(a, b, realm, path);
    hide MemberAt, WalkTo, GroupAt, NewMemberships, GroupPathsOf, Directory.WellFormed;
    if MemberAt(a.server, user, path) {
      StillMember(a, b, realm, user, paths, path);
    } else if MemberAt(b.server, user, path) {
      LedIfNewMember(a, b, realm, user, paths, path);
    } else if WalkTo(a, realm, path).Some? {
      MemberIfItLeads(a, b, realm, user, paths, path);
    }
  }

  // ---------- one user ----------

  /** The user is there with the roles declared. */
  ghost predicate UserThere(s: Server, realm: string, u: UserConfig) {
    var k := User(realm, u.username);
    k in s.objects && (u.roles.Some? ==> Holds(s, realm, HolderKind.Users, s.objects[k], u.roles.value))
  }

  ghost predicate UserRolesThere(s: Server, realm: string, u: UserConfig) {
    u.roles.Some? ==> RolesThere(s, realm, u.roles.value)
  }

  /** Nothing but these objects, grants and the one user's memberships are added. */
  ghost predicate OnlyUserAdded(s: Server, t: Server, k: Key) {
    && Grows(s, t) && t.realms == s.realms && t.objects.Keys == s.objects.Keys + {k} && k in t.objects
    && forall m :: m in t.memberships && m !in s.memberships ==> m.user == t.objects[k]
  }

  lemma ReconcileUserLive(a: Api, realm: string, username: string, createOnly: bool)
    requires IsLive(a) && realm in a.server.realms
    ensures
      var k := User(realm, username);
      var (b, id) := ReconcileUser(a, realm, username, createOnly);
      && id.Some? && IsLive(b) && OnlyUserAdded(a.server, b.server, k) && b.server.objects[k] == id.value
      && CanJoin(b.server, realm, id.value) && b.server.memberships == a.server.memberships
      && (k !in a.server.objects ==> forall m :: m in b.server.memberships ==> m.user != id.value)
  {
    hide ObjectsOk, OwnersOk, PathsOk, MappingsOk, MembershipsOk, PathOf, Grows;
    var k, s := User(realm, username), a.server;
    GrowsItself(s);
    if k !in s.objects {
      NewUser(s, k);
    } else {
      UserIsKnown(s, k);
    }
  }

  lemma UserIsKnown(s: Server, k: Key)
    requires WellFormed(s) && k.User? && k in s.objects
    ensures CanJoin(s, k.realm, s.objects[k])
  {}

  /** A new user is in no group. */
  lemma NewUser(s: Server, k: Key)
    requires WellFormed(s) && k.User? && k !in s.objects && k.realm in s.realms
    ensures
      var t := Add(s, k);
      && WellFormed(t) && Grows(s, t) && CanJoin(t, k.realm, t.objects[k]) && t.memberships == s.memberships
      && forall m :: m in s.memberships ==> m.user != t.objects[k]
  {
    hide PathsOk, PathOf, MappingsOk;
    NextId(s);
    AddKeeps(s, k);
  }

  /** What granting a user's roles does, and when it goes through. */
  lemma GrantUserRolesLive(a: Api, realm: string, id: Id, u: UserConfig)
    requires IsLive(a) && realm in a.server.realms && CanJoin(a.server, realm, id)
    requires Lookup(a.server, User(realm, u.username)) == Some(id)
    ensures
      var (b, status) := GrantUserRoles(a, realm, id, u.roles);
      && IsLive(b) && Grows(a.server, b.server) && b.server == a.server.(mappings := b.server.mappings)
      && status == (if UserRolesThere(a.server, realm, u) then Done else NotFound)
      && (status == Done ==> UserThere(b.server, realm, u))
  {
    GrowsItself(a.server);
    if u.roles.Some? {
      assert !Unborn(a.server, id);
      hide Directory.WellFormed, Grows, Unborn, Holds, RolesThere, EnsureRoleMappings;
      GrantingHolds(a, realm, HolderKind.Users, id, u.roles.value);
    }
  }

  /** A user's memberships are where its paths lead, once it has been provisioned. */
  ghost predicate MemberWhereItLeads(s: Server, t: Server, realm: string, u: UserConfig) {
    var k := User(realm, u.username);
    k in t.objects && forall p :: p in u.groups ==>
      (MemberAt(t, t.objects[k], p) <==>
       (k in s.objects && MemberAt(s, t.objects[k], p)) || GroupAt(t, realm, p).Some?)
  }

  lemma UserRolesAlike(s: Server, t: Server, realm: string, u: UserConfig, k: Key)
    requires OnlyUserAdded(s, t, k) && k.User?
    ensures UserRolesThere(s, realm, u) <==> UserRolesThere(t, realm, u)
  {
    if u.roles.Some? {
      RolesThereAlike(s, t, realm, u.roles.value);
    }
  }

  lemma EnsureUserIs(a: Api, realm: string, u: UserConfig, createOnly: bool)
    ensures
      var (b, id) := ReconcileUser(a, realm, u.username, createOnly);
      id.Some? ==>
        var (c, status) := GrantUserRoles(b, realm, id.value, u.roles);
        EnsureUser(a, realm, u, createOnly) ==
        if status != Done then (c, status)
        else if u.groups == [] then (c, Done)
        else JoinGroups(c, realm, id.value, u.groups, GroupPathsOf(c, realm, id.value))
  {}

  /** A user goes through exactly when its roles exist; it is then there with them, and a member where its paths lead.
      */
  lemma EnsureUserLive(a: Api, realm: string, u: UserConfig, createOnly: bool)
    requires IsLive(a) && realm in a.server.realms
    ensures
      var k := User(realm, u.username);
      var (b, status) := EnsureUser(a, realm, u, createOnly);
      && IsLive(b) && OnlyUserAdded(a.server, b.server, k)
      && status == (if UserRolesThere(a.server, realm, u) then Done else NotFound)
      && (status == Done ==> UserThere(b.server, realm, u) && MemberWhereItLeads(a.server, b.server, realm, u))
  {
    hide *;
    var k := User(realm, u.username);
    EnsureUserIs(a, realm, u, createOnly);
    ReconcileUserLive(a, realm, u.username, createOnly);
    var (b, id) := ReconcileUser(a, realm, u.username, createOnly);
    UserAddedFacts(a.server, b.server, k);
    UserRolesAlike(a.server, b.server, realm, u, k);
    GrantUserRolesLive(b, realm, id.value, u);
    var (c, status) := GrantUserRoles(b, realm, id.value, u.roles);
    UserAddedThen(a.server, b.server, c.server, k);
    CanStillJoin(b.server, c.server, realm, id.value);
    if status == Done {
      if u.groups == [] {
        NoPaths(a.server, c.server, realm, u);
      } else {
        LiveIs(c);
        JoinGroupsLive(c, realm, id.value, u.groups, GroupPathsOf(c, realm, id.value));
        var d := JoinGroups(c, realm, id.value, u.groups, GroupPathsOf(c, realm, id.value)).0;
        UserJoins(a, b, c, d, realm, u, id.value);
      }
    }
  }

  lemma UserAddedFacts(s: Server, t: Server, k: Key)
    requires OnlyUserAdded(s, t, k)
    ensures Grows(s, t) && t.realms == s.realms && k in t.objects && Lookup(t, k) == Some(t.objects[k])
  {}

  lemma UserAddedThen(s: Server, t: Server, u: Server, k: Key)
    requires OnlyUserAdded(s, t, k) && Grows(t, u) && u == t.(mappings := u.mappings)
    ensures OnlyUserAdded(s, u, k) && u.objects == t.objects && u.realms == t.realms
  {
    GrowsTransitive(s, t, u);
  }

  lemma CanStillJoin(s: Server, t: Server, realm: string, user: Id)
    requires CanJoin(s, realm, user) && Grows(s, t)
    ensures CanJoin(t, realm, user)
  {}

  lemma NoPaths(s: Server, t: Server, realm: string, u: UserConfig)
    requires u.groups == [] && User(realm, u.username) in t.objects
    ensures MemberWhereItLeads(s, t, realm, u)
  {}

  /** The last step: `c` is the user with its roles, `d` with its memberships. */
  lemma UserJoins(a: Api, b: Api, c: Api, d: Api, realm: string, u: UserConfig, id: Id)
    requires IsLive(a) && IsLive(c) && CanJoin(c.server, realm, id) && UserThere(c.server, realm, u)
    requires OnlyUserAdded(a.server, c.server, User(realm, u.username))
    requires c.server.objects[User(realm, u.username)] == id
    requires b.server.memberships == a.server.memberships == c.server.memberships
    requires User(realm, u.username) !in a.server.objects ==> forall m :: m in b.server.memberships ==> m.user != id
    requires Grows(c.server, d.server)
    requires d.server == c.server.(memberships :=
               c.server.memberships + NewMemberships(c, realm, id, u.groups, GroupPathsOf(c, realm, id)))
    ensures OnlyUserAdded(a.server, d.server, User(realm, u.username))
    ensures UserThere(d.server, realm, u) && MemberWhereItLeads(a.server, d.server, realm, u)
  {
    var k := User(realm, u.username);
    GrowsTransitive(a.server, c.server, d.server);
    UserThereLater(c.server, d.server, realm, u);
    forall p | p in u.groups
      ensures MemberAt(d.server, id, p) <==>
              (k in a.server.objects && MemberAt(a.server, id, p)) || GroupAt(d.server, realm, p).Some?
    {
      MembersWhereItLeads(c, d, realm, id, u.groups, p);
      if k in a.server.objects {
        SameMemberships(a.server, c.server, id, p);
      }
    }
    hide Directory.WellFormed, GroupAt, NewMemberships, GroupPathsOf;
  }

  lemma SameMemberships(s: Server, t: Server, user: Id, path: string)
    requires Directory.WellFormed(s) && Grows(s, t)
    requires forall m :: m in t.memberships && m.user == user ==> m in s.memberships
    ensures MemberAt(s, user, path) <==> MemberAt(t, user, path)
  {
    hide ObjectsOk, OwnersOk, MappingsOk;
    assert forall m :: m in s.memberships ==> m in t.memberships && PathOf(t, m.group) == PathOf(s, m.group);
  }

  lemma UserThereLater(s: Server, t: Server, realm: string, u: UserConfig)
    requires Grows(s, t) && UserThere(s, realm, u)
    ensures UserThere(t, realm, u)
  {
    if u.roles.Some? {
      HoldsLater(s, t, realm, HolderKind.Users, s.objects[User(realm, u.username)], u.roles.value);
    }
  }

  // ---------- all users of a realm ----------

  predicate DistinctUsernames(us: seq<UserConfig>) {
    forall i, j :: 0 <= i < j < |us| ==> us[i].username != us[j].username
  }

  function UserKeys(realm: string, us: seq<UserConfig>): set<Key> {
    set u | u in us :: User(realm, u.username)
  }

  ghost predicate IsOneOf(s: Server, realm: string, us: seq<UserConfig>, id: Id) {
    exists i :: 0 <= i < |us| && Lookup(s, User(realm, us[i].username)) == Some(id)
  }

  /** Nothing but users, grants and those users' memberships are added. */
  ghost predicate OnlyUsersAdded(s: Server, t: Server, realm: string, us: seq<UserConfig>) {
    && Grows(s, t) && t.realms == s.realms && s.objects.Keys <= t.objects.Keys <= s.objects.Keys + UserKeys(realm, us)
    && forall m :: m in t.memberships && m !in s.memberships ==> IsOneOf(t, realm, us, m.user)
  }

  ghost predicate AllRolesThere(s: Server, realm: string, us: seq<UserConfig>) {
    forall i :: 0 <= i < |us| ==> UserRolesThere(s, realm, us[i])
  }

  ghost predicate AllUsersThere(s: Server, t: Server, realm: string, us: seq<UserConfig>) {
    forall i :: 0 <= i < |us| ==> UserThere(t, realm, us[i]) && MemberWhereItLeads(s, t, realm, us[i])
  }

  lemma EnsureUsersStep(a: Api, realm: string, us: seq<UserConfig>, createOnly: bool)
    ensures us == [] ==> EnsureUsers(a, realm, us, createOnly) == (a, Done)
    ensures us != [] ==>
      var (b, status) := EnsureUser(a, realm, us[0], createOnly);
      EnsureUsers(a, realm, us, createOnly) ==
      if status != Done then (b, status) else EnsureUsers(b, realm, us[1..], createOnly)
  {}

  /** The users go through exactly when all roles they are to have exist; then each is there with its roles, and a
      member where its paths lead and, if it was there before, where it was one. */
  lemma {:induction false} EnsureUsersLive(a: Api, realm: string, us: seq<UserConfig>, createOnly: bool)
    requires IsLive(a) && realm in a.server.realms && DistinctUsernames(us)
    ensures
      var (b, status) := EnsureUsers(a, realm, us, createOnly);
      && IsLive(b) && OnlyUsersAdded(a.server, b.server, realm, us)
      && status == (if AllRolesThere(a.server, realm, us) then Done else NotFound)
      && (status == Done ==> AllUsersThere(a.server, b.server, realm, us))
    decreases |us|
  {
    hide *;
    EnsureUsersStep(a, realm, us, createOnly);
    if us == [] {
      NoUsers(a.server, realm);
    } else {
      RestAreDistinct(us);
      var k := User(realm, us[0].username);
      EnsureUserLive(a, realm, us[0], createOnly);
      var (b, s1) := EnsureUser(a, realm, us[0], createOnly);
      UserAddedFacts(a.server, b.server, k);
      OneIsOfAll(a.server, b.server, realm, us);
      RolesOneMoreUser(a.server, b.server, realm, us);
      if s1 == Done {
        EnsureUsersLive(b, realm, us[1..], createOnly);
        var (c, s2) := EnsureUsers(b, realm, us[1..], createOnly);
        UsersThen(a.server, b.server, c.server, realm, us);
        if s2 == Done {
          LiveIs(a);
          LiveIs(b);
          LiveIs(c);
          UsersGrow(b.server, c.server, realm, us[1..]);
          FirstUserStays(a.server, b.server, c.server, realm, us);
          OtherUsersStay(a.server, b.server, c.server, realm, us);
          FirstAndOthers(a.server, c.server, realm, us);
        }
      }
    }
  }

  lemma NoUsers(s: Server, realm: string)
    ensures OnlyUsersAdded(s, s, realm, []) && AllRolesThere(s, realm, []) && AllUsersThere(s, s, realm, [])
  {}

  lemma UsersGrow(s: Server, t: Server, realm: string, us: seq<UserConfig>)
    requires OnlyUsersAdded(s, t, realm, us)
    ensures Grows(s, t) && t.realms == s.realms
  {}

  lemma RestAreDistinct(us: seq<UserConfig>)
    requires us != [] && DistinctUsernames(us)
    ensures DistinctUsernames(us[1..])
    ensures forall i :: 0 <= i < |us[1..]| ==> us[1..][i] == us[i + 1] && us[1..][i].username != us[0].username
  {
    assert forall i :: 0 <= i < |us[1..]| ==> us[1..][i] == us[i + 1];
  }

  lemma OneIsOfAll(s: Server, t: Server, realm: string, us: seq<UserConfig>)
    requires us != [] && OnlyUserAdded(s, t, User(realm, us[0].username))
    ensures OnlyUsersAdded(s, t, realm, us)
  {
    assert us[0] in us;
  }

  lemma RolesOneMoreUser(s: Server, t: Server, realm: string, us: seq<UserConfig>)
    requires us != [] && OnlyUserAdded(s, t, User(realm, us[0].username))
    ensures AllRolesThere(s, realm, us) <==> UserRolesThere(s, realm, us[0]) && AllRolesThere(t, realm, us[1..])
  {
    forall i | 0 <= i < |us| ensures UserRolesThere(s, realm, us[i]) <==> UserRolesThere(t, realm, us[i]) {
      UserRolesAlike(s, t, realm, us[i], User(realm, us[0].username));
    }
    var rest := us[1..];
    assert forall i :: 0 <= i < |rest| ==> rest[i] == us[i + 1];
    assert forall i :: 0 < i < |us| ==> us[i] == rest[i - 1];
  }

  lemma UsersThen(s: Server, t: Server, u: Server, realm: string, us: seq<UserConfig>)
    requires us != [] && OnlyUserAdded(s, t, User(realm, us[0].username)) && OnlyUsersAdded(t, u, realm, us[1..])
    ensures OnlyUsersAdded(s, u, realm, us)
  {
    GrowsTransitive(s, t, u);
    assert us == [us[0]] + us[1..];
    forall m | m in u.memberships && m !in s.memberships ensures IsOneOf(u, realm, us, m.user) {
      if m in t.memberships {
        assert Lookup(u, User(realm, us[0].username)) == Some(m.user);
      } else {
        var i :| 0 <= i < |us[1..]| && Lookup(u, User(realm, us[1..][i].username)) == Some(m.user);
        assert us[i + 1] == us[1..][i];
      }
    }
  }

  /** Users change no group. */
  lemma GroupsAlike(s: Server, t: Server, realm: string, us: seq<UserConfig>)
    requires OnlyUsersAdded(s, t, realm, us)
    ensures forall p :: GroupAt(s, realm, p) == GroupAt(t, realm, p)
  {
    forall p ensures GroupAt(s, realm, p) == GroupAt(t, realm, p) {
      SameWalk(Api(s, None, []), Api(t, None, []), realm, "",
               ConfigMaps.PathNames(ConfigMaps.NormalizeGroupPath(p)));
    }
  }

  lemma OneIsUnlike(s: Server, realm: string, us: seq<UserConfig>, username: string, id: Id)
    requires OwnersOk(s) && ObjectsOk(s) && IsOneOf(s, realm, us, id) && Lookup(s, User(realm, username)) == Some(id)
    ensures exists i :: 0 <= i < |us| && us[i].username == username
  {
    var i :| 0 <= i < |us| && Lookup(s, User(realm, us[i].username)) == Some(id);
    assert s.owner[id] == User(realm, us[i].username) == User(realm, username);
  }

  /** The first user's memberships are as they were when it was done. */
  lemma FirstUserStays(s: Server, t: Server, u: Server, realm: string, us: seq<UserConfig>)
    requires Directory.WellFormed(t) && Directory.WellFormed(u) && us != [] && DistinctUsernames(us)
    requires OnlyUsersAdded(t, u, realm, us[1..])
    requires UserThere(t, realm, us[0]) && MemberWhereItLeads(s, t, realm, us[0])
    ensures UserThere(u, realm, us[0]) && MemberWhereItLeads(s, u, realm, us[0])
  {
    hide PathsOk, MappingsOk, MembershipsOk, GroupAt, Holds;
    RestAreDistinct(us);
    UserThereLater(t, u, realm, us[0]);
    GroupsAlike(t, u, realm, us[1..]);
    var id := t.objects[User(realm, us[0].username)];
    forall m | m in u.memberships && m.user == id ensures m in t.memberships {
      if m !in t.memberships {
        OneIsUnlike(u, realm, us[1..], us[0].username, id);
      }
    }
    forall p ensures MemberAt(t, id, p) <==> MemberAt(u, id, p) {
      SameMemberships(t, u, id, p);
    }
  }

  /** The first user makes no difference to the others' memberships. */
  lemma OtherUsersStay(s: Server, t: Server, u: Server, realm: string, us: seq<UserConfig>)
    requires Directory.WellFormed(s) && Directory.WellFormed(t) && us != [] && DistinctUsernames(us)
    requires OnlyUserAdded(s, t, User(realm, us[0].username)) && Grows(t, u) && AllUsersThere(t, u, realm, us[1..])
    ensures AllUsersThere(s, u, realm, us[1..])
  {
    hide PathsOk, MappingsOk, MembershipsOk, GroupAt, Holds, UserThere;
    RestAreDistinct(us);
    var rest := us[1..];
    forall i | 0 <= i < |rest| ensures UserThere(u, realm, rest[i]) && MemberWhereItLeads(s, u, realm, rest[i]) {
      var k := User(realm, rest[i].username);
      assert MemberWhereItLeads(t, u, realm, rest[i]);
      assert k in t.objects <==> k in s.objects;
      if k in s.objects {
        var id := s.objects[k];
        assert t.owner[id] == k && u.objects[k] == id;
        forall m | m in t.memberships && m.user == id ensures m in s.memberships {
          assert t.owner[t.objects[User(realm, us[0].username)]] == User(realm, us[0].username);
        }
        forall p ensures MemberAt(s, id, p) <==> MemberAt(t, id, p) {
          SameMemberships(s, t, id, p);
        }
      }
    }
  }

  lemma FirstAndOthers(s: Server, u: Server, realm: string, us: seq<UserConfig>)
    requires us != [] && UserThere(u, realm, us[0]) && MemberWhereItLeads(s, u, realm, us[0])
    requires AllUsersThere(s, u, realm, us[1..])
    ensures AllUsersThere(s, u, realm, us)
  {
    assert forall i :: 0 < i < |us| ==> us[i] == us[1..][i - 1];
  }

  // ---------- the methods ----------

  /** The walk over the configured paths, with what the user is known to be in. */
  method EnsureUserGroups(port: Port, realm: string, user: Id, paths: seq<string>) returns (status: Status)
    modifies port
    ensures (port.api, status) ==
            JoinGroups(old(port.api), realm, user, paths, GroupPathsOf(old(port.api), realm, user))
  {
    var memberOf := GroupPathsOf(port.api, realm, user);
    ghost var start, known := port.api, memberOf;
    for i := 0 to |paths|
      invariant JoinGroups(start, realm, user, paths, known) ==
                JoinGroups(port.api, realm, user, paths[i..], memberOf)
    {
      assert paths[i..][0] == paths[i] && paths[i..][1..] == paths[i + 1..];
      JoinGroupsIs(port.api, realm, user, paths[i..], memberOf);
      var path := ConfigMaps.NormalizeGroupPath(paths[i]);
      if path in memberOf {
        continue;
      }
      var group := ResolveGroupPath(port, realm, path);
      if group.None? {
        continue;
      }
      var (next, joined) := AddToGroup(port.api, Membership(user, group.value));
      port.api, status := next, joined;
      if status != Done {
        return;
      }
      memberOf := memberOf + {path};
    }
    JoinGroupsIs(port.api, realm, user, [], memberOf);
    assert paths[|paths|..] == [];
    status := Done;
  }

  method EnsureOneUser(port: Port, realm: string, u: UserConfig, createOnly: bool) returns (status: Status)
    modifies port
    ensures (port.api, status) == EnsureUser(old(port.api), realm, u, createOnly)
  {
    hide JoinGroups, EnsureRoleMappings;
    var k := User(realm, u.username);
    var id := Peek(port.api, k);
    if id.None? {
      var (next, made) := Create(port.api, k, false);
      port.api, id := next, made;
    } else if !createOnly {
      port.api := Update(port.api, k, id.value, false);
    }
    if id.None? {
      return Refused;
    }
    status := Done;
    if u.roles.Some? {
      status := port.EnsureRoleMappingsOf(realm, HolderKind.Users, id.value, u.roles.value.realm,
                                          u.roles.value.clients);
      if status != Done {
        return;
      }
    }
    if |u.groups| > 0 {
      status := EnsureUserGroups(port, realm, id.value, u.groups);
    }
  }

  method RunUsers(port: Port, realm: string, us: seq<UserConfig>, createOnly: bool) returns (status: Status)
    modifies port
    ensures (port.api, status) == EnsureUsers(old(port.api), realm, us, createOnly)
  {
    for i := 0 to |us|
      invariant EnsureUsers(old(port.api), realm, us, createOnly) == EnsureUsers(port.api, realm, us[i..], createOnly)
    {
      assert us[i..][1..] == us[i + 1..];
      EnsureUsersStep(port.api, realm, us[i..], createOnly);
      status := EnsureOneUser(port, realm, us[i], createOnly);
      if status != Done {
        return;
      }
    }
    assert us[|us|..] == [];
    status := Done;
  }
}
