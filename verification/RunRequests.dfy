/** The requests of a whole run: to the directory it sends exactly those that what the config declares calls for. */
module RunRequests {
  import opened Directory
  import opened GroupTrees
  import opened Ids
  import opened LiveRequests
  import opened LiveRuns
  import opened Progress
  import opened Provision
  import opened RealmConfigs
  import opened RealmRequests
  import opened Reconcile
  import opened Requests
  import opened Text
  import opened Users

  /** Everything a realm's config declares, with the ids it has on `s`; `was` says who was in which group before. */
  function RealmAsked(was: Server, s: Server, r: Realm): Asked {
    Both(Both(Both(Asked(ScopesNamed(r.name, r.scopes), {}, {}), MiddleAsked(s, r)),
              GroupsAsked(s, r.name, "", r.groups)),
         UsersAsked(was, s, r.name, r.users))
  }

  /** The clients and roles, and the grants put off until those are there. */
  function MiddleAsked(s: Server, r: Realm): Asked {
    Both(Both(Asked(ClientsNamed(s, r.name, r.clients), {}, {}), Asked(RolesNamed(r.name, "", r.roles), {}, {})),
         Asked(multiset{}, AccountRoles(s, r.name, r.clients) + ScopeRoles(s, r.name, r.scopes)
                           + ClientScopeRoles(s, r.name, r.clients), {}))
  }

  function OptionAsked(s: Server, realm: string, kind: HolderKind, holder: Key, roles: Option<Roles>)
    : set<(Mapping, string)>
  {
    if roles.None? || holder !in s.objects then {}
    else RolesAsked(s, realm, kind, s.objects[holder], roles.value.realm, roles.value.clients).roles
  }

  function AccountOfClient(s: Server, realm: string, c: FullClient): Key {
    ServiceAccount(realm, Uuid(s, realm, c))
  }

  /** The roles of the clients' service accounts. */
  function AccountRoles(s: Server, realm: string, cs: seq<FullClient>): set<(Mapping, string)> {
    if cs == [] then {}
    else
      var c := cs[|cs| - 1];
      AccountRoles(s, realm, cs[..|cs| - 1])
      + OptionAsked(s, realm, HolderKind.Users, AccountOfClient(s, realm, c), c.serviceAccountRoles)
  }

  /** The roles in the clients' scopes. */
  function ClientScopeRoles(s: Server, realm: string, cs: seq<FullClient>): set<(Mapping, string)> {
    if cs == [] then {}
    else
      var c := cs[|cs| - 1];
      ClientScopeRoles(s, realm, cs[..|cs| - 1])
      + OptionAsked(s, realm, HolderKind.Clients, Client(realm, c.base.clientId), c.scopeMappings)
  }

  /** The roles in the client scopes. */
  function ScopeRoles(s: Server, realm: string, scopes: seq<ScopeConfig>): set<(Mapping, string)> {
    if scopes == [] then {}
    else
      var c := scopes[|scopes| - 1];
      ScopeRoles(s, realm, scopes[..|scopes| - 1])
      + OptionAsked(s, realm, HolderKind.ClientScopes, ClientScope(realm, c.name), c.scopeMappings)
  }

  lemma {:induction false} WorkOfTwo(s: Server, realm: string, xs: seq<Deferred>, ys: seq<Deferred>)
    ensures WorkAsked(s, realm, xs + ys) == Both(WorkAsked(s, realm, xs), WorkAsked(s, realm, ys))
    decreases |xs|
  {
    if xs == [] {
      assert xs + ys == ys;
      BothWithNothing(WorkAsked(s, realm, ys));
    } else {
      assert (xs + ys)[0] == xs[0] && (xs + ys)[1..] == xs[1..] + ys;
      WorkOfTwo(s, realm, xs[1..], ys);
      hide RolesAsked;
    }
  }

  lemma OneWorkAsked(s: Server, realm: string, d: Deferred)
    ensures
      var holder := HolderIn(s, realm, d.owner);
      WorkAsked(s, realm, [d]) ==
      Asked(multiset{}, if holder.None? then {}
            else RolesAsked(s, realm, KindOf(d.owner), holder.value, d.roles.realm, d.roles.clients).roles, {})
  {
    assert [d][0] == d && [d][1..] == [];
  }

  lemma NoWorkAsked(s: Server, realm: string)
    ensures WorkAsked(s, realm, []) == Asked(multiset{}, {}, {})
  {}

  lemma OnlyRoles(xs: set<(Mapping, string)>, ys: set<(Mapping, string)>)
    ensures Both(Asked(multiset{}, xs, {}), Asked(multiset{}, ys, {})) == Asked(multiset{}, xs + ys, {})
  {}

  lemma {:induction false} AccountsAsked(s: Server, realm: string, cs: seq<FullClient>)
    ensures WorkAsked(s, realm, Accounts(s, realm, cs)) == Asked(multiset{}, AccountRoles(s, realm, cs), {})
    decreases |cs|
  {
    hide WorkAsked, RolesAsked, Uuid;
    if cs == [] {
      NoWorkAsked(s, realm);
    } else {
      var front, c := cs[..|cs| - 1], cs[|cs| - 1];
      AccountsAsked(s, realm, front);
      if c.serviceAccountRoles.Some? {
        var d := Deferred(AccountOf(Uuid(s, realm, c)), c.serviceAccountRoles.value);
        OneWorkAsked(s, realm, d);
        WorkOfTwo(s, realm, Accounts(s, realm, front), [d]);
        OnlyRoles(AccountRoles(s, realm, front), WorkAsked(s, realm, [d]).roles);
      } else {
        assert Accounts(s, realm, front) + [] == Accounts(s, realm, front);
      }
    }
  }

  lemma {:induction false} ClientScopesAsked(s: Server, realm: string, cs: seq<FullClient>)
    requires forall i :: 0 <= i < |cs| ==> Client(realm, cs[i].base.clientId) in s.objects
    ensures WorkAsked(s, realm, ClientScopeWork(s, realm, cs)) == Asked(multiset{}, ClientScopeRoles(s, realm, cs), {})
    decreases |cs|
  {
    hide WorkAsked, RolesAsked;
    if cs == [] {
      NoWorkAsked(s, realm);
    } else {
      var front, c := cs[..|cs| - 1], cs[|cs| - 1];
      ClientScopesAsked(s, realm, front);
      if c.scopeMappings.Some? {
        var d := Deferred(Scope(HolderKind.Clients, Uuid(s, realm, c)), c.scopeMappings.value);
        OneWorkAsked(s, realm, d);
        WorkOfTwo(s, realm, ClientScopeWork(s, realm, front), [d]);
        OnlyRoles(ClientScopeRoles(s, realm, front), WorkAsked(s, realm, [d]).roles);
      } else {
        assert ClientScopeWork(s, realm, front) + [] == ClientScopeWork(s, realm, front);
      }
    }
  }

  lemma {:induction false} ScopesAsked(s: Server, realm: string, scopes: seq<ScopeConfig>)
    requires ScopesThere(s, realm, scopes)
    ensures WorkAsked(s, realm, ScopeWork(s, realm, scopes)) == Asked(multiset{}, ScopeRoles(s, realm, scopes), {})
    decreases |scopes|
  {
    hide WorkAsked, RolesAsked;
    if scopes == [] {
      NoWorkAsked(s, realm);
    } else {
      var front, c := scopes[..|scopes| - 1], scopes[|scopes| - 1];
      ScopesAsked(s, realm, front);
      if c.scopeMappings.Some? {
        var d := Deferred(Scope(HolderKind.ClientScopes, ScopeUuid(s, realm, c.name)), c.scopeMappings.value);
        OneWorkAsked(s, realm, d);
        WorkOfTwo(s, realm, ScopeWork(s, realm, front), [d]);
        OnlyRoles(ScopeRoles(s, realm, front), WorkAsked(s, realm, [d]).roles);
      } else {
        assert ScopeWork(s, realm, front) + [] == ScopeWork(s, realm, front);
      }
    }
  }

  /** The deferred work asks for what the clients and the scopes declare. */
  lemma DeferredAsks(s: Server, r: Realm, was: Server)
    requires Stocked(s, r, was)
    ensures WorkAsked(s, r.name, DeferredWork(s, r)) ==
            Asked(multiset{}, AccountRoles(s, r.name, r.clients) + ScopeRoles(s, r.name, r.scopes)
                              + ClientScopeRoles(s, r.name, r.clients), {})
  {
    hide WorkAsked, Accounts, ScopeWork, ClientScopeWork, AccountRoles, ScopeRoles, ClientScopeRoles, Stocked, Both;
    StockedFacts(s, r, was);
    AllThereLater(s, s, r, was, r.clients) by {
      GrowsItself(s);
    }
    var xs, ys, zs := Accounts(s, r.name, r.clients), ScopeWork(s, r.name, r.scopes),
                      ClientScopeWork(s, r.name, r.clients);
    AccountsAsked(s, r.name, r.clients);
    ScopesAsked(s, r.name, r.scopes);
    ClientScopesAsked(s, r.name, r.clients);
    WorkOfTwo(s, r.name, ys, zs);
    WorkOfTwo(s, r.name, xs, ys + zs);
    OnlyRoles(ScopeRoles(s, r.name, r.scopes), ClientScopeRoles(s, r.name, r.clients));
    OnlyRoles(AccountRoles(s, r.name, r.clients),
              ScopeRoles(s, r.name, r.scopes) + ClientScopeRoles(s, r.name, r.clients));
    assert AccountRoles(s, r.name, r.clients)
           + (ScopeRoles(s, r.name, r.scopes) + ClientScopeRoles(s, r.name, r.clients)) ==
           AccountRoles(s, r.name, r.clients) + ScopeRoles(s, r.name, r.scopes)
           + ClientScopeRoles(s, r.name, r.clients);
  }

  lemma MiddleFollows(b: Api, flows: set<string>, r: Realm, was: Server) returns (asked: Asked)
    requires IsLive(b) && r.name in b.server.realms && OnlyDeclared(b.server, r, was) && Accepted(r)
    requires ScopesThere(b.server, r.name, r.scopes) && Fresh(b.server, r, was, r.clients)
    requires NobodyNew(b.server, r, was) && Begun(was, r)
    ensures
      var (d, status) := Middle(b, flows, r);
      && Follows(b, d, asked, r.createOnly) && asked.joins == {}
      && (status == Done ==> asked == MiddleAsked(d.server, r))
  {
    hide *;
    NoJoins();
    MiddleIs(b, flows, r);
    FullClientsLive(b, r, was, r.clients, flows);
    asked := EnsureFullClientsFollows(b, r.name, r.clients, flows, r.createOnly);
    var (c, s1) := EnsureFullClients(b, r.name, r.clients, flows, r.createOnly);
    ClientsDoneFacts(b, c, s1, r, was, r.clients, flows);
    if s1 == Done {
      SameMembers(b, c, asked, r.createOnly);
      StillNobody(b.server, c.server, r, was);
      ScopesStay(b.server, c.server, r.name, r.scopes);
      BegunFacts(was, r);
      StillGrows(b.server, c.server, r, was);
      Stock(c, r, was);
      HomeIsRealm(c.server, r.name);
      EnsureRolesFollows(c, r.name, "", r.roles, r.createOnly);
      var d := EnsureRoles(c, r.name, "", r.roles, r.createOnly).0;
      var x, y := asked, Asked(RolesNamed(r.name, "", r.roles), {}, {});
      RolesOnlyNoJoins(RolesNamed(r.name, "", r.roles));
      FollowsBoth(b, c, d, x, y, r.createOnly);
      WorkStays(b.server, c.server, d.server, r, was);
      WorkableIfDeclared(d.server, r, was);
      StockedFacts(d.server, r, was);
      DeferredLive(d, r.name, DeferredWork(d.server, r));
      var z := GrantDeferredFollows(d, r.name, DeferredWork(d.server, r), r.createOnly);
      var (e, s2) := GrantDeferred(d, r.name, DeferredWork(d.server, r));
      FollowsBoth(b, d, e, Both(x, y), z, r.createOnly);
      asked := Both(Both(x, y), z);
      if s2 == Done {
        GrantsGrow(d, e, s2, r.name, DeferredWork(d.server, r));
        ClientsNamedLater(c.server, d.server, r.name, r.clients);
        ClientsNamedLater(d.server, e.server, r.name, r.clients) by {
          ClientsStayThere(c.server, d.server, r);
        }
        WorkAskedAlike(d.server, e.server, r.name, DeferredWork(d.server, r));
        SameWork(d.server, e.server, r, was);
        StockAfterGrants(d.server, e.server, r, was);
        DeferredAsks(e.server, r, was);
        MiddleAskedIs(e.server, r);
      }
    }
  }

  lemma StockAfterGrants(s: Server, t: Server, r: Realm, was: Server)
    requires Stocked(s, r, was) && Grows(s, t) && WellFormed(t) && t == s.(mappings := t.mappings)
    ensures Stocked(t, r, was)
  {
    SameStock(s, t, r, was);
  }

  lemma MiddleAskedIs(s: Server, r: Realm)
    ensures MiddleAsked(s, r) ==
            Both(Both(Asked(ClientsNamed(s, r.name, r.clients), {}, {}),
                      Asked(RolesNamed(r.name, "", r.roles), {}, {})),
                 Asked(multiset{}, AccountRoles(s, r.name, r.clients) + ScopeRoles(s, r.name, r.scopes)
                                   + ClientScopeRoles(s, r.name, r.clients), {}))
  {}

  lemma HomeIsRealm(s: Server, realm: string)
    ensures RoleHome(s, realm, "")
  {}

  lemma GrantsGrow(a: Api, b: Api, status: Status, realm: string, ds: seq<Deferred>)
    requires DeferredDone(a, b, status, realm, ds)
    ensures IsLive(b) && Grows(a.server, b.server) && b.server.objects == a.server.objects
    ensures b.server == a.server.(mappings := b.server.mappings)
  {}

  lemma ClientsStayThere(s: Server, t: Server, r: Realm)
    requires Grows(s, t) && forall i :: 0 <= i < |r.clients| ==> Client(r.name, r.clients[i].base.clientId) in s.objects
    ensures forall i :: 0 <= i < |r.clients| ==> Client(r.name, r.clients[i].base.clientId) in t.objects
  {}

  /** Groups and users leave everybody's addresses as they were. */
  lemma MiddleAskedLater(s: Server, t: Server, r: Realm, was: Server)
    requires Stocked(s, r, was) && Stocked(t, r, was) && Grows(s, t) && AllWorkDone(s, r.name, DeferredWork(s, r))
    requires forall k :: k in t.objects && k !in s.objects ==> k.Group? || k.User?
    ensures MiddleAsked(t, r) == MiddleAsked(s, r)
  {
    hide *;
    StockedFacts(s, r, was);
    AllThereLater(s, t, r, was, r.clients);
    ClientsNamedLater(s, t, r.name, r.clients);
    SameWork(s, t, r, was);
    SameClientsOf(s, t);
    HoldersThere(s, r.name, DeferredWork(s, r));
    WorkAskedLater(s, t, r.name, DeferredWork(s, r));
    DeferredAsks(s, r, was);
    DeferredAsks(t, r, was);
    MiddleAskedIs(s, r);
    MiddleAskedIs(t, r);
  }

  lemma SameClientsOf(s: Server, t: Server)
    requires Grows(s, t) && forall k :: k in t.objects && k !in s.objects ==> k.Group? || k.User?
    ensures forall k: Key :: k.Client? ==> Lookup(s, k) == Lookup(t, k)
  {}

  lemma HoldersThere(s: Server, realm: string, ds: seq<Deferred>)
    requires AllWorkDone(s, realm, ds)
    ensures forall i :: 0 <= i < |ds| ==> HolderIn(s, realm, ds[i].owner).Some?
  {
    forall i | 0 <= i < |ds| ensures HolderIn(s, realm, ds[i].owner).Some? {
      assert WorkDone(s, realm, ds[i]);
    }
  }

  lemma PeopleFollows(a: Api, r: Realm, was: Server) returns (asked: Asked)
    requires IsLive(a) && Stocked(a.server, r, was) && NobodyNew(a.server, r, was) && Accepted(r)
    ensures
      var (b, status) := GroupsThenUsers(a, r);
      && Follows(a, b, asked, r.createOnly)
      && (status == Done ==>
            asked == Both(GroupsAsked(b.server, r.name, "", r.groups), UsersAsked(was, b.server, r.name, r.users)))
  {
    hide *;
    GroupsThenUsersIs(a, r);
    StockedFacts(a.server, r, was);
    AcceptedFacts(r);
    GroupsLive(a, r, was);
    asked := EnsureGroupsFollows(a, r.name, "", r.groups, r.createOnly);
    var (b, s1) := EnsureGroups(a, r.name, "", r.groups, r.createOnly);
    if s1 == Done {
      StockedFacts(b.server, r, was);
      EnsureUsersLive(b, r.name, r.users, r.createOnly);
      var y := EnsureUsersFollows(b, r.name, r.users, r.createOnly);
      var (c, s2) := EnsureUsers(b, r.name, r.users, r.createOnly);
      FollowsBoth(a, b, c, asked, y, r.createOnly);
      asked := Both(asked, y);
      if s2 == Done {
        LiveIs(b);
        LiveIs(c);
        PeopleAskedLater(was, b.server, c.server, r);
      }
    }
  }

  lemma PeopleAskedLater(was: Server, s: Server, t: Server, r: Realm)
    requires WellFormed(was) && WellFormed(s) && WellFormed(t) && Grows(was, s) && s.memberships == was.memberships
    requires GroupsThere(s, r) && OnlyUsersAdded(s, t, r.name, r.users) && AllUsersThere(s, t, r.name, r.users)
    ensures GroupsAsked(t, r.name, "", r.groups) == GroupsAsked(s, r.name, "", r.groups)
    ensures UsersAsked(was, t, r.name, r.users) == UsersAsked(s, t, r.name, r.users)
  {
    hide WellFormed, Grows, MemberWhereItLeads, TreeRolesExist, TreeDeclares;
    UsersGrow(s, t, r.name, r.users);
    UsersAddNoClients(s, t, r);
    GroupsAskedLater(s, t, r.name, "", r.groups);
    forall i | 0 <= i < |r.users|
      ensures
        var k := User(r.name, r.users[i].username);
        k in t.objects && PathsOfUser(was, t.objects[k]) == PathsOfUser(s, t.objects[k])
    {
      assert UserThere(t, r.name, r.users[i]);
      SamePaths(was, s, t.objects[User(r.name, r.users[i].username)]);
    }
    UsersAskedAlike(was, s, t, r.name, r.users);
  }

  lemma UsersAddNoClients(s: Server, t: Server, r: Realm)
    requires OnlyUsersAdded(s, t, r.name, r.users) && Grows(s, t)
    ensures forall k: Key :: k.Client? ==> Lookup(s, k) == Lookup(t, k)
  {}

  lemma SamePaths(was: Server, s: Server, user: Id)
    requires WellFormed(was) && Grows(was, s) && s.memberships == was.memberships
    ensures PathsOfUser(was, user) == PathsOfUser(s, user)
  {
    hide ObjectsOk, OwnersOk, MappingsOk;
    forall m | m in was.memberships ensures PathOf(s, m.group) == PathOf(was, m.group) {
      GroupHasPath(was, s, m);
    }
  }

  /** Whatever the realm holds and however the run ends, it sends the directory exactly the requests that what has been
      declared so far calls for; and when it goes through, that is everything the config declares. */
  lemma RunFollows(a: Api, flows: set<string>, rest: Rest, w: Ways, r: Realm) returns (asked: Asked)
    requires IsLive(a) && Fits(a.server, rest, w, r) && Accepted(r)
    ensures
      var (g, next, status) := AfterFlows(a, flows, rest, w, r);
      && Follows(Bind(a, r), g, asked, r.createOnly)
      && (status == Done ==> asked == RealmAsked(a.server, g.server, r))
  {
    hide *;
    NoJoins();
    ghost var was := a.server;
    FitsIs(was, rest, w, r);
    AfterFlowsIs(a, flows, rest, w, r);
    BeforeIs(a, flows, r);
    BeforeLive(a, flows, r);
    var (b, s1) := Before(a, flows, r);
    BindKeeps(a, r);
    LiveIs(a);
    LiveIs(Bind(a, r));
    if b == Bind(a, r) && s1 != Done {
      NothingAsked(b, r.createOnly);
      return NOTHING;
    }
    asked := EnsureScopesFollows(Bind(a, r), r.name, r.scopes, r.createOnly);
    if s1 == Done {
      MiddleLive(b, flows, r, was);
      var x := MiddleFollows(b, flows, r, was);
      var (c, s2) := Middle(b, flows, r);
      MiddleFacts(b, c, s2, flows, r, was);
      FollowsBoth(Bind(a, r), b, c, asked, x, r.createOnly);
      asked := Both(asked, x);
      if s2 == Done {
        PermitLive(c.server, rest.authz, r, was, w.offered);
        var s3 := Permit(c.server, rest.authz, w.offered, r).1;
        if s3 == Done {
          PeopleLive(c, r, was);
          var y := PeopleFollows(c, r, was);
          var (d, s4) := GroupsThenUsers(c, r);
          PeopleFacts(c, d, s4, r, was);
          FollowsBoth(Bind(a, r), c, d, asked, y, r.createOnly);
          asked := Both(asked, y);
          if s4 == Done {
            MiddleAskedLater(c.server, d.server, r, was);
            RealmAskedIs(was, d.server, r);
          }
        }
      }
    }
  }

  lemma BeforeIs(a: Api, flows: set<string>, r: Realm)
    ensures Before(a, flows, r) == (Bind(a, r), Refused)
            || Before(a, flows, r) == EnsureScopes(Bind(a, r), r.name, r.scopes, r.createOnly)
  {
    hide Bind, EnsureScopes, FlowsKnown;
  }

  lemma RealmAskedIs(was: Server, s: Server, r: Realm)
    ensures RealmAsked(was, s, r) ==
            Both(Both(Asked(ScopesNamed(r.name, r.scopes), {}, {}), MiddleAsked(s, r)),
                 Both(GroupsAsked(s, r.name, "", r.groups), UsersAsked(was, s, r.name, r.users)))
  {
    hide ScopesNamed, MiddleAsked, GroupsAsked, UsersAsked;
    BothTwice(Both(Asked(ScopesNamed(r.name, r.scopes), {}, {}), MiddleAsked(s, r)),
              GroupsAsked(s, r.name, "", r.groups), UsersAsked(was, s, r.name, r.users));
  }

  lemma BothTwice(x: Asked, y: Asked, z: Asked)
    ensures Both(Both(x, y), z) == Both(x, Both(y, z))
  {}
}
