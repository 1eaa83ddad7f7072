/** Provisioning a realm, whatever it holds: when it goes through, and what holds afterwards
    (internal/provisioner/provisioner.go). */
module Progress {
  import opened Directory
  import opened GroupTrees
  import opened Holdings
  import opened Ids
  import opened Lists
  import opened LiveRuns
  import opened Provision
  import opened RealmConfigs
  import opened LiveRequests
  import opened RealmRequests
  import opened Reconcile
  import opened Requests
  import opened Text
  import opened Users
  import AuthFlows
  import ConfigMaps
  import I = IdentityProviders
  import O = Organizations
  import P = ManagementPermissions

  // ---------- step 1 ----------

  /** What the run finds after step 1. */
  ghost predicate Begun(s: Server, r: Realm) {
    WellFormed(s) && r.name in s.realms
  }

  /** The realm's groups and users are those it had, and so are the memberships. */
  ghost predicate NobodyNew(s: Server, r: Realm, was: Server) {
    && s.memberships == was.memberships
    && forall k :: k in s.objects && k.realm == r.name && (k.Group? || k.User?) ==> k in was.objects
  }

  lemma SameMembers(a: Api, b: Api, asked: Asked, createOnly: bool)
    requires Follows(a, b, asked, createOnly) && asked.joins == {}
    ensures b.server.memberships == a.server.memberships
  {}

  /** What is added is of the realm, and nobody. */
  ghost predicate OnlyThingsAdded(s: Server, t: Server, realm: string) {
    && Grows(s, t) && t.realms == s.realms
    && forall k :: k in t.objects && k !in s.objects ==>
         k.realm == realm && !k.Group? && !k.User? && !k.ServiceAccount?
  }

  lemma {:induction false} FurnishedKeeps(s: Server, realm: string, bs: seq<BuiltIn>)
    requires WellFormed(s)
    ensures WellFormed(Furnished(s, realm, bs)) && OnlyThingsAdded(s, Furnished(s, realm, bs), realm)
    decreases |bs|
  {
    hide WellFormed, Grows;
    GrowsItself(s);
    if bs != [] {
      var k := Address(s, realm, bs[0]);
      if Accepts(s, k) {
        AddKeeps(s, k);
        FurnishedKeeps(Add(s, k), realm, bs[1..]);
        GrowsTransitive(s, Add(s, k), Furnished(Add(s, k), realm, bs[1..]));
      } else {
        FurnishedKeeps(s, realm, bs[1..]);
      }
    }
  }

  /** A client's role is put there once the client is. */
  predicate InOrder(s: Server, realm: string, bs: seq<BuiltIn>, i: nat)
    requires i < |bs|
  {
    bs[i].ClientRoleOf? ==>
      || Client(realm, bs[i].clientId) in s.objects
      || exists j :: 0 <= j < i && bs[j] == ClientNamed(bs[i].clientId)
  }

  /** What servers put into a new realm is there. */
  lemma {:induction false} BuiltInIsThere(s: Server, realm: string, bs: seq<BuiltIn>, i: nat)
    requires WellFormed(s) && realm in s.realms && i < |bs| && InOrder(s, realm, bs, i)
    ensures Address(Furnished(s, realm, bs), realm, bs[i]) in Furnished(s, realm, bs).objects
    decreases |bs|
  {
    hide WellFormed, Grows;
    var rest := bs[1..];
    var t := WithOneMore(s, realm, bs[0]);
    FurnishedKeeps(t, realm, rest);
    if i == 0 {
      OneMoreIsThere(s, Furnished(t, realm, rest), realm, bs[0]);
    } else {
      assert rest[i - 1] == bs[i];
      if bs[i].ClientRoleOf? && Client(realm, bs[i].clientId) in s.objects {
        KeyStays(s, t, Client(realm, bs[i].clientId));
      }
      if bs[i].ClientRoleOf? && Client(realm, bs[i].clientId) !in t.objects {
        var j :| 0 <= j < i && bs[j] == ClientNamed(bs[i].clientId);
        assert j > 0 && rest[j - 1] == bs[j];
      }
      BuiltInIsThere(t, realm, rest, i - 1);
    }
  }

  lemma WithOneMore(s: Server, realm: string, b: BuiltIn) returns (t: Server)
    requires WellFormed(s) && realm in s.realms
    ensures t == (if Accepts(s, Address(s, realm, b)) then Add(s, Address(s, realm, b)) else s)
    ensures WellFormed(t) && Grows(s, t) && realm in t.realms
    ensures !b.ClientRoleOf? ==> Address(s, realm, b) in t.objects
  {
    var k := Address(s, realm, b);
    GrowsItself(s);
    t := if Accepts(s, k) then Add(s, k) else s;
    if Accepts(s, k) {
      AddKeeps(s, k);
    }
  }

  lemma OneMoreIsThere(s: Server, t: Server, realm: string, b: BuiltIn)
    requires WellFormed(s) && realm in s.realms && (b.ClientRoleOf? ==> Client(realm, b.clientId) in s.objects)
    requires
      var k := Address(s, realm, b);
      Grows(if Accepts(s, k) then Add(s, k) else s, t)
    ensures Address(t, realm, b) in t.objects
  {
    var k := Address(s, realm, b);
    if Accepts(s, k) {
      AddKeeps(s, k);
      GrowsTransitive(s, Add(s, k), t);
      hide WellFormed;
      assert k in Add(s, k).objects;
    }
  }

  predicate CountsAsDeclared(r: Realm, was: Server, b: BuiltIn) {
    match b
    case RoleOf(name) => RealmRoleDeclared(r, was, name)
    case ScopeNamed(name) => ScopeDeclared(r, was, name)
    case ClientNamed(clientId) => ClientDeclared(r, was, clientId)
    case ClientRoleOf(clientId, name) => ClientRoleDeclared(r, was, clientId, name)
  }

  /** A config may name whatever servers put into new realms, such as the roles of realm-management. */
  lemma BuiltInsMayBeNamed(a: Api, r: Realm, bs: seq<BuiltIn>, i: nat)
    requires IsLive(a) && r.name !in a.server.realms && i < |bs|
    requires bs[i].ClientRoleOf? && bs[i].clientId != REALM_MANAGEMENT ==>
               exists j :: 0 <= j < i && bs[j] == ClientNamed(bs[i].clientId)
    ensures CountsAsDeclared(r, BeginRealm(a, r.name, r.createOnly, bs).0.server, bs[i])
  {
    hide WellFormed, Furnished;
    RealmIsEmpty(a, r);
    BuiltInIsThere(EnsureRealm(a, r.name, r.createOnly).0.server, r.name, bs, i);
    var was := BeginRealm(a, r.name, r.createOnly, bs).0.server;
    RealmBegins(a, r, bs);
    BegunFacts(was, r);
    AddressMeans(r, was, bs[i]);
  }

  lemma AddressMeans(r: Realm, was: Server, b: BuiltIn)
    requires WellFormed(was) && Address(was, r.name, b) in was.objects
    ensures CountsAsDeclared(r, was, b)
  {
    if b.ClientRoleOf? {
      assert ContainerKnown(was, Address(was, r.name, b));
    }
  }

  /** Step 1 leaves an existing realm as it is, and fills a new one with what servers put there. */
  lemma RealmBegins(a: Api, r: Realm, bs: seq<BuiltIn>)
    requires IsLive(a)
    ensures
      var (b, status) := BeginRealm(a, r.name, r.createOnly, bs);
      && status == Done && IsLive(b) && Grows(a.server, b.server) && r.name in b.server.realms
      && (r.name in a.server.realms ==> b.server == a.server)
      && Begun(b.server, r)
      && (r.name !in a.server.realms ==>
            && Client(r.name, REALM_MANAGEMENT) in b.server.objects
            && forall k :: k in b.server.objects && k.realm == r.name ==> !k.ServiceAccount?)
  {
    hide WellFormed, Grows, Furnished;
    GrowsItself(a.server);
    if r.name !in a.server.realms {
      RealmIsEmpty(a, r);
      var b := EnsureRealm(a, r.name, r.createOnly).0;
      FurnishedBegins(b.server, r, bs);
      GrowsTransitive(a.server, b.server, Furnished(b.server, r.name, bs));
    }
  }

  lemma FurnishedBegins(s: Server, r: Realm, bs: seq<BuiltIn>)
    requires WellFormed(s) && r.name in s.realms && Client(r.name, REALM_MANAGEMENT) in s.objects
    requires forall k :: k in s.objects && k.realm == r.name ==> k == Client(r.name, REALM_MANAGEMENT)
    ensures
      var t := Furnished(s, r.name, bs);
      && Grows(s, t) && Begun(t, r) && Client(r.name, REALM_MANAGEMENT) in t.objects
      && forall k :: k in t.objects && k.realm == r.name ==> !k.ServiceAccount?
  {
    hide WellFormed, Grows, Furnished;
    FurnishedKeeps(s, r.name, bs);
    KeyStays(s, Furnished(s, r.name, bs), Client(r.name, REALM_MANAGEMENT));
  }

  /** A realm just created has nothing but realm-management. */
  lemma RealmIsEmpty(a: Api, r: Realm)
    requires IsLive(a) && r.name !in a.server.realms
    ensures
      var (b, status) := EnsureRealm(a, r.name, r.createOnly);
      && status == Done && IsLive(b) && Grows(a.server, b.server) && r.name in b.server.realms
      && Client(r.name, REALM_MANAGEMENT) in b.server.objects
      && forall k :: k in b.server.objects && k.realm == r.name ==> k == Client(r.name, REALM_MANAGEMENT)
  {
    hide PathsOk, MappingsOk, MembershipsOk, OwnersOk;
    AddRealmKeeps(a.server, r.name);
  }

  // ---------- steps 3 and 4 ----------

  lemma BindKeeps(a: Api, r: Realm)
    ensures Bind(a, r).server == a.server && Bind(a, r).overlay == a.overlay
  {}

  /** Bindings and scopes: they go through exactly when the bindings name known flows. */
  lemma BeforeLive(a: Api, flows: set<string>, r: Realm)
    requires IsLive(a) && Begun(a.server, r) && Accepted(r)
    ensures
      var (b, status) := Before(a, flows, r);
      && (status == Done <==> FlowsKnown(AuthFlows.Configured(r.bindings), flows))
      && (status == Done ==>
            && IsLive(b) && Grows(a.server, b.server) && r.name in b.server.realms
            && OnlyDeclared(b.server, r, a.server) && ScopesThere(b.server, r.name, r.scopes)
            && Fresh(b.server, r, a.server, r.clients) && NobodyNew(b.server, r, a.server))
  {
    hide Directory.WellFormed, Grows, EnsureScopes, AuthFlows.Configured, FlowsKnown, Bind;
    BindKeeps(a, r);
    LiveIs(a);
    LiveIs(Bind(a, r));
    EnsureScopesLive(Bind(a, r), r.name, r.scopes, r.createOnly);
    var asked := EnsureScopesFollows(Bind(a, r), r.name, r.scopes, r.createOnly);
    var b := EnsureScopes(Bind(a, r), r.name, r.scopes, r.createOnly).0;
    SameMembers(Bind(a, r), b, asked, r.createOnly);
    GrowsObjects(a.server, b.server);
    ScopesAreDeclared(a.server, b.server, r);
  }

  lemma GrowsObjects(s: Server, t: Server)
    requires Grows(s, t)
    ensures forall k :: k in s.objects ==> k in t.objects
  {}

  lemma ScopesAreDeclared(s: Server, t: Server, r: Realm)
    requires Accepted(r) && Grows(s, t) && t.objects.Keys <= s.objects.Keys + ScopeKeys(r.name, r.scopes)
    requires t.memberships == s.memberships
    ensures OnlyDeclared(t, r, s) && Fresh(t, r, s, r.clients) && NobodyNew(t, r, s)
  {
    forall k | k in t.objects && k.realm == r.name && k !in s.objects
      ensures KeyDeclared(t, r, s, k) && !k.Group? && !k.User?
    {
      var c :| c in r.scopes && k == ClientScope(r.name, c.name);
      var i :| 0 <= i < |r.scopes| && r.scopes[i] == c;
      assert ScopeDeclared(r, s, c.name);
    }
  }

  // ---------- steps 5 to 7 ----------

  lemma RolesAreDeclared(s: Server, t: Server, r: Realm, was: Server)
    requires OnlyDeclared(s, r, was) && Grows(s, t)
    requires t.objects.Keys == s.objects.Keys + RoleKeys(r.name, "", r.roles) && t.memberships == s.memberships
    ensures OnlyDeclared(t, r, was) && (NobodyNew(s, r, was) ==> NobodyNew(t, r, was))
  {
    OnlyDeclaredLater(s, t, r, was);
  }

  lemma ScopesStay(s: Server, t: Server, realm: string, scopes: seq<ScopeConfig>)
    requires Grows(s, t) && ScopesThere(s, realm, scopes)
    ensures ScopesThere(t, realm, scopes)
  {}

  lemma AllThereLater(s: Server, t: Server, r: Realm, was: Server, cs: seq<FullClient>)
    requires Grows(s, t) && AllThere(s, r, was, cs)
    ensures AllThere(t, r, was, cs) && forall i :: 0 <= i < |cs| ==> Client(r.name, cs[i].base.clientId) in s.objects
  {
    forall i | 0 <= i < |cs| ensures ClientThere(t, r, was, cs[i]) {
      ClientThereLater(s, t, r, was, cs[i]);
    }
  }

  /** Once the clients are there, the realm's own roles complete the stock. */
  lemma Stock(b: Api, r: Realm, was: Server)
    requires IsLive(b) && r.name in b.server.realms && WellFormed(was) && Grows(was, b.server)
    requires OnlyDeclared(b.server, r, was) && AllThere(b.server, r, was, r.clients)
    requires ScopesThere(b.server, r.name, r.scopes) && NobodyNew(b.server, r, was) && Accepted(r)
    ensures
      var (c, status) := EnsureRoles(b, r.name, "", r.roles, r.createOnly);
      && status == Done && IsLive(c) && Grows(b.server, c.server) && Stocked(c.server, r, was)
      && NobodyNew(c.server, r, was)
  {
    hide Directory.WellFormed, Grows, EnsureRoles, OnlyDeclared, NobodyNew, AllThere, ScopesThere, RolesExist, Follows;
    assert RoleHome(b.server, r.name, "");
    EnsureRolesLive(b, r.name, "", r.roles, r.createOnly);
    EnsureRolesFollows(b, r.name, "", r.roles, r.createOnly);
    var c := EnsureRoles(b, r.name, "", r.roles, r.createOnly).0;
    SameMembers(b, c, Asked(RolesNamed(r.name, "", r.roles), {}, {}), r.createOnly);
    LiveIs(c);
    RolesAreDeclared(b.server, c.server, r, was);
    AllThereLater(b.server, c.server, r, was, r.clients);
    ScopesStay(b.server, c.server, r.name, r.scopes);
    GrowsTransitive(was, b.server, c.server);
  }

  /** A client's service account is there exactly when the client has one coming. */
  lemma AccountThereIfDue(s: Server, r: Realm, was: Server, i: nat)
    requires Stocked(s, r, was) && i < |r.clients|
    ensures ServiceAccount(r.name, Uuid(s, r.name, r.clients[i])) in s.objects <==> HasAccount(r, was, r.clients[i])
  {
    assert ClientThere(s, r, was, r.clients[i]);
    var id := Uuid(s, r.name, r.clients[i]);
    assert IsClientAt(s, r, i, id);
    hide AllThere, ScopesThere, RolesExist;
    if ServiceAccount(r.name, id) in s.objects {
      assert KeyDeclared(s, r, was, ServiceAccount(r.name, id));
      if ServiceAccount(r.name, id) in was.objects {
        ClientWasThere(s, was, ServiceAccount(r.name, id), Client(r.name, r.clients[i].base.clientId));
      } else {
        var j: nat :| IsClientAt(s, r, j, id) && HasAccount(r, was, r.clients[j]);
        SameClientAt(s, r, i, j, id);
      }
    }
  }

  /** The deferred work of a realm. */
  function DeferredWork(s: Server, r: Realm): seq<Deferred> {
    Accounts(s, r.name, r.clients)
    + (ScopeWork(s, r.name, r.scopes) + ClientScopeWork(s, r.name, r.clients))
  }

  predicate MappingsRefer(r: Realm, was: Server) {
    && (forall i :: 0 <= i < |r.clients| ==>
          && (r.clients[i].serviceAccountRoles.Some? ==>
                HasAccount(r, was, r.clients[i]) && RolesDeclared(r, was, r.clients[i].serviceAccountRoles.value))
          && OptionDeclared(r, was, r.clients[i].scopeMappings))
    && forall i :: 0 <= i < |r.scopes| ==> OptionDeclared(r, was, r.scopes[i].scopeMappings)
  }

  lemma OptionThere(s: Server, r: Realm, was: Server, roles: Option<Roles>)
    requires Stocked(s, r, was)
    ensures ScopeRolesThere(s, r.name, roles) <==> OptionDeclared(r, was, roles)
  {
    if roles.Some? {
      ThereIfDeclared(s, r, was, roles.value);
    }
  }

  /** Deferred work can be done exactly when it names what is declared. */
  lemma WorkableIfDeclared(s: Server, r: Realm, was: Server)
    requires Stocked(s, r, was)
    ensures AllWorkable(s, r.name, DeferredWork(s, r)) <==> MappingsRefer(r, was)
    ensures OwnersKnown(s, r.name, DeferredWork(s, r))
  {
    hide Stocked, AllWorkable, OwnersKnown, RolesThere, RolesDeclared, Accounts, ScopeWork, ClientScopeWork, HasAccount,
        Uuid;
    StockedFacts(s, r, was);
    AllThereLater(s, s, r, was, r.clients) by {
      GrowsItself(s);
    }
    AccountsWorkable(s, r.name, r.clients);
    ClientScopesWorkable(s, r.name, r.clients);
    ScopesWorkable(s, r.name, r.scopes);
    forall i | 0 <= i < |r.clients|
      ensures ScopeRolesThere(s, r.name, r.clients[i].scopeMappings) <==>
              OptionDeclared(r, was, r.clients[i].scopeMappings)
      ensures AccountWorkable(s, r.name, r.clients[i]) <==>
              (r.clients[i].serviceAccountRoles.Some? ==>
                 HasAccount(r, was, r.clients[i]) && RolesDeclared(r, was, r.clients[i].serviceAccountRoles.value))
    {
      OptionThere(s, r, was, r.clients[i].scopeMappings);
      OptionThere(s, r, was, r.clients[i].serviceAccountRoles);
      AccountThereIfDue(s, r, was, i);
    }
    forall i | 0 <= i < |r.scopes|
      ensures ScopeRolesThere(s, r.name, r.scopes[i].scopeMappings) <==>
              OptionDeclared(r, was, r.scopes[i].scopeMappings)
    {
      OptionThere(s, r, was, r.scopes[i].scopeMappings);
    }
    var xs, ys, zs := Accounts(s, r.name, r.clients), ScopeWork(s, r.name, r.scopes),
                      ClientScopeWork(s, r.name, r.clients);
    WorkOfBoth(s, r.name, ys, zs);
    WorkOfBoth(s, r.name, xs, ys + zs);
  }

  lemma {:induction false} DeferredConcat(a: Api, realm: string, xs: seq<Deferred>, ys: seq<Deferred>)
    ensures
      var (b, status) := GrantDeferred(a, realm, xs);
      GrantDeferred(a, realm, xs + ys) == if status != Done then (b, status) else GrantDeferred(b, realm, ys)
    decreases |xs|
  {
    hide EnsureRoleMappings, HolderOf;
    if xs == [] {
      assert xs + ys == ys;
    } else {
      assert (xs + ys)[0] == xs[0] && (xs + ys)[1..] == xs[1..] + ys;
      DeferredStep(a, realm, xs);
      DeferredStep(a, realm, xs + ys);
      var holder := HolderOf(a, realm, xs[0].owner);
      if holder.Some? {
        var (b, st) := EnsureRoleMappings(a, realm, KindOf(xs[0].owner), holder.value, xs[0].roles.realm,
                                          xs[0].roles.clients);
        DeferredConcat(b, realm, xs[1..], ys);
      }
    }
  }

  lemma MiddleIs(a: Api, flows: set<string>, r: Realm)
    ensures
      var (b, s1) := EnsureFullClients(a, r.name, r.clients, flows, r.createOnly);
      s1 == Done ==>
        var (c, s2) := EnsureRoles(b, r.name, "", r.roles, r.createOnly);
        s2 == Done ==>
          Middle(a, flows, r) ==
          GrantDeferred(c, r.name, Accounts(b.server, r.name, r.clients)
                        + (ScopeWork(a.server, r.name, r.scopes) + ClientScopeWork(b.server, r.name, r.clients)))
    ensures
      var (b, s1) := EnsureFullClients(a, r.name, r.clients, flows, r.createOnly);
      s1 != Done ==> Middle(a, flows, r) == (b, s1)
  {
    hide EnsureFullClients, EnsureRoles, Accounts, ScopeWork, ClientScopeWork, GrantDeferred;
    var (b, s1) := EnsureFullClients(a, r.name, r.clients, flows, r.createOnly);
    var (c, s2) := EnsureRoles(b, r.name, "", r.roles, r.createOnly);
    DeferredConcat(c, r.name, Accounts(b.server, r.name, r.clients),
                   ScopeWork(a.server, r.name, r.scopes) + ClientScopeWork(b.server, r.name, r.clients));
  }

  lemma WorkStays(a: Server, b: Server, c: Server, r: Realm, was: Server)
    requires Grows(a, b) && Grows(b, c) && ScopesThere(a, r.name, r.scopes) && AllThere(b, r, was, r.clients)
    ensures DeferredWork(c, r) == Accounts(b, r.name, r.clients)
                                  + (ScopeWork(a, r.name, r.scopes) + ClientScopeWork(b, r.name, r.clients))
    ensures Targets(c, r.name, r.clients) == Targets(b, r.name, r.clients)
  {
    hide Grows, ScopesThere, AllThere, Accounts, ScopeWork, ClientScopeWork, Targets;
    GrowsTransitive(a, b, c);
    AllThereLater(b, c, r, was, r.clients);
    ListsKeep(b, c, r.name, r.clients);
    ScopeWorkKeeps(a, c, r.name, r.scopes);
  }

  /** Steps 5 to 7 go through exactly when all flows, roles and accounts they name are there or declared. */
  ghost predicate MiddleDone(b: Api, d: Api, status: Status, flows: set<string>, r: Realm, was: Server) {
    && status == (if AllBound(r.clients, flows) && MappingsRefer(r, was) then Done else NotFound)
    && (status == Done ==>
          && IsLive(d) && Grows(b.server, d.server) && Stocked(d.server, r, was) && NobodyNew(d.server, r, was)
          && AllWorkDone(d.server, r.name, DeferredWork(d.server, r)))
  }

  lemma MiddleLive(b: Api, flows: set<string>, r: Realm, was: Server)
    requires IsLive(b) && r.name in b.server.realms && OnlyDeclared(b.server, r, was) && Accepted(r)
    requires ScopesThere(b.server, r.name, r.scopes) && Fresh(b.server, r, was, r.clients)
    requires NobodyNew(b.server, r, was) && Begun(was, r)
    ensures
      var (d, status) := Middle(b, flows, r);
      MiddleDone(b, d, status, flows, r, was)
  {
    hide *;
    MiddleIs(b, flows, r);
    FullClientsLive(b, r, was, r.clients, flows);
    var (c, s1) := EnsureFullClients(b, r.name, r.clients, flows, r.createOnly);
    ClientsDoneFacts(b, c, s1, r, was, r.clients, flows);
    if s1 != Done {
      NotBound(b, c, s1, flows, r, was);
    } else {
      var asked := EnsureFullClientsFollows(b, r.name, r.clients, flows, r.createOnly);
      SameMembers(b, c, asked, r.createOnly);
      StillNobody(b.server, c.server, r, was);
      ScopesStay(b.server, c.server, r.name, r.scopes);
      BegunFacts(was, r);
      StillGrows(b.server, c.server, r, was);
      Stock(c, r, was);
      var d := EnsureRoles(c, r.name, "", r.roles, r.createOnly).0;
      WorkStays(b.server, c.server, d.server, r, was);
      WorkableIfDeclared(d.server, r, was);
      StockedFacts(d.server, r, was);
      DeferredLive(d, r.name, DeferredWork(d.server, r));
      var (e, s2) := GrantDeferred(d, r.name, DeferredWork(d.server, r));
      WorkIsDone(b, c, d, e, s2, flows, r, was);
    }
  }

  lemma ClientsDoneFacts(a: Api, b: Api, status: Status, r: Realm, was: Server, cs: seq<FullClient>, flows: set<string>)
    requires ClientsDone(a, b, status, r, was, cs, flows)
    ensures IsLive(b) && Grows(a.server, b.server) && b.server.realms == a.server.realms
    ensures OnlyClientsAdded(a.server, b.server) && status == (if AllBound(cs, flows) then Done else NotFound)
    ensures OnlyDeclared(a.server, r, was) ==> OnlyDeclared(b.server, r, was)
    ensures status == Done ==> AllThere(b.server, r, was, cs)
  {}

  lemma NotBound(b: Api, c: Api, status: Status, flows: set<string>, r: Realm, was: Server)
    requires status == NotFound && !AllBound(r.clients, flows)
    ensures MiddleDone(b, c, status, flows, r, was)
  {}

  lemma StillNobody(s: Server, t: Server, r: Realm, was: Server)
    requires NobodyNew(s, r, was) && OnlyClientsAdded(s, t) && t.memberships == s.memberships
    ensures NobodyNew(t, r, was)
  {}

  lemma StillGrows(s: Server, t: Server, r: Realm, was: Server)
    requires Fresh(s, r, was, r.clients) && Grows(s, t)
    ensures Grows(was, t)
  {
    GrowsTransitive(was, s, t);
  }

  lemma WorkIsDone(b: Api, c: Api, d: Api, e: Api, status: Status, flows: set<string>, r: Realm, was: Server)
    requires AllBound(r.clients, flows) && Grows(b.server, c.server) && Grows(c.server, d.server)
    requires Stocked(d.server, r, was) && NobodyNew(d.server, r, was)
    requires AllWorkable(d.server, r.name, DeferredWork(d.server, r)) <==> MappingsRefer(r, was)
    requires DeferredDone(d, e, status, r.name, DeferredWork(d.server, r))
    ensures MiddleDone(b, e, status, flows, r, was)
  {
    hide MappingsRefer, AllWorkable, AllWorkDone, Directory.WellFormed, Grows, Accounts, ScopeWork, ClientScopeWork,
        OnlyDeclared;
    GrowsTransitive(b.server, c.server, d.server);
    GrowsTransitive(b.server, d.server, e.server);
    StockedFacts(d.server, r, was);
    LiveIs(e);
    SameStock(d.server, e.server, r, was);
    WorkStays(d.server, d.server, e.server, r, was) by {
      GrowsItself(d.server);
    }
    assert DeferredWork(e.server, r) == DeferredWork(d.server, r);
  }

  /** Grants change no stock. */
  lemma SameStock(s: Server, t: Server, r: Realm, was: Server)
    requires Stocked(s, r, was) && Grows(s, t) && WellFormed(t) && t == s.(mappings := t.mappings)
    ensures Stocked(t, r, was) && (NobodyNew(s, r, was) ==> NobodyNew(t, r, was))
  {
    OnlyDeclaredLater(s, t, r, was);
    StockedLater(s, t, r, was);
  }

  // ---------- step 8 ----------

  /** The job a configured scope of a client comes to. */
  function JobOf(s: Server, realm: string, c: FullClient, scope: string): P.Job
    requires ScopeOf(c, scope)
  {
    P.Job(Uuid(s, realm, c), c.base.clientId, scope, c.permissions.value[scope])
  }

  ghost predicate PermissionsSettled(s: Server, z: P.State, r: Realm) {
    forall i, scope :: 0 <= i < |r.clients| && ScopeOf(r.clients[i], scope) ==>
      P.Settled(z, ClientsOf(s, r.name), JobOf(s, r.name, r.clients[i], scope))
  }

  lemma ClientIsSeen(s: Server, realm: string, clientId: string)
    ensures clientId in ClientsOf(s, realm) <==> Client(realm, clientId) in s.objects
    ensures clientId in ClientsOf(s, realm) ==> ClientsOf(s, realm)[clientId] == s.objects[Client(realm, clientId)]
  {
    assert Client(realm, clientId) in s.objects ==> clientId in ClientsOf(s, realm);
  }

  lemma ClientSeenIfDeclared(s: Server, r: Realm, was: Server, clientId: string)
    requires Stocked(s, r, was)
    ensures clientId in ClientsOf(s, r.name) <==> ClientDeclared(r, was, clientId)
  {
    ClientIsSeen(s, r.name, clientId);
    if Client(r.name, clientId) in s.objects {
      assert KeyDeclared(s, r, was, Client(r.name, clientId));
    }
    if ClientDeclared(r, was, clientId) && Client(r.name, clientId) !in was.objects {
      var i :| 0 <= i < |r.clients| && r.clients[i].base.clientId == clientId;
      assert ClientThere(s, r, was, r.clients[i]);
    }
  }

  /** Every job is some client's configured scope. */
  lemma JobIsConfigured(s: Server, r: Realm, j: P.Job) returns (n: nat)
    requires DistinctClientIds(r.clients) && P.Grants(j) in P.AllSteps(Targets(s, r.name, r.clients))
    ensures n < |r.clients| && ScopeOf(r.clients[n], j.scope)
    ensures j.clientId == r.clients[n].base.clientId && j.granted == r.clients[n].permissions.value[j.scope]
  {
    var ts := Targets(s, r.name, r.clients);
    P.JobsComeFromTargets(ts, j);
    TargetsAreClients(s, r.name, r.clients);
    var i :| 0 <= i < |ts| && ts[i].scopes.Some? && j.scope in ts[i].scopes.value
             && j == P.Job(ts[i].uuid, ts[i].clientId, j.scope, ts[i].scopes.value[j.scope]);
    assert ComesFrom(ts[i], r.clients);
    n :| 0 <= n < |r.clients| && IsTargetOf(ts[i], r.clients[n]);
  }

  /** And every configured scope is a job. */
  lemma ConfiguredIsJob(s: Server, r: Realm, i: nat, scope: string)
    requires i < |r.clients| && ScopeOf(r.clients[i], scope)
    ensures P.Grants(JobOf(s, r.name, r.clients[i], scope)) in P.AllSteps(Targets(s, r.name, r.clients))
  {
    var ts := Targets(s, r.name, r.clients);
    TargetListed(s, r.name, r.clients, i);
    var n :| 0 <= n < |ts|
             && ts[n] == P.Target(Uuid(s, r.name, r.clients[i]), r.clients[i].base.clientId, r.clients[i].permissions);
    P.TargetsGiveJobs(ts, n, scope);
  }

  ghost predicate AllGrantsRefer(r: Realm, was: Server, z: P.State, j: P.Job, offered: set<string>) {
    j.scope in offered && P.NameFree(z, P.NameOf(j)) && forall g :: g in j.granted ==> ClientDeclared(r, was, g)
  }

  lemma FeasibleIfDeclared(s: Server, z: P.State, r: Realm, was: Server, offered: set<string>, j: P.Job)
    requires Stocked(s, r, was)
    ensures P.Feasible(z, ClientsOf(s, r.name), offered, P.Grants(j)) <==> AllGrantsRefer(r, was, z, j, offered)
  {
    hide Stocked, ClientsOf, ClientDeclared;
    forall g | g in j.granted ensures g in ClientsOf(s, r.name) <==> ClientDeclared(r, was, g) {
      ClientSeenIfDeclared(s, r, was, g);
    }
  }

  ghost predicate AllPermissionsRefer(r: Realm, was: Server, z: P.State, offered: set<string>) {
    forall i :: 0 <= i < |r.clients| ==> PermissionsRefer(r, was, z, r.clients[i], offered)
  }

  /** The resource server is needed exactly when some client has permissions. */
  lemma ResourceServerNeeded(s: Server, r: Realm)
    requires DistinctClientIds(r.clients)
    ensures P.NeedsResourceServer in P.AllSteps(Targets(s, r.name, r.clients)) <==>
            exists i :: 0 <= i < |r.clients| && r.clients[i].permissions.Some?
  {
    var ts := Targets(s, r.name, r.clients);
    P.ResourceServerNeeded(ts);
    TargetsAreClients(s, r.name, r.clients);
    if P.NeedsResourceServer in P.AllSteps(ts) {
      var i :| 0 <= i < |ts| && ts[i].scopes.Some?;
      assert ComesFrom(ts[i], r.clients);
    }
    if exists i :: 0 <= i < |r.clients| && r.clients[i].permissions.Some? {
      var i :| 0 <= i < |r.clients| && r.clients[i].permissions.Some?;
      TargetListed(s, r.name, r.clients, i);
    }
  }

  lemma StepsFeasible(s: Server, z: P.State, r: Realm, was: Server, offered: set<string>)
    requires Stocked(s, r, was)
    ensures
      (forall st :: st in P.AllSteps(Targets(s, r.name, r.clients)) ==>
         P.Feasible(z, ClientsOf(s, r.name), offered, st)) <==> AllPermissionsRefer(r, was, z, offered)
  {
    hide Stocked, ClientsOf, ClientDeclared, P.AllSteps, Targets, P.NameFree, P.AllKnown;
    var steps, clients := P.AllSteps(Targets(s, r.name, r.clients)), ClientsOf(s, r.name);
    StockedFacts(s, r, was);
    ClientSeenIfDeclared(s, r, was, REALM_MANAGEMENT);
    ResourceServerNeeded(s, r);
    if AllPermissionsRefer(r, was, z, offered) {
      forall st | st in steps ensures P.Feasible(z, clients, offered, st) {
        if st.Grants? {
          var n := JobIsConfigured(s, r, st.job);
          assert PermissionsRefer(r, was, z, r.clients[n], offered);
          assert PermissionRefers(r, was, z, r.clients[n], st.job.scope, offered);
          FeasibleIfDeclared(s, z, r, was, offered, st.job);
        }
      }
    }
    if forall st :: st in steps ==> P.Feasible(z, clients, offered, st) {
      forall i, scope | 0 <= i < |r.clients| && ScopeOf(r.clients[i], scope)
        ensures PermissionRefers(r, was, z, r.clients[i], scope, offered)
      {
        ConfiguredIsJob(s, r, i, scope);
        FeasibleIfDeclared(s, z, r, was, offered, JobOf(s, r.name, r.clients[i], scope));
      }
      forall i | 0 <= i < |r.clients| && r.clients[i].permissions.Some?
        ensures ClientDeclared(r, was, REALM_MANAGEMENT)
      {
        assert P.Feasible(z, clients, offered, P.NeedsResourceServer);
      }
    }
  }

  lemma PermissionsAreCoherent(s: Server, r: Realm, clients: map<string, string>)
    requires DistinctClientIds(r.clients) && PermissionsCohere(r.clients)
    ensures P.Coherent(clients, P.AllSteps(Targets(s, r.name, r.clients)))
  {
    var steps := P.AllSteps(Targets(s, r.name, r.clients));
    forall j, k | P.Grants(j) in steps && P.Grants(k) in steps && P.NameOf(j) == P.NameOf(k)
      ensures P.Granted(clients, j) == P.Granted(clients, k)
    {
      var m := JobIsConfigured(s, r, j);
      var n := JobIsConfigured(s, r, k);
      assert PairCoheres(r.clients[m], j.scope, r.clients[n], k.scope);
      assert Elements(j.granted) == Elements(k.granted);
      assert forall c :: c in j.granted <==> c in k.granted by {
        assert forall c :: c in j.granted <==> c in Elements(j.granted);
        assert forall c :: c in k.granted <==> c in Elements(k.granted);
      }
    }
  }

  /** Coherence cannot be spared: permissions that are all settled come from a coherent config. */
  lemma SettledMeansCoherent(s: Server, z: P.State, r: Realm)
    requires WellFormed(s) && PermissionsSettled(s, z, r)
    ensures PermissionsCohere(r.clients)
  {
    hide ObjectsOk, OwnersOk, PathsOk, MappingsOk, MembershipsOk;
    var cs, clients := r.clients, ClientsOf(s, r.name);
    forall i, j, scope1, scope2 | 0 <= i < |cs| && 0 <= j < |cs| ensures PairCoheres(cs[i], scope1, cs[j], scope2) {
      if ScopeOf(cs[i], scope1) && ScopeOf(cs[j], scope2)
         && P.ManagementPolicyName(scope1, cs[i].base.clientId) == P.ManagementPolicyName(scope2, cs[j].base.clientId) {
        var a, b := JobOf(s, r.name, cs[i], scope1), JobOf(s, r.name, cs[j], scope2);
        assert P.Settled(z, clients, a) && P.Settled(z, clients, b) && P.NameOf(a) == P.NameOf(b);
        assert P.Granted(clients, a) == P.Granted(clients, b);
        GrantedIsIn(s, r.name, a, b);
        GrantedIsIn(s, r.name, b, a);
      }
    }
  }

  lemma GrantedIsIn(s: Server, realm: string, a: P.Job, b: P.Job)
    requires WellFormed(s) && P.AllKnown(ClientsOf(s, realm), a) && P.AllKnown(ClientsOf(s, realm), b)
    requires P.Granted(ClientsOf(s, realm), a) <= P.Granted(ClientsOf(s, realm), b)
    ensures Elements(a.granted) <= Elements(b.granted)
  {
    var clients := ClientsOf(s, realm);
    forall c | c in a.granted ensures c in b.granted {
      assert clients[c] in P.Granted(clients, a);
      var d :| d in b.granted && d in clients && clients[d] == clients[c];
      ClientIsSeen(s, realm, c);
      ClientIsSeen(s, realm, d);
    }
  }

  /** Other policies and permissions are as they were, and what was attached still is. */
  ghost predicate PermissionsKept(s: Server, z: P.State, y: P.State, r: Realm) {
    var steps := P.AllSteps(Targets(s, r.name, r.clients));
    P.Keeps(z, y, P.Names(steps), P.Perms(steps))
  }

  /** Step 8 goes through exactly when the permissions name scopes the server offers, clients that are declared or there
      and policy names no other kind of policy holds; then they are all settled exactly when those that share a policy
      agree. */
  lemma PermitLive(s: Server, z: P.State, r: Realm, was: Server, offered: set<string>)
    requires Stocked(s, r, was) && P.Valid(z, offered)
    ensures
      var (y, status) := Permit(s, z, offered, r);
      && (status == Done <==> AllPermissionsRefer(r, was, z, offered)) && PermissionsKept(s, z, y, r)
      && P.Valid(y, offered)
      && (status == Done ==> (PermissionsSettled(s, y, r) <==> PermissionsCohere(r.clients)))
  {
    hide Stocked, ClientsOf, P.AllSteps, Targets, P.Run, P.Valid, AllPermissionsRefer, PermissionsCohere, P.Feasible,
        P.Coherent, WellFormed, P.Ordered, P.Keeps, P.Names, P.Perms;
    StockedFacts(s, r, was);
    var ts := Targets(s, r.name, r.clients);
    var clients, steps := ClientsOf(s, r.name), P.AllSteps(ts);
    P.AllStepsOrdered(z.enabled, ts);
    P.RunSucceeds(z, clients, offered, steps);
    P.RunKeeps(z, clients, offered, steps);
    StepsFeasible(s, z, r, was, offered);
    var (y, outcome) := P.Run(z, clients, offered, steps);
    if outcome == P.Outcome.Done {
      if PermissionsCohere(r.clients) {
        PermissionsAreCoherent(s, r, clients);
        P.RunSettles(z, clients, offered, steps);
        forall i, scope | 0 <= i < |r.clients| && ScopeOf(r.clients[i], scope)
          ensures P.Settled(y, clients, JobOf(s, r.name, r.clients[i], scope))
        {
          ConfiguredIsJob(s, r, i, scope);
          assert P.StepSettled(y, clients, P.Grants(JobOf(s, r.name, r.clients[i], scope)));
        }
      }
      if PermissionsSettled(s, y, r) {
        SettledMeansCoherent(s, y, r);
      }
    }
  }

  /** More clients do not unsettle a permission, nor fewer settle one. */
  lemma SettledAlike(s: Server, t: Server, z: P.State, r: Realm, was: Server)
    requires Grows(s, t) && AllThere(s, r, was, r.clients)
    requires forall k :: k in t.objects && k.Client? ==> k in s.objects
    ensures PermissionsSettled(t, z, r) <==> PermissionsSettled(s, z, r)
  {
    assert ClientsOf(t, r.name) == ClientsOf(s, r.name) by {
      forall c ensures c in ClientsOf(t, r.name) <==> c in ClientsOf(s, r.name) {
        ClientIsSeen(s, r.name, c);
        ClientIsSeen(t, r.name, c);
      }
    }
    forall i, scope | 0 <= i < |r.clients| && ScopeOf(r.clients[i], scope)
      ensures JobOf(s, r.name, r.clients[i], scope) == JobOf(t, r.name, r.clients[i], scope)
    {
      assert ClientThere(s, r, was, r.clients[i]);
    }
  }

  // ---------- steps 9 and 10 ----------

  lemma GroupsAreDeclared(s: Server, t: Server, r: Realm, was: Server)
    requires Stocked(s, r, was) && OnlyGroupsAdded(s, t) && WellFormed(t)
    ensures Stocked(t, r, was)
  {
    hide WellFormed, AllThere, ScopesThere, RolesExist;
    OnlyDeclaredLater(s, t, r, was);
    StockedLater(s, t, r, was);
  }

  lemma NewUserIsDeclared(s: Server, t: Server, r: Realm, was: Server, k: Key)
    requires OnlyUsersAdded(s, t, r.name, r.users) && k in t.objects && k !in s.objects
    ensures KeyDeclared(t, r, was, k)
  {
    var u :| u in r.users && k == User(r.name, u.username);
    var i :| 0 <= i < |r.users| && r.users[i] == u;
    assert UserDeclared(r, was, u.username);
  }

  lemma UsersAreDeclared(s: Server, t: Server, r: Realm, was: Server)
    requires Stocked(s, r, was) && OnlyUsersAdded(s, t, r.name, r.users) && WellFormed(t)
    ensures Stocked(t, r, was)
  {
    hide KeyDeclared, WellFormed, Grows, AllThere, ScopesThere, RolesExist;
    forall k | k in t.objects && k !in s.objects ensures KeyDeclared(t, r, was, k) {
      NewUserIsDeclared(s, t, r, was, k);
    }
    OnlyDeclaredLater(s, t, r, was);
    StockedLater(s, t, r, was);
  }

  predicate UsersRefer(r: Realm, was: Server) {
    forall i :: 0 <= i < |r.users| ==> OptionDeclared(r, was, r.users[i].roles)
  }

  lemma UserRolesDeclared(s: Server, r: Realm, was: Server)
    requires Stocked(s, r, was)
    ensures AllRolesThere(s, r.name, r.users) <==> UsersRefer(r, was)
  {
    hide Stocked, RolesThere, RolesDeclared;
    forall i | 0 <= i < |r.users|
      ensures UserRolesThere(s, r.name, r.users[i]) <==> OptionDeclared(r, was, r.users[i].roles)
    {
      if r.users[i].roles.Some? {
        ThereIfDeclared(s, r, was, r.users[i].roles.value);
      }
    }
  }

  /** The groups are placed, with their roles. */
  ghost predicate GroupsThere(s: Server, r: Realm) {
    && Placed(s, r.name, "", r.groups) && TreeRolesExist(s, r.name, r.groups)
    && forall m :: TreeDeclares(s, r.name, "", r.groups, m) <= Mapped(s, m)
  }

  /** Placed groups stay placed, and their grants stand, when the server only grows. */
  lemma GroupsStand(s: Server, t: Server, r: Realm)
    requires Grows(s, t) && GroupsThere(s, r)
    ensures GroupsThere(t, r)
  {
    DeclaresAlike(s, t, r.name, "", r.groups);
    forall m ensures TreeDeclares(t, r.name, "", r.groups, m) <= Mapped(t, m) {
      assert TreeDeclares(s, r.name, "", r.groups, m) <= Mapped(s, m) <= Mapped(t, m);
    }
  }

  lemma RolesStay(s: Server, t: Server, realm: string, roles: seq<string>, entries: ClientRoles)
    requires Grows(s, t) && RolesExist(s, realm, "", roles) && EntriesExist(s, realm, entries)
    ensures RolesExist(t, realm, "", roles) && EntriesExist(t, realm, entries)
  {
    forall e | e in entries ensures EntryExists(t, realm, e) {
      assert EntryExists(s, realm, e);
    }
  }

  lemma {:induction false} EntriesAlike(s: Server, t: Server, realm: string, entries: ClientRoles, client: Id)
    requires Grows(s, t) && EntriesExist(s, realm, entries)
    ensures EntriesFor(t, realm, client, entries) == EntriesFor(s, realm, client, entries)
    decreases |entries|
  {
    if entries != [] {
      assert entries == [entries[0]] + entries[1..] && entries[0] in entries;
      assert EntryExists(s, realm, entries[0]);
      EntriesAlike(s, t, realm, entries[1..], client);
      assert entries[0].1 == [] ==> Elements(entries[0].1) == {};
    }
  }

  lemma {:induction false} DeclaresAlike(s: Server, t: Server, realm: string, parent: Id, gs: seq<GroupConfig>)
    requires Grows(s, t) && Placed(s, realm, parent, gs) && TreeRolesExist(s, realm, gs)
    ensures Placed(t, realm, parent, gs) && TreeRolesExist(t, realm, gs)
    ensures forall m :: TreeDeclares(t, realm, parent, gs, m) == TreeDeclares(s, realm, parent, gs, m)
    decreases gs
  {
    if gs != [] {
      var k := GroupKey(realm, parent, gs[0].name);
      assert k in s.objects && k in t.objects;
      Unfold(s, realm, parent, gs);
      Unfold(t, realm, parent, gs);
      TreeRolesSplit(s, realm, gs);
      TreeRolesSplit(t, realm, gs);
      RolesStay(s, t, realm, gs[0].realmRoles, gs[0].clientRoles);
      DeclaresAlike(s, t, realm, s.objects[k], gs[0].subGroups);
      DeclaresAlike(s, t, realm, parent, gs[1..]);
      forall client
        ensures EntriesFor(t, realm, client, gs[0].clientRoles) == EntriesFor(s, realm, client, gs[0].clientRoles)
      {
        EntriesAlike(s, t, realm, gs[0].clientRoles, client);
      }
    }
  }

  /** The groups, and where each path leads afterwards. */
  lemma GroupsLive(a: Api, r: Realm, was: Server)
    requires IsLive(a) && Stocked(a.server, r, was) && NobodyNew(a.server, r, was)
    ensures
      var (b, status) := EnsureGroups(a, r.name, "", r.groups, r.createOnly);
      && (status == Done <==> GroupRolesDeclared(r, was, r.groups))
      && IsLive(b) && OnlyGroupsAdded(a.server, b.server) && Stocked(b.server, r, was)
      && b.server.memberships == was.memberships
      && (status == Done ==> GroupsThere(b.server, r) && PathsLead(b.server, r, was))
  {
    hide *;
    StockedFacts(a.server, r, was);
    GroupRolesThere(a.server, r, was, r.groups);
    EnsureGroupsSucceeds(a, r.name, "", r.groups, r.createOnly);
    EnsureGroupsLive(a, r.name, "", r.groups, r.createOnly);
    var asked := EnsureGroupsFollows(a, r.name, "", r.groups, r.createOnly);
    var (b, status) := EnsureGroups(a, r.name, "", r.groups, r.createOnly);
    SameMembers(a, b, asked, r.createOnly);
    GroupDoneFacts(a, b, status, r.name, "", r.groups);
    LiveIs(b);
    NobodyFacts(a.server, r, was);
    GroupsAreDeclared(a.server, b.server, r, was);
    if status == Done {
      GroupDoneMeans(a, b, r, was);
    }
  }

  lemma NobodyFacts(s: Server, r: Realm, was: Server)
    requires NobodyNew(s, r, was)
    ensures s.memberships == was.memberships
  {}

  /** A path leads somewhere exactly when it leads to a declared group or did before. */
  ghost predicate PathsLead(s: Server, r: Realm, was: Server) {
    forall p :: GroupAt(s, r.name, p).Some? <==> PathDeclared(r, was, p)
  }

  lemma GroupDoneMeans(a: Api, b: Api, r: Realm, was: Server)
    requires IsLive(a) && GroupDone(a, b, Done, r.name, "", r.groups) && TreeRolesExist(a.server, r.name, r.groups)
    requires NobodyNew(a.server, r, was) && WellFormed(was) && Grows(was, a.server)
    ensures GroupsThere(b.server, r) && PathsLead(b.server, r, was)
  {
    hide WellFormed, GroupAt, TreeDeclares, Placed, NodeKeys, Leads, OnlyGroupsAdded, TreeRolesExist, Grows, NobodyNew;
    TreeRolesAlike(a.server, b.server, r.name, r.groups);
    forall m ensures TreeDeclares(b.server, r.name, "", r.groups, m) <= Mapped(b.server, m) {
      assert Mapped(b.server, m) == Mapped(a.server, m) + TreeDeclares(b.server, r.name, "", r.groups, m);
    }
    GroupsGrow(a.server, b.server);
    forall p ensures GroupAt(b.server, r.name, p).Some? <==> PathDeclared(r, was, p) {
      PathLeads(a, b, r, was, p);
    }
  }

  lemma GroupsGrow(s: Server, t: Server)
    requires OnlyGroupsAdded(s, t)
    ensures Grows(s, t)
  {}

  lemma PathLeads(a: Api, b: Api, r: Realm, was: Server, p: string)
    requires IsLive(a) && IsLive(b) && TreeIsThere(a.server, b.server, r.name, "", r.groups)
    requires Grows(a.server, b.server) && NobodyNew(a.server, r, was) && WellFormed(was) && Grows(was, a.server)
    ensures GroupAt(b.server, r.name, p).Some? <==> PathDeclared(r, was, p)
  {
    hide WellFormed, TreeIsThere, Leads, Walk, Grows, NobodyNew, WalkTo;
    var names := ConfigMaps.PathNames(ConfigMaps.NormalizeGroupPath(p));
    PathTextIs(p);
    LiveIs(a);
    LiveIs(b);
    GroupAtIs(b, r.name, p);
    WalkMeansLeads(a, b, r.name, r.groups, names);
    SameGroupsBefore(a, r, was, names);
    WalkToIs(b, r.name, p);
    WalkToIs(Api(was, None, []), r.name, p);
  }

  lemma WalkToIs(a: Api, realm: string, p: string)
    ensures WalkTo(a, realm, p) == Walk(a, realm, "", ConfigMaps.PathNames(ConfigMaps.NormalizeGroupPath(p)))
  {}

  /** Until groups are provisioned, a walk leads where it led. */
  lemma SameGroupsBefore(a: Api, r: Realm, was: Server, names: seq<string>)
    requires IsLive(a) && NobodyNew(a.server, r, was) && WellFormed(was) && Grows(was, a.server) && names != []
    ensures Walk(a, r.name, "", names).Some? <==> Walk(Api(was, None, []), r.name, "", names).Some?
  {
    hide ObjectsOk, OwnersOk, PathsOk, MappingsOk, MembershipsOk, Walk, Grows;
    var before := Api(was, None, []);
    if Walk(before, r.name, "", names).Some? {
      WalkStays(before, a, r.name, names);
    }
    if Walk(a, r.name, "", names).Some? {
      var id := Walk(a, r.name, "", names).value;
      WalkReachesPath(a, r.name, names, id);
      GroupFacts(a.server, id);
      OldPathIsWalked(before, a, r.name, names, a.server.owner[id]);
    }
  }

  /** What users there are, and where they are members. */
  ghost predicate UsersThere(s: Server, r: Realm) {
    forall i :: 0 <= i < |r.users| ==> UserThere(s, r.name, r.users[i])
  }

  /** Of the paths its config names, a user is where it was a member before and wherever they lead to a group that is
      declared or was there. */
  ghost predicate MembersAsDeclared(s: Server, r: Realm, was: Server) {
    forall i, p :: 0 <= i < |r.users| && p in r.users[i].groups ==>
      User(r.name, r.users[i].username) in s.objects
      && var id := s.objects[User(r.name, r.users[i].username)];
      (MemberAt(s, id, p) <==> MemberAt(was, id, p) || PathDeclared(r, was, p))
  }

  ghost predicate PeopleDone(a: Api, b: Api, status: Status, r: Realm, was: Server) {
    && (status == Done <==> GroupRolesDeclared(r, was, r.groups) && UsersRefer(r, was))
    && (status == Done ==>
          && IsLive(b) && Grows(a.server, b.server) && Stocked(b.server, r, was) && GroupsThere(b.server, r)
          && UsersThere(b.server, r) && MembersAsDeclared(b.server, r, was)
          && forall k :: k in b.server.objects && k !in a.server.objects ==> k.Group? || k.User?)
  }

  lemma PeopleLive(a: Api, r: Realm, was: Server)
    requires IsLive(a) && Stocked(a.server, r, was) && NobodyNew(a.server, r, was) && Accepted(r)
    ensures
      var (b, status) := GroupsThenUsers(a, r);
      PeopleDone(a, b, status, r, was)
  {
    hide *;
    GroupsThenUsersIs(a, r);
    GroupsLive(a, r, was);
    AcceptedFacts(r);
    var (b, s1) := EnsureGroups(a, r.name, "", r.groups, r.createOnly);
    if s1 != Done {
      NoPeople(a, b, s1, r, was);
    } else {
      StockedFacts(b.server, r, was);
      StockedFacts(a.server, r, was);
      UserRolesDeclared(b.server, r, was);
      EnsureUsersLive(b, r.name, r.users, r.createOnly);
      var (c, s2) := EnsureUsers(b, r.name, r.users, r.createOnly);
      LiveIs(c);
      UsersAreDeclared(b.server, c.server, r, was);
      UsersGrow(b.server, c.server, r.name, r.users);
      GroupsStand(b.server, c.server, r);
      PeopleThen(a, b, c, s2, r, was);
    }
  }

  lemma GroupsThenUsersIs(a: Api, r: Realm)
    ensures
      var (b, s1) := EnsureGroups(a, r.name, "", r.groups, r.createOnly);
      GroupsThenUsers(a, r) == if s1 != Done then (b, s1) else EnsureUsers(b, r.name, r.users, r.createOnly)
  {
    hide EnsureGroups, EnsureUsers;
  }

  lemma AcceptedFacts(r: Realm)
    requires Accepted(r)
    ensures DistinctUsernames(r.users) && I.DistinctAliases(r.providers) && O.DistinctNames(r.organizations)
    ensures O.ClaimsOk(r.organizations) && DistinctClientIds(r.clients) && DistinctScopeNames(r.scopes)
  {}

  lemma NoPeople(a: Api, b: Api, status: Status, r: Realm, was: Server)
    requires status != Done && !GroupRolesDeclared(r, was, r.groups)
    ensures PeopleDone(a, b, status, r, was)
  {}

  lemma PeopleThen(a: Api, b: Api, c: Api, status: Status, r: Realm, was: Server)
    requires GroupRolesDeclared(r, was, r.groups) && Grows(was, a.server) && WellFormed(was)
    requires OnlyGroupsAdded(a.server, b.server) && PathsLead(b.server, r, was)
    requires b.server.memberships == was.memberships && WellFormed(b.server)
    requires OnlyUsersAdded(b.server, c.server, r.name, r.users)
    requires IsLive(c) && Stocked(c.server, r, was) && GroupsThere(c.server, r)
    requires status == (if AllRolesThere(b.server, r.name, r.users) then Done else NotFound)
    requires AllRolesThere(b.server, r.name, r.users) <==> UsersRefer(r, was)
    requires status == Done ==> AllUsersThere(b.server, c.server, r.name, r.users)
    ensures PeopleDone(a, c, status, r, was)
  {
    hide AllRolesThere, UsersRefer, WellFormed, GroupAt, MemberAt, UserThere, PathDeclared, Stocked, GroupsThere;
    GrowsTransitive(a.server, b.server, c.server);
    GrowsTransitive(was, a.server, b.server);
    if status == Done {
      GroupsAlike(b.server, c.server, r.name, r.users);
      forall i, p | 0 <= i < |r.users| && p in r.users[i].groups
        ensures
          var k := User(r.name, r.users[i].username);
          k in c.server.objects
          && (MemberAt(c.server, c.server.objects[k], p) <==>
              MemberAt(was, c.server.objects[k], p) || PathDeclared(r, was, p))
      {
        assert MemberWhereItLeads(b.server, c.server, r.name, r.users[i]);
        MemberBefore(was, b.server, c.server, User(r.name, r.users[i].username), p);
      }
    }
  }

  /** Whoever was a member before the users are provisioned was one at the start. */
  lemma MemberBefore(was: Server, t: Server, u: Server, k: Key, p: string)
    requires WellFormed(was) && WellFormed(t) && Grows(was, t) && Grows(t, u) && t.memberships == was.memberships
    requires k in u.objects && WellFormed(u)
    ensures MemberAt(was, u.objects[k], p) <==> k in t.objects && MemberAt(t, u.objects[k], p)
  {
    hide ObjectsOk, PathsOk, MappingsOk;
    var id := u.objects[k];
    forall m | m in was.memberships ensures PathOf(t, m.group) == PathOf(was, m.group) {
      GroupHasPath(was, t, m);
    }
    if MemberAt(was, id, p) {
      var m :| m in was.memberships && m.user == id;
      assert AcceptsMember(was, m);
      MemberIsThere(was, t, u, k, m);
    }
  }

  lemma MemberIsThere(was: Server, t: Server, u: Server, k: Key, m: Membership)
    requires OwnersOk(was) && Grows(was, t) && Grows(t, u) && ObjectsOk(u) && k in u.objects
    requires AcceptsMember(was, m) && m.user == u.objects[k]
    ensures k in t.objects
  {
    assert was.owner[m.user] in was.objects && u.owner[m.user] == was.owner[m.user] == k;
  }

  // ---------- steps 11 and 12 ----------

  /** The organizations there are know of no user and no provider the realm does not have. */
  ghost predicate OrgsFit(o: O.State, s: Server, realm: string, store: I.Store) {
    o.users <= UsersOf(s, realm) && o.providers <= store.Keys
  }

  lemma UsersAreOk(s: Server, realm: string)
    requires WellFormed(s)
    ensures O.UsersOk(UsersOf(s, realm))
  {
    var users := UsersOf(s, realm);
    forall u, v | u in users && v in users && (u.id == v.id || u.username == v.username) ensures u == v {
      var j :| j in s.objects && j.User? && j.realm == realm && u == O.User(s.objects[j], j.username);
      var k :| k in s.objects && k.User? && k.realm == realm && v == O.User(s.objects[k], k.username);
      assert s.owner[s.objects[j]] == j && s.owner[s.objects[k]] == k;
    }
  }

  lemma StillValid(o: O.State, s: Server, realm: string, store: I.Store)
    requires O.Valid(o) && OrgsFit(o, s, realm, store) && WellFormed(s)
    ensures O.Valid(Refreshed(o, s, realm, store))
  {
    UsersAreOk(s, realm);
    hide UsersOf, WellFormed;
  }

  lemma StillFits(o: O.State, s: Server, t: Server, realm: string, store: I.Store)
    requires OrgsFit(o, s, realm, store) && Grows(s, t)
    ensures OrgsFit(o, t, realm, store)
  {
    forall u | u in UsersOf(s, realm) ensures u in UsersOf(t, realm) {
      var k :| k in s.objects && k.User? && k.realm == realm && u == O.User(s.objects[k], k.username);
      assert k in t.objects && t.objects[k] == s.objects[k];
    }
  }

  lemma ClaimableIfDeclared(rest: Rest, s: Server, r: Realm, store: I.Store)
    requires store.Keys == rest.store.Keys + set idp | idp in r.providers :: idp.alias
    ensures O.AllClaimable(Refreshed(rest.orgs, s, r.name, store), r.organizations) <==> ClaimsRefer(r, rest)
  {
    var start := Refreshed(rest.orgs, s, r.name, store);
    forall a ensures a in store <==> ProviderDeclared(r, rest, a) {
      if a in store && a !in rest.store {
        var idp :| idp in r.providers && idp.alias == a;
        var n :| 0 <= n < |r.providers| && r.providers[n] == idp;
        assert ProviderDeclared(r, rest, a);
      }
    }
    forall name, a
      ensures O.Claimable(start, name, a) <==>
              ProviderDeclared(r, rest, a) && !OwnedByAnother(rest.orgs, name, a) {}
    hide O.Claimable, ProviderDeclared, OwnedByAnother;
  }

  /** Each configured provider is created, updated or left alone as its config says, and no other is touched. */
  ghost predicate ProvidersThere(old': I.Store, store: I.Store, w: Ways, r: Realm) {
    I.StoreIsReconciled(old', store, r.providers, r.createOnly, w.secrets, w.given)
  }

  ghost predicate IsMember(t: O.State, org: string, username: string) {
    org in t.orgs && exists u :: u in O.MembersOf(t, t.orgs[org]) && u.username == username
  }

  /** Each organization holds what it declares: its claims are linked and nothing else is, its groups are there with
      their members, and of the members listed, exactly those that are users. No other organization changes. */
  ghost predicate OrgsThere(s: Server, start: O.State, t: O.State, r: Realm) {
    && O.AllOrgsHold(start, t, r.organizations) && O.LinkedAsClaimed(start, t, r.organizations)
    && t.wasted == start.wasted && O.OrgsGrow(start, t, O.OrgIds(t, r.organizations))
    && forall i, n :: 0 <= i < |r.organizations| && n in r.organizations[i].members ==>
         (IsMember(t, r.organizations[i].name, n) <==> User(r.name, n) in s.objects)
  }

  lemma MembersAreUsers(s: Server, o: O.State, t: O.State, r: Realm, store: I.Store, i: nat, n: string)
    requires O.Valid(Refreshed(o, s, r.name, store)) && i < |r.organizations| && n in r.organizations[i].members
    requires O.OrgHolds(Refreshed(o, s, r.name, store), t, r.organizations[i])
    ensures IsMember(t, r.organizations[i].name, n) <==> User(r.name, n) in s.objects
  {
    var start, org := Refreshed(o, s, r.name, store), r.organizations[i];
    assert O.Called(start.users, org.members) <= O.MembersOf(t, t.orgs[org.name]) <= start.users;
    if User(r.name, n) in s.objects {
      assert O.User(s.objects[User(r.name, n)], n) in O.MembersOf(t, t.orgs[org.name]);
    }
  }

  ghost predicate OrgsDone(s: Server, rest: Rest, next: Rest, status: Status, w: Ways, r: Realm) {
    && (status == Done <==> ClaimsRefer(r, rest)) && next.authz == rest.authz
    && ProvidersThere(rest.store, next.store, w, r)
    && (status == Done ==> OrgsThere(s, Refreshed(rest.orgs, s, r.name, next.store), next.orgs, r))
  }

  /** Providers never fail; organizations go through exactly when every provider they claim is there by then and nobody
      else's, though the index they go by is read once. */
  lemma OrgsLive(s: Server, rest: Rest, w: Ways, r: Realm)
    requires WellFormed(s) && O.Valid(rest.orgs) && OrgsFit(rest.orgs, s, r.name, rest.store) && Accepted(r)
    ensures
      var (next, status) := ProvidersThenOrgs(s, rest, w, r);
      OrgsDone(s, rest, next, status, w, r)
  {
    hide WellFormed, O.Valid, O.ClaimsOk, O.AllClaimable, O.ProvisionAll, O.AllOrgsHold, O.LinkedAsClaimed, O.IndexFor,
        O.AllUpToDate, ClaimsRefer, I.ReconciledAll, UsersOf, O.OrgsGrow, I.StoreIsReconciled, O.OrgIds;
    var os := r.organizations;
    AcceptedFacts(r);
    I.ReconciledKeys(rest.store, r.providers, r.createOnly, w.secrets, w.given);
    I.AllAreReconciled(rest.store, r.providers, r.createOnly, w.secrets, w.given);
    var store := I.ReconciledAll(rest.store, r.providers, r.createOnly, w.secrets, w.given);
    var start := Refreshed(rest.orgs, s, r.name, store);
    StillValid(rest.orgs, s, r.name, store);
    ClaimableIfDeclared(rest, s, r, store);
    O.IndexIsRight(start, os);
    O.ValidClaimsAreDisjoint(os);
    var known := O.IndexFor(start, os);
    O.OrganizationsSucceed(start, os, known);
    var (t, outcome) := O.ProvisionAll(start, os, known);
    if outcome == O.Done {
      O.DoneMeansLinked(start, os, known);
      O.AllProvisionHolds(start, os, known);
      forall i, n | 0 <= i < |os| && n in os[i].members
        ensures IsMember(t, os[i].name, n) <==> User(r.name, n) in s.objects
      {
        OneOrgHolds(start, t, os, i);
        MembersAreUsers(s, rest.orgs, t, r, store, i, n);
      }
    }
  }

  lemma OneOrgHolds(s: O.State, t: O.State, os: seq<O.Org>, i: nat)
    requires i < |os| && O.AllOrgsHold(s, t, os)
    ensures O.OrgHolds(s, t, os[i])
  {}

  // ---------- what has been granted, and what is in effect ----------

  /** The client's service account has the roles declared for it. */
  ghost predicate AccountHolds(s: Server, r: Realm, c: FullClient) {
    c.serviceAccountRoles.Some? ==>
      var k := Client(r.name, c.base.clientId);
      && k in s.objects && ServiceAccount(r.name, s.objects[k]) in s.objects
      && Holds(s, r.name, HolderKind.Users, s.objects[ServiceAccount(r.name, s.objects[k])],
               c.serviceAccountRoles.value)
  }

  /** The roles declared for the client's scope are in it. */
  ghost predicate ClientScopeHolds(s: Server, r: Realm, c: FullClient) {
    c.scopeMappings.Some? ==>
      var k := Client(r.name, c.base.clientId);
      k in s.objects && Holds(s, r.name, HolderKind.Clients, s.objects[k], c.scopeMappings.value)
  }

  ghost predicate ScopeHolds(s: Server, r: Realm, c: ScopeConfig) {
    c.scopeMappings.Some? ==>
      var k := ClientScope(r.name, c.name);
      k in s.objects && Holds(s, r.name, HolderKind.ClientScopes, s.objects[k], c.scopeMappings.value)
  }

  ghost predicate MappingsHold(s: Server, r: Realm) {
    && (forall i :: 0 <= i < |r.clients| ==> AccountHolds(s, r, r.clients[i]) && ClientScopeHolds(s, r, r.clients[i]))
    && forall i :: 0 <= i < |r.scopes| ==> ScopeHolds(s, r, r.scopes[i])
  }

  lemma {:induction false} ClientWorkListed(s: Server, realm: string, cs: seq<FullClient>, i: nat)
    requires i < |cs|
    ensures cs[i].serviceAccountRoles.Some? ==>
              Deferred(AccountOf(Uuid(s, realm, cs[i])), cs[i].serviceAccountRoles.value) in Accounts(s, realm, cs)
    ensures cs[i].scopeMappings.Some? ==>
              Deferred(Scope(HolderKind.Clients, Uuid(s, realm, cs[i])), cs[i].scopeMappings.value)
              in ClientScopeWork(s, realm, cs)
    decreases |cs|
  {
    if i < |cs| - 1 {
      ClientWorkListed(s, realm, cs[..|cs| - 1], i);
    }
  }

  lemma {:induction false} ScopeWorkListed(s: Server, realm: string, scopes: seq<ScopeConfig>, i: nat)
    requires i < |scopes|
    ensures scopes[i].scopeMappings.Some? ==>
              Deferred(Scope(HolderKind.ClientScopes, ScopeUuid(s, realm, scopes[i].name)),
                       scopes[i].scopeMappings.value)
              in ScopeWork(s, realm, scopes)
    decreases |scopes|
  {
    if i < |scopes| - 1 {
      ScopeWorkListed(s, realm, scopes[..|scopes| - 1], i);
    }
  }

  lemma DoneIfListed(s: Server, realm: string, ds: seq<Deferred>, d: Deferred)
    requires AllWorkDone(s, realm, ds) && d in ds
    ensures WorkDone(s, realm, d)
  {}

  /** Once the deferred work is done, everybody has what the config declares. */
  lemma WorkMeansMappings(s: Server, r: Realm, was: Server)
    requires Stocked(s, r, was) && AllWorkDone(s, r.name, DeferredWork(s, r))
    ensures MappingsHold(s, r)
  {
    hide WellFormed, Grows, OnlyDeclared, RolesExist, AllWorkDone, Holds, Accounts, ScopeWork, ClientScopeWork;
    var ds := DeferredWork(s, r);
    forall i | 0 <= i < |r.clients| ensures AccountHolds(s, r, r.clients[i]) && ClientScopeHolds(s, r, r.clients[i]) {
      var c := r.clients[i];
      assert ClientThere(s, r, was, c);
      ClientWorkListed(s, r.name, r.clients, i);
      if c.serviceAccountRoles.Some? {
        DoneIfListed(s, r.name, ds, Deferred(AccountOf(Uuid(s, r.name, c)), c.serviceAccountRoles.value));
      }
      if c.scopeMappings.Some? {
        DoneIfListed(s, r.name, ds, Deferred(Scope(HolderKind.Clients, Uuid(s, r.name, c)), c.scopeMappings.value));
      }
    }
    forall i | 0 <= i < |r.scopes| ensures ScopeHolds(s, r, r.scopes[i]) {
      var c := r.scopes[i];
      ScopeWorkListed(s, r.name, r.scopes, i);
      if c.scopeMappings.Some? {
        DoneIfListed(s, r.name, ds,
                     Deferred(Scope(HolderKind.ClientScopes, ScopeUuid(s, r.name, c.name)), c.scopeMappings.value));
      }
    }
  }

  /** A client policy of the name that goes with the scope names exactly the clients granted, is attached to the scope's
      permission, and is enough for it. */
  ghost predicate InEffect(s: Server, z: P.State, realm: string, c: FullClient, scope: string)
    requires ScopeOf(c, scope)
  {
    exists p :: p in z.policies && PolicyIs(s, z, realm, c, scope, p)
  }

  ghost predicate PolicyIs(s: Server, z: P.State, realm: string, c: FullClient, scope: string, p: nat)
    requires ScopeOf(c, scope) && p in z.policies
  {
    var granted, k := c.permissions.value[scope], Client(realm, c.base.clientId);
    && z.policies[p].name == "keycloak-provisioner." + scope + "." + c.base.clientId && z.policies[p].isClient
    && (forall g :: g in granted ==>
          Client(realm, g) in s.objects && s.objects[Client(realm, g)] in z.policies[p].clients)
    && (forall x :: x in z.policies[p].clients ==> exists g :: g in granted && Lookup(s, Client(realm, g)) == Some(x))
    && k in s.objects && P.Perm(s.objects[k], scope) in z.permissions
    && p in z.permissions[P.Perm(s.objects[k], scope)].attached
    && z.permissions[P.Perm(s.objects[k], scope)].strategy == P.Affirmative
  }

  ghost predicate AllInEffect(s: Server, z: P.State, r: Realm) {
    forall i, scope :: 0 <= i < |r.clients| && ScopeOf(r.clients[i], scope) ==>
      InEffect(s, z, r.name, r.clients[i], scope)
  }

  lemma SettledIsInEffect(s: Server, z: P.State, realm: string, c: FullClient, scope: string)
    requires ScopeOf(c, scope) && Client(realm, c.base.clientId) in s.objects && P.NamesUnique(z.policies)
    ensures P.Settled(z, ClientsOf(s, realm), JobOf(s, realm, c, scope)) <==> InEffect(s, z, realm, c, scope)
  {
    var j, clients := JobOf(s, realm, c, scope), ClientsOf(s, realm);
    assert P.NameOf(j) == "keycloak-provisioner." + scope + "." + c.base.clientId by {
      assert P.NameOf(j) == ("keycloak-provisioner" + ".") + scope + "." + c.base.clientId;
    }
    forall g ensures g in clients <==> Client(realm, g) in s.objects
      ensures g in clients ==> clients[g] == s.objects[Client(realm, g)]
    {
      ClientIsSeen(s, realm, g);
    }
    hide ClientsOf;
    if P.Settled(z, clients, j) {
      var p := P.IdOf(z.policies, P.NameOf(j)).value;
      assert PolicyIs(s, z, realm, c, scope, p) by {
        forall g | g in j.granted ensures clients[g] in P.Granted(clients, j) {}
      }
    }
    if InEffect(s, z, realm, c, scope) {
      var p :| p in z.policies && PolicyIs(s, z, realm, c, scope, p);
      P.IdIsUnique(z.policies, P.NameOf(j), p);
      PolicyNamesGranted(s, z, realm, c, scope, p);
    }
  }

  lemma PolicyNamesGranted(s: Server, z: P.State, realm: string, c: FullClient, scope: string, p: nat)
    requires ScopeOf(c, scope) && p in z.policies && PolicyIs(s, z, realm, c, scope, p)
    ensures z.policies[p].clients == P.Granted(ClientsOf(s, realm), JobOf(s, realm, c, scope))
    ensures P.AllKnown(ClientsOf(s, realm), JobOf(s, realm, c, scope))
  {
    var granted, clients := c.permissions.value[scope], ClientsOf(s, realm);
    forall g ensures g in clients <==> Client(realm, g) in s.objects
      ensures g in clients ==> clients[g] == s.objects[Client(realm, g)]
    {
      ClientIsSeen(s, realm, g);
    }
    hide ClientsOf;
    forall x | x in z.policies[p].clients ensures x in P.Granted(clients, JobOf(s, realm, c, scope)) {
      var g :| g in granted && Lookup(s, Client(realm, g)) == Some(x);
      assert g in clients && clients[g] == x;
    }
  }

  lemma AllSettledInEffect(s: Server, z: P.State, r: Realm, was: Server)
    requires Stocked(s, r, was) && P.NamesUnique(z.policies)
    ensures PermissionsSettled(s, z, r) <==> AllInEffect(s, z, r)
  {
    forall i, scope | 0 <= i < |r.clients| && ScopeOf(r.clients[i], scope)
      ensures P.Settled(z, ClientsOf(s, r.name), JobOf(s, r.name, r.clients[i], scope)) <==>
              InEffect(s, z, r.name, r.clients[i], scope)
    {
      assert ClientThere(s, r, was, r.clients[i]);
      SettledIsInEffect(s, z, r.name, r.clients[i], scope);
    }
    hide Stocked, InEffect, ClientsOf;
  }

  // ---------- the theorem ----------

  /** What every run that goes through leaves behind, over whatever was there: scopes, clients with their roles and
      service accounts, realm roles, what was granted to service accounts and put in scopes, groups with their roles,
      users with theirs, members of groups, providers, and organizations with their links, groups and members; and all
      permissions settled exactly when those that share a policy agree. */
  ghost predicate Established(was: Server, rest: Rest, s: Server, next: Rest, w: Ways, r: Realm) {
    && Stocked(s, r, was) && MappingsHold(s, r)
    && GroupsThere(s, r) && UsersThere(s, r) && MembersAsDeclared(s, r, was)
    && PermissionsKept(s, rest.authz, next.authz, r)
    && (AllInEffect(s, next.authz, r) <==> PermissionsCohere(r.clients))
    && ProvidersThere(rest.store, next.store, w, r)
    && OrgsThere(s, Refreshed(rest.orgs, s, r.name, next.store), next.orgs, r)
    && OrgMembersAsDeclared(next.orgs, r, was)
  }

  ghost predicate OrgMembersAsDeclared(o: O.State, r: Realm, was: Server) {
    forall i, n :: 0 <= i < |r.organizations| && n in r.organizations[i].members ==>
      (IsMember(o, r.organizations[i].name, n) <==> UserDeclared(r, was, n))
  }

  lemma RefersIs(r: Realm, was: Server, rest: Rest, flows: set<string>, offered: set<string>)
    ensures Refers(r, was, rest, flows, offered) <==>
            && FlowsKnown(AuthFlows.Configured(r.bindings), flows) && AllBound(r.clients, flows)
            && MappingsRefer(r, was) && AllPermissionsRefer(r, was, rest.authz, offered)
            && GroupRolesDeclared(r, was, r.groups) && UsersRefer(r, was) && ClaimsRefer(r, rest)
  {
    hide PermissionsRefer, HasAccount, RolesDeclared, OwnedByAnother;
  }

  lemma AfterFlowsIs(a: Api, flows: set<string>, rest: Rest, w: Ways, r: Realm)
    ensures
      var (b, s1) := Before(a, flows, r);
      if s1 != Done then AfterFlows(a, flows, rest, w, r) == (b, rest, s1)
      else
        var (c, s2) := Middle(b, flows, r);
        if s2 != Done then AfterFlows(a, flows, rest, w, r) == (c, rest, s2)
        else
          var (y, s3) := Permit(c.server, rest.authz, w.offered, r);
          if s3 != Done then AfterFlows(a, flows, rest, w, r) == (c, rest.(authz := y), s3)
          else
            var (d, s4) := GroupsThenUsers(c, r);
            if s4 != Done then AfterFlows(a, flows, rest, w, r) == (d, rest.(authz := y), s4)
            else
              var (next, s5) := ProvidersThenOrgs(d.server, rest.(authz := y), w, r);
              AfterFlows(a, flows, rest, w, r) == (d, next, s5)
  {
    hide Before, Middle, Permit, GroupsThenUsers, ProvidersThenOrgs;
  }

  /** What the run finds fits together. */
  ghost predicate Fits(s: Server, rest: Rest, w: Ways, r: Realm) {
    && Begun(s, r) && P.Valid(rest.authz, w.offered) && O.Valid(rest.orgs)
    && OrgsFit(rest.orgs, s, r.name, rest.store)
  }

  lemma FitsIs(s: Server, rest: Rest, w: Ways, r: Realm)
    ensures Fits(s, rest, w, r) <==>
            && WellFormed(s) && r.name in s.realms && P.Valid(rest.authz, w.offered) && O.Valid(rest.orgs)
            && OrgsFit(rest.orgs, s, r.name, rest.store)
    ensures Fits(s, rest, w, r) ==> Begun(s, r)
  {}

  /** Provisioning a realm from a config that passes validation, whatever the realm holds: the run goes through exactly
      when the config names only what it declares or the realm has already; and then everything it declares holds, as
      far as what it names is there. The order of the clients does not enter. */
  lemma RealmProgress(a: Api, flows: set<string>, rest: Rest, w: Ways, r: Realm)
    requires IsLive(a) && Fits(a.server, rest, w, r) && Accepted(r)
    ensures
      var (g, next, status) := AfterFlows(a, flows, rest, w, r);
      && (status == Done <==> Refers(r, a.server, rest, flows, w.offered))
      && (status == Done ==>
            IsLive(g) && Grows(a.server, g.server) && Established(a.server, rest, g.server, next, w, r))
  {
    hide *;
    ghost var was := a.server;
    FitsIs(was, rest, w, r);
    AfterFlowsIs(a, flows, rest, w, r);
    RefersIs(r, was, rest, flows, w.offered);
    BeforeLive(a, flows, r);
    var (b, s1) := Before(a, flows, r);
    if s1 == Done {
      MiddleLive(b, flows, r, was);
      var (c, s2) := Middle(b, flows, r);
      MiddleFacts(b, c, s2, flows, r, was);
      if s2 == Done {
        PermitLive(c.server, rest.authz, r, was, w.offered);
        var (y, s3) := Permit(c.server, rest.authz, w.offered, r);
        if s3 == Done {
          PeopleLive(c, r, was);
          var (d, s4) := GroupsThenUsers(c, r);
          PeopleFacts(c, d, s4, r, was);
          if s4 == Done {
            LiveIs(d);
            GrowsTransitive(was, b.server, c.server);
            GrowsTransitive(was, c.server, d.server);
            StillFits(rest.orgs, was, d.server, r.name, rest.store);
            OrgsLive(d.server, rest.(authz := y), w, r);
            SameClaims(r, rest, y);
            var (next, s5) := ProvidersThenOrgs(d.server, rest.(authz := y), w, r);
            OrgsFacts(d.server, rest.(authz := y), next, s5, w, r);
            if s5 == Done {
              ValidNames(y, w.offered);
              WholeRealm(c, d, rest, y, next, w, r, was);
            }
          }
        }
      }
    }
  }

  lemma ValidNames(z: P.State, offered: set<string>)
    requires P.Valid(z, offered)
    ensures P.NamesUnique(z.policies)
  {}

  lemma ClaimsStillRefer(r: Realm, rest: Rest, other: Rest)
    requires rest.orgs == other.orgs && rest.store == other.store && ClaimsRefer(r, rest)
    ensures ClaimsRefer(r, other)
  {
    forall i, a | 0 <= i < |r.organizations| && a in r.organizations[i].identityProviders
      ensures ProviderDeclared(r, other, a) && !OwnedByAnother(other.orgs, r.organizations[i].name, a)
    {
      assert ProviderDeclared(r, rest, a) && !OwnedByAnother(rest.orgs, r.organizations[i].name, a);
    }
  }

  /** Permissions are no matter to claims. */
  lemma SameClaims(r: Realm, rest: Rest, y: P.State)
    ensures ClaimsRefer(r, rest.(authz := y)) <==> ClaimsRefer(r, rest)
  {
    hide ClaimsRefer;
    var other := rest.(authz := y);
    if ClaimsRefer(r, rest) {
      ClaimsStillRefer(r, rest, other);
    }
    if ClaimsRefer(r, other) {
      ClaimsStillRefer(r, other, rest);
    }
  }

  lemma BegunFacts(s: Server, r: Realm)
    requires Begun(s, r)
    ensures WellFormed(s) && r.name in s.realms
  {}

  lemma MiddleFacts(b: Api, d: Api, status: Status, flows: set<string>, r: Realm, was: Server)
    requires MiddleDone(b, d, status, flows, r, was)
    ensures status == (if AllBound(r.clients, flows) && MappingsRefer(r, was) then Done else NotFound)
    ensures status == Done ==>
              && IsLive(d) && Grows(b.server, d.server) && Stocked(d.server, r, was) && NobodyNew(d.server, r, was)
              && AllWorkDone(d.server, r.name, DeferredWork(d.server, r))
  {}

  lemma PeopleFacts(a: Api, b: Api, status: Status, r: Realm, was: Server)
    requires PeopleDone(a, b, status, r, was)
    ensures status == Done <==> GroupRolesDeclared(r, was, r.groups) && UsersRefer(r, was)
    ensures status == Done ==>
              && IsLive(b) && Grows(a.server, b.server) && Stocked(b.server, r, was) && GroupsThere(b.server, r)
              && UsersThere(b.server, r) && MembersAsDeclared(b.server, r, was)
              && forall k :: k in b.server.objects && k !in a.server.objects ==> k.Group? || k.User?
  {}

  lemma OrgsFacts(s: Server, rest: Rest, next: Rest, status: Status, w: Ways, r: Realm)
    requires OrgsDone(s, rest, next, status, w, r)
    ensures (status == Done <==> ClaimsRefer(r, rest)) && next.authz == rest.authz
    ensures ProvidersThere(rest.store, next.store, w, r)
    ensures status == Done ==> OrgsThere(s, Refreshed(rest.orgs, s, r.name, next.store), next.orgs, r)
  {}

  /** What the steps have established, put together at the end. */
  lemma WholeRealm(c: Api, d: Api, rest: Rest, y: P.State, next: Rest, w: Ways, r: Realm, was: Server)
    requires Grows(c.server, d.server) && Stocked(c.server, r, was) && Stocked(d.server, r, was) && next.authz == y
    requires AllWorkDone(c.server, r.name, DeferredWork(c.server, r)) && GroupsThere(d.server, r)
    requires forall k :: k in d.server.objects && k !in c.server.objects ==> k.Group? || k.User?
    requires PermissionsSettled(c.server, y, r) <==> PermissionsCohere(r.clients)
    requires PermissionsKept(c.server, rest.authz, y, r) && P.NamesUnique(y.policies)
    requires UsersThere(d.server, r) && MembersAsDeclared(d.server, r, was)
    requires ProvidersThere(rest.store, next.store, w, r)
    requires OrgsThere(d.server, Refreshed(rest.orgs, d.server, r.name, next.store), next.orgs, r)
    ensures Established(was, rest, d.server, next, w, r)
  {
    hide *;
    StockedFacts(c.server, r, was);
    SettledAlike(c.server, d.server, y, r, was);
    SameWork(c.server, d.server, r, was);
    SameTargets(c.server, d.server, rest.authz, y, r, was);
    AllWorkDoneLater(c.server, d.server, r.name, DeferredWork(c.server, r));
    WorkMeansMappings(d.server, r, was);
    AllSettledInEffect(d.server, y, r, was);
    UsersOfOrgs(d.server, Refreshed(rest.orgs, d.server, r.name, next.store), next.orgs, r, was);
    PutTogether(was, rest, d.server, next, w, r);
  }

  lemma SameTargets(s: Server, t: Server, z: P.State, y: P.State, r: Realm, was: Server)
    requires Grows(s, t) && Stocked(s, r, was) && PermissionsKept(s, z, y, r)
    ensures PermissionsKept(t, z, y, r)
  {
    hide Grows, WellFormed, OnlyDeclared, AllThere, ScopesThere, RolesExist, P.Keeps;
    AllThereLater(s, t, r, was, r.clients);
    ListsKeep(s, t, r.name, r.clients);
  }

  lemma SameWork(s: Server, t: Server, r: Realm, was: Server)
    requires Grows(s, t) && Stocked(s, r, was)
    ensures DeferredWork(t, r) == DeferredWork(s, r)
  {
    hide Grows, WellFormed, OnlyDeclared, AllThere, ScopesThere, RolesExist;
    GrowsItself(s);
    WorkStays(s, s, t, r, was);
  }

  lemma UsersOfOrgs(s: Server, start: O.State, t: O.State, r: Realm, was: Server)
    requires Stocked(s, r, was) && UsersThere(s, r) && OrgsThere(s, start, t, r)
    ensures OrgMembersAsDeclared(t, r, was)
  {
    forall n ensures User(r.name, n) in s.objects <==> UserDeclared(r, was, n) {
      if User(r.name, n) in s.objects {
        assert KeyDeclared(s, r, was, User(r.name, n));
      }
      if UserDeclared(r, was, n) && User(r.name, n) !in was.objects {
        var i :| 0 <= i < |r.users| && r.users[i].username == n;
        assert UserThere(s, r.name, r.users[i]);
      }
    }
    hide Stocked, UsersThere;
  }

  lemma PutTogether(was: Server, rest: Rest, s: Server, next: Rest, w: Ways, r: Realm)
    requires Stocked(s, r, was) && MappingsHold(s, r) && GroupsThere(s, r) && UsersThere(s, r)
    requires ProvidersThere(rest.store, next.store, w, r) && MembersAsDeclared(s, r, was)
    requires OrgsThere(s, Refreshed(rest.orgs, s, r.name, next.store), next.orgs, r)
    requires PermissionsKept(s, rest.authz, next.authz, r)
    requires AllInEffect(s, next.authz, r) <==> PermissionsCohere(r.clients)
    requires OrgMembersAsDeclared(next.orgs, r, was)
    ensures Established(was, rest, s, next, w, r)
  {}

  // ---------- where it fails ----------

  /** A realm with nothing but a service account for realm-management. */
  function AccountForRealmManagement(name: string, createOnly: bool): Realm {
    var c := FullClient(ClientConfig(REALM_MANAGEMENT, true, []), map[], [], [], Some(Roles([], [])), None, None);
    Realm(name, map[], [], [c], [], [], [], [], [], createOnly)
  }

  /** Such a config passes validation, and names nothing undeclared. With an update strategy the run goes through;
      with a create-only strategy realm-management, which the new realm comes with, is left alone, and its service
      account is not found. */
  lemma AccountIsNotFound(a: Api, rest: Rest, w: Ways, name: string, createOnly: bool)
    requires IsLive(a) && name !in a.server.realms && P.Valid(rest.authz, w.offered) && O.Valid(rest.orgs)
    requires OrgsFit(rest.orgs, a.server, name, rest.store)
    ensures
      var r := AccountForRealmManagement(name, createOnly);
      var b := BeginRealm(a, name, createOnly, w.builtIn).0;
      Accepted(r) && AfterFlows(b, {}, rest, w, r).2 == if createOnly then NotFound else Done
  {
    var r := AccountForRealmManagement(name, createOnly);
    hide *;
    RealmIs(name, createOnly);
    RealmBegins(a, r, w.builtIn);
    var b := BeginRealm(a, name, createOnly, w.builtIn).0;
    StillFits(rest.orgs, a.server, b.server, name, rest.store);
    BegunFacts(b.server, r);
    FitsIs(b.server, rest, w, r);
    NothingElseIsNamed(r, b.server, rest, w.offered);
    RealmProgress(b, {}, rest, w, r);
    AfterFlowsIs(b, {}, rest, w, r);
    BeforeLive(b, {}, r);
    var c := Before(b, {}, r).0;
    MiddleLive(c, {}, r, b.server);
    MiddleFacts(c, Middle(c, {}, r).0, Middle(c, {}, r).1, {}, r, b.server);
  }

  lemma RealmIs(name: string, createOnly: bool)
    ensures
      var r := AccountForRealmManagement(name, createOnly);
      r.name == name && r.createOnly == createOnly
  {}

  lemma NothingElseIsNamed(r: Realm, was: Server, rest: Rest, offered: set<string>)
    requires r == AccountForRealmManagement(r.name, r.createOnly) && Client(r.name, REALM_MANAGEMENT) in was.objects
    requires forall k :: k in was.objects && k.realm == r.name ==> !k.ServiceAccount?
    ensures Accepted(r) && FlowsKnown(AuthFlows.Configured(r.bindings), {})
    ensures Refers(r, was, rest, {}, offered) <==> !r.createOnly
    ensures MappingsRefer(r, was) <==> !r.createOnly
  {
    assert r.clients[0].serviceAccountRoles == Some(Roles([], []));
    assert RolesDeclared(r, was, Roles([], []));
    assert O.AllClaims(r.organizations) == [];
  }
}
