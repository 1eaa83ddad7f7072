/** One realm from beginning to end (internal/provisioner/provisioner.go): the order of the steps, the work put off
    until what it names exists, and what each step does to a server. */
module Provision {
  import opened Directory
  import opened GroupTrees
  import opened Holdings
  import opened Ids
  import opened LiveRuns
  import opened RealmConfigs
  import opened Reconcile
  import opened Text
  import opened Users
  import AuthFlows
  import C = ClientScopes
  import I = IdentityProviders
  import O = Organizations
  import P = ManagementPermissions

  // ---------- client scopes and clients ----------

  /** Each scope, and whether its type is one the server knows; which lists it is on is no matter of the directory. */
  function EnsureScopes(a: Api, realm: string, scopes: seq<ScopeConfig>, createOnly: bool): (Api, Status)
    decreases |scopes|
  {
    if scopes == [] then (a, Done)
    else
      var (b, id) := C.EnsureScope(a, realm, scopes[0].name, createOnly);
      if id.None? || scopes[0].scopeType == C.Unknown then (b, Refused)
      else EnsureScopes(b, realm, scopes[1..], createOnly)
  }

  /** An override that names no flow fails the run before the client is touched. */
  function EnsureFullClient(a: Api, realm: string, c: FullClient, flows: set<string>, createOnly: bool): (Api, Status) {
    if !FlowsKnown(c.flowOverrides, flows) then (FindClient(a, realm, c.base.clientId).0, NotFound)
    else
      var (b, id) := EnsureClient(a, realm, c.base, createOnly);
      if id.None? then (b, Refused) else EnsureRoles(b, realm, id.value, c.base.roles, createOnly)
  }

  function EnsureFullClients(a: Api, realm: string, cs: seq<FullClient>, flows: set<string>, createOnly: bool)
    : (Api, Status)
    decreases |cs|
  {
    if cs == [] then (a, Done)
    else
      var (b, status) := EnsureFullClient(a, realm, cs[0], flows, createOnly);
      if status != Done then (b, status) else EnsureFullClients(b, realm, cs[1..], flows, createOnly)
  }

  // ---------- deferred work ----------

  /** Whose lists a deferred entry fills: a client's service account, or a scope's owner. */
  datatype Owner = AccountOf(client: Id) | Scope(kind: HolderKind, id: Id)

  datatype Deferred = Deferred(owner: Owner, roles: Roles)

  function KindOf(o: Owner): HolderKind {
    if o.AccountOf? then Users else o.kind
  }

  function HolderOf(a: Api, realm: string, o: Owner): Option<Id> {
    match o
    case AccountOf(client) => Lookup(a.server, ServiceAccount(realm, client))
    case Scope(_, id) => Some(id)
  }

  function GrantDeferred(a: Api, realm: string, ds: seq<Deferred>): (Api, Status)
    decreases |ds|
  {
    if ds == [] then (a, Done)
    else
      match HolderOf(a, realm, ds[0].owner)
      case None => (a, NotFound)
      case Some(holder) =>
        var (b, status) := EnsureRoleMappings(a, realm, KindOf(ds[0].owner), holder, ds[0].roles.realm,
            ds[0].roles.clients);
        if status != Done then (b, status) else GrantDeferred(b, realm, ds[1..])
  }

  function Uuid(s: Server, realm: string, c: FullClient): Id {
    if Client(realm, c.base.clientId) in s.objects then s.objects[Client(realm, c.base.clientId)] else ""
  }

  function ScopeUuid(s: Server, realm: string, name: string): Id {
    if ClientScope(realm, name) in s.objects then s.objects[ClientScope(realm, name)] else ""
  }

  /** The three lists the client loop leaves behind, in declaration order. */
  function Accounts(s: Server, realm: string, cs: seq<FullClient>): seq<Deferred> {
    if cs == [] then []
    else
      Accounts(s, realm, cs[..|cs| - 1])
      + var c := cs[|cs| - 1];
        if c.serviceAccountRoles.None? then []
            else [Deferred(AccountOf(Uuid(s, realm, c)), c.serviceAccountRoles.value)]
  }

  function ClientScopeWork(s: Server, realm: string, cs: seq<FullClient>): seq<Deferred> {
    if cs == [] then []
    else
      ClientScopeWork(s, realm, cs[..|cs| - 1])
      + var c := cs[|cs| - 1];
        if c.scopeMappings.None? then [] else [Deferred(Scope(Clients, Uuid(s, realm, c)), c.scopeMappings.value)]
  }

  function Targets(s: Server, realm: string, cs: seq<FullClient>): seq<P.Target> {
    if cs == [] then []
    else
      Targets(s, realm, cs[..|cs| - 1])
      + var c := cs[|cs| - 1];
        if c.permissions.None? then [] else [P.Target(Uuid(s, realm, c), c.base.clientId, c.permissions)]
  }

  function ScopeWork(s: Server, realm: string, scopes: seq<ScopeConfig>): seq<Deferred> {
    if scopes == [] then []
    else
      ScopeWork(s, realm, scopes[..|scopes| - 1])
      + var c := scopes[|scopes| - 1];
        if c.scopeMappings.None? then []
        else [Deferred(Scope(HolderKind.ClientScopes, ScopeUuid(s, realm, c.name)), c.scopeMappings.value)]
  }

  /** The realm's clients as the permission step sees them. */
  function ClientsOf(s: Server, realm: string): map<string, string> {
    map k | k in s.objects && k.Client? && k.realm == realm :: k.clientId := s.objects[k]
  }

  /** The realm's users as the organization step sees them. */
  function UsersOf(s: Server, realm: string): set<O.User> {
    set k | k in s.objects && k.User? && k.realm == realm :: O.User(s.objects[k], k.username)
  }

  // ---------- the whole realm ----------

  function StatusOf(o: P.Outcome): Status {
    match o
    case Done => Status.Done
    case NotFound => Status.NotFound
    case Refused => Status.Refused
  }

  function OrgStatus(o: O.Outcome): Status {
    match o
    case Done => Status.Done
    case NotFound => Status.NotFound
    case OwnedElsewhere => Status.Refused
    case Refused => Status.Refused
  }

  /** A second realm update, when any binding is configured. */
  function Bind(a: Api, r: Realm): Api {
    if AuthFlows.Configured(r.bindings) == map[] then a else Record(a, UpdatesRealm(r.name))
  }

  /** Steps 3 and 4: `flows` are the realm's flows by then. */
  function Before(a: Api, flows: set<string>, r: Realm): (Api, Status) {
    if !FlowsKnown(AuthFlows.Configured(r.bindings), flows) then (Bind(a, r), Refused)
    else EnsureScopes(Bind(a, r), r.name, r.scopes, r.createOnly)
  }

  /** Steps 5 to 7: clients, realm roles, and the work put off till then. */
  function Middle(a: Api, flows: set<string>, r: Realm): (Api, Status) {
    var (b, s1) := EnsureFullClients(a, r.name, r.clients, flows, r.createOnly);
    if s1 != Done then (b, s1) else
    var (c, s2) := EnsureRoles(b, r.name, "", r.roles, r.createOnly);
    if s2 != Done then (c, s2) else
    var (d, s3) := GrantDeferred(c, r.name, Accounts(b.server, r.name, r.clients));
    if s3 != Done then (d, s3) else
    GrantDeferred(d, r.name, ScopeWork(a.server, r.name, r.scopes) + ClientScopeWork(b.server, r.name, r.clients))
  }

  /** Step 8. */
  ghost function Permit(s: Server, z: P.State, offered: set<string>, r: Realm): (P.State, Status) {
    var (y, outcome) := P.Run(z, ClientsOf(s, r.name), offered, P.AllSteps(Targets(s, r.name, r.clients)));
    (y, StatusOf(outcome))
  }

  /** Steps 9 and 10. */
  function GroupsThenUsers(a: Api, r: Realm): (Api, Status) {
    var (b, s1) := EnsureGroups(a, r.name, "", r.groups, r.createOnly);
    if s1 != Done then (b, s1) else EnsureUsers(b, r.name, r.users, r.createOnly)
  }

  /** What a server puts into a new realm beside realm-management. */
  datatype BuiltIn = RoleOf(name: string) | ScopeNamed(name: string) | ClientNamed(clientId: string)
    | ClientRoleOf(clientId: string, name: string)

  function Address(s: Server, realm: string, b: BuiltIn): Key {
    match b
    case RoleOf(name) => RealmRole(realm, name)
    case ScopeNamed(name) => ClientScope(realm, name)
    case ClientNamed(clientId) => Client(realm, clientId)
    case ClientRoleOf(clientId, name) =>
      var k := Client(realm, clientId);
      ClientRole(realm, if k in s.objects then s.objects[k] else "", name)
  }

  /** The server with all this in the realm, as far as there is a client for each client's role. */
  function Furnished(s: Server, realm: string, bs: seq<BuiltIn>): Server
    decreases |bs|
  {
    if bs == [] then s
    else
      var k := Address(s, realm, bs[0]);
      Furnished(if Accepts(s, k) then Add(s, k) else s, realm, bs[1..])
  }

  /** Step 1, with what the server does of its own accord when the realm is new. */
  function BeginRealm(a: Api, realm: string, createOnly: bool, bs: seq<BuiltIn>): (Api, Status) {
    var (b, status) := EnsureRealm(a, realm, createOnly);
    if RealmExists(a, realm) || status != Done then (b, status)
    else (b.(server := Furnished(b.server, realm, bs)), status)
  }

  /** What a server offers permissions, keeps secret of a provider's config, gives new providers, and puts into new
      realms. */
  datatype Ways = Ways(offered: set<string>, secrets: set<string>, given: I.Given, builtIn: seq<BuiltIn>)

  /** The organization endpoints see the realm's users and providers as they are by then. */
  function Refreshed(o: O.State, s: Server, realm: string, store: I.Store): O.State {
    o.(users := UsersOf(s, realm), providers := store.Keys)
  }

  /** Steps 11 and 12. */
  ghost function ProvidersThenOrgs(s: Server, rest: Rest, w: Ways, r: Realm): (Rest, Status) {
    var store := I.ReconciledAll(rest.store, r.providers, r.createOnly, w.secrets, w.given);
    var start := Refreshed(rest.orgs, s, r.name, store);
    var (orgs, outcome) := O.ProvisionAll(start, r.organizations, O.IndexFor(start, r.organizations));
    (Rest(rest.authz, store, orgs), OrgStatus(outcome))
  }

  /** Steps 3 to 12. */
  ghost function AfterFlows(a: Api, flows: set<string>, rest: Rest, w: Ways, r: Realm): (Api, Rest, Status) {
    var (b, s1) := Before(a, flows, r);
    if s1 != Done then (b, rest, s1) else
    var (c, s2) := Middle(b, flows, r);
    if s2 != Done then (c, rest, s2) else
    var (y, s3) := Permit(c.server, rest.authz, w.offered, r);
    if s3 != Done then (c, rest.(authz := y), s3) else
    var (d, s4) := GroupsThenUsers(c, r);
    if s4 != Done then (d, rest.(authz := y), s4) else
    var (rest', s5) := ProvidersThenOrgs(d.server, rest.(authz := y), w, r);
    (d, rest', s5)
  }

  // ---------- what a realm holds when everything in it was declared ----------

  ghost predicate IsClientAt(s: Server, r: Realm, i: nat, id: Id) {
    i < |r.clients| && Lookup(s, Client(r.name, r.clients[i].base.clientId)) == Some(id)
  }

  /** The address is one that was there, or one the config declares. */
  ghost predicate KeyDeclared(s: Server, r: Realm, was: Server, k: Key) {
    k in was.objects ||
    match k
    case Client(_, c) => ClientDeclared(r, was, c)
    case RealmRole(_, n) => n in r.roles
    case ClientRole(_, id, n) => exists i: nat :: IsClientAt(s, r, i, id) && n in r.clients[i].base.roles
    case ClientScope(_, n) => ScopeDeclared(r, was, n)
    case Group(_, _, _) => true
    case User(_, u) => UserDeclared(r, was, u)
    case ServiceAccount(_, id) => exists i: nat :: IsClientAt(s, r, i, id) && HasAccount(r, was, r.clients[i])
  }

  ghost predicate OnlyDeclared(s: Server, r: Realm, was: Server) {
    forall k :: k in s.objects && k.realm == r.name ==> KeyDeclared(s, r, was, k)
  }

  lemma KeyDeclaredLater(s: Server, t: Server, r: Realm, was: Server, k: Key)
    requires Grows(s, t) && KeyDeclared(s, r, was, k)
    ensures KeyDeclared(t, r, was, k)
  {
    if k.ClientRole? && k !in was.objects {
      var i: nat :| IsClientAt(s, r, i, k.client) && k.name in r.clients[i].base.roles;
      assert IsClientAt(t, r, i, k.client);
    }
    if k.ServiceAccount? && k !in was.objects {
      var i: nat :| IsClientAt(s, r, i, k.client) && HasAccount(r, was, r.clients[i]);
      assert IsClientAt(t, r, i, k.client);
    }
  }

  lemma OnlyDeclaredLater(s: Server, t: Server, r: Realm, was: Server)
    requires OnlyDeclared(s, r, was) && Grows(s, t)
    requires forall k :: k in t.objects && k !in s.objects && k.realm == r.name ==> KeyDeclared(t, r, was, k)
    ensures OnlyDeclared(t, r, was)
  {
    forall k | k in t.objects && k.realm == r.name ensures KeyDeclared(t, r, was, k) {
      if k in s.objects {
        KeyDeclaredLater(s, t, r, was, k);
      }
    }
  }

  // ---------- step 4 ----------

  ghost predicate ScopesThere(s: Server, realm: string, scopes: seq<ScopeConfig>) {
    forall i :: 0 <= i < |scopes| ==> ClientScope(realm, scopes[i].name) in s.objects
  }

  predicate TypesKnown(scopes: seq<ScopeConfig>) {
    forall i :: 0 <= i < |scopes| ==> scopes[i].scopeType != C.Unknown
  }

  function ScopeKeys(realm: string, scopes: seq<ScopeConfig>): set<Key> {
    set c | c in scopes :: ClientScope(realm, c.name)
  }

  lemma EnsureScopeLive(a: Api, realm: string, name: string, createOnly: bool)
    requires IsLive(a) && realm in a.server.realms
    ensures
      var k := ClientScope(realm, name);
      var (b, id) := C.EnsureScope(a, realm, name, createOnly);
      && id.Some? && IsLive(b) && Grows(a.server, b.server) && b.server.realms == a.server.realms
      && Lookup(b.server, k) == id && b.server.objects.Keys == a.server.objects.Keys + {k}
  {
    hide PathsOk, MappingsOk, MembershipsOk;
    var k := ClientScope(realm, name);
    if k !in a.server.objects {
      AddKeeps(a.server, k);
    } else {
      GrowsItself(a.server);
    }
  }

  lemma EnsureScopesStep(a: Api, realm: string, scopes: seq<ScopeConfig>, createOnly: bool)
    ensures scopes == [] ==> EnsureScopes(a, realm, scopes, createOnly) == (a, Done)
    ensures scopes != [] ==>
      var (b, id) := C.EnsureScope(a, realm, scopes[0].name, createOnly);
      EnsureScopes(a, realm, scopes, createOnly) ==
      if id.None? || scopes[0].scopeType == C.Unknown then (b, Refused)
      else EnsureScopes(b, realm, scopes[1..], createOnly)
  {}

  /** The scopes go through exactly when their types are known, and then they are there; nothing else is added. */
  lemma {:induction false} EnsureScopesLive(a: Api, realm: string, scopes: seq<ScopeConfig>, createOnly: bool)
    requires IsLive(a) && realm in a.server.realms
    ensures
      var (b, status) := EnsureScopes(a, realm, scopes, createOnly);
      && IsLive(b) && Grows(a.server, b.server) && b.server.realms == a.server.realms
      && a.server.objects.Keys <= b.server.objects.Keys <= a.server.objects.Keys + ScopeKeys(realm, scopes)
      && status == (if TypesKnown(scopes) then Done else Refused)
      && (status == Done ==> ScopesThere(b.server, realm, scopes))
    decreases |scopes|
  {
    hide *;
    EnsureScopesStep(a, realm, scopes, createOnly);
    GrowsItself(a.server);
    MoreScopes(a.server, realm, scopes);
    if scopes != [] {
      EnsureScopeLive(a, realm, scopes[0].name, createOnly);
      var b := C.EnsureScope(a, realm, scopes[0].name, createOnly).0;
      if scopes[0].scopeType != C.Unknown {
        EnsureScopesLive(b, realm, scopes[1..], createOnly);
        var c := EnsureScopes(b, realm, scopes[1..], createOnly).0;
        GrowsTransitive(a.server, b.server, c.server);
        KeyStays(b.server, c.server, ClientScope(realm, scopes[0].name));
        MoreScopes(c.server, realm, scopes);
      }
      LookedUp(b.server, ClientScope(realm, scopes[0].name));
    }
  }

  lemma LookedUp(s: Server, k: Key)
    ensures Lookup(s, k).Some? <==> k in s.objects
  {}

  lemma MoreScopes(s: Server, realm: string, scopes: seq<ScopeConfig>)
    ensures scopes == [] ==> ScopeKeys(realm, scopes) == {} && TypesKnown(scopes) && ScopesThere(s, realm, scopes)
    ensures scopes != [] ==>
              && ScopeKeys(realm, scopes) == {ClientScope(realm, scopes[0].name)} + ScopeKeys(realm, scopes[1..])
              && (TypesKnown(scopes) <==> scopes[0].scopeType != C.Unknown && TypesKnown(scopes[1..]))
              && (ScopesThere(s, realm, scopes) <==>
                  ClientScope(realm, scopes[0].name) in s.objects && ScopesThere(s, realm, scopes[1..]))
  {
    if scopes != [] {
      assert scopes == [scopes[0]] + scopes[1..];
      assert forall i :: 0 <= i < |scopes[1..]| ==> scopes[1..][i] == scopes[i + 1];
      assert forall i :: 0 < i < |scopes| ==> scopes[i] == scopes[1..][i - 1];
    }
  }

  // ---------- step 5 ----------

  /** The client is there with its roles, and with its service account if it is to have one. */
  ghost predicate ClientThere(s: Server, r: Realm, was: Server, c: FullClient) {
    var k := Client(r.name, c.base.clientId);
    && k in s.objects && RolesExist(s, r.name, s.objects[k], c.base.roles)
    && (HasAccount(r, was, c) ==> ServiceAccount(r.name, s.objects[k]) in s.objects)
  }

  lemma ClientThereLater(s: Server, t: Server, r: Realm, was: Server, c: FullClient)
    requires Grows(s, t) && ClientThere(s, r, was, c)
    ensures ClientThere(t, r, was, c)
  {}

  ghost predicate AllThere(s: Server, r: Realm, was: Server, cs: seq<FullClient>) {
    forall i :: 0 <= i < |cs| ==> ClientThere(s, r, was, cs[i])
  }

  /** None of these clients has been created or changed yet. */
  ghost predicate Fresh(s: Server, r: Realm, was: Server, cs: seq<FullClient>) {
    && DistinctClientIds(cs) && Grows(was, s) && (forall c :: c in cs ==> c in r.clients)
    && forall c :: c in cs && Client(r.name, c.base.clientId) in s.objects ==>
         Client(r.name, c.base.clientId) in was.objects
  }

  predicate AllBound(cs: seq<FullClient>, flows: set<string>) {
    forall i :: 0 <= i < |cs| ==> FlowsKnown(cs[i].flowOverrides, flows)
  }

  /** Clients, their roles and service accounts, and nothing else. */
  ghost predicate OnlyClientsAdded(s: Server, t: Server) {
    && Grows(s, t) && t.realms == s.realms
    && forall k :: k in t.objects && k !in s.objects ==> k.Client? || k.ClientRole? || k.ServiceAccount?
  }

  lemma OnlyClientsTwice(s: Server, t: Server, u: Server)
    requires OnlyClientsAdded(s, t) && OnlyClientsAdded(t, u)
    ensures OnlyClientsAdded(s, u)
  {
    GrowsTransitive(s, t, u);
  }

  lemma FullClientIs(a: Api, realm: string, c: FullClient, flows: set<string>, createOnly: bool)
    ensures FlowsKnown(c.flowOverrides, flows) ==>
      var (b, id) := EnsureClient(a, realm, c.base, createOnly);
      EnsureFullClient(a, realm, c, flows, createOnly) ==
      if id.None? then (b, Refused) else EnsureRoles(b, realm, id.value, c.base.roles, createOnly)
    ensures !FlowsKnown(c.flowOverrides, flows) && a.overlay.None? ==>
      EnsureFullClient(a, realm, c, flows, createOnly) == (a, NotFound)
  {
    hide EnsureClient, EnsureRoles;
  }

  /** One client of any realm, with exactly what is added: the client, its roles, and its service account if it has one
      coming. */
  lemma ClientAndRoles(a: Api, realm: string, c: FullClient, createOnly: bool)
    requires IsLive(a) && realm in a.server.realms
    ensures
      var k := Client(realm, c.base.clientId);
      var (b, id) := EnsureClient(a, realm, c.base, createOnly);
      && id.Some?
      && var (d, status) := EnsureRoles(b, realm, id.value, c.base.roles, createOnly);
      && status == Done && IsLive(d) && Grows(a.server, d.server) && d.server.realms == a.server.realms
      && Lookup(d.server, k) == id && RolesExist(d.server, realm, id.value, c.base.roles) && id.value != ""
      && d.server.objects.Keys ==
         a.server.objects.Keys + {k} + AccountKeys(a.server, k, id.value, c.base.serviceAccount, createOnly)
         + RoleKeys(realm, id.value, c.base.roles)
  {
    hide *;
    EnsureClientLive(a, realm, c.base, createOnly);
    var (b, id) := EnsureClient(a, realm, c.base, createOnly);
    EnsureRolesLive(b, realm, id.value, c.base.roles, createOnly);
    var d := EnsureRoles(b, realm, id.value, c.base.roles, createOnly).0;
    GrowsTransitive(a.server, b.server, d.server);
    LookupStays(b.server, d.server, Client(realm, c.base.clientId));
    LiveIs(b);
    IdsAreNotEmpty(b.server, Client(realm, c.base.clientId));
  }

  lemma LookupStays(s: Server, t: Server, k: Key)
    requires Grows(s, t)
    ensures Lookup(s, k).Some? ==> Lookup(t, k) == Lookup(s, k)
  {}

  lemma IdsAreNotEmpty(s: Server, k: Key)
    requires WellFormed(s)
    ensures Lookup(s, k) != Some("")
  {}

  lemma ClientKinds(s: Server, t: Server, realm: string, c: FullClient, id: Id, createOnly: bool)
    requires Grows(s, t) && t.realms == s.realms && id != ""
    requires
      var k := Client(realm, c.base.clientId);
      t.objects.Keys ==
      s.objects.Keys + {k} + AccountKeys(s, k, id, c.base.serviceAccount, createOnly)
      + RoleKeys(realm, id, c.base.roles)
    ensures OnlyClientsAdded(s, t)
    ensures forall k :: k in t.objects && k.Client? ==> k in s.objects || k == Client(realm, c.base.clientId)
  {}

  /** What is added with a client is declared, and a service account comes where one is due. */
  lemma NewClientIsDeclared(s: Server, t: Server, r: Realm, was: Server, cs: seq<FullClient>, id: Id)
    requires cs != [] && Fresh(s, r, was, cs) && Grows(s, t) && id != ""
    requires
      var k := Client(r.name, cs[0].base.clientId);
      && Lookup(t, k) == Some(id) && RolesExist(t, r.name, id, cs[0].base.roles)
      && t.objects.Keys ==
         s.objects.Keys + {k} + AccountKeys(s, k, id, cs[0].base.serviceAccount, r.createOnly)
         + RoleKeys(r.name, id, cs[0].base.roles)
    ensures ClientThere(t, r, was, cs[0]) && (OnlyDeclared(s, r, was) ==> OnlyDeclared(t, r, was))
  {
    var c := cs[0];
    assert c in cs;
    var i :| 0 <= i < |r.clients| && r.clients[i] == c;
    assert IsClientAt(t, r, i, id);
    if OnlyDeclared(s, r, was) {
      forall k | k in t.objects && k !in s.objects ensures KeyDeclared(t, r, was, k) {}
      OnlyDeclaredLater(s, t, r, was);
    }
  }

  lemma RestIsFresh(s: Server, t: Server, r: Realm, was: Server, cs: seq<FullClient>)
    requires cs != [] && Fresh(s, r, was, cs) && Grows(s, t)
    requires forall k :: k in t.objects && k.Client? ==> k in s.objects || k == Client(r.name, cs[0].base.clientId)
    ensures Fresh(t, r, was, cs[1..])
  {
    assert forall i :: 0 <= i < |cs[1..]| ==> cs[1..][i] == cs[i + 1];
    assert cs == [cs[0]] + cs[1..];
  }

  lemma MoreClients(s: Server, r: Realm, was: Server, cs: seq<FullClient>, flows: set<string>)
    ensures cs == [] ==> AllThere(s, r, was, cs) && AllBound(cs, flows)
    ensures cs != [] ==>
              && (AllThere(s, r, was, cs) <==> ClientThere(s, r, was, cs[0]) && AllThere(s, r, was, cs[1..]))
              && (AllBound(cs, flows) <==> FlowsKnown(cs[0].flowOverrides, flows) && AllBound(cs[1..], flows))
  {
    if cs != [] {
      assert forall i :: 0 <= i < |cs[1..]| ==> cs[1..][i] == cs[i + 1];
      assert forall i :: 0 < i < |cs| ==> cs[i] == cs[1..][i - 1];
    }
  }

  lemma FullClientsStep(a: Api, realm: string, cs: seq<FullClient>, flows: set<string>, createOnly: bool)
    ensures cs == [] ==> EnsureFullClients(a, realm, cs, flows, createOnly) == (a, Done)
    ensures cs != [] ==>
      var (b, status) := EnsureFullClient(a, realm, cs[0], flows, createOnly);
      EnsureFullClients(a, realm, cs, flows, createOnly) ==
      if status != Done then (b, status) else EnsureFullClients(b, realm, cs[1..], flows, createOnly)
  {}

  /** What a client loop comes to: it goes through exactly when all flows named are known, adds clients and what is
      theirs, and nothing that is not declared. */
  ghost predicate ClientsDone(a: Api, b: Api, status: Status, r: Realm, was: Server, cs: seq<FullClient>,
                              flows: set<string>)
  {
    && IsLive(b) && OnlyClientsAdded(a.server, b.server)
    && status == (if AllBound(cs, flows) then Done else NotFound)
    && (OnlyDeclared(a.server, r, was) ==> OnlyDeclared(b.server, r, was))
    && (status == Done ==> AllThere(b.server, r, was, cs))
  }

  lemma {:induction false} FullClientsLive(a: Api, r: Realm, was: Server, cs: seq<FullClient>, flows: set<string>)
    requires IsLive(a) && r.name in a.server.realms && Fresh(a.server, r, was, cs)
    ensures
      var (b, status) := EnsureFullClients(a, r.name, cs, flows, r.createOnly);
      ClientsDone(a, b, status, r, was, cs, flows)
    decreases |cs|
  {
    hide *;
    FullClientsStep(a, r.name, cs, flows, r.createOnly);
    MoreClients(a.server, r, was, cs, flows);
    LiveIs(a);
    if cs == [] || !FlowsKnown(cs[0].flowOverrides, flows) {
      if cs != [] {
        FullClientIs(a, r.name, cs[0], flows, r.createOnly);
      }
      NoClientsDone(a, r, was, cs, flows);
    } else {
      FullClientIs(a, r.name, cs[0], flows, r.createOnly);
      ClientAndRoles(a, r.name, cs[0], r.createOnly);
      var (b, id) := EnsureClient(a, r.name, cs[0].base, r.createOnly);
      var d := EnsureRoles(b, r.name, id.value, cs[0].base.roles, r.createOnly).0;
      ClientKinds(a.server, d.server, r.name, cs[0], id.value, r.createOnly);
      NewClientIsDeclared(a.server, d.server, r, was, cs, id.value);
      RestIsFresh(a.server, d.server, r, was, cs);
      FullClientsLive(d, r, was, cs[1..], flows);
      var (e, st) := EnsureFullClients(d, r.name, cs[1..], flows, r.createOnly);
      ClientsThen(a, d, e, st, r, was, cs, flows);
    }
  }

  lemma NoClientsDone(a: Api, r: Realm, was: Server, cs: seq<FullClient>, flows: set<string>)
    requires IsLive(a) && (cs == [] || !FlowsKnown(cs[0].flowOverrides, flows))
    ensures ClientsDone(a, a, if cs == [] then Done else NotFound, r, was, cs, flows)
  {
    GrowsItself(a.server);
  }

  lemma ClientsThen(a: Api, d: Api, e: Api, st: Status, r: Realm, was: Server, cs: seq<FullClient>, flows: set<string>)
    requires cs != [] && FlowsKnown(cs[0].flowOverrides, flows) && OnlyClientsAdded(a.server, d.server)
    requires ClientThere(d.server, r, was, cs[0]) && (OnlyDeclared(a.server, r, was) ==> OnlyDeclared(d.server, r, was))
    requires ClientsDone(d, e, st, r, was, cs[1..], flows)
    ensures ClientsDone(a, e, st, r, was, cs, flows)
  {
    hide OnlyDeclared, Grows, ClientThere, FlowsKnown, AllThere, AllBound;
    MoreClients(e.server, r, was, cs, flows);
    OnlyClientsTwice(a.server, d.server, e.server);
    ClientThereLater(d.server, e.server, r, was, cs[0]);
  }

  // ---------- once clients and roles are there ----------

  /** What has been established when the scopes, the clients and the realm's roles are there, beside what was. */
  ghost predicate Stocked(s: Server, r: Realm, was: Server) {
    && WellFormed(was) && Grows(was, s)
    && WellFormed(s) && r.name in s.realms && OnlyDeclared(s, r, was) && DistinctClientIds(r.clients)
    && AllThere(s, r, was, r.clients) && RolesExist(s, r.name, "", r.roles) && ScopesThere(s, r.name, r.scopes)
  }

  lemma StockedLater(s: Server, t: Server, r: Realm, was: Server)
    requires Stocked(s, r, was) && Grows(s, t) && WellFormed(t) && OnlyDeclared(t, r, was)
    ensures Stocked(t, r, was)
  {
    hide WellFormed, OnlyDeclared, ClientThere;
    GrowsTransitive(was, s, t);
    forall i | 0 <= i < |r.clients| ensures ClientThere(t, r, was, r.clients[i]) {
      ClientThereLater(s, t, r, was, r.clients[i]);
    }
  }

  lemma StockedFacts(s: Server, r: Realm, was: Server)
    requires Stocked(s, r, was)
    ensures WellFormed(s) && r.name in s.realms && AllThere(s, r, was, r.clients) && RolesExist(s, r.name, "", r.roles)
    ensures OnlyDeclared(s, r, was) && ScopesThere(s, r.name, r.scopes) && DistinctClientIds(r.clients)
    ensures ParentOk(s, r.name, "")
    ensures WellFormed(was) && Grows(was, s)
  {}

  /** Clients of different ids are different clients. */
  lemma SameClientAt(s: Server, r: Realm, i: nat, j: nat, id: Id)
    requires WellFormed(s) && DistinctClientIds(r.clients) && IsClientAt(s, r, i, id) && IsClientAt(s, r, j, id)
    ensures i == j
  {
    assert s.owner[id] == Client(r.name, r.clients[i].base.clientId) == Client(r.name, r.clients[j].base.clientId);
  }

  /** A client's role exists exactly when the config declares it or it was there. */
  lemma ClientRoleThereIfDeclared(s: Server, r: Realm, was: Server, clientId: string, x: string)
    requires Stocked(s, r, was)
    ensures
      var k := Client(r.name, clientId);
      (k in s.objects && RoleKey(r.name, s.objects[k], x) in s.objects) <==> ClientRoleDeclared(r, was, clientId, x)
  {
    var k := Client(r.name, clientId);
    IdsAreNotEmpty(s, k);
    if k in s.objects && ClientRole(r.name, s.objects[k], x) in s.objects {
      RoleComesFrom(s, r, was, clientId, x);
    }
    if !CameWithRole(r, was, clientId, x) && ClientRoleDeclared(r, was, clientId, x) {
      var i :| 0 <= i < |r.clients| && DeclaresRole(r.clients[i], clientId, x);
      assert ClientThere(s, r, was, r.clients[i]);
    }
  }

  lemma RoleComesFrom(s: Server, r: Realm, was: Server, clientId: string, x: string)
    requires Stocked(s, r, was) && Client(r.name, clientId) in s.objects
    requires ClientRole(r.name, s.objects[Client(r.name, clientId)], x) in s.objects
    ensures ClientRoleDeclared(r, was, clientId, x)
  {
    hide AllThere, RolesExist, ScopesThere, PathsOk, MappingsOk, MembershipsOk;
    var k := Client(r.name, clientId);
    var id := s.objects[k];
    assert s.owner[id] == k && KeyDeclared(s, r, was, ClientRole(r.name, id, x));
    if ClientRole(r.name, id, x) in was.objects {
      ClientWasThere(s, was, ClientRole(r.name, id, x), k);
    } else {
      var i: nat :| IsClientAt(s, r, i, id) && x in r.clients[i].base.roles;
      assert s.owner[id] == Client(r.name, r.clients[i].base.clientId);
      assert DeclaresRole(r.clients[i], clientId, x);
    }
  }

  /** What hangs on a client was not there before the client. */
  lemma ClientWasThere(s: Server, was: Server, k: Key, client: Key)
    requires WellFormed(was) && Grows(was, s) && k in was.objects && (k.ClientRole? || k.ServiceAccount?)
    requires WellFormed(s) && Lookup(s, client) == Some(k.client)
    ensures Lookup(was, client) == Some(k.client)
  {
    hide PathsOk, MappingsOk, MembershipsOk;
    assert ContainerKnown(was, k);
  }

  /** Once clients and roles are there, exactly what is declared or was there is. */
  lemma ThereIfDeclared(s: Server, r: Realm, was: Server, roles: Roles)
    requires Stocked(s, r, was)
    ensures RolesThere(s, r.name, roles) <==> RolesDeclared(r, was, roles)
  {
    forall e | e in roles.clients ensures EntryExists(s, r.name, e) <==> EntryDeclared(r, was, e) {
      forall x
        ensures
          var k := Client(r.name, e.0);
          (k in s.objects && RoleKey(r.name, s.objects[k], x) in s.objects) <==> ClientRoleDeclared(r, was, e.0, x)
      {
        ClientRoleThereIfDeclared(s, r, was, e.0, x);
      }
      hide Stocked, ClientRoleDeclared;
      assert e.1 != [] ==> e.1[0] in e.1;
    }
    forall x | x in roles.realm
      ensures RoleKey(r.name, "", x) in s.objects <==> RealmRoleDeclared(r, was, x)
    {
      assert RoleKey(r.name, "", x) == RealmRole(r.name, x);
      assert x in r.roles ==> RoleKey(r.name, "", x) in s.objects;
      assert RealmRole(r.name, x) in s.objects ==> KeyDeclared(s, r, was, RealmRole(r.name, x));
    }
    hide Stocked, EntryExists, EntryDeclared, RealmRoleDeclared;
  }

  lemma {:induction false} GroupRolesThere(s: Server, r: Realm, was: Server, gs: seq<GroupConfig>)
    requires Stocked(s, r, was)
    ensures TreeRolesExist(s, r.name, gs) <==> GroupRolesDeclared(r, was, gs)
    decreases gs
  {
    hide Stocked;
    forall i | 0 <= i < |gs|
      ensures RolesExist(s, r.name, "", gs[i].realmRoles) && EntriesExist(s, r.name, gs[i].clientRoles) <==>
              RolesDeclared(r, was, Roles(gs[i].realmRoles, gs[i].clientRoles))
      ensures TreeRolesExist(s, r.name, gs[i].subGroups) <==> GroupRolesDeclared(r, was, gs[i].subGroups)
    {
      ThereIfDeclared(s, r, was, Roles(gs[i].realmRoles, gs[i].clientRoles));
      GroupRolesThere(s, r, was, gs[i].subGroups);
    }
  }

  // ---------- step 7 ----------

  ghost predicate OwnerKnown(s: Server, realm: string, o: Owner) {
    match o
    case AccountOf(client) => ServiceAccount(realm, client) in s.objects
    case Scope(kind, id) => HolderKnown(s, Mapping(realm, kind, id, "")) && !Unborn(s, id)
  }

  lemma OwnerKnownLater(s: Server, t: Server, realm: string, o: Owner)
    requires Grows(s, t) && OwnerKnown(s, realm, o)
    ensures OwnerKnown(t, realm, o)
  {
    if o.Scope? {
      SameHolder(s, t, realm, o.kind, o.id);
    }
  }

  ghost predicate Workable(s: Server, realm: string, d: Deferred) {
    OwnerKnown(s, realm, d.owner) && RolesThere(s, realm, d.roles)
  }

  ghost predicate AllWorkable(s: Server, realm: string, ds: seq<Deferred>) {
    forall i :: 0 <= i < |ds| ==> Workable(s, realm, ds[i])
  }

  /** Owners of scopes are known; whether accounts are is for the run to find out. */
  ghost predicate OwnersKnown(s: Server, realm: string, ds: seq<Deferred>) {
    forall i :: 0 <= i < |ds| && ds[i].owner.Scope? ==> OwnerKnown(s, realm, ds[i].owner)
  }

  /** The owner of a deferred entry has what it is to have. */
  ghost predicate WorkDone(s: Server, realm: string, d: Deferred) {
    && OwnerKnown(s, realm, d.owner)
    && Holds(s, realm, KindOf(d.owner),
             if d.owner.AccountOf? then s.objects[ServiceAccount(realm, d.owner.client)] else d.owner.id, d.roles)
  }

  ghost predicate AllWorkDone(s: Server, realm: string, ds: seq<Deferred>) {
    forall i :: 0 <= i < |ds| ==> WorkDone(s, realm, ds[i])
  }

  lemma WorkDoneLater(s: Server, t: Server, realm: string, d: Deferred)
    requires Grows(s, t) && WorkDone(s, realm, d)
    ensures WorkDone(t, realm, d)
  {
    OwnerKnownLater(s, t, realm, d.owner);
    var holder := if d.owner.AccountOf? then s.objects[ServiceAccount(realm, d.owner.client)] else d.owner.id;
    HoldsLater(s, t, realm, KindOf(d.owner), holder, d.roles);
  }

  lemma AllWorkDoneLater(s: Server, t: Server, realm: string, ds: seq<Deferred>)
    requires Grows(s, t) && AllWorkDone(s, realm, ds)
    ensures AllWorkDone(t, realm, ds)
  {
    hide WorkDone;
    forall i | 0 <= i < |ds| ensures WorkDone(t, realm, ds[i]) {
      WorkDoneLater(s, t, realm, ds[i]);
    }
  }

  lemma OwnersKnownLater(s: Server, t: Server, realm: string, ds: seq<Deferred>)
    requires Grows(s, t) && OwnersKnown(s, realm, ds)
    ensures OwnersKnown(t, realm, ds)
  {
    hide OwnerKnown;
    forall i | 0 <= i < |ds| && ds[i].owner.Scope? ensures OwnerKnown(t, realm, ds[i].owner) {
      OwnerKnownLater(s, t, realm, ds[i].owner);
    }
  }

  /** Grants make no difference to what can be granted. */
  lemma WorkableAlike(s: Server, t: Server, realm: string, d: Deferred)
    requires t == s.(mappings := t.mappings)
    ensures Workable(s, realm, d) <==> Workable(t, realm, d)
    ensures d.owner.Scope? ==> (OwnerKnown(s, realm, d.owner) <==> OwnerKnown(t, realm, d.owner))
  {
    assert forall id :: Unborn(s, id) <==> Unborn(t, id);
    forall e ensures EntryExists(s, realm, e) <==> EntryExists(t, realm, e) {
      assert Lookup(s, Client(realm, e.0)) == Lookup(t, Client(realm, e.0));
    }
  }

  lemma AccountIsHolder(s: Server, realm: string, client: Id)
    requires WellFormed(s) && ServiceAccount(realm, client) in s.objects
    ensures
      var id := s.objects[ServiceAccount(realm, client)];
      HolderKnown(s, Mapping(realm, HolderKind.Users, id, "")) && !Unborn(s, id)
  {}

  lemma OneDeferred(a: Api, realm: string, d: Deferred)
    requires IsLive(a) && realm in a.server.realms && (d.owner.Scope? ==> OwnerKnown(a.server, realm, d.owner))
    ensures HolderOf(a, realm, d.owner).None? ==> !Workable(a.server, realm, d)
    ensures
      var holder := HolderOf(a, realm, d.owner);
      holder.Some? ==>
      var (b, status) := EnsureRoleMappings(a, realm, KindOf(d.owner), holder.value, d.roles.realm, d.roles.clients);
      && IsLive(b) && Grows(a.server, b.server) && b.server == a.server.(mappings := b.server.mappings)
      && status == (if Workable(a.server, realm, d) then Done else NotFound)
      && (status == Done ==> WorkDone(b.server, realm, d))
  {
    var found := HolderOf(a, realm, d.owner);
    if found.Some? {
      if d.owner.AccountOf? {
        AccountIsHolder(a.server, realm, d.owner.client);
      }
      hide Directory.WellFormed, Grows, RolesThere, Holds, EnsureRoleMappings, HolderKnown, Unborn;
      GrantingHolds(a, realm, KindOf(d.owner), found.value, d.roles);
      var b := EnsureRoleMappings(a, realm, KindOf(d.owner), found.value, d.roles.realm, d.roles.clients).0;
      if OwnerKnown(a.server, realm, d.owner) {
        OwnerKnownLater(a.server, b.server, realm, d.owner);
      }
    }
  }

  /** What a list of deferred work comes to: it goes through exactly when every owner and every role is there, and then
      every owner has its roles; nothing but grants is added. */
  ghost predicate DeferredDone(a: Api, b: Api, status: Status, realm: string, ds: seq<Deferred>) {
    && IsLive(b) && Grows(a.server, b.server) && b.server == a.server.(mappings := b.server.mappings)
    && status == (if AllWorkable(a.server, realm, ds) then Done else NotFound)
    && (status == Done ==> AllWorkDone(b.server, realm, ds))
  }

  lemma DeferredStep(a: Api, realm: string, ds: seq<Deferred>)
    ensures ds == [] ==> GrantDeferred(a, realm, ds) == (a, Done)
    ensures ds != [] && HolderOf(a, realm, ds[0].owner).None? ==> GrantDeferred(a, realm, ds) == (a, NotFound)
    ensures ds != [] && HolderOf(a, realm, ds[0].owner).Some? ==>
      var (b, status) := EnsureRoleMappings(a, realm, KindOf(ds[0].owner), HolderOf(a, realm, ds[0].owner).value,
                                            ds[0].roles.realm, ds[0].roles.clients);
      GrantDeferred(a, realm, ds) == if status != Done then (b, status) else GrantDeferred(b, realm, ds[1..])
  {
    hide HolderOf, EnsureRoleMappings;
  }

  lemma NoMoreWork(a: Api, realm: string, ds: seq<Deferred>)
    requires IsLive(a) && (ds == [] || !Workable(a.server, realm, ds[0]))
    ensures DeferredDone(a, a, if ds == [] then Done else NotFound, realm, ds)
  {
    GrowsItself(a.server);
  }

  lemma WorkStopsHere(a: Api, b: Api, realm: string, ds: seq<Deferred>)
    requires ds != [] && !Workable(a.server, realm, ds[0])
    requires IsLive(b) && Grows(a.server, b.server) && b.server == a.server.(mappings := b.server.mappings)
    ensures DeferredDone(a, b, NotFound, realm, ds)
  {}

  lemma WorkThen(a: Api, b: Api, c: Api, st: Status, realm: string, ds: seq<Deferred>)
    requires ds != [] && Grows(a.server, b.server) && b.server == a.server.(mappings := b.server.mappings)
    requires Workable(a.server, realm, ds[0]) && WorkDone(b.server, realm, ds[0])
    requires DeferredDone(b, c, st, realm, ds[1..])
    ensures DeferredDone(a, c, st, realm, ds)
  {
    hide Workable, WorkDone, Directory.WellFormed, Grows;
    GrowsTransitive(a.server, b.server, c.server);
    var rest := ds[1..];
    assert forall i :: 0 <= i < |rest| ==> rest[i] == ds[i + 1];
    assert forall i :: 0 < i < |ds| ==> ds[i] == rest[i - 1];
    forall i | 0 <= i < |ds| ensures Workable(a.server, realm, ds[i]) <==> Workable(b.server, realm, ds[i]) {
      WorkableAlike(a.server, b.server, realm, ds[i]);
    }
    WorkDoneLater(b.server, c.server, realm, ds[0]);
  }

  lemma RestOwnersKnown(s: Server, t: Server, realm: string, ds: seq<Deferred>)
    requires ds != [] && OwnersKnown(s, realm, ds) && Grows(s, t)
    ensures OwnersKnown(t, realm, ds[1..]) && (ds[0].owner.Scope? ==> OwnerKnown(s, realm, ds[0].owner))
  {
    OwnersKnownLater(s, t, realm, ds);
    assert forall i :: 0 <= i < |ds[1..]| ==> ds[1..][i] == ds[i + 1];
  }

  lemma {:induction false} DeferredLive(a: Api, realm: string, ds: seq<Deferred>)
    requires IsLive(a) && realm in a.server.realms && OwnersKnown(a.server, realm, ds)
    ensures
      var (b, status) := GrantDeferred(a, realm, ds);
      DeferredDone(a, b, status, realm, ds)
    decreases |ds|
  {
    hide *;
    DeferredStep(a, realm, ds);
    if ds == [] {
      NoMoreWork(a, realm, ds);
    } else {
      GrowsItself(a.server);
      RestOwnersKnown(a.server, a.server, realm, ds);
      OneDeferred(a, realm, ds[0]);
      var holder := HolderOf(a, realm, ds[0].owner);
      if holder.None? {
        NoMoreWork(a, realm, ds);
      } else {
        var (b, st) := EnsureRoleMappings(a, realm, KindOf(ds[0].owner), holder.value, ds[0].roles.realm,
                                          ds[0].roles.clients);
        if st != Done {
          WorkStopsHere(a, b, realm, ds);
        } else {
          RestOwnersKnown(a.server, b.server, realm, ds);
          DeferredLive(b, realm, ds[1..]);
          var (c, last) := GrantDeferred(b, realm, ds[1..]);
          WorkThen(a, b, c, last, realm, ds);
        }
      }
    }
  }

  // ---------- the lists the client and scope loops leave behind ----------

  /** Clients keep their places in the lists as the server grows. */
  lemma {:induction false} ListsKeep(s: Server, t: Server, realm: string, cs: seq<FullClient>)
    requires Grows(s, t) && forall i :: 0 <= i < |cs| ==> Client(realm, cs[i].base.clientId) in s.objects
    ensures Accounts(t, realm, cs) == Accounts(s, realm, cs)
    ensures ClientScopeWork(t, realm, cs) == ClientScopeWork(s, realm, cs)
    ensures Targets(t, realm, cs) == Targets(s, realm, cs)
    decreases |cs|
  {
    if cs != [] {
      ListsKeep(s, t, realm, cs[..|cs| - 1]);
    }
  }

  lemma {:induction false} ScopeWorkKeeps(s: Server, t: Server, realm: string, scopes: seq<ScopeConfig>)
    requires Grows(s, t) && ScopesThere(s, realm, scopes)
    ensures ScopeWork(t, realm, scopes) == ScopeWork(s, realm, scopes)
    decreases |scopes|
  {
    if scopes != [] {
      ScopeWorkKeeps(s, t, realm, scopes[..|scopes| - 1]);
    }
  }

  lemma WorkOfBoth(s: Server, realm: string, xs: seq<Deferred>, ys: seq<Deferred>)
    ensures AllWorkable(s, realm, xs + ys) <==> AllWorkable(s, realm, xs) && AllWorkable(s, realm, ys)
    ensures AllWorkDone(s, realm, xs + ys) <==> AllWorkDone(s, realm, xs) && AllWorkDone(s, realm, ys)
    ensures OwnersKnown(s, realm, xs) && OwnersKnown(s, realm, ys) ==> OwnersKnown(s, realm, xs + ys)
  {
    hide Workable, WorkDone, OwnerKnown;
    var zs := xs + ys;
    assert forall i :: 0 <= i < |xs| ==> zs[i] == xs[i];
    assert forall i :: 0 <= i < |ys| ==> zs[|xs| + i] == ys[i];
  }

  lemma OneWork(s: Server, realm: string, d: Deferred)
    ensures AllWorkable(s, realm, [d]) <==> Workable(s, realm, d)
    ensures AllWorkable(s, realm, []) && AllWorkDone(s, realm, []) && OwnersKnown(s, realm, [])
    ensures OwnersKnown(s, realm, [d]) <==> (d.owner.Scope? ==> OwnerKnown(s, realm, d.owner))
  {
    assert [d][0] == d;
  }

  /** The service account a client's roles are for is there, and so are the roles. */
  ghost predicate AccountWorkable(s: Server, realm: string, c: FullClient) {
    c.serviceAccountRoles.Some? ==>
      ServiceAccount(realm, Uuid(s, realm, c)) in s.objects && RolesThere(s, realm, c.serviceAccountRoles.value)
  }

  ghost predicate ScopeRolesThere(s: Server, realm: string, roles: Option<Roles>) {
    roles.Some? ==> RolesThere(s, realm, roles.value)
  }

  lemma ClientIsHolder(s: Server, realm: string, c: FullClient)
    requires WellFormed(s) && Client(realm, c.base.clientId) in s.objects
    ensures OwnerKnown(s, realm, Scope(HolderKind.Clients, Uuid(s, realm, c)))
  {}

  lemma ScopeIsHolder(s: Server, realm: string, name: string)
    requires WellFormed(s) && ClientScope(realm, name) in s.objects
    ensures OwnerKnown(s, realm, Scope(HolderKind.ClientScopes, ScopeUuid(s, realm, name)))
  {}

  lemma {:induction false} AccountsWorkable(s: Server, realm: string, cs: seq<FullClient>)
    ensures AllWorkable(s, realm, Accounts(s, realm, cs)) <==>
            forall i :: 0 <= i < |cs| ==> AccountWorkable(s, realm, cs[i])
    ensures OwnersKnown(s, realm, Accounts(s, realm, cs))
    decreases |cs|
  {
    hide AllWorkable, OwnersKnown, RolesThere, Uuid;
    if cs == [] {
      OneWork(s, realm, Deferred(AccountOf(""), Roles([], [])));
    } else {
      var front, c := cs[..|cs| - 1], cs[|cs| - 1];
      AccountsWorkable(s, realm, front);
      if c.serviceAccountRoles.Some? {
        var d := Deferred(AccountOf(Uuid(s, realm, c)), c.serviceAccountRoles.value);
        OneWork(s, realm, d);
        WorkOfBoth(s, realm, Accounts(s, realm, front), [d]);
      } else {
        assert Accounts(s, realm, front) + [] == Accounts(s, realm, front);
      }
      assert forall i :: 0 <= i < |cs| ==> cs[i] == if i < |front| then front[i] else c;
      assert forall i :: 0 <= i < |front| ==> front[i] == cs[i];
    }
  }

  lemma {:induction false} ClientScopesWorkable(s: Server, realm: string, cs: seq<FullClient>)
    requires WellFormed(s) && forall i :: 0 <= i < |cs| ==> Client(realm, cs[i].base.clientId) in s.objects
    ensures AllWorkable(s, realm, ClientScopeWork(s, realm, cs)) <==>
            forall i :: 0 <= i < |cs| ==> ScopeRolesThere(s, realm, cs[i].scopeMappings)
    ensures OwnersKnown(s, realm, ClientScopeWork(s, realm, cs))
    decreases |cs|
  {
    hide AllWorkable, OwnersKnown, RolesThere, Uuid, Directory.WellFormed, OwnerKnown;
    if cs == [] {
      OneWork(s, realm, Deferred(AccountOf(""), Roles([], [])));
    } else {
      var front, c := cs[..|cs| - 1], cs[|cs| - 1];
      ClientScopesWorkable(s, realm, front);
      ClientIsHolder(s, realm, c);
      if c.scopeMappings.Some? {
        var d := Deferred(Scope(HolderKind.Clients, Uuid(s, realm, c)), c.scopeMappings.value);
        OneWork(s, realm, d);
        WorkOfBoth(s, realm, ClientScopeWork(s, realm, front), [d]);
      } else {
        assert ClientScopeWork(s, realm, front) + [] == ClientScopeWork(s, realm, front);
      }
      assert forall i :: 0 <= i < |cs| ==> cs[i] == if i < |front| then front[i] else c;
      assert forall i :: 0 <= i < |front| ==> front[i] == cs[i];
    }
  }

  lemma {:induction false} ScopesWorkable(s: Server, realm: string, scopes: seq<ScopeConfig>)
    requires WellFormed(s) && ScopesThere(s, realm, scopes)
    ensures AllWorkable(s, realm, ScopeWork(s, realm, scopes)) <==>
            forall i :: 0 <= i < |scopes| ==> ScopeRolesThere(s, realm, scopes[i].scopeMappings)
    ensures OwnersKnown(s, realm, ScopeWork(s, realm, scopes))
    decreases |scopes|
  {
    hide AllWorkable, OwnersKnown, RolesThere, ScopeUuid, Directory.WellFormed, OwnerKnown;
    if scopes == [] {
      OneWork(s, realm, Deferred(AccountOf(""), Roles([], [])));
    } else {
      var front, c := scopes[..|scopes| - 1], scopes[|scopes| - 1];
      ScopesWorkable(s, realm, front);
      ScopeIsHolder(s, realm, c.name);
      if c.scopeMappings.Some? {
        var d := Deferred(Scope(HolderKind.ClientScopes, ScopeUuid(s, realm, c.name)), c.scopeMappings.value);
        OneWork(s, realm, d);
        WorkOfBoth(s, realm, ScopeWork(s, realm, front), [d]);
      } else {
        assert ScopeWork(s, realm, front) + [] == ScopeWork(s, realm, front);
      }
      assert forall i :: 0 <= i < |scopes| ==> scopes[i] == if i < |front| then front[i] else c;
      assert forall i :: 0 <= i < |front| ==> front[i] == scopes[i];
    }
  }

  lemma {:induction false} TargetListed(s: Server, realm: string, cs: seq<FullClient>, i: nat)
    requires i < |cs| && cs[i].permissions.Some?
    ensures P.Target(Uuid(s, realm, cs[i]), cs[i].base.clientId, cs[i].permissions) in Targets(s, realm, cs)
    decreases |cs|
  {
    if i < |cs| - 1 {
      TargetListed(s, realm, cs[..|cs| - 1], i);
    }
  }

  predicate IsTargetOf(t: P.Target, c: FullClient) {
    c.base.clientId == t.clientId && c.permissions == t.scopes
  }

  predicate ComesFrom(t: P.Target, cs: seq<FullClient>) {
    exists n :: 0 <= n < |cs| && IsTargetOf(t, cs[n])
  }

  predicate AreTargets(ts: seq<P.Target>, cs: seq<FullClient>) {
    (forall i :: 0 <= i < |ts| ==> ComesFrom(ts[i], cs)) && forall i, j :: 0 <= i < j < |ts| ==>
      ts[i].clientId != ts[j].clientId
  }

  /** The targets are clients with permissions, each at most once. */
  lemma {:induction false} TargetsAreClients(s: Server, realm: string, cs: seq<FullClient>)
    requires DistinctClientIds(cs)
    ensures AreTargets(Targets(s, realm, cs), cs)
    decreases |cs|
  {
    if cs != [] {
      var front, last := cs[..|cs| - 1], cs[|cs| - 1];
      TargetsAreClients(s, realm, front);
      var ts, early := Targets(s, realm, cs), Targets(s, realm, front);
      forall i | 0 <= i < |ts| ensures ComesFrom(ts[i], cs) {
        if i < |early| {
          assert ts[i] == early[i] && ComesFrom(early[i], front);
          var n :| 0 <= n < |front| && IsTargetOf(ts[i], front[n]);
          assert IsTargetOf(ts[i], cs[n]);
        } else {
          assert IsTargetOf(ts[i], cs[|cs| - 1]);
        }
      }
      forall i, j | 0 <= i < j < |ts| ensures ts[i].clientId != ts[j].clientId {
        assert ts[i] == early[i] && ComesFrom(early[i], front);
        var n :| 0 <= n < |front| && IsTargetOf(ts[i], front[n]);
        assert front[n] == cs[n];
        if j < |early| {
          assert ts[j] == early[j];
        } else {
          assert ts[j].clientId == last.base.clientId;
        }
      }
    }
  }

}
