/** What a realm's config declares, what validation makes sure of (internal/config/config.go), and what it may name. */
module RealmConfigs {
  import opened GroupTrees
  import opened Lists
  import opened Reconcile
  import opened Text
  import opened Users
  import AuthFlows
  import C = ClientScopes
  import ConfigMaps
  import D = Directory
  import I = IdentityProviders
  import O = Organizations
  import P = ManagementPermissions

  datatype ScopeConfig = ScopeConfig(name: string, scopeType: C.ScopeType, scopeMappings: Option<Roles>)

  /** `flowOverrides` says which flow the client binds to for what. */
  datatype FullClient = FullClient(
    base: ClientConfig, flowOverrides: map<string, string>, defaultScopes: seq<string>, optionalScopes: seq<string>,
    serviceAccountRoles: Option<Roles>, scopeMappings: Option<Roles>, permissions: Option<map<string, seq<string>>>)

  datatype Realm = Realm(
    name: string, bindings: map<string, string>, scopes: seq<ScopeConfig>, clients: seq<FullClient>, roles: seq<string>,
    groups: seq<GroupConfig>, users: seq<UserConfig>, providers: seq<I.IdpConfig>, organizations: seq<O.Org>,
    createOnly: bool)

  /** What a realm has beside its directory: its authorization server, its providers and its organizations. */
  datatype Rest = Rest(authz: P.State, store: I.Store, orgs: O.State)

  // ---------- what validation makes sure of ----------

  predicate DistinctClientIds(cs: seq<FullClient>) {
    forall i, j :: 0 <= i < j < |cs| ==> cs[i].base.clientId != cs[j].base.clientId
  }

  predicate DistinctScopeNames(scopes: seq<ScopeConfig>) {
    forall i, j :: 0 <= i < j < |scopes| ==> scopes[i].name != scopes[j].name
  }

  predicate ClientAccepted(c: FullClient) {
    && Elements(c.defaultScopes) !! Elements(c.optionalScopes)
    && (c.serviceAccountRoles.Some? ==> c.base.serviceAccount)
  }

  /** The part of what validation makes sure of that a run relies on. */
  predicate Accepted(r: Realm) {
    && DistinctScopeNames(r.scopes) && (forall i :: 0 <= i < |r.scopes| ==> r.scopes[i].scopeType != C.Unknown)
    && DistinctClientIds(r.clients) && (forall i :: 0 <= i < |r.clients| ==> ClientAccepted(r.clients[i]))
    && DistinctUsernames(r.users) && I.DistinctAliases(r.providers)
    && O.DistinctNames(r.organizations) && O.ClaimsOk(r.organizations)
  }

  // ---------- what a config may name ----------

  // A config names what it declares itself or what the realm has already: `was` and `rest` are what the run finds.

  predicate RolesDeclared(r: Realm, was: D.Server, roles: Roles) {
    && (forall x :: x in roles.realm ==> RealmRoleDeclared(r, was, x))
    && forall e :: e in roles.clients ==> EntryDeclared(r, was, e)
  }

  predicate RealmRoleDeclared(r: Realm, was: D.Server, x: string) {
    x in r.roles || D.RealmRole(r.name, x) in was.objects
  }

  predicate EntryDeclared(r: Realm, was: D.Server, e: (string, seq<string>)) {
    forall x :: x in e.1 ==> ClientRoleDeclared(r, was, e.0, x)
  }

  predicate ClientRoleDeclared(r: Realm, was: D.Server, clientId: string, x: string) {
    || (exists i :: 0 <= i < |r.clients| && DeclaresRole(r.clients[i], clientId, x))
    || CameWithRole(r, was, clientId, x)
  }

  predicate DeclaresRole(c: FullClient, clientId: string, x: string) {
    c.base.clientId == clientId && x in c.base.roles
  }

  predicate CameWithRole(r: Realm, was: D.Server, clientId: string, x: string) {
    var k := D.Client(r.name, clientId);
    k in was.objects && D.ClientRole(r.name, was.objects[k], x) in was.objects
  }

  predicate GroupRolesDeclared(r: Realm, was: D.Server, gs: seq<GroupConfig>)
    decreases gs
  {
    forall i :: 0 <= i < |gs| ==>
      && RolesDeclared(r, was, Roles(gs[i].realmRoles, gs[i].clientRoles))
      && GroupRolesDeclared(r, was, gs[i].subGroups)
  }

  predicate OptionDeclared(r: Realm, was: D.Server, roles: Option<Roles>) {
    roles.Some? ==> RolesDeclared(r, was, roles.value)
  }

  /** The client has a service account by the time it is needed. A create-only strategy leaves a client the realm has
      already as it is, with or without one. */
  predicate HasAccount(r: Realm, was: D.Server, c: FullClient) {
    var k := D.Client(r.name, c.base.clientId);
    || (c.base.serviceAccount && (r.createOnly ==> k !in was.objects))
    || (k in was.objects && D.ServiceAccount(r.name, was.objects[k]) in was.objects)
  }

  predicate FlowsKnown(overrides: map<string, string>, flows: set<string>) {
    forall b :: b in overrides ==> overrides[b] in flows
  }

  predicate ClientRefers(r: Realm, was: D.Server, c: FullClient, flows: set<string>) {
    && FlowsKnown(c.flowOverrides, flows)
    && (c.serviceAccountRoles.Some? ==> HasAccount(r, was, c) && RolesDeclared(r, was, c.serviceAccountRoles.value))
    && OptionDeclared(r, was, c.scopeMappings)
  }

  predicate ClientDeclared(r: Realm, was: D.Server, clientId: string) {
    || (exists i :: 0 <= i < |r.clients| && r.clients[i].base.clientId == clientId)
    || D.Client(r.name, clientId) in was.objects
  }

  predicate ScopeOf(c: FullClient, scope: string) {
    c.permissions.Some? && scope in c.permissions.value
  }

  /** The scope is offered, its clients are there, and its policy's name is not another kind of policy's. */
  ghost predicate PermissionRefers(r: Realm, was: D.Server, z: P.State, c: FullClient, scope: string,
                                   offered: set<string>)
    requires ScopeOf(c, scope)
  {
    && scope in offered && P.NameFree(z, P.ManagementPolicyName(scope, c.base.clientId))
    && forall g :: g in c.permissions.value[scope] ==> ClientDeclared(r, was, g)
  }

  ghost predicate PermissionsRefer(r: Realm, was: D.Server, z: P.State, c: FullClient, offered: set<string>) {
    && (c.permissions.Some? ==> ClientDeclared(r, was, D.REALM_MANAGEMENT))
    && forall scope :: ScopeOf(c, scope) ==> PermissionRefers(r, was, z, c, scope, offered)
  }

  predicate ProviderDeclared(r: Realm, rest: Rest, alias: string) {
    (exists i :: 0 <= i < |r.providers| && r.providers[i].alias == alias) || alias in rest.store
  }

  /** Every provider claimed is there by then, and nobody else's. */
  ghost predicate ClaimsRefer(r: Realm, rest: Rest) {
    forall i, a :: 0 <= i < |r.organizations| && a in r.organizations[i].identityProviders ==>
      ProviderDeclared(r, rest, a) && !OwnedByAnother(rest.orgs, r.organizations[i].name, a)
  }

  ghost predicate OwnedByAnother(o: O.State, name: string, alias: string) {
    exists l :: l in o.links && l.alias == alias && (name !in o.orgs || l.org != o.orgs[name])
  }

  /** The config names only flows, clients, roles, permission scopes and providers that it declares or that are there
      already: whatever it takes for a run to go through. */
  ghost predicate Refers(r: Realm, was: D.Server, rest: Rest, flows: set<string>, offered: set<string>) {
    && FlowsKnown(AuthFlows.Configured(r.bindings), flows)
    && (forall i :: 0 <= i < |r.clients| ==>
          && ClientRefers(r, was, r.clients[i], flows)
          && PermissionsRefer(r, was, rest.authz, r.clients[i], offered))
    && (forall i :: 0 <= i < |r.scopes| ==> OptionDeclared(r, was, r.scopes[i].scopeMappings))
    && GroupRolesDeclared(r, was, r.groups)
    && (forall i :: 0 <= i < |r.users| ==> OptionDeclared(r, was, r.users[i].roles))
    && ClaimsRefer(r, rest)
  }

  predicate ScopeDeclared(r: Realm, was: D.Server, name: string) {
    || (exists i :: 0 <= i < |r.scopes| && r.scopes[i].name == name)
    || D.ClientScope(r.name, name) in was.objects
  }

  predicate UserDeclared(r: Realm, was: D.Server, username: string) {
    || (exists i :: 0 <= i < |r.users| && r.users[i].username == username)
    || D.User(r.name, username) in was.objects
  }

  /** The path leads to a group the config declares, or to one that was there. */
  predicate PathDeclared(r: Realm, was: D.Server, path: string) {
    Leads(r.groups, ConfigMaps.PathNames(path)) || GroupAt(was, r.name, path).Some?
  }

  // ---------- permissions that share a policy ----------

  /** Two configured scopes whose grants end in one policy are granted to the same clients. */
  predicate PairCoheres(c: FullClient, scope1: string, d: FullClient, scope2: string) {
    ScopeOf(c, scope1) && ScopeOf(d, scope2)
    && P.ManagementPolicyName(scope1, c.base.clientId) == P.ManagementPolicyName(scope2, d.base.clientId) ==>
      Elements(c.permissions.value[scope1]) == Elements(d.permissions.value[scope2])
  }

  ghost predicate PermissionsCohere(cs: seq<FullClient>) {
    forall i, j, scope1, scope2 :: 0 <= i < |cs| && 0 <= j < |cs| ==> PairCoheres(cs[i], scope1, cs[j], scope2)
  }

  /** Scope names without dots, as the server's own are, are enough. */
  lemma DotFreeCoheres(cs: seq<FullClient>)
    requires DistinctClientIds(cs)
    requires forall i, scope :: 0 <= i < |cs| && ScopeOf(cs[i], scope) ==> '.' !in scope
    ensures PermissionsCohere(cs)
  {
    forall i, j, scope1, scope2 | 0 <= i < |cs| && 0 <= j < |cs| ensures PairCoheres(cs[i], scope1, cs[j], scope2) {
      if ScopeOf(cs[i], scope1) && ScopeOf(cs[j], scope2)
         && P.ManagementPolicyName(scope1, cs[i].base.clientId) == P.ManagementPolicyName(scope2, cs[j].base.clientId) {
        P.PolicyNameInjective(scope1, cs[i].base.clientId, scope2, cs[j].base.clientId);
      }
    }
  }
}
