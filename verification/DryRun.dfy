/** The dry-run adapter (internal/provisioner/dryrun.go): a recording layer whose bookkeeping maps answer reads as if
    the skipped writes had happened. `Directory` and `Bookkeeping` say what that should look like; this class does
    it. */
module DryRun {
  import opened Text
  import opened Ids
  import opened Directory
  import opened Bookkeeping
  import opened ConfigMaps

  /** One row of a listing. */
  datatype Row = Row(id: Id, name: string)

  datatype Permissions = Permissions(enabled: bool, resource: Id, scopes: map<string, Id>)

  datatype Permission = Permission(strategy: string, policies: seq<Id>)

  /** What the wrapped port shows, beside its directory: listings per realm, and what is read by id. */
  datatype Remote = Remote(
    server: Server, scopes: map<string, seq<Row>>, flows: map<string, seq<Row>>,
    executions: map<(string, string), seq<string>>, members: map<(string, Id), seq<Row>>,
    providers: map<string, seq<Row>>, permissions: map<(string, Id), Permissions>,
    policies: map<(string, Id, string), seq<PolicyRep>>, scopePermissions: map<(string, Id, Id), Permission>,
    mappers: map<(string, string, Id), seq<Row>>, realmScopes: map<(string, string), seq<Row>>,
    assignments: map<(string, Id, string), seq<Row>>, organizations: map<string, seq<Row>>,
    organizationReps: map<(string, Id), string>, organizationGroups: map<(string, Id, Id), seq<Row>>,
    groupMembers: map<(string, Id, Id), seq<Row>>, organizationProviders: map<(string, Id), seq<string>>,
    providerMappers: map<(string, string), seq<Row>>, credentials: map<(string, Id), seq<Row>>)

  const DISABLED := Permissions(false, "", map[])
  const UNTOUCHED := Permission("UNANIMOUS", [])

  function Rows<K, V>(m: map<K, seq<V>>, k: K): seq<V> {
    if k in m then m[k] else []
  }

  function Found<K, V>(m: map<K, V>, k: K): Option<V> {
    if k in m then Some(m[k]) else None
  }

  /** The wrapped port. It offers reads alone here, and asks of its callers that every id is one a server could have
      issued. */
  class Inner {
    const remote: Remote

    constructor (remote: Remote)
      ensures this.remote == remote
    {
      this.remote := remote;
    }

    method Get(k: Key) returns (found: Option<Id>)
      requires !IsSyntheticID(Container(k))
      ensures found == Lookup(remote.server, k)
    {
      found := Lookup(remote.server, k);
    }

    method RealmExists(realm: string) returns (found: bool)
      ensures found <==> realm in remote.server.realms
    {
      found := realm in remote.server.realms;
    }

    method GetMappings(m: Mapping) returns (mapped: set<string>)
      requires !IsSyntheticID(m.holder) && !IsSyntheticID(m.client)
      ensures mapped == Mapped(remote.server, m)
    {
      mapped := Mapped(remote.server, m);
    }

    method GetUserGroups(realm: string, user: Id) returns (paths: set<string>)
      requires !IsSyntheticID(user)
      ensures paths == GroupPathsOf(Api(remote.server, None, []), realm, user)
    {
      paths := set m | m in remote.server.memberships && m.user == user :: PathText(PathOf(remote.server, m.group));
    }

    method GetClientScopes(realm: string) returns (rows: seq<Row>)
      ensures rows == Rows(remote.scopes, realm)
    {
      rows := Rows(remote.scopes, realm);
    }

    method GetAuthenticationFlows(realm: string) returns (rows: seq<Row>)
      ensures rows == Rows(remote.flows, realm)
    {
      rows := Rows(remote.flows, realm);
    }

    /** Fails for a flow the server does not have. */
    method GetAuthenticationFlowExecutions(realm: string, alias: string) returns (rows: Option<seq<string>>)
      ensures rows == if (realm, alias) in remote.executions then Some(remote.executions[(realm, alias)]) else None
    {
      rows := if (realm, alias) in remote.executions then Some(remote.executions[(realm, alias)]) else None;
    }

    method GetOrganizationMembers(realm: string, org: Id) returns (rows: seq<Row>)
      requires !IsSyntheticID(org)
      ensures rows == Rows(remote.members, (realm, org))
    {
      rows := Rows(remote.members, (realm, org));
    }

    method GetIdentityProviders(realm: string) returns (rows: seq<Row>)
      ensures rows == Rows(remote.providers, realm)
    {
      rows := Rows(remote.providers, realm);
    }

    method GetProtocolMappers(realm: string, container: string, containerId: Id) returns (rows: seq<Row>)
      requires !IsSyntheticID(containerId)
      ensures rows == Rows(remote.mappers, (realm, container, containerId))
    {
      rows := Rows(remote.mappers, (realm, container, containerId));
    }

    method GetRealmClientScopes(realm: string, kind: string) returns (rows: seq<Row>)
      ensures rows == Rows(remote.realmScopes, (realm, kind))
    {
      rows := Rows(remote.realmScopes, (realm, kind));
    }

    method GetClientScopeAssignments(realm: string, client: Id, kind: string) returns (rows: seq<Row>)
      requires !IsSyntheticID(client)
      ensures rows == Rows(remote.assignments, (realm, client, kind))
    {
      rows := Rows(remote.assignments, (realm, client, kind));
    }

    method GetOrganizations(realm: string) returns (rows: seq<Row>)
      ensures rows == Rows(remote.organizations, realm)
    {
      rows := Rows(remote.organizations, realm);
    }

    method GetOrganizationGroups(realm: string, org: Id, parent: Id) returns (rows: seq<Row>)
      requires !IsSyntheticID(org) && !IsSyntheticID(parent)
      ensures rows == Rows(remote.organizationGroups, (realm, org, parent))
    {
      rows := Rows(remote.organizationGroups, (realm, org, parent));
    }

    method GetOrganizationGroupMembers(realm: string, org: Id, group: Id) returns (rows: seq<Row>)
      requires !IsSyntheticID(org) && !IsSyntheticID(group)
      ensures rows == Rows(remote.groupMembers, (realm, org, group))
    {
      rows := Rows(remote.groupMembers, (realm, org, group));
    }

    method GetOrganizationIdentityProviders(realm: string, org: Id) returns (rows: seq<string>)
      requires !IsSyntheticID(org)
      ensures rows == Rows(remote.organizationProviders, (realm, org))
    {
      rows := Rows(remote.organizationProviders, (realm, org));
    }

    method GetUserCredentials(realm: string, user: Id) returns (rows: seq<Row>)
      requires !IsSyntheticID(user)
      ensures rows == Rows(remote.credentials, (realm, user))
    {
      rows := Rows(remote.credentials, (realm, user));
    }

    method GetOrganization(realm: string, org: Id) returns (found: Option<string>)
      requires !IsSyntheticID(org)
      ensures found == Found(remote.organizationReps, (realm, org))
    {
      found := Found(remote.organizationReps, (realm, org));
    }

    method GetIdentityProviderMappers(realm: string, alias: string) returns (rows: seq<Row>)
      ensures rows == Rows(remote.providerMappers, (realm, alias))
    {
      rows := Rows(remote.providerMappers, (realm, alias));
    }

    method GetClientManagementPermissions(realm: string, client: Id) returns (p: Permissions)
      requires !IsSyntheticID(client)
      ensures p == if (realm, client) in remote.permissions then remote.permissions[(realm, client)] else DISABLED
    {
      p := if (realm, client) in remote.permissions then remote.permissions[(realm, client)] else DISABLED;
    }

    method GetAuthzClientPolicies(realm: string, resourceServer: Id, name: string) returns (rows: seq<PolicyRep>)
      requires !IsSyntheticID(resourceServer)
      ensures rows == Rows(remote.policies, (realm, resourceServer, name))
    {
      rows := Rows(remote.policies, (realm, resourceServer, name));
    }

    method GetAuthzScopePermission(realm: string, resourceServer: Id, permission: Id) returns (p: Permission)
      requires !IsSyntheticID(resourceServer) && !IsSyntheticID(permission)
      ensures p == PermissionAt(remote, realm, resourceServer, permission)
    {
      p := PermissionAt(remote, realm, resourceServer, permission);
    }
  }

  function PermissionAt(remote: Remote, realm: string, resourceServer: Id, permission: Id): Permission {
    var at := (realm, resourceServer, permission);
    if at in remote.scopePermissions then remote.scopePermissions[at] else UNTOUCHED
  }

  // ---------- each map, and the part of the directory it holds ----------

  ghost predicate HoldsClients(c: map<Key, Id>, m: map<(string, string), Id>) {
    forall r, n :: (Client(r, n) in c <==> (r, n) in m) && ((r, n) in m ==> c[Client(r, n)] == m[(r, n)])
  }

  ghost predicate HoldsServiceAccounts(c: map<Key, Id>, m: map<(string, Id), Id>) {
    forall r, n :: (ServiceAccount(r, n) in c <==> (r, n) in m) &&
      ((r, n) in m ==> c[ServiceAccount(r, n)] == m[(r, n)])
  }

  ghost predicate HoldsRealmRoles(c: map<Key, Id>, m: map<(string, string), Id>) {
    forall r, n :: (RealmRole(r, n) in c <==> (r, n) in m) && ((r, n) in m ==> c[RealmRole(r, n)] == m[(r, n)])
  }

  ghost predicate HoldsClientRoles(c: map<Key, Id>, m: map<(string, Id, string), Id>) {
    forall r, p, n :: (ClientRole(r, p, n) in c <==> (r, p, n) in m) &&
      ((r, p, n) in m ==> c[ClientRole(r, p, n)] == m[(r, p, n)])
  }

  ghost predicate HoldsScopes(c: map<Key, Id>, m: map<(string, string), Id>) {
    forall r, n :: (ClientScope(r, n) in c <==> (r, n) in m) && ((r, n) in m ==> c[ClientScope(r, n)] == m[(r, n)])
  }

  ghost predicate HoldsGroups(c: map<Key, Id>, m: map<(string, Id, string), Id>) {
    forall r, p, n :: (Directory.Group(r, p, n) in c <==> (r, p, n) in m) &&
      ((r, p, n) in m ==> c[Directory.Group(r, p, n)] == m[(r, p, n)])
  }

  ghost predicate HoldsUsers(c: map<Key, Id>, m: map<(string, string), Id>) {
    forall r, n :: (User(r, n) in c <==> (r, n) in m) && ((r, n) in m ==> c[User(r, n)] == m[(r, n)])
  }

  lemma MoreClients(c: map<Key, Id>, m: map<(string, string), Id>, k: Key, id: Id)
    requires HoldsClients(c, m)
    ensures HoldsClients(c[k := id], if k.Client? then m[(k.realm, k.clientId) := id] else m)
  {}

  lemma MoreServiceAccounts(c: map<Key, Id>, m: map<(string, Id), Id>, k: Key, id: Id)
    requires HoldsServiceAccounts(c, m)
    ensures HoldsServiceAccounts(c[k := id], if k.ServiceAccount? then m[(k.realm, k.client) := id] else m)
  {}

  lemma MoreRealmRoles(c: map<Key, Id>, m: map<(string, string), Id>, k: Key, id: Id)
    requires HoldsRealmRoles(c, m)
    ensures HoldsRealmRoles(c[k := id], if k.RealmRole? then m[(k.realm, k.name) := id] else m)
  {}

  lemma MoreClientRoles(c: map<Key, Id>, m: map<(string, Id, string), Id>, k: Key, id: Id)
    requires HoldsClientRoles(c, m)
    ensures HoldsClientRoles(c[k := id], if k.ClientRole? then m[(k.realm, k.client, k.name) := id] else m)
  {}

  lemma MoreScopes(c: map<Key, Id>, m: map<(string, string), Id>, k: Key, id: Id)
    requires HoldsScopes(c, m)
    ensures HoldsScopes(c[k := id], if k.ClientScope? then m[(k.realm, k.name) := id] else m)
  {}

  lemma MoreGroups(c: map<Key, Id>, m: map<(string, Id, string), Id>, k: Key, id: Id)
    requires HoldsGroups(c, m)
    ensures HoldsGroups(c[k := id], if k.Group? then m[(k.realm, k.parent, k.name) := id] else m)
  {}

  lemma MoreUsers(c: map<Key, Id>, m: map<(string, string), Id>, k: Key, id: Id)
    requires HoldsUsers(c, m)
    ensures HoldsUsers(c[k := id], if k.User? then m[(k.realm, k.username) := id] else m)
  {}

  // ---------- what a listing shows ----------

  /** What a map holds for one realm, in order of names. */
  ghost function Synthetic(m: map<(string, string), string>, realm: string): seq<Row> {
    RowsNamed(m, realm, SortedListing(NamesOf(m, realm)))
  }

  function NamesOf(m: map<(string, string), string>, realm: string): set<string> {
    set k | k in m && k.0 == realm :: k.1
  }

  function RowsNamed(m: map<(string, string), string>, realm: string, names: seq<string>): (rows: seq<Row>)
    requires forall n :: n in names ==> (realm, n) in m
    ensures |rows| == |names|
    ensures forall i :: 0 <= i < |names| ==> rows[i] == Row(m[(realm, names[i])], names[i])
  {
    seq(|names|, i requires 0 <= i < |names| => Row(m[(realm, names[i])], names[i]))
  }

  /** The real rows of a realm that is there, then the pretended ones. */
  ghost function Overlaid(s: State, rows: seq<Row>, m: map<(string, string), string>, realm: string): seq<Row>
    requires s.api.overlay.Some?
  {
    (if realm in s.api.overlay.value.realms then [] else rows) + Synthetic(m, realm)
  }

  /** Users of this run that this run has put into the organization. A username belongs to one user of the realm, so
      the order is fixed. */
  ghost function NewMembers(s: State, realm: string, org: Id): set<string>
    requires s.api.overlay.Some?
  {
    var c := s.api.overlay.value.created;
    set k | k in c && k.User? && k.realm == realm && (realm, org, c[k]) in s.orgMembers :: k.username
  }

  /** What this run has created of one realm, by name, so that reports do not depend on map order. */
  method SyntheticRows(m: map<(string, string), string>, realm: string) returns (rows: seq<Row>)
    ensures rows == Synthetic(m, realm)
    ensures forall n :: (realm, n) in m ==> Row(m[(realm, n)], n) in rows
  {
    var names: set<string>, rest := {}, m.Keys;
    while rest != {}
      invariant rest <= m.Keys && forall n :: n in names <==> (realm, n) in m.Keys - rest
      decreases rest
    {
      var k :| k in rest;
      names, rest := if k.0 == realm then names + {k.1} else names, rest - {k};
    }
    var sorted := SortedKeys(names);
    assert names == NamesOf(m, realm);
    SortedListingIsUnique(sorted, SortedListing(names), names);
    rows := RowsNamed(m, realm, sorted);
    forall n | (realm, n) in m ensures Row(m[(realm, n)], n) in rows {
      var i :| 0 <= i < |sorted| && sorted[i] == n;
      assert rows[i] == Row(m[(realm, n)], n);
    }
  }

  /** Usernames by id; no two users share one. */
  method ById(users: map<(string, string), Id>, realm: string) returns (byId: map<Id, string>)
    requires forall k, j :: k in users && j in users && users[k] == users[j] ==> k == j
    ensures forall n :: (realm, n) in users ==> users[(realm, n)] in byId && byId[users[(realm, n)]] == n
    ensures forall id :: id in byId ==> (realm, byId[id]) in users && users[(realm, byId[id])] == id
  {
    byId := map[];
    var rest := users.Keys;
    while rest != {}
      invariant rest <= users.Keys
      invariant forall n :: (realm, n) in users.Keys - rest ==>
                  users[(realm, n)] in byId && byId[users[(realm, n)]] == n
      invariant forall id :: id in byId ==> (realm, byId[id]) in users && users[(realm, byId[id])] == id
      decreases rest
    {
      var k :| k in rest;
      byId, rest := if k.0 == realm then byId[users[k] := k.1] else byId, rest - {k};
    }
  }

  /** Which of an organization's new members can be named. */
  method NamesOfMembers(members: set<(string, Id, Id)>, realm: string, org: Id, byId: map<Id, string>,
                        ghost users: map<(string, string), Id>)
    returns (names: set<string>)
    requires forall n :: (realm, n) in users ==> users[(realm, n)] in byId && byId[users[(realm, n)]] == n
    requires forall id :: id in byId ==> (realm, byId[id]) in users && users[(realm, byId[id])] == id
    ensures forall n :: n in names <==> (realm, n) in users && (realm, org, users[(realm, n)]) in members
  {
    names := {};
    var rest := members;
    while rest != {}
      invariant rest <= members
      invariant forall n :: n in names <==> (realm, n) in users && (realm, org, users[(realm, n)]) in members - rest
      decreases rest
    {
      var m :| m in rest;
      if m.0 == realm && m.1 == org && m.2 in byId {
        names := names + {byId[m.2]};
      }
      rest := rest - {m};
    }
  }

  /** There is nothing to read about these: this run has made up the realm, or one of the ids. */
  predicate ShortCircuits(s: State, realm: string, ids: set<Id>)
    requires s.api.overlay.Some?
  {
    realm in s.api.overlay.value.realms || exists id :: id in ids && IsSyntheticID(id)
  }

  function ExecutionsSeen(s: State, remote: Remote, realm: string, alias: string): Option<seq<string>>
    requires s.api.overlay.Some?
  {
    if realm in s.api.overlay.value.realms || (realm, alias) in s.flows then Some([])
    else if (realm, alias) in remote.executions then Some(remote.executions[(realm, alias)])
    else None
  }

  function PermissionsSeen(s: State, remote: Remote, realm: string, client: Id): Permissions
    requires s.api.overlay.Some?
  {
    if realm in s.api.overlay.value.realms || IsSyntheticID(client) then DISABLED
    else if (realm, client) in remote.permissions then remote.permissions[(realm, client)]
    else DISABLED
  }

  function PoliciesSeen(s: State, remote: Remote, realm: string, resourceServer: Id, name: string): seq<PolicyRep>
    requires s.api.overlay.Some?
  {
    if (realm, resourceServer, name) in s.policies then [s.policies[(realm, resourceServer, name)]]
    else if realm in s.api.overlay.value.realms || IsSyntheticID(resourceServer) then []
    else Rows(remote.policies, (realm, resourceServer, name))
  }

  function PermissionSeen(s: State, remote: Remote, realm: string, resourceServer: Id, permission: Id): Permission
    requires s.api.overlay.Some?
  {
    if realm in s.api.overlay.value.realms || IsSyntheticID(resourceServer) || IsSyntheticID(permission) then UNTOUCHED
    else PermissionAt(remote, realm, resourceServer, permission)
  }

  /** The first `n` scopes have the ids handed out from `start` on. */
  ghost predicate Matches(scopes: map<string, Id>, issued: seq<Id>, start: nat, n: nat)
    requires n <= |MANAGEMENT_SCOPES| && start + n <= |issued|
  {
    && (forall scope :: scope in scopes <==> scope in MANAGEMENT_SCOPES[..n])
    && forall i :: 0 <= i < n ==> MANAGEMENT_SCOPES[i] in scopes && scopes[MANAGEMENT_SCOPES[i]] == issued[start + i]
  }

  lemma ManagementScopesDiffer()
    ensures forall i, j :: 0 <= i < j < |MANAGEMENT_SCOPES| ==> MANAGEMENT_SCOPES[i] != MANAGEMENT_SCOPES[j]
  {
    assert forall i :: 0 <= i < 7 ==> |MANAGEMENT_SCOPES[i]| == [4, 6, 9, 9, 22, 19, 14][i];
    assert MANAGEMENT_SCOPES[2][0] == 'c' && MANAGEMENT_SCOPES[3][0] == 'm';
  }

  lemma NothingMatches(issued: seq<Id>)
    ensures Matches(map[], issued, |issued|, 0)
  {}

  lemma OneMoreMatches(scopes: map<string, Id>, issued: seq<Id>, start: nat, n: nat)
    requires n < |MANAGEMENT_SCOPES| && start + n + 1 == |issued| && Matches(scopes, issued[..start + n], start, n)
    requires forall i, j :: 0 <= i < j < |MANAGEMENT_SCOPES| ==> MANAGEMENT_SCOPES[i] != MANAGEMENT_SCOPES[j]
    ensures Matches(scopes[MANAGEMENT_SCOPES[n] := issued[start + n]], issued, start, n + 1)
  {
    assert MANAGEMENT_SCOPES[..n + 1] == MANAGEMENT_SCOPES[..n] + [MANAGEMENT_SCOPES[n]];
  }

  /** Ids handed out one after another, and the one after them, are all new and all different. */
  lemma IssuedMatches(s: State, scopes: map<string, Id>, start: nat)
    requires Bookkeeping.Valid(s) && |s.issued| == start + |MANAGEMENT_SCOPES| + 1
    requires Matches(scopes, s.issued[..start + |MANAGEMENT_SCOPES|], start, |MANAGEMENT_SCOPES|)
    ensures
      var resource := s.issued[|s.issued| - 1];
      && resource !in s.issued[..start]
      && (forall scope :: scope in scopes <==> scope in MANAGEMENT_SCOPES)
      && (forall scope :: scope in scopes ==>
            scopes[scope] !in s.issued[..start] + [resource] && scopes[scope] in s.issued)
      && forall a, b :: a in scopes && b in scopes && scopes[a] == scopes[b] ==> a == b
  {
    hide IssuedOk, CreatedOk, OthersOk;
    IssuedApart(s.issued);
    assert MANAGEMENT_SCOPES[..|MANAGEMENT_SCOPES|] == MANAGEMENT_SCOPES;
    forall scope | scope in scopes
      ensures exists i :: 0 <= i < |MANAGEMENT_SCOPES| && MANAGEMENT_SCOPES[i] == scope &&
                scopes[scope] == s.issued[start + i]
    {
      var i :| 0 <= i < |MANAGEMENT_SCOPES| && MANAGEMENT_SCOPES[i] == scope;
      assert scopes[scope] == s.issued[start + i];
    }
  }

  class DryRunAdapter {
    const inner: Inner
    var seqNo: nat
    var createdRealms: set<string>
    var createdClients: map<(string, string), Id>
    var createdSA: map<(string, Id), Id>
    var createdRealmRoles: map<(string, string), Id>
    var createdClientRoles: map<(string, Id, string), Id>
    var createdGroups: map<(string, Id, string), Id>
    var createdScopes: map<(string, string), Id>
    var createdFlows: map<(string, string), Id>
    var createdUsers: map<(string, string), Id>
    var createdOrgMembers: set<(string, Id, Id)>
    var createdIdPs: map<(string, string), string>
    var createdPolicies: map<(string, Id, string), PolicyRep>
    var log: seq<Write>
    var reports: seq<Report>
    ghost var books: State

    constructor (inner: Inner)
      ensures Valid() && this.inner == inner && books == Begun(inner.remote.server)
    {
      this.inner, seqNo, createdRealms := inner, 0, {};
      createdClients, createdSA, createdRealmRoles, createdClientRoles, createdGroups, createdScopes, createdUsers :=
        map[], map[], map[], map[], map[], map[], map[];
      createdFlows, createdOrgMembers, createdIdPs, createdPolicies := map[], {}, map[], map[];
      log, reports := [], [];
      books := Begun(inner.remote.server);
      new;
      BegunIsValid(inner.remote.server);
    }

    /** The maps, taken together, are the books. */
    ghost predicate Represents()
      reads this
    {
      && books.api == Api(inner.remote.server, books.api.overlay, log) && books.api.overlay.Some?
      && HoldsDirectory(books.api.overlay.value)
      && createdFlows == books.flows && createdOrgMembers == books.orgMembers && createdIdPs == books.providers
      && createdPolicies == books.policies && reports == books.reports
    }

    ghost predicate HoldsDirectory(o: Overlay)
      reads this`seqNo, this`createdRealms, this`createdClients, this`createdSA, this`createdRealmRoles,
        this`createdClientRoles, this`createdGroups, this`createdScopes, this`createdUsers
    {
      && o.realms == createdRealms && o.seqNo == seqNo
      && HoldsClients(o.created, createdClients) && HoldsServiceAccounts(o.created, createdSA)
      && HoldsRealmRoles(o.created, createdRealmRoles) && HoldsClientRoles(o.created, createdClientRoles)
      && HoldsGroups(o.created, createdGroups) && HoldsScopes(o.created, createdScopes)
      && HoldsUsers(o.created, createdUsers)
    }

    /** The maps are the books, and the books are in order: `Bookkeeping.Valid`. */
    ghost predicate Valid()
      reads this
    {
      Bookkeeping.Valid(books) && Represents()
    }

    /** A new id, unlike any handed out before. */
    method NewID(kind: string) returns (id: Id)
      requires Valid()
      modifies this`seqNo, this`books
      ensures Valid() && seqNo == old(seqNo) + 1 == |old(books.issued)| + 1 && id == NewId(kind, seqNo)
      ensures IsSyntheticID(id) && id !in old(books.issued)
      ensures books == old(books).(api := Skip(old(books.api), 1), issued := old(books.issued) + [id])
    {
      hide NewId, IssuedOk, CreatedOk, OthersOk, HoldsClients, HoldsServiceAccounts, HoldsRealmRoles, HoldsClientRoles,
          HoldsGroups, HoldsScopes, HoldsUsers;
      OneMoreId(books, kind);
      seqNo := seqNo + 1;
      id := NewId(kind, seqNo);
      books := books.(api := Skip(books.api, 1), issued := books.issued + [id]);
    }

    /** What the maps become when something is recorded under `k`. */
    lemma Recording(k: Key)
      requires Represents()
      ensures
        var o, id := books.api.overlay.value, NewId(Kind(k), books.api.overlay.value.seqNo + 1);
        var c := o.created[k := id];
        && Pretend(o, k) == o.(created := c, seqNo := o.seqNo + 1)
        && HoldsClients(c, if k.Client? then createdClients[(k.realm, k.clientId) := id] else createdClients)
        && HoldsServiceAccounts(c, if k.ServiceAccount? then createdSA[(k.realm, k.client) := id] else createdSA)
        && HoldsRealmRoles(c, if k.RealmRole? then createdRealmRoles[(k.realm, k.name) := id] else createdRealmRoles)
        && HoldsClientRoles(c, if k.ClientRole? then createdClientRoles[(k.realm, k.client, k.name) := id]
            else createdClientRoles)
        && HoldsGroups(c, if k.Group? then createdGroups[(k.realm, k.parent, k.name) := id] else createdGroups)
        && HoldsScopes(c, if k.ClientScope? then createdScopes[(k.realm, k.name) := id] else createdScopes)
        && HoldsUsers(c, if k.User? then createdUsers[(k.realm, k.username) := id] else createdUsers)
    {
      var c, id := books.api.overlay.value.created, NewId(Kind(k), books.api.overlay.value.seqNo + 1);
      hide NewId, HoldsClients, HoldsServiceAccounts, HoldsRealmRoles, HoldsClientRoles, HoldsGroups, HoldsScopes,
          HoldsUsers;
      MoreClients(c, createdClients, k, id);
      MoreServiceAccounts(c, createdSA, k, id);
      MoreRealmRoles(c, createdRealmRoles, k, id);
      MoreClientRoles(c, createdClientRoles, k, id);
      MoreGroups(c, createdGroups, k, id);
      MoreScopes(c, createdScopes, k, id);
      MoreUsers(c, createdUsers, k, id);
    }

    lemma ClientsAreHeld(realm: string, clientId: string)
      requires Represents()
      ensures (realm, clientId) in createdClients <==> Client(realm, clientId) in books.api.overlay.value.created
    {}

    lemma ServiceAccountsAreHeld(realm: string, client: Id)
      requires Represents()
      ensures (realm, client) in createdSA <==> ServiceAccount(realm, client) in books.api.overlay.value.created
    {}

    // ---------- realms ----------

    method RealmIsListed(realm: string) returns (found: bool)
      requires Valid()
      ensures found == RealmExists(books.api, realm)
    {
      found := inner.RealmExists(realm);
    }

    method CreateRealm(realm: string)
      requires Valid()
      modifies this`createdRealms, this`log, this`books
      ensures Valid() && books == After(old(books), MakesRealm(realm))
    {
      hide Bookkeeping.Valid, Bookkeeping.Follows,
          HoldsClients, HoldsServiceAccounts, HoldsRealmRoles, HoldsClientRoles, HoldsGroups,
          HoldsScopes, HoldsUsers;
      OneCall(books, MakesRealm(realm));
      createdRealms, log := createdRealms + {realm}, log + [CreatesRealm(realm)];
      books := After(books, MakesRealm(realm));
    }

    // ---------- clients ----------

    method GetClients(realm: string, clientId: string) returns (found: Option<Id>)
      requires Valid()
      modifies this`seqNo, this`createdClients, this`books
      ensures Valid() && books == After(old(books), AsksClient(realm, clientId))
      ensures found == FindClient(old(books.api), realm, clientId).1
    {
      hide Bookkeeping.Valid, Bookkeeping.Follows,
          HoldsServiceAccounts, HoldsRealmRoles, HoldsClientRoles, HoldsGroups, HoldsScopes,
          HoldsUsers, After, FindClient;
      AsksClientIs(books, realm, clientId);
      if (realm, clientId) in createdClients {
        return Some(createdClients[(realm, clientId)]);
      }
      if realm in createdRealms {
        if clientId == REALM_MANAGEMENT {
          var id := SyntheticRealmManagement(realm);
          return Some(id);
        }
        return None;
      }
      NoContainer(Client(realm, clientId));
      found := inner.Get(Client(realm, clientId));
    }

    /** Made up once, so that lookups of one run agree. */
    method SyntheticRealmManagement(realm: string) returns (id: Id)
      requires Valid() && realm in createdRealms
      modifies this`seqNo, this`createdClients, this`books
      ensures Valid() && books == After(old(books), AsksClient(realm, REALM_MANAGEMENT))
      ensures Some(id) == FindClient(old(books.api), realm, REALM_MANAGEMENT).1
    {
      if (realm, REALM_MANAGEMENT) in createdClients {
        AsksClientIs(books, realm, REALM_MANAGEMENT);
        return createdClients[(realm, REALM_MANAGEMENT)];
      }
      id := MakeUpRealmManagement(realm);
    }

    method MakeUpRealmManagement(realm: string) returns (id: Id)
      requires Valid() && realm in createdRealms && (realm, REALM_MANAGEMENT) !in createdClients
      modifies this`seqNo, this`createdClients, this`books
      ensures Valid() && books == After(old(books), AsksClient(realm, REALM_MANAGEMENT))
      ensures Some(id) == FindClient(old(books.api), realm, REALM_MANAGEMENT).1
    {
      hide Bookkeeping.Valid, Bookkeeping.Follows,
          NewId, HoldsClients, HoldsServiceAccounts, HoldsRealmRoles, HoldsClientRoles, HoldsGroups,
          HoldsScopes, HoldsUsers, After, FindClient;
      ClientsAreHeld(realm, REALM_MANAGEMENT);
      AsksClientIs(books, realm, REALM_MANAGEMENT);
      OneCall(books, AsksClient(realm, REALM_MANAGEMENT));
      Recording(Client(realm, REALM_MANAGEMENT));
      id := NewID("client");
      createdClients := createdClients[(realm, REALM_MANAGEMENT) := id];
      books := After(old(books), AsksClient(realm, REALM_MANAGEMENT));
    }

    method CreateClient(realm: string, clientId: string, serviceAccount: bool) returns (id: Id)
      requires Valid()
      modifies this`seqNo, this`createdClients, this`log, this`books
      ensures Valid() && books == After(old(books), Makes(Client(realm, clientId), serviceAccount))
      ensures Some(id) == Create(old(books.api), Client(realm, clientId), serviceAccount).1
    {
      hide Bookkeeping.Valid, Bookkeeping.Follows,
          NewId, HoldsClients, HoldsServiceAccounts, HoldsRealmRoles, HoldsClientRoles, HoldsGroups,
          HoldsScopes, HoldsUsers, After, Create;
      ghost var k := Client(realm, clientId);
      Recording(k);
      MakesIs(books, k, serviceAccount);
      OneCall(books, Makes(k, serviceAccount));
      id := NewID("client");
      createdClients, log, books := createdClients[(realm, clientId) := id],
        log + [Creates(Client(realm, clientId))], After(old(books), Makes(k, serviceAccount));
    }

    // ---------- roles ----------

    method GetRealmRole(realm: string, name: string) returns (found: Option<Id>)
      requires Valid()
      ensures found == Peek(books.api, RealmRole(realm, name))
    {
      if (realm, name) in createdRealmRoles {
        return Some(createdRealmRoles[(realm, name)]);
      }
      NoContainer(RealmRole(realm, name));
      if realm in createdRealms {
        return None;
      }
      found := inner.Get(RealmRole(realm, name));
    }

    method CreateRealmRole(realm: string, name: string)
      requires Valid()
      modifies this`seqNo, this`createdRealmRoles, this`log, this`books
      ensures Valid() && books == After(old(books), Makes(RealmRole(realm, name), false))
    {
      hide Bookkeeping.Valid, Bookkeeping.Follows,
          NewId, HoldsClients, HoldsServiceAccounts, HoldsRealmRoles, HoldsClientRoles, HoldsGroups,
          HoldsScopes, HoldsUsers, After, Create;
      ghost var k := RealmRole(realm, name);
      Recording(k);
      MakesIs(books, k, false);
      OneCall(books, Makes(k, false));
      var id := NewID("realm-role");
      createdRealmRoles, log, books := createdRealmRoles[(realm, name) := id],
        log + [Creates(RealmRole(realm, name))], After(old(books), Makes(k, false));
    }

    method GetClientRole(realm: string, client: Id, name: string) returns (found: Option<Id>)
      requires Valid()
      ensures found == Peek(books.api, ClientRole(realm, client, name))
    {
      if (realm, client, name) in createdClientRoles {
        return Some(createdClientRoles[(realm, client, name)]);
      }
      if IsSyntheticID(client) || realm in createdRealms {
        return None;
      }
      found := inner.Get(ClientRole(realm, client, name));
    }

    method CreateClientRole(realm: string, client: Id, name: string)
      requires Valid()
      modifies this`seqNo, this`createdClientRoles, this`log, this`books
      ensures Valid() && books == After(old(books), Makes(ClientRole(realm, client, name), false))
    {
      hide Bookkeeping.Valid, Bookkeeping.Follows,
          NewId, HoldsClients, HoldsServiceAccounts, HoldsRealmRoles, HoldsClientRoles, HoldsGroups,
          HoldsScopes, HoldsUsers, After, Create;
      ghost var k := ClientRole(realm, client, name);
      Recording(k);
      MakesIs(books, k, false);
      OneCall(books, Makes(k, false));
      var id := NewID("client-role");
      createdClientRoles, log, books := createdClientRoles[(realm, client, name) := id],
        log + [Creates(ClientRole(realm, client, name))], After(old(books), Makes(k, false));
    }

    // ---------- users and service accounts ----------

    /** The real users first, then the one this run would have created. */
    method GetUsers(realm: string, username: string) returns (users: seq<Id>)
      requires Valid()
      ensures
        var k, o := User(realm, username), books.api.overlay.value;
        users == (if realm !in o.realms && k in books.api.server.objects then [books.api.server.objects[k]] else [])
                 + (if k in o.created then [o.created[k]] else [])
      ensures Peek(books.api, User(realm, username)) == if users == [] then None else Some(users[0])
    {
      users := [];
      NoContainer(User(realm, username));
      if realm !in createdRealms {
        var found := inner.Get(User(realm, username));
        if found.Some? {
          users := [found.value];
        }
      }
      if (realm, username) in createdUsers {
        users := users + [createdUsers[(realm, username)]];
      }
    }

    method CreateUser(realm: string, username: string) returns (id: Id)
      requires Valid()
      modifies this`seqNo, this`createdUsers, this`log, this`books
      ensures Valid() && books == After(old(books), Makes(User(realm, username), false))
      ensures Some(id) == Create(old(books.api), User(realm, username), false).1
    {
      hide Bookkeeping.Valid, Bookkeeping.Follows,
          NewId, HoldsClients, HoldsServiceAccounts, HoldsRealmRoles, HoldsClientRoles, HoldsGroups,
          HoldsScopes, HoldsUsers, After, Create;
      ghost var k := User(realm, username);
      Recording(k);
      MakesIs(books, k, false);
      OneCall(books, Makes(k, false));
      id := NewID("user");
      createdUsers, log, books := createdUsers[(realm, username) := id],
        log + [Creates(User(realm, username))], After(old(books), Makes(k, false));
    }

    method GetServiceAccountUser(realm: string, client: Id) returns (found: Option<Id>)
      requires Valid()
      modifies this`seqNo, this`createdSA, this`books
      ensures Valid() && books == After(old(books), AsksServiceAccount(realm, client))
      ensures found == FindServiceAccount(old(books.api), realm, client).1
    {
      hide Bookkeeping.Valid, Bookkeeping.Follows,
          HoldsClients, HoldsRealmRoles, HoldsClientRoles, HoldsGroups, HoldsScopes, HoldsUsers,
          After, FindServiceAccount;
      AsksServiceAccountIs(books, realm, client);
      if IsSyntheticID(client) {
        if (realm, client) in createdSA {
          return Some(createdSA[(realm, client)]);
        }
        var id := MakeUpServiceAccount(realm, client);
        return Some(id);
      }
      found := inner.Get(ServiceAccount(realm, client));
    }

    method MakeUpServiceAccount(realm: string, client: Id) returns (id: Id)
      requires Valid() && IsSyntheticID(client) && (realm, client) !in createdSA
      modifies this`seqNo, this`createdSA, this`books
      ensures Valid() && books == After(old(books), AsksServiceAccount(realm, client))
      ensures Some(id) == FindServiceAccount(old(books.api), realm, client).1
    {
      hide Bookkeeping.Valid, Bookkeeping.Follows,
          NewId, HoldsClients, HoldsServiceAccounts, HoldsRealmRoles, HoldsClientRoles, HoldsGroups,
          HoldsScopes, HoldsUsers, After, FindServiceAccount;
      ServiceAccountsAreHeld(realm, client);
      AsksServiceAccountIs(books, realm, client);
      OneCall(books, AsksServiceAccount(realm, client));
      Recording(ServiceAccount(realm, client));
      id := NewID("sa-user");
      createdSA := createdSA[(realm, client) := id];
      books := After(old(books), AsksServiceAccount(realm, client));
    }

    // ---------- groups ----------

    method GetGroups(realm: string, parent: Id, search: string) returns (found: Option<Id>)
      requires Valid()
      ensures found == Peek(books.api, Directory.Group(realm, parent, search))
    {
      if (realm, parent, search) in createdGroups {
        return Some(createdGroups[(realm, parent, search)]);
      }
      if IsSyntheticID(parent) || realm in createdRealms {
        return None;
      }
      found := inner.Get(Directory.Group(realm, parent, search));
    }

    method CreateGroup(realm: string, parent: Id, name: string) returns (id: Id)
      requires Valid()
      modifies this`seqNo, this`createdGroups, this`log, this`books
      ensures Valid() && books == After(old(books), Makes(Directory.Group(realm, parent, name), false))
      ensures Some(id) == Create(old(books.api), Directory.Group(realm, parent, name), false).1
    {
      hide Bookkeeping.Valid, Bookkeeping.Follows,
          NewId, HoldsClients, HoldsServiceAccounts, HoldsRealmRoles, HoldsClientRoles, HoldsGroups,
          HoldsScopes, HoldsUsers, After, Create;
      ghost var k := Directory.Group(realm, parent, name);
      Recording(k);
      MakesIs(books, k, false);
      OneCall(books, Makes(k, false));
      id := NewID("group");
      createdGroups, log, books := createdGroups[(realm, parent, name) := id],
        log + [Creates(Directory.Group(realm, parent, name))], After(old(books), Makes(k, false));
    }

    method GetUserGroups(realm: string, user: Id) returns (paths: set<string>)
      requires Valid()
      ensures paths == GroupPathsOf(books.api, realm, user)
    {
      if IsSyntheticID(user) || realm in createdRealms {
        return {};
      }
      paths := inner.GetUserGroups(realm, user);
    }

    // ---------- updates, role mappings and group memberships ----------

    /** Reported, and not remembered. */
    method ReportWrite(w: Write)
      requires Valid()
      modifies this`log, this`books
      ensures Valid() && books == After(old(books), Directs(w))
    {
      hide Bookkeeping.Valid, Bookkeeping.Follows,
          HoldsDirectory, NewId;
      OneCall(books, Directs(w));
      log := log + [w];
      books := After(books, Directs(w));
    }

    method ReportUpdate(k: Key, id: Id, serviceAccount: bool)
      requires Valid()
      modifies this`log, this`books
      ensures Valid() && books.api == Update(old(books.api), k, id, serviceAccount)
    {
      hide Bookkeeping.Valid, Bookkeeping.Follows,
          HoldsDirectory;
      ReportWrite(Updates(k, id));
    }

    method GetRoleMappings(m: Mapping) returns (mapped: set<string>)
      requires Valid()
      ensures mapped == MappedIn(books.api, m)
    {
      if m.realm in createdRealms || IsSyntheticID(m.holder) || IsSyntheticID(m.client) {
        return {};
      }
      mapped := inner.GetMappings(m);
    }

    method AddRoleMappings(m: Mapping, refs: seq<RoleRef>)
      requires Valid()
      modifies this`log, this`books
      ensures Valid() && (books.api, Done) == Grant(old(books.api), m, refs)
      ensures books == old(books).(api := books.api)
    {
      hide Bookkeeping.Valid, Bookkeeping.Follows,
          HoldsDirectory;
      ReportWrite(Grants(m, refs));
    }

    method AddUserToGroup(m: Membership)
      requires Valid()
      modifies this`log, this`books
      ensures Valid() && (books.api, Done) == AddToGroup(old(books.api), m)
      ensures books == old(books).(api := books.api)
    {
      hide Bookkeeping.Valid, Bookkeeping.Follows,
          HoldsDirectory;
      ReportWrite(Joins(m));
    }

    // ---------- client scopes ----------

    method GetClientScopes(realm: string) returns (rows: seq<Row>)
      requires Valid()
      ensures rows == Overlaid(books, Rows(inner.remote.scopes, realm), createdScopes, realm)
      ensures forall n :: ClientScope(realm, n) in books.api.overlay.value.created ==>
                Row(books.api.overlay.value.created[ClientScope(realm, n)], n) in rows
    {
      rows := [];
      if realm !in createdRealms {
        rows := inner.GetClientScopes(realm);
      }
      var more := SyntheticRows(createdScopes, realm);
      rows := rows + more;
    }

    method CreateClientScope(realm: string, name: string) returns (id: Id)
      requires Valid()
      modifies this`seqNo, this`createdScopes, this`log, this`books
      ensures Valid() && books == After(old(books), Makes(ClientScope(realm, name), false))
      ensures Some(id) == Create(old(books.api), ClientScope(realm, name), false).1
    {
      hide Bookkeeping.Valid, Bookkeeping.Follows,
          NewId, HoldsClients, HoldsServiceAccounts, HoldsRealmRoles, HoldsClientRoles, HoldsGroups,
          HoldsScopes, HoldsUsers, After, Create;
      ghost var k := ClientScope(realm, name);
      Recording(k);
      MakesIs(books, k, false);
      OneCall(books, Makes(k, false));
      id := NewID("clientscope");
      createdScopes, log, books := createdScopes[(realm, name) := id],
        log + [Creates(ClientScope(realm, name))], After(old(books), Makes(k, false));
    }

    // ---------- authentication flows ----------

    method GetAuthenticationFlows(realm: string) returns (rows: seq<Row>)
      requires Valid()
      ensures rows == Overlaid(books, Rows(inner.remote.flows, realm), books.flows, realm)
      ensures forall n :: (realm, n) in books.flows ==> Row(books.flows[(realm, n)], n) in rows
    {
      rows := [];
      if realm !in createdRealms {
        rows := inner.GetAuthenticationFlows(realm);
      }
      var more := SyntheticRows(createdFlows, realm);
      rows := rows + more;
    }

    /** A flow of this run has nothing to show yet; asking the server for it would end the run. */
    method GetAuthenticationFlowExecutions(realm: string, alias: string) returns (rows: Option<seq<string>>)
      requires Valid()
      ensures rows == ExecutionsSeen(books, inner.remote, realm, alias)
    {
      if realm in createdRealms || (realm, alias) in createdFlows {
        return Some([]);
      }
      rows := inner.GetAuthenticationFlowExecutions(realm, alias);
    }

    /** Flows, copies of flows and subflows are remembered alike. */
    method CreateAuthenticationFlow(realm: string, alias: string)
      requires Valid()
      modifies this`seqNo, this`createdFlows, this`reports, this`books
      ensures Valid() && books == After(old(books), MakesFlow(realm, alias))
    {
      hide Bookkeeping.Valid, Bookkeeping.Follows,
          HoldsDirectory, NewId;
      OneCall(books, MakesFlow(realm, alias));
      var id := NewID("authflow");
      createdFlows := createdFlows[(realm, alias) := id];
      reports := reports + [FlowCreated(realm, alias)];
      books := After(old(books), MakesFlow(realm, alias));
    }

    // ---------- organizations ----------

    /** Its id is remembered nowhere: nothing looks an organization up twice. */
    method CreateOrganization(realm: string, name: string) returns (id: Id)
      requires Valid()
      modifies this`seqNo, this`reports, this`books
      ensures Valid() && books == After(old(books), MakesOrganization(realm, name))
      ensures id !in old(books.issued) && IsSyntheticID(id) && books.issued == old(books.issued) + [id]
    {
      hide Bookkeeping.Valid, Bookkeeping.Follows,
          HoldsDirectory, NewId;
      OneCall(books, MakesOrganization(realm, name));
      id := NewID("organization");
      reports := reports + [OrganizationCreated(realm, name)];
      books := After(old(books), MakesOrganization(realm, name));
    }

    method CreateOrganizationGroup(realm: string, org: Id, parent: Id, name: string) returns (id: Id)
      requires Valid()
      modifies this`seqNo, this`reports, this`books
      ensures Valid() && books == After(old(books), MakesOrganizationGroup(realm, org, parent, name))
      ensures id !in old(books.issued) && IsSyntheticID(id) && books.issued == old(books.issued) + [id]
    {
      hide Bookkeeping.Valid, Bookkeeping.Follows,
          HoldsDirectory, NewId;
      OneCall(books, MakesOrganizationGroup(realm, org, parent, name));
      id := NewID("orggroup");
      reports := reports + [OrganizationGroupCreated(realm, org, parent, name)];
      books := After(old(books), MakesOrganizationGroup(realm, org, parent, name));
    }

    method AddOrganizationMember(realm: string, org: Id, user: Id)
      requires Valid()
      modifies this`createdOrgMembers, this`reports, this`books
      ensures Valid() && books == After(old(books), JoinsOrganization(realm, org, user))
    {
      hide Bookkeeping.Valid, Bookkeeping.Follows,
          HoldsDirectory, NewId;
      OneCall(books, JoinsOrganization(realm, org, user));
      createdOrgMembers := createdOrgMembers + {(realm, org, user)};
      reports := reports + [MemberAdded(realm, org, user)];
      books := After(old(books), JoinsOrganization(realm, org, user));
    }

    /** A pretended user is known by its id as well as by its name. */
    lemma UsersApart(realm: string, org: Id)
      requires Valid()
      ensures forall k, j :: k in createdUsers && j in createdUsers && createdUsers[k] == createdUsers[j] ==> k == j
      ensures forall n :: n in NewMembers(books, realm, org) <==>
                (realm, n) in createdUsers && (realm, org, createdUsers[(realm, n)]) in createdOrgMembers
    {
      hide IssuedOk, OthersOk, HoldsClients, HoldsServiceAccounts, HoldsRealmRoles, HoldsClientRoles, HoldsGroups,
          HoldsScopes;
      var c := books.api.overlay.value.created;
      forall k, j | k in createdUsers && j in createdUsers && createdUsers[k] == createdUsers[j] ensures k == j {
        assert c[User(k.0, k.1)] == c[User(j.0, j.1)];
      }
      forall n
        ensures n in NewMembers(books, realm, org) <==>
                (realm, n) in createdUsers && (realm, org, createdUsers[(realm, n)]) in createdOrgMembers
      {
        assert User(realm, n) in c <==> (realm, n) in createdUsers;
      }
    }

    method SyntheticOrgMembers(realm: string, org: Id) returns (rows: seq<Row>)
      requires Valid()
      ensures forall n :: n in NewMembers(books, realm, org) ==> (realm, n) in createdUsers
      ensures rows == RowsNamed(createdUsers, realm, SortedListing(NewMembers(books, realm, org)))
    {
      hide Bookkeeping.Valid, Bookkeeping.Follows,
          HoldsDirectory, NewMembers;
      UsersApart(realm, org);
      var byId := ById(createdUsers, realm);
      var usernames := NamesOfMembers(createdOrgMembers, realm, org, byId, createdUsers);
      var sorted := SortedKeys(usernames);
      assert usernames == NewMembers(books, realm, org);
      SortedListingIsUnique(sorted, SortedListing(usernames), usernames);
      rows := RowsNamed(createdUsers, realm, sorted);
    }

    /** The members the server has, then those of this run that can be named: users of this run. */
    method GetOrganizationMembers(realm: string, org: Id) returns (rows: seq<Row>)
      requires Valid()
      ensures forall n :: n in NewMembers(books, realm, org) ==> (realm, n) in createdUsers
      ensures
        var there := realm !in books.api.overlay.value.realms && !IsSyntheticID(org);
        rows == (if there then Rows(inner.remote.members, (realm, org)) else [])
                + RowsNamed(createdUsers, realm, SortedListing(NewMembers(books, realm, org)))
    {
      rows := [];
      if realm !in createdRealms && !IsSyntheticID(org) {
        rows := inner.GetOrganizationMembers(realm, org);
      }
      var more := SyntheticOrgMembers(realm, org);
      rows := rows + more;
    }

    // ---------- identity providers ----------

    method GetIdentityProviders(realm: string) returns (rows: seq<Row>)
      requires Valid()
      ensures rows == Overlaid(books, Rows(inner.remote.providers, realm), books.providers, realm)
      ensures forall n :: (realm, n) in books.providers ==> Row(books.providers[(realm, n)], n) in rows
    {
      rows := [];
      if realm !in createdRealms {
        rows := inner.GetIdentityProviders(realm);
      }
      var more := SyntheticRows(createdIdPs, realm);
      rows := rows + more;
    }

    /** A provider is known by its alias, so no id is made up for it. */
    method CreateIdentityProvider(realm: string, alias: string, body: string)
      requires Valid()
      modifies this`createdIdPs, this`reports, this`books
      ensures Valid() && books == After(old(books), MakesProvider(realm, alias, body))
    {
      hide Bookkeeping.Valid, Bookkeeping.Follows,
          HoldsDirectory, NewId;
      OneCall(books, MakesProvider(realm, alias, body));
      createdIdPs := createdIdPs[(realm, alias) := body];
      reports := reports + [ProviderCreated(realm, alias)];
      books := After(old(books), MakesProvider(realm, alias, body));
    }

    // ---------- reads that this run only cuts short ----------

    method GetProtocolMappers(realm: string, container: string, containerId: Id) returns (rows: seq<Row>)
      requires Valid()
      ensures rows == if ShortCircuits(books, realm, {containerId}) then []
              else Rows(inner.remote.mappers, (realm, container, containerId))
    {
      if realm in createdRealms || IsSyntheticID(containerId) {
        return [];
      }
      rows := inner.GetProtocolMappers(realm, container, containerId);
    }

    method GetRealmClientScopes(realm: string, kind: string) returns (rows: seq<Row>)
      requires Valid()
      ensures rows == if ShortCircuits(books, realm, {}) then []
              else Rows(inner.remote.realmScopes, (realm, kind))
    {
      if realm in createdRealms {
        return [];
      }
      rows := inner.GetRealmClientScopes(realm, kind);
    }

    method GetClientScopeAssignments(realm: string, client: Id, kind: string) returns (rows: seq<Row>)
      requires Valid()
      ensures rows == if ShortCircuits(books, realm, {client}) then []
              else Rows(inner.remote.assignments, (realm, client, kind))
    {
      if realm in createdRealms || IsSyntheticID(client) {
        return [];
      }
      rows := inner.GetClientScopeAssignments(realm, client, kind);
    }

    method GetOrganizations(realm: string) returns (rows: seq<Row>)
      requires Valid()
      ensures rows == if ShortCircuits(books, realm, {}) then []
              else Rows(inner.remote.organizations, realm)
    {
      if realm in createdRealms {
        return [];
      }
      rows := inner.GetOrganizations(realm);
    }

    method GetOrganizationGroups(realm: string, org: Id, parent: Id) returns (rows: seq<Row>)
      requires Valid()
      ensures rows == if ShortCircuits(books, realm, {org, parent}) then []
              else Rows(inner.remote.organizationGroups, (realm, org, parent))
    {
      if realm in createdRealms || IsSyntheticID(org) || IsSyntheticID(parent) {
        return [];
      }
      rows := inner.GetOrganizationGroups(realm, org, parent);
    }

    method GetOrganizationGroupMembers(realm: string, org: Id, group: Id) returns (rows: seq<Row>)
      requires Valid()
      ensures rows == if ShortCircuits(books, realm, {org, group}) then []
              else Rows(inner.remote.groupMembers, (realm, org, group))
    {
      if realm in createdRealms || IsSyntheticID(org) || IsSyntheticID(group) {
        return [];
      }
      rows := inner.GetOrganizationGroupMembers(realm, org, group);
    }

    method GetOrganizationIdentityProviders(realm: string, org: Id) returns (rows: seq<string>)
      requires Valid()
      ensures rows == if ShortCircuits(books, realm, {org}) then []
              else Rows(inner.remote.organizationProviders, (realm, org))
    {
      if realm in createdRealms || IsSyntheticID(org) {
        return [];
      }
      rows := inner.GetOrganizationIdentityProviders(realm, org);
    }

    method GetUserCredentials(realm: string, user: Id) returns (rows: seq<Row>)
      requires Valid()
      ensures rows == if ShortCircuits(books, realm, {user}) then []
              else Rows(inner.remote.credentials, (realm, user))
    {
      if realm in createdRealms || IsSyntheticID(user) {
        return [];
      }
      rows := inner.GetUserCredentials(realm, user);
    }

    method GetOrganization(realm: string, org: Id) returns (found: Option<string>)
      requires Valid()
      ensures found ==
              if ShortCircuits(books, realm, {org}) then None else Found(inner.remote.organizationReps, (realm, org))
    {
      if realm in createdRealms || IsSyntheticID(org) {
        return None;
      }
      found := inner.GetOrganization(realm, org);
    }

    /** A provider of this run has no mappers to show yet. */
    method GetIdentityProviderMappers(realm: string, alias: string) returns (rows: seq<Row>)
      requires Valid()
      ensures rows == if ShortCircuits(books, realm, {}) || (realm, alias) in books.providers then []
              else Rows(inner.remote.providerMappers, (realm, alias))
    {
      if realm in createdRealms || (realm, alias) in createdIdPs {
        return [];
      }
      rows := inner.GetIdentityProviderMappers(realm, alias);
    }

    // ---------- management permissions ----------

    method GetClientManagementPermissions(realm: string, client: Id) returns (p: Permissions)
      requires Valid()
      ensures p == PermissionsSeen(books, inner.remote, realm, client)
    {
      if realm in createdRealms || IsSyntheticID(client) {
        return DISABLED;
      }
      p := inner.GetClientManagementPermissions(realm, client);
    }

    /** What enabling would bring: a permission for every scope the server is known to offer, and a resource, each under
        an id of its own. */
    method SetClientManagementPermissions(realm: string, client: Id, enabled: bool) returns (p: Permissions)
      requires Valid()
      modifies this`seqNo, this`reports, this`books
      ensures Valid() && books == After(old(books), EnablesPermissions(realm, client))
      ensures p.enabled == enabled && forall scope :: scope in p.scopes <==> scope in MANAGEMENT_SCOPES
      ensures forall scope :: scope in p.scopes ==> p.scopes[scope] !in old(books.issued) + [p.resource]
      ensures forall a, b :: a in p.scopes && b in p.scopes && p.scopes[a] == p.scopes[b] ==> a == b
      ensures p.resource !in old(books.issued)
      ensures forall scope :: scope in p.scopes ==> p.scopes[scope] in books.issued
    {
      hide Bookkeeping.Valid, Bookkeeping.Follows,
          HoldsDirectory, NewId, IssuedOk, Matches;
      ghost var c := EnablesPermissions(realm, client);
      OneCall(books, c);
      var scopes := NewScopePermissions();
      ghost var issued := books.issued;
      var id := NewID("resource");
      assert books.issued[..|issued|] == issued;
      IssuedMatches(books, scopes, |old(books.issued)|);
      p := Permissions(enabled, id, scopes);
      reports := reports + [PermissionsEnabled(realm, client)];
      books := After(old(books), c);
    }

    method NewScopePermissions() returns (scopes: map<string, Id>)
      requires Valid()
      modifies this`seqNo, this`books
      ensures
        var n, issued := |MANAGEMENT_SCOPES|, IssueMany(old(books.issued), "scopeperm", |MANAGEMENT_SCOPES|);
        && Valid() && books == old(books).(api := Skip(old(books.api), n), issued := issued)
        && |issued| == |old(books.issued)| + n && old(books.issued) <= issued
        && Matches(scopes, issued, |old(books.issued)|, n)
    {
      hide Bookkeeping.Valid, Bookkeeping.Follows,
          HoldsDirectory, NewId, IssuedOk, Matches;
      ManagementScopesDiffer();
      NothingMatches(books.issued);
      scopes := map[];
      for i := 0 to |MANAGEMENT_SCOPES|
        invariant Valid() && IssueMany(old(books.issued), "scopeperm", i) == books.issued
        invariant |books.issued| == |old(books.issued)| + i && old(books.issued) <= books.issued
        invariant books == old(books).(api := Skip(old(books.api), i), issued := books.issued)
        invariant Matches(scopes, books.issued, |old(books.issued)|, i)
      {
        ghost var issued := books.issued;
        var id := NewID("scopeperm");
        assert books.issued[..|issued|] == issued;
        OneMoreMatches(scopes, books.issued, |old(books.issued)|, i);
        scopes := scopes[MANAGEMENT_SCOPES[i] := id];
      }
    }

    method GetAuthzClientPolicies(realm: string, resourceServer: Id, name: string) returns (rows: seq<PolicyRep>)
      requires Valid()
      ensures rows == PoliciesSeen(books, inner.remote, realm, resourceServer, name)
    {
      if (realm, resourceServer, name) in createdPolicies {
        return [createdPolicies[(realm, resourceServer, name)]];
      }
      if realm in createdRealms || IsSyntheticID(resourceServer) {
        return [];
      }
      rows := inner.GetAuthzClientPolicies(realm, resourceServer, name);
    }

    /** Remembered, so that a second scope of this run finds the policy the first one made. */
    method CreateAuthzClientPolicy(realm: string, resourceServer: Id, name: string, clients: seq<string>)
      returns (id: Id)
      requires Valid()
      modifies this`seqNo, this`createdPolicies, this`reports, this`books
      ensures Valid() && books == After(old(books), MakesPolicy(realm, resourceServer, name, clients))
      ensures id !in old(books.issued) && IsSyntheticID(id)
      ensures PoliciesSeen(books, inner.remote, realm, resourceServer, name) == [PolicyRep(id, name, clients)]
    {
      hide Bookkeeping.Valid, Bookkeeping.Follows,
          HoldsDirectory, NewId;
      OneCall(books, MakesPolicy(realm, resourceServer, name, clients));
      id := NewID("policy");
      createdPolicies := createdPolicies[(realm, resourceServer, name) := PolicyRep(id, name, clients)];
      reports := reports + [PolicyCreated(realm, resourceServer, name)];
      books := After(old(books), MakesPolicy(realm, resourceServer, name, clients));
    }

    /** Reported, and not remembered: updates of policies and of permissions. */
    method Tell(report: Report)
      requires Valid()
      modifies this`reports, this`books
      ensures Valid() && books == After(old(books), Tells(report))
    {
      hide Bookkeeping.Valid, Bookkeeping.Follows,
          HoldsDirectory, NewId;
      OneCall(books, Tells(report));
      reports := reports + [report];
      books := After(old(books), Tells(report));
    }

    method UpdateAuthzClientPolicy(realm: string, resourceServer: Id, policy: Id)
      requires Valid()
      modifies this`reports, this`books
      ensures Valid() && books == After(old(books), Tells(PolicyUpdated(realm, resourceServer, policy)))
    {
      Tell(PolicyUpdated(realm, resourceServer, policy));
    }

    /** A permission that would exist is as the server makes it: UNANIMOUS, with nothing attached. */
    method GetAuthzScopePermission(realm: string, resourceServer: Id, permission: Id) returns (strategy: string)
      requires Valid()
      ensures strategy == PermissionSeen(books, inner.remote, realm, resourceServer, permission).strategy
    {
      if realm in createdRealms || IsSyntheticID(resourceServer) || IsSyntheticID(permission) {
        return UNTOUCHED.strategy;
      }
      var p := inner.GetAuthzScopePermission(realm, resourceServer, permission);
      strategy := p.strategy;
    }

    method GetAuthzAssociatedPolicies(realm: string, resourceServer: Id, permission: Id) returns (policies: seq<Id>)
      requires Valid()
      ensures policies == PermissionSeen(books, inner.remote, realm, resourceServer, permission).policies
    {
      if realm in createdRealms || IsSyntheticID(resourceServer) || IsSyntheticID(permission) {
        return [];
      }
      var p := inner.GetAuthzScopePermission(realm, resourceServer, permission);
      policies := p.policies;
    }

    method UpdateAuthzScopePermission(realm: string, resourceServer: Id, permission: Id, policies: seq<Id>)
      requires Valid()
      modifies this`reports, this`books
      ensures Valid()
      ensures books == After(old(books), Tells(PermissionUpdated(realm, resourceServer, permission, policies)))
    {
      Tell(PermissionUpdated(realm, resourceServer, permission, policies));
    }
  }

  lemma NoContainer(k: Key)
    requires k.Client? || k.RealmRole? || k.User?
    ensures !IsSyntheticID(Container(k))
  {}
}
