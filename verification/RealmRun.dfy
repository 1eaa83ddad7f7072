/** The run of one realm as the provisioner performs it (internal/provisioner/provisioner.go): its loops, the lists and
    indexes it fills on the way, and what it leaves on the server. */
module RealmRun {
  import opened Directory
  import opened GroupTrees
  import opened Ids
  import opened Lists
  import opened LiveRuns
  import opened Progress
  import opened Provision
  import opened RealmConfigs
  import opened Reconcile
  import opened Requests
  import opened RunRequests
  import opened Text
  import opened Users
  import AuthFlows
  import C = ClientScopes
  import FlowConfig
  import FlowServer
  import I = IdentityProviders
  import O = Organizations
  import P = ManagementPermissions

  /** The aliases of the flows a listing shows. */
  function FlowsListed(forest: FlowServer.Forest): set<string> {
    set n | n in forest && n.body.Sub? :: n.body.alias
  }

  lemma ListedIsTopLevel(forest: FlowServer.Forest, alias: string)
    ensures FlowServer.TopLevel(forest, alias).Some? <==> alias in FlowsListed(forest)
  {}

  lemma BoundIfListed(forest: FlowServer.Forest, overrides: map<string, string>)
    ensures (forall b :: b in overrides ==> FlowServer.TopLevel(forest, overrides[b]).Some?) <==>
            FlowsKnown(overrides, FlowsListed(forest))
  {
    forall b | b in overrides
      ensures FlowServer.TopLevel(forest, overrides[b]).Some? <==> overrides[b] in FlowsListed(forest)
    {
      ListedIsTopLevel(forest, overrides[b]);
    }
  }

  // ---------- client scopes along the run ----------

  /** Whether anything in the realm resolves a client scope by name. */
  predicate NeedsClientScopeIndex(r: Realm) {
    r.scopes != [] || exists i :: 0 <= i < |r.clients| && NamesScopes(r.clients[i])
  }

  predicate NamesScopes(c: FullClient) {
    c.defaultScopes != [] || c.optionalScopes != []
  }

  /** The lists as they were when the run got to them: the realm's before its scopes were placed; and, for the clients'
      scopes, the server, their lists and the realm's, from which new clients get theirs. */
  datatype Start = Start(onRealm: map<C.Kind, set<string>>, server: Server,
    onClient: map<(string, C.Kind), set<string>>, inherited: map<C.Kind, set<string>>)

  /** Every scope with a type is on the realm's list of that type alone; any other is where it was. */
  ghost predicate OnRealmLists(before: map<C.Kind, set<string>>, server: C.Server, scopes: seq<ScopeConfig>)
    reads server, server.port
  {
    PlacedOn(before, server.onRealm, server.port.api.server, server.realm, scopes)
  }

  predicate OnList(lists: map<C.Kind, set<string>>, kind: C.Kind, id: Id) {
    kind in lists && id in lists[kind]
  }

  function IdsOf(lists: map<C.Kind, set<string>>, kind: C.Kind): set<string> {
    if kind in lists then lists[kind] else {}
  }

  predicate IsPlaced(c: ScopeConfig, s: Server, realm: string, x: Id) {
    c.scopeType.Assigned? && ScopeUuid(s, realm, c.name) == x
  }

  ghost predicate GoesOn(s: Server, realm: string, scopes: seq<ScopeConfig>, kind: C.Kind, x: Id) {
    exists i :: 0 <= i < |scopes| && IsPlaced(scopes[i], s, realm, x) && scopes[i].scopeType.kind == kind
  }

  ghost predicate GoesSomewhere(s: Server, realm: string, scopes: seq<ScopeConfig>, x: Id) {
    exists i :: 0 <= i < |scopes| && IsPlaced(scopes[i], s, realm, x)
  }

  ghost predicate PlacedOn(before: map<C.Kind, set<string>>, lists: map<C.Kind, set<string>>, s: Server, realm: string,
                           scopes: seq<ScopeConfig>)
  {
    forall kind, x ::
      OnList(lists, kind, x) <==>
      GoesOn(s, realm, scopes, kind, x) || (OnList(before, kind, x) && !GoesSomewhere(s, realm, scopes, x))
  }

  /** Every client's lists are what the config and the lists before make them. */
  ghost predicate OnClientLists(z: Start, server: C.Server, cs: seq<FullClient>)
    reads server, server.port
  {
    forall i :: 0 <= i < |cs| ==> IsOnLists(z, server, cs[i])
  }

  ghost predicate IsOnLists(z: Start, server: C.Server, c: FullClient)
    reads server, server.port
  {
    Held(server.Scopes(), server.realm, z, server.onClient, Uuid(server.port.api.server, server.realm, c), c)
  }

  function ClientIds(lists: map<(string, C.Kind), set<string>>, client: Id, kind: C.Kind): set<string> {
    if (client, kind) in lists then lists[(client, kind)] else {}
  }

  /** What a client starts with: a new client gets the realm's scopes. */
  function StartIds(z: Start, realm: string, c: FullClient, client: Id, kind: C.Kind): set<string> {
    if Client(realm, c.base.clientId) in z.server.objects then ClientIds(z.onClient, client, kind)
    else IdsOf(z.inherited, kind)
  }

  /** Of the scopes the realm has, those the config names are on the list it says, and on that alone; the others are
      where they were. */
  ghost predicate Held(names: map<string, string>, realm: string, z: Start, lists: map<(string, C.Kind), set<string>>,
                       client: Id, c: FullClient)
  {
    && C.NamesOf(names, ClientIds(lists, client, C.Default)) ==
       C.NamesOf(names, StartIds(z, realm, c, client, C.Default))
       + C.Known(names, c.defaultScopes) - C.Known(names, c.optionalScopes)
    && C.NamesOf(names, ClientIds(lists, client, C.Optional)) ==
       C.NamesOf(names, StartIds(z, realm, c, client, C.Optional))
       - C.Known(names, c.defaultScopes) + C.Known(names, c.optionalScopes)
  }

  ghost predicate AllHeld(names: map<string, string>, z: Start, lists: map<(string, C.Kind), set<string>>, s: Server,
                          realm: string, cs: seq<FullClient>, i: nat)
    requires i <= |cs|
  {
    forall n :: 0 <= n < i ==> Held(names, realm, z, lists, Uuid(s, realm, cs[n]), cs[n])
  }

  /** Clients not yet dealt with have the lists they started with, or none if they are not there. */
  ghost predicate Untouched(z: Start, lists: map<(string, C.Kind), set<string>>, s: Server, realm: string,
                            cs: seq<FullClient>, i: nat)
  {
    forall n :: i <= n < |cs| ==> IsUntouched(z, lists, s, realm, cs[n])
  }

  ghost predicate IsUntouched(z: Start, lists: map<(string, C.Kind), set<string>>, s: Server, realm: string,
                              c: FullClient)
  {
    var k := Client(realm, c.base.clientId);
    && (k in s.objects <==> k in z.server.objects)
    && (k in s.objects ==>
          forall kind :: ClientIds(lists, s.objects[k], kind) == ClientIds(z.onClient, s.objects[k], kind))
  }

  /** One client makes no difference to the next ones. */
  lemma StillUntouched(z: Start, lists: map<(string, C.Kind), set<string>>,
                       later: map<(string, C.Kind), set<string>>, s: Server, t: Server, realm: string,
                       cs: seq<FullClient>, i: nat, id: Id)
    requires i < |cs| && DistinctClientIds(cs) && Grows(s, t) && WellFormed(t)
    requires Lookup(t, Client(realm, cs[i].base.clientId)) == Some(id)
    requires forall k :: k in t.objects && k.Client? ==> k in s.objects || k == Client(realm, cs[i].base.clientId)
    requires forall other, kind :: other != id ==> ClientIds(later, other, kind) == ClientIds(lists, other, kind)
    requires Untouched(z, lists, s, realm, cs, i)
    ensures Untouched(z, later, t, realm, cs, i + 1)
  {
    hide PathsOk, MappingsOk, MembershipsOk;
    forall n | i + 1 <= n < |cs| ensures IsUntouched(z, later, t, realm, cs[n]) {
      assert IsUntouched(z, lists, s, realm, cs[n]);
      var k := Client(realm, cs[n].base.clientId);
      if k in t.objects {
        assert t.owner[t.objects[k]] == k && t.owner[id] == Client(realm, cs[i].base.clientId);
      }
    }
  }

  lemma HeldStill(names: map<string, string>, z: Start, lists: map<(string, C.Kind), set<string>>,
                  later: map<(string, C.Kind), set<string>>, s: Server, t: Server, realm: string,
                  cs: seq<FullClient>, i: nat, id: Id)
    requires i < |cs| && DistinctClientIds(cs) && Grows(s, t) && id in t.owner
    requires t.owner[id] == Client(realm, cs[i].base.clientId) && WellFormed(t)
    requires Lookup(t, Client(realm, cs[i].base.clientId)) == Some(id)
    requires forall n :: 0 <= n < i ==> Client(realm, cs[n].base.clientId) in s.objects
    requires AllHeld(names, z, lists, s, realm, cs, i)
    requires forall other, kind :: other != id ==> ClientIds(later, other, kind) == ClientIds(lists, other, kind)
    requires Held(names, realm, z, later, id, cs[i])
    ensures AllHeld(names, z, later, t, realm, cs, i + 1)
  {
    hide WellFormed, Grows, Held, ClientIds, Uuid;
    forall n | 0 <= n <= i ensures Held(names, realm, z, later, Uuid(t, realm, cs[n]), cs[n]) {
      UuidOf(t, realm, cs[i], id);
      if n < i {
        AnotherUuid(s, t, realm, cs[n], cs[i], id);
        assert Held(names, realm, z, lists, Uuid(s, realm, cs[n]), cs[n]);
        HeldElsewhere(names, realm, z, lists, later, Uuid(t, realm, cs[n]), cs[n]);
      }
    }
  }

  lemma UuidOf(s: Server, realm: string, c: FullClient, id: Id)
    requires Lookup(s, Client(realm, c.base.clientId)) == Some(id)
    ensures Uuid(s, realm, c) == id
  {}

  /** Another client keeps its UUID, which is not this one's. */
  lemma AnotherUuid(s: Server, t: Server, realm: string, c: FullClient, d: FullClient, id: Id)
    requires Grows(s, t) && WellFormed(t) && Client(realm, c.base.clientId) in s.objects
    requires c.base.clientId != d.base.clientId && Lookup(t, Client(realm, d.base.clientId)) == Some(id)
    ensures Uuid(t, realm, c) == Uuid(s, realm, c) != id
  {
    hide PathsOk, MappingsOk, MembershipsOk;
    assert t.owner[Uuid(t, realm, c)] == Client(realm, c.base.clientId);
    assert t.owner[id] == Client(realm, d.base.clientId);
  }

  lemma HeldElsewhere(names: map<string, string>, realm: string, z: Start, lists: map<(string, C.Kind), set<string>>,
                      later: map<(string, C.Kind), set<string>>, client: Id, c: FullClient)
    requires Held(names, realm, z, lists, client, c)
    requires forall kind :: ClientIds(later, client, kind) == ClientIds(lists, client, kind)
    ensures Held(names, realm, z, later, client, c)
  {}

  lemma HeldNow(names: map<string, string>, realm: string, z: Start, lists: map<(string, C.Kind), set<string>>,
                client: Id, c: FullClient, isNew: bool)
    requires isNew <==> Client(realm, c.base.clientId) !in z.server.objects
    requires
      var d := if isNew then IdsOf(z.inherited, C.Default) else ClientIds(z.onClient, client, C.Default);
      var o := if isNew then IdsOf(z.inherited, C.Optional) else ClientIds(z.onClient, client, C.Optional);
      && C.NamesOf(names, ClientIds(lists, client, C.Default)) ==
         C.NamesOf(names, d) + C.Known(names, c.defaultScopes) - C.Known(names, c.optionalScopes)
      && C.NamesOf(names, ClientIds(lists, client, C.Optional)) ==
         C.NamesOf(names, o) - C.Known(names, c.defaultScopes) + C.Known(names, c.optionalScopes)
    ensures Held(names, realm, z, lists, client, c)
  {}

  lemma NoneHeld(names: map<string, string>, z: Start, lists: map<(string, C.Kind), set<string>>, s: Server,
                 realm: string, cs: seq<FullClient>)
    ensures AllHeld(names, z, lists, s, realm, cs, 0)
    ensures z.server == s && z.onClient == lists ==> Untouched(z, lists, s, realm, cs, 0)
  {}

  lemma ClientsLeaveScopes(s: Server, t: Server, realm: string)
    requires WellFormed(s) && WellFormed(t) && OnlyClientsAdded(s, t)
    ensures C.NamesIn(t, realm) == C.NamesIn(s, realm)
  {
    C.SameScopes(s, t, realm);
  }

  /** The scope just reconciled is the one its name leads to. */
  lemma ScopeIdIs(a: Api, realm: string, name: string, createOnly: bool)
    requires IsLive(a) && realm in a.server.realms
    ensures
      var (b, id) := C.EnsureScope(a, realm, name, createOnly);
      id.Some? && ScopeUuid(b.server, realm, name) == id.value && IsLive(b) && Grows(a.server, b.server)
      && realm in b.server.realms
  {
    EnsureScopeLive(a, realm, name, createOnly);
  }

  lemma ScopeWorkOneMore(s: Server, t: Server, realm: string, scopes: seq<ScopeConfig>, i: nat, id: Id)
    requires i < |scopes| && Grows(s, t) && ScopesThere(s, realm, scopes[..i])
    requires ScopeUuid(t, realm, scopes[i].name) == id && ClientScope(realm, scopes[i].name) in t.objects
    ensures ScopesThere(t, realm, scopes[..i + 1])
    ensures
      var c := scopes[i];
      ScopeWork(t, realm, scopes[..i + 1]) == ScopeWork(s, realm, scopes[..i])
      + if c.scopeMappings.None? then [] else [Deferred(Scope(HolderKind.ClientScopes, id), c.scopeMappings.value)]
  {
    ScopeWorkKeeps(s, t, realm, scopes[..i]);
    assert scopes[..i + 1][..i] == scopes[..i];
  }

  // ---------- the client loop ----------

  /** A client, on a live server of any realm. */
  lemma ClientIsLive(a: Api, realm: string, c: FullClient, createOnly: bool)
    requires IsLive(a) && realm in a.server.realms
    ensures OnlyClientsAdded(a.server, a.server)
    ensures
      var (b, id) := EnsureClient(a, realm, c.base, createOnly);
      && id.Some?
      && var (d, status) := EnsureRoles(b, realm, id.value, c.base.roles, createOnly);
      && status == Done && IsLive(d) && OnlyClientsAdded(a.server, d.server) && id.value in d.server.owner
      && d.server.owner[id.value] == Client(realm, c.base.clientId)
      && Lookup(d.server, Client(realm, c.base.clientId)) == id
      && forall k :: k in d.server.objects && k.Client? ==>
           k in a.server.objects || k == Client(realm, c.base.clientId)
  {
    hide *;
    NoClientAdded(a.server);
    ClientAndRoles(a, realm, c, createOnly);
    var (b, id) := EnsureClient(a, realm, c.base, createOnly);
    var d := EnsureRoles(b, realm, id.value, c.base.roles, createOnly).0;
    ClientKinds(a.server, d.server, realm, c, id.value, createOnly);
    LiveIs(d);
    OwnerIs(d.server, Client(realm, c.base.clientId), id.value);
  }

  lemma NoClientAdded(s: Server)
    ensures OnlyClientsAdded(s, s)
  {
    GrowsItself(s);
  }

  lemma OwnerIs(s: Server, k: Key, id: Id)
    requires WellFormed(s) && Lookup(s, k) == Some(id)
    ensures id in s.owner && s.owner[id] == k
  {}

  /** What the loop has collected of these clients, all of which are there. */
  ghost predicate Collected(s: Server, realm: string, cs: seq<FullClient>, accounts: seq<Deferred>,
                            work: seq<Deferred>, targets: seq<P.Target>)
  {
    && (forall n :: 0 <= n < |cs| ==> Client(realm, cs[n].base.clientId) in s.objects)
    && accounts == Accounts(s, realm, cs) && work == ClientScopeWork(s, realm, cs) && targets == Targets(s, realm, cs)
  }

  lemma CollectedIs(s: Server, realm: string, cs: seq<FullClient>, accounts: seq<Deferred>, work: seq<Deferred>,
                    targets: seq<P.Target>)
    requires Collected(s, realm, cs, accounts, work, targets)
    ensures forall n :: 0 <= n < |cs| ==> Client(realm, cs[n].base.clientId) in s.objects
    ensures accounts == Accounts(s, realm, cs) && work == ClientScopeWork(s, realm, cs)
    ensures targets == Targets(s, realm, cs)
  {}

  lemma CollectedSoFar(s: Server, realm: string, cs: seq<FullClient>, i: nat, accounts: seq<Deferred>,
                       work: seq<Deferred>, targets: seq<P.Target>)
    requires i < |cs| && Collected(s, realm, cs[..i], accounts, work, targets)
    ensures forall n :: 0 <= n < i ==> Client(realm, cs[n].base.clientId) in s.objects
  {
    assert forall n :: 0 <= n < i ==> cs[..i][n] == cs[n];
  }

  /** The lists after one more client. */
  lemma CollectedOneMore(s: Server, t: Server, realm: string, cs: seq<FullClient>, i: nat, id: Id,
                         accounts: seq<Deferred>, work: seq<Deferred>, targets: seq<P.Target>)
    requires i < |cs| && Grows(s, t) && Lookup(t, Client(realm, cs[i].base.clientId)) == Some(id)
    requires Collected(s, realm, cs[..i], accounts, work, targets)
    ensures
      var c := cs[i];
      Collected(t, realm, cs[..i + 1],
        if c.serviceAccountRoles.None? then accounts
        else accounts + [Deferred(AccountOf(id), c.serviceAccountRoles.value)],
        if c.scopeMappings.None? then work
        else work + [Deferred(Scope(HolderKind.Clients, id), c.scopeMappings.value)],
        if c.permissions.None? then targets else targets + [P.Target(id, c.base.clientId, c.permissions)])
  {
    CollectedIs(s, realm, cs[..i], accounts, work, targets);
    ListsKeep(s, t, realm, cs[..i]);
    OneMoreOfEach(t, realm, cs, i, id) by {
      UuidOf(t, realm, cs[i], id);
    }
    hide Accounts, ClientScopeWork, Targets;
    var front, next := cs[..i], cs[..i + 1];
    assert forall n :: 0 <= n < i ==> next[n] == front[n];
    assert next[i] == cs[i];
  }

  lemma OneMoreOfEach(t: Server, realm: string, cs: seq<FullClient>, i: nat, id: Id)
    requires i < |cs| && Uuid(t, realm, cs[i]) == id
    ensures
      var c := cs[i];
      && Accounts(t, realm, cs[..i + 1]) == Accounts(t, realm, cs[..i])
         + (if c.serviceAccountRoles.None? then [] else [Deferred(AccountOf(id), c.serviceAccountRoles.value)])
      && ClientScopeWork(t, realm, cs[..i + 1]) == ClientScopeWork(t, realm, cs[..i])
         + (if c.scopeMappings.None? then [] else [Deferred(Scope(HolderKind.Clients, id), c.scopeMappings.value)])
      && Targets(t, realm, cs[..i + 1]) == Targets(t, realm, cs[..i])
         + (if c.permissions.None? then [] else [P.Target(id, c.base.clientId, c.permissions)])
  {
    assert cs[..i + 1][..i] == cs[..i];
  }

  /** What the loop knows of UUIDs stays right. */
  ghost predicate Seen(s: Server, realm: string, uuids: map<string, string>) {
    forall c :: c in uuids ==> Lookup(s, Client(realm, c)) == Some(uuids[c])
  }

  lemma SeenLater(s: Server, t: Server, realm: string, uuids: map<string, string>)
    requires Grows(s, t) && Seen(s, realm, uuids)
    ensures Seen(t, realm, uuids)
  {}

  lemma NoClients(a: Api, realm: string, flows: set<string>, createOnly: bool)
    ensures Collected(a.server, realm, [], [], [], []) && Seen(a.server, realm, map[])
    ensures EnsureFullClients(a, realm, [], flows, createOnly) == (a, Status.Done)
  {}

  /** What the client had when its turn came is what it had at the start. */
  lemma HeldFromStart(names: map<string, string>, z: Start, lists: map<(string, C.Kind), set<string>>,
                      later: map<(string, C.Kind), set<string>>, s: Server, t: Server, realm: string,
                      cs: seq<FullClient>, i: nat, id: Id)
    requires i < |cs| && Untouched(z, lists, s, realm, cs, i) && Grows(s, t)
    requires Lookup(t, Client(realm, cs[i].base.clientId)) == Some(id)
    requires Held(names, realm, Start(map[], s, lists, z.inherited), later, id, cs[i])
    ensures Held(names, realm, z, later, id, cs[i])
  {
    assert IsUntouched(z, lists, s, realm, cs[i]);
    var y := Start(map[], s, lists, z.inherited);
    forall kind ensures StartIds(y, realm, cs[i], id, kind) == StartIds(z, realm, cs[i], id, kind) {}
  }

  class RealmProvisioner {
    const port: Port
    const flows: FlowServer.Server
    const bindings: AuthFlows.RealmBindings
    const scopes: C.Server
    const idps: I.IdpServer
    const orgs: O.OrgServer

    constructor (port: Port, flows: FlowServer.Server, bindings: AuthFlows.RealmBindings, scopes: C.Server,
        idps: I.IdpServer, orgs: O.OrgServer)
      ensures this.port == port && this.flows == flows && this.bindings == bindings && this.scopes == scopes
      ensures this.idps == idps && this.orgs == orgs
    {
      this.port, this.flows, this.bindings, this.scopes, this.idps, this.orgs :=
        port, flows, bindings, scopes, idps, orgs;
    }

    /** The parts belong to one another, and to this realm. */
    ghost predicate Ready(realm: string)
      reads this, port, flows, bindings, scopes
    {
      && flows.Valid() && bindings.flows == flows && scopes.port == port && scopes.realm == realm && scopes.Valid()
    }

    /** Each scope, its place on the realm's lists, and the mappings put off. */
    method RunScopes(cs: seq<ScopeConfig>, createOnly: bool, index: C.Index)
        returns (status: Status, work: seq<Deferred>)
      requires scopes.port == port && scopes.Valid() && (cs != [] ==> index.Matches(scopes))
      modifies port, scopes, index
      ensures (port.api, status) == EnsureScopes(old(port.api), scopes.realm, cs, createOnly)
      ensures scopes.Valid() && (old(index.Matches(scopes)) ==> index.Matches(scopes))
      ensures scopes.wasted == old(scopes.wasted) && scopes.onClient == old(scopes.onClient)
      ensures Grows(old(port.api.server), port.api.server)
      ensures status == Done ==>
                && ScopesThere(port.api.server, scopes.realm, cs)
                && work == ScopeWork(port.api.server, scopes.realm, cs)
      ensures status == Done && DistinctScopeNames(cs) ==> OnRealmLists(old(scopes.onRealm), scopes, cs)
    {
      hide WellFormed, Grows, C.EnsureScope, C.ListsOk, C.Inverse, C.NamesIn, ScopeWork, ScopesThere, PlacedOn;
      NothingPlaced(scopes.onRealm, port.api.server, scopes.realm);
      work := [];
      ghost var start := port.api;
      assert cs[..0] == [] && cs[0..] == cs;
      GrowsItself(start.server);
      NoScopes(start, scopes.realm);
      for i := 0 to |cs|
        invariant scopes.Valid() && (old(index.Matches(scopes)) ==> index.Matches(scopes))
        invariant scopes.wasted == old(scopes.wasted) && scopes.onClient == old(scopes.onClient)
        invariant Grows(start.server, port.api.server)
        invariant EnsureScopes(start, scopes.realm, cs, createOnly) ==
                  EnsureScopes(port.api, scopes.realm, cs[i..], createOnly)
        invariant ScopesThere(port.api.server, scopes.realm, cs[..i])
        invariant work == ScopeWork(port.api.server, scopes.realm, cs[..i])
        invariant DistinctScopeNames(cs) ==> OnRealmLists(old(scopes.onRealm), scopes, cs[..i])
      {
        ghost var before, lists := port.api, scopes.onRealm;
        assert forall kind :: scopes.RealmIds(kind) == IdsOf(lists, kind);
        assert cs[i..][0] == cs[i] && cs[i..][1..] == cs[i + 1..];
        EnsureScopesStep(before, scopes.realm, cs[i..], createOnly);
        ScopeIdIs(before, scopes.realm, cs[i].name, createOnly);
        var reconciler := new C.Provisioner(scopes);
        var id := reconciler.EnsureClientScope(cs[i].name, createOnly, index);
        var ok := reconciler.EnsureRealmClientScopeType(id.value, cs[i].name, cs[i].scopeType);
        GrowsTransitive(start.server, before.server, port.api.server);
        if !ok {
          return Refused, work;
        }
        ScopeIsThere(port.api, scopes.realm, cs[i].name);
        ScopeWorkOneMore(before.server, port.api.server, scopes.realm, cs, i, id.value);
        if DistinctScopeNames(cs) {
          assert forall kind :: scopes.RealmIds(kind) == IdsOf(scopes.onRealm, kind);
          PlacesKept(lists, scopes.onRealm, cs[i].scopeType, id.value);
          LiveIs(port.api);
          PlacedOneMore(old(scopes.onRealm), lists, scopes.onRealm, before.server, port.api.server, scopes.realm, cs, i,
                        id.value);
        }
        if cs[i].scopeMappings.Some? {
          work := work + [Deferred(Scope(HolderKind.ClientScopes, id.value), cs[i].scopeMappings.value)];
        }
      }
      assert cs[..|cs|] == cs && cs[|cs|..] == [];
      NoScopes(port.api, scopes.realm);
      status := Done;
    }

    lemma AllAreOnLists(z: Start, cs: seq<FullClient>)
      requires scopes.port == port
      requires AllHeld(scopes.Scopes(), z, scopes.onClient, port.api.server, scopes.realm, cs, |cs|)
      ensures OnClientLists(z, scopes, cs)
    {}

    /** The client loop: reconciles each client and its scopes, and collects what has to wait. */
    method RunClients(realm: string, cs: seq<FullClient>, createOnly: bool, index: C.Index)
    returns (status: Status, accounts: seq<Deferred>, work: seq<Deferred>, targets: seq<P.Target>,
        uuids: map<string, string>)
      requires Ready(realm)
      requires forall i :: 0 <= i < |cs| && NamesScopes(cs[i]) ==> index.Matches(scopes)
      modifies port, scopes
      ensures Ready(realm) && scopes.wasted == old(scopes.wasted) && scopes.onRealm == old(scopes.onRealm)
      ensures scopes.Scopes() == old(scopes.Scopes()) && OnlyClientsAdded(old(port.api.server), port.api.server)
      ensures (port.api, status) == EnsureFullClients(old(port.api), realm, cs, FlowsListed(flows.forest), createOnly)
      ensures status == Status.Done ==>
                && (forall n :: 0 <= n < |cs| ==> Client(realm, cs[n].base.clientId) in port.api.server.objects)
                && accounts == Accounts(port.api.server, realm, cs)
                && work == ClientScopeWork(port.api.server, realm, cs)
                && targets == Targets(port.api.server, realm, cs)
      ensures status == Status.Done && DistinctClientIds(cs) ==>
                OnClientLists(Start(map[], old(port.api.server), old(scopes.onClient), old(scopes.onRealm)), scopes, cs)
      ensures Seen(port.api.server, realm, uuids)
    {
      hide Accounts, ClientScopeWork, Targets, EnsureFullClient, EnsureFullClients, WellFormed, Grows, FlowsListed,
          C.NamesIn, C.Inverse, C.ListsOk, Seen, Held, Uuid, Ready, IsOnLists, OnClientLists, AllHeld, OnlyClientsAdded,
          NamesScopes, Lookup, Collected, Untouched;
      ReadyFacts(realm);
      ghost var z := Start(map[], port.api.server, scopes.onClient, scopes.onRealm);
      NoneHeld(scopes.Scopes(), z, scopes.onClient, port.api.server, realm, cs);
      NoClientAdded(port.api.server);
      accounts, work, targets, uuids := [], [], [], map[];
      assert cs[..0] == [] && cs[0..] == cs;
      NoClients(port.api, realm, FlowsListed(flows.forest), createOnly);
      GrowsItself(port.api.server);
      ghost var start := port.api;
      ghost var distinct := DistinctClientIds(cs);
      for i := 0 to |cs|
        invariant Ready(realm) && scopes.wasted == old(scopes.wasted) && scopes.onRealm == old(scopes.onRealm)
        invariant scopes.Scopes() == old(scopes.Scopes()) && OnlyClientsAdded(start.server, port.api.server)
        invariant EnsureFullClients(start, realm, cs, FlowsListed(flows.forest), createOnly)
                  == EnsureFullClients(port.api, realm, cs[i..], FlowsListed(flows.forest), createOnly)
        invariant Collected(port.api.server, realm, cs[..i], accounts, work, targets)
        invariant distinct ==> AllHeld(scopes.Scopes(), z, scopes.onClient, port.api.server, realm, cs, i)
        invariant distinct ==> Untouched(z, scopes.onClient, port.api.server, realm, cs, i)
        invariant Seen(port.api.server, realm, uuids)
      {
        var c := cs[i];
        ghost var before, lists := port.api, scopes.onClient;
        assert cs[i..][0] == c && cs[i..][1..] == cs[i + 1..];
        FullClientsStep(port.api, realm, cs[i..], FlowsListed(flows.forest), createOnly);
        var id;
        ReadyFacts(realm);
        status, id := RunClient(realm, c, createOnly, index);
        ReadyFacts(realm);
        OnlyClientsTwice(start.server, before.server, port.api.server);
        ClientsGrow(before.server, port.api.server);
        if status != Status.Done {
          SeenLater(before.server, port.api.server, realm, uuids);
          return;
        }
        CollectedSoFar(before.server, realm, cs, i, accounts, work, targets);
        CollectedOneMore(before.server, port.api.server, realm, cs, i, id, accounts, work, targets);
        SeenLater(before.server, port.api.server, realm, uuids);
        SeenOneMore(port.api.server, realm, uuids, c.base.clientId, id);
        LiveIs(port.api);
        if distinct {
          HeldFromStart(scopes.Scopes(), z, lists, scopes.onClient, before.server, port.api.server, realm, cs, i, id);
          HeldStill(scopes.Scopes(), z, lists, scopes.onClient, before.server, port.api.server, realm, cs, i, id);
          StillUntouched(z, lists, scopes.onClient, before.server, port.api.server, realm, cs, i, id);
        }
        if c.serviceAccountRoles.Some? {
          accounts := accounts + [Deferred(AccountOf(id), c.serviceAccountRoles.value)];
        }
        if c.scopeMappings.Some? {
          work := work + [Deferred(Scope(HolderKind.Clients, id), c.scopeMappings.value)];
        }
        uuids := uuids[c.base.clientId := id];
        if c.permissions.Some? {
          targets := targets + [P.Target(id, c.base.clientId, c.permissions)];
        }
      }
      assert cs[..|cs|] == cs && cs[|cs|..] == [];
      NoClients(port.api, realm, FlowsListed(flows.forest), createOnly);
      CollectedIs(port.api.server, realm, cs, accounts, work, targets);
      if distinct {
        AllAreOnLists(z, cs);
      }
      status := Status.Done;
    }

    /** One client: what it binds to, the client itself, its roles and its scopes. */
    method RunClient(realm: string, c: FullClient, createOnly: bool, index: C.Index) returns (status: Status, id: Id)
      requires Ready(realm) && (NamesScopes(c) ==> index.Matches(scopes))
      modifies port, scopes
      ensures Ready(realm) && scopes.wasted == old(scopes.wasted) && scopes.onRealm == old(scopes.onRealm)
      ensures scopes.Scopes() == old(scopes.Scopes()) && OnlyClientsAdded(old(port.api.server), port.api.server)
      ensures (port.api, status) == EnsureFullClient(old(port.api), realm, c, FlowsListed(flows.forest), createOnly)
      ensures status == Status.Done ==>
                && Lookup(port.api.server, Client(realm, c.base.clientId)) == Some(id)
                && id in port.api.server.owner && port.api.server.owner[id] == Client(realm, c.base.clientId)
                && (forall k :: k in port.api.server.objects && k.Client? ==>
                      k in old(port.api.server.objects) || k == Client(realm, c.base.clientId))
                && Held(scopes.Scopes(), realm,
                        Start(map[], old(port.api.server), old(scopes.onClient), old(scopes.onRealm)),
                        scopes.onClient, id, c)
      ensures forall other, kind :: other != id ==>
                ClientIds(scopes.onClient, other, kind) == ClientIds(old(scopes.onClient), other, kind)
    {
      hide EnsureClient, EnsureRoles, EnsureFullClient, WellFormed, Grows, FlowsListed, C.NamesIn, C.Inverse, C.ListsOk,
          FlowsKnown, Held, AccountKeys, RoleKeys;
      ghost var before := port.api;
      id := "";
      FullClientIs(before, realm, c, FlowsListed(flows.forest), createOnly);
      ClientIsLive(before, realm, c, createOnly);
      BoundIfListed(flows.forest, c.flowOverrides);
      var known := Peek(port.api, Client(realm, c.base.clientId));
      var resolver := new AuthFlows.Provisioner(flows);
      var resolved := resolver.ResolveFlowBindingOverrides(c.flowOverrides);
      if resolved.None? {
        return Status.NotFound, id;
      }
      var uuid := port.EnsureOneClient(realm, c.base, createOnly);
      id := uuid.value;
      status := port.EnsureAllRoles(realm, id, c.base.roles, createOnly);
      ScopesFollow(before, port.api, realm);
      ghost var z := Start(map[], before.server, scopes.onClient, scopes.onRealm);
      AssignScopes(c, id, known.None?, index);
      HeldNow(scopes.Scopes(), realm, z, scopes.onClient, id, c, known.None?);
    }

    /** The client's scopes: a new client starts with the realm's own, and then gets those its config names. */
    method AssignScopes(c: FullClient, id: Id, isNew: bool, index: C.Index)
      requires scopes.Valid() && scopes.ClientIsThere(id) && (NamesScopes(c) ==> index.Matches(scopes))
      modifies scopes`onClient, scopes`writes, scopes`wasted
      ensures scopes.Valid() && scopes.wasted == old(scopes.wasted)
      ensures forall other, kind :: other != id ==>
                ClientIds(scopes.onClient, other, kind) == ClientIds(old(scopes.onClient), other, kind)
      ensures
        var names := scopes.Scopes();
        var was := old(scopes.onClient);
        var d := if isNew then IdsOf(scopes.onRealm, C.Default) else ClientIds(was, id, C.Default);
        var o := if isNew then IdsOf(scopes.onRealm, C.Optional) else ClientIds(was, id, C.Optional);
        && C.NamesOf(names, ClientIds(scopes.onClient, id, C.Default)) ==
           C.NamesOf(names, d) + C.Known(names, c.defaultScopes) - C.Known(names, c.optionalScopes)
        && C.NamesOf(names, ClientIds(scopes.onClient, id, C.Optional)) ==
           C.NamesOf(names, o) - C.Known(names, c.defaultScopes) + C.Known(names, c.optionalScopes)
    {
      hide C.NamesIn, C.ListsOk, IsLive;
      if isNew {
        scopes.InheritRealmScopes(id);
      }
      var reconciler := new C.Provisioner(scopes);
      var ok := reconciler.EnsureClientScopeAssignments(id, c.defaultScopes, c.optionalScopes, index);
      assert forall other, kind :: ClientIds(scopes.onClient, other, kind) == scopes.Ids(other, kind);
      assert forall other, kind :: ClientIds(old(scopes.onClient), other, kind) == old(scopes.Ids(other, kind));
      assert forall kind :: IdsOf(scopes.onRealm, kind) == scopes.RealmIds(kind);
    }

    /** Work put off until the roles it names exist. */
    method RunDeferred(realm: string, ds: seq<Deferred>) returns (status: Status)
      modifies port
      ensures (port.api, status) == GrantDeferred(old(port.api), realm, ds)
    {
      hide EnsureRoleMappings, HolderOf;
      assert ds[0..] == ds;
      for i := 0 to |ds|
        invariant GrantDeferred(old(port.api), realm, ds) == GrantDeferred(port.api, realm, ds[i..])
      {
        assert ds[i..][0] == ds[i] && ds[i..][1..] == ds[i + 1..];
        DeferredStep(port.api, realm, ds[i..]);
        var d := ds[i];
        var holder := HolderOf(port.api, realm, d.owner);
        if holder.None? {
          return Status.NotFound;
        }
        status := port.EnsureRoleMappingsOf(realm, KindOf(d.owner), holder.value, d.roles.realm, d.roles.clients);
        if status != Status.Done {
          return;
        }
      }
      DeferredStep(port.api, realm, []);
      assert ds[|ds|..] == [];
      status := Status.Done;
    }

    /** Fine-grained permissions of the clients collected, with what the client loop already knows about UUIDs. */
    method RunPermissions(realm: string, targets: seq<P.Target>, uuids: map<string, string>, z: P.State,
        offered: set<string>)
    returns (outcome: P.Outcome, y: P.State)
      requires P.Valid(z, offered) && Seen(port.api.server, realm, uuids)
      ensures (y, outcome) == P.Run(z, ClientsOf(port.api.server, realm), offered, P.AllSteps(targets))
    {
      var clients := ClientsOf(port.api.server, realm);
      forall c | c in uuids ensures c in clients && clients[c] == uuids[c] {
        ClientIsSeen(port.api.server, realm, c);
      }
      var index := new P.ClientIndex(uuids);
      var authz := new P.AuthzServer(clients, offered, z);
      var reconciler := new P.Provisioner(authz);
      outcome := reconciler.EnsureAll(targets, index);
      y := authz.state;
    }

    method RunGroups(realm: string, gs: seq<GroupConfig>, createOnly: bool) returns (status: Status)
      modifies port
      ensures (port.api, status) == EnsureGroups(old(port.api), realm, "", gs, createOnly)
    {
      assert gs[0..] == gs;
      for i := 0 to |gs|
        invariant EnsureGroups(old(port.api), realm, "", gs, createOnly) ==
                  EnsureGroups(port.api, realm, "", gs[i..], createOnly)
      {
        assert gs[i..][0] == gs[i] && gs[i..][1..] == gs[i + 1..];
        EnsureGroupsStep(port.api, realm, "", gs[i..], createOnly);
        status := port.EnsureOneGroup(realm, "", gs[i], createOnly);
        if status != Status.Done {
          return;
        }
      }
      EnsureGroupsStep(port.api, realm, "", [], createOnly);
      assert gs[|gs|..] == [];
      status := Status.Done;
    }

    /** Steps 11 and 12: providers from one listing, then organizations against one index. */
    method RunProvidersAndOrganizations(z: P.State, w: Ways, r: Realm) returns (status: Status)
      requires I.DistinctAliases(r.providers) && I.ValidStore(idps.store) && O.Valid(orgs.state)
      requires idps.secrets == w.secrets && idps.given == w.given && WellFormed(port.api.server)
      requires OrgsFit(orgs.state, port.api.server, r.name, idps.store)
      modifies idps, orgs
      ensures (Rest(z, idps.store, orgs.state), status) ==
              ProvidersThenOrgs(port.api.server, Rest(z, old(idps.store), old(orgs.state)), w, r)
    {
      hide WellFormed, O.Valid, UsersOf, O.ProvisionAll, O.IndexFor, O.AllUpToDate, I.ValidStore;
      var ok := I.EnsureIdentityProviders(idps, r.providers, r.createOnly);
      I.ReconciledKeys(old(idps.store), r.providers, r.createOnly, w.secrets, w.given);
      StillValid(orgs.state, port.api.server, r.name, idps.store);
      orgs.state := Refreshed(orgs.state, port.api.server, r.name, idps.store);
      var reconciler := new O.Provisioner(orgs);
      var outcome, _ := reconciler.EnsureOrganizations(r.organizations);
      status := OrgStatus(outcome);
    }

    /** The names of the realm's scopes, listed if anything needs them. */
    method LoadIndex(r: Realm) returns (index: C.Index)
      requires scopes.Valid()
      ensures fresh(index) && (NeedsClientScopeIndex(r) ==> index.Matches(scopes))
    {
      index := new C.Index();
      if NeedsClientScopeIndex(r) {
        var loader := new C.Provisioner(scopes);
        index := loader.LoadClientScopeIndex();
      }
    }

    /** Steps 3 and 4: bindings, then scopes, whose names are listed once if anything needs them. */
    method RunBefore(r: Realm) returns (status: Status, work: seq<Deferred>, index: C.Index)
      requires Ready(r.name)
      modifies port, scopes, bindings
      ensures Ready(r.name) && scopes.wasted == old(scopes.wasted) && scopes.onClient == old(scopes.onClient)
      ensures (port.api, status) == Before(old(port.api), FlowsListed(flows.forest), r)
      ensures Grows(old(port.api.server), port.api.server) && fresh(index)
      ensures forall i :: 0 <= i < |r.clients| && NamesScopes(r.clients[i]) ==> index.Matches(scopes)
      ensures status == Status.Done ==>
                && ScopesThere(port.api.server, r.name, r.scopes)
                && work == ScopeWork(port.api.server, r.name, r.scopes)
                && bindings.bound == old(bindings.bound) + AuthFlows.Configured(r.bindings)
                && (DistinctScopeNames(r.scopes) ==> OnRealmLists(old(scopes.onRealm), scopes, r.scopes))
    {
      hide WellFormed, Grows, EnsureScopes, ScopeWork, FlowsListed, C.NamesIn, C.Inverse, C.ListsOk, FlowsKnown,
          AuthFlows.Configured, PlacedOn, ScopesThere, Bind;
      work := [];
      ghost var start := port.api;
      NamersNeedIndex(r);
      var binder := new AuthFlows.Provisioner(flows);
      BoundIfListed(flows.forest, AuthFlows.Configured(r.bindings));
      ConfiguredIs(r.bindings, flows.forest);
      var bound := binder.EnsureAuthenticationBindings(bindings, r.bindings);
      port.api := Bind(port.api, r);
      BindKeeps(start, r);
      LiveIs(start);
      LiveIs(port.api);
      GrowsItself(start.server);
      index := LoadIndex(r);
      if !bound {
        return Refused, work, index;
      }
      status, work := RunScopes(r.scopes, r.createOnly, index);
    }

    /** Steps 5 to 7. */
    method RunMiddle(r: Realm, scopeWork: seq<Deferred>, index: C.Index)
        returns (status: Status, targets: seq<P.Target>, uuids: map<string, string>)
      requires Ready(r.name) && ScopesThere(port.api.server, r.name, r.scopes)
      requires forall i :: 0 <= i < |r.clients| && NamesScopes(r.clients[i]) ==> index.Matches(scopes)
      requires scopeWork == ScopeWork(port.api.server, r.name, r.scopes)
      modifies port, scopes
      ensures (port.api, status) == Middle(old(port.api), FlowsListed(flows.forest), r)
      ensures scopes.wasted == old(scopes.wasted) && scopes.onRealm == old(scopes.onRealm)
      ensures status == Status.Done ==>
                && Ready(r.name) && Grows(old(port.api.server), port.api.server)
                && Seen(port.api.server, r.name, uuids)
                && targets == Targets(port.api.server, r.name, r.clients)
                && (Accepted(r) ==>
                      OnClientLists(Start(map[], old(port.api.server), old(scopes.onClient), old(scopes.onRealm)),
                                    scopes, r.clients))
                && forall n :: 0 <= n < |r.clients| ==>
                     Client(r.name, r.clients[n].base.clientId) in port.api.server.objects
    {
      hide WellFormed, Grows, EnsureFullClients, EnsureRoles, GrantDeferred, Accounts, ScopeWork, ClientScopeWork,
          Targets, FlowsListed, C.NamesIn, C.Inverse, C.ListsOk, Seen, Held, Uuid, ScopesThere, Middle, DeferredDone;
      ghost var a, listed := port.api, FlowsListed(flows.forest);
      AcceptedClients(r);
      MiddleIs(a, listed, r);
      var accounts, clientWork;
      status, accounts, clientWork, targets, uuids := RunClients(r.name, r.clients, r.createOnly, index);
      if status != Status.Done {
        return;
      }
      ghost var b := port.api;
      status := port.EnsureAllRoles(r.name, "", r.roles, r.createOnly);
      ghost var c := port.api;
      RolesKeep(b, r);
      LiveIs(b);
      LiveIs(c);
      status := RunAllDeferred(r.name, accounts, scopeWork + clientWork);
      ClientsGrow(a.server, b.server);
      if status == Status.Done {
        ghost var work := accounts + (scopeWork + clientWork);
        OwnersAreKnown(a.server, b.server, c.server, r);
        DeferredLive(c, r.name, work);
        DeferredFacts(c, port.api, status, r.name, work);
        MiddleThen(a, b, c, port.api, r, uuids);
      }
    }

    /** The two lists of deferred work, one after the other. */
    method RunAllDeferred(realm: string, accounts: seq<Deferred>, work: seq<Deferred>) returns (status: Status)
      modifies port
      ensures (port.api, status) == GrantDeferred(old(port.api), realm, accounts + work)
    {
      DeferredConcat(port.api, realm, accounts, work);
      status := RunDeferred(realm, accounts);
      if status == Status.Done {
        status := RunDeferred(realm, work);
      }
    }

    /** Steps 9 and 10. */
    method RunPeople(r: Realm) returns (status: Status)
      requires IsLive(port.api) && r.name in port.api.server.realms && Accepted(r)
      modifies port
      ensures (port.api, status) == GroupsThenUsers(old(port.api), r)
      ensures status == Status.Done ==>
                && IsLive(port.api) && Grows(old(port.api.server), port.api.server)
                && r.name in port.api.server.realms
                && C.NamesIn(port.api.server, r.name) == C.NamesIn(old(port.api.server), r.name)
    {
      hide WellFormed, Grows, EnsureGroups, EnsureUsers, C.NamesIn;
      ghost var a := port.api;
      GroupsThenUsersIs(a, r);
      status := RunGroups(r.name, r.groups, r.createOnly);
      if status == Status.Done {
        ghost var b := port.api;
        status := Users.RunUsers(port, r.name, r.users, r.createOnly);
        PeopleKeep(a, b, r);
      }
    }

    /** Steps 3 to 12. */
    method RunAfterFlows(r: Realm, z: P.State, w: Ways) returns (status: Status, y: P.State)
      requires Ready(r.name) && Accepted(r) && P.Valid(z, w.offered)
      requires I.ValidStore(idps.store) && O.Valid(orgs.state) && idps.secrets == w.secrets && idps.given == w.given
      requires OrgsFit(orgs.state, port.api.server, r.name, idps.store)
      modifies port, scopes, bindings, idps, orgs
      ensures (port.api, Rest(y, idps.store, orgs.state), status) ==
              AfterFlows(old(port.api), FlowsListed(flows.forest), Rest(z, old(idps.store), old(orgs.state)), w, r)
      ensures status == Status.Done ==>
                ListsRight(r, Start(old(scopes.onRealm), old(port.api.server), old(scopes.onClient), scopes.onRealm),
                           old(scopes.wasted), old(bindings.bound))
    {
      hide WellFormed, Grows, FlowsListed, C.NamesIn, C.Inverse, C.ListsOk, Seen, Held, Uuid, ScopesThere, Middle,
          Before, GroupsThenUsers, ProvidersThenOrgs, Permit, PlacedOn, Accepted, P.Valid, O.Valid, UsersOf, Ready,
          ScopeWork, Targets, ClientsOf, P.AllSteps, P.Run, AuthFlows.Configured, DistinctScopeNames;
      y := z;
      AcceptedFacts(r);
      ReadyFacts(r.name);
      ghost var start, rest := port.api, Rest(z, idps.store, orgs.state);
      AfterFlowsIs(start, FlowsListed(flows.forest), rest, w, r);
      var work, index;
      status, work, index := RunBefore(r);
      ReadyFacts(r.name);
      if status != Status.Done {
        return;
      }
      ghost var a, y0 := port.api, Start(map[], port.api.server, scopes.onClient, scopes.onRealm);
      ghost var z0 := Start(old(scopes.onRealm), start.server, old(scopes.onClient), scopes.onRealm);
      var targets, uuids;
      status, targets, uuids := RunMiddle(r, work, index);
      if status != Status.Done {
        return;
      }
      ReadyFacts(r.name);
      ghost var c := port.api;
      var outcome;
      outcome, y := RunPermissions(r.name, targets, uuids, z, w.offered);
      PermitIs(c.server, z, w.offered, r, targets);
      if outcome != P.Outcome.Done {
        status := StatusOf(outcome);
        return;
      }
      status := RunPeople(r);
      if status != Status.Done {
        return;
      }
      LiveIs(port.api);
      GrowsTransitive(start.server, a.server, c.server);
      GrowsTransitive(start.server, c.server, port.api.server);
      StillFits(orgs.state, start.server, port.api.server, r.name, idps.store);
      SameClientsBefore(start, a, FlowsListed(flows.forest), r);
      ListsLater(r, z0, y0, a.server, c.server);
      status := RunProvidersAndOrganizations(y, w, r);
    }

    /** A realm from beginning to end, whatever it holds: the realm, its flows, and the rest. The run goes through
        exactly when its flows are there or can be created and the config names only what it declares or the realm has
        by then; and then everything declared holds, as far as what it names is there. However it ends, it sends the
        requests that what has been declared so far calls for, and nothing that was there is lost. */
    method ProvisionRealm(fs: seq<FlowConfig.Flow>, r: Realm, z: P.State, w: Ways)
        returns (status: Status, y: P.State, ghost created: FlowServer.Forest, ghost asked: Asked)
      requires flows.Valid() && bindings.flows == flows && scopes.port == port && scopes.realm == r.name
      requires IsLive(port.api) && Accepted(r) && P.Valid(z, w.offered)
      requires C.ListsOk(scopes.Scopes(), scopes.onClient, scopes.onRealm)
      requires I.ValidStore(idps.store) && O.Valid(orgs.state) && idps.secrets == w.secrets && idps.given == w.given
      requires OrgsFit(orgs.state, port.api.server, r.name, idps.store)
      modifies port, flows, scopes, bindings, idps, orgs
      ensures Grows(old(port.api).server, port.api.server)
      ensures
        var creatable := AuthFlows.AllCreatable(D(), old(flows.forest), fs);
        var listed := FlowsListed(old(flows.forest)) + DeclaredAliases(fs);
        var b := BeginRealm(old(port.api), r.name, r.createOnly, w.builtIn).0;
        var rest, next := Rest(z, old(idps.store), old(orgs.state)), Rest(y, idps.store, orgs.state);
        && (status == Status.Done <==> creatable && Refers(r, b.server, rest, listed, w.offered))
        && (creatable ==>
              && Requested(old(port.api), port.api, asked, r, w.builtIn)
              && (port.api, next, status) == AfterFlows(b, listed, rest, w, r))
        && (!creatable ==> port.api == b && next == rest)
        && (status == Status.Done ==>
              && IsLive(port.api) && asked == RealmAsked(b.server, port.api.server, r)
              && flows.forest == old(flows.forest) + created
              && AuthFlows.FlowsAre(D(), old(flows.forest), fs, created) && FlowsListed(flows.forest) == listed
              && Established(b.server, rest, port.api.server, next, w, r)
              && ListsRight(r, Start(old(scopes.onRealm), b.server, old(scopes.onClient), scopes.onRealm),
                            old(scopes.wasted), old(bindings.bound))
              && ScopesAsDeclared(scopes.Scopes(), scopes.onClient, port.api.server, r, b.server))
    {
      hide WellFormed, Grows, FlowsListed, C.NamesIn, C.ListsOk, BeginRealm, AfterFlows, Refers, Established,
          ScopesAsDeclared, Fits, AuthFlows.AllCreatable, Accepted, P.Valid, O.Valid, Requested, RealmAsked, Follows,
          UsersOf, I.ValidStore, Held, OnRealmLists, OnClientLists, DeclaredAliases, AuthFlows.Configured,
          FlowServer.Server.Valid, AuthFlows.FlowsAre, ListsRight;
      y, asked := z, NOTHING;
      ghost var a, forest, rest := port.api, flows.forest, Rest(z, idps.store, orgs.state);
      RealmStarts(a, r, w.builtIn);
      var (next, began) := BeginRealm(port.api, r.name, r.createOnly, w.builtIn);
      port.api, status := next, began;
      ghost var b := port.api;
      StillFits(orgs.state, a.server, b.server, r.name, idps.store);
      LiveIs(b);
      FitsIs(b.server, rest, w, r);
      var builder := new AuthFlows.Provisioner(flows);
      var built;
      built, created := builder.EnsureAuthenticationFlows(fs);
      if built != AuthFlows.Done {
        return Refused, y, created, asked;
      }
      FlowsAreListed(D(), forest, fs, created);
      ghost var listed := FlowsListed(flows.forest);
      status, y := RunAfterFlows(r, z, w);
      RealmProgress(b, listed, rest, w, r);
      asked := RunFollows(b, listed, rest, w, r);
      RequestsOfRun(a, port.api, asked, r, w.builtIn);
      FollowsGrows(Bind(b, r), port.api, asked, r.createOnly);
      BindKeeps(b, r);
      GrowsTransitive(a.server, b.server, port.api.server);
      if status == Status.Done {
        EstablishedFacts(b.server, rest, port.api.server, Rest(y, idps.store, orgs.state), w, r);
        ListsFacts(r, Start(old(scopes.onRealm), b.server, old(scopes.onClient), scopes.onRealm), old(scopes.wasted),
                   old(bindings.bound));
        HeldAsDeclared(scopes.Scopes(), Start(old(scopes.onRealm), b.server, old(scopes.onClient), scopes.onRealm),
                       scopes.onClient, port.api.server, r, b.server);
      }
    }

    lemma ListsFacts(r: Realm, z: Start, wasted: nat, bound: map<string, string>)
      requires ListsRight(r, z, wasted, bound)
      ensures scopes.port == port
      ensures forall i :: 0 <= i < |r.clients| ==>
                Held(scopes.Scopes(), scopes.realm, z, scopes.onClient,
                     Uuid(port.api.server, scopes.realm, r.clients[i]), r.clients[i])
    {
      hide Held;
      forall i | 0 <= i < |r.clients|
        ensures Held(scopes.Scopes(), scopes.realm, z, scopes.onClient,
                     Uuid(port.api.server, scopes.realm, r.clients[i]), r.clients[i])
      {
        assert IsOnLists(z, scopes, r.clients[i]);
      }
    }

    ghost function D(): AuthFlows.Defaults {
      AuthFlows.Defaults(flows.defaultRequirement, flows.subflowRequirement)
    }

    /** Scopes are where they are to be, no scope request was wasted, and the bindings are set. */
    ghost predicate ListsRight(r: Realm, z: Start, wasted: nat, bound: map<string, string>)
      reads this, port, scopes, bindings
    {
      && scopes.port == port && scopes.wasted == wasted && scopes.Valid()
      && bindings.bound == bound + AuthFlows.Configured(r.bindings)
      && OnRealmLists(z.onRealm, scopes, r.scopes) && OnClientLists(z, scopes, r.clients)
    }

    /** The lists filled in steps 4 and 5 are right at the end, too. */
    lemma ListsLater(r: Realm, z: Start, y: Start, a: Server, c: Server)
      requires scopes.port == port && scopes.realm == r.name
      requires PlacedOn(z.onRealm, scopes.onRealm, a, r.name, r.scopes) && ScopesThere(a, r.name, r.scopes)
      requires Grows(a, c) && Grows(c, port.api.server)
      requires y.onClient == z.onClient && y.inherited == z.inherited
      requires forall k: Key :: k.Client? ==> (k in y.server.objects <==> k in z.server.objects)
      requires forall n :: 0 <= n < |r.clients| ==>
                 Client(r.name, r.clients[n].base.clientId) in c.objects
                 && Held(C.NamesIn(c, r.name), r.name, y, scopes.onClient, Uuid(c, r.name, r.clients[n]), r.clients[n])
      requires C.NamesIn(port.api.server, r.name) == C.NamesIn(c, r.name)
      ensures OnRealmLists(z.onRealm, scopes, r.scopes) && OnClientLists(z, scopes, r.clients)
    {
      hide Grows, C.NamesIn, Uuid, ScopesThere, PlacedOn;
      PlacesStay(a, c, port.api.server, r, z.onRealm, scopes.onRealm);
      UuidsStay(c, port.api.server, r);
      forall n | 0 <= n < |r.clients| ensures IsOnLists(z, scopes, r.clients[n]) {
        var c', id := r.clients[n], Uuid(c, r.name, r.clients[n]);
        assert Held(C.NamesIn(c, r.name), r.name, y, scopes.onClient, id, c');
        assert forall kind :: StartIds(y, r.name, c', id, kind) == StartIds(z, r.name, c', id, kind);
      }
    }

    lemma ReadyFacts(realm: string)
      requires Ready(realm)
      ensures flows.Valid() && scopes.port == port && scopes.realm == realm && IsLive(port.api)
      ensures realm in port.api.server.realms && C.ListsOk(scopes.Scopes(), scopes.onClient, scopes.onRealm)
    {}
  }

  lemma NothingPlaced(lists: map<C.Kind, set<string>>, s: Server, realm: string)
    ensures PlacedOn(lists, lists, s, realm, [])
  {}

  lemma NoScopes(a: Api, realm: string)
    ensures ScopeWork(a.server, realm, []) == [] && ScopesThere(a.server, realm, [])
    ensures forall createOnly :: EnsureScopes(a, realm, [], createOnly) == (a, Status.Done)
  {}

  lemma ScopeIsThere(a: Api, realm: string, name: string)
    requires IsLive(a) && name in C.NamesIn(a.server, realm).Values
    ensures ClientScope(realm, name) in a.server.objects
  {
    C.ScopesAreObjects(a.server, realm);
  }

  /** Where the scopes go after one more of them. */
  lemma GoesOneMore(s: Server, t: Server, realm: string, cs: seq<ScopeConfig>, i: nat, id: Id)
    requires i < |cs| && Grows(s, t) && ScopesThere(s, realm, cs[..i])
    requires Lookup(t, ClientScope(realm, cs[i].name)) == Some(id)
    ensures forall kind, x :: GoesOn(t, realm, cs[..i + 1], kind, x) <==>
              GoesOn(s, realm, cs[..i], kind, x) || (cs[i].scopeType == C.Assigned(kind) && x == id)
    ensures forall x :: GoesSomewhere(t, realm, cs[..i + 1], x) <==>
              GoesSomewhere(s, realm, cs[..i], x) || (cs[i].scopeType.Assigned? && x == id)
  {
    var front, next := cs[..i], cs[..i + 1];
    assert |next| == i + 1 && next[i] == cs[i] && forall j :: 0 <= j < i ==> front[j] == cs[j] == next[j];
    forall j, x | 0 <= j < i ensures IsPlaced(next[j], t, realm, x) <==> IsPlaced(front[j], s, realm, x) {
      assert ClientScope(realm, front[j].name) in s.objects;
    }
    assert forall x :: IsPlaced(next[i], t, realm, x) <==> cs[i].scopeType.Assigned? && x == id;
    hide IsPlaced, Grows, ScopesThere;
    forall kind, x | cs[i].scopeType == C.Assigned(kind) && x == id ensures GoesOn(t, realm, next, kind, x) {
      assert IsPlaced(next[i], t, realm, x);
    }
    forall kind, x | GoesOn(s, realm, front, kind, x) ensures GoesOn(t, realm, next, kind, x) {
      var j :| 0 <= j < i && IsPlaced(front[j], s, realm, x) && front[j].scopeType.kind == kind;
      assert IsPlaced(next[j], t, realm, x);
    }
    forall x | GoesSomewhere(s, realm, front, x) ensures GoesSomewhere(t, realm, next, x) {
      var j :| 0 <= j < i && IsPlaced(front[j], s, realm, x);
      assert IsPlaced(next[j], t, realm, x);
    }
  }

  /** A scope not dealt with yet goes nowhere yet. */
  lemma NotYetPlaced(s: Server, t: Server, realm: string, cs: seq<ScopeConfig>, i: nat, id: Id)
    requires i < |cs| && DistinctScopeNames(cs) && WellFormed(t) && Grows(s, t) && ScopesThere(s, realm, cs[..i])
    requires Lookup(t, ClientScope(realm, cs[i].name)) == Some(id)
    ensures !GoesSomewhere(s, realm, cs[..i], id)
  {
    hide PathsOk, MappingsOk, MembershipsOk;
    forall j | 0 <= j < i ensures !IsPlaced(cs[..i][j], s, realm, id) {
      assert cs[..i][j] == cs[j] && ClientScope(realm, cs[..i][j].name) in s.objects;
      var x := s.objects[ClientScope(realm, cs[j].name)];
      assert t.owner[x] == ClientScope(realm, cs[j].name) && t.owner[id] == ClientScope(realm, cs[i].name);
    }
  }

  /** The lists after one more scope: its own place is right, and no other's has changed. */
  lemma PlacedOneMore(before: map<C.Kind, set<string>>, lists: map<C.Kind, set<string>>,
      later: map<C.Kind, set<string>>, s: Server, t: Server, realm: string, cs: seq<ScopeConfig>, i: nat, id: Id)
    requires i < |cs| && DistinctScopeNames(cs) && WellFormed(t) && Grows(s, t) && ScopesThere(s, realm, cs[..i])
    requires Lookup(t, ClientScope(realm, cs[i].name)) == Some(id) && PlacedOn(before, lists, s, realm, cs[..i])
    requires forall kind, x :: OnList(later, kind, x) <==> MovedTo(lists, cs[i].scopeType, id, kind, x)
    ensures PlacedOn(before, later, t, realm, cs[..i + 1])
  {
    GoesOneMore(s, t, realm, cs, i, id);
    NotYetPlaced(s, t, realm, cs, i, id);
    hide WellFormed, Grows, ScopesThere, GoesOn, GoesSomewhere, OnList, DistinctScopeNames;
  }

  /** Where a scope is once the one called `id` has been put where its type says. */
  predicate MovedTo(lists: map<C.Kind, set<string>>, scopeType: C.ScopeType, id: Id, kind: C.Kind, x: Id) {
    if !scopeType.Assigned? || x != id then OnList(lists, kind, x) else kind == scopeType.kind
  }

  lemma PlacesKept(before: map<C.Kind, set<string>>, after: map<C.Kind, set<string>>, scopeType: C.ScopeType, id: Id)
    requires scopeType.Assigned? ==>
               && IdsOf(after, scopeType.kind) == IdsOf(before, scopeType.kind) + {id}
               && IdsOf(after, C.Other(scopeType.kind)) == IdsOf(before, C.Other(scopeType.kind)) - {id}
    requires !scopeType.Assigned? ==> after == before
    ensures forall kind, x :: OnList(after, kind, x) <==> MovedTo(before, scopeType, id, kind, x)
  {
    forall kind, x ensures OnList(after, kind, x) <==> MovedTo(before, scopeType, id, kind, x) {
      assert OnList(after, kind, x) <==> x in IdsOf(after, kind);
      assert OnList(before, kind, x) <==> x in IdsOf(before, kind);
      assert scopeType.Assigned? ==> kind == scopeType.kind || kind == C.Other(scopeType.kind);
    }
  }

  /** Clients leave the scopes as they are. */
  lemma ScopesFollow(a: Api, b: Api, realm: string)
    requires IsLive(a) && IsLive(b) && OnlyClientsAdded(a.server, b.server)
    ensures C.NamesIn(b.server, realm) == C.NamesIn(a.server, realm) && Grows(a.server, b.server)
    ensures a.server.realms == b.server.realms
  {
    ClientsLeaveScopes(a.server, b.server, realm);
  }

  lemma SeenOneMore(s: Server, realm: string, uuids: map<string, string>, clientId: string, id: Id)
    requires Seen(s, realm, uuids) && Lookup(s, Client(realm, clientId)) == Some(id)
    ensures Seen(s, realm, uuids[clientId := id])
  {}

  lemma ConfiguredIs(bindings: map<string, string>, forest: FlowServer.Forest)
    ensures forall b :: b in AuthFlows.Configured(bindings) ==>
              b in bindings && AuthFlows.Configured(bindings)[b] == bindings[b]
  {}

  lemma NamersNeedIndex(r: Realm)
    ensures forall i :: 0 <= i < |r.clients| && NamesScopes(r.clients[i]) ==> NeedsClientScopeIndex(r)
    ensures r.scopes != [] ==> NeedsClientScopeIndex(r)
  {}

  lemma AcceptedClients(r: Realm)
    ensures Accepted(r) ==>
              DistinctClientIds(r.clients) && forall i :: 0 <= i < |r.clients| ==> ClientAccepted(r.clients[i])
  {}

  lemma RolesKeep(a: Api, r: Realm)
    requires IsLive(a) && r.name in a.server.realms
    ensures
      var (b, status) := EnsureRoles(a, r.name, "", r.roles, r.createOnly);
      && status == Status.Done && IsLive(b) && Grows(a.server, b.server) && b.server.realms == a.server.realms
      && b.server.objects.Keys == a.server.objects.Keys + RoleKeys(r.name, "", r.roles)
  {
    assert RoleHome(a.server, r.name, "");
    EnsureRolesLive(a, r.name, "", r.roles, r.createOnly);
  }

  /** Owners of scopes are there whatever the realm. */
  lemma OwnersAreKnown(a: Server, b: Server, c: Server, r: Realm)
    requires WellFormed(c) && Grows(a, b) && Grows(b, c) && ScopesThere(a, r.name, r.scopes)
    requires forall n :: 0 <= n < |r.clients| ==> Client(r.name, r.clients[n].base.clientId) in b.objects
    ensures OwnersKnown(c, r.name, Accounts(b, r.name, r.clients)
                        + (ScopeWork(a, r.name, r.scopes) + ClientScopeWork(b, r.name, r.clients)))
  {
    hide WellFormed, OwnersKnown, Accounts, ScopeWork, ClientScopeWork, AllWorkable, ScopesThere;
    GrowsTransitive(a, b, c);
    ScopesStay(a, c, r.name, r.scopes);
    ListsKeep(b, c, r.name, r.clients);
    ScopeWorkKeeps(a, c, r.name, r.scopes);
    AccountsWorkable(c, r.name, r.clients);
    ScopesWorkable(c, r.name, r.scopes);
    ClientScopesWorkable(c, r.name, r.clients);
    WorkOfBoth(c, r.name, ScopeWork(c, r.name, r.scopes), ClientScopeWork(c, r.name, r.clients));
    WorkOfBoth(c, r.name, Accounts(c, r.name, r.clients),
               ScopeWork(c, r.name, r.scopes) + ClientScopeWork(c, r.name, r.clients));
  }

  /** Roles and grants leave the scopes as they are. */
  lemma SameScopesLater(b: Server, c: Server, d: Server, r: Realm)
    requires WellFormed(b) && WellFormed(c) && Grows(b, c) && c.realms == b.realms
    requires c.objects.Keys == b.objects.Keys + RoleKeys(r.name, "", r.roles)
    requires Grows(c, d) && d == c.(mappings := d.mappings)
    ensures C.NamesIn(d, r.name) == C.NamesIn(b, r.name) && Grows(b, d) && d.realms == b.realms
  {
    GrowsTransitive(b, c, d);
    C.SameScopes(b, c, r.name);
  }

  lemma PlacesStay(a: Server, b: Server, d: Server, r: Realm, before: map<C.Kind, set<string>>,
                   lists: map<C.Kind, set<string>>)
    requires Grows(a, b) && Grows(b, d) && ScopesThere(a, r.name, r.scopes)
    ensures PlacedOn(before, lists, a, r.name, r.scopes) ==> PlacedOn(before, lists, d, r.name, r.scopes)
  {
    GrowsTransitive(a, b, d);
    forall i, x | 0 <= i < |r.scopes|
      ensures IsPlaced(r.scopes[i], d, r.name, x) <==> IsPlaced(r.scopes[i], a, r.name, x) {}
    hide IsPlaced, Grows, OnList;
  }

  /** Bindings and scopes add no clients. */
  lemma SameClientsBefore(a: Api, b: Api, flows: set<string>, r: Realm)
    requires IsLive(a) && r.name in a.server.realms && Before(a, flows, r) == (b, Status.Done)
    ensures forall k: Key :: k.Client? ==> (k in b.server.objects <==> k in a.server.objects)
  {
    hide WellFormed, EnsureScopes, FlowsKnown, AuthFlows.Configured, Bind;
    BindKeeps(a, r);
    LiveIs(a);
    LiveIs(Bind(a, r));
    EnsureScopesLive(Bind(a, r), r.name, r.scopes, r.createOnly);
  }

  lemma UuidsStay(b: Server, d: Server, r: Realm)
    requires Grows(b, d) && forall n :: 0 <= n < |r.clients| ==> Client(r.name, r.clients[n].base.clientId) in b.objects
    ensures forall n :: 0 <= n < |r.clients| ==> Uuid(d, r.name, r.clients[n]) == Uuid(b, r.name, r.clients[n])
  {}

  lemma ClientsGrow(s: Server, t: Server)
    requires OnlyClientsAdded(s, t)
    ensures Grows(s, t) && t.realms == s.realms
  {}

  lemma DeferredFacts(a: Api, b: Api, status: Status, realm: string, ds: seq<Deferred>)
    requires DeferredDone(a, b, status, realm, ds)
    ensures IsLive(b) && Grows(a.server, b.server) && b.server == a.server.(mappings := b.server.mappings)
  {}

  /** What roles and grants leave as the clients had it. */
  lemma MiddleThen(a: Api, b: Api, c: Api, d: Api, r: Realm, uuids: map<string, string>)
    requires Grows(a.server, b.server) && Grows(b.server, c.server) && Grows(c.server, d.server)
    requires WellFormed(b.server) && WellFormed(c.server) && c.server.realms == b.server.realms
    requires c.server.objects.Keys == b.server.objects.Keys + RoleKeys(r.name, "", r.roles)
    requires d.server == c.server.(mappings := d.server.mappings) && Seen(b.server, r.name, uuids)
    requires forall n :: 0 <= n < |r.clients| ==> Client(r.name, r.clients[n].base.clientId) in b.server.objects
    ensures Grows(a.server, d.server) && C.NamesIn(d.server, r.name) == C.NamesIn(b.server, r.name)
    ensures d.server.realms == b.server.realms && Seen(d.server, r.name, uuids)
    ensures Targets(d.server, r.name, r.clients) == Targets(b.server, r.name, r.clients)
    ensures forall n :: 0 <= n < |r.clients| ==>
              Uuid(d.server, r.name, r.clients[n]) == Uuid(b.server, r.name, r.clients[n])
  {
    hide *;
    SameScopesLater(b.server, c.server, d.server, r);
    GrowsTransitive(a.server, b.server, d.server);
    SeenLater(b.server, d.server, r.name, uuids);
    ListsKeep(b.server, d.server, r.name, r.clients);
    UuidsStay(b.server, d.server, r);
  }

  lemma PermitIs(s: Server, z: P.State, offered: set<string>, r: Realm, targets: seq<P.Target>)
    requires targets == Targets(s, r.name, r.clients)
    ensures
      var (y, outcome) := P.Run(z, ClientsOf(s, r.name), offered, P.AllSteps(targets));
      Permit(s, z, offered, r) == (y, StatusOf(outcome))
    ensures forall o :: StatusOf(o) == Status.Done <==> o == P.Outcome.Done
  {}

  /** Groups and users leave the scopes as they are. */
  lemma PeopleKeep(a: Api, b: Api, r: Realm)
    requires IsLive(a) && r.name in a.server.realms && Accepted(r)
    requires EnsureGroups(a, r.name, "", r.groups, r.createOnly) == (b, Status.Done)
    ensures
      var c := EnsureUsers(b, r.name, r.users, r.createOnly).0;
      IsLive(c) && Grows(a.server, c.server) && C.NamesIn(c.server, r.name) == C.NamesIn(a.server, r.name)
      && r.name in c.server.realms
  {
    hide *;
    TopLevel(a.server, r.name);
    EnsureGroupsLive(a, r.name, "", r.groups, r.createOnly);
    GroupDoneFacts(a, b, Status.Done, r.name, "", r.groups);
    AcceptedFacts(r);
    EnsureUsersLive(b, r.name, r.users, r.createOnly);
    var c := EnsureUsers(b, r.name, r.users, r.createOnly).0;
    UsersGrow(b.server, c.server, r.name, r.users);
    LiveIs(a);
    LiveIs(b);
    LiveIs(c);
    NoScopesAdded(a.server, b.server, c.server, r);
  }

  lemma TopLevel(s: Server, realm: string)
    ensures ParentOk(s, realm, "")
  {}

  lemma NoScopesAdded(a: Server, b: Server, c: Server, r: Realm)
    requires WellFormed(a) && WellFormed(b) && WellFormed(c)
    requires OnlyGroupsAdded(a, b) && OnlyUsersAdded(b, c, r.name, r.users)
    ensures Grows(a, c) && C.NamesIn(c, r.name) == C.NamesIn(a, r.name)
  {
    hide WellFormed;
    GrowsTransitive(a, b, c);
    assert forall name :: ClientScope(r.name, name) in c.objects ==> ClientScope(r.name, name) in a.objects;
    SameScopesOf(a, c, r.name);
  }

  lemma SameScopesOf(s: Server, t: Server, realm: string)
    requires WellFormed(s) && WellFormed(t) && Grows(s, t)
    requires forall name :: ClientScope(realm, name) in t.objects ==> ClientScope(realm, name) in s.objects
    ensures C.NamesIn(t, realm) == C.NamesIn(s, realm)
  {
    C.SameScopes(s, t, realm);
  }

  function DeclaredAliases(fs: seq<FlowConfig.Flow>): set<string> {
    set f | f in fs :: f.alias
  }

  /** The flows of the config are in the listing, created or there before. */
  lemma {:induction false} FlowsAreListed(d: AuthFlows.Defaults, forest: FlowServer.Forest,
      fs: seq<FlowConfig.Flow>, created: FlowServer.Forest)
    requires AuthFlows.AreDeclared(d, forest, fs, created)
    ensures FlowsListed(forest + created) == FlowsListed(forest) + DeclaredAliases(fs)
    decreases |fs|
  {
    hide FlowsListed, DeclaredAliases, AuthFlows.IsDeclaredFlow;
    if fs == [] {
      assert forest + created == forest;
      NoAliases();
    } else {
      MoreAliases(fs);
      if FlowServer.TopLevel(forest, fs[0].alias).Some? {
        ListedIsTopLevel(forest, fs[0].alias);
        FlowsAreListed(d, forest, fs[1..], created);
      } else {
        var n := created[0];
        assert forest + created == (forest + [n]) + created[1..];
        FlowsAreListed(d, forest + [n], fs[1..], created[1..]);
        DeclaredIsFlow(d, forest, fs[0], n);
        OneMoreListed(forest, n);
      }
    }
  }

  lemma DeclaredIsFlow(d: AuthFlows.Defaults, forest: FlowServer.Forest, f: FlowConfig.Flow, n: FlowServer.Node)
    requires AuthFlows.IsDeclaredFlow(d, forest, f, n)
    ensures n.body.Sub? && n.body.alias == f.alias
  {}

  lemma NoAliases()
    ensures DeclaredAliases([]) == {}
  {}

  lemma MoreAliases(fs: seq<FlowConfig.Flow>)
    requires fs != []
    ensures DeclaredAliases(fs) == {fs[0].alias} + DeclaredAliases(fs[1..])
  {
    assert fs == [fs[0]] + fs[1..];
    forall a ensures a in DeclaredAliases(fs) <==> a in {fs[0].alias} + DeclaredAliases(fs[1..]) {
      if a in DeclaredAliases(fs[1..]) {
        var i :| 0 <= i < |fs[1..]| && fs[1..][i].alias == a;
        assert fs[i + 1].alias == a;
      }
    }
  }

  lemma OneMoreListed(forest: FlowServer.Forest, n: FlowServer.Node)
    requires n.body.Sub?
    ensures FlowsListed(forest + [n]) == FlowsListed(forest) + {n.body.alias}
  {
    var all := forest + [n];
    assert all[|forest|] == n;
    assert forall m :: m in all <==> m in forest || m == n;
  }

  /** Whether the realm is new or not, it is there afterwards, and the lists hold scopes it has. */
  lemma RealmStarts(a: Api, r: Realm, bs: seq<BuiltIn>)
    requires IsLive(a)
    ensures
      var (b, status) := BeginRealm(a, r.name, r.createOnly, bs);
      && status == Status.Done && IsLive(b) && Grows(a.server, b.server) && r.name in b.server.realms
      && forall onClient, onRealm :: C.ListsOk(C.NamesIn(a.server, r.name), onClient, onRealm) ==>
           C.ListsOk(C.NamesIn(b.server, r.name), onClient, onRealm)
  {
    RealmBegins(a, r, bs);
    hide BeginRealm, PathsOk, MappingsOk, MembershipsOk;
    var b := BeginRealm(a, r.name, r.createOnly, bs).0;
    C.ScopesAreObjects(b.server, r.name);
  }

  /** A client's lists hold a scope its config names exactly when the scope is declared, and on the list the config
      says. */
  ghost predicate ScopesAsDeclared(names: map<string, string>, lists: map<(string, C.Kind), set<string>>, s: Server,
      r: Realm, was: Server) {
    && (forall i, n :: 0 <= i < |r.clients| && n in r.clients[i].defaultScopes ==>
          (n in C.NamesOf(names, ClientIds(lists, Uuid(s, r.name, r.clients[i]), C.Default)) <==>
           ScopeDeclared(r, was, n)))
    && forall i, n :: 0 <= i < |r.clients| && n in r.clients[i].optionalScopes ==>
         (n in C.NamesOf(names, ClientIds(lists, Uuid(s, r.name, r.clients[i]), C.Optional)) <==>
          ScopeDeclared(r, was, n))
  }

  /** The requests of a whole run: the realm is created or updated, then updated again with its bindings if there are
      any, and then what is declared is asked for. */
  ghost predicate Requested(a: Api, c: Api, asked: Asked, r: Realm, bs: seq<BuiltIn>) {
    var b := BeginRealm(a, r.name, r.createOnly, bs).0;
    && b.trace == a.trace + RealmRequest(a, r) && Bind(b, r).trace == b.trace + BindingRequest(r)
    && Follows(Bind(b, r), c, asked, r.createOnly)
  }

  function RealmRequest(a: Api, r: Realm): seq<Write> {
    if r.name !in a.server.realms then [CreatesRealm(r.name)]
    else if r.createOnly then []
    else [UpdatesRealm(r.name)]
  }

  function BindingRequest(r: Realm): seq<Write> {
    if exists b :: b in r.bindings && r.bindings[b] != "" then [UpdatesRealm(r.name)] else []
  }

  lemma RequestsOfRun(a: Api, c: Api, asked: Asked, r: Realm, bs: seq<BuiltIn>)
    requires IsLive(a) && Follows(Bind(BeginRealm(a, r.name, r.createOnly, bs).0, r), c, asked, r.createOnly)
    ensures Requested(a, c, asked, r, bs)
  {
    hide Follows, WellFormed, Furnished;
    if exists b :: b in r.bindings && r.bindings[b] != "" {
      var b :| b in r.bindings && r.bindings[b] != "";
      assert b in AuthFlows.Configured(r.bindings);
    }
  }

  lemma FollowsGrows(a: Api, b: Api, asked: Asked, createOnly: bool)
    requires Follows(a, b, asked, createOnly)
    ensures Grows(a.server, b.server)
  {}

  lemma EstablishedFacts(was: Server, rest: Rest, s: Server, next: Rest, w: Ways, r: Realm)
    requires Established(was, rest, s, next, w, r)
    ensures Stocked(s, r, was)
  {}

  lemma ScopeThereIfDeclared(s: Server, r: Realm, was: Server, n: string)
    requires Stocked(s, r, was)
    ensures n in C.NamesIn(s, r.name).Values <==> ScopeDeclared(r, was, n)
  {
    C.ScopesAreObjects(s, r.name);
    if ClientScope(r.name, n) in s.objects {
      assert KeyDeclared(s, r, was, ClientScope(r.name, n));
    }
    if ScopeDeclared(r, was, n) && ClientScope(r.name, n) !in was.objects {
      var i :| 0 <= i < |r.scopes| && r.scopes[i].name == n;
      assert ClientScope(r.name, r.scopes[i].name) in s.objects;
    }
  }

  lemma HeldAsDeclared(names: map<string, string>, z: Start, lists: map<(string, C.Kind), set<string>>, s: Server,
                       r: Realm, was: Server)
    requires Stocked(s, r, was) && names == C.NamesIn(s, r.name) && Accepted(r)
    requires forall i :: 0 <= i < |r.clients| ==>
               Held(names, r.name, z, lists, Uuid(s, r.name, r.clients[i]), r.clients[i])
    ensures ScopesAsDeclared(names, lists, s, r, was)
  {
    hide Stocked, C.NamesIn, Uuid, ScopeDeclared;
    forall n ensures n in names.Values <==> ScopeDeclared(r, was, n) {
      ScopeThereIfDeclared(s, r, was, n);
    }
    forall i, n | 0 <= i < |r.clients| && n in r.clients[i].defaultScopes
      ensures n in C.NamesOf(names, ClientIds(lists, Uuid(s, r.name, r.clients[i]), C.Default)) <==> n in names.Values
    {
      assert Held(names, r.name, z, lists, Uuid(s, r.name, r.clients[i]), r.clients[i]);
      assert n in Elements(r.clients[i].defaultScopes);
    }
    forall i, n | 0 <= i < |r.clients| && n in r.clients[i].optionalScopes
      ensures n in C.NamesOf(names, ClientIds(lists, Uuid(s, r.name, r.clients[i]), C.Optional)) <==> n in names.Values
    {
      assert Held(names, r.name, z, lists, Uuid(s, r.name, r.clients[i]), r.clients[i]);
      assert n in Elements(r.clients[i].optionalScopes);
    }
  }
}
