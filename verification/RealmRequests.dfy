/** The requests of one realm's run to the directory: those that what its config declares calls for. */
module RealmRequests {
  import opened Directory
  import opened Ids
  import opened LiveRequests
  import opened LiveRuns
  import opened Provision
  import opened RealmConfigs
  import opened Reconcile
  import opened Requests
  import opened Text
  import C = ClientScopes

  // ---------- client scopes ----------

  function ScopesNamed(realm: string, scopes: seq<ScopeConfig>): multiset<Key> {
    if scopes == [] then multiset{} else multiset{ClientScope(realm, scopes[0].name)} + ScopesNamed(realm, scopes[1..])
  }

  lemma {:induction false} EnsureScopesFollows(a: Api, realm: string, scopes: seq<ScopeConfig>, createOnly: bool)
      returns (asked: Asked)
    requires IsLive(a) && realm in a.server.realms
    ensures
      var (b, status) := EnsureScopes(a, realm, scopes, createOnly);
      && Follows(a, b, asked, createOnly) && asked.joins == {}
      && (status == Done ==> asked == Asked(ScopesNamed(realm, scopes), {}, {}))
    decreases |scopes|
  {
    hide *;
    NoJoins();
    LiveIs(a);
    EnsureScopesStep(a, realm, scopes, createOnly);
    ScopesNamedStep(realm, scopes);
    if scopes == [] {
      NothingAsked(a, createOnly);
      asked := NOTHING;
    } else {
      EnsureScopeLive(a, realm, scopes[0].name, createOnly);
      EnsureScopeFollows(a, realm, scopes[0].name, createOnly);
      var b := C.EnsureScope(a, realm, scopes[0].name, createOnly).0;
      asked := KeyAsked(ClientScope(realm, scopes[0].name));
      if scopes[0].scopeType != C.Unknown {
        var y := EnsureScopesFollows(b, realm, scopes[1..], createOnly);
        FollowsBoth(a, b, EnsureScopes(b, realm, scopes[1..], createOnly).0, asked, y, createOnly);
        asked := Both(asked, y);
      }
    }
  }

  lemma ScopesNamedStep(realm: string, scopes: seq<ScopeConfig>)
    ensures scopes == [] ==> Asked(ScopesNamed(realm, scopes), {}, {}) == NOTHING
    ensures scopes != [] ==>
              Asked(ScopesNamed(realm, scopes), {}, {}) ==
              Both(KeyAsked(ClientScope(realm, scopes[0].name)), Asked(ScopesNamed(realm, scopes[1..]), {}, {}))
  {}

  // ---------- clients ----------

  /** The clients and their roles. */
  function ClientsNamed(s: Server, realm: string, cs: seq<FullClient>): multiset<Key> {
    if cs == [] then multiset{}
    else
      multiset{Client(realm, cs[0].base.clientId)} + RolesNamed(realm, Uuid(s, realm, cs[0]), cs[0].base.roles)
      + ClientsNamed(s, realm, cs[1..])
  }

  lemma ClientsNamedStep(s: Server, t: Server, realm: string, cs: seq<FullClient>)
    ensures cs == [] ==> Asked(ClientsNamed(s, realm, cs), {}, {}) == NOTHING
    ensures cs != [] && Uuid(t, realm, cs[0]) == Uuid(s, realm, cs[0]) ==>
              Asked(ClientsNamed(s, realm, cs), {}, {}) ==
              Both(Both(KeyAsked(Client(realm, cs[0].base.clientId)),
                        Asked(RolesNamed(realm, Uuid(t, realm, cs[0]), cs[0].base.roles), {}, {})),
                   Asked(ClientsNamed(s, realm, cs[1..]), {}, {}))
  {}

  /** Clients keep their roles' addresses. */
  lemma {:induction false} ClientsNamedLater(s: Server, t: Server, realm: string, cs: seq<FullClient>)
    requires Grows(s, t) && forall i :: 0 <= i < |cs| ==> Client(realm, cs[i].base.clientId) in s.objects
    ensures ClientsNamed(t, realm, cs) == ClientsNamed(s, realm, cs)
  {
    if cs != [] {
      assert forall i :: 0 <= i < |cs[1..]| ==> cs[1..][i] == cs[i + 1];
      ClientsNamedLater(s, t, realm, cs[1..]);
    }
  }

  lemma OneClientFollows(a: Api, realm: string, c: FullClient, createOnly: bool)
    requires IsLive(a) && realm in a.server.realms
    ensures
      var (b, id) := EnsureClient(a, realm, c.base, createOnly);
      && id.Some?
      && var d := EnsureRoles(b, realm, id.value, c.base.roles, createOnly).0;
      && IsLive(d) && Grows(a.server, d.server) && d.server.realms == a.server.realms
      && Lookup(d.server, Client(realm, c.base.clientId)) == id
      && Follows(a, d, Both(KeyAsked(Client(realm, c.base.clientId)),
                            Asked(RolesNamed(realm, id.value, c.base.roles), {}, {})), createOnly)
  {
    hide *;
    ClientAndRoles(a, realm, c, createOnly);
    EnsureClientLive(a, realm, c.base, createOnly);
    EnsureClientFollows(a, realm, c.base, createOnly);
    var (b, id) := EnsureClient(a, realm, c.base, createOnly);
    EnsureRolesFollows(b, realm, id.value, c.base.roles, createOnly);
    FollowsBoth(a, b, EnsureRoles(b, realm, id.value, c.base.roles, createOnly).0,
                KeyAsked(Client(realm, c.base.clientId)),
                Asked(RolesNamed(realm, id.value, c.base.roles), {}, {}), createOnly);
  }

  lemma {:induction false} EnsureFullClientsFollows(a: Api, realm: string, cs: seq<FullClient>, flows: set<string>,
      createOnly: bool) returns (asked: Asked)
    requires IsLive(a) && realm in a.server.realms
    ensures
      var (b, status) := EnsureFullClients(a, realm, cs, flows, createOnly);
      && Follows(a, b, asked, createOnly) && asked.joins == {} && IsLive(b) && Grows(a.server, b.server)
      && b.server.realms == a.server.realms
      && (status == Done ==>
            && asked == Asked(ClientsNamed(b.server, realm, cs), {}, {})
            && forall i :: 0 <= i < |cs| ==> Client(realm, cs[i].base.clientId) in b.server.objects)
    decreases |cs|
  {
    hide *;
    NoJoins();
    LiveIs(a);
    GrowsItself(a.server);
    FullClientsStep(a, realm, cs, flows, createOnly);
    ClientsNamedStep(a.server, a.server, realm, cs);
    if cs == [] {
      NothingAsked(a, createOnly);
      asked := NOTHING;
    } else {
      FullClientIs(a, realm, cs[0], flows, createOnly);
      if !FlowsKnown(cs[0].flowOverrides, flows) {
        NothingAsked(a, createOnly);
        asked := NOTHING;
      } else {
        OneClientFollows(a, realm, cs[0], createOnly);
        ClientAndRoles(a, realm, cs[0], createOnly);
        var (b, id) := EnsureClient(a, realm, cs[0].base, createOnly);
        var d := EnsureRoles(b, realm, id.value, cs[0].base.roles, createOnly).0;
        var y := EnsureFullClientsFollows(d, realm, cs[1..], flows, createOnly);
        var (e, st) := EnsureFullClients(d, realm, cs[1..], flows, createOnly);
        asked := Both(KeyAsked(Client(realm, cs[0].base.clientId)),
                      Asked(RolesNamed(realm, id.value, cs[0].base.roles), {}, {}));
        RolesOnlyNoJoins(RolesNamed(realm, id.value, cs[0].base.roles));
        FollowsBoth(a, d, e, asked, y, createOnly);
        asked := Both(asked, y);
        GrowsTransitive(a.server, d.server, e.server);
        if st == Done {
          UuidIs(d.server, e.server, realm, cs[0], id.value);
          ClientsNamedStep(e.server, d.server, realm, cs);
          AllClientsThere(e.server, realm, cs);
        }
      }
    }
  }

  lemma RolesOnlyNoJoins(keys: multiset<Key>)
    ensures Asked(keys, {}, {}).joins == {}
  {}

  lemma UuidIs(s: Server, t: Server, realm: string, c: FullClient, id: Id)
    requires Grows(s, t) && Lookup(s, Client(realm, c.base.clientId)) == Some(id)
    ensures Uuid(s, realm, c) == Uuid(t, realm, c) == id && Client(realm, c.base.clientId) in t.objects
  {}

  lemma AllClientsThere(s: Server, realm: string, cs: seq<FullClient>)
    requires cs != [] && Client(realm, cs[0].base.clientId) in s.objects
    requires forall i :: 0 <= i < |cs[1..]| ==> Client(realm, cs[1..][i].base.clientId) in s.objects
    ensures forall i :: 0 <= i < |cs| ==> Client(realm, cs[i].base.clientId) in s.objects
  {
    assert forall i :: 0 < i < |cs| ==> cs[i] == cs[1..][i - 1];
  }

  // ---------- deferred work ----------

  /** The roles that put-off work is to give its owners. */
  function WorkAsked(s: Server, realm: string, ds: seq<Deferred>): Asked
    decreases |ds|
  {
    if ds == [] then NOTHING
    else
      var holder := HolderIn(s, realm, ds[0].owner);
      var rest := WorkAsked(s, realm, ds[1..]);
      if holder.None? then rest
      else
        Both(RolesAsked(s, realm, KindOf(ds[0].owner), holder.value, ds[0].roles.realm, ds[0].roles.clients), rest)
  }

  function HolderIn(s: Server, realm: string, o: Owner): Option<Id> {
    match o
    case AccountOf(client) => Lookup(s, ServiceAccount(realm, client))
    case Scope(_, id) => Some(id)
  }

  lemma {:induction false} WorkAskedLater(s: Server, t: Server, realm: string, ds: seq<Deferred>)
    requires Grows(s, t) && (forall k: Key :: k.Client? ==> Lookup(s, k) == Lookup(t, k))
    requires forall i :: 0 <= i < |ds| ==> HolderIn(s, realm, ds[i].owner).Some?
    ensures WorkAsked(t, realm, ds) == WorkAsked(s, realm, ds)
    ensures forall i :: 0 <= i < |ds| ==> HolderIn(t, realm, ds[i].owner) == HolderIn(s, realm, ds[i].owner)
    decreases |ds|
  {
    if ds != [] {
      assert forall i :: 0 <= i < |ds[1..]| ==> ds[1..][i] == ds[i + 1];
      assert forall i :: 0 < i < |ds| ==> ds[i] == ds[1..][i - 1];
      WorkAskedLater(s, t, realm, ds[1..]);
      var holder := HolderIn(s, realm, ds[0].owner).value;
      assert HolderIn(t, realm, ds[0].owner) == Some(holder);
      SameEntries(s, t, realm, KindOf(ds[0].owner), holder, ds[0].roles.clients);
      hide Grows, EntriesAsked;
    }
  }

  lemma WorkAskedStep(s: Server, realm: string, ds: seq<Deferred>)
    ensures ds == [] ==> WorkAsked(s, realm, ds) == NOTHING
    ensures ds != [] && HolderIn(s, realm, ds[0].owner).Some? ==>
              WorkAsked(s, realm, ds) ==
              Both(RolesAsked(s, realm, KindOf(ds[0].owner), HolderIn(s, realm, ds[0].owner).value, ds[0].roles.realm,
                              ds[0].roles.clients), WorkAsked(s, realm, ds[1..]))
  {}

  lemma HolderIs(a: Api, realm: string, o: Owner)
    ensures HolderOf(a, realm, o) == HolderIn(a.server, realm, o)
  {}

  lemma HolderCanHold(s: Server, realm: string, o: Owner)
    requires WellFormed(s) && HolderIn(s, realm, o).Some? && (o.Scope? ==> OwnerKnown(s, realm, o))
    ensures
      var holder := HolderIn(s, realm, o).value;
      HolderKnown(s, Mapping(realm, KindOf(o), holder, "")) && !Unborn(s, holder)
  {
    if o.AccountOf? {
      AccountIsHolder(s, realm, o.client);
    }
  }

  lemma {:induction false} GrantDeferredFollows(a: Api, realm: string, ds: seq<Deferred>, createOnly: bool)
      returns (asked: Asked)
    requires IsLive(a) && realm in a.server.realms && OwnersKnown(a.server, realm, ds)
    ensures
      var (b, status) := GrantDeferred(a, realm, ds);
      && Follows(a, b, asked, createOnly) && asked.joins == {}
      && (status == Done ==> asked == WorkAsked(a.server, realm, ds))
    decreases |ds|
  {
    hide *;
    NoJoins();
    LiveIs(a);
    GrowsItself(a.server);
    DeferredStep(a, realm, ds);
    WorkAskedStep(a.server, realm, ds);
    if ds == [] {
      NothingAsked(a, createOnly);
      asked := NOTHING;
    } else {
      RestOwnersKnown(a.server, a.server, realm, ds);
      OneDeferred(a, realm, ds[0]);
      HolderIs(a, realm, ds[0].owner);
      var holder := HolderOf(a, realm, ds[0].owner);
      if holder.None? {
        NothingAsked(a, createOnly);
        asked := NOTHING;
      } else {
        HolderCanHold(a.server, realm, ds[0].owner);
        asked := EnsureRoleMappingsFollows(a, realm, KindOf(ds[0].owner), holder.value, ds[0].roles.realm,
                                           ds[0].roles.clients, createOnly);
        var (b, s1) := EnsureRoleMappings(a, realm, KindOf(ds[0].owner), holder.value, ds[0].roles.realm,
                                          ds[0].roles.clients);
        if s1 == Done {
          RestOwnersKnown(a.server, b.server, realm, ds);
          var y := GrantDeferredFollows(b, realm, ds[1..], createOnly);
          FollowsBoth(a, b, GrantDeferred(b, realm, ds[1..]).0, asked, y, createOnly);
          asked := Both(asked, y);
          WorkAskedAlike(a.server, b.server, realm, ds[1..]);
        }
      }
    }
  }

  lemma {:induction false} WorkAskedAlike(s: Server, t: Server, realm: string, ds: seq<Deferred>)
    requires t.objects == s.objects
    ensures WorkAsked(t, realm, ds) == WorkAsked(s, realm, ds)
    decreases |ds|
  {
    if ds != [] {
      WorkAskedAlike(s, t, realm, ds[1..]);
      assert forall k: Key :: Lookup(s, k) == Lookup(t, k);
      if HolderIn(s, realm, ds[0].owner).Some? {
        SameEntries(s, t, realm, KindOf(ds[0].owner), HolderIn(s, realm, ds[0].owner).value, ds[0].roles.clients);
      }
      hide EntriesAsked;
    }
  }
}
