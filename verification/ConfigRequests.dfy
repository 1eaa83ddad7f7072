/** The requests of the runs that a dry run predicts: those that what the config declares calls for. */
module ConfigRequests {
  import opened Directory
  import opened GroupTrees
  import opened Ids
  import opened LiveRequests
  import opened LiveRuns
  import opened Reconcile
  import opened Requests
  import opened Text

  function IdOf(s: Server, realm: string, clientId: string): Id {
    if Client(realm, clientId) in s.objects then s.objects[Client(realm, clientId)] else ""
  }

  /** The clients and their roles. */
  function ClientsAsked(s: Server, realm: string, cs: seq<AccountClient>): multiset<Key> {
    if cs == [] then multiset{}
    else
      multiset{Client(realm, cs[0].base.clientId)}
      + RolesNamed(realm, IdOf(s, realm, cs[0].base.clientId), cs[0].base.roles) + ClientsAsked(s, realm, cs[1..])
  }

  /** The roles of the clients' service accounts. */
  function AccountsAsked(s: Server, realm: string, cs: seq<AccountClient>): set<(Mapping, string)> {
    if cs == [] then {}
    else
      var k := ServiceAccount(realm, IdOf(s, realm, cs[0].base.clientId));
      (if cs[0].accountRoles.None? || k !in s.objects then {}
       else
         var roles := cs[0].accountRoles.value;
         RolesAsked(s, realm, HolderKind.Users, s.objects[k], roles.realm, roles.clients).roles)
      + AccountsAsked(s, realm, cs[1..])
  }

  /** Everything the config of one realm declares. */
  function ConfigAsked(s: Server, r: RealmConfig): Asked {
    Both(Asked(ClientsAsked(s, r.realm, r.clients) + RolesNamed(r.realm, "", r.roles),
               AccountsAsked(s, r.realm, r.clients), {}),
         GroupsAsked(s, r.realm, "", r.groups))
  }

  /** The work put off is what the clients declare, each under its id. */
  ghost predicate WorkIs(s: Server, realm: string, cs: seq<AccountClient>, work: seq<AccountWork>)
    decreases |cs|
  {
    if cs == [] then work == []
    else
      var w := WorkOf(cs[0], IdOf(s, realm, cs[0].base.clientId));
      |w| <= |work| && work[..|w|] == w && WorkIs(s, realm, cs[1..], work[|w|..])
  }

  ghost predicate ClientsKnown(s: Server, realm: string, cs: seq<AccountClient>) {
    forall i :: 0 <= i < |cs| ==> Client(realm, cs[i].base.clientId) in s.objects
  }

  lemma {:induction false} AskedLater(s: Server, t: Server, realm: string, cs: seq<AccountClient>)
    requires Grows(s, t) && ClientsKnown(s, realm, cs)
    ensures ClientsAsked(t, realm, cs) == ClientsAsked(s, realm, cs) && ClientsKnown(t, realm, cs)
  {
    if cs != [] {
      assert forall i :: 0 <= i < |cs[1..]| ==> cs[1..][i] == cs[i + 1];
      AskedLater(s, t, realm, cs[1..]);
    }
  }

  lemma {:induction false} WorkLater(s: Server, t: Server, realm: string, cs: seq<AccountClient>,
                                     work: seq<AccountWork>)
    requires Grows(s, t) && ClientsKnown(s, realm, cs) && WorkIs(s, realm, cs, work)
    ensures WorkIs(t, realm, cs, work)
    decreases |cs|
  {
    if cs != [] {
      assert forall i :: 0 <= i < |cs[1..]| ==> cs[1..][i] == cs[i + 1];
      WorkLater(s, t, realm, cs[1..], work[|WorkOf(cs[0], IdOf(s, realm, cs[0].base.clientId))|..]);
    }
  }

  lemma AskedStep(s: Server, realm: string, cs: seq<AccountClient>, id: Id)
    requires cs != [] && Lookup(s, Client(realm, cs[0].base.clientId)) == Some(id)
    ensures Asked(ClientsAsked(s, realm, cs), {}, {}) ==
            Both(Both(KeyAsked(Client(realm, cs[0].base.clientId)),
                      Asked(RolesNamed(realm, id, cs[0].base.roles), {}, {})),
                 Asked(ClientsAsked(s, realm, cs[1..]), {}, {}))
  {}

  lemma WorkStep(s: Server, realm: string, cs: seq<AccountClient>, id: Id, rest: seq<AccountWork>)
    requires cs != [] && Lookup(s, Client(realm, cs[0].base.clientId)) == Some(id) && WorkIs(s, realm, cs[1..], rest)
    requires ClientsKnown(s, realm, cs[1..])
    ensures WorkIs(s, realm, cs, WorkOf(cs[0], id) + rest) && ClientsKnown(s, realm, cs)
  {
    var w := WorkOf(cs[0], id);
    assert (w + rest)[..|w|] == w && (w + rest)[|w|..] == rest;
    assert forall i :: 0 < i < |cs| ==> cs[i] == cs[1..][i - 1];
  }

  lemma OneClientFollows(a: Api, realm: string, c: ClientConfig, createOnly: bool)
    requires IsLive(a) && realm in a.server.realms
    ensures
      var (b, id) := EnsureClient(a, realm, c, createOnly);
      && id.Some?
      && var (d, status) := EnsureRoles(b, realm, id.value, c.roles, createOnly);
      && status == Done && IsLive(d) && Grows(a.server, d.server) && d.server.realms == a.server.realms
      && Lookup(d.server, Client(realm, c.clientId)) == id
      && Follows(a, d, Both(KeyAsked(Client(realm, c.clientId)), Asked(RolesNamed(realm, id.value, c.roles), {}, {})),
                 createOnly)
  {
    hide *;
    EnsureClientLive(a, realm, c, createOnly);
    EnsureClientFollows(a, realm, c, createOnly);
    var (b, id) := EnsureClient(a, realm, c, createOnly);
    EnsureRolesLive(b, realm, id.value, c.roles, createOnly);
    EnsureRolesFollows(b, realm, id.value, c.roles, createOnly);
    var d := EnsureRoles(b, realm, id.value, c.roles, createOnly).0;
    GrowsTransitive(a.server, b.server, d.server);
    LookupLater(b.server, d.server, Client(realm, c.clientId));
    FollowsBoth(a, b, d, KeyAsked(Client(realm, c.clientId)), Asked(RolesNamed(realm, id.value, c.roles), {}, {}),
                createOnly);
  }

  lemma LookupLater(s: Server, t: Server, k: Key)
    requires Grows(s, t)
    ensures Lookup(s, k).Some? ==> Lookup(t, k) == Lookup(s, k)
  {}

  lemma {:induction false} EnsureClientsFollows(a: Api, realm: string, cs: seq<AccountClient>, createOnly: bool)
    requires IsLive(a) && realm in a.server.realms
    ensures
      var (b, status, work) := EnsureClients(a, realm, cs, createOnly);
      && status == Done && IsLive(b) && Grows(a.server, b.server) && b.server.realms == a.server.realms
      && Follows(a, b, Asked(ClientsAsked(b.server, realm, cs), {}, {}), createOnly)
      && ClientsKnown(b.server, realm, cs) && WorkIs(b.server, realm, cs, work)
    decreases |cs|
  {
    hide *;
    EnsureClientsStep(a, realm, cs, createOnly);
    LiveIs(a);
    GrowsItself(a.server);
    if cs == [] {
      NothingAsked(a, createOnly);
      NoClientsAsked(a.server, realm);
    } else {
      OneClientFollows(a, realm, cs[0].base, createOnly);
      var (b, id) := EnsureClient(a, realm, cs[0].base, createOnly);
      var d := EnsureRoles(b, realm, id.value, cs[0].base.roles, createOnly).0;
      EnsureClientsFollows(d, realm, cs[1..], createOnly);
      var (e, _, rest) := EnsureClients(d, realm, cs[1..], createOnly);
      GrowsTransitive(a.server, d.server, e.server);
      LookupLater(d.server, e.server, Client(realm, cs[0].base.clientId));
      FollowsBoth(a, d, e,
                  Both(KeyAsked(Client(realm, cs[0].base.clientId)),
                       Asked(RolesNamed(realm, id.value, cs[0].base.roles), {}, {})),
                  Asked(ClientsAsked(e.server, realm, cs[1..]), {}, {}), createOnly);
      AskedStep(e.server, realm, cs, id.value);
      WorkStep(e.server, realm, cs, id.value, rest);
    }
  }

  lemma NoClientsAsked(s: Server, realm: string)
    ensures Asked(ClientsAsked(s, realm, []), {}, {}) == NOTHING && ClientsKnown(s, realm, [])
    ensures WorkIs(s, realm, [], [])
  {}

  // ---------- service accounts ----------

  lemma GrantAccountsStep(a: Api, realm: string, work: seq<AccountWork>)
    requires a.overlay.None?
    ensures work == [] ==> GrantAccounts(a, realm, work) == (a, Done)
    ensures work != [] && ServiceAccount(realm, work[0].client) !in a.server.objects ==>
              GrantAccounts(a, realm, work) == (a, NotFound)
    ensures work != [] && ServiceAccount(realm, work[0].client) in a.server.objects ==>
              var roles := work[0].roles;
              var (c, status) := EnsureRoleMappings(a, realm, HolderKind.Users,
                a.server.objects[ServiceAccount(realm, work[0].client)], roles.realm, roles.clients);
              GrantAccounts(a, realm, work) ==
              if status != Done then (c, status) else GrantAccounts(c, realm, work[1..])
  {}

  lemma AccountHolds(s: Server, realm: string, client: Id)
    requires WellFormed(s) && ServiceAccount(realm, client) in s.objects
    ensures
      var id := s.objects[ServiceAccount(realm, client)];
      HolderKnown(s, Mapping(realm, HolderKind.Users, id, "")) && !Unborn(s, id)
  {}

  lemma {:induction false} GrantAccountsFollows(a: Api, realm: string, cs: seq<AccountClient>, work: seq<AccountWork>,
      createOnly: bool) returns (asked: Asked)
    requires IsLive(a) && realm in a.server.realms && WorkIs(a.server, realm, cs, work)
    ensures
      var (b, status) := GrantAccounts(a, realm, work);
      && Follows(a, b, asked, createOnly) && asked.joins == {} && IsLive(b) && b.server.objects == a.server.objects
      && (status == Done ==> asked == Asked(multiset{}, AccountsAsked(a.server, realm, cs), {}))
    decreases |cs|
  {
    hide Follows, WellFormed, Grows, EnsureRoleMappings, RolesAsked, Unborn, HolderKnown, GrantAccounts;
    LiveIs(a);
    GrantAccountsStep(a, realm, work);
    if cs == [] {
      NothingAsked(a, createOnly);
      asked := NOTHING;
    } else if cs[0].accountRoles.None? {
      assert work[0..] == work;
      asked := GrantAccountsFollows(a, realm, cs[1..], work, createOnly);
    } else {
      var id, roles := IdOf(a.server, realm, cs[0].base.clientId), cs[0].accountRoles.value;
      assert work[0] == work[..1][0] == AccountWork(id, roles);
      if ServiceAccount(realm, id) !in a.server.objects {
        NothingAsked(a, createOnly);
        asked := NOTHING;
      } else {
        var holder := a.server.objects[ServiceAccount(realm, id)];
        AccountHolds(a.server, realm, id);
        EnsureRoleMappingsLive(a, realm, HolderKind.Users, holder, roles.realm, roles.clients);
        asked := EnsureRoleMappingsFollows(a, realm, HolderKind.Users, holder, roles.realm, roles.clients, createOnly);
        var (c, status) := EnsureRoleMappings(a, realm, HolderKind.Users, holder, roles.realm, roles.clients);
        if status == Done {
          WorkAlike(a.server, c.server, realm, cs[1..], work[1..]);
          RealmsStay(a, c, asked, createOnly);
          var y := GrantAccountsFollows(c, realm, cs[1..], work[1..], createOnly);
          FollowsBoth(a, c, GrantAccounts(c, realm, work[1..]).0, asked, y, createOnly);
          RolesAskedShape(a.server, realm, HolderKind.Users, holder, roles.realm, roles.clients);
          asked := Both(asked, y);
        }
      }
    }
  }

  lemma RolesAskedShape(s: Server, realm: string, kind: HolderKind, holder: Id, roles: seq<string>,
                        entries: ClientRoles)
    ensures
      var x := RolesAsked(s, realm, kind, holder, roles, entries);
      x == Asked(multiset{}, x.roles, {})
  {}

  lemma RealmsStay(a: Api, b: Api, asked: Asked, createOnly: bool)
    requires Follows(a, b, asked, createOnly)
    ensures b.server.realms == a.server.realms && Grows(a.server, b.server)
  {}

  lemma {:induction false} WorkAlike(s: Server, t: Server, realm: string, cs: seq<AccountClient>,
                                     work: seq<AccountWork>)
    requires t.objects == s.objects
    ensures WorkIs(t, realm, cs, work) <==> WorkIs(s, realm, cs, work)
    ensures AccountsAsked(t, realm, cs) == AccountsAsked(s, realm, cs)
    decreases |cs|
  {
    if cs != [] {
      var w := WorkOf(cs[0], IdOf(s, realm, cs[0].base.clientId));
      if |w| <= |work| {
        WorkAlike(s, t, realm, cs[1..], work[|w|..]);
      }
      WorkAlike(s, t, realm, cs[1..], []);
      if cs[0].accountRoles.Some? {
        assert forall k: Key :: Lookup(s, k) == Lookup(t, k);
        forall holder {
          SameEntries(s, t, realm, HolderKind.Users, holder, cs[0].accountRoles.value.clients);
        }
      }
      hide EntriesAsked;
    }
  }

  // ---------- one realm ----------

  function RealmRequest(a: Api, realm: string, createOnly: bool): seq<Write> {
    if realm !in a.server.realms then [CreatesRealm(realm)] else if createOnly then [] else [UpdatesRealm(realm)]
  }

  lemma RealmIsAsked(a: Api, realm: string, createOnly: bool)
    requires IsLive(a)
    ensures
      var (b, status) := EnsureRealm(a, realm, createOnly);
      && status == Done && IsLive(b) && realm in b.server.realms
      && b.trace == a.trace + RealmRequest(a, realm, createOnly)
  {
    if realm !in a.server.realms {
      AddRealmKeeps(a.server, realm);
    }
    hide WellFormed;
  }

  lemma ProvisionRealmIs(a: Api, r: RealmConfig)
    requires EnsureRealm(a, r.realm, r.createOnly).1 == Done
    ensures
      var b := EnsureRealm(a, r.realm, r.createOnly).0;
      var (c, s2, work) := EnsureClients(b, r.realm, r.clients, r.createOnly);
      if s2 != Done then ProvisionRealm(a, r) == (c, s2)
      else
        var (d, s3) := EnsureRoles(c, r.realm, "", r.roles, r.createOnly);
        if s3 != Done then ProvisionRealm(a, r) == (d, s3)
        else
          var (e, s4) := GrantAccounts(d, r.realm, work);
          ProvisionRealm(a, r) == if s4 != Done then (e, s4) else EnsureGroups(e, r.realm, "", r.groups, r.createOnly)
  {
    hide EnsureRealm, EnsureClients, EnsureRoles, GrantAccounts, EnsureGroups;
  }

  /** A run over one realm creates or updates it, and then asks for exactly what its config declares, as far as the run
      gets. */
  lemma ConfigFollows(a: Api, r: RealmConfig) returns (asked: Asked)
    requires IsLive(a)
    ensures
      var b := EnsureRealm(a, r.realm, r.createOnly).0;
      var (g, status) := ProvisionRealm(a, r);
      && b.trace == a.trace + RealmRequest(a, r.realm, r.createOnly) && Follows(b, g, asked, r.createOnly)
      && (status == Done ==> asked == ConfigAsked(g.server, r))
  {
    hide *;
    NoJoins();
    RealmIsAsked(a, r.realm, r.createOnly);
    ProvisionRealmIs(a, r);
    var b := EnsureRealm(a, r.realm, r.createOnly).0;
    EnsureClientsFollows(b, r.realm, r.clients, r.createOnly);
    var (c, _, work) := EnsureClients(b, r.realm, r.clients, r.createOnly);
    HomeIsRealm(c.server, r.realm);
    EnsureRolesLive(c, r.realm, "", r.roles, r.createOnly);
    EnsureRolesFollows(c, r.realm, "", r.roles, r.createOnly);
    var d := EnsureRoles(c, r.realm, "", r.roles, r.createOnly).0;
    var x := Asked(ClientsAsked(c.server, r.realm, r.clients), {}, {});
    var y := Asked(RolesNamed(r.realm, "", r.roles), {}, {});
    FollowsBoth(b, c, d, x, y, r.createOnly);
    AskedLater(c.server, d.server, r.realm, r.clients);
    WorkLater(c.server, d.server, r.realm, r.clients, work);
    var z := GrantAccountsFollows(d, r.realm, r.clients, work, r.createOnly);
    var (e, s4) := GrantAccounts(d, r.realm, work);
    FollowsBoth(b, d, e, Both(x, y), z, r.createOnly);
    asked := Both(Both(x, y), z);
    if s4 == Done {
      RealmsStay(d, e, z, r.createOnly);
      HomeIsRealm(e.server, r.realm);
      EnsureGroupsLive(e, r.realm, "", r.groups, r.createOnly);
      var v := EnsureGroupsFollows(e, r.realm, "", r.groups, r.createOnly);
      var (g, s5) := EnsureGroups(e, r.realm, "", r.groups, r.createOnly);
      FollowsBoth(b, e, g, asked, v, r.createOnly);
      asked := Both(asked, v);
      if s5 == Done {
        GroupDoneFacts(e, g, s5, r.realm, "", r.groups);
        ConfigAskedIs(d.server, e.server, g.server, r);
      }
    }
  }

  lemma HomeIsRealm(s: Server, realm: string)
    ensures RoleHome(s, realm, "") && ParentOk(s, realm, "")
  {}

  lemma ConfigAskedIs(s: Server, t: Server, u: Server, r: RealmConfig)
    requires t.objects == s.objects && OnlyGroupsAdded(t, u) && Grows(s, t) && ClientsKnown(s, r.realm, r.clients)
    ensures ConfigAsked(u, r) ==
            Both(Both(Both(Asked(ClientsAsked(s, r.realm, r.clients), {}, {}),
                           Asked(RolesNamed(r.realm, "", r.roles), {}, {})),
                      Asked(multiset{}, AccountsAsked(s, r.realm, r.clients), {})),
                 GroupsAsked(u, r.realm, "", r.groups))
  {
    hide GroupsAsked, RolesNamed;
    GrowsTransitive(s, t, u);
    AskedLater(s, u, r.realm, r.clients);
    AccountsLater(t, u, r.realm, r.clients);
    WorkAlike(s, t, r.realm, r.clients, []);
  }

  lemma {:induction false} AccountsLater(s: Server, t: Server, realm: string, cs: seq<AccountClient>)
    requires OnlyGroupsAdded(s, t)
    ensures AccountsAsked(t, realm, cs) == AccountsAsked(s, realm, cs)
    decreases |cs|
  {
    if cs != [] {
      AccountsLater(s, t, realm, cs[1..]);
      assert forall k: Key :: !k.Group? ==> Lookup(s, k) == Lookup(t, k);
      var k := Client(realm, cs[0].base.clientId);
      assert Lookup(s, k) == Lookup(t, k);
      var account := ServiceAccount(realm, IdOf(s, realm, cs[0].base.clientId));
      assert Lookup(s, account) == Lookup(t, account);
      if cs[0].accountRoles.Some? && account in s.objects {
        SameEntries(s, t, realm, HolderKind.Users, s.objects[account], cs[0].accountRoles.value.clients);
      }
      hide EntriesAsked, OnlyGroupsAdded;
    }
  }
}
