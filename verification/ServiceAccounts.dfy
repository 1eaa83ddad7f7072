/** Which service accounts a run leaves behind, and what it takes to grant them roles
    (internal/provisioner/provisioner.go, internal/provisioner/service_account_roles.go). */
module ServiceAccounts {
  import opened Text
  import opened Ids
  import opened Directory
  import opened Reconcile
  import opened LiveRuns

  predicate DistinctIds(cs: seq<AccountClient>) {
    forall i, j :: 0 <= i < j < |cs| ==> cs[i].base.clientId != cs[j].base.clientId
  }

  function IdOf(s: Server, realm: string, c: AccountClient): Id {
    if Client(realm, c.base.clientId) in s.objects then s.objects[Client(realm, c.base.clientId)] else ""
  }

  /** The work the client loop puts off, read off the server. */
  function WorkAll(s: Server, realm: string, cs: seq<AccountClient>): seq<AccountWork>
    decreases |cs|
  {
    if cs == [] then [] else WorkOf(cs[0], IdOf(s, realm, cs[0])) + WorkAll(s, realm, cs[1..])
  }

  predicate HasAccount(s: Server, realm: string, clientId: string) {
    var k := Client(realm, clientId);
    k in s.objects && ServiceAccount(realm, s.objects[k]) in s.objects
  }

  /** A client ends up with a service account if it had one, or is to have one and is not merely found. */
  predicate GetsAccount(s: Server, realm: string, c: AccountClient, createOnly: bool) {
    || HasAccount(s, realm, c.base.clientId)
    || (c.base.serviceAccount && (Client(realm, c.base.clientId) in s.objects ==> !createOnly))
  }

  /** What the client loop may add. */
  predicate ComesWith(t: Server, realm: string, cs: seq<AccountClient>, k: Key) {
    k.realm == realm &&
    match k
    case Client(_, clientId) => exists i :: 0 <= i < |cs| && cs[i].base.clientId == clientId
    case ServiceAccount(_, id) => exists i :: 0 <= i < |cs| && IdOf(t, realm, cs[i]) == id != ""
    case ClientRole(_, _, _) => true
    case _ => false
  }

  /** The state after one client and its roles. */
  ghost predicate OneClientDone(s: Server, t: Server, realm: string, c: AccountClient, id: Id, createOnly: bool) {
    && WellFormed(s) && WellFormed(t) && Grows(s, t) && t.realms == s.realms
    && Lookup(t, Client(realm, c.base.clientId)) == Some(id)
    && t.objects.Keys == s.objects.Keys + {Client(realm, c.base.clientId)}
       + AccountKeys(s, Client(realm, c.base.clientId), id, c.base.serviceAccount, createOnly)
       + RoleKeys(realm, id, c.base.roles)
  }

  lemma OneClient(a: Api, realm: string, c: AccountClient, createOnly: bool)
    requires IsLive(a) && realm in a.server.realms
    ensures
      var (b, id) := EnsureClient(a, realm, c.base, createOnly);
      && id.Some?
      && var (d, status) := EnsureRoles(b, realm, id.value, c.base.roles, createOnly);
      && status == Done && IsLive(d) && OneClientDone(a.server, d.server, realm, c, id.value, createOnly)
  {
    hide *;
    EnsureClientLive(a, realm, c.base, createOnly);
    var (b, id) := EnsureClient(a, realm, c.base, createOnly);
    EnsureRolesLive(b, realm, id.value, c.base.roles, createOnly);
    var d := EnsureRoles(b, realm, id.value, c.base.roles, createOnly).0;
    LiveIs(a);
    LiveIs(b);
    LiveIs(d);
    GrowsTransitive(a.server, b.server, d.server);
    OneClientIs(a.server, b.server, d.server, realm, c, id.value, createOnly);
  }

  lemma OneClientIs(s: Server, m: Server, t: Server, realm: string, c: AccountClient, id: Id, createOnly: bool)
    requires WellFormed(s) && WellFormed(t) && Grows(s, t) && Grows(m, t) && t.realms == s.realms
    requires Lookup(m, Client(realm, c.base.clientId)) == Some(id)
    requires m.objects.Keys == s.objects.Keys + {Client(realm, c.base.clientId)}
             + AccountKeys(s, Client(realm, c.base.clientId), id, c.base.serviceAccount, createOnly)
    requires t.objects.Keys == m.objects.Keys + RoleKeys(realm, id, c.base.roles)
    ensures OneClientDone(s, t, realm, c, id, createOnly)
  {}

  lemma AccountHasClient(s: Server, realm: string, id: Id)
    requires ObjectsOk(s) && OwnersOk(s) && ServiceAccount(realm, id) in s.objects
    ensures id in s.owner && s.owner[id] in s.objects
  {
    assert ContainerKnown(s, ServiceAccount(realm, id));
  }

  /** A client that was not there has an id nothing is under. */
  lemma NewClientIsBare(s: Server, t: Server, realm: string, clientId: string)
    requires WellFormed(s) && WellFormed(t) && Grows(s, t) && Client(realm, clientId) in t.objects
    requires Client(realm, clientId) !in s.objects
    ensures ServiceAccount(realm, t.objects[Client(realm, clientId)]) !in s.objects
  {
    var k := Client(realm, clientId);
    assert t.objects[k] in t.owner && t.owner[t.objects[k]] == k;
    if ServiceAccount(realm, t.objects[k]) in s.objects {
      AccountHasClient(s, realm, t.objects[k]);
    }
  }

  lemma RolesAreRoles(realm: string, id: Id, names: seq<string>)
    ensures forall k :: k in RoleKeys(realm, id, names) ==> k.realm == realm && (k.ClientRole? || k.RealmRole?)
    ensures id != "" ==> forall k :: k in RoleKeys(realm, id, names) ==> k.ClientRole?
  {}

  lemma MyAccount(s: Server, t: Server, realm: string, c: AccountClient, id: Id, createOnly: bool)
    requires OneClientDone(s, t, realm, c, id, createOnly)
    ensures HasAccount(t, realm, c.base.clientId) <==> GetsAccount(s, realm, c, createOnly)
  {
    RolesAreRoles(realm, id, c.base.roles);
    if Client(realm, c.base.clientId) !in s.objects {
      NewClientIsBare(s, t, realm, c.base.clientId);
    }
    hide WellFormed, RoleKeys;
  }

  lemma OtherAccount(s: Server, t: Server, realm: string, c: AccountClient, id: Id, createOnly: bool, other: string)
    requires OneClientDone(s, t, realm, c, id, createOnly) && other != c.base.clientId
    ensures Client(realm, other) in t.objects <==> Client(realm, other) in s.objects
    ensures HasAccount(t, realm, other) <==> HasAccount(s, realm, other)
  {
    hide WellFormed, RoleKeys;
    RolesAreRoles(realm, id, c.base.roles);
    IdsDiffer(t, Client(realm, c.base.clientId), Client(realm, other));
  }

  lemma NewKeysComeWith(s: Server, t: Server, realm: string, c: AccountClient, id: Id, createOnly: bool)
    requires OneClientDone(s, t, realm, c, id, createOnly)
    ensures forall k :: k in t.objects && k !in s.objects ==> ComesWith(t, realm, [c], k)
  {
    hide WellFormed, RoleKeys;
    ClientIdIsSomething(t, Client(realm, c.base.clientId));
    RolesAreRoles(realm, id, c.base.roles);
    assert [c][0] == c && IdOf(t, realm, c) == id;
  }

  /** Whether this client has an account afterwards, and that the others are as they were. */
  lemma AccountsAfterOne(s: Server, t: Server, realm: string, c: AccountClient, id: Id, createOnly: bool)
    requires OneClientDone(s, t, realm, c, id, createOnly)
    ensures HasAccount(t, realm, c.base.clientId) <==> GetsAccount(s, realm, c, createOnly)
    ensures forall other: string :: other != c.base.clientId ==>
              && (Client(realm, other) in t.objects <==> Client(realm, other) in s.objects)
              && (HasAccount(t, realm, other) <==> HasAccount(s, realm, other))
    ensures forall k :: k in t.objects && k !in s.objects ==> ComesWith(t, realm, [c], k)
  {
    hide OneClientDone, HasAccount, GetsAccount, ComesWith;
    MyAccount(s, t, realm, c, id, createOnly);
    NewKeysComeWith(s, t, realm, c, id, createOnly);
    forall other: string | other != c.base.clientId
      ensures Client(realm, other) in t.objects <==> Client(realm, other) in s.objects
      ensures HasAccount(t, realm, other) <==> HasAccount(s, realm, other)
    {
      OtherAccount(s, t, realm, c, id, createOnly, other);
    }
  }

  lemma ClientIdIsSomething(s: Server, k: Key)
    requires WellFormed(s) && k in s.objects
    ensures s.objects[k] != ""
  {}

  lemma IdsDiffer(s: Server, j: Key, k: Key)
    requires WellFormed(s)
    ensures j != k && j in s.objects && k in s.objects ==> s.objects[j] != s.objects[k]
  {}

  lemma ComesWithLater(s: Server, t: Server, u: Server, realm: string, cs: seq<AccountClient>)
    requires cs != [] && Grows(t, u) && Client(realm, cs[0].base.clientId) in t.objects
    requires forall k :: k in t.objects && k !in s.objects ==> ComesWith(t, realm, [cs[0]], k)
    requires forall k :: k in u.objects && k !in t.objects ==> ComesWith(u, realm, cs[1..], k)
    ensures forall k :: k in u.objects && k !in s.objects ==> ComesWith(u, realm, cs, k)
  {
    assert forall i :: 0 <= i < |cs[1..]| ==> cs[1..][i] == cs[i + 1];
    assert [cs[0]][0] == cs[0] && IdOf(u, realm, cs[0]) == IdOf(t, realm, cs[0]);
  }

  ghost predicate ClientsDone(s: Server, t: Server, realm: string, cs: seq<AccountClient>, createOnly: bool) {
    && WellFormed(s) && WellFormed(t) && Grows(s, t) && t.realms == s.realms
    && (forall k :: k in t.objects && k !in s.objects ==> ComesWith(t, realm, cs, k))
    && forall i :: 0 <= i < |cs| ==>
         && Client(realm, cs[i].base.clientId) in t.objects
         && (HasAccount(t, realm, cs[i].base.clientId) <==> GetsAccount(s, realm, cs[i], createOnly))
  }

  lemma OneMoreClient(s: Server, t: Server, u: Server, realm: string, cs: seq<AccountClient>, id: Id, createOnly: bool)
    requires cs != [] && DistinctIds(cs) && OneClientDone(s, t, realm, cs[0], id, createOnly)
    requires ClientsDone(t, u, realm, cs[1..], createOnly)
    ensures ClientsDone(s, u, realm, cs, createOnly)
  {
    hide WellFormed, AccountKeys, RoleKeys, HasAccount, ComesWith;
    GrowsTransitive(s, t, u);
    AccountsAfterOne(s, t, realm, cs[0], id, createOnly);
    ComesWithLater(s, t, u, realm, cs);
    FirstKeepsAccount(t, u, realm, cs);
    forall i | 0 <= i < |cs|
      ensures Client(realm, cs[i].base.clientId) in u.objects
      ensures HasAccount(u, realm, cs[i].base.clientId) <==> GetsAccount(s, realm, cs[i], createOnly)
    {
      if i > 0 {
        assert cs[i] == cs[1..][i - 1];
      }
    }
  }

  /** Later clients do not touch an earlier one's account. */
  lemma FirstKeepsAccount(t: Server, u: Server, realm: string, cs: seq<AccountClient>)
    requires cs != [] && DistinctIds(cs) && WellFormed(u) && Grows(t, u)
    requires Client(realm, cs[0].base.clientId) in t.objects
    requires forall k :: k in u.objects && k !in t.objects ==> ComesWith(u, realm, cs[1..], k)
    ensures HasAccount(u, realm, cs[0].base.clientId) <==> HasAccount(t, realm, cs[0].base.clientId)
  {
    hide WellFormed;
    var mine := Client(realm, cs[0].base.clientId);
    var account := ServiceAccount(realm, u.objects[mine]);
    if account in u.objects && account !in t.objects {
      var i :| 0 <= i < |cs[1..]| && IdOf(u, realm, cs[1..][i]) == u.objects[mine] != "";
      assert cs[1..][i] == cs[i + 1];
      IdsDiffer(u, mine, Client(realm, cs[i + 1].base.clientId));
      assert false;
    }
  }

  lemma WorkStays(t: Server, u: Server, realm: string, cs: seq<AccountClient>)
    requires cs != [] && Grows(t, u) && Client(realm, cs[0].base.clientId) in t.objects
    ensures WorkAll(u, realm, cs) ==
            WorkOf(cs[0], t.objects[Client(realm, cs[0].base.clientId)]) + WorkAll(u, realm, cs[1..])
  {}

  /** The client loop, on a live server: what it adds, what it puts off, and who has a service account afterwards. */
  lemma {:induction false} EnsureClientsLive(a: Api, realm: string, cs: seq<AccountClient>, createOnly: bool)
    requires IsLive(a) && realm in a.server.realms && DistinctIds(cs)
    ensures
      var (b, status, work) := EnsureClients(a, realm, cs, createOnly);
      && status == Done && IsLive(b) && ClientsDone(a.server, b.server, realm, cs, createOnly)
      && work == WorkAll(b.server, realm, cs)
    decreases |cs|
  {
    hide *;
    EnsureClientsStep(a, realm, cs, createOnly);
    LiveIs(a);
    if cs == [] {
      NoClients(a.server, realm, createOnly);
    } else {
      OneClient(a, realm, cs[0], createOnly);
      var (b, id) := EnsureClient(a, realm, cs[0].base, createOnly);
      var c := EnsureRoles(b, realm, id.value, cs[0].base.roles, createOnly).0;
      LiveIs(c);
      OneClientFacts(a.server, c.server, realm, cs, id.value, createOnly);
      EnsureClientsLive(c, realm, cs[1..], createOnly);
      var d := EnsureClients(c, realm, cs[1..], createOnly).0;
      LiveIs(d);
      OneMoreClient(a.server, c.server, d.server, realm, cs, id.value, createOnly);
      ClientsFacts(c.server, d.server, realm, cs[1..], createOnly);
      WorkStays(c.server, d.server, realm, cs);
    }
  }

  lemma NoClients(s: Server, realm: string, createOnly: bool)
    requires WellFormed(s)
    ensures ClientsDone(s, s, realm, [], createOnly) && WorkAll(s, realm, []) == []
  {
    GrowsItself(s);
  }

  lemma OneClientFacts(s: Server, t: Server, realm: string, cs: seq<AccountClient>, id: Id, createOnly: bool)
    requires cs != [] && DistinctIds(cs) && OneClientDone(s, t, realm, cs[0], id, createOnly)
    ensures DistinctIds(cs[1..]) && t.realms == s.realms
    ensures Client(realm, cs[0].base.clientId) in t.objects && t.objects[Client(realm, cs[0].base.clientId)] == id
  {
    assert forall i :: 0 <= i < |cs[1..]| ==> cs[1..][i] == cs[i + 1];
  }

  lemma ClientsFacts(s: Server, t: Server, realm: string, cs: seq<AccountClient>, createOnly: bool)
    requires ClientsDone(s, t, realm, cs, createOnly)
    ensures Grows(s, t) && t.realms == s.realms
  {}

  // ---------- the grants ----------

  lemma GrantAccountsStep(a: Api, realm: string, work: seq<AccountWork>)
    ensures work == [] ==> GrantAccounts(a, realm, work) == (a, Done)
    ensures work != [] ==>
      var b := FindServiceAccount(a, realm, work[0].client);
      && (b.1.None? ==> GrantAccounts(a, realm, work) == (b.0, NotFound))
      && (b.1.Some? ==>
            var roles := work[0].roles;
            var c := EnsureRoleMappings(b.0, realm, Users, b.1.value, roles.realm, roles.clients);
            GrantAccounts(a, realm, work) == if c.1 != Done then c else GrantAccounts(c.0, realm, work[1..]))
  {}

  ghost predicate AllFound(s: Server, realm: string, work: seq<AccountWork>) {
    forall i :: 0 <= i < |work| ==> ServiceAccount(realm, work[i].client) in s.objects
  }

  /** On a live server only lists change, and the grants go through only if all accounts are there. */
  lemma {:induction false} GrantAccountsLive(a: Api, realm: string, work: seq<AccountWork>)
    requires IsLive(a) && realm in a.server.realms
    ensures
      var (b, status) := GrantAccounts(a, realm, work);
      && IsLive(b) && Grows(a.server, b.server) && b.server == a.server.(mappings := b.server.mappings)
      && (status == Done ==> AllFound(a.server, realm, work))
    decreases |work|
  {
    hide *;
    GrantAccountsStep(a, realm, work);
    GrowsItself(a.server);
    FoundOneMore(a.server, a.server, realm, work);
    if work != [] {
      AccountIs(a, realm, work[0].client);
      var account := FindServiceAccount(a, realm, work[0].client).1;
      if account.Some? {
        var roles := work[0].roles;
        EnsureRoleMappingsLive(a, realm, Users, account.value, roles.realm, roles.clients);
        var (c, status) := EnsureRoleMappings(a, realm, Users, account.value, roles.realm, roles.clients);
        if status == Done {
          GrantAccountsLive(c, realm, work[1..]);
          FoundOneMore(a.server, c.server, realm, work);
          GrowsTransitive(a.server, c.server, GrantAccounts(c, realm, work[1..]).0.server);
        }
      }
    }
  }

  lemma AccountIs(a: Api, realm: string, client: Id)
    requires IsLive(a)
    ensures
      var (b, account) := FindServiceAccount(a, realm, client);
      && b == a && (account.Some? <==> ServiceAccount(realm, client) in a.server.objects)
      && (account.Some? ==>
            HolderKnown(a.server, Mapping(realm, Users, account.value, "")) && !Unborn(a.server, account.value))
  {}

  lemma FoundOneMore(s: Server, t: Server, realm: string, work: seq<AccountWork>)
    requires t.objects == s.objects
    ensures work == [] ==> AllFound(s, realm, work)
    ensures work != [] && ServiceAccount(realm, work[0].client) in s.objects && AllFound(t, realm, work[1..]) ==>
              AllFound(s, realm, work)
  {
    if work != [] {
      assert work == [work[0]] + work[1..];
    }
  }

  /** A dry run finds the account of any client it made up, and of others what the server has. */
  predicate AllForetold(s: Server, realm: string, work: seq<AccountWork>) {
    forall i :: 0 <= i < |work| ==>
      IsSyntheticID(work[i].client) || ServiceAccount(realm, work[i].client) in s.objects
  }

  lemma {:induction false} GrantAccountsDry(a: Api, realm: string, work: seq<AccountWork>)
    requires a.overlay.Some?
    ensures
      var (b, status) := GrantAccounts(a, realm, work);
      b.overlay.Some? && b.server == a.server && (status == Done ==> AllForetold(a.server, realm, work))
    decreases |work|
  {
    GrantAccountsStep(a, realm, work);
    hide GrantAccounts, EnsureRoleMappings;
    if work != [] {
      var (b, account) := FindServiceAccount(a, realm, work[0].client);
      if account.Some? {
        var roles := work[0].roles;
        DryGrants(b, realm, Users, account.value, roles.realm, roles.clients);
        var c := EnsureRoleMappings(b, realm, Users, account.value, roles.realm, roles.clients).0;
        GrantAccountsDry(c, realm, work[1..]);
        assert work == [work[0]] + work[1..];
      }
    }
  }

  /** No grant of a dry run reaches the server. */
  lemma DryGrants(a: Api, realm: string, kind: HolderKind, holder: Id, realmRoles: seq<string>, entries: ClientRoles)
    requires a.overlay.Some?
    ensures
      var b := EnsureRoleMappings(a, realm, kind, holder, realmRoles, entries).0;
      b.overlay.Some? && b.server == a.server
  {
    DryEntries(GrantRoles(a, Mapping(realm, kind, holder, ""), realmRoles).0, realm, kind, holder, entries);
  }

  lemma {:induction false} DryEntries(a: Api, realm: string, kind: HolderKind, holder: Id, entries: ClientRoles)
    requires a.overlay.Some?
    ensures
      var b := GrantClientRoles(a, realm, kind, holder, entries).0;
      b.overlay.Some? && b.server == a.server
    decreases |entries|
  {
    if entries != [] {
      if entries[0].1 == [] {
        DryEntries(a, realm, kind, holder, entries[1..]);
      } else {
        var (b, client) := FindClient(a, realm, entries[0].0);
        if client.Some? {
          var c := GrantRoles(b, Mapping(realm, kind, holder, client.value), entries[0].1).0;
          DryEntries(c, realm, kind, holder, entries[1..]);
        }
      }
    }
  }
}
