/** What a dry run reports is what the run does (internal/provisioner/dryrun.go): clients, service accounts and realms
    in step, and the theorem. */
module Prediction {
  import opened Text
  import opened Ids
  import opened Directory
  import opened Reconcile
  import opened LiveRuns
  import opened GroupTrees
  import opened ServiceAccounts
  import opened Simulation

  // ---------- clients ----------

  /** The same work on both sides, under corresponding clients. */
  ghost predicate Corresponds(phi: Phi, s0: Server, lw: seq<AccountWork>, dw: seq<AccountWork>) {
    && |lw| == |dw|
    && forall i :: 0 <= i < |dw| ==>
         && Ours(phi, s0, dw[i].client) && dw[i].client != "" && lw[i].client == R(phi, dw[i].client)
         && lw[i].roles == dw[i].roles
  }

  lemma WorkCorresponds(phi: Phi, psi: Phi, s0: Server, L: Api, D: Api, L1: Api, D1: Api, T: set<Mapping>,
      U: set<Mapping>, c: AccountClient, d: Id)
    requires Sim(phi, s0, L, D, T) && Sim(psi, s0, L1, D1, U) && Extends(phi, psi) && Ours(phi, s0, d) && d != ""
    ensures Corresponds(psi, s0, WorkOf(c, R(phi, d)), WorkOf(c, d))
  {
    hide Sim, Extends, Ours, R;
    StillOurs(phi, psi, s0, L, D, L1, D1, T, U, d);
  }

  lemma CorrespondsBoth(phi: Phi, s0: Server, lw: seq<AccountWork>, dw: seq<AccountWork>, lw': seq<AccountWork>,
      dw': seq<AccountWork>)
    requires Corresponds(phi, s0, lw, dw) && Corresponds(phi, s0, lw', dw')
    ensures Corresponds(phi, s0, lw + lw', dw + dw')
  {
    hide Ours, R;
  }

  lemma CorrespondsLater(phi: Phi, psi: Phi, s0: Server, L: Api, D: Api, L1: Api, D1: Api, T: set<Mapping>,
      U: set<Mapping>, lw: seq<AccountWork>, dw: seq<AccountWork>)
    requires Sim(phi, s0, L, D, T) && Sim(psi, s0, L1, D1, U) && Extends(phi, psi) && Corresponds(phi, s0, lw, dw)
    ensures Corresponds(psi, s0, lw, dw)
  {
    hide Sim, Ours, R, Extends;
    forall i | 0 <= i < |dw| ensures Ours(psi, s0, dw[i].client) && lw[i].client == R(psi, dw[i].client) {
      StillOurs(phi, psi, s0, L, D, L1, D1, T, U, dw[i].client);
    }
  }

  lemma NothingCorresponds(phi: Phi, s0: Server)
    ensures Corresponds(phi, s0, [], [])
  {}

  lemma SomeId(phi: Phi, s0: Server, L: Api, D: Api, T: set<Mapping>, k: Key, d: Id)
    requires Sim(phi, s0, L, D, T) && Ours(phi, s0, d) && Lookup(L.server, k) == Some(R(phi, d))
    ensures d != ""
  {
    EmptyIdIsEmpty(phi, s0, L, D, T, d);
    SimFacts(phi, s0, L, D, T);
    ClientIdIsSomething(L.server, k);
  }

  lemma {:induction false} SimEnsureClients(phi: Phi, s0: Server, L: Api, D: Api, T: set<Mapping>, realm: string,
      cs: seq<AccountClient>, createOnly: bool)
    returns (psi: Phi)
    requires Sim(phi, s0, L, D, T) && realm in L.server.realms
    ensures Extends(phi, psi)
    ensures
      var (L', st, lw) := EnsureClients(L, realm, cs, createOnly);
      var (D', dt, dw) := EnsureClients(D, realm, cs, createOnly);
      && st == Done && dt == Done && Sim(psi, s0, L', D', T) && Grows(L.server, L'.server)
      && L'.server.realms == L.server.realms && Corresponds(psi, s0, lw, dw)
    decreases |cs|
  {
    hide *;
    EnsureClientsStep(L, realm, cs, createOnly);
    EnsureClientsStep(D, realm, cs, createOnly);
    GrowsItself(L.server);
    ExtendsTransitive(phi, phi, phi);
    NothingCorresponds(phi, s0);
    psi := phi;
    if cs != [] {
      var c := cs[0];
      psi := SimEnsureClient(phi, s0, L, D, T, realm, c.base, createOnly);
      var L1, id := EnsureClient(L, realm, c.base, createOnly).0, EnsureClient(L, realm, c.base, createOnly).1;
      var D1, e := EnsureClient(D, realm, c.base, createOnly).0, EnsureClient(D, realm, c.base, createOnly).1;
      SomeId(psi, s0, L1, D1, T, Client(realm, c.base.clientId), e.value);
      var chi := SimEnsureRoles(psi, s0, L1, D1, T, realm, e.value, c.base.roles, createOnly);
      var L2 := EnsureRoles(L1, realm, id.value, c.base.roles, createOnly).0;
      var D2 := EnsureRoles(D1, realm, e.value, c.base.roles, createOnly).0;
      GrowsTransitive(L.server, L1.server, L2.server);
      var omega := SimEnsureClients(chi, s0, L2, D2, T, realm, cs[1..], createOnly);
      var L3, D3 := EnsureClients(L2, realm, cs[1..], createOnly).0, EnsureClients(D2, realm, cs[1..], createOnly).0;
      GrowsTransitive(L.server, L2.server, L3.server);
      ExtendsTransitive(psi, chi, omega);
      WorkCorresponds(psi, omega, s0, L1, D1, L3, D3, T, T, c, e.value);
      CorrespondsBoth(omega, s0, WorkOf(c, id.value), WorkOf(c, e.value),
                      EnsureClients(L2, realm, cs[1..], createOnly).2, EnsureClients(D2, realm, cs[1..], createOnly).2);
      ExtendsTransitive(phi, psi, omega);
      psi := omega;
    }
  }

  // ---------- service accounts ----------

  ghost predicate AllFoundAlike(phi: Phi, s0: Server, s: Server, realm: string, dw: seq<AccountWork>) {
    forall i :: 0 <= i < |dw| ==> FoundAlike(phi, s0, s, realm, dw[i].client)
  }

  predicate DistinctWork(work: seq<AccountWork>) {
    && (forall i, j :: 0 <= i < j < |work| ==> work[i].client != work[j].client)
    && forall i :: 0 <= i < |work| ==> DistinctClients(work[i].roles.clients)
  }

  /** None of these accounts has been granted anything yet. */
  ghost predicate AccountsFresh(T: set<Mapping>, s: Server, realm: string, work: seq<AccountWork>) {
    forall i :: 0 <= i < |work| && ServiceAccount(realm, work[i].client) in s.objects ==>
      FreshHolder(T, realm, Users, s.objects[ServiceAccount(realm, work[i].client)])
  }

  /** Only lists of users of this realm have been granted to since. */
  ghost predicate TouchesUsers(T: set<Mapping>, U: set<Mapping>, realm: string) {
    T <= U && forall m :: m in U - T ==> m.realm == realm && m.kind == Users
  }

  lemma TouchesUsersTwice(T: set<Mapping>, U: set<Mapping>, V: set<Mapping>, realm: string, holder: Id)
    requires Touches(T, U, realm, Users, holder) && TouchesUsers(U, V, realm)
    ensures TouchesUsers(T, V, realm) && TouchesUsers(T, U, realm) && TouchesUsers(T, T, realm)
  {}

  lemma TouchesNoUsers(T: set<Mapping>, realm: string)
    ensures TouchesUsers(T, T, realm)
  {}

  /** The other accounts stay fresh. */
  lemma FreshLater(s: Server, t: Server, T: set<Mapping>, U: set<Mapping>, realm: string, work: seq<AccountWork>,
      id: Id)
    requires work != [] && DistinctWork(work) && AccountsFresh(T, s, realm, work) && ObjectsOk(s)
    requires Lookup(s, ServiceAccount(realm, work[0].client)) == Some(id) && Touches(T, U, realm, Users, id)
    requires t.objects == s.objects
    ensures DistinctWork(work[1..]) && AccountsFresh(U, t, realm, work[1..])
  {
    var rest := work[1..];
    forall i | 0 <= i < |rest| && ServiceAccount(realm, rest[i].client) in t.objects
      ensures FreshHolder(U, realm, Users, t.objects[ServiceAccount(realm, rest[i].client)])
    {
      assert rest[i] == work[i + 1];
      SameIdSameKey(s, ServiceAccount(realm, rest[i].client), ServiceAccount(realm, work[0].client));
    }
    assert forall i :: 0 <= i < |rest| ==> rest[i] == work[i + 1];
  }

  lemma FirstIsFresh(s: Server, T: set<Mapping>, realm: string, work: seq<AccountWork>, id: Id)
    requires work != [] && DistinctWork(work) && AccountsFresh(T, s, realm, work) && WellFormed(s)
    requires Lookup(s, ServiceAccount(realm, work[0].client)) == Some(id)
    ensures FreshHolder(T, realm, Users, id) && DistinctClients(work[0].roles.clients)
    ensures HolderKnown(s, Mapping(realm, Users, id, ""))
  {}

  lemma RestAlike(phi: Phi, psi: Phi, s0: Server, L: Api, D: Api, L1: Api, D1: Api, T: set<Mapping>, U: set<Mapping>,
      realm: string, lw: seq<AccountWork>, dw: seq<AccountWork>)
    requires Sim(phi, s0, L, D, T) && Sim(psi, s0, L1, D1, U) && Extends(phi, psi)
    requires L1.server.objects == L.server.objects
    requires Corresponds(phi, s0, lw, dw) && AllFoundAlike(phi, s0, L.server, realm, dw) && dw != []
    ensures Corresponds(psi, s0, lw[1..], dw[1..]) && AllFoundAlike(psi, s0, L1.server, realm, dw[1..])
  {
    hide Sim, Extends, Ours, R;
    CorrespondsLater(phi, psi, s0, L, D, L1, D1, T, U, lw, dw);
    forall i | 0 <= i < |dw[1..]| ensures FoundAlike(psi, s0, L1.server, realm, dw[1..][i].client) {
      assert dw[1..][i] == dw[i + 1] && FoundAlike(phi, s0, L.server, realm, dw[i + 1].client);
    }
  }

  lemma FirstCorresponds(phi: Phi, s0: Server, s: Server, realm: string, lw: seq<AccountWork>, dw: seq<AccountWork>)
    requires Corresponds(phi, s0, lw, dw) && AllFoundAlike(phi, s0, s, realm, dw)
    ensures lw == [] <==> dw == []
    ensures dw != [] ==>
              && Ours(phi, s0, dw[0].client) && dw[0].client != "" && lw[0].client == R(phi, dw[0].client)
              && lw[0].roles == dw[0].roles && FoundAlike(phi, s0, s, realm, dw[0].client)
  {}

  /** The accounts put off, where both runs find them or neither does. */
  lemma {:induction false} SimGrantAccounts(phi: Phi, s0: Server, L: Api, D: Api, T: set<Mapping>, realm: string,
      lw: seq<AccountWork>, dw: seq<AccountWork>)
    returns (psi: Phi, U: set<Mapping>)
    requires Sim(phi, s0, L, D, T) && realm in L.server.realms && Corresponds(phi, s0, lw, dw)
    requires AllFoundAlike(phi, s0, L.server, realm, dw)
    requires DistinctWork(lw) && AccountsFresh(T, L.server, realm, lw)
    ensures Extends(phi, psi) && TouchesUsers(T, U, realm)
    ensures
      var (L', st) := GrantAccounts(L, realm, lw);
      var (D', dt) := GrantAccounts(D, realm, dw);
      st == dt && Sim(psi, s0, L', D', U) && Grows(L.server, L'.server) && L'.server.objects == L.server.objects
    decreases |lw|
  {
    hide *;
    GrantAccountsStep(L, realm, lw);
    GrantAccountsStep(D, realm, dw);
    FirstCorresponds(phi, s0, L.server, realm, lw, dw);
    GrowsItself(L.server);
    ExtendsTransitive(phi, phi, phi);
    TouchesNoUsers(T, realm);
    psi, U := phi, T;
    if dw != [] {
      var d, roles := dw[0].client, dw[0].roles;
      psi := SimFindAccount(phi, s0, L, D, T, realm, d);
      var D1, found := FindServiceAccount(D, realm, d).0, FindServiceAccount(D, realm, d).1;
      ROptIs(psi, found);
      if found.Some? {
        SimFacts(psi, s0, L, D1, T);
        var id := R(psi, found.value);
        FirstIsFresh(L.server, T, realm, lw, id);
        var chi, V := SimEnsureRoleMappings(psi, s0, L, D1, T, realm, Users, found.value, roles.realm, roles.clients);
        var L2, st := EnsureRoleMappings(L, realm, Users, id, roles.realm, roles.clients).0,
            EnsureRoleMappings(L, realm, Users, id, roles.realm, roles.clients).1;
        var D2 := EnsureRoleMappings(D1, realm, Users, found.value, roles.realm, roles.clients).0;
        ExtendsTransitive(phi, psi, chi);
        TouchesNoUsers(V, realm);
        TouchesUsersTwice(T, V, V, realm, id);
        psi, U := chi, V;
        if st == Done {
          FreshLater(L.server, L2.server, T, V, realm, lw, id);
          RestAlike(phi, chi, s0, L, D, L2, D2, T, V, realm, lw, dw);
          RealmsStay(L.server, L2.server, realm);
          var omega, W := SimGrantAccounts(chi, s0, L2, D2, V, realm, lw[1..], dw[1..]);
          GrowsTransitive(L.server, L2.server, GrantAccounts(L2, realm, lw[1..]).0.server);
          ExtendsTransitive(phi, chi, omega);
          TouchesUsersTwice(T, V, W, realm, id);
          psi, U := omega, W;
        }
      }
    }
  }

  lemma RealmsStay(s: Server, t: Server, realm: string)
    requires Grows(s, t) && realm in s.realms
    ensures realm in t.realms
  {}

  // ---------- which accounts a dry run foresees ----------

  /** A dry run foresees the service account of a client that is there exactly if the account is there, too, since the
      update that would enable it is skipped; and the account of any client it makes up, which for the
      realm-management of a new realm is right unless that is left alone. */
  predicate Foreseen(s0: Server, realm: string, c: AccountClient, createOnly: bool) {
    c.accountRoles.Some? ==>
      if Client(realm, c.base.clientId) in s0.objects then HasAccount(s0, realm, c.base.clientId)
      else createOnly && realm !in s0.realms ==> c.base.clientId != REALM_MANAGEMENT
  }

  ghost predicate RealmForeseen(s0: Server, r: RealmConfig) {
    forall i :: 0 <= i < |r.clients| ==> Foreseen(s0, r.realm, r.clients[i], r.createOnly)
  }

  /** Nothing has happened to this realm since the start, but that it may have been created. */
  ghost predicate JustBegun(s0: Server, s: Server, realm: string) {
    && Grows(s0, s)
    && (forall n: string :: Client(realm, n) in s.objects <==>
          Client(realm, n) in s0.objects || (realm !in s0.realms && n == REALM_MANAGEMENT))
    && forall id: Id :: ServiceAccount(realm, id) in s.objects ==> ServiceAccount(realm, id) in s0.objects
  }

  /** Whether the two runs find the account, put in terms of the start. */
  lemma ForeseenMeansFoundAlike(phi: Phi, s0: Server, s: Server, t: Server, o: Overlay, realm: string,
      c: AccountClient, d: Id, createOnly: bool)
    requires WellFormed(s0) && WellFormed(t) && PhiOk(phi, s0, t, o) && JustBegun(s0, s, realm) && Grows(s, t)
    requires Ours(phi, s0, d) && d != "" && Lookup(t, Client(realm, c.base.clientId)) == Some(R(phi, d))
    requires HasAccount(t, realm, c.base.clientId) <==> GetsAccount(s, realm, c, createOnly)
    requires c.accountRoles.Some? && c.base.serviceAccount
    ensures Foreseen(s0, realm, c, createOnly) ==> FoundAlike(phi, s0, t, realm, d)
    ensures (IsSyntheticID(d) || ServiceAccount(realm, d) in s0.objects) ==>
              ServiceAccount(realm, R(phi, d)) in t.objects ==> Foreseen(s0, realm, c, createOnly)
  {
    hide WellFormed, PhiOk, Ours, Grows, R;
    GrowsTransitive(s0, s, t);
    ClientIsReal(phi, s0, t, o, Client(realm, c.base.clientId), d);
    AccountsOfStart(s0, s, realm, c.base.clientId);
    AccountStays(s0, t, realm, c.base.clientId);
  }

  lemma AccountStays(s: Server, t: Server, realm: string, clientId: string)
    requires Grows(s, t)
    ensures HasAccount(s, realm, clientId) ==> HasAccount(t, realm, clientId)
  {}

  /** The dry run knows a client by the server's own id exactly if the server had it. */
  lemma ClientIsReal(phi: Phi, s0: Server, t: Server, o: Overlay, k: Key, d: Id)
    requires WellFormed(s0) && WellFormed(t) && PhiOk(phi, s0, t, o) && Grows(s0, t)
    requires Ours(phi, s0, d) && d != "" && Lookup(t, k) == Some(R(phi, d))
    ensures k in s0.objects ==> d == s0.objects[k] == R(phi, d) && !IsSyntheticID(d)
    ensures k !in s0.objects ==> IsSyntheticID(d)
  {
    hide PathsOk, MappingsOk, MembershipsOk;
  }

  /** With nothing done to a realm yet, its clients have the accounts they had. */
  lemma AccountsOfStart(s0: Server, s: Server, realm: string, clientId: string)
    requires JustBegun(s0, s, realm) && WellFormed(s0)
    ensures HasAccount(s, realm, clientId) <==> HasAccount(s0, realm, clientId)
    ensures Client(realm, clientId) in s0.objects ==>
              s.objects[Client(realm, clientId)] == s0.objects[Client(realm, clientId)]
  {
    if HasAccount(s, realm, clientId) {
      AccountHasClient(s0, realm, s.objects[Client(realm, clientId)]);
    }
  }

  /** Every client has the account the loop leaves it with. */
  ghost predicate AccountsAsLeft(s: Server, t: Server, realm: string, cs: seq<AccountClient>, createOnly: bool) {
    forall i :: 0 <= i < |cs| ==>
      && Client(realm, cs[i].base.clientId) in t.objects
      && (HasAccount(t, realm, cs[i].base.clientId) <==> GetsAccount(s, realm, cs[i], createOnly))
  }

  ghost predicate ClientsForeseen(s0: Server, realm: string, cs: seq<AccountClient>, createOnly: bool) {
    forall i :: 0 <= i < |cs| ==> Foreseen(s0, realm, cs[i], createOnly)
  }

  /** What validation makes sure of: roles are for service accounts that are enabled, and entries are maps. */
  predicate ClientsValid(cs: seq<AccountClient>) {
    DistinctIds(cs) && forall i :: 0 <= i < |cs| ==> ClientValid(cs[i])
  }

  predicate ClientValid(c: AccountClient) {
    c.accountRoles.Some? ==> c.base.serviceAccount && DistinctClients(c.accountRoles.value.clients)
  }

  lemma RestOfClients(s0: Server, s: Server, t: Server, realm: string, cs: seq<AccountClient>, createOnly: bool)
    requires cs != [] && ClientsValid(cs) && AccountsAsLeft(s, t, realm, cs, createOnly)
    ensures ClientsValid(cs[1..]) && AccountsAsLeft(s, t, realm, cs[1..], createOnly)
    ensures ClientsForeseen(s0, realm, cs, createOnly) <==>
            Foreseen(s0, realm, cs[0], createOnly) && ClientsForeseen(s0, realm, cs[1..], createOnly)
  {
    hide Foreseen, HasAccount, GetsAccount, ClientValid;
    assert forall i :: 0 <= i < |cs[1..]| ==> cs[1..][i] == cs[i + 1];
    assert cs == [cs[0]] + cs[1..];
  }

  /** Foreseen accounts are found alike; and what both runs find was foreseen. */
  lemma {:induction false} WorkFoundAlike(phi: Phi, s0: Server, s: Server, t: Server, o: Overlay, realm: string,
      cs: seq<AccountClient>, lw: seq<AccountWork>, dw: seq<AccountWork>, createOnly: bool)
    requires WellFormed(s0) && WellFormed(t) && PhiOk(phi, s0, t, o) && JustBegun(s0, s, realm) && Grows(s, t)
    requires ClientsValid(cs) && AccountsAsLeft(s, t, realm, cs, createOnly)
    requires lw == WorkAll(t, realm, cs) && Corresponds(phi, s0, lw, dw)
    ensures ClientsForeseen(s0, realm, cs, createOnly) ==> AllFoundAlike(phi, s0, t, realm, dw)
    ensures AllFound(t, realm, lw) && AllForetold(s0, realm, dw) ==> ClientsForeseen(s0, realm, cs, createOnly)
    decreases |cs|
  {
    hide WellFormed, PhiOk, JustBegun, Grows, Foreseen, FoundAlike, Ours, R, HasAccount, GetsAccount, IsSyntheticID;
    if cs != [] {
      RestOfClients(s0, s, t, realm, cs, createOnly);
      if cs[0].accountRoles.None? {
        NotAsked(s0, realm, cs[0], createOnly);
        WorkFoundAlike(phi, s0, s, t, o, realm, cs[1..], lw, dw, createOnly);
      } else {
        assert lw[1..] == WorkAll(t, realm, cs[1..]) && lw == [lw[0]] + lw[1..] && dw == [dw[0]] + dw[1..];
        ForeseenMeansFoundAlike(phi, s0, s, t, o, realm, cs[0], dw[0].client, createOnly);
        WorkFoundAlike(phi, s0, s, t, o, realm, cs[1..], lw[1..], dw[1..], createOnly);
      }
    }
  }

  lemma NotAsked(s0: Server, realm: string, c: AccountClient, createOnly: bool)
    requires c.accountRoles.None?
    ensures Foreseen(s0, realm, c, createOnly)
  {}

  /** Distinct clients have distinct accounts. */
  lemma {:induction false} WorkIsDistinct(t: Server, realm: string, cs: seq<AccountClient>)
    requires WellFormed(t) && ClientsValid(cs)
    requires forall i :: 0 <= i < |cs| ==> Client(realm, cs[i].base.clientId) in t.objects
    ensures DistinctWork(WorkAll(t, realm, cs))
    ensures forall w :: w in WorkAll(t, realm, cs) ==> exists i :: 0 <= i < |cs| && w.client == IdOf(t, realm, cs[i])
    decreases |cs|
  {
    hide WellFormed;
    if cs != [] {
      var rest := cs[1..];
      assert forall i :: 0 <= i < |rest| ==> rest[i] == cs[i + 1];
      WorkIsDistinct(t, realm, rest);
      var first, work := WorkOf(cs[0], IdOf(t, realm, cs[0])), WorkAll(t, realm, rest);
      forall w | w in work ensures w.client != IdOf(t, realm, cs[0]) {
        var i :| 0 <= i < |rest| && w.client == IdOf(t, realm, rest[i]);
        IdsDiffer(t, Client(realm, cs[0].base.clientId), Client(realm, cs[i + 1].base.clientId));
      }
      forall w | w in first + work ensures exists i :: 0 <= i < |cs| && w.client == IdOf(t, realm, cs[i]) {
        if w in work {
          var i :| 0 <= i < |rest| && w.client == IdOf(t, realm, rest[i]);
          assert w.client == IdOf(t, realm, cs[i + 1]);
        } else {
          assert w.client == IdOf(t, realm, cs[0]);
        }
      }
      FirstOfWork(first, work);
    }
  }

  lemma FirstOfWork(first: seq<AccountWork>, work: seq<AccountWork>)
    requires |first| <= 1 && DistinctWork(work)
    requires first != [] ==>
               DistinctClients(first[0].roles.clients) && forall w :: w in work ==> w.client != first[0].client
    ensures DistinctWork(first + work)
  {}

  // ---------- realms ----------

  lemma SimEnsureRealm(phi: Phi, s0: Server, L: Api, D: Api, T: set<Mapping>, realm: string, createOnly: bool)
    requires Sim(phi, s0, L, D, T) && (realm in L.server.realms ==> realm in s0.realms)
    ensures
      var (L', st) := EnsureRealm(L, realm, createOnly);
      var (D', dt) := EnsureRealm(D, realm, createOnly);
      && st == Done && dt == Done && Sim(phi, s0, L', D', T) && Grows(L.server, L'.server)
      && L'.server.realms == L.server.realms + {realm}
  {
    var w := UpdatesRealm(realm);
    if realm !in L.server.realms {
      SimCreateRealm(phi, s0, L, D, T, realm);
    } else if !createOnly {
      SimRecord(phi, s0, L, D, T, w);
    }
  }

  lemma ProvisionRealmStep(a: Api, r: RealmConfig)
    ensures
      var b := EnsureRealm(a, r.realm, r.createOnly);
      b.1 == Done ==>
        var c := EnsureClients(b.0, r.realm, r.clients, r.createOnly);
        c.1 == Done ==>
          var d := EnsureRoles(c.0, r.realm, "", r.roles, r.createOnly);
          d.1 == Done ==>
            var e := GrantAccounts(d.0, r.realm, c.2);
            ProvisionRealm(a, r) == if e.1 != Done then e else EnsureGroups(e.0, r.realm, "", r.groups, r.createOnly)
  {}

  /** No list in this realm has been granted to. */
  ghost predicate RealmClear(T: set<Mapping>, realm: string) {
    forall m :: m in T ==> m.realm != realm
  }

  lemma RootFacts(phi: Phi, s0: Server, L: Api, D: Api, T: set<Mapping>, U: set<Mapping>, realm: string,
      gs: seq<GroupConfig>)
    requires Sim(phi, s0, L, D, U) && RealmClear(T, realm) && TouchesUsers(T, U, realm)
    ensures Ours(phi, s0, "") && R(phi, "") == "" && RoleHome(L.server, realm, "") && ParentOk(L.server, realm, "")
    ensures AllClear(U, L.server, realm, PathOf(L.server, ""), gs)
  {
    EmptyIdIsEmpty(phi, s0, L, D, U, "");
  }

  lemma OthersStayClear(T: set<Mapping>, U: set<Mapping>, V: set<Mapping>, t: Server, realm: string, q: seq<string>)
    requires TouchesUsers(T, U, realm) && Under(U, V, t, realm, q)
    ensures forall other :: other != realm && RealmClear(T, other) ==> RealmClear(V, other) && RealmClear(U, other)
  {}

  lemma ClearIsFresh(T: set<Mapping>, s: Server, realm: string, work: seq<AccountWork>)
    requires RealmClear(T, realm)
    ensures AccountsFresh(T, s, realm, work)
  {}

  /** Clients and accounts of other realms are none of this realm's business. */
  ghost predicate AddsOwn(s: Server, t: Server, realm: string) {
    forall k :: k in t.objects && k !in s.objects && (k.Client? || k.ServiceAccount?) ==> k.realm == realm
  }

  ghost predicate NothingDone(s0: Server, s: Server, realm: string) {
    forall k :: k in s.objects && k.realm == realm && (k.Client? || k.ServiceAccount?) ==> k in s0.objects
  }

  predicate RealmValid(r: RealmConfig) {
    ValidGroups(r.groups) && ClientsValid(r.clients)
  }

  lemma RealmBegins(s0: Server, a: Api, realm: string, createOnly: bool)
    requires IsLive(a) && WellFormed(s0) && Grows(s0, a.server) && NothingDone(s0, a.server, realm)
    requires realm in a.server.realms ==> realm in s0.realms
    ensures
      var (b, st) := EnsureRealm(a, realm, createOnly);
      && st == Done && IsLive(b) && JustBegun(s0, b.server, realm) && AddsOwn(a.server, b.server, realm)
      && realm in b.server.realms && Grows(a.server, b.server)
  {
    hide WellFormed, Grows, JustBegun, AddRealm;
    LiveIs(a);
    if realm !in a.server.realms {
      AddRealmKeeps(a.server, realm);
      GrowsTransitive(s0, a.server, AddRealm(a.server, realm));
      LiveIs(CreateRealm(a, realm).0);
      NewRealmBegins(s0, a.server, realm);
    } else {
      GrowsItself(a.server);
      OldRealmBegins(s0, a.server, realm);
    }
  }

  lemma NewRealmBegins(s0: Server, s: Server, realm: string)
    requires WellFormed(s) && Grows(s0, s) && Grows(s0, AddRealm(s, realm)) && realm !in s.realms
    ensures
      var t := AddRealm(s, realm);
      JustBegun(s0, t, realm) && AddsOwn(s, t, realm) && realm in t.realms
  {
    hide OwnersOk, PathsOk, MappingsOk, MembershipsOk;
    assert forall k :: k in s.objects ==> k.realm != realm;
    assert forall k :: k in s0.objects ==> k in s.objects;
    assert realm !in s0.realms;
  }

  lemma OldRealmBegins(s0: Server, s: Server, realm: string)
    requires Grows(s0, s) && NothingDone(s0, s, realm) && realm in s0.realms
    ensures JustBegun(s0, s, realm) && AddsOwn(s, s, realm) && realm in s.realms
  {}

  lemma ClientsAddOwn(s: Server, t: Server, realm: string, cs: seq<AccountClient>, createOnly: bool)
    requires ClientsDone(s, t, realm, cs, createOnly)
    ensures AddsOwn(s, t, realm) && AccountsAsLeft(s, t, realm, cs, createOnly) && Grows(s, t) && t.realms == s.realms
  {}

  /** Roles of the realm are neither clients nor accounts. */
  lemma RolesAddNone(s: Server, t: Server, u: Server, realm: string, cs: seq<AccountClient>, names: seq<string>,
      createOnly: bool)
    requires AccountsAsLeft(s, t, realm, cs, createOnly) && AddsOwn(s, t, realm) && Grows(t, u) && Grows(s, t)
    requires u.objects.Keys == t.objects.Keys + RoleKeys(realm, "", names)
    ensures AccountsAsLeft(s, u, realm, cs, createOnly) && AddsOwn(s, u, realm)
    ensures WorkAll(u, realm, cs) == WorkAll(t, realm, cs)
  {
    RolesAreRealmRoles(realm, names);
    SameAccountsLeft(s, t, u, realm, cs, createOnly);
    WorkAllStays(s, t, u, realm, cs, createOnly);
  }

  lemma RolesAreRealmRoles(realm: string, names: seq<string>)
    ensures forall k :: k in RoleKeys(realm, "", names) ==> k.RealmRole?
  {}

  lemma SameAccountsLeft(s: Server, t: Server, u: Server, realm: string, cs: seq<AccountClient>, createOnly: bool)
    requires AccountsAsLeft(s, t, realm, cs, createOnly) && AddsOwn(s, t, realm) && Grows(t, u) && Grows(s, t)
    requires forall k :: k in u.objects && (k.Client? || k.ServiceAccount?) ==> k in t.objects
    ensures AccountsAsLeft(s, u, realm, cs, createOnly) && AddsOwn(s, u, realm)
  {
    hide GetsAccount;
  }

  lemma {:induction false} WorkAllStays(s: Server, t: Server, u: Server, realm: string, cs: seq<AccountClient>,
      createOnly: bool)
    requires AccountsAsLeft(s, t, realm, cs, createOnly) && Grows(t, u)
    ensures WorkAll(u, realm, cs) == WorkAll(t, realm, cs)
    decreases |cs|
  {
    hide HasAccount, GetsAccount;
    if cs != [] {
      assert forall i :: 0 <= i < |cs[1..]| ==> cs[1..][i] == cs[i + 1];
      WorkAllStays(s, t, u, realm, cs[1..], createOnly);
    }
  }

  lemma AddsOwnLater(s: Server, t: Server, u: Server, realm: string)
    requires AddsOwn(s, t, realm) && AddsOwn(t, u, realm)
    ensures AddsOwn(s, u, realm)
  {}

  /** The server when the accounts' turn comes. */
  ghost predicate Prepared(s0: Server, a: Api, c: Api, r: RealmConfig, work: seq<AccountWork>, start: Server) {
    && IsLive(c) && Grows(a.server, c.server) && c.server.realms == a.server.realms + {r.realm}
    && AddsOwn(a.server, c.server, r.realm) && JustBegun(s0, start, r.realm) && Grows(start, c.server)
    && AccountsAsLeft(start, c.server, r.realm, r.clients, r.createOnly)
    && work == WorkAll(c.server, r.realm, r.clients)
  }

  /** What the steps before the accounts do on a live server. */
  lemma PreparedLive(s0: Server, a: Api, r: RealmConfig) returns (start: Server)
    requires IsLive(a) && WellFormed(s0) && Grows(s0, a.server) && NothingDone(s0, a.server, r.realm)
    requires (r.realm in a.server.realms ==> r.realm in s0.realms) && RealmValid(r)
    ensures
      var b := EnsureRealm(a, r.realm, r.createOnly);
      var c := EnsureClients(b.0, r.realm, r.clients, r.createOnly);
      var d := EnsureRoles(c.0, r.realm, "", r.roles, r.createOnly);
      && b.1 == Done && c.1 == Done && d.1 == Done
      && (b.0.server.realms == a.server.realms + {r.realm} ==> Prepared(s0, a, d.0, r, c.2, start))
  {
    hide *;
    RealmBegins(s0, a, r.realm, r.createOnly);
    var b := EnsureRealm(a, r.realm, r.createOnly).0;
    start := b.server;
    ValidFacts(r);
    EnsureClientsLive(b, r.realm, r.clients, r.createOnly);
    var (c, _, work) := EnsureClients(b, r.realm, r.clients, r.createOnly);
    ClientsAddOwn(b.server, c.server, r.realm, r.clients, r.createOnly);
    RootIsHome(c.server, r.realm);
    EnsureRolesLive(c, r.realm, "", r.roles, r.createOnly);
    var d := EnsureRoles(c, r.realm, "", r.roles, r.createOnly).0;
    RolesAddNone(b.server, c.server, d.server, r.realm, r.clients, r.roles, r.createOnly);
    GrowsTransitive(a.server, b.server, c.server);
    GrowsTransitive(a.server, c.server, d.server);
    GrowsTransitive(b.server, c.server, d.server);
    AddsOwnLater(a.server, b.server, d.server, r.realm);
    PreparedIs(s0, a, d, r, work, start);
  }

  lemma RootIsHome(s: Server, realm: string)
    ensures RoleHome(s, realm, "")
  {}

  lemma ValidFacts(r: RealmConfig)
    requires RealmValid(r)
    ensures DistinctIds(r.clients) && ClientsValid(r.clients) && ValidGroups(r.groups)
  {}

  lemma PreparedIs(s0: Server, a: Api, c: Api, r: RealmConfig, work: seq<AccountWork>, start: Server)
    ensures Prepared(s0, a, c, r, work, start) <==>
            && IsLive(c) && Grows(a.server, c.server) && c.server.realms == a.server.realms + {r.realm}
            && AddsOwn(a.server, c.server, r.realm) && JustBegun(s0, start, r.realm) && Grows(start, c.server)
            && AccountsAsLeft(start, c.server, r.realm, r.clients, r.createOnly)
            && work == WorkAll(c.server, r.realm, r.clients)
  {}

  /** The groups of a realm add no clients and no accounts. */
  lemma GroupsAddNone(a: Api, realm: string, gs: seq<GroupConfig>, createOnly: bool)
    requires IsLive(a) && realm in a.server.realms
    ensures
      var b := EnsureGroups(a, realm, "", gs, createOnly).0;
      b.server.realms == a.server.realms && AddsOwn(a.server, b.server, realm)
  {
    EnsureGroupsLive(a, realm, "", gs, createOnly);
  }

  /** A realm whose accounts are foreseen: the two runs stay in step. */
  lemma SimProvisionRealm(phi: Phi, s0: Server, L: Api, D: Api, T: set<Mapping>, r: RealmConfig)
    returns (psi: Phi, U: set<Mapping>)
    requires Sim(phi, s0, L, D, T) && RealmValid(r) && NothingDone(s0, L.server, r.realm)
    requires RealmClear(T, r.realm) && (r.realm in L.server.realms ==> r.realm in s0.realms)
    requires RealmForeseen(s0, r)
    ensures Extends(phi, psi)
    ensures forall other :: other != r.realm && RealmClear(T, other) ==> RealmClear(U, other)
    ensures
      var (L', st) := ProvisionRealm(L, r);
      var (D', dt) := ProvisionRealm(D, r);
      && st == dt && Sim(psi, s0, L', D', U) && L'.server.realms == L.server.realms + {r.realm}
      && AddsOwn(L.server, L'.server, r.realm)
  {
    hide *;
    ValidFacts(r);
    ProvisionRealmStep(L, r);
    ProvisionRealmStep(D, r);
    SimIsLive(phi, s0, L, D, T);
    var start := PreparedLive(s0, L, r);
    SimEnsureRealm(phi, s0, L, D, T, r.realm, r.createOnly);
    var L1, D1 := EnsureRealm(L, r.realm, r.createOnly).0, EnsureRealm(D, r.realm, r.createOnly).0;
    psi := SimEnsureClients(phi, s0, L1, D1, T, r.realm, r.clients, r.createOnly);
    var (L2, _, lw) := EnsureClients(L1, r.realm, r.clients, r.createOnly);
    var (D2, _, dw) := EnsureClients(D1, r.realm, r.clients, r.createOnly);
    TouchesNoUsers(T, r.realm);
    RootFacts(psi, s0, L2, D2, T, T, r.realm, r.groups);
    var chi := SimEnsureRoles(psi, s0, L2, D2, T, r.realm, "", r.roles, r.createOnly);
    ExtendsTransitive(phi, psi, chi);
    var L3, D3 := EnsureRoles(L2, r.realm, "", r.roles, r.createOnly).0,
        EnsureRoles(D2, r.realm, "", r.roles, r.createOnly).0;
    CorrespondsLater(psi, chi, s0, L2, D2, L3, D3, T, T, lw, dw);
    PreparedIs(s0, L, L3, r, lw, start);
    AccountsFacts(chi, s0, L3, D3, T, start, r, lw, dw);
    ClearIsFresh(T, L3.server, r.realm, lw);
    psi, U := SimGrantAccounts(chi, s0, L3, D3, T, r.realm, lw, dw);
    ExtendsTransitive(phi, chi, psi);
    var (L4, st) := GrantAccounts(L3, r.realm, lw);
    var D4 := GrantAccounts(D3, r.realm, dw).0;
    GrantAccountsLive(L3, r.realm, lw);
    SameAddsOwn(L.server, L3.server, L4.server, r.realm);
    RootFacts(psi, s0, L4, D4, T, U, r.realm, r.groups);
    UnderNothing(U, L4.server, r.realm, PathOf(L4.server, ""));
    OthersStayClear(T, U, U, L4.server, r.realm, PathOf(L4.server, ""));
    if st == Done {
      var omega, V := SimEnsureGroups(psi, s0, L4, D4, U, r.realm, "", r.groups, r.createOnly);
      var L5 := EnsureGroups(L4, r.realm, "", r.groups, r.createOnly).0;
      OthersStayClear(T, U, V, L5.server, r.realm, PathOf(L4.server, ""));
      GroupsAddNone(L4, r.realm, r.groups, r.createOnly);
      AddsOwnLater(L.server, L4.server, L5.server, r.realm);
      ExtendsTransitive(phi, psi, omega);
      psi, U := omega, V;
    }
  }

  lemma SimIsLive(phi: Phi, s0: Server, L: Api, D: Api, T: set<Mapping>)
    requires Sim(phi, s0, L, D, T)
    ensures IsLive(L) && WellFormed(s0) && Grows(s0, L.server) && D.overlay.Some? && D.server == s0
  {}

  lemma SameAddsOwn(s: Server, t: Server, u: Server, realm: string)
    requires AddsOwn(s, t, realm) && u == t.(mappings := u.mappings)
    ensures AddsOwn(s, u, realm) && u.realms == t.realms
  {}

  /** What is known of the accounts when their turn comes. */
  lemma AccountsFacts(phi: Phi, s0: Server, L: Api, D: Api, T: set<Mapping>, start: Server, r: RealmConfig,
      lw: seq<AccountWork>, dw: seq<AccountWork>)
    requires Sim(phi, s0, L, D, T) && JustBegun(s0, start, r.realm) && Grows(start, L.server) && RealmValid(r)
    requires AccountsAsLeft(start, L.server, r.realm, r.clients, r.createOnly)
    requires lw == WorkAll(L.server, r.realm, r.clients) && Corresponds(phi, s0, lw, dw)
    ensures DistinctWork(lw) && (RealmForeseen(s0, r) ==> AllFoundAlike(phi, s0, L.server, r.realm, dw))
    ensures AllFound(L.server, r.realm, lw) && AllForetold(s0, r.realm, dw) ==> RealmForeseen(s0, r)
  {
    hide Foreseen, Corresponds, AllFoundAlike, AllFound, AllForetold, DistinctWork, WorkAll, JustBegun, Grows,
        WellFormed, HasAccount, GetsAccount, TracesAgree, ObjectsAgree, MappingsAgree, UnseenOk, AccountsOk, CreatedOk,
        RealmsOk, PhiOk, ValidGroups;
    WorkIsDistinct(L.server, r.realm, r.clients);
    WorkFoundAlike(phi, s0, start, L.server, D.overlay.value, r.realm, r.clients, lw, dw, r.createOnly);
  }

  /** A realm with an account that is not foreseen: not both runs go through. */
  lemma UnforeseenStops(phi: Phi, s0: Server, L: Api, D: Api, T: set<Mapping>, r: RealmConfig)
    requires Sim(phi, s0, L, D, T) && RealmValid(r) && NothingDone(s0, L.server, r.realm)
    requires RealmClear(T, r.realm) && (r.realm in L.server.realms ==> r.realm in s0.realms)
    ensures ProvisionRealm(L, r).1 == Done && ProvisionRealm(D, r).1 == Done ==> RealmForeseen(s0, r)
  {
    hide *;
    ProvisionRealmStep(L, r);
    ProvisionRealmStep(D, r);
    SimIsLive(phi, s0, L, D, T);
    var start := PreparedLive(s0, L, r);
    SimEnsureRealm(phi, s0, L, D, T, r.realm, r.createOnly);
    var L1, D1 := EnsureRealm(L, r.realm, r.createOnly).0, EnsureRealm(D, r.realm, r.createOnly).0;
    var psi := SimEnsureClients(phi, s0, L1, D1, T, r.realm, r.clients, r.createOnly);
    var (L2, _, lw) := EnsureClients(L1, r.realm, r.clients, r.createOnly);
    var (D2, _, dw) := EnsureClients(D1, r.realm, r.clients, r.createOnly);
    TouchesNoUsers(T, r.realm);
    RootFacts(psi, s0, L2, D2, T, T, r.realm, r.groups);
    var chi := SimEnsureRoles(psi, s0, L2, D2, T, r.realm, "", r.roles, r.createOnly);
    var L3, D3 := EnsureRoles(L2, r.realm, "", r.roles, r.createOnly).0,
        EnsureRoles(D2, r.realm, "", r.roles, r.createOnly).0;
    CorrespondsLater(psi, chi, s0, L2, D2, L3, D3, T, T, lw, dw);
    PreparedIs(s0, L, L3, r, lw, start);
    AccountsFacts(chi, s0, L3, D3, T, start, r, lw, dw);
    SimIsLive(chi, s0, L3, D3, T);
    GrantAccountsLive(L3, r.realm, lw);
    GrantAccountsDry(D3, r.realm, dw);
  }

  // ---------- runs ----------

  /** What the config validators guarantee: no realm twice, and every realm's groups and clients valid. */
  predicate ValidRun(rs: seq<RealmConfig>) {
    && (forall i, j :: 0 <= i < j < |rs| ==> rs[i].realm != rs[j].realm)
    && forall i :: 0 <= i < |rs| ==> RealmValid(rs[i])
  }

  ghost predicate AllForeseen(s0: Server, rs: seq<RealmConfig>) {
    forall i :: 0 <= i < |rs| ==> RealmForeseen(s0, rs[i])
  }

  /** None of these realms has been touched yet. */
  ghost predicate Ahead(T: set<Mapping>, s0: Server, s: Server, rs: seq<RealmConfig>) {
    forall i :: 0 <= i < |rs| ==>
      && RealmClear(T, rs[i].realm) && (rs[i].realm in s.realms ==> rs[i].realm in s0.realms)
      && NothingDone(s0, s, rs[i].realm)
  }

  lemma AheadStep(T: set<Mapping>, U: set<Mapping>, s0: Server, s: Server, t: Server, rs: seq<RealmConfig>)
    requires rs != [] && ValidRun(rs) && Ahead(T, s0, s, rs) && t.realms == s.realms + {rs[0].realm}
    requires forall other :: other != rs[0].realm && RealmClear(T, other) ==> RealmClear(U, other)
    requires AddsOwn(s, t, rs[0].realm)
    ensures ValidRun(rs[1..]) && Ahead(U, s0, t, rs[1..])
  {
    hide RealmClear, RealmValid;
    assert forall i :: 0 <= i < |rs[1..]| ==> rs[1..][i] == rs[i + 1];
  }

  lemma RunStep(a: Api, rs: seq<RealmConfig>)
    ensures rs == [] ==> Run(a, rs) == (a, Done)
    ensures rs != [] ==>
      var b := ProvisionRealm(a, rs[0]);
      Run(a, rs) == if b.1 != Done then b else Run(b.0, rs[1..])
  {}

  lemma FirstAhead(T: set<Mapping>, s0: Server, s: Server, rs: seq<RealmConfig>)
    requires rs != [] && ValidRun(rs) && Ahead(T, s0, s, rs)
    ensures RealmValid(rs[0]) && RealmClear(T, rs[0].realm) && NothingDone(s0, s, rs[0].realm)
    ensures rs[0].realm in s.realms ==> rs[0].realm in s0.realms
  {}

  lemma ForeseenStep(s0: Server, rs: seq<RealmConfig>)
    ensures rs == [] ==> AllForeseen(s0, rs)
    ensures rs != [] ==> (AllForeseen(s0, rs) <==> RealmForeseen(s0, rs[0]) && AllForeseen(s0, rs[1..]))
  {
    hide RealmForeseen;
    if rs != [] {
      assert rs == [rs[0]] + rs[1..];
      assert forall i :: 0 <= i < |rs[1..]| ==> rs[1..][i] == rs[i + 1];
    }
  }

  lemma {:induction false} SimRun(phi: Phi, s0: Server, L: Api, D: Api, T: set<Mapping>, rs: seq<RealmConfig>)
    returns (psi: Phi, U: set<Mapping>)
    requires Sim(phi, s0, L, D, T) && ValidRun(rs) && Ahead(T, s0, L.server, rs)
    ensures AllForeseen(s0, rs) ==> Run(L, rs).1 == Run(D, rs).1 && Sim(psi, s0, Run(L, rs).0, Run(D, rs).0, U)
    ensures Run(L, rs).1 == Done && Run(D, rs).1 == Done ==> AllForeseen(s0, rs)
    decreases |rs|
  {
    hide *;
    RunStep(L, rs);
    RunStep(D, rs);
    ForeseenStep(s0, rs);
    psi, U := phi, T;
    if rs != [] {
      FirstAhead(T, s0, L.server, rs);
      UnforeseenStops(phi, s0, L, D, T, rs[0]);
      if RealmForeseen(s0, rs[0]) {
        psi, U := SimProvisionRealm(phi, s0, L, D, T, rs[0]);
        var L1, D1 := ProvisionRealm(L, rs[0]).0, ProvisionRealm(D, rs[0]).0;
        if ProvisionRealm(L, rs[0]).1 == Done {
          AheadStep(T, U, s0, L.server, L1.server, rs);
          psi, U := SimRun(psi, s0, L1, D1, U, rs[1..]);
        }
      }
    }
  }

  // ---------- the theorem ----------

  function Live(s: Server): Api {
    Api(s, None, [])
  }

  function DryRunOver(s: Server): Api {
    Api(s, Some(Overlay({}, map[], 0)), [])
  }

  /** What a dry run reports is what the run does: `phi` is one to one between the synthetic ids reported and ids that
      did not exist before the run. */
  ghost predicate Predicts(phi: Phi, s: Server, reported: Api, done: Api) {
    && (forall d :: d in phi ==> IsSyntheticID(d) && phi[d] in done.server.owner && phi[d] !in s.owner)
    && (forall d, e :: d in phi && e in phi && phi[d] == phi[e] ==> d == e)
    && (forall i :: 0 <= i < |reported.trace| ==> WriteIsOurs(phi, s, reported.trace[i]))
    && done.trace == RTrace(phi, reported.trace)
  }

  lemma StartInStep(s: Server)
    requires WellFormed(s)
    ensures Sim(map[], s, Live(s), DryRunOver(s), {})
  {
    var phi: Phi, L, D := map[], Live(s), DryRunOver(s);
    assert RTrace(phi, []) == [];
    forall k: Key ensures RKey(phi, k) == k {}
    forall m: Mapping | Ours(phi, s, m.holder) && Ours(phi, s, m.client)
      ensures MappedIn(D, m) == Mapped(s, RMapping(phi, m))
    {
      assert !IsSyntheticID("");
      assert RMapping(phi, m) == m;
    }
    forall k: Key | Ours(phi, s, Container(k)) ensures Peek(D, k) == Lookup(s, k) {
      assert !IsSyntheticID("");
    }
  }

  lemma NothingDoneYet(s: Server, rs: seq<RealmConfig>)
    ensures Ahead({}, s, s, rs)
  {}

  /** Over a server in any state, when every service account is foreseen, a dry run leaves the server alone, ends like
      the real run, and reports the very requests the real run issues, in order, up to the ids of what is created. */
  lemma DryRunPredictsRun(s: Server, rs: seq<RealmConfig>)
    requires WellFormed(s) && ValidRun(rs) && AllForeseen(s, rs)
    ensures
      var (done, st) := Run(Live(s), rs);
      var (reported, dt) := Run(DryRunOver(s), rs);
      st == dt && reported.server == s && exists phi: Phi :: Predicts(phi, s, reported, done)
  {
    hide *;
    StartInStep(s);
    NothingDoneYet(s, rs);
    LiveFacts(s);
    var phi, T := SimRun(map[], s, Live(s), DryRunOver(s), {}, rs);
    StepMeansPrediction(phi, s, Run(Live(s), rs).0, Run(DryRunOver(s), rs).0, T);
  }

  lemma LiveFacts(s: Server)
    ensures Live(s).server == s
  {}

  lemma StepMeansPrediction(phi: Phi, s: Server, L: Api, D: Api, T: set<Mapping>)
    requires Sim(phi, s, L, D, T)
    ensures Predicts(phi, s, D, L) && D.server == s
  {}

  /** When either run goes through, the other does exactly if every service account was foreseen. */
  lemma PredictionIsExact(s: Server, rs: seq<RealmConfig>)
    requires WellFormed(s) && ValidRun(rs)
    ensures
      var st, dt := Run(Live(s), rs).1, Run(DryRunOver(s), rs).1;
      st == Done || dt == Done ==> (st == dt <==> AllForeseen(s, rs))
  {
    hide *;
    StartInStep(s);
    NothingDoneYet(s, rs);
    LiveFacts(s);
    var phi, T := SimRun(map[], s, Live(s), DryRunOver(s), {}, rs);
  }

  /** Such an account: the client is there without one, and its config gives it one. The run goes through; the dry run,
      which skips the update that would bring the account about, does not find it. */
  lemma AccountToComeIsMissed(s: Server, realm: string, clientId: string)
    requires WellFormed(s) && Client(realm, clientId) in s.objects && !HasAccount(s, realm, clientId)
    ensures
      var c := AccountClient(ClientConfig(clientId, true, []), Some(Roles([], [])));
      var rs := [RealmConfig(realm, [c], [], [], false)];
      Run(Live(s), rs).1 == Done && Run(DryRunOver(s), rs).1 == NotFound
  {
    hide *;
    var c := AccountClient(ClientConfig(clientId, true, []), Some(Roles([], [])));
    OneAccount(Live(s), realm, c, s.objects[Client(realm, clientId)]) by {
      ClientIsFound(s, realm, clientId);
    }
    OneAccount(DryRunOver(s), realm, c, s.objects[Client(realm, clientId)]) by {
      ClientIsFound(s, realm, clientId);
    }
    AccountAfterUpdate(s, realm, clientId);
  }

  lemma ClientIsFound(s: Server, realm: string, clientId: string)
    requires WellFormed(s) && Client(realm, clientId) in s.objects
    ensures
      var id := s.objects[Client(realm, clientId)];
      && realm in s.realms && !IsSyntheticID(id)
      && FindClient(Live(s), realm, clientId) == (Live(s), Some(id)) && Live(s).server == s
      && FindClient(DryRunOver(s), realm, clientId) == (DryRunOver(s), Some(id)) && DryRunOver(s).server == s
      && forall w :: FindClient(Record(Live(s), w), realm, clientId) == (Record(Live(s), w), Some(id))
                     && FindClient(Record(DryRunOver(s), w), realm, clientId) == (Record(DryRunOver(s), w), Some(id))
  {
    assert !IsSyntheticID("");
  }

  /** A run over a realm that is there, with one client that is there. */
  lemma OneAccount(a: Api, realm: string, c: AccountClient, id: Id)
    requires c == AccountClient(ClientConfig(c.base.clientId, true, []), Some(Roles([], [])))
    requires realm in a.server.realms
    requires
      var b := Record(a, UpdatesRealm(realm));
      FindClient(b, realm, c.base.clientId) == (b, Some(id))
    ensures
      var b := Update(Record(a, UpdatesRealm(realm)), Client(realm, c.base.clientId), id, true);
      Run(a, [RealmConfig(realm, [c], [], [], false)]).1 ==
      if FindServiceAccount(b, realm, id).1.None? then NotFound else Done
  {
    var r := RealmConfig(realm, [c], [], [], false);
    assert [r][1..] == [] && [c][1..] == [];
    RunStep(a, [r]);
    RunStep(ProvisionRealm(a, r).0, []);
    var b := Record(a, UpdatesRealm(realm));
    var d := Update(b, Client(realm, c.base.clientId), id, true);
    assert EnsureRealm(a, realm, false) == (b, Done);
    assert EnsureClient(b, realm, c.base, false) == (d, Some(id));
    EnsureClientsStep(b, realm, [c], false);
    EnsureClientsStep(d, realm, [], false);
    var work := [AccountWork(id, Roles([], []))];
    assert WorkOf(c, id) + [] == work;
    GrantAccountsStep(d, realm, work);
    assert work[1..] == [];
    ProvisionRealmStep(a, r);
    var e := FindServiceAccount(d, realm, id).0;
    GrantAccountsStep(e, realm, []);
    EnsureGroupsStep(e, realm, "", [], false);
  }

  lemma AccountAfterUpdate(s: Server, realm: string, clientId: string)
    requires WellFormed(s) && Client(realm, clientId) in s.objects && !HasAccount(s, realm, clientId)
    ensures
      var k := Client(realm, clientId);
      var id, w := s.objects[k], UpdatesRealm(realm);
      && FindServiceAccount(Update(Record(Live(s), w), k, id, true), realm, id).1.Some?
      && FindServiceAccount(Update(Record(DryRunOver(s), w), k, id, true), realm, id).1.None?
  {}

  lemma GroupRun(a: Api, realm: string, g: GroupConfig, id: Id)
    requires Peek(a, GroupKey(realm, "", g.name)) == Some(id) && g.clientRoles == [] && g.subGroups == []
    ensures EnsureGroup(a, realm, "", g, true) == GrantRoles(a, Mapping(realm, Groups, id, ""), g.realmRoles)
  {}

  /** Siblings of one name, which no valid config has, are where prediction ends: the run grants the second entry's role
      no more than once, and the dry run, which remembers no grants, reports it twice. */
  lemma RepeatedGroupIsReportedTwice(s: Server, realm: string, group: string, role: string)
    requires WellFormed(s) && GroupKey(realm, "", group) in s.objects && RealmRole(realm, role) in s.objects
    requires role !in Mapped(s, Mapping(realm, Groups, s.objects[GroupKey(realm, "", group)], ""))
    ensures
      var g := GroupConfig(group, [], [role], [], []);
      var rs := [RealmConfig(realm, [], [], [g, g], true)];
      |Run(Live(s), rs).0.trace| == 1 && |Run(DryRunOver(s), rs).0.trace| == 2
  {
    hide *;
    var g, id := GroupConfig(group, [], [role], [], []), s.objects[GroupKey(realm, "", group)];
    var m, ref := Mapping(realm, Groups, id, ""), RoleRef(s.objects[RealmRole(realm, role)], role);
    var r := RealmConfig(realm, [], [], [g, g], true);
    var L, D := Live(s), DryRunOver(s);
    Starts(s, realm, group, role);
    OneGrant(L, m, ref);
    OneGrant(D, m, ref);
    var L1, D1 := Grant(L, m, [ref]).0, Grant(D, m, [ref]).0;
    AfterOneGrant(s, m, ref, GroupKey(realm, "", group));
    OneGrant(D1, m, ref);
    GroupRun(L, realm, g, id);
    GroupRun(L1, realm, g, id);
    GroupRun(D, realm, g, id);
    GroupRun(D1, realm, g, id);
    TwoGroups(L, r, g);
    TwoGroups(D, r, g);
  }

  lemma Starts(s: Server, realm: string, group: string, role: string)
    requires WellFormed(s) && GroupKey(realm, "", group) in s.objects && RealmRole(realm, role) in s.objects
    requires role !in Mapped(s, Mapping(realm, Groups, s.objects[GroupKey(realm, "", group)], ""))
    ensures
      var k, id := GroupKey(realm, "", group), s.objects[GroupKey(realm, "", group)];
      var m := Mapping(realm, Groups, id, "");
      && Live(s).overlay.None? && DryRunOver(s).overlay.Some? && Live(s).server == s && DryRunOver(s).server == s
      && Live(s).trace == [] && DryRunOver(s).trace == []
      && Peek(Live(s), k) == Some(id) && Peek(DryRunOver(s), k) == Some(id)
      && RoleKey(realm, "", role) == RealmRole(realm, role) && realm in s.realms && HolderKnown(s, m)
      && Peek(Live(s), RealmRole(realm, role)) == Some(s.objects[RealmRole(realm, role)]) ==
        Peek(DryRunOver(s), RealmRole(realm, role))
      && role !in MappedIn(Live(s), m) && role !in MappedIn(DryRunOver(s), m)
  {
    assert !IsSyntheticID("");
    assert !IsSyntheticID(s.objects[GroupKey(realm, "", group)]);
  }

  /** The server has the role now; the dry run is where it was. */
  lemma AfterOneGrant(s: Server, m: Mapping, ref: RoleRef, k: Key)
    requires Grant(Live(s), m, [ref]).1 == Done
    ensures
      var L1, D1 := Grant(Live(s), m, [ref]).0, Grant(DryRunOver(s), m, [ref]).0;
      && Peek(L1, k) == Peek(Live(s), k) && Peek(D1, k) == Peek(DryRunOver(s), k)
      && Peek(D1, RoleKey(m.realm, m.client, ref.name)) == Peek(DryRunOver(s), RoleKey(m.realm, m.client, ref.name))
      && D1.overlay.Some? && D1.server == s && MappedIn(D1, m) == MappedIn(DryRunOver(s), m)
      && GrantRoles(L1, m, [ref.name]) == (L1, Done)
  {
    var L1 := Grant(Live(s), m, [ref]).0;
    assert Mapped(L1.server, m) == Mapped(s, m) + Names([ref]) && [ref][0] == ref;
    assert ref.name in Names([ref]);
    var wanted := [ref.name];
    assert wanted[0] in MappedIn(L1, m) && wanted[1..] == [];
    assert Missing(L1, m, wanted) == Missing(L1, m, []);
  }

  lemma OneGrant(a: Api, m: Mapping, ref: RoleRef)
    requires Peek(a, RoleKey(m.realm, m.client, ref.name)) == Some(ref.id) && ref.name !in MappedIn(a, m)
    requires a.overlay.None? ==> m.realm in a.server.realms && HolderKnown(a.server, m)
    ensures GrantRoles(a, m, [ref.name]) == Grant(a, m, [ref])
    ensures Grant(a, m, [ref]).1 == Done && |Grant(a, m, [ref]).0.trace| == |a.trace| + 1
  {
    assert [ref.name][1..] == [];
    assert Missing(a, m, [ref.name]) == Some([ref] + []);
    assert [ref] + [] == [ref];
  }

  /** A run over a realm that exists, whose config is one group twice. */
  lemma TwoGroups(a: Api, r: RealmConfig, g: GroupConfig)
    requires r == RealmConfig(r.realm, [], [], [g, g], true) && r.realm in a.server.realms
    ensures
      var b := EnsureGroup(a, r.realm, "", g, true);
      b.1 == Done ==> Run(a, [r]).0 == EnsureGroup(b.0, r.realm, "", g, true).0
  {
    assert [r][1..] == [] && [g, g][1..] == [g] && [g][1..] == [];
    EnsureGroupsStep(a, r.realm, "", [g, g], true);
    var b := EnsureGroup(a, r.realm, "", g, true).0;
    EnsureGroupsStep(b, r.realm, "", [g], true);
    EnsureGroupsStep(EnsureGroup(b, r.realm, "", g, true).0, r.realm, "", [], true);
    GrantAccountsStep(a, r.realm, []);
    assert ProvisionRealm(a, r) == EnsureGroups(a, r.realm, "", r.groups, true);
    RunStep(a, [r]);
    RunStep(ProvisionRealm(a, r).0, []);
  }
}
