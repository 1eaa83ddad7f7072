/** What the reconcilers of roles and groups do to the server itself: exact final states, and when they succeed. */
module LiveRuns {
  import opened Lists
  import opened Text
  import opened Ids
  import opened Directory
  import opened Reconcile

  ghost predicate IsLive(a: Api) {
    a.overlay.None? && WellFormed(a.server)
  }

  // ---------- granting roles ----------

  predicate RolesExist(s: Server, realm: string, client: Id, wanted: seq<string>) {
    forall r :: r in wanted ==> RoleKey(realm, client, r) in s.objects
  }

  /** `t` is `s` with more roles in its mapping lists: exactly those `extra` says. */
  ghost predicate Granted(s: Server, t: Server, extra: Mapping -> set<string>) {
    && t == s.(mappings := t.mappings)
    && forall m :: Mapped(t, m) == Mapped(s, m) + extra(m)
  }

  lemma {:induction false} MissingIsWhatIsNotMapped(a: Api, m: Mapping, wanted: seq<string>)
    requires a.overlay.None?
    ensures
      var r := Missing(a, m, wanted);
      && (r.Some? <==> forall n :: n in wanted ==>
        n in Mapped(a.server, m) || RoleKey(m.realm, m.client, n) in a.server.objects)
      && (r.Some? ==> Names(r.value) == Elements(wanted) - Mapped(a.server, m))
      && (r.Some? ==> forall i :: 0 <= i < |r.value| ==>
            Lookup(a.server, RoleKey(m.realm, m.client, r.value[i].name)) == Some(r.value[i].id))
  {
    if wanted != [] {
      MissingIsWhatIsNotMapped(a, m, wanted[1..]);
      assert wanted == [wanted[0]] + wanted[1..];
      var rest := Missing(a, m, wanted[1..]);
      var key := RoleKey(m.realm, m.client, wanted[0]);
      if wanted[0] !in Mapped(a.server, m) && key in a.server.objects && rest.Some? {
        NamesPlusOne(RoleRef(a.server.objects[key], wanted[0]), rest.value);
      }
    }
  }

  lemma NamesPlusOne(r: RoleRef, refs: seq<RoleRef>)
    ensures Names([r] + refs) == {r.name} + Names(refs)
  {
    var all := [r] + refs;
    forall n ensures n in Names(all) <==> n in {r.name} + Names(refs) {
      if n in Names(refs) {
        var i :| 0 <= i < |refs| && refs[i].name == n;
        assert all[i + 1].name == n;
      }
      assert all[0] == r;
    }
  }

  /** Granting adds exactly the wanted roles to one list, and fails exactly when a role is not there. */
  lemma GrantRolesLive(a: Api, m: Mapping, wanted: seq<string>)
    requires IsLive(a) && m.realm in a.server.realms && HolderKnown(a.server, m)
    requires !Unborn(a.server, m.holder) && !Unborn(a.server, m.client)
    ensures
      var (b, status) := GrantRoles(a, m, wanted);
      && IsLive(b) && Grows(a.server, b.server)
      && (status == Done <==> RolesExist(a.server, m.realm, m.client, wanted))
      && (status == Done ==> Granted(a.server, b.server, x => if x == m then Elements(wanted) else {}))
      && (status != Done ==> status == NotFound && b == a)
  {
    hide *;
    LiveIs(a);
    MissingIsWhatIsNotThere(a, m, wanted);
    GrantRolesDo(a, m, wanted);
    LiveIs(GrantRoles(a, m, wanted).0);
    if wanted != [] && Missing(a, m, wanted).Some? && Missing(a, m, wanted).value != [] {
      AddMappingKeeps(a.server, m, Missing(a, m, wanted).value);
    }
    GrowsItself(a.server);
    NothingGranted(a.server, m, wanted);
  }

  /** Lists hold existing roles only, so what is mapped is there as well. */
  lemma MissingIsWhatIsNotThere(a: Api, m: Mapping, wanted: seq<string>)
    requires IsLive(a)
    ensures
      var r := Missing(a, m, wanted);
      && (r.Some? <==> RolesExist(a.server, m.realm, m.client, wanted))
      && (wanted == [] ==> RolesExist(a.server, m.realm, m.client, wanted))
      && (r.Some? ==>
            forall i :: 0 <= i < |r.value| ==> RoleKey(m.realm, m.client, r.value[i].name) in a.server.objects)
  {
    MissingIsWhatIsNotMapped(a, m, wanted);
    hide ObjectsOk, OwnersOk, PathsOk, MembershipsOk;
    assert forall n :: n in Mapped(a.server, m) ==> RoleKey(m.realm, m.client, n) in a.server.objects;
  }

  /** Nothing to grant: everything wanted was there. */
  lemma NothingGranted(s: Server, m: Mapping, wanted: seq<string>)
    ensures Elements(wanted) <= Mapped(s, m) ==> Granted(s, s, x => if x == m then Elements(wanted) else {})
    ensures wanted == [] ==> Elements(wanted) == {}
  {}

  lemma GrowsItself(s: Server)
    ensures Grows(s, s)
  {}

  lemma LiveIs(a: Api)
    ensures IsLive(a) <==> a.overlay.None? && WellFormed(a.server)
  {}

  /** What the request for the missing roles does. */
  lemma GrantRolesDo(a: Api, m: Mapping, wanted: seq<string>)
    requires a.overlay.None? && m.realm in a.server.realms && HolderKnown(a.server, m)
    ensures
      var refs := Missing(a, m, wanted);
      var (b, status) := GrantRoles(a, m, wanted);
      && (wanted == [] || (refs.Some? && refs.value == []) ==> b == a && status == Done)
      && (wanted != [] && refs.None? ==> b == a && status == NotFound)
      && (refs.Some? && refs.value == [] ==> Elements(wanted) <= Mapped(a.server, m))
      && (wanted != [] && refs.Some? && refs.value != [] ==>
            && status == Done && b.overlay.None? && b.server == AddMapping(a.server, m, refs.value)
            && Granted(a.server, b.server, x => if x == m then Elements(wanted) else {}))
  {
    MissingIsWhatIsNotMapped(a, m, wanted);
    var refs := Missing(a, m, wanted);
    if refs.Some? {
      if refs.value == [] {
        assert Names(refs.value) == {};
      }
      assert forall x ::
          Mapped(AddMapping(a.server, m, refs.value), x) ==
          Mapped(a.server, x) + if x == m then Elements(wanted) else {};
    }
  }

  /** The roles a list of client-role entries declares for one client. */
  function EntriesFor(s: Server, realm: string, client: Id, entries: ClientRoles): set<string>
    decreases |entries|
  {
    if entries == [] then {}
    else
      (if Lookup(s, Client(realm, entries[0].0)) == Some(client) then Elements(entries[0].1) else {})
      + EntriesFor(s, realm, client, entries[1..])
  }

  predicate EntryExists(s: Server, realm: string, e: (string, seq<string>)) {
    e.1 == [] || (Client(realm, e.0) in s.objects && RolesExist(s, realm, s.objects[Client(realm, e.0)], e.1))
  }

  predicate EntriesExist(s: Server, realm: string, entries: ClientRoles) {
    forall e :: e in entries ==> EntryExists(s, realm, e)
  }

  /** How many entries come before the first that names a client or a role that is not there. */
  function Leading(s: Server, realm: string, entries: ClientRoles): (n: nat)
    ensures n <= |entries|
    decreases |entries|
  {
    if entries == [] || !EntryExists(s, realm, entries[0]) then 0 else 1 + Leading(s, realm, entries[1..])
  }

  lemma {:induction false} LeadingAll(s: Server, realm: string, entries: ClientRoles)
    ensures Leading(s, realm, entries) == |entries| <==> EntriesExist(s, realm, entries)
    decreases |entries|
  {
    if entries != [] {
      assert entries == [entries[0]] + entries[1..] && entries[0] in entries;
      LeadingAll(s, realm, entries[1..]);
    }
  }

  lemma {:induction false} LeadingAlike(s: Server, t: Server, realm: string, entries: ClientRoles)
    requires t.objects == s.objects
    ensures Leading(s, realm, entries) == Leading(t, realm, entries)
    decreases |entries|
  {
    if entries != [] {
      LeadingAlike(s, t, realm, entries[1..]);
      assert EntryExists(s, realm, entries[0]) <==> EntryExists(t, realm, entries[0]);
    }
  }

  /** What one holder's declaration puts in the list `m`. */
  function Declares(s: Server, realm: string, kind: HolderKind, holder: Id, realmRoles: seq<string>,
      entries: ClientRoles, m: Mapping)
    : set<string>
  {
    if m.realm != realm || m.kind != kind || m.holder != holder then {}
    else (if m.client == "" then Elements(realmRoles) else {}) + EntriesFor(s, realm, m.client, entries)
  }

  lemma GrantedTwice(s: Server, t: Server, u: Server,
      f: Mapping -> set<string>, g: Mapping -> set<string>, h: Mapping -> set<string>)
    requires Granted(s, t, f) && Granted(t, u, g) && forall m :: h(m) == f(m) + g(m)
    ensures Granted(s, u, h)
  {
    forall m ensures Mapped(u, m) == Mapped(s, m) + h(m) {
      assert Mapped(u, m) == Mapped(t, m) + g(m) && Mapped(t, m) == Mapped(s, m) + f(m);
    }
  }

  /** What the entries of a client-role map do: those before the first that names something missing are granted, and
      nothing else happens. */
  ghost predicate EntriesGranted(a: Api, b: Api, status: Status, realm: string, kind: HolderKind, holder: Id,
      entries: ClientRoles) {
    var n := Leading(a.server, realm, entries);
    && IsLive(b) && Grows(a.server, b.server) && b.server == a.server.(mappings := b.server.mappings)
    && status == (if n == |entries| then Done else NotFound)
    && Granted(a.server, b.server, x => Declares(a.server, realm, kind, holder, [], entries[..n], x))
  }

  /** What a list declares is what its first entry declares and what the rest does. */
  lemma DeclaresStep(s: Server, t: Server, realm: string, kind: HolderKind, holder: Id, entries: ClientRoles,
      client: Id, x: Mapping)
    requires entries != [] && Lookup(s, Client(realm, entries[0].0)) == Some(client)
    requires forall k: Key :: k.Client? ==> Lookup(s, k) == Lookup(t, k)
    ensures Declares(s, realm, kind, holder, [], entries, x) ==
            (if x == Mapping(realm, kind, holder, client) then Elements(entries[0].1) else {})
            + Declares(t, realm, kind, holder, [], entries[1..], x)
  {
    SameObjects(s, t, realm, entries[1..]);
  }

  /** An entry for an existing client and existing roles, then the rest. */
  lemma EntryThenRest(a: Api, c: Api, d: Api, status: Status, realm: string, kind: HolderKind, holder: Id,
      entries: ClientRoles, client: Id)
    requires entries != [] && IsLive(a) && Lookup(a.server, Client(realm, entries[0].0)) == Some(client)
    requires EntryExists(a.server, realm, entries[0]) && Grows(a.server, c.server)
    requires Granted(a.server, c.server,
               x => if x == Mapping(realm, kind, holder, client) then Elements(entries[0].1) else {})
    requires EntriesGranted(c, d, status, realm, kind, holder, entries[1..])
    ensures EntriesGranted(a, d, status, realm, kind, holder, entries)
  {
    hide Directory.WellFormed, Declares, EntriesFor, Grows, EntryExists;
    var s, rest := a.server, entries[1..];
    GrowsTransitive(s, c.server, d.server);
    LeadingAlike(s, c.server, realm, rest);
    var n := Leading(c.server, realm, rest);
    assert entries[..n + 1][1..] == rest[..n] && entries[..n + 1][0] == entries[0];
    var f := (x: Mapping) => if x == Mapping(realm, kind, holder, client) then Elements(entries[0].1) else {};
    var g := (x: Mapping) => Declares(c.server, realm, kind, holder, [], rest[..n], x);
    var h := (x: Mapping) => Declares(s, realm, kind, holder, [], entries[..n + 1], x);
    forall x ensures h(x) == f(x) + g(x) {
      DeclaresStep(s, c.server, realm, kind, holder, entries[..n + 1], client, x);
    }
    GrantedTwice(s, c.server, d.server, f, g, h);
  }

  lemma SkippedEntry(a: Api, b: Api, status: Status, realm: string, kind: HolderKind, holder: Id, entries: ClientRoles)
    requires entries != [] && entries[0].1 == []
    requires EntriesGranted(a, b, status, realm, kind, holder, entries[1..])
    ensures EntriesGranted(a, b, status, realm, kind, holder, entries)
  {
    var n := Leading(a.server, realm, entries[1..]);
    assert entries[..n + 1][1..] == entries[1..][..n] && Elements(entries[0].1) == {};
    GrantedTwice(a.server, b.server, b.server,
                 x => Declares(a.server, realm, kind, holder, [], entries[1..][..n], x),
                 x => {},
                 x => Declares(a.server, realm, kind, holder, [], entries[..n + 1], x));
  }

  lemma StopsHere(a: Api, realm: string, kind: HolderKind, holder: Id, entries: ClientRoles)
    requires IsLive(a) && (entries == [] || !EntryExists(a.server, realm, entries[0]))
    ensures EntriesGranted(a, a, if entries == [] then Done else NotFound, realm, kind, holder, entries)
  {
    GrowsItself(a.server);
  }

  /** Client roles, entry by entry, up to the first entry that names something missing. */
  lemma {:induction false} GrantClientRolesLive(a: Api, realm: string, kind: HolderKind, holder: Id,
      entries: ClientRoles)
    requires IsLive(a) && realm in a.server.realms && HolderKnown(a.server, Mapping(realm, kind, holder, ""))
    requires !Unborn(a.server, holder)
    ensures
      var (b, status) := GrantClientRoles(a, realm, kind, holder, entries);
      EntriesGranted(a, b, status, realm, kind, holder, entries)
    decreases |entries|
  {
    var s := a.server;
    hide EntriesGranted, Leading, Declares, Granted;
    if entries == [] {
      StopsHere(a, realm, kind, holder, entries);
    } else if entries[0].1 == [] {
      GrantClientRolesLive(a, realm, kind, holder, entries[1..]);
      var (b, status) := GrantClientRoles(a, realm, kind, holder, entries[1..]);
      SkippedEntry(a, b, status, realm, kind, holder, entries);
    } else if Client(realm, entries[0].0) in s.objects {
      var client := s.objects[Client(realm, entries[0].0)];
      assert client in s.owner && client != "";
      var m := Mapping(realm, kind, holder, client);
      GrantRolesLive(a, m, entries[0].1);
      var (c, status) := GrantRoles(a, m, entries[0].1);
      if status == Done {
        SameHolder(s, c.server, realm, kind, holder);
        GrantClientRolesLive(c, realm, kind, holder, entries[1..]);
        var (d, st) := GrantClientRoles(c, realm, kind, holder, entries[1..]);
        EntryThenRest(a, c, d, st, realm, kind, holder, entries, client);
      } else {
        StopsHere(a, realm, kind, holder, entries);
      }
    } else {
      StopsHere(a, realm, kind, holder, entries);
    }
  }

  lemma SameHolder(s: Server, t: Server, realm: string, kind: HolderKind, holder: Id)
    requires Grows(s, t) && HolderKnown(s, Mapping(realm, kind, holder, "")) && !Unborn(s, holder)
    ensures HolderKnown(t, Mapping(realm, kind, holder, "")) && !Unborn(t, holder) && s.realms <= t.realms
  {
    UnbornLater(s, t, holder);
  }

  lemma {:induction false} SameObjects(s: Server, t: Server, realm: string, entries: ClientRoles)
    requires forall k: Key :: k.Client? ==> Lookup(s, k) == Lookup(t, k)
    ensures forall c :: EntriesFor(s, realm, c, entries) == EntriesFor(t, realm, c, entries)
    decreases |entries|
  {
    if entries != [] {
      SameObjects(s, t, realm, entries[1..]);
    }
  }

  /** Realm roles, then the entries of the client-role map. */
  lemma RealmThenEntries(a: Api, b: Api, c: Api, status: Status, realm: string, kind: HolderKind, holder: Id,
      realmRoles: seq<string>, entries: ClientRoles)
    requires EntriesFor(a.server, realm, "", entries) == {} && b.server == a.server.(mappings := b.server.mappings)
    requires Granted(a.server, b.server,
               x => if x == Mapping(realm, kind, holder, "") then Elements(realmRoles) else {})
    requires EntriesGranted(b, c, status, realm, kind, holder, entries)
    ensures EntriesExist(a.server, realm, entries) <==> status == Done
    ensures status == Done ==>
              Granted(a.server, c.server, x => Declares(a.server, realm, kind, holder, realmRoles, entries, x))
  {
    var s := a.server;
    SameObjects(s, b.server, realm, entries);
    LeadingAll(s, realm, entries);
    LeadingAlike(s, b.server, realm, entries);
    if status == Done {
      assert entries[..|entries|] == entries;
      GrantedTwice(s, b.server, c.server,
                   x => if x == Mapping(realm, kind, holder, "") then Elements(realmRoles) else {},
                   x => Declares(b.server, realm, kind, holder, [], entries, x),
                   x => Declares(s, realm, kind, holder, realmRoles, entries, x));
    }
  }

  /** A holder's lists end as what they were plus what its declaration names; nobody else's change. It goes through
      exactly when all the roles named are there. */
  lemma EnsureRoleMappingsLive(a: Api, realm: string, kind: HolderKind, holder: Id, realmRoles: seq<string>,
      entries: ClientRoles)
    requires IsLive(a) && realm in a.server.realms && HolderKnown(a.server, Mapping(realm, kind, holder, ""))
    requires !Unborn(a.server, holder)
    ensures
      var (b, status) := EnsureRoleMappings(a, realm, kind, holder, realmRoles, entries);
      && IsLive(b) && Grows(a.server, b.server) && status != Refused
      && b.server == a.server.(mappings := b.server.mappings)
      && (RolesExist(a.server, realm, "", realmRoles) && EntriesExist(a.server, realm, entries) <==> status == Done)
      && (status == Done ==>
            Granted(a.server, b.server, x => Declares(a.server, realm, kind, holder, realmRoles, entries, x)))
  {
    var m, s := Mapping(realm, kind, holder, ""), a.server;
    EmptyIdIsBorn(s);
    NoClientIsEmpty(s, realm, entries);
    hide Directory.WellFormed, GrantRoles, GrantClientRoles, Grows, Unborn, EntriesFor, Declares, EntriesExist, Leading,
        RolesExist, HolderKnown;
    GrantRolesLive(a, m, realmRoles);
    var (b, status) := GrantRoles(a, m, realmRoles);
    if status == Done {
      SameHolder(s, b.server, realm, kind, holder);
      GrantClientRolesLive(b, realm, kind, holder, entries);
      var (c, st) := GrantClientRoles(b, realm, kind, holder, entries);
      GrowsTransitive(s, b.server, c.server);
      RealmThenEntries(a, b, c, st, realm, kind, holder, realmRoles, entries);
    }
  }

  lemma EmptyIdIsBorn(s: Server)
    ensures !Unborn(s, "")
  {
    forall n: nat ensures ServerId(n) != "" {
      ServerIdInjective(n, n);
    }
  }

  lemma {:induction false} NoClientIsEmpty(s: Server, realm: string, entries: ClientRoles)
    requires ObjectsOk(s) && OwnersOk(s)
    ensures EntriesFor(s, realm, "", entries) == {}
    decreases |entries|
  {
    if entries != [] {
      NoClientIsEmpty(s, realm, entries[1..]);
    }
  }

  // ---------- clients and roles ----------

  /** Where a role may live: in the realm itself, or in one of its clients. */
  ghost predicate RoleHome(s: Server, realm: string, client: Id) {
    client == "" || (client in s.owner && s.owner[client].Client? && s.owner[client].realm == realm)
  }

  lemma RoleHomeStays(s: Server, t: Server, realm: string, client: Id)
    requires Grows(s, t) && RoleHome(s, realm, client)
    ensures RoleHome(t, realm, client)
  {}

  /** The service account a client comes with: when it is created with one, or updated to have one. */
  function AccountKeys(s: Server, k: Key, id: Id, serviceAccount: bool, createOnly: bool): set<Key>
    requires k.Client?
  {
    if serviceAccount && (k !in s.objects || !createOnly) then {ServiceAccount(k.realm, id)} else {}
  }

  /** A client ends up there, with a service account if it is to have one and was not merely found; nothing else is
      added. */
  lemma EnsureClientLive(a: Api, realm: string, c: ClientConfig, createOnly: bool)
    requires IsLive(a) && realm in a.server.realms
    ensures
      var (b, id) := EnsureClient(a, realm, c, createOnly);
      var k := Client(realm, c.clientId);
      && id.Some? && IsLive(b) && Grows(a.server, b.server) && b.server.realms == a.server.realms
      && Lookup(b.server, k) == id && RoleHome(b.server, realm, id.value)
      && b.server.objects.Keys ==
         a.server.objects.Keys + {k} + AccountKeys(a.server, k, id.value, c.serviceAccount, createOnly)
  {
    hide *;
    var k, s := Client(realm, c.clientId), a.server;
    EnsureClientIs(a, realm, c, createOnly);
    AccountKeysAre(s, k, EnsureClient(a, realm, c, createOnly).1.value, c.serviceAccount, createOnly);
    if k !in s.objects {
      AddKeeps(s, k);
      AddedClient(s, k);
      AccountKeeps(Add(s, k), k, c.serviceAccount);
      GrowsTransitive(s, Add(s, k), WithServiceAccount(Add(s, k), k, c.serviceAccount));
    } else {
      AccountKeeps(s, k, c.serviceAccount);
      AccountKeeps(s, k, false);
    }
  }

  lemma AddedClient(s: Server, k: Key)
    ensures k in Add(s, k).objects && Add(s, k).objects[k] == ServerId(s.next) && Add(s, k).realms == s.realms
    ensures Add(s, k).objects.Keys == s.objects.Keys + {k}
  {}

  lemma AccountKeysAre(s: Server, k: Key, id: Id, serviceAccount: bool, createOnly: bool)
    requires k.Client?
    ensures AccountKeys(s, k, id, serviceAccount, createOnly) ==
            if serviceAccount && (k !in s.objects || !createOnly) then {ServiceAccount(k.realm, id)} else {}
  {}

  /** What the request does to the server, and the id that comes back. */
  lemma EnsureClientIs(a: Api, realm: string, c: ClientConfig, createOnly: bool)
    requires IsLive(a) && realm in a.server.realms
    ensures
      var k, s := Client(realm, c.clientId), a.server;
      var (b, id) := EnsureClient(a, realm, c, createOnly);
      && id.Some? && WellFormed(s) && (IsLive(b) <==> WellFormed(b.server)) &&
        Lookup(b.server, k) == (if k in b.server.objects then Some(b.server.objects[k]) else None)
      && (k !in s.objects ==>
            && Accepts(s, k) && k in Add(s, k).objects && id.value == ServerId(s.next)
            && b.server == WithServiceAccount(Add(s, k), k, c.serviceAccount))
      && (k in s.objects ==>
            && id.value == s.objects[k] && WithServiceAccount(s, k, false) == s
            && b.server == if createOnly then s else WithServiceAccount(s, k, c.serviceAccount))
  {}

  lemma AccountKeeps(s: Server, k: Key, enabled: bool)
    requires WellFormed(s) && k.Client? && k in s.objects
    ensures
      var t := WithServiceAccount(s, k, enabled);
      && WellFormed(t) && Grows(s, t) && t.realms == s.realms && k in t.objects && t.objects[k] == s.objects[k]
      && RoleHome(t, k.realm, t.objects[k])
      && t.objects.Keys == s.objects.Keys + if enabled then {ServiceAccount(k.realm, s.objects[k])} else {}
  {
    hide PathsOk, PathOf, MappingsOk, MembershipsOk;
    var sa := ServiceAccount(k.realm, s.objects[k]);
    if enabled && sa !in s.objects {
      AddKeeps(s, sa);
    }
  }

  function RoleKeys(realm: string, client: Id, names: seq<string>): set<Key> {
    set n | n in names :: RoleKey(realm, client, n)
  }

  /** Exactly the roles are added. */
  lemma {:induction false} EnsureRolesLive(a: Api, realm: string, client: Id, names: seq<string>, createOnly: bool)
    requires IsLive(a) && realm in a.server.realms && RoleHome(a.server, realm, client)
    ensures
      var (b, status) := EnsureRoles(a, realm, client, names, createOnly);
      && status == Done && IsLive(b) && Grows(a.server, b.server) && b.server.realms == a.server.realms
      && RolesExist(b.server, realm, client, names)
      && b.server.objects.Keys == a.server.objects.Keys + RoleKeys(realm, client, names)
    decreases |names|
  {
    hide *;
    EnsureRolesStep(a, realm, client, names, createOnly);
    GrowsItself(a.server);
    RolesOneMore(a.server, realm, client, names);
    if names != [] {
      EnsureRoleLive(a, realm, client, names[0], createOnly);
      var b := EnsureRole(a, RoleKey(realm, client, names[0]), createOnly).0;
      RoleHomeStays(a.server, b.server, realm, client);
      EnsureRolesLive(b, realm, client, names[1..], createOnly);
      var c := EnsureRoles(b, realm, client, names[1..], createOnly).0;
      GrowsTransitive(a.server, b.server, c.server);
      KeyStays(b.server, c.server, RoleKey(realm, client, names[0]));
      RolesOneMore(c.server, realm, client, names);
    }
  }

  lemma RolesOneMore(s: Server, realm: string, client: Id, names: seq<string>)
    ensures names == [] ==> RolesExist(s, realm, client, names)
    ensures names != [] && RoleKey(realm, client, names[0]) in s.objects && RolesExist(s, realm, client, names[1..]) ==>
              RolesExist(s, realm, client, names)
    ensures RoleKeys(realm, client, names) ==
            if names == [] then {} else {RoleKey(realm, client, names[0])} + RoleKeys(realm, client, names[1..])
  {
    if names != [] {
      assert names == [names[0]] + names[1..];
    }
  }

  lemma KeyStays(s: Server, t: Server, k: Key)
    requires Grows(s, t) && k in s.objects
    ensures k in t.objects
  {}

  lemma EnsureRoleLive(a: Api, realm: string, client: Id, name: string, createOnly: bool)
    requires IsLive(a) && realm in a.server.realms && RoleHome(a.server, realm, client)
    ensures
      var k := RoleKey(realm, client, name);
      var (b, status) := EnsureRole(a, k, createOnly);
      && status == Done && IsLive(b) && Grows(a.server, b.server) && b.server.realms == a.server.realms
      && k in b.server.objects && b.server.objects.Keys == a.server.objects.Keys + {k}
  {
    hide PathsOk, PathOf, MappingsOk, MembershipsOk;
    var k := RoleKey(realm, client, name);
    if k !in a.server.objects {
      AddKeeps(a.server, k);
    }
  }
}
