/** The requests of each step of a live run: those that what the config declares calls for, and no others. */
module LiveRequests {
  import opened Lists
  import opened Text
  import opened Ids
  import opened Directory
  import opened Reconcile
  import opened LiveRuns
  import opened GroupTrees
  import opened Requests
  import opened Users
  import C = ClientScopes
  import ConfigMaps

  // ---------- role mappings ----------

  function ListAsked(m: Mapping, names: seq<string>): set<(Mapping, string)> {
    set n | n in names :: (m, n)
  }

  /** The client roles declared for a holder, by the lists they are to be on. */
  function EntriesAsked(s: Server, realm: string, kind: HolderKind, holder: Id, entries: ClientRoles)
    : set<(Mapping, string)>
  {
    set e, n | e in entries && n in e.1 && Client(realm, e.0) in s.objects ::
      (Mapping(realm, kind, holder, s.objects[Client(realm, e.0)]), n)
  }

  function RolesAsked(s: Server, realm: string, kind: HolderKind, holder: Id, roles: seq<string>, entries: ClientRoles)
    : Asked
  {
    Asked(multiset{}, ListAsked(Mapping(realm, kind, holder, ""), roles)
                      + EntriesAsked(s, realm, kind, holder, entries), {})
  }

  lemma GrantRolesFollows(a: Api, m: Mapping, wanted: seq<string>, createOnly: bool) returns (asked: Asked)
    requires IsLive(a) && m.realm in a.server.realms && HolderKnown(a.server, m)
    requires !Unborn(a.server, m.holder) && !Unborn(a.server, m.client)
    ensures
      var (b, status) := GrantRoles(a, m, wanted);
      && Follows(a, b, asked, createOnly) && asked.joins == {}
      && (status == Done ==> asked == Asked(multiset{}, ListAsked(m, wanted), {}))
  {
    hide *;
    NoJoins();
    LiveIs(a);
    GrantRolesLive(a, m, wanted);
    GrantRolesTrace(a, m, wanted);
    var (b, status) := GrantRoles(a, m, wanted);
    var refs := Missing(a, m, wanted);
    if status != Done {
      NothingAsked(a, createOnly);
      asked := NOTHING;
    } else if wanted == [] || refs.value == [] {
      HeldFollows(a, m, Elements(wanted), createOnly);
      asked := Asked(multiset{}, set n | n in Elements(wanted) :: (m, n), {});
      SameList(m, wanted, Elements(wanted), {});
      BothWithNothing(asked);
    } else {
      GrantedFollows(a, m, refs.value, createOnly);
      LiveIs(b);
      HeldFollows(b, m, Elements(wanted) - Names(refs.value), createOnly);
      var x := AskedOf(m, refs.value);
      AskedOfIs(m, refs.value);
      var y := Asked(multiset{}, set n | n in Elements(wanted) - Names(refs.value) :: (m, n), {});
      FollowsBoth(a, b, b, x, y, createOnly);
      asked := Both(x, y);
      SameList(m, wanted, Names(refs.value), Elements(wanted) - Names(refs.value));
      BothAre(x, y);
    }
  }

  lemma NoJoins()
    ensures NOTHING.joins == {} && forall k :: KeyAsked(k).joins == {}
    ensures forall x: Asked, y: Asked :: x.joins == y.joins == {} ==> Both(x, y).joins == {}
  {}

  lemma BothAre(x: Asked, y: Asked)
    ensures Both(x, y) == Asked(x.keys + y.keys, x.roles + y.roles, x.joins + y.joins)
  {}

  lemma AskedOfIs(m: Mapping, refs: seq<RoleRef>)
    ensures AskedOf(m, refs) == Asked(multiset{}, set n | n in Names(refs) :: (m, n), {})
  {}

  lemma SameList(m: Mapping, wanted: seq<string>, xs: set<string>, ys: set<string>)
    requires xs + ys == Elements(wanted)
    ensures (set n | n in xs :: (m, n)) + (set n | n in ys :: (m, n)) == ListAsked(m, wanted)
  {
    assert forall n :: n in wanted <==> n in Elements(wanted);
  }

  /** What the request for the missing roles is. */
  lemma GrantRolesTrace(a: Api, m: Mapping, wanted: seq<string>)
    requires IsLive(a) && m.realm in a.server.realms && HolderKnown(a.server, m)
    requires !Unborn(a.server, m.holder) && !Unborn(a.server, m.client)
    ensures
      var refs := Missing(a, m, wanted);
      var (b, status) := GrantRoles(a, m, wanted);
      && a.overlay.None?
      && (status != Done ==> b == a)
      && (status == Done && wanted != [] ==> refs.Some?)
      && (status == Done && (wanted == [] || refs.value == []) ==> b == a && Elements(wanted) <= Mapped(a.server, m))
      && (status == Done && wanted != [] && refs.value != [] ==>
            && AcceptsMapping(a.server, m, refs.value) && b == Grant(a, m, refs.value).0
            && Names(refs.value) == Elements(wanted) - Mapped(a.server, m)
            && Mapped(b.server, m) == Mapped(a.server, m) + Names(refs.value)
            && Grows(a.server, AddMapping(a.server, m, refs.value)))
  {
    hide WellFormed, Missing, Unborn, HolderKnown, Grows, Names;
    LiveIs(a);
    MissingIsWhatIsNotMapped(a, m, wanted);
    MissingIsWhatIsNotThere(a, m, wanted);
    var refs := Missing(a, m, wanted);
    NothingGranted(a.server, m, wanted);
    if refs.Some? && refs.value == [] {
      NoNames();
      NothingLeft(Elements(wanted), Mapped(a.server, m));
    }
    if refs.Some? && refs.value != [] {
      AddMappingKeeps(a.server, m, refs.value);
    }
  }

  lemma NothingLeft(xs: set<string>, ys: set<string>)
    requires xs - ys == {}
    ensures xs <= ys
  {
    assert forall x :: x in xs && x !in ys ==> x in xs - ys;
  }

  lemma NoNames()
    ensures Names([]) == {}
  {}

  lemma {:induction false} GrantClientRolesFollows(a: Api, realm: string, kind: HolderKind, holder: Id,
      entries: ClientRoles, createOnly: bool) returns (asked: Asked)
    requires IsLive(a) && realm in a.server.realms && HolderKnown(a.server, Mapping(realm, kind, holder, ""))
    requires !Unborn(a.server, holder)
    ensures
      var (b, status) := GrantClientRoles(a, realm, kind, holder, entries);
      && Follows(a, b, asked, createOnly) && asked.joins == {}
      && (status == Done ==>
            asked == Asked(multiset{}, EntriesAsked(a.server, realm, kind, holder, entries), {}))
    decreases |entries|
  {
    hide Follows, EntriesAsked, WellFormed, Unborn, Grows, HolderKnown, GrantRoles;
    LiveIs(a);
    EntriesAskedStep(a.server, a.server, realm, kind, holder, entries);
    if entries == [] {
      NothingAsked(a, createOnly);
      asked := NOTHING;
    } else if entries[0].1 == [] {
      asked := GrantClientRolesFollows(a, realm, kind, holder, entries[1..], createOnly);
    } else if Client(realm, entries[0].0) in a.server.objects {
      var m := Mapping(realm, kind, holder, a.server.objects[Client(realm, entries[0].0)]);
      ClientListIsKnown(a.server, m, entries[0].0);
      GrantRolesLive(a, m, entries[0].1);
      var x := GrantRolesFollows(a, m, entries[0].1, createOnly);
      var (b, status) := GrantRoles(a, m, entries[0].1);
      if status == Done {
        SameHolder(a.server, b.server, realm, kind, holder);
        var y := GrantClientRolesFollows(b, realm, kind, holder, entries[1..], createOnly);
        var c := GrantClientRoles(b, realm, kind, holder, entries[1..]).0;
        FollowsBoth(a, b, c, x, y, createOnly);
        asked := Both(x, y);
        EntriesAskedStep(a.server, b.server, realm, kind, holder, entries);
      } else {
        asked := x;
      }
    } else {
      NothingAsked(a, createOnly);
      asked := NOTHING;
    }
  }

  lemma ClientListIsKnown(s: Server, m: Mapping, clientId: string)
    requires WellFormed(s) && HolderKnown(s, m.(client := "")) && Lookup(s, Client(m.realm, clientId)) == Some(m.client)
    ensures HolderKnown(s, m) && !Unborn(s, m.client)
  {}

  lemma EntriesAskedStep(s: Server, t: Server, realm: string, kind: HolderKind, holder: Id, entries: ClientRoles)
    requires t.objects == s.objects
    ensures entries == [] ==> EntriesAsked(s, realm, kind, holder, entries) == {}
    ensures entries != [] && entries[0].1 == [] ==>
              EntriesAsked(s, realm, kind, holder, entries) == EntriesAsked(s, realm, kind, holder, entries[1..])
    ensures entries != [] && Client(realm, entries[0].0) in s.objects ==>
              EntriesAsked(s, realm, kind, holder, entries) ==
              ListAsked(Mapping(realm, kind, holder, s.objects[Client(realm, entries[0].0)]), entries[0].1)
              + EntriesAsked(t, realm, kind, holder, entries[1..])
  {
    if entries != [] {
      assert entries == [entries[0]] + entries[1..];
    }
  }

  lemma EnsureRoleMappingsFollows(a: Api, realm: string, kind: HolderKind, holder: Id, roles: seq<string>,
      entries: ClientRoles, createOnly: bool) returns (asked: Asked)
    requires IsLive(a) && realm in a.server.realms && HolderKnown(a.server, Mapping(realm, kind, holder, ""))
    requires !Unborn(a.server, holder)
    ensures
      var (b, status) := EnsureRoleMappings(a, realm, kind, holder, roles, entries);
      && Follows(a, b, asked, createOnly) && asked.joins == {}
      && (status == Done ==> asked == RolesAsked(a.server, realm, kind, holder, roles, entries))
  {
    hide Follows, EntriesAsked, ListAsked, WellFormed, Unborn, Grows, HolderKnown, GrantRoles, GrantClientRoles;
    EmptyIdIsBorn(a.server);
    var m := Mapping(realm, kind, holder, "");
    GrantRolesLive(a, m, roles);
    asked := GrantRolesFollows(a, m, roles, createOnly);
    var (b, status) := GrantRoles(a, m, roles);
    if status == Done {
      SameHolder(a.server, b.server, realm, kind, holder);
      var y := GrantClientRolesFollows(b, realm, kind, holder, entries, createOnly);
      var c := GrantClientRoles(b, realm, kind, holder, entries).0;
      FollowsBoth(a, b, c, asked, y, createOnly);
      asked := Both(asked, y);
      SameEntries(a.server, b.server, realm, kind, holder, entries);
    }
  }

  lemma SameEntries(s: Server, t: Server, realm: string, kind: HolderKind, holder: Id, entries: ClientRoles)
    requires forall k: Key :: k.Client? ==> Lookup(s, k) == Lookup(t, k)
    ensures EntriesAsked(s, realm, kind, holder, entries) == EntriesAsked(t, realm, kind, holder, entries)
  {
    forall e | e in entries
      ensures Client(realm, e.0) in s.objects <==> Client(realm, e.0) in t.objects
      ensures Client(realm, e.0) in s.objects ==> s.objects[Client(realm, e.0)] == t.objects[Client(realm, e.0)]
    {
      assert Lookup(s, Client(realm, e.0)) == Lookup(t, Client(realm, e.0));
    }
  }

  // ---------- objects ----------

  /** Created when missing; else updated, or left alone under a create-only strategy. */
  lemma ObjectFollows(a: Api, b: Api, k: Key, serviceAccount: bool, createOnly: bool)
    requires a.overlay.None? && !k.ServiceAccount? && Grows(a.server, b.server)
    requires k !in a.server.objects ==> Accepts(a.server, k) && b == Create(a, k, serviceAccount).0
    requires k in a.server.objects ==>
               b == if createOnly then a else Update(a, k, IdFor(a.server, k), serviceAccount)
    ensures Follows(a, b, KeyAsked(k), createOnly)
  {
    hide Follows, Grows, Create, Update, IdFor, KeyAsked, Accepts;
    if k !in a.server.objects {
      CreateFollows(a, k, serviceAccount, createOnly);
    } else if createOnly {
      SkipFollows(a, k);
    } else {
      UpdateFollows(a, k, IdFor(a.server, k), serviceAccount);
    }
  }

  function RolesNamed(realm: string, client: Id, names: seq<string>): multiset<Key> {
    if names == [] then multiset{}
    else multiset{RoleKey(realm, client, names[0])} + RolesNamed(realm, client, names[1..])
  }

  lemma EnsureRoleFollows(a: Api, realm: string, client: Id, name: string, createOnly: bool)
    requires IsLive(a) && realm in a.server.realms && RoleHome(a.server, realm, client)
    ensures Follows(a, EnsureRole(a, RoleKey(realm, client, name), createOnly).0,
                    KeyAsked(RoleKey(realm, client, name)), createOnly)
  {
    EnsureRoleLive(a, realm, client, name, createOnly);
    var k := RoleKey(realm, client, name);
    assert IdFor(a.server, k) == "";
    hide WellFormed, Grows, Follows;
    ObjectFollows(a, EnsureRole(a, k, createOnly).0, k, false, createOnly);
  }

  lemma {:induction false} EnsureRolesFollows(a: Api, realm: string, client: Id, names: seq<string>, createOnly: bool)
    requires IsLive(a) && realm in a.server.realms && RoleHome(a.server, realm, client)
    ensures Follows(a, EnsureRoles(a, realm, client, names, createOnly).0,
                    Asked(RolesNamed(realm, client, names), {}, {}), createOnly)
    decreases |names|
  {
    hide Follows, WellFormed, Grows, RoleHome, EnsureRole, EnsureRoles;
    LiveIs(a);
    EnsureRolesStep(a, realm, client, names, createOnly);
    if names == [] {
      NothingAsked(a, createOnly);
    } else {
      EnsureRoleLive(a, realm, client, names[0], createOnly);
      EnsureRoleFollows(a, realm, client, names[0], createOnly);
      var b := EnsureRole(a, RoleKey(realm, client, names[0]), createOnly).0;
      RoleHomeStays(a.server, b.server, realm, client);
      EnsureRolesFollows(b, realm, client, names[1..], createOnly);
      var c := EnsureRoles(b, realm, client, names[1..], createOnly).0;
      assert Asked(RolesNamed(realm, client, names), {}, {}) ==
             Both(KeyAsked(RoleKey(realm, client, names[0])), Asked(RolesNamed(realm, client, names[1..]), {}, {}));
      FollowsBoth(a, b, c, KeyAsked(RoleKey(realm, client, names[0])),
                  Asked(RolesNamed(realm, client, names[1..]), {}, {}), createOnly);
    }
  }

  lemma EnsureClientFollows(a: Api, realm: string, c: ClientConfig, createOnly: bool)
    requires IsLive(a) && realm in a.server.realms
    ensures Follows(a, EnsureClient(a, realm, c, createOnly).0, KeyAsked(Client(realm, c.clientId)), createOnly)
  {
    EnsureClientLive(a, realm, c, createOnly);
    var k := Client(realm, c.clientId);
    assert k in a.server.objects ==> IdFor(a.server, k) == a.server.objects[k];
    hide WellFormed, Grows, Follows;
    ObjectFollows(a, EnsureClient(a, realm, c, createOnly).0, k, c.serviceAccount, createOnly);
  }

  lemma EnsureScopeFollows(a: Api, realm: string, name: string, createOnly: bool)
    requires IsLive(a) && realm in a.server.realms
    ensures Follows(a, C.EnsureScope(a, realm, name, createOnly).0, KeyAsked(ClientScope(realm, name)), createOnly)
  {
    var k := ClientScope(realm, name);
    GrowsItself(a.server);
    assert k in a.server.objects ==> IdFor(a.server, k) == a.server.objects[k];
    if k !in a.server.objects {
      AddKeeps(a.server, k);
    }
    hide WellFormed, Grows, Follows;
    ObjectFollows(a, C.EnsureScope(a, realm, name, createOnly).0, k, false, createOnly);
  }

  // ---------- groups ----------

  /** The config's groups, wherever they are in the tree, and the roles they are to have. */
  function GroupsAsked(s: Server, realm: string, parent: Id, gs: seq<GroupConfig>): Asked
    decreases gs
  {
    if gs == [] then NOTHING
    else
      var k := GroupKey(realm, parent, gs[0].name);
      var rest := GroupsAsked(s, realm, parent, gs[1..]);
      if k !in s.objects then rest
      else
        var root := Both(KeyAsked(k), RolesAsked(s, realm, Groups, s.objects[k], gs[0].realmRoles, gs[0].clientRoles));
        Both(Both(root, GroupsAsked(s, realm, s.objects[k], gs[0].subGroups)), rest)
  }

  /** What is placed is asked for alike as long as no clients are added. */
  lemma {:induction false} GroupsAskedLater(s: Server, t: Server, realm: string, parent: Id, gs: seq<GroupConfig>)
    requires Grows(s, t) && Placed(s, realm, parent, gs) && forall k: Key :: k.Client? ==> Lookup(s, k) == Lookup(t, k)
    ensures GroupsAsked(t, realm, parent, gs) == GroupsAsked(s, realm, parent, gs)
    decreases gs
  {
    if gs != [] {
      var k := GroupKey(realm, parent, gs[0].name);
      assert k in s.objects && t.objects[k] == s.objects[k];
      Unfold(s, realm, parent, gs);
      SameEntries(s, t, realm, Groups, s.objects[k], gs[0].clientRoles);
      hide Grows, Placed, EntriesAsked;
      GroupsAskedLater(s, t, realm, s.objects[k], gs[0].subGroups);
      GroupsAskedLater(s, t, realm, parent, gs[1..]);
    }
  }

  lemma ReconcileGroupFollows(a: Api, realm: string, parent: Id, name: string, createOnly: bool)
    requires IsLive(a) && realm in a.server.realms && ParentOk(a.server, realm, parent)
    ensures Follows(a, ReconcileGroup(a, realm, parent, name, createOnly).0, KeyAsked(GroupKey(realm, parent, name)),
                    createOnly)
  {
    ReconcileGroupLive(a, realm, parent, name, createOnly);
    var k := GroupKey(realm, parent, name);
    assert k in a.server.objects ==> IdFor(a.server, k) == a.server.objects[k];
    hide WellFormed, Grows, Follows;
    ObjectFollows(a, ReconcileGroup(a, realm, parent, name, createOnly).0, k, false, createOnly);
  }

  lemma {:induction false} EnsureGroupFollows(a: Api, realm: string, parent: Id, g: GroupConfig, createOnly: bool)
      returns (asked: Asked)
    requires IsLive(a) && realm in a.server.realms && ParentOk(a.server, realm, parent)
    ensures
      var (b, status) := EnsureGroup(a, realm, parent, g, createOnly);
      && Follows(a, b, asked, createOnly) && asked.joins == {}
      && (status == Done ==> asked == GroupsAsked(b.server, realm, parent, [g]))
    decreases g
  {
    hide *;
    NoJoins();
    var k := GroupKey(realm, parent, g.name);
    EnsureGroupStep(a, realm, parent, g, createOnly);
    ReconcileGroupLive(a, realm, parent, g.name, createOnly);
    ReconcileGroupFollows(a, realm, parent, g.name, createOnly);
    EnsureRootLive(a, realm, parent, g, createOnly);
    var (b, id) := ReconcileGroup(a, realm, parent, g.name, createOnly);
    GroupHolds(a, b, realm, parent, g.name, id.value);
    EnsureRoleMappingsLive(b, realm, Groups, id.value, g.realmRoles, g.clientRoles);
    var x := EnsureRoleMappingsFollows(b, realm, Groups, id.value, g.realmRoles, g.clientRoles, createOnly);
    var (c, s1) := EnsureRoleMappings(b, realm, Groups, id.value, g.realmRoles, g.clientRoles);
    RootFacts(a, c, s1, realm, parent, g, id.value);
    FollowsBoth(a, b, c, KeyAsked(k), x, createOnly);
    asked := Both(KeyAsked(k), x);
    if s1 == Done {
      EnsureGroupsLive(c, realm, id.value, g.subGroups, createOnly);
      var y := EnsureGroupsFollows(c, realm, id.value, g.subGroups, createOnly);
      var (d, s2) := EnsureGroups(c, realm, id.value, g.subGroups, createOnly);
      FollowsBoth(a, c, d, asked, y, createOnly);
      asked := Both(asked, y);
      if s2 == Done {
        EnsureGroupLive(a, realm, parent, g, createOnly);
        GroupDoneFacts(c, d, s2, realm, id.value, g.subGroups);
        GroupAskedFromRoot(a, b, c, d, realm, parent, g, id.value);
      }
    }
  }

  lemma GroupHolds(a: Api, b: Api, realm: string, parent: Id, name: string, id: Id)
    requires IsLive(b) && Lookup(b.server, GroupKey(realm, parent, name)) == Some(id)
    requires OnlyGroupsAdded(a.server, b.server) && realm in a.server.realms
    ensures HolderKnown(b.server, Mapping(realm, Groups, id, "")) && realm in b.server.realms
  {}

  lemma GroupsAskedIs(s: Server, realm: string, parent: Id, gs: seq<GroupConfig>)
    ensures gs == [] ==> GroupsAsked(s, realm, parent, gs) == NOTHING
    ensures gs != [] && GroupKey(realm, parent, gs[0].name) in s.objects ==>
              var k := GroupKey(realm, parent, gs[0].name);
              GroupsAsked(s, realm, parent, gs) ==
              Both(Both(Both(KeyAsked(k),
                             RolesAsked(s, realm, Groups, s.objects[k], gs[0].realmRoles, gs[0].clientRoles)),
                        GroupsAsked(s, realm, s.objects[k], gs[0].subGroups)),
                   GroupsAsked(s, realm, parent, gs[1..]))
  {}

  /** A tree of one root. */
  lemma OneGroupAsked(s: Server, realm: string, parent: Id, g: GroupConfig)
    requires GroupKey(realm, parent, g.name) in s.objects
    ensures
      var k := GroupKey(realm, parent, g.name);
      GroupsAsked(s, realm, parent, [g]) ==
      Both(Both(KeyAsked(k), RolesAsked(s, realm, Groups, s.objects[k], g.realmRoles, g.clientRoles)),
           GroupsAsked(s, realm, s.objects[k], g.subGroups))
  {
    hide GroupsAsked, RolesAsked, Both, KeyAsked;
    assert [g][0] == g && [g][1..] == [];
    GroupsAskedIs(s, realm, parent, [g]);
    GroupsAskedIs(s, realm, parent, []);
    var k := GroupKey(realm, parent, g.name);
    BothWithNothing(Both(Both(KeyAsked(k), RolesAsked(s, realm, Groups, s.objects[k], g.realmRoles, g.clientRoles)),
                         GroupsAsked(s, realm, s.objects[k], g.subGroups)));
  }

  lemma SameClientsLater(s: Server, t: Server, u: Server)
    requires t == s.(mappings := t.mappings) && OnlyGroupsAdded(t, u)
    ensures forall k: Key :: k.Client? ==> Lookup(s, k) == Lookup(u, k)
  {
    forall k: Key | k.Client? ensures Lookup(s, k) == Lookup(u, k) {
      assert Lookup(s, k) == Lookup(t, k);
    }
  }

  lemma GroupAskedFromRoot(a: Api, b: Api, c: Api, d: Api, realm: string, parent: Id, g: GroupConfig, id: Id)
    requires Lookup(b.server, GroupKey(realm, parent, g.name)) == Some(id)
    requires OnlyGroupsAdded(c.server, d.server) && c.server == b.server.(mappings := c.server.mappings)
    ensures GroupsAsked(d.server, realm, parent, [g]) ==
            Both(Both(KeyAsked(GroupKey(realm, parent, g.name)),
                      RolesAsked(b.server, realm, Groups, id, g.realmRoles, g.clientRoles)),
                 GroupsAsked(d.server, realm, id, g.subGroups))
  {
    hide GroupsAsked, EntriesAsked, ListAsked, Both, KeyAsked;
    var k := GroupKey(realm, parent, g.name);
    assert Lookup(d.server, k) == Some(id) by {
      assert Lookup(c.server, k) == Some(id);
    }
    SameClientsLater(b.server, c.server, d.server);
    SameEntries(b.server, d.server, realm, Groups, id, g.clientRoles);
    OneGroupAsked(d.server, realm, parent, g);
  }

  lemma {:induction false} EnsureGroupsFollows(a: Api, realm: string, parent: Id, gs: seq<GroupConfig>,
      createOnly: bool) returns (asked: Asked)
    requires IsLive(a) && realm in a.server.realms && ParentOk(a.server, realm, parent)
    ensures
      var (b, status) := EnsureGroups(a, realm, parent, gs, createOnly);
      && Follows(a, b, asked, createOnly) && asked.joins == {}
      && (status == Done ==> asked == GroupsAsked(b.server, realm, parent, gs))
    decreases gs
  {
    hide *;
    NoJoins();
    EnsureGroupsStep(a, realm, parent, gs, createOnly);
    LiveIs(a);
    if gs == [] {
      NothingAsked(a, createOnly);
      asked := NOTHING;
      GroupsAskedIs(a.server, realm, parent, gs);
    } else {
      EnsureGroupLive(a, realm, parent, gs[0], createOnly);
      asked := EnsureGroupFollows(a, realm, parent, gs[0], createOnly);
      var (b, s1) := EnsureGroup(a, realm, parent, gs[0], createOnly);
      GroupDoneFacts(a, b, s1, realm, parent, [gs[0]]);
      if s1 == Done {
        EnsureGroupsLive(b, realm, parent, gs[1..], createOnly);
        var y := EnsureGroupsFollows(b, realm, parent, gs[1..], createOnly);
        var (c, s2) := EnsureGroups(b, realm, parent, gs[1..], createOnly);
        FollowsBoth(a, b, c, asked, y, createOnly);
        asked := Both(asked, y);
        if s2 == Done {
          GroupsAskedThen(a, b, c, realm, parent, gs);
        }
      }
    }
  }

  lemma GroupsAskedThen(a: Api, b: Api, c: Api, realm: string, parent: Id, gs: seq<GroupConfig>)
    requires gs != [] && GroupDone(a, b, Done, realm, parent, [gs[0]]) && GroupDone(b, c, Done, realm, parent, gs[1..])
    ensures GroupsAsked(c.server, realm, parent, gs) ==
            Both(GroupsAsked(b.server, realm, parent, [gs[0]]), GroupsAsked(c.server, realm, parent, gs[1..]))
  {
    hide WellFormed, TreeDeclares, NodeKeys, GroupsAsked, RolesAsked, Both, KeyAsked;
    var k := GroupKey(realm, parent, gs[0].name);
    assert [gs[0]][0] == gs[0] && k in b.server.objects && k in c.server.objects;
    assert forall x: Key :: x.Client? ==> Lookup(b.server, x) == Lookup(c.server, x);
    GroupsAskedLater(b.server, c.server, realm, parent, [gs[0]]);
    OneGroupAsked(c.server, realm, parent, gs[0]);
    GroupsAskedIs(c.server, realm, parent, gs);
  }

  // ---------- users ----------

  /** The groups that the paths lead to and that the user is not in yet. */
  function JoinsAsked(s: Server, t: Server, realm: string, user: Id, paths: seq<string>): set<Membership> {
    set p | p in paths && ConfigMaps.NormalizeGroupPath(p) !in PathsOfUser(s, user) && GroupAt(t, realm, p).Some? ::
      Membership(user, GroupAt(t, realm, p).value)
  }

  function PathsOfUser(s: Server, user: Id): set<string> {
    set m | m in s.memberships && m.user == user :: PathText(PathOf(s, m.group))
  }

  function UserAsked(s: Server, t: Server, realm: string, u: UserConfig): Asked {
    var k := User(realm, u.username);
    if k !in t.objects then NOTHING
    else
      Both(Both(KeyAsked(k),
                if u.roles.None? then NOTHING
                else RolesAsked(t, realm, HolderKind.Users, t.objects[k], u.roles.value.realm, u.roles.value.clients)),
           Asked(multiset{}, {}, JoinsAsked(s, t, realm, t.objects[k], u.groups)))
  }

  /** The users, their roles, and the groups they are to join. */
  function UsersAsked(s: Server, t: Server, realm: string, us: seq<UserConfig>): Asked
    decreases |us|
  {
    if us == [] then NOTHING else Both(UserAsked(s, t, realm, us[0]), UsersAsked(s, t, realm, us[1..]))
  }

  /** A path that leads to a group whose path the user does not have leads to a new membership. */
  lemma PathIsNew(a: Api, realm: string, user: Id, path: string)
    requires IsLive(a) && WalkTo(a, realm, path).Some?
    requires ConfigMaps.NormalizeGroupPath(path) !in PathsOfUser(a.server, user)
    ensures Membership(user, WalkTo(a, realm, path).value) !in a.server.memberships
  {
    WalkedHasPath(a, realm, path);
  }

  /** Joining adds the path of the group joined. */
  lemma PathsPlusOne(a: Api, b: Api, realm: string, user: Id, path: string, memberOf: set<string>)
    requires IsLive(a) && WalkTo(a, realm, path).Some? && PathsOfUser(a.server, user) <= memberOf
    requires b.server == a.server.(memberships :=
               a.server.memberships + {Membership(user, WalkTo(a, realm, path).value)})
    ensures PathsOfUser(b.server, user) <= memberOf + {ConfigMaps.NormalizeGroupPath(path)}
  {
    WalkedHasPath(a, realm, path);
    forall m | m in b.server.memberships && m.user == user
      ensures PathText(PathOf(b.server, m.group)) in memberOf + {ConfigMaps.NormalizeGroupPath(path)}
    {
      assert PathOf(b.server, m.group) == PathOf(a.server, m.group);
    }
  }

  lemma {:induction false} JoinGroupsFollows(a: Api, realm: string, user: Id, paths: seq<string>,
      memberOf: set<string>, createOnly: bool)
    requires IsLive(a) && CanJoin(a.server, realm, user) && PathsOfUser(a.server, user) <= memberOf
    ensures Follows(a, JoinGroups(a, realm, user, paths, memberOf).0,
                    Asked(multiset{}, {}, NewMemberships(a, realm, user, paths, memberOf)), createOnly)
    decreases |paths|
  {
    hide *;
    LiveIs(a);
    JoinGroupsStep(a, realm, user, paths, memberOf);
    OneMorePath(a, a, realm, user, paths, memberOf);
    if paths == [] {
      NothingAsked(a, createOnly);
      NothingIs();
    } else {
      var path := ConfigMaps.NormalizeGroupPath(paths[0]);
      if path in memberOf || WalkTo(a, realm, paths[0]).None? {
        JoinGroupsFollows(a, realm, user, paths[1..], memberOf, createOnly);
      } else {
        var m := Membership(user, WalkTo(a, realm, paths[0]).value);
        var b := AddToGroup(a, m).0;
        PathIsNew(a, realm, user, paths[0]);
        MemberAccepted(a, realm, user, paths[0]);
        JoinFollows(a, m, createOnly);
        PathsPlusOne(a, b, realm, user, paths[0], memberOf);
        LiveIs(b);
        JoinGroupsFollows(b, realm, user, paths[1..], memberOf + {path}, createOnly);
        OneMorePath(a, b, realm, user, paths, memberOf);
        var c := JoinGroups(b, realm, user, paths[1..], memberOf + {path}).0;
        var x := Asked(multiset{}, {}, {m});
        var y := Asked(multiset{}, {}, NewMemberships(b, realm, user, paths[1..], memberOf + {path}));
        FollowsBoth(a, b, c, x, y, createOnly);
        BothAre(x, y);
        NoKeys(x, y);
      }
    }
  }

  lemma NothingIs()
    ensures NOTHING == Asked(multiset{}, {}, {})
  {}

  lemma NoKeys(x: Asked, y: Asked)
    requires x.keys == y.keys == multiset{} && x.roles == y.roles == {}
    ensures Both(x, y) == Asked(multiset{}, {}, x.joins + y.joins)
  {}

  lemma MemberAccepted(a: Api, realm: string, user: Id, path: string)
    requires IsLive(a) && CanJoin(a.server, realm, user) && WalkTo(a, realm, path).Some?
    ensures AcceptsMember(a.server, Membership(user, WalkTo(a, realm, path).value))
  {
    WalkedHasPath(a, realm, path);
  }

  lemma ReconcileUserFollows(a: Api, realm: string, username: string, createOnly: bool)
    requires IsLive(a) && realm in a.server.realms
    ensures Follows(a, ReconcileUser(a, realm, username, createOnly).0, KeyAsked(User(realm, username)), createOnly)
  {
    ReconcileUserLive(a, realm, username, createOnly);
    var k := User(realm, username);
    assert k in a.server.objects ==> IdFor(a.server, k) == a.server.objects[k];
    hide WellFormed, Grows, Follows;
    ObjectFollows(a, ReconcileUser(a, realm, username, createOnly).0, k, false, createOnly);
  }

  lemma GrantUserRolesFollows(a: Api, realm: string, user: Id, roles: Option<Roles>, createOnly: bool)
      returns (asked: Asked)
    requires IsLive(a) && realm in a.server.realms && CanJoin(a.server, realm, user)
    ensures
      var (b, status) := GrantUserRoles(a, realm, user, roles);
      && Follows(a, b, asked, createOnly) && asked.joins == {}
      && (status == Done ==>
            asked == if roles.None? then NOTHING
                     else RolesAsked(a.server, realm, HolderKind.Users, user, roles.value.realm, roles.value.clients))
  {
    if roles.None? {
      hide Follows, WellFormed;
      NothingAsked(a, createOnly);
      asked := NOTHING;
    } else {
      assert !Unborn(a.server, user);
      hide Follows, WellFormed, EnsureRoleMappings;
      asked := EnsureRoleMappingsFollows(a, realm, HolderKind.Users, user, roles.value.realm, roles.value.clients,
                                         createOnly);
    }
  }

  lemma EnsureUserFollows(a: Api, realm: string, u: UserConfig, createOnly: bool) returns (asked: Asked)
    requires IsLive(a) && realm in a.server.realms
    ensures
      var (b, status) := EnsureUser(a, realm, u, createOnly);
      && Follows(a, b, asked, createOnly)
      && (status == Done ==> asked == UserAsked(a.server, b.server, realm, u))
  {
    hide *;
    var k := User(realm, u.username);
    EnsureUserIs(a, realm, u, createOnly);
    ReconcileUserLive(a, realm, u.username, createOnly);
    ReconcileUserFollows(a, realm, u.username, createOnly);
    var (b, id) := ReconcileUser(a, realm, u.username, createOnly);
    UserAddedFacts(a.server, b.server, k);
    GrantUserRolesLive(b, realm, id.value, u);
    var x := GrantUserRolesFollows(b, realm, id.value, u.roles, createOnly);
    var (c, status) := GrantUserRoles(b, realm, id.value, u.roles);
    FollowsBoth(a, b, c, KeyAsked(k), x, createOnly);
    asked := Both(KeyAsked(k), x);
    UserAddedThen(a.server, b.server, c.server, k);
    CanStillJoin(b.server, c.server, realm, id.value);
    if status == Done {
      LiveIs(a);
      LiveIs(c);
      KnownPaths(a, b, c, realm, k, id.value);
      if u.groups == [] {
        NoPathsAsked(a.server, c.server, realm, id.value, u);
        UserAskedIs(a.server, b.server, c.server, realm, u, {});
        NothingIs();
        BothWithNothing(asked);
      } else {
        var known := GroupPathsOf(c, realm, id.value);
        JoinGroupsLive(c, realm, id.value, u.groups, known);
        JoinGroupsFollows(c, realm, id.value, u.groups, known, createOnly);
        var d := JoinGroups(c, realm, id.value, u.groups, known).0;
        var y := Asked(multiset{}, {}, NewMemberships(c, realm, id.value, u.groups, known));
        FollowsBoth(a, c, d, asked, y, createOnly);
        asked := Both(asked, y);
        JoinsAreNew(a, c, d, realm, id.value, u.groups);
        UserAskedIs(a.server, b.server, d.server, realm, u, y.joins);
      }
    }
  }

  /** What the user is in when its paths are looked at is what it was in at the start. */
  lemma KnownPaths(a: Api, b: Api, c: Api, realm: string, k: Key, id: Id)
    requires WellFormed(a.server) && WellFormed(c.server) && OnlyUserAdded(a.server, b.server, k)
    requires c.overlay.None? && Grows(a.server, c.server) && c.server.memberships == a.server.memberships
    ensures GroupPathsOf(c, realm, id) == PathsOfUser(c.server, id) == PathsOfUser(a.server, id)
  {
    forall m | m in a.server.memberships ensures PathOf(c.server, m.group) == PathOf(a.server, m.group) {
      assert AcceptsMember(a.server, m);
    }
  }

  lemma NoPathsAsked(s: Server, t: Server, realm: string, id: Id, u: UserConfig)
    requires u.groups == []
    ensures JoinsAsked(s, t, realm, id, u.groups) == {}
  {}

  lemma JoinsAreNew(a: Api, c: Api, d: Api, realm: string, id: Id, paths: seq<string>)
    requires c.overlay.None? && d.server.objects == c.server.objects
    ensures NewMemberships(c, realm, id, paths, PathsOfUser(a.server, id)) ==
            JoinsAsked(a.server, d.server, realm, id, paths)
  {
    forall p ensures WalkTo(c, realm, p) == GroupAt(d.server, realm, p) {
      GroupAtIs(c, realm, p);
      SameGroupAt(c, d, realm, p);
    }
  }

  lemma UserAskedIs(s: Server, t: Server, u: Server, realm: string, c: UserConfig, joins: set<Membership>)
    requires User(realm, c.username) in t.objects && u.objects == t.objects
    requires joins == JoinsAsked(s, u, realm, t.objects[User(realm, c.username)], c.groups)
    ensures
      var id := t.objects[User(realm, c.username)];
      UserAsked(s, u, realm, c) ==
      Both(Both(KeyAsked(User(realm, c.username)),
                if c.roles.None? then NOTHING
                else RolesAsked(t, realm, HolderKind.Users, id, c.roles.value.realm, c.roles.value.clients)),
           Asked(multiset{}, {}, joins))
  {
    hide JoinsAsked, EntriesAsked;
    if c.roles.Some? {
      SameEntries(t, u, realm, HolderKind.Users, t.objects[User(realm, c.username)], c.roles.value.clients) by {
        assert forall k: Key :: Lookup(t, k) == Lookup(u, k);
      }
    }
  }

  /** Users added later make no difference to what one user is to have. */
  lemma UserAskedLater(s: Server, t: Server, u: Server, realm: string, c: UserConfig, us: seq<UserConfig>)
    requires User(realm, c.username) in t.objects && OnlyUsersAdded(t, u, realm, us)
    ensures UserAsked(s, u, realm, c) == UserAsked(s, t, realm, c)
  {
    GroupsAlike(t, u, realm, us);
    hide GroupAt, EntriesAsked;
    if c.roles.Some? {
      SameEntries(t, u, realm, HolderKind.Users, t.objects[User(realm, c.username)], c.roles.value.clients) by {
        assert forall k: Key :: k.Client? ==> Lookup(t, k) == Lookup(u, k);
      }
    }
  }

  /** What users are to join depends on what they were in, and on nobody else's memberships. */
  lemma {:induction false} UsersAskedAlike(s: Server, t: Server, u: Server, realm: string, us: seq<UserConfig>)
    requires forall i :: 0 <= i < |us| ==>
               User(realm, us[i].username) in u.objects
               && PathsOfUser(s, u.objects[User(realm, us[i].username)]) ==
                  PathsOfUser(t, u.objects[User(realm, us[i].username)])
    ensures UsersAsked(s, u, realm, us) == UsersAsked(t, u, realm, us)
    decreases |us|
  {
    if us != [] {
      hide PathsOfUser, GroupAt, RolesAsked;
      var rest := us[1..];
      forall i | 0 <= i < |rest|
        ensures User(realm, rest[i].username) in u.objects
                && PathsOfUser(s, u.objects[User(realm, rest[i].username)]) ==
                   PathsOfUser(t, u.objects[User(realm, rest[i].username)])
      {
        assert rest[i] == us[i + 1];
      }
      UsersAskedAlike(s, t, u, realm, rest);
      assert us[0] == us[0] && UserAsked(s, u, realm, us[0]) == UserAsked(t, u, realm, us[0]);
    }
  }

  /** The first user's memberships are not the others'. */
  lemma OthersPaths(s: Server, t: Server, u: Server, realm: string, us: seq<UserConfig>, i: nat)
    requires WellFormed(s) && WellFormed(t) && WellFormed(u) && Grows(t, u) && us != [] && DistinctUsernames(us)
    requires OnlyUserAdded(s, t, User(realm, us[0].username)) && i < |us| - 1
    requires User(realm, us[1..][i].username) in u.objects
    ensures
      var id := u.objects[User(realm, us[1..][i].username)];
      PathsOfUser(s, id) == PathsOfUser(t, id)
  {
    hide PathsOk, MappingsOk, ObjectsOk;
    RestAreDistinct(us);
    var k, id := User(realm, us[1..][i].username), u.objects[User(realm, us[1..][i].username)];
    OwnersDiffer(t, u, User(realm, us[0].username), k);
    forall m | m in t.memberships && m.user == id ensures m in s.memberships {}
    forall m | m in s.memberships ensures m in t.memberships && PathOf(t, m.group) == PathOf(s, m.group) {
      GroupHasPath(s, t, m);
    }
  }

  lemma GroupHasPath(s: Server, t: Server, m: Membership)
    requires PathsOk(s) && MembershipsOk(s) && Grows(s, t) && m in s.memberships
    ensures PathOf(t, m.group) == PathOf(s, m.group)
  {
    assert AcceptsMember(s, m);
  }

  lemma OwnersDiffer(t: Server, u: Server, j: Key, k: Key)
    requires ObjectsOk(u) && Grows(t, u) && j in t.objects && k in u.objects && j != k
    ensures t.objects[j] != u.objects[k]
  {
    assert u.owner[u.objects[j]] == j && u.owner[u.objects[k]] == k;
  }

  lemma {:induction false} EnsureUsersFollows(a: Api, realm: string, us: seq<UserConfig>, createOnly: bool)
      returns (asked: Asked)
    requires IsLive(a) && realm in a.server.realms && DistinctUsernames(us)
    ensures
      var (b, status) := EnsureUsers(a, realm, us, createOnly);
      && Follows(a, b, asked, createOnly)
      && (status == Done ==> asked == UsersAsked(a.server, b.server, realm, us))
    decreases |us|
  {
    hide *;
    EnsureUsersStep(a, realm, us, createOnly);
    LiveIs(a);
    if us == [] {
      NothingAsked(a, createOnly);
      asked := NOTHING;
      NoUsersAsked(a.server, realm);
    } else {
      RestAreDistinct(us);
      EnsureUserLive(a, realm, us[0], createOnly);
      asked := EnsureUserFollows(a, realm, us[0], createOnly);
      var (b, s1) := EnsureUser(a, realm, us[0], createOnly);
      UserAddedFacts(a.server, b.server, User(realm, us[0].username));
      if s1 == Done {
        EnsureUsersLive(b, realm, us[1..], createOnly);
        var y := EnsureUsersFollows(b, realm, us[1..], createOnly);
        var (c, s2) := EnsureUsers(b, realm, us[1..], createOnly);
        FollowsBoth(a, b, c, asked, y, createOnly);
        asked := Both(asked, y);
        if s2 == Done {
          LiveIs(b);
          LiveIs(c);
          UsersAskedThen(a.server, b.server, c.server, realm, us);
        }
      }
    }
  }

  lemma NoUsersAsked(s: Server, realm: string)
    ensures UsersAsked(s, s, realm, []) == NOTHING
  {}

  lemma UsersAskedThen(s: Server, t: Server, u: Server, realm: string, us: seq<UserConfig>)
    requires WellFormed(s) && WellFormed(t) && WellFormed(u) && us != [] && DistinctUsernames(us)
    requires OnlyUserAdded(s, t, User(realm, us[0].username)) && OnlyUsersAdded(t, u, realm, us[1..])
    requires AllUsersThere(t, u, realm, us[1..])
    ensures UsersAsked(s, u, realm, us) == Both(UserAsked(s, t, realm, us[0]), UsersAsked(t, u, realm, us[1..]))
  {
    hide WellFormed, PathsOfUser, UserAsked, Grows, MemberWhereItLeads;
    UserAddedFacts(s, t, User(realm, us[0].username));
    UserAskedLater(s, t, u, realm, us[0], us[1..]);
    UsersGrow(t, u, realm, us[1..]);
    var rest := us[1..];
    forall i | 0 <= i < |rest|
      ensures User(realm, rest[i].username) in u.objects
              && PathsOfUser(s, u.objects[User(realm, rest[i].username)]) ==
                 PathsOfUser(t, u.objects[User(realm, rest[i].username)])
    {
      assert UserThere(u, realm, rest[i]);
      OthersPaths(s, t, u, realm, us, i);
    }
    UsersAskedAlike(s, t, u, realm, rest);
  }
}
