/** The group tree after a run, and finding a group by path (internal/provisioner/groups.go). */
module GroupTrees {
  import opened Text
  import opened Ids
  import opened Directory
  import opened Reconcile
  import opened LiveRuns
  import ConfigMaps

  function GroupKey(realm: string, parent: Id, name: string): Key {
    Directory.Group(realm, parent, name)
  }

  /** Every group of the config trees exists at its place. */
  predicate Placed(s: Server, realm: string, parent: Id, gs: seq<GroupConfig>)
    decreases gs
  {
    forall i :: 0 <= i < |gs| ==>
      GroupKey(realm, parent, gs[i].name) in s.objects
      && Placed(s, realm, s.objects[GroupKey(realm, parent, gs[i].name)], gs[i].subGroups)
  }

  /** The addresses of the config's groups. */
  function NodeKeys(s: Server, realm: string, parent: Id, gs: seq<GroupConfig>): set<Key>
    decreases gs
  {
    if gs == [] then {}
    else
      var k := GroupKey(realm, parent, gs[0].name);
      {k} + (if k in s.objects then NodeKeys(s, realm, s.objects[k], gs[0].subGroups) else {})
      + NodeKeys(s, realm, parent, gs[1..])
  }

  /** All that the config's groups declare for the list `m`. */
  function TreeDeclares(s: Server, realm: string, parent: Id, gs: seq<GroupConfig>, m: Mapping): set<string>
    decreases gs
  {
    if gs == [] then {}
    else
      var k := GroupKey(realm, parent, gs[0].name);
      (if k in s.objects then
         Declares(s, realm, Groups, s.objects[k], gs[0].realmRoles, gs[0].clientRoles, m)
         + TreeDeclares(s, realm, s.objects[k], gs[0].subGroups, m)
       else {})
      + TreeDeclares(s, realm, parent, gs[1..], m)
  }

  /** Every role the trees name exists. */
  predicate TreeRolesExist(s: Server, realm: string, gs: seq<GroupConfig>)
    decreases gs
  {
    forall i :: 0 <= i < |gs| ==>
      RolesExist(s, realm, "", gs[i].realmRoles) && EntriesExist(s, realm, gs[i].clientRoles)
      && TreeRolesExist(s, realm, gs[i].subGroups)
  }

  ghost predicate ParentOk(s: Server, realm: string, parent: Id) {
    parent == "" || (parent in s.owner && s.owner[parent].Group? && s.owner[parent].realm == realm)
  }

  /** `t` is `s` grown by groups and grants alone. */
  ghost predicate OnlyGroupsAdded(s: Server, t: Server) {
    && Grows(s, t) && t.realms == s.realms
    && forall k :: k in t.objects && !k.Group? ==> k in s.objects
  }

  /** The final state a group run promises. */
  ghost predicate TreeIsThere(s: Server, t: Server, realm: string, parent: Id, gs: seq<GroupConfig>) {
    && Placed(t, realm, parent, gs)
    && t.objects.Keys == s.objects.Keys + NodeKeys(t, realm, parent, gs)
    && forall m :: Mapped(t, m) == Mapped(s, m) + TreeDeclares(t, realm, parent, gs, m)
  }

  lemma OnlyGroupsTwice(s: Server, t: Server, u: Server)
    requires OnlyGroupsAdded(s, t) && OnlyGroupsAdded(t, u)
    ensures OnlyGroupsAdded(s, u)
  {
    GrowsTransitive(s, t, u);
  }

  /** What is placed stays placed, and is described alike, when only groups are added. */
  lemma {:induction false} PlacedStays(s: Server, t: Server, realm: string, parent: Id, gs: seq<GroupConfig>)
    requires OnlyGroupsAdded(s, t) && Placed(s, realm, parent, gs)
    ensures Placed(t, realm, parent, gs) && NodeKeys(t, realm, parent, gs) == NodeKeys(s, realm, parent, gs)
    ensures forall m :: TreeDeclares(t, realm, parent, gs, m) == TreeDeclares(s, realm, parent, gs, m)
    decreases gs
  {
    if gs != [] {
      var k := GroupKey(realm, parent, gs[0].name);
      var id := s.objects[k];
      assert Placed(s, realm, id, gs[0].subGroups) && t.objects[k] == id;
      assert Placed(s, realm, parent, gs[1..]) by {
        forall i | 0 <= i < |gs[1..]| ensures GroupKey(realm, parent, gs[1..][i].name) in s.objects
          && Placed(s, realm, s.objects[GroupKey(realm, parent, gs[1..][i].name)], gs[1..][i].subGroups) {
          assert gs[1..][i] == gs[i + 1];
        }
      }
      PlacedStays(s, t, realm, id, gs[0].subGroups);
      PlacedStays(s, t, realm, parent, gs[1..]);
      forall i | 0 <= i < |gs| ensures GroupKey(realm, parent, gs[i].name) in t.objects
        && Placed(t, realm, t.objects[GroupKey(realm, parent, gs[i].name)], gs[i].subGroups) {
        assert i > 0 ==> gs[i] == gs[1..][i - 1];
      }
      SameClients(s, t, realm, gs[0].clientRoles);
    }
  }

  lemma SameClients(s: Server, t: Server, realm: string, entries: ClientRoles)
    requires OnlyGroupsAdded(s, t)
    ensures forall kind, holder, roles, m ::
        Declares(s, realm, kind, holder, roles, entries, m) == Declares(t, realm, kind, holder, roles, entries, m)
  {
    assert forall k: Key :: k.Client? ==> Lookup(s, k) == Lookup(t, k);
    SameObjects(s, t, realm, entries);
  }

  /** Groups and grants do not matter to which roles and clients there are. */
  lemma SameRoles(s: Server, t: Server, realm: string, roles: seq<string>, entries: ClientRoles)
    requires OnlyGroupsAdded(s, t)
    ensures RolesExist(s, realm, "", roles) <==> RolesExist(t, realm, "", roles)
    ensures EntriesExist(s, realm, entries) <==> EntriesExist(t, realm, entries)
  {
    assert forall k: Key :: !k.Group? ==> Lookup(s, k) == Lookup(t, k);
    forall e | e in entries ensures EntryExists(s, realm, e) <==> EntryExists(t, realm, e) {
      assert Lookup(s, Client(realm, e.0)) == Lookup(t, Client(realm, e.0));
    }
  }

  lemma {:induction false} TreeRolesAlike(s: Server, t: Server, realm: string, gs: seq<GroupConfig>)
    requires OnlyGroupsAdded(s, t)
    ensures TreeRolesExist(s, realm, gs) <==> TreeRolesExist(t, realm, gs)
    decreases gs
  {
    forall i | 0 <= i < |gs|
      ensures RolesExist(s, realm, "", gs[i].realmRoles) <==> RolesExist(t, realm, "", gs[i].realmRoles)
      ensures EntriesExist(s, realm, gs[i].clientRoles) <==> EntriesExist(t, realm, gs[i].clientRoles)
      ensures TreeRolesExist(s, realm, gs[i].subGroups) <==> TreeRolesExist(t, realm, gs[i].subGroups)
    {
      SameRoles(s, t, realm, gs[i].realmRoles, gs[i].clientRoles);
      TreeRolesAlike(s, t, realm, gs[i].subGroups);
    }
  }

  /** The server knows `id` as the group `k`. */
  ghost predicate KnownGroup(s: Server, k: Key, id: Id) {
    Lookup(s, k) == Some(id) && ParentOk(s, k.realm, id) && !Unborn(s, id)
  }

  lemma GroupIsKnown(s: Server, k: Key)
    requires ObjectsOk(s) && OwnersOk(s) && k.Group? && k in s.objects
    ensures KnownGroup(s, k, s.objects[k])
  {}

  lemma GroupIsAdded(s: Server, k: Key)
    requires Directory.WellFormed(s) && Accepts(s, k) && k.Group?
    ensures
      var t := Add(s, k);
      && Directory.WellFormed(t) && OnlyGroupsAdded(s, t) && KnownGroup(t, k, ServerId(s.next))
      && t.objects.Keys == s.objects.Keys + {k}
      && forall m :: Mapped(t, m) == Mapped(s, m)
  {
    hide PathsOk, PathOf, MappingsOk, ParentOk, KnownGroup;
    AddKeeps(s, k);
    GroupIsKnown(Add(s, k), k);
  }

  /** Creating or updating one group: it exists afterwards, under an id the server knows as that group. */
  lemma ReconcileGroupLive(a: Api, realm: string, parent: Id, name: string, createOnly: bool)
    requires IsLive(a) && realm in a.server.realms && ParentOk(a.server, realm, parent)
    ensures
      var (b, id) := ReconcileGroup(a, realm, parent, name, createOnly);
      var k := GroupKey(realm, parent, name);
      && id.Some? && IsLive(b) && OnlyGroupsAdded(a.server, b.server)
      && Lookup(b.server, k) == id && ParentOk(b.server, realm, id.value) && !Unborn(b.server, id.value)
      && b.server.objects.Keys == a.server.objects.Keys + {k}
      && forall m :: Mapped(b.server, m) == Mapped(a.server, m)
  {
    hide OwnersOk, PathsOk, PathOf, MappingsOk, ObjectsOk, Add;
    var k := GroupKey(realm, parent, name);
    if k in a.server.objects {
      GroupIsKnown(a.server, k);
    } else {
      GroupIsAdded(a.server, k);
    }
  }

  /** One group and what is below it. */
  ghost predicate GroupDone(a: Api, b: Api, status: Status, realm: string, parent: Id, gs: seq<GroupConfig>) {
    && IsLive(b) && OnlyGroupsAdded(a.server, b.server) && status != Refused
    && (status == Done ==> TreeIsThere(a.server, b.server, realm, parent, gs))
  }

  /** The group itself is there with its roles; what is below it has not been looked at. */
  ghost predicate RootDone(a: Api, c: Api, status: Status, realm: string, parent: Id, g: GroupConfig, id: Id) {
    var s, t, k := a.server, c.server, GroupKey(realm, parent, g.name);
    && IsLive(c) && OnlyGroupsAdded(s, t) && status != Refused
    && Lookup(t, k) == Some(id) && ParentOk(t, realm, id) && t.objects.Keys == s.objects.Keys + {k}
    && (RolesExist(s, realm, "", g.realmRoles) && EntriesExist(s, realm, g.clientRoles) <==> status == Done)
    && (status == Done ==> forall m ::
          Mapped(t, m) == Mapped(s, m) + Declares(s, realm, Groups, id, g.realmRoles, g.clientRoles, m))
  }

  lemma EnsureRootLive(a: Api, realm: string, parent: Id, g: GroupConfig, createOnly: bool)
    requires IsLive(a) && realm in a.server.realms && ParentOk(a.server, realm, parent)
    ensures
      var (b, id) := ReconcileGroup(a, realm, parent, g.name, createOnly);
      id.Some? &&
      var (c, status) := EnsureRoleMappings(b, realm, Groups, id.value, g.realmRoles, g.clientRoles);
      RootDone(a, c, status, realm, parent, g, id.value)
  {
    ReconcileGroupLive(a, realm, parent, g.name, createOnly);
    var (b, id) := ReconcileGroup(a, realm, parent, g.name, createOnly);
    EnsureRoleMappingsLive(b, realm, Groups, id.value, g.realmRoles, g.clientRoles);
    var (c, status) := EnsureRoleMappings(b, realm, Groups, id.value, g.realmRoles, g.clientRoles);
    hide Directory.WellFormed, ReconcileGroup, EnsureRoleMappings, Declares, RolesExist, EntriesExist;
    OnlyGroupsTwice(a.server, b.server, c.server);
    SameClients(a.server, b.server, realm, g.clientRoles);
    SameRoles(a.server, b.server, realm, g.realmRoles, g.clientRoles);
    if status == Done {
      forall m
        ensures Mapped(c.server, m) == Mapped(a.server, m) +
            Declares(a.server, realm, Groups, id.value, g.realmRoles, g.clientRoles, m)
      {
        assert Mapped(b.server, m) == Mapped(a.server, m);
      }
    }
  }

  /** A tree is its root and what is below it. */
  lemma Unfold(s: Server, realm: string, parent: Id, gs: seq<GroupConfig>)
    requires gs != [] && GroupKey(realm, parent, gs[0].name) in s.objects
    ensures
      var g, rest := gs[0], gs[1..];
      var k := GroupKey(realm, parent, g.name);
      var id := s.objects[k];
      && (Placed(s, realm, parent, gs) <==> Placed(s, realm, id, g.subGroups) && Placed(s, realm, parent, rest))
      && NodeKeys(s, realm, parent, gs) == {k} + NodeKeys(s, realm, id, g.subGroups) + NodeKeys(s, realm, parent, rest)
      && forall m :: TreeDeclares(s, realm, parent, gs, m) ==
           Declares(s, realm, Groups, id, g.realmRoles, g.clientRoles, m) + TreeDeclares(s, realm, id, g.subGroups, m)
           + TreeDeclares(s, realm, parent, rest, m)
  {
    var rest := gs[1..];
    assert forall i :: 0 <= i < |rest| ==> rest[i] == gs[i + 1];
    if Placed(s, realm, s.objects[GroupKey(realm, parent, gs[0].name)], gs[0].subGroups) &&
        Placed(s, realm, parent, rest) {
      forall i | 0 <= i < |gs|
        ensures GroupKey(realm, parent, gs[i].name) in s.objects
                && Placed(s, realm, s.objects[GroupKey(realm, parent, gs[i].name)], gs[i].subGroups)
      {
        assert i > 0 ==> gs[i] == rest[i - 1];
      }
    }
  }

  /** A group and then what is below it make a tree of one root. */
  lemma RootAndBelow(s: Server, t: Server, u: Server, realm: string, parent: Id, g: GroupConfig, id: Id)
    requires OnlyGroupsAdded(s, t) && OnlyGroupsAdded(t, u) && OnlyGroupsAdded(s, u)
    requires Lookup(t, GroupKey(realm, parent, g.name)) == Some(id)
    requires t.objects.Keys == s.objects.Keys + {GroupKey(realm, parent, g.name)}
    requires forall m :: Mapped(t, m) == Mapped(s, m) + Declares(s, realm, Groups, id, g.realmRoles, g.clientRoles, m)
    requires TreeIsThere(t, u, realm, id, g.subGroups)
    ensures TreeIsThere(s, u, realm, parent, [g])
  {
    assert GroupKey(realm, parent, g.name) in t.objects && [g][0] == g && [g][1..] == [];
    Unfold(u, realm, parent, [g]);
    SameClients(s, u, realm, g.clientRoles);
    forall m ensures Mapped(u, m) == Mapped(s, m) + TreeDeclares(u, realm, parent, [g], m) {
      assert Mapped(u, m) == Mapped(t, m) + TreeDeclares(u, realm, id, g.subGroups, m);
    }
  }

  /** One tree and then its siblings. */
  lemma TreeAndSiblings(s: Server, u: Server, v: Server, realm: string, parent: Id, gs: seq<GroupConfig>)
    requires gs != [] && OnlyGroupsAdded(u, v)
    requires TreeIsThere(s, u, realm, parent, [gs[0]]) && TreeIsThere(u, v, realm, parent, gs[1..])
    ensures TreeIsThere(s, v, realm, parent, gs)
  {
    var one := [gs[0]];
    assert one[0] == gs[0] && one[1..] == [];
    PlacedStays(u, v, realm, parent, one);
    Unfold(v, realm, parent, one);
    Unfold(v, realm, parent, gs);
    forall m ensures Mapped(v, m) == Mapped(s, m) + TreeDeclares(v, realm, parent, gs, m) {
      assert Mapped(u, m) == Mapped(s, m) + TreeDeclares(v, realm, parent, one, m);
    }
  }

  lemma {:induction false} EnsureGroupLive(a: Api, realm: string, parent: Id, g: GroupConfig, createOnly: bool)
    requires IsLive(a) && realm in a.server.realms && ParentOk(a.server, realm, parent)
    ensures
      var (b, status) := EnsureGroup(a, realm, parent, g, createOnly);
      GroupDone(a, b, status, realm, parent, [g])
    decreases g
  {
    hide *;
    EnsureGroupStep(a, realm, parent, g, createOnly);
    EnsureRootLive(a, realm, parent, g, createOnly);
    var (b, id) := ReconcileGroup(a, realm, parent, g.name, createOnly);
    var (c, s1) := EnsureRoleMappings(b, realm, Groups, id.value, g.realmRoles, g.clientRoles);
    RootFacts(a, c, s1, realm, parent, g, id.value);
    if s1 == Done {
      EnsureGroupsLive(c, realm, id.value, g.subGroups, createOnly);
      var (d, s2) := EnsureGroups(c, realm, id.value, g.subGroups, createOnly);
      GroupFromRoot(a, c, d, s2, realm, parent, g, id.value);
    }
  }

  lemma RootFacts(a: Api, c: Api, status: Status, realm: string, parent: Id, g: GroupConfig, id: Id)
    requires RootDone(a, c, status, realm, parent, g, id)
    ensures IsLive(c) && ParentOk(c.server, realm, id) && a.server.realms == c.server.realms
    ensures OnlyGroupsAdded(a.server, c.server)
    ensures RolesExist(a.server, realm, "", g.realmRoles) && EntriesExist(a.server, realm, g.clientRoles) <==>
        status == Done
    ensures status != Done ==> GroupDone(a, c, status, realm, parent, [g])
  {}

  lemma GroupFromRoot(a: Api, c: Api, d: Api, status: Status, realm: string, parent: Id, g: GroupConfig, id: Id)
    requires RootDone(a, c, Done, realm, parent, g, id) && GroupDone(c, d, status, realm, id, g.subGroups)
    ensures GroupDone(a, d, status, realm, parent, [g])
  {
    OnlyGroupsTwice(a.server, c.server, d.server);
    if status == Done {
      RootAndBelow(a.server, c.server, d.server, realm, parent, g, id);
    }
  }

  /** After a run every configured group is in its place, groups were created exactly where they were missing, every
      other group keeps its id and parent, and the lists hold what they held plus what the trees declare. */
  lemma {:induction false} EnsureGroupsLive(a: Api, realm: string, parent: Id, gs: seq<GroupConfig>, createOnly: bool)
    requires IsLive(a) && realm in a.server.realms && ParentOk(a.server, realm, parent)
    ensures
      var (b, status) := EnsureGroups(a, realm, parent, gs, createOnly);
      GroupDone(a, b, status, realm, parent, gs)
    decreases gs
  {
    if gs != [] {
      EnsureGroupLive(a, realm, parent, gs[0], createOnly);
      var (b, s1) := EnsureGroup(a, realm, parent, gs[0], createOnly);
      if s1 == Done {
        EnsureGroupsLive(b, realm, parent, gs[1..], createOnly);
        var (c, s2) := EnsureGroups(b, realm, parent, gs[1..], createOnly);
        OnlyGroupsTwice(a.server, b.server, c.server);
        if s2 == Done {
          TreeAndSiblings(a.server, b.server, c.server, realm, parent, gs);
        }
      }
    }
  }

  lemma {:induction false} EnsureGroupSucceeds(a: Api, realm: string, parent: Id, g: GroupConfig, createOnly: bool)
    requires IsLive(a) && realm in a.server.realms && ParentOk(a.server, realm, parent)
    ensures EnsureGroup(a, realm, parent, g, createOnly).1 == Done <==> TreeRolesExist(a.server, realm, [g])
    decreases g
  {
    hide *;
    EnsureGroupStep(a, realm, parent, g, createOnly);
    EnsureRootLive(a, realm, parent, g, createOnly);
    TreeRolesSplit(a.server, realm, [g]);
    var (b, id) := ReconcileGroup(a, realm, parent, g.name, createOnly);
    var (c, s1) := EnsureRoleMappings(b, realm, Groups, id.value, g.realmRoles, g.clientRoles);
    RootFacts(a, c, s1, realm, parent, g, id.value);
    if s1 == Done {
      TreeRolesAlike(a.server, c.server, realm, g.subGroups);
      EnsureGroupsSucceeds(c, realm, id.value, g.subGroups, createOnly);
    }
  }

  /** A run over trees of groups goes through exactly when every role they name exists. */
  lemma {:induction false} EnsureGroupsSucceeds(a: Api, realm: string, parent: Id, gs: seq<GroupConfig>,
      createOnly: bool)
    requires IsLive(a) && realm in a.server.realms && ParentOk(a.server, realm, parent)
    ensures EnsureGroups(a, realm, parent, gs, createOnly).1 == Done <==> TreeRolesExist(a.server, realm, gs)
    decreases gs
  {
    hide *;
    EnsureGroupsStep(a, realm, parent, gs, createOnly);
    TreeRolesSplit(a.server, realm, gs);
    if gs != [] {
      EnsureGroupLive(a, realm, parent, gs[0], createOnly);
      EnsureGroupSucceeds(a, realm, parent, gs[0], createOnly);
      var (b, status) := EnsureGroup(a, realm, parent, gs[0], createOnly);
      GroupDoneFacts(a, b, status, realm, parent, [gs[0]]);
      TreeRolesSplit(a.server, realm, [gs[0]]);
      TreeRolesAlike(a.server, b.server, realm, gs[1..]);
      if status == Done {
        EnsureGroupsSucceeds(b, realm, parent, gs[1..], createOnly);
      }
    }
  }

  lemma TreeRolesSplit(s: Server, realm: string, gs: seq<GroupConfig>)
    ensures gs == [] ==> TreeRolesExist(s, realm, gs)
    ensures gs != [] ==>
              (TreeRolesExist(s, realm, gs) <==>
               && RolesExist(s, realm, "", gs[0].realmRoles) && EntriesExist(s, realm, gs[0].clientRoles)
               && TreeRolesExist(s, realm, gs[0].subGroups) && TreeRolesExist(s, realm, gs[1..]))
    ensures |gs| == 1 ==> gs[1..] == [] && TreeRolesExist(s, realm, gs[1..])
  {
    if gs != [] {
      assert forall i :: 0 <= i < |gs[1..]| ==> gs[1..][i] == gs[i + 1];
      assert forall i :: 0 < i < |gs| ==> gs[i] == gs[1..][i - 1];
    }
  }

  lemma GroupDoneFacts(a: Api, b: Api, status: Status, realm: string, parent: Id, gs: seq<GroupConfig>)
    requires GroupDone(a, b, status, realm, parent, gs) && ParentOk(a.server, realm, parent)
    ensures IsLive(b) && OnlyGroupsAdded(a.server, b.server) && b.server.realms == a.server.realms
    ensures ParentOk(b.server, realm, parent)
  {}

  // ---------- finding a group by its path ----------

  /** Walking down from `parent`, one name a level. */
  function Walk(a: Api, realm: string, parent: Id, names: seq<string>): Option<Id>
    decreases |names|
  {
    if names == [] then Some(parent)
    else
      match Peek(a, GroupKey(realm, parent, names[0]))
      case None => None
      case Some(id) => Walk(a, realm, id, names[1..])
  }

  /** The walk over the path's segments; None when the path leads nowhere. */
  method ResolveGroupPath(port: Port, realm: string, path: string) returns (id: Option<Id>)
    ensures id == Walk(port.api, realm, "", ConfigMaps.PathNames(path))
  {
    var names := ConfigMaps.PathNames(path);
    var parent := "";
    for i := 0 to |names|
      invariant Walk(port.api, realm, "", names) == Walk(port.api, realm, parent, names[i..])
    {
      assert names[i..][0] == names[i] && names[i..][1..] == names[i + 1..];
      var found := port.FindGroup(realm, parent, names[i]);
      if found.None? {
        return None;
      }
      parent := found.value;
    }
    id := Some(parent);
  }

  lemma {:induction false} WalkOneMore(a: Api, realm: string, parent: Id, names: seq<string>, name: string)
    ensures Walk(a, realm, parent, names + [name]) ==
            match Walk(a, realm, parent, names) case None => None case Some(p) => Peek(a, GroupKey(realm, p, name))
    decreases |names|
  {
    var all := names + [name];
    if names == [] {
      assert all[1..] == [];
    } else {
      assert all[0] == names[0] && all[1..] == names[1..] + [name];
      var next := Peek(a, GroupKey(realm, parent, names[0]));
      if next.Some? {
        WalkOneMore(a, realm, next.value, names[1..], name);
      }
    }
  }

  lemma WalkNowhere(a: Api, realm: string, parent: Id)
    ensures Walk(a, realm, parent, []) == Some(parent)
  {}

  /** What the server knows of one group: it is its parent's child, at its parent's path and its own name. */
  lemma GroupFacts(s: Server, id: Id)
    requires ObjectsOk(s) && OwnersOk(s) && PathsOk(s) && id in s.paths
    ensures
      var k := s.owner[id];
      && id in s.owner && k.Group? && Lookup(s, k) == Some(id) && s.paths[id] == PathOf(s, k.parent) + [k.name]
      && (k.parent == "" || (k.parent in s.paths && s.owner[k.parent].realm == k.realm))
    ensures "" !in s.paths && PathOf(s, "") == [] && s.paths[id] != []
  {
    assert s.owner[id] in s.objects && ContainerKnown(s, s.owner[id]);
  }

  lemma FoundIsKnown(s: Server, realm: string, parent: Id, name: string, id: Id)
    requires ObjectsOk(s) && OwnersOk(s) && PathsOk(s) && Lookup(s, GroupKey(realm, parent, name)) == Some(id)
    ensures id in s.paths && s.owner[id] == GroupKey(realm, parent, name)
  {}

  lemma {:induction false} WalkReachesPath(a: Api, realm: string, names: seq<string>, id: Id)
    requires IsLive(a) && names != [] && Walk(a, realm, "", names) == Some(id)
    ensures id in a.server.paths && a.server.owner[id].realm == realm && a.server.paths[id] == names
    decreases |names|
  {
    hide ObjectsOk, OwnersOk, PathsOk, MappingsOk, MembershipsOk, Walk;
    var s, front, last := a.server, names[..|names| - 1], names[|names| - 1];
    assert names == front + [last];
    WalkOneMore(a, realm, "", front, last);
    WalkNowhere(a, realm, "");
    var up := Walk(a, realm, "", front).value;
    FoundIsKnown(s, realm, up, last, id);
    GroupFacts(s, id);
    if front != [] {
      WalkReachesPath(a, realm, front, up);
    }
  }

  lemma {:induction false} PathIsWalked(a: Api, realm: string, id: Id)
    requires IsLive(a) && id in a.server.paths && a.server.owner[id].realm == realm
    ensures Walk(a, realm, "", a.server.paths[id]) == Some(id)
    decreases |PathOf(a.server, id)|
  {
    hide ObjectsOk, OwnersOk, PathsOk, MappingsOk, MembershipsOk, Walk;
    var s := a.server;
    GroupFacts(s, id);
    var k := s.owner[id];
    WalkOneMore(a, realm, "", PathOf(s, k.parent), k.name);
    WalkNowhere(a, realm, "");
    if k.parent != "" {
      PathIsWalked(a, realm, k.parent);
    }
  }

  /** Walking by names finds a group exactly when the server gives that group this path. */
  lemma WalkFollowsPaths(a: Api, realm: string, names: seq<string>, id: Id)
    requires IsLive(a) && names != []
    ensures Walk(a, realm, "", names) == Some(id) <==>
            id in a.server.paths && a.server.owner[id].realm == realm && a.server.paths[id] == names
  {
    if Walk(a, realm, "", names) == Some(id) {
      WalkReachesPath(a, realm, names, id);
    }
    assert PathsOk(a.server);
    if id in a.server.paths && a.server.owner[id].realm == realm && a.server.paths[id] == names {
      PathIsWalked(a, realm, id);
    }
  }

  /** `names` leads from the top of the config trees to a group they declare. */
  predicate Leads(gs: seq<GroupConfig>, names: seq<string>)
    decreases |names|
  {
    && names != []
    && exists i ::
         0 <= i < |gs| && gs[i].name == names[0] && (|names| == 1 || Leads(gs[i].subGroups, names[1..]))
  }

  lemma {:induction false} PlacedCanBeWalked(a: Api, realm: string, parent: Id, gs: seq<GroupConfig>,
      names: seq<string>)
    requires a.overlay.None? && Placed(a.server, realm, parent, gs) && Leads(gs, names)
    ensures Walk(a, realm, parent, names).Some?
    decreases |names|
  {
    var i :| 0 <= i < |gs| && gs[i].name == names[0] && (|names| == 1 || Leads(gs[i].subGroups, names[1..]));
    var id := a.server.objects[GroupKey(realm, parent, names[0])];
    if |names| > 1 {
      PlacedCanBeWalked(a, realm, id, gs[i].subGroups, names[1..]);
    } else {
      assert names[1..] == [];
    }
  }

  lemma LeadsByFirst(gs: seq<GroupConfig>, names: seq<string>)
    requires gs != []
    ensures Leads(gs, [gs[0].name])
    ensures Leads(gs[0].subGroups, names) ==> Leads(gs, [gs[0].name] + names)
    ensures Leads(gs[1..], names) ==> Leads(gs, names)
  {
    assert ([gs[0].name] + names)[1..] == names;
    if Leads(gs[1..], names) {
      var i :| 0 <= i < |gs[1..]| && gs[1..][i].name == names[0]
               && (|names| == 1 || Leads(gs[1..][i].subGroups, names[1..]));
      assert gs[i + 1] == gs[1..][i];
    }
  }

  lemma NodePathStep(s: Server, realm: string, parent: Id, gs: seq<GroupConfig>, k: Key)
    requires ObjectsOk(s) && OwnersOk(s) && PathsOk(s) && Placed(s, realm, parent, gs)
    requires k in NodeKeys(s, realm, parent, gs)
    ensures gs != []
    ensures
      var first := GroupKey(realm, parent, gs[0].name);
      && first in s.objects && PathOf(s, s.objects[first]) == PathOf(s, parent) + [gs[0].name]
      && Placed(s, realm, s.objects[first], gs[0].subGroups) && Placed(s, realm, parent, gs[1..])
      && (k == first || k in NodeKeys(s, realm, s.objects[first], gs[0].subGroups)
          || k in NodeKeys(s, realm, parent, gs[1..]))
  {
    Unfold(s, realm, parent, gs);
    hide ObjectsOk, OwnersOk, PathsOk;
    var id := s.objects[GroupKey(realm, parent, gs[0].name)];
    FoundIsKnown(s, realm, parent, gs[0].name, id);
    GroupFacts(s, id);
  }

  /** The config's names lead to each of its groups, by the path the server gives it. */
  lemma {:induction false} NodePath(s: Server, realm: string, parent: Id, gs: seq<GroupConfig>, k: Key)
      returns (names: seq<string>)
    requires ObjectsOk(s) && OwnersOk(s) && PathsOk(s) && Placed(s, realm, parent, gs)
    requires k in NodeKeys(s, realm, parent, gs)
    ensures k in s.objects && Leads(gs, names) && PathOf(s, s.objects[k]) == PathOf(s, parent) + names
    decreases gs
  {
    hide *;
    NodePathStep(s, realm, parent, gs, k);
    var first := GroupKey(realm, parent, gs[0].name);
    var id := s.objects[first];
    if k == first {
      names := [gs[0].name];
      LeadsByFirst(gs, names);
    } else if k in NodeKeys(s, realm, id, gs[0].subGroups) {
      var below := NodePath(s, realm, id, gs[0].subGroups, k);
      names := [gs[0].name] + below;
      assert PathOf(s, parent) + names == (PathOf(s, parent) + [gs[0].name]) + below;
      LeadsByFirst(gs, below);
    } else {
      names := NodePath(s, realm, parent, gs[1..], k);
      LeadsByFirst(gs, names);
    }
  }

  /** A group that was there has the path it had. */
  lemma OldPathIsWalked(a: Api, b: Api, realm: string, names: seq<string>, k: Key)
    requires IsLive(a) && IsLive(b) && Grows(a.server, b.server) && k.Group? && k.realm == realm
    requires k in a.server.objects && names != [] && PathOf(b.server, b.server.objects[k]) == names
    ensures Walk(a, realm, "", names).Some?
  {
    hide MappingsOk, MembershipsOk, Walk;
    FoundIsKnown(a.server, realm, k.parent, k.name, a.server.objects[k]);
    PathIsWalked(a, realm, a.server.objects[k]);
  }

  lemma WalkStays(a: Api, b: Api, realm: string, names: seq<string>)
    requires IsLive(a) && IsLive(b) && Grows(a.server, b.server) && names != []
    requires Walk(a, realm, "", names).Some?
    ensures Walk(b, realm, "", names).Some?
  {
    hide Walk, ObjectsOk, OwnersOk, PathsOk, MappingsOk, MembershipsOk;
    var id := Walk(a, realm, "", names).value;
    WalkReachesPath(a, realm, names, id);
    GroupFacts(a.server, id);
    PathIsWalked(b, realm, id);
  }

  /** Afterwards a walk leads somewhere exactly when it did before or the config's names lead there. */
  lemma WalkMeansLeads(a: Api, b: Api, realm: string, gs: seq<GroupConfig>, names: seq<string>)
    requires IsLive(a) && IsLive(b) && Grows(a.server, b.server) && TreeIsThere(a.server, b.server, realm, "", gs)
    requires names != []
    ensures Walk(b, realm, "", names).Some? <==> Leads(gs, names) || Walk(a, realm, "", names).Some?
  {
    hide ObjectsOk, OwnersOk, PathsOk, Leads, Placed, NodeKeys, Walk, Grows;
    var s := b.server;
    if Leads(gs, names) {
      PlacedCanBeWalked(b, realm, "", gs, names);
    }
    if Walk(a, realm, "", names).Some? {
      WalkStays(a, b, realm, names);
    }
    if Walk(b, realm, "", names).Some? {
      var id := Walk(b, realm, "", names).value;
      WalkReachesPath(b, realm, names, id);
      GroupFacts(s, id);
      var k := s.owner[id];
      if k in a.server.objects {
        OldPathIsWalked(a, b, realm, names, k);
      } else {
        var found := NodePath(s, realm, "", gs, k);
        assert [] + found == found;
      }
    }
  }

  /** The path of every configured group, written out, resolves to the group the server has at that path. */
  lemma ConfiguredPathsResolve(a: Api, realm: string, gs: seq<GroupConfig>, names: seq<string>, createOnly: bool)
    requires IsLive(a) && realm in a.server.realms && EnsureGroups(a, realm, "", gs, createOnly).1 == Done
    requires Leads(gs, names) && ConfigMaps.SlashFree(names)
    ensures
      var b := EnsureGroups(a, realm, "", gs, createOnly).0;
      var path := ConfigMaps.NormalizeGroupPath(Join(names, "/"));
      var id := Walk(b, realm, "", ConfigMaps.PathNames(path));
      IsLive(b) && id.Some? && id.value in b.server.paths && b.server.owner[id.value].realm == realm &&
        b.server.paths[id.value] == names
  {
    EnsureGroupsLive(a, realm, "", gs, createOnly);
    var b := EnsureGroups(a, realm, "", gs, createOnly).0;
    ConfigMaps.GroupPathRoundTrip(names);
    PlacedCanBeWalked(b, realm, "", gs, names);
    WalkFollowsPaths(b, realm, names, Walk(b, realm, "", names).value);
  }
}
