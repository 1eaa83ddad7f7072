/** What the server holds of realms, clients, roles, groups and users, and the two ways to reach it:
    directly, or through the dry-run overlay (internal/provisioner/api.go, internal/provisioner/dryrun.go). */
module Directory {
  import opened Text
  import opened Ids

  const REALM_MANAGEMENT := "realm-management"

  /** What a lookup or a create request addresses. `parent` is "" for a top-level group. */
  datatype Key =
    | Client(realm: string, clientId: string)
    | RealmRole(realm: string, name: string)
    | ClientRole(realm: string, client: Id, name: string)
    | ClientScope(realm: string, name: string)
    | Group(realm: string, parent: Id, name: string)
    | User(realm: string, username: string)
    | ServiceAccount(realm: string, client: Id)

  /** The id inside the address, if there is one. */
  function Container(k: Key): Id {
    match k
    case ClientRole(_, client, _) => client
    case Group(_, parent, _) => parent
    case ServiceAccount(_, client) => client
    case _ => ""
  }

  /** Roles are granted to users and groups, and put in the scope of clients and client scopes, by endpoints of one
      shape. */
  datatype HolderKind = Users | Groups | Clients | ClientScopes

  /** One role-mapping list: realm roles when `client` is "", that client's roles otherwise. */
  datatype Mapping = Mapping(realm: string, kind: HolderKind, holder: Id, client: Id)

  datatype RoleRef = RoleRef(id: Id, name: string)

  /** A user in a group. */
  datatype Membership = Membership(user: Id, group: Id)

  function RoleKey(realm: string, client: Id, name: string): Key {
    if client == "" then RealmRole(realm, name) else ClientRole(realm, client, name)
  }

  // ---------- the server ----------

  /** `owner` says what an id belongs to, `paths` the path of a group; role mappings hold role names. */
  datatype Server = Server(
    realms: set<string>, objects: map<Key, Id>, owner: map<Id, Key>, paths: map<Id, seq<string>>,
    mappings: map<Mapping, set<string>>, memberships: set<Membership>, next: nat)

  function Lookup(s: Server, k: Key): Option<Id> {
    if k in s.objects then Some(s.objects[k]) else None
  }

  function Mapped(s: Server, m: Mapping): set<string> {
    if m in s.mappings then s.mappings[m] else {}
  }

  function PathOf(s: Server, group: Id): seq<string> {
    if group in s.paths then s.paths[group] else []
  }

  predicate ContainerKnown(s: Server, k: Key) {
    match k
    case ClientRole(r, c, _) => c in s.owner && s.owner[c].Client? && s.owner[c].realm == r
    case ServiceAccount(r, c) => c in s.owner && s.owner[c].Client? && s.owner[c].realm == r
    case Group(r, p, _) => p == "" || (p in s.owner && s.owner[p].Group? && s.owner[p].realm == r)
    case _ => true
  }

  /** A create request for a taken name, an unknown realm or an unknown container is refused. */
  predicate Accepts(s: Server, k: Key) {
    k.realm in s.realms && k !in s.objects && ContainerKnown(s, k)
  }

  function Add(s: Server, k: Key): Server {
    var id := ServerId(s.next);
    s.(objects := s.objects[k := id], owner := s.owner[id := k], next := s.next + 1,
       paths := if k.Group? then s.paths[id := PathOf(s, k.parent) + [k.name]] else s.paths)
  }

  /** A client with a service account gets a user to go with it. */
  function WithServiceAccount(s: Server, k: Key, enabled: bool): Server
    requires k.Client? && k in s.objects
  {
    var sa := ServiceAccount(k.realm, s.objects[k]);
    if enabled && sa !in s.objects then Add(s, sa) else s
  }

  /** Every realm comes with a realm-management client. */
  function AddRealm(s: Server, realm: string): Server {
    Add(s.(realms := s.realms + {realm}), Client(realm, REALM_MANAGEMENT))
  }

  /** The id belongs to something that can hold roles of this kind. */
  predicate HolderKnown(s: Server, m: Mapping) {
    m.holder in s.owner &&
    match m.kind
    case Users => s.owner[m.holder].User? || s.owner[m.holder].ServiceAccount?
    case Groups => s.owner[m.holder].Group?
    case Clients => s.owner[m.holder].Client?
    case ClientScopes => s.owner[m.holder].ClientScope?
  }

  predicate AcceptsMapping(s: Server, m: Mapping, refs: seq<RoleRef>) {
    && m.realm in s.realms && HolderKnown(s, m)
    && forall i :: 0 <= i < |refs| ==> Lookup(s, RoleKey(m.realm, m.client, refs[i].name)) == Some(refs[i].id)
  }

  function Names(refs: seq<RoleRef>): (r: set<string>)
    ensures forall n :: n in r <==> exists i :: 0 <= i < |refs| && refs[i].name == n
  {
    set i | 0 <= i < |refs| :: refs[i].name
  }

  function AddMapping(s: Server, m: Mapping, refs: seq<RoleRef>): Server {
    s.(mappings := s.mappings[m := Mapped(s, m) + Names(refs)])
  }

  predicate AcceptsMember(s: Server, m: Membership) {
    && m.user in s.owner && (s.owner[m.user].User? || s.owner[m.user].ServiceAccount?)
    && m.group in s.owner && s.owner[m.group].Group? && s.owner[m.group].realm == s.owner[m.user].realm
  }

  /** A group's path as the server writes it. */
  function PathText(names: seq<string>): string {
    "/" + Join(names, "/")
  }

  // ---------- what every reachable server state satisfies ----------

  ghost predicate Unborn(s: Server, id: Id) {
    exists n: nat :: n >= s.next && id == ServerId(n)
  }

  ghost predicate ObjectsOk(s: Server) {
    forall k :: k in s.objects ==>
      && k.realm in s.realms && ContainerKnown(s, k)
      && s.objects[k] in s.owner && s.owner[s.objects[k]] == k
  }

  ghost predicate OwnersOk(s: Server) {
    forall id :: id in s.owner ==>
      && id != "" && !IsSyntheticID(id) && !Unborn(s, id)
      && s.owner[id] in s.objects && s.objects[s.owner[id]] == id
  }

  /** Group ids and group paths determine each other within a realm. */
  ghost predicate PathsOk(s: Server) {
    && (forall id :: id in s.paths ==> id in s.owner && s.owner[id].Group?)
    && (forall id :: id in s.owner && s.owner[id].Group? ==>
          id in s.paths && s.paths[id] == PathOf(s, s.owner[id].parent) + [s.owner[id].name])
    && (forall i, j :: i in s.paths && j in s.paths && s.owner[i].realm == s.owner[j].realm && s.paths[i] == s.paths[j]
          ==> i == j)
  }

  /** Lists hold roles that exist. */
  ghost predicate MappingsOk(s: Server) {
    forall m :: m in s.mappings ==>
      && m.realm in s.realms && !Unborn(s, m.holder) && !Unborn(s, m.client)
      && forall n :: n in s.mappings[m] ==> RoleKey(m.realm, m.client, n) in s.objects
  }

  ghost predicate MembershipsOk(s: Server) {
    forall m :: m in s.memberships ==> AcceptsMember(s, m)
  }

  ghost predicate WellFormed(s: Server) {
    ObjectsOk(s) && OwnersOk(s) && PathsOk(s) && MappingsOk(s) && MembershipsOk(s)
  }

  /** Nothing is deleted, renamed, moved or revoked. */
  ghost predicate Grows(s: Server, t: Server) {
    && s.realms <= t.realms && s.next <= t.next
    && (forall k :: k in s.objects ==> k in t.objects && t.objects[k] == s.objects[k])
    && (forall id :: id in s.owner ==> id in t.owner && t.owner[id] == s.owner[id])
    && (forall id :: id in s.paths ==> id in t.paths && t.paths[id] == s.paths[id])
    && (forall m :: Mapped(s, m) <= Mapped(t, m))
    && s.memberships <= t.memberships
  }

  lemma GrowsTransitive(s: Server, t: Server, u: Server)
    requires Grows(s, t) && Grows(t, u)
    ensures Grows(s, u)
  {
    forall m ensures Mapped(s, m) <= Mapped(u, m) {
      assert Mapped(s, m) <= Mapped(t, m);
    }
  }

  lemma UnbornLater(s: Server, t: Server, id: Id)
    requires s.next <= t.next
    ensures Unborn(t, id) ==> Unborn(s, id)
  {}

  lemma NextId(s: Server)
    requires OwnersOk(s) && ObjectsOk(s) && PathsOk(s)
    ensures ServerId(s.next) !in s.owner && ServerId(s.next) !in s.paths && ServerId(s.next) != ""
    ensures forall k :: k in s.objects ==> Container(k) != ServerId(s.next) && s.objects[k] != ServerId(s.next)
    ensures forall t: Server :: t.next == s.next + 1 ==> !Unborn(t, ServerId(s.next))
  {
    ServerIdInjective(s.next, s.next);
    assert Unborn(s, ServerId(s.next));
    forall k | k in s.objects ensures Container(k) != ServerId(s.next) && s.objects[k] != ServerId(s.next) {
      assert ContainerKnown(s, k);
    }
    forall t: Server | t.next == s.next + 1 ensures !Unborn(t, ServerId(s.next)) {
      forall n: nat | n >= t.next ensures ServerId(n) != ServerId(s.next) {
        ServerIdInjective(n, s.next);
      }
    }
  }

  /** Two groups of a realm with equal parent paths have the same parent. */
  lemma SameParent(s: Server, o: Key, k: Key)
    requires PathsOk(s) && o.Group? && k.Group? && o.realm == k.realm && ContainerKnown(s, o) && ContainerKnown(s, k)
    requires PathOf(s, o.parent) == PathOf(s, k.parent) && OwnersOk(s)
    ensures o.parent == k.parent
  {
    assert "" !in s.owner;
    assert forall p :: p in s.owner && s.owner[p].Group? ==> p in s.paths && s.paths[p] != [];
  }

  /** A path that is there stays, and so does that of a parent. */
  lemma PathsStay(s: Server, k: Key, o: Key)
    requires o.Group? && ContainerKnown(s, o) && ServerId(s.next) !in s.paths && ServerId(s.next) !in s.owner
    requires ServerId(s.next) != ""
    ensures PathOf(Add(s, k), o.parent) == PathOf(s, o.parent)
  {
    hide ServerId;
  }

  /** Every group, the new one included, has a path that extends its parent's. */
  lemma AddGivesPaths(s: Server, k: Key, i: Id)
    requires ObjectsOk(s) && OwnersOk(s) && PathsOk(s) && Accepts(s, k)
    requires i in Add(s, k).owner && Add(s, k).owner[i].Group?
    ensures
      var t := Add(s, k);
      i in t.paths && t.paths[i] == PathOf(t, t.owner[i].parent) + [t.owner[i].name]
  {
    hide OwnersOk, ServerId, PathOf;
    NextId(s);
    var o := Add(s, k).owner[i];
    if i != ServerId(s.next) {
      OwnerIsObject(s, i);
    }
    PathsStay(s, k, o);
  }

  lemma OwnerIsObject(s: Server, i: Id)
    requires ObjectsOk(s) && OwnersOk(s) && i in s.owner
    ensures s.owner[i] in s.objects && ContainerKnown(s, s.owner[i])
  {}

  /** The path of a group that is not there yet is nobody's path. */
  lemma NewPathIsFree(s: Server, k: Key, i: Id)
    requires ObjectsOk(s) && OwnersOk(s) && PathsOk(s) && Accepts(s, k) && k.Group?
    requires i in s.paths && s.owner[i].realm == k.realm
    ensures s.paths[i] != PathOf(s, k.parent) + [k.name]
  {
    var o, path := s.owner[i], PathOf(s, k.parent) + [k.name];
    assert o in s.objects && ContainerKnown(s, o);
    if s.paths[i] == path {
      assert path[|path| - 1] == k.name == o.name;
      assert PathOf(s, o.parent) == s.paths[i][..|path| - 1] == path[..|path| - 1] == PathOf(s, k.parent);
      SameParent(s, o, k);
    }
  }

  lemma PathsStayApart(s: Server, k: Key, i: Id, j: Id)
    requires ObjectsOk(s) && OwnersOk(s) && PathsOk(s) && Accepts(s, k)
    requires i in Add(s, k).paths && j in Add(s, k).paths && Add(s, k).owner[i].realm == Add(s, k).owner[j].realm
    requires Add(s, k).paths[i] == Add(s, k).paths[j]
    ensures i == j
  {
    NextId(s);
    if k.Group? && i in s.paths && j == ServerId(s.next) {
      NewPathIsFree(s, k, i);
    }
    if k.Group? && j in s.paths && i == ServerId(s.next) {
      NewPathIsFree(s, k, j);
    }
  }

  lemma PathsHaveOwners(s: Server, k: Key)
    requires ObjectsOk(s) && OwnersOk(s) && PathsOk(s) && Accepts(s, k)
    ensures forall i :: i in Add(s, k).paths ==> i in Add(s, k).owner && Add(s, k).owner[i].Group?
  {
    NextId(s);
  }

  lemma AddKeepsPaths(s: Server, k: Key)
    requires ObjectsOk(s) && OwnersOk(s) && PathsOk(s) && Accepts(s, k)
    ensures PathsOk(Add(s, k))
  {
    hide Add, PathOf, ObjectsOk, OwnersOk;
    var t := Add(s, k);
    PathsHaveOwners(s, k);
    forall i | i in t.owner && t.owner[i].Group?
      ensures i in t.paths && t.paths[i] == PathOf(t, t.owner[i].parent) + [t.owner[i].name]
    {
      AddGivesPaths(s, k, i);
    }
    forall i, j | i in t.paths && j in t.paths && t.owner[i].realm == t.owner[j].realm && t.paths[i] == t.paths[j]
      ensures i == j
    {
      PathsStayApart(s, k, i, j);
    }
  }

  /** An object that was fine stays fine when an id nobody has is handed out. */
  lemma ObjectStays(s: Server, k: Key, o: Key)
    requires k !in s.objects && ServerId(s.next) !in s.owner
    requires o in s.objects && o.realm in s.realms && ContainerKnown(s, o) && s.objects[o] in s.owner
    requires s.owner[s.objects[o]] == o
    ensures
      var t := Add(s, k);
      o in t.objects && ContainerKnown(t, o) && t.objects[o] in t.owner && t.owner[t.objects[o]] == o
  {}

  lemma NewObjectIsFine(s: Server, k: Key)
    requires Accepts(s, k) && ServerId(s.next) !in s.owner
    ensures
      var t := Add(s, k);
      k.realm in t.realms && ContainerKnown(t, k) && t.objects[k] in t.owner && t.owner[t.objects[k]] == k
  {}

  lemma AddKeepsObjects(s: Server, k: Key)
    requires ObjectsOk(s) && OwnersOk(s) && PathsOk(s) && Accepts(s, k)
    ensures ObjectsOk(Add(s, k))
  {
    NextId(s);
    NewObjectIsFine(s, k);
    hide PathsOk, OwnersOk, ContainerKnown;
    var t := Add(s, k);
    forall o | o in t.objects
      ensures o.realm in t.realms && ContainerKnown(t, o) && t.objects[o] in t.owner && t.owner[t.objects[o]] == o
    {
      if o != k {
        ObjectStays(s, k, o);
      }
    }
  }

  lemma AddKeepsOwners(s: Server, k: Key)
    requires ObjectsOk(s) && OwnersOk(s) && PathsOk(s) && Accepts(s, k)
    ensures OwnersOk(Add(s, k))
  {
    NextId(s);
    ServerIdInjective(s.next, s.next);
    hide PathsOk, ContainerKnown;
    var t := Add(s, k);
    forall i | i in t.owner
      ensures i != "" && !IsSyntheticID(i) && !Unborn(t, i) && t.owner[i] in t.objects && t.objects[t.owner[i]] == i
    {
      UnbornLater(s, t, i);
    }
  }

  lemma MappingsStayOk(s: Server, t: Server)
    requires MappingsOk(s) && t.mappings == s.mappings && s.next <= t.next && s.realms <= t.realms
    requires forall k :: k in s.objects ==> k in t.objects
    ensures MappingsOk(t) && forall m :: Mapped(t, m) == Mapped(s, m)
  {
    forall m | m in t.mappings ensures !Unborn(t, m.holder) && !Unborn(t, m.client) {
      UnbornLater(s, t, m.holder);
      UnbornLater(s, t, m.client);
    }
  }

  lemma MembershipsStayOk(s: Server, t: Server)
    requires MembershipsOk(s) && t.memberships == s.memberships && Grows(s, t)
    ensures MembershipsOk(t)
  {}

  lemma AddGrows(s: Server, k: Key)
    requires k !in s.objects && ServerId(s.next) !in s.owner && ServerId(s.next) !in s.paths
    ensures Grows(s, Add(s, k))
  {
    assert forall m :: Mapped(Add(s, k), m) == Mapped(s, m);
  }

  lemma AddKeeps(s: Server, k: Key)
    requires WellFormed(s) && Accepts(s, k)
    ensures WellFormed(Add(s, k)) && Grows(s, Add(s, k))
  {
    NextId(s);
    AddGrows(s, k);
    AddKeepsObjects(s, k);
    AddKeepsOwners(s, k);
    AddKeepsPaths(s, k);
    MappingsStayOk(s, Add(s, k));
    MembershipsStayOk(s, Add(s, k));
  }

  /** Objects, owners and paths depend on nothing else. */
  lemma SameObjectsSameOrder(s: Server, t: Server)
    requires t.objects == s.objects && t.owner == s.owner && t.paths == s.paths && t.next == s.next
    requires s.realms <= t.realms && ObjectsOk(s) && OwnersOk(s) && PathsOk(s)
    ensures ObjectsOk(t) && OwnersOk(t) && PathsOk(t)
  {
    ObjectsStayOk(s, t);
    OwnersStayOk(s, t);
    PathsStayOk(s, t);
    hide ObjectsOk, OwnersOk, PathsOk;
  }

  lemma ObjectsStayOk(s: Server, t: Server)
    requires t.objects == s.objects && t.owner == s.owner && s.realms <= t.realms && ObjectsOk(s)
    ensures ObjectsOk(t)
  {
    assert forall k :: ContainerKnown(t, k) == ContainerKnown(s, k);
  }

  lemma OwnersStayOk(s: Server, t: Server)
    requires t.objects == s.objects && t.owner == s.owner && t.next == s.next && OwnersOk(s)
    ensures OwnersOk(t)
  {
    assert forall id :: Unborn(t, id) <==> Unborn(s, id);
  }

  lemma PathsStayOk(s: Server, t: Server)
    requires t.owner == s.owner && t.paths == s.paths && PathsOk(s)
    ensures PathsOk(t)
  {
    assert forall id :: PathOf(t, id) == PathOf(s, id);
  }

  /** Object structure does not depend on the role mappings. */
  lemma MappingsDoNotMatter(s: Server, t: Server)
    requires t == s.(mappings := t.mappings) && WellFormed(s) && MappingsOk(t)
    ensures WellFormed(t)
  {
    SameObjectsSameOrder(s, t);
  }

  lemma NewMemberKeeps(s: Server, m: Membership)
    requires WellFormed(s) && AcceptsMember(s, m)
    ensures
      var t := s.(memberships := s.memberships + {m});
      WellFormed(t) && Grows(s, t)
  {
    hide ObjectsOk, OwnersOk, PathsOk, MappingsOk, MembershipsOk, Grows, AcceptsMember;
    var t := s.(memberships := s.memberships + {m});
    SameObjectsSameOrder(s, t);
    MappingsStayOk(s, t);
    OneMoreMember(s, t, m);
  }

  lemma OneMoreMember(s: Server, t: Server, m: Membership)
    requires MembershipsOk(s) && AcceptsMember(s, m) && t == s.(memberships := s.memberships + {m})
    ensures MembershipsOk(t) && Grows(s, t)
  {
    forall x | x in t.memberships ensures AcceptsMember(t, x) {
      assert AcceptsMember(s, x);
    }
    assert forall x :: Mapped(s, x) == Mapped(t, x);
  }

  lemma MoreMappingsGrow(s: Server, t: Server)
    requires t == s.(mappings := t.mappings) && forall m :: Mapped(s, m) <= Mapped(t, m)
    ensures Grows(s, t)
  {}

  lemma AddRealmKeeps(s: Server, realm: string)
    requires WellFormed(s) && realm !in s.realms
    ensures WellFormed(AddRealm(s, realm)) && Grows(s, AddRealm(s, realm))
  {
    var t := s.(realms := s.realms + {realm});
    OneMoreRealm(s, t, realm);
    hide WellFormed, Grows, Add, ObjectsOk;
    AddKeeps(t, Client(realm, REALM_MANAGEMENT)) by {
      NewRealmAccepts(s, t, realm);
    }
    GrowsTransitive(s, t, AddRealm(s, realm));
  }

  lemma OneMoreRealm(s: Server, t: Server, realm: string)
    requires WellFormed(s) && t == s.(realms := s.realms + {realm})
    ensures WellFormed(t) && Grows(s, t)
  {
    SameObjectsSameOrder(s, t);
    hide ObjectsOk, OwnersOk, PathsOk;
    MappingsStayOk(s, t);
  }

  lemma NewRealmAccepts(s: Server, t: Server, realm: string)
    requires ObjectsOk(s) && realm !in s.realms && t == s.(realms := s.realms + {realm})
    ensures Accepts(t, Client(realm, REALM_MANAGEMENT))
  {}

  lemma AddMappingKeeps(s: Server, m: Mapping, refs: seq<RoleRef>)
    requires WellFormed(s) && m.realm in s.realms && !Unborn(s, m.holder) && !Unborn(s, m.client)
    requires forall i :: 0 <= i < |refs| ==> RoleKey(m.realm, m.client, refs[i].name) in s.objects
    ensures WellFormed(AddMapping(s, m, refs)) && Grows(s, AddMapping(s, m, refs))
  {
    var t := AddMapping(s, m, refs);
    assert MappingsOk(t) by {
      hide ObjectsOk, OwnersOk, PathsOk;
      assert forall id :: Unborn(t, id) <==> Unborn(s, id);
    }
    MappingsDoNotMatter(s, t);
    hide ObjectsOk, OwnersOk, PathsOk, MappingsOk;
    MoreMappingsGrow(s, t);
  }

  // ---------- the port ----------

  /** What a dry run has pretended to create so far. */
  datatype Overlay = Overlay(realms: set<string>, created: map<Key, Id>, seqNo: nat)

  /** A request that changes something, in the order they are issued. */
  datatype Write =
    | CreatesRealm(realm: string)
    | UpdatesRealm(realm: string)
    | Creates(key: Key)
    | Updates(key: Key, id: Id)
    | Grants(mapping: Mapping, refs: seq<RoleRef>)
    | Joins(member: Membership)

  /** The server itself or, with an overlay, a dry run over it. */
  datatype Api = Api(server: Server, overlay: Option<Overlay>, trace: seq<Write>)

  datatype Status = Done | NotFound | Refused

  function Record(a: Api, w: Write): Api {
    a.(trace := a.trace + [w])
  }

  function Kind(k: Key): string {
    match k
    case Client(_, _) => "client"
    case RealmRole(_, _) => "realm-role"
    case ClientRole(_, _, _) => "client-role"
    case ClientScope(_, _) => "clientscope"
    case Group(_, _, _) => "group"
    case User(_, _) => "user"
    case ServiceAccount(_, _) => "sa-user"
  }

  function NewSynthetic(o: Overlay, k: Key): Id {
    NewId(Kind(k), o.seqNo + 1)
  }

  function Pretend(o: Overlay, k: Key): Overlay {
    o.(created := o.created[k := NewSynthetic(o, k)], seqNo := o.seqNo + 1)
  }

  /** Reads about these cannot be answered by the real server: it has neither the realm nor the container. */
  predicate ShortCut(o: Overlay, k: Key) {
    k.realm in o.realms || IsSyntheticID(Container(k))
  }

  /** What a lookup finds. */
  function Peek(a: Api, k: Key): Option<Id> {
    match a.overlay
    case None => Lookup(a.server, k)
    case Some(o) =>
      if k.User? && !ShortCut(o, k) && k in a.server.objects then Some(a.server.objects[k])
      else if k in o.created then Some(o.created[k])
      else if ShortCut(o, k) then None
      else Lookup(a.server, k)
  }

  /** Looking up realm-management in a realm a dry run would create makes it up on first sight. */
  function FindClient(a: Api, realm: string, clientId: string): (Api, Option<Id>) {
    var k := Client(realm, clientId);
    var found := Peek(a, k);
    if a.overlay.Some? && found.None? && realm in a.overlay.value.realms && clientId == REALM_MANAGEMENT then
      (a.(overlay := Some(Pretend(a.overlay.value, k))), Some(NewSynthetic(a.overlay.value, k)))
    else (a, found)
  }

  /** A client that would be created has a service account from the first time it is asked for. */
  function FindServiceAccount(a: Api, realm: string, client: Id): (Api, Option<Id>) {
    var k := ServiceAccount(realm, client);
    if a.overlay.None? || !IsSyntheticID(client) then (a, Lookup(a.server, k))
    else if k in a.overlay.value.created then (a, Some(a.overlay.value.created[k]))
    else (a.(overlay := Some(Pretend(a.overlay.value, k))), Some(NewSynthetic(a.overlay.value, k)))
  }

  /** The realm listing is not overlaid: a realm that would be created stays invisible. */
  function RealmExists(a: Api, realm: string): bool {
    realm in a.server.realms
  }

  function CreateRealm(a: Api, realm: string): (Api, Status) {
    match a.overlay
    case None =>
      if realm in a.server.realms then (a, Refused)
      else (Record(a.(server := AddRealm(a.server, realm)), CreatesRealm(realm)), Done)
    case Some(o) =>
      (Record(a.(overlay := Some(o.(realms := o.realms + {realm}))), CreatesRealm(realm)), Done)
  }

  /** The new id, unless the server refuses. `serviceAccount` matters for clients only. */
  function Create(a: Api, k: Key, serviceAccount: bool): (Api, Option<Id>) {
    match a.overlay
    case None =>
      if !Accepts(a.server, k) then (a, None)
      else
        var t := Add(a.server, k);
        var t' := if k.Client? then WithServiceAccount(t, k, serviceAccount) else t;
        (Record(a.(server := t'), Creates(k)), Some(ServerId(a.server.next)))
    case Some(o) => (Record(a.(overlay := Some(Pretend(o, k))), Creates(k)), Some(NewSynthetic(o, k)))
  }

  /** Updates change fields the model does not carry, except that enabling a client's service account creates its
      user. */
  function Update(a: Api, k: Key, id: Id, serviceAccount: bool): Api {
    var created := a.overlay.None? && k.Client? && k in a.server.objects;
    var s := if created then WithServiceAccount(a.server, k, serviceAccount) else a.server;
    Record(a.(server := s), Updates(k, id))
  }

  function MappedIn(a: Api, m: Mapping): set<string> {
    if a.overlay.Some? &&
       (m.realm in a.overlay.value.realms || IsSyntheticID(m.holder) || IsSyntheticID(m.client))
    then {}
    else Mapped(a.server, m)
  }

  /** A dry run reports the grant and remembers nothing of it. */
  function Grant(a: Api, m: Mapping, refs: seq<RoleRef>): (Api, Status) {
    match a.overlay
    case None =>
      if AcceptsMapping(a.server, m, refs)
      then (Record(a.(server := AddMapping(a.server, m, refs)), Grants(m, refs)), Done)
      else (a, Refused)
    case Some(_) => (Record(a, Grants(m, refs)), Done)
  }

  /** The paths of the groups a user is in. */
  function GroupPathsOf(a: Api, realm: string, user: Id): set<string> {
    if a.overlay.Some? && (IsSyntheticID(user) || realm in a.overlay.value.realms) then {}
    else set m | m in a.server.memberships && m.user == user :: PathText(PathOf(a.server, m.group))
  }

  /** A dry run reports the membership and remembers nothing of it. */
  function AddToGroup(a: Api, m: Membership): (Api, Status) {
    match a.overlay
    case None =>
      if AcceptsMember(a.server, m)
      then (Record(a.(server := a.server.(memberships := a.server.memberships + {m})), Joins(m)), Done)
      else (a, Refused)
    case Some(_) => (Record(a, Joins(m)), Done)
  }
}
