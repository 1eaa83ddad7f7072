/** Reconciling clients, roles, role mappings and groups (internal/provisioner/clients.go, realm_roles.go,
    client_roles.go, role_mappings.go, scope_mappings.go, groups.go), as functions of what the port shows
    and as the methods that issue the requests. */
module Reconcile {
  import opened Text
  import opened Ids
  import opened Directory
  import opened ConfigChecks

  /** Client roles by client, in whatever order the map yields them. */
  type ClientRoles = seq<(string, seq<string>)>

  datatype GroupConfig = GroupConfig(name: string, attributes: Attributes, realmRoles: seq<string>,
    clientRoles: ClientRoles, subGroups: seq<GroupConfig>)

  predicate DistinctClients(entries: ClientRoles) {
    forall i, j :: 0 <= i < j < |entries| ==> entries[i].0 != entries[j].0
  }

  /** Sibling groups have different names, and the client-role maps are maps. */
  predicate ValidGroups(gs: seq<GroupConfig>)
    decreases gs
  {
    && (forall i, j :: 0 <= i < j < |gs| ==> gs[i].name != gs[j].name)
    && forall i :: 0 <= i < |gs| ==> DistinctClients(gs[i].clientRoles) && ValidGroups(gs[i].subGroups)
  }

  datatype ClientConfig = ClientConfig(clientId: string, serviceAccount: bool, roles: seq<string>)

  // ---------- role mappings ----------

  /** The wanted roles not mapped yet, or None when one of them does not exist. */
  function Missing(a: Api, m: Mapping, wanted: seq<string>): Option<seq<RoleRef>> {
    if wanted == [] then Some([])
    else if wanted[0] in MappedIn(a, m) then Missing(a, m, wanted[1..])
    else
      match Peek(a, RoleKey(m.realm, m.client, wanted[0]))
      case None => None
      case Some(id) =>
        Prepend([RoleRef(id, wanted[0])], Missing(a, m, wanted[1..]))
  }

  function Prepend(front: seq<RoleRef>, refs: Option<seq<RoleRef>>): Option<seq<RoleRef>> {
    if refs.None? then None else Some(front + refs.value)
  }

  lemma MissingStep(a: Api, m: Mapping, wanted: seq<string>, i: nat)
    requires i < |wanted|
    ensures
      var rest := Missing(a, m, wanted[i + 1..]);
      Missing(a, m, wanted[i..]) ==
      if wanted[i] in MappedIn(a, m) then rest
      else
        match Peek(a, RoleKey(m.realm, m.client, wanted[i]))
        case None => None
        case Some(id) => Prepend([RoleRef(id, wanted[i])], rest)
  {
    assert wanted[i..][0] == wanted[i] && wanted[i..][1..] == wanted[i + 1..];
  }

  lemma PrependTwice(xs: seq<RoleRef>, ys: seq<RoleRef>, refs: Option<seq<RoleRef>>)
    ensures Prepend(xs, Prepend(ys, refs)) == Prepend(xs + ys, refs)
    ensures Prepend([], refs) == refs
  {
    if refs.Some? {
      assert xs + (ys + refs.value) == (xs + ys) + refs.value;
      assert [] + refs.value == refs.value;
    }
  }

  function GrantRoles(a: Api, m: Mapping, wanted: seq<string>): (Api, Status) {
    if wanted == [] then (a, Done)
    else
      match Missing(a, m, wanted)
      case None => (a, NotFound)
      case Some(refs) => if refs == [] then (a, Done) else Grant(a, m, refs)
  }

  function GrantClientRoles(a: Api, realm: string, kind: HolderKind, holder: Id, entries: ClientRoles): (Api, Status)
    decreases |entries|
  {
    if entries == [] then (a, Done)
    else if entries[0].1 == [] then GrantClientRoles(a, realm, kind, holder, entries[1..])
    else
      var (b, client) := FindClient(a, realm, entries[0].0);
      if client.None? then (b, NotFound)
      else
        var (c, status) := GrantRoles(b, Mapping(realm, kind, holder, client.value), entries[0].1);
        if status != Done then (c, status) else GrantClientRoles(c, realm, kind, holder, entries[1..])
  }

  function EnsureRoleMappings(a: Api, realm: string, kind: HolderKind, holder: Id, realmRoles: seq<string>,
      clientRoles: ClientRoles)
    : (Api, Status)
  {
    var (b, status) := GrantRoles(a, Mapping(realm, kind, holder, ""), realmRoles);
    if status != Done then (b, status) else GrantClientRoles(b, realm, kind, holder, clientRoles)
  }

  // ---------- groups ----------

  function ReconcileGroup(a: Api, realm: string, parent: Id, name: string, createOnly: bool): (Api, Option<Id>) {
    var k := Directory.Group(realm, parent, name);
    match Peek(a, k)
    case None => Create(a, k, false)
    case Some(id) => (if createOnly then a else Update(a, k, id, false), Some(id))
  }

  function EnsureGroup(a: Api, realm: string, parent: Id, g: GroupConfig, createOnly: bool): (Api, Status)
    decreases g
  {
    var (b, id) := ReconcileGroup(a, realm, parent, g.name, createOnly);
    if id.None? then (b, Refused)
    else
      var (c, status) := EnsureRoleMappings(b, realm, Groups, id.value, g.realmRoles, g.clientRoles);
      if status != Done then (c, status) else EnsureGroups(c, realm, id.value, g.subGroups, createOnly)
  }

  function EnsureGroups(a: Api, realm: string, parent: Id, gs: seq<GroupConfig>, createOnly: bool): (Api, Status)
    decreases gs
  {
    if gs == [] then (a, Done)
    else
      var (b, status) := EnsureGroup(a, realm, parent, gs[0], createOnly);
      if status != Done then (b, status) else EnsureGroups(b, realm, parent, gs[1..], createOnly)
  }

  /** One step of the recursion. */
  lemma EnsureGroupStep(a: Api, realm: string, parent: Id, g: GroupConfig, createOnly: bool)
    ensures
      var (b, id) := ReconcileGroup(a, realm, parent, g.name, createOnly);
      id.Some? ==>
        var c := EnsureRoleMappings(b, realm, Groups, id.value, g.realmRoles, g.clientRoles);
        EnsureGroup(a, realm, parent, g, createOnly) ==
        if c.1 != Done then c else EnsureGroups(c.0, realm, id.value, g.subGroups, createOnly)
  {}

  lemma EnsureGroupsStep(a: Api, realm: string, parent: Id, gs: seq<GroupConfig>, createOnly: bool)
    ensures gs == [] ==> EnsureGroups(a, realm, parent, gs, createOnly) == (a, Done)
    ensures gs != [] ==>
      var b := EnsureGroup(a, realm, parent, gs[0], createOnly);
      EnsureGroups(a, realm, parent, gs, createOnly) ==
      if b.1 != Done then b else EnsureGroups(b.0, realm, parent, gs[1..], createOnly)
  {}

  // ---------- realms, clients and roles ----------

  function EnsureRealm(a: Api, realm: string, createOnly: bool): (Api, Status) {
    if !RealmExists(a, realm) then CreateRealm(a, realm)
    else (if createOnly then a else Record(a, UpdatesRealm(realm)), Done)
  }

  function EnsureClient(a: Api, realm: string, c: ClientConfig, createOnly: bool): (Api, Option<Id>) {
    var k := Client(realm, c.clientId);
    var (b, found) := FindClient(a, realm, c.clientId);
    match found
    case None => Create(b, k, c.serviceAccount)
    case Some(id) => (if createOnly then b else Update(b, k, id, c.serviceAccount), Some(id))
  }

  /** Realm roles and client roles are created or updated alike; roles are addressed by name, not id. */
  function EnsureRoles(a: Api, realm: string, client: Id, names: seq<string>, createOnly: bool): (Api, Status)
    decreases |names|
  {
    if names == [] then (a, Done)
    else
      var (b, status) := EnsureRole(a, RoleKey(realm, client, names[0]), createOnly);
      if status != Done then (b, status) else EnsureRoles(b, realm, client, names[1..], createOnly)
  }

  lemma EnsureRolesStep(a: Api, realm: string, client: Id, names: seq<string>, createOnly: bool)
    ensures names == [] ==> EnsureRoles(a, realm, client, names, createOnly) == (a, Done)
    ensures names != [] ==>
      var b := EnsureRole(a, RoleKey(realm, client, names[0]), createOnly);
      EnsureRoles(a, realm, client, names, createOnly) ==
      if b.1 != Done then b else EnsureRoles(b.0, realm, client, names[1..], createOnly)
  {}

  function EnsureRole(a: Api, k: Key, createOnly: bool): (Api, Status) {
    match Peek(a, k)
    case None =>
      var (b, id) := Create(a, k, false);
      (b, if id.None? then Refused else Done)
    case Some(_) => (if createOnly then a else Update(a, k, "", false), Done)
  }

  /** Realm roles, and roles of clients. */
  datatype Roles = Roles(realm: seq<string>, clients: ClientRoles)

  /** A client, and what its service account is to have. */
  datatype AccountClient = AccountClient(base: ClientConfig, accountRoles: Option<Roles>)

  /** Grants put off until all roles exist. */
  datatype AccountWork = AccountWork(client: Id, roles: Roles)

  function WorkOf(c: AccountClient, id: Id): seq<AccountWork> {
    if c.accountRoles.None? then [] else [AccountWork(id, c.accountRoles.value)]
  }

  /** The clients, their roles, and what is left to do for their service accounts. */
  function EnsureClients(a: Api, realm: string, cs: seq<AccountClient>, createOnly: bool)
    : (Api, Status, seq<AccountWork>)
    decreases |cs|
  {
    if cs == [] then (a, Done, [])
    else
      var (b, id) := EnsureClient(a, realm, cs[0].base, createOnly);
      if id.None? then (b, Refused, [])
      else
        var (c, status) := EnsureRoles(b, realm, id.value, cs[0].base.roles, createOnly);
        if status != Done then (c, status, [])
        else
          var (d, last, work) := EnsureClients(c, realm, cs[1..], createOnly);
          (d, last, WorkOf(cs[0], id.value) + work)
  }

  lemma EnsureClientsStep(a: Api, realm: string, cs: seq<AccountClient>, createOnly: bool)
    ensures cs == [] ==> EnsureClients(a, realm, cs, createOnly) == (a, Done, [])
    ensures cs != [] ==>
      var b := EnsureClient(a, realm, cs[0].base, createOnly);
      && (b.1.None? ==> EnsureClients(a, realm, cs, createOnly) == (b.0, Refused, []))
      && (b.1.Some? ==>
            var c := EnsureRoles(b.0, realm, b.1.value, cs[0].base.roles, createOnly);
            var d := EnsureClients(c.0, realm, cs[1..], createOnly);
            EnsureClients(a, realm, cs, createOnly) ==
            if c.1 != Done then (c.0, c.1, []) else (d.0, d.1, WorkOf(cs[0], b.1.value) + d.2))
  {}

  /** What `all` ends as is what is done so far, and then `rest`. */
  predicate Continues(all: (Api, Status, seq<AccountWork>), rest: (Api, Status, seq<AccountWork>),
                      work: seq<AccountWork>) {
    all.0 == rest.0 && all.1 == rest.1 && (all.1 == Done ==> all.2 == work + rest.2)
  }

  function GrantAccounts(a: Api, realm: string, work: seq<AccountWork>): (Api, Status)
    decreases |work|
  {
    if work == [] then (a, Done)
    else
      var (b, account) := FindServiceAccount(a, realm, work[0].client);
      if account.None? then (b, NotFound)
      else
        var roles := work[0].roles;
        var (c, status) := EnsureRoleMappings(b, realm, Users, account.value, roles.realm, roles.clients);
        if status != Done then (c, status) else GrantAccounts(c, realm, work[1..])
  }

  /** The part of a realm's config that needs nothing but these resources, in the order they are provisioned. */
  datatype RealmConfig = RealmConfig(realm: string, clients: seq<AccountClient>, roles: seq<string>,
    groups: seq<GroupConfig>, createOnly: bool)

  function ProvisionRealm(a: Api, r: RealmConfig): (Api, Status) {
    var (b, s1) := EnsureRealm(a, r.realm, r.createOnly);
    if s1 != Done then (b, s1) else
    var (c, s2, work) := EnsureClients(b, r.realm, r.clients, r.createOnly);
    if s2 != Done then (c, s2) else
    var (d, s3) := EnsureRoles(c, r.realm, "", r.roles, r.createOnly);
    if s3 != Done then (d, s3) else
    var (e, s4) := GrantAccounts(d, r.realm, work);
    if s4 != Done then (e, s4) else EnsureGroups(e, r.realm, "", r.groups, r.createOnly)
  }

  function Run(a: Api, rs: seq<RealmConfig>): (Api, Status)
    decreases |rs|
  {
    if rs == [] then (a, Done)
    else
      var (b, status) := ProvisionRealm(a, rs[0]);
      if status != Done then (b, status) else Run(b, rs[1..])
  }

  // ---------- the methods ----------

  datatype Listed = Listed(id: Id, name: string)

  class Port {
    var api: Api

    constructor (api: Api)
      ensures this.api == api
    {
      this.api := api;
    }

    /** One level of the group tree, searched by name; entries with other names may come along, in any order. */
    method GetGroups(realm: string, parent: Id, search: string, noise: seq<Listed>) returns (listing: seq<Listed>)
      requires forall l :: l in noise ==> l.name != search
      ensures forall l :: l in listing && l.name == search ==>
          Peek(api, Directory.Group(realm, parent, search)) == Some(l.id)
      ensures Peek(api, Directory.Group(realm, parent, search)).Some? ==> exists l :: l in listing && l.name == search
    {
      listing := noise;
      var found := Peek(api, Directory.Group(realm, parent, search));
      if found.Some? {
        listing := listing + [Listed(found.value, search)];
        assert listing[|noise|] == Listed(found.value, search);
      }
    }

    /** An existing group by exact name at the given level. */
    method FindGroup(realm: string, parent: Id, name: string) returns (found: Option<Id>)
      ensures found == Peek(api, Directory.Group(realm, parent, name))
    {
      var candidates := GetGroups(realm, parent, name, []);
      for i := 0 to |candidates|
        invariant forall j :: 0 <= j < i ==> candidates[j].name != name
      {
        if candidates[i].name == name {
          return Some(candidates[i].id);
        }
      }
      found := None;
    }

    /** Realm roles and client roles alike: the loop collects what is missing, then one request grants it. */
    method EnsureMappings(m: Mapping, wanted: seq<string>) returns (status: Status)
      modifies this
      ensures (api, status) == GrantRoles(old(api), m, wanted)
    {
      if |wanted| == 0 {
        return Done;
      }
      var mapped := MappedIn(api, m);
      var toAdd: seq<RoleRef> := [];
      PrependTwice([], [], Missing(api, m, wanted));
      for i := 0 to |wanted|
        invariant api == old(api) && Missing(api, m, wanted) == Prepend(toAdd, Missing(api, m, wanted[i..]))
      {
        MissingStep(api, m, wanted, i);
        if wanted[i] in mapped {
          continue;
        }
        var role := Peek(api, RoleKey(m.realm, m.client, wanted[i]));
        if role.None? {
          return NotFound;
        }
        PrependTwice(toAdd, [RoleRef(role.value, wanted[i])], Missing(api, m, wanted[i + 1..]));
        toAdd := toAdd + [RoleRef(role.value, wanted[i])];
      }
      assert toAdd + [] == toAdd;
      if |toAdd| == 0 {
        return Done;
      }
      var (next, granted) := Grant(api, m, toAdd);
      api, status := next, granted;
    }

    method EnsureClientMappings(realm: string, kind: HolderKind, holder: Id, entries: ClientRoles)
        returns (status: Status)
      modifies this
      ensures (api, status) == GrantClientRoles(old(api), realm, kind, holder, entries)
    {
      for i := 0 to |entries|
        invariant GrantClientRoles(old(api), realm, kind, holder, entries) ==
            GrantClientRoles(api, realm, kind, holder, entries[i..])
      {
        assert entries[i..][1..] == entries[i + 1..];
        var (clientId, roleNames) := entries[i];
        if |roleNames| == 0 {
          continue;
        }
        var (next, client) := FindClient(api, realm, clientId);
        api := next;
        if client.None? {
          return NotFound;
        }
        status := EnsureMappings(Mapping(realm, kind, holder, client.value), roleNames);
        if status != Done {
          return;
        }
      }
      status := Done;
    }

    method EnsureRoleMappingsOf(realm: string, kind: HolderKind, holder: Id, realmRoles: seq<string>,
        clientRoles: ClientRoles)
    returns (status: Status)
      modifies this
      ensures (api, status) == EnsureRoleMappings(old(api), realm, kind, holder, realmRoles, clientRoles)
    {
      status := EnsureMappings(Mapping(realm, kind, holder, ""), realmRoles);
      if status == Done {
        status := EnsureClientMappings(realm, kind, holder, clientRoles);
      }
    }

    method ReconcileOneGroup(realm: string, parent: Id, name: string, createOnly: bool) returns (id: Option<Id>)
      modifies this
      ensures (api, id) == ReconcileGroup(old(api), realm, parent, name, createOnly)
    {
      var k := Directory.Group(realm, parent, name);
      id := FindGroup(realm, parent, name);
      if id.None? {
        var (next, created) := Create(api, k, false);
        api, id := next, created;
      } else if !createOnly {
        api := Update(api, k, id.value, false);
      }
    }

    method EnsureOneGroup(realm: string, parent: Id, g: GroupConfig, createOnly: bool) returns (status: Status)
      modifies this
      ensures (api, status) == EnsureGroup(old(api), realm, parent, g, createOnly)
      decreases g
    {
      var id := ReconcileOneGroup(realm, parent, g.name, createOnly);
      if id.None? {
        return Refused;
      }
      status := EnsureRoleMappingsOf(realm, Groups, id.value, g.realmRoles, g.clientRoles);
      if status != Done {
        return;
      }
      ghost var start := api;
      for i := 0 to |g.subGroups|
        invariant EnsureGroups(start, realm, id.value, g.subGroups, createOnly)
                  == EnsureGroups(api, realm, id.value, g.subGroups[i..], createOnly)
      {
        assert g.subGroups[i..][1..] == g.subGroups[i + 1..];
        status := EnsureOneGroup(realm, id.value, g.subGroups[i], createOnly);
        if status != Done {
          return;
        }
      }
      status := Done;
    }

    method EnsureOneClient(realm: string, c: ClientConfig, createOnly: bool) returns (id: Option<Id>)
      modifies this
      ensures (api, id) == EnsureClient(old(api), realm, c, createOnly)
    {
      var k := Client(realm, c.clientId);
      var (next, found) := FindClient(api, realm, c.clientId);
      api, id := next, found;
      if id.None? {
        var (created, uuid) := Create(api, k, c.serviceAccount);
        api, id := created, uuid;
      } else if !createOnly {
        api := Update(api, k, id.value, c.serviceAccount);
      }
    }

    method EnsureAllRoles(realm: string, client: Id, names: seq<string>, createOnly: bool) returns (status: Status)
      modifies this
      ensures (api, status) == EnsureRoles(old(api), realm, client, names, createOnly)
    {
      for i := 0 to |names|
        invariant EnsureRoles(old(api), realm, client, names, createOnly) ==
            EnsureRoles(api, realm, client, names[i..], createOnly)
      {
        assert names[i..][1..] == names[i + 1..];
        var k := RoleKey(realm, client, names[i]);
        var existing := Peek(api, k);
        if existing.None? {
          var (next, id) := Create(api, k, false);
          api := next;
          if id.None? {
            return Refused;
          }
        } else if !createOnly {
          api := Update(api, k, "", false);
        }
      }
      status := Done;
    }

    /** The whole restricted run, realm by realm. */
    method RunAll(rs: seq<RealmConfig>) returns (status: Status)
      modifies this
      ensures (api, status) == Run(old(api), rs)
    {
      for i := 0 to |rs|
        invariant Run(old(api), rs) == Run(api, rs[i..])
      {
        assert rs[i..][1..] == rs[i + 1..];
        status := ProvisionOneRealm(rs[i]);
        if status != Done {
          return;
        }
      }
      status := Done;
    }

    method ProvisionOneRealm(r: RealmConfig) returns (status: Status)
      modifies this
      ensures (api, status) == ProvisionRealm(old(api), r)
    {
      var (b, s1) := EnsureRealm(api, r.realm, r.createOnly);
      api, status := b, s1;
      if status != Done {
        return;
      }
      var work;
      status, work := EnsureAllClients(r.realm, r.clients, r.createOnly);
      if status != Done {
        return;
      }
      status := EnsureAllRoles(r.realm, "", r.roles, r.createOnly);
      if status != Done {
        return;
      }
      status := GrantAllAccounts(r.realm, work);
      if status != Done {
        return;
      }
      ghost var before := api;
      for i := 0 to |r.groups|
        invariant EnsureGroups(before, r.realm, "", r.groups, r.createOnly) ==
            EnsureGroups(api, r.realm, "", r.groups[i..], r.createOnly)
      {
        assert r.groups[i..][1..] == r.groups[i + 1..];
        status := EnsureOneGroup(r.realm, "", r.groups[i], r.createOnly);
        if status != Done {
          return;
        }
      }
      status := Done;
    }

    /** The client loop, and the work it puts off. */
    method EnsureAllClients(realm: string, cs: seq<AccountClient>, createOnly: bool)
        returns (status: Status, work: seq<AccountWork>)
      modifies this
      ensures
        var (b, st, all) := EnsureClients(old(api), realm, cs, createOnly);
        api == b && status == st && (status == Done ==> work == all)
    {
      hide EnsureClients, EnsureClient, EnsureRoles;
      work := [];
      assert cs[0..] == cs;
      for i := 0 to |cs|
        invariant Continues(EnsureClients(old(api), realm, cs, createOnly),
                            EnsureClients(api, realm, cs[i..], createOnly), work)
      {
        var c := cs[i];
        assert cs[i..][0] == c && cs[i..][1..] == cs[i + 1..];
        EnsureClientsStep(api, realm, cs[i..], createOnly);
        var id := EnsureOneClient(realm, c.base, createOnly);
        if id.None? {
          return Refused, [];
        }
        status := EnsureAllRoles(realm, id.value, c.base.roles, createOnly);
        if status != Done {
          return;
        }
        if c.accountRoles.Some? {
          work := work + [AccountWork(id.value, c.accountRoles.value)];
        }
      }
      EnsureClientsStep(api, realm, [], createOnly);
      assert cs[|cs|..] == [];
      status := Done;
    }

    method GrantAllAccounts(realm: string, work: seq<AccountWork>) returns (status: Status)
      modifies this
      ensures (api, status) == GrantAccounts(old(api), realm, work)
    {
      for i := 0 to |work|
        invariant GrantAccounts(old(api), realm, work) == GrantAccounts(api, realm, work[i..])
      {
        assert work[i..][1..] == work[i + 1..];
        var (next, account) := FindServiceAccount(api, realm, work[i].client);
        api := next;
        if account.None? {
          return NotFound;
        }
        var roles := work[i].roles;
        status := EnsureRoleMappingsOf(realm, Users, account.value, roles.realm, roles.clients);
        if status != Done {
          return;
        }
      }
      status := Done;
    }
  }
}
