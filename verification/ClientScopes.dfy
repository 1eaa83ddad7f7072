/** Client scopes and their assignment (internal/provisioner/client_scopes.go). */
module ClientScopes {
  import opened Ids
  import opened Lists
  import opened LiveRuns
  import opened Reconcile
  import opened Text
  import D = Directory

  datatype Kind = Default | Optional

  /** The list a scope must leave to enter the given one. */
  function Other(kind: Kind): Kind {
    if kind == Default then Optional else Default
  }

  datatype Scope = Scope(id: string, name: string)

  /** The client scopes of a realm: id -> name. */
  function NamesIn(s: D.Server, realm: string): map<string, string> {
    map id | id in s.owner && s.owner[id].ClientScope? && s.owner[id].realm == realm :: s.owner[id].name
  }

  predicate Unique(names: map<string, string>) {
    forall i, j :: i in names && j in names && names[i] == names[j] ==> i == j
  }

  /** Scopes are addressed by name, so names are unique. */
  lemma ScopesAreObjects(s: D.Server, realm: string)
    requires D.ObjectsOk(s) && D.OwnersOk(s)
    ensures Unique(NamesIn(s, realm))
    ensures forall name, id :: id in NamesIn(s, realm) && NamesIn(s, realm)[id] == name <==>
              D.Lookup(s, D.ClientScope(realm, name)) == Some(id)
    ensures forall name :: name in NamesIn(s, realm).Values <==> D.ClientScope(realm, name) in s.objects
  {
    var names := NamesIn(s, realm);
    forall name, id
      ensures id in names && names[id] == name <==> D.Lookup(s, D.ClientScope(realm, name)) == Some(id)
    {
      if id in names && names[id] == name {
        assert s.owner[id] == D.ClientScope(realm, name);
      }
    }
    forall name ensures name in names.Values <==> D.ClientScope(realm, name) in s.objects {
      if D.ClientScope(realm, name) in s.objects {
        var id := s.objects[D.ClientScope(realm, name)];
        assert id in names && names[id] == name;
      }
    }
  }

  /** A server that grows without new scopes in this realm has the scopes it had. */
  lemma SameScopes(s: D.Server, t: D.Server, realm: string)
    requires D.ObjectsOk(s) && D.OwnersOk(s) && D.ObjectsOk(t) && D.OwnersOk(t) && D.Grows(s, t)
    requires forall name :: D.ClientScope(realm, name) in t.objects ==> D.ClientScope(realm, name) in s.objects
    ensures NamesIn(t, realm) == NamesIn(s, realm)
  {
    forall id | id in NamesIn(t, realm) ensures id in NamesIn(s, realm) {
      var k := t.owner[id];
      assert k in t.objects && k == D.ClientScope(realm, k.name) && k in s.objects;
    }
  }

  lemma OneMoreScope(s: D.Server, realm: string, name: string)
    requires ServerId(s.next) !in s.owner
    ensures
      var t := D.Add(s, D.ClientScope(realm, name));
      NamesIn(t, realm) == NamesIn(s, realm)[ServerId(s.next) := name] && ServerId(s.next) !in NamesIn(s, realm)
  {}

  /** A name in use is refused; otherwise there is one scope more. */
  lemma CreateScopeIs(a: D.Api, realm: string, name: string)
    requires IsLive(a) && realm in a.server.realms
    ensures
      var (b, id) := D.Create(a, D.ClientScope(realm, name), false);
      && IsLive(b) && b.server.realms == a.server.realms && Unique(NamesIn(b.server, realm))
      && (id.Some? <==> name !in NamesIn(a.server, realm).Values) && (id.None? ==> b == a)
      && (id.Some? ==>
            && id.value !in NamesIn(a.server, realm)
            && NamesIn(b.server, realm) == NamesIn(a.server, realm)[id.value := name])
  {
    hide NamesIn, D.PathsOk, D.MappingsOk, D.MembershipsOk, D.Grows;
    var s, k := a.server, D.ClientScope(realm, name);
    ScopesAreObjects(s, realm);
    if k !in s.objects {
      D.NextId(s);
      D.AddKeeps(s, k);
      OneMoreScope(s, realm, name);
      ScopesAreObjects(D.Add(s, k), realm);
    }
  }

  /** Creating or updating one scope. */
  function EnsureScope(a: D.Api, realm: string, name: string, createOnly: bool): (D.Api, Option<Id>) {
    var k := D.ClientScope(realm, name);
    match D.Peek(a, k)
    case None => D.Create(a, k, false)
    case Some(id) => (if createOnly then a else D.Update(a, k, id, false), Some(id))
  }

  /** Lists hold scopes that exist, and no scope twice over. */
  ghost predicate ListsOk(names: map<string, string>, onClient: map<(string, Kind), set<string>>,
      onRealm: map<Kind, set<string>>) {
    && Unique(names)
    && (forall key :: key in onClient ==> onClient[key] <= names.Keys)
    && (forall c :: (c, Default) in onClient && (c, Optional) in onClient ==>
          onClient[(c, Default)] !! onClient[(c, Optional)])
    && (forall kind :: kind in onRealm ==> onRealm[kind] <= names.Keys)
    && (Default in onRealm && Optional in onRealm ==> onRealm[Default] !! onRealm[Optional])
  }

  /** The realm's client scopes, which are objects of the realm, and which of them each client and the realm itself
      carry. */
  class Server {
    const port: Port
    const realm: string
    var onClient: map<(string, Kind), set<string>>      // (client id, kind) -> scope ids
    var onRealm: map<Kind, set<string>>
    var writes: nat                                     // requests that ask for a change
    var wasted: nat                                     // those the server refused or silently ignored

    constructor (port: Port, realm: string)
      ensures this.port == port && this.realm == realm && onClient == map[] && onRealm == map[]
      ensures writes == wasted == 0
    {
      this.port, this.realm, onClient, onRealm, writes, wasted := port, realm, map[], map[], 0, 0;
    }

    ghost predicate Valid()
      reads this, port
    {
      IsLive(port.api) && realm in port.api.server.realms && ListsOk(Scopes(), onClient, onRealm)
    }

    function Scopes(): map<string, string>
      reads this, port
    {
      NamesIn(port.api.server, realm)
    }

    predicate ClientIsThere(client: string)
      reads this, port
    {
      client in port.api.server.owner && port.api.server.owner[client].Client?
    }

    function Ids(client: string, kind: Kind): set<string>
      reads this
    {
      if (client, kind) in onClient then onClient[(client, kind)] else {}
    }

    function RealmIds(kind: Kind): set<string>
      reads this
    {
      if kind in onRealm then onRealm[kind] else {}
    }

    /** The names of the scopes a client carries with the given kind. */
    ghost function Names(client: string, kind: Kind): set<string>
      reads this, port
    {
      NamesOf(Scopes(), Ids(client, kind))
    }

    ghost function RealmNames(kind: Kind): set<string>
      reads this, port
    {
      NamesOf(Scopes(), RealmIds(kind))
    }

    method GetClientScopes() returns (listing: seq<Scope>)
      ensures forall id, name :: Scope(id, name) in listing <==> id in Scopes() && Scopes()[id] == name
    {
      listing := [];
      var names := Scopes();
      var rest := names.Keys;
      while rest != {}
        invariant rest <= names.Keys
        invariant forall id, name :: Scope(id, name) in listing <==> id in names.Keys - rest && names[id] == name
        decreases rest
      {
        var id :| id in rest;
        listing := listing + [Scope(id, names[id])];
        rest := rest - {id};
      }
    }

    /** A name in use is refused. */
    method CreateClientScope(name: string) returns (id: Option<string>)
      requires Valid()
      modifies this`writes, this`wasted, port
      ensures Valid() && writes == old(writes) + 1
      ensures (port.api, id) == D.Create(old(port.api), D.ClientScope(realm, name), false)
      ensures id.Some? <==> name !in old(Scopes()).Values
      ensures id.Some? ==>
                id.value !in old(Scopes()) && Scopes() == old(Scopes())[id.value := name] && wasted == old(wasted)
      ensures id.None? ==> port.api == old(port.api)
    {
      hide NamesIn, IsLive, D.Create;
      CreateScopeIs(port.api, realm, name);
      writes := writes + 1;
      var (next, made) := D.Create(port.api, D.ClientScope(realm, name), false);
      port.api, id := next, made;
      if id.None? {
        wasted := wasted + 1;
      }
    }

    method UpdateClientScope(id: string, name: string) returns (ok: bool)
      modifies this`writes, this`wasted, port
      ensures writes == old(writes) + 1 && (ok <==> id in old(Scopes()))
      ensures ok ==>
                wasted == old(wasted) && port.api == D.Update(old(port.api), D.ClientScope(realm, name), id, false)
      ensures port.api.server == old(port.api.server) && port.api.overlay == old(port.api.overlay)
    {
      writes, ok := writes + 1, id in Scopes();
      if ok {
        port.api := D.Update(port.api, D.ClientScope(realm, name), id, false);
      } else {
        wasted := wasted + 1;
      }
    }

    /** A new client starts with the scopes the realm gives every client. */
    method InheritRealmScopes(client: string)
      requires Valid()
      modifies this`onClient
      ensures Valid() && Ids(client, Default) == RealmIds(Default) && Ids(client, Optional) == RealmIds(Optional)
      ensures forall c, kind :: c != client ==> Ids(c, kind) == old(Ids(c, kind))
    {
      hide NamesIn, IsLive;
      onClient := onClient[(client, Default) := RealmIds(Default)][(client, Optional) := RealmIds(Optional)];
    }

    method GetClientScopeAssignments(client: string, kind: Kind) returns (listed: set<string>)
      ensures listed == Names(client, kind)
    {
      var names := Scopes();
      listed := set id | id in Ids(client, kind) && id in names :: names[id];
    }

    /** A scope the client carries with the other kind stays there: the request succeeds and does nothing. */
    method AddClientScopeAssignment(client: string, id: string, kind: Kind) returns (ok: bool)
      requires Valid()
      modifies this`onClient, this`writes, this`wasted
      ensures Valid() && writes == old(writes) + 1
      ensures ok <==> id in Scopes() && ClientIsThere(client)
      ensures ok && id !in old(Ids(client, Other(kind))) ==>
                wasted == old(wasted) && Ids(client, kind) == old(Ids(client, kind)) + {id}
      ensures !ok || id in old(Ids(client, Other(kind))) ==> onClient == old(onClient) && wasted == old(wasted) + 1
      ensures forall c, k :: (c, k) != (client, kind) ==> Ids(c, k) == old(Ids(c, k))
    {
      hide NamesIn, IsLive;
      writes, ok := writes + 1, id in Scopes() && ClientIsThere(client);
      if ok && id !in Ids(client, Other(kind)) {
        onClient := onClient[(client, kind) := Ids(client, kind) + {id}];
      } else {
        wasted := wasted + 1;
      }
    }

    /** Detaching succeeds whether or not the scope was attached. */
    method RemoveClientScopeAssignment(client: string, id: string, kind: Kind)
      requires Valid()
      modifies this`onClient, this`writes, this`wasted
      ensures Valid() && writes == old(writes) + 1
      ensures Ids(client, kind) == old(Ids(client, kind)) - {id}
      ensures wasted == old(wasted) + if id in old(Ids(client, kind)) then 0 else 1
      ensures forall c, k :: (c, k) != (client, kind) ==> Ids(c, k) == old(Ids(c, k))
    {
      hide NamesIn, IsLive;
      writes := writes + 1;
      if id !in Ids(client, kind) {
        wasted := wasted + 1;
      }
      onClient := onClient[(client, kind) := Ids(client, kind) - {id}];
    }

    method GetRealmClientScopes(kind: Kind) returns (listed: set<string>)
      ensures listed == RealmNames(kind)
    {
      var names := Scopes();
      listed := set id | id in RealmIds(kind) && id in names :: names[id];
    }

    /** At realm level a conflicting assignment is refused (409). */
    method AddRealmClientScope(id: string, kind: Kind) returns (ok: bool)
      requires Valid()
      modifies this`onRealm, this`writes, this`wasted
      ensures Valid() && writes == old(writes) + 1
      ensures ok <==> id in Scopes() && id !in old(RealmIds(Other(kind)))
      ensures ok ==> wasted == old(wasted) && RealmIds(kind) == old(RealmIds(kind)) + {id}
      ensures !ok ==> onRealm == old(onRealm)
      ensures RealmIds(Other(kind)) == old(RealmIds(Other(kind)))
    {
      hide NamesIn, IsLive;
      writes, ok := writes + 1, id in Scopes() && id !in RealmIds(Other(kind));
      if ok {
        onRealm := onRealm[kind := RealmIds(kind) + {id}];
      } else {
        wasted := wasted + 1;
      }
    }

    method RemoveRealmClientScope(id: string, kind: Kind)
      requires Valid()
      modifies this`onRealm, this`writes, this`wasted
      ensures Valid() && writes == old(writes) + 1
      ensures RealmIds(kind) == old(RealmIds(kind)) - {id}
      ensures wasted == old(wasted) + if id in old(RealmIds(kind)) then 0 else 1
      ensures RealmIds(Other(kind)) == old(RealmIds(Other(kind)))
    {
      hide NamesIn, IsLive;
      writes := writes + 1;
      if id !in RealmIds(kind) {
        wasted := wasted + 1;
      }
      onRealm := onRealm[kind := RealmIds(kind) - {id}];
    }
  }

  ghost function NamesOf(names: map<string, string>, ids: set<string>): set<string> {
    set id | id in ids && id in names :: names[id]
  }

  /** Names are unique, so adding or dropping an id adds or drops its name and no other. */
  lemma NamesOfOne(names: map<string, string>, ids: set<string>, id: string)
    requires id in names && Unique(names)
    ensures NamesOf(names, ids + {id}) == NamesOf(names, ids) + {names[id]}
    ensures NamesOf(names, ids - {id}) == NamesOf(names, ids) - {names[id]}
    ensures names[id] in NamesOf(names, ids) <==> id in ids
  {
    forall n ensures n in NamesOf(names, ids + {id}) <==> n in NamesOf(names, ids) + {names[id]} {
      if n in NamesOf(names, ids) {
        var i :| i in ids && i in names && names[i] == n;
        assert i in ids + {id};
      }
      if n == names[id] {
        assert id in ids + {id};
      }
    }
    forall n ensures n in NamesOf(names, ids - {id}) <==> n in NamesOf(names, ids) - {names[id]} {
      if n in NamesOf(names, ids) - {names[id]} {
        var i :| i in ids && i in names && names[i] == n;
        assert i in ids - {id};
      }
    }
  }

  /** The name-to-id index, kept up to date as scopes are created. */
  class Index {
    var ids: map<string, string>

    constructor ()
      ensures ids == map[]
    {
      ids := map[];
    }

    ghost predicate Matches(server: Server)
      reads this, server, server.port
    {
      Inverse(ids, server.Scopes())
    }
  }

  ghost predicate Inverse(ids: map<string, string>, names: map<string, string>) {
    forall name, id :: (name in ids && ids[name] == id) <==> (id in names && names[id] == name)
  }

  /** The client's attached scope names, as the reconciler believes them to be. */
  class View {
    var current: map<Kind, set<string>>

    constructor (defaults: set<string>, optionals: set<string>)
      ensures current == map[Default := defaults, Optional := optionals]
      ensures current[Default] == defaults && current[Optional] == optionals
    {
      current := map[Default := defaults, Optional := optionals];
    }

    ghost predicate Matches(server: Server, client: string)
      reads this, server, server.port
    {
      && Default in current && current[Default] == server.Names(client, Default)
      && Optional in current && current[Optional] == server.Names(client, Optional)
    }
  }

  /** The wanted scopes the realm has. */
  ghost function Known(names: map<string, string>, wanted: seq<string>): set<string> {
    Elements(wanted) * names.Values
  }

  datatype ScopeType = NoType | Assigned(kind: Kind) | Unknown

  class Provisioner {
    const server: Server

    constructor (server: Server)
      ensures this.server == server
    {
      this.server := server;
    }

    /** Lists the scopes once and indexes them by name. */
    method LoadClientScopeIndex() returns (index: Index)
      requires server.Valid()
      ensures fresh(index) && index.Matches(server)
    {
      var scopes := server.GetClientScopes();
      index := new Index();
      for i := 0 to |scopes|
        invariant fresh(index)
        invariant forall name, id :: (name in index.ids && index.ids[name] == id) <==> Scope(id, name) in scopes[..i]
      {
        var s := scopes[i];
        assert scopes[..i + 1] == scopes[..i] + [s];
        forall id | Scope(id, s.name) in scopes[..i] ensures id == s.id {
          assert Scope(id, s.name) in scopes && s in scopes;
        }
        index.ids := index.ids[s.name := s.id];
      }
      assert scopes[..|scopes|] == scopes;
      forall name, id
        ensures (name in index.ids && index.ids[name] == id) <==> id in server.Scopes() && server.Scopes()[id] == name
      {
        assert Scope(id, name) in scopes <==> id in server.Scopes() && server.Scopes()[id] == name;
      }
    }

    /** Creates the scope when the index does not have it; either way the index names it afterwards. */
    method EnsureClientScope(name: string, createOnly: bool, index: Index) returns (id: Option<string>)
      requires server.Valid() && index.Matches(server)
      modifies index, server`writes, server`wasted, server.port
      ensures server.Valid() && index.Matches(server)
      ensures (server.port.api, id) == EnsureScope(old(server.port.api), server.realm, name, createOnly)
      ensures id.Some? && id.value in server.Scopes() && server.Scopes()[id.value] == name
      ensures server.wasted == old(server.wasted)
      ensures server.Scopes() == old(server.Scopes())[id.value := name]
      ensures name in old(server.Scopes()).Values && createOnly ==> server.writes == old(server.writes)
    {
      hide NamesIn, IsLive, Inverse, ListsOk, D.Create;
      IndexKnows(index, server, name);
      IndexIsLookup(index, server, name);
      ghost var names := server.Scopes();
      if name in index.ids {
        id := Some(index.ids[name]);
        assert names[id.value := name] == names;
        if createOnly {
          return;
        }
        LiveIs(server.port.api);
        var ok := server.UpdateClientScope(id.value, name);
        LiveIs(server.port.api);
        SameUpdate(old(server.port.api), D.ClientScope(server.realm, name), id.value);
        return;
      }
      id := server.CreateClientScope(name);
      IndexOneMore(index.ids, names, name, id.value);
      index.ids := index.ids[name := id.value];
    }

    /** Moves the scope to the realm list its type names; no request conflicts, and a settled realm is left alone. */
    method EnsureRealmClientScopeType(id: string, name: string, scopeType: ScopeType) returns (ok: bool)
      requires server.Valid() && id in server.Scopes() && server.Scopes()[id] == name
      modifies server`onRealm, server`writes, server`wasted
      ensures server.Valid() && server.wasted == old(server.wasted)
      ensures ok <==> scopeType != Unknown
      ensures scopeType.Assigned? ==>
                && server.RealmIds(scopeType.kind) == old(server.RealmIds(scopeType.kind)) + {id}
                && server.RealmIds(Other(scopeType.kind)) == old(server.RealmIds(Other(scopeType.kind))) - {id}
      ensures !scopeType.Assigned? || id in old(server.RealmIds(scopeType.kind)) ==>
                server.writes == old(server.writes) && server.onRealm == old(server.onRealm)
    {
      hide NamesIn, IsLive;
      match scopeType {
        case NoType => return true;
        case Unknown => return false;
        case Assigned(kind) =>
          NamesOfOne(server.Scopes(), server.RealmIds(kind), id);
          var listed := server.GetRealmClientScopes(kind);
          if name in listed {
            return true;
          }
          DetachRealmClientScope(id, name, kind);
          ok := server.AddRealmClientScope(id, kind);
      }
    }

    method DetachRealmClientScope(id: string, name: string, kind: Kind)
      requires server.Valid() && id in server.Scopes() && server.Scopes()[id] == name
      modifies server`onRealm, server`writes, server`wasted
      ensures server.Valid() && server.wasted == old(server.wasted)
      ensures server.RealmIds(kind) == old(server.RealmIds(kind))
      ensures server.RealmIds(Other(kind)) == old(server.RealmIds(Other(kind))) - {id}
    {
      hide NamesIn, IsLive;
      var other := Other(kind);
      NamesOfOne(server.Scopes(), server.RealmIds(other), id);
      var listed := server.GetRealmClientScopes(other);
      if name !in listed {
        return;
      }
      server.RemoveRealmClientScope(id, other);
    }

    /** Attaches the client's wanted scopes, moving those it carries with the other kind. */
    method AssignClientScopes(client: string, kind: Kind, wanted: seq<string>, index: Index, view: View)
        returns (ok: bool)
      requires server.Valid() && index.Matches(server) && view.Matches(server, client)
      requires server.ClientIsThere(client)
      modifies view, server`onClient, server`writes, server`wasted
      ensures server.Valid() && view.Matches(server, client) && ok && server.wasted == old(server.wasted)
      ensures server.Names(client, kind) == old(server.Names(client, kind)) + Known(server.Scopes(), wanted)
      ensures server.Names(client, Other(kind)) ==
                old(server.Names(client, Other(kind))) - Known(server.Scopes(), wanted)
      ensures forall c, k :: c != client ==> server.Ids(c, k) == old(server.Ids(c, k))
      ensures server.writes >= old(server.writes)
      ensures server.writes == old(server.writes) <==> Known(server.Scopes(), wanted) <= old(server.Names(client, kind))
    {
      hide Inverse, NamesIn, Server.Valid, Server.Names, Known;
      ghost var mine, theirs := server.Names(client, kind), server.Names(client, Other(kind));
      NothingKnown(server.Scopes());
      ghost var done: set<string> := {};
      assert wanted[..|wanted|] == wanted;
      for i := 0 to |wanted|
        invariant done == Known(server.Scopes(), wanted[..i])
        invariant server.Valid() && view.Matches(server, client) && server.wasted == old(server.wasted)
        invariant server.Names(client, kind) == mine + done && server.Names(client, Other(kind)) == theirs - done
        invariant forall c, k :: c != client ==> server.Ids(c, k) == old(server.Ids(c, k))
        invariant server.writes >= old(server.writes) && (server.writes == old(server.writes) <==> done <= mine)
      {
        assert wanted[..i + 1] == wanted[..i] + [wanted[i]];
        KnownOneMore(server.Scopes(), wanted[..i], wanted[i]);
        ok := AssignClientScope(client, kind, wanted[i], index, view);
        if !ok {
          return;
        }
        done := done + Known(server.Scopes(), [wanted[i]]);
      }
      ok := true;
    }

    /** One iteration of the loop above: skip a scope that is there or unknown, otherwise move it. */
    method AssignClientScope(client: string, kind: Kind, name: string, index: Index, view: View) returns (ok: bool)
      requires server.Valid() && index.Matches(server) && view.Matches(server, client)
      requires server.ClientIsThere(client)
      modifies view, server`onClient, server`writes, server`wasted
      ensures server.Valid() && view.Matches(server, client) && ok && server.wasted == old(server.wasted)
      ensures server.Names(client, kind) == old(server.Names(client, kind)) + Known(server.Scopes(), [name])
      ensures server.Names(client, Other(kind)) ==
                old(server.Names(client, Other(kind))) - Known(server.Scopes(), [name])
      ensures forall c, k :: c != client ==> server.Ids(c, k) == old(server.Ids(c, k))
      ensures server.writes >= old(server.writes)
      ensures server.writes == old(server.writes) <==> Known(server.Scopes(), [name]) <= old(server.Names(client, kind))
    {
      ListsAreDisjoint(server, client);
      KnownOne(server.Scopes(), name);
      IndexKnows(index, server, name);
      hide Inverse, NamesIn, Server.Valid, Server.Names, Known;
      if name in view.current[kind] {
        NamedIsKnown(server, client, kind, name);
        return true;
      }
      if name !in index.ids {
        return true;
      }
      var id := index.ids[name];
      ok := MoveScope(client, kind, id, name, view);
    }

    /** Detach from the other list if need be, then attach. */
    method MoveScope(client: string, kind: Kind, id: string, name: string, view: View) returns (ok: bool)
      requires server.Valid() && view.Matches(server, client) && server.ClientIsThere(client)
      requires id in server.Scopes() && server.Scopes()[id] == name && name !in server.Names(client, kind)
      modifies view, server`onClient, server`writes, server`wasted
      ensures server.Valid() && view.Matches(server, client) && ok && server.wasted == old(server.wasted)
      ensures server.Names(client, kind) == old(server.Names(client, kind)) + {name}
      ensures server.Names(client, Other(kind)) == old(server.Names(client, Other(kind))) - {name}
      ensures forall c, k :: c != client ==> server.Ids(c, k) == old(server.Ids(c, k))
      ensures server.writes > old(server.writes)
    {
      hide NamesIn, IsLive;
      var other := Other(kind);
      NamesOfOne(server.Scopes(), server.Ids(client, other), id);
      NamesOfOne(server.Scopes(), server.Ids(client, kind), id);
      if name in view.current[other] {
        server.RemoveClientScopeAssignment(client, id, other);
        view.current := view.current[other := view.current[other] - {name}];
      }
      ok := server.AddClientScopeAssignment(client, id, kind);
      view.current := view.current[kind := view.current[kind] + {name}];
    }

    /** Reads both lists, then settles the defaults and after them the optionals. */
    method EnsureClientScopeAssignments(client: string, defaults: seq<string>, optionals: seq<string>, index: Index)
        returns (ok: bool)
      requires server.Valid() && (defaults != [] || optionals != [] ==> index.Matches(server))
      requires server.ClientIsThere(client)
      modifies server`onClient, server`writes, server`wasted
      ensures server.Valid() && ok && server.wasted == old(server.wasted)
      ensures server.Names(client, Default) ==
              old(server.Names(client, Default)) + Known(server.Scopes(), defaults) - Known(server.Scopes(), optionals)
      ensures server.Names(client, Optional) ==
              old(server.Names(client, Optional)) - Known(server.Scopes(), defaults) + Known(server.Scopes(), optionals)
      ensures forall c, k :: c != client ==> server.Ids(c, k) == old(server.Ids(c, k))
      ensures server.writes == old(server.writes) <==> old(Settled(server, client, defaults, optionals))
      ensures Settled(server, client, defaults, optionals) <==>
          Known(server.Scopes(), defaults) !! Known(server.Scopes(), optionals)
    {
      hide NamesIn, IsLive;
      ListsAreDisjoint(server, client);
      if |defaults| == 0 && |optionals| == 0 {
        return true;
      }
      var d := server.GetClientScopeAssignments(client, Default);
      var o := server.GetClientScopeAssignments(client, Optional);
      var view := new View(d, o);
      ok := AssignClientScopes(client, Default, defaults, index, view);
      if !ok {
        return;
      }
      ok := AssignClientScopes(client, Optional, optionals, index, view);
    }
  }

  /** Nothing to do: every wanted scope the realm has is on its list. */
  ghost predicate Settled(server: Server, client: string, defaults: seq<string>, optionals: seq<string>)
    reads server, server.port
  {
    Known(server.Scopes(), defaults) <= server.Names(client, Default) &&
      Known(server.Scopes(), optionals) <= server.Names(client, Optional)
  }

  /** One more wanted name, known or not. */
  lemma KnownOne(names: map<string, string>, name: string)
    ensures Known(names, [name]) == if name in names.Values then {name} else {}
  {}

  lemma IndexKnows(index: Index, server: Server, name: string)
    requires index.Matches(server)
    ensures name in index.ids <==> name in server.Scopes().Values
    ensures name in index.ids ==> index.ids[name] in server.Scopes() && server.Scopes()[index.ids[name]] == name
  {
    if name in server.Scopes().Values {
      var id :| id in server.Scopes() && server.Scopes()[id] == name;
    }
    if name in index.ids {
      assert server.Scopes()[index.ids[name]] == name;
    }
  }

  /** What the index says is what a lookup would say. */
  lemma IndexIsLookup(index: Index, server: Server, name: string)
    requires server.Valid() && index.Matches(server)
    ensures D.Peek(server.port.api, D.ClientScope(server.realm, name)) ==
            if name in index.ids then Some(index.ids[name]) else None
  {
    ScopesAreObjects(server.port.api.server, server.realm);
    IndexKnows(index, server, name);
  }

  lemma SameUpdate(a: D.Api, k: D.Key, id: string)
    requires a.overlay.None? && k.ClientScope?
    ensures D.Update(a, k, id, false).server == a.server && D.Update(a, k, id, false).overlay == None
  {}

  lemma IndexOneMore(ids: map<string, string>, names: map<string, string>, name: string, id: string)
    requires Inverse(ids, names) && name !in ids && id !in names
    ensures Inverse(ids[name := id], names[id := name])
  {
    var jds, games := ids[name := id], names[id := name];
    forall n, i ensures (n in jds && jds[n] == i) <==> i in games && games[i] == n {
      assert (n in ids && ids[n] == i) <==> i in names && names[i] == n;
    }
  }

  lemma NothingKnown(names: map<string, string>)
    ensures Known(names, []) == {}
  {}

  lemma KnownOneMore(names: map<string, string>, wanted: seq<string>, name: string)
    ensures Known(names, wanted + [name]) == Known(names, wanted) + Known(names, [name])
  {
    assert Elements(wanted + [name]) == Elements(wanted) + {name};
  }

  lemma NamedIsKnown(server: Server, client: string, kind: Kind, name: string)
    requires name in server.Names(client, kind)
    ensures name in server.Scopes().Values
  {}

  lemma ListsAreDisjoint(server: Server, client: string)
    requires server.Valid()
    ensures server.Names(client, Default) !! server.Names(client, Optional)
  {}

  /** Rejects a scope named as both default and optional. */
  method ValidateDistinctClientScopes(defaults: seq<string>, optionals: seq<string>) returns (ok: bool)
    ensures ok <==> Elements(defaults) !! Elements(optionals)
  {
    var named: set<string> := {};
    for i := 0 to |defaults|
      invariant named == Elements(defaults[..i])
    {
      named := named + {defaults[i]};
      assert defaults[..i + 1] == defaults[..i] + [defaults[i]];
    }
    assert defaults[..|defaults|] == defaults;
    for i := 0 to |optionals|
      invariant named !! Elements(optionals[..i])
    {
      if optionals[i] in named {
        assert optionals[i] in Elements(optionals);
        return false;
      }
      assert optionals[..i + 1] == optionals[..i] + [optionals[i]];
    }
    assert optionals[..|optionals|] == optionals;
    ok := true;
  }
}
