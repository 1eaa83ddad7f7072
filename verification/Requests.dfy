/** What a live run asks of the server: each thing declared is created or, when the strategy lets it, updated; each role
    and each membership declared is asked for exactly when it is missing. */
module Requests {
  import opened Text
  import opened Ids
  import opened Directory

  /** What has been declared so far: objects as often as they are, roles by the list they are to be on, memberships. */
  datatype Asked = Asked(keys: multiset<Key>, roles: set<(Mapping, string)>, joins: set<Membership>)

  const NOTHING := Asked(multiset{}, {}, {})

  function Both(x: Asked, y: Asked): Asked {
    Asked(x.keys + y.keys, x.roles + y.roles, x.joins + y.joins)
  }

  function KeyAsked(k: Key): Asked {
    Asked(multiset{k}, {}, {})
  }

  /** The requests sent between the two. */
  function Since(a: Api, b: Api): seq<Write>
    requires a.trace <= b.trace
  {
    b.trace[|a.trace|..]
  }

  /** Roles are addressed by name, everything else by its id. */
  function IdFor(s: Server, k: Key): Id {
    if k.RealmRole? || k.ClientRole? || k !in s.objects then "" else s.objects[k]
  }

  function CreatesOf(a: Api, asked: Asked, k: Key): nat {
    if k in asked.keys && k !in a.server.objects then 1 else 0
  }

  /** Created once if it was missing; and updated, under its own id, as often as it is declared once it is there,
      unless the strategy is to create only. */
  ghost predicate KeyFollows(a: Api, b: Api, asked: Asked, createOnly: bool, k: Key)
    requires a.trace <= b.trace
  {
    && multiset(Since(a, b))[Creates(k)] == CreatesOf(a, asked, k)
    && forall id :: multiset(Since(a, b))[Updates(k, id)] ==
         if createOnly || k !in asked.keys || id != IdFor(b.server, k) then 0
         else asked.keys[k] - CreatesOf(a, asked, k)
  }

  ghost predicate KeysFollow(a: Api, b: Api, asked: Asked, createOnly: bool)
    requires a.trace <= b.trace
  {
    && (forall k :: KeyFollows(a, b, asked, createOnly, k))
    && (forall k :: k in asked.keys ==> !k.ServiceAccount?)
    && forall k: Key :: !k.ServiceAccount? ==> (k in b.server.objects <==> k in a.server.objects || k in asked.keys)
  }

  predicate Asks(w: Write, m: Mapping, n: string) {
    w.Grants? && w.mapping == m && n in Names(w.refs)
  }

  /** Each role asked for is declared, missing, and called by the id it has. */
  ghost predicate GrantFollows(a: Api, b: Api, asked: Asked, w: Write) {
    w.Grants? ==>
      && w.refs != []
      && (forall n :: n in Names(w.refs) ==> (w.mapping, n) in asked.roles && n !in Mapped(a.server, w.mapping))
      && forall i :: 0 <= i < |w.refs| ==>
           Lookup(b.server, RoleKey(w.mapping.realm, w.mapping.client, w.refs[i].name)) == Some(w.refs[i].id)
  }

  /** Lists end as they were with the declared roles; what is missing of those is asked for, and only once. */
  ghost predicate RolesFollow(a: Api, b: Api, asked: Asked)
    requires a.trace <= b.trace
  {
    && (forall m, n :: n in Mapped(b.server, m) <==> n in Mapped(a.server, m) || (m, n) in asked.roles)
    && (forall w :: w in Since(a, b) ==> GrantFollows(a, b, asked, w))
    && (forall m, n :: (m, n) in asked.roles && n !in Mapped(a.server, m) ==>
          exists w :: w in Since(a, b) && Asks(w, m, n))
    && forall i, j, m, n :: 0 <= i < j < |Since(a, b)| && Asks(Since(a, b)[i], m, n) ==> !Asks(Since(a, b)[j], m, n)
  }

  ghost predicate JoinsFollow(a: Api, b: Api, asked: Asked)
    requires a.trace <= b.trace
  {
    && b.server.memberships == a.server.memberships + asked.joins
    && forall m :: multiset(Since(a, b))[Joins(m)] == if m in asked.joins && m !in a.server.memberships then 1 else 0
  }

  /** The requests sent from `a` to `b` are those that what is declared calls for. */
  ghost predicate Follows(a: Api, b: Api, asked: Asked, createOnly: bool) {
    && a.overlay.None? && b.overlay.None? && Grows(a.server, b.server) && b.server.realms == a.server.realms
    && a.trace <= b.trace
    && KeysFollow(a, b, asked, createOnly) && RolesFollow(a, b, asked) && JoinsFollow(a, b, asked)
    && forall w :: w in Since(a, b) ==> !w.CreatesRealm? && !w.UpdatesRealm?
  }

  // ---------- one after the other ----------

  lemma SinceBoth(a: Api, b: Api, c: Api)
    requires a.trace <= b.trace <= c.trace
    ensures a.trace <= c.trace && Since(a, c) == Since(a, b) + Since(b, c)
    ensures multiset(Since(a, c)) == multiset(Since(a, b)) + multiset(Since(b, c))
  {
    assert c.trace == b.trace + c.trace[|b.trace|..];
    assert Since(a, c) == Since(a, b) + Since(b, c);
  }

  lemma KeysFollowBoth(a: Api, b: Api, c: Api, x: Asked, y: Asked, createOnly: bool)
    requires a.trace <= b.trace <= c.trace && Grows(b.server, c.server)
    requires KeysFollow(a, b, x, createOnly) && KeysFollow(b, c, y, createOnly)
    ensures a.trace <= c.trace && KeysFollow(a, c, Both(x, y), createOnly)
  {
    SinceBoth(a, b, c);
    var z := Both(x, y);
    forall k ensures KeyFollows(a, c, z, createOnly, k) {
      assert KeyFollows(a, b, x, createOnly, k) && KeyFollows(b, c, y, createOnly, k);
      assert k in x.keys ==> IdFor(b.server, k) == IdFor(c.server, k);
      assert CreatesOf(a, z, k) == CreatesOf(a, x, k) + CreatesOf(b, y, k);
      hide Grows, KeysFollow;
    }
  }

  lemma GrantsFollowBoth(a: Api, b: Api, c: Api, x: Asked, y: Asked, w: Write)
    requires Grows(a.server, b.server) && Grows(b.server, c.server)
    requires GrantFollows(a, b, x, w) || GrantFollows(b, c, y, w)
    ensures GrantFollows(a, c, Both(x, y), w)
  {
    if w.Grants? {
      assert Mapped(a.server, w.mapping) <= Mapped(b.server, w.mapping);
    }
  }

  /** What the first part asks for is there when the second begins. */
  lemma AskedIsThere(a: Api, b: Api, x: Asked, i: nat, m: Mapping, n: string)
    requires a.trace <= b.trace && RolesFollow(a, b, x) && i < |Since(a, b)| && Asks(Since(a, b)[i], m, n)
    ensures n in Mapped(b.server, m)
  {
    assert Since(a, b)[i] in Since(a, b);
    assert GrantFollows(a, b, x, Since(a, b)[i]);
  }

  lemma AskedIsMissing(b: Api, c: Api, y: Asked, j: nat, m: Mapping, n: string)
    requires b.trace <= c.trace && RolesFollow(b, c, y) && j < |Since(b, c)| && Asks(Since(b, c)[j], m, n)
    ensures n !in Mapped(b.server, m)
  {
    assert Since(b, c)[j] in Since(b, c);
    assert GrantFollows(b, c, y, Since(b, c)[j]);
  }

  lemma RolesFollowBoth(a: Api, b: Api, c: Api, x: Asked, y: Asked)
    requires a.trace <= b.trace <= c.trace && Grows(a.server, b.server) && Grows(b.server, c.server)
    requires RolesFollow(a, b, x) && RolesFollow(b, c, y)
    ensures a.trace <= c.trace && RolesFollow(a, c, Both(x, y))
  {
    SinceBoth(a, b, c);
    hide Grows, Asks, GrantFollows, Mapped;
    var z, xs, ys, all := Both(x, y), Since(a, b), Since(b, c), Since(a, c);
    forall w | w in all ensures GrantFollows(a, c, z, w) {
      GrantsFollowBoth(a, b, c, x, y, w);
    }
    forall m, n | (m, n) in z.roles && n !in Mapped(a.server, m) ensures exists w :: w in all && Asks(w, m, n) {
      if (m, n) in x.roles {
        var w :| w in xs && Asks(w, m, n);
        assert w in all;
      } else {
        var w :| w in ys && Asks(w, m, n);
        assert w in all;
      }
    }
    forall i, j, m, n | 0 <= i < j < |all| && Asks(all[i], m, n) ensures !Asks(all[j], m, n) {
      OnceInBoth(a, b, c, x, y, i, j, m, n);
    }
  }

  lemma OnceInBoth(a: Api, b: Api, c: Api, x: Asked, y: Asked, i: nat, j: nat, m: Mapping, n: string)
    requires a.trace <= b.trace <= c.trace && RolesFollow(a, b, x) && RolesFollow(b, c, y)
    requires i < j < |c.trace| - |a.trace| && Asks(Since(a, c)[i], m, n)
    ensures !Asks(Since(a, c)[j], m, n)
  {
    SinceBoth(a, b, c);
    hide Asks, GrantFollows;
    var xs, ys := Since(a, b), Since(b, c);
    assert Since(a, c)[i] == if i < |xs| then xs[i] else ys[i - |xs|];
    assert Since(a, c)[j] == if j < |xs| then xs[j] else ys[j - |xs|];
    if i < |xs| <= j && Asks(Since(a, c)[j], m, n) {
      AskedIsMissing(b, c, y, j - |xs|, m, n);
      AskedIsThere(a, b, x, i, m, n);
    }
  }

  lemma JoinsFollowBoth(a: Api, b: Api, c: Api, x: Asked, y: Asked)
    requires a.trace <= b.trace <= c.trace && JoinsFollow(a, b, x) && JoinsFollow(b, c, y)
    ensures a.trace <= c.trace && JoinsFollow(a, c, Both(x, y))
  {
    SinceBoth(a, b, c);
  }

  lemma FollowsBoth(a: Api, b: Api, c: Api, x: Asked, y: Asked, createOnly: bool)
    requires Follows(a, b, x, createOnly) && Follows(b, c, y, createOnly)
    ensures Follows(a, c, Both(x, y), createOnly)
  {
    hide KeysFollow, RolesFollow, JoinsFollow, Grows;
    SinceBoth(a, b, c);
    GrowsTransitive(a.server, b.server, c.server);
    KeysFollowBoth(a, b, c, x, y, createOnly);
    RolesFollowBoth(a, b, c, x, y);
    JoinsFollowBoth(a, b, c, x, y);
  }

  lemma NothingAsked(a: Api, createOnly: bool)
    requires a.overlay.None?
    ensures Follows(a, a, NOTHING, createOnly)
  {
    assert Since(a, a) == [];
  }

  lemma BothWithNothing(x: Asked)
    ensures Both(x, NOTHING) == x && Both(NOTHING, x) == x
  {}

  // ---------- single requests ----------

  lemma SinceRecorded(a: Api, b: Api, w: Write)
    requires b.trace == a.trace + [w]
    ensures a.trace <= b.trace && Since(a, b) == [w] && multiset(Since(a, b)) == multiset{w}
  {}

  /** A request about an object alone. */
  lemma OnlyAnObject(a: Api, b: Api, w: Write, k: Key)
    requires b.trace == a.trace + [w] && (w.Creates? || w.Updates?)
    requires b.server.mappings == a.server.mappings && b.server.memberships == a.server.memberships
    ensures a.trace <= b.trace && RolesFollow(a, b, KeyAsked(k)) && JoinsFollow(a, b, KeyAsked(k))
    ensures forall x :: x in Since(a, b) ==> !x.CreatesRealm? && !x.UpdatesRealm?
  {
    SinceRecorded(a, b, w);
  }

  lemma NewKeyFollows(a: Api, b: Api, k: Key, createOnly: bool)
    requires b.trace == a.trace + [Creates(k)] && k !in a.server.objects && !k.ServiceAccount?
    requires forall x: Key :: !x.ServiceAccount? ==> (x in b.server.objects <==> x in a.server.objects || x == k)
    ensures a.trace <= b.trace && KeysFollow(a, b, KeyAsked(k), createOnly)
  {
    SinceRecorded(a, b, Creates(k));
  }

  lemma OldKeyFollows(a: Api, b: Api, k: Key, id: Id)
    requires b.trace == a.trace + [Updates(k, id)] && k in a.server.objects && !k.ServiceAccount?
    requires id == IdFor(b.server, k)
    requires forall x: Key :: !x.ServiceAccount? ==> (x in b.server.objects <==> x in a.server.objects)
    ensures a.trace <= b.trace && KeysFollow(a, b, KeyAsked(k), false)
  {
    SinceRecorded(a, b, Updates(k, id));
  }

  lemma CreateFollows(a: Api, k: Key, serviceAccount: bool, createOnly: bool)
    requires a.overlay.None? && Accepts(a.server, k) && !k.ServiceAccount?
    requires Grows(a.server, Create(a, k, serviceAccount).0.server)
    ensures Follows(a, Create(a, k, serviceAccount).0, KeyAsked(k), createOnly)
  {
    hide KeysFollow, RolesFollow, JoinsFollow, Grows, ServerId;
    var b := Create(a, k, serviceAccount).0;
    OnlyAnObject(a, b, Creates(k), k);
    NewKeyFollows(a, b, k, createOnly);
  }

  lemma UpdateFollows(a: Api, k: Key, id: Id, serviceAccount: bool)
    requires a.overlay.None? && k in a.server.objects && !k.ServiceAccount? && id == IdFor(a.server, k)
    requires Grows(a.server, Update(a, k, id, serviceAccount).server)
    ensures Follows(a, Update(a, k, id, serviceAccount), KeyAsked(k), false)
  {
    hide KeysFollow, RolesFollow, JoinsFollow, ServerId;
    var b := Update(a, k, id, serviceAccount);
    OnlyAnObject(a, b, Updates(k, id), k);
    OldKeyFollows(a, b, k, id);
    hide Grows;
  }

  lemma SkipFollows(a: Api, k: Key)
    requires a.overlay.None? && k in a.server.objects && !k.ServiceAccount?
    ensures Follows(a, a, KeyAsked(k), true)
  {
    assert Since(a, a) == [];
  }

  function AskedOf(m: Mapping, refs: seq<RoleRef>): Asked {
    Asked(multiset{}, set n | n in Names(refs) :: (m, n), {})
  }

  lemma GrantedRolesFollow(a: Api, b: Api, m: Mapping, refs: seq<RoleRef>)
    requires AcceptsMapping(a.server, m, refs) && refs != [] && Names(refs) !! Mapped(a.server, m)
    requires b.trace == a.trace + [Grants(m, refs)] && b.server == AddMapping(a.server, m, refs)
    ensures a.trace <= b.trace && RolesFollow(a, b, AskedOf(m, refs))
  {
    hide HolderKnown, RoleKey;
    SinceRecorded(a, b, Grants(m, refs));
    var asked := AskedOf(m, refs);
    assert Since(a, b)[0] == Grants(m, refs);
    forall x, n ensures n in Mapped(b.server, x) <==> n in Mapped(a.server, x) || (x, n) in asked.roles {}
    forall x, n | (x, n) in asked.roles ensures exists w :: w in Since(a, b) && Asks(w, x, n) {
      assert Grants(m, refs) in Since(a, b) && Asks(Grants(m, refs), x, n);
    }
  }

  lemma GrantedFollows(a: Api, m: Mapping, refs: seq<RoleRef>, createOnly: bool)
    requires a.overlay.None? && AcceptsMapping(a.server, m, refs) && refs != []
    requires Names(refs) !! Mapped(a.server, m) && Grows(a.server, AddMapping(a.server, m, refs))
    ensures Follows(a, Grant(a, m, refs).0, AskedOf(m, refs), createOnly)
  {
    hide Grows, RolesFollow, Mapped, HolderKnown;
    var b := Grant(a, m, refs).0;
    SinceRecorded(a, b, Grants(m, refs));
    GrantedRolesFollow(a, b, m, refs);
  }

  lemma JoinFollows(a: Api, m: Membership, createOnly: bool)
    requires a.overlay.None? && AcceptsMember(a.server, m) && m !in a.server.memberships
    requires Grows(a.server, AddToGroup(a, m).0.server)
    ensures Follows(a, AddToGroup(a, m).0, Asked(multiset{}, {}, {m}), createOnly)
  {
    SinceRecorded(a, AddToGroup(a, m).0, Joins(m));
    hide Grows;
  }

  /** What is there already calls for no request. */
  lemma HeldFollows(a: Api, m: Mapping, names: set<string>, createOnly: bool)
    requires a.overlay.None? && names <= Mapped(a.server, m)
    ensures Follows(a, a, Asked(multiset{}, set n | n in names :: (m, n), {}), createOnly)
  {
    assert Since(a, a) == [];
  }
}
