/** A dry run issues the same requests as the run it predicts (internal/provisioner/dryrun.go), up to the ids of what
    is created on the way: `phi` maps each synthetic id to the id the server gives. */
module Simulation {
  import opened Text
  import opened Ids
  import opened Directory
  import opened Reconcile
  import opened LiveRuns
  import opened GroupTrees

  type Phi = map<Id, Id>

  // ---------- renaming ----------

  function R(phi: Phi, id: Id): Id {
    if id in phi then phi[id] else id
  }

  function RKey(phi: Phi, k: Key): Key {
    match k
    case ClientRole(realm, client, name) => ClientRole(realm, R(phi, client), name)
    case Group(realm, parent, name) => Directory.Group(realm, R(phi, parent), name)
    case ServiceAccount(realm, client) => ServiceAccount(realm, R(phi, client))
    case _ => k
  }

  function RMapping(phi: Phi, m: Mapping): Mapping {
    m.(holder := R(phi, m.holder), client := R(phi, m.client))
  }

  function RRefs(phi: Phi, refs: seq<RoleRef>): seq<RoleRef> {
    seq(|refs|, i requires 0 <= i < |refs| => RoleRef(R(phi, refs[i].id), refs[i].name))
  }

  function RWrite(phi: Phi, w: Write): Write {
    match w
    case Creates(k) => Creates(RKey(phi, k))
    case Updates(k, id) => Updates(RKey(phi, k), R(phi, id))
    case Grants(m, refs) => Grants(RMapping(phi, m), RRefs(phi, refs))
    case Joins(m) => Joins(Membership(R(phi, m.user), R(phi, m.group)))
    case _ => w
  }

  function RTrace(phi: Phi, ws: seq<Write>): seq<Write> {
    seq(|ws|, i requires 0 <= i < |ws| => RWrite(phi, ws[i]))
  }

  function ROpt(phi: Phi, id: Option<Id>): Option<Id> {
    if id.None? then None else Some(R(phi, id.value))
  }

  // ---------- the relation ----------

  /** Ids a dry run can come across: none, its own, and those the server had before the run. */
  ghost predicate Ours(phi: Phi, s0: Server, id: Id) {
    id == "" || id in phi || id in s0.owner
  }

  ghost predicate WriteIsOurs(phi: Phi, s0: Server, w: Write) {
    match w
    case Creates(k) => Ours(phi, s0, Container(k))
    case Updates(k, id) => Ours(phi, s0, Container(k)) && Ours(phi, s0, id)
    case Grants(m, refs) =>
      Ours(phi, s0, m.holder) && Ours(phi, s0, m.client) && forall i :: 0 <= i < |refs| ==> Ours(phi, s0, refs[i].id)
    case Joins(m) => Ours(phi, s0, m.user) && Ours(phi, s0, m.group)
    case _ => true
  }

  /** Synthetic ids handed out so far, one to one with ids the server made up since the start. */
  ghost predicate PhiOk(phi: Phi, s0: Server, s: Server, o: Overlay) {
    && (forall d :: d in phi ==> IsSyntheticID(d) && phi[d] in s.owner && phi[d] !in s0.owner)
    && (forall d, e :: d in phi && e in phi && phi[d] == phi[e] ==> d == e)
    && (forall kind: string, n: nat :: n > o.seqNo ==> NewId(kind, n) !in phi)
  }

  ghost predicate RealmsOk(s0: Server, s: Server, o: Overlay) {
    o.realms !! s0.realms && s.realms == s0.realms + o.realms
  }

  ghost predicate CreatedOk(phi: Phi, s0: Server, o: Overlay) {
    forall k :: k in o.created ==>
      o.created[k] in phi && Ours(phi, s0, Container(k)) && k.realm in s0.realms + o.realms
  }

  /** The realm-management client of a new realm, as long as nobody has asked for it. */
  predicate Unseen(o: Overlay, k: Key) {
    k.Client? && k.clientId == REALM_MANAGEMENT && k.realm in o.realms && k !in o.created
  }

  /** Lookups agree, except for service accounts and what is unseen. */
  ghost predicate ObjectsAgree(phi: Phi, s0: Server, L: Api, D: Api)
    requires D.overlay.Some?
  {
    forall k: Key :: Ours(phi, s0, Container(k)) && !k.ServiceAccount? && !Unseen(D.overlay.value, k) ==>
      ROpt(phi, Peek(D, k)) == Lookup(L.server, RKey(phi, k))
  }

  /** `id` is nobody's, and nothing is in it or held by it. */
  ghost predicate Idle(phi: Phi, s0: Server, t: Server, id: Id) {
    && id !in s0.owner && id !in phi.Values && (forall x :: x in t.objects ==> Container(x) != id)
    && forall m :: m in t.mappings ==> m.holder != id && m.client != id
  }

  /** An unseen client is there on the server, with nothing in it and under an id nobody holds. */
  ghost predicate UnseenOk(phi: Phi, s0: Server, s: Server, o: Overlay) {
    forall k: Key :: Unseen(o, k) ==> k in s.objects && Idle(phi, s0, s, s.objects[k])
  }

  /** Role mappings agree, except for the lists in `T`, which the live run has added to. */
  ghost predicate MappingsAgree(phi: Phi, s0: Server, L: Api, D: Api, T: set<Mapping>) {
    forall m: Mapping :: Ours(phi, s0, m.holder) && Ours(phi, s0, m.client) && RMapping(phi, m) !in T ==>
      MappedIn(D, m) == Mapped(L.server, RMapping(phi, m))
  }

  /** A service account the dry run has asked about is tied to the one on the server. */
  ghost predicate AccountsTied(phi: Phi, s: Server, o: Overlay) {
    forall k: Key :: k in o.created && k.ServiceAccount? ==>
      o.created[k] in phi && RKey(phi, k) in s.objects && s.objects[RKey(phi, k)] == phi[o.created[k]]
  }

  /** One it has not asked about is on the server or not, but nobody knows it. */
  ghost predicate AccountsFree(phi: Phi, s0: Server, s: Server, o: Overlay) {
    forall k: Key :: k.ServiceAccount? && Ours(phi, s0, k.client) && k !in o.created && RKey(phi, k) in s.objects ==>
      s.objects[RKey(phi, k)] !in phi.Values
  }

  /** Nothing is granted to anyone unknown. */
  ghost predicate HoldersSeen(phi: Phi, s0: Server, s: Server) {
    forall m :: m in s.mappings && m.holder in s.owner ==> m.holder in s0.owner || m.holder in phi.Values
  }

  ghost predicate AccountsOk(phi: Phi, s0: Server, s: Server, o: Overlay) {
    AccountsTied(phi, s, o) && AccountsFree(phi, s0, s, o) && HoldersSeen(phi, s0, s)
  }

  ghost predicate TracesAgree(phi: Phi, s0: Server, L: Api, D: Api) {
    && (forall i :: 0 <= i < |D.trace| ==> WriteIsOurs(phi, s0, D.trace[i]))
    && L.trace == RTrace(phi, D.trace)
  }

  ghost predicate Shape(s0: Server, L: Api, D: Api) {
    && L.overlay.None? && D.overlay.Some? && D.server == s0
    && WellFormed(s0) && WellFormed(L.server) && Grows(s0, L.server)
  }

  ghost predicate Sim(phi: Phi, s0: Server, L: Api, D: Api, T: set<Mapping>) {
    && Shape(s0, L, D)
    && var o := D.overlay.value;
    && PhiOk(phi, s0, L.server, o) && RealmsOk(s0, L.server, o) && CreatedOk(phi, s0, o)
    && ObjectsAgree(phi, s0, L, D) && UnseenOk(phi, s0, L.server, o) && AccountsOk(phi, s0, L.server, o)
    && MappingsAgree(phi, s0, L, D, T) && TracesAgree(phi, s0, L, D)
  }

  // ---------- facts about renaming ----------

  lemma OursIsInjective(phi: Phi, s0: Server, s: Server, o: Overlay, c: Id, d: Id)
    requires PhiOk(phi, s0, s, o) && OwnersOk(s) && OwnersOk(s0) && Ours(phi, s0, c) && Ours(phi, s0, d)
    ensures R(phi, c) == R(phi, d) ==> c == d
  {}

  /** The next synthetic id is nobody's yet. */
  lemma NextSyntheticIsNew(phi: Phi, s0: Server, s: Server, o: Overlay, k: Key)
    requires PhiOk(phi, s0, s, o) && OwnersOk(s0)
    ensures !Ours(phi, s0, NewSynthetic(o, k))
    ensures IsSyntheticID(NewSynthetic(o, k))
    ensures forall kind: string, n: nat :: n > o.seqNo + 1 ==> NewId(kind, n) != NewSynthetic(o, k)
  {
    NewIdInjective(Kind(k), o.seqNo + 1, Kind(k), o.seqNo + 1);
    forall kind: string, n: nat | n > o.seqNo + 1 ensures NewId(kind, n) != NewSynthetic(o, k) {
      NewIdInjective(kind, n, Kind(k), o.seqNo + 1);
    }
  }

  ghost predicate Extends(phi: Phi, psi: Phi) {
    forall d :: d in phi ==> d in psi && psi[d] == phi[d]
  }

  /** Learning about one more id does not change how what was known before is renamed. */
  lemma RenamingIsStable(phi: Phi, psi: Phi, s0: Server, ws: seq<Write>)
    requires Extends(phi, psi) && forall d :: Ours(phi, s0, d) && d in psi ==> d in phi
    requires forall i :: 0 <= i < |ws| ==> WriteIsOurs(phi, s0, ws[i])
    ensures RTrace(psi, ws) == RTrace(phi, ws)
    ensures forall i :: 0 <= i < |ws| ==> WriteIsOurs(psi, s0, ws[i])
  {
    forall i | 0 <= i < |ws| ensures RWrite(psi, ws[i]) == RWrite(phi, ws[i]) {
      assert WriteIsOurs(phi, s0, ws[i]);
      match ws[i] {
        case Grants(m, refs) => assert RRefs(psi, refs) == RRefs(phi, refs);
        case _ =>
      }
    }
  }

  /** Recording corresponding writes keeps the traces in step. */
  lemma RecordBoth(phi: Phi, s0: Server, L: Api, D: Api, w: Write)
    requires TracesAgree(phi, s0, L, D) && WriteIsOurs(phi, s0, w)
    ensures TracesAgree(phi, s0, Record(L, RWrite(phi, w)), Record(D, w))
  {}

  /** The record of requests is not consulted by anything. */
  lemma RecordsDoNotMatter(phi: Phi, s0: Server, L: Api, D: Api, L1: Api, D1: Api, T: set<Mapping>)
    requires L1 == L.(trace := L1.trace) && D1 == D.(trace := D1.trace) && D.overlay.Some?
    requires ObjectsAgree(phi, s0, L, D) && MappingsAgree(phi, s0, L, D, T) && Shape(s0, L, D)
    ensures ObjectsAgree(phi, s0, L1, D1) && MappingsAgree(phi, s0, L1, D1, T) && Shape(s0, L1, D1)
  {
    hide WellFormed, Grows;
    assert forall k :: Peek(D1, k) == Peek(D, k);
    assert forall m :: MappedIn(D1, m) == MappedIn(D, m);
  }

  lemma RecordFacts(a: Api, w: Write)
    ensures Record(a, w) == a.(trace := a.trace + [w])
  {}

  lemma WriteFacts(phi: Phi, s0: Server, k: Key, id: Id)
    ensures RWrite(phi, Creates(k)) == Creates(RKey(phi, k))
    ensures RWrite(phi, Updates(k, id)) == Updates(RKey(phi, k), R(phi, id))
    ensures Ours(phi, s0, Container(k)) ==> WriteIsOurs(phi, s0, Creates(k))
    ensures Ours(phi, s0, Container(k)) && Ours(phi, s0, id) ==> WriteIsOurs(phi, s0, Updates(k, id))
  {}

  lemma SimRecord(phi: Phi, s0: Server, L: Api, D: Api, T: set<Mapping>, w: Write)
    requires Sim(phi, s0, L, D, T) && WriteIsOurs(phi, s0, w)
    ensures Sim(phi, s0, Record(L, RWrite(phi, w)), Record(D, w), T)
  {
    hide PhiOk, RealmsOk, CreatedOk, ObjectsAgree, UnseenOk, AccountsOk, MappingsAgree, TracesAgree, WriteIsOurs,
        Directory.WellFormed, Grows;
    RecordBoth(phi, s0, L, D, w);
    RecordsDoNotMatter(phi, s0, L, D, Record(L, RWrite(phi, w)), Record(D, w), T);
  }

  // ---------- one more synthetic id ----------

  /** How things look after `k`'s next synthetic id has been tied to the live id `id`. */
  lemma OneMoreId(phi: Phi, s0: Server, s: Server, o: Overlay, k: Key, id: Id)
    requires PhiOk(phi, s0, s, o) && OwnersOk(s0)
    ensures
      var psi := phi[NewSynthetic(o, k) := id];
      && Extends(phi, psi)
      && (forall d :: Ours(psi, s0, d) <==> Ours(phi, s0, d) || d == NewSynthetic(o, k))
      && (forall d :: Ours(phi, s0, d) ==> R(psi, d) == R(phi, d) && d != NewSynthetic(o, k))
      && (forall x: Key :: Ours(phi, s0, Container(x)) ==> RKey(psi, x) == RKey(phi, x))
      && (forall m: Mapping :: Ours(phi, s0, m.holder) && Ours(phi, s0, m.client) ==>
        RMapping(psi, m) == RMapping(phi, m))
  {
    NextSyntheticIsNew(phi, s0, s, o, k);
  }

  /** The new pair keeps the renaming one to one. */
  lemma OneMorePair(phi: Phi, s0: Server, s: Server, t: Server, o: Overlay, k: Key, id: Id)
    requires PhiOk(phi, s0, s, o) && OwnersOk(s0) && Grows(s, t)
    requires id in t.owner && id !in s0.owner && id !in phi.Values
    ensures PhiOk(phi[NewSynthetic(o, k) := id], s0, t, Pretend(o, k))
  {
    NextSyntheticIsNew(phi, s0, s, o, k);
    var psi := phi[NewSynthetic(o, k) := id];
    forall d, e | d in psi && e in psi && psi[d] == psi[e] ensures d == e {
      assert d in phi ==> phi[d] in phi.Values;
      assert e in phi ==> phi[e] in phi.Values;
    }
  }

  /** Both runs create: the server adds the object, the overlay pretends to. Nothing is recorded yet. */
  function AddedLive(L: Api, k: Key): Api {
    L.(server := Add(L.server, k))
  }

  function Pretended(D: Api, k: Key): Api
    requires D.overlay.Some?
  {
    D.(overlay := Some(Pretend(D.overlay.value, k)))
  }

  /** The request is new to both sides. */
  ghost predicate Creatable(phi: Phi, s0: Server, L: Api, D: Api, k: Key) {
    && D.overlay.Some? && Ours(phi, s0, Container(k)) && !k.ServiceAccount? && !k.User?
    && Peek(D, k).None? && !Unseen(D.overlay.value, k) && Accepts(L.server, RKey(phi, k))
  }

  lemma KeysStayApart(phi: Phi, s0: Server, s: Server, o: Overlay, j: Key, k: Key)
    requires PhiOk(phi, s0, s, o) && OwnersOk(s) && OwnersOk(s0)
    requires Ours(phi, s0, Container(j)) && Ours(phi, s0, Container(k))
    ensures RKey(phi, j) == RKey(phi, k) ==> j == k
  {
    OursIsInjective(phi, s0, s, o, Container(j), Container(k));
  }

  lemma PeekIsOurs(phi: Phi, s0: Server, D: Api, x: Key)
    requires D.overlay.Some? && D.server == s0 && ObjectsOk(s0) && CreatedOk(phi, s0, D.overlay.value)
    ensures Peek(D, x).Some? ==> Ours(phi, s0, Peek(D, x).value)
  {}

  /** Nothing is in a container nobody has heard of. */
  lemma NothingInside(phi: Phi, s0: Server, D: Api, d: Id, x: Key)
    requires D.overlay.Some? && CreatedOk(phi, s0, D.overlay.value)
    requires IsSyntheticID(d) && !Ours(phi, s0, d) && Container(x) == d
    ensures Peek(D, x).None? && x !in D.overlay.value.created
  {}

  lemma CreateObjectAgrees(phi: Phi, psi: Phi, s0: Server, L: Api, D: Api, k: Key, x: Key)
    requires L.overlay.None? && D.overlay.Some? && D.server == s0 && ObjectsOk(s0)
    requires CreatedOk(phi, s0, D.overlay.value)
    requires !k.User? && Ours(phi, s0, Container(x)) && !x.ServiceAccount? && !Unseen(Pretend(D.overlay.value, k), x)
    requires x != k && RKey(phi, x) != RKey(phi, k) && RKey(psi, x) == RKey(phi, x)
    requires !Unseen(D.overlay.value, x) ==> ROpt(phi, Peek(D, x)) == Lookup(L.server, RKey(phi, x))
    requires forall d :: Ours(phi, s0, d) ==> R(psi, d) == R(phi, d)
    ensures ROpt(psi, Peek(Pretended(D, k), x)) == Lookup(AddedLive(L, RKey(phi, k)).server, RKey(psi, x))
  {
    PeekIsOurs(phi, s0, D, x);
    assert Peek(Pretended(D, k), x) == Peek(D, x);
  }

  /** What lies inside the thing just created: nothing, on either side. */
  lemma NewContainerIsEmpty(phi: Phi, s0: Server, s: Server, D: Api, k: Key, lk: Key, x: Key)
    requires ObjectsOk(s) && OwnersOk(s) && PathsOk(s) && OwnersOk(s0) && Container(lk) != ServerId(s.next)
    requires D.overlay.Some? && PhiOk(phi, s0, s, D.overlay.value) && CreatedOk(phi, s0, D.overlay.value)
    requires Ours(phi, s0, Container(k)) && Container(x) == NewSynthetic(D.overlay.value, k)
    ensures Peek(Pretended(D, k), x).None?
    ensures Lookup(Add(s, lk), RKey(phi[NewSynthetic(D.overlay.value, k) := ServerId(s.next)], x)) == None
  {
    var o := D.overlay.value;
    NextSyntheticIsNew(phi, s0, s, o, k);
    NextId(s);
    NothingInside(phi, s0, D, NewSynthetic(o, k), x);
    assert Container(RKey(phi[NewSynthetic(o, k) := ServerId(s.next)], x)) == ServerId(s.next);
  }

  lemma CreateObjectsAgree(phi: Phi, s0: Server, L: Api, D: Api, T: set<Mapping>, k: Key)
    requires Sim(phi, s0, L, D, T) && Creatable(phi, s0, L, D, k)
    ensures
      var psi := phi[NewSynthetic(D.overlay.value, k) := ServerId(L.server.next)];
      ObjectsAgree(psi, s0, AddedLive(L, RKey(phi, k)), Pretended(D, k))
  {
    var o, s, lk := D.overlay.value, L.server, RKey(phi, k);
    var psi := phi[NewSynthetic(o, k) := ServerId(s.next)];
    OneMoreId(phi, s0, s, o, k, ServerId(s.next));
    forall x: Key | Ours(psi, s0, Container(x)) && !x.ServiceAccount? && !Unseen(Pretend(o, k), x)
      ensures ROpt(psi, Peek(Pretended(D, k), x)) == Lookup(AddedLive(L, lk).server, RKey(psi, x))
    {
      if Container(x) == NewSynthetic(o, k) {
        NextId(s);
        assert ContainerKnown(s, lk);
        NewContainerIsEmpty(phi, s0, s, D, k, lk, x);
      } else if x == k {
        assert RKey(psi, x) == lk;
      } else {
        KeysStayApart(phi, s0, s, o, x, k);
        CreateObjectAgrees(phi, psi, s0, L, D, k, x);
      }
    }
  }

  /** The server has no mapping list for an id that does not exist yet. */
  lemma NoMappingYet(s: Server, m: Mapping)
    requires MappingsOk(s) && (m.holder == ServerId(s.next) || m.client == ServerId(s.next))
    ensures Mapped(s, m) == {}
  {
    assert Unborn(s, ServerId(s.next));
  }

  lemma CreateMappingsAgree(phi: Phi, s0: Server, L: Api, D: Api, T: set<Mapping>, k: Key)
    requires D.overlay.Some? && PhiOk(phi, s0, L.server, D.overlay.value) && OwnersOk(s0) && MappingsOk(L.server)
    requires MappingsAgree(phi, s0, L, D, T)
    ensures
      var psi := phi[NewSynthetic(D.overlay.value, k) := ServerId(L.server.next)];
      MappingsAgree(psi, s0, AddedLive(L, RKey(phi, k)), Pretended(D, k), T)
  {
    var o, s := D.overlay.value, L.server;
    var d, id := NewSynthetic(o, k), ServerId(s.next);
    var psi := phi[d := id];
    OneMoreId(phi, s0, s, o, k, id);
    NextSyntheticIsNew(phi, s0, s, o, k);
    hide PhiOk, OwnersOk, MappingsOk, Ours;
    forall m: Mapping | Ours(psi, s0, m.holder) && Ours(psi, s0, m.client) && RMapping(psi, m) !in T
      ensures MappedIn(Pretended(D, k), m) == Mapped(AddedLive(L, RKey(phi, k)).server, RMapping(psi, m))
    {
      if m.holder == d || m.client == d {
        NoMappingYet(s, RMapping(psi, m));
      } else {
        assert RMapping(psi, m) == RMapping(phi, m);
        assert MappedIn(Pretended(D, k), m) == MappedIn(D, m);
      }
    }
  }

  /** An unseen client stays unseen when something else is created. */
  lemma CreateUnseenOne(phi: Phi, s0: Server, s: Server, o: Overlay, k: Key, lk: Key, u: Key)
    requires UnseenOk(phi, s0, s, o) && lk !in s.objects && ServerId(s.next) !in s.objects.Values
    requires lk == RKey(phi, k) && Unseen(Pretend(o, k), u) &&
        (forall v: Key :: Unseen(o, v) ==> s.objects[v] != Container(lk))
    ensures
      var t := Add(s, lk);
      && u in t.objects && t.objects[u] == s.objects[u] && t.objects[u] !in s0.owner && t.objects[u] !in phi.Values
      && t.objects[u] != ServerId(s.next) &&
        (forall x :: x in t.objects ==> Container(x) != t.objects[u])
      && forall m :: m in t.mappings ==> m.holder != t.objects[u] && m.client != t.objects[u]
  {
    assert Unseen(o, u);
    assert s.objects[u] in s.objects.Values;
  }

  /** What is created does not go into an unseen client. */
  lemma NotIntoUnseen(phi: Phi, s0: Server, L: Api, D: Api, T: set<Mapping>, k: Key)
    requires Sim(phi, s0, L, D, T) && Creatable(phi, s0, L, D, k)
    ensures forall v: Key :: Unseen(D.overlay.value, v) ==>
        v in L.server.objects && L.server.objects[v] != Container(RKey(phi, k))
    ensures UnseenOk(phi, s0, L.server, D.overlay.value) && RKey(phi, k) !in L.server.objects
    ensures ServerId(L.server.next) !in L.server.objects.Values
  {
    NextId(L.server);
    UnseenIsNotOurs(phi, s0, L.server, D.overlay.value, Container(k));
    EmptyIdIsEmpty(phi, s0, L, D, T, Container(k));
    assert Container(RKey(phi, k)) == R(phi, Container(k));
  }

  lemma CreateUnseen(phi: Phi, s0: Server, s: Server, o: Overlay, k: Key)
    requires UnseenOk(phi, s0, s, o) && RKey(phi, k) !in s.objects && ServerId(s.next) !in s.objects.Values
    requires forall v: Key :: Unseen(o, v) ==> v in s.objects && s.objects[v] != Container(RKey(phi, k))
    ensures UnseenOk(phi[NewSynthetic(o, k) := ServerId(s.next)], s0, Add(s, RKey(phi, k)), Pretend(o, k))
  {
    var psi, t := phi[NewSynthetic(o, k) := ServerId(s.next)], Add(s, RKey(phi, k));
    hide Unseen, Add, Pretend, RKey;
    forall u: Key | Unseen(Pretend(o, k), u)
      ensures u in t.objects && t.objects[u] !in s0.owner && t.objects[u] !in psi.Values
      ensures forall x :: x in t.objects ==> Container(x) != t.objects[u]
      ensures forall m :: m in t.mappings ==> m.holder != t.objects[u] && m.client != t.objects[u]
    {
      CreateUnseenOne(phi, s0, s, o, k, RKey(phi, k), u);
      assert t.objects[u] !in psi.Values by {
        forall x | x in psi ensures psi[x] != t.objects[u] {
          assert x in phi ==> phi[x] in phi.Values;
        }
      }
    }
  }

  /** Creating in step: the relation carries over, with the two new ids tied together. */
  lemma CreateBoth(phi: Phi, s0: Server, L: Api, D: Api, T: set<Mapping>, k: Key) returns (psi: Phi)
    requires Sim(phi, s0, L, D, T) && Creatable(phi, s0, L, D, k)
    ensures psi == phi[NewSynthetic(D.overlay.value, k) := ServerId(L.server.next)]
    ensures Extends(phi, psi) && Sim(psi, s0, AddedLive(L, RKey(phi, k)), Pretended(D, k), T)
  {
    var o, s, lk := D.overlay.value, L.server, RKey(phi, k);
    var id := ServerId(s.next);
    psi := phi[NewSynthetic(o, k) := id];
    AddKeeps(s, lk);
    GrowsTransitive(s0, s, Add(s, lk));
    NextId(s);
    OneMoreId(phi, s0, s, o, k, id);
    assert id !in phi.Values;
    OneMorePair(phi, s0, s, Add(s, lk), o, k, id);
    CreateObjectsAgree(phi, s0, L, D, T, k);
    CreateMappingsAgree(phi, s0, L, D, T, k);
    NotIntoUnseen(phi, s0, L, D, T, k);
    CreateUnseen(phi, s0, s, o, k);
    CreateAccounts(phi, s0, s, o, k);
    RenamingIsStable(phi, psi, s0, D.trace);
  }

  /** What is created here is no service account. */
  lemma CreateAccounts(phi: Phi, s0: Server, s: Server, o: Overlay, k: Key)
    requires WellFormed(s) && WellFormed(s0) && PhiOk(phi, s0, s, o) && CreatedOk(phi, s0, o)
    requires AccountsOk(phi, s0, s, o) && !k.ServiceAccount? && RKey(phi, k) !in s.objects
    ensures AccountsOk(phi[NewSynthetic(o, k) := ServerId(s.next)], s0, Add(s, RKey(phi, k)), Pretend(o, k))
  {
    var d, id, t, p := NewSynthetic(o, k), ServerId(s.next), Add(s, RKey(phi, k)), Pretend(o, k);
    var psi := phi[d := id];
    NextSyntheticIsNew(phi, s0, s, o, k);
    OneMoreId(phi, s0, s, o, k, id);
    NextId(s);
    OneMoreValue(phi, d, id);
    RKeyIs(phi, k);
    hide OwnersOk, ObjectsOk, PathsOk, MappingsOk, MembershipsOk, PhiOk, NewSynthetic, ServerId, RKey, Ours, R,
        AccountsTied, AccountsFree, CreatedOk, Extends;
    CreateTied(phi, s0, s, o, k, psi, t);
    FreeStays(phi, psi, s0, s, t, o, k, id);
  }

  /** An id that is no service account's is added; what was unknown of service accounts stays unknown. */
  lemma FreeStays(phi: Phi, psi: Phi, s0: Server, s: Server, t: Server, o: Overlay, k: Key, id: Id)
    requires AccountsFree(phi, s0, s, o) && psi == phi[NewSynthetic(o, k) := id] && psi.Values == phi.Values + {id}
    requires forall d :: Ours(psi, s0, d) ==> Ours(phi, s0, d) || d == NewSynthetic(o, k)
    requires forall x: Key :: Ours(phi, s0, Container(x)) ==> RKey(psi, x) == RKey(phi, x)
    requires forall x :: x in s.objects ==> Container(x) != id
    requires forall x :: x in s.objects && x.ServiceAccount? ==> s.objects[x] != id
    requires forall x :: x in t.objects && x.ServiceAccount? ==> x in s.objects && t.objects[x] == s.objects[x]
    ensures AccountsFree(psi, s0, t, Pretend(o, k))
  {
    hide RKey, Ours, NewSynthetic, R;
    var p := Pretend(o, k);
    forall x: Key | x.ServiceAccount? && Ours(psi, s0, x.client) && x !in p.created && RKey(psi, x) in t.objects
      ensures t.objects[RKey(psi, x)] !in psi.Values
    {
      RKeyIs(psi, x);
      RIs(phi, NewSynthetic(o, k), id);
      assert Container(x) == x.client && RKey(psi, x) in s.objects;
    }
  }

  lemma CreateTied(phi: Phi, s0: Server, s: Server, o: Overlay, k: Key, psi: Phi, t: Server)
    requires AccountsTied(phi, s, o) && CreatedOk(phi, s0, o) && !k.ServiceAccount? && Extends(phi, psi)
    requires forall x: Key :: Ours(phi, s0, Container(x)) ==> RKey(psi, x) == RKey(phi, x)
    requires forall x :: x in s.objects ==> x in t.objects && t.objects[x] == s.objects[x]
    ensures AccountsTied(psi, t, Pretend(o, k))
  {
    hide RKey, Ours, NewSynthetic;
  }

  lemma RIs(phi: Phi, d: Id, id: Id)
    ensures R(phi[d := id], d) == id
  {}

  lemma RKeyIs(phi: Phi, k: Key)
    ensures RKey(phi, k).ServiceAccount? <==> k.ServiceAccount?
    ensures k.ServiceAccount? ==> RKey(phi, k) == ServiceAccount(k.realm, R(phi, k.client))
  {}

  lemma OneMoreValue(phi: Phi, d: Id, id: Id)
    ensures d !in phi ==> phi[d := id].Values == phi.Values + {id}
  {
    assert phi[d := id][d] == id;
    forall x | x in phi.Values && d !in phi ensures x in phi[d := id].Values {
      var e :| e in phi && phi[e] == x;
      assert phi[d := id][e] == x;
    }
  }

  // ---------- realm-management of a new realm, on first sight ----------

  /** The overlay makes up an id for the client the server created with the realm. */
  lemma SeeClient(phi: Phi, s0: Server, L: Api, D: Api, T: set<Mapping>, k: Key) returns (psi: Phi)
    requires Sim(phi, s0, L, D, T) && Unseen(D.overlay.value, k)
    ensures k in L.server.objects && psi == phi[NewSynthetic(D.overlay.value, k) := L.server.objects[k]]
    ensures Extends(phi, psi) && Sim(psi, s0, L, Pretended(D, k), T)
  {
    var o, s := D.overlay.value, L.server;
    var d, id := NewSynthetic(o, k), s.objects[k];
    psi := phi[d := id];
    OneMoreId(phi, s0, s, o, k, id);
    OneMorePair(phi, s0, s, s, o, k, id);
    SeenObjectsAgree(phi, s0, L, D, T, k);
    SeenMappingsAgree(phi, s0, L, D, T, k);
    SeenUnseen(phi, s0, s, o, k);
    SeenAccounts(phi, s0, s, o, k);
    RenamingIsStable(phi, psi, s0, D.trace);
  }

  lemma SeenUnseen(phi: Phi, s0: Server, s: Server, o: Overlay, k: Key)
    requires UnseenOk(phi, s0, s, o) && Unseen(o, k) && ObjectsOk(s)
    ensures UnseenOk(phi[NewSynthetic(o, k) := s.objects[k]], s0, s, Pretend(o, k))
  {
    var psi := phi[NewSynthetic(o, k) := s.objects[k]];
    forall u: Key | Unseen(Pretend(o, k), u) ensures u in s.objects && s.objects[u] !in psi.Values {
      assert Unseen(o, u) && u != k;
      assert s.owner[s.objects[u]] == u && s.owner[s.objects[k]] == k;
      forall d | d in psi ensures psi[d] != s.objects[u] {
        assert d in phi ==> phi[d] in phi.Values;
      }
    }
  }

  lemma SeenAccounts(phi: Phi, s0: Server, s: Server, o: Overlay, k: Key)
    requires WellFormed(s) && WellFormed(s0) && PhiOk(phi, s0, s, o) && CreatedOk(phi, s0, o)
    requires AccountsOk(phi, s0, s, o) && UnseenOk(phi, s0, s, o) && Unseen(o, k)
    ensures AccountsOk(phi[NewSynthetic(o, k) := s.objects[k]], s0, s, Pretend(o, k))
  {
    var d, id, p := NewSynthetic(o, k), s.objects[k], Pretend(o, k);
    var psi := phi[d := id];
    OneMoreId(phi, s0, s, o, k, id);
    NextSyntheticIsNew(phi, s0, s, o, k);
    OneMoreValue(phi, d, id);
    assert forall x :: x in s.objects && x.ServiceAccount? ==> s.objects[x] != id;
    hide OwnersOk, ObjectsOk, PathsOk, MappingsOk, MembershipsOk, PhiOk, NewSynthetic, RKey, Ours, R, AccountsTied,
        AccountsFree, CreatedOk, Extends;
    CreateTied(phi, s0, s, o, k, psi, s);
    FreeStays(phi, psi, s0, s, s, o, k, id);
  }

  lemma SeenContainerIsEmpty(phi: Phi, s0: Server, s: Server, D: Api, k: Key, x: Key)
    requires OwnersOk(s0) && D.overlay.Some? && PhiOk(phi, s0, s, D.overlay.value)
    requires CreatedOk(phi, s0, D.overlay.value)
    requires UnseenOk(phi, s0, s, D.overlay.value) && Unseen(D.overlay.value, k)
    requires Container(x) == NewSynthetic(D.overlay.value, k) && !x.ServiceAccount?
    ensures Peek(Pretended(D, k), x).None?
    ensures Lookup(s, RKey(phi[NewSynthetic(D.overlay.value, k) := s.objects[k]], x)) == None
  {
    var o := D.overlay.value;
    NextSyntheticIsNew(phi, s0, s, o, k);
    NothingInside(phi, s0, D, NewSynthetic(o, k), x);
    assert Container(RKey(phi[NewSynthetic(o, k) := s.objects[k]], x)) == s.objects[k];
  }

  lemma SeenObjectAgrees(phi: Phi, psi: Phi, s0: Server, L: Api, D: Api, k: Key, x: Key)
    requires D.overlay.Some? && D.server == s0 && ObjectsOk(s0) && CreatedOk(phi, s0, D.overlay.value)
    requires Unseen(D.overlay.value, k) && k in L.server.objects && Ours(phi, s0, Container(x)) && !x.ServiceAccount?
    requires psi == phi[NewSynthetic(D.overlay.value, k) := L.server.objects[k]] && RKey(psi, x) == RKey(phi, x)
    requires !Unseen(D.overlay.value, x) ==> ROpt(phi, Peek(D, x)) == Lookup(L.server, RKey(phi, x))
    requires forall d :: Ours(phi, s0, d) ==> R(psi, d) == R(phi, d)
    ensures !Unseen(Pretend(D.overlay.value, k), x) ==>
        ROpt(psi, Peek(Pretended(D, k), x)) == Lookup(L.server, RKey(psi, x))
  {
    PeekIsOurs(phi, s0, D, x);
    assert x != k ==> Peek(Pretended(D, k), x) == Peek(D, x);
  }

  lemma SeenObjectsAgree(phi: Phi, s0: Server, L: Api, D: Api, T: set<Mapping>, k: Key)
    requires Sim(phi, s0, L, D, T) && Unseen(D.overlay.value, k)
    ensures ObjectsAgree(phi[NewSynthetic(D.overlay.value, k) := L.server.objects[k]], s0, L, Pretended(D, k))
  {
    var o, s := D.overlay.value, L.server;
    var psi := phi[NewSynthetic(o, k) := s.objects[k]];
    OneMoreId(phi, s0, s, o, k, s.objects[k]);
    forall x: Key | Ours(psi, s0, Container(x)) && !x.ServiceAccount? && !Unseen(Pretend(o, k), x)
      ensures ROpt(psi, Peek(Pretended(D, k), x)) == Lookup(s, RKey(psi, x))
    {
      if Container(x) == NewSynthetic(o, k) {
        SeenContainerIsEmpty(phi, s0, s, D, k, x);
      } else {
        SeenObjectAgrees(phi, psi, s0, L, D, k, x);
      }
    }
  }

  lemma UnseenHoldsNothing(phi: Phi, s0: Server, s: Server, o: Overlay, k: Key)
    requires UnseenOk(phi, s0, s, o) && Unseen(o, k)
    ensures k in s.objects && forall m :: m in s.mappings ==> m.holder != s.objects[k] && m.client != s.objects[k]
  {}

  lemma SeenMappingsAgree(phi: Phi, s0: Server, L: Api, D: Api, T: set<Mapping>, k: Key)
    requires Sim(phi, s0, L, D, T) && Unseen(D.overlay.value, k)
    ensures MappingsAgree(phi[NewSynthetic(D.overlay.value, k) := L.server.objects[k]], s0, L, Pretended(D, k), T)
  {
    hide PhiOk, ObjectsOk, OwnersOk, PathsOk, MappingsOk, MembershipsOk, Ours, UnseenOk, ObjectsAgree, TracesAgree,
        AccountsOk, CreatedOk, NewSynthetic, Grows, IsSyntheticID, Unseen, RealmsOk;
    var o, s := D.overlay.value, L.server;
    UnseenHoldsNothing(phi, s0, s, o, k);
    var d, psi := NewSynthetic(o, k), phi[NewSynthetic(o, k) := s.objects[k]];
    OneMoreId(phi, s0, s, o, k, s.objects[k]);
    NextSyntheticIsNew(phi, s0, s, o, k);
    forall m: Mapping | Ours(psi, s0, m.holder) && Ours(psi, s0, m.client) && RMapping(psi, m) !in T
      ensures MappedIn(Pretended(D, k), m) == Mapped(s, RMapping(psi, m))
    {
      if m.holder == d || m.client == d {
        assert RMapping(psi, m) !in s.mappings;
      } else {
        assert RMapping(psi, m) == RMapping(phi, m);
        assert MappedIn(Pretended(D, k), m) == MappedIn(D, m);
      }
    }
  }

  /** Finding a client, in step. */
  lemma SimFindClient(phi: Phi, s0: Server, L: Api, D: Api, T: set<Mapping>, realm: string, clientId: string)
    returns (psi: Phi)
    requires Sim(phi, s0, L, D, T)
    ensures Extends(phi, psi)
    ensures
      var (L', found) := FindClient(L, realm, clientId);
      var (D', pretended) := FindClient(D, realm, clientId);
      && L' == L && Sim(psi, s0, L, D', T) && found == ROpt(psi, pretended)
      && (pretended.Some? ==> Ours(psi, s0, pretended.value))
      && (pretended.None? ==>
            Peek(D', Client(realm, clientId)).None? && !Unseen(D'.overlay.value, Client(realm, clientId)))
      && (found.Some? ==>
            found == Lookup(L.server, Client(realm, clientId)) &&
            !Unseen(D'.overlay.value, Client(realm, clientId)))
  {
    hide *;
    var k := Client(realm, clientId);
    FindClientFacts(phi, s0, L, D, T, realm, clientId);
    ExtendsTransitive(phi, phi, phi);
    psi := phi;
    if Unseen(D.overlay.value, k) {
      psi := SeeClient(phi, s0, L, D, T, k);
      NewIdIsOurs(phi, s0, L.server, D.overlay.value, k);
    }
  }

  lemma NewIdIsOurs(phi: Phi, s0: Server, s: Server, o: Overlay, k: Key)
    requires k in s.objects
    ensures
      var d, psi := NewSynthetic(o, k), phi[NewSynthetic(o, k) := s.objects[k]];
      Ours(psi, s0, d) && ROpt(psi, Some(d)) == Some(s.objects[k]) && Lookup(s, k) == Some(s.objects[k])
  {}

  lemma FindClientFacts(phi: Phi, s0: Server, L: Api, D: Api, T: set<Mapping>, realm: string, clientId: string)
    requires Sim(phi, s0, L, D, T)
    ensures
      var k := Client(realm, clientId);
      && D.overlay.Some? && FindClient(L, realm, clientId) == (L, Lookup(L.server, k))
      && var o := D.overlay.value;
      && (Unseen(o, k) ==>
            && FindClient(D, realm, clientId) == (Pretended(D, k), Some(NewSynthetic(o, k)))
            && Pretended(D, k).overlay.Some? && !Unseen(Pretended(D, k).overlay.value, k))
      && (!Unseen(o, k) ==>
            && FindClient(D, realm, clientId) == (D, Peek(D, k)) && Lookup(L.server, k) == ROpt(phi, Peek(D, k))
            && (Peek(D, k).Some? ==> Ours(phi, s0, Peek(D, k).value)))
  {
    var k := Client(realm, clientId);
    PeekIsOurs(phi, s0, D, k);
    assert Ours(phi, s0, Container(k)) && RKey(phi, k) == k;
  }

  // ---------- the other steps ----------

  lemma OnlyClientsAreUnseen(o: Overlay, k: Key)
    ensures !k.Client? ==> !Unseen(o, k)
  {}

  lemma UnseenStays(phi: Phi, s0: Server, s: Server, o: Overlay, sa: Key)
    requires UnseenOk(phi, s0, s, o) && sa.ServiceAccount? && sa !in s.objects
    requires forall u: Key :: Unseen(o, u) ==> s.objects[u] != sa.client
    ensures UnseenOk(phi, s0, Add(s, sa), o)
  {
    var t := Add(s, sa);
    forall u: Key | Unseen(o, u)
      ensures u in t.objects && t.objects[u] == s.objects[u]
      ensures forall x :: x in t.objects ==> Container(x) != t.objects[u]
    {}
  }

  lemma AgreeStays(phi: Phi, s0: Server, L: Api, D: Api, T: set<Mapping>, sa: Key)
    requires D.overlay.Some? && ObjectsAgree(phi, s0, L, D) && MappingsAgree(phi, s0, L, D, T) && sa.ServiceAccount?
    ensures ObjectsAgree(phi, s0, AddedLive(L, sa), D) && MappingsAgree(phi, s0, AddedLive(L, sa), D, T)
  {
    var L' := AddedLive(L, sa);
    forall x: Key | Ours(phi, s0, Container(x)) && !x.ServiceAccount? && !Unseen(D.overlay.value, x)
      ensures ROpt(phi, Peek(D, x)) == Lookup(L'.server, RKey(phi, x))
    {
      assert !RKey(phi, x).ServiceAccount?;
    }
    assert forall m :: Mapped(L'.server, m) == Mapped(L.server, m);
  }

  lemma NotUnseen(phi: Phi, s0: Server, s: Server, o: Overlay, k: Key)
    requires UnseenOk(phi, s0, s, o) && ObjectsOk(s) && k in s.objects && !Unseen(o, k)
    ensures forall u: Key :: Unseen(o, u) ==> u in s.objects && s.objects[u] != s.objects[k]
  {}

  lemma AccountAppears(phi: Phi, s0: Server, s: Server, o: Overlay, sa: Key)
    requires WellFormed(s) && PhiOk(phi, s0, s, o) && AccountsOk(phi, s0, s, o) && sa !in s.objects
    ensures AccountsOk(phi, s0, Add(s, sa), o)
  {
    NextId(s);
    assert ServerId(s.next) !in phi.Values;
    hide OwnersOk, ObjectsOk, PathsOk, MembershipsOk, ServerId, RKey, Ours, PhiOk, HoldersSeen, MappingsOk,
        AccountsFree, AccountsTied;
    AccountAppearsFree(phi, s0, s, o, sa);
    HoldersStaySeen(phi, s0, s, Add(s, sa));
  }

  lemma AccountAppearsFree(phi: Phi, s0: Server, s: Server, o: Overlay, sa: Key)
    requires AccountsFree(phi, s0, s, o) && AccountsTied(phi, s, o) && sa !in s.objects
    requires ServerId(s.next) !in phi.Values
    ensures AccountsFree(phi, s0, Add(s, sa), o) && AccountsTied(phi, Add(s, sa), o)
  {
    hide ServerId, RKey, Ours;
  }

  /** A new id holds nothing. */
  lemma HoldersStaySeen(phi: Phi, s0: Server, s: Server, t: Server)
    requires HoldersSeen(phi, s0, s) && MappingsOk(s) && t.mappings == s.mappings
    requires forall id :: id in t.owner ==> id in s.owner || id == ServerId(s.next)
    ensures HoldersSeen(phi, s0, t)
  {
    assert Unborn(s, ServerId(s.next));
  }

  lemma AccountIsAccepted(s: Server, k: Key)
    requires WellFormed(s) && k.Client? && k in s.objects
    ensures
      var sa := ServiceAccount(k.realm, s.objects[k]);
      sa !in s.objects ==> Accepts(s, sa)
  {}

  lemma IdsStay(phi: Phi, s0: Server, s: Server, t: Server, o: Overlay)
    requires PhiOk(phi, s0, s, o) && RealmsOk(s0, s, o) && Grows(s, t) && t.realms == s.realms
    ensures PhiOk(phi, s0, t, o) && RealmsOk(s0, t, o)
  {}

  /** A service account appears on the server alone; nothing the dry run looks at changes. */
  lemma SimServiceAccount(phi: Phi, s0: Server, L: Api, D: Api, T: set<Mapping>, k: Key, enabled: bool)
    requires Sim(phi, s0, L, D, T) && k.Client? && k in L.server.objects && !Unseen(D.overlay.value, k)
    ensures Sim(phi, s0, L.(server := WithServiceAccount(L.server, k, enabled)), D, T)
  {
    hide PhiOk, RealmsOk, CreatedOk, ObjectsAgree, UnseenOk, AccountsOk, MappingsAgree, WriteIsOurs, Grows, ObjectsOk,
        OwnersOk, PathsOk, MappingsOk, MembershipsOk;
    var s := L.server;
    var sa := ServiceAccount(k.realm, s.objects[k]);
    if enabled && sa !in s.objects {
      AccountIsAccepted(s, k);
      AddKeeps(s, sa);
      IdsStay(phi, s0, s, Add(s, sa), D.overlay.value);
      GrowsTransitive(s0, s, Add(s, sa));
      NotUnseen(phi, s0, s, D.overlay.value, k);
      UnseenStays(phi, s0, s, D.overlay.value, sa);
      AccountAppears(phi, s0, s, D.overlay.value, sa);
      AgreeStays(phi, s0, L, D, T, sa);
    }
  }

  /** Creating an object, in step, requests recorded. */
  lemma SimCreate(phi: Phi, s0: Server, L: Api, D: Api, T: set<Mapping>, k: Key, serviceAccount: bool)
    returns (psi: Phi)
    requires Sim(phi, s0, L, D, T) && Creatable(phi, s0, L, D, k)
    ensures Extends(phi, psi)
    ensures
      var (L', id) := Create(L, RKey(phi, k), serviceAccount);
      var (D', d) := Create(D, k, serviceAccount);
      && Sim(psi, s0, L', D', T) && id.Some? && d.Some? && id.value == R(psi, d.value) && Ours(psi, s0, d.value)
      && Lookup(L'.server, RKey(phi, k)) == id && Grows(L.server, L'.server)
  {
    psi := CreateBoth(phi, s0, L, D, T, k);
    var lk := RKey(phi, k);
    AddKeeps(L.server, lk);
    OneMoreId(phi, s0, L.server, D.overlay.value, k, ServerId(L.server.next));
    var L2 := SimCreateRest(psi, s0, AddedLive(L, lk), Pretended(D, k), T, k, lk, serviceAccount);
    GrowsTransitive(L.server, Add(L.server, lk), L2.server);
  }

  /** The service account that comes with a client, and the record of the request. */
  lemma SimCreateRest(psi: Phi, s0: Server, L1: Api, D1: Api, T: set<Mapping>, k: Key, lk: Key, serviceAccount: bool)
    returns (L2: Api)
    requires Sim(psi, s0, L1, D1, T) && lk in L1.server.objects && lk == RKey(psi, k) && Ours(psi, s0, Container(k))
    requires !Unseen(D1.overlay.value, lk)
    ensures
      && L2 == Record(if lk.Client? then L1.(server := WithServiceAccount(L1.server, lk, serviceAccount))
        else L1, Creates(lk))
      && Sim(psi, s0, L2, Record(D1, Creates(k)), T) && Grows(L1.server, L2.server)
  {
    hide *;
    WriteFacts(psi, s0, k, "");
    SimFacts(psi, s0, L1, D1, T);
    GrowsItself(L1.server);
    var L' := L1;
    if lk.Client? {
      SimServiceAccount(psi, s0, L1, D1, T, lk, serviceAccount);
      AccountKeeps(L1.server, lk, serviceAccount);
      L' := L1.(server := WithServiceAccount(L1.server, lk, serviceAccount));
    }
    SimRecord(psi, s0, L', D1, T, Creates(k));
    RecordFacts(L', Creates(lk));
    L2 := Record(L', Creates(lk));
  }

  lemma SimUpdate(phi: Phi, s0: Server, L: Api, D: Api, T: set<Mapping>, k: Key, d: Id, serviceAccount: bool)
    requires Sim(phi, s0, L, D, T) && Ours(phi, s0, Container(k)) && Ours(phi, s0, d)
    requires !Unseen(D.overlay.value, RKey(phi, k))
    ensures
      var L' := Update(L, RKey(phi, k), R(phi, d), serviceAccount);
      Sim(phi, s0, L', Update(D, k, d, serviceAccount), T) && Grows(L.server, L'.server)
  {
    var lk := RKey(phi, k);
    var L1 := L;
    if lk.Client? && lk in L.server.objects {
      SimServiceAccount(phi, s0, L, D, T, lk, serviceAccount);
      AccountKeeps(L.server, lk, serviceAccount);
      L1 := L.(server := WithServiceAccount(L.server, lk, serviceAccount));
    }
    SimRecord(phi, s0, L1, D, T, Updates(k, d));
    assert Update(D, k, d, serviceAccount) == Record(D, Updates(k, d));
    assert RWrite(phi, Updates(k, d)) == Updates(lk, R(phi, d));
  }

  /** An unseen client's id is not what any of our ids is renamed to. */
  lemma UnseenIsNotOurs(phi: Phi, s0: Server, s: Server, o: Overlay, d: Id)
    requires UnseenOk(phi, s0, s, o) && ObjectsOk(s) && OwnersOk(s) && Ours(phi, s0, d)
    ensures forall u: Key :: Unseen(o, u) ==> u in s.objects && s.objects[u] != R(phi, d)
  {
    forall u: Key | Unseen(o, u) ensures u in s.objects && s.objects[u] != R(phi, d) {
      assert d in phi ==> phi[d] in phi.Values;
    }
  }

  /** Our ids, renamed, exist on the server or are empty. */
  lemma OursIsBorn(phi: Phi, s0: Server, s: Server, o: Overlay, d: Id)
    requires PhiOk(phi, s0, s, o) && OwnersOk(s) && Grows(s0, s) && Ours(phi, s0, d)
    ensures !Unborn(s, R(phi, d))
  {
    EmptyIdIsBorn(s);
  }

  lemma GrantedUnseen(phi: Phi, s0: Server, s: Server, o: Overlay, m: Mapping, refs: seq<RoleRef>)
    requires UnseenOk(phi, s0, s, o)
    requires forall u: Key :: Unseen(o, u) ==> s.objects[u] != m.holder && s.objects[u] != m.client
    ensures UnseenOk(phi, s0, AddMapping(s, m, refs), o)
  {}

  lemma GrantedAccounts(phi: Phi, s0: Server, s: Server, o: Overlay, m: Mapping, d: Id, refs: seq<RoleRef>)
    requires AccountsOk(phi, s0, s, o) && OwnersOk(s) && Ours(phi, s0, d) && m.holder == R(phi, d)
    ensures AccountsOk(phi, s0, AddMapping(s, m, refs), o)
  {
    assert d in phi ==> phi[d] in phi.Values;
  }

  lemma GrantedMappings(phi: Phi, s0: Server, L: Api, D: Api, T: set<Mapping>, m: Mapping, refs: seq<RoleRef>)
    requires MappingsAgree(phi, s0, L, D, T)
    ensures MappingsAgree(phi, s0, L.(server := AddMapping(L.server, m, refs)), D, T + {m})
  {}

  /** A grant is carried out on one side and only reported on the other; from then on the two lists may differ. */
  lemma SimGrant(phi: Phi, s0: Server, L: Api, D: Api, T: set<Mapping>, m: Mapping, refs: seq<RoleRef>)
    requires Sim(phi, s0, L, D, T) && WriteIsOurs(phi, s0, Grants(m, refs))
    requires AcceptsMapping(L.server, RMapping(phi, m), RRefs(phi, refs))
    ensures
      var (L', st) := Grant(L, RMapping(phi, m), RRefs(phi, refs));
      var (D', dt) := Grant(D, m, refs);
      && st == Done && dt == Done && Sim(phi, s0, L', D', T + {RMapping(phi, m)}) && Grows(L.server, L'.server)
      && L'.server.objects == L.server.objects
  {
    var lm, lrefs := RMapping(phi, m), RRefs(phi, refs);
    var s, o := L.server, D.overlay.value;
    OursIsBorn(phi, s0, s, o, m.holder);
    OursIsBorn(phi, s0, s, o, m.client);
    UnseenIsNotOurs(phi, s0, s, o, m.holder);
    UnseenIsNotOurs(phi, s0, s, o, m.client);
    AddMappingKeeps(s, lm, lrefs);
    GrowsTransitive(s0, s, AddMapping(s, lm, lrefs));
    GrantedUnseen(phi, s0, s, o, lm, lrefs);
    GrantedAccounts(phi, s0, s, o, lm, m.holder, lrefs);
    GrantedMappings(phi, s0, L, D, T, lm, lrefs);
    var L1 := L.(server := AddMapping(s, lm, lrefs));
    GrantedSim(phi, s0, L, L1, D, T, T + {lm});
    SimRecord(phi, s0, L1, D, T + {lm}, Grants(m, refs));
  }

  lemma GrantedSim(phi: Phi, s0: Server, L: Api, L1: Api, D: Api, T: set<Mapping>, U: set<Mapping>)
    requires Sim(phi, s0, L, D, T) && Shape(s0, L1, D) && L1.trace == L.trace
    requires L1.server == L.server.(mappings := L1.server.mappings)
    requires UnseenOk(phi, s0, L1.server, D.overlay.value) && MappingsAgree(phi, s0, L1, D, U)
    requires AccountsOk(phi, s0, L1.server, D.overlay.value)
    ensures Sim(phi, s0, L1, D, U)
  {
    assert forall x: Key :: Lookup(L1.server, x) == Lookup(L.server, x);
  }

  /** A new realm: the server adds it with its realm-management client, the overlay remembers its name. */
  lemma SimCreateRealm(phi: Phi, s0: Server, L: Api, D: Api, T: set<Mapping>, realm: string)
    requires Sim(phi, s0, L, D, T) && realm !in L.server.realms
    ensures
      var (L', st) := CreateRealm(L, realm);
      var (D', dt) := CreateRealm(D, realm);
      st == Done && dt == Done && Sim(phi, s0, L', D', T) && Grows(L.server, L'.server)
  {
    var L1, D1 := L.(server := AddRealm(L.server, realm)), WithRealm(D, realm);
    NewRealmSim(phi, s0, L, D, T, realm);
    assert WriteIsOurs(phi, s0, CreatesRealm(realm)) && RWrite(phi, CreatesRealm(realm)) == CreatesRealm(realm);
    AddRealmKeeps(L.server, realm);
    SimRecord(phi, s0, L1, D1, T, CreatesRealm(realm));
    hide Sim, Grows;
  }

  lemma NewRealmIds(phi: Phi, s0: Server, s: Server, o: Overlay, realm: string)
    requires PhiOk(phi, s0, s, o) && RealmsOk(s0, s, o) && CreatedOk(phi, s0, o) && realm !in s.realms
    requires Grows(s, AddRealm(s, realm))
    ensures
      var t, p := AddRealm(s, realm), o.(realms := o.realms + {realm});
      PhiOk(phi, s0, t, p) && RealmsOk(s0, t, p) && CreatedOk(phi, s0, p)
  {}

  lemma NewRealmSim(phi: Phi, s0: Server, L: Api, D: Api, T: set<Mapping>, realm: string)
    requires Sim(phi, s0, L, D, T) && realm !in L.server.realms
    ensures Sim(phi, s0, L.(server := AddRealm(L.server, realm)), WithRealm(D, realm), T)
  {
    var s, o := L.server, D.overlay.value;
    AddRealmKeeps(s, realm);
    hide PhiOk, RealmsOk, CreatedOk, ObjectsAgree, UnseenOk, AccountsOk, MappingsAgree, WriteIsOurs, Grows, AddRealm;
    GrowsTransitive(s0, s, AddRealm(s, realm));
    NewRealmIds(phi, s0, s, o, realm);
    NewRealmObjects(phi, s0, L, D, realm);
    NewRealmMappings(phi, s0, L, D, T, realm);
    NewRealmUnseen(phi, s0, s, o, realm);
    NewRealmAccounts(phi, s0, s, o, realm);
  }

  lemma NewRealmAccounts(phi: Phi, s0: Server, s: Server, o: Overlay, realm: string)
    requires WellFormed(s) && PhiOk(phi, s0, s, o) && AccountsOk(phi, s0, s, o) && realm !in s.realms
    ensures AccountsOk(phi, s0, AddRealm(s, realm), o.(realms := o.realms + {realm}))
  {
    NextId(s);
    assert Client(realm, REALM_MANAGEMENT) !in s.objects;
    hide OwnersOk, ObjectsOk, PathsOk, MembershipsOk, ServerId, RKey, Ours, PhiOk, HoldersSeen, MappingsOk,
        AccountsTied, AccountsFree;
    SameAccounts(phi, s0, s, AddRealm(s, realm), o, realm);
    HoldersStaySeen(phi, s0, s, AddRealm(s, realm));
  }

  lemma SameAccounts(phi: Phi, s0: Server, s: Server, t: Server, o: Overlay, realm: string)
    requires AccountsTied(phi, s, o) && AccountsFree(phi, s0, s, o)
    requires forall x :: x in s.objects ==> x in t.objects && t.objects[x] == s.objects[x]
    requires forall x :: x in t.objects && x.ServiceAccount? ==> x in s.objects
    ensures
      var p := o.(realms := o.realms + {realm});
      AccountsTied(phi, t, p) && AccountsFree(phi, s0, t, p)
  {
    hide RKey, Ours;
    forall k: Key ensures k.ServiceAccount? <==> RKey(phi, k).ServiceAccount? {
      RKeyIs(phi, k);
    }
  }

  function WithRealm(D: Api, realm: string): Api
    requires D.overlay.Some?
  {
    D.(overlay := Some(D.overlay.value.(realms := D.overlay.value.realms + {realm})))
  }

  lemma NewRealmObjects(phi: Phi, s0: Server, L: Api, D: Api, realm: string)
    requires D.overlay.Some? && D.server == s0 && ObjectsOk(s0) && ObjectsOk(L.server) && realm !in L.server.realms
    requires RealmsOk(s0, L.server, D.overlay.value) && CreatedOk(phi, s0, D.overlay.value)
    requires ObjectsAgree(phi, s0, L, D)
    ensures ObjectsAgree(phi, s0, L.(server := AddRealm(L.server, realm)), WithRealm(D, realm))
  {
    hide Ours;
    var t, D' := AddRealm(L.server, realm), WithRealm(D, realm);
    forall x: Key | Ours(phi, s0, Container(x)) && !x.ServiceAccount? && !Unseen(D'.overlay.value, x)
      ensures ROpt(phi, Peek(D', x)) == Lookup(t, RKey(phi, x))
    {
      if x.realm == realm {
        assert x !in D.overlay.value.created;
        NewRealmObject(phi, s0, L.server, D, realm, x);
      } else {
        OldRealmObject(phi, s0, L, D, realm, x);
      }
    }
  }

  lemma NewRealmObject(phi: Phi, s0: Server, s: Server, D: Api, realm: string, x: Key)
    requires D.overlay.Some? && ObjectsOk(s) && realm !in s.realms && x.realm == realm && x !in D.overlay.value.created
    requires !Unseen(WithRealm(D, realm).overlay.value, x) && D.server == s0 && ObjectsOk(s0) && s0.realms <= s.realms
    ensures Peek(WithRealm(D, realm), x) == None && Lookup(AddRealm(s, realm), RKey(phi, x)) == None
  {
    assert RKey(phi, x).realm == realm && RKey(phi, x) !in s.objects;
  }

  lemma OldRealmObject(phi: Phi, s0: Server, L: Api, D: Api, realm: string, x: Key)
    requires D.overlay.Some? && x.realm != realm && ObjectsAgree(phi, s0, L, D) && Ours(phi, s0, Container(x))
    requires !x.ServiceAccount?
    requires !Unseen(WithRealm(D, realm).overlay.value, x)
    ensures ROpt(phi, Peek(WithRealm(D, realm), x)) == Lookup(AddRealm(L.server, realm), RKey(phi, x))
  {
    assert RKey(phi, x).realm == x.realm;
    assert Peek(WithRealm(D, realm), x) == Peek(D, x) && !Unseen(D.overlay.value, x);
  }

  lemma NewRealmMappings(phi: Phi, s0: Server, L: Api, D: Api, T: set<Mapping>, realm: string)
    requires D.overlay.Some? && MappingsOk(L.server) && realm !in L.server.realms && MappingsAgree(phi, s0, L, D, T)
    ensures MappingsAgree(phi, s0, L.(server := AddRealm(L.server, realm)), WithRealm(D, realm), T)
  {
    var t, D' := AddRealm(L.server, realm), WithRealm(D, realm);
    forall m: Mapping | Ours(phi, s0, m.holder) && Ours(phi, s0, m.client) && RMapping(phi, m) !in T
      ensures MappedIn(D', m) == Mapped(t, RMapping(phi, m))
    {
      if m.realm == realm {
        assert RMapping(phi, m) !in L.server.mappings;
      } else {
        assert MappedIn(D', m) == MappedIn(D, m);
      }
    }
  }

  lemma NewRealmUnseen(phi: Phi, s0: Server, s: Server, o: Overlay, realm: string)
    requires WellFormed(s) && WellFormed(s0) && Grows(s0, s) && realm !in s.realms
    requires PhiOk(phi, s0, s, o) && UnseenOk(phi, s0, s, o)
    ensures UnseenOk(phi, s0, AddRealm(s, realm), o.(realms := o.realms + {realm}))
  {
    hide PhiOk, OwnersOk, PathsOk, MappingsOk, MembershipsOk, Idle, Add, Grows;
    var t, p, k := AddRealm(s, realm), o.(realms := o.realms + {realm}), Client(realm, REALM_MANAGEMENT);
    NewRealmIdle(phi, s0, s, o, realm);
    forall u: Key | Unseen(p, u) ensures u in t.objects && Idle(phi, s0, t, t.objects[u]) {
      if u != k {
        assert Unseen(o, u);
        UnseenIsSomething(s, u);
        StillIdle(phi, s0, s, k, u);
      }
    }
  }

  lemma NewRealmIdle(phi: Phi, s0: Server, s: Server, o: Overlay, realm: string)
    requires WellFormed(s) && WellFormed(s0) && Grows(s0, s) && realm !in s.realms && PhiOk(phi, s0, s, o)
    ensures
      var k, t := Client(realm, REALM_MANAGEMENT), AddRealm(s, realm);
      k in t.objects && Idle(phi, s0, t, t.objects[k]) && k !in s.objects
      && t == Add(s.(realms := s.realms + {realm}), k)
  {
    NextId(s);
    assert Unborn(s, ServerId(s.next));
    hide PathsOk, MembershipsOk, ServerId;
  }

  lemma StillIdle(phi: Phi, s0: Server, s: Server, k: Key, u: Key)
    requires u in s.objects && Idle(phi, s0, s, s.objects[u]) && s.objects[u] != "" && u != k && k.Client?
    ensures
      forall realms ::
        var t := Add(s.(realms := realms), k);
        u in t.objects && Idle(phi, s0, t, t.objects[u])
  {}

  lemma UnseenIsSomething(s: Server, u: Key)
    requires ObjectsOk(s) && OwnersOk(s) && u in s.objects
    ensures s.objects[u] != ""
  {}

  // ---------- service accounts, on first sight ----------

  /** What the server has under a service account's id: no objects, and no grants. */
  ghost predicate Bare(s: Server, id: Id) {
    && (forall x :: x in s.objects ==> Container(x) != id)
    && forall m: Mapping :: m.holder == id || m.client == id ==> Mapped(s, m) == {}
  }

  /** A service account the dry run has not asked about is new to it in every respect. */
  lemma NewAccountIsBare(phi: Phi, s0: Server, s: Server, o: Overlay, k: Key)
    requires WellFormed(s) && WellFormed(s0) && Grows(s0, s) && PhiOk(phi, s0, s, o) && AccountsOk(phi, s0, s, o)
    requires k.ServiceAccount? && k.client in phi && k !in o.created && RKey(phi, k) in s.objects
    ensures
      var id := s.objects[RKey(phi, k)];
      id in s.owner && s.owner[id] == RKey(phi, k) && id !in s0.owner && id !in phi.Values && Bare(s, id)
  {
    var lk, id := RKey(phi, k), s.objects[RKey(phi, k)];
    hide PathsOk, MappingsOk, MembershipsOk, AccountsTied;
    assert s.owner[id] == lk && ContainerKnown(s, lk);
    AccountComesAfterClient(s0, s, id);
    assert id !in phi.Values;
    forall x | x in s.objects ensures Container(x) != id {
      assert ContainerKnown(s, x);
    }
    NobodyGranted(s, id);
    forall m: Mapping | m.holder == id ensures Mapped(s, m) == {} {}
  }

  lemma AccountComesAfterClient(s0: Server, s: Server, id: Id)
    requires Grows(s0, s) && ObjectsOk(s0) && OwnersOk(s0) && id in s.owner && s.owner[id].ServiceAccount?
    ensures id in s0.owner ==> s.owner[id].client in s0.owner
  {
    if id in s0.owner {
      assert ContainerKnown(s0, s0.owner[id]);
    }
  }

  lemma NamesHaveRoles(s: Server, m: Mapping, n: string)
    requires MappingsOk(s) && n in Mapped(s, m)
    ensures RoleKey(m.realm, m.client, n) in s.objects
  {}

  /** Nobody has roles of what holds nothing. */
  lemma NobodyGranted(s: Server, id: Id)
    requires MappingsOk(s) && id != "" && forall x :: x in s.objects ==> Container(x) != id
    ensures forall m: Mapping :: m.client == id ==> Mapped(s, m) == {}
  {
    forall m: Mapping, n: string | m.client == id ensures n !in Mapped(s, m) {
      if n in Mapped(s, m) {
        NamesHaveRoles(s, m, n);
        assert false;
      }
    }
  }

  /** The overlay makes up an id for a service account the server has. */
  lemma SeeAccount(phi: Phi, s0: Server, L: Api, D: Api, T: set<Mapping>, k: Key) returns (psi: Phi)
    requires Sim(phi, s0, L, D, T) && k.ServiceAccount? && k.client in phi && k !in D.overlay.value.created
    requires k.realm in L.server.realms && RKey(phi, k) in L.server.objects
    ensures psi == phi[NewSynthetic(D.overlay.value, k) := L.server.objects[RKey(phi, k)]]
    ensures Extends(phi, psi) && Sim(psi, s0, L, Pretended(D, k), T)
  {
    hide PhiOk, RealmsOk, CreatedOk, ObjectsAgree, UnseenOk, AccountsOk, MappingsAgree, WriteIsOurs, Grows, ObjectsOk,
        OwnersOk, PathsOk, MappingsOk, MembershipsOk, RKey, NewSynthetic, IsSyntheticID, Bare;
    var o, s := D.overlay.value, L.server;
    var d, id := NewSynthetic(o, k), s.objects[RKey(phi, k)];
    psi := phi[d := id];
    NextSyntheticIsNew(phi, s0, s, o, k);
    RKeyIs(phi, k);
    NewAccountIsBare(phi, s0, s, o, k);
    OneMoreId(phi, s0, s, o, k, id);
    OneMorePair(phi, s0, s, s, o, k, id);
    OneMoreValue(phi, d, id);
    AccountCreatedOk(phi, s0, s, o, k, id);
    AccountObjectsAgree(phi, s0, L, D, T, k, id);
    AccountMappingsAgree(phi, s0, L, D, T, k, id);
    AccountUnseen(phi, s0, s, o, k, id);
    AccountAccounts(phi, s0, s, o, k, id);
    RenamingIsStable(phi, psi, s0, D.trace);
  }

  lemma AccountCreatedOk(phi: Phi, s0: Server, s: Server, o: Overlay, k: Key, id: Id)
    requires CreatedOk(phi, s0, o) && RealmsOk(s0, s, o) && k.realm in s.realms && k.ServiceAccount? && k.client in phi
    ensures
      var psi, p := phi[NewSynthetic(o, k) := id], Pretend(o, k);
      CreatedOk(psi, s0, p) && RealmsOk(s0, s, p)
  {}

  lemma AccountContainerIsEmpty(phi: Phi, s0: Server, s: Server, D: Api, k: Key, id: Id, x: Key)
    requires OwnersOk(s0) && D.overlay.Some? && PhiOk(phi, s0, s, D.overlay.value)
    requires CreatedOk(phi, s0, D.overlay.value) && Bare(s, id) && k.ServiceAccount? && !x.ServiceAccount?
    requires Container(x) == NewSynthetic(D.overlay.value, k)
    ensures Peek(Pretended(D, k), x).None?
    ensures Lookup(s, RKey(phi[NewSynthetic(D.overlay.value, k) := id], x)) == None
  {
    var o := D.overlay.value;
    NextSyntheticIsNew(phi, s0, s, o, k);
    NothingInside(phi, s0, D, NewSynthetic(o, k), x);
    assert Container(RKey(phi[NewSynthetic(o, k) := id], x)) == id;
  }

  lemma AccountObjectAgrees(phi: Phi, psi: Phi, s0: Server, L: Api, D: Api, k: Key, x: Key)
    requires D.overlay.Some? && D.server == s0 && ObjectsOk(s0) && CreatedOk(phi, s0, D.overlay.value)
    requires k.ServiceAccount? && Ours(phi, s0, Container(x)) && !x.ServiceAccount? && RKey(psi, x) == RKey(phi, x)
    requires ROpt(phi, Peek(D, x)) == Lookup(L.server, RKey(phi, x))
    requires forall d :: Ours(phi, s0, d) ==> R(psi, d) == R(phi, d)
    ensures ROpt(psi, Peek(Pretended(D, k), x)) == Lookup(L.server, RKey(psi, x))
  {
    PeekIsOurs(phi, s0, D, x);
    assert Peek(Pretended(D, k), x) == Peek(D, x);
  }

  lemma AccountObjectsAgree(phi: Phi, s0: Server, L: Api, D: Api, T: set<Mapping>, k: Key, id: Id)
    requires Sim(phi, s0, L, D, T) && k.ServiceAccount? && Bare(L.server, id)
    ensures ObjectsAgree(phi[NewSynthetic(D.overlay.value, k) := id], s0, L, Pretended(D, k))
  {
    var o, s := D.overlay.value, L.server;
    var d, psi := NewSynthetic(o, k), phi[NewSynthetic(o, k) := id];
    OneMoreId(phi, s0, s, o, k, id);
    hide OwnersOk, PathsOk, MappingsOk, MembershipsOk, PhiOk, NewSynthetic, AccountsOk, UnseenOk, MappingsAgree,
        TracesAgree, Grows, RKey, Ours, CreatedOk, Peek, Bare;
    forall x: Key | Ours(psi, s0, Container(x)) && !x.ServiceAccount? && !Unseen(Pretend(o, k), x)
      ensures ROpt(psi, Peek(Pretended(D, k), x)) == Lookup(s, RKey(psi, x))
    {
      if Container(x) == d {
        AccountContainerIsEmpty(phi, s0, s, D, k, id, x);
      } else {
        AccountObjectAgrees(phi, psi, s0, L, D, k, x);
      }
    }
  }

  lemma AccountMappingsAgree(phi: Phi, s0: Server, L: Api, D: Api, T: set<Mapping>, k: Key, id: Id)
    requires Sim(phi, s0, L, D, T) && k.ServiceAccount? && Bare(L.server, id)
    ensures MappingsAgree(phi[NewSynthetic(D.overlay.value, k) := id], s0, L, Pretended(D, k), T)
  {
    var o, s := D.overlay.value, L.server;
    var d, psi := NewSynthetic(o, k), phi[NewSynthetic(o, k) := id];
    OneMoreId(phi, s0, s, o, k, id);
    NextSyntheticIsNew(phi, s0, s, o, k);
    hide WellFormed, PhiOk, NewSynthetic, AccountsOk, UnseenOk, ObjectsAgree, TracesAgree, Grows, Ours, CreatedOk;
    forall m: Mapping | Ours(psi, s0, m.holder) && Ours(psi, s0, m.client) && RMapping(psi, m) !in T
      ensures MappedIn(Pretended(D, k), m) == Mapped(s, RMapping(psi, m))
    {
      assert MappedIn(Pretended(D, k), m) == MappedIn(D, m);
      if m.holder != d && m.client != d {
        assert RMapping(psi, m) == RMapping(phi, m);
      }
    }
  }

  lemma AccountUnseen(phi: Phi, s0: Server, s: Server, o: Overlay, k: Key, id: Id)
    requires UnseenOk(phi, s0, s, o) && ObjectsOk(s) && k.ServiceAccount? && id in s.owner && !s.owner[id].Client?
    requires NewSynthetic(o, k) !in phi
    ensures UnseenOk(phi[NewSynthetic(o, k) := id], s0, s, Pretend(o, k))
  {
    hide NewSynthetic;
    OneMoreValue(phi, NewSynthetic(o, k), id);
    forall u: Key | Unseen(Pretend(o, k), u)
      ensures u in s.objects && Idle(phi[NewSynthetic(o, k) := id], s0, s, s.objects[u])
    {
      assert Unseen(o, u) && s.owner[s.objects[u]] == u;
    }
  }

  lemma AccountAccounts(phi: Phi, s0: Server, s: Server, o: Overlay, k: Key, id: Id)
    requires WellFormed(s) && WellFormed(s0) && PhiOk(phi, s0, s, o) && CreatedOk(phi, s0, o)
    requires AccountsOk(phi, s0, s, o) && k.ServiceAccount? && k.client in phi
    requires RKey(phi, k) in s.objects && id == s.objects[RKey(phi, k)] && Bare(s, id)
    ensures AccountsOk(phi[NewSynthetic(o, k) := id], s0, s, Pretend(o, k))
  {
    var d := NewSynthetic(o, k);
    var psi := phi[d := id];
    OneMoreId(phi, s0, s, o, k, id);
    NextSyntheticIsNew(phi, s0, s, o, k);
    OneMoreValue(phi, d, id);
    hide PathsOk, MappingsOk, MembershipsOk, NewSynthetic, Bare, RKey, AccountsTied, AccountsFree;
    AccountTied(phi, s0, s, o, k, psi);
    AccountFree(phi, s0, s, o, k, id, psi);
  }

  lemma AccountTied(phi: Phi, s0: Server, s: Server, o: Overlay, k: Key, psi: Phi)
    requires AccountsTied(phi, s, o) && CreatedOk(phi, s0, o) && k.ServiceAccount? && Ours(phi, s0, k.client)
    requires forall x: Key :: Ours(phi, s0, Container(x)) ==> RKey(psi, x) == RKey(phi, x)
    requires RKey(phi, k) in s.objects && psi == phi[NewSynthetic(o, k) := s.objects[RKey(phi, k)]] && Extends(phi, psi)
    ensures AccountsTied(psi, s, Pretend(o, k))
  {
    hide RKey, Ours, NewSynthetic;
    assert Container(k) == k.client;
  }

  lemma AccountFree(phi: Phi, s0: Server, s: Server, o: Overlay, k: Key, id: Id, psi: Phi)
    requires AccountsFree(phi, s0, s, o) && k.ServiceAccount? && ObjectsOk(s) && OwnersOk(s) && OwnersOk(s0)
    requires PhiOk(phi, s0, s, o) && Ours(phi, s0, k.client)
    requires RKey(phi, k) in s.objects && id == s.objects[RKey(phi, k)] && Bare(s, id)
    requires psi == phi[NewSynthetic(o, k) := id] && psi.Values == phi.Values + {id}
    requires forall d :: Ours(psi, s0, d) ==> Ours(phi, s0, d) || d == NewSynthetic(o, k)
    requires forall x: Key :: Ours(phi, s0, Container(x)) ==> RKey(psi, x) == RKey(phi, x)
    ensures AccountsFree(psi, s0, s, Pretend(o, k))
  {
    hide RKey, Ours, NewSynthetic, PhiOk, OwnersOk, ObjectsOk;
    var p := Pretend(o, k);
    forall x: Key | x.ServiceAccount? && Ours(psi, s0, x.client) && x !in p.created && RKey(psi, x) in s.objects
      ensures s.objects[RKey(psi, x)] !in psi.Values
    {
      RKeyIs(psi, x);
      RIs(phi, NewSynthetic(o, k), id);
      assert Container(x) == x.client && Container(k) == k.client && x.client != NewSynthetic(o, k);
      KeysStayApart(phi, s0, s, o, x, k);
      SameIdSameKey(s, RKey(phi, x), RKey(phi, k));
    }
  }

  lemma SameIdSameKey(s: Server, j: Key, k: Key)
    requires ObjectsOk(s) && j in s.objects && k in s.objects
    ensures s.objects[j] == s.objects[k] ==> j == k
  {}

  /** Both runs find a client's service account, or neither does. */
  ghost predicate FoundAlike(phi: Phi, s0: Server, s: Server, realm: string, d: Id) {
    (IsSyntheticID(d) || ServiceAccount(realm, d) in s0.objects) <==> ServiceAccount(realm, R(phi, d)) in s.objects
  }

  /** Finding a service account, in step, where both runs find it or neither does. */
  lemma SimFindAccount(phi: Phi, s0: Server, L: Api, D: Api, T: set<Mapping>, realm: string, d: Id)
    returns (psi: Phi)
    requires Sim(phi, s0, L, D, T) && Ours(phi, s0, d) && d != "" && realm in L.server.realms
    requires FoundAlike(phi, s0, L.server, realm, d)
    ensures Extends(phi, psi)
    ensures
      var (L', found) := FindServiceAccount(L, realm, R(phi, d));
      var (D', pretended) := FindServiceAccount(D, realm, d);
      && L' == L && Sim(psi, s0, L, D', T) && found == ROpt(psi, pretended)
      && found == Lookup(L.server, ServiceAccount(realm, R(phi, d)))
      && (pretended.Some? ==> Ours(psi, s0, pretended.value))
  {
    hide *;
    var k := ServiceAccount(realm, d);
    FindAccountFacts(phi, s0, L, D, T, realm, d);
    ExtendsTransitive(phi, phi, phi);
    psi := phi;
    if d in phi && k !in D.overlay.value.created {
      psi := SeeAccount(phi, s0, L, D, T, k);
      AccountIdIsOurs(phi, s0, L.server, D.overlay.value, k);
    }
  }

  lemma AccountIdIsOurs(phi: Phi, s0: Server, s: Server, o: Overlay, k: Key)
    requires RKey(phi, k) in s.objects
    ensures
      var d, id := NewSynthetic(o, k), s.objects[RKey(phi, k)];
      var psi := phi[d := id];
      Ours(psi, s0, d) && ROpt(psi, Some(d)) == Some(id) && Lookup(s, RKey(phi, k)) == Some(id)
  {}

  lemma FindAccountFacts(phi: Phi, s0: Server, L: Api, D: Api, T: set<Mapping>, realm: string, d: Id)
    requires Sim(phi, s0, L, D, T) && Ours(phi, s0, d) && d != "" && FoundAlike(phi, s0, L.server, realm, d)
    ensures
      var k, lk := ServiceAccount(realm, d), ServiceAccount(realm, R(phi, d));
      var (D', pretended) := FindServiceAccount(D, realm, d);
      && D.overlay.Some? && FindServiceAccount(L, realm, R(phi, d)) == (L, Lookup(L.server, lk))
      && RKey(phi, k) == lk && k.ServiceAccount? && k.client == d && k.realm == realm
      && (d in phi && k !in D.overlay.value.created ==>
            lk in L.server.objects && D' == Pretended(D, k) && pretended == Some(NewSynthetic(D.overlay.value, k)))
      && (d !in phi || k in D.overlay.value.created ==>
            && D' == D && Lookup(L.server, lk) == ROpt(phi, pretended)
            && (pretended.Some? ==> Ours(phi, s0, pretended.value)))
  {
    var k := ServiceAccount(realm, d);
    hide ObjectsAgree, MappingsAgree, TracesAgree, UnseenOk, PathsOk, MappingsOk, MembershipsOk;
    if d !in phi && k in s0.objects {
      assert s0.objects[k] in s0.owner && L.server.objects[k] == s0.objects[k];
    }
  }

  // ---------- the reconcilers, in step ----------

  /** What the two runs see of a client's roles, or of the realm's. */
  ghost predicate RolesAgree(phi: Phi, s0: Server, L: Api, D: Api, m: Mapping) {
    && L.overlay.None? && MappedIn(D, m) == Mapped(L.server, RMapping(phi, m))
    && forall n: string ::
         var k := RoleKey(m.realm, m.client, n);
         && ROpt(phi, Peek(D, k)) == Lookup(L.server, RoleKey(m.realm, R(phi, m.client), n))
         && (Peek(D, k).Some? ==> Ours(phi, s0, Peek(D, k).value))
  }

  lemma SimRoles(phi: Phi, s0: Server, L: Api, D: Api, T: set<Mapping>, m: Mapping)
    requires Sim(phi, s0, L, D, T) && Ours(phi, s0, m.holder) && Ours(phi, s0, m.client) && RMapping(phi, m) !in T
    ensures RolesAgree(phi, s0, L, D, m)
  {
    EmptyIdIsEmpty(phi, s0, L, D, T, m.client);
    forall n: string
      ensures
        var k := RoleKey(m.realm, m.client, n);
        && ROpt(phi, Peek(D, k)) == Lookup(L.server, RoleKey(m.realm, R(phi, m.client), n))
        && (Peek(D, k).Some? ==> Ours(phi, s0, Peek(D, k).value))
    {
      var k := RoleKey(m.realm, m.client, n);
      assert RKey(phi, k) == RoleKey(m.realm, R(phi, m.client), n);
      assert Ours(phi, s0, Container(k)) && !k.ServiceAccount? && !Unseen(D.overlay.value, k);
      PeekIsOurs(phi, s0, D, k);
    }
  }

  lemma EmptyIdIsEmpty(phi: Phi, s0: Server, L: Api, D: Api, T: set<Mapping>, d: Id)
    requires Sim(phi, s0, L, D, T) && Ours(phi, s0, d)
    ensures d == "" <==> R(phi, d) == ""
  {
    hide ObjectsAgree, MappingsAgree, TracesAgree, UnseenOk, CreatedOk;
    assert "" !in phi by {
      assert !IsSyntheticID("");
    }
  }

  lemma {:induction false} SimMissing(phi: Phi, s0: Server, L: Api, D: Api, m: Mapping, wanted: seq<string>)
    requires RolesAgree(phi, s0, L, D, m)
    ensures
      var dr, lr := Missing(D, m, wanted), Missing(L, RMapping(phi, m), wanted);
      && (dr.Some? <==> lr.Some?)
      && (dr.Some? ==> lr.value == RRefs(phi, dr.value) && forall i :: 0 <= i < |dr.value| ==>
        Ours(phi, s0, dr.value[i].id))
  {
    if wanted != [] {
      SimMissing(phi, s0, L, D, m, wanted[1..]);
      var k := RoleKey(m.realm, m.client, wanted[0]);
      var rest := Missing(D, m, wanted[1..]);
      if rest.Some? && Peek(D, k).Some? {
        var r := RoleRef(Peek(D, k).value, wanted[0]);
        assert RRefs(phi, [r] + rest.value) == [RoleRef(R(phi, r.id), r.name)] + RRefs(phi, rest.value);
      }
    }
  }

  /** Granting roles to a list not granted to before. */
  lemma SimGrantRoles(phi: Phi, s0: Server, L: Api, D: Api, T: set<Mapping>, m: Mapping, wanted: seq<string>)
    returns (U: set<Mapping>)
    requires Sim(phi, s0, L, D, T) && Ours(phi, s0, m.holder) && Ours(phi, s0, m.client) && RMapping(phi, m) !in T
    requires m.realm in L.server.realms && HolderKnown(L.server, RMapping(phi, m))
    ensures T <= U <= T + {RMapping(phi, m)}
    ensures
      var (L', st) := GrantRoles(L, RMapping(phi, m), wanted);
      var (D', dt) := GrantRoles(D, m, wanted);
      && st == dt && Sim(phi, s0, L', D', U) && Grows(L.server, L'.server)
      && L'.server.objects == L.server.objects
  {
    hide *;
    U := T;
    SimFacts(phi, s0, L, D, T);
    SimRoles(phi, s0, L, D, T, m);
    SimMissing(phi, s0, L, D, m, wanted);
    MissingIsWhatIsNotMapped(L, RMapping(phi, m), wanted);
    GrantRolesIs(L, RMapping(phi, m), wanted);
    GrantRolesIs(D, m, wanted);
    GrowsItself(L.server);
    var refs := Missing(D, m, wanted);
    if refs.Some? {
      RefsAreOurs(phi, s0, L, m, refs.value);
    }
    if wanted != [] && refs.Some? && refs.value != [] {
      SimGrant(phi, s0, L, D, T, m, refs.value);
      U := T + {RMapping(phi, m)};
    }
  }

  lemma GrantRolesIs(a: Api, m: Mapping, wanted: seq<string>)
    ensures GrantRoles(a, m, wanted) ==
            if wanted == [] then (a, Done)
            else if Missing(a, m, wanted).None? then (a, NotFound)
            else if Missing(a, m, wanted).value == [] then (a, Done) else Grant(a, m, Missing(a, m, wanted).value)
  {}

  lemma RefsAreOurs(phi: Phi, s0: Server, L: Api, m: Mapping, refs: seq<RoleRef>)
    requires Ours(phi, s0, m.holder) && Ours(phi, s0, m.client) && forall i :: 0 <= i < |refs| ==>
        Ours(phi, s0, refs[i].id)
    requires m.realm in L.server.realms && HolderKnown(L.server, RMapping(phi, m))
    requires forall i :: 0 <= i < |RRefs(phi, refs)| ==>
      Lookup(L.server, RoleKey(RMapping(phi, m).realm, RMapping(phi, m).client, RRefs(phi, refs)[i].name)) ==
        Some(RRefs(phi, refs)[i].id)
    ensures WriteIsOurs(phi, s0, Grants(m, refs)) && AcceptsMapping(L.server, RMapping(phi, m), RRefs(phi, refs))
    ensures RRefs(phi, refs) == [] <==> refs == []
  {}

  /** None of the holder's lists for these clients has been granted to. */
  ghost predicate Untouched(s: Server, T: set<Mapping>, realm: string, kind: HolderKind, holder: Id,
      entries: ClientRoles) {
    forall i :: 0 <= i < |entries| && Client(realm, entries[i].0) in s.objects ==>
      Mapping(realm, kind, holder, s.objects[Client(realm, entries[i].0)]) !in T
  }

  /** Granting to one client's list leaves the other clients' lists untouched. */
  lemma StillUntouched(s: Server, t: Server, T: set<Mapping>, U: set<Mapping>, realm: string, kind: HolderKind,
      holder: Id, entries: ClientRoles)
    requires entries != [] && DistinctClients(entries) && ObjectsOk(s) && t.objects == s.objects
    requires Untouched(s, T, realm, kind, holder, entries)
    requires entries[0].1 != [] ==> Client(realm, entries[0].0) in s.objects
    requires entries[0].1 != [] ==> U <= T + {Mapping(realm, kind, holder, s.objects[Client(realm, entries[0].0)])}
    requires entries[0].1 == [] ==> U == T
    ensures DistinctClients(entries[1..]) && Untouched(t, U, realm, kind, holder, entries[1..])
  {
    var rest := entries[1..];
    forall i, j | 0 <= i < j < |rest| ensures rest[i].0 != rest[j].0 {
      assert rest[i] == entries[i + 1] && rest[j] == entries[j + 1];
    }
    forall i | 0 <= i < |rest| && Client(realm, rest[i].0) in t.objects
      ensures Mapping(realm, kind, holder, t.objects[Client(realm, rest[i].0)]) !in U
    {
      assert rest[i] == entries[i + 1];
    }
  }

  /** The entries of a map are granted one by one. */
  lemma GrantStep(a: Api, realm: string, kind: HolderKind, holder: Id, entries: ClientRoles)
    ensures entries == [] ==> GrantClientRoles(a, realm, kind, holder, entries) == (a, Done)
    ensures entries != [] && entries[0].1 == [] ==>
      GrantClientRoles(a, realm, kind, holder, entries) == GrantClientRoles(a, realm, kind, holder, entries[1..])
    ensures entries != [] && entries[0].1 != [] ==>
      var (b, client) := FindClient(a, realm, entries[0].0);
      GrantClientRoles(a, realm, kind, holder, entries) ==
      if client.None? then (b, NotFound)
      else
        var (c, status) := GrantRoles(b, Mapping(realm, kind, holder, client.value), entries[0].1);
        if status != Done then (c, status) else GrantClientRoles(c, realm, kind, holder, entries[1..])
  {}

  /** The first entry of a client-role map, for a holder whose list for that client is untouched. */
  lemma SimEntry(phi: Phi, s0: Server, L: Api, D: Api, T: set<Mapping>, realm: string, kind: HolderKind, d: Id,
      entries: ClientRoles)
    returns (psi: Phi, U: set<Mapping>, L2: Api, D2: Api, status: Status)
    requires Sim(phi, s0, L, D, T) && Ours(phi, s0, d) && entries != [] && entries[0].1 != []
    requires DistinctClients(entries)
    requires realm in L.server.realms && HolderKnown(L.server, Mapping(realm, kind, R(phi, d), ""))
    requires Untouched(L.server, T, realm, kind, R(phi, d), entries)
    ensures Extends(phi, psi) && Sim(psi, s0, L2, D2, U) && Grows(L.server, L2.server)
    ensures L2.server.objects == L.server.objects
    ensures Ours(psi, s0, d) && R(psi, d) == R(phi, d)
    ensures T <= U && forall m :: m in U - T ==> m.realm == realm && m.kind == kind && m.holder == R(phi, d)
    ensures GrantClientRoles(L, realm, kind, R(phi, d), entries) ==
            if status != Done then (L2, status) else GrantClientRoles(L2, realm, kind, R(phi, d), entries[1..])
    ensures GrantClientRoles(D, realm, kind, d, entries) ==
            if status != Done then (D2, status) else GrantClientRoles(D2, realm, kind, d, entries[1..])
    ensures realm in L2.server.realms && HolderKnown(L2.server, Mapping(realm, kind, R(phi, d), ""))
    ensures status == Done ==>
              DistinctClients(entries[1..]) && Untouched(L2.server, U, realm, kind, R(phi, d), entries[1..])
  {
    hide *;
    psi := SimFindClient(phi, s0, L, D, T, realm, entries[0].0);
    var (D1, found) := FindClient(D, realm, entries[0].0);
    assert FindClient(L, realm, entries[0].0).0 == L;
    GrantStep(L, realm, kind, R(phi, d), entries);
    GrantStep(D, realm, kind, d, entries);
    StillOurs(phi, psi, s0, L, D, L, D1, T, T, d);
    U, L2, D2, status := T, L, D1, NotFound;
    GrowsItself(L.server);
    ROptIs(psi, found);
    if found.Some? {
      var client := R(psi, found.value);
      var m, lm := Mapping(realm, kind, d, found.value), Mapping(realm, kind, R(phi, d), client);
      EntryList(psi, s0, L, D1, T, realm, kind, d, entries, found.value);
      U := SimGrantRoles(psi, s0, L, D1, T, m, entries[0].1);
      L2, status := GrantRoles(L, lm, entries[0].1).0, GrantRoles(L, lm, entries[0].1).1;
      D2 := GrantRoles(D1, m, entries[0].1).0;
      SimFacts(psi, s0, L, D1, T);
      HolderStays(L.server, L2.server, Mapping(realm, kind, R(phi, d), ""));
      StillUntouched(L.server, L2.server, T, U, realm, kind, R(phi, d), entries);
    }
  }

  lemma ROptIs(phi: Phi, d: Option<Id>)
    ensures ROpt(phi, d) == if d.None? then None else Some(R(phi, d.value))
  {}

  lemma HolderStays(s: Server, t: Server, m: Mapping)
    requires Grows(s, t) && m.realm in s.realms && HolderKnown(s, m)
    ensures m.realm in t.realms && HolderKnown(t, m)
  {}

  /** The list an entry grants to. */
  lemma EntryList(psi: Phi, s0: Server, L: Api, D: Api, T: set<Mapping>, realm: string, kind: HolderKind, d: Id,
      entries: ClientRoles, c: Id)
    requires entries != [] && ROpt(psi, Some(c)) == Lookup(L.server, Client(realm, entries[0].0))
    requires HolderKnown(L.server, Mapping(realm, kind, R(psi, d), ""))
    requires Untouched(L.server, T, realm, kind, R(psi, d), entries)
    ensures RMapping(psi, Mapping(realm, kind, d, c)) == Mapping(realm, kind, R(psi, d), R(psi, c))
    ensures Mapping(realm, kind, R(psi, d), R(psi, c)) !in T
    ensures HolderKnown(L.server, Mapping(realm, kind, R(psi, d), R(psi, c)))
    ensures Client(realm, entries[0].0) in L.server.objects
    ensures L.server.objects[Client(realm, entries[0].0)] == R(psi, c)
    ensures ROpt(psi, Some(c)) == Some(R(psi, c))
  {}

  lemma SimFacts(phi: Phi, s0: Server, L: Api, D: Api, T: set<Mapping>)
    requires Sim(phi, s0, L, D, T)
    ensures L.overlay.None? && D.overlay.Some? && WellFormed(L.server) && WellFormed(s0) && D.server == s0
    ensures ObjectsOk(L.server) && OwnersOk(L.server)
    ensures L.server.realms == s0.realms + D.overlay.value.realms && s0.realms !! D.overlay.value.realms
  {}

  /** An id of ours stays ours, and keeps its renaming. */
  lemma StillOurs(phi: Phi, psi: Phi, s0: Server, L: Api, D: Api, L1: Api, D1: Api, T: set<Mapping>, U: set<Mapping>,
      d: Id)
    requires Sim(phi, s0, L, D, T) && Sim(psi, s0, L1, D1, U) && Extends(phi, psi) && Ours(phi, s0, d)
    ensures Ours(psi, s0, d) && R(psi, d) == R(phi, d)
  {
    assert !IsSyntheticID("");
  }

  /** The client-role entries of one holder. */
  lemma {:induction false} SimGrantClientRoles(phi: Phi, s0: Server, L: Api, D: Api, T: set<Mapping>, realm: string,
      kind: HolderKind, d: Id, entries: ClientRoles)
    returns (psi: Phi, U: set<Mapping>)
    requires Sim(phi, s0, L, D, T) && Ours(phi, s0, d) && DistinctClients(entries)
    requires realm in L.server.realms && HolderKnown(L.server, Mapping(realm, kind, R(phi, d), ""))
    requires Untouched(L.server, T, realm, kind, R(phi, d), entries)
    ensures Extends(phi, psi) && T <= U && forall m :: m in U - T ==>
        m.realm == realm && m.kind == kind && m.holder == R(phi, d)
    ensures
      var (L', st) := GrantClientRoles(L, realm, kind, R(phi, d), entries);
      var (D', dt) := GrantClientRoles(D, realm, kind, d, entries);
      && st == dt && Sim(psi, s0, L', D', U) && Grows(L.server, L'.server)
      && L'.server.objects == L.server.objects
    decreases |entries|
  {
    hide *;
    psi, U := phi, T;
    GrowsItself(L.server);
    SimFacts(phi, s0, L, D, T);
    ExtendsTransitive(phi, phi, phi);
    GrantStep(L, realm, kind, R(phi, d), entries);
    GrantStep(D, realm, kind, d, entries);
    if entries == [] {
    } else if entries[0].1 == [] {
      StillUntouched(L.server, L.server, T, T, realm, kind, R(phi, d), entries);
      psi, U := SimGrantClientRoles(phi, s0, L, D, T, realm, kind, d, entries[1..]);
    } else {
      var L2, D2, status;
      psi, U, L2, D2, status := SimEntry(phi, s0, L, D, T, realm, kind, d, entries);
      if status == Done {
        var chi, V := SimGrantClientRoles(psi, s0, L2, D2, U, realm, kind, d, entries[1..]);
        var (L3, _) := GrantClientRoles(L2, realm, kind, R(phi, d), entries[1..]);
        GrowsTransitive(L.server, L2.server, L3.server);
        ExtendsTransitive(phi, psi, chi);
        psi, U := chi, V;
      }
    }
  }

  lemma ExtendsTransitive(phi: Phi, psi: Phi, chi: Phi)
    ensures Extends(phi, phi) && (Extends(phi, psi) && Extends(psi, chi) ==> Extends(phi, chi))
  {}

  /** No list of this holder has been granted to. */
  predicate FreshHolder(T: set<Mapping>, realm: string, kind: HolderKind, holder: Id) {
    forall m :: m in T ==> m.realm != realm || m.kind != kind || m.holder != holder
  }

  lemma FreshIsUntouched(s: Server, T: set<Mapping>, U: set<Mapping>, realm: string, kind: HolderKind, holder: Id,
      entries: ClientRoles)
    requires FreshHolder(T, realm, kind, holder) && ObjectsOk(s) && OwnersOk(s)
    requires U <= T + {Mapping(realm, kind, holder, "")}
    ensures Mapping(realm, kind, holder, "") !in T && Untouched(s, U, realm, kind, holder, entries)
  {}

  lemma EmptyIsOurs(phi: Phi, s0: Server, L: Api, D: Api, T: set<Mapping>, realm: string, kind: HolderKind, d: Id)
    requires Sim(phi, s0, L, D, T)
    ensures Ours(phi, s0, "") && RMapping(phi, Mapping(realm, kind, d, "")) == Mapping(realm, kind, R(phi, d), "")
  {
    EmptyIdIsEmpty(phi, s0, L, D, T, "");
  }

  /** What one step of the runs does: the server grows, and grants go to the lists in `U - T` only. */
  ghost predicate Touches(T: set<Mapping>, U: set<Mapping>, realm: string, kind: HolderKind, holder: Id) {
    T <= U && forall m :: m in U - T ==> m.realm == realm && m.kind == kind && m.holder == holder
  }

  lemma TouchesBoth(T: set<Mapping>, U: set<Mapping>, V: set<Mapping>, realm: string, kind: HolderKind, holder: Id)
    requires U <= T + {Mapping(realm, kind, holder, "")} && T <= U <= V
    requires forall m :: m in V - U ==> m.realm == realm && m.kind == kind && m.holder == holder
    ensures Touches(T, V, realm, kind, holder)
  {}

  lemma EnsureRoleMappingsStep(a: Api, realm: string, kind: HolderKind, holder: Id, realmRoles: seq<string>,
      entries: ClientRoles)
    ensures
      var m := Mapping(realm, kind, holder, "");
      EnsureRoleMappings(a, realm, kind, holder, realmRoles, entries) ==
      if GrantRoles(a, m, realmRoles).1 != Done then GrantRoles(a, m, realmRoles)
      else GrantClientRoles(GrantRoles(a, m, realmRoles).0, realm, kind, holder, entries)
  {}

  /** All roles of one holder, not granted to before. */
  lemma SimEnsureRoleMappings(phi: Phi, s0: Server, L: Api, D: Api, T: set<Mapping>, realm: string, kind: HolderKind,
      d: Id, realmRoles: seq<string>, entries: ClientRoles)
    returns (psi: Phi, U: set<Mapping>)
    requires Sim(phi, s0, L, D, T) && Ours(phi, s0, d) && DistinctClients(entries)
    requires realm in L.server.realms && HolderKnown(L.server, Mapping(realm, kind, R(phi, d), ""))
    requires FreshHolder(T, realm, kind, R(phi, d))
    ensures Extends(phi, psi) && Touches(T, U, realm, kind, R(phi, d))
    ensures
      var (L', st) := EnsureRoleMappings(L, realm, kind, R(phi, d), realmRoles, entries);
      var (D', dt) := EnsureRoleMappings(D, realm, kind, d, realmRoles, entries);
      && st == dt && Sim(psi, s0, L', D', U) && Grows(L.server, L'.server)
      && L'.server.objects == L.server.objects
  {
    hide *;
    var m, lm := Mapping(realm, kind, d, ""), Mapping(realm, kind, R(phi, d), "");
    EmptyIsOurs(phi, s0, L, D, T, realm, kind, d);
    SimFacts(phi, s0, L, D, T);
    FreshIsUntouched(L.server, T, T, realm, kind, R(phi, d), entries);
    U := SimGrantRoles(phi, s0, L, D, T, m, realmRoles);
    psi := phi;
    ExtendsTransitive(phi, phi, phi);
    TouchesBoth(T, U, U, realm, kind, R(phi, d));
    EnsureRoleMappingsStep(L, realm, kind, R(phi, d), realmRoles, entries);
    EnsureRoleMappingsStep(D, realm, kind, d, realmRoles, entries);
    var L1, D1 := GrantRoles(L, lm, realmRoles).0, GrantRoles(D, m, realmRoles).0;
    if GrantRoles(D, m, realmRoles).1 == Done {
      SimFacts(phi, s0, L1, D1, U);
      FreshIsUntouched(L1.server, T, U, realm, kind, R(phi, d), entries);
      HolderStays(L.server, L1.server, lm);
      var V;
      psi, V := SimGrantClientRoles(phi, s0, L1, D1, U, realm, kind, d, entries);
      TouchesBoth(T, U, V, realm, kind, R(phi, d));
      GrowsTransitive(L.server, L1.server, GrantClientRoles(L1, realm, kind, R(phi, d), entries).0.server);
      U := V;
    }
  }

  // ---------- groups, in step ----------

  lemma SimPeek(phi: Phi, s0: Server, L: Api, D: Api, T: set<Mapping>, k: Key)
    requires Sim(phi, s0, L, D, T) && Ours(phi, s0, Container(k)) && !k.ServiceAccount? && !k.Client?
    ensures ROpt(phi, Peek(D, k)) == Lookup(L.server, RKey(phi, k)) == Peek(L, RKey(phi, k))
    ensures Peek(D, k).Some? ==> Ours(phi, s0, Peek(D, k).value)
  {
    PeekIsOurs(phi, s0, D, k);
  }

  lemma CanCreate(phi: Phi, s0: Server, L: Api, D: Api, T: set<Mapping>, k: Key)
    requires Sim(phi, s0, L, D, T) && Ours(phi, s0, Container(k)) && !k.ServiceAccount? && !k.User? && !k.Client?
    requires Peek(D, k).None? && k.realm in L.server.realms && ContainerKnown(L.server, RKey(phi, k))
    ensures Creatable(phi, s0, L, D, k)
  {
    SimPeek(phi, s0, L, D, T, k);
    assert !Unseen(D.overlay.value, k);
  }

  lemma ReconcileGroupStep(a: Api, realm: string, parent: Id, name: string, createOnly: bool)
    ensures
      var k := GroupKey(realm, parent, name);
      && Container(k) == parent && k.realm == realm && k.Group?
      && ReconcileGroup(a, realm, parent, name, createOnly) ==
      if Peek(a, k).None? then Create(a, k, false)
      else (if createOnly then a else Update(a, k, Peek(a, k).value, false), Peek(a, k))
  {}

  lemma GroupKeyRenamed(phi: Phi, s: Server, realm: string, d: Id, name: string)
    requires ParentOk(s, realm, R(phi, d))
    ensures RKey(phi, GroupKey(realm, d, name)) == GroupKey(realm, R(phi, d), name)
    ensures !GroupKey(realm, R(phi, d), name).Client?
    ensures ContainerKnown(s, GroupKey(realm, R(phi, d), name))
  {}

  /** Creating or updating one group: both runs go on under corresponding ids. */
  lemma SimReconcileGroup(phi: Phi, s0: Server, L: Api, D: Api, T: set<Mapping>, realm: string, d: Id, name: string,
      createOnly: bool)
    returns (psi: Phi)
    requires Sim(phi, s0, L, D, T) && Ours(phi, s0, d) && realm in L.server.realms
    requires ParentOk(L.server, realm, R(phi, d))
    ensures Extends(phi, psi)
    ensures
      var (L', id) := ReconcileGroup(L, realm, R(phi, d), name, createOnly);
      var (D', e) := ReconcileGroup(D, realm, d, name, createOnly);
      && Sim(psi, s0, L', D', T) && e.Some? && id == Some(R(psi, e.value)) && Ours(psi, s0, e.value)
      && Lookup(L'.server, GroupKey(realm, R(phi, d), name)) == id && Grows(L.server, L'.server)
  {
    hide *;
    var k, lk := GroupKey(realm, d, name), GroupKey(realm, R(phi, d), name);
    ReconcileGroupStep(L, realm, R(phi, d), name, createOnly);
    ReconcileGroupStep(D, realm, d, name, createOnly);
    GroupKeyRenamed(phi, L.server, realm, d, name);
    SimPeek(phi, s0, L, D, T, k);
    ROptIs(phi, Peek(D, k));
    GrowsItself(L.server);
    ExtendsTransitive(phi, phi, phi);
    psi := phi;
    if Peek(D, k).None? {
      CanCreate(phi, s0, L, D, T, k);
      psi := SimCreate(phi, s0, L, D, T, k, false);
    } else if !createOnly {
      SimFacts(phi, s0, L, D, T);
      OnlyClientsAreUnseen(D.overlay.value, lk);
      SimUpdate(phi, s0, L, D, T, k, Peek(D, k).value, false);
      GrowsFinds(L.server, Update(L, lk, R(phi, Peek(D, k).value), false).server, lk);
    }
  }

  lemma GrowsFinds(s: Server, t: Server, k: Key)
    requires Grows(s, t)
    ensures Lookup(s, k).Some? ==> Lookup(t, k) == Lookup(s, k)
  {}

  /** No list of a group at or below the path `q` has been granted to. */
  ghost predicate Clear(T: set<Mapping>, s: Server, realm: string, q: seq<string>) {
    forall m :: m in T && m.realm == realm && m.kind == Groups ==>
      m.holder in s.paths && !(q <= s.paths[m.holder])
  }

  /** All lists granted to since are of groups at or below the path `q`. */
  ghost predicate Under(T: set<Mapping>, U: set<Mapping>, t: Server, realm: string, q: seq<string>) {
    T <= U && forall m :: m in U - T ==>
      m.realm == realm && m.kind == Groups && m.holder in t.paths && q <= t.paths[m.holder]
  }

  lemma ClearStays(T: set<Mapping>, s: Server, t: Server, realm: string, q: seq<string>)
    requires Clear(T, s, realm, q) && Grows(s, t)
    ensures Clear(T, t, realm, q)
  {}

  /** A group with a clear path has had nothing granted; granting to it leaves what is below clear. */
  lemma ClearHolder(T: set<Mapping>, s: Server, realm: string, id: Id, q: seq<string>)
    requires Clear(T, s, realm, q) && id in s.paths && s.paths[id] == q
    ensures FreshHolder(T, realm, Groups, id)
  {}

  lemma TouchesIsUnder(T: set<Mapping>, U: set<Mapping>, s: Server, realm: string, id: Id, q: seq<string>)
    requires Touches(T, U, realm, Groups, id) && id in s.paths && s.paths[id] == q
    ensures Under(T, U, s, realm, q)
  {}

  lemma ClearBelow(T: set<Mapping>, U: set<Mapping>, s: Server, realm: string, id: Id, q: seq<string>, name: string)
    requires Clear(T, s, realm, q) && Touches(T, U, realm, Groups, id) && id in s.paths && s.paths[id] == q
    ensures Clear(U, s, realm, q + [name])
  {
    forall m | m in U && m.realm == realm && m.kind == Groups
      ensures m.holder in s.paths && !(q + [name] <= s.paths[m.holder])
    {
      assert q <= q + [name];
      assert m in T ==> !(q <= s.paths[m.holder]);
    }
  }

  /** A sibling's path stays clear. */
  lemma ClearBeside(T: set<Mapping>, U: set<Mapping>, s: Server, t: Server, realm: string, q: seq<string>,
      name: string, other: string)
    requires Clear(T, s, realm, q + [other]) && Under(T, U, t, realm, q + [name]) && Grows(s, t) && name != other
    ensures Clear(U, t, realm, q + [other])
  {
    forall m | m in U && m.realm == realm && m.kind == Groups
      ensures m.holder in t.paths && !(q + [other] <= t.paths[m.holder])
    {
      if m !in T {
        var p := t.paths[m.holder];
        assert (q + [name])[|q|] == name && (q + [other])[|q|] == other;
        assert q + [name] <= p;
        assert p[|q|] == name;
      }
    }
  }

  /** The group an id belongs to, and its path. */
  lemma GroupFacts(s: Server, realm: string, parent: Id, name: string, id: Id)
    requires WellFormed(s) && Lookup(s, GroupKey(realm, parent, name)) == Some(id) && realm in s.realms
    ensures id in s.paths && s.paths[id] == PathOf(s, parent) + [name] && PathOf(s, id) == s.paths[id]
    ensures ParentOk(s, realm, id)
    ensures HolderKnown(s, Mapping(realm, Groups, id, ""))
  {}

  lemma PathStays(s: Server, t: Server, realm: string, parent: Id)
    requires Grows(s, t) && ParentOk(s, realm, parent) && WellFormed(s) && WellFormed(t)
    ensures PathOf(t, parent) == PathOf(s, parent) && ParentOk(t, realm, parent) && s.realms <= t.realms
  {}

  lemma ValidStep(gs: seq<GroupConfig>)
    requires ValidGroups(gs) && gs != []
    ensures DistinctClients(gs[0].clientRoles) && ValidGroups(gs[0].subGroups) && ValidGroups(gs[1..])
    ensures forall i :: 0 <= i < |gs[1..]| ==> gs[1..][i] == gs[i + 1] && gs[1..][i].name != gs[0].name
  {
    assert forall i :: 0 <= i < |gs[1..]| ==> gs[1..][i] == gs[i + 1];
  }

  /** The paths at which a list of trees would put its roots are clear. */
  ghost predicate AllClear(T: set<Mapping>, s: Server, realm: string, q: seq<string>, gs: seq<GroupConfig>) {
    forall i :: 0 <= i < |gs| ==> Clear(T, s, realm, q + [gs[i].name])
  }

  lemma AllClearBelow(T: set<Mapping>, U: set<Mapping>, s: Server, realm: string, id: Id, q: seq<string>,
      gs: seq<GroupConfig>)
    requires Clear(T, s, realm, q) && Touches(T, U, realm, Groups, id) && id in s.paths && s.paths[id] == q
    ensures AllClear(U, s, realm, q, gs)
  {
    forall i | 0 <= i < |gs| ensures Clear(U, s, realm, q + [gs[i].name]) {
      ClearBelow(T, U, s, realm, id, q, gs[i].name);
    }
  }

  lemma AllClearBeside(T: set<Mapping>, U: set<Mapping>, s: Server, t: Server, realm: string, q: seq<string>,
      gs: seq<GroupConfig>)
    requires gs != [] && AllClear(T, s, realm, q, gs) && Under(T, U, t, realm, q + [gs[0].name]) && Grows(s, t)
    requires forall i :: 0 <= i < |gs[1..]| ==> gs[1..][i] == gs[i + 1] && gs[1..][i].name != gs[0].name
    ensures AllClear(U, t, realm, q, gs[1..])
  {
    forall i | 0 <= i < |gs[1..]| ensures Clear(U, t, realm, q + [gs[1..][i].name]) {
      assert Clear(T, s, realm, q + [gs[i + 1].name]);
      ClearBeside(T, U, s, t, realm, q, gs[0].name, gs[i + 1].name);
    }
  }

  lemma FirstIsClear(T: set<Mapping>, s: Server, realm: string, q: seq<string>, gs: seq<GroupConfig>)
    requires AllClear(T, s, realm, q, gs)
    ensures gs != [] ==> Clear(T, s, realm, q + [gs[0].name])
  {}

  lemma UnderTwice(T: set<Mapping>, U: set<Mapping>, V: set<Mapping>, s: Server, t: Server, realm: string,
      q: seq<string>, name: string)
    requires Under(T, U, s, realm, q + [name]) && Under(U, V, t, realm, q) && Grows(s, t)
    ensures Under(T, V, t, realm, q)
  {
    assert q <= q + [name];
  }

  lemma UnderNothing(T: set<Mapping>, t: Server, realm: string, q: seq<string>)
    ensures Under(T, T, t, realm, q)
  {}

  lemma UnderStays(T: set<Mapping>, U: set<Mapping>, s: Server, t: Server, realm: string, q: seq<string>)
    requires Under(T, U, s, realm, q) && Grows(s, t)
    ensures Under(T, U, t, realm, q)
  {}

  /** One group and what is below it. */
  lemma {:induction false} SimEnsureGroup(phi: Phi, s0: Server, L: Api, D: Api, T: set<Mapping>, realm: string, d: Id,
      g: GroupConfig, createOnly: bool)
    returns (psi: Phi, U: set<Mapping>)
    requires Sim(phi, s0, L, D, T) && Ours(phi, s0, d) && realm in L.server.realms
    requires ParentOk(L.server, realm, R(phi, d))
    requires DistinctClients(g.clientRoles) && ValidGroups(g.subGroups)
    requires Clear(T, L.server, realm, PathOf(L.server, R(phi, d)) + [g.name])
    ensures Extends(phi, psi)
    ensures
      var (L', st) := EnsureGroup(L, realm, R(phi, d), g, createOnly);
      var (D', dt) := EnsureGroup(D, realm, d, g, createOnly);
      && st == dt && Sim(psi, s0, L', D', U) && Grows(L.server, L'.server)
      && Under(T, U, L'.server, realm, PathOf(L.server, R(phi, d)) + [g.name])
    decreases g
  {
    hide *;
    var q := PathOf(L.server, R(phi, d)) + [g.name];
    EnsureGroupStep(L, realm, R(phi, d), g, createOnly);
    EnsureGroupStep(D, realm, d, g, createOnly);
    SimFacts(phi, s0, L, D, T);
    psi := SimReconcileGroup(phi, s0, L, D, T, realm, d, g.name, createOnly);
    var (L1, id) := ReconcileGroup(L, realm, R(phi, d), g.name, createOnly);
    var (D1, e) := ReconcileGroup(D, realm, d, g.name, createOnly);
    SimFacts(psi, s0, L1, D1, T);
    PathStays(L.server, L1.server, realm, R(phi, d));
    GroupFacts(L1.server, realm, R(phi, d), g.name, id.value);
    ClearStays(T, L.server, L1.server, realm, q);
    ClearHolder(T, L1.server, realm, id.value, q);
    var chi;
    chi, U := SimEnsureRoleMappings(psi, s0, L1, D1, T, realm, Groups, e.value, g.realmRoles, g.clientRoles);
    var (L2, st) := EnsureRoleMappings(L1, realm, Groups, id.value, g.realmRoles, g.clientRoles);
    var (D2, _) := EnsureRoleMappings(D1, realm, Groups, e.value, g.realmRoles, g.clientRoles);
    SimFacts(chi, s0, L2, D2, U);
    GrowsTransitive(L.server, L1.server, L2.server);
    ExtendsTransitive(phi, psi, chi);
    StillOurs(psi, chi, s0, L1, D1, L2, D2, T, U, e.value);
    PathStays(L1.server, L2.server, realm, id.value);
    GroupStays(L1.server, L2.server, realm, id.value);
    TouchesIsUnder(T, U, L2.server, realm, id.value, q);
    psi := chi;
    if st == Done {
      ClearStays(T, L1.server, L2.server, realm, q);
      AllClearBelow(T, U, L2.server, realm, id.value, q, g.subGroups);
      var V;
      psi, V := SimEnsureGroups(chi, s0, L2, D2, U, realm, e.value, g.subGroups, createOnly);
      var (L3, _) := EnsureGroups(L2, realm, id.value, g.subGroups, createOnly);
      GrowsTransitive(L.server, L2.server, L3.server);
      ExtendsTransitive(phi, chi, psi);
      UnderStays(T, U, L2.server, L3.server, realm, q);
      UnderJoined(T, U, V, L3.server, realm, q);
      U := V;
    }
  }

  lemma UnderJoined(T: set<Mapping>, U: set<Mapping>, V: set<Mapping>, t: Server, realm: string, q: seq<string>)
    requires Under(T, U, t, realm, q) && Under(U, V, t, realm, q)
    ensures Under(T, V, t, realm, q)
  {}

  lemma GroupStays(s: Server, t: Server, realm: string, id: Id)
    requires Grows(s, t) && id in s.paths
    ensures id in t.paths && t.paths[id] == s.paths[id]
  {}

  /** Trees of groups: the two runs stay in step all the way down. */
  lemma {:induction false} SimEnsureGroups(phi: Phi, s0: Server, L: Api, D: Api, T: set<Mapping>, realm: string, d: Id,
      gs: seq<GroupConfig>, createOnly: bool)
    returns (psi: Phi, U: set<Mapping>)
    requires Sim(phi, s0, L, D, T) && Ours(phi, s0, d) && realm in L.server.realms
    requires ParentOk(L.server, realm, R(phi, d))
    requires ValidGroups(gs) && AllClear(T, L.server, realm, PathOf(L.server, R(phi, d)), gs)
    ensures Extends(phi, psi)
    ensures
      var (L', st) := EnsureGroups(L, realm, R(phi, d), gs, createOnly);
      var (D', dt) := EnsureGroups(D, realm, d, gs, createOnly);
      && st == dt && Sim(psi, s0, L', D', U) && Grows(L.server, L'.server)
      && Under(T, U, L'.server, realm, PathOf(L.server, R(phi, d)))
    decreases gs
  {
    hide *;
    var q := PathOf(L.server, R(phi, d));
    EnsureGroupsStep(L, realm, R(phi, d), gs, createOnly);
    EnsureGroupsStep(D, realm, d, gs, createOnly);
    SimFacts(phi, s0, L, D, T);
    GrowsItself(L.server);
    ExtendsTransitive(phi, phi, phi);
    UnderNothing(T, L.server, realm, q);
    psi, U := phi, T;
    if gs != [] {
      ValidStep(gs);
      FirstIsClear(T, L.server, realm, q, gs);
      psi, U := SimEnsureGroup(phi, s0, L, D, T, realm, d, gs[0], createOnly);
      var (L1, st) := EnsureGroup(L, realm, R(phi, d), gs[0], createOnly);
      var (D1, _) := EnsureGroup(D, realm, d, gs[0], createOnly);
      SimFacts(psi, s0, L1, D1, U);
      GrowsItself(L1.server);
      UnderNothing(U, L1.server, realm, q);
      UnderTwice(T, U, U, L1.server, L1.server, realm, q, gs[0].name);
      if st == Done {
        StillOurs(phi, psi, s0, L, D, L1, D1, T, U, d);
        PathStays(L.server, L1.server, realm, R(phi, d));
        AllClearBeside(T, U, L.server, L1.server, realm, q, gs);
        var chi, V := SimEnsureGroups(psi, s0, L1, D1, U, realm, d, gs[1..], createOnly);
        var (L2, _) := EnsureGroups(L1, realm, R(phi, d), gs[1..], createOnly);
        GrowsTransitive(L.server, L1.server, L2.server);
        ExtendsTransitive(phi, psi, chi);
        UnderTwice(T, U, V, L1.server, L2.server, realm, q, gs[0].name);
        psi, U := chi, V;
      }
    }
  }

  // ---------- roles, clients and realms, in step ----------

  lemma RoleKeyFacts(phi: Phi, s0: Server, L: Api, D: Api, T: set<Mapping>, realm: string, d: Id, name: string)
    requires Sim(phi, s0, L, D, T) && Ours(phi, s0, d) && RoleHome(L.server, realm, R(phi, d))
    ensures
      var k := RoleKey(realm, d, name);
      && Container(k) == d && k.realm == realm && !k.ServiceAccount? && !k.User? && !k.Client? && Ours(phi, s0, "")
      && RKey(phi, k) == RoleKey(realm, R(phi, d), name) && ContainerKnown(L.server, RKey(phi, k)) && R(phi, "") == ""
      && !RKey(phi, k).Client?
  {
    EmptyIdIsEmpty(phi, s0, L, D, T, d);
    EmptyIdIsEmpty(phi, s0, L, D, T, "");
  }

  lemma EnsureRoleStep(a: Api, k: Key, createOnly: bool)
    ensures EnsureRole(a, k, createOnly) ==
            if Peek(a, k).None? then
              (Create(a, k, false).0, if Create(a, k, false).1.None? then Refused else Done)
            else (if createOnly then a else Update(a, k, "", false), Done)
  {}

  lemma SameRealms(a: Api, k: Key, id: Id, serviceAccount: bool)
    ensures Create(a, k, serviceAccount).0.server.realms == a.server.realms ==
        Update(a, k, id, serviceAccount).server.realms
  {}

  /** A realm role or a client role. */
  lemma SimEnsureRole(phi: Phi, s0: Server, L: Api, D: Api, T: set<Mapping>, realm: string, d: Id, name: string,
      createOnly: bool)
    returns (psi: Phi)
    requires Sim(phi, s0, L, D, T) && Ours(phi, s0, d) && realm in L.server.realms
    requires RoleHome(L.server, realm, R(phi, d))
    ensures Extends(phi, psi)
    ensures
      var (L', st) := EnsureRole(L, RoleKey(realm, R(phi, d), name), createOnly);
      var (D', dt) := EnsureRole(D, RoleKey(realm, d, name), createOnly);
      st == Done && dt == Done && Sim(psi, s0, L', D', T) && Grows(L.server, L'.server) &&
        L'.server.realms == L.server.realms
  {
    hide *;
    var k, lk := RoleKey(realm, d, name), RoleKey(realm, R(phi, d), name);
    RoleKeyFacts(phi, s0, L, D, T, realm, d, name);
    EnsureRoleStep(L, lk, createOnly);
    EnsureRoleStep(D, k, createOnly);
    SimPeek(phi, s0, L, D, T, k);
    ROptIs(phi, Peek(D, k));
    GrowsItself(L.server);
    ExtendsTransitive(phi, phi, phi);
    SameRealms(L, lk, "", false);
    psi := phi;
    if Peek(D, k).None? {
      CanCreate(phi, s0, L, D, T, k);
      psi := SimCreate(phi, s0, L, D, T, k, false);
    } else if !createOnly {
      SimFacts(phi, s0, L, D, T);
      OnlyClientsAreUnseen(D.overlay.value, lk);
      SimUpdate(phi, s0, L, D, T, k, "", false);
    }
  }

  lemma {:induction false} SimEnsureRoles(phi: Phi, s0: Server, L: Api, D: Api, T: set<Mapping>, realm: string, d: Id,
      names: seq<string>, createOnly: bool)
    returns (psi: Phi)
    requires Sim(phi, s0, L, D, T) && Ours(phi, s0, d) && realm in L.server.realms
    requires RoleHome(L.server, realm, R(phi, d))
    ensures Extends(phi, psi)
    ensures
      var (L', st) := EnsureRoles(L, realm, R(phi, d), names, createOnly);
      var (D', dt) := EnsureRoles(D, realm, d, names, createOnly);
      st == Done && dt == Done && Sim(psi, s0, L', D', T) && Grows(L.server, L'.server) &&
        L'.server.realms == L.server.realms
    decreases |names|
  {
    hide *;
    EnsureRolesStep(L, realm, R(phi, d), names, createOnly);
    EnsureRolesStep(D, realm, d, names, createOnly);
    GrowsItself(L.server);
    ExtendsTransitive(phi, phi, phi);
    psi := phi;
    if names != [] {
      psi := SimEnsureRole(phi, s0, L, D, T, realm, d, names[0], createOnly);
      var L1 := EnsureRole(L, RoleKey(realm, R(phi, d), names[0]), createOnly).0;
      var D1 := EnsureRole(D, RoleKey(realm, d, names[0]), createOnly).0;
      StillOurs(phi, psi, s0, L, D, L1, D1, T, T, d);
      RoleHomeStays(L.server, L1.server, realm, R(phi, d));
      var chi := SimEnsureRoles(psi, s0, L1, D1, T, realm, d, names[1..], createOnly);
      GrowsTransitive(L.server, L1.server, EnsureRoles(L1, realm, R(phi, d), names[1..], createOnly).0.server);
      ExtendsTransitive(phi, psi, chi);
      psi := chi;
    }
  }

  lemma EnsureClientStep(a: Api, realm: string, c: ClientConfig, createOnly: bool)
    ensures
      var k := Client(realm, c.clientId);
      var found := FindClient(a, realm, c.clientId);
      EnsureClient(a, realm, c, createOnly) ==
      if found.1.None? then Create(found.0, k, c.serviceAccount)
      else (if createOnly then found.0 else Update(found.0, k, found.1.value, c.serviceAccount), found.1)
  {}

  lemma ClientKeyFacts(phi: Phi, s0: Server, L: Api, D: Api, T: set<Mapping>, realm: string, clientId: string)
    requires Sim(phi, s0, L, D, T)
    ensures
      var k := Client(realm, clientId);
      && RKey(phi, k) == k && Ours(phi, s0, Container(k))
      && (realm in L.server.realms && Peek(D, k).None? && !Unseen(D.overlay.value, k) ==> Creatable(phi, s0, L, D, k))
  {
    PeekIsOurs(phi, s0, D, Client(realm, clientId));
  }

  lemma ClientHome(s: Server, t: Server, realm: string, clientId: string, id: Id)
    requires WellFormed(s) && Grows(s, t) && Lookup(s, Client(realm, clientId)) == Some(id)
    ensures RoleHome(t, realm, id)
  {}

  /** A client: found, made up on first sight, or created. */
  lemma SimEnsureClient(phi: Phi, s0: Server, L: Api, D: Api, T: set<Mapping>, realm: string, c: ClientConfig,
      createOnly: bool)
    returns (psi: Phi)
    requires Sim(phi, s0, L, D, T) && realm in L.server.realms
    ensures Extends(phi, psi)
    ensures
      var (L', id) := EnsureClient(L, realm, c, createOnly);
      var (D', e) := EnsureClient(D, realm, c, createOnly);
      && Sim(psi, s0, L', D', T) && e.Some? && id == Some(R(psi, e.value)) && Ours(psi, s0, e.value)
      && RoleHome(L'.server, realm, id.value) && Grows(L.server, L'.server) && L'.server.realms == L.server.realms
      && Lookup(L'.server, Client(realm, c.clientId)) == id
  {
    hide *;
    var k := Client(realm, c.clientId);
    EnsureClientStep(L, realm, c, createOnly);
    EnsureClientStep(D, realm, c, createOnly);
    psi := SimFindClient(phi, s0, L, D, T, realm, c.clientId);
    var D1, found := FindClient(D, realm, c.clientId).0, FindClient(D, realm, c.clientId).1;
    assert FindClient(L, realm, c.clientId).0 == L;
    ROptIs(psi, found);
    ClientKeyFacts(psi, s0, L, D1, T, realm, c.clientId);
    SimFacts(psi, s0, L, D1, T);
    GrowsItself(L.server);
    if found.None? {
      SameRealms(L, k, "", c.serviceAccount);
      var chi := SimCreate(psi, s0, L, D1, T, k, c.serviceAccount);
      ExtendsTransitive(phi, psi, chi);
      var L2, D2 := Create(L, k, c.serviceAccount).0, Create(D1, k, c.serviceAccount).0;
      SimFacts(chi, s0, L2, D2, T);
      GrowsItself(L2.server);
      ClientHome(L2.server, L2.server, realm, c.clientId, Create(L, k, c.serviceAccount).1.value);
      psi := chi;
    } else {
      var id := R(psi, found.value);
      ClientHome(L.server, L.server, realm, c.clientId, id);
      if !createOnly {
        SameRealms(L, k, id, c.serviceAccount);
        SimUpdate(psi, s0, L, D1, T, k, found.value, c.serviceAccount);
        ClientHome(L.server, Update(L, k, id, c.serviceAccount).server, realm, c.clientId, id);
        GrowsFinds(L.server, Update(L, k, id, c.serviceAccount).server, k);
      }
    }
  }
}
