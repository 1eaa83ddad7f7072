/** What a dry run keeps track of (internal/provisioner/dryrun.go), as a state that every call of the port takes to the
    next: what it has pretended to create, and every id it has ever handed out. */
module Bookkeeping {
  import opened Directory
  import opened Ids
  import opened Text

  datatype PolicyRep = PolicyRep(id: Id, name: string, clients: seq<string>)

  /** Changes asked for beside those of the directory. */
  datatype Report =
    | FlowCreated(realm: string, alias: string)
    | OrganizationCreated(realm: string, name: string)
    | OrganizationGroupCreated(realm: string, org: Id, parent: Id, name: string)
    | MemberAdded(realm: string, org: Id, user: Id)
    | ProviderCreated(realm: string, alias: string)
    | PermissionsEnabled(realm: string, client: Id)
    | PolicyCreated(realm: string, resourceServer: Id, name: string)
    | PolicyUpdated(realm: string, resourceServer: Id, policy: Id)
    | PermissionUpdated(realm: string, resourceServer: Id, permission: Id, policies: seq<Id>)

  /** `issued` lists all ids ever handed out, in order; most are remembered under some name, some nowhere. */
  datatype State = State(
    api: Api, flows: map<(string, string), Id>, orgMembers: set<(string, Id, Id)>,
    providers: map<(string, string), string>, policies: map<(string, Id, string), PolicyRep>,
    issued: seq<Id>, reports: seq<Report>)

  /** The scopes the server offers on every client. */
  const MANAGEMENT_SCOPES := [
    "view", "manage", "configure", "map-roles", "map-roles-client-scope", "map-roles-composite", "token-exchange"]

  // ---------- ids ----------

  function Issue(issued: seq<Id>, kind: string): seq<Id> {
    issued + [NewId(kind, |issued| + 1)]
  }

  function IssueMany(issued: seq<Id>, kind: string, n: nat): seq<Id>
    decreases n
  {
    if n == 0 then issued else Issue(IssueMany(issued, kind, n - 1), kind)
  }

  ghost predicate Numbered(id: Id, n: nat) {
    exists kind: string :: id == NewId(kind, n)
  }

  /** Each id carries the number of its turn, whatever its kind. */
  ghost predicate IssuedOk(issued: seq<Id>) {
    forall i :: 0 <= i < |issued| ==> Numbered(issued[i], i + 1)
  }

  lemma NewIdIsNumbered(kind: string, n: nat)
    ensures Numbered(NewId(kind, n), n)
  {}

  lemma NumbersTellApart(x: Id, m: nat, y: Id, n: nat)
    requires Numbered(x, m) && Numbered(y, n) && m != n
    ensures x != y
  {
    var k: string :| x == NewId(k, m);
    var j: string :| y == NewId(j, n);
    NewIdInjective(k, m, j, n);
  }

  lemma NumberedIsSynthetic(x: Id, m: nat)
    requires Numbered(x, m)
    ensures IsSyntheticID(x)
  {
    var k: string :| x == NewId(k, m);
    NewIdInjective(k, m, k, m);
  }

  lemma IssueKeeps(issued: seq<Id>, kind: string)
    requires IssuedOk(issued)
    ensures
      var more := Issue(issued, kind);
      IssuedOk(more) && issued <= more && |more| == |issued| + 1 && NewId(kind, |issued| + 1) in more
    ensures NewId(kind, |issued| + 1) !in issued
  {
    hide NewId, Numbered;
    var id := NewId(kind, |issued| + 1);
    NewIdIsNumbered(kind, |issued| + 1);
    assert Issue(issued, kind)[|issued|] == id;
    forall i | 0 <= i < |issued| ensures issued[i] != id {
      NumbersTellApart(issued[i], i + 1, id, |issued| + 1);
    }
  }

  lemma {:induction false} IssueManyKeeps(issued: seq<Id>, kind: string, n: nat)
    requires IssuedOk(issued)
    ensures
      var more := IssueMany(issued, kind, n);
      IssuedOk(more) && issued <= more && |more| == |issued| + n
    decreases n
  {
    hide IssuedOk, Issue;
    if n > 0 {
      IssueManyKeeps(issued, kind, n - 1);
      IssueKeeps(IssueMany(issued, kind, n - 1), kind);
    }
  }

  /** All ids ever handed out are synthetic, and no two are alike, whatever their kinds. */
  lemma IssuedApart(issued: seq<Id>)
    requires IssuedOk(issued)
    ensures forall i, j :: 0 <= i < j < |issued| ==> issued[i] != issued[j]
    ensures forall id :: id in issued ==> IsSyntheticID(id)
  {
    hide NewId, Numbered, IsSyntheticID;
    forall i, j | 0 <= i < j < |issued| ensures issued[i] != issued[j] {
      NumbersTellApart(issued[i], i + 1, issued[j], j + 1);
    }
    forall i | 0 <= i < |issued| ensures IsSyntheticID(issued[i]) {
      NumberedIsSynthetic(issued[i], i + 1);
    }
  }

  // ---------- calls ----------

  /** The calls that change the bookkeeping; a call that only reads leaves it alone. */
  datatype Call =
    | MakesRealm(realm: string)
    | Makes(key: Key, serviceAccount: bool)
    | AsksClient(realm: string, clientId: string)
    | AsksServiceAccount(realm: string, client: Id)
    | Directs(write: Write)
    | MakesFlow(realm: string, alias: string)
    | MakesOrganization(realm: string, name: string)
    | MakesOrganizationGroup(realm: string, org: Id, parent: Id, name: string)
    | JoinsOrganization(realm: string, org: Id, user: Id)
    | MakesProvider(realm: string, alias: string, body: string)
    | EnablesPermissions(realm: string, client: Id)
    | MakesPolicy(realm: string, resourceServer: Id, name: string, clients: seq<string>)
    | Tells(report: Report)

  /** The counter moves on by `n` ids that the directory does not remember. */
  function Skip(a: Api, n: nat): Api
    requires a.overlay.Some?
    ensures Skip(a, n).overlay.Some?
  {
    a.(overlay := Some(a.overlay.value.(seqNo := a.overlay.value.seqNo + n)))
  }

  /** Something is recorded in the directory, and an id with it, unless it was there to be found. */
  function Recorded(s: State, b: Api, kind: string): State
    requires s.api.overlay.Some? && b.overlay.Some?
    ensures Recorded(s, b, kind).api.overlay.Some?
  {
    s.(api := b, issued := if b == s.api then s.issued else Issue(s.issued, kind))
  }

  function After(s: State, c: Call): State
    requires s.api.overlay.Some?
    ensures After(s, c).api.overlay.Some?
  {
    match c
    case MakesRealm(realm) => s.(api := CreateRealm(s.api, realm).0)
    case Makes(k, serviceAccount) =>
      s.(api := Create(s.api, k, serviceAccount).0, issued := Issue(s.issued, Kind(k)))
    case AsksClient(realm, clientId) => Recorded(s, FindClient(s.api, realm, clientId).0, "client")
    case AsksServiceAccount(realm, client) => Recorded(s, FindServiceAccount(s.api, realm, client).0, "sa-user")
    case Directs(w) => s.(api := Record(s.api, w))
    case MakesFlow(realm, alias) =>
      s.(api := Skip(s.api, 1), flows := s.flows[(realm, alias) := NewId("authflow", |s.issued| + 1)],
         issued := Issue(s.issued, "authflow"), reports := s.reports + [FlowCreated(realm, alias)])
    case MakesOrganization(realm, name) =>
      s.(api := Skip(s.api, 1), issued := Issue(s.issued, "organization"),
         reports := s.reports + [OrganizationCreated(realm, name)])
    case MakesOrganizationGroup(realm, org, parent, name) =>
      s.(api := Skip(s.api, 1), issued := Issue(s.issued, "orggroup"),
         reports := s.reports + [OrganizationGroupCreated(realm, org, parent, name)])
    case JoinsOrganization(realm, org, user) =>
      s.(orgMembers := s.orgMembers + {(realm, org, user)}, reports := s.reports + [MemberAdded(realm, org, user)])
    case MakesProvider(realm, alias, body) =>
      s.(providers := s.providers[(realm, alias) := body], reports := s.reports + [ProviderCreated(realm, alias)])
    case EnablesPermissions(realm, client) =>
      s.(api := Skip(s.api, |MANAGEMENT_SCOPES| + 1),
         issued := Issue(IssueMany(s.issued, "scopeperm", |MANAGEMENT_SCOPES|), "resource"),
         reports := s.reports + [PermissionsEnabled(realm, client)])
    case MakesPolicy(realm, rs, name, clients) =>
      s.(api := Skip(s.api, 1),
         policies := s.policies[(realm, rs, name) := PolicyRep(NewId("policy", |s.issued| + 1), name, clients)],
         issued := Issue(s.issued, "policy"), reports := s.reports + [PolicyCreated(realm, rs, name)])
    case Tells(report) => s.(reports := s.reports + [report])
  }

  function AfterAll(s: State, cs: seq<Call>): State
    requires s.api.overlay.Some?
    ensures AfterAll(s, cs).api.overlay.Some?
    decreases |cs|
  {
    if cs == [] then s else AfterAll(After(s, cs[0]), cs[1..])
  }

  // ---------- what every state satisfies ----------

  /** No two things in the directory share an id, whatever their kinds, and all ids are ones handed out. */
  ghost predicate CreatedOk(o: Overlay, issued: seq<Id>) {
    && (forall k :: k in o.created ==> o.created[k] in issued)
    && forall k, j :: k in o.created && j in o.created && o.created[k] == o.created[j] ==> k == j
  }

  ghost predicate OthersOk(s: State) {
    && (forall f :: f in s.flows ==> s.flows[f] in s.issued)
    && forall p :: p in s.policies ==> s.policies[p].id in s.issued
  }

  ghost predicate Valid(s: State) {
    && s.api.overlay.Some? && s.api.overlay.value.seqNo == |s.issued| && IssuedOk(s.issued)
    && CreatedOk(s.api.overlay.value, s.issued) && OthersOk(s)
  }

  /** The server is left alone, nothing handed out or reported is forgotten, and what is remembered under a name is
      remembered under it until it is created again. */
  ghost predicate Follows(s: State, t: State, cs: seq<Call>)
    requires s.api.overlay.Some? && t.api.overlay.Some?
  {
    var o, p := s.api.overlay.value, t.api.overlay.value;
    && t.api.server == s.api.server && s.issued <= t.issued && s.reports <= t.reports && s.api.trace <= t.api.trace
    && o.realms <= p.realms && s.orgMembers <= t.orgMembers
    && s.providers.Keys <= t.providers.Keys && s.policies.Keys <= t.policies.Keys && s.flows.Keys <= t.flows.Keys
    && o.created.Keys <= p.created.Keys
    && (forall k :: k in o.created && Makes(k, true) !in cs && Makes(k, false) !in cs ==>
          k in p.created && p.created[k] == o.created[k])
    && (forall f :: f in s.flows && MakesFlow(f.0, f.1) !in cs ==> f in t.flows && t.flows[f] == s.flows[f])
  }

  lemma MoreCreated(o: Overlay, issued: seq<Id>, k: Key)
    requires o.seqNo == |issued| && IssuedOk(issued) && CreatedOk(o, issued)
    ensures CreatedOk(Pretend(o, k), Issue(issued, Kind(k)))
    ensures NewSynthetic(o, k) == NewId(Kind(k), |issued| + 1)
  {
    IssueKeeps(issued, Kind(k));
    var more, id := Issue(issued, Kind(k)), NewSynthetic(o, k);
    assert more[|issued|] == id && forall x :: x in issued ==> x in more;
  }

  lemma MoreIssued(o: Overlay, issued: seq<Id>, more: seq<Id>)
    requires CreatedOk(o, issued) && issued <= more
    ensures CreatedOk(o.(seqNo := |more|), more)
  {
    assert forall x :: x in issued ==> x in more;
  }

  lemma OthersStillOk(s: State, t: State)
    requires OthersOk(s) && s.issued <= t.issued
    requires forall f :: f in t.flows ==> (f in s.flows && t.flows[f] == s.flows[f]) || t.flows[f] in t.issued
    requires forall p :: p in t.policies ==>
               (p in s.policies && t.policies[p] == s.policies[p]) || t.policies[p].id in t.issued
    ensures OthersOk(t)
  {
    assert forall x :: x in s.issued ==> x in t.issued;
  }

  /** One thing recorded in the directory under a new id. */
  lemma RecordingKeeps(s: State, t: State, k: Key)
    requires Valid(s)
    requires t == s.(api := t.api, issued := Issue(s.issued, Kind(k))) && s.api.trace <= t.api.trace
    requires t.api == s.api.(overlay := Some(Pretend(s.api.overlay.value, k)), trace := t.api.trace)
    ensures Valid(t) && Follows(s, t, [Makes(k, true)]) && Follows(s, t, [Makes(k, false)])
  {
    hide IssuedOk, CreatedOk, OthersOk;
    MoreCreated(s.api.overlay.value, s.issued, k);
    IssueKeeps(s.issued, Kind(k));
    OthersStillOk(s, t);
    assert [Makes(k, true)][0] == Makes(k, true) && [Makes(k, false)][0] == Makes(k, false);
  }

  /** What is new under a name that was free disturbs nothing. */
  lemma FreshRecording(s: State, t: State, k: Key, c: Call)
    requires Valid(s) && Valid(t) && Follows(s, t, [Makes(k, true)]) && k !in s.api.overlay.value.created
    ensures Follows(s, t, [c])
  {
    assert forall j :: j in s.api.overlay.value.created ==> Makes(j, true) !in [Makes(k, true)];
    assert forall j :: Makes(j, false) !in [Makes(k, true)];
  }

  lemma KindOfKeys(realm: string, clientId: string, client: Id)
    ensures Kind(Client(realm, clientId)) == "client" && Kind(ServiceAccount(realm, client)) == "sa-user"
  {}

  lemma LookupKeeps(s: State, realm: string, clientId: string, client: Id)
    requires Valid(s)
    ensures
      var c := AsksClient(realm, clientId);
      Valid(After(s, c)) && Follows(s, After(s, c), [c])
    ensures
      var c := AsksServiceAccount(realm, client);
      Valid(After(s, c)) && Follows(s, After(s, c), [c])
  {
    hide IssuedOk, CreatedOk, OthersOk, Follows;
    KindOfKeys(realm, clientId, client);
    var c, d := AsksClient(realm, clientId), AsksServiceAccount(realm, client);
    FollowsItself(s, [c]);
    FollowsItself(s, [d]);
    if After(s, c) != s {
      RecordingKeeps(s, After(s, c), Client(realm, clientId));
      FreshRecording(s, After(s, c), Client(realm, clientId), c);
    }
    if After(s, d) != s {
      RecordingKeeps(s, After(s, d), ServiceAccount(realm, client));
      FreshRecording(s, After(s, d), ServiceAccount(realm, client), d);
    }
  }

  lemma FollowsItself(s: State, cs: seq<Call>)
    requires s.api.overlay.Some?
    ensures Follows(s, s, cs)
  {}

  /** A call that hands out ids the directory does not remember. */
  lemma SkippingKeeps(s: State, t: State, n: nat)
    requires Valid(s) && t.api == Skip(s.api, n) && s.issued <= t.issued && |t.issued| == |s.issued| + n
    requires IssuedOk(t.issued) && OthersOk(t)
    ensures Valid(t)
  {
    MoreIssued(s.api.overlay.value, s.issued, t.issued);
  }

  /** A call that hands out one id which the directory does not remember. */
  lemma IssuingKeeps(s: State, c: Call, kind: string)
    requires Valid(s) && (c.MakesFlow? || c.MakesOrganization? || c.MakesOrganizationGroup? || c.MakesPolicy?)
    requires After(s, c).issued == Issue(s.issued, kind)
    ensures Valid(After(s, c)) && Follows(s, After(s, c), [c])
  {
    hide IssuedOk, CreatedOk, OthersOk, NewId, Issue;
    var t := After(s, c);
    IssueKeeps(s.issued, kind);
    IssuingFollows(s, c);
    OneMoreOther(s, c, kind);
    SkippingKeeps(s, t, 1);
  }

  /** An id handed out and remembered nowhere. */
  lemma OneMoreId(s: State, kind: string)
    requires Valid(s)
    ensures
      var id := NewId(kind, |s.issued| + 1);
      && Valid(s.(api := Skip(s.api, 1), issued := s.issued + [id]))
      && s.api.overlay.value.seqNo == |s.issued| && id !in s.issued && IsSyntheticID(id)
  {
    hide IssuedOk, CreatedOk, OthersOk, NewId, IsSyntheticID;
    var t := s.(api := Skip(s.api, 1), issued := Issue(s.issued, kind));
    IssueKeeps(s.issued, kind);
    NewIdInjective(kind, |s.issued| + 1, kind, |s.issued| + 1);
    OthersStillOk(s, t);
    SkippingKeeps(s, t, 1);
  }

  lemma OneMoreOther(s: State, c: Call, kind: string)
    requires Valid(s) && (c.MakesFlow? || c.MakesOrganization? || c.MakesOrganizationGroup? || c.MakesPolicy?)
    requires After(s, c).issued == Issue(s.issued, kind)
    ensures OthersOk(After(s, c))
  {
    hide IssuedOk, CreatedOk, NewId;
    var t := After(s, c);
    assert t.issued[|s.issued|] == NewId(kind, |s.issued| + 1);
    if c.MakesFlow? {
      assert t.issued == Issue(s.issued, "authflow");
      assert Issue(s.issued, "authflow")[|s.issued|] == NewId("authflow", |s.issued| + 1);
    } else if c.MakesPolicy? {
      assert Issue(s.issued, "policy")[|s.issued|] == NewId("policy", |s.issued| + 1);
    }
    assert forall x :: x in s.issued ==> x in t.issued;
  }

  lemma IssuingFollows(s: State, c: Call)
    requires s.api.overlay.Some?
    requires c.MakesFlow? || c.MakesOrganization? || c.MakesOrganizationGroup? || c.MakesPolicy?
    ensures Follows(s, After(s, c), [c])
  {
    hide NewId;
    assert [c][0] == c;
  }

  lemma EnablingKeeps(s: State, realm: string, client: Id)
    requires Valid(s)
    ensures
      var c := EnablesPermissions(realm, client);
      Valid(After(s, c)) && Follows(s, After(s, c), [c])
  {
    hide IssuedOk, CreatedOk, OthersOk, Issue, IssueMany;
    var t := After(s, EnablesPermissions(realm, client));
    IssueManyKeeps(s.issued, "scopeperm", |MANAGEMENT_SCOPES|);
    IssueKeeps(IssueMany(s.issued, "scopeperm", |MANAGEMENT_SCOPES|), "resource");
    OthersStillOk(s, t);
    SkippingKeeps(s, t, |MANAGEMENT_SCOPES| + 1);
  }

  /** A call that hands out nothing. */
  lemma QuietCallKeeps(s: State, c: Call)
    requires Valid(s)
    requires c.MakesRealm? || c.Directs? || c.JoinsOrganization? || c.MakesProvider? || c.Tells?
    ensures Valid(After(s, c)) && Follows(s, After(s, c), [c])
  {
    hide IssuedOk, OthersOk, NewId;
    var t := After(s, c);
    OthersStillOk(s, t);
  }

  function OtherKind(c: Call): string {
    if c.MakesFlow? then "authflow" else if c.MakesPolicy? then "policy"
    else if c.MakesOrganization? then "organization" else "orggroup"
  }

  lemma OneCall(s: State, c: Call)
    requires Valid(s)
    ensures Valid(After(s, c)) && Follows(s, After(s, c), [c])
  {
    hide Valid, Follows;
    if c.Makes? {
      MakesIs(s, c.key, c.serviceAccount);
      RecordingKeeps(s, After(s, c), c.key);
    } else if c.AsksClient? {
      LookupKeeps(s, c.realm, c.clientId, "");
    } else if c.AsksServiceAccount? {
      LookupKeeps(s, c.realm, "", c.client);
    } else if c.EnablesPermissions? {
      EnablingKeeps(s, c.realm, c.client);
    } else if c.MakesRealm? || c.Directs? || c.JoinsOrganization? || c.MakesProvider? || c.Tells? {
      QuietCallKeeps(s, c);
    } else {
      IssuingKeeps(s, c, OtherKind(c));
    }
  }

  /** What asking for a client comes to. */
  lemma AsksClientIs(s: State, realm: string, clientId: string)
    requires s.api.overlay.Some?
    ensures
      var k, o := Client(realm, clientId), s.api.overlay.value;
      var t, found := After(s, AsksClient(realm, clientId)), FindClient(s.api, realm, clientId).1;
      if k in o.created then t == s && found == Some(o.created[k])
      else if realm !in o.realms then t == s && found == Lookup(s.api.server, k)
      else if clientId != REALM_MANAGEMENT then t == s && found == None
      else found == Some(NewSynthetic(o, k)) &&
           t == s.(api := s.api.(overlay := Some(Pretend(o, k))), issued := Issue(s.issued, "client"))
  {
    hide NewSynthetic;
  }

  lemma AsksServiceAccountIs(s: State, realm: string, client: Id)
    requires s.api.overlay.Some?
    ensures
      var k, o := ServiceAccount(realm, client), s.api.overlay.value;
      var t, found := After(s, AsksServiceAccount(realm, client)), FindServiceAccount(s.api, realm, client).1;
      if !IsSyntheticID(client) then t == s && found == Lookup(s.api.server, k)
      else if k in o.created then t == s && found == Some(o.created[k])
      else found == Some(NewSynthetic(o, k)) &&
           t == s.(api := s.api.(overlay := Some(Pretend(o, k))), issued := Issue(s.issued, "sa-user"))
  {
    hide NewSynthetic;
  }

  lemma MakesIs(s: State, k: Key, serviceAccount: bool)
    requires Valid(s)
    ensures
      var t := After(s, Makes(k, serviceAccount));
      && t == s.(api := t.api, issued := Issue(s.issued, Kind(k))) && t.api.trace == s.api.trace + [Creates(k)]
      && t.api == s.api.(overlay := Some(Pretend(s.api.overlay.value, k)), trace := t.api.trace)
    ensures Create(s.api, k, serviceAccount).1 == Some(NewSynthetic(s.api.overlay.value, k))
  {}

  lemma FollowsOn(s: State, t: State, u: State, c: Call, cs: seq<Call>)
    requires s.api.overlay.Some? && t.api.overlay.Some? && u.api.overlay.Some?
    requires Follows(s, t, [c]) && Follows(t, u, cs)
    ensures Follows(s, u, [c] + cs)
  {
    var all := [c] + cs;
    assert forall d :: d !in all ==> d !in [c] && d !in cs;
  }

  /** Over every sequence of calls, from a fresh dry run or any later state: the server is untouched; all ids ever
      handed out, remembered or not, are synthetic and different; whatever is remembered under a name was handed out;
      nothing is forgotten, or renamed unless it is created again; and no report is lost. */
  lemma {:induction false} BookkeepingHolds(s: State, cs: seq<Call>)
    requires Valid(s)
    ensures
      var t := AfterAll(s, cs);
      && Valid(t) && Follows(s, t, cs)
      && (forall i, j :: 0 <= i < j < |t.issued| ==> t.issued[i] != t.issued[j])
      && (forall id :: id in t.issued ==> IsSyntheticID(id))
    decreases |cs|
  {
    hide Valid, Follows, After;
    if cs == [] {
      ValidFacts(s);
      FollowsItself(s, cs);
      IssuedApart(s.issued);
    } else {
      ValidFacts(s);
      OneCall(s, cs[0]);
      ValidFacts(After(s, cs[0]));
      BookkeepingHolds(After(s, cs[0]), cs[1..]);
      assert cs == [cs[0]] + cs[1..];
      FollowsOn(s, After(s, cs[0]), AfterAll(After(s, cs[0]), cs[1..]), cs[0], cs[1..]);
    }
  }

  /** What the call asks for has been reported, and is remembered where the reads look. */
  predicate Shows(s: State, c: Call)
    requires s.api.overlay.Some?
  {
    var o := s.api.overlay.value;
    match c
    case MakesRealm(realm) => realm in o.realms && CreatesRealm(realm) in s.api.trace
    case Makes(k, _) => k in o.created && o.created[k] in s.issued && Creates(k) in s.api.trace
    case Directs(w) => w in s.api.trace
    case MakesFlow(realm, alias) =>
      (realm, alias) in s.flows && s.flows[(realm, alias)] in s.issued && FlowCreated(realm, alias) in s.reports
    case MakesOrganization(realm, name) => OrganizationCreated(realm, name) in s.reports
    case MakesOrganizationGroup(realm, org, parent, name) =>
      OrganizationGroupCreated(realm, org, parent, name) in s.reports
    case JoinsOrganization(realm, org, user) =>
      (realm, org, user) in s.orgMembers && MemberAdded(realm, org, user) in s.reports
    case MakesProvider(realm, alias, _) => (realm, alias) in s.providers && ProviderCreated(realm, alias) in s.reports
    case EnablesPermissions(realm, client) => PermissionsEnabled(realm, client) in s.reports
    case MakesPolicy(realm, rs, name, _) =>
      (realm, rs, name) in s.policies && PolicyCreated(realm, rs, name) in s.reports
    case Tells(report) => report in s.reports
    case _ => true
  }

  lemma MadeIsShown(s: State, c: Call)
    requires Valid(s)
    ensures Shows(After(s, c), c)
  {
    hide IssuedOk, NewId, Follows, Kind;
    if c.Makes? {
      MadeKeyIsShown(s, c.key, c.serviceAccount);
    } else if c.MakesFlow? {
      MadeFlowIsShown(s, c.realm, c.alias);
    } else {
      var t := After(s, c);
      assert t.reports != [] ==> t.reports[|t.reports| - 1] in t.reports;
      assert t.api.trace != [] ==> t.api.trace[|t.api.trace| - 1] in t.api.trace;
    }
  }

  lemma MadeKeyIsShown(s: State, k: Key, serviceAccount: bool)
    requires Valid(s)
    ensures Shows(After(s, Makes(k, serviceAccount)), Makes(k, serviceAccount))
  {
    hide IssuedOk, NewId, Follows, Kind, OthersOk;
    MakesIs(s, k, serviceAccount);
    OneCall(s, Makes(k, serviceAccount));
    var t := After(s, Makes(k, serviceAccount));
    assert t.api.trace[|s.api.trace|] == Creates(k);
  }

  lemma MadeFlowIsShown(s: State, realm: string, alias: string)
    requires Valid(s)
    ensures Shows(After(s, MakesFlow(realm, alias)), MakesFlow(realm, alias))
  {
    hide IssuedOk, NewId, Follows, Kind, CreatedOk, Issue;
    OneCall(s, MakesFlow(realm, alias));
    var t := After(s, MakesFlow(realm, alias));
    assert t.reports[|s.reports|] == FlowCreated(realm, alias);
  }

  lemma ShownStays(s: State, t: State, c: Call, cs: seq<Call>)
    requires Valid(s) && Valid(t) && Follows(s, t, cs) && Shows(s, c)
    ensures Shows(t, c)
  {
    hide IssuedOk;
    assert forall w :: w in s.api.trace ==> w in t.api.trace;
    assert forall x :: x in s.reports ==> x in t.reports;
  }

  /** Whatever a dry run has been asked to do has been reported, and whatever it has pretended to create is remembered,
      under the name the reads look for, after any number of further calls. */
  lemma WhatWasAskedShows(s: State, c: Call, cs: seq<Call>)
    requires Valid(s)
    ensures Shows(AfterAll(After(s, c), cs), c)
  {
    hide Valid, Follows, Shows, After, AfterAll;
    ValidFacts(s);
    OneCall(s, c);
    ValidFacts(After(s, c));
    MadeIsShown(s, c);
    BookkeepingHolds(After(s, c), cs);
    ShownStays(After(s, c), AfterAll(After(s, c), cs), c, cs);
  }

  lemma ValidFacts(s: State)
    requires Valid(s)
    ensures s.api.overlay.Some? && IssuedOk(s.issued) && s.api.overlay.value.seqNo == |s.issued|
  {}

  /** A dry run that has just begun. */
  function Begun(server: Server): State {
    State(Api(server, Some(Overlay({}, map[], 0)), []), map[], {}, map[], map[], [], [])
  }

  lemma BegunIsValid(server: Server)
    ensures Valid(Begun(server))
  {}

  /** Asking again gives the same answer, and changes nothing. */
  lemma AskingTwice(a: Api, realm: string, clientId: string, client: Id)
    requires a.overlay.Some?
    ensures
      var (b, id) := FindClient(a, realm, clientId);
      FindClient(b, realm, clientId) == (b, id)
    ensures
      var (b, id) := FindServiceAccount(a, realm, client);
      FindServiceAccount(b, realm, client) == (b, id)
  {}
}
