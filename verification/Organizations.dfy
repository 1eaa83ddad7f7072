/** Organizations (internal/provisioner/organizations.go): members, groups and identity provider links, the last made
    against an index of the realm's providers that is read once and never refreshed. */
module Organizations {
  import opened ConfigChecks
  import opened Lists
  import opened Text

  datatype User = User(id: string, username: string)

  /** `parent` is 0 for a top-level group of the organization. */
  datatype GroupKey = GroupKey(org: nat, parent: nat, name: string)

  datatype Link = Link(alias: string, org: nat)

  /** The part of a realm organizations live in. `wasted` counts requests the server refuses or that change nothing. */
  datatype State = State(
    users: set<User>, orgs: map<string, nat>, members: map<nat, set<User>>,
    groups: map<GroupKey, nat>, inGroup: map<nat, set<User>>,
    providers: set<string>, links: set<Link>, next: nat, wasted: nat)

  /** A provider belongs to at most one organization. */
  ghost predicate AtMostOneOwner(links: set<Link>) {
    forall l, m :: l in links && m in links && l.alias == m.alias ==> l == m
  }

  ghost predicate UsersOk(users: set<User>) {
    forall u, v :: u in users && v in users && (u.id == v.id || u.username == v.username) ==> u == v
  }

  ghost predicate IdsOk(s: State) {
    && s.next > 0
    && (forall n :: n in s.orgs ==> s.orgs[n] in s.members && s.orgs[n] < s.next)
    && (forall n, m :: n in s.orgs && m in s.orgs && s.orgs[n] == s.orgs[m] ==> n == m)
    && (forall i :: i in s.members ==> i < s.next && s.members[i] <= s.users)
    && (forall k :: k in s.groups ==> s.groups[k] in s.inGroup && s.groups[k] < s.next && k.parent < s.next)
    && (forall k, j :: k in s.groups && j in s.groups && s.groups[k] == s.groups[j] ==> k == j)
    && (forall i :: i in s.inGroup ==> i < s.next && s.inGroup[i] <= s.users)
  }

  ghost predicate LinksOk(s: State) {
    && AtMostOneOwner(s.links)
    && forall l :: l in s.links ==> l.alias in s.providers && l.org < s.next
  }

  ghost predicate Valid(s: State) {
    UsersOk(s.users) && IdsOk(s) && LinksOk(s)
  }

  datatype Outcome = Done | NotFound | OwnedElsewhere | Refused

  /** `carriesRoles` says that the config declares role mappings for the group, which organizations do not honour. */
  datatype GroupConfig = GroupConfig(name: string, attributes: Attributes, members: seq<string>, carriesRoles: bool,
    subGroups: seq<GroupConfig>)

  /** `texts` are the free-text fields: alias, description and redirect URL. */
  datatype Org = Org(name: string, texts: seq<string>, domains: seq<string>, attributes: Attributes,
    members: seq<string>, identityProviders: seq<string>, groups: seq<GroupConfig>)

  /** Who owns each provider, as the listing said when it was read. */
  type Index = map<string, Option<nat>>

  function Called(users: set<User>, names: seq<string>): set<User> {
    set u | u in users && u.username in names
  }

  // ---------- what one organization's steps do ----------

  function EnsureOrg(s: State, name: string): (State, nat) {
    if name in s.orgs then (s, s.orgs[name])
    else (s.(orgs := s.orgs[name := s.next], members := s.members[s.next := {}], next := s.next + 1), s.next)
  }

  function MembersOf(s: State, org: nat): set<User> {
    if org in s.members then s.members[org] else {}
  }

  function UsersIn(s: State, group: nat): set<User> {
    if group in s.inGroup then s.inGroup[group] else {}
  }

  function AddMembers(s: State, org: nat, names: seq<string>): State {
    s.(members := s.members[org := MembersOf(s, org) + Called(s.users, names)])
  }

  function AddGroupMembers(s: State, org: nat, group: nat, names: seq<string>): State {
    s.(inGroup := s.inGroup[group := UsersIn(s, group) + Called(MembersOf(s, org), names)])
  }

  function EnsureGroup(s: State, key: GroupKey): (State, nat) {
    if key in s.groups then (s, s.groups[key])
    else (s.(groups := s.groups[key := s.next], inGroup := s.inGroup[s.next := {}], next := s.next + 1), s.next)
  }

  /** One group and what is below it: created where missing, and joined by the members the config lists. */
  function GroupOf(s: State, org: nat, parent: nat, g: GroupConfig): State
    decreases g
  {
    var (t, id) := EnsureGroup(s, GroupKey(org, parent, g.name));
    GroupsOf(AddGroupMembers(t, org, id, g.members), org, id, g.subGroups)
  }

  function GroupsOf(s: State, org: nat, parent: nat, gs: seq<GroupConfig>): State
    decreases gs
  {
    if gs == [] then s else GroupsOf(GroupOf(s, org, parent, gs[0]), org, parent, gs[1..])
  }

  /** What linking one provider comes to. */
  function LinkOne(s: State, org: nat, alias: string, known: Index): (State, Outcome) {
    if Link(alias, org) in s.links then (s, Done)
    else if alias !in known then (s, NotFound)
    else if known[alias].Some? && known[alias].value != org then (s, OwnedElsewhere)
    else if !AcceptsLink(s, org, alias) then (s.(wasted := s.wasted + 1), Refused)
    else (s.(links := s.links + {Link(alias, org)}), Done)
  }

  /** The server refuses a provider it does not have, or has given to an organization already. */
  predicate AcceptsLink(s: State, org: nat, alias: string) {
    alias in s.providers && forall l :: l in s.links ==> l.alias != alias
  }

  function LinkAll(s: State, org: nat, aliases: seq<string>, known: Index): (State, Outcome)
    decreases |aliases|
  {
    if aliases == [] then (s, Done)
    else
      var (t, outcome) := LinkOne(s, org, aliases[0], known);
      if outcome != Done then (t, outcome) else LinkAll(t, org, aliases[1..], known)
  }

  function Provision(s: State, o: Org, known: Index): (State, Outcome) {
    var (s1, org) := EnsureOrg(s, o.name);
    var (s2, outcome) := LinkAll(AddMembers(s1, org, o.members), org, o.identityProviders, known);
    if outcome != Done then (s2, outcome) else (GroupsOf(s2, org, 0, o.groups), Done)
  }

  /** All organizations of a realm, against one index. */
  function ProvisionAll(s: State, os: seq<Org>, known: Index): (State, Outcome)
    decreases |os|
  {
    if os == [] then (s, Done)
    else
      var (t, outcome) := Provision(s, os[0], known);
      if outcome != Done then (t, outcome) else ProvisionAll(t, os[1..], known)
  }

  // ---------- validity ----------

  lemma EnsureOrgKeeps(s: State, name: string)
    requires Valid(s)
    ensures
      var (t, org) := EnsureOrg(s, name);
      && Valid(t) && name in t.orgs && t.orgs[name] == org && org in t.members && org < t.next
      && t.links == s.links && t.providers == s.providers && t.wasted == s.wasted && t.users == s.users
      && t.groups == s.groups && t.inGroup == s.inGroup
      && (forall n :: n in s.orgs ==> n in t.orgs && t.orgs[n] == s.orgs[n])
      && (forall i :: i in s.members ==> i in t.members && t.members[i] == s.members[i])
      && (name !in s.orgs ==> forall l :: l in s.links ==> l.org != org)
  {}

  lemma AddMembersKeeps(s: State, org: nat, names: seq<string>)
    requires Valid(s) && org in s.members
    ensures Valid(AddMembers(s, org, names))
  {}

  lemma AddGroupMembersKeeps(s: State, org: nat, group: nat, names: seq<string>)
    requires Valid(s) && group in s.inGroup
    ensures Valid(AddGroupMembers(s, org, group, names))
  {}

  lemma EnsureGroupKeeps(s: State, key: GroupKey)
    requires Valid(s) && key.parent < s.next
    ensures
      var (t, id) := EnsureGroup(s, key);
      && Valid(t) && key in t.groups && t.groups[key] == id && id in t.inGroup && id < t.next && s.next <= t.next
      && (forall k :: k in s.groups ==> k in t.groups && t.groups[k] == s.groups[k])
      && (forall k :: k in t.groups ==> k in s.groups || k == key)
      && (forall i :: i in t.inGroup <==> i in s.inGroup || i == id)
      && (forall i :: i in t.inGroup ==> t.inGroup[i] == if i in s.inGroup then s.inGroup[i] else {})
  {}

  lemma LinkOneKeeps(s: State, org: nat, alias: string, known: Index)
    requires Valid(s) && org < s.next
    ensures
      var (t, outcome) := LinkOne(s, org, alias, known);
      && Valid(t) && t == s.(links := t.links, wasted := t.wasted)
      && s.links <= t.links <= s.links + {Link(alias, org)}
      && (outcome == Done ==> Link(alias, org) in t.links && t.wasted == s.wasted)
  {}

  function LinksTo(org: nat, aliases: seq<string>): set<Link> {
    set a | a in aliases :: Link(a, org)
  }

  /** Linking keeps every provider with at most one owner; when it ends well, all aliases are linked. */
  lemma {:induction false} LinkAllKeeps(s: State, org: nat, aliases: seq<string>, known: Index)
    requires Valid(s) && org < s.next
    ensures
      var (t, outcome) := LinkAll(s, org, aliases, known);
      && Valid(t) && t == s.(links := t.links, wasted := t.wasted)
      && s.links <= t.links <= s.links + LinksTo(org, aliases)
      && (outcome == Done ==> t.links == s.links + LinksTo(org, aliases) && t.wasted == s.wasted)
    decreases |aliases|
  {
    if aliases != [] {
      assert aliases == [aliases[0]] + aliases[1..];
      assert LinksTo(org, aliases) == {Link(aliases[0], org)} + LinksTo(org, aliases[1..]) by {
        assert forall a :: a in aliases <==> a == aliases[0] || a in aliases[1..];
      }
      LinkOneKeeps(s, org, aliases[0], known);
      var (t, outcome) := LinkOne(s, org, aliases[0], known);
      if outcome == Done {
        LinkAllKeeps(t, org, aliases[1..], known);
      }
    }
  }

  // ---------- the stale index ----------

  /** The provider is there and belongs to nobody else. */
  ghost predicate Linkable(s: State, org: nat, alias: string) {
    alias in s.providers && forall l :: l in s.links && l.alias == alias ==> l.org == org
  }

  /** The index still tells the truth about this provider. */
  ghost predicate UpToDate(s: State, known: Index, alias: string) {
    && (alias in known <==> alias in s.providers)
    && (alias in known ==> forall org: nat :: Link(alias, org) in s.links <==> known[alias] == Some(org))
  }

  lemma LinkOneSafe(s: State, org: nat, alias: string, known: Index)
    requires Valid(s) && (UpToDate(s, known, alias) || Link(alias, org) in s.links)
    ensures
      var (t, outcome) := LinkOne(s, org, alias, known);
      t.wasted == s.wasted && (outcome == Done <==> Linkable(s, org, alias))
  {
    if UpToDate(s, known, alias) && alias in known {
      forall l | l in s.links && l.alias == alias ensures known[alias] == Some(l.org) {
        assert l == Link(alias, l.org);
      }
      if known[alias].Some? {
        assert Link(alias, known[alias].value) in s.links;
      }
    }
  }

  /** One organization: nothing is refused as long as the index is right about the providers it names. */
  lemma {:induction false} LinkAllSafe(s: State, org: nat, aliases: seq<string>, known: Index)
    requires Valid(s) && org < s.next && forall a :: a in aliases ==> UpToDate(s, known, a) || Link(a, org) in s.links
    ensures
      var (t, outcome) := LinkAll(s, org, aliases, known);
      t.wasted == s.wasted && (outcome == Done <==> forall a :: a in aliases ==> Linkable(s, org, a))
    decreases |aliases|
  {
    if aliases != [] {
      var a, rest := aliases[0], aliases[1..];
      assert aliases == [a] + rest;
      LinkOneSafe(s, org, a, known);
      LinkOneKeeps(s, org, a, known);
      var (t, outcome) := LinkOne(s, org, a, known);
      if outcome == Done {
        forall b | b in rest ensures UpToDate(t, known, b) || Link(b, org) in t.links {
          if b != a && UpToDate(s, known, b) {
            assert forall o: nat :: Link(b, o) in t.links <==> Link(b, o) in s.links;
          }
        }
        forall b | b in rest ensures Linkable(t, org, b) <==> Linkable(s, org, b) {
          if b != a {
            assert forall l: Link :: l.alias == b ==> (l in t.links <==> l in s.links);
          }
        }
        LinkAllSafe(t, org, rest, known);
      }
    }
  }

  // ---------- all organizations of a realm ----------

  predicate DistinctNames(os: seq<Org>) {
    forall i, j :: 0 <= i < j < |os| ==> os[i].name != os[j].name
  }

  /** No provider is claimed by two organizations. */
  predicate ClaimsDisjoint(os: seq<Org>) {
    forall i, j, a :: 0 <= i < j < |os| && a in os[i].identityProviders ==> a !in os[j].identityProviders
  }

  /** The provider is there, and nobody's but this organization's. */
  ghost predicate Claimable(s: State, name: string, alias: string) {
    alias in s.providers && forall l :: l in s.links && l.alias == alias ==> name in s.orgs && l.org == s.orgs[name]
  }

  ghost predicate AllClaimable(s: State, os: seq<Org>) {
    forall i, a :: 0 <= i < |os| && a in os[i].identityProviders ==> Claimable(s, os[i].name, a)
  }

  ghost predicate AllUpToDate(s: State, known: Index, os: seq<Org>) {
    forall i, a :: 0 <= i < |os| && a in os[i].identityProviders ==> UpToDate(s, known, a)
  }

  /** One organization, up to its groups, which do not matter here. */
  lemma ProvisionKeeps(s: State, o: Org, known: Index)
    requires Valid(s)
    ensures
      var (t, outcome) := Provision(s, o, known);
      && Valid(t) && o.name in t.orgs && t.providers == s.providers
      && (forall n :: n in s.orgs ==> n in t.orgs && t.orgs[n] == s.orgs[n])
      && (forall n :: n in t.orgs ==> n in s.orgs || n == o.name)
      && s.links <= t.links <= s.links + LinksTo(t.orgs[o.name], o.identityProviders)
      && (outcome == Done ==> t.links == s.links + LinksTo(t.orgs[o.name], o.identityProviders) && t.wasted == s.wasted)
  {
    EnsureOrgKeeps(s, o.name);
    var (s1, org) := EnsureOrg(s, o.name);
    AddMembersKeeps(s1, org, o.members);
    var s2 := AddMembers(s1, org, o.members);
    LinkAllKeeps(s2, org, o.identityProviders, known);
    var (s3, outcome) := LinkAll(s2, org, o.identityProviders, known);
    if outcome == Done {
      GroupsOfMeans(s3, org, 0, o.groups);
    }
  }

  lemma UpToDateAlike(s: State, t: State, known: Index, alias: string)
    requires t.providers == s.providers && t.links == s.links
    ensures UpToDate(t, known, alias) <==> UpToDate(s, known, alias)
  {}

  lemma ProvisionSafe(s: State, o: Org, known: Index)
    requires Valid(s) && forall a :: a in o.identityProviders ==> UpToDate(s, known, a)
    ensures
      var (t, outcome) := Provision(s, o, known);
      t.wasted == s.wasted && (outcome == Done <==> forall a :: a in o.identityProviders ==> Claimable(s, o.name, a))
  {
    EnsureOrgKeeps(s, o.name);
    var (s1, org) := EnsureOrg(s, o.name);
    AddMembersKeeps(s1, org, o.members);
    var s2 := AddMembers(s1, org, o.members);
    forall a | a in o.identityProviders
      ensures UpToDate(s2, known, a) && (Linkable(s2, org, a) <==> Claimable(s, o.name, a))
    {
      UpToDateAlike(s, s2, known, a);
    }
    LinkAllSafe(s2, org, o.identityProviders, known);
    LinkAllKeeps(s2, org, o.identityProviders, known);
    var (s3, outcome) := LinkAll(s2, org, o.identityProviders, known);
    if outcome == Done {
      GroupsOfMeans(s3, org, 0, o.groups);
    }
  }

  /** Providers an organization does not claim look the same after it. */
  lemma OthersUntouched(s: State, t: State, known: Index, o: Org, name: string, alias: string)
    requires t.providers == s.providers && o.name in t.orgs && name != o.name && alias !in o.identityProviders
    requires s.links <= t.links <= s.links + LinksTo(t.orgs[o.name], o.identityProviders)
    requires forall n :: n in s.orgs ==> n in t.orgs && t.orgs[n] == s.orgs[n]
    requires forall n :: n in t.orgs ==> n in s.orgs || n == o.name
    ensures UpToDate(t, known, alias) <==> UpToDate(s, known, alias)
    ensures Claimable(t, name, alias) <==> Claimable(s, name, alias)
  {
    assert forall l: Link :: l.alias == alias ==> (l in t.links <==> l in s.links);
  }

  lemma TailClaims(os: seq<Org>)
    requires os != [] && DistinctNames(os)
    ensures DistinctNames(os[1..]) && (ClaimsDisjoint(os) ==> ClaimsDisjoint(os[1..]))
    ensures forall i :: 0 <= i < |os[1..]| ==> os[1..][i] == os[i + 1] && os[1..][i].name != os[0].name
  {
    assert forall i :: 0 <= i < |os[1..]| ==> os[1..][i] == os[i + 1];
  }

  lemma FirstAndRest(s: State, known: Index, os: seq<Org>)
    requires os != []
    ensures AllClaimable(s, os) <==>
            (forall a :: a in os[0].identityProviders ==> Claimable(s, os[0].name, a)) && AllClaimable(s, os[1..])
    ensures AllUpToDate(s, known, os) ==>
            (forall a :: a in os[0].identityProviders ==> UpToDate(s, known, a)) && AllUpToDate(s, known, os[1..])
  {
    var rest := os[1..];
    assert forall i :: 0 <= i < |rest| ==> rest[i] == os[i + 1];
    forall i, a | 0 <= i < |os| && a in os[i].identityProviders && AllClaimable(s, rest)
      ensures i > 0 ==> Claimable(s, os[i].name, a)
    {
      assert i > 0 ==> os[i] == rest[i - 1];
    }
  }

  /** After one organization, the providers the others claim are as they were. */
  lemma RestUntouched(s: State, t: State, known: Index, os: seq<Org>)
    requires os != [] && DistinctNames(os) && ClaimsDisjoint(os) && t.providers == s.providers && os[0].name in t.orgs
    requires s.links <= t.links <= s.links + LinksTo(t.orgs[os[0].name], os[0].identityProviders)
    requires forall n :: n in s.orgs ==> n in t.orgs && t.orgs[n] == s.orgs[n]
    requires forall n :: n in t.orgs ==> n in s.orgs || n == os[0].name
    ensures AllClaimable(t, os[1..]) <==> AllClaimable(s, os[1..])
    ensures AllUpToDate(s, known, os[1..]) ==> AllUpToDate(t, known, os[1..])
  {
    var o, rest := os[0], os[1..];
    forall i, a | 0 <= i < |rest| && a in rest[i].identityProviders
      ensures UpToDate(t, known, a) <==> UpToDate(s, known, a)
      ensures Claimable(t, rest[i].name, a) <==> Claimable(s, rest[i].name, a)
    {
      assert rest[i] == os[i + 1];
      OthersUntouched(s, t, known, o, rest[i].name, a);
    }
  }

  /** With disjoint claims, an index that was right at the start is right whenever it is consulted: no link request is
      refused, and the run ends well exactly when every claimed provider was there and nobody else's at the start. */
  lemma {:induction false} StaleIndexIsSafe(s: State, os: seq<Org>, known: Index)
    requires Valid(s) && DistinctNames(os) && ClaimsDisjoint(os) && AllUpToDate(s, known, os)
    ensures
      var (t, outcome) := ProvisionAll(s, os, known);
      Valid(t) && t.wasted == s.wasted && (outcome == Done <==> AllClaimable(s, os))
    decreases |os|
  {
    hide Provision, UpToDate, Claimable, Valid, LinksTo, ClaimsDisjoint, AllClaimable, AllUpToDate;
    if os == [] {
      NothingToClaim(s, os);
    } else {
      var o, rest := os[0], os[1..];
      TailClaims(os);
      FirstAndRest(s, known, os);
      ProvisionKeeps(s, o, known);
      ProvisionSafe(s, o, known);
      var (t, outcome) := Provision(s, o, known);
      if outcome == Done {
        RestUntouched(s, t, known, os);
        StaleIndexIsSafe(t, rest, known);
      }
    }
  }

  lemma NothingToClaim(s: State, os: seq<Org>)
    requires os == []
    ensures AllClaimable(s, os)
  {}

  /** Every claim is linked, and only claims are. */
  ghost predicate LinkedAsClaimed(s: State, t: State, os: seq<Org>) {
    && (forall i :: 0 <= i < |os| ==> os[i].name in t.orgs)
    && (forall i, a :: 0 <= i < |os| && a in os[i].identityProviders ==> Link(a, t.orgs[os[i].name]) in t.links)
    && s.links <= t.links
    && forall l :: l in t.links && l !in s.links ==>
         exists i :: 0 <= i < |os| && l.alias in os[i].identityProviders && l.org == t.orgs[os[i].name]
  }

  lemma {:induction false} DoneMeansLinked(s: State, os: seq<Org>, known: Index)
    requires Valid(s) && ProvisionAll(s, os, known).1 == Done
    ensures
      var t := ProvisionAll(s, os, known).0;
      && Valid(t) && LinkedAsClaimed(s, t, os) && t.wasted == s.wasted
      && forall n :: n in s.orgs ==> n in t.orgs && t.orgs[n] == s.orgs[n]
    decreases |os|
  {
    hide Provision, Valid, LinkedAsClaimed, LinksTo;
    if os == [] {
      NothingClaimed(s, os);
    } else {
      var o, rest := os[0], os[1..];
      ProvisionKeeps(s, o, known);
      var t := Provision(s, o, known).0;
      DoneMeansLinked(t, rest, known);
      LinkedOneMore(s, t, ProvisionAll(t, rest, known).0, os);
    }
  }

  lemma NothingClaimed(s: State, os: seq<Org>)
    requires os == []
    ensures LinkedAsClaimed(s, s, os)
  {}

  /** The first organization's links, then the others'. */
  lemma LinkedOneMore(s: State, t: State, u: State, os: seq<Org>)
    requires os != [] && os[0].name in t.orgs
    requires t.links == s.links + LinksTo(t.orgs[os[0].name], os[0].identityProviders)
    requires LinkedAsClaimed(t, u, os[1..]) && forall n :: n in t.orgs ==> n in u.orgs && u.orgs[n] == t.orgs[n]
    ensures LinkedAsClaimed(s, u, os)
  {
    var rest := os[1..];
    assert forall i :: 0 <= i < |rest| ==> rest[i] == os[i + 1];
    forall l | l in u.links && l !in s.links
      ensures exists i :: 0 <= i < |os| && l.alias in os[i].identityProviders && l.org == u.orgs[os[i].name]
    {
      if l in t.links {
        assert l.alias in os[0].identityProviders && l.org == u.orgs[os[0].name];
      } else {
        var i :| 0 <= i < |rest| && l.alias in rest[i].identityProviders && l.org == u.orgs[rest[i].name];
        assert os[i + 1] == rest[i];
      }
    }
    forall i | 0 <= i < |os| ensures os[i].name in u.orgs {
      assert i > 0 ==> os[i] == rest[i - 1];
    }
    forall i, a | 0 <= i < |os| && a in os[i].identityProviders ensures Link(a, u.orgs[os[i].name]) in u.links {
      if i == 0 {
        assert Link(a, t.orgs[os[0].name]) in t.links;
      } else {
        assert os[i] == rest[i - 1];
      }
    }
  }

  lemma LinkedIsDisjoint(s: State, t: State, os: seq<Org>)
    requires Valid(t) && DistinctNames(os) && LinkedAsClaimed(s, t, os)
    ensures ClaimsDisjoint(os)
  {
    forall i, j, a | 0 <= i < j < |os| && a in os[i].identityProviders ensures a !in os[j].identityProviders {
      var x, y := t.orgs[os[i].name], t.orgs[os[j].name];
      assert os[i].name != os[j].name && x != y;
      assert Link(a, x) in t.links;
      assert Link(a, y) !in t.links;
    }
  }

  /** Against an index that is right when the step starts, a realm's organizations go through exactly when no two claim
      the same provider and every claimed provider is there and nobody else's. */
  lemma OrganizationsSucceed(s: State, os: seq<Org>, known: Index)
    requires Valid(s) && DistinctNames(os) && AllUpToDate(s, known, os)
    ensures ProvisionAll(s, os, known).1 == Done <==> ClaimsDisjoint(os) && AllClaimable(s, os)
  {
    if ClaimsDisjoint(os) {
      StaleIndexIsSafe(s, os, known);
    }
    if ProvisionAll(s, os, known).1 == Done {
      DoneMeansLinked(s, os, known);
      LinkedIsDisjoint(s, ProvisionAll(s, os, known).0, os);
    }
  }

  /** Two organizations that both claim a free provider: the second request is sent, and the server refuses it. */
  lemma SharedClaimIsRefused(s: State, known: Index, first: Org, second: Org, alias: string)
    requires Valid(s) && first.name != second.name && alias in s.providers && known == map[alias := None]
    requires first.identityProviders == [alias] && second.identityProviders == [alias]
    requires forall l :: l in s.links ==> l.alias != alias
    ensures
      var (t, outcome) := ProvisionAll(s, [first, second], known);
      outcome == Refused && t.wasted == s.wasted + 1
  {
    var os := [first, second];
    assert os[0] == first && os[1..] == [second] && os[1..][0] == second;
    assert first.identityProviders[0] == alias && second.identityProviders[0] == alias;
    FreeIsClaimable(s, known, first, alias);
    ProvisionSafe(s, first, known);
    ProvisionKeeps(s, first, known);
    var t := Provision(s, first, known).0;
    assert Link(alias, t.orgs[first.name]) in LinksTo(t.orgs[first.name], first.identityProviders);
    TakenIsRefused(t, known, second, alias, t.orgs[first.name]);
    hide Provision, Valid, LinksTo, UpToDate, Claimable;
  }

  lemma FreeIsClaimable(s: State, known: Index, o: Org, alias: string)
    requires alias in s.providers && known == map[alias := None] && o.identityProviders == [alias]
    requires forall l :: l in s.links ==> l.alias != alias
    ensures forall a :: a in o.identityProviders ==> UpToDate(s, known, a) && Claimable(s, o.name, a)
  {}

  lemma TakenIsRefused(t: State, known: Index, o: Org, alias: string, owner: nat)
    requires Valid(t) && known == map[alias := None] && o.identityProviders == [alias]
    requires Link(alias, owner) in t.links && (o.name in t.orgs ==> t.orgs[o.name] != owner)
    ensures Provision(t, o, known).1 == Refused && Provision(t, o, known).0.wasted == t.wasted + 1
  {
    EnsureOrgKeeps(t, o.name);
    var (t1, org) := EnsureOrg(t, o.name);
    var t2 := AddMembers(t1, org, o.members);
    assert o.identityProviders[0] == alias;
    assert Link(alias, org) !in t2.links;
    assert LinkOne(t2, org, alias, known) == (t2.(wasted := t2.wasted + 1), Refused);
  }

  // ---------- organization groups ----------

  /** Groups are only added and joined; nothing else changes. */
  ghost predicate GroupsGrow(s: State, t: State) {
    && t == s.(groups := t.groups, inGroup := t.inGroup, next := t.next) && s.next <= t.next
    && (forall k :: k in s.groups ==> k in t.groups && t.groups[k] == s.groups[k])
    && forall i :: UsersIn(s, i) <= UsersIn(t, i)
  }

  /** Every group of the trees exists. */
  predicate TreesExist(s: State, org: nat, parent: nat, gs: seq<GroupConfig>)
    decreases gs
  {
    forall i :: 0 <= i < |gs| ==>
      GroupKey(org, parent, gs[i].name) in s.groups
      && TreesExist(s, org, s.groups[GroupKey(org, parent, gs[i].name)], gs[i].subGroups)
  }

  /** The members of the organization that the trees list for one group. */
  function Joins(s: State, org: nat, parent: nat, gs: seq<GroupConfig>, group: nat): set<User>
    decreases gs
  {
    if gs == [] then {}
    else
      var k := GroupKey(org, parent, gs[0].name);
      (if k !in s.groups then {}
       else
         (if s.groups[k] == group then Called(MembersOf(s, org), gs[0].members) else {})
         + Joins(s, org, s.groups[k], gs[0].subGroups, group))
      + Joins(s, org, parent, gs[1..], group)
  }

  ghost predicate TreesDone(s: State, t: State, org: nat, parent: nat, gs: seq<GroupConfig>) {
    && Valid(t) && GroupsGrow(s, t) && TreesExist(t, org, parent, gs)
    && forall i :: UsersIn(t, i) == UsersIn(s, i) + Joins(t, org, parent, gs, i)
  }

  lemma GrowTwice(s: State, t: State, u: State)
    requires GroupsGrow(s, t) && GroupsGrow(t, u)
    ensures GroupsGrow(s, u)
  {
    forall i ensures UsersIn(s, i) <= UsersIn(u, i) {
      assert UsersIn(s, i) <= UsersIn(t, i) <= UsersIn(u, i);
    }
  }

  lemma {:induction false} TreesStay(s: State, t: State, org: nat, parent: nat, gs: seq<GroupConfig>)
    requires GroupsGrow(s, t) && TreesExist(s, org, parent, gs)
    ensures TreesExist(t, org, parent, gs)
    ensures forall i :: Joins(t, org, parent, gs, i) == Joins(s, org, parent, gs, i)
    decreases gs
  {
    if gs != [] {
      var id := s.groups[GroupKey(org, parent, gs[0].name)];
      TreesSplit(s, org, parent, gs);
      TreesStay(s, t, org, id, gs[0].subGroups);
      TreesStay(s, t, org, parent, gs[1..]);
      TreesSplit(t, org, parent, gs);
    }
  }

  lemma TreesSplit(s: State, org: nat, parent: nat, gs: seq<GroupConfig>)
    requires gs != []
    ensures
      var k := GroupKey(org, parent, gs[0].name);
      TreesExist(s, org, parent, gs) <==>
      k in s.groups && TreesExist(s, org, s.groups[k], gs[0].subGroups) && TreesExist(s, org, parent, gs[1..])
  {
    var rest := gs[1..];
    assert forall i :: 0 <= i < |rest| ==> rest[i] == gs[i + 1];
    assert forall i :: 0 < i < |gs| ==> gs[i] == rest[i - 1];
  }

  /** The group itself: created if missing, and joined. */
  lemma RootMeans(s: State, org: nat, parent: nat, g: GroupConfig)
    requires Valid(s) && parent < s.next
    ensures
      var k := GroupKey(org, parent, g.name);
      var (t, id) := EnsureGroup(s, k);
      var u := AddGroupMembers(t, org, id, g.members);
      && Valid(u) && GroupsGrow(s, u) && k in u.groups && u.groups[k] == id && id < u.next
      && (forall i :: UsersIn(u, i) == UsersIn(s, i) + if i == id then Called(MembersOf(s, org), g.members) else {})
      && GroupOf(s, org, parent, g) == GroupsOf(u, org, id, g.subGroups)
  {
    hide *;
    var k := GroupKey(org, parent, g.name);
    EnsureGroupKeeps(s, k);
    var t, id := EnsureGroup(s, k).0, EnsureGroup(s, k).1;
    EnsureGroupGrows(s, k);
    AddGroupMembersKeeps(t, org, id, g.members);
    JoiningGrows(s, t, org, id, g.members);
    assert GroupOf(s, org, parent, g) == GroupsOf(AddGroupMembers(t, org, id, g.members), org, id, g.subGroups) by {
      GroupOfStep(s, org, parent, g);
    }
  }

  lemma GroupOfStep(s: State, org: nat, parent: nat, g: GroupConfig)
    ensures
      var (t, id) := EnsureGroup(s, GroupKey(org, parent, g.name));
      GroupOf(s, org, parent, g) == GroupsOf(AddGroupMembers(t, org, id, g.members), org, id, g.subGroups)
  {}

  lemma EnsureGroupGrows(s: State, k: GroupKey)
    requires Valid(s)
    ensures
      var (t, _) := EnsureGroup(s, k);
      GroupsGrow(s, t) && t.members == s.members && forall i :: UsersIn(t, i) == UsersIn(s, i)
  {}

  lemma JoiningGrows(s: State, t: State, org: nat, id: nat, names: seq<string>)
    requires GroupsGrow(s, t) && t.members == s.members && forall i :: UsersIn(t, i) == UsersIn(s, i)
    ensures
      var u := AddGroupMembers(t, org, id, names);
      && GroupsGrow(s, u) && u.groups == t.groups && u.next == t.next
      && forall i :: UsersIn(u, i) == UsersIn(s, i) + if i == id then Called(MembersOf(s, org), names) else {}
  {
    assert MembersOf(t, org) == MembersOf(s, org);
    forall i
      ensures UsersIn(AddGroupMembers(t, org, id, names), i) ==
              UsersIn(s, i) + if i == id then Called(MembersOf(s, org), names) else {}
    {
      assert UsersIn(t, i) == UsersIn(s, i);
    }
  }

  lemma {:induction false} GroupOfMeans(s: State, org: nat, parent: nat, g: GroupConfig)
    requires Valid(s) && parent < s.next
    ensures TreesDone(s, GroupOf(s, org, parent, g), org, parent, [g])
    decreases g
  {
    hide *;
    RootMeans(s, org, parent, g);
    var t, id := EnsureGroup(s, GroupKey(org, parent, g.name)).0, EnsureGroup(s, GroupKey(org, parent, g.name)).1;
    var u := AddGroupMembers(t, org, id, g.members);
    GroupsOfMeans(u, org, id, g.subGroups);
    GroupRoot(s, u, GroupsOf(u, org, id, g.subGroups), org, parent, g, id);
  }

  /** A group just joined, and the trees below it, make one tree. */
  lemma GroupRoot(s: State, u: State, v: State, org: nat, parent: nat, g: GroupConfig, id: nat)
    requires GroupsGrow(s, u) && GroupKey(org, parent, g.name) in u.groups
    requires u.groups[GroupKey(org, parent, g.name)] == id
    requires forall i :: UsersIn(u, i) == UsersIn(s, i) + if i == id then Called(MembersOf(s, org), g.members) else {}
    requires TreesDone(u, v, org, id, g.subGroups)
    ensures TreesDone(s, v, org, parent, [g])
  {
    GrowTwice(s, u, v);
    assert [g][0] == g && [g][1..] == [];
    TreesSplit(v, org, parent, [g]);
    forall i ensures UsersIn(v, i) == UsersIn(s, i) + Joins(v, org, parent, [g], i) {
      assert UsersIn(v, i) == UsersIn(u, i) + Joins(v, org, id, g.subGroups, i);
      assert Joins(v, org, parent, [g][1..], i) == {};
    }
  }

  /** One tree, then its siblings. */
  lemma GroupSiblings(s: State, t: State, u: State, org: nat, parent: nat, gs: seq<GroupConfig>)
    requires gs != [] && TreesDone(s, t, org, parent, [gs[0]]) && TreesDone(t, u, org, parent, gs[1..])
    ensures TreesDone(s, u, org, parent, gs)
  {
    GrowTwice(s, t, u);
    var one := [gs[0]];
    assert one[0] == gs[0] && one[1..] == [];
    TreesStay(t, u, org, parent, one);
    TreesSplit(u, org, parent, one);
    TreesSplit(u, org, parent, gs);
    forall i ensures UsersIn(u, i) == UsersIn(s, i) + Joins(u, org, parent, gs, i) {
      assert UsersIn(u, i) == UsersIn(t, i) + Joins(u, org, parent, gs[1..], i);
      assert UsersIn(t, i) == UsersIn(s, i) + Joins(t, org, parent, one, i);
      assert Joins(u, org, parent, one[1..], i) == {};
    }
  }

  /** The trees exist afterwards, and each group holds whom it held plus the organization's members listed for it. */
  lemma {:induction false} GroupsOfMeans(s: State, org: nat, parent: nat, gs: seq<GroupConfig>)
    requires Valid(s) && parent < s.next
    ensures TreesDone(s, GroupsOf(s, org, parent, gs), org, parent, gs)
    decreases gs
  {
    if gs != [] {
      GroupOfMeans(s, org, parent, gs[0]);
      var t := GroupOf(s, org, parent, gs[0]);
      GroupsOfMeans(t, org, parent, gs[1..]);
      GroupSiblings(s, t, GroupsOf(t, org, parent, gs[1..]), org, parent, gs);
    }
  }

  /** Every member of the organization that a group lists is in that group. */
  predicate Joined(s: State, org: nat, parent: nat, gs: seq<GroupConfig>)
    decreases gs
  {
    forall i :: 0 <= i < |gs| ==>
      var k := GroupKey(org, parent, gs[i].name);
      k in s.groups ==>
        && Called(MembersOf(s, org), gs[i].members) <= UsersIn(s, s.groups[k])
        && Joined(s, org, s.groups[k], gs[i].subGroups)
  }

  lemma {:induction false} JoinsIsJoined(s: State, org: nat, parent: nat, gs: seq<GroupConfig>)
    requires forall i :: Joins(s, org, parent, gs, i) <= UsersIn(s, i)
    ensures Joined(s, org, parent, gs)
    decreases gs
  {
    if gs != [] {
      var k, rest := GroupKey(org, parent, gs[0].name), gs[1..];
      forall i ensures Joins(s, org, parent, rest, i) <= UsersIn(s, i) {
        assert Joins(s, org, parent, rest, i) <= Joins(s, org, parent, gs, i);
      }
      JoinsIsJoined(s, org, parent, rest);
      if k in s.groups {
        forall i ensures Joins(s, org, s.groups[k], gs[0].subGroups, i) <= UsersIn(s, i) {
          assert Joins(s, org, s.groups[k], gs[0].subGroups, i) <= Joins(s, org, parent, gs, i);
        }
        JoinsIsJoined(s, org, s.groups[k], gs[0].subGroups);
        assert Called(MembersOf(s, org), gs[0].members) <= Joins(s, org, parent, gs, s.groups[k]);
      }
      assert forall i :: 0 < i < |gs| ==> gs[i] == rest[i - 1];
    }
  }

  /** Each listed member of the organization ends in each group that lists it, and nobody else joins any group. */
  lemma GroupMembersEndUp(s: State, org: nat, gs: seq<GroupConfig>)
    requires Valid(s)
    ensures
      var t := GroupsOf(s, org, 0, gs);
      && TreesExist(t, org, 0, gs) && Joined(t, org, 0, gs)
      && forall i :: UsersIn(t, i) <= UsersIn(s, i) + MembersOf(s, org)
  {
    GroupsOfMeans(s, org, 0, gs);
    var t := GroupsOf(s, org, 0, gs);
    forall i ensures Joins(t, org, 0, gs, i) <= UsersIn(t, i) && Joins(t, org, 0, gs, i) <= MembersOf(s, org) {
      assert UsersIn(t, i) == UsersIn(s, i) + Joins(t, org, 0, gs, i);
      JoinsAreMembers(t, org, 0, gs, i);
    }
    JoinsIsJoined(t, org, 0, gs);
  }

  lemma {:induction false} JoinsAreMembers(s: State, org: nat, parent: nat, gs: seq<GroupConfig>, group: nat)
    ensures Joins(s, org, parent, gs, group) <= MembersOf(s, org)
    decreases gs
  {
    if gs != [] {
      var k := GroupKey(org, parent, gs[0].name);
      if k in s.groups {
        JoinsAreMembers(s, org, s.groups[k], gs[0].subGroups, group);
      }
      JoinsAreMembers(s, org, parent, gs[1..], group);
    }
  }

  // ---------- what a whole run establishes ----------

  /** Nothing is taken away, and who is a member changes for `except` alone. */
  ghost predicate OrgsGrow(s: State, t: State, except: set<nat>) {
    && t.users == s.users && s.next <= t.next
    && (forall n :: n in s.orgs ==> n in t.orgs && t.orgs[n] == s.orgs[n])
    && (forall k :: k in s.groups ==> k in t.groups && t.groups[k] == s.groups[k])
    && (forall i :: UsersIn(s, i) <= UsersIn(t, i))
    && (forall i :: i !in except ==> MembersOf(t, i) == MembersOf(s, i))
  }

  /** The organization is there with its members, exactly those it had and the listed users that exist; its groups are
      there, each with the members of the organization that it lists. */
  ghost predicate OrgHolds(s: State, t: State, o: Org) {
    && o.name in t.orgs
    && MembersOf(t, t.orgs[o.name]) ==
       (if o.name in s.orgs then MembersOf(s, s.orgs[o.name]) else {}) + Called(s.users, o.members)
    && TreesExist(t, t.orgs[o.name], 0, o.groups) && Joined(t, t.orgs[o.name], 0, o.groups)
  }

  ghost predicate AllOrgsHold(s: State, t: State, os: seq<Org>) {
    forall i :: 0 <= i < |os| ==> OrgHolds(s, t, os[i])
  }

  lemma NewOrgGrows(s: State, name: string)
    requires Valid(s)
    ensures
      var (t, org) := EnsureOrg(s, name);
      OrgsGrow(s, t, {}) && MembersOf(t, org) == if name in s.orgs then MembersOf(s, s.orgs[name]) else {}
  {}

  lemma MembersGrow(s: State, org: nat, names: seq<string>)
    ensures
      var t := AddMembers(s, org, names);
      OrgsGrow(s, t, {org}) && MembersOf(t, org) == MembersOf(s, org) + Called(s.users, names)
  {}

  lemma OrgsGrowTwice(s: State, t: State, u: State, x: set<nat>, y: set<nat>)
    requires OrgsGrow(s, t, x) && OrgsGrow(t, u, y)
    ensures OrgsGrow(s, u, x + y)
  {
    forall i ensures UsersIn(s, i) <= UsersIn(u, i) {
      assert UsersIn(s, i) <= UsersIn(t, i) <= UsersIn(u, i);
    }
  }

  lemma SameButLinks(s: State, t: State)
    requires t == s.(links := t.links, wasted := t.wasted)
    ensures OrgsGrow(s, t, {}) && forall i :: MembersOf(t, i) == MembersOf(s, i)
  {}

  lemma GroupsGrowOrgs(s: State, t: State)
    requires GroupsGrow(s, t)
    ensures OrgsGrow(s, t, {}) && forall i :: MembersOf(t, i) == MembersOf(s, i)
  {}

  /** One organization that goes through. */
  lemma ProvisionHolds(s: State, o: Org, known: Index)
    requires Valid(s) && Provision(s, o, known).1 == Done
    ensures
      var t := Provision(s, o, known).0;
      Valid(t) && OrgHolds(s, t, o) && OrgsGrow(s, t, {t.orgs[o.name]})
  {
    hide Valid, TreesDone, Joined, TreesExist, OrgsGrow, LinkAll, GroupsOf, LinksTo;
    ProvisionKeeps(s, o, known);
    EnsureOrgKeeps(s, o.name);
    NewOrgGrows(s, o.name);
    var (s1, org) := EnsureOrg(s, o.name);
    AddMembersKeeps(s1, org, o.members);
    MembersGrow(s1, org, o.members);
    var s2 := AddMembers(s1, org, o.members);
    LinkAllKeeps(s2, org, o.identityProviders, known);
    var s3 := LinkAll(s2, org, o.identityProviders, known).0;
    SameButLinks(s2, s3);
    GroupMembersEndUp(s3, org, o.groups);
    SomeIdIsTaken(s3);
    GroupsOfMeans(s3, org, 0, o.groups);
    var t := GroupsOf(s3, org, 0, o.groups);
    DoneFacts(s3, t, org, 0, o.groups);
    DoneGrows(s3, t, org, 0, o.groups);
    GroupsGrowOrgs(s3, t);
    OrgsGrowTwice(s, s1, s2, {}, {org});
    OrgsGrowTwice(s, s2, s3, {} + {org}, {});
    OrgsGrowTwice(s, s3, t, {} + {org} + {}, {});
    assert {} + {org} + {} + {} == {org};
  }

  lemma DoneGrows(s: State, t: State, org: nat, parent: nat, gs: seq<GroupConfig>)
    requires TreesDone(s, t, org, parent, gs)
    ensures GroupsGrow(s, t)
  {}

  lemma {:induction false} JoinedLater(s: State, t: State, org: nat, parent: nat, gs: seq<GroupConfig>)
    requires TreesExist(s, org, parent, gs) && Joined(s, org, parent, gs)
    requires forall k :: k in s.groups ==> k in t.groups && t.groups[k] == s.groups[k]
    requires MembersOf(t, org) == MembersOf(s, org) && forall i :: UsersIn(s, i) <= UsersIn(t, i)
    ensures TreesExist(t, org, parent, gs) && Joined(t, org, parent, gs)
    decreases gs
  {
    forall i | 0 <= i < |gs|
      ensures
        var k := GroupKey(org, parent, gs[i].name);
        && k in t.groups && TreesExist(t, org, t.groups[k], gs[i].subGroups)
        && Called(MembersOf(t, org), gs[i].members) <= UsersIn(t, t.groups[k])
        && Joined(t, org, t.groups[k], gs[i].subGroups)
    {
      var k := GroupKey(org, parent, gs[i].name);
      assert k in s.groups && UsersIn(s, s.groups[k]) <= UsersIn(t, s.groups[k]);
      JoinedLater(s, t, org, s.groups[k], gs[i].subGroups);
    }
  }

  /** What one organization holds, others leave alone. */
  lemma HoldsLater(s: State, t: State, u: State, o: Org, except: set<nat>)
    requires OrgHolds(s, t, o) && OrgsGrow(t, u, except) && t.orgs[o.name] !in except
    ensures OrgHolds(s, u, o)
  {
    JoinedLater(t, u, t.orgs[o.name], 0, o.groups);
  }

  /** What the others hold does not depend on what the first one started from. */
  lemma HoldsSince(s: State, t: State, u: State, o: Org, except: set<nat>)
    requires OrgHolds(t, u, o) && OrgsGrow(s, t, except) && Valid(s)
    requires o.name in t.orgs <==> o.name in s.orgs
    requires o.name in s.orgs ==> s.orgs[o.name] !in except
    ensures OrgHolds(s, u, o)
  {}

  /** The ids of the organizations a config names. */
  function OrgIds(t: State, os: seq<Org>): set<nat> {
    set o | o in os && o.name in t.orgs :: t.orgs[o.name]
  }

  lemma {:induction false} AllProvisionHolds(s: State, os: seq<Org>, known: Index)
    requires Valid(s) && DistinctNames(os) && ProvisionAll(s, os, known).1 == Done
    ensures
      var t := ProvisionAll(s, os, known).0;
      Valid(t) && AllOrgsHold(s, t, os) && OrgsGrow(s, t, OrgIds(t, os))
    decreases |os|
  {
    hide *;
    ProvisionAllStep(s, os, known);
    if os == [] {
      NothingHolds(s, os);
    } else {
      TailClaims(os);
      ProvisionHolds(s, os[0], known);
      ProvisionKeeps(s, os[0], known);
      var t := Provision(s, os[0], known).0;
      AllProvisionHolds(t, os[1..], known);
      OneMoreHolds(s, t, ProvisionAll(t, os[1..], known).0, os);
    }
  }

  lemma NothingHolds(s: State, os: seq<Org>)
    requires os == []
    ensures AllOrgsHold(s, s, os) && OrgsGrow(s, s, OrgIds(s, os))
  {}

  lemma OneMoreHolds(s: State, t: State, u: State, os: seq<Org>)
    requires os != [] && DistinctNames(os) && Valid(s) && Valid(t) && Valid(u)
    requires OrgHolds(s, t, os[0]) && OrgsGrow(s, t, {t.orgs[os[0].name]})
    requires forall n :: n in t.orgs ==> n in s.orgs || n == os[0].name
    requires AllOrgsHold(t, u, os[1..]) && OrgsGrow(t, u, OrgIds(u, os[1..]))
    ensures AllOrgsHold(s, u, os) && OrgsGrow(s, u, OrgIds(u, os))
  {
    hide OrgsGrow, OrgHolds, Valid;
    var o, rest := os[0], os[1..];
    TailClaims(os);
    OthersHaveOtherIds(s, t, u, os);
    OrgFacts(s, t, o);
    GrowFacts(s, t, {t.orgs[o.name]});
    GrowFacts(t, u, OrgIds(u, rest));
    HoldsLater(s, t, u, o, OrgIds(u, rest));
    forall i | 0 <= i < |os| ensures OrgHolds(s, u, os[i]) {
      if i > 0 {
        assert os[i] == rest[i - 1];
        HoldsSince(s, t, u, os[i], {t.orgs[o.name]});
      }
    }
    OrgsGrowTwice(s, t, u, {t.orgs[o.name]}, OrgIds(u, rest));
    assert os == [o] + rest;
    assert OrgIds(u, os) == {t.orgs[o.name]} + OrgIds(u, rest);
  }

  lemma OthersHaveOtherIds(s: State, t: State, u: State, os: seq<Org>)
    requires os != [] && DistinctNames(os) && Valid(u) && OrgHolds(s, t, os[0])
    requires AllOrgsHold(t, u, os[1..]) && OrgsGrow(t, u, OrgIds(u, os[1..]))
    ensures t.orgs[os[0].name] !in OrgIds(u, os[1..])
    ensures os[0].name in u.orgs && u.orgs[os[0].name] == t.orgs[os[0].name]
  {
    hide TreesExist, Joined, LinksOk, UsersOk;
    TailClaims(os);
  }

  lemma OrgFacts(s: State, t: State, o: Org)
    requires OrgHolds(s, t, o)
    ensures o.name in t.orgs
  {}

  lemma GrowFacts(s: State, t: State, except: set<nat>)
    requires OrgsGrow(s, t, except)
    ensures forall n :: n in s.orgs ==> n in t.orgs && t.orgs[n] == s.orgs[n]
  {}

  // ---------- the index of a state ----------

  /** Who owns each provider at this moment. */
  ghost function IndexOf(s: State): Index {
    map a | a in s.providers :: OwnerOf(s, a)
  }

  ghost function OwnerOf(s: State, alias: string): Option<nat> {
    if org: nat :| Link(alias, org) in s.links then Some(org) else None
  }

  /** The index a run reads: none when no organization claims a provider. */
  ghost function IndexFor(s: State, os: seq<Org>): Index {
    if exists i :: 0 <= i < |os| && os[i].identityProviders != [] then IndexOf(s) else map[]
  }

  lemma IndexIsRight(s: State, os: seq<Org>)
    requires Valid(s)
    ensures AllUpToDate(s, IndexFor(s, os), os)
  {}

  /** There is only one index that is right about every provider. */
  lemma RightIndexIsUnique(s: State, known: Index)
    requires Valid(s) && forall a :: UpToDate(s, known, a)
    ensures known == IndexOf(s)
  {
    forall a ensures a in known <==> a in IndexOf(s) {
      assert UpToDate(s, known, a);
    }
    forall a | a in known ensures known[a] == IndexOf(s)[a] {
      assert UpToDate(s, known, a);
      if known[a].Some? {
        assert Link(a, known[a].value) in s.links;
      }
    }
  }

  // ---------- the server's endpoints ----------

  function ListedAliases(list: seq<(string, Option<nat>)>): set<string> {
    set e | e in list :: e.0
  }

  class OrgServer {
    var state: State

    constructor (state: State)
      ensures this.state == state
    {
      this.state := state;
    }

    method GetOrganizations(name: string) returns (ids: seq<nat>)
      ensures ids == if name in state.orgs then [state.orgs[name]] else []
    {
      ids := if name in state.orgs then [state.orgs[name]] else [];
    }

    method CreateOrganization(name: string) returns (id: nat)
      requires name !in state.orgs
      modifies this
      ensures (state, id) == EnsureOrg(old(state), name)
    {
      var (next, made) := EnsureOrg(state, name);
      state, id := next, made;
    }

    method GetOrganizationMembers(org: nat) returns (list: seq<User>)
      ensures Elements(list) == MembersOf(state, org)
    {
      list := ToList(MembersOf(state, org));
    }

    method GetUsers(username: string) returns (list: seq<User>)
      ensures Elements(list) == set u | u in state.users && u.username == username
    {
      list := ToList(set u | u in state.users && u.username == username);
    }

    /** Adding somebody who is no user, or a member already, is a wasted request. */
    method AddOrganizationMember(org: nat, userId: string)
      modifies this
      ensures forall u :: u in old(state).users && u.id == userId && UsersOk(old(state).users) ==>
                state == if u in MembersOf(old(state), org) then old(state).(wasted := old(state).wasted + 1)
                         else old(state).(members := old(state).members[org := MembersOf(old(state), org) + {u}])
    {
      var found := set u | u in state.users && u.id == userId;
      assert forall u :: u in state.users && u.id == userId ==> u in found;
      if found == {} || found <= MembersOf(state, org) {
        state := state.(wasted := state.wasted + 1);
      } else {
        var u :| u in found;
        state := state.(members := state.members[org := MembersOf(state, org) + {u}]);
      }
    }

    /** The groups at one level, in any order. */
    method GetOrganizationGroups(org: nat, parent: nat) returns (list: seq<GroupKey>)
      ensures forall k :: k in list <==> k in state.groups && k.org == org && k.parent == parent
    {
      list := ToList(set k | k in state.groups && k.org == org && k.parent == parent);
      assert forall k :: k in list <==> k in Elements(list);
    }

    method CreateOrganizationGroup(key: GroupKey) returns (id: nat)
      requires key !in state.groups
      modifies this
      ensures (state, id) == EnsureGroup(old(state), key)
    {
      var (next, made) := EnsureGroup(state, key);
      state, id := next, made;
    }

    method GetOrganizationGroupMembers(group: nat) returns (list: seq<User>)
      ensures Elements(list) == UsersIn(state, group)
    {
      list := ToList(UsersIn(state, group));
    }

    /** Refused unless the user is a member of the organization; wasted if the user is in the group already. */
    method AddOrganizationGroupMember(org: nat, group: nat, userId: string)
      modifies this
      ensures forall u :: u in MembersOf(old(state), org) && u.id == userId && UsersOk(MembersOf(old(state), org)) ==>
                state == if u in UsersIn(old(state), group) then old(state).(wasted := old(state).wasted + 1)
                         else old(state).(inGroup := old(state).inGroup[group := UsersIn(old(state), group) + {u}])
      ensures (forall u :: u in MembersOf(old(state), org) ==> u.id != userId) ==>
                state == old(state).(wasted := old(state).wasted + 1)
    {
      var found := set u | u in MembersOf(state, org) && u.id == userId;
      assert forall u :: u in MembersOf(state, org) && u.id == userId ==> u in found;
      if found == {} || found <= UsersIn(state, group) {
        state := state.(wasted := state.wasted + 1);
      } else {
        var u :| u in found;
        state := state.(inGroup := state.inGroup[group := UsersIn(state, group) + {u}]);
      }
    }

    /** Every provider of the realm, with the organization it belongs to, in any order. */
    method GetIdentityProviders() returns (list: seq<(string, Option<nat>)>)
      requires AtMostOneOwner(state.links)
      ensures forall e :: e in list ==>
          e.0 in state.providers && forall org: nat :: Link(e.0, org) in state.links <==> e.1 == Some(org)
      ensures ListedAliases(list) == state.providers
    {
      list := [];
      var rest := state.providers;
      while rest != {}
        invariant rest <= state.providers
        invariant forall e :: e in list ==>
            e.0 in state.providers && forall org: nat :: Link(e.0, org) in state.links <==> e.1 == Some(org)
        invariant ListedAliases(list) == state.providers - rest
        decreases rest
      {
        var a :| a in rest;
        rest := rest - {a};
        var owners := set l | l in state.links && l.alias == a;
        var e: (string, Option<nat>) := (a, None);
        if owners != {} {
          var l :| l in owners;
          e := (a, Some(l.org));
        } else {
          assert forall org: nat :: Link(a, org) in state.links ==> Link(a, org) in owners;
        }
        assert ListedAliases(list + [e]) == ListedAliases(list) + {a} by {
          assert forall x :: x in list + [e] <==> x in list || x == e;
        }
        list := list + [e];
      }
    }

    method GetOrganizationIdentityProviders(org: nat) returns (list: seq<string>)
      ensures forall a :: a in list <==> Link(a, org) in state.links
    {
      list := ToList(set l | l in state.links && l.org == org :: l.alias);
      assert forall a :: a in list <==> a in Elements(list);
      assert forall l: Link :: l.org == org ==> l == Link(l.alias, org);
    }

    method AddOrganizationIdentityProvider(org: nat, alias: string) returns (ok: bool)
      modifies this
      ensures ok == AcceptsLink(old(state), org, alias)
      ensures state == if ok then old(state).(links := old(state).links + {Link(alias, org)})
          else old(state).(wasted := old(state).wasted + 1)
    {
      ok := AcceptsLink(state, org, alias);
      if ok {
        state := state.(links := state.links + {Link(alias, org)});
      } else {
        state := state.(wasted := state.wasted + 1);
      }
    }
  }

  // ---------- the reconciler ----------

  function Usernames(us: set<User>): set<string> {
    set u | u in us :: u.username
  }

  lemma CalledOneMore(users: set<User>, names: seq<string>, i: nat)
    requires i < |names|
    ensures Called(users, names[..i + 1]) == Called(users, names[..i]) + (set u | u in users && u.username == names[i])
    ensures Elements(names[..i + 1]) == Elements(names[..i]) + {names[i]}
  {
    assert names[..i + 1] == names[..i] + [names[i]];
  }

  predicate AssignsMembers(gs: seq<GroupConfig>)
    decreases gs
  {
    exists i :: 0 <= i < |gs| && (gs[i].members != [] || AssignsMembers(gs[i].subGroups))
  }

  /** `ids` is the listing of these users by username. */
  ghost predicate IsDirectory(ids: map<string, string>, us: set<User>) {
    && (forall u :: u in us ==> u.username in ids && ids[u.username] == u.id)
    && forall n :: n in ids ==> exists u :: u in us && u.username == n
  }

  method UserIDsByUsername(list: seq<User>) returns (ids: map<string, string>)
    requires UsersOk(Elements(list))
    ensures IsDirectory(ids, Elements(list))
  {
    ids := map[];
    for i := 0 to |list|
      invariant forall u :: u in list[..i] ==> u.username in ids && ids[u.username] == u.id
      invariant forall n :: n in ids ==> exists u :: u in list[..i] && u.username == n
    {
      assert list[..i + 1] == list[..i] + [list[i]];
      assert list[i] in Elements(list) && forall u :: u in list[..i] ==> u in Elements(list);
      ids := ids[list[i].username := list[i].id];
    }
    assert list[..|list|] == list;
  }

  lemma NobodyCalled(s: State, org: nat)
    requires org in s.members
    ensures AddMembers(s, org, []) == s
  {
    assert s.members[org] + Called(s.users, []) == s.members[org];
    assert s.members[org := s.members[org]] == s.members;
  }

  lemma NobodyJoins(s: State, org: nat, group: nat)
    requires group in s.inGroup
    ensures AddGroupMembers(s, org, group, []) == s
  {
    assert s.inGroup[group] + Called(MembersOf(s, org), []) == s.inGroup[group];
    assert s.inGroup[group := s.inGroup[group]] == s.inGroup;
  }

  lemma OneOfThatName(users: set<User>, username: string, u: User)
    requires UsersOk(users) && u in users && u.username == username
    ensures (set v | v in users && v.username == username) == {u}
  {}

  /** A username listed among some of the users is one of theirs. */
  lemma ListedIsIn(users: set<User>, some: set<User>, pool: set<User>, username: string)
    requires UsersOk(users) && some <= users && pool <= users && username in Usernames(some)
    ensures (set v | v in pool && v.username == username) <= some
  {}

  /** Adding those of one more name. */
  lemma AddedOneMore(s: State, org: nat, names: seq<string>, i: nat)
    requires i < |names|
    ensures
      var p, extra := AddMembers(s, org, names[..i]), set u | u in s.users && u.username == names[i];
      && AddMembers(s, org, names[..i + 1]) == p.(members := p.members[org := MembersOf(p, org) + extra])
      && (extra <= MembersOf(p, org) ==> AddMembers(s, org, names[..i + 1]) == p)
      && Elements(names[..i + 1]) == Elements(names[..i]) + {names[i]}
      && (names[i] in Elements(names[..i]) ==> extra <= MembersOf(p, org))
  {
    CalledOneMore(s.users, names, i);
    var p, extra := AddMembers(s, org, names[..i]), set u | u in s.users && u.username == names[i];
    assert MembersOf(s, org) + Called(s.users, names[..i + 1]) == MembersOf(p, org) + extra;
    if extra <= MembersOf(p, org) {
      assert MembersOf(p, org) + extra == MembersOf(p, org);
    }
  }

  lemma JoinedOneMore(s: State, org: nat, group: nat, names: seq<string>, i: nat)
    requires i < |names|
    ensures
      var p, extra := AddGroupMembers(s, org, group, names[..i]),
                      set u | u in MembersOf(s, org) && u.username == names[i];
      && AddGroupMembers(s, org, group, names[..i + 1]) == p.(inGroup := p.inGroup[group := UsersIn(p, group) + extra])
      && (extra <= UsersIn(p, group) ==> AddGroupMembers(s, org, group, names[..i + 1]) == p)
      && Elements(names[..i + 1]) == Elements(names[..i]) + {names[i]}
      && (names[i] in Elements(names[..i]) ==> extra <= UsersIn(p, group))
  {
    CalledOneMore(MembersOf(s, org), names, i);
    var p, extra := AddGroupMembers(s, org, group, names[..i]),
                    set u | u in MembersOf(s, org) && u.username == names[i];
    assert UsersIn(s, group) + Called(MembersOf(s, org), names[..i + 1]) == UsersIn(p, group) + extra;
    if extra <= UsersIn(p, group) {
      assert UsersIn(p, group) + extra == UsersIn(p, group);
    }
  }

  lemma GroupsOfStep(s: State, org: nat, parent: nat, gs: seq<GroupConfig>)
    ensures gs == [] ==> GroupsOf(s, org, parent, gs) == s
    ensures gs != [] ==> GroupsOf(s, org, parent, gs) == GroupsOf(GroupOf(s, org, parent, gs[0]), org, parent, gs[1..])
  {}

  lemma AssignsMore(g: GroupConfig)
    ensures g.members != [] || AssignsMembers(g.subGroups) ==> AssignsMembers([g])
  {
    assert [g][0] == g;
  }

  lemma AssignsOne(gs: seq<GroupConfig>, i: nat)
    requires i < |gs|
    ensures AssignsMembers([gs[i]]) ==> AssignsMembers(gs)
  {
    assert [gs[i]][0] == gs[i];
  }

  lemma DoneFacts(s: State, t: State, org: nat, parent: nat, gs: seq<GroupConfig>)
    requires TreesDone(s, t, org, parent, gs)
    ensures Valid(t) && t.members == s.members && s.next <= t.next
  {}

  lemma MembersAreOk(s: State, org: nat)
    requires Valid(s)
    ensures UsersOk(MembersOf(s, org))
  {}

  lemma ProvisionAllStep(s: State, os: seq<Org>, known: Index)
    ensures os == [] ==> ProvisionAll(s, os, known) == (s, Done)
    ensures os != [] ==>
      var (t, outcome) := Provision(s, os[0], known);
      ProvisionAll(s, os, known) == if outcome != Done then (t, outcome) else ProvisionAll(t, os[1..], known)
  {}

  lemma LoadedForAll(s: State, known: Index, os: seq<Org>)
    requires forall a :: UpToDate(s, known, a)
    ensures AllUpToDate(s, known, os)
  {}

  lemma NothingToLookUp(s: State, known: Index, os: seq<Org>)
    requires forall i :: 0 <= i < |os| ==> os[i].identityProviders == []
    ensures AllUpToDate(s, known, os)
  {}

  lemma SomeIdIsTaken(s: State)
    requires Valid(s)
    ensures 0 < s.next
  {}

  lemma RootFacts(s: State, org: nat, parent: nat, g: GroupConfig)
    requires Valid(s) && parent < s.next && org in s.members
    ensures
      var (t, id) := EnsureGroup(s, GroupKey(org, parent, g.name));
      && Valid(t) && id in t.inGroup && t.members == s.members
      && AddGroupMembers(t, org, id, g.members).members == s.members
  {
    EnsureGroupKeeps(s, GroupKey(org, parent, g.name));
  }

  class Provisioner {
    const server: OrgServer

    constructor (server: OrgServer)
      ensures this.server == server
    {
      this.server := server;
    }

    /** Adds the users the config lists; unknown usernames are skipped. No request is wasted. */
    method EnsureOrganizationMembers(org: nat, names: seq<string>)
      requires Valid(server.state) && org in server.state.members
      modifies server
      ensures server.state == AddMembers(old(server.state), org, names)
    {
      NobodyCalled(server.state, org);
      if |names| == 0 {
        return;
      }
      ghost var s := server.state;
      var members := server.GetOrganizationMembers(org);
      var current := Usernames(Elements(members));
      var seen: set<string> := {};
      assert names[..0] == [];
      for i := 0 to |names|
        invariant server.state == AddMembers(s, org, names[..i]) && seen == Elements(names[..i])
      {
        var username := names[i];
        AddedOneMore(s, org, names, i);
        if username in seen {
          continue;
        }
        seen := seen + {username};
        if username in current {
          ListedIsIn(s.users, MembersOf(s, org), s.users, username);
          continue;
        }
        var users := server.GetUsers(username);
        assert forall u :: u in Elements(users) ==> u in users;
        if |users| == 0 {
          continue;
        }
        assert users[0] in Elements(users);
        OneOfThatName(s.users, username, users[0]);
        server.AddOrganizationMember(org, users[0].id);
      }
      assert names[..|names|] == names;
    }

    /** Adds the organization's members the config lists; others are skipped. No request is refused or wasted. */
    method EnsureOrganizationGroupMembers(org: nat, group: nat, names: seq<string>, ids: map<string, string>)
      requires Valid(server.state) && org in server.state.members && group in server.state.inGroup
      requires names != [] ==> IsDirectory(ids, MembersOf(server.state, org))
      modifies server
      ensures server.state == AddGroupMembers(old(server.state), org, group, names)
    {
      NobodyJoins(server.state, org, group);
      if |names| == 0 {
        return;
      }
      ghost var s := server.state;
      var members := MembersOf(s, org);
      var joined := server.GetOrganizationGroupMembers(group);
      var inGroup := Usernames(Elements(joined));
      var seen: set<string> := {};
      assert names[..0] == [];
      for i := 0 to |names|
        invariant server.state == AddGroupMembers(s, org, group, names[..i]) && seen == Elements(names[..i])
      {
        var username := names[i];
        JoinedOneMore(s, org, group, names, i);
        if username in seen {
          continue;
        }
        seen := seen + {username};
        if username in inGroup {
          ListedIsIn(s.users, UsersIn(s, group), members, username);
          continue;
        }
        if username !in ids {
          assert forall u :: u in members ==> u.username != username;
          continue;
        }
        ghost var u :| u in members && u.username == username;
        OneOfThatName(members, username, u);
        server.AddOrganizationGroupMember(org, group, ids[username]);
      }
      assert names[..|names|] == names;
    }

    /** A group at one level, by exact name. */
    method FindOrganizationGroup(key: GroupKey) returns (found: bool)
      ensures found <==> key in server.state.groups
    {
      var candidates := server.GetOrganizationGroups(key.org, key.parent);
      for i := 0 to |candidates|
        invariant key !in candidates[..i]
      {
        if candidates[i].name == key.name {
          assert candidates[i] in candidates && candidates[i] == GroupKey(key.org, key.parent, key.name);
          return true;
        }
      }
      assert candidates[..|candidates|] == candidates;
      found := false;
    }

    method ReconcileOrganizationGroup(key: GroupKey) returns (id: nat)
      modifies server
      ensures (server.state, id) == EnsureGroup(old(server.state), key)
    {
      var existing := FindOrganizationGroup(key);
      if existing {
        return server.state.groups[key];
      }
      id := server.CreateOrganizationGroup(key);
    }

    /** One group and what is below it. */
    method EnsureOrganizationGroup(org: nat, parent: nat, g: GroupConfig, ids: map<string, string>)
      requires Valid(server.state) && org in server.state.members && parent < server.state.next
      requires AssignsMembers([g]) ==> IsDirectory(ids, MembersOf(server.state, org))
      modifies server
      ensures server.state == GroupOf(old(server.state), org, parent, g)
      ensures TreesDone(old(server.state), server.state, org, parent, [g])
      decreases g
    {
      hide Valid, TreesDone, GroupOf, GroupsOf, IsDirectory, EnsureGroup, AddGroupMembers, AssignsMembers;
      GroupOfMeans(server.state, org, parent, g);
      RootMeans(server.state, org, parent, g);
      RootFacts(server.state, org, parent, g);
      AssignsMore(g);
      var id := ReconcileOrganizationGroup(GroupKey(org, parent, g.name));
      EnsureOrganizationGroupMembers(org, id, g.members, ids);
      ghost var u := server.state;
      for i := 0 to |g.subGroups|
        invariant Valid(server.state) && org in server.state.members && id < server.state.next
        invariant MembersOf(server.state, org) == MembersOf(u, org)
        invariant GroupsOf(u, org, id, g.subGroups) == GroupsOf(server.state, org, id, g.subGroups[i..])
      {
        assert g.subGroups[i..][1..] == g.subGroups[i + 1..];
        GroupsOfStep(server.state, org, id, g.subGroups[i..]);
        AssignsOne(g.subGroups, i);
        ghost var before := server.state;
        EnsureOrganizationGroup(org, id, g.subGroups[i], ids);
        DoneFacts(before, server.state, org, id, [g.subGroups[i]]);
      }
      assert g.subGroups[|g.subGroups|..] == [];
      GroupsOfStep(server.state, org, id, []);
    }

    /** Reads the index of the realm's providers. */
    method LoadIdentityProviderIndex() returns (known: Index)
      requires Valid(server.state)
      ensures forall a :: UpToDate(server.state, known, a)
    {
      var list := server.GetIdentityProviders();
      known := map[];
      for i := 0 to |list|
        invariant known.Keys == ListedAliases(list[..i])
        invariant forall a :: a in known ==> forall org: nat :: Link(a, org) in server.state.links <==>
            known[a] == Some(org)
      {
        assert list[..i + 1] == list[..i] + [list[i]];
        assert list[i] in list;
        known := known[list[i].0 := list[i].1];
      }
      assert list[..|list|] == list;
    }

    /** Links what is not linked yet, looking providers up in the index. */
    method EnsureOrganizationIdentityProviders(org: nat, aliases: seq<string>, known: Index) returns (outcome: Outcome)
      modifies server
      ensures (server.state, outcome) == LinkAll(old(server.state), org, aliases, known)
    {
      if |aliases| == 0 {
        return Done;
      }
      var linked := server.GetOrganizationIdentityProviders(org);
      var current := set a | a in linked;
      for i := 0 to |aliases|
        invariant forall a :: a in current <==> Link(a, org) in server.state.links
        invariant LinkAll(old(server.state), org, aliases, known) == LinkAll(server.state, org, aliases[i..], known)
      {
        assert aliases[i..][1..] == aliases[i + 1..];
        var alias := aliases[i];
        if alias in current {
          continue;
        }
        if alias !in known {
          return NotFound;
        }
        if known[alias].Some? && known[alias].value != org {
          return OwnedElsewhere;
        }
        var ok := server.AddOrganizationIdentityProvider(org, alias);
        if !ok {
          return Refused;
        }
        current := current + {alias};
      }
      outcome := Done;
    }

    /** One organization: members, provider links, then groups. */
    method EnsureOrganization(o: Org, known: Index) returns (outcome: Outcome)
      requires Valid(server.state)
      modifies server
      ensures (server.state, outcome) == Provision(old(server.state), o, known)
      ensures Valid(server.state)
    {
      hide Valid, LinkAll, GroupsOf, AssignsMembers, Called;
      ProvisionKeeps(server.state, o, known);
      EnsureOrgKeeps(server.state, o.name);
      var existing := server.GetOrganizations(o.name);
      var org;
      if |existing| == 0 {
        org := server.CreateOrganization(o.name);
      } else {
        org := existing[0];
      }
      AddMembersKeeps(server.state, org, o.members);
      EnsureOrganizationMembers(org, o.members);
      LinkAllKeeps(server.state, org, o.identityProviders, known);
      outcome := EnsureOrganizationIdentityProviders(org, o.identityProviders, known);
      GroupsOfStep(server.state, org, 0, o.groups);
      if outcome != Done || |o.groups| == 0 {
        return;
      }
      var ids: map<string, string> := map[];
      if AssignsMembers(o.groups) {
        var members := server.GetOrganizationMembers(org);
        MembersAreOk(server.state, org);
        ids := UserIDsByUsername(members);
      }
      EnsureOrganizationGroups(org, o.groups, ids);
    }

    /** The organization's top-level groups. */
    method EnsureOrganizationGroups(org: nat, gs: seq<GroupConfig>, ids: map<string, string>)
      requires Valid(server.state) && org in server.state.members
      requires AssignsMembers(gs) ==> IsDirectory(ids, MembersOf(server.state, org))
      modifies server
      ensures server.state == GroupsOf(old(server.state), org, 0, gs)
    {
      hide Valid, TreesDone, GroupOf, GroupsOf, IsDirectory, AssignsMembers;
      for i := 0 to |gs|
        invariant Valid(server.state) && org in server.state.members
        invariant MembersOf(server.state, org) == MembersOf(old(server.state), org)
        invariant GroupsOf(old(server.state), org, 0, gs) == GroupsOf(server.state, org, 0, gs[i..])
      {
        assert gs[i..][1..] == gs[i + 1..];
        GroupsOfStep(server.state, org, 0, gs[i..]);
        AssignsOne(gs, i);
        SomeIdIsTaken(server.state);
        ghost var before := server.state;
        EnsureOrganizationGroup(org, 0, gs[i], ids);
        DoneFacts(before, server.state, org, 0, [gs[i]]);
      }
      assert gs[|gs|..] == [];
      GroupsOfStep(server.state, org, 0, []);
    }

    /** The realm's organizations, against an index read once. */
    method EnsureOrganizations(os: seq<Org>) returns (outcome: Outcome, ghost known: Index)
      requires Valid(server.state)
      modifies server
      ensures (server.state, outcome) == ProvisionAll(old(server.state), os, known)
      ensures Valid(server.state) && AllUpToDate(old(server.state), known, os)
      ensures known == IndexFor(old(server.state), os)
    {
      hide Valid, UpToDate, AllUpToDate, Provision, ProvisionAll;
      var idps: Index := map[];
      if exists i :: 0 <= i < |os| && os[i].identityProviders != [] {
        idps := LoadIdentityProviderIndex();
        LoadedForAll(server.state, idps, os);
        RightIndexIsUnique(server.state, idps);
      } else {
        NothingToLookUp(server.state, idps, os);
      }
      known := idps;
      for i := 0 to |os|
        invariant Valid(server.state) && AllUpToDate(old(server.state), known, os)
        invariant ProvisionAll(old(server.state), os, known) == ProvisionAll(server.state, os[i..], known)
      {
        assert os[i..][1..] == os[i + 1..];
        ProvisionAllStep(server.state, os[i..], known);
        outcome := EnsureOrganization(os[i], idps);
        if outcome != Done {
          return;
        }
      }
      assert os[|os|..] == [];
      ProvisionAllStep(server.state, [], known);
      outcome := Done;
    }
  }

  // ---------- the validator ----------

  /** The claims of all organizations, in declaration order. */
  function AllClaims(os: seq<Org>): seq<string> {
    if os == [] then [] else AllClaims(os[..|os| - 1]) + os[|os| - 1].identityProviders
  }

  /** Every alias is usable, and none is claimed twice, by one organization or by two. */
  predicate ClaimsOk(os: seq<Org>) {
    (forall a :: a in AllClaims(os) ==> Usable(a)) && Distinct(AllClaims(os))
  }

  /** Who claims each alias; shared by the calls for all organizations. */
  class Claims {
    var owner: map<string, string>

    constructor ()
      ensures owner == map[]
    {
      owner := map[];
    }
  }

  method ValidateOrganizationIdentityProviders(o: Org, claims: Claims) returns (ok: bool)
    modifies claims
    ensures ok <==> (forall a :: a in o.identityProviders ==> Usable(a)) && Distinct(o.identityProviders)
                    && Disjoint(o.identityProviders, old(claims.owner).Keys)
    ensures ok ==> claims.owner.Keys == old(claims.owner).Keys + Elements(o.identityProviders)
  {
    var seen: set<string> := {};
    var xs := o.identityProviders;
    for i := 0 to |xs|
      invariant seen == Elements(xs[..i]) && claims.owner.Keys == old(claims.owner).Keys + seen
      invariant (forall a :: a in xs[..i] ==> Usable(a)) && Distinct(xs[..i]) &&
          Disjoint(xs[..i], old(claims.owner).Keys)
    {
      assert xs[..i + 1] == xs[..i] + [xs[i]];
      var alias := xs[i];
      assert alias in xs;
      if alias == "" || HasNull(alias) {
        return false;
      }
      if alias in seen {
        return false;
      }
      seen := seen + {alias};
      if alias in claims.owner {
        return false;
      }
      claims.owner := claims.owner[alias := o.name];
    }
    assert xs[..|xs|] == xs;
    ok := true;
  }

  predicate OrganizationGroupOk(g: GroupConfig)
    decreases g
  {
    && Usable(g.name) && !g.carriesRoles && AttributesOk(g.attributes) && AllUsable(g.members)
    && OrganizationGroupsOk(g.subGroups)
  }

  /** Names are unique among siblings. */
  predicate OrganizationGroupsOk(gs: seq<GroupConfig>)
    decreases gs
  {
    && (forall i, j :: 0 <= i < j < |gs| ==> gs[i].name != gs[j].name)
    && forall i :: 0 <= i < |gs| ==> OrganizationGroupOk(gs[i])
  }

  predicate OrganizationOk(o: Org) {
    && Usable(o.name) && NullFree(o.texts) && AllUsable(o.domains) && Distinct(o.domains)
    && AttributesOk(o.attributes) && AllUsable(o.members) && OrganizationGroupsOk(o.groups)
  }

  /** What a valid config may declare as its organizations: none, or usable ones with names and claims of their own in a
      realm that has the feature turned on. */
  predicate OrganizationsOk(enabled: bool, os: seq<Org>) {
    os == [] ||
    (enabled && DistinctNames(os) && (forall i :: 0 <= i < |os| ==> OrganizationOk(os[i])) && ClaimsOk(os))
  }

  function GroupNames(gs: seq<GroupConfig>): set<string> {
    set g | g in gs :: g.name
  }

  method ValidateOrganizationGroups(gs: seq<GroupConfig>) returns (ok: bool)
    ensures ok <==> OrganizationGroupsOk(gs)
    decreases gs
  {
    var names: set<string> := {};
    for i := 0 to |gs|
      invariant names == GroupNames(gs[..i])
      invariant forall j :: 0 <= j < i ==> OrganizationGroupOk(gs[j])
      invariant forall j, k :: 0 <= j < k < i ==> gs[j].name != gs[k].name
    {
      var g := gs[i];
      assert gs[..i + 1] == gs[..i] + [g];
      assert forall j :: 0 <= j < i ==> gs[j] in gs[..i];
      if g.name == "" || HasNull(g.name) || g.name in names {
        return false;
      }
      names := names + {g.name};
      if g.carriesRoles {
        return false;
      }
      var attributesOk := ValidateMultiValueAttributes(g.attributes);
      if !attributesOk {
        return false;
      }
      var membersOk := CheckUsable(g.members);
      if !membersOk {
        return false;
      }
      var below := ValidateOrganizationGroups(g.subGroups);
      if !below {
        return false;
      }
    }
    ok := true;
  }

  /** What is checked of one organization by itself. */
  method ValidateOrganization(o: Org) returns (ok: bool)
    requires Usable(o.name)
    ensures ok <==> OrganizationOk(o)
  {
    var textsOk := ScanSliceNullBytes(o.texts);
    if !textsOk {
      return false;
    }
    var domainsOk := CheckDistinct(o.domains);
    if !domainsOk {
      return false;
    }
    var attributesOk := ValidateMultiValueAttributes(o.attributes);
    if !attributesOk {
      return false;
    }
    var membersOk := CheckUsable(o.members);
    if !membersOk {
      return false;
    }
    ok := ValidateOrganizationGroups(o.groups);
  }

  function OrgNames(os: seq<Org>): set<string> {
    set o | o in os :: o.name
  }

  lemma ClaimsOfPrefix(os: seq<Org>, i: nat)
    requires i < |os|
    ensures AllClaims(os[..i + 1]) == AllClaims(os[..i]) + os[i].identityProviders
    ensures OrgNames(os[..i + 1]) == OrgNames(os[..i]) + {os[i].name}
    ensures os[i].name in OrgNames(os[..i]) <==> exists j :: 0 <= j < i && os[j].name == os[i].name
  {
    assert os[..i + 1][..i] == os[..i] && os[..i + 1] == os[..i] + [os[i]];
    if os[i].name in OrgNames(os[..i]) {
      var o :| o in os[..i] && o.name == os[i].name;
    }
    assert forall j :: 0 <= j < i ==> os[j] in os[..i];
  }

  /** What the checks of the first `n` organizations come to. */
  ghost predicate PrefixOk(os: seq<Org>, n: nat)
    requires n <= |os|
  {
    && ClaimsOk(os[..n]) && (forall j :: 0 <= j < n ==> OrganizationOk(os[j]))
    && forall j, k :: 0 <= j < k < n ==> os[j].name != os[k].name
  }

  lemma OneMoreOk(os: seq<Org>, n: nat)
    requires n < |os|
    ensures
      var xs := os[n].identityProviders;
      PrefixOk(os, n + 1) <==>
        && PrefixOk(os, n) && os[n].name !in OrgNames(os[..n]) && OrganizationOk(os[n])
        && (forall a :: a in xs ==> Usable(a)) && Distinct(xs) && Disjoint(xs, Elements(AllClaims(os[..n])))
  {
    hide OrganizationOk, ClaimsOk, AllClaims, OrgNames, Distinct, Disjoint, Usable;
    ClaimsOfPrefix(os, n);
    MoreClaims(os, n);
  }

  /** What fails early fails the whole. */
  lemma {:induction false} PrefixNotOk(os: seq<Org>, n: nat)
    requires n <= |os| && !PrefixOk(os, n)
    ensures !PrefixOk(os, |os|)
    decreases |os| - n
  {
    hide PrefixOk;
    if n < |os| {
      OneMoreOk(os, n);
      PrefixNotOk(os, n + 1);
    }
  }

  lemma WholeIsOk(os: seq<Org>)
    requires os != []
    ensures PrefixOk(os, |os|) <==> OrganizationsOk(true, os)
    ensures PrefixOk(os, 0) && AllClaims(os[..0]) == [] && OrgNames(os[..0]) == {}
  {
    hide OrganizationOk;
    assert os[..|os|] == os && os[..0] == [];
  }

  /** True exactly when every organization is usable, and names and claims are pairwise distinct across the realm. */
  method ValidateOrganizations(enabled: bool, os: seq<Org>) returns (ok: bool)
    ensures ok <==> OrganizationsOk(enabled, os)
  {
    if |os| == 0 {
      return true;
    }
    if !enabled {
      return false;
    }
    hide OrganizationOk, PrefixOk, ClaimsOk, AllClaims, OrgNames, Distinct, Disjoint, Usable;
    var names: set<string> := {};
    var claims := new Claims();
    WholeIsOk(os);
    for i := 0 to |os|
      invariant fresh(claims) && claims.owner.Keys == Elements(AllClaims(os[..i]))
      invariant names == OrgNames(os[..i]) && PrefixOk(os, i)
    {
      ClaimsOfPrefix(os, i);
      OneMoreOk(os, i);
      UsableName(os[i]);
      ok := CheckOrganization(os[i], names, claims);
      if !ok {
        PrefixNotOk(os, i + 1);
        return;
      }
      names := names + {os[i].name};
    }
    ok := true;
  }

  /** One organization, against the names and claims of those before it; its claims are added to theirs. */
  method CheckOrganization(o: Org, names: set<string>, claims: Claims) returns (ok: bool)
    modifies claims
    ensures ok <==>
            && o.name !in names && OrganizationOk(o) && (forall a :: a in o.identityProviders ==> Usable(a))
            && Distinct(o.identityProviders) && Disjoint(o.identityProviders, old(claims.owner.Keys))
    ensures ok ==> claims.owner.Keys == old(claims.owner.Keys) + Elements(o.identityProviders)
  {
    hide OrganizationOk, Distinct, Disjoint, Usable;
    UsableName(o);
    if o.name == "" || HasNull(o.name) || o.name in names {
      return false;
    }
    ok := ValidateOrganization(o);
    if ok {
      ok := ValidateOrganizationIdentityProviders(o, claims);
    }
  }

  lemma UsableName(o: Org)
    ensures OrganizationOk(o) ==> Usable(o.name)
    ensures Usable(o.name) <==> o.name != "" && !HasNull(o.name)
  {}

  lemma MoreClaims(os: seq<Org>, i: nat)
    requires i < |os|
    ensures
      var xs := os[i].identityProviders;
      ClaimsOk(os[..i + 1]) <==>
      && ClaimsOk(os[..i]) && (forall a :: a in xs ==> Usable(a)) && Distinct(xs)
      && Disjoint(xs, Elements(AllClaims(os[..i])))
  {
    ClaimsOfPrefix(os, i);
    DistinctConcat(AllClaims(os[..i]), os[i].identityProviders);
  }

  /** What the validator accepts is what makes the stale index safe. */
  lemma {:induction false} ValidClaimsAreDisjoint(os: seq<Org>)
    requires ClaimsOk(os)
    ensures ClaimsDisjoint(os)
    decreases |os|
  {
    if os != [] {
      var front, last := os[..|os| - 1], os[|os| - 1];
      DistinctConcat(AllClaims(front), last.identityProviders);
      ValidClaimsAreDisjoint(front);
      forall i, j, a | 0 <= i < j < |os| && a in os[i].identityProviders ensures a !in os[j].identityProviders {
        if j < |os| - 1 {
          assert front[i] == os[i] && front[j] == os[j];
        } else {
          ClaimIsListed(front, i, a);
        }
      }
    }
  }

  lemma {:induction false} ClaimIsListed(os: seq<Org>, i: nat, a: string)
    requires i < |os| && a in os[i].identityProviders
    ensures a in AllClaims(os)
    decreases |os|
  {
    if i < |os| - 1 {
      ClaimIsListed(os[..|os| - 1], i, a);
    }
  }
}
