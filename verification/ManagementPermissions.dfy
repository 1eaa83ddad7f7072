/** Fine-grained admin permissions (internal/provisioner/management_permissions.go): who owns what on the realm's
    authorization server, and what a run leaves behind. */
module ManagementPermissions {
  import opened Lists
  import opened Text
  import ConfigMaps
  import Directory

  /** The client that owns the authorization server. */
  const REALM_MANAGEMENT := Directory.REALM_MANAGEMENT
  const POLICY_PREFIX := "keycloak-provisioner"

  datatype Logic = Positive | Negative

  datatype Strategy = Unanimous | Affirmative | Consensus

  /** `rest` stands for the fields nobody here looks at. Only client policies have a client list. */
  datatype Policy = Policy(name: string, isClient: bool, clients: set<string>, logic: Logic, rest: string)

  /** The permission behind one scope of one client; the pair serves as its id. */
  datatype Perm = Perm(target: string, scope: string)

  datatype Permission = Permission(attached: set<nat>, strategy: Strategy, rest: string)

  /** Names are unique among policies of all kinds; a client's permissions exist from when they are enabled. */
  datatype State = State(enabled: set<string>, policies: map<nat, Policy>, permissions: map<Perm, Permission>,
    next: nat, writes: nat)

  ghost predicate NamesUnique(policies: map<nat, Policy>) {
    forall i, j :: i in policies && j in policies && policies[i].name == policies[j].name ==> i == j
  }

  ghost predicate Valid(s: State, offered: set<string>) {
    && NamesUnique(s.policies)
    && (forall i :: i in s.policies ==> i < s.next)
    && (forall p :: p in s.permissions <==> p.target in s.enabled && p.scope in offered)
    && forall p :: p in s.permissions ==> s.permissions[p].attached <= s.policies.Keys
  }

  datatype Outcome = Done | NotFound | Refused

  function ManagementPolicyName(scope: string, target: string): string {
    POLICY_PREFIX + "." + scope + "." + target
  }

  function Description(scope: string, target: string): string {
    "Managed by keycloak-provisioner: " + scope + " on " + target
  }

  lemma {:induction false} FirstDot(a: string, x: string, b: string, y: string)
    requires a + "." + x == b + "." + y && '.' !in a && '.' !in b
    ensures a == b && x == y
  {
    var s := a + "." + x;
    assert s == b + "." + y && s[|a|] == '.' && s[|b|] == '.';
    assert forall i :: 0 <= i < |a| ==> s[i] == a[i] && s[i] in a;
    assert forall i :: 0 <= i < |b| ==> s[i] == b[i] && s[i] in b;
    assert |a| == |b|;
    assert a == s[..|a|] == b;
    assert x == s[|a| + 1..] == y;
  }

  /** Names of dot-free scopes tell scope and client apart, dots in the client id notwithstanding. */
  lemma PolicyNameInjective(scope1: string, target1: string, scope2: string, target2: string)
    requires '.' !in scope1 && '.' !in scope2
    requires ManagementPolicyName(scope1, target1) == ManagementPolicyName(scope2, target2)
    ensures scope1 == scope2 && target1 == target2
  {
    var front := POLICY_PREFIX + ".";
    var x, y := scope1 + "." + target1, scope2 + "." + target2;
    assert ManagementPolicyName(scope1, target1) == front + x && ManagementPolicyName(scope2, target2) == front + y;
    assert x == (front + x)[|front|..] == (front + y)[|front|..] == y;
    FirstDot(scope1, target1, scope2, target2);
  }

  /** A dot in a scope name is enough for two scopes to share one policy. */
  lemma PolicyNamesCanCollide()
    ensures ManagementPolicyName("a", "b.c") == ManagementPolicyName("a.b", "c")
  {
    assert ManagementPolicyName("a", "b.c") == "keycloak-provisioner.a.b.c";
    assert ManagementPolicyName("a.b", "c") == "keycloak-provisioner.a.b.c";
  }

  // ---------- one permission scope of one client ----------

  datatype Job = Job(target: string, clientId: string, scope: string, granted: seq<string>)

  function PermOf(j: Job): Perm {
    Perm(j.target, j.scope)
  }

  function NameOf(j: Job): string {
    ManagementPolicyName(j.scope, j.clientId)
  }

  /** `clients` maps the realm's client ids to their UUIDs. */
  function Granted(clients: map<string, string>, j: Job): set<string> {
    set c | c in j.granted && c in clients :: clients[c]
  }

  predicate AllKnown(clients: map<string, string>, j: Job) {
    forall c :: c in j.granted ==> c in clients
  }

  ghost predicate IsNamed(policies: map<nat, Policy>, name: string, i: nat) {
    i in policies && policies[i].name == name
  }

  ghost function IdOf(policies: map<nat, Policy>, name: string): (r: Option<nat>)
    ensures r.Some? ==> IsNamed(policies, name, r.value)
    ensures r.None? ==> forall i :: !IsNamed(policies, name, i)
  {
    if exists i :: IsNamed(policies, name, i) then
      var i :| IsNamed(policies, name, i);
      Some(i)
    else None
  }

  lemma IdIsUnique(policies: map<nat, Policy>, name: string, i: nat)
    requires NamesUnique(policies) && IsNamed(policies, name, i)
    ensures IdOf(policies, name) == Some(i)
  {}

  /** Create the owned policy, or replace its clients; a policy of another kind under that name stands in the way. */
  ghost function EnsurePolicy(s: State, j: Job, uuids: set<string>): (State, Option<nat>) {
    match IdOf(s.policies, NameOf(j))
    case None =>
      (s.(policies := s.policies[s.next := Policy(NameOf(j), true, uuids, Positive, Description(j.scope, j.clientId))],
          next := s.next + 1, writes := s.writes + 1), Some(s.next))
    case Some(i) =>
      if !s.policies[i].isClient then (s, None)
      else if s.policies[i].clients == uuids then (s, Some(i))
      else (s.(policies := s.policies[i := s.policies[i].(clients := uuids)], writes := s.writes + 1), Some(i))
  }

  /** The client policy of the name that goes with the scope names exactly these clients; a new one passes them and says
      whose it is, an old one keeps everything else, and nothing else changes. */
  ghost predicate IsOwned(s: State, t: State, j: Job, uuids: set<string>, i: nat) {
    && i in t.policies && t.policies[i].isClient && t.policies[i].clients == uuids
    && t.policies[i].name == "keycloak-provisioner." + j.scope + "." + j.clientId
    && (i !in s.policies ==>
          && t.policies[i].logic == Positive
          && t.policies[i].rest == "Managed by keycloak-provisioner: " + j.scope + " on " + j.clientId)
    && (i in s.policies ==> t.policies[i] == s.policies[i].(clients := uuids))
    && (forall k :: k in s.policies && k != i ==> k in t.policies && t.policies[k] == s.policies[k])
    && t.policies.Keys == s.policies.Keys + {i} && t.permissions == s.permissions && t.enabled == s.enabled
    && (t == s || t.writes == s.writes + 1)
  }

  lemma PolicyIsOwned(s: State, j: Job, uuids: set<string>)
    requires forall i :: i in s.policies ==> i < s.next
    ensures
      var (t, id) := EnsurePolicy(s, j, uuids);
      if id.Some? then IsOwned(s, t, j, uuids, id.value)
      else t == s && exists i :: IsNamed(s.policies, NameOf(j), i) && !s.policies[i].isClient
  {
    assert NameOf(j) == "keycloak-provisioner." + j.scope + "." + j.clientId by {
      assert NameOf(j) == ("keycloak-provisioner" + ".") + j.scope + "." + j.clientId;
    }
    assert s == s.(policies := s.policies);
  }

  /** Add the policy to the permission and make it AFFIRMATIVE. */
  ghost function Attach(s: State, p: Perm, policy: nat): State
    requires p in s.permissions
  {
    var q := s.permissions[p];
    if policy in q.attached && q.strategy == Affirmative then s
    else s.(permissions := s.permissions[p := q.(attached := q.attached + {policy}, strategy := Affirmative)],
        writes := s.writes + 1)
  }

  // ---------- a run, flattened ----------

  datatype Step = Enable(target: string) | NeedsResourceServer | Grants(job: Job)

  function EnablePermissions(s: State, offered: set<string>, target: string): State {
    if target in s.enabled then s
    else
      s.(enabled := s.enabled + {target}, writes := s.writes + 1,
         permissions := s.permissions + (map scope | scope in offered ::
           Perm(target, scope) := Permission({}, Unanimous, "")))
  }

  ghost function Take(s: State, clients: map<string, string>, offered: set<string>, step: Step): (State, Outcome) {
    match step
    case Enable(target) => (EnablePermissions(s, offered, target), Done)
    case NeedsResourceServer => (s, if REALM_MANAGEMENT in clients then Done else NotFound)
    case Grants(j) =>
      if PermOf(j) !in s.permissions || !AllKnown(clients, j) then (s, NotFound)
      else
        var (t, policy) := EnsurePolicy(s, j, Granted(clients, j));
        if policy.None? then (t, Refused) else (Attach(t, PermOf(j), policy.value), Done)
  }

  ghost function Run(s: State, clients: map<string, string>, offered: set<string>, steps: seq<Step>): (State, Outcome)
    decreases |steps|
  {
    if steps == [] then (s, Done)
    else
      var (t, outcome) := Take(s, clients, offered, steps[0]);
      if outcome != Done then (t, outcome) else Run(t, clients, offered, steps[1..])
  }

  /** A client with a permissions block: its UUID, its id, and the clients each scope is granted to. */
  datatype Target = Target(uuid: string, clientId: string, scopes: Option<map<string, seq<string>>>)

  function GrantSteps(t: Target, scopes: seq<string>): seq<Step>
    requires t.scopes.Some? && forall x :: x in scopes ==> x in t.scopes.value
  {
    seq(|scopes|, i requires 0 <= i < |scopes| =>
      assert scopes[i] in scopes; Grants(Job(t.uuid, t.clientId, scopes[i], t.scopes.value[scopes[i]])))
  }

  ghost function TargetSteps(t: Target): seq<Step> {
    if t.scopes.None? then []
    else [Enable(t.uuid), NeedsResourceServer] + GrantSteps(t, ConfigMaps.SortedListing(t.scopes.value.Keys))
  }

  ghost function AllSteps(ts: seq<Target>): seq<Step> {
    if ts == [] then [] else TargetSteps(ts[0]) + AllSteps(ts[1..])
  }

  lemma {:induction false} RunConcat(s: State, clients: map<string, string>, offered: set<string>, xs: seq<Step>,
      ys: seq<Step>)
    ensures
      var (t, outcome) := Run(s, clients, offered, xs);
      Run(s, clients, offered, xs + ys) == if outcome != Done then (t, outcome) else Run(t, clients, offered, ys)
    decreases |xs|
  {
    if xs == [] {
      assert xs + ys == ys;
    } else {
      assert (xs + ys)[0] == xs[0] && (xs + ys)[1..] == xs[1..] + ys;
      RunConcat(Take(s, clients, offered, xs[0]).0, clients, offered, xs[1..], ys);
    }
  }

  // ---------- what every step keeps ----------

  /** Everything attached stays attached, every policy keeps all but its clients, and those too unless its name is one
      of `names`; new policies have such names; permissions outside `perms` are as they were. */
  ghost predicate Keeps(s: State, t: State, names: set<string>, perms: set<Perm>) {
    && s.enabled <= t.enabled && s.next <= t.next && s.writes <= t.writes
    && (forall i :: i in s.policies ==>
          && i in t.policies && t.policies[i] == s.policies[i].(clients := t.policies[i].clients)
          && (s.policies[i].name !in names ==> t.policies[i] == s.policies[i]))
    && (forall i :: i in t.policies && i !in s.policies ==>
          t.policies[i].isClient && t.policies[i].logic == Positive && t.policies[i].name in names)
    && (forall p :: p in s.permissions ==>
          && p in t.permissions && s.permissions[p].attached <= t.permissions[p].attached
          && t.permissions[p].rest == s.permissions[p].rest
          && (p !in perms ==> t.permissions[p] == s.permissions[p]))
  }

  function Names(steps: seq<Step>): set<string> {
    set st | st in steps && st.Grants? :: NameOf(st.job)
  }

  function Perms(steps: seq<Step>): set<Perm> {
    set st | st in steps && st.Grants? :: PermOf(st.job)
  }

  lemma KeepsTransitive(s: State, t: State, u: State, n1: set<string>, p1: set<Perm>, n2: set<string>, p2: set<Perm>)
    requires Keeps(s, t, n1, p1) && Keeps(t, u, n2, p2)
    ensures Keeps(s, u, n1 + n2, p1 + p2)
  {}

  lemma EnableKeeps(s: State, offered: set<string>, target: string)
    requires Valid(s, offered)
    ensures Valid(EnablePermissions(s, offered, target), offered)
    ensures Keeps(s, EnablePermissions(s, offered, target), {}, {})
    ensures target in EnablePermissions(s, offered, target).enabled
  {
    var t := EnablePermissions(s, offered, target);
    if target !in s.enabled {
      forall p ensures p in t.permissions <==> p.target in t.enabled && p.scope in offered {
        if p.target == target && p.scope in offered {
          assert p == Perm(target, p.scope);
        }
      }
    }
  }

  lemma PolicyKeeps(s: State, offered: set<string>, j: Job, uuids: set<string>)
    requires Valid(s, offered)
    ensures
      var (t, policy) := EnsurePolicy(s, j, uuids);
      && Valid(t, offered) && Keeps(s, t, {NameOf(j)}, {}) && t.permissions == s.permissions && t.enabled == s.enabled
      && (policy.Some? ==>
            && IdOf(t.policies, NameOf(j)) == policy && t.policies[policy.value].isClient
            && t.policies[policy.value].clients == uuids)
      && (t.writes == s.writes ==> t == s)
  {
    var (t, policy) := EnsurePolicy(s, j, uuids);
    if IdOf(s.policies, NameOf(j)).None? {
      forall i | i in s.policies ensures s.policies[i].name != NameOf(j) {
        assert !IsNamed(s.policies, NameOf(j), i);
      }
    }
    if policy.Some? {
      IdIsUnique(t.policies, NameOf(j), policy.value);
    }
  }

  lemma AttachKeeps(s: State, offered: set<string>, p: Perm, policy: nat)
    requires Valid(s, offered) && p in s.permissions && policy in s.policies
    ensures
      var t := Attach(s, p, policy);
      && Valid(t, offered) && Keeps(s, t, {}, {p}) && t.policies == s.policies
      && policy in t.permissions[p].attached && t.permissions[p].strategy == Affirmative
      && (t.writes == s.writes ==> t == s)
  {}

  /** The grant is in effect: the owned policy names exactly these clients, is attached, and alone suffices. */
  ghost predicate Settled(s: State, clients: map<string, string>, j: Job) {
    && AllKnown(clients, j) && PermOf(j) in s.permissions
    && var i := IdOf(s.policies, NameOf(j));
    && i.Some? && s.policies[i.value].isClient && s.policies[i.value].clients == Granted(clients, j)
    && i.value in s.permissions[PermOf(j)].attached && s.permissions[PermOf(j)].strategy == Affirmative
  }

  ghost predicate StepSettled(s: State, clients: map<string, string>, step: Step) {
    match step
    case Enable(target) => target in s.enabled
    case NeedsResourceServer => true
    case Grants(j) => Settled(s, clients, j)
  }

  /** A grant settles itself, and writes nothing exactly when it was settled before. */
  lemma GrantKeeps(s: State, clients: map<string, string>, offered: set<string>, j: Job)
    requires Valid(s, offered)
    ensures
      var (t, outcome) := Take(s, clients, offered, Grants(j));
      && Valid(t, offered) && Keeps(s, t, {NameOf(j)}, {PermOf(j)})
      && (outcome == Done ==> Settled(t, clients, j))
      && (outcome == Done ==> (t.writes == s.writes <==> Settled(s, clients, j)))
      && (outcome == Done && t.writes == s.writes ==> t == s)
  {
    hide *;
    TakeGrant(s, clients, offered, j);
    KeepsItself(s);
    KeepsMore(s, s, {}, {}, {NameOf(j)}, {PermOf(j)});
    if PermOf(j) in s.permissions && AllKnown(clients, j) {
      PolicyKeeps(s, offered, j, Granted(clients, j));
      var t, policy := EnsurePolicy(s, j, Granted(clients, j)).0, EnsurePolicy(s, j, Granted(clients, j)).1;
      KeepsMore(s, t, {NameOf(j)}, {}, {NameOf(j)}, {PermOf(j)});
      if policy.Some? {
        HasId(t, NameOf(j), policy.value);
        AttachKeeps(t, offered, PermOf(j), policy.value);
        KeepsTransitive(s, t, Attach(t, PermOf(j), policy.value), {NameOf(j)}, {}, {}, {PermOf(j)});
        assert {NameOf(j)} + {} == {NameOf(j)} && {} + {PermOf(j)} == {PermOf(j)};
        SettledBefore(s, clients, offered, j);
        SettledIs(Attach(t, PermOf(j), policy.value), clients, j, policy.value);
      }
    }
  }

  lemma HasId(s: State, name: string, i: nat)
    requires IdOf(s.policies, name) == Some(i)
    ensures i in s.policies && s.policies[i].name == name
  {}

  lemma KeepsItself(s: State)
    ensures Keeps(s, s, {}, {})
  {}

  lemma TakeGrant(s: State, clients: map<string, string>, offered: set<string>, j: Job)
    ensures PermOf(j) !in s.permissions || !AllKnown(clients, j) ==>
        Take(s, clients, offered, Grants(j)) == (s, NotFound)
    ensures PermOf(j) in s.permissions && AllKnown(clients, j) ==>
      var (t, policy) := EnsurePolicy(s, j, Granted(clients, j));
      && (policy.None? ==> Take(s, clients, offered, Grants(j)) == (t, Refused) && t == s)
      && (policy.Some? ==>
            && PermOf(j) in t.permissions
            && Take(s, clients, offered, Grants(j)) == (Attach(t, PermOf(j), policy.value), Done))
  {}

  lemma SettledIs(s: State, clients: map<string, string>, j: Job, i: nat)
    requires AllKnown(clients, j) && PermOf(j) in s.permissions && IdOf(s.policies, NameOf(j)) == Some(i)
    requires s.policies[i].isClient && s.policies[i].clients == Granted(clients, j)
    requires i in s.permissions[PermOf(j)].attached && s.permissions[PermOf(j)].strategy == Affirmative
    ensures Settled(s, clients, j)
  {}

  /** Nothing is written exactly when the policy and the permission were right already. */
  lemma SettledBefore(s: State, clients: map<string, string>, offered: set<string>, j: Job)
    requires Valid(s, offered) && PermOf(j) in s.permissions && AllKnown(clients, j)
    requires EnsurePolicy(s, j, Granted(clients, j)).1.Some?
    ensures
      var (t, policy) := EnsurePolicy(s, j, Granted(clients, j));
      && PermOf(j) in t.permissions &&
        (Attach(t, PermOf(j), policy.value).writes == s.writes <==> Settled(s, clients, j))
      && (Attach(t, PermOf(j), policy.value).writes == s.writes ==> Attach(t, PermOf(j), policy.value) == s)
  {}

  /** A step keeps the server's order, settles itself, and writes nothing exactly when it was settled before. */
  lemma TakeKeeps(s: State, clients: map<string, string>, offered: set<string>, step: Step)
    requires Valid(s, offered)
    ensures
      var (t, outcome) := Take(s, clients, offered, step);
      && Valid(t, offered) && Keeps(s, t, Names([step]), Perms([step]))
      && (outcome == Done ==> StepSettled(t, clients, step))
      && (outcome == Done ==> (t.writes == s.writes <==> StepSettled(s, clients, step)))
      && (outcome == Done && t.writes == s.writes ==> t == s)
  {
    assert [step][0] == step;
    match step {
      case Enable(target) =>
        EnableKeeps(s, offered, target);
        KeepsMore(s, EnablePermissions(s, offered, target), {}, {}, Names([step]), Perms([step]));
      case NeedsResourceServer =>
      case Grants(j) =>
        hide Take, Keeps, Valid;
        assert NameOf(j) in Names([step]) && PermOf(j) in Perms([step]);
        GrantKeeps(s, clients, offered, j);
        KeepsMore(s, Take(s, clients, offered, step).0, {NameOf(j)}, {PermOf(j)}, Names([step]), Perms([step]));
    }
  }

  lemma KeepsMore(s: State, t: State, n1: set<string>, p1: set<Perm>, n2: set<string>, p2: set<Perm>)
    requires n1 <= n2 && p1 <= p2
    ensures Keeps(s, t, n1, p1) ==> Keeps(s, t, n2, p2)
  {}

  /** Whatever the run does, all earlier attachments survive, and only policies and permissions it is configured for
      change. */
  lemma {:induction false} RunKeeps(s: State, clients: map<string, string>, offered: set<string>, steps: seq<Step>)
    requires Valid(s, offered)
    ensures
      var t := Run(s, clients, offered, steps).0;
      Valid(t, offered) && Keeps(s, t, Names(steps), Perms(steps))
    decreases |steps|
  {
    if steps != [] {
      TakeKeeps(s, clients, offered, steps[0]);
      var (t, outcome) := Take(s, clients, offered, steps[0]);
      assert [steps[0]][0] == steps[0] && steps == [steps[0]] + steps[1..];
      KeepsMore(s, t, Names([steps[0]]), Perms([steps[0]]), Names(steps), Perms(steps));
      if outcome == Done {
        RunKeeps(t, clients, offered, steps[1..]);
        var u := Run(t, clients, offered, steps[1..]).0;
        KeepsMore(t, u, Names(steps[1..]), Perms(steps[1..]), Names(steps), Perms(steps));
        KeepsTransitive(s, t, u, Names(steps), Perms(steps), Names(steps), Perms(steps));
      }
    }
  }

  // ---------- when a run succeeds ----------

  /** No policy of another kind holds the name. */
  ghost predicate NameFree(s: State, name: string) {
    forall i :: i in s.policies && s.policies[i].name == name ==> s.policies[i].isClient
  }

  ghost predicate Feasible(s: State, clients: map<string, string>, offered: set<string>, step: Step) {
    match step
    case Enable(_) => true
    case NeedsResourceServer => REALM_MANAGEMENT in clients
    case Grants(j) => j.scope in offered && AllKnown(clients, j) && NameFree(s, NameOf(j))
  }

  /** Scopes are granted on clients whose permissions have been enabled. */
  predicate Ordered(enabled: set<string>, steps: seq<Step>)
    decreases |steps|
  {
    steps == [] ||
    match steps[0]
    case Enable(target) => Ordered(enabled + {target}, steps[1..])
    case NeedsResourceServer => Ordered(enabled, steps[1..])
    case Grants(j) => j.target in enabled && Ordered(enabled, steps[1..])
  }

  lemma {:induction false} OrderedMore(e: set<string>, f: set<string>, xs: seq<Step>, ys: seq<Step>)
    requires e <= f && Ordered(e, xs) && Ordered(e, ys)
    ensures Ordered(f, xs + ys)
    decreases |xs| + |ys|
  {
    if xs != [] {
      assert (xs + ys)[0] == xs[0] && (xs + ys)[1..] == xs[1..] + ys;
      if xs[0].Enable? {
        assert ys + [] == ys;
        OrderedMore(e, e + {xs[0].target}, ys, []) by {
          assert |ys| < |xs| + |ys|;
        }
        OrderedMore(e + {xs[0].target}, f + {xs[0].target}, xs[1..], ys);
      } else {
        OrderedMore(e, f, xs[1..], ys);
      }
    } else if ys != [] {
      assert xs + ys == ys;
      var e', f' := if ys[0].Enable? then e + {ys[0].target} else e, if ys[0].Enable? then f + {ys[0].target} else f;
      OrderedMore(e', f', ys[1..], []);
      assert ys[1..] + [] == ys[1..];
    }
  }

  lemma {:induction false} GrantsOrdered(e: set<string>, t: Target, scopes: seq<string>)
    requires t.scopes.Some? && (forall x :: x in scopes ==> x in t.scopes.value) && t.uuid in e
    ensures Ordered(e, GrantSteps(t, scopes))
    decreases |scopes|
  {
    if scopes != [] {
      GrantsOrdered(e, t, scopes[1..]);
      assert GrantSteps(t, scopes)[1..] == GrantSteps(t, scopes[1..]);
    }
  }

  lemma {:induction false} AllStepsOrdered(e: set<string>, ts: seq<Target>)
    ensures Ordered(e, AllSteps(ts))
    decreases |ts|
  {
    if ts != [] {
      AllStepsOrdered(e, ts[1..]);
      var t := ts[0];
      if t.scopes.Some? {
        var steps := GrantSteps(t, ConfigMaps.SortedListing(t.scopes.value.Keys));
        GrantsOrdered(e + {t.uuid}, t, ConfigMaps.SortedListing(t.scopes.value.Keys));
        assert TargetSteps(t)[1..] == [NeedsResourceServer] + steps;
        assert TargetSteps(t)[1..][1..] == steps;
      }
      OrderedMore(e, e, TargetSteps(t), AllSteps(ts[1..]));
    }
  }

  lemma NameFreeStays(s: State, t: State, names: set<string>, perms: set<Perm>, name: string)
    requires Keeps(s, t, names, perms)
    ensures NameFree(t, name) <==> NameFree(s, name)
  {}

  lemma IdOrNameFree(s: State, name: string)
    requires NamesUnique(s.policies)
    ensures NameFree(s, name) <==> (IdOf(s.policies, name).Some? ==> s.policies[IdOf(s.policies, name).value].isClient)
  {
    if NameFree(s, name) {
    } else {
      var i :| i in s.policies && s.policies[i].name == name && !s.policies[i].isClient;
      IdIsUnique(s.policies, name, i);
    }
    forall i | IdOf(s.policies, name).None? && i in s.policies ensures s.policies[i].name != name {
      assert !IsNamed(s.policies, name, i);
    }
    forall i | IdOf(s.policies, name).Some? && i in s.policies && s.policies[i].name == name
      ensures IdOf(s.policies, name) == Some(i)
    {
      IdIsUnique(s.policies, name, i);
    }
  }

  lemma TakeSucceeds(s: State, clients: map<string, string>, offered: set<string>, step: Step)
    requires Valid(s, offered) && (step.Grants? ==> step.job.target in s.enabled)
    ensures Take(s, clients, offered, step).1 == Done <==> Feasible(s, clients, offered, step)
    ensures Take(s, clients, offered, step).0.enabled == s.enabled + if step.Enable? then {step.target} else {}
  {
    if step.Grants? {
      IdOrNameFree(s, NameOf(step.job));
    }
  }

  /** A run ends well exactly when the resource server and all clients it names exist, the server offers every scope,
      and no policy of another kind holds one of the provisioner's names. */
  lemma {:induction false} RunSucceeds(s: State, clients: map<string, string>, offered: set<string>, steps: seq<Step>)
    requires Valid(s, offered) && Ordered(s.enabled, steps)
    ensures Run(s, clients, offered, steps).1 == Done <==>
        forall st :: st in steps ==> Feasible(s, clients, offered, st)
    decreases |steps|
  {
    hide Valid, Take, Keeps, NameFree, Names, Perms;
    if steps != [] {
      assert steps == [steps[0]] + steps[1..];
      TakeSucceeds(s, clients, offered, steps[0]);
      TakeKeeps(s, clients, offered, steps[0]);
      var (t, outcome) := Take(s, clients, offered, steps[0]);
      assert s.enabled + {} == s.enabled;
      if outcome == Done {
        RunSucceeds(t, clients, offered, steps[1..]);
        forall st | st in steps[1..] ensures Feasible(t, clients, offered, st) <==> Feasible(s, clients, offered, st) {
          if st.Grants? {
            NameFreeStays(s, t, Names([steps[0]]), Perms([steps[0]]), NameOf(st.job));
          }
        }
      }
    }
  }

  // ---------- the final state, and running again ----------

  /** Grants that share a policy name are for the same clients. */
  ghost predicate Coherent(clients: map<string, string>, steps: seq<Step>) {
    forall j, k :: Grants(j) in steps && Grants(k) in steps && NameOf(j) == NameOf(k) ==>
      Granted(clients, j) == Granted(clients, k)
  }

  /** What is settled stays settled unless its policy or its permission is touched; and then the touch must settle it.
      */
  lemma SettledKept(s: State, t: State, clients: map<string, string>, j: Job, names: set<string>, perms: set<Perm>)
    requires Settled(s, clients, j) && Keeps(s, t, names, perms) && NamesUnique(t.policies)
    requires NameOf(j) in names ==>
               IdOf(t.policies, NameOf(j)).Some? &&
               t.policies[IdOf(t.policies, NameOf(j)).value].clients == Granted(clients, j)
    requires PermOf(j) in perms ==>
               PermOf(j) in t.permissions && t.permissions[PermOf(j)].strategy == Affirmative
    ensures Settled(t, clients, j)
  {
    var i := IdOf(s.policies, NameOf(j)).value;
    IdIsUnique(t.policies, NameOf(j), i);
  }

  lemma SettledStays(s: State, clients: map<string, string>, offered: set<string>, step: Step, earlier: Step)
    requires Valid(s, offered) && StepSettled(s, clients, earlier) && Take(s, clients, offered, step).1 == Done
    requires step.Grants? && earlier.Grants? && NameOf(step.job) == NameOf(earlier.job) ==>
        Granted(clients, step.job) == Granted(clients, earlier.job)
    ensures StepSettled(Take(s, clients, offered, step).0, clients, earlier)
  {
    hide Take, Settled, Keeps, Granted;
    TakeKeeps(s, clients, offered, step);
    var t := Take(s, clients, offered, step).0;
    if earlier.Enable? {
      EnabledStays(s, t, Names([step]), Perms([step]), earlier.target);
    } else if earlier.Grants? && step.Grants? {
      GrantKeeps(s, clients, offered, step.job);
      SettledFacts(t, clients, step.job);
      SettledKept(s, t, clients, earlier.job, {NameOf(step.job)}, {PermOf(step.job)});
    } else if earlier.Grants? {
      assert [step][0] == step && Names([step]) == {} && Perms([step]) == {};
      SettledKept(s, t, clients, earlier.job, {}, {});
    }
  }

  lemma EnabledStays(s: State, t: State, names: set<string>, perms: set<Perm>, target: string)
    requires Keeps(s, t, names, perms) && target in s.enabled
    ensures target in t.enabled
  {}

  lemma SettledFacts(s: State, clients: map<string, string>, j: Job)
    requires Settled(s, clients, j)
    ensures
      var i := IdOf(s.policies, NameOf(j));
      && i.Some? && s.policies[i.value].clients == Granted(clients, j)
      && PermOf(j) in s.permissions && s.permissions[PermOf(j)].strategy == Affirmative
  {}

  lemma {:induction false} SettledToTheEnd(s: State, clients: map<string, string>, offered: set<string>,
      steps: seq<Step>, earlier: Step)
    requires Valid(s, offered) && StepSettled(s, clients, earlier) && Run(s, clients, offered, steps).1 == Done
    requires Coherent(clients, [earlier] + steps)
    ensures StepSettled(Run(s, clients, offered, steps).0, clients, earlier)
    decreases |steps|
  {
    if steps != [] {
      assert earlier in [earlier] + steps && steps[0] in [earlier] + steps;
      assert forall st :: st in [earlier] + steps[1..] ==> st in [earlier] + steps;
      SettledStays(s, clients, offered, steps[0], earlier);
      TakeKeeps(s, clients, offered, steps[0]);
      SettledToTheEnd(Take(s, clients, offered, steps[0]).0, clients, offered, steps[1..], earlier);
    }
  }

  /** After a run every configured grant is in effect, whatever the server held before. */
  lemma {:induction false} RunSettles(s: State, clients: map<string, string>, offered: set<string>, steps: seq<Step>)
    requires Valid(s, offered) && Run(s, clients, offered, steps).1 == Done && Coherent(clients, steps)
    ensures forall st :: st in steps ==> StepSettled(Run(s, clients, offered, steps).0, clients, st)
    decreases |steps|
  {
    if steps != [] {
      assert steps == [steps[0]] + steps[1..];
      TakeKeeps(s, clients, offered, steps[0]);
      var t := Take(s, clients, offered, steps[0]).0;
      SettledToTheEnd(t, clients, offered, steps[1..], steps[0]);
      RunSettles(t, clients, offered, steps[1..]);
    }
  }

  /** A run writes nothing exactly when everything it is to settle is settled. */
  lemma {:induction false} NothingToWrite(s: State, clients: map<string, string>, offered: set<string>,
      steps: seq<Step>)
    requires Valid(s, offered) && Run(s, clients, offered, steps).1 == Done
    ensures
      var t := Run(s, clients, offered, steps).0;
      && (t.writes == s.writes <==> forall st :: st in steps ==> StepSettled(s, clients, st))
      && (t.writes == s.writes ==> t == s)
    decreases |steps|
  {
    if steps != [] {
      assert steps == [steps[0]] + steps[1..];
      TakeKeeps(s, clients, offered, steps[0]);
      var t := Take(s, clients, offered, steps[0]).0;
      RunKeeps(t, clients, offered, steps[1..]);
      NothingToWrite(t, clients, offered, steps[1..]);
    }
  }

  lemma SettledTogether(s: State, clients: map<string, string>, steps: seq<Step>)
    requires forall st :: st in steps ==> StepSettled(s, clients, st)
    ensures Coherent(clients, steps)
  {
    forall j, k | Grants(j) in steps && Grants(k) in steps && NameOf(j) == NameOf(k)
      ensures Granted(clients, j) == Granted(clients, k)
    {
      assert StepSettled(s, clients, Grants(j)) && StepSettled(s, clients, Grants(k));
    }
  }

  /** Running again succeeds, and writes nothing exactly when grants that share a policy name are for the same
      clients. */
  lemma SecondRun(s: State, clients: map<string, string>, offered: set<string>, ts: seq<Target>)
    requires Valid(s, offered) && Run(s, clients, offered, AllSteps(ts)).1 == Done
    ensures
      var t := Run(s, clients, offered, AllSteps(ts)).0;
      var (u, outcome) := Run(t, clients, offered, AllSteps(ts));
      && outcome == Done
      && (u.writes == t.writes <==> Coherent(clients, AllSteps(ts)))
      && (u.writes == t.writes ==> u == t)
  {
    var steps := AllSteps(ts);
    var t := Run(s, clients, offered, steps).0;
    RunKeeps(s, clients, offered, steps);
    AllStepsOrdered(s.enabled, ts);
    AllStepsOrdered(t.enabled, ts);
    RunSucceeds(s, clients, offered, steps);
    RunSucceeds(t, clients, offered, steps);
    forall st | st in steps ensures Feasible(t, clients, offered, st) {
      assert Feasible(s, clients, offered, st);
      if st.Grants? {
        NameFreeStays(s, t, Names(steps), Perms(steps), NameOf(st.job));
      }
    }
    NothingToWrite(t, clients, offered, steps);
    if Coherent(clients, steps) {
      RunSettles(s, clients, offered, steps);
    }
    if forall st :: st in steps ==> StepSettled(t, clients, st) {
      SettledTogether(t, clients, steps);
    }
  }

  /** What the config validators guarantee of the clients, and a server whose scope names have no dots. */
  predicate Sensible(ts: seq<Target>) {
    && (forall i, j :: 0 <= i < j < |ts| ==> ts[i].clientId != ts[j].clientId)
    && forall i, scope :: 0 <= i < |ts| && ts[i].scopes.Some? && scope in ts[i].scopes.value ==> '.' !in scope
  }

  lemma {:induction false} JobsComeFromTargets(ts: seq<Target>, j: Job)
    requires Grants(j) in AllSteps(ts)
    ensures exists i :: 0 <= i < |ts| && ts[i].scopes.Some? && j.scope in ts[i].scopes.value
                        && j == Job(ts[i].uuid, ts[i].clientId, j.scope, ts[i].scopes.value[j.scope])
    decreases |ts|
  {
    if Grants(j) in AllSteps(ts[1..]) {
      JobsComeFromTargets(ts[1..], j);
      var i :| 0 <= i < |ts[1..]| && ts[1..][i].scopes.Some? && j.scope in ts[1..][i].scopes.value
               && j == Job(ts[1..][i].uuid, ts[1..][i].clientId, j.scope, ts[1..][i].scopes.value[j.scope]);
      assert ts[i + 1] == ts[1..][i];
    } else {
      assert Grants(j) in TargetSteps(ts[0]);
      var scopes := ConfigMaps.SortedListing(ts[0].scopes.value.Keys);
      var n :| 0 <= n < |GrantSteps(ts[0], scopes)| && GrantSteps(ts[0], scopes)[n] == Grants(j);
      assert j.scope == scopes[n] && scopes[n] in scopes;
    }
  }

  /** The resource server is looked up whenever anybody has permissions to manage. */
  lemma {:induction false} ResourceServerNeeded(ts: seq<Target>)
    ensures NeedsResourceServer in AllSteps(ts) <==> exists i :: 0 <= i < |ts| && ts[i].scopes.Some?
    decreases |ts|
  {
    if ts != [] {
      ResourceServerNeeded(ts[1..]);
      assert forall i :: 0 <= i < |ts[1..]| ==> ts[1..][i] == ts[i + 1];
      assert forall i :: 0 < i < |ts| ==> ts[i] == ts[1..][i - 1];
      if ts[0].scopes.Some? {
        assert TargetSteps(ts[0])[1] == NeedsResourceServer;
      }
    }
  }

  lemma {:induction false} TargetsGiveJobs(ts: seq<Target>, i: nat, scope: string)
    requires i < |ts| && ts[i].scopes.Some? && scope in ts[i].scopes.value
    ensures Grants(Job(ts[i].uuid, ts[i].clientId, scope, ts[i].scopes.value[scope])) in AllSteps(ts)
    decreases |ts|
  {
    if i > 0 {
      TargetsGiveJobs(ts[1..], i - 1, scope);
    } else {
      var scopes := ConfigMaps.SortedListing(ts[0].scopes.value.Keys);
      assert scope in scopes;
      var n :| 0 <= n < |scopes| && scopes[n] == scope;
      assert GrantSteps(ts[0], scopes)[n] == Grants(Job(ts[0].uuid, ts[0].clientId, scope, ts[0].scopes.value[scope]));
      assert GrantSteps(ts[0], scopes)[n] in TargetSteps(ts[0]);
    }
  }

  /** With dot-free scopes no two grants share a policy, so a second run writes nothing. */
  lemma SensibleIsCoherent(clients: map<string, string>, ts: seq<Target>)
    requires Sensible(ts)
    ensures Coherent(clients, AllSteps(ts))
  {
    forall j, k | Grants(j) in AllSteps(ts) && Grants(k) in AllSteps(ts) && NameOf(j) == NameOf(k)
      ensures Granted(clients, j) == Granted(clients, k)
    {
      JobsComeFromTargets(ts, j);
      JobsComeFromTargets(ts, k);
      PolicyNameInjective(j.scope, j.clientId, k.scope, k.clientId);
    }
  }

  /** The state after so many runs in a row. */
  ghost function After(s: State, clients: map<string, string>, offered: set<string>, ts: seq<Target>, runs: nat)
    : State
  {
    if runs == 0 then s
    else Run(After(s, clients, offered, ts, runs - 1), clients, offered, AllSteps(ts)).0
  }

  /** Unless grants that share a policy name are for the same clients, the tool never comes to rest: every run after the
      first goes through, and writes. */
  lemma {:induction false} EveryRunWrites(s: State, clients: map<string, string>, offered: set<string>, ts: seq<Target>,
      runs: nat)
    requires Valid(s, offered) && Run(s, clients, offered, AllSteps(ts)).1 == Done && !Coherent(clients, AllSteps(ts))
    ensures
      var t := After(s, clients, offered, ts, runs);
      Valid(t, offered) && Run(t, clients, offered, AllSteps(ts)).1 == Done
    ensures runs > 0 ==>
      var t := After(s, clients, offered, ts, runs);
      Run(t, clients, offered, AllSteps(ts)).0.writes > t.writes
  {
    hide Valid, Run, Coherent;
    if runs > 0 {
      EveryRunWrites(s, clients, offered, ts, runs - 1);
      var t := After(s, clients, offered, ts, runs - 1);
      SecondRun(t, clients, offered, ts);
      RunKeeps(t, clients, offered, AllSteps(ts));
      var u := After(s, clients, offered, ts, runs);
      RunKeeps(u, clients, offered, AllSteps(ts));
      KeepsWrites(u, Run(u, clients, offered, AllSteps(ts)).0, Names(AllSteps(ts)), Perms(AllSteps(ts)));
    }
  }

  lemma KeepsWrites(s: State, t: State, names: set<string>, perms: set<Perm>)
    requires Keeps(s, t, names, perms)
    ensures s.writes <= t.writes
  {}

  /** Two targets with one scope each are two jobs. */
  lemma TwoJobs(ts: seq<Target>, j: Job, k: Job)
    requires ts == [Target(j.target, j.clientId, Some(map[j.scope := j.granted])),
                    Target(k.target, k.clientId, Some(map[k.scope := k.granted]))]
    ensures forall x :: Grants(x) in AllSteps(ts) <==> x == j || x == k
  {
    assert ts[0].scopes.value[j.scope] == j.granted && ts[1].scopes.value[k.scope] == k.granted;
    TargetsGiveJobs(ts, 0, j.scope);
    TargetsGiveJobs(ts, 1, k.scope);
    forall x | Grants(x) in AllSteps(ts) ensures x == j || x == k {
      JobsComeFromTargets(ts, x);
    }
    hide AllSteps;
  }

  /** Such a config: scope "a" of the client "b.c" for x, scope "a.b" of the client "c" for y. The first run over a
      server that offers both scopes goes through, and so, writing, does each one after it. */
  lemma SharedPolicyIsRewritten(runs: nat)
    requires runs > 0
    ensures
      var clients := map[REALM_MANAGEMENT := "rm", "x" := "ux", "y" := "uy"];
      var ts := [Target("u1", "b.c", Some(map["a" := ["x"]])), Target("u2", "c", Some(map["a.b" := ["y"]]))];
      var offered := {"a", "a.b"};
      var s := State({}, map[], map[], 0, 0);
      var t := After(s, clients, offered, ts, runs);
      var (u, outcome) := Run(t, clients, offered, AllSteps(ts));
      Run(s, clients, offered, AllSteps(ts)).1 == Done && outcome == Done && u.writes > t.writes
  {
    hide Run, AllSteps, Ordered, After, Coherent, NameOf, Granted;
    var clients := map[REALM_MANAGEMENT := "rm", "x" := "ux", "y" := "uy"];
    var ts := [Target("u1", "b.c", Some(map["a" := ["x"]])), Target("u2", "c", Some(map["a.b" := ["y"]]))];
    var offered, s := {"a", "a.b"}, State({}, map[], map[], 0, 0);
    var j, k := Job("u1", "b.c", "a", ["x"]), Job("u2", "c", "a.b", ["y"]);
    TwoJobs(ts, j, k);
    AllStepsOrdered({}, ts);
    RunSucceeds(s, clients, offered, AllSteps(ts));
    forall st | st in AllSteps(ts) ensures Feasible(s, clients, offered, st) {}
    SharedPolicyIsIncoherent(clients, AllSteps(ts), j, k);
    EveryRunWrites(s, clients, offered, ts, runs);
  }

  lemma SharedPolicyIsIncoherent(clients: map<string, string>, steps: seq<Step>, j: Job, k: Job)
    requires clients == map[REALM_MANAGEMENT := "rm", "x" := "ux", "y" := "uy"]
    requires j == Job("u1", "b.c", "a", ["x"]) && k == Job("u2", "c", "a.b", ["y"])
    requires Grants(j) in steps && Grants(k) in steps
    ensures !Coherent(clients, steps)
  {
    PolicyNamesCanCollide();
    assert NameOf(j) == NameOf(k);
    assert "x" in j.granted && clients["x"] == "ux" && "x"[0] != "y"[0] && "ux"[1] != "uy"[1];
    assert "ux" in Granted(clients, j);
    assert forall c :: c in k.granted ==> c == "y" && clients[c] == "uy";
    assert "ux" !in Granted(clients, k);
  }

  // ---------- what a permission allows ----------

  /** How a policy of another kind judges a client. */
  type Verdict = (Policy, string) -> bool

  predicate Passes(p: Policy, client: string, verdict: Verdict) {
    if p.isClient then (client in p.clients) == (p.logic == Positive) else verdict(p, client)
  }

  ghost predicate Allows(s: State, p: Perm, client: string, verdict: Verdict)
    requires p in s.permissions && s.permissions[p].attached <= s.policies.Keys
  {
    var attached := s.permissions[p].attached;
    var passing := set i | i in attached && Passes(s.policies[i], client, verdict);
    match s.permissions[p].strategy
    case Affirmative => passing != {}
    case Unanimous => attached != {} && passing == attached
    case Consensus => |passing| > |attached - passing|
  }

  /** A settled scope is granted to a client exactly when the config grants it (under the owned policy's own logic) or
      another attached policy passes. */
  lemma GrantTakesEffect(s: State, clients: map<string, string>, offered: set<string>, j: Job, client: string,
      verdict: Verdict)
    requires Valid(s, offered) && Settled(s, clients, j)
    ensures
      var own := IdOf(s.policies, NameOf(j)).value;
      Allows(s, PermOf(j), client, verdict) <==>
      ((client in Granted(clients, j)) == (s.policies[own].logic == Positive))
      || exists i :: i in s.permissions[PermOf(j)].attached && i != own && Passes(s.policies[i], client, verdict)
  {
    var own, attached := IdOf(s.policies, NameOf(j)).value, s.permissions[PermOf(j)].attached;
    var passing := set i | i in attached && Passes(s.policies[i], client, verdict);
    if passing != {} {
      var i :| i in passing;
    }
    assert own in attached;
    if Passes(s.policies[own], client, verdict) {
      assert own in passing;
    }
    if exists i :: i in attached && i != own && Passes(s.policies[i], client, verdict) {
      var i :| i in attached && i != own && Passes(s.policies[i], client, verdict);
      assert i in passing;
    }
  }

  /** A permission flipped to another strategy is put back by a single write, and nothing else changes. */
  lemma {:induction false} FlipIsRepaired(s: State, clients: map<string, string>, offered: set<string>,
      steps: seq<Step>, j: Job, strategy: Strategy)
    requires Valid(s, offered) && REALM_MANAGEMENT in clients && forall st :: st in steps ==>
        StepSettled(s, clients, st)
    requires strategy != Affirmative && Grants(j) in steps
    ensures
      PermOf(j) in s.permissions &&
      var p := PermOf(j);
      var flipped := s.(permissions := s.permissions[p := s.permissions[p].(strategy := strategy)]);
      Run(flipped, clients, offered, steps) == (s.(writes := s.writes + 1), Done)
    decreases |steps|
  {
    assert StepSettled(s, clients, Grants(j));
    var p := PermOf(j);
    var flipped := s.(permissions := s.permissions[p := s.permissions[p].(strategy := strategy)]);
    var repaired := s.(writes := s.writes + 1);
    var step, rest := steps[0], steps[1..];
    assert steps == [step] + rest;
    assert StepSettled(s, clients, step);
    if step.Grants? && PermOf(step.job) == p {
      var i := IdOf(s.policies, NameOf(step.job)).value;
      assert s.permissions[p].attached + {i} == s.permissions[p].attached;
      assert repaired.permissions == flipped.permissions[p := s.permissions[p]];
      assert Take(flipped, clients, offered, step) == (repaired, Done);
      forall st | st in rest ensures StepSettled(repaired, clients, st) {
        assert StepSettled(s, clients, st);
      }
      SettledRun(repaired, clients, offered, rest);
    } else {
      assert Take(flipped, clients, offered, step) == (flipped, Done);
      FlipIsRepaired(s, clients, offered, rest, j, strategy);
    }
  }

  lemma {:induction false} SettledRun(s: State, clients: map<string, string>, offered: set<string>, steps: seq<Step>)
    requires REALM_MANAGEMENT in clients && forall st :: st in steps ==> StepSettled(s, clients, st)
    ensures Run(s, clients, offered, steps) == (s, Done)
    decreases |steps|
  {
    if steps != [] {
      assert steps == [steps[0]] + steps[1..];
      assert StepSettled(s, clients, steps[0]);
      SettledRun(s, clients, offered, steps[1..]);
    }
  }

  // ---------- the server's endpoints ----------

  /** The permission ids a client answers with, by scope. */
  function PermIds(offered: set<string>, target: string): map<string, Perm> {
    map scope | scope in offered :: Perm(target, scope)
  }

  /** A client policy as the search lists it: its clients come in any order, possibly repeated. */
  datatype Listed = Listed(id: nat, name: string, clients: seq<string>, logic: Logic, rest: string)

  ghost predicate IsListed(policies: map<nat, Policy>, l: Listed) {
    l.id in policies && policies[l.id] == Policy(l.name, true, Elements(l.clients), l.logic, l.rest)
  }

  class AuthzServer {
    const clients: map<string, string>
    const offered: set<string>
    var state: State

    constructor (clients: map<string, string>, offered: set<string>, state: State)
      ensures this.clients == clients && this.offered == offered && this.state == state
    {
      this.clients, this.offered, this.state := clients, offered, state;
    }

    method FindClient(clientId: string) returns (uuid: Option<string>)
      ensures uuid == if clientId in clients then Some(clients[clientId]) else None
    {
      uuid := if clientId in clients then Some(clients[clientId]) else None;
    }

    method GetClientManagementPermissions(target: string) returns (enabled: bool, scopePermissions: map<string, Perm>)
      ensures enabled <==> target in state.enabled
      ensures enabled ==> scopePermissions == PermIds(offered, target)
    {
      enabled := target in state.enabled;
      scopePermissions := if enabled then PermIds(offered, target) else map[];
    }

    /** Idempotent as to its effect, but always a write. */
    method SetClientManagementPermissions(target: string) returns (scopePermissions: map<string, Perm>)
      modifies this
      ensures state == EnablePermissions(old(state), offered, target).(writes := old(state).writes + 1)
      ensures scopePermissions == PermIds(offered, target)
    {
      state := EnablePermissions(state, offered, target).(writes := state.writes + 1);
      scopePermissions := PermIds(offered, target);
    }

    /** Client policies whose name contains `name`, in any order. */
    method GetAuthzClientPolicies(name: string) returns (found: seq<Listed>)
      ensures forall l :: l in found ==> IsListed(state.policies, l)
      ensures forall i ::
                i in state.policies && state.policies[i].isClient && Contains(state.policies[i].name, name) ==>
                  exists l :: l in found && l.id == i
    {
      found := [];
      var rest := state.policies.Keys;
      while rest != {}
        invariant rest <= state.policies.Keys
        invariant forall l :: l in found ==> IsListed(state.policies, l)
        invariant forall i ::
                    i in state.policies.Keys - rest && state.policies[i].isClient &&
                    Contains(state.policies[i].name, name) ==>
                      exists l :: l in found && l.id == i
        decreases rest
      {
        var i :| i in rest;
        rest := rest - {i};
        var p := state.policies[i];
        if p.isClient && Contains(p.name, name) {
          var clients := ToList(p.clients);
          var l := Listed(i, p.name, clients, p.logic, p.rest);
          assert l in found + [l];
          found := found + [l];
        }
      }
    }

    /** Refused when a policy of any kind has the name. */
    method CreateAuthzClientPolicy(name: string, description: string, clients: seq<string>) returns (id: Option<nat>)
      modifies this
      ensures (exists i :: IsNamed(old(state).policies, name, i)) ==> id == None && state == old(state)
      ensures !(exists i :: IsNamed(old(state).policies, name, i)) ==>
                && id == Some(old(state).next)
                && state == old(state).(
                  policies := old(state).policies[
                    old(state).next := Policy(name, true, Elements(clients), Positive, description)],
                                        next := old(state).next + 1, writes := old(state).writes + 1)
    {
      if exists i :: i in state.policies && state.policies[i].name == name {
        ghost var i :| i in state.policies && state.policies[i].name == name;
        assert IsNamed(state.policies, name, i);
        return None;
      }
      id := Some(state.next);
      state := state.(policies := state.policies[state.next := Policy(name, true, Elements(clients), Positive,
        description)],
                      next := state.next + 1, writes := state.writes + 1);
    }

    /** Replaces the policy with the representation sent. */
    method UpdateAuthzClientPolicy(id: nat, body: Listed)
      requires id in state.policies
      modifies this
      ensures state == old(state).(policies := old(state).policies[id := Policy(body.name, true,
          Elements(body.clients), body.logic, body.rest)],
                                   writes := old(state).writes + 1)
    {
      state := state.(policies := state.policies[id := Policy(body.name, true, Elements(body.clients), body.logic,
        body.rest)],
                      writes := state.writes + 1);
    }

    /** The only way to learn what is attached; in any order. */
    method GetAuthzAssociatedPolicies(p: Perm) returns (ids: seq<nat>)
      requires p in state.permissions
      ensures Elements(ids) == state.permissions[p].attached
    {
      ids := ToList(state.permissions[p].attached);
    }

    /** The representation omits the attached policies. */
    method GetAuthzScopePermission(p: Perm) returns (strategy: Strategy, rest: string)
      requires p in state.permissions
      ensures strategy == state.permissions[p].strategy && rest == state.permissions[p].rest
    {
      strategy, rest := state.permissions[p].strategy, state.permissions[p].rest;
    }

    /** Replaces the permission; whatever is not in `policies` is detached. */
    method UpdateAuthzScopePermission(p: Perm, policies: seq<nat>, strategy: Strategy, rest: string)
      requires p in state.permissions
      modifies this
      ensures state == old(state).(permissions := old(state).permissions[p := Permission(Elements(policies), strategy,
          rest)],
                                   writes := old(state).writes + 1)
    {
      state := state.(permissions := state.permissions[p := Permission(Elements(policies), strategy, rest)],
        writes := state.writes + 1);
    }
  }

  // ---------- the reconciler ----------

  /** Client UUIDs looked up so far. */
  class ClientIndex {
    var uuids: map<string, string>

    constructor (uuids: map<string, string>)
      ensures this.uuids == uuids
    {
      this.uuids := uuids;
    }
  }

  /** Whatever the index remembers is what a lookup would answer; no index is fine too. */
  ghost predicate Agrees(index: ClientIndex?, clients: map<string, string>)
    reads index
  {
    index != null ==> forall c :: c in index.uuids ==> c in clients && clients[c] == index.uuids[c]
  }

  lemma SubsetOfSameSize(a: set<string>, b: set<string>)
    requires a <= b && |a| == |b|
    ensures a == b
  {
    assert b == a + (b - a);
    assert |b| == |a| + |b - a|;
  }

  /** Same values, whatever the order and however often. */
  method SameStringSet(a: seq<string>, b: seq<string>) returns (same: bool)
    ensures same <==> Elements(a) == Elements(b)
  {
    var inA, inB := Elements(a), Elements(b);
    if |inA| != |inB| {
      return false;
    }
    var rest := inA;
    while rest != {}
      invariant rest <= inA && inA - rest <= inB
      decreases rest
    {
      var x :| x in rest;
      rest := rest - {x};
      if x !in inB {
        return false;
      }
    }
    SubsetOfSameSize(inA, inB);
    same := true;
  }

  lemma GrantedOneMore(clients: map<string, string>, j: Job, n: nat)
    requires n < |j.granted| && j.granted[n] in clients
    ensures Granted(clients, j.(granted := j.granted[..n + 1])) ==
            Granted(clients, j.(granted := j.granted[..n])) + {clients[j.granted[n]]}
  {
    assert j.granted[..n + 1] == j.granted[..n] + [j.granted[n]];
  }

  lemma RunStep(s: State, clients: map<string, string>, offered: set<string>, steps: seq<Step>)
    ensures steps == [] ==> Run(s, clients, offered, steps) == (s, Done)
    ensures steps != [] ==>
      var (t, outcome) := Take(s, clients, offered, steps[0]);
      Run(s, clients, offered, steps) == if outcome != Done then (t, outcome) else Run(t, clients, offered, steps[1..])
  {}

  lemma TargetStepsAre(s: State, clients: map<string, string>, offered: set<string>, t: Target)
    ensures t.scopes.None? ==> Run(s, clients, offered, TargetSteps(t)) == (s, Done)
    ensures t.scopes.Some? ==>
      var u := EnablePermissions(s, offered, t.uuid);
      Run(s, clients, offered, TargetSteps(t)) ==
      if REALM_MANAGEMENT !in clients then (u, NotFound)
      else Run(u, clients, offered, GrantSteps(t, ConfigMaps.SortedListing(t.scopes.value.Keys)))
  {
    if t.scopes.Some? {
      var all, rest := TargetSteps(t), GrantSteps(t, ConfigMaps.SortedListing(t.scopes.value.Keys));
      assert all[0] == Enable(t.uuid) && all[1..][0] == NeedsResourceServer && all[1..][1..] == rest;
      hide GrantSteps, EnablePermissions, TargetSteps;
      RunStep(s, clients, offered, all);
      RunStep(EnablePermissions(s, offered, t.uuid), clients, offered, all[1..]);
    }
  }

  lemma OfferedIsThere(s: State, offered: set<string>, j: Job)
    requires Valid(s, offered) && j.target in s.enabled
    ensures PermOf(j) in s.permissions <==> j.scope in offered
  {}

  class Provisioner {
    const server: AuthzServer

    constructor (server: AuthzServer)
      ensures this.server == server
    {
      this.server := server;
    }

    /** The index first, then the server; what the server answers is remembered. */
    method ResolveIndexedClientUUID(index: ClientIndex?, clientId: string) returns (uuid: Option<string>)
      requires Agrees(index, server.clients)
      modifies index
      ensures Agrees(index, server.clients)
      ensures uuid == if clientId in server.clients then Some(server.clients[clientId]) else None
    {
      if index != null && clientId in index.uuids {
        return Some(index.uuids[clientId]);
      }
      uuid := server.FindClient(clientId);
      if uuid.Some? && index != null {
        index.uuids := index.uuids[clientId := uuid.value];
      }
    }

    method EnableManagementPermissions(target: string) returns (scopePermissions: map<string, Perm>)
      modifies server
      ensures server.state == EnablePermissions(old(server.state), server.offered, target)
      ensures scopePermissions == PermIds(server.offered, target)
    {
      var enabled, current := server.GetClientManagementPermissions(target);
      if enabled {
        return current;
      }
      scopePermissions := server.SetClientManagementPermissions(target);
    }

    /** The search matches substrings; only the exact name will do. */
    method FindManagementPolicy(name: string) returns (found: Option<Listed>)
      ensures found.Some? ==> IsListed(server.state.policies, found.value) && found.value.name == name
      ensures found.None? ==> forall i :: i in server.state.policies && server.state.policies[i].isClient ==>
                server.state.policies[i].name != name
    {
      var matches := server.GetAuthzClientPolicies(name);
      for n := 0 to |matches|
        invariant forall m :: 0 <= m < n ==> matches[m].name != name
      {
        if matches[n].name == name {
          return Some(matches[n]);
        }
      }
      found := None;
      assert Contains(name, name) by {
        assert name <= name[0..];
      }
      assert forall l :: l in matches ==> l.name != name && IsListed(server.state.policies, l);
    }

    method EnsureManagementPolicy(j: Job, uuids: seq<string>) returns (id: Option<nat>)
      requires NamesUnique(server.state.policies)
      modifies server
      ensures (server.state, id) == EnsurePolicy(old(server.state), j, Elements(uuids))
      ensures (forall i :: i in old(server.state).policies ==> i < old(server.state).next) ==>
                if id.Some? then IsOwned(old(server.state), server.state, j, Elements(uuids), id.value)
                else server.state == old(server.state)
    {
      if forall i :: i in server.state.policies ==> i < server.state.next {
        PolicyIsOwned(server.state, j, Elements(uuids));
      }
      hide IsOwned;
      var name := NameOf(j);
      var existing := FindManagementPolicy(name);
      if existing.None? {
        ghost var held := IdOf(server.state.policies, name);
        id := server.CreateAuthzClientPolicy(name, Description(j.scope, j.clientId), uuids);
        assert held.None? ==> forall i :: !IsNamed(old(server.state).policies, name, i);
        return;
      }
      IdIsUnique(server.state.policies, name, existing.value.id);
      id := Some(existing.value.id);
      var same := SameStringSet(existing.value.clients, uuids);
      if same {
        return;
      }
      var body := existing.value.(clients := uuids);
      server.UpdateAuthzClientPolicy(existing.value.id, body);
    }

    method AttachManagementPolicy(p: Perm, policy: nat)
      requires p in server.state.permissions
      modifies server
      ensures server.state == Attach(old(server.state), p, policy)
      ensures server.state.permissions ==
              old(server.state).permissions[p := Permission(old(server.state).permissions[p].attached + {policy},
                                                            Affirmative, old(server.state).permissions[p].rest)]
    {
      var attached := server.GetAuthzAssociatedPolicies(p);
      var alreadyAttached := false;
      var others: seq<nat> := [];
      for n := 0 to |attached|
        invariant alreadyAttached <==> policy in attached[..n]
      {
        if attached[n] == policy {
          alreadyAttached := true;
          continue;
        }
        others := others + [attached[n]];
      }
      assert attached[..|attached|] == attached;
      var strategy, rest := server.GetAuthzScopePermission(p);
      if alreadyAttached && strategy == Affirmative {
        ghost var q := server.state.permissions[p];
        assert q == Permission(q.attached + {policy}, Affirmative, q.rest);
        return;
      }
      var policies := if alreadyAttached then attached else attached + [policy];
      assert Elements(policies) == Elements(attached) + {policy};
      server.UpdateAuthzScopePermission(p, policies, Affirmative, rest);
    }

    method EnsureManagementPermissionScope(j: Job, index: ClientIndex?) returns (outcome: Outcome)
      requires Valid(server.state, server.offered) && PermOf(j) in server.state.permissions
      requires Agrees(index, server.clients)
      modifies server, index
      ensures Agrees(index, server.clients)
      ensures (server.state, outcome) == Take(old(server.state), server.clients, server.offered, Grants(j))
    {
      hide IsOwned;
      var uuids: seq<string> := [];
      for n := 0 to |j.granted|
        invariant server.state == old(server.state) && Agrees(index, server.clients)
        invariant forall c :: c in j.granted[..n] ==> c in server.clients
        invariant Elements(uuids) == Granted(server.clients, j.(granted := j.granted[..n]))
      {
        var uuid := ResolveIndexedClientUUID(index, j.granted[n]);
        if uuid.None? {
          assert !AllKnown(server.clients, j);
          return NotFound;
        }
        assert j.granted[..n + 1] == j.granted[..n] + [j.granted[n]];
        assert Elements(uuids + [uuid.value]) == Elements(uuids) + {uuid.value};
        GrantedOneMore(server.clients, j, n);
        uuids := uuids + [uuid.value];
      }
      assert j.granted[..|j.granted|] == j.granted;
      PolicyKeeps(server.state, server.offered, j, Elements(uuids));
      var id := EnsureManagementPolicy(j, uuids);
      if id.None? {
        return Refused;
      }
      AttachManagementPolicy(PermOf(j), id.value);
      outcome := Done;
    }

    /** The configured scopes of one client, in the order given. */
    method EnsureScopes(t: Target, scopes: seq<string>, scopePermissions: map<string, Perm>, index: ClientIndex?)
        returns (outcome: Outcome)
      requires Valid(server.state, server.offered) && Agrees(index, server.clients) && t.uuid in server.state.enabled
      requires t.scopes.Some? && (forall x :: x in scopes ==> x in t.scopes.value) &&
          scopePermissions == PermIds(server.offered, t.uuid)
      modifies server, index
      ensures Valid(server.state, server.offered) && Agrees(index, server.clients)
      ensures (server.state, outcome) == Run(old(server.state), server.clients, server.offered, GrantSteps(t, scopes))
    {
      hide Valid, Run, EnsurePolicy, Attach, Granted, IdOf;
      ghost var steps := GrantSteps(t, scopes);
      for n := 0 to |scopes|
        invariant Valid(server.state, server.offered) && Agrees(index, server.clients) && t.uuid in server.state.enabled
        invariant Run(old(server.state), server.clients, server.offered, steps)
                  == Run(server.state, server.clients, server.offered, steps[n..])
      {
        var scope := scopes[n];
        assert scope in scopes;
        var j := Job(t.uuid, t.clientId, scope, t.scopes.value[scope]);
        assert steps[n..][0] == Grants(j) && steps[n..][1..] == steps[n + 1..];
        RunStep(server.state, server.clients, server.offered, steps[n..]);
        TakeKeeps(server.state, server.clients, server.offered, Grants(j));
        OfferedIsThere(server.state, server.offered, j);
        if scope !in scopePermissions {
          return NotFound;
        }
        outcome := EnsureManagementPermissionScope(j, index);
        if outcome != Done {
          return;
        }
      }
      assert steps[|scopes|..] == [];
      RunStep(server.state, server.clients, server.offered, []);
      outcome := Done;
    }

    /** One client: enable, find the resource server, then the scopes in sorted order. */
    method EnsureManagementPermissions(t: Target, index: ClientIndex?) returns (outcome: Outcome)
      requires Valid(server.state, server.offered) && Agrees(index, server.clients)
      modifies server, index
      ensures Valid(server.state, server.offered) && Agrees(index, server.clients)
      ensures (server.state, outcome) == Run(old(server.state), server.clients, server.offered, TargetSteps(t))
    {
      TargetStepsAre(server.state, server.clients, server.offered, t);
      hide Valid, Run, TargetSteps, EnablePermissions;
      if t.scopes.None? {
        return Done;
      }
      var scopes := ConfigMaps.SortedKeys(t.scopes.value.Keys);
      ConfigMaps.SortedListingIsUnique(scopes, ConfigMaps.SortedListing(t.scopes.value.Keys), t.scopes.value.Keys);
      EnableKeeps(server.state, server.offered, t.uuid);
      var scopePermissions := EnableManagementPermissions(t.uuid);
      var resourceServer := ResolveIndexedClientUUID(index, REALM_MANAGEMENT);
      if resourceServer.None? {
        return NotFound;
      }
      outcome := EnsureScopes(t, scopes, scopePermissions, index);
    }

    /** The deferred targets of a realm, in the order their clients were declared. */
    method EnsureAll(ts: seq<Target>, index: ClientIndex?) returns (outcome: Outcome)
      requires Valid(server.state, server.offered) && Agrees(index, server.clients)
      modifies server, index
      ensures Valid(server.state, server.offered) && Agrees(index, server.clients)
      ensures (server.state, outcome) == Run(old(server.state), server.clients, server.offered, AllSteps(ts))
    {
      for n := 0 to |ts|
        invariant Valid(server.state, server.offered) && Agrees(index, server.clients)
        invariant Run(old(server.state), server.clients, server.offered, AllSteps(ts))
                  == Run(server.state, server.clients, server.offered, AllSteps(ts[n..]))
      {
        assert ts[n..][1..] == ts[n + 1..];
        RunConcat(server.state, server.clients, server.offered, TargetSteps(ts[n]), AllSteps(ts[n + 1..]));
        outcome := EnsureManagementPermissions(ts[n], index);
        if outcome != Done {
          return;
        }
      }
      outcome := Done;
    }
  }
}
