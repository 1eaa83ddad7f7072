/** Creating authentication flows (internal/provisioner/auth_flows.go). */
module AuthFlows {
  import opened Lists
  import opened Text
  import opened FlowConfig
  import opened FlowServer

  datatype Status = Done | BuiltInFlow | Refused

  function FlowProviderId(providerId: string): string {
    if providerId == "" then "basic-flow" else providerId
  }

  function ExecutionLabel(e: Execution): string {
    if e.subflow != "" then e.subflow else e.provider
  }

  /** "alias" names the settings; without one, a name is derived from the flow and the execution. */
  function SettingsFor(flowAlias: string, e: Execution): Settings {
    var alias := if "alias" in e.config then e.config["alias"] else "";
    Settings(if alias == "" then flowAlias + "-" + ExecutionLabel(e) else alias, e.config - {"alias"})
  }

  // ---------- the tree a config declares ----------

  /** How the server fills in what the config leaves open. */
  datatype Defaults = Defaults(requirement: string -> string, subflow: string)

  function RequirementOf(d: Defaults, e: Execution): string {
    if e.requirement != "" then e.requirement
    else if e.subflow != "" then d.subflow else d.requirement(e.provider)
  }

  /** The declared node, with its id erased. */
  function Expected(d: Defaults, flowAlias: string, e: Execution): Node
    decreases e
  {
    Node(0, RequirementOf(d, e), if e.config == map[] then None else Some(SettingsFor(flowAlias, e)),
         if e.subflow != "" then
           Sub(e.subflow, FlowInfo(FlowProviderId(e.providerId), e.description, false),
             ExpectedAll(d, e.subflow, e.executions))
         else Leaf(e.provider))
  }

  function ExpectedAll(d: Defaults, flowAlias: string, es: seq<Execution>): Forest
    decreases es
  {
    seq(|es|, i requires 0 <= i < |es| => Expected(d, flowAlias, es[i]))
  }

  lemma {:induction false} ExpectedAliases(d: Defaults, flowAlias: string, es: seq<Execution>, a: string)
    ensures HasAlias(ExpectedAll(d, flowAlias, es), a) <==> a in Aliases(es)
    decreases es
  {
    var ns := ExpectedAll(d, flowAlias, es);
    if es == [] {
    } else {
      var front, e := es[..|es| - 1], es[|es| - 1];
      ExpectedAliases(d, flowAlias, front, a);
      if e.subflow != "" {
        ExpectedAliases(d, e.subflow, e.executions, a);
      }
      var n := Expected(d, flowAlias, e);
      assert ns == ExpectedAll(d, flowAlias, front) + [n];
      HasAliasConcat(ExpectedAll(d, flowAlias, front), [n], a);
      assert HasAlias([n], a) <==> NodeHasAlias(n, a) by {
        assert [n][0] == n;
      }
    }
  }

  /** The aliases of nodes that look like the declared ones are the declared aliases. */
  lemma AddedAliases(d: Defaults, flowAlias: string, es: seq<Execution>, ns: Forest)
    requires Shape(ns) == ExpectedAll(d, flowAlias, es)
    ensures forall a :: HasAlias(ns, a) <==> a in Aliases(es)
  {
    forall a ensures HasAlias(ns, a) <==> a in Aliases(es) {
      ExpectedAliases(d, flowAlias, es, a);
      ShapeAliases(ns, a);
    }
  }

  // ---------- what the config says of a created node, field by field ----------

  /** The config's entries but "alias", and the name it gives them or, without one, the flow's and the execution's. */
  predicate SettingsAre(flowAlias: string, e: Execution, settings: Option<Settings>) {
    && (settings.None? <==> e.config == map[])
    && (settings.Some? ==>
          && (forall k :: k in settings.value.entries.Keys + e.config.Keys ==>
                (k in settings.value.entries <==> k in e.config && k != "alias"))
          && (forall k :: k in settings.value.entries ==> settings.value.entries[k] == e.config[k])
          && ("alias" in e.config && e.config["alias"] != "" ==> settings.value.alias == e.config["alias"])
          && ("alias" !in e.config || e.config["alias"] == "" ==>
                settings.value.alias == flowAlias + "-" + (if e.subflow == "" then e.provider else e.subflow)))
  }

  /** The configured requirement or, without one, what the server gives. */
  predicate RequirementIs(d: Defaults, e: Execution, requirement: string) {
    && (e.requirement != "" ==> requirement == e.requirement)
    && (e.requirement == "" && e.subflow == "" ==> requirement == d.requirement(e.provider))
    && (e.requirement == "" && e.subflow != "" ==> requirement == d.subflow)
  }

  /** A flow of the configured type, basic without one, that is not built in. */
  predicate InfoIs(providerId: string, description: string, info: FlowInfo) {
    && !info.builtIn && info.description == description
    && (providerId != "" ==> info.kind == providerId) && (providerId == "" ==> info.kind == "basic-flow")
  }

  predicate NodeIs(d: Defaults, flowAlias: string, e: Execution, n: Node)
    decreases e
  {
    && RequirementIs(d, e, n.requirement) && SettingsAre(flowAlias, e, n.settings)
    && (e.subflow == "" ==> n.body == Leaf(e.provider))
    && (e.subflow != "" ==>
          && n.body.Sub? && n.body.alias == e.subflow && InfoIs(e.providerId, e.description, n.body.info)
          && NodesAre(d, e.subflow, e.executions, n.body.children))
  }

  /** One node for each execution, in order. */
  predicate NodesAre(d: Defaults, flowAlias: string, es: seq<Execution>, ns: Forest)
    decreases es
  {
    |ns| == |es| && forall i :: 0 <= i < |es| ==> NodeIs(d, flowAlias, es[i], ns[i])
  }

  lemma {:induction false} ExpectedNodeIs(d: Defaults, flowAlias: string, e: Execution, n: Node)
    requires ShapeNode(n) == Expected(d, flowAlias, e)
    ensures NodeIs(d, flowAlias, e, n)
    decreases e
  {
    if e.subflow != "" {
      ExpectedNodesAre(d, e.subflow, e.executions, n.body.children);
    }
  }

  lemma {:induction false} ExpectedNodesAre(d: Defaults, flowAlias: string, es: seq<Execution>, ns: Forest)
    requires Shape(ns) == ExpectedAll(d, flowAlias, es)
    ensures NodesAre(d, flowAlias, es, ns)
    decreases es
  {
    assert |Shape(ns)| == |ns| && |ExpectedAll(d, flowAlias, es)| == |es|;
    forall i | 0 <= i < |es| ensures NodeIs(d, flowAlias, es[i], ns[i]) {
      assert ShapeNode(ns[i]) == Shape(ns)[i] == ExpectedAll(d, flowAlias, es)[i] == Expected(d, flowAlias, es[i]);
      ExpectedNodeIs(d, flowAlias, es[i], ns[i]);
    }
  }

  /** A created flow: what it was copied from, if anything, and then the declared executions. */
  ghost predicate FlowIs(d: Defaults, ns: Forest, f: Flow, n: Node) {
    var copied := |Inherited(ns, f)|;
    && n.body.Sub? && n.body.alias == f.alias && !n.body.info.builtIn
    && (f.copyFrom == "" ==> copied == 0 && InfoIs(f.providerId, f.description, n.body.info))
    && |n.body.children| == copied + |f.executions|
    && NodesAre(d, f.alias, f.executions, n.body.children[copied..])
  }

  lemma DeclaredFlowIs(d: Defaults, ns: Forest, f: Flow, n: Node)
    requires IsDeclaredFlow(d, ns, f, n)
    ensures FlowIs(d, ns, f, n)
  {
    hide Shape, ExpectedAll, Inherited, NodesAre;
    var children, copied, declared := n.body.children, |Inherited(ns, f)|, ExpectedAll(d, f.alias, f.executions);
    OneForEach(d, f.alias, f.executions);
    ShapeTail(children, copied);
    assert Shape(children)[copied..] == declared;
    ExpectedNodesAre(d, f.alias, f.executions, children[copied..]);
    if f.copyFrom == "" {
      NothingInherited(ns, f);
    }
  }

  lemma OneForEach(d: Defaults, flowAlias: string, es: seq<Execution>)
    ensures |ExpectedAll(d, flowAlias, es)| == |es|
  {}

  lemma NothingInherited(ns: Forest, f: Flow)
    requires f.copyFrom == ""
    ensures Inherited(ns, f) == []
  {}

  lemma ShapeTail(ns: Forest, k: nat)
    ensures |Shape(ns)| == |ns| && (k <= |ns| ==> Shape(ns[k..]) == Shape(ns)[k..])
  {}

  // ---------- the reconciler ----------

  function Matches(e: Execution): Row -> bool {
    if e.subflow != "" then (row: Row) => row.isFlow && row.displayName == e.subflow
    else (row: Row) => !row.isFlow && row.providerId == e.provider
  }

  /** The loop that keeps overwriting `found` with each match. */
  method LastMatch(rows: seq<Row>, match': Row -> bool) returns (found: Option<Row>)
    ensures found.None? ==> forall i :: 0 <= i < |rows| ==> !match'(rows[i])
    ensures found.Some? ==> exists i :: 0 <= i < |rows| && rows[i] == found.value && match'(rows[i])
                                        && forall j :: i < j < |rows| ==> !match'(rows[j])
  {
    found := None;
    for i := 0 to |rows|
      invariant found.None? ==> forall j :: 0 <= j < i ==> !match'(rows[j])
      invariant found.Some? ==> exists k :: 0 <= k < i && rows[k] == found.value && match'(rows[k])
                                            && forall j :: k < j < i ==> !match'(rows[j])
    {
      if match'(rows[i]) {
        found := Some(rows[i]);
      }
    }
  }

  function Raw(e: Execution, id: nat, d: Defaults): Node {
    if e.subflow != "" then
      Node(id, d.subflow, None, Sub(e.subflow, FlowInfo(FlowProviderId(e.providerId), e.description, false), []))
    else Node(id, d.requirement(e.provider), None, Leaf(e.provider))
  }

  /** The appended entry once its requirement and settings are set. */
  function Final(d: Defaults, flowAlias: string, e: Execution, id: nat): Node {
    Raw(e, id, d).(requirement := RequirementOf(d, e),
                   settings := if e.config == map[] then None else Some(SettingsFor(flowAlias, e)))
  }

  /** None of the declared aliases is in use, and none is declared twice. */
  ghost predicate Unused(ns: Forest, aliases: seq<string>) {
    Distinct(aliases) && forall a :: a in aliases ==> !HasAlias(ns, a)
  }

  /** What a copy brings along, as the server will show it. */
  function Inherited(ns: Forest, f: Flow): Forest {
    if f.copyFrom == "" || TopLevel(ns, f.copyFrom).None? then []
    else CopiedShape(TopLevel(ns, f.copyFrom).value.body.children, f.alias)
  }

  /** The server can take the request for the flow itself. */
  predicate TopAccepted(ns: Forest, f: Flow) {
    if f.copyFrom != "" then CopyAccepted(ns, f.copyFrom, f.alias) else !HasAlias(ns, f.alias)
  }

  /** The server can take every request the flow leads to. */
  ghost predicate Creatable(ns: Forest, f: Flow) {
    && Unused(ns, FlowAliases(f))
    && (f.copyFrom != "" ==> CopyAccepted(ns, f.copyFrom, f.alias))
    && forall a :: a in Aliases(f.executions) ==> !HasAlias(Inherited(ns, f), a)
  }

  /** A new flow, not built in, that holds the copied executions followed by the declared ones. */
  ghost predicate IsDeclaredFlow(d: Defaults, ns: Forest, f: Flow, n: Node) {
    && n.body.Sub? && n.body.alias == f.alias && !n.body.info.builtIn
    && (f.copyFrom == "" ==> n.body.info == FlowInfo(FlowProviderId(f.providerId), f.description, false))
    && Shape(n.body.children) == Inherited(ns, f) + ExpectedAll(d, f.alias, f.executions)
  }

  class Provisioner {
    const server: Server

    constructor (server: Server)
      ensures this.server == server
    {
      this.server := server;
    }

    ghost function D(): Defaults {
      Defaults(server.defaultRequirement, server.subflowRequirement)
    }

    /** Reads the listing back and keeps the last match, which is the entry just appended. */
    method FindAppended(flowAlias: string, e: Execution, ghost before: Forest, ghost id: nat)
        returns (found: Option<Row>)
      requires HasAlias(before, flowAlias) && server.forest == Extend(before, flowAlias, [Raw(e, id, D())])
      ensures found == Some(RowOf(Raw(e, id, D()), 0))
    {
      ghost var raw := Raw(e, id, D());
      AppendedIsListedLast(before, flowAlias, raw);
      ExtendAliases(before, flowAlias, [raw], flowAlias);
      var listing := server.GetAuthenticationFlowExecutions(flowAlias);
      found := LastMatch(listing.value, Matches(e));
      assert Matches(e)(listing.value[|listing.value| - 1]);
    }

    method SetRequirementOf(flowAlias: string, e: Execution, row: Row, ghost before: Forest, ghost raw: Node)
        returns (status: Status)
      requires HasAlias(before, flowAlias) && !HasId(before, raw.id) && Childless(raw) && row == RowOf(raw, 0)
      requires server.forest == Extend(before, flowAlias, [raw])
      modifies server
      ensures status == Done && server.nextId == old(server.nextId)
      ensures server.forest ==
              Extend(before, flowAlias, [if e.requirement == "" then raw else raw.(requirement := e.requirement)])
    {
      if e.requirement != "" {
        PatchNew(before, flowAlias, raw, SetRequirement(e.requirement));
        AppendedHasId(before, flowAlias, raw);
        var ok := server.UpdateAuthenticationFlowExecution(flowAlias, row.(requirement := e.requirement));
        if !ok {
          return Refused;
        }
      }
      status := Done;
    }

    method SetConfigOf(flowAlias: string, e: Execution, id: nat, ghost before: Forest, ghost raw: Node)
        returns (status: Status)
      requires HasAlias(before, flowAlias) && !HasId(before, raw.id) && Childless(raw) && id == raw.id
      requires server.forest == Extend(before, flowAlias, [raw])
      modifies server
      ensures status == Done && server.nextId == old(server.nextId)
      ensures server.forest ==
              Extend(before, flowAlias, [if e.config == map[] then raw
                else raw.(settings := Some(SettingsFor(flowAlias, e)))])
    {
      if |e.config| != 0 {
        PatchNew(before, flowAlias, raw, SetSettings(SettingsFor(flowAlias, e)));
        AppendedHasId(before, flowAlias, raw);
        var ok := server.CreateAuthenticationExecutionConfig(id, SettingsFor(flowAlias, e));
        if !ok {
          return Refused;
        }
      }
      status := Done;
    }

    /** Gives the entry just appended its requirement and settings. */
    method FinalizeExecution(flowAlias: string, e: Execution, ghost before: Forest, ghost id: nat)
        returns (status: Status)
      requires server.Valid() && HasAlias(before, flowAlias) && !HasId(before, id)
      requires server.forest == Extend(before, flowAlias, [Raw(e, id, D())])
      modifies server
      ensures status == Done && server.nextId == old(server.nextId) && server.Valid()
      ensures server.forest == Extend(before, flowAlias, [Final(D(), flowAlias, e, id)])
      ensures RequirementIs(D(), e, Final(D(), flowAlias, e, id).requirement)
      ensures SettingsAre(flowAlias, e, Final(D(), flowAlias, e, id).settings)
    {
      if e.requirement == "" && |e.config| == 0 {
        return Done;
      }
      ghost var raw := Raw(e, id, D());
      var found := FindAppended(flowAlias, e, before, id);
      SameIds(before, flowAlias, raw, Final(D(), flowAlias, e, id), server.nextId);
      status := SetRequirementOf(flowAlias, e, found.value, before, raw);
      ghost var required := raw.(requirement := RequirementOf(D(), e));
      assert server.forest == Extend(before, flowAlias, [required]);
      status := SetConfigOf(flowAlias, e, found.value.id, before, required);
      StillFlows(before, flowAlias, [Final(D(), flowAlias, e, id)], [raw]);
    }

    /** Appends the declared executions in order; a clash of aliases is refused by the server and ends the run. */
    method CreateFlowExecutions(flowAlias: string, es: seq<Execution>) returns (status: Status, ghost added: Forest)
      requires server.Valid() && HasAlias(server.forest, flowAlias)
      modifies server
      ensures server.Valid() && status != BuiltInFlow
      ensures forall a :: HasAlias(old(server.forest), a) ==> HasAlias(server.forest, a)
      ensures status == Done <==> Unused(old(server.forest), Aliases(es))
      ensures status == Done ==> IsAppended(D(), old(server.forest), flowAlias, es, added, server.forest)
      ensures status == Done ==> NodesAre(D(), flowAlias, es, added)
      decreases es
    {
      added := [];
      ghost var start := server.forest;
      ExtendNothing(start, flowAlias);
      for i := 0 to |es|
        invariant server.Valid() && forall a :: HasAlias(start, a) ==> HasAlias(server.forest, a)
        invariant Unused(start, Aliases(es[..i])) && IsAppended(D(), start, flowAlias, es[..i], added, server.forest)
      {
        var e := es[i];
        ghost var before, front := server.forest, added;
        OneMoreUnused(D(), start, flowAlias, es, i, added);
        ghost var n;
        if e.subflow != "" {
          status, n := CreateSubflow(flowAlias, e);
        } else {
          status, n := CreateProvider(flowAlias, e);
        }
        if status != Done {
          if Unused(start, Aliases(es)) {
            PartsUnused(start, es, i + 1);
          }
          return status, added;
        }
        added := added + [n];
        AppendOneMore(D(), start, flowAlias, es, i, front, n, before);
      }
      assert es[..|es|] == es;
      ExpectedNodesAre(D(), flowAlias, es, added);
      status := Done;
    }

    method CreateProvider(flowAlias: string, e: Execution) returns (status: Status, ghost n: Node)
      requires server.Valid() && HasAlias(server.forest, flowAlias) && e.subflow == ""
      modifies server
      ensures server.Valid() && status == Done
      ensures forall a :: HasAlias(old(server.forest), a) ==> HasAlias(server.forest, a)
      ensures ShapeNode(n) == Expected(D(), flowAlias, e)
      ensures server.forest == Extend(old(server.forest), flowAlias, [n])
    {
      ghost var before, id := server.forest, server.nextId;
      var ok, _ := server.CreateAuthenticationExecution(flowAlias, e.provider);
      if !ok {
        return Refused, Raw(e, id, D());
      }
      status := FinalizeExecution(flowAlias, e, before, id);
      n := Final(D(), flowAlias, e, id);
      AliasesStay(before, flowAlias, [n]);
    }

    method CreateSubflow(flowAlias: string, e: Execution) returns (status: Status, ghost n: Node)
      requires server.Valid() && HasAlias(server.forest, flowAlias) && e.subflow != ""
      modifies server
      ensures server.Valid() && status != BuiltInFlow
      ensures forall a :: HasAlias(old(server.forest), a) ==> HasAlias(server.forest, a)
      ensures status == Done <==> Unused(old(server.forest), ExecutionAliases(e))
      ensures status == Done ==>
                ShapeNode(n) == Expected(D(), flowAlias, e)
                && server.forest == Extend(old(server.forest), flowAlias, [n])
      ensures status == Done ==> NodeIs(D(), flowAlias, e, n)
      decreases e
    {
      ghost var before, id := server.forest, server.nextId;
      n := Raw(e, id, D());
      assert ExecutionAliases(e)[0] == e.subflow;
      var ok, _ := server.CreateAuthenticationSubflow(flowAlias, e.subflow, FlowProviderId(e.providerId),
          e.description);
      if !ok {
        return Refused, n;
      }
      status := FinalizeExecution(flowAlias, e, before, id);
      ghost var final := Final(D(), flowAlias, e, id);
      SubflowIsThere(before, flowAlias, final, ExecutionAliases(e), Aliases(e.executions));
      AliasesStay(before, flowAlias, [final]);
      ghost var below;
      status, below := CreateFlowExecutions(e.subflow, e.executions);
      n := Filled(final, below);
      if status == Done {
        ExtendNew(before, flowAlias, final, below);
        ExpectedNodeIs(D(), flowAlias, e, n);
      }
    }

    /** The first top-level flow of the listing with this alias. */
    method FindFlowByAlias(rows: seq<FlowRow>, alias: string) returns (found: Option<FlowRow>)
      requires server.Valid() && |rows| == |server.forest|
      requires forall i :: 0 <= i < |rows| ==>
                 rows[i] == FlowRow(server.forest[i].id, server.forest[i].body.alias,
                   server.forest[i].body.info.builtIn)
      ensures found.Some? <==> TopLevel(server.forest, alias).Some?
      ensures found.Some? ==>
                var flow := TopLevel(server.forest, alias).value;
                found.value.builtIn == flow.body.info.builtIn && found.value.id == flow.id
    {
      for i := 0 to |rows|
        invariant TopLevel(server.forest, alias) == TopLevel(server.forest[i..], alias)
      {
        assert server.forest[i..][1..] == server.forest[i + 1..];
        if rows[i].alias == alias {
          return Some(rows[i]);
        }
      }
      found := None;
    }

    /** Creates the flow, or copies it from its source; either way an empty or copied flow stands last in the
        listing. */
    method CreateTopLevel(f: Flow) returns (status: Status, ghost n: Node)
      requires server.Valid()
      modifies server
      ensures server.Valid() && status != BuiltInFlow
      ensures forall a :: HasAlias(old(server.forest), a) ==> HasAlias(server.forest, a)
      ensures status == Done ==> HasAlias(server.forest, f.alias)
      ensures status == Done <==> TopAccepted(old(server.forest), f)
      ensures status == Done ==> server.forest == old(server.forest) + [n] && !HasAlias(old(server.forest), f.alias)
      ensures status == Done ==>
                && n.body.Sub? && n.body.alias == f.alias && !n.body.info.builtIn
                && (f.copyFrom == "" ==> n.body.info == FlowInfo(FlowProviderId(f.providerId), f.description, false))
                && Shape(n.body.children) == Inherited(old(server.forest), f)
    {
      ghost var before := server.forest;
      var ok;
      if f.copyFrom != "" {
        ok, n := server.CopyAuthenticationFlow(f.copyFrom, f.alias);
      } else {
        ok, n := server.CreateAuthenticationFlow(f.alias, FlowProviderId(f.providerId), f.description);
      }
      if !ok {
        return Refused, n;
      }
      forall a ensures HasAlias(server.forest, a) <==> HasAlias(before, a) || NodeHasAlias(n, a) {
        HasAliasConcat(before, [n], a);
        HasAliasOne(n, a);
      }
      status := Done;
    }

    /** Create-only: an existing flow is left alone, a built-in one is an error, a new one becomes what the config
        declares. */
    method EnsureAuthenticationFlow(f: Flow) returns (status: Status, ghost n: Node)
      requires server.Valid()
      modifies server
      ensures server.Valid()
      ensures TopLevel(old(server.forest), f.alias).Some? ==>
                && server.forest == old(server.forest) && server.writes == old(server.writes)
                && status == if TopLevel(old(server.forest), f.alias).value.body.info.builtIn then BuiltInFlow else Done
      ensures TopLevel(old(server.forest), f.alias).None? ==> (status == Done <==> Creatable(old(server.forest), f))
      ensures TopLevel(old(server.forest), f.alias).None? && status == Done ==>
                server.forest == old(server.forest) + [n] && IsDeclaredFlow(D(), old(server.forest), f, n)
                && FlowIs(D(), old(server.forest), f, n)
    {
      hide FlowIs, Creatable, IsDeclaredFlow, TopAccepted, Unused;
      var rows := server.GetAuthenticationFlows();
      var existing := FindFlowByAlias(rows, f.alias);
      if existing.Some? {
        return if existing.value.builtIn then BuiltInFlow else Done, Node(server.nextId, "", None, Leaf(""));
      }
      ghost var before := server.forest;
      status, n := CreateTopLevel(f);
      CreatableIs(before, f, n);
      if status != Done {
        return;
      }
      ghost var added, created := [], n;
      status, added := CreateFlowExecutions(f.alias, f.executions);
      n := Filled(created, created.body.children + added);
      if status == Done {
        FillTopLevel(D(), before, f, created, added);
        DeclaredFlowIs(D(), before, f, n);
      }
    }

    /** All flows of a realm, in declaration order. */
    method EnsureAuthenticationFlows(fs: seq<Flow>) returns (status: Status, ghost created: Forest)
      requires server.Valid()
      modifies server
      ensures server.Valid()
      ensures status == Done <==> AllCreatable(D(), old(server.forest), fs)
      ensures status == Done ==>
                server.forest == old(server.forest) + created && AreDeclared(D(), old(server.forest), fs, created)
                && FlowsAre(D(), old(server.forest), fs, created)
    {
      hide FlowsAre, AllCreatable, IsDeclaredFlow, Creatable, FlowServer.Server.Valid, AreDeclared;
      created := [];
      ghost var start := server.forest;
      assert start + [] == start && fs[0..] == fs && fs[..0] == [];
      NoFlows(D(), start);
      for i := 0 to |fs|
        invariant server.Valid() && server.forest == start + created && AreDeclared(D(), start, fs[..i], created)
        invariant AllCreatable(D(), start, fs) <==> AllCreatable(D(), server.forest, fs[i..])
      {
        ghost var before := server.forest;
        ghost var n;
        assert fs[i..][0] == fs[i] && fs[i..][1..] == fs[i + 1..];
        assert fs[..i + 1] == fs[..i] + [fs[i]];
        status, n := EnsureAuthenticationFlow(fs[i]);
        NextCreatable(D(), before, fs[i..], n);
        if status != Done {
          return;
        }
        OneMoreDeclared(D(), start, fs[..i], created, fs[i], n);
        if TopLevel(before, fs[i].alias).None? {
          assert (start + created) + [n] == start + (created + [n]);
          created := created + [n];
        }
      }
      assert fs[..|fs|] == fs && fs[|fs|..] == [];
      NoFlows(D(), server.forest);
      DeclaredFlowsAre(D(), start, fs, created);
      status := Done;
    }

    /** Points the realm's bindings at flows: the configured ones, in whatever order the map yields them, in one
        request, or none when nothing is configured. */
    method EnsureAuthenticationBindings(realm: RealmBindings, bindings: map<string, string>) returns (ok: bool)
      requires realm.flows == server
      modifies realm
      ensures ok <==> forall b :: b in Configured(bindings) ==> TopLevel(server.forest, bindings[b]).Some?
      ensures realm.bound == old(realm.bound) + if ok then Configured(bindings) else map[]
      ensures realm.writes == old(realm.writes) + if Configured(bindings) == map[] then 0 else 1
    {
      var body: map<string, string> := map[];
      var rest := bindings.Keys;
      while rest != {}
        invariant rest <= bindings.Keys
        invariant body == map b | b in bindings.Keys - rest && bindings[b] != "" :: bindings[b]
        decreases rest
      {
        var b :| b in rest;
        rest := rest - {b};
        if bindings[b] != "" {
          body := body[b := bindings[b]];
        }
      }
      assert body == Configured(bindings);
      if |body| == 0 {
        assert realm.bound + map[] == realm.bound;
        return true;
      }
      ok := realm.UpdateRealm(body);
    }

    /** The ids of the flows a client binds to; an alias that names no flow fails. */
    method ResolveFlowBindingOverrides(overrides: map<string, string>) returns (resolved: Option<map<string, nat>>)
      requires server.Valid()
      ensures resolved.Some? <==> forall b :: b in overrides ==> TopLevel(server.forest, overrides[b]).Some?
      ensures resolved.Some? ==> resolved.value == FlowIds(server.forest, overrides)
      ensures resolved.Some? ==>
                && resolved.value.Keys == overrides.Keys
                && forall b :: b in overrides ==> resolved.value[b] == TopLevel(server.forest, overrides[b]).value.id
    {
      resolved := Some(map[]);
      if |overrides| == 0 {
        return;
      }
      var rows := server.GetAuthenticationFlows();
      var rest := overrides.Keys;
      while rest != {}
        invariant rest <= overrides.Keys
        invariant forall b :: b in overrides.Keys - rest ==> TopLevel(server.forest, overrides[b]).Some?
        invariant resolved.Some? && resolved.value ==
                  map b | b in overrides.Keys - rest && TopLevel(server.forest, overrides[b]).Some? ::
                    TopLevel(server.forest, overrides[b]).value.id
        decreases rest
      {
        var b :| b in rest;
        rest := rest - {b};
        var flow := FindFlowByAlias(rows, overrides[b]);
        if flow.None? {
          return None;
        }
        resolved := Some(resolved.value[b := flow.value.id]);
      }
      assert overrides.Keys - {} == overrides.Keys;
      FlowIdsMean(server.forest, overrides);
    }
  }

  lemma FlowIdsMean(ns: Forest, overrides: map<string, string>)
    requires forall b :: b in overrides ==> TopLevel(ns, overrides[b]).Some?
    ensures FlowIds(ns, overrides).Keys == overrides.Keys
    ensures forall b :: b in overrides ==> FlowIds(ns, overrides)[b] == TopLevel(ns, overrides[b]).value.id
  {}

  /** Which flows a realm uses for what. The server refuses to bind a flow it does not list. */
  class RealmBindings {
    const flows: Server
    var bound: map<string, string>
    var writes: nat

    constructor (flows: Server)
      ensures this.flows == flows && bound == map[] && writes == 0
    {
      this.flows, bound, writes := flows, map[], 0;
    }

    method UpdateRealm(body: map<string, string>) returns (ok: bool)
      modifies this
      ensures ok <==> forall b :: b in body ==> TopLevel(flows.forest, body[b]).Some?
      ensures bound == old(bound) + (if ok then body else map[]) && writes == old(writes) + 1
    {
      writes, ok := writes + 1, forall b :: b in body ==> TopLevel(flows.forest, body[b]).Some?;
      if ok {
        bound := bound + body;
      }
    }
  }

  /** The bindings that are set. */
  function Configured(bindings: map<string, string>): map<string, string> {
    map b | b in bindings && bindings[b] != "" :: bindings[b]
  }

  function FlowIds(ns: Forest, overrides: map<string, string>): map<string, nat> {
    map b | b in overrides && TopLevel(ns, overrides[b]).Some? :: TopLevel(ns, overrides[b]).value.id
  }

  /** Each flow is there already, and not built in, or can be created once those before it have been dealt with. */
  ghost predicate AllCreatable(d: Defaults, ns: Forest, fs: seq<Flow>)
    decreases |fs|
  {
    fs == [] ||
    if TopLevel(ns, fs[0].alias).Some? then
      !TopLevel(ns, fs[0].alias).value.body.info.builtIn && AllCreatable(d, ns, fs[1..])
    else
      && Creatable(ns, fs[0])
      && forall n :: IsDeclaredFlow(d, ns, fs[0], n) ==> AllCreatable(d, ns + [n], fs[1..])
  }

  /** `created` are the flows that were not there, each as its config declares it over what those before it left. */
  ghost predicate AreDeclared(d: Defaults, ns: Forest, fs: seq<Flow>, created: Forest)
    decreases |fs|
  {
    if fs == [] then created == []
    else if TopLevel(ns, fs[0].alias).Some? then AreDeclared(d, ns, fs[1..], created)
    else
      && created != [] && IsDeclaredFlow(d, ns, fs[0], created[0])
      && AreDeclared(d, ns + [created[0]], fs[1..], created[1..])
  }

  lemma NoFlows(d: Defaults, ns: Forest)
    ensures AllCreatable(d, ns, []) && AreDeclared(d, ns, [], [])
  {}

  lemma {:induction false} OneMoreDeclared(d: Defaults, ns: Forest, fs: seq<Flow>, created: Forest, f: Flow, n: Node)
    requires AreDeclared(d, ns, fs, created)
    requires TopLevel(ns + created, f.alias).None? ==> IsDeclaredFlow(d, ns + created, f, n)
    ensures AreDeclared(d, ns, fs + [f],
                        if TopLevel(ns + created, f.alias).None? then created + [n] else created)
    decreases |fs|
  {
    hide IsDeclaredFlow;
    if fs == [] {
      assert ns + created == ns && [f][1..] == [] && [n][1..] == [];
    } else {
      assert (fs + [f])[1..] == fs[1..] + [f];
      if TopLevel(ns, fs[0].alias).Some? {
        OneMoreDeclared(d, ns, fs[1..], created, f, n);
      } else {
        assert (ns + [created[0]]) + created[1..] == ns + created;
        assert (created + [n])[1..] == created[1..] + [n];
        OneMoreDeclared(d, ns + [created[0]], fs[1..], created[1..], f, n);
        assert created == [created[0]] + created[1..];
      }
    }
  }

  ghost predicate ComesFrom(d: Defaults, ns: Forest, fs: seq<Flow>, n: Node) {
    exists i :: 0 <= i < |fs| && FlowIs(d, ns, fs[i], n)
  }

  predicate IsCalled(n: Node, alias: string) {
    n.body.Sub? && n.body.alias == alias
  }

  /** Every flow that was not there has been created, and everything created is such a flow, as declared over what
      those before it left. */
  ghost predicate FlowsAre(d: Defaults, ns: Forest, fs: seq<Flow>, created: Forest) {
    && (forall i :: 0 <= i < |fs| && TopLevel(ns, fs[i].alias).None? ==>
          exists k :: 0 <= k < |created| && IsCalled(created[k], fs[i].alias))
    && forall k :: 0 <= k < |created| ==> ComesFrom(d, ns + created[..k], fs, created[k])
  }

  lemma {:induction false} DeclaredFlowsAre(d: Defaults, ns: Forest, fs: seq<Flow>, created: Forest)
    requires AreDeclared(d, ns, fs, created)
    ensures FlowsAre(d, ns, fs, created)
    decreases |fs|
  {
    if fs != [] {
      if TopLevel(ns, fs[0].alias).Some? {
        DeclaredFlowsAre(d, ns, fs[1..], created);
        FlowsWereThere(d, ns, fs, created);
      } else {
        DeclaredFlowsAre(d, ns + [created[0]], fs[1..], created[1..]);
        DeclaredFlowIs(d, ns, fs[0], created[0]);
        OneMoreFlowIs(d, ns, fs, created);
      }
    }
  }

  lemma FlowsWereThere(d: Defaults, ns: Forest, fs: seq<Flow>, created: Forest)
    requires fs != [] && TopLevel(ns, fs[0].alias).Some? && FlowsAre(d, ns, fs[1..], created)
    ensures FlowsAre(d, ns, fs, created)
  {
    hide FlowIs;
    assert forall i :: 0 < i < |fs| ==> fs[1..][i - 1] == fs[i];
    forall k | 0 <= k < |created| ensures ComesFrom(d, ns + created[..k], fs, created[k]) {
      assert ComesFrom(d, ns + created[..k], fs[1..], created[k]);
    }
  }

  lemma FlowIsCalled(d: Defaults, ns: Forest, f: Flow, n: Node)
    requires FlowIs(d, ns, f, n)
    ensures IsCalled(n, f.alias)
  {}

  lemma OneMoreFlowIs(d: Defaults, ns: Forest, fs: seq<Flow>, created: Forest)
    requires fs != [] && created != [] && FlowIs(d, ns, fs[0], created[0])
    requires FlowsAre(d, ns + [created[0]], fs[1..], created[1..])
    ensures FlowsAre(d, ns, fs, created)
  {
    hide FlowIs;
    var n, rest := created[0], created[1..];
    assert IsCalled(n, fs[0].alias) by {
      FlowIsCalled(d, ns, fs[0], n);
    }
    forall k | 0 <= k < |created| ensures ComesFrom(d, ns + created[..k], fs, created[k]) {
      if k == 0 {
        assert ns + created[..0] == ns;
      } else {
        assert (ns + [n]) + rest[..k - 1] == ns + created[..k] && rest[k - 1] == created[k];
        assert ComesFrom(d, (ns + [n]) + rest[..k - 1], fs[1..], rest[k - 1]);
      }
    }
    forall i | 0 <= i < |fs| && TopLevel(ns, fs[i].alias).None?
      ensures exists k :: 0 <= k < |created| && IsCalled(created[k], fs[i].alias)
    {
      if !IsCalled(n, fs[i].alias) {
        TopLevelOneMore(ns, n, fs[i].alias);
        assert fs[1..][i - 1] == fs[i];
        var k :| 0 <= k < |rest| && IsCalled(rest[k], fs[i].alias);
        assert created[k + 1] == rest[k];
      }
    }
  }

  lemma {:induction false} TopLevelOneMore(ns: Forest, n: Node, a: string)
    requires TopLevel(ns, a).None? && !IsCalled(n, a)
    ensures TopLevel(ns + [n], a).None?
  {
    if ns != [] {
      assert (ns + [n])[1..] == ns[1..] + [n];
      TopLevelOneMore(ns[1..], n, a);
    } else {
      assert (ns + [n])[1..] == [];
    }
  }

  // ---------- forests that tell the config the same ----------

  /** Flows that differ in what no request depends on. */
  ghost predicate AlikeNodes(n: Node, m: Node) {
    n == m ||
    (&& n.body.Sub? && m.body.Sub? && n.body.alias == m.body.alias && n.body.info.builtIn == m.body.info.builtIn
     && Shape(n.body.children) == Shape(m.body.children))
  }

  ghost predicate Alike(ns: Forest, ms: Forest) {
    |ns| == |ms| && forall i :: 0 <= i < |ns| ==> AlikeNodes(ns[i], ms[i])
  }

  lemma AlikeAliases(ns: Forest, ms: Forest)
    requires Alike(ns, ms)
    ensures forall a :: HasAlias(ns, a) <==> HasAlias(ms, a)
  {
    forall a, i | 0 <= i < |ns| ensures NodeHasAlias(ns[i], a) <==> NodeHasAlias(ms[i], a) {
      assert AlikeNodes(ns[i], ms[i]);
      if ns[i] != ms[i] {
        ShapeAliases(ns[i].body.children, a);
        ShapeAliases(ms[i].body.children, a);
      }
    }
  }

  lemma {:induction false} AlikeTopLevel(ns: Forest, ms: Forest, a: string)
    requires Alike(ns, ms)
    ensures TopLevel(ns, a).Some? <==> TopLevel(ms, a).Some?
    ensures TopLevel(ns, a).Some? ==> AlikeNodes(TopLevel(ns, a).value, TopLevel(ms, a).value)
  {
    if ns != [] {
      assert AlikeNodes(ns[0], ms[0]);
      if !(ns[0].body.Sub? && ns[0].body.alias == a) {
        assert forall i :: 0 <= i < |ns[1..]| ==> ns[1..][i] == ns[i + 1] && ms[1..][i] == ms[i + 1];
        AlikeTopLevel(ns[1..], ms[1..], a);
      }
    }
  }

  /** A copy shows no more of its source than its shape. */
  lemma {:induction false} CopiedAlike(ns: Forest, ms: Forest, name: string)
    requires Shape(ns) == Shape(ms)
    ensures CopiedShape(ns, name) == CopiedShape(ms, name)
  {
    assert |Shape(ns)| == |ns| && |Shape(ms)| == |ms|;
    forall i | 0 <= i < |ns| ensures CopiedShapeNode(ns[i], name) == CopiedShapeNode(ms[i], name) {
      assert ShapeNode(ns[i]) == Shape(ns)[i] == Shape(ms)[i] == ShapeNode(ms[i]);
      if ns[i].body.Sub? {
        CopiedAlike(ns[i].body.children, ms[i].body.children, name);
      }
    }
  }

  lemma AlikeCreatable(ns: Forest, ms: Forest, f: Flow)
    requires Alike(ns, ms)
    ensures Inherited(ns, f) == Inherited(ms, f) && (Creatable(ns, f) <==> Creatable(ms, f))
  {
    AlikeAliases(ns, ms);
    AlikeTopLevel(ns, ms, f.copyFrom);
    if f.copyFrom != "" && TopLevel(ns, f.copyFrom).Some? {
      var n, m := TopLevel(ns, f.copyFrom).value, TopLevel(ms, f.copyFrom).value;
      if n != m {
        CopiedAlike(n.body.children, m.body.children, f.alias);
      }
    }
  }

  /** What the later flows come to does not depend on more than that. */
  lemma {:induction false} AlikeAllCreatable(d: Defaults, ns: Forest, ms: Forest, fs: seq<Flow>)
    requires Alike(ns, ms)
    ensures AllCreatable(d, ns, fs) <==> AllCreatable(d, ms, fs)
    decreases |fs|
  {
    hide Creatable, Inherited, Alike;
    if fs != [] {
      AlikeTopLevel(ns, ms, fs[0].alias);
      SameBuiltIn(ns, ms, fs[0].alias);
      AlikeCreatable(ns, ms, fs[0]);
      if TopLevel(ns, fs[0].alias).Some? {
        AlikeAllCreatable(d, ns, ms, fs[1..]);
      } else {
        forall n | IsDeclaredFlow(d, ns, fs[0], n)
          ensures IsDeclaredFlow(d, ms, fs[0], n)
                  && (AllCreatable(d, ns + [n], fs[1..]) <==> AllCreatable(d, ms + [n], fs[1..]))
        {
          AlikeWith(ns, ms, n, n);
          AlikeAllCreatable(d, ns + [n], ms + [n], fs[1..]);
        }
      }
    }
  }

  lemma SameBuiltIn(ns: Forest, ms: Forest, a: string)
    requires Alike(ns, ms)
    ensures TopLevel(ns, a).Some? ==>
              TopLevel(ms, a).Some? &&
              TopLevel(ns, a).value.body.info.builtIn == TopLevel(ms, a).value.body.info.builtIn
  {
    AlikeTopLevel(ns, ms, a);
  }

  lemma AlikeWith(ns: Forest, ms: Forest, n: Node, m: Node)
    requires Alike(ns, ms) && AlikeNodes(n, m)
    ensures Alike(ns + [n], ms + [m])
  {
    hide AlikeNodes;
  }

  lemma DeclaredAlike(d: Defaults, ns: Forest, f: Flow, n: Node, m: Node)
    requires IsDeclaredFlow(d, ns, f, n) && IsDeclaredFlow(d, ns, f, m)
    ensures Alike(ns + [n], ns + [m])
  {}

  /** Whether all goes through is decided flow by flow. */
  lemma NextCreatable(d: Defaults, ns: Forest, fs: seq<Flow>, n: Node)
    requires fs != []
    ensures
      var there := TopLevel(ns, fs[0].alias);
      && (there.Some? ==>
            (AllCreatable(d, ns, fs) <==> !there.value.body.info.builtIn && AllCreatable(d, ns, fs[1..])))
      && (there.None? && !Creatable(ns, fs[0]) ==> !AllCreatable(d, ns, fs))
      && (there.None? && Creatable(ns, fs[0]) && IsDeclaredFlow(d, ns, fs[0], n) ==>
            (AllCreatable(d, ns, fs) <==> AllCreatable(d, ns + [n], fs[1..])))
  {
    hide Creatable, IsDeclaredFlow;
    if TopLevel(ns, fs[0].alias).None? && IsDeclaredFlow(d, ns, fs[0], n) {
      forall m | IsDeclaredFlow(d, ns, fs[0], m)
        ensures AllCreatable(d, ns + [n], fs[1..]) <==> AllCreatable(d, ns + [m], fs[1..])
      {
        DeclaredAlike(d, ns, fs[0], n, m);
        AlikeAllCreatable(d, ns + [n], ns + [m], fs[1..]);
      }
    }
  }

  lemma HasAliasOne(n: Node, a: string)
    ensures HasAlias([n], a) <==> NodeHasAlias(n, a)
  {
    assert [n][0] == n;
  }

  lemma TopLevelHasAlias(ns: Forest, alias: string)
    ensures TopLevel(ns, alias).Some? ==> HasAlias(ns, alias)
  {
    var r := TopLevel(ns, alias);
    if r.Some? {
      var i :| 0 <= i < |ns| && ns[i] == r.value;
      assert NodeHasAlias(ns[i], alias);
    }
  }

  /** Once the flow itself is there, with what it copied, it is a matter of its declared subflows. */
  lemma CreatableIs(ns: Forest, f: Flow, n: Node)
    ensures Creatable(ns, f) ==> TopAccepted(ns, f)
    ensures
      TopAccepted(ns, f) && n.body.Sub? && n.body.alias == f.alias && Shape(n.body.children) == Inherited(ns, f) ==>
        (Creatable(ns, f) <==> Unused(ns + [n], Aliases(f.executions)))
  {
    var below := Aliases(f.executions);
    DistinctConcat([f.alias], below);
    assert FlowAliases(f)[0] == f.alias && Elements([f.alias]) == {f.alias};
    assert forall a :: a in FlowAliases(f) <==> a == f.alias || a in below;
    if TopAccepted(ns, f) && n.body.Sub? && n.body.alias == f.alias && Shape(n.body.children) == Inherited(ns, f) {
      forall a ensures HasAlias(ns + [n], a) <==> HasAlias(ns, a) || a == f.alias || HasAlias(Inherited(ns, f), a) {
        HasAliasConcat(ns, [n], a);
        HasAliasOne(n, a);
        ShapeAliases(n.body.children, a);
      }
    }
  }

  /** Appending under the alias of a flow that stands last fills that flow and nothing else. */
  lemma FillTopLevel(d: Defaults, ns: Forest, f: Flow, n: Node, added: Forest)
    requires Creatable(ns, f) && n.body.Sub? && n.body.alias == f.alias && !n.body.info.builtIn
    requires f.copyFrom == "" ==> n.body.info == FlowInfo(FlowProviderId(f.providerId), f.description, false)
    requires Shape(n.body.children) == Inherited(ns, f) && Shape(added) == ExpectedAll(d, f.alias, f.executions)
    ensures Extend(ns + [n], f.alias, added) == ns + [Filled(n, n.body.children + added)]
    ensures IsDeclaredFlow(d, ns, f, Filled(n, n.body.children + added))
  {
    assert FlowAliases(f)[0] == f.alias;
    ExtendConcat(ns, [n], f.alias, added);
    ExtendAbsent(ns, f.alias, added);
    InheritedHasNotAlias(ns, f);
    ShapeAliases(n.body.children, f.alias);
    ExtendAbsent(n.body.children, f.alias, added);
    assert Extend([n], f.alias, added) == [ExtendNode(n, f.alias, added)];
    assert Shape(n.body.children + added) == Shape(n.body.children) + Shape(added);
  }

  lemma InheritedHasNotAlias(ns: Forest, f: Flow)
    requires Creatable(ns, f)
    ensures !HasAlias(Inherited(ns, f), f.alias)
  {
    AliasesInIsHasAlias(Inherited(ns, f), f.alias);
  }

  lemma {:induction false} AliasesInIsHasAlias(ns: Forest, a: string)
    ensures a in AliasesIn(ns) <==> HasAlias(ns, a)
  {
    if ns != [] {
      var front, last := ns[..|ns| - 1], ns[|ns| - 1];
      AliasesInIsHasAlias(front, a);
      if last.body.Sub? {
        AliasesInIsHasAlias(last.body.children, a);
      }
      assert ns == front + [last];
      HasAliasConcat(front, [last], a);
      HasAliasOne(last, a);
    }
  }

  /** The copies a config asks for can be made of flows the server has: what they bring along is new, to the server, to
      the config and to one another. */
  ghost predicate CopiesFit(ns: Forest, fs: seq<Flow>, k: nat) {
    && (forall i :: k <= i < |fs| && fs[i].copyFrom != "" ==> TopLevel(ns, fs[i].copyFrom).Some?)
    && (forall i, a :: k <= i < |fs| && a in AliasesIn(Inherited(ns, fs[i])) ==>
          !HasAlias(ns, a) && a !in Elements(AllAliases(fs)))
    && forall i, j :: k <= i < j < |fs| ==> AliasesIn(Inherited(ns, fs[i])) !! AliasesIn(Inherited(ns, fs[j]))
  }

  lemma {:induction false} TopLevelStays(ns: Forest, ms: Forest, alias: string)
    requires TopLevel(ns, alias).Some?
    ensures TopLevel(ns + ms, alias) == TopLevel(ns, alias)
  {
    if ns != [] && !(ns[0].body.Sub? && ns[0].body.alias == alias) {
      TopLevelStays(ns[1..], ms, alias);
      assert (ns + ms)[1..] == ns[1..] + ms;
    }
  }

  /** The aliases a declared flow brings: its own, those of its declared subflows, and those it copies. */
  lemma DeclaredFlowAliases(d: Defaults, ns: Forest, f: Flow, n: Node, a: string)
    requires IsDeclaredFlow(d, ns, f, n)
    ensures NodeHasAlias(n, a) <==> a in Elements(FlowAliases(f)) || a in AliasesIn(Inherited(ns, f))
  {
    var m, children := |Inherited(ns, f)|, n.body.children;
    assert |Shape(children)| == |children|;
    assert children == children[..m] + children[m..];
    assert Shape(children[..m]) == Shape(children)[..m] == Inherited(ns, f);
    assert Shape(children[m..]) == Shape(children)[m..] == ExpectedAll(d, f.alias, f.executions);
    HasAliasConcat(children[..m], children[m..], a);
    ShapeAliases(children[..m], a);
    AliasesInIsHasAlias(Inherited(ns, f), a);
    AddedAliases(d, f.alias, f.executions, children[m..]);
    DistinctConcat([f.alias], Aliases(f.executions));
    assert Elements([f.alias]) == {f.alias};
  }

  lemma CopyFitsOne(ns: Forest, fs: seq<Flow>, k: nat)
    requires k < |fs| && Distinct(AllAliases(fs)) && CopiesFit(ns, fs, k)
    requires forall a, i :: k <= i < |fs| && a in FlowAliases(fs[i]) ==> !HasAlias(ns, a)
    ensures Creatable(ns, fs[k])
  {
    var f := fs[k];
    assert fs[..|fs|] == fs;
    FlowIsNew(fs, k, |fs|);
    assert FlowAliases(f)[0] == f.alias;
    EarlierFlowAliases(fs, k, |fs|);
    forall a | a in AliasesIn(Inherited(ns, f)) ensures a != f.alias && a !in Aliases(f.executions) {
      assert forall b :: b in FlowAliases(f) ==> b in Elements(AllAliases(fs));
      assert f.alias in FlowAliases(f) && forall b :: b in Aliases(f.executions) ==> b in FlowAliases(f);
    }
    forall a | a in Aliases(f.executions) ensures !HasAlias(Inherited(ns, f), a) {
      AliasesInIsHasAlias(Inherited(ns, f), a);
    }
  }

  lemma SameInherited(ns: Forest, n: Node, f: Flow)
    requires f.copyFrom != "" ==> TopLevel(ns, f.copyFrom).Some?
    ensures Inherited(ns + [n], f) == Inherited(ns, f)
    ensures f.copyFrom != "" ==> TopLevel(ns + [n], f.copyFrom).Some?
  {
    if f.copyFrom != "" {
      TopLevelStays(ns, [n], f.copyFrom);
    }
  }

  lemma CopyNotTaken(d: Defaults, ns: Forest, fs: seq<Flow>, k: nat, n: Node, i: nat, a: string)
    requires k < i < |fs| && CopiesFit(ns, fs, k) && IsDeclaredFlow(d, ns, fs[k], n)
    requires a in AliasesIn(Inherited(ns, fs[i]))
    ensures !HasAlias(ns + [n], a)
  {
    hide IsDeclaredFlow, Inherited, HasAlias;
    assert fs[..|fs|] == fs;
    EarlierFlowAliases(fs, k, |fs|);
    HasAliasConcat(ns, [n], a);
    HasAliasOne(n, a);
    DeclaredFlowAliases(d, ns, fs[k], n, a);
    assert AliasesIn(Inherited(ns, fs[k])) !! AliasesIn(Inherited(ns, fs[i]));
  }

  lemma CopiesStillFit(d: Defaults, ns: Forest, fs: seq<Flow>, k: nat, n: Node)
    requires k < |fs| && CopiesFit(ns, fs, k) && IsDeclaredFlow(d, ns, fs[k], n)
    ensures CopiesFit(ns + [n], fs, k + 1)
  {
    hide IsDeclaredFlow, Inherited, HasAlias, AliasesIn;
    forall i | k < i < |fs|
      ensures Inherited(ns + [n], fs[i]) == Inherited(ns, fs[i])
      ensures fs[i].copyFrom != "" ==> TopLevel(ns + [n], fs[i].copyFrom).Some?
    {
      SameInherited(ns, n, fs[i]);
    }
    forall i, a | k < i < |fs| && a in AliasesIn(Inherited(ns, fs[i])) ensures !HasAlias(ns + [n], a) {
      CopyNotTaken(d, ns, fs, k, n, i, a);
    }
  }

  /** A valid config whose aliases the server does not use, and whose copies fit, can be created whole. */
  lemma {:induction false} ValidFlowsAreCreatable(d: Defaults, ns: Forest, fs: seq<Flow>, k: nat)
    requires k <= |fs| && Distinct(AllAliases(fs)) && CopiesFit(ns, fs, k)
    requires forall a, i :: k <= i < |fs| && a in FlowAliases(fs[i]) ==> !HasAlias(ns, a)
    ensures AllCreatable(d, ns, fs[k..])
    decreases |fs| - k
  {
    if k < |fs| {
      var f := fs[k];
      assert fs[..|fs|] == fs && fs[k..][0] == f && fs[k..][1..] == fs[k + 1..];
      CopyFitsOne(ns, fs, k);
      TopLevelHasAlias(ns, f.alias);
      assert f.alias in FlowAliases(f);
      hide Creatable, CopiesFit, IsDeclaredFlow;
      forall n | IsDeclaredFlow(d, ns, f, n) ensures AllCreatable(d, ns + [n], fs[k + 1..]) {
        CopiesStillFit(d, ns, fs, k, n);
        LaterStillUnused(d, ns, fs, k, n);
        ValidFlowsAreCreatable(d, ns + [n], fs, k + 1);
      }
    }
  }

  /** One flow's aliases, copied ones included, leave the later flows' aliases unused. */
  lemma LaterStillUnused(d: Defaults, ns: Forest, fs: seq<Flow>, k: nat, n: Node)
    requires k < |fs| && Distinct(AllAliases(fs)) && CopiesFit(ns, fs, k) && IsDeclaredFlow(d, ns, fs[k], n)
    requires forall a, i :: k <= i < |fs| && a in FlowAliases(fs[i]) ==> !HasAlias(ns, a)
    ensures forall a, i :: k < i < |fs| && a in FlowAliases(fs[i]) ==> !HasAlias(ns + [n], a)
  {
    assert fs[..|fs|] == fs;
    forall a, i | k < i < |fs| && a in FlowAliases(fs[i]) ensures !HasAlias(ns + [n], a) {
      FlowIsNew(fs, i, |fs|);
      EarlierFlowAliases(fs, k, i);
      EarlierFlowAliases(fs, i, |fs|);
      HasAliasConcat(ns, [n], a);
      HasAliasOne(n, a);
      DeclaredFlowAliases(d, ns, fs[k], n, a);
    }
  }

  lemma {:induction false} EarlierFlowAliases(fs: seq<Flow>, k: nat, i: nat)
    requires k < i <= |fs|
    ensures forall a :: a in FlowAliases(fs[k]) ==> a in Elements(AllAliases(fs[..i]))
    decreases i
  {
    FlowsOfPrefix(fs, i - 1);
    if k < i - 1 {
      EarlierFlowAliases(fs, k, i - 1);
    }
  }

  /** Which top-level entries are flows does not depend on what is appended inside them. */
  lemma StillFlows(ns: Forest, a: string, xs: Forest, ys: Forest)
    ensures (forall i :: 0 <= i < |ns| ==> Extend(ns, a, ys)[i].body.Sub?) ==>
              forall i :: 0 <= i < |ns| ==> Extend(ns, a, xs)[i].body.Sub?
  {
    forall i | 0 <= i < |ns| && Extend(ns, a, ys)[i].body.Sub? ensures Extend(ns, a, xs)[i].body.Sub? {
      assert Extend(ns, a, xs)[i] == ExtendNode(ns[i], a, xs);
    }
  }

  lemma ExtendNothing(ns: Forest, a: string)
    ensures Extend(ns, a, []) == ns
  {
    forall i | 0 <= i < |ns| ensures ExtendNode(ns[i], a, []) == ns[i] {
      if ns[i].body.Sub? {
        ExtendNothing(ns[i].body.children, a);
      }
    }
  }

  /** Once a new subflow is in place it can be addressed, and what it will hold is still unused. */
  lemma SubflowIsThere(ns: Forest, a: string, n: Node, aliases: seq<string>, below: seq<string>)
    requires HasAlias(ns, a) && n.body.Sub? && Childless(n) && aliases == [n.body.alias] + below
    ensures HasAlias(Extend(ns, a, [n]), a) && HasAlias(Extend(ns, a, [n]), n.body.alias)
    ensures Unused(ns, aliases) <==> !HasAlias(ns, n.body.alias) && Unused(Extend(ns, a, [n]), below)
  {
    var es := Extend(ns, a, [n]);
    forall b ensures HasAlias(es, b) <==> HasAlias(ns, b) || b == n.body.alias {
      ExtendAliases(ns, a, [n], b);
      HasAliasOne(n, b);
      assert n.body.children == [] && !HasAlias(n.body.children, b);
    }
    DistinctConcat([n.body.alias], below);
  }

  lemma AliasesStay(ns: Forest, a: string, xs: Forest)
    ensures forall b :: HasAlias(ns, b) ==> HasAlias(Extend(ns, a, xs), b)
  {
    forall b ensures HasAlias(ns, b) ==> HasAlias(Extend(ns, a, xs), b) {
      ExtendAliases(ns, a, xs, b);
    }
  }

  lemma SameIds(ns: Forest, a: string, n: Node, m: Node, next: nat)
    requires HasAlias(ns, a) && IdsBelow(Extend(ns, a, [n]), next) && n.id == m.id && Childless(m)
    ensures IdsBelow(Extend(ns, a, [m]), next)
  {
    AppendedHasId(ns, a, n);
    forall id: nat | HasId(Extend(ns, a, [m]), id) ensures id < next {
      ExtendIds(ns, a, [m], id);
      ExtendIds(ns, a, [n], id);
      LoneNode(m, id, SetRequirement(""), []);
    }
  }

  /** `forest` is `start` with nodes that look like the declared executions appended under `flowAlias`. */
  ghost predicate IsAppended(d: Defaults, start: Forest, flowAlias: string, es: seq<Execution>, added: Forest,
      forest: Forest) {
    Shape(added) == ExpectedAll(d, flowAlias, es) && forest == Extend(start, flowAlias, added)
  }

  lemma AppendOneMore(d: Defaults, start: Forest, flowAlias: string, es: seq<Execution>, i: nat, added: Forest,
      n: Node, before: Forest)
    requires i < |es| && !HasAlias(added, flowAlias) && IsAppended(d, start, flowAlias, es[..i], added, before)
    requires ShapeNode(n) == Expected(d, flowAlias, es[i])
    ensures IsAppended(d, start, flowAlias, es[..i + 1], added + [n], Extend(before, flowAlias, [n]))
  {
    ExtendTwice(start, flowAlias, added, [n]);
    assert Shape(added + [n]) == Shape(added) + [ShapeNode(n)];
    assert ExpectedAll(d, flowAlias, es[..i + 1]) ==
        ExpectedAll(d, flowAlias, es[..i]) + [Expected(d, flowAlias, es[i])];
  }

  /** With the first `i` executions in place, the next one's aliases are unused exactly if they were, and are new. */
  lemma OneMoreUnused(d: Defaults, start: Forest, flowAlias: string, es: seq<Execution>, i: nat, added: Forest)
    requires i < |es| && HasAlias(start, flowAlias) && Unused(start, Aliases(es[..i]))
    requires IsAppended(d, start, flowAlias, es[..i], added, Extend(start, flowAlias, added))
    ensures Unused(Extend(start, flowAlias, added), ExecutionAliases(es[i])) <==> Unused(start, Aliases(es[..i + 1]))
    ensures !HasAlias(added, flowAlias)
  {
    var front, last := Aliases(es[..i]), ExecutionAliases(es[i]);
    AddedAliases(d, flowAlias, es[..i], added);
    assert es[..i + 1][..i] == es[..i];
    assert Aliases(es[..i + 1]) == front + last;
    DistinctConcat(front, last);
    assert forall a :: a in front + last <==> a in front || a in last;
    forall a ensures HasAlias(Extend(start, flowAlias, added), a) <==> HasAlias(start, a) || a in front {
      ExtendAliases(start, flowAlias, added, a);
    }
  }

  lemma {:induction false} PartsUnused(start: Forest, es: seq<Execution>, i: nat)
    requires i <= |es| && Unused(start, Aliases(es))
    ensures Unused(start, Aliases(es[..i]))
    decreases |es|
  {
    if i < |es| {
      var n := |es| - 1;
      DistinctConcat(Aliases(es[..n]), ExecutionAliases(es[n]));
      assert forall a :: a in Aliases(es[..n]) ==> a in Aliases(es);
      assert es[..n][..i] == es[..i];
      PartsUnused(start, es[..n], i);
    } else {
      assert es[..i] == es;
    }
  }

  lemma {:induction false} AppendedHasId(ns: Forest, a: string, n: Node)
    requires HasAlias(ns, a)
    ensures HasId(Extend(ns, a, [n]), n.id)
  {
    var es := Extend(ns, a, [n]);
    var i :| 0 <= i < |ns| && NodeHasAlias(ns[i], a);
    assert es[i] == ExtendNode(ns[i], a, [n]);
    assert [n][0] == n;
    if ns[i].body.alias == a {
      HasIdConcat(Extend(ns[i].body.children, a, [n]), [n], n.id);
      HasIdOne(n, n.id);
    } else {
      AppendedHasId(ns[i].body.children, a, n);
    }
    assert NodeHasId(es[i], n.id);
  }
}
