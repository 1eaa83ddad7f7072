/** Authentication flows as the config declares them, and their validation (internal/config/config.go). */
module FlowConfig {
  import opened ConfigChecks
  import opened Lists
  import opened Text

  datatype Execution = Execution(
    provider: string, subflow: string, providerId: string, description: string, requirement: string,
    config: map<string, string>, executions: seq<Execution>)

  datatype Flow = Flow(alias: string, providerId: string, description: string, copyFrom: string,
    executions: seq<Execution>)

  const FLOW_PROVIDER_IDS := {"", "basic-flow", "form-flow"}
  const REQUIREMENTS := {"", "REQUIRED", "ALTERNATIVE", "DISABLED", "CONDITIONAL"}

  /** A node is well-formed on its own terms: one of provider and subflow, allowed values, and so on below it. */
  predicate WellFormedExecution(e: Execution) {
    && (e.provider == "" <==> e.subflow != "")
    && e.requirement in REQUIREMENTS
    && !HasNull(e.provider) && !HasNull(e.subflow) && !HasNull(e.description)
    && ValidAttributes(e.config)
    && (e.provider != "" ==> e.executions == [] && e.providerId == "")
    && (e.subflow != "" ==> e.providerId in FLOW_PROVIDER_IDS && WellFormed(e.executions))
  }

  predicate WellFormed(es: seq<Execution>) {
    forall i :: 0 <= i < |es| ==> WellFormedExecution(es[i])
  }

  predicate WellFormedFlow(f: Flow) {
    && f.alias != "" && f.providerId in FLOW_PROVIDER_IDS
    && !HasNull(f.alias) && !HasNull(f.description) && !HasNull(f.copyFrom)
    && WellFormed(f.executions)
  }

  /** Subflow aliases in declaration order, a subflow before what it holds. */
  function ExecutionAliases(e: Execution): seq<string> {
    if e.subflow != "" then [e.subflow] + Aliases(e.executions) else []
  }

  function Aliases(es: seq<Execution>): seq<string> {
    if es == [] then [] else Aliases(es[..|es| - 1]) + ExecutionAliases(es[|es| - 1])
  }

  function FlowAliases(f: Flow): seq<string> {
    [f.alias] + Aliases(f.executions)
  }

  function AllAliases(fs: seq<Flow>): seq<string> {
    if fs == [] then [] else AllAliases(fs[..|fs| - 1]) + FlowAliases(fs[|fs| - 1])
  }

  /** The Go map the validators share; callees add to it in place. */
  class AliasSet {
    var seen: set<string>

    constructor ()
      ensures seen == {}
    {
      seen := {};
    }
  }

  /** The part of a node that is checked before its alias is looked up. */
  predicate HeadOk(e: Execution) {
    && (e.provider == "" <==> e.subflow != "")
    && e.requirement in REQUIREMENTS
    && !HasNull(e.provider) && !HasNull(e.subflow) && !HasNull(e.description)
    && ValidAttributes(e.config)
  }

  method CheckHead(e: Execution) returns (ok: bool)
    ensures ok <==> HeadOk(e)
  {
    if e.provider == "" && e.subflow == "" {
      return false;
    } else if e.provider != "" && e.subflow != "" {
      return false;
    }
    if e.requirement !in REQUIREMENTS {
      return false;
    }
    if HasNull(e.provider) || HasNull(e.subflow) || HasNull(e.description) {
      return false;
    }
    ok := ValidateAttributes(e.config);
  }

  lemma AliasesOfPrefix(es: seq<Execution>, i: nat)
    requires i < |es|
    ensures Aliases(es[..i + 1]) == Aliases(es[..i]) + ExecutionAliases(es[i])
    ensures es[i].subflow != "" ==> es[i].subflow in ExecutionAliases(es[i])
  {
    assert es[..i + 1][..i] == es[..i];
    assert es[i].subflow != "" ==> ExecutionAliases(es[i])[0] == es[i].subflow;
  }

  /** Well-formed trees whose aliases are new and pairwise distinct. */
  predicate Acceptable(es: seq<Execution>, seen: set<string>) {
    WellFormed(es) && Distinct(Aliases(es)) && Disjoint(Aliases(es), seen)
  }

  /** One node, when `seen` holds what came before it: its own checks, and its subtree's. */
  predicate NodeOk(e: Execution, seen: set<string>) {
    && HeadOk(e)
    && (if e.provider != "" then e.executions == [] && e.providerId == ""
        else e.subflow !in seen && e.providerId in FLOW_PROVIDER_IDS && Acceptable(e.executions, seen + {e.subflow}))
  }

  /** A node's aliases are its own and those below it. */
  lemma NodeMeans(e: Execution, seen: set<string>)
    ensures NodeOk(e, seen) <==>
            WellFormedExecution(e) && Distinct(ExecutionAliases(e)) && Disjoint(ExecutionAliases(e), seen)
    ensures e.subflow != "" ==> Elements(ExecutionAliases(e)) == {e.subflow} + Elements(Aliases(e.executions))
    ensures e.subflow == "" ==> ExecutionAliases(e) == [] && Elements(ExecutionAliases(e)) == {}
  {
    DistinctConcat([e.subflow], Aliases(e.executions));
    assert Elements([e.subflow]) == {e.subflow};
    assert [e.subflow][0] == e.subflow;
  }

  /** Accepting a list is accepting its nodes one after another, each counting what came before it as seen. */
  lemma AcceptOneMore(es: seq<Execution>, i: nat, seen: set<string>)
    requires i < |es|
    ensures Acceptable(es[..i + 1], seen) <==>
            Acceptable(es[..i], seen) && NodeOk(es[i], seen + Elements(Aliases(es[..i])))
    ensures Elements(Aliases(es[..i + 1])) == Elements(Aliases(es[..i])) + Elements(ExecutionAliases(es[i]))
  {
    AliasesOfPrefix(es, i);
    DistinctConcat(Aliases(es[..i]), ExecutionAliases(es[i]));
    NodeMeans(es[i], seen + Elements(Aliases(es[..i])));
    assert es[..i + 1] == es[..i] + [es[i]];
    assert WellFormed(es[..i + 1]) <==> WellFormed(es[..i]) && WellFormedExecution(es[i]);
  }

  lemma {:induction false} PrefixAcceptable(es: seq<Execution>, n: nat, seen: set<string>)
    requires n <= |es| && Acceptable(es, seen)
    ensures Acceptable(es[..n], seen)
    decreases |es| - n
  {
    if n == |es| {
      assert es[..n] == es;
    } else {
      PrefixAcceptable(es, n + 1, seen);
      AcceptOneMore(es, n, seen);
    }
  }

  lemma NodeRejected(es: seq<Execution>, i: nat, seen: set<string>)
    requires i < |es| && !NodeOk(es[i], seen + Elements(Aliases(es[..i])))
    ensures !Acceptable(es, seen)
  {
    AcceptOneMore(es, i, seen);
    if Acceptable(es, seen) {
      PrefixAcceptable(es, i + 1, seen);
    }
  }

  /** True exactly when the trees are well-formed and their aliases are new and pairwise distinct. */
  method ValidateAuthenticationExecutions(es: seq<Execution>, aliases: AliasSet) returns (ok: bool)
    modifies aliases
    ensures ok <==> Acceptable(es, old(aliases.seen))
    ensures ok ==> aliases.seen == old(aliases.seen) + Elements(Aliases(es))
    decreases es
  {
    assert es[..|es|] == es;
    for i := 0 to |es|
      invariant Acceptable(es[..i], old(aliases.seen))
      invariant aliases.seen == old(aliases.seen) + Elements(Aliases(es[..i]))
    {
      ok := ValidateAuthenticationExecution(es[i], aliases);
      AcceptOneMore(es, i, old(aliases.seen));
      if !ok {
        NodeRejected(es, i, old(aliases.seen));
        return;
      }
    }
    ok := true;
  }

  /** The body of the loop above. */
  method ValidateAuthenticationExecution(e: Execution, aliases: AliasSet) returns (ok: bool)
    modifies aliases
    ensures ok <==> NodeOk(e, old(aliases.seen))
    ensures ok ==> aliases.seen == old(aliases.seen) + Elements(ExecutionAliases(e))
    decreases e
  {
    NodeMeans(e, aliases.seen);
    hide Aliases, ExecutionAliases, Elements, Distinct, Disjoint, WellFormed;
    var headOk := CheckHead(e);
    if !headOk {
      return false;
    }
    if e.provider != "" {
      ok := |e.executions| == 0 && e.providerId == "";
      return;
    }
    if e.subflow in aliases.seen {
      return false;
    }
    aliases.seen := aliases.seen + {e.subflow};
    if e.providerId !in FLOW_PROVIDER_IDS {
      return false;
    }
    ok := ValidateAuthenticationExecutions(e.executions, aliases);
  }

  predicate AcceptableFlows(fs: seq<Flow>) {
    (forall i :: 0 <= i < |fs| ==> WellFormedFlow(fs[i])) && Distinct(AllAliases(fs))
  }

  lemma FlowsOfPrefix(fs: seq<Flow>, i: nat)
    requires i < |fs|
    ensures AllAliases(fs[..i + 1]) == AllAliases(fs[..i]) + FlowAliases(fs[i])
  {
    assert fs[..i + 1][..i] == fs[..i];
  }

  lemma {:induction false} FlowIsNew(fs: seq<Flow>, i: nat, n: nat)
    requires i < n <= |fs| && Distinct(AllAliases(fs[..n]))
    ensures Distinct(FlowAliases(fs[i])) && Disjoint(FlowAliases(fs[i]), Elements(AllAliases(fs[..i])))
    decreases n
  {
    FlowsOfPrefix(fs, n - 1);
    DistinctConcat(AllAliases(fs[..n - 1]), FlowAliases(fs[n - 1]));
    if i + 1 < n {
      FlowIsNew(fs, i, n - 1);
    }
  }

  method ValidateAuthenticationFlow(f: Flow, aliases: AliasSet) returns (ok: bool)
    modifies aliases
    ensures ok <==> WellFormedFlow(f) && Distinct(FlowAliases(f)) && Disjoint(FlowAliases(f), old(aliases.seen))
    ensures ok ==> aliases.seen == old(aliases.seen) + Elements(FlowAliases(f))
  {
    DistinctConcat([f.alias], Aliases(f.executions));
    assert FlowAliases(f)[0] == f.alias && f.alias in FlowAliases(f);
    if f.alias == "" {
      return false;
    }
    if f.alias in aliases.seen {
      return false;
    }
    aliases.seen := aliases.seen + {f.alias};
    if f.providerId !in FLOW_PROVIDER_IDS {
      return false;
    }
    if HasNull(f.alias) || HasNull(f.description) || HasNull(f.copyFrom) {
      return false;
    }
    ok := ValidateAuthenticationExecutions(f.executions, aliases);
  }

  /** True exactly when every node is well-formed and all aliases of the realm are pairwise distinct. */
  method ValidateAuthenticationFlows(fs: seq<Flow>) returns (ok: bool)
    ensures ok <==> AcceptableFlows(fs)
  {
    assert fs[..|fs|] == fs;
    var aliases := new AliasSet();
    for i := 0 to |fs|
      invariant fresh(aliases) && AcceptableFlows(fs[..i]) && aliases.seen == Elements(AllAliases(fs[..i]))
    {
      FlowsOfPrefix(fs, i);
      DistinctConcat(AllAliases(fs[..i]), FlowAliases(fs[i]));
      if Distinct(AllAliases(fs)) {
        FlowIsNew(fs, i, |fs|);
      }
      var flowOk := ValidateAuthenticationFlow(fs[i], aliases);
      if !flowOk {
        return false;
      }
    }
    ok := true;
  }
}
