/** The server's authentication flows: an append-only API over trees, read back as flattened listings. */
module FlowServer {
  import opened Text

  datatype Settings = Settings(alias: string, entries: map<string, string>)

  datatype FlowInfo = FlowInfo(kind: string, description: string, builtIn: bool)

  /** An authenticator, or a (sub)flow with what it holds in order. Ids are 0 in a tree whose ids were erased. */
  datatype Node = Node(id: nat, requirement: string, settings: Option<Settings>, body: Body)

  datatype Body = Leaf(provider: string) | Sub(alias: string, info: FlowInfo, children: seq<Node>)

  type Forest = seq<Node>

  /** One line of a flattened listing. */
  datatype Row = Row(id: nat, isFlow: bool, providerId: string, displayName: string, requirement: string, level: nat)

  datatype Patch = SetRequirement(requirement: string) | SetSettings(settings: Settings)

  function Apply(n: Node, p: Patch): Node {
    match p
    case SetRequirement(r) => n.(requirement := r)
    case SetSettings(s) => n.(settings := Some(s))
  }

  // ---------- the operations on trees ----------

  /** Append `xs` to whatever carries the alias `a`. */
  function Extend(ns: Forest, a: string, xs: Forest): Forest {
    seq(|ns|, i requires 0 <= i < |ns| => ExtendNode(ns[i], a, xs))
  }

  function ExtendNode(n: Node, a: string, xs: Forest): (r: Node)
    ensures r.id == n.id && (r.body.Sub? <==> n.body.Sub?)
  {
    if n.body.Leaf? then n
    else
      var below := Extend(n.body.children, a, xs);
      n.(body := n.body.(children := if n.body.alias == a then below + xs else below))
  }

  function PatchAt(ns: Forest, id: nat, p: Patch): Forest {
    seq(|ns|, i requires 0 <= i < |ns| => PatchNode(ns[i], id, p))
  }

  function PatchNode(n: Node, id: nat, p: Patch): (r: Node)
    ensures r.id == n.id && (r.body.Sub? <==> n.body.Sub?)
  {
    var m := if n.body.Leaf? then n else n.(body := n.body.(children := PatchAt(n.body.children, id, p)));
    if n.id == id then Apply(m, p) else m
  }

  /** Pre-order listing. */
  function Flatten(ns: Forest, level: nat): seq<Row> {
    if ns == [] then [] else Flatten(ns[..|ns| - 1], level) + FlattenNode(ns[|ns| - 1], level)
  }

  function FlattenNode(n: Node, level: nat): seq<Row> {
    [RowOf(n, level)] + if n.body.Leaf? then [] else Flatten(n.body.children, level + 1)
  }

  /** What the first flow called `a`, in pre-order, holds. */
  function ChildrenOf(ns: Forest, a: string): Option<Forest> {
    if ns == [] then None
    else
      match ChildrenOfNode(ns[0], a)
      case Some(c) => Some(c)
      case None => ChildrenOf(ns[1..], a)
  }

  function ChildrenOfNode(n: Node, a: string): Option<Forest> {
    if n.body.Leaf? then None else if n.body.alias == a then Some(n.body.children) else ChildrenOf(n.body.children, a)
  }

  predicate HasAlias(ns: Forest, a: string) {
    exists i :: 0 <= i < |ns| && NodeHasAlias(ns[i], a)
  }

  predicate NodeHasAlias(n: Node, a: string) {
    n.body.Sub? && (n.body.alias == a || HasAlias(n.body.children, a))
  }

  predicate HasId(ns: Forest, id: nat) {
    exists i :: 0 <= i < |ns| && NodeHasId(ns[i], id)
  }

  predicate NodeHasId(n: Node, id: nat) {
    n.id == id || (n.body.Sub? && HasId(n.body.children, id))
  }

  /** Every id is below `next`, so `next` is free. */
  ghost predicate IdsBelow(ns: Forest, next: nat) {
    forall id: nat :: HasId(ns, id) ==> id < next
  }

  /** The tree without its ids. */
  function Shape(ns: Forest): Forest {
    seq(|ns|, i requires 0 <= i < |ns| => ShapeNode(ns[i]))
  }

  function ShapeNode(n: Node): Node {
    n.(id := 0, body := if n.body.Leaf? then n.body else n.body.(children := Shape(n.body.children)))
  }

  /** A copy with fresh ids from `next` on; the flows inside it get new aliases made from `name`. */
  function Copy(ns: Forest, name: string, next: nat): (r: (Forest, nat))
    ensures |r.0| == |ns| && next <= r.1
  {
    if ns == [] then ([], next)
    else
      var (front, mid) := Copy(ns[..|ns| - 1], name, next);
      var (last, end) := CopyNode(ns[|ns| - 1], name, mid);
      (front + [last], end)
  }

  function CopyNode(n: Node, name: string, next: nat): (r: (Node, nat))
    ensures next < r.1
  {
    if n.body.Leaf? then (n.(id := next), next + 1)
    else
      var (children, end) := Copy(n.body.children, name, next + 1);
      (n.(id := next, body := n.body.(alias := CopiedAlias(name, n.body.alias), children := children)), end)
  }

  function CopiedAlias(name: string, alias: string): string {
    name + " " + alias
  }

  /** What a copy looks like once ids are erased. */
  function CopiedShape(ns: Forest, name: string): Forest {
    seq(|ns|, i requires 0 <= i < |ns| => CopiedShapeNode(ns[i], name))
  }

  function CopiedShapeNode(n: Node, name: string): Node {
    if n.body.Leaf? then n.(id := 0)
    else
      var body := n.body.(alias := CopiedAlias(name, n.body.alias), children := CopiedShape(n.body.children, name));
      n.(id := 0, body := body)
  }

  // ---------- how the operations interact ----------

  /** An authenticator, or a flow that holds nothing yet. */
  predicate Childless(n: Node) {
    n.body.Sub? ==> n.body.children == []
  }

  function Filled(n: Node, ys: Forest): Node
    requires n.body.Sub?
  {
    n.(body := n.body.(children := ys))
  }

  lemma HasIdOne(n: Node, id: nat)
    ensures HasId([n], id) <==> NodeHasId(n, id)
  {
    assert [n][0] == n;
  }

  lemma LoneNode(n: Node, id: nat, p: Patch, ys: Forest)
    requires Childless(n)
    ensures HasId([n], id) <==> id == n.id
    ensures PatchAt([n], n.id, p) == [Apply(n, p)]
    ensures n.body.Sub? ==> Extend([n], n.body.alias, ys) == [Filled(n, ys)]
    ensures Flatten([n], 0) == [RowOf(n, 0)]
  {
    assert [n][..0] == [] && [n][0] == n;
    HasIdOne(n, id);
    assert FlattenNode(n, 0) == [RowOf(n, 0)];
    assert Flatten([n], 0) == Flatten([], 0) + FlattenNode(n, 0);
    if n.body.Sub? {
      assert Extend([], n.body.alias, ys) == [] && PatchAt([], n.id, p) == [];
      assert [] + ys == ys;
    }
  }

  lemma {:induction false} ExtendAbsent(ns: Forest, a: string, xs: Forest)
    requires !HasAlias(ns, a)
    ensures Extend(ns, a, xs) == ns
  {
    forall i | 0 <= i < |ns| ensures ExtendNode(ns[i], a, xs) == ns[i] {
      assert !NodeHasAlias(ns[i], a);
      if ns[i].body.Sub? {
        ExtendAbsent(ns[i].body.children, a, xs);
      }
    }
  }

  /** Appending twice under one alias is appending once. */
  lemma {:induction false} ExtendTwice(ns: Forest, a: string, xs: Forest, ys: Forest)
    requires !HasAlias(xs, a)
    ensures Extend(Extend(ns, a, xs), a, ys) == Extend(ns, a, xs + ys)
  {
    forall i | 0 <= i < |ns|
      ensures ExtendNode(ExtendNode(ns[i], a, xs), a, ys) == ExtendNode(ns[i], a, xs + ys)
    {
      if ns[i].body.Sub? {
        var c := ns[i].body.children;
        ExtendTwice(c, a, xs, ys);
        if ns[i].body.alias == a {
          ExtendAbsent(xs, a, ys);
          ExtendConcat(Extend(c, a, xs), xs, a, ys);
          assert (Extend(c, a, xs + ys) + xs) + ys == Extend(c, a, xs + ys) + (xs + ys);
        }
      }
    }
  }

  lemma ExtendConcat(ns: Forest, ms: Forest, a: string, xs: Forest)
    ensures Extend(ns + ms, a, xs) == Extend(ns, a, xs) + Extend(ms, a, xs)
  {}

  /** Filling a flow that was just appended empty is appending it filled. */
  lemma {:induction false} ExtendNew(ns: Forest, a: string, n: Node, ys: Forest)
    requires n.body.Sub? && Childless(n) && !HasAlias(ns, n.body.alias)
    ensures Extend(Extend(ns, a, [n]), n.body.alias, ys) == Extend(ns, a, [Filled(n, ys)])
  {
    forall i | 0 <= i < |ns|
      ensures ExtendNode(ExtendNode(ns[i], a, [n]), n.body.alias, ys) == ExtendNode(ns[i], a, [Filled(n, ys)])
    {
      assert !NodeHasAlias(ns[i], n.body.alias);
      if ns[i].body.Sub? {
        var c := ns[i].body.children;
        ExtendNew(c, a, n, ys);
        if ns[i].body.alias == a {
          ExtendConcat(Extend(c, a, [n]), [n], n.body.alias, ys);
          LoneNode(n, 0, SetRequirement(""), ys);
        }
      }
    }
  }

  /** Patching an entry that was just appended is appending it patched. */
  lemma {:induction false} PatchNew(ns: Forest, a: string, n: Node, p: Patch)
    requires Childless(n) && !HasId(ns, n.id)
    ensures PatchAt(Extend(ns, a, [n]), n.id, p) == Extend(ns, a, [Apply(n, p)])
  {
    forall i | 0 <= i < |ns|
      ensures PatchNode(ExtendNode(ns[i], a, [n]), n.id, p) == ExtendNode(ns[i], a, [Apply(n, p)])
    {
      assert !NodeHasId(ns[i], n.id);
      if ns[i].body.Sub? {
        var c := ns[i].body.children;
        PatchNew(c, a, n, p);
        if ns[i].body.alias == a {
          var e := Extend(c, a, [n]);
          assert PatchAt(e + [n], n.id, p) == PatchAt(e, n.id, p) + PatchAt([n], n.id, p);
          LoneNode(n, 0, p, []);
        }
      }
    }
  }

  lemma {:induction false} ExtendAliases(ns: Forest, a: string, xs: Forest, b: string)
    ensures HasAlias(Extend(ns, a, xs), b) <==> HasAlias(ns, b) || (HasAlias(ns, a) && HasAlias(xs, b))
  {
    var es := Extend(ns, a, xs);
    forall i | 0 <= i < |ns|
      ensures NodeHasAlias(es[i], b) <==> NodeHasAlias(ns[i], b) || (NodeHasAlias(ns[i], a) && HasAlias(xs, b))
    {
      if ns[i].body.Sub? {
        ExtendAliases(ns[i].body.children, a, xs, b);
        HasAliasConcat(Extend(ns[i].body.children, a, xs), xs, b);
      }
    }
  }

  lemma HasAliasConcat(ns: Forest, ms: Forest, b: string)
    ensures HasAlias(ns + ms, b) <==> HasAlias(ns, b) || HasAlias(ms, b)
  {
    var all := ns + ms;
    assert forall i :: 0 <= i < |ns| ==> all[i] == ns[i];
    assert forall i :: 0 <= i < |ms| ==> all[|ns| + i] == ms[i];
  }

  lemma {:induction false} ExtendIds(ns: Forest, a: string, xs: Forest, id: nat)
    ensures HasId(Extend(ns, a, xs), id) ==> HasId(ns, id) || HasId(xs, id)
    ensures HasId(ns, id) ==> HasId(Extend(ns, a, xs), id)
  {
    var es := Extend(ns, a, xs);
    forall i | 0 <= i < |ns|
      ensures NodeHasId(es[i], id) ==> NodeHasId(ns[i], id) || HasId(xs, id)
      ensures NodeHasId(ns[i], id) ==> NodeHasId(es[i], id)
    {
      assert es[i] == ExtendNode(ns[i], a, xs);
      if ns[i].body.Sub? {
        ExtendIds(ns[i].body.children, a, xs, id);
        HasIdConcat(Extend(ns[i].body.children, a, xs), xs, id);
      }
    }
  }

  lemma HasIdConcat(ns: Forest, ms: Forest, id: nat)
    ensures HasId(ns + ms, id) <==> HasId(ns, id) || HasId(ms, id)
  {
    var all := ns + ms;
    assert forall i :: 0 <= i < |ns| ==> all[i] == ns[i];
    assert forall i :: 0 <= i < |ms| ==> all[|ns| + i] == ms[i];
  }

  lemma {:induction false} ChildrenFound(ns: Forest, a: string)
    ensures ChildrenOf(ns, a).Some? <==> HasAlias(ns, a)
  {
    if ns != [] {
      if ns[0].body.Sub? {
        ChildrenFound(ns[0].body.children, a);
      }
      ChildrenFound(ns[1..], a);
      HasAliasConcat([ns[0]], ns[1..], a);
      assert ns == [ns[0]] + ns[1..];
      assert HasAlias([ns[0]], a) <==> NodeHasAlias(ns[0], a);
    }
  }

  /** What is appended under an alias stands last in what that alias holds. */
  lemma {:induction false} ExtendedChildren(ns: Forest, a: string, xs: Forest) returns (front: Forest)
    requires HasAlias(ns, a)
    ensures ChildrenOf(Extend(ns, a, xs), a) == Some(front + xs)
  {
    var es := Extend(ns, a, xs);
    assert es[1..] == Extend(ns[1..], a, xs);
    HasAliasConcat([ns[0]], ns[1..], a);
    assert ns == [ns[0]] + ns[1..];
    assert HasAlias([ns[0]], a) <==> NodeHasAlias(ns[0], a);
    if ns[0].body.Sub? && ns[0].body.alias == a {
      front := Extend(ns[0].body.children, a, xs);
    } else if NodeHasAlias(ns[0], a) {
      front := ExtendedChildren(ns[0].body.children, a, xs);
    } else {
      ExtendAbsent([ns[0]], a, xs);
      assert Extend([ns[0]], a, xs)[0] == es[0];
      ChildrenFound([ns[0]], a);
      assert ChildrenOf([ns[0]], a) == ChildrenOfNode(ns[0], a);
      front := ExtendedChildren(ns[1..], a, xs);
    }
  }

  /** The row a freshly appended entry is listed by. */
  function RowOf(n: Node, level: nat): Row {
    match n.body
    case Leaf(provider) => Row(n.id, false, provider, "", n.requirement, level)
    case Sub(alias, _, _) => Row(n.id, true, "", alias, n.requirement, level)
  }

  /** The entry appended last is the last line of its flow's listing, whatever stands before it. */
  lemma AppendedIsListedLast(ns: Forest, a: string, n: Node)
    requires HasAlias(ns, a) && Childless(n)
    ensures
      var c := ChildrenOf(Extend(ns, a, [n]), a);
      c.Some? && Flatten(c.value, 0) != [] && Flatten(c.value, 0)[|Flatten(c.value, 0)| - 1] == RowOf(n, 0)
  {
    var front := ExtendedChildren(ns, a, [n]);
    assert (front + [n])[..|front|] == front;
    LoneNode(n, 0, SetRequirement(""), []);
  }

  /** A copy looks like its source under the new aliases, and all its ids are new. */
  lemma {:induction false} CopyShape(ns: Forest, name: string, next: nat)
    ensures Shape(Copy(ns, name, next).0) == CopiedShape(ns, name)
    ensures forall id: nat :: HasId(Copy(ns, name, next).0, id) ==> next <= id < Copy(ns, name, next).1
  {
    if ns != [] {
      var front, last := ns[..|ns| - 1], ns[|ns| - 1];
      CopyShape(front, name, next);
      var (f, mid) := Copy(front, name, next);
      if last.body.Sub? {
        CopyShape(last.body.children, name, mid + 1);
      }
      var (l, end) := CopyNode(last, name, mid);
      assert Shape(f + [l]) == Shape(f) + [ShapeNode(l)];
      assert CopiedShape(ns, name) == CopiedShape(front, name) + [CopiedShapeNode(last, name)];
      forall id: nat | HasId(f + [l], id) ensures next <= id < end {
        HasIdConcat(f, [l], id);
        HasIdOne(l, id);
      }
    }
  }

  lemma {:induction false} ShapeAliases(ns: Forest, a: string)
    ensures HasAlias(Shape(ns), a) <==> HasAlias(ns, a)
  {
    forall i | 0 <= i < |ns| ensures NodeHasAlias(Shape(ns)[i], a) <==> NodeHasAlias(ns[i], a) {
      if ns[i].body.Sub? {
        ShapeAliases(ns[i].body.children, a);
      }
    }
  }

  // ---------- the endpoints ----------

  datatype FlowRow = FlowRow(id: nat, alias: string, builtIn: bool)

  class Server {
    /** Top-level flows, in listing order. */
    var forest: Forest
    var nextId: nat
    /** How many requests asked for a change, accepted or not. */
    var writes: nat
    /** The requirement an authenticator starts with, by provider; subflows have one of their own. */
    const defaultRequirement: string -> string
    const subflowRequirement: string

    ghost predicate Valid()
      reads this
    {
      IdsBelow(forest, nextId) && forall i :: 0 <= i < |forest| ==> forest[i].body.Sub?
    }

    /** The realm's top-level flows. */
    method GetAuthenticationFlows() returns (rows: seq<FlowRow>)
      requires Valid()
      ensures |rows| == |forest|
      ensures forall i :: 0 <= i < |rows| ==>
          rows[i] == FlowRow(forest[i].id, forest[i].body.alias, forest[i].body.info.builtIn)
    {
      rows := seq(|forest|, i requires 0 <= i < |forest| reads this requires Valid() =>
                    FlowRow(forest[i].id, forest[i].body.alias, forest[i].body.info.builtIn));
    }

    /** An alias in use, by a flow or a subflow, is refused. */
    method CreateAuthenticationFlow(alias: string, kind: string, description: string) returns (ok: bool, ghost n: Node)
      requires Valid()
      modifies this
      ensures Valid() && writes == old(writes) + 1
      ensures ok <==> !HasAlias(old(forest), alias)
      ensures ok ==> n == Node(old(nextId), "", None, Sub(alias, FlowInfo(kind, description, false), []))
      ensures ok ==> forest == old(forest) + [n] && nextId == old(nextId) + 1
      ensures !ok ==> forest == old(forest) && nextId == old(nextId)
    {
      writes := writes + 1;
      ok := !HasAlias(forest, alias);
      n := Node(nextId, "", None, Sub(alias, FlowInfo(kind, description, false), []));
      if ok {
        NewNodeIds(forest, Node(nextId, "", None, Sub(alias, FlowInfo(kind, description, false), [])), nextId);
        forest, nextId := forest + [Node(nextId, "", None, Sub(alias, FlowInfo(kind, description, false), []))],
          nextId + 1;
      }
    }

    /** Copies a flow and its executions; an unknown source, or an alias in use, is refused. */
    method CopyAuthenticationFlow(source: string, newName: string) returns (ok: bool, ghost n: Node)
      requires Valid()
      modifies this
      ensures Valid() && writes == old(writes) + 1
      ensures ok <==> CopyAccepted(old(forest), source, newName)
      ensures !ok ==> forest == old(forest) && nextId == old(nextId)
      ensures ok ==> n.body.Sub? && n.body.alias == newName && !n.body.info.builtIn
      ensures ok ==> forest == old(forest) + [n] && old(nextId) <= nextId
      ensures ok ==> Shape(n.body.children) == CopiedShape(TopLevel(old(forest), source).value.body.children, newName)
    {
      writes := writes + 1;
      ok := CopyAccepted(forest, source, newName);
      if ok {
        var s := TopLevel(forest, source).value;
        var (children, end) := Copy(s.body.children, newName, nextId + 1);
        CopyShape(s.body.children, newName, nextId + 1);
        var copy := s.(id := nextId, body := Sub(newName, s.body.info.(builtIn := false), children));
        n := copy;
        forall id: nat | HasId(forest + [copy], id) ensures id < end {
          HasIdConcat(forest, [copy], id);
          HasIdOne(copy, id);
        }
        forest, nextId := forest + [copy], end;
      } else {
        n := Node(0, "", None, Leaf(""));
      }
    }

    method GetAuthenticationFlowExecutions(alias: string) returns (rows: Option<seq<Row>>)
      ensures rows.Some? <==> HasAlias(forest, alias)
      ensures rows.Some? ==>
                ChildrenOf(forest, alias).Some? && rows.value == Flatten(ChildrenOf(forest, alias).value, 0)
    {
      ChildrenFound(forest, alias);
      match ChildrenOf(forest, alias) {
        case Some(c) => rows := Some(Flatten(c, 0));
        case None => rows := None;
      }
    }

    /** The entry is identified by its id; the flow alias only addresses the endpoint. */
    method UpdateAuthenticationFlowExecution(alias: string, row: Row) returns (ok: bool)
      modifies this
      ensures writes == old(writes) + 1 && nextId == old(nextId)
      ensures ok <==> HasId(old(forest), row.id)
      ensures forest == PatchAt(old(forest), row.id, SetRequirement(row.requirement))
    {
      writes := writes + 1;
      ok := HasId(forest, row.id);
      forest := PatchAt(forest, row.id, SetRequirement(row.requirement));
    }

    /** Appends an authenticator with its default requirement; no id is returned. */
    method CreateAuthenticationExecution(alias: string, provider: string) returns (ok: bool, ghost n: Node)
      requires Valid()
      modifies this
      ensures Valid() && writes == old(writes) + 1
      ensures ok <==> HasAlias(old(forest), alias)
      ensures n == Node(old(nextId), defaultRequirement(provider), None, Leaf(provider))
      ensures ok ==> forest == Extend(old(forest), alias, [n]) && nextId == old(nextId) + 1
      ensures !ok ==> forest == old(forest) && nextId == old(nextId)
    {
      writes := writes + 1;
      n := Node(nextId, defaultRequirement(provider), None, Leaf(provider));
      ok := HasAlias(forest, alias);
      if ok {
        NewLeafIds(forest, alias, n, nextId);
        forest, nextId := Extend(forest, alias, [Node(nextId, defaultRequirement(provider), None, Leaf(provider))]),
          nextId + 1;
      }
    }

    /** Appends an empty subflow; an alias in use is refused. */
    method CreateAuthenticationSubflow(alias: string, subflow: string, kind: string, description: string)
        returns (ok: bool, ghost n: Node)
      requires Valid()
      modifies this
      ensures Valid() && writes == old(writes) + 1
      ensures ok <==> HasAlias(old(forest), alias) && !HasAlias(old(forest), subflow)
      ensures n == Node(old(nextId), subflowRequirement, None, Sub(subflow, FlowInfo(kind, description, false), []))
      ensures ok ==> forest == Extend(old(forest), alias, [n]) && nextId == old(nextId) + 1
      ensures !ok ==> forest == old(forest) && nextId == old(nextId)
    {
      writes := writes + 1;
      n := Node(nextId, subflowRequirement, None, Sub(subflow, FlowInfo(kind, description, false), []));
      ok := HasAlias(forest, alias) && !HasAlias(forest, subflow);
      if ok {
        NewLeafIds(forest, alias, n, nextId);
        forest := Extend(forest, alias,
          [Node(nextId, subflowRequirement, None, Sub(subflow, FlowInfo(kind, description, false), []))]);
        nextId := nextId + 1;
      }
    }

    method CreateAuthenticationExecutionConfig(id: nat, settings: Settings) returns (ok: bool)
      modifies this
      ensures writes == old(writes) + 1 && nextId == old(nextId)
      ensures ok <==> HasId(old(forest), id)
      ensures forest == PatchAt(old(forest), id, SetSettings(settings))
    {
      writes := writes + 1;
      ok := HasId(forest, id);
      forest := PatchAt(forest, id, SetSettings(settings));
    }

    constructor (forest: Forest, nextId: nat, defaultRequirement: string -> string, subflowRequirement: string)
      requires IdsBelow(forest, nextId) && forall i :: 0 <= i < |forest| ==> forest[i].body.Sub?
      ensures Valid() && this.forest == forest && this.nextId == nextId && writes == 0
      ensures this.defaultRequirement == defaultRequirement && this.subflowRequirement == subflowRequirement
    {
      this.forest, this.nextId, writes := forest, nextId, 0;
      this.defaultRequirement, this.subflowRequirement := defaultRequirement, subflowRequirement;
    }
  }

  /** The top-level flow with this alias. */
  function TopLevel(ns: Forest, alias: string): (r: Option<Node>)
    ensures r.Some? ==> r.value in ns && r.value.body.Sub? && r.value.body.alias == alias
    ensures r.None? ==> forall n :: n in ns ==> !(n.body.Sub? && n.body.alias == alias)
  {
    if ns == [] then None
    else if ns[0].body.Sub? && ns[0].body.alias == alias then Some(ns[0])
    else TopLevel(ns[1..], alias)
  }

  /** No alias the copy would carry is in use. */
  predicate CopyAccepted(ns: Forest, source: string, newName: string) {
    && TopLevel(ns, source).Some? && !HasAlias(ns, newName)
    && forall a :: a in AliasesIn(CopiedShape(TopLevel(ns, source).value.body.children, newName)) ==>
      !HasAlias(ns, a) && a != newName
  }

  function AliasesIn(ns: Forest): set<string> {
    if ns == [] then {} else AliasesIn(ns[..|ns| - 1]) + NodeAliasesIn(ns[|ns| - 1])
  }

  function NodeAliasesIn(n: Node): set<string> {
    if n.body.Leaf? then {} else {n.body.alias} + AliasesIn(n.body.children)
  }

  lemma NewNodeIds(ns: Forest, n: Node, next: nat)
    requires IdsBelow(ns, next) && n.id == next && Childless(n)
    ensures IdsBelow(ns + [n], next + 1)
  {
    forall id: nat | HasId(ns + [n], id) ensures id < next + 1 {
      HasIdConcat(ns, [n], id);
      LoneNode(n, id, SetRequirement(""), []);
    }
  }

  lemma NewLeafIds(ns: Forest, a: string, n: Node, next: nat)
    requires IdsBelow(ns, next) && n.id == next && Childless(n)
    ensures IdsBelow(Extend(ns, a, [n]), next + 1)
  {
    forall id: nat | HasId(Extend(ns, a, [n]), id) ensures id < next + 1 {
      ExtendIds(ns, a, [n], id);
      LoneNode(n, id, SetRequirement(""), []);
    }
  }
}
