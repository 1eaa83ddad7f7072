/** Text and map encodings of the config: sorted keys, expandMultiValueMap, default ACR values, group paths. */
module ConfigMaps {
  import opened Lists
  import opened Text

  // ---------- sorted keys ----------

  /** Go's order on strings. */
  predicate Less(a: string, b: string) {
    b != "" && (a == "" || a[0] < b[0] || (a[0] == b[0] && Less(a[1..], b[1..])))
  }

  lemma {:induction false} LessIsAnOrder(a: string, b: string, c: string)
    ensures !Less(a, a)
    ensures a == b || Less(a, b) || Less(b, a)
    ensures Less(a, b) && Less(b, c) ==> Less(a, c)
    decreases |a| + |b| + |c|
  {
    if a != "" && b != "" && c != "" {
      LessIsAnOrder(a[1..], b[1..], c[1..]);
      assert a[0] == b[0] && a[1..] == b[1..] ==> a == b by {
        assert a == [a[0]] + a[1..] && b == [b[0]] + b[1..];
      }
    } else if a != "" && b != "" {
      LessIsAnOrder(a[1..], b[1..], c);
      assert a[0] == b[0] && a[1..] == b[1..] ==> a == b by {
        assert a == [a[0]] + a[1..] && b == [b[0]] + b[1..];
      }
    } else if a != "" {
      LessIsAnOrder(a[1..], b, c);
    }
  }

  /** `b` goes on where `a` ends, or the first character in which they differ is smaller in `a`. */
  predicate ComesFirst(a: string, b: string) {
    || (|a| < |b| && b[..|a|] == a)
    || exists n :: 0 <= n < |a| && n < |b| && DifferAt(a, b, n)
  }

  predicate DifferAt(a: string, b: string, n: nat)
    requires n < |a| && n < |b|
  {
    a[..n] == b[..n] && a[n] < b[n]
  }

  /** The order is the one of dictionaries. */
  lemma {:induction false} LessMeans(a: string, b: string)
    ensures Less(a, b) <==> ComesFirst(a, b)
    decreases |a|
  {
    if a == "" || b == "" {
      assert b[..0] == "";
    } else if a[0] != b[0] {
      if |a| < |b| {
        assert b[..|a|][0] == b[0];
      }
      forall n | 0 <= n < |a| && n < |b| && DifferAt(a, b, n) ensures n == 0 || a[0] == b[0] {
        SameStart(a, b, n);
      }
      assert a[0] < b[0] ==> DifferAt(a, b, 0);
    } else {
      LessMeans(a[1..], b[1..]);
      TailComesFirst(a, b);
    }
  }

  lemma SameStart(a: string, b: string, n: nat)
    requires n < |a| && n < |b| && DifferAt(a, b, n)
    ensures n == 0 || a[0] == b[0]
  {
    assert n > 0 ==> a[..n][0] == b[..n][0];
  }

  lemma TailComesFirst(a: string, b: string)
    requires a != "" && b != "" && a[0] == b[0]
    ensures ComesFirst(a[1..], b[1..]) <==> ComesFirst(a, b)
  {
    var x, y := a[1..], b[1..];
    assert a == [a[0]] + x && b == [a[0]] + y;
    if |x| < |y| && y[..|x|] == x {
      assert b[..|a|] == [a[0]] + y[..|x|];
    }
    if |a| < |b| && b[..|a|] == a {
      assert y[..|x|] == b[..|a|][1..];
    }
    forall n | 0 <= n < |x| && n < |y| && DifferAt(x, y, n) ensures DifferAt(a, b, n + 1) {
      assert a[..n + 1] == [a[0]] + x[..n] && b[..n + 1] == [a[0]] + y[..n];
    }
    forall n | 0 <= n < |a| && n < |b| && DifferAt(a, b, n) ensures n > 0 && DifferAt(x, y, n - 1) {
      assert n > 0 ==> x[..n - 1] == a[..n][1..] && y[..n - 1] == b[..n][1..];
    }
  }

  predicate Sorted(ks: seq<string>) {
    forall i, j :: 0 <= i < j < |ks| ==> Less(ks[i], ks[j])
  }

  /** `ks` lists `keys` in ascending order, each once. */
  ghost predicate IsSortedListing(ks: seq<string>, keys: set<string>) {
    Sorted(ks) && forall k :: k in ks <==> k in keys
  }

  function Insert(k: string, ks: seq<string>): seq<string> {
    if ks == [] || Less(k, ks[0]) then [k] + ks else [ks[0]] + Insert(k, ks[1..])
  }

  lemma {:induction false} InsertSorted(k: string, ks: seq<string>)
    requires Sorted(ks) && k !in ks
    ensures Sorted(Insert(k, ks))
    ensures forall x :: x in Insert(k, ks) <==> x == k || x in ks
  {
    if ks != [] && !Less(k, ks[0]) {
      var rest := ks[1..];
      InsertSorted(k, rest);
      LessIsAnOrder(k, ks[0], k);
      assert ks == [ks[0]] + rest;
      assert forall x :: x in Insert(k, rest) ==> Less(ks[0], x);
    } else {
      forall i | 0 <= i < |ks| ensures Less(k, ks[i]) {
        if i > 0 {
          LessIsAnOrder(k, ks[0], ks[i]);
        }
      }
    }
  }

  /** Go's `slices.Sorted(maps.Keys(m))`; the keys come in any order. */
  method SortedKeys(keys: set<string>) returns (ks: seq<string>)
    ensures IsSortedListing(ks, keys)
  {
    ks := [];
    var rest := keys;
    while rest != {}
      invariant rest <= keys && IsSortedListing(ks, keys - rest)
      decreases rest
    {
      var k :| k in rest;
      InsertSorted(k, ks);
      ks := Insert(k, ks);
      rest := rest - {k};
    }
  }

  lemma NoMembers(xs: seq<string>)
    ensures xs != [] ==> exists k :: k in xs
  {
    if xs != [] {
      assert xs[0] in xs;
    }
  }

  /** A set has only one sorted listing, so nothing computed from it depends on map order. */
  lemma {:induction false} SortedListingIsUnique(xs: seq<string>, ys: seq<string>, keys: set<string>)
    requires IsSortedListing(xs, keys) && IsSortedListing(ys, keys)
    ensures xs == ys
    decreases |xs|
  {
    if xs == [] {
      NoMembers(ys);
    } else {
      assert xs[0] in xs;
      var j :| 0 <= j < |ys| && ys[j] == xs[0];
      assert ys[0] in ys;
      var i :| 0 <= i < |xs| && xs[i] == ys[0];
      LessIsAnOrder(xs[0], ys[0], xs[0]);
      assert xs[0] == ys[0];
      forall k ensures k in xs[1..] <==> k in keys - {xs[0]} {
        TailMembers(xs, k);
      }
      forall k ensures k in ys[1..] <==> k in keys - {xs[0]} {
        TailMembers(ys, k);
      }
      SortedListingIsUnique(xs[1..], ys[1..], keys - {xs[0]});
      assert xs == [xs[0]] + xs[1..] && ys == [ys[0]] + ys[1..];
    }
  }

  lemma TailMembers(xs: seq<string>, k: string)
    requires xs != [] && Sorted(xs)
    ensures k in xs[1..] <==> k in xs && k != xs[0]
  {
    LessIsAnOrder(xs[0], xs[0], xs[0]);
    assert xs == [xs[0]] + xs[1..];
  }

  /** The sorted listing of a set. */
  ghost function SortedListing(keys: set<string>): (ks: seq<string>)
    ensures IsSortedListing(ks, keys)
    decreases keys
  {
    if keys == {} then []
    else
      var k :| k in keys;
      var rest := SortedListing(keys - {k});
      InsertSorted(k, rest);
      Insert(k, rest)
  }

  // ---------- expandMultiValueMap ----------

  function ExpandAll(values: seq<string>, f: string -> string): (r: seq<string>)
    ensures |r| == |values|
  {
    seq(|values|, i requires 0 <= i < |values| => f(values[i]))
  }

  /** The expanded values of every source key in `ks` that expands to `key`, in the order of `ks`. */
  function Gather(ks: seq<string>, m: map<string, seq<string>>, key: string, f: string -> string): seq<string>
    requires forall k :: k in ks ==> k in m
  {
    if ks == [] then []
    else
      var last := ks[|ks| - 1];
      Gather(ks[..|ks| - 1], m, key, f)
      + if f(last) == key then ExpandAll(m[last], f) else []
  }

  /** All values a map holds, over all its keys. */
  ghost function AllValues(m: map<string, seq<string>>): multiset<string> {
    if m == map[] then multiset{}
    else
      var k :| k in m;
      multiset(m[k]) + AllValues(m - {k})
  }

  lemma {:induction false} AllValuesSplit(m: map<string, seq<string>>, k: string)
    requires k in m
    ensures AllValues(m) == multiset(m[k]) + AllValues(m - {k})
    decreases |m|
  {
    var j :| j in m && AllValues(m) == multiset(m[j]) + AllValues(m - {j});
    if j != k {
      AllValuesSplit(m - {j}, k);
      AllValuesSplit(m - {k}, j);
      assert (m - {j}) - {k} == (m - {k}) - {j};
    }
  }

  lemma AllValuesUpdate(m: map<string, seq<string>>, k: string, old': seq<string>, more: seq<string>)
    requires old' == if k in m then m[k] else []
    ensures AllValues(m[k := old' + more]) == AllValues(m) + multiset(more)
  {
    var m' := m[k := old' + more];
    AllValuesSplit(m', k);
    assert multiset(old' + more) == multiset(old') + multiset(more);
    if k in m {
      AllValuesSplit(m, k);
      assert m' - {k} == m - {k};
    } else {
      assert m' - {k} == m;
    }
  }

  /** Every source value, expanded. */
  ghost function AllExpanded(ks: seq<string>, m: map<string, seq<string>>, f: string -> string): multiset<string>
    requires forall k :: k in ks ==> k in m
  {
    if ks == [] then multiset{}
    else AllExpanded(ks[..|ks| - 1], m, f) + multiset(ExpandAll(m[ks[|ks| - 1]], f))
  }

  function ExpandedKeys(ks: seq<string>, f: string -> string): (r: set<string>)
    ensures forall k :: k in ks ==> f(k) in r
    ensures forall key :: key in r ==> exists k :: k in ks && f(k) == key
  {
    if ks == [] then {}
    else
      assert ks == ks[..|ks| - 1] + [ks[|ks| - 1]] && ks[|ks| - 1] in ks;
      ExpandedKeys(ks[..|ks| - 1], f) + {f(ks[|ks| - 1])}
  }

  /** Each key holds the gathered values of the source keys in `ks`, and nothing else is a key. */
  ghost predicate IsGathered(m: map<string, seq<string>>, f: string -> string, ks: seq<string>, r: map<string,
      seq<string>>)
    requires forall k :: k in ks ==> k in m
  {
    && r.Keys == ExpandedKeys(ks, f)
    && (forall key :: key in r ==> r[key] == Gather(ks, m, key, f))
  }

  /** What expandMultiValueMap promises, once the source keys in `ks` have been dealt with. */
  ghost predicate IsExpansion(m: map<string, seq<string>>, f: string -> string, ks: seq<string>, r: map<string,
      seq<string>>)
    requires forall k :: k in ks ==> k in m
  {
    IsGathered(m, f, ks, r) && AllValues(r) == AllExpanded(ks, m, f)
  }

  lemma {:induction false} GatherNothing(ks: seq<string>, m: map<string, seq<string>>, key: string, f: string -> string)
    requires forall k :: k in ks ==> k in m
    requires key !in ExpandedKeys(ks, f)
    ensures Gather(ks, m, key, f) == []
  {
    if ks != [] {
      GatherNothing(ks[..|ks| - 1], m, key, f);
    }
  }

  lemma GatherStep(ks: seq<string>, k: string, m: map<string, seq<string>>, key: string, f: string -> string)
    requires k in m && forall k :: k in ks ==> k in m
    ensures
      Gather(ks + [k], m, key, f) ==
      Gather(ks, m, key, f) + if f(k) == key then ExpandAll(m[k], f) else []
    ensures AllExpanded(ks + [k], m, f) == AllExpanded(ks, m, f) + multiset(ExpandAll(m[k], f))
    ensures ExpandedKeys(ks + [k], f) == ExpandedKeys(ks, f) + {f(k)}
  {
    assert (ks + [k])[..|ks|] == ks;
  }

  /** Append `vs` to what `key` already holds. */
  function Merge(r: map<string, seq<string>>, key: string, vs: seq<string>): map<string, seq<string>> {
    r[key := (if key in r then r[key] else []) + vs]
  }

  lemma GatheredStep(m: map<string, seq<string>>, f: string -> string, ks: seq<string>, k: string, r: map<string,
      seq<string>>)
    requires k in m && forall k :: k in ks ==> k in m
    requires IsGathered(m, f, ks, r)
    ensures IsGathered(m, f, ks + [k], Merge(r, f(k), ExpandAll(m[k], f)))
  {
    var r' := Merge(r, f(k), ExpandAll(m[k], f));
    forall x | x in r' ensures r'[x] == Gather(ks + [k], m, x, f) {
      GatherStep(ks, k, m, x, f);
      if x !in r {
        GatherNothing(ks, m, x, f);
      }
    }
    GatherStep(ks, k, m, f(k), f);
    assert r'.Keys == r.Keys + {f(k)};
  }

  lemma ExpansionStep(m: map<string, seq<string>>, f: string -> string, ks: seq<string>, k: string, r: map<string,
      seq<string>>)
    requires k in m && forall k :: k in ks ==> k in m
    requires IsExpansion(m, f, ks, r)
    ensures IsExpansion(m, f, ks + [k], Merge(r, f(k), ExpandAll(m[k], f)))
  {
    GatheredStep(m, f, ks, k, r);
    AllValuesUpdate(r, f(k), if f(k) in r then r[f(k)] else [], ExpandAll(m[k], f));
    GatherStep(ks, k, m, f(k), f);
  }

  /** The map built by visiting the source keys `ks` in order. */
  function Expanded(m: map<string, seq<string>>, f: string -> string, ks: seq<string>): map<string, seq<string>>
    requires forall k :: k in ks ==> k in m
  {
    if ks == [] then map[]
    else
      var last := ks[|ks| - 1];
      Merge(Expanded(m, f, ks[..|ks| - 1]), f(last), ExpandAll(m[last], f))
  }

  lemma NothingExpanded(m: map<string, seq<string>>, f: string -> string)
    ensures IsExpansion(m, f, [], Expanded(m, f, []))
  {}

  lemma {:induction false} ExpandedIsExpansion(m: map<string, seq<string>>, f: string -> string, ks: seq<string>)
    requires forall k :: k in ks ==> k in m
    ensures IsExpansion(m, f, ks, Expanded(m, f, ks))
  {
    hide IsExpansion;
    NothingExpanded(m, f);
    if ks != [] {
      var rest, last := ks[..|ks| - 1], ks[|ks| - 1];
      ExpandedIsExpansion(m, f, rest);
      ExpansionStep(m, f, rest, last, Expanded(m, f, rest));
      assert rest + [last] == ks;
    }
  }

  /** Under a key they share, the values of `k1` come before those of `k2`. */
  ghost predicate InOrder(m: map<string, seq<string>>, f: string -> string, vs: seq<string>, k1: string, k2: string)
    requires k1 in m && k2 in m
  {
    exists i, j :: i + |m[k1]| <= j && HoldsAt(m, f, vs, k1, i) && HoldsAt(m, f, vs, k2, j)
  }

  ghost predicate HoldsAt(m: map<string, seq<string>>, f: string -> string, vs: seq<string>, k: string, i: int)
    requires k in m
  {
    0 <= i && i + |m[k]| <= |vs| && forall n :: 0 <= n < |m[k]| ==> vs[i + n] == f(m[k][n])
  }

  /** The values of a key stand together. */
  lemma {:induction false} GatheredAt(ks: seq<string>, m: map<string, seq<string>>, key: string, f: string -> string,
                                      n: nat) returns (i: nat)
    requires forall k :: k in ks ==> k in m
    requires n < |ks| && f(ks[n]) == key
    ensures HoldsAt(m, f, Gather(ks, m, key, f), ks[n], i)
    ensures i == |Gather(ks[..n], m, key, f)|
  {
    var front, last := ks[..|ks| - 1], ks[|ks| - 1];
    if n == |ks| - 1 {
      i := |Gather(front, m, key, f)|;
    } else {
      assert front[n] == ks[n] && front[..n] == ks[..n];
      i := GatheredAt(front, m, key, f, n);
    }
  }

  lemma {:induction false} GatherLonger(ks: seq<string>, m: map<string, seq<string>>, key: string,
                                        f: string -> string, n: nat)
    requires n <= |ks| && forall k :: k in ks ==> k in m
    ensures |Gather(ks[..n], m, key, f)| <= |Gather(ks, m, key, f)|
  {
    if n < |ks| {
      assert ks[..|ks| - 1][..n] == ks[..n];
      GatherLonger(ks[..|ks| - 1], m, key, f, n);
    } else {
      assert ks[..n] == ks;
    }
  }

  lemma Places(ks: seq<string>, keys: set<string>, k1: string, k2: string) returns (n1: nat, n2: nat)
    requires IsSortedListing(ks, keys) && k1 in keys && k2 in keys && ComesFirst(k1, k2)
    ensures n1 < n2 < |ks| && ks[n1] == k1 && ks[n2] == k2
  {
    LessMeans(k1, k2);
    LessIsAnOrder(k1, k2, k1);
    n1 :| 0 <= n1 < |ks| && ks[n1] == k1;
    n2 :| 0 <= n2 < |ks| && ks[n2] == k2;
  }

  lemma GatheredInOrder(ks: seq<string>, m: map<string, seq<string>>, key: string, f: string -> string, k1: string,
                        k2: string)
    requires IsSortedListing(ks, m.Keys) && k1 in m && k2 in m && f(k1) == f(k2) == key && ComesFirst(k1, k2)
    ensures InOrder(m, f, Gather(ks, m, key, f), k1, k2)
  {
    var n1, n2 := Places(ks, m.Keys, k1, k2);
    hide Sorted, ComesFirst, HoldsAt;
    var i := GatheredAt(ks, m, key, f, n1);
    var j := GatheredAt(ks, m, key, f, n2);
    GatherOneMore(ks, m, key, f, n1);
    assert ks[..n2][..n1 + 1] == ks[..n1 + 1];
    GatherLonger(ks[..n2], m, key, f, n1 + 1);
  }

  lemma GatherOneMore(ks: seq<string>, m: map<string, seq<string>>, key: string, f: string -> string, n: nat)
    requires n < |ks| && (forall k :: k in ks ==> k in m) && f(ks[n]) == key
    ensures |Gather(ks[..n + 1], m, key, f)| == |Gather(ks[..n], m, key, f)| + |m[ks[n]]|
  {
    assert ks[..n + 1][..n] == ks[..n];
  }

  method ExpandValues(values: seq<string>, f: string -> string) returns (vs: seq<string>)
    ensures vs == ExpandAll(values, f)
  {
    vs := [];
    for i := 0 to |values|
      invariant vs == ExpandAll(values, f)[..i]
    {
      vs := vs + [f(values[i])];
    }
  }

  lemma ValuesInOrder(m: map<string, seq<string>>, f: string -> string, ks: seq<string>,
                      expanded: map<string, seq<string>>)
    requires IsSortedListing(ks, m.Keys) && IsGathered(m, f, ks, expanded)
    ensures forall k :: k in m ==> f(k) in expanded
    ensures forall k1, k2 :: k1 in m && k2 in m && f(k1) == f(k2) && ComesFirst(k1, k2) ==>
              InOrder(m, f, expanded[f(k1)], k1, k2)
  {
    hide ComesFirst, InOrder, Sorted;
    forall k1, k2 | k1 in m && k2 in m && f(k1) == f(k2) && ComesFirst(k1, k2)
      ensures InOrder(m, f, expanded[f(k1)], k1, k2)
    {
      GatheredInOrder(ks, m, f(k1), f, k1, k2);
    }
  }

  /** Keys that expand alike are concatenated in the dictionary order of the source keys; no value is lost or added. */
  method ExpandMultiValueMap(m: map<string, seq<string>>, f: string -> string)
    returns (expanded: map<string, seq<string>>)
    ensures IsExpansion(m, f, SortedListing(m.Keys), expanded)
    ensures forall k :: k in m ==> f(k) in expanded
    ensures forall k1, k2 :: k1 in m && k2 in m && f(k1) == f(k2) && ComesFirst(k1, k2) ==>
              InOrder(m, f, expanded[f(k1)], k1, k2)
  {
    if |m| == 0 {
      return m;
    }
    var ks := SortedKeys(m.Keys);
    SortedListingIsUnique(ks, SortedListing(m.Keys), m.Keys);
    expanded := map[];
    for n := 0 to |ks|
      invariant expanded == Expanded(m, f, ks[..n])
    {
      var vs := ExpandValues(m[ks[n]], f);
      expanded := Merge(expanded, f(ks[n]), vs);
      assert ks[..n + 1][..n] == ks[..n];
    }
    assert ks[..|ks|] == ks;
    ExpandedIsExpansion(m, f, ks);
    ValuesInOrder(m, f, ks, expanded);
  }

  /** The result is a function of the map alone. */
  lemma ExpansionIsUnique(m: map<string, seq<string>>, f: string -> string, ks1: seq<string>, r1: map<string,
      seq<string>>,
                          ks2: seq<string>, r2: map<string, seq<string>>)
    requires IsSortedListing(ks1, m.Keys) && IsExpansion(m, f, ks1, r1)
    requires IsSortedListing(ks2, m.Keys) && IsExpansion(m, f, ks2, r2)
    ensures r1 == r2
  {
    SortedListingIsUnique(ks1, ks2, m.Keys);
    assert r1.Keys == r2.Keys;
  }

  // ---------- default ACR values ----------

  const ACR_SEPARATOR := "##"

  function BuildDefaultAcrValues(values: seq<string>): string {
    if values == [] then "" else Join(values, ACR_SEPARATOR)
  }

  /** A value the validator takes on its own: non-empty, without a null byte or the separator. */
  predicate AcceptableAcrValue(v: string) {
    v != "" && !HasNull(v) && !Contains(v, ACR_SEPARATOR)
  }

  predicate AcceptableAcrList(values: seq<string>, known: set<string>) {
    && (forall i :: 0 <= i < |values| ==> AcceptableAcrValue(values[i]))
    && Distinct(values)
    && (known != {} ==> forall i :: 0 <= i < |values| ==> values[i] in known)
  }

  /** `known` holds the names of the realm's and the client's ACR-to-LoA maps. */
  method ValidateDefaultAcrValues(values: seq<string>, realmNames: set<string>, clientNames: set<string>)
    returns (ok: bool)
    ensures ok <==> AcceptableAcrList(values, realmNames + clientNames)
  {
    if |values| == 0 {
      return true;
    }
    var seen: set<string> := {};
    for i := 0 to |values|
      invariant forall x :: x in seen <==> x in values[..i]
      invariant Distinct(values[..i])
      invariant forall j :: 0 <= j < i ==> AcceptableAcrValue(values[j])
    {
      var v := values[i];
      if v == "" || HasNull(v) || IndexFrom(v, ACR_SEPARATOR, 0).Some? || v in seen {
        if v in seen {
          var j :| 0 <= j < i && values[..i][j] == v;
          assert values[j] == values[i];
        }
        return false;
      }
      seen := seen + {v};
      assert values[..i + 1] == values[..i] + [v];
    }
    assert values[..|values|] == values;
    var known := realmNames + clientNames;
    if known == {} {
      return true;
    }
    for i := 0 to |values|
      invariant forall j :: 0 <= j < i ==> values[j] in known
    {
      if values[i] !in known {
        return false;
      }
    }
    ok := true;
  }

  lemma EndsCleanlyAcr(v: string)
    requires AcceptableAcrValue(v)
    ensures EndsCleanly(v, ACR_SEPARATOR) <==> v[|v| - 1] != '#'
  {
    var s := v + ACR_SEPARATOR;
    forall i | 0 <= i < |v| - 1 ensures !(ACR_SEPARATOR <= s[i..]) {
      assert s[i..][..2] == v[i..][..2];
      assert ACR_SEPARATOR <= s[i..] <==> ACR_SEPARATOR <= v[i..];
    }
    var i := |v| - 1;
    var t := s[i..];
    assert t == [v[i]] + "##";
    assert t[..2] == [v[i], '#'] && (ACR_SEPARATOR <= t <==> t[..2] == ['#', '#']);
    assert EndsCleanly(v, ACR_SEPARATOR) ==> !(ACR_SEPARATOR <= s[i..]);
  }

  /** Splitting the stored attribute gives the values back exactly when none but the last ends in '#'. */
  lemma AcrRoundTrip(values: seq<string>, known: set<string>)
    requires values != [] && AcceptableAcrList(values, known)
    ensures Split(BuildDefaultAcrValues(values), ACR_SEPARATOR) == values <==>
            forall k :: 0 <= k < |values| - 1 ==> values[k][|values[k]| - 1] != '#'
  {
    SplitJoin(values, ACR_SEPARATOR);
    forall k | 0 <= k < |values|
      ensures EndsCleanly(values[k], ACR_SEPARATOR) <==> values[k][|values[k]| - 1] != '#'
    {
      EndsCleanlyAcr(values[k]);
    }
  }

  /** A list the validator accepts that does not survive the round trip. */
  lemma AcrRoundTripCanFail()
    ensures AcceptableAcrList(["a#", "b"], {})
    ensures Split(BuildDefaultAcrValues(["a#", "b"]), ACR_SEPARATOR) != ["a#", "b"]
  {
    var values := ["a#", "b"];
    assert !Contains("a#", ACR_SEPARATOR) by {
      forall i | 0 <= i <= 2 ensures !(ACR_SEPARATOR <= "a#"[i..]) {
        if i == 0 {
          assert "a#"[0] == 'a';
        }
      }
    }
    assert !Contains("b", ACR_SEPARATOR);
    AcrRoundTrip(values, {});
    assert values[0][|values[0]| - 1] == '#';
  }

  // ---------- group paths ----------

  function TrimLeft(s: string): string {
    if s != "" && s[0] == '/' then TrimLeft(s[1..]) else s
  }

  function TrimRight(s: string): string {
    if s != "" && s[|s| - 1] == '/' then TrimRight(s[..|s| - 1]) else s
  }

  /** Go's `strings.Trim(path, "/")`. */
  function Trim(s: string): string {
    TrimRight(TrimLeft(s))
  }

  predicate OnlySlashes(s: string) {
    forall k :: 0 <= k < |s| ==> s[k] == '/'
  }

  lemma {:induction false} TrimLeftMeans(s: string) returns (front: string)
    ensures s == front + TrimLeft(s) && OnlySlashes(front)
    ensures TrimLeft(s) == "" || TrimLeft(s)[0] != '/'
  {
    if s != "" && s[0] == '/' {
      var more := TrimLeftMeans(s[1..]);
      front := "/" + more;
      assert s == "/" + s[1..];
    } else {
      front := "";
    }
  }

  lemma {:induction false} TrimRightMeans(s: string) returns (back: string)
    ensures s == TrimRight(s) + back && OnlySlashes(back)
    ensures TrimRight(s) == "" || TrimRight(s)[|TrimRight(s)| - 1] != '/'
  {
    if s != "" && s[|s| - 1] == '/' {
      var more := TrimRightMeans(s[..|s| - 1]);
      back := more + "/";
      assert s == s[..|s| - 1] + "/";
    } else {
      back := "";
    }
  }

  /** What is left once the slashes at both ends are gone: nothing more is cut off, and nothing less. */
  lemma TrimMeans(s: string) returns (front: string, back: string)
    ensures s == front + Trim(s) + back && OnlySlashes(front) && OnlySlashes(back)
    ensures Trim(s) == "" || (Trim(s)[0] != '/' && Trim(s)[|Trim(s)| - 1] != '/')
  {
    front := TrimLeftMeans(s);
    back := TrimRightMeans(TrimLeft(s));
    assert Trim(s) != "" ==> Trim(s)[0] == TrimLeft(s)[0];
  }

  function NormalizeGroupPath(path: string): string {
    "/" + Trim(path)
  }

  /** The names a group path is walked by. */
  function PathNames(path: string): seq<string> {
    Split(Trim(path), "/")
  }

  lemma {:induction false} SplitHasNoSlash(s: string)
    ensures forall p :: p in Split(s, "/") ==> '/' !in p
    decreases |s|
  {
    var r := IndexFrom(s, "/", 0);
    forall i | 0 <= i < |s| ensures "/" <= s[i..] <==> s[i] == '/' {}
    if r.Some? {
      SplitHasNoSlash(s[r.value + 1..]);
    }
  }

  predicate SlashFree(names: seq<string>) {
    forall k :: 0 <= k < |names| ==> names[k] != "" && '/' !in names[k]
  }

  lemma {:induction false} JoinEnds(names: seq<string>)
    requires names != [] && SlashFree(names)
    ensures var s := Join(names, "/"); s != "" && s[0] != '/' && s[|s| - 1] != '/'
  {
    if |names| > 1 {
      assert names[1..] != [] && SlashFree(names[1..]);
      JoinEnds(names[1..]);
    }
    assert names[0][0] in names[0] && names[0][|names[0]| - 1] in names[0];
  }

  lemma SlashFreeIsSeparable(names: seq<string>)
    requires names != [] && SlashFree(names)
    ensures Separable(names, "/")
  {
    forall k | 0 <= k < |names|
      ensures EndsCleanly(names[k], "/") && !Contains(names[k], "/")
    {
      var p := names[k];
      forall i | 0 <= i < |p| ensures !("/" <= (p + "/")[i..]) && !("/" <= p[i..]) {
        assert (p + "/")[i] == p[i] && p[i] in p;
      }
    }
  }

  /** A canonical path of non-empty names is walked by those names exactly when none contains a slash. */
  lemma GroupPathRoundTrip(names: seq<string>)
    requires names != [] && forall k :: 0 <= k < |names| ==> names[k] != ""
    ensures PathNames(NormalizeGroupPath(Join(names, "/"))) == names <==> SlashFree(names)
  {
    var s := Join(names, "/");
    if SlashFree(names) {
      JoinEnds(names);
      assert Trim(s) == s;
      assert ("/" + s)[1..] == s;
      assert TrimLeft("/" + s) == s;
      SlashFreeIsSeparable(names);
      SplitJoin(names, "/");
    } else {
      var k :| 0 <= k < |names| && '/' in names[k];
      assert names[k] in names;
      SplitHasNoSlash(Trim(NormalizeGroupPath(s)));
    }
  }
}
