/** The nearest-name search of internal/compat/providers.go. Strings are sequences of single-byte (ASCII) characters. */
module Suggest {
  function Lower(c: char): char {
    if 'A' <= c <= 'Z' then c - 'A' + 'a' else c
  }

  function ToLower(s: string): (t: string)
    ensures |t| == |s|
  {
    seq(|s|, i requires 0 <= i < |s| => Lower(s[i]))
  }

  const CAPITALS := "ABCDEFGHIJKLMNOPQRSTUVWXYZ"
  const SMALLS := "abcdefghijklmnopqrstuvwxyz"

  /** One is the capital of the other. */
  predicate IsPair(n: nat, c: char, d: char)
    requires n < 26
  {
    (c == CAPITALS[n] && d == SMALLS[n]) || (c == SMALLS[n] && d == CAPITALS[n])
  }

  /** The characters are the same letter, or the same character. */
  predicate SameLetter(c: char, d: char) {
    c == d || exists n :: 0 <= n < 26 && IsPair(n, c, d)
  }

  predicate SameUpToCase(a: string, b: string) {
    |a| == |b| && forall i :: 0 <= i < |a| ==> SameLetter(a[i], b[i])
  }

  lemma LettersInOrder(n: nat)
    requires n < 26
    ensures CAPITALS[n] == 'A' + n as char && SMALLS[n] == 'a' + n as char
  {}

  lemma PairLowers(n: nat, c: char, d: char)
    requires n < 26 && IsPair(n, c, d)
    ensures Lower(c) == Lower(d)
  {
    LettersInOrder(n);
  }

  lemma LowersAreSame(c: char, d: char)
    requires Lower(c) == Lower(d)
    ensures SameLetter(c, d)
  {
    if c != d {
      var n: nat := if 'A' <= c <= 'Z' then (c - 'A') as nat else (d - 'A') as nat;
      LettersInOrder(n);
      assert IsPair(n, c, d);
    }
  }

  lemma SameLetterLowers(c: char, d: char)
    requires SameLetter(c, d)
    ensures Lower(c) == Lower(d)
  {
    hide Lower, IsPair;
    if c != d {
      var n :| 0 <= n < 26 && IsPair(n, c, d);
      PairLowers(n, c, d);
    }
  }

  lemma ToLowerMeans(a: string, b: string)
    ensures ToLower(a) == ToLower(b) <==> SameUpToCase(a, b)
  {
    hide Lower, SameLetter;
    forall c, d | SameLetter(c, d) ensures Lower(c) == Lower(d) {
      SameLetterLowers(c, d);
    }
    forall c, d | Lower(c) == Lower(d) ensures SameLetter(c, d) {
      LowersAreSame(c, d);
    }
    if |a| == |b| {
      assert forall i :: 0 <= i < |a| ==> ToLower(a)[i] == Lower(a[i]) && ToLower(b)[i] == Lower(b[i]);
    }
    assert |ToLower(a)| == |a| && |ToLower(b)| == |b|;
  }

  function Min(x: int, y: int): int {
    if x <= y then x else y
  }

  function Max(x: int, y: int): int {
    if x <= y then y else x
  }

  /** 0 when the last characters of two prefixes agree, 1 otherwise. */
  function Cost(a: string, b: string, i: nat, j: nat): nat
    requires 0 < i <= |a| && 0 < j <= |b|
  {
    if a[i - 1] == b[j - 1] then 0 else 1
  }

  /** The recursive Levenshtein distance between the prefixes `a[..i]` and `b[..j]`. */
  function Dist(a: string, b: string, i: nat, j: nat): nat
    requires i <= |a| && j <= |b|
  {
    if i == 0 then j
    else if j == 0 then i
    else Min(Min(Dist(a, b, i, j - 1) + 1, Dist(a, b, i - 1, j) + 1), Dist(a, b, i - 1, j - 1) + Cost(a, b, i, j))
  }

  /** What the tool calls the distance of two names: Levenshtein, ignoring case. */
  function Distance(a: string, b: string): nat {
    Dist(ToLower(a), ToLower(b), |a|, |b|)
  }

  /** The recursion, spelled out for proofs that need one step of it. */
  lemma DistStep(a: string, b: string, i: nat, j: nat)
    requires i <= |a| && j <= |b|
    ensures i == 0 ==> Dist(a, b, i, j) == j
    ensures j == 0 ==> Dist(a, b, i, j) == i
    ensures i > 0 && j > 0 ==>
      Dist(a, b, i, j) == Min(Min(Dist(a, b, i, j - 1) + 1, Dist(a, b, i - 1, j) + 1),
        Dist(a, b, i - 1, j - 1) + Cost(a, b, i, j))
  {}

  // ---------- the distance is the cost of the cheapest edit script ----------

  datatype Edit = Keep | Replace | Insert | Delete

  function EditCost(script: seq<Edit>): nat {
    if script == [] then 0
    else EditCost(script[..|script| - 1]) + if script[|script| - 1] == Keep then 0 else 1
  }

  /** `script`, applied left to right, turns `a[..i]` into `b[..j]`. */
  predicate Turns(script: seq<Edit>, a: string, i: nat, b: string, j: nat)
    requires i <= |a| && j <= |b|
  {
    if script == [] then i == 0 && j == 0
    else
      var rest := script[..|script| - 1];
      match script[|script| - 1]
      case Keep => i > 0 && j > 0 && a[i - 1] == b[j - 1] && Turns(rest, a, i - 1, b, j - 1)
      case Replace => i > 0 && j > 0 && Turns(rest, a, i - 1, b, j - 1)
      case Insert => j > 0 && Turns(rest, a, i, b, j - 1)
      case Delete => i > 0 && Turns(rest, a, i - 1, b, j)
  }

  lemma {:induction false} NoScriptIsCheaper(script: seq<Edit>, a: string, i: nat, b: string, j: nat)
    requires i <= |a| && j <= |b| && Turns(script, a, i, b, j)
    ensures Dist(a, b, i, j) <= EditCost(script)
    decreases |script|
  {
    DistStep(a, b, i, j);
    hide Dist;
    if script != [] {
      var rest := script[..|script| - 1];
      match script[|script| - 1]
      case Keep => NoScriptIsCheaper(rest, a, i - 1, b, j - 1);
      case Replace => NoScriptIsCheaper(rest, a, i - 1, b, j - 1);
      case Insert => NoScriptIsCheaper(rest, a, i, b, j - 1); StepBounds(a, b, i, j - 1);
      case Delete => NoScriptIsCheaper(rest, a, i - 1, b, j); StepBounds(a, b, i - 1, j);
    }
  }

  /** Some way to the two prefixes leads over shorter ones and costs what it should. */
  lemma LastEdit(a: string, b: string, i: nat, j: nat) returns (last: Edit)
    requires i <= |a| && j <= |b| && i + j > 0
    ensures last == Insert ==> j > 0 && Dist(a, b, i, j) == Dist(a, b, i, j - 1) + 1
    ensures last == Delete ==> i > 0 && Dist(a, b, i, j) == Dist(a, b, i - 1, j) + 1
    ensures last == Keep ==>
              i > 0 && j > 0 && a[i - 1] == b[j - 1] && Dist(a, b, i, j) == Dist(a, b, i - 1, j - 1)
    ensures last == Replace ==> i > 0 && j > 0 && Dist(a, b, i, j) == Dist(a, b, i - 1, j - 1) + 1
  {
    hide Dist;
    DistStep(a, b, i, j);
    if j > 0 {
      DistStep(a, b, i, j - 1);
    }
    if i > 0 {
      DistStep(a, b, i - 1, j);
    }
    if j > 0 && (i == 0 || Dist(a, b, i, j) == Dist(a, b, i, j - 1) + 1) {
      last := Insert;
    } else if i > 0 && (j == 0 || Dist(a, b, i, j) == Dist(a, b, i - 1, j) + 1) {
      last := Delete;
    } else {
      last := if a[i - 1] == b[j - 1] then Keep else Replace;
    }
  }

  lemma NoEdits(a: string, b: string)
    ensures Turns([], a, 0, b, 0) && EditCost([]) == Dist(a, b, 0, 0)
  {}

  lemma OneMoreEdit(rest: seq<Edit>, last: Edit, a: string, i: nat, b: string, j: nat)
    requires i <= |a| && j <= |b|
    requires last != Delete ==> j > 0
    requires last != Insert ==> i > 0
    requires last == Keep ==> a[i - 1] == b[j - 1]
    requires Turns(rest, a, if last == Insert then i else i - 1, b, if last == Delete then j else j - 1)
    ensures Turns(rest + [last], a, i, b, j)
    ensures EditCost(rest + [last]) == EditCost(rest) + if last == Keep then 0 else 1
  {
    assert (rest + [last])[..|rest + [last]| - 1] == rest;
  }

  lemma {:induction false} SomeScriptIsThisCheap(a: string, i: nat, b: string, j: nat) returns (script: seq<Edit>)
    requires i <= |a| && j <= |b|
    ensures Turns(script, a, i, b, j) && EditCost(script) == Dist(a, b, i, j)
    decreases i + j
  {
    hide *;
    if i == 0 && j == 0 {
      NoEdits(a, b);
      return [];
    }
    var last := LastEdit(a, b, i, j);
    var rest;
    match last {
      case Insert => rest := SomeScriptIsThisCheap(a, i, b, j - 1);
      case Delete => rest := SomeScriptIsThisCheap(a, i - 1, b, j);
      case _ => rest := SomeScriptIsThisCheap(a, i - 1, b, j - 1);
    }
    OneMoreEdit(rest, last, a, i, b, j);
    script := rest + [last];
  }

  /** Lengthening one prefix by a character changes the distance by at most one upwards. */
  lemma StepBounds(a: string, b: string, i: nat, j: nat)
    requires i <= |a| && j <= |b|
    ensures j < |b| ==> Dist(a, b, i, j + 1) <= Dist(a, b, i, j) + 1
    ensures i < |a| ==> Dist(a, b, i + 1, j) <= Dist(a, b, i, j) + 1
  {}

  // ---------- the distance is a metric ----------

  lemma {:induction false} DistSymmetric(a: string, b: string, i: nat, j: nat)
    requires i <= |a| && j <= |b|
    ensures Dist(a, b, i, j) == Dist(b, a, j, i)
    decreases i + j
  {
    hide Dist;
    DistStep(a, b, i, j);
    DistStep(b, a, j, i);
    if i > 0 && j > 0 {
      DistSymmetric(a, b, i, j - 1);
      DistSymmetric(a, b, i - 1, j);
      DistSymmetric(a, b, i - 1, j - 1);
    }
  }

  lemma {:induction false} DistBounds(a: string, b: string, i: nat, j: nat)
    requires i <= |a| && j <= |b|
    ensures i - j <= Dist(a, b, i, j) && j - i <= Dist(a, b, i, j)
    ensures Dist(a, b, i, j) <= Max(i, j)
    decreases i + j
  {
    hide Dist;
    DistStep(a, b, i, j);
    if i > 0 && j > 0 {
      DistBounds(a, b, i, j - 1);
      DistBounds(a, b, i - 1, j);
      DistBounds(a, b, i - 1, j - 1);
    }
  }

  lemma {:induction false} DistZero(a: string, b: string, i: nat, j: nat)
    requires i <= |a| && j <= |b|
    ensures Dist(a, b, i, j) == 0 <==> a[..i] == b[..j]
    decreases i + j
  {
    if i > 0 && j > 0 {
      DistZero(a, b, i - 1, j - 1);
      assert a[..i] == a[..i - 1] + [a[i - 1]] && b[..j] == b[..j - 1] + [b[j - 1]];
    }
  }

  lemma {:induction false} DistTriangle(a: string, b: string, c: string, i: nat, j: nat, k: nat)
    requires i <= |a| && j <= |b| && k <= |c|
    ensures Dist(a, c, i, k) <= Dist(a, b, i, j) + Dist(b, c, j, k)
    decreases i + j + k
  {
    hide Dist;
    DistStep(a, c, i, k);
    DistStep(a, b, i, j);
    DistStep(b, c, j, k);
    DistBounds(a, c, i, k);
    DistBounds(a, b, i, j);
    DistBounds(b, c, j, k);
    if i > 0 && j > 0 && k > 0 {
      if Dist(a, b, i, j) == Dist(a, b, i - 1, j) + 1 {
        DistTriangle(a, b, c, i - 1, j, k);
      } else if Dist(b, c, j, k) == Dist(b, c, j, k - 1) + 1 {
        DistTriangle(a, b, c, i, j, k - 1);
      } else if Dist(a, b, i, j) == Dist(a, b, i, j - 1) + 1 {
        if Dist(b, c, j, k) == Dist(b, c, j - 1, k) + 1 {
          DistTriangle(a, b, c, i, j - 1, k);
        } else {
          DistTriangle(a, b, c, i, j - 1, k - 1);
        }
      } else if Dist(b, c, j, k) == Dist(b, c, j - 1, k) + 1 {
        DistTriangle(a, b, c, i - 1, j - 1, k);
      } else {
        DistTriangle(a, b, c, i - 1, j - 1, k - 1);
      }
    }
  }

  /** Symmetric, zero only on names equal up to case, triangular, and bounded by the two lengths. */
  lemma DistanceIsAMetric(a: string, b: string, c: string)
    ensures Distance(a, b) == Distance(b, a)
    ensures Distance(a, b) == 0 <==> SameUpToCase(a, b)
    ensures Distance(a, c) <= Distance(a, b) + Distance(b, c)
    ensures |a| - |b| <= Distance(a, b) && |b| - |a| <= Distance(a, b) <= Max(|a|, |b|)
  {
    var a', b', c' := ToLower(a), ToLower(b), ToLower(c);
    DistSymmetric(a', b', |a|, |b|);
    DistZero(a', b', |a|, |b|);
    ToLowerMeans(a, b);
    assert a'[..|a|] == a' && b'[..|b|] == b';
    DistTriangle(a', b', c', |a|, |b|, |c|);
    DistBounds(a', b', |a|, |b|);
  }

  // ---------- the two-row program and the pruned search ----------

  /** The dynamic program that keeps two rows and swaps them after each character of `a`. */
  method EditDistance(a0: string, b0: string) returns (d: nat)
    ensures d == Distance(a0, b0)
  {
    hide Dist;
    var a, b := ToLower(a0), ToLower(b0);
    var prev, curr := new nat[|b| + 1], new nat[|b| + 1];
    for j := 0 to |b| + 1
      invariant forall m :: 0 <= m < j ==> prev[m] == Dist(a, b, 0, m)
    {
      DistStep(a, b, 0, j);
      prev[j] := j;
    }
    for i := 1 to |a| + 1
      invariant fresh(prev) && fresh(curr) && prev != curr && prev.Length == curr.Length == |b| + 1
      invariant forall m :: 0 <= m <= |b| ==> prev[m] == Dist(a, b, i - 1, m)
    {
      DistStep(a, b, i, 0);
      curr[0] := i;
      for j := 1 to |b| + 1
        invariant forall m :: 0 <= m <= |b| ==> prev[m] == Dist(a, b, i - 1, m)
        invariant forall m :: 0 <= m < j ==> curr[m] == Dist(a, b, i, m)
      {
        DistStep(a, b, i, j);
        var cost := 1;
        if a[i - 1] == b[j - 1] {
          cost := 0;
        }
        curr[j] := Min(Min(curr[j - 1] + 1, prev[j] + 1), prev[j - 1] + cost);
      }
      prev, curr := curr, prev;
    }
    d := prev[|b|];
  }

  /** How far from `name` a suggestion may be: a quarter of its length, at most three. */
  function Limit(name: string): nat {
    Min(|name| / 4, 3)
  }

  predicate Qualifies(name: string, candidate: string) {
    Limit(name) >= 1 && Distance(name, candidate) <= Limit(name)
  }

  /** A nearest qualifying name among all known names, or "" exactly when none qualifies. */
  predicate IsSuggestion(name: string, known: set<string>, best: string) {
    if best == "" then forall c :: c in known ==> !Qualifies(name, c)
    else
      && best in known && Qualifies(name, best)
      && forall c :: c in known ==> Distance(name, best) <= Distance(name, c)
  }

  method Abs(n: int) returns (r: nat)
    ensures r == n || r == -n
  {
    r := if n < 0 then -n else n;
  }

  /** Candidates come in whatever order the map yields them; `rest` is what is still to come. */
  method Suggest(name: string, known: set<string>) returns (best: string)
    ensures IsSuggestion(name, known, best)
    ensures best != "" ==> 4 * Distance(name, best) <= |name| && Distance(name, best) <= 3 && |name| >= 4
    ensures best == "" ==>
              forall c :: c in known ==> |name| < 4 * Distance(name, c) || Distance(name, c) > 3 || |name| < 4
  {
    var limit := |name| / 4;
    if limit > 3 {
      limit := 3;
    }
    if limit < 1 {
      return "";
    }
    best := "";
    var bestDistance: nat := limit + 1;
    var rest := known;
    while rest != {}
      invariant rest <= known
      invariant best == "" ==> bestDistance == limit + 1
      invariant best != "" ==> best in known && bestDistance == Distance(name, best) <= limit
      invariant forall c :: c in known - rest ==> bestDistance <= Distance(name, c) || limit < Distance(name, c)
      decreases rest
    {
      var candidate :| candidate in rest;
      rest := rest - {candidate};
      DistanceIsAMetric(name, candidate, name);
      var gap := Abs(|candidate| - |name|);
      if gap > limit {
        continue;
      }
      var d := EditDistance(name, candidate);
      if d < bestDistance {
        best, bestDistance := candidate, d;
      }
    }
  }

  /** Whatever order the known names come in, the distance achieved is the same. */
  lemma SuggestionDistanceIsUnique(name: string, known: set<string>, r1: string, r2: string)
    requires IsSuggestion(name, known, r1) && IsSuggestion(name, known, r2)
    ensures r1 == "" <==> r2 == ""
    ensures r1 != "" ==> Distance(name, r1) == Distance(name, r2)
  {
    if r1 != "" {
      assert r1 in known && Qualifies(name, r1);
    }
    if r2 != "" {
      assert r2 in known && Qualifies(name, r2);
    }
  }
}
