/** Ids: the server's own, and the synthetic ones a dry run hands out (internal/provisioner/dryrun.go). */
module Ids {

  type Id = string

  /** Go's `%d`. */
  function Decimal(n: nat): (s: string)
    ensures s != "" && forall i :: 0 <= i < |s| ==> '0' <= s[i] <= '9'
  {
    var digit := ('0' as int + n % 10) as char;
    if n < 10 then [digit] else Decimal(n / 10) + [digit]
  }

  lemma {:induction false} DecimalInjective(m: nat, n: nat)
    requires Decimal(m) == Decimal(n)
    ensures m == n
  {
    var s, t := Decimal(m), Decimal(n);
    assert s[|s| - 1] == t[|t| - 1];
    assert m % 10 == n % 10;
    if m >= 10 && n >= 10 {
      assert s[..|s| - 1] == Decimal(m / 10) && t[..|t| - 1] == Decimal(n / 10);
      DecimalInjective(m / 10, n / 10);
    }
  }

  /** The id of the `n`th thing the server creates. */
  function ServerId(n: nat): Id {
    "kc" + Decimal(n)
  }

  const DRY_RUN_PREFIX := "dryrun-"

  /** A synthetic id carries a kind, which may itself contain a dash, and a sequence number. */
  function NewId(kind: string, n: nat): Id {
    DRY_RUN_PREFIX + kind + "-" + Decimal(n)
  }

  predicate IsSyntheticID(id: Id) {
    DRY_RUN_PREFIX <= id
  }

  lemma ServerIdInjective(m: nat, n: nat)
    ensures ServerId(m) == ServerId(n) ==> m == n
    ensures !IsSyntheticID(ServerId(m)) && ServerId(m) != ""
  {
    if ServerId(m) == ServerId(n) {
      assert ServerId(m)[2..] == Decimal(m) && ServerId(n)[2..] == Decimal(n);
      DecimalInjective(m, n);
    }
    assert ServerId(m)[0] == 'k' && DRY_RUN_PREFIX[0] == 'd';
  }

  lemma {:induction false} LastDash(x: string, a: string, y: string, b: string)
    requires x + "-" + a == y + "-" + b
    requires '-' !in a && '-' !in b
    ensures x == y && a == b
  {
    var s := x + "-" + a;
    assert s == y + "-" + b;
    assert s[|x|] == '-' && s[|y|] == '-';
    assert forall i :: |x| < i < |s| ==> s[i] == a[i - |x| - 1] && s[i] in a;
    assert forall i :: |y| < i < |s| ==> s[i] == b[i - |y| - 1] && s[i] in b;
    assert |x| == |y|;
    assert x == s[..|x|] == y;
    assert a == s[|x| + 1..] == b;
  }

  /** Two synthetic ids agree only if kind and number do, dashes in the kind notwithstanding. */
  lemma NewIdInjective(kind1: string, m: nat, kind2: string, n: nat)
    ensures NewId(kind1, m) == NewId(kind2, n) ==> kind1 == kind2 && m == n
    ensures IsSyntheticID(NewId(kind1, m)) && NewId(kind1, m) != ""
  {
    if NewId(kind1, m) == NewId(kind2, n) {
      var x, y := DRY_RUN_PREFIX + kind1, DRY_RUN_PREFIX + kind2;
      assert forall i :: 0 <= i < |Decimal(m)| ==> Decimal(m)[i] != '-';
      assert forall i :: 0 <= i < |Decimal(n)| ==> Decimal(n)[i] != '-';
      LastDash(x, Decimal(m), y, Decimal(n));
      assert kind1 == x[|DRY_RUN_PREFIX|..] && kind2 == y[|DRY_RUN_PREFIX|..];
      DecimalInjective(m, n);
    }
    assert NewId(kind1, m)[..|DRY_RUN_PREFIX|] == DRY_RUN_PREFIX;
  }
}
