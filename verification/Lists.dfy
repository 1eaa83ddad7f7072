/** What lists hold, and when they hold it once. */
module Lists {

  function Elements<T>(xs: seq<T>): set<T> {
    set x | x in xs
  }

  predicate Distinct(xs: seq<string>) {
    forall i, j :: 0 <= i < j < |xs| ==> xs[i] != xs[j]
  }

  predicate Disjoint(xs: seq<string>, seen: set<string>) {
    forall x :: x in xs ==> x !in seen
  }

  /** Distinctness of a concatenation, part by part; this is what a shared alias set checks as it grows. */
  lemma DistinctConcat(xs: seq<string>, ys: seq<string>)
    ensures Distinct(xs + ys) <==> Distinct(xs) && Distinct(ys) && Disjoint(ys, Elements(xs))
    ensures Elements(xs + ys) == Elements(xs) + Elements(ys)
    ensures forall s :: Disjoint(xs + ys, s) <==> Disjoint(xs, s) && Disjoint(ys, s)
  {
    var zs := xs + ys;
    if Distinct(zs) {
      forall i, j | 0 <= i < j < |ys| ensures ys[i] != ys[j] {
        assert zs[|xs| + i] == ys[i] && zs[|xs| + j] == ys[j];
      }
      forall i, j | 0 <= i < j < |xs| ensures xs[i] != xs[j] {
        assert zs[i] == xs[i] && zs[j] == xs[j];
      }
      forall x | x in ys ensures x !in xs {
        var j :| 0 <= j < |ys| && ys[j] == x;
        assert zs[|xs| + j] == x;
        forall i | 0 <= i < |xs| ensures xs[i] != x {
          assert zs[i] == xs[i];
        }
      }
    }
    if Distinct(xs) && Distinct(ys) && Disjoint(ys, Elements(xs)) {
      forall i, j | 0 <= i < j < |zs| ensures zs[i] != zs[j] {
        assert j >= |xs| ==> zs[j] in ys;
        assert i < |xs| ==> zs[i] in Elements(xs);
      }
    }
  }

  /** The elements of a set in some order. */
  method ToList<T(==)>(xs: set<T>) returns (list: seq<T>)
    ensures Elements(list) == xs
  {
    list := [];
    var rest := xs;
    while rest != {}
      invariant rest <= xs && Elements(list) == xs - rest
      decreases rest
    {
      var x :| x in rest;
      assert Elements(list + [x]) == Elements(list) + {x};
      list, rest := list + [x], rest - {x};
    }
  }
}
