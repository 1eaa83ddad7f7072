/** Checks that several validators share (internal/config/config.go). */
module ConfigChecks {
  import opened Lists
  import opened Text

  /** Multivalued attributes, in whatever order the map yields them. */
  type Attributes = seq<(string, seq<string>)>

  predicate NullFree(xs: seq<string>) {
    forall x :: x in xs ==> !HasNull(x)
  }

  predicate Usable(x: string) {
    x != "" && !HasNull(x)
  }

  predicate AllUsable(xs: seq<string>) {
    forall x :: x in xs ==> Usable(x)
  }

  predicate AttributesOk(attributes: Attributes) {
    forall a :: a in attributes ==> Usable(a.0) && NullFree(a.1)
  }

  predicate ValidAttributes(attributes: map<string, string>) {
    forall k :: k in attributes ==> Usable(k) && !HasNull(attributes[k])
  }

  method ValidateAttributes(attributes: map<string, string>) returns (ok: bool)
    ensures ok <==> ValidAttributes(attributes)
  {
    var rest := attributes.Keys;
    while rest != {}
      invariant rest <= attributes.Keys
      invariant forall k :: k in attributes.Keys - rest ==> Usable(k) && !HasNull(attributes[k])
      decreases rest
    {
      var k :| k in rest;
      if k == "" || HasNull(k) || HasNull(attributes[k]) {
        return false;
      }
      rest := rest - {k};
    }
    ok := true;
  }

  method ScanSliceNullBytes(xs: seq<string>) returns (ok: bool)
    ensures ok <==> NullFree(xs)
  {
    for i := 0 to |xs|
      invariant NullFree(xs[..i])
    {
      assert xs[..i + 1] == xs[..i] + [xs[i]];
      if HasNull(xs[i]) {
        assert xs[i] in xs;
        return false;
      }
    }
    assert xs[..|xs|] == xs;
    ok := true;
  }

  method CheckUsable(xs: seq<string>) returns (ok: bool)
    ensures ok <==> AllUsable(xs)
  {
    for i := 0 to |xs|
      invariant AllUsable(xs[..i])
    {
      assert xs[..i + 1] == xs[..i] + [xs[i]];
      if xs[i] == "" || HasNull(xs[i]) {
        assert xs[i] in xs;
        return false;
      }
    }
    assert xs[..|xs|] == xs;
    ok := true;
  }

  method ValidateMultiValueAttributes(attributes: Attributes) returns (ok: bool)
    ensures ok <==> AttributesOk(attributes)
  {
    for i := 0 to |attributes|
      invariant AttributesOk(attributes[..i])
    {
      assert attributes[..i + 1] == attributes[..i] + [attributes[i]];
      assert attributes[i] in attributes;
      if attributes[i].0 == "" || HasNull(attributes[i].0) {
        return false;
      }
      var valuesOk := ScanSliceNullBytes(attributes[i].1);
      if !valuesOk {
        return false;
      }
    }
    assert attributes[..|attributes|] == attributes;
    ok := true;
  }

  /** Rejects a value that is empty, unusable or repeated. */
  method CheckDistinct(xs: seq<string>) returns (ok: bool)
    ensures ok <==> AllUsable(xs) && Distinct(xs)
  {
    var seen: set<string> := {};
    for i := 0 to |xs|
      invariant AllUsable(xs[..i]) && Distinct(xs[..i]) && seen == Elements(xs[..i])
    {
      assert xs[..i + 1] == xs[..i] + [xs[i]];
      assert xs[i] in xs;
      if xs[i] == "" || HasNull(xs[i]) || xs[i] in seen {
        return false;
      }
      seen := seen + {xs[i]};
    }
    assert xs[..|xs|] == xs;
    ok := true;
  }
}
