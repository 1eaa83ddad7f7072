/** Option values, and the string operations the rest of the model shares. */
module Text {

  datatype Option<+T> = None | Some(value: T)

  predicate HasNull(s: string): (r: bool)
    ensures r <==> exists i :: 0 <= i < |s| && s[i] as int == 0
  {
    '\0' in s
  }

  /** True when `sep` occurs somewhere in `s` (Go's `strings.Contains`). */
  predicate Contains(s: string, sep: string) {
    exists i :: 0 <= i <= |s| && sep <= s[i..]
  }

  /** The least index at or after `from` where `sep` occurs in `s`. */
  function IndexFrom(s: string, sep: string, from: nat): (r: Option<nat>)
    requires from <= |s|
    ensures r.Some? ==> from <= r.value <= |s| && sep <= s[r.value..]
    ensures r.Some? ==> forall i :: from <= i < r.value ==> !(sep <= s[i..])
    ensures r.None? ==> forall i :: from <= i <= |s| ==> !(sep <= s[i..])
    decreases |s| - from
  {
    if sep <= s[from..] then Some(from)
    else if from == |s| then None
    else IndexFrom(s, sep, from + 1)
  }

  /** Go's `strings.Join`. */
  function Join(parts: seq<string>, sep: string): string {
    if |parts| == 0 then ""
    else if |parts| == 1 then parts[0]
    else parts[0] + sep + Join(parts[1..], sep)
  }

  /** Go's `strings.Split` for a non-empty separator: the leftmost occurrence ends the first part. */
  function Split(s: string, sep: string): (parts: seq<string>)
    requires sep != ""
    ensures parts != []
    decreases |s|
  {
    match IndexFrom(s, sep, 0)
    case None => [s]
    case Some(i) => [s[..i]] + Split(s[i + |sep|..], sep)
  }

  /** `sep`, written right after `part`, is not found earlier than where it was written. */
  predicate EndsCleanly(part: string, sep: string) {
    forall i :: 0 <= i < |part| ==> !(sep <= (part + sep)[i..])
  }

  /** The exact condition under which a joined list splits back into itself. */
  predicate Separable(parts: seq<string>, sep: string)
    requires parts != []
  {
    && (forall k :: 0 <= k < |parts| - 1 ==> EndsCleanly(parts[k], sep))
    && !Contains(parts[|parts| - 1], sep)
  }

  /** An occurrence that starts inside `part` and the one right after it are seen alike with any tail. */
  lemma EarlyOccurrence(part: string, sep: string, tail: string, i: nat)
    requires i <= |part|
    ensures sep <= (part + sep + tail)[i..] <==> sep <= (part + sep)[i..]
  {
    var long, short := (part + sep + tail)[i..], (part + sep)[i..];
    assert long == short + tail;
    if |sep| <= |short| {
      assert long[..|sep|] == short[..|sep|];
    }
  }

  /** `Separable` peels off its first part. */
  lemma SeparableStep(parts: seq<string>, sep: string)
    requires |parts| >= 2
    ensures Separable(parts, sep) <==> EndsCleanly(parts[0], sep) && Separable(parts[1..], sep)
  {
    var rest := parts[1..];
    assert rest[|rest| - 1] == parts[|parts| - 1];
    if EndsCleanly(parts[0], sep) && Separable(rest, sep) {
      forall k | 0 <= k < |parts| - 1 ensures EndsCleanly(parts[k], sep) {
        assert k > 0 ==> parts[k] == rest[k - 1];
      }
    }
    if Separable(parts, sep) {
      forall k | 0 <= k < |rest| - 1 ensures EndsCleanly(rest[k], sep) {
        assert rest[k] == parts[k + 1];
      }
    }
  }

  /** Where the leftmost separator of `head + sep + tail` is. */
  lemma FirstCut(head: string, sep: string, tail: string)
    requires sep != ""
    ensures
      var s := head + sep + tail;
      var r := IndexFrom(s, sep, 0);
      r.Some? && r.value <= |head| && (r.value == |head| <==> EndsCleanly(head, sep))
  {
    var s := head + sep + tail;
    forall i | 0 <= i <= |head| ensures sep <= s[i..] <==> sep <= (head + sep)[i..] {
      EarlyOccurrence(head, sep, tail, i);
    }
    assert (head + sep)[|head|..] == sep;
  }

  lemma ConsEqual<T>(x: T, xs: seq<T>, y: T, ys: seq<T>)
    ensures [x] + xs == [y] + ys <==> x == y && xs == ys
  {
    if [x] + xs == [y] + ys {
      assert ([x] + xs)[0] == ([y] + ys)[0];
      assert xs == ([x] + xs)[1..] == ([y] + ys)[1..] == ys;
    }
  }

  lemma SplitAt(s: string, sep: string)
    requires sep != "" && IndexFrom(s, sep, 0).Some?
    ensures
      var k := IndexFrom(s, sep, 0).value;
      Split(s, sep) == [s[..k]] + Split(s[k + |sep|..], sep)
  {}

  /** Splitting peels off `head` whole exactly when nothing in it looks like the separator too early. */
  lemma SplitStep(head: string, sep: string, tail: string, rest: seq<string>)
    requires sep != ""
    ensures Split(head + sep + tail, sep) == [head] + rest <==> EndsCleanly(head, sep) && Split(tail, sep) == rest
  {
    hide *;
    var s := head + sep + tail;
    FirstCut(head, sep, tail);
    SplitAt(s, sep);
    var k := IndexFrom(s, sep, 0).value;
    var first, others := s[..k], s[k + |sep|..];
    ConsEqual(first, Split(others, sep), head, rest);
    if k == |head| {
      assert first == head && others == tail;
    } else {
      assert |first| != |head|;
    }
  }

  /** Joining the parts of a string gives the string back, always. */
  lemma {:induction false} JoinSplit(s: string, sep: string)
    requires sep != ""
    ensures Join(Split(s, sep), sep) == s
    decreases |s|
  {
    var i := IndexFrom(s, sep, 0);
    if i.Some? {
      var rest := s[i.value + |sep|..];
      JoinSplit(rest, sep);
      var parts := Split(s, sep);
      assert parts == [s[..i.value]] + Split(rest, sep) && parts[1..] == Split(rest, sep);
      assert s == s[..i.value] + sep + rest;
    }
  }

  /** Splitting a joined list gives the list back exactly when it is separable. */
  lemma {:induction false} SplitJoin(parts: seq<string>, sep: string)
    requires parts != [] && sep != ""
    ensures Split(Join(parts, sep), sep) == parts <==> Separable(parts, sep)
  {
    if |parts| == 1 {
      var s := parts[0];
      assert Join(parts, sep) == s;
      assert parts == [s];
      assert Contains(s, sep) <==> IndexFrom(s, sep, 0).Some?;
      if Contains(s, sep) {
        assert |Split(s, sep)| > 1;
      }
    } else {
      SplitStep(parts[0], sep, Join(parts[1..], sep), parts[1..]);
      assert parts == [parts[0]] + parts[1..];
      SeparableStep(parts, sep);
      SplitJoin(parts[1..], sep);
    }
  }
}
