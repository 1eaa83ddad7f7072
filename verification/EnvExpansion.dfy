/** `${VAR}` references in config strings: expandEnvVars of internal/config/config.go. */
module EnvExpansion {
  import opened Text

  type Env = map<string, string>

  /** Length of the reference `open` + name + `}` at the start of `s`; the name is non-empty and has no `}`. */
  function RefAt(s: string, open: string): (r: Option<nat>)
    ensures r.Some? ==> |open| + 1 < r.value <= |s| && open <= s && s[r.value - 1] == '}'
    ensures r.Some? ==> forall i :: |open| <= i < r.value - 1 ==> s[i] != '}'
  {
    if !(open <= s) then None
    else
      match IndexFrom(s, "}", |open|)
      case None => None
      case Some(k) =>
        assert forall i :: |open| <= i < k ==> ("}" <= s[i..] <==> s[i] == '}');
        if k == |open| then None else Some(k + 1)
  }

  /** The callback: it matches the regular expression once more, against the matched text alone. */
  function Replacement(text: string, env: Env): string {
    var escaped, plain := RefAt(text, "$${"), RefAt(text, "${");
    if escaped.Some? then "${" + text[3..escaped.value - 1] + "}"
    else if plain.Some? && text[2..plain.value - 1] in env then env[text[2..plain.value - 1]]
    else text
  }

  /** Left to right: replace the match that starts here, or copy one character and move on. */
  function Expand(s: string, env: Env): string
    decreases |s|
  {
    if s == "" then ""
    else
      var escaped, plain := RefAt(s, "$${"), RefAt(s, "${");
      if escaped.Some? then Replacement(s[..escaped.value], env) + Expand(s[escaped.value..], env)
      else if plain.Some? then Replacement(s[..plain.value], env) + Expand(s[plain.value..], env)
      else [s[0]] + Expand(s[1..], env)
  }

  // ---------- the meaning of a string as a list of leftmost, non-overlapping references ----------

  datatype Token = Literal(c: char) | Escaped(name: string) | Variable(name: string)

  function Source(t: Token): string {
    match t
    case Literal(c) => [c]
    case Escaped(name) => "$${" + name + "}"
    case Variable(name) => "${" + name + "}"
  }

  /** An escape yields the reference it escapes; a variable its value, or itself when unset. */
  function Meaning(t: Token, env: Env): string {
    match t
    case Literal(c) => [c]
    case Escaped(name) => "${" + name + "}"
    case Variable(name) => if name in env then env[name] else "${" + name + "}"
  }

  function SourceAll(ts: seq<Token>): string {
    if ts == [] then "" else Source(ts[0]) + SourceAll(ts[1..])
  }

  function MeaningAll(ts: seq<Token>, env: Env): string {
    if ts == [] then "" else Meaning(ts[0], env) + MeaningAll(ts[1..], env)
  }

  predicate ProperName(name: string) {
    name != "" && '}' !in name
  }

  /** Names are proper, and no reference starts where a literal stands. */
  predicate Leftmost(ts: seq<Token>) {
    ts == [] ||
    (&& Leftmost(ts[1..])
     && (match ts[0]
         case Literal(_) => RefAt(SourceAll(ts), "$${").None? && RefAt(SourceAll(ts), "${").None?
         case Escaped(name) => ProperName(name)
         case Variable(name) => ProperName(name)))
  }

  lemma RefThenRest(open: string, name: string, rest: string)
    requires ProperName(name)
    ensures RefAt(open + name + "}" + rest, open) == Some(|open| + |name| + 1)
  {
    var s := open + name + "}" + rest;
    var n := |open| + |name|;
    assert s[..|open|] == open;
    assert s[n..] == "}" + rest;
    forall i | |open| <= i < n ensures s[i] != '}' && !("}" <= s[i..]) {
      assert s[i] == name[i - |open|];
    }
  }

  lemma RefName(s: string, open: string)
    requires RefAt(s, open).Some?
    ensures
      var n := RefAt(s, open).value;
      && ProperName(s[|open|..n - 1]) && s[..n] == open + s[|open|..n - 1] + "}"
      && s == open + s[|open|..n - 1] + "}" + s[n..]
  {
    var n := RefAt(s, open).value;
    assert s[..|open|] == open;
    assert s == s[..n] + s[n..];
    assert s[..n] == open + s[|open|..n - 1] + "}";
  }

  /** The callback, given exactly one reference, finds that reference again. */
  lemma ReplacementOfToken(t: Token, env: Env)
    requires t.Escaped? || t.Variable?
    requires ProperName(t.name)
    ensures Replacement(Source(t), env) == Meaning(t, env)
  {
    var open := if t.Escaped? then "$${" else "${";
    var s := Source(t);
    RefThenRest(open, t.name, "");
    assert open + t.name + "}" + "" == s;
    assert s[|open|..|s| - 1] == t.name;
    if t.Variable? {
      assert s[1] == '{';
      assert !("$${" <= s);
    }
  }

  /** One scanning step on a string that starts with a reference. */
  lemma ExpandToken(t: Token, rest: string, env: Env)
    requires t.Escaped? || t.Variable?
    requires ProperName(t.name)
    ensures Expand(Source(t) + rest, env) == Meaning(t, env) + Expand(rest, env)
  {
    var open := if t.Escaped? then "$${" else "${";
    var s := Source(t) + rest;
    assert s == open + t.name + "}" + rest;
    RefThenRest(open, t.name, rest);
    if t.Variable? {
      assert s[1] == '{';
      assert !("$${" <= s);
    }
    var n := |open| + |t.name| + 1;
    assert s[..n] == Source(t) && s[n..] == rest;
    ReplacementOfToken(t, env);
  }

  /** The scanner computes the meaning of every leftmost reading: values are never scanned again. */
  lemma {:induction false} ExpandMeansTokens(ts: seq<Token>, env: Env)
    requires Leftmost(ts)
    ensures Expand(SourceAll(ts), env) == MeaningAll(ts, env)
  {
    if ts != [] {
      ExpandMeansTokens(ts[1..], env);
      if ts[0].Literal? {
        assert SourceAll(ts)[1..] == SourceAll(ts[1..]);
      } else {
        ExpandToken(ts[0], SourceAll(ts[1..]), env);
      }
    }
  }

  /** Every string has a leftmost reading. */
  lemma {:induction false} Tokenize(s: string) returns (ts: seq<Token>)
    ensures Leftmost(ts) && SourceAll(ts) == s
    decreases |s|
  {
    if s == "" {
      return [];
    }
    var t, rest;
    if RefAt(s, "$${").Some? {
      RefName(s, "$${");
      var n := RefAt(s, "$${").value;
      t, rest := Escaped(s[3..n - 1]), s[n..];
    } else if RefAt(s, "${").Some? {
      RefName(s, "${");
      var n := RefAt(s, "${").value;
      t, rest := Variable(s[2..n - 1]), s[n..];
    } else {
      t, rest := Literal(s[0]), s[1..];
    }
    var more := Tokenize(rest);
    ts := [t] + more;
    assert ts[1..] == more;
    assert SourceAll(ts) == Source(t) + rest == s;
  }

  // ---------- escaping ----------

  /** Put a `$` before each leftmost `${...}`. */
  function Escape(s: string): string
    decreases |s|
  {
    if s == "" then ""
    else
      match RefAt(s, "${")
      case Some(n) => "$" + s[..n] + Escape(s[n..])
      case None => [s[0]] + Escape(s[1..])
  }

  lemma {:induction false} EscapeKeepsBraces(s: string)
    ensures '}' in Escape(s) <==> '}' in s
    ensures s == "" <==> Escape(s) == ""
    ensures s != "" ==> Escape(s)[0] == s[0]
    decreases |s|
  {
    if s != "" {
      match RefAt(s, "${")
      case Some(n) =>
        EscapeKeepsBraces(s[n..]);
        assert s[n - 1] in s[..n] && s[..n][0] == s[0];
        assert s[n - 1] in s;
        assert Escape(s)[n] == s[n - 1];
      case None =>
        EscapeKeepsBraces(s[1..]);
        assert s == [s[0]] + s[1..];
    }
  }

  lemma RefIff(s: string, open: string)
    ensures RefAt(s, open).Some? <==> open <= s && |open| < |s| && s[|open|] != '}' && '}' in s[|open|..]
  {
    if open <= s {
      forall i | |open| <= i < |s| ensures "}" <= s[i..] <==> s[i] == '}' {}
      var r := IndexFrom(s, "}", |open|);
      if r.Some? {
        assert s[r.value] == s[|open|..][r.value - |open|];
      }
    }
  }

  lemma EscapeStep(s: string)
    requires s != "" && RefAt(s, "${").None?
    ensures Escape(s) == [s[0]] + Escape(s[1..]) && Escape(s)[1..] == Escape(s[1..])
  {}

  /** What a reference in the escaped tail tells about the tail itself. */
  lemma EscapedTail(s: string)
    requires s != "" && s[0] != '$'
    ensures Escape(s) == [s[0]] + Escape(s[1..])
    ensures |Escape(s)| > 1 && Escape(s)[1] != '}' && '}' in Escape(s)[1..] ==>
              |s| > 1 && s[1] != '}' && '}' in s[1..]
  {
    EscapeStep(s);
    EscapeKeepsBraces(s[1..]);
  }

  /** A character that starts no reference still starts none once the rest is escaped. */
  lemma EscapeMakesNoPlainRef(s: string)
    requires s != "" && RefAt(s, "${").None?
    ensures RefAt(Escape(s), "${").None?
  {
    var u := Escape(s);
    EscapeStep(s);
    RefIff(u, "${");
    RefIff(s, "${");
    EscapeKeepsBraces(s[1..]);
    if "${" <= u {
      assert u[0] == '$' && u[1] == '{';
      EscapedTail(s[1..]);
      assert u[2..] == Escape(s[1..])[1..] && s[2..] == s[1..][1..];
    }
  }

  /** No escaped string starts with a plain reference. */
  lemma EscapedIsNoPlainRef(s: string)
    ensures RefAt(Escape(s), "${").None?
  {
    if s != "" {
      var r := RefAt(s, "${");
      if r.Some? {
        assert s[..r.value][0] == '$';
        assert Escape(s)[1] == '$';
      } else {
        EscapeMakesNoPlainRef(s);
      }
    }
  }

  /** An escaped reference holds a plain one, a character later. */
  lemma PlainRefInside(u: string)
    requires RefAt(u, "$${").Some?
    ensures RefAt(u[1..], "${").Some?
  {
    var t := u[1..];
    RefIff(u, "$${");
    RefIff(t, "${");
    assert u[..3] == "$${" && t[..2] == u[..3][1..] == "${";
    assert t[2..] == u[3..] && t[2] == u[3];
  }

  lemma EscapeMakesNoEscapedRef(s: string)
    requires s != "" && RefAt(s, "${").None?
    ensures RefAt(Escape(s), "$${").None?
  {
    EscapeStep(s);
    EscapedIsNoPlainRef(s[1..]);
    if RefAt(Escape(s), "$${").Some? {
      PlainRefInside(Escape(s));
    }
  }

  lemma ExpandLiteral(s: string, env: Env)
    requires s != "" && RefAt(s, "${").None? && RefAt(s, "$${").None?
    ensures Expand(s, env) == [s[0]] + Expand(s[1..], env)
  {}

  /** Escaping a reference puts its escaped token in front of the rest. */
  lemma EscapeRef(s: string, env: Env)
    requires RefAt(s, "${").Some?
    ensures
      var n := RefAt(s, "${").value;
      var t := Escaped(s[2..n - 1]);
      ProperName(t.name) && Escape(s) == Source(t) + Escape(s[n..]) && Meaning(t, env) == s[..n]
  {
    RefName(s, "${");
    var n := RefAt(s, "${").value;
    assert Escape(s) == "$" + s[..n] + Escape(s[n..]);
    hide Escape;
    assert Source(Escaped(s[2..n - 1])) == "$" + s[..n];
  }

  lemma ExpandEscapedRef(s: string, env: Env)
    requires RefAt(s, "${").Some?
    ensures
      var rest := s[RefAt(s, "${").value..];
      Expand(Escape(s), env) == s[..RefAt(s, "${").value] + Expand(Escape(rest), env)
  {
    hide *;
    EscapeRef(s, env);
    var n := RefAt(s, "${").value;
    ExpandToken(Escaped(s[2..n - 1]), Escape(s[n..]), env);
  }

  lemma ExpandEscapedLiteral(s: string, env: Env)
    requires s != "" && RefAt(s, "${").None?
    ensures Expand(Escape(s), env) == [s[0]] + Expand(Escape(s[1..]), env)
  {
    EscapeMakesNoPlainRef(s);
    EscapeMakesNoEscapedRef(s);
    EscapeStep(s);
    ExpandLiteral(Escape(s), env);
  }

  lemma NothingToEscape(env: Env)
    ensures Expand(Escape(""), env) == ""
  {}

  /** Escaping then expanding is the identity, in every environment. */
  lemma {:induction false} ExpandEscape(s: string, env: Env)
    ensures Expand(Escape(s), env) == s
    decreases |s|
  {
    hide *;
    if s == "" {
      NothingToEscape(env);
    } else {
      var r := RefAt(s, "${");
      if r.Some? {
        ExpandEscapedRef(s, env);
        ExpandEscape(s[r.value..], env);
        assert s == s[..r.value] + s[r.value..];
      } else {
        ExpandEscapedLiteral(s, env);
        ExpandEscape(s[1..], env);
        assert s == [s[0]] + s[1..];
      }
    }
  }
}
