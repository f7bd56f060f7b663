/**
 Named-placeholder substitution, the part of Python's `str.format(**kwargs)`
 the templates use. A placeholder is `{name}` where `name` holds no brace.
 The text is scanned once, left to right: a placeholder whose name is bound is
 replaced by its value, and the value itself is never scanned again.
 */
module Templating {
  import opened Wrappers

  type Env = map<string, string>

  predicate IsNameChar(c: char)
  {
    c != '{' && c != '}'
  }

  predicate IsName(n: string)
  {
    forall i :: 0 <= i < |n| ==> IsNameChar(n[i])
  }

  /** Length of the longest prefix of `s` made of name characters. */
  function NameLen(s: string): (n: nat)
    ensures n <= |s|
    ensures IsName(s[..n])
    ensures n < |s| ==> !IsNameChar(s[n])
  {
    if s == [] || !IsNameChar(s[0]) then 0 else 1 + NameLen(s[1..])
  }

  /** The name of the placeholder `t` starts with, if it starts with one. */
  function FieldAt(t: string): (r: Option<string>)
    ensures r.Some? ==> IsName(r.value) && |r.value| + 2 <= |t|
    ensures r.Some? ==> t[..|r.value| + 2] == "{" + r.value + "}"
  {
    if t == [] || t[0] != '{' then None
    else
      var k := NameLen(t[1..]);
      if k + 1 < |t| && t[k + 1] == '}' then
        assert t[1..][..k] == t[1..k + 1];
        Some(t[1..k + 1])
      else None
  }

  /** `t.format(**env)` for names bound in `env`; a placeholder with an
      unbound name is copied unchanged. */
  function Format(t: string, env: Env): string
    decreases |t|
  {
    if t == [] then []
    else match FieldAt(t)
      case Some(n) => (if n in env then env[n] else t[..|n| + 2]) + Format(t[|n| + 2..], env)
      case None => [t[0]] + Format(t[1..], env)
  }

  /** The placeholder names of `t`, in the order the scan meets them. */
  function Placeholders(t: string): seq<string>
    decreases |t|
  {
    if t == [] then []
    else match FieldAt(t)
      case Some(n) => [n] + Placeholders(t[|n| + 2..])
      case None => Placeholders(t[1..])
  }

  /** Literal template text: no opening brace, so the scan copies it. */
  type Literal = s: string | '{' !in s

  /** A placeholder name. */
  type Name = n: string | IsName(n)

  /** A template written out as literal text and placeholders. */
  datatype Piece = Text(text: Literal) | Field(name: Name)

  /** The placeholder for `n`, as written in a template. */
  function Slot(n: string): string
  {
    "{" + n + "}"
  }

  /** The template text of one piece. */
  function Source(p: Piece): string
  {
    match p
    case Text(s) => s
    case Field(n) => Slot(n)
  }

  /** The template text the pieces stand for. */
  function Unparse(ps: seq<Piece>): string
  {
    if ps == [] then "" else Source(ps[0]) + Unparse(ps[1..])
  }

  /** What one piece becomes: literal text is kept and a bound placeholder
      becomes its value, verbatim. */
  function Show(p: Piece, env: Env): string
  {
    match p
    case Text(s) => s
    case Field(n) => if n in env then env[n] else Slot(n)
  }

  /** The reference meaning of substitution, piece by piece. */
  function Fill(ps: seq<Piece>, env: Env): string
  {
    if ps == [] then "" else Show(ps[0], env) + Fill(ps[1..], env)
  }

  function Names(p: Piece): seq<string>
  {
    match p
    case Text(_) => []
    case Field(n) => [n]
  }

  function FieldNames(ps: seq<Piece>): seq<string>
  {
    if ps == [] then [] else Names(ps[0]) + FieldNames(ps[1..])
  }

  /** Unfolding `Fill` and `FieldNames` over a literal list of pieces. */
  lemma FillOne(a: Piece, env: Env)
    ensures Fill([a], env) == Show(a, env) && FieldNames([a]) == Names(a)
  {
    assert [a][1..] == [];
    assert Show(a, env) + "" == Show(a, env);
    assert Names(a) + [] == Names(a);
  }

  lemma FillCons(a: Piece, ps: seq<Piece>, env: Env)
    ensures Fill([a] + ps, env) == Show(a, env) + Fill(ps, env)
    ensures FieldNames([a] + ps) == Names(a) + FieldNames(ps)
  {
    assert ([a] + ps)[1..] == ps;
  }

  lemma {:induction false} FillAppend(a: seq<Piece>, b: seq<Piece>, env: Env)
    ensures Fill(a + b, env) == Fill(a, env) + Fill(b, env)
  {
    if a == [] {
      assert a + b == b;
    } else {
      assert (a + b)[1..] == a[1..] + b;
      FillAppend(a[1..], b, env);
    }
  }

  lemma {:induction false} FieldNamesAppend(a: seq<Piece>, b: seq<Piece>)
    ensures FieldNames(a + b) == FieldNames(a) + FieldNames(b)
  {
    if a == [] {
      assert a + b == b;
    } else {
      assert (a + b)[1..] == a[1..] + b;
      FieldNamesAppend(a[1..], b);
    }
  }

  lemma {:induction false} NameLenOfField(n: string, rest: string)
    requires IsName(n)
    ensures NameLen(n + "}" + rest) == |n|
    decreases |n|
  {
    if n != [] {
      assert (n + "}" + rest)[1..] == n[1..] + "}" + rest;
      NameLenOfField(n[1..], rest);
    }
  }

  lemma FieldAtField(n: string, rest: string)
    requires IsName(n)
    ensures FieldAt("{" + n + "}" + rest) == Some(n)
  {
    var t := "{" + n + "}" + rest;
    assert t[1..] == n + "}" + rest;
    NameLenOfField(n, rest);
    assert t[|n| + 1] == '}';
    assert t[1..|n| + 1] == n;
  }

  /** A first character other than an opening brace is copied. */
  lemma FormatCopy(t: string, env: Env)
    requires t != [] && t[0] != '{'
    ensures Format(t, env) == [t[0]] + Format(t[1..], env)
    ensures Placeholders(t) == Placeholders(t[1..])
  {
  }

  /** Text without an opening brace passes through the scan unchanged. */
  lemma {:induction false} FormatText(s: string, rest: string, env: Env)
    requires '{' !in s
    ensures Format(s + rest, env) == s + Format(rest, env)
    ensures Placeholders(s + rest) == Placeholders(rest)
    decreases |s|
  {
    if s != [] {
      var t := s + rest;
      assert t[0] == s[0];
      assert t[1..] == s[1..] + rest;
      FormatCopy(t, env);
      FormatText(s[1..], rest, env);
      assert s == [s[0]] + s[1..];
    } else {
      assert s + rest == rest;
    }
  }

  /** One placeholder is replaced by its value and the scan resumes after it. */
  lemma FormatField(n: string, rest: string, env: Env)
    requires IsName(n)
    ensures Format(Slot(n) + rest, env) == (if n in env then env[n] else Slot(n)) + Format(rest, env)
    ensures Placeholders(Slot(n) + rest) == [n] + Placeholders(rest)
  {
    var t := "{" + n + "}" + rest;
    FieldAtField(n, rest);
    assert t[..|n| + 2] == "{" + n + "}";
    assert t[|n| + 2..] == rest;
  }

  /** Substitution on a template written as pieces is exactly `Fill`: single pass,
      values inserted verbatim whatever braces they contain. */
  lemma {:induction false} FormatUnparse(ps: seq<Piece>, env: Env)
    ensures Format(Unparse(ps), env) == Fill(ps, env)
    ensures Placeholders(Unparse(ps)) == FieldNames(ps)
  {
    if ps != [] {
      FormatUnparse(ps[1..], env);
      FormatPiece(ps[0], Unparse(ps[1..]), env);
    }
  }

  /** The scan over one piece's text, then over the rest. */
  lemma FormatPiece(p: Piece, rest: string, env: Env)
    ensures Format(Source(p) + rest, env) == Show(p, env) + Format(rest, env)
    ensures Placeholders(Source(p) + rest) == Names(p) + Placeholders(rest)
  {
    match p
    case Text(s) =>
      FormatText(s, rest, env);
    case Field(n) =>
      FormatField(n, rest, env);
  }

  /** A template ending in its only placeholder. */
  lemma OneSlot(middle: Literal, n: Name, env: Env)
    requires n in env
    ensures Format(middle + Slot(n), env) == middle + env[n]
    ensures Placeholders(middle + Slot(n)) == [n]
  {
    FormatField(n, "", env);
    assert Slot(n) + "" == Slot(n);
    FormatText(middle, Slot(n), env);
  }

  /** A template with one placeholder used twice, after two literal parts. */
  lemma TwoSlots(prefix: Literal, middle: Literal, n: Name, env: Env)
    requires n in env
    ensures Format(prefix + Slot(n) + middle + Slot(n), env) == prefix + env[n] + middle + env[n]
    ensures Placeholders(prefix + Slot(n) + middle + Slot(n)) == [n, n]
  {
    var slot := Slot(n);
    var tail := middle + slot;
    var u := slot + tail;
    SlotsRegroup(prefix, slot, middle);
    SlotThenOne(middle, n, env);
    FormatText(prefix, u, env);
    ValuesRegroup(prefix, env[n], middle);
  }

  lemma SlotThenOne(middle: Literal, n: Name, env: Env)
    requires n in env
    ensures Format(Slot(n) + (middle + Slot(n)), env) == env[n] + (middle + env[n])
    ensures Placeholders(Slot(n) + (middle + Slot(n))) == [n, n]
  {
    OneSlot(middle, n, env);
    FormatField(n, middle + Slot(n), env);
  }

  lemma SlotsRegroup(prefix: string, slot: string, middle: string)
    ensures prefix + slot + middle + slot == prefix + (slot + (middle + slot))
  {
  }

  lemma ValuesRegroup(prefix: string, v: string, middle: string)
    ensures prefix + (v + (middle + v)) == prefix + v + middle + v
  {
  }
}
