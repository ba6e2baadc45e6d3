/**
 * Python's `str.format(**kwargs)` for the templates the agents use: `{{` and `}}`
 * stand for literal braces, `{name}` is replaced by the keyword argument `name`,
 * a missing argument raises, and an unmatched brace raises `ValueError`.
 */
module StrFormat {
  import opened Wrappers
  import opened Text

  /** `MissingField` is Python's KeyError (or IndexError for a positional field); `Malformed` its ValueError. */
  datatype FormatError = MissingField(name: string) | Malformed

  /** Prepend `p` to a successful rendering; an error passes through. */
  function Prefix(p: string, r: Result<string, FormatError>): Result<string, FormatError> {
    if r.Success? then Success(p + r.value) else r
  }

  /** The position of the first `}` at or after `i`, or `|t|` when there is none. */
  function CloseAt(t: string, i: nat): (j: nat)
    requires i <= |t|
    ensures i <= j <= |t| && forall k :: i <= k < j ==> t[k] != '}'
    ensures j < |t| ==> t[j] == '}'
    decreases |t| - i
  {
    if i == |t| || t[i] == '}' then i else CloseAt(t, i + 1)
  }

  lemma {:induction false} CloseAtIs(t: string, i: nat, j: nat)
    requires i <= j < |t| && t[j] == '}'
    requires forall k :: i <= k < j ==> t[k] != '}'
    ensures CloseAt(t, i) == j
    decreases j - i
  {
    if i < j { CloseAtIs(t, i + 1, j); }
  }

  /** `t.format(**env)`, scanning left to right, so that the first problem met is the one raised. */
  function Format(t: string, env: map<string, string>): (r: Result<string, FormatError>)
    ensures r.Failure? && r.error.MissingField? ==> r.error.name !in env && BraceFree(r.error.name)
    decreases |t|
  {
    if t == [] then Success("")
    else if t[0] == '{' && |t| > 1 && t[1] == '{' then Prefix("{", Format(t[2..], env))
    else if t[0] == '}' && |t| > 1 && t[1] == '}' then Prefix("}", Format(t[2..], env))
    else if t[0] == '{' then
      var j := CloseAt(t, 1);
      if j == |t| then Failure(Malformed)
      else
        var name := t[1..j];
        if '{' in name then Failure(Malformed)
        else if name !in env then Failure(MissingField(name))
        else Prefix(env[name], Format(t[j + 1..], env))
    else if t[0] == '}' then Failure(Malformed)
    else Prefix([t[0]], Format(t[1..], env))
  }

  predicate BraceFree(s: string) {
    '{' !in s && '}' !in s
  }

  /** Text without braces is copied unchanged. */
  lemma {:induction false} FormatLiteral(s: string, rest: string, env: map<string, string>)
    requires BraceFree(s)
    ensures Format(s + rest, env) == Prefix(s, Format(rest, env))
    decreases |s|
  {
    if s != [] {
      var t := s + rest;
      assert t[0] == s[0];
      assert t[1..] == s[1..] + rest;
      assert BraceFree(s[1..]) by {
        assert forall c :: c in s[1..] ==> c in s;
      }
      FormatLiteral(s[1..], rest, env);
      assert s[0] in s;
      assert [s[0]] + s[1..] == s;
      var r := Format(rest, env);
      if r.Success? { assert [s[0]] + (s[1..] + r.value) == s + r.value; }
    } else {
      assert s + rest == rest;
      var r := Format(rest, env);
      if r.Success? { assert s + r.value == r.value; }
    }
  }

  /** A field `{name}` is replaced by the argument `name`, or raises when there is none. */
  lemma {:induction false} FormatField(name: string, rest: string, env: map<string, string>)
    requires BraceFree(name)
    ensures Format("{" + name + "}" + rest, env)
         == if name in env then Prefix(env[name], Format(rest, env)) else Failure(MissingField(name))
  {
    var t := "{" + name + "}" + rest;
    var j := 1 + |name|;
    assert t[j] == '}';
    forall i | 1 <= i < j ensures t[i] != '}' {
      assert t[i] == name[i - 1];
    }
    CloseAtIs(t, 1, j);
    assert t[1..j] == name;
    assert t[j + 1..] == rest;
    if name != [] {
      assert t[1] == name[0];
    }
  }

  /** `{{` stands for one `{`. */
  lemma {:induction false} FormatOpen(rest: string, env: map<string, string>)
    ensures Format("{{" + rest, env) == Prefix("{", Format(rest, env))
  {
    assert ("{{" + rest)[2..] == rest;
  }

  /** `}}` stands for one `}`. */
  lemma {:induction false} FormatClose(rest: string, env: map<string, string>)
    ensures Format("}}" + rest, env) == Prefix("}", Format(rest, env))
  {
    assert ("}}" + rest)[2..] == rest;
  }

  /** Text without braces formats to itself. */
  lemma {:induction false} FormatPlain(s: string, env: map<string, string>)
    requires BraceFree(s)
    ensures Format(s, env) == Success(s)
  {
    FormatLiteral(s, "", env);
    assert s + "" == s;
  }

  /** The text of a `{name}` field in a template. */
  function Field(name: string): string {
    "{" + name + "}"
  }

  /** The text of an escaped `{{name}}` in a template, which formats to `{name}`. */
  function Escaped(name: string): string {
    "{{" + name + "}}"
  }

  lemma {:induction false} BraceFreeConcat(a: string, b: string)
    requires BraceFree(a) && BraceFree(b)
    ensures BraceFree(a + b)
  {
    assert forall c :: c in a + b ==> c in a || c in b;
  }

  /** Literal text followed by a field: the text is copied and the field replaced by its argument. */
  lemma {:induction false} FormatThenField(lit: string, name: string, rest: string, env: map<string, string>)
    requires BraceFree(lit) && BraceFree(name) && name in env
    ensures Format(lit + Field(name) + rest, env) == Prefix(lit + env[name], Format(rest, env))
  {
    assert lit + Field(name) + rest == lit + ("{" + name + "}" + rest);
    FormatLiteral(lit, "{" + name + "}" + rest, env);
    FormatField(name, rest, env);
    var r := Format(rest, env);
    if r.Success? {
      assert lit + (env[name] + r.value) == lit + env[name] + r.value;
    }
  }

  /** Literal text followed by an escaped name: it formats to the text and `{name}`. */
  lemma {:induction false} FormatThenEscaped(lit: string, name: string, rest: string, env: map<string, string>)
    requires BraceFree(lit) && BraceFree(name)
    ensures Format(lit + Escaped(name) + rest, env) == Prefix(lit + Field(name), Format(rest, env))
  {
    assert lit + Escaped(name) + rest == lit + ("{{" + (name + ("}}" + rest)));
    FormatLiteral(lit, "{{" + (name + ("}}" + rest)), env);
    FormatOpen(name + ("}}" + rest), env);
    FormatLiteral(name, "}}" + rest, env);
    FormatClose(rest, env);
    var r := Format(rest, env);
    if r.Success? {
      assert lit + ("{" + (name + ("}" + r.value))) == lit + Field(name) + r.value;
    }
  }

  /** A template with one field: `a{x}b`. */
  lemma {:induction false} Fill1(a: string, x: string, b: string, env: map<string, string>)
    requires BraceFree(a) && BraceFree(x) && BraceFree(b) && x in env
    ensures Format(a + Field(x) + b, env) == Success(a + env[x] + b)
  {
    FormatPlain(b, env);
    FormatThenField(a, x, b, env);
  }

  /** A template with two fields: `a{x}b{y}c`. */
  lemma {:induction false} Fill2(a: string, x: string, b: string, y: string, c: string, env: map<string, string>)
    requires BraceFree(a) && BraceFree(x) && BraceFree(b) && BraceFree(y) && BraceFree(c)
    requires x in env && y in env
    ensures Format(a + Field(x) + b + Field(y) + c, env) == Success(a + env[x] + b + env[y] + c)
  {
    var rest := b + Field(y) + c;
    assert a + Field(x) + b + Field(y) + c == a + Field(x) + rest;
    assert a + env[x] + (b + env[y] + c) == a + env[x] + b + env[y] + c;
    Fill1(b, y, c, env);
    FormatThenField(a, x, rest, env);
  }

  /** A template with three fields: `a{x}b{y}c{z}d`. */
  lemma {:induction false} Fill3(a: string, x: string, b: string, y: string, c: string, z: string, d: string,
                                 env: map<string, string>)
    requires BraceFree(a) && BraceFree(x) && BraceFree(b) && BraceFree(y) && BraceFree(c)
    requires BraceFree(z) && BraceFree(d)
    requires x in env && y in env && z in env
    ensures Format(a + Field(x) + b + Field(y) + c + Field(z) + d, env)
         == Success(a + env[x] + b + env[y] + c + env[z] + d)
  {
    var rest := b + Field(y) + c + Field(z) + d;
    assert a + Field(x) + b + Field(y) + c + Field(z) + d == a + Field(x) + rest;
    assert a + env[x] + (b + env[y] + c + env[z] + d) == a + env[x] + b + env[y] + c + env[z] + d;
    Fill2(b, y, c, z, d, env);
    FormatThenField(a, x, rest, env);
  }

  /** A template with four fields: `a{x}b{y}c{z}d{w}e`. */
  lemma {:induction false} Fill4(a: string, x: string, b: string, y: string, c: string, z: string, d: string,
                                 w: string, e: string, env: map<string, string>)
    requires BraceFree(a) && BraceFree(x) && BraceFree(b) && BraceFree(y) && BraceFree(c)
    requires BraceFree(z) && BraceFree(d) && BraceFree(w) && BraceFree(e)
    requires x in env && y in env && z in env && w in env
    ensures Format(a + Field(x) + b + Field(y) + c + Field(z) + d + Field(w) + e, env)
         == Success(a + env[x] + b + env[y] + c + env[z] + d + env[w] + e)
  {
    var rest := b + Field(y) + c + Field(z) + d + Field(w) + e;
    assert a + Field(x) + b + Field(y) + c + Field(z) + d + Field(w) + e == a + Field(x) + rest;
    assert a + env[x] + (b + env[y] + c + env[z] + d + env[w] + e)
        == a + env[x] + b + env[y] + c + env[z] + d + env[w] + e;
    Fill3(b, y, c, z, d, w, e, env);
    FormatThenField(a, x, rest, env);
  }

  /** Two escaped names: `b{{u}}c{{v}}d` formats to `b{u}c{v}d`. */
  lemma {:induction false} Escaped2(b: string, u: string, c: string, v: string, d: string, env: map<string, string>)
    requires BraceFree(b) && BraceFree(u) && BraceFree(c) && BraceFree(v) && BraceFree(d)
    ensures Format(b + Escaped(u) + (c + Escaped(v) + d), env) == Success(b + Field(u) + c + Field(v) + d)
  {
    var r2 := c + Escaped(v) + d;
    FormatPlain(d, env);
    FormatThenEscaped(c, v, d, env);
    FormatThenEscaped(b, u, r2, env);
    assert b + Field(u) + (c + Field(v) + d) == b + Field(u) + c + Field(v) + d;
  }

  /** A template with one field and two escaped names: `a{x}b{{u}}c{{v}}d`. */
  lemma {:induction false} Fill1Escaped2(a: string, x: string, b: string, u: string, c: string, v: string, d: string,
                                         env: map<string, string>)
    requires BraceFree(a) && BraceFree(x) && BraceFree(b) && BraceFree(u) && BraceFree(c)
    requires BraceFree(v) && BraceFree(d) && x in env
    ensures Format(a + Field(x) + b + Escaped(u) + c + Escaped(v) + d, env)
         == Success(a + env[x] + b + Field(u) + c + Field(v) + d)
  {
    var r2 := c + Escaped(v) + d;
    var r1 := b + Escaped(u) + r2;
    Escaped2(b, u, c, v, d, env);
    FormatThenField(a, x, r1, env);
    assert a + Field(x) + b + Escaped(u) + c + Escaped(v) + d == a + Field(x) + r1;
    assert a + env[x] + (b + Field(u) + c + Field(v) + d) == a + env[x] + b + Field(u) + c + Field(v) + d;
  }
}
