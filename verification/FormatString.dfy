/** Python format strings, following the grammar of the section "Format Strings" of PEP 3101: literal
    text, doubled braces, and replacement fields with a name, an optional conversion and an optional
    specification that may itself contain fields. */
module FormatString {
  import opened Options

  /** The named arguments of a format call. */
  type Env = map<string, string>

  /** How a string value is presented: what follows the argument's name in the field, the
      conversion, and the expanded specification; None where Python raises an error. */
  type Presenter = (string, string, Option<char>, string) -> Option<string>

  datatype Field = Field(name: string, conversion: Option<char>, spec: string)

  // ---- parsing ----

  datatype Name = Name(text: string, stop: char, rest: string)

  /** The characters up to, and not including, a closing bracket. */
  function ToBracket(s: string): (k: nat)
    ensures k <= |s|
  {
    if s == "" || s[0] == ']' then 0 else 1 + ToBracket(s[1..])
  }

  /** A field name runs to the first '}', ':' or '!' outside brackets; it may not contain '{'. */
  function ScanName(s: string): (r: Option<Name>)
    ensures r.Some? ==> |r.value.rest| < |s|
    ensures r.Some? ==> r.value.stop == '}' || r.value.stop == ':' || r.value.stop == '!'
  {
    if s == "" || s[0] == '{' then None
    else if s[0] == '}' || s[0] == ':' || s[0] == '!' then Some(Name("", s[0], s[1..]))
    else
      var k := if s[0] == '[' then 1 + ToBracket(s[1..]) else 1;
      match ScanName(s[k..])
      case None => None
      case Some(n) => Some(Name(s[..k] + n.text, n.stop, n.rest))
  }

  /** A specification runs to the matching '}'. */
  function ScanSpec(s: string, depth: nat): (r: Option<(string, string)>)
    ensures r.Some? ==> |r.value.1| < |s|
  {
    if s == "" then None
    else if s[0] == '}' && depth == 0 then Some(("", s[1..]))
    else
      var depth' := if s[0] == '{' then depth + 1 else if s[0] == '}' then depth - 1 else depth;
      match ScanSpec(s[1..], depth')
      case None => None
      case Some((spec, rest)) => Some(([s[0]] + spec, rest))
  }

  /** The field after an opening brace, and the text after its closing brace. */
  function ParseField(s: string): (r: Option<(Field, string)>)
    ensures r.Some? ==> |r.value.1| < |s|
  {
    match ScanName(s)
    case None => None
    case Some(Name(name, stop, rest)) =>
      if stop == '}' then Some((Field(name, None, ""), rest))
      else if stop == ':' then WithSpec(name, None, rest)
      else if |rest| < 2 then None
      else if rest[1] == '}' then Some((Field(name, Some(rest[0]), ""), rest[2..]))
      else if rest[1] == ':' then WithSpec(name, Some(rest[0]), rest[2..])
      else None
  }

  function WithSpec(name: string, conversion: Option<char>, s: string): (r: Option<(Field, string)>)
    ensures r.Some? ==> |r.value.1| < |s|
  {
    match ScanSpec(s, 0)
    case None => None
    case Some((spec, rest)) => Some((Field(name, conversion, spec), rest))
  }

  // ---- formatting ----

  /** The argument name is what comes before the first '.' or '['. */
  function ArgumentLength(name: string): (k: nat)
    ensures k <= |name|
  {
    if name == "" || name[0] == '.' || name[0] == '[' then 0 else 1 + ArgumentLength(name[1..])
  }

  /** str.format(**env); None where it raises an error. Specifications may nest once: `depth` is 2
      for the format call itself. */
  function Format(present: Presenter, env: Env, s: string, depth: nat): Option<string>
    decreases depth, |s|, 0
  {
    if depth == 0 then None
    else if s == "" then Some("")
    else if s[0] != '{' && s[0] != '}' then Prepend([s[0]], Format(present, env, s[1..], depth))
    else if |s| == 1 then None
    else if s[1] == s[0] then Prepend([s[0]], Format(present, env, s[2..], depth))
    else if s[0] == '}' then None
    else
      match ParseField(s[1..])
      case None => None
      case Some((field, rest)) =>
        match Render(present, env, field, depth)
        case None => None
        case Some(text) => Prepend(text, Format(present, env, rest, depth))
  }

  function Prepend(text: string, rest: Option<string>): Option<string> {
    match rest
    case None => None
    case Some(tail) => Some(text + tail)
  }

  lemma PrependTwice(text: string, more: string, rest: Option<string>)
    ensures Prepend(text, Prepend(more, rest)) == Prepend(text + more, rest)
  {
    if rest.Some? {
      assert text + (more + rest.value) == text + more + rest.value;
    }
  }

  function Render(present: Presenter, env: Env, field: Field, depth: nat): Option<string>
    requires depth > 0
    decreases depth, 0, 1
  {
    var k := ArgumentLength(field.name);
    if field.name[..k] !in env then None
    else
      var spec := if '{' in field.spec then Format(present, env, field.spec, depth - 1) else Some(field.spec);
      match spec
      case None => None
      case Some(expanded) => present(env[field.name[..k]], field.name[k..], field.conversion, expanded)
  }

  // ---- a format string that parses keeps its parse when more text follows ----

  lemma {:induction false} ToBracketExtends(a: string, b: string)
    requires ToBracket(a) < |a|
    ensures ToBracket(a + b) == ToBracket(a)
  {
    if a[0] != ']' {
      assert (a + b)[1..] == a[1..] + b;
      ToBracketExtends(a[1..], b);
    }
  }

  lemma {:induction false} ScanNameExtends(a: string, b: string)
    requires ScanName(a).Some?
    ensures ScanName(a + b) == Some(ScanName(a).value.(rest := ScanName(a).value.rest + b))
  {
    assert (a + b)[0] == a[0];
    if a[0] == '}' || a[0] == ':' || a[0] == '!' {
      assert (a + b)[1..] == a[1..] + b;
    } else {
      var k := if a[0] == '[' then 1 + ToBracket(a[1..]) else 1;
      if a[0] == '[' {
        assert k < |a|;
        assert (a + b)[1..] == a[1..] + b;
        ToBracketExtends(a[1..], b);
      }
      assert (a + b)[k..] == a[k..] + b && (a + b)[..k] == a[..k];
      ScanNameExtends(a[k..], b);
    }
  }

  lemma {:induction false} ScanSpecExtends(a: string, depth: nat, b: string)
    requires ScanSpec(a, depth).Some?
    ensures ScanSpec(a + b, depth) == Some((ScanSpec(a, depth).value.0, ScanSpec(a, depth).value.1 + b))
  {
    assert (a + b)[0] == a[0] && (a + b)[1..] == a[1..] + b;
    if !(a[0] == '}' && depth == 0) {
      ScanSpecExtends(a[1..], if a[0] == '{' then depth + 1 else if a[0] == '}' then depth - 1 else depth, b);
    }
  }

  lemma ParseFieldExtends(a: string, b: string)
    requires ParseField(a).Some?
    ensures ParseField(a + b) == Some((ParseField(a).value.0, ParseField(a).value.1 + b))
  {
    ScanNameExtends(a, b);
    var n := ScanName(a).value;
    if n.stop == ':' {
      ScanSpecExtends(n.rest, 0, b);
    } else if n.stop == '!' {
      assert (n.rest + b)[0] == n.rest[0] && (n.rest + b)[1] == n.rest[1];
      assert (n.rest + b)[2..] == n.rest[2..] + b;
      if n.rest[1] == ':' {
        ScanSpecExtends(n.rest[2..], 0, b);
      }
    }
  }

  /** Concatenation: if the first part formats, the whole formats exactly when the second part does,
      to the two results one after the other. */
  lemma {:induction false} FormatConcat(present: Presenter, env: Env, a: string, b: string, depth: nat)
    requires Format(present, env, a, depth).Some?
    ensures Format(present, env, a + b, depth)
         == Prepend(Format(present, env, a, depth).value, Format(present, env, b, depth))
    decreases |a|
  {
    if a == "" {
      assert a + b == b;
      var whole := Format(present, env, b, depth);
      assert whole.Some? ==> "" + whole.value == whole.value;
    } else {
      assert (a + b)[0] == a[0] && (a + b)[1..] == a[1..] + b;
      if a[0] != '{' && a[0] != '}' {
        FormatConcat(present, env, a[1..], b, depth);
        PrependTwice([a[0]], Format(present, env, a[1..], depth).value, Format(present, env, b, depth));
      } else {
        assert (a + b)[1] == a[1] && (a + b)[2..] == a[2..] + b;
        if a[1] == a[0] {
          FormatConcat(present, env, a[2..], b, depth);
          PrependTwice([a[0]], Format(present, env, a[2..], depth).value, Format(present, env, b, depth));
        } else {
          ParseFieldExtends(a[1..], b);
          var (field, rest) := ParseField(a[1..]).value;
          FormatConcat(present, env, rest, b, depth);
          PrependTwice(Render(present, env, field, depth).value, Format(present, env, rest, depth).value,
                       Format(present, env, b, depth));
        }
      }
    }
  }

  // ---- more arguments never change a successful format ----

  ghost predicate SubEnv(env: Env, env': Env) {
    forall x :: x in env ==> x in env' && env'[x] == env[x]
  }

  lemma {:induction false} FormatMoreArguments(present: Presenter, env: Env, env': Env, s: string, depth: nat)
    requires SubEnv(env, env') && Format(present, env, s, depth).Some?
    ensures Format(present, env', s, depth) == Format(present, env, s, depth)
    decreases depth, |s|, 0
  {
    if s != "" {
      if s[0] != '{' && s[0] != '}' {
        FormatMoreArguments(present, env, env', s[1..], depth);
      } else if s[1] == s[0] {
        FormatMoreArguments(present, env, env', s[2..], depth);
      } else {
        var (field, rest) := ParseField(s[1..]).value;
        RenderMoreArguments(present, env, env', field, depth);
        FormatMoreArguments(present, env, env', rest, depth);
      }
    }
  }

  lemma {:induction false} RenderMoreArguments(present: Presenter, env: Env, env': Env, field: Field, depth: nat)
    requires depth > 0 && SubEnv(env, env') && Render(present, env, field, depth).Some?
    ensures Render(present, env', field, depth) == Render(present, env, field, depth)
    decreases depth, 0, 1
  {
    if '{' in field.spec {
      FormatMoreArguments(present, env, env', field.spec, depth - 1);
    }
  }

  // ---- the arguments a format string mentions ----

  /** The argument names a format string mentions; None where it does not parse. */
  function Arguments(s: string, depth: nat): Option<set<string>>
    decreases depth, |s|, 0
  {
    if depth == 0 then None
    else if s == "" then Some({})
    else if s[0] != '{' && s[0] != '}' then Arguments(s[1..], depth)
    else if |s| == 1 then None
    else if s[1] == s[0] then Arguments(s[2..], depth)
    else if s[0] == '}' then None
    else
      match ParseField(s[1..])
      case None => None
      case Some((field, rest)) => Both(FieldArguments(field, depth), Arguments(rest, depth))
  }

  function Both(a: Option<set<string>>, b: Option<set<string>>): Option<set<string>> {
    if a.Some? && b.Some? then Some(a.value + b.value) else None
  }

  function FieldArguments(field: Field, depth: nat): Option<set<string>>
    requires depth > 0
    decreases depth, 0, 1
  {
    var name := field.name[..ArgumentLength(field.name)];
    Both(Some({name}), if '{' in field.spec then Arguments(field.spec, depth - 1) else Some({}))
  }

  /** What formats parses, and mentions only arguments that are given. */
  lemma {:induction false} FormatMentions(present: Presenter, env: Env, s: string, depth: nat)
    requires Format(present, env, s, depth).Some?
    ensures Arguments(s, depth).Some? && Arguments(s, depth).value <= env.Keys
    decreases depth, |s|, 0
  {
    if s != "" {
      if s[0] != '{' && s[0] != '}' {
        FormatMentions(present, env, s[1..], depth);
      } else if s[1] == s[0] {
        FormatMentions(present, env, s[2..], depth);
      } else {
        var (field, rest) := ParseField(s[1..]).value;
        RenderMentions(present, env, field, depth);
        FormatMentions(present, env, rest, depth);
      }
    }
  }

  lemma {:induction false} RenderMentions(present: Presenter, env: Env, field: Field, depth: nat)
    requires depth > 0 && Render(present, env, field, depth).Some?
    ensures FieldArguments(field, depth).Some? && FieldArguments(field, depth).value <= env.Keys
    decreases depth, 0, 1
  {
    if '{' in field.spec {
      FormatMentions(present, env, field.spec, depth - 1);
    }
  }

  /** What formats with more arguments formats with those it mentions. */
  lemma {:induction false} FormatFewerArguments(present: Presenter, env: Env, env': Env, s: string, depth: nat)
    requires SubEnv(env, env') && Format(present, env', s, depth).Some?
    requires Arguments(s, depth).Some? && Arguments(s, depth).value <= env.Keys
    ensures Format(present, env, s, depth).Some?
    decreases depth, |s|, 0
  {
    if s != "" {
      if s[0] != '{' && s[0] != '}' {
        FormatFewerArguments(present, env, env', s[1..], depth);
      } else if s[1] == s[0] {
        FormatFewerArguments(present, env, env', s[2..], depth);
      } else {
        var (field, rest) := ParseField(s[1..]).value;
        RenderFewerArguments(present, env, env', field, depth);
        FormatFewerArguments(present, env, env', rest, depth);
      }
    }
  }

  lemma {:induction false} RenderFewerArguments(present: Presenter, env: Env, env': Env, field: Field, depth: nat)
    requires depth > 0 && SubEnv(env, env') && Render(present, env', field, depth).Some?
    requires FieldArguments(field, depth).Some? && FieldArguments(field, depth).value <= env.Keys
    ensures Render(present, env, field, depth).Some?
    decreases depth, 0, 1
  {
    if '{' in field.spec {
      FormatFewerArguments(present, env, env', field.spec, depth - 1);
      FormatMoreArguments(present, env, env', field.spec, depth - 1);
    }
  }

  /** A first part that parses on its own formats if the whole does. */
  lemma {:induction false} FormatPart(present: Presenter, env: Env, a: string, b: string, depth: nat)
    requires Arguments(a, depth).Some? && Format(present, env, a + b, depth).Some?
    ensures Format(present, env, a, depth).Some?
    decreases |a|
  {
    if a != "" {
      assert (a + b)[0] == a[0] && (a + b)[1..] == a[1..] + b;
      if a[0] != '{' && a[0] != '}' {
        FormatPart(present, env, a[1..], b, depth);
      } else {
        assert (a + b)[1] == a[1] && (a + b)[2..] == a[2..] + b;
        if a[1] == a[0] {
          FormatPart(present, env, a[2..], b, depth);
        } else {
          ParseFieldExtends(a[1..], b);
          FormatPart(present, env, ParseField(a[1..]).value.1, b, depth);
        }
      }
    }
  }

  // ---- plain text and plain fields ----

  predicate BraceFree(s: string) {
    forall i :: 0 <= i < |s| ==> s[i] != '{' && s[i] != '}'
  }

  predicate PlainChar(c: char) {
    c != '[' && c != '.' && c != ':' && c != '!'
  }

  /** A name that is an argument name and nothing else. */
  predicate PlainName(s: string) {
    BraceFree(s) && forall i :: 0 <= i < |s| ==> PlainChar(s[i])
  }

  lemma {:induction false} FormatLiteral(present: Presenter, env: Env, s: string, depth: nat)
    requires depth > 0 && BraceFree(s)
    ensures Format(present, env, s, depth) == Some(s)
  {
    if s != "" {
      assert s == [s[0]] + s[1..];
      FormatLiteral(present, env, s[1..], depth);
    }
  }

  lemma {:induction false} ScanPlainName(name: string)
    requires PlainName(name)
    ensures ScanName(name + "}") == Some(Name(name, '}', ""))
  {
    var s := name + "}";
    if name != "" {
      assert s[0] == name[0] && s[1..] == name[1..] + "}" && s[..1] + name[1..] == name;
      ScanPlainName(name[1..]);
    }
  }

  lemma {:induction false} PlainArgument(name: string)
    requires PlainName(name)
    ensures ArgumentLength(name) == |name|
  {
    if name != "" {
      PlainArgument(name[1..]);
    }
  }

  /** "{name}" formats to the presentation of the argument, if there is one. */
  lemma FormatPlainField(present: Presenter, env: Env, name: string, depth: nat)
    requires depth > 0 && PlainName(name) && name != ""
    ensures Format(present, env, "{" + name + "}", depth)
         == if name in env then present(env[name], "", None, "") else None
  {
    var s := "{" + name + "}";
    assert s[0] == '{' && s[1] == name[0] && s[1..] == name + "}";
    ScanPlainName(name);
    PlainArgument(name);
    assert name[..|name|] == name && name[|name|..] == "";
    var r := if name in env then present(env[name], "", None, "") else None;
    assert r.Some? ==> r.value + "" == r.value;
  }
}
