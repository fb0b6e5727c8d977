/** Replacement fields read back what is written: the parts of a field, put together in the order of the
    grammar, parse to those parts, and the field formats to the presentation of its argument. */
module FormatFields {
  import opened FormatString
  import opened Options

  // ---- names ----

  predicate NameChar(c: char) {
    c != '{' && c != '}' && c != ':' && c != '!' && c != '['
  }

  /** The opening bracket at the start is closed at k, and not before. */
  predicate ClosesAt(s: string, k: nat) {
    0 < k < |s| && s[k] == ']' && forall i :: 0 < i < k ==> s[i] != ']'
  }

  /** A name with attributes and indices; between brackets anything may stand. */
  ghost predicate Nameable(s: string)
    decreases |s|
  {
    if s == "" then true
    else if s[0] == '[' then exists k: nat :: ClosesAt(s, k) && Nameable(s[k..])
    else NameChar(s[0]) && Nameable(s[1..])
  }

  lemma {:induction false} BracketEnds(s: string, k: nat)
    requires k < |s| && s[k] == ']' && forall i :: 0 <= i < k ==> s[i] != ']'
    ensures ToBracket(s) == k
  {
    if k > 0 {
      BracketEnds(s[1..], k - 1);
    }
  }

  /** A name runs to the first stop outside brackets. */
  lemma {:induction false} ScanWritten(name: string, stop: char, rest: string)
    requires Nameable(name) && (stop == '}' || stop == ':' || stop == '!')
    ensures ScanName(name + [stop] + rest) == Some(Name(name, stop, rest))
    decreases |name|
  {
    var s := name + [stop] + rest;
    if name == "" {
      assert s[0] == stop && s[1..] == rest;
    } else if name[0] == '[' {
      var k: nat :| ClosesAt(name, k) && Nameable(name[k..]);
      SplitWritten(name, stop, rest, k);
      BracketEnds(s[1..], k - 1);
      ScanWritten(name[k..], stop, rest);
      ScanStep(s, k, Name(name[k..], stop, rest));
    } else {
      SplitWritten(name, stop, rest, 1);
      ScanWritten(name[1..], stop, rest);
      ScanStep(s, 1, Name(name[1..], stop, rest));
    }
  }

  lemma ScanStep(s: string, k: nat, n: Name)
    requires s != "" && (s[0] == '[' || NameChar(s[0]))
    requires k == (if s[0] == '[' then 1 + ToBracket(s[1..]) else 1) && ScanName(s[k..]) == Some(n)
    ensures ScanName(s) == Some(Name(s[..k] + n.text, n.stop, n.rest))
  {
  }

  lemma Associates(a: string, b: string, c: string)
    ensures a + b + c == a + (b + c)
  {
  }

  lemma SplitWritten(name: string, stop: char, rest: string, k: nat)
    requires 0 < k <= |name|
    ensures
      var s := name + [stop] + rest;
      s[0] == name[0] && s[..k] + name[k..] == name && s[k..] == name[k..] + [stop] + rest
  {
  }

  // ---- specifications ----

  /** Read from inside `depth` braces, the text closes these and all it opens, and no others. */
  predicate Closed(s: string, depth: nat) {
    if s == "" then depth == 0
    else if s[0] == '{' then Closed(s[1..], depth + 1)
    else if s[0] == '}' then depth > 0 && Closed(s[1..], depth - 1)
    else Closed(s[1..], depth)
  }

  lemma {:induction false} ScanClosed(spec: string, depth: nat, rest: string)
    requires Closed(spec, depth)
    ensures ScanSpec(spec + "}" + rest, depth) == Some((spec, rest))
  {
    var s := spec + "}" + rest;
    if spec == "" {
      assert s[0] == '}' && s[1..] == rest;
    } else {
      assert s[0] == spec[0] && s[1..] == spec[1..] + "}" + rest && [spec[0]] + spec[1..] == spec;
      ScanClosed(spec[1..], if spec[0] == '{' then depth + 1 else if spec[0] == '}' then depth - 1 else depth, rest);
    }
  }

  // ---- fields ----

  function SpecText(spec: string): string {
    if spec == "" then "}" else ":" + spec + "}"
  }

  /** A field as it stands in a format string, after its opening brace. */
  function Written(field: Field): string {
    field.name + (if field.conversion.Some? then ['!', field.conversion.value] else "") + SpecText(field.spec)
  }

  lemma SpecRest(name: string, conversion: Option<char>, spec: string, rest: string)
    requires Closed(spec, 0) && spec != ""
    ensures WithSpec(name, conversion, spec + "}" + rest) == Some((Field(name, conversion, spec), rest))
  {
    ScanClosed(spec, 0, rest);
  }

  /** After the name, and after the conversion, comes the end of the field or the specification. */
  lemma SpecTail(spec: string, rest: string)
    requires Closed(spec, 0)
    ensures
      var tail := SpecText(spec) + rest;
      && |tail| > 0
      && (spec == "" ==> tail == ['}'] + rest)
      && (spec != "" ==> tail == [':'] + (spec + "}" + rest))
  {
  }

  lemma PlainField(name: string, spec: string, rest: string)
    requires Nameable(name) && Closed(spec, 0)
    ensures ParseField(name + (SpecText(spec) + rest)) == Some((Field(name, None, spec), rest))
  {
    SpecTail(spec, rest);
    if spec == "" {
      ScanWritten(name, '}', rest);
      Associates(name, ['}'], rest);
    } else {
      var text := spec + "}" + rest;
      ScanWritten(name, ':', text);
      Associates(name, [':'], text);
      SpecRest(name, None, spec, rest);
    }
  }

  lemma ConvertedField(name: string, c: char, spec: string, rest: string)
    requires Nameable(name) && Closed(spec, 0)
    ensures ParseField(name + ['!'] + ([c] + (SpecText(spec) + rest))) == Some((Field(name, Some(c), spec), rest))
  {
    var tail := SpecText(spec) + rest;
    var after := [c] + tail;
    ScanWritten(name, '!', after);
    SpecTail(spec, rest);
    AfterOne(c, tail);
    if spec == "" {
      AfterOne('}', rest);
    } else {
      AfterOne(':', spec + "}" + rest);
      SpecRest(name, Some(c), spec, rest);
    }
  }

  lemma AfterOne(c: char, tail: string)
    ensures ([c] + tail)[0] == c && ([c] + tail)[1..] == tail
    ensures tail != "" ==> ([c] + tail)[1] == tail[0] && ([c] + tail)[2..] == tail[1..]
  {
  }

  lemma ConversionText(name: string, c: char, text: string, rest: string)
    ensures name + ['!', c] + text + rest == name + ['!'] + ([c] + (text + rest))
  {
    assert ['!', c] == ['!'] + [c];
    Associates(name, ['!'], [c]);
    Associates(name + ['!'], [c], text);
    Associates(name + ['!'], [c] + text, rest);
    Associates([c], text, rest);
  }

  /** A written field parses to what was written. */
  lemma FieldRoundTrip(field: Field, rest: string)
    requires Nameable(field.name) && Closed(field.spec, 0)
    ensures ParseField(Written(field) + rest) == Some((field, rest))
  {
    if field.conversion.None? {
      PlainField(field.name, field.spec, rest);
      assert field.name + "" == field.name;
      Associates(field.name, SpecText(field.spec), rest);
    } else {
      var c := field.conversion.value;
      ConvertedField(field.name, c, field.spec, rest);
      ConversionText(field.name, c, SpecText(field.spec), rest);
    }
  }

  /** What may follow the argument's name: attributes and indices. */
  predicate IsPath(path: string) {
    path == "" || path[0] == '.' || path[0] == '['
  }

  lemma {:induction false} ArgumentOf(arg: string, path: string)
    requires PlainName(arg) && IsPath(path)
    ensures ArgumentLength(arg + path) == |arg|
  {
    if arg != "" {
      assert (arg + path)[0] == arg[0] && (arg + path)[1..] == arg[1..] + path;
      ArgumentOf(arg[1..], path);
    } else {
      assert arg + path == path;
    }
  }

  /** A field formats to the presentation of its argument, with its path, its conversion and its
      specification, in which fields are expanded first. */
  lemma FormatField(present: Presenter, env: Env, arg: string, path: string, conversion: Option<char>, spec: string, depth: nat)
    requires depth > 0 && PlainName(arg) && arg != "" && IsPath(path)
    requires Nameable(arg + path) && Closed(spec, 0)
    ensures
      var formatted := Format(present, env, "{" + Written(Field(arg + path, conversion, spec)), depth);
      if arg !in env then formatted == None
      else if '{' !in spec then formatted == present(env[arg], path, conversion, spec)
      else
        var expanded := Format(present, env, spec, depth - 1);
        formatted == if expanded.None? then None else present(env[arg], path, conversion, expanded.value)
  {
    var field := Field(arg + path, conversion, spec);
    var s := "{" + Written(field);
    assert s[1..] == Written(field) + "" && s[1] == arg[0];
    FieldRoundTrip(field, "");
    ArgumentOf(arg, path);
    assert (arg + path)[..|arg|] == arg && (arg + path)[|arg|..] == path;
    var r := Render(present, env, field, depth);
    assert Format(present, env, s, depth) == if r.None? then None else Prepend(r.value, Format(present, env, "", depth));
    assert r.Some? ==> r.value + "" == r.value;
  }
}
