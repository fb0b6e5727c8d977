/** The system prompt configuration: a schema split at the user prompt, so that the shared prefix and
    the request can be formatted separately. */
module SystemPrompt {
  import opened FormatString
  import opened Options

  const SYS := "__SYS_PROMPT"
  const USR := "__USR_PROMPT"
  const SYS_FIELD := "{" + SYS + "}"
  const USR_FIELD := "{" + USR + "}"

  // ---- str.strip and str.find ----

  /** The white space of Unicode, as str.isspace has it. */
  predicate IsSpace(c: char) {
    var n := c as int;
    || 0x09 <= n <= 0x0D || 0x1C <= n <= 0x20 || n == 0x85 || n == 0xA0 || n == 0x1680
    || 0x2000 <= n <= 0x200A || n == 0x2028 || n == 0x2029 || n == 0x202F || n == 0x205F || n == 0x3000
  }

  function LeftStrip(s: string): (r: string)
    ensures r != "" ==> !IsSpace(r[0])
  {
    if s != "" && IsSpace(s[0]) then LeftStrip(s[1..]) else s
  }

  function RightStrip(s: string): (r: string)
    ensures r != "" ==> !IsSpace(r[|r| - 1])
    ensures r != "" ==> s != "" && r[0] == s[0]
  {
    if s != "" && IsSpace(s[|s| - 1]) then RightStrip(s[..|s| - 1]) else s
  }

  /** No white space at either end. */
  predicate Trimmed(s: string) {
    s != "" ==> !IsSpace(s[0]) && !IsSpace(s[|s| - 1])
  }

  /** str.strip. */
  function Strip(s: string): (r: string)
    ensures Trimmed(r)
  {
    RightStrip(LeftStrip(s))
  }

  lemma StripTrimmed(s: string)
    requires Trimmed(s)
    ensures Strip(s) == s
  {
  }

  predicate AllSpace(s: string) {
    forall i :: 0 <= i < |s| ==> IsSpace(s[i])
  }

  lemma {:induction false} LeftStripSpace(pre: string, s: string)
    requires AllSpace(pre)
    ensures LeftStrip(pre + s) == LeftStrip(s)
  {
    if pre == "" {
      assert pre + s == s;
    } else {
      assert (pre + s)[0] == pre[0] && (pre + s)[1..] == pre[1..] + s;
      LeftStripSpace(pre[1..], s);
    }
  }

  lemma {:induction false} RightStripSpace(s: string, post: string)
    requires AllSpace(post)
    ensures RightStrip(s + post) == RightStrip(s)
  {
    if post == "" {
      assert s + post == s;
    } else {
      var n := |post| - 1;
      assert (s + post)[|s| + n] == post[n] && (s + post)[..|s| + n] == s + post[..n];
      RightStripSpace(s, post[..n]);
    }
  }

  lemma {:induction false} LeftParts(s: string) returns (pre: string)
    ensures AllSpace(pre) && s == pre + LeftStrip(s)
  {
    pre := "";
    if s != "" && IsSpace(s[0]) {
      var rest := LeftParts(s[1..]);
      pre := [s[0]] + rest;
    }
  }

  lemma {:induction false} RightParts(s: string) returns (post: string)
    ensures AllSpace(post) && s == RightStrip(s) + post
  {
    post := "";
    if s != "" && IsSpace(s[|s| - 1]) {
      var rest := RightParts(s[..|s| - 1]);
      post := rest + [s[|s| - 1]];
      assert RightStrip(s) + post == s[..|s| - 1] + [s[|s| - 1]];
    }
  }

  /** A text is its stripped form with white space before and after. */
  lemma StripParts(s: string) returns (pre: string, post: string)
    ensures AllSpace(pre) && AllSpace(post) && s == pre + Strip(s) + post
  {
    pre := LeftParts(s);
    post := RightParts(LeftStrip(s));
    assert s == pre + (Strip(s) + post);
  }

  /** And that is the only trimmed text of which this can be said. */
  lemma StripUnique(pre: string, r: string, post: string)
    requires AllSpace(pre) && AllSpace(post) && Trimmed(r)
    ensures Strip(pre + r + post) == r
  {
    assert pre + r + post == pre + (r + post);
    LeftStripSpace(pre, r + post);
    if r == "" {
      assert r + post == post + "";
      LeftStripSpace(post, "");
    } else {
      assert (r + post)[0] == r[0];
      RightStripSpace(r, post);
    }
  }

  predicate At(s: string, sub: string, i: nat) {
    i + |sub| <= |s| && s[i..i + |sub|] == sub
  }

  /** str.find: the first occurrence, or None. */
  method Find(s: string, sub: string) returns (r: Option<nat>)
    ensures r.Some? ==> At(s, sub, r.value) && forall j: nat :: j < r.value ==> !At(s, sub, j)
    ensures r.None? ==> forall j: nat :: !At(s, sub, j)
  {
    var i := 0;
    while i + |sub| <= |s|
      invariant forall j: nat :: j < i ==> !At(s, sub, j)
    {
      if s[i..i + |sub|] == sub {
        return Some(i);
      }
      i := i + 1;
    }
    return None;
  }

  ghost predicate FirstAt(s: string, sub: string, i: nat) {
    At(s, sub, i) && forall j: nat :: j < i ==> !At(s, sub, j)
  }

  // ---- the configuration ----

  /** The checks on the schema, and where it is split. */
  method SplitPoint(schema: string) returns (ok: bool, index: nat)
    ensures ok <==> Splittable(schema)
    ensures ok ==> index > 0 && FirstAt(schema, USR_FIELD, index)
  {
    index := 0;
    if schema == "" {
      return false, 0;
    }
    var first := Find(schema, USR_FIELD);
    if first.None? || first.value == 0 {
      return false, 0;
    }
    index := first.value;
    assert FirstAt(schema, USR_FIELD, index);
    var found := Find(schema[..index], SYS_FIELD);
    ok := found.Some?;
    assert ok ==> Contains(schema[..index], SYS_FIELD);
    forall i: nat | i > 0 && FirstAt(schema, USR_FIELD, i)
      ensures i == index
    {
      FirstAtUnique(schema, USR_FIELD, i, index);
    }
  }

  class SystemPromptConfig {
    var prompt: Option<string>
    var schema: Option<string>
    var hasSysPrompt: bool
    var prefixSchema: Option<string>
    var requestSchema: Option<string>
    /** False when an assertion of the constructor failed. */
    var accepted: bool

    /** The constructor. The file arguments are the contents of the files, and win over the direct
        ones; the schema is split before the first user field. */
    constructor (sysPrompt: Option<string>, sysSchema: Option<string>,
                 promptFile: Option<string>, schemaFile: Option<string>)
      ensures schema == if schemaFile.Some? then schemaFile else sysSchema
      ensures
        var given := if promptFile.Some? then promptFile else sysPrompt;
        && prompt == (if given.Some? then Some(Strip(given.value)) else None)
        && (hasSysPrompt <==> given.Some? && Strip(given.value) != "")
      ensures accepted && hasSysPrompt ==> IsSplit()
      ensures !hasSysPrompt ==> accepted && prefixSchema.None? && requestSchema.None?
      ensures hasSysPrompt ==> (accepted <==> schema.Some? && Splittable(schema.value))
    {
      prompt := if promptFile.Some? then promptFile else sysPrompt;
      schema := if schemaFile.Some? then schemaFile else sysSchema;
      hasSysPrompt := false;
      prefixSchema, requestSchema := None, None;
      accepted := true;
      new;
      if prompt.Some? {
        prompt := Some(Strip(prompt.value));
        hasSysPrompt := |prompt.value| > 0;
      }
      if hasSysPrompt {
        Split();
      }
    }

    /** The part of the constructor that checks and splits the schema. */
    method Split()
      requires prompt.Some? && Trimmed(prompt.value)
      modifies this`prefixSchema, this`requestSchema, this`accepted
      ensures accepted ==> IsSplit()
      ensures accepted <==> schema.Some? && Splittable(schema.value)
    {
      accepted := false;
      if schema.Some? {
        var ok, index := SplitPoint(schema.value);
        if ok {
          accepted := true;
          prefixSchema := Some(schema.value[..index]);
          requestSchema := Some(schema.value[index..]);
          assert schema.value == schema.value[..index] + schema.value[index..];
        }
      }
    }

    /** The schema is its two halves. */
    ghost predicate IsHalved()
      reads this
    {
      && prompt.Some? && Trimmed(prompt.value)
      && schema.Some? && prefixSchema.Some? && requestSchema.Some?
      && schema.value == prefixSchema.value + requestSchema.value
    }

    /** The schema is its two halves, the second beginning with the first user field. */
    ghost predicate IsSplit()
      reads this
    {
      IsHalved() && FirstAt(schema.value, USR_FIELD, |prefixSchema.value|)
    }

    function GetSharedPrefix(present: Presenter): Option<string>
      reads this
    {
      if prefixSchema.None? || prompt.None? then None
      else Format(present, map[SYS := prompt.value], prefixSchema.value, 2)
    }

    function GetFormattedRequest(present: Presenter, userPrompt: string, includeSysPrompt: bool): Option<string>
      reads this
    {
      if includeSysPrompt then
        if schema.None? || prompt.None? then None
        else Format(present, map[SYS := Strip(prompt.value), USR := Strip(userPrompt)], schema.value, 2)
      else if requestSchema.None? then None
      else Format(present, map[USR := Strip(userPrompt)], requestSchema.value, 2)
    }
  }

  /** What the constructor asks of a schema. */
  ghost predicate Splittable(schema: string) {
    exists i: nat :: i > 0 && FirstAt(schema, USR_FIELD, i) && Contains(schema[..i], SYS_FIELD)
  }

  ghost predicate Contains(s: string, sub: string) {
    exists j: nat :: At(s, sub, j)
  }

  lemma FirstAtUnique(s: string, sub: string, i: nat, j: nat)
    requires FirstAt(s, sub, i) && FirstAt(s, sub, j)
    ensures i == j
  {
  }

  /** The law of the split, on texts: formatting the halves separately, each with its own argument,
      and the whole with both arguments give the same text. */
  lemma HalvesMakeTheWhole(present: Presenter, sys: string, usr: string, prefix: string, request: string)
    requires Format(present, map[SYS := sys], prefix, 2).Some?
    requires Format(present, map[USR := usr], request, 2).Some?
    ensures Format(present, map[SYS := sys, USR := usr], prefix + request, 2)
         == Some(Format(present, map[SYS := sys], prefix, 2).value + Format(present, map[USR := usr], request, 2).value)
  {
    var both := map[SYS := sys, USR := usr];
    FormatMoreArguments(present, map[SYS := sys], both, prefix, 2);
    FormatMoreArguments(present, map[USR := usr], both, request, 2);
    FormatConcat(present, both, prefix, request, 2);
  }

  /** Only the first half mentions the system prompt and only the second the user prompt, and each
      half parses on its own. */
  ghost predicate Separate(prefix: string, request: string) {
    var inPrefix, inRequest := Arguments(prefix, 2), Arguments(request, 2);
    && inPrefix.Some? && inPrefix.value <= {SYS}
    && inRequest.Some? && inRequest.value <= {USR}
  }

  /** Of a schema that formats as a whole, the halves format exactly when they are separate. */
  lemma HalvesFormatExactly(present: Presenter, sys: string, usr: string, prefix: string, request: string)
    requires Format(present, map[SYS := sys, USR := usr], prefix + request, 2).Some?
    ensures Format(present, map[SYS := sys], prefix, 2).Some? && Format(present, map[USR := usr], request, 2).Some?
       <==> Separate(prefix, request)
  {
    var both := map[SYS := sys, USR := usr];
    if Separate(prefix, request) {
      FormatPart(present, both, prefix, request, 2);
      FormatConcat(present, both, prefix, request, 2);
      FormatFewerArguments(present, map[SYS := sys], both, prefix, 2);
      FormatFewerArguments(present, map[USR := usr], both, request, 2);
    } else if Format(present, map[SYS := sys], prefix, 2).Some? && Format(present, map[USR := usr], request, 2).Some? {
      FormatMentions(present, map[SYS := sys], prefix, 2);
      FormatMentions(present, map[USR := usr], request, 2);
    }
  }

  /** For every accepted configuration and every user prompt: where the shared prefix and the bare
      request both format, so does the full request, to the one followed by the other. The relay
      and the concatenation mode see the same text. */
  lemma ModesAgree(cfg: SystemPromptConfig, present: Presenter, userPrompt: string)
    requires cfg.IsHalved()
    requires cfg.GetSharedPrefix(present).Some? && cfg.GetFormattedRequest(present, userPrompt, false).Some?
    ensures cfg.GetFormattedRequest(present, userPrompt, true)
         == Some(cfg.GetSharedPrefix(present).value + cfg.GetFormattedRequest(present, userPrompt, false).value)
  {
    var sys, usr := cfg.prompt.value, Strip(userPrompt);
    assert Strip(sys) == sys by {
      StripTrimmed(sys);
    }
    HalvesMakeTheWhole(present, sys, usr, cfg.prefixSchema.value, cfg.requestSchema.value);
  }

  /** Where the full request formats, the relay mode formats exactly for the schemas whose halves are
      separate. */
  lemma RelayFormatsExactly(cfg: SystemPromptConfig, present: Presenter, userPrompt: string)
    requires cfg.IsHalved()
    requires cfg.GetFormattedRequest(present, userPrompt, true).Some?
    ensures cfg.GetSharedPrefix(present).Some? && cfg.GetFormattedRequest(present, userPrompt, false).Some?
       <==> Separate(cfg.prefixSchema.value, cfg.requestSchema.value)
  {
    var sys, usr := cfg.prompt.value, Strip(userPrompt);
    assert Strip(sys) == sys by {
      StripTrimmed(sys);
    }
    HalvesFormatExactly(present, sys, usr, cfg.prefixSchema.value, cfg.requestSchema.value);
  }

  /** Presenting a string without conversion or specification gives the string. */
  ghost predicate PlainPresenter(present: Presenter) {
    forall v: string :: present(v, "", None, "") == Some(v)
  }

  /** The documented form of a schema always formats, whatever the prompts contain, and both modes
      put the prompts where the fields are. */
  lemma DocumentedSchema(present: Presenter, sys: string, usr: string, a: string, b: string, c: string)
    requires PlainPresenter(present) && BraceFree(a) && BraceFree(b) && BraceFree(c)
    ensures Format(present, map[SYS := sys], a + SYS_FIELD + b, 2) == Some(a + sys + b)
    ensures Format(present, map[USR := usr], USR_FIELD + c, 2) == Some(usr + c)
    ensures Format(present, map[SYS := sys, USR := usr], a + SYS_FIELD + b + (USR_FIELD + c), 2)
         == Some(a + sys + b + (usr + c))
  {
    var e, f := map[SYS := sys], map[USR := usr];
    FieldNames();
    FormatLiteral(present, e, a, 2);
    FormatPlainField(present, e, SYS, 2);
    FormatConcat(present, e, a, SYS_FIELD, 2);
    FormatLiteral(present, e, b, 2);
    FormatConcat(present, e, a + SYS_FIELD, b, 2);
    FormatPlainField(present, f, USR, 2);
    FormatLiteral(present, f, c, 2);
    FormatConcat(present, f, USR_FIELD, c, 2);
    HalvesMakeTheWhole(present, sys, usr, a + SYS_FIELD + b, USR_FIELD + c);
  }

  /** In a schema of the documented form the first user field is the one after the system field. */
  lemma DocumentedSplit(a: string, b: string, c: string)
    requires BraceFree(a) && BraceFree(b)
    ensures
      var schema, i := a + SYS_FIELD + b + (USR_FIELD + c), |a + SYS_FIELD + b|;
      FirstAt(schema, USR_FIELD, i) && schema[..i] == a + SYS_FIELD + b && schema[i..] == USR_FIELD + c
      && Splittable(schema)
  {
    var prefix := a + SYS_FIELD + b;
    var schema, i := prefix + (USR_FIELD + c), |prefix|;
    assert schema[i..] == USR_FIELD + c && schema[i..i + |USR_FIELD|] == USR_FIELD;
    forall j: nat | j < i
      ensures !At(schema, USR_FIELD, j)
    {
      NoUserField(a, b, USR_FIELD + c, j);
    }
    assert schema[..i] == prefix;
    assert prefix[|a|..|a| + |SYS_FIELD|] == SYS_FIELD;
    assert At(schema[..i], SYS_FIELD, |a|);
    assert Contains(schema[..i], SYS_FIELD);
  }

  lemma NoUserField(a: string, b: string, rest: string, j: nat)
    requires BraceFree(a) && BraceFree(b) && j < |a + SYS_FIELD + b|
    ensures !At(a + SYS_FIELD + b + rest, USR_FIELD, j)
  {
    var prefix := a + SYS_FIELD + b;
    var schema := prefix + rest;
    SystemFieldAt(a, b, j);
    if j + |USR_FIELD| <= |schema| {
      var part := schema[j..j + |USR_FIELD|];
      assert part[0] == schema[j] == prefix[j] && part[3] == schema[j + 3];
      assert USR_FIELD[0] == '{' && USR_FIELD[3] == 'U';
      assert prefix[j] == '{' ==> schema[j + 3] == prefix[j + 3] == 'S';
    }
  }

  /** The only opening brace before the user field is that of the system field. */
  lemma SystemFieldAt(a: string, b: string, j: nat)
    requires BraceFree(a) && BraceFree(b) && j < |a + SYS_FIELD + b|
    ensures (a + SYS_FIELD + b)[j] == '{' ==>
      j == |a| && j + 3 < |a + SYS_FIELD + b| && (a + SYS_FIELD + b)[j + 3] == 'S'
  {
    var prefix := a + SYS_FIELD + b;
    if j < |a| {
      assert prefix[j] == a[j];
    } else if j < |a| + |SYS_FIELD| {
      assert prefix[j] == SYS_FIELD[j - |a|];
      assert forall i :: 0 < i < |SYS_FIELD| ==> SYS_FIELD[i] != '{';
      assert prefix[|a| + 3] == SYS_FIELD[3];
    } else {
      assert prefix[j] == b[j - |a| - |SYS_FIELD|];
    }
  }

  /** What the three texts are in a configuration with a schema of the documented form: the stripped
      system prompt and the stripped user prompt in place of the fields, whatever they contain. */
  lemma DocumentedTexts(cfg: SystemPromptConfig, present: Presenter, userPrompt: string, a: string, b: string, c: string)
    requires PlainPresenter(present) && BraceFree(a) && BraceFree(b) && BraceFree(c)
    requires cfg.IsSplit() && cfg.schema == Some(a + SYS_FIELD + b + (USR_FIELD + c))
    ensures
      var sys, usr := cfg.prompt.value, Strip(userPrompt);
      && cfg.GetSharedPrefix(present) == Some(a + sys + b)
      && cfg.GetFormattedRequest(present, userPrompt, false) == Some(usr + c)
      && cfg.GetFormattedRequest(present, userPrompt, true) == Some(a + sys + b + (usr + c))
  {
    var sys, usr := cfg.prompt.value, Strip(userPrompt);
    DocumentedSplit(a, b, c);
    var schema := cfg.schema.value;
    FirstAtUnique(schema, USR_FIELD, |cfg.prefixSchema.value|, |a + SYS_FIELD + b|);
    assert cfg.prefixSchema.value == schema[..|cfg.prefixSchema.value|];
    assert cfg.requestSchema.value == schema[|cfg.prefixSchema.value|..];
    DocumentedSchema(present, sys, usr, a, b, c);
    assert Strip(sys) == sys by {
      StripTrimmed(sys);
    }
  }

  lemma FieldNames()
    ensures PlainName(SYS) && PlainName(USR)
  {
  }

  /** The constructor's own checks are not enough: this schema passes them and formats as a whole, but
      its shared prefix does not format, because the split falls inside a doubled brace. */
  lemma EscapedUserField(present: Presenter, sys: string, usr: string)
    requires PlainPresenter(present)
    ensures
      var schema := SYS_FIELD + "{" + USR_FIELD + "}";
      && Splittable(schema) && FirstAt(schema, USR_FIELD, |SYS_FIELD| + 1)
      && Format(present, map[SYS := sys, USR := usr], schema, 2) == Some(sys + ("{" + USR + "}"))
      && Format(present, map[SYS := sys], schema[..|SYS_FIELD| + 1], 2) == None
  {
    EscapedSplit();
    FieldNames();
    EscapedFormats(present, SYS, USR, sys, usr);
    var schema := SYS_FIELD + "{" + USR_FIELD + "}";
    assert schema[..|SYS_FIELD| + 1] == SYS_FIELD + "{";
  }

  /** The same for any two argument names. */
  lemma EscapedFormats(present: Presenter, sysName: string, usrName: string, sys: string, usr: string)
    requires PlainPresenter(present) && PlainName(sysName) && PlainName(usrName) && sysName != "" && sysName != usrName
    ensures
      var first, second := "{" + sysName + "}", "{" + usrName + "}";
      && Format(present, map[sysName := sys, usrName := usr], first + "{" + second + "}", 2)
         == Some(sys + ("{" + usrName + "}"))
      && Format(present, map[sysName := sys], first + "{", 2) == None
  {
    var first, second := "{" + sysName + "}", "{" + usrName + "}";
    var e, both := map[sysName := sys], map[sysName := sys, usrName := usr];
    FormatPlainField(present, e, sysName, 2);
    FormatConcat(present, e, first, "{", 2);
    FormatPlainField(present, both, sysName, 2);
    var escaped := "{{" + usrName + "}}";
    BracesDouble(first, usrName);
    EscapedText(present, both, usrName);
    FormatConcat(present, both, first, escaped, 2);
  }

  lemma BracesDouble(before: string, name: string)
    ensures before + "{" + ("{" + name + "}") + "}" == before + ("{{" + name + "}}")
  {
  }

  lemma EscapedSplit()
    ensures
      var schema := SYS_FIELD + "{" + USR_FIELD + "}";
      Splittable(schema) && FirstAt(schema, USR_FIELD, |SYS_FIELD| + 1)
  {
    var schema, i := SYS_FIELD + "{" + USR_FIELD + "}", |SYS_FIELD| + 1;
    assert At(schema, USR_FIELD, i);
    forall j: nat | j < i
      ensures !At(schema, USR_FIELD, j)
    {
      assert j + |USR_FIELD| <= |schema|;
      if j == 0 {
        assert schema[3] == 'S' && USR_FIELD[3] == 'U';
        assert schema[0..0 + |USR_FIELD|][3] == schema[3];
      } else {
        assert schema[j..j + |USR_FIELD|][0] == schema[j] && schema[j..j + |USR_FIELD|][1] == schema[j + 1];
        assert schema[j] != '{' || schema[j + 1] != '_';
      }
    }
    assert At(schema[..i], SYS_FIELD, 0);
    assert Contains(schema[..i], SYS_FIELD);
  }

  lemma EscapedText(present: Presenter, env: Env, text: string)
    requires BraceFree(text)
    ensures Format(present, env, "{{" + text + "}}", 2) == Some("{" + text + "}")
  {
    var s := "{{" + text + "}}";
    assert s[2..] == text + "}}";
    FormatLiteral(present, env, text, 2);
    assert "}}"[2..] == "";
    assert Format(present, env, "}}", 2) == Some("}") by {
      assert "}" + "" == "}";
    }
    FormatConcat(present, env, text, "}}", 2);
    assert Format(present, env, text + "}}", 2) == Some(text + "}");
    assert "{" + (text + "}") == "{" + text + "}";
  }
}
