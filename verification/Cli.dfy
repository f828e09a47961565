/** The rkt command-line interface: global flags, the final command, its output and its errors. */
module Cli {
  import opened Wrappers
  import opened Text
  import opened Flags
  import opened FlagNames

  // ----- flags of a configuration -----

  datatype FieldValue = BoolValue(b: bool) | StringValue(s: string) | ListValue(items: seq<string>)

  /** A struct field; fields without a `flag` tag have the empty tag. */
  datatype Field = Field(tag: FlagName, value: FieldValue)

  function FieldValues(v: FieldValue): seq<string>
  {
    match v
    case BoolValue(b) => [if b then "true" else "false"]
    case StringValue(s) => When(s != "", s)
    case ListValue(items) => When(items != [], Join(items, ','))
  }

  function FieldGroups(fields: seq<Field>): seq<Group>
    decreases |fields|
  {
    if fields == [] then []
    else
      var f := fields[|fields| - 1];
      FieldGroups(fields[..|fields| - 1]) + (if f.tag == "" then [] else [Valued(f.tag, FieldValues(f.value))])
  }

  /** The flag of one field: an error without a tag, the empty text for an empty value. */
  method GetLongFlagFormOfField(f: Field) returns (r: Result<string>)
    ensures r.Err? <==> f.tag == ""
    ensures r.Ok? ==> Emit(f.tag, FieldValues(f.value)) == if r.value == "" then [] else [r.value]
  {
    if f.tag == "" {
      return Err("arg: given field doesn't have a `flag` tag");
    }
    match f.value {
      case ListValue(items) =>
        if |items| == 0 {
          return Ok("");
        }
        return Ok(Flag(f.tag, Join(items, ',')));
      case StringValue(s) =>
        if |s| == 0 {
          return Ok("");
        }
        return Ok(Flag(f.tag, s));
      case BoolValue(b) =>
        return Ok(Flag(f.tag, if b then "true" else "false"));
    }
  }

  /** What one more field adds to the line. */
  lemma NextField(fields: seq<Field>, i: nat)
    requires i < |fields|
    ensures Render(FieldGroups(fields[..i + 1]))
         == Render(FieldGroups(fields[..i]))
            + if fields[i].tag == "" then [] else Emit(fields[i].tag, FieldValues(fields[i].value))
  {
    assert fields[..i + 1][..i] == fields[..i];
    if fields[i].tag != "" {
      var last := [Valued(fields[i].tag, FieldValues(fields[i].value))];
      RenderAppend(FieldGroups(fields[..i]), last);
      assert last[1..] == [] && Render(last) == RenderGroup(last[0]) + [];
    } else {
      assert FieldGroups(fields[..i]) + [] == FieldGroups(fields[..i]);
    }
  }

  method GetArgumentFormOfStruct(fields: seq<Field>) returns (flags: seq<string>)
    ensures flags == Render(FieldGroups(fields))
  {
    flags := [];
    for i := 0 to |fields|
      invariant flags == Render(FieldGroups(fields[..i]))
    {
      NextField(fields, i);
      var flag := GetLongFlagFormOfField(fields[i]);
      if flag.Err? {
        continue;
      }
      if flag.value == "" {
        continue;
      }
      flags := flags + [flag.value];
    }
    assert fields[..|fields|] == fields;
  }

  datatype CliConfig = CliConfig(debug: bool, dir: string, localConfigDir: string, userConfigDir: string,
                                 systemConfigDir: string, insecureOptions: seq<string>)

  function ConfigFields(c: CliConfig): seq<Field>
  {
    [Field(DEBUG, BoolValue(c.debug)), Field(DIR, StringValue(c.dir)),
     Field(LOCAL_CONFIG, StringValue(c.localConfigDir)), Field(USER_CONFIG, StringValue(c.userConfigDir)),
     Field(SYSTEM_CONFIG, StringValue(c.systemConfigDir)), Field(INSECURE_OPTIONS, ListValue(c.insecureOptions))]
  }

  function GlobalGroups(c: CliConfig): (gs: seq<Group>)
    ensures AllValued(gs)
  {
    [Valued(DEBUG, [if c.debug then "true" else "false"]), Valued(DIR, When(c.dir != "", c.dir)),
     Valued(LOCAL_CONFIG, When(c.localConfigDir != "", c.localConfigDir)),
     Valued(USER_CONFIG, When(c.userConfigDir != "", c.userConfigDir)),
     Valued(SYSTEM_CONFIG, When(c.systemConfigDir != "", c.systemConfigDir)),
     Valued(INSECURE_OPTIONS, When(c.insecureOptions != [], Join(c.insecureOptions, ',')))]
  }

  function GlobalFlags(c: CliConfig): seq<string> { Render(GlobalGroups(c)) }

  function FieldGroup(f: Field): Group { Valued(f.tag, FieldValues(f.value)) }

  lemma {:induction false} TaggedFields(fields: seq<Field>)
    requires forall i :: 0 <= i < |fields| ==> fields[i].tag != ""
    ensures |FieldGroups(fields)| == |fields|
    ensures forall i :: 0 <= i < |fields| ==> FieldGroups(fields)[i] == FieldGroup(fields[i])
    decreases |fields|
  {
    if fields != [] {
      TaggedFields(fields[..|fields| - 1]);
    }
  }

  lemma ConfigGroups(c: CliConfig)
    ensures FieldGroups(ConfigFields(c)) == GlobalGroups(c)
  {
    TaggedFields(ConfigFields(c));
  }

  // ----- reading the flags back -----

  function ReadText(f: FlagName, args: seq<string>): string
  {
    var vs := Values(f, args);
    if vs == [] then "" else vs[|vs| - 1]
  }

  function ReadList(f: FlagName, args: seq<string>): seq<string>
  {
    var vs := Values(f, args);
    if vs == [] then [] else Split(vs[|vs| - 1], ',')
  }

  function ReadConfig(args: seq<string>): CliConfig
  {
    CliConfig(ReadText(DEBUG, args) == "true", ReadText(DIR, args), ReadText(LOCAL_CONFIG, args),
              ReadText(USER_CONFIG, args), ReadText(SYSTEM_CONFIG, args), ReadList(INSECURE_OPTIONS, args))
  }

  lemma GlobalValues(c: CliConfig)
    ensures
      var g := GlobalGroups(c);
      && ValuesOf(DEBUG, g) == [if c.debug then "true" else "false"]
      && ValuesOf(DIR, g) == When(c.dir != "", c.dir)
      && ValuesOf(LOCAL_CONFIG, g) == When(c.localConfigDir != "", c.localConfigDir)
      && ValuesOf(USER_CONFIG, g) == When(c.userConfigDir != "", c.userConfigDir)
  {
    var g := GlobalGroups(c);
    SoleGroup(DEBUG, g[..0], g[0].values, g[1..]);
    assert g == g[..0] + [g[0]] + g[1..];
    SoleGroup(DIR, g[..1], g[1].values, g[2..]);
    assert g == g[..1] + [g[1]] + g[2..];
    SoleGroup(LOCAL_CONFIG, g[..2], g[2].values, g[3..]);
    assert g == g[..2] + [g[2]] + g[3..];
    SoleGroup(USER_CONFIG, g[..3], g[3].values, g[4..]);
    assert g == g[..3] + [g[3]] + g[4..];
  }

  lemma MoreGlobalValues(c: CliConfig)
    ensures
      var g := GlobalGroups(c);
      && ValuesOf(SYSTEM_CONFIG, g) == When(c.systemConfigDir != "", c.systemConfigDir)
      && ValuesOf(INSECURE_OPTIONS, g) == When(c.insecureOptions != [], Join(c.insecureOptions, ','))
  {
    var g := GlobalGroups(c);
    SoleGroup(SYSTEM_CONFIG, g[..4], g[4].values, g[5..]);
    assert g == g[..4] + [g[4]] + g[5..];
    SoleGroup(INSECURE_OPTIONS, g[..5], g[5].values, g[6..]);
    assert g == g[..5] + [g[5]] + g[6..];
  }

  lemma ReadGlobal(f: FlagName, c: CliConfig)
    ensures Values(f, GlobalFlags(c)) == ValuesOf(f, GlobalGroups(c))
    ensures Words(GlobalFlags(c)) == [] && END_OF_FLAGS !in GlobalFlags(c)
  {
    ReadRender(f, GlobalGroups(c));
    OfLacking(f, GlobalGroups(c));
  }

  lemma ReadTexts(c: CliConfig)
    ensures
      var args := GlobalFlags(c);
      && (ReadText(DEBUG, args) == "true" <==> c.debug)
      && ReadText(DIR, args) == c.dir && ReadText(LOCAL_CONFIG, args) == c.localConfigDir
      && ReadText(USER_CONFIG, args) == c.userConfigDir && ReadText(SYSTEM_CONFIG, args) == c.systemConfigDir
  {
    GlobalValues(c);
    MoreGlobalValues(c);
    ReadGlobal(DEBUG, c);
    ReadGlobal(DIR, c);
    ReadGlobal(LOCAL_CONFIG, c);
    ReadGlobal(USER_CONFIG, c);
    ReadGlobal(SYSTEM_CONFIG, c);
  }

  /** The printed flags read back to the configuration exactly when no insecure option contains a comma. */
  lemma ConfigRoundTripIff(c: CliConfig)
    ensures ReadConfig(GlobalFlags(c)) == c <==> forall o :: o in c.insecureOptions ==> ',' !in o
  {
    ReadTexts(c);
    MoreGlobalValues(c);
    ReadGlobal(INSECURE_OPTIONS, c);
    var back := ReadList(INSECURE_OPTIONS, GlobalFlags(c));
    if c.insecureOptions != [] {
      assert back == Split(Join(c.insecureOptions, ','), ',');
      if forall o :: o in c.insecureOptions ==> ',' !in o {
        SplitOfJoin(c.insecureOptions, ',');
      }
    }
  }

  // ----- commands -----

  /** The command line that is executed. */
  function Command(rktPath: string, globalFlags: seq<string>, subCmd: string, args: seq<string>): seq<string>
  {
    [rktPath, subCmd] + globalFlags + args
  }

  predicate GlobalName(f: FlagName) { f in {DEBUG, DIR, LOCAL_CONFIG, USER_CONFIG, SYSTEM_CONFIG, INSECURE_OPTIONS} }

  /** Global flags go between the subcommand and its arguments: the words are the same, and every flag
      has its global values followed by its own. */
  lemma GlobalFlagsComeFirst(f: FlagName, c: CliConfig, rktPath: string, subCmd: string, args: seq<string>)
    requires IsWord(subCmd)
    ensures
      var line := Command(rktPath, GlobalFlags(c), subCmd, args)[1..];
      && Words(line) == [subCmd] + Words(args)
      && Values(f, line) == Values(f, GlobalFlags(c)) + Values(f, args)
      && Rest(line) == Rest(args)
  {
    var line := Command(rktPath, GlobalFlags(c), subCmd, args)[1..];
    var front := [subCmd] + GlobalFlags(c);
    assert line == front + args;
    ReadGlobal(f, c);
    assert [] + [subCmd] == [subCmd];
    ReadWord(f, [], subCmd);
    ReadAppend(f, [subCmd], GlobalFlags(c));
    ReadAppend(f, front, args);
  }

  /** Flags that are not global keep their values. */
  lemma GlobalFlagsDoNotInterfere(f: FlagName, c: CliConfig, rktPath: string, subCmd: string, args: seq<string>)
    requires IsWord(subCmd)
    ensures
      var line := Command(rktPath, GlobalFlags(c), subCmd, args)[1..];
      && Words(line) == [subCmd] + Words(args)
      && (!GlobalName(f) ==> Values(f, line) == Values(f, args))
      && Rest(line) == Rest(args)
  {
    GlobalFlagsComeFirst(f, c, rktPath, subCmd, args);
    ReadGlobal(f, c);
    OfLacking(f, GlobalGroups(c));
  }

  // ----- output -----

  predicate IsSpace(c: char)
  {
    || '\t' <= c <= '\r' || c == ' ' || c == '\U{85}' || c == '\U{A0}' || c == '\U{1680}'
    || '\U{2000}' <= c <= '\U{200a}' || c == '\U{2028}' || c == '\U{2029}' || c == '\U{202f}'
    || c == '\U{205f}' || c == '\U{3000}'
  }

  function TrimSpace(s: string): string
    decreases |s|
  {
    if s != "" && IsSpace(s[0]) then TrimSpace(s[1..])
    else if s != "" && IsSpace(s[|s| - 1]) then TrimSpace(s[..|s| - 1])
    else s
  }

  function OutputLines(output: string): seq<string> { Split(TrimSpace(output), '\n') }

  lemma {:induction false} TrimSpaceMeaning(s: string) returns (i: nat, n: nat)
    ensures i <= n <= |s| && TrimSpace(s) == s[i..n]
    ensures forall j :: 0 <= j < |s| && !(i <= j < n) ==> IsSpace(s[j])
    ensures i < n ==> !IsSpace(s[i]) && !IsSpace(s[n - 1])
    decreases |s|
  {
    if s != "" && IsSpace(s[0]) {
      var i', n' := TrimSpaceMeaning(s[1..]);
      i, n := i' + 1, n' + 1;
      assert s[1..][i'..n'] == s[i..n];
      forall j | 0 <= j < |s| && !(i <= j < n) ensures IsSpace(s[j]) {
        if j > 0 { assert s[j] == s[1..][j - 1]; }
      }
    } else if s != "" && IsSpace(s[|s| - 1]) {
      i, n := TrimSpaceMeaning(s[..|s| - 1]);
      assert s[..|s| - 1][i..n] == s[i..n];
      forall j | 0 <= j < |s| && !(i <= j < n) ensures IsSpace(s[j]) {
        if j < |s| - 1 { assert s[j] == s[..|s| - 1][j]; }
      }
    } else {
      i, n := 0, |s|;
    }
  }

  /** A successful command yields at least one line, its lines contain no line break, and joined again
      they are the output without surrounding white space: `list[0]` and the last line always exist. */
  lemma OutputLinesMeaning(output: string)
    ensures
      var lines := OutputLines(output);
      && |lines| >= 1
      && (forall l :: l in lines ==> '\n' !in l)
      && Join(lines, '\n') == TrimSpace(output)
      && (lines == [""] <==> forall j :: 0 <= j < |output| ==> IsSpace(output[j]))
  {
    JoinOfSplit(TrimSpace(output), '\n');
    var i, n := TrimSpaceMeaning(output);
    if OutputLines(output) == [""] {
      assert TrimSpace(output) == "";
    }
    if forall j :: 0 <= j < |output| ==> IsSpace(output[j]) {
      assert i == n && TrimSpace(output) == "";
    }
  }

  // ----- errors -----

  /** `%v` of a list of texts. */
  function Bracketed(args: seq<string>): string { "[" + Join(args, ' ') + "]" }

  /** What Go says of a command that failed. */
  const EXIT_STATUS: string := "exit status 254"

  /** The error RunCommand makes of a failed command. */
  function RunError(subCmd: string, args: seq<string>, err: string, output: string): string
  {
    "failed to run " + subCmd + " " + Bracketed(args) + ": " + err + "\noutput: " + output
  }
}
