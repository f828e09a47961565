/** Command lines: the `--name=value` arguments rktlet prints, and how a long-flag parser reads an
    argument list back. */
module Flags {
  import opened Text

  type FlagName = s: string | '=' !in s witness ""

  // ----- printing -----

  function Prefix(f: FlagName): string { "--" + f + "=" }

  function Flag(f: FlagName, value: string): string { Prefix(f) + value }

  /** One argument per value, in order. */
  function Emit(f: FlagName, values: seq<string>): (args: seq<string>)
    ensures |args| == |values|
    ensures forall i :: 0 <= i < |values| ==> args[i] == Flag(f, values[i])
  {
    seq(|values|, i requires 0 <= i < |values| => Flag(f, values[i]))
  }

  /** The value to emit when a condition holds. */
  function When(condition: bool, value: string): seq<string> { if condition then [value] else [] }

  /** Appends `--f=value` when a condition holds. */
  method AppendWhen(cmd: seq<string>, condition: bool, f: FlagName, value: string) returns (out: seq<string>)
    ensures out == cmd + Emit(f, When(condition, value))
  {
    out := cmd;
    if condition {
      out := out + [Flag(f, value)];
    }
  }

  /** Appends one `--f=value` per value. */
  method AppendEach(cmd: seq<string>, f: FlagName, values: seq<string>) returns (out: seq<string>)
    ensures out == cmd + Emit(f, values)
  {
    out := cmd;
    for i := 0 to |values|
      invariant out == cmd + Emit(f, values[..i])
    {
      out := out + [Flag(f, values[i])];
      assert Emit(f, values[..i + 1]) == Emit(f, values[..i]) + [Flag(f, values[i])];
    }
    assert values[..|values|] == values;
  }

  // ----- reading -----

  const END_OF_FLAGS: string := "--"

  /** A positional argument. */
  predicate IsWord(arg: string) { !("--" <= arg) }

  /** The positional arguments before the first `--`. */
  function Words(args: seq<string>): seq<string>
  {
    if args == [] || args[0] == END_OF_FLAGS then []
    else if IsWord(args[0]) then [args[0]] + Words(args[1..])
    else Words(args[1..])
  }

  /** The values given to a flag before the first `--`, in order. */
  function Values(f: FlagName, args: seq<string>): seq<string>
  {
    if args == [] || args[0] == END_OF_FLAGS then []
    else if Prefix(f) <= args[0] then [args[0][|Prefix(f)|..]] + Values(f, args[1..])
    else Values(f, args[1..])
  }

  /** Everything after the first `--`. */
  function Rest(args: seq<string>): seq<string>
  {
    if args == [] then []
    else if args[0] == END_OF_FLAGS then args[1..]
    else Rest(args[1..])
  }

  /** The settings of a boolean flag before the first `--`: a bare `--f` stands for `true`. */
  function Settings(f: FlagName, args: seq<string>): seq<string>
  {
    if args == [] || args[0] == END_OF_FLAGS then []
    else if args[0] == "--" + f then ["true"] + Settings(f, args[1..])
    else if Prefix(f) <= args[0] then [args[0][|Prefix(f)|..]] + Settings(f, args[1..])
    else Settings(f, args[1..])
  }

  // ----- reading what was printed -----

  /** A printed flag is neither a word nor the end marker, and it belongs to one flag name only. */
  lemma ReadFlag(f: FlagName, g: FlagName, value: string)
    ensures !IsWord(Flag(g, value)) && Flag(g, value) != END_OF_FLAGS
    ensures Prefix(f) <= Flag(g, value) <==> f == g
    ensures Flag(g, value)[|Prefix(g)|..] == value
  {
    var a := Flag(g, value);
    assert a[..2] == "--";
    if Prefix(f) <= a {
      var tail := a[|Prefix(f)|..];
      assert a == Prefix(f) + tail;
      assert a[2..] == g + ['='] + value;
      assert a[2..] == f + ['='] + tail;
      UniqueSplit(f, tail, g, value, '=');
    }
  }

  lemma {:induction false} WordsAppend(a: seq<string>, b: seq<string>)
    requires END_OF_FLAGS !in a
    ensures Words(a + b) == Words(a) + Words(b)
  {
    if a == [] {
      assert a + b == b;
    } else {
      assert (a + b)[0] == a[0] && (a + b)[1..] == a[1..] + b;
      WordsAppend(a[1..], b);
    }
  }

  lemma {:induction false} ValuesAppend(f: FlagName, a: seq<string>, b: seq<string>)
    requires END_OF_FLAGS !in a
    ensures Values(f, a + b) == Values(f, a) + Values(f, b)
  {
    if a == [] {
      assert a + b == b;
    } else {
      assert (a + b)[0] == a[0] && (a + b)[1..] == a[1..] + b;
      ValuesAppend(f, a[1..], b);
    }
  }

  lemma {:induction false} RestAppend(a: seq<string>, b: seq<string>)
    requires END_OF_FLAGS !in a
    ensures Rest(a + b) == Rest(b)
  {
    if a == [] {
      assert a + b == b;
    } else {
      assert (a + b)[0] == a[0] && (a + b)[1..] == a[1..] + b;
      RestAppend(a[1..], b);
    }
  }

  lemma ReadAppend(f: FlagName, a: seq<string>, b: seq<string>)
    requires END_OF_FLAGS !in a
    ensures Words(a + b) == Words(a) + Words(b)
    ensures Values(f, a + b) == Values(f, a) + Values(f, b)
    ensures Rest(a + b) == Rest(b)
  {
    WordsAppend(a, b);
    ValuesAppend(f, a, b);
    RestAppend(a, b);
  }

  lemma {:induction false} SettingsAppend(f: FlagName, a: seq<string>, b: seq<string>)
    requires END_OF_FLAGS !in a
    ensures Settings(f, a + b) == Settings(f, a) + Settings(f, b)
  {
    if a == [] {
      assert a + b == b;
    } else {
      assert (a + b)[0] == a[0] && (a + b)[1..] == a[1..] + b;
      SettingsAppend(f, a[1..], b);
    }
  }

  /** Without bare flags the settings are the values. */
  lemma {:induction false} SettingsAreValues(f: FlagName, args: seq<string>)
    requires "--" + f !in args
    ensures Settings(f, args) == Values(f, args)
  {
    if args != [] { SettingsAreValues(f, args[1..]); }
  }

  lemma {:induction false} ReadEmit(f: FlagName, g: FlagName, values: seq<string>)
    ensures END_OF_FLAGS !in Emit(g, values)
    ensures Words(Emit(g, values)) == []
    ensures Values(f, Emit(g, values)) == if f == g then values else []
  {
    if values != [] {
      ReadFlag(f, g, values[0]);
      assert Emit(g, values) == [Flag(g, values[0])] + Emit(g, values[1..]);
      ReadEmit(f, g, values[1..]);
    }
  }

  lemma ReadWord(f: FlagName, args: seq<string>, word: string)
    requires END_OF_FLAGS !in args && IsWord(word)
    ensures END_OF_FLAGS !in args + [word]
    ensures Words(args + [word]) == Words(args) + [word]
    ensures Values(f, args + [word]) == Values(f, args)
  {
    ReadAppend(f, args, [word]);
    assert Prefix(f)[..2] == "--";
    assert Words([word]) == [word] && Values(f, [word]) == [];
  }

  // ----- whole command lines -----

  /** An argument list as structure: positional words, bare switches and groups of valued flags. */
  datatype Group = Word(word: string) | Switch(name: FlagName) | Valued(name: FlagName, values: seq<string>)

  function RenderGroup(g: Group): seq<string>
  {
    match g
    case Word(w) => [w]
    case Switch(f) => ["--" + f]
    case Valued(f, values) => Emit(f, values)
  }

  function Render(gs: seq<Group>): seq<string>
  {
    if gs == [] then [] else RenderGroup(gs[0]) + Render(gs[1..])
  }

  function WordsOf(gs: seq<Group>): seq<string>
  {
    if gs == [] then []
    else if gs[0].Word? then [gs[0].word] + WordsOf(gs[1..])
    else WordsOf(gs[1..])
  }

  function ValuesOf(f: FlagName, gs: seq<Group>): seq<string>
  {
    if gs == [] then []
    else if gs[0].Valued? && gs[0].name == f then gs[0].values + ValuesOf(f, gs[1..])
    else ValuesOf(f, gs[1..])
  }

  /** The words do not look like flags, and the switches have a name. */
  predicate Printable(gs: seq<Group>)
  {
    forall g :: g in gs ==> (g.Word? ==> IsWord(g.word)) && (g.Switch? ==> g.name != "")
  }

  lemma ReadSwitch(f: FlagName, name: FlagName)
    requires name != ""
    ensures !IsWord("--" + name) && "--" + name != END_OF_FLAGS
    ensures !(Prefix(f) <= "--" + name)
  {
    var a := "--" + name;
    assert a[..2] == "--" && '=' !in a;
    assert Prefix(f)[|Prefix(f)| - 1] == '=';
  }

  lemma ReadGroupAlone(f: FlagName, g: Group)
    requires Printable([g])
    ensures END_OF_FLAGS !in RenderGroup(g)
    ensures Words(RenderGroup(g)) == WordsOf([g])
    ensures Values(f, RenderGroup(g)) == ValuesOf(f, [g])
  {
    assert g in [g];
    assert [g][1..] == [];
    match g
    case Word(w) =>
      assert [] + [w] == [w];
      ReadWord(f, [], w);
    case Switch(name) =>
      ReadSwitch(f, name);
    case Valued(name, values) =>
      ReadEmit(f, name, values);
      assert values + [] == values;
  }

  lemma PrintableParts(gs: seq<Group>)
    requires gs != [] && Printable(gs)
    ensures Printable([gs[0]]) && Printable(gs[1..])
  {
  }

  /** Parsing a printed command line recovers its structure: the words, in order, and for every flag
      name the values given to it, in order. */
  lemma {:induction false} ReadRender(f: FlagName, gs: seq<Group>)
    requires Printable(gs)
    ensures END_OF_FLAGS !in Render(gs)
    ensures Words(Render(gs)) == WordsOf(gs)
    ensures Values(f, Render(gs)) == ValuesOf(f, gs)
  {
    if gs != [] {
      var g, rest := gs[0], gs[1..];
      PrintableParts(gs);
      ReadGroupAlone(f, g);
      ReadRender(f, rest);
      ReadAppend(f, RenderGroup(g), Render(rest));
      OfAppend(f, [g], rest);
      assert gs == [g] + rest;
    }
  }

  /** A list of valued flags prints no bare flag. */
  lemma {:induction false} NoBareFlag(f: FlagName, gs: seq<Group>)
    requires AllValued(gs)
    ensures "--" + f !in Render(gs)
  {
    if gs != [] {
      NoBareFlag(f, gs[1..]);
      assert gs[0].Valued?;
      forall v ensures Flag(gs[0].name, v) != "--" + f {
        assert Flag(gs[0].name, v)[|gs[0].name| + 2] == '=';
        assert '=' !in "--" + f;
      }
    }
  }

  lemma {:induction false} RenderAppend(a: seq<Group>, b: seq<Group>)
    ensures Render(a + b) == Render(a) + Render(b)
  {
    if a == [] {
      assert a + b == b;
    } else {
      assert (a + b)[1..] == a[1..] + b;
      RenderAppend(a[1..], b);
    }
  }

  /** One more group on the printed line. */
  lemma RenderNext(args: seq<string>, gs: seq<Group>, i: nat)
    requires i < |gs|
    ensures args + Render(gs[..i]) + RenderGroup(gs[i]) == args + Render(gs[..i + 1])
  {
    assert gs[..i + 1] == gs[..i] + [gs[i]];
    RenderAppend(gs[..i], [gs[i]]);
    assert [gs[i]][1..] == [];
  }

  lemma {:induction false} OfAppend(f: FlagName, a: seq<Group>, b: seq<Group>)
    ensures WordsOf(a + b) == WordsOf(a) + WordsOf(b)
    ensures ValuesOf(f, a + b) == ValuesOf(f, a) + ValuesOf(f, b)
  {
    if a == [] {
      assert a + b == b;
    } else {
      assert (a + b)[1..] == a[1..] + b;
      OfAppend(f, a[1..], b);
    }
  }

  predicate Lacks(f: FlagName, gs: seq<Group>)
  {
    forall i :: 0 <= i < |gs| ==> !(gs[i].Valued? && gs[i].name == f)
  }

  predicate AllValued(gs: seq<Group>)
  {
    forall i :: 0 <= i < |gs| ==> gs[i].Valued?
  }

  predicate NoWords(gs: seq<Group>)
  {
    forall i :: 0 <= i < |gs| ==> !gs[i].Word?
  }

  lemma {:induction false} OfLacking(f: FlagName, gs: seq<Group>)
    ensures Lacks(f, gs) ==> ValuesOf(f, gs) == []
    ensures NoWords(gs) ==> WordsOf(gs) == []
  {
    if gs != [] { OfLacking(f, gs[1..]); }
  }

  function WordGroups(words: seq<string>): (gs: seq<Group>)
    ensures |gs| == |words| && forall i :: 0 <= i < |gs| ==> gs[i] == Word(words[i])
  {
    seq(|words|, i requires 0 <= i < |words| => Word(words[i]))
  }

  lemma EmitNothing(args: seq<string>)
    ensures forall f: FlagName :: args + Emit(f, []) == args
  {
  }

  /** The outputs of a program that appends the groups of a list one by one: after the last group it has
      printed the list. */
  ghost predicate Appends(outs: seq<seq<string>>, gs: seq<Group>)
  {
    |outs| == |gs| + 1 && forall i :: 0 <= i < |gs| ==> outs[i + 1] == outs[i] + RenderGroup(gs[i])
  }

  lemma {:induction false} RenderFold(outs: seq<seq<string>>, gs: seq<Group>)
    requires Appends(outs, gs)
    ensures outs[|gs|] == outs[0] + Render(gs)
    decreases |gs|
  {
    if gs == [] {
      assert outs[0] + Render(gs) == outs[0];
    } else {
      var n := |gs| - 1;
      RenderFold(outs[..n + 1], gs[..n]);
      RenderNext(outs[0], gs, n);
      assert gs[..n + 1] == gs;
    }
  }

  lemma {:induction false} RenderWords(words: seq<string>)
    ensures Render(WordGroups(words)) == words
  {
    if words != [] {
      assert WordGroups(words)[1..] == WordGroups(words[1..]);
      RenderWords(words[1..]);
    }
  }

  /** A flag used by one group only has the values of that group. */
  lemma SoleGroup(f: FlagName, a: seq<Group>, values: seq<string>, b: seq<Group>)
    requires Lacks(f, a) && Lacks(f, b)
    ensures ValuesOf(f, a + [Valued(f, values)] + b) == values
  {
    var g := [Valued(f, values)];
    OfAppend(f, a + g, b);
    OfAppend(f, a, g);
    OfLacking(f, a);
    OfLacking(f, b);
    assert g[1..] == [] && ValuesOf(f, g) == values + [];
  }
}

/** The long flags on rktlet's command lines. */
module FlagNames {
  import opened Flags

  const DEBUG: FlagName := "debug"
  const DIR: FlagName := "dir"
  const LOCAL_CONFIG: FlagName := "local-config"
  const USER_CONFIG: FlagName := "user-config"
  const SYSTEM_CONFIG: FlagName := "system-config"
  const INSECURE_OPTIONS: FlagName := "insecure-options"

  const UUID_FILE_SAVE: FlagName := "uuid-file-save"
  const ANNOTATION: FlagName := "annotation"
  const STAGE1_NAME: FlagName := "stage1-name"
  const HOSTNAME: FlagName := "hostname"
  const DNS: FlagName := "dns"
  const DNS_SEARCH: FlagName := "dns-search"
  const DNS_OPT: FlagName := "dns-opt"
  const PORT: FlagName := "port"
  const NET: FlagName := "net"
  const HOSTS_ENTRY: FlagName := "hosts-entry"
  const USER_ANNOTATION: FlagName := "user-annotation"
  const USER_LABEL: FlagName := "user-label"

  const NAME: FlagName := "name"
  const STDIN: FlagName := "stdin"
  const STDOUT: FlagName := "stdout"
  const STDERR: FlagName := "stderr"
  const ENVIRONMENT: FlagName := "environment"
  const CPU_SHARES: FlagName := "cpu-shares"
  const CPU: FlagName := "cpu"
  const MEMORY: FlagName := "memory"
  const OOM_SCORE_ADJ: FlagName := "oom-score-adj"
  const SECCOMP: FlagName := "seccomp"
  const CAPS_RETAIN: FlagName := "caps-retain"
  const USER: FlagName := "user"
  const SUPPLEMENTARY_GIDS: FlagName := "supplementary-gids"
  const READONLY_ROOTFS: FlagName := "readonly-rootfs"
  const WORKING_DIR: FlagName := "working-dir"
  const MNT_VOLUME: FlagName := "mnt-volume"
  const EXEC: FlagName := "exec"

  const APP: FlagName := "app"
  const FORCE: FlagName := "force"
  const FORMAT: FlagName := "format"
  const WAIT_READY: FlagName := "wait-ready"

  const UNIT: FlagName := "unit"
  const SETENV: FlagName := "setenv"
  const SERVICE_TYPE: FlagName := "service-type"
  const SLICE: FlagName := "slice"
}
