/** The flags that a sandbox command prints a second time, behind the global flags of the configuration. */
module SandboxOptions {
  import opened Text
  import opened Flags
  import opened FlagNames
  import opened Cri
  import opened Cli
  import opened Commands
  import opened AppSandbox

  /** The line rkt is given for a sandbox. */
  function ExecutedLine(c: CliConfig, rktPath: string, config: SandboxConfig, uuidFile: string, stage1: string,
                        plugin: string, w: SandboxWorld): seq<string>
    requires HonestSandbox(config, w) && AppSandboxCommand(config, uuidFile, stage1, plugin, w).Ok?
  {
    var cmd := AppSandboxCommand(config, uuidFile, stage1, plugin, w).value;
    PrintedShape(config, uuidFile, stage1, plugin, w);
    Line(c, rktPath, "app", cmd[1..])
  }

  lemma PrintedShape(config: SandboxConfig, uuidFile: string, stage1: string, plugin: string, w: SandboxWorld)
    requires HonestSandbox(config, w) && AppSandboxCommand(config, uuidFile, stage1, plugin, w).Ok?
    ensures AppSandboxCommand(config, uuidFile, stage1, plugin, w).value
         == ["app"] + (["--debug"] + (["sandbox"] + Render(SandboxFlags(config, uuidFile, stage1, plugin, w))))
  {
    var flags := SandboxFlags(config, uuidFile, stage1, plugin, w);
    RenderAppend(START_WORDS, flags);
    RenderStart();
  }

  /** Both sources of insecure options reach rkt: the configured ones first, then the sandbox's own. */
  lemma InsecureOptionsSent(c: CliConfig, rktPath: string, config: SandboxConfig, uuidFile: string, stage1: string,
                            plugin: string, w: SandboxWorld)
    requires HonestSandbox(config, w) && AppSandboxCommand(config, uuidFile, stage1, plugin, w).Ok?
    ensures Values(INSECURE_OPTIONS, ExecutedLine(c, rktPath, config, uuidFile, stage1, plugin, w))
         == When(c.insecureOptions != [], Join(c.insecureOptions, ',')) + When(Privileged(config), ALL_RUN)
  {
    var cmd := AppSandboxCommand(config, uuidFile, stage1, plugin, w).value;
    PrintedShape(config, uuidFile, stage1, plugin, w);
    GeneratedLine(INSECURE_OPTIONS, c, rktPath, cmd);
    AppSandboxPrivileges(config, uuidFile, stage1, plugin, w);
    MoreGlobalValues(c);
    ReadGlobal(INSECURE_OPTIONS, c);
  }

  /** The options rkt knows that lift the confinement of paths. */
  predicate Unconfines(option: string) { option == "paths" || option == ALL_RUN || option == "all" }

  ghost predicate Unconfined(options: seq<string>) { exists o :: o in options && Unconfines(o) }

  lemma AllRunAlone()
    ensures Split(ALL_RUN, ',') == [ALL_RUN]
  {
    assert ',' !in ALL_RUN;
  }

  /** The options in force: of two lists the last counts, so a privileged sandbox gets `all-run` and
      nothing else, and any other sandbox gets the configured options. */
  lemma InsecureOptionsInForce(c: CliConfig, rktPath: string, config: SandboxConfig, uuidFile: string, stage1: string,
                               plugin: string, w: SandboxWorld)
    requires HonestSandbox(config, w) && AppSandboxCommand(config, uuidFile, stage1, plugin, w).Ok?
    ensures ReadList(INSECURE_OPTIONS, ExecutedLine(c, rktPath, config, uuidFile, stage1, plugin, w))
         == if Privileged(config) then [ALL_RUN] else ReadList(INSECURE_OPTIONS, GlobalFlags(c))
  {
    InsecureOptionsSent(c, rktPath, config, uuidFile, stage1, plugin, w);
    MoreGlobalValues(c);
    ReadGlobal(INSECURE_OPTIONS, c);
    AllRunAlone();
  }

  /** The paths of a sandbox are unconfined if and only if it is privileged or the configuration lifts
      their confinement for every sandbox; and a configured option is lost if and only if the sandbox is
      privileged and the option is another than `all-run`. */
  lemma UnconfinedIff(c: CliConfig, rktPath: string, config: SandboxConfig, uuidFile: string, stage1: string,
                      plugin: string, w: SandboxWorld)
    requires HonestSandbox(config, w) && AppSandboxCommand(config, uuidFile, stage1, plugin, w).Ok?
    ensures
      var inForce := ReadList(INSECURE_OPTIONS, ExecutedLine(c, rktPath, config, uuidFile, stage1, plugin, w));
      var configured := ReadList(INSECURE_OPTIONS, GlobalFlags(c));
      && (Unconfined(inForce) <==> Privileged(config) || Unconfined(configured))
      && (forall o :: o in configured ==> (o !in inForce <==> Privileged(config) && o != ALL_RUN))
  {
    InsecureOptionsInForce(c, rktPath, config, uuidFile, stage1, plugin, w);
    assert ALL_RUN in [ALL_RUN] && Unconfines(ALL_RUN);
  }

  // ----- --debug -----

  lemma SettingsOfWord(f: FlagName, word: string, tail: seq<string>)
    requires IsWord(word)
    ensures Settings(f, [word] + tail) == Settings(f, tail)
  {
    assert ([word] + tail)[1..] == tail;
    assert ("--" + f)[..2] == "--" && Prefix(f)[..2] == "--";
  }

  function DebugText(c: CliConfig): string { if c.debug then "true" else "false" }

  lemma GlobalDebug(c: CliConfig)
    ensures Settings(DEBUG, GlobalFlags(c)) == [DebugText(c)] && END_OF_FLAGS !in GlobalFlags(c)
  {
    ReadGlobal(DEBUG, c);
    NoBareFlag(DEBUG, GlobalGroups(c));
    SettingsAreValues(DEBUG, GlobalFlags(c));
    GlobalValues(c);
  }

  lemma SettingsOnLine(c: CliConfig, rktPath: string, flags: seq<string>)
    ensures Settings(DEBUG, Line(c, rktPath, "app", (["app"] + (["--debug"] + (["sandbox"] + flags)))[1..]))
         == [DebugText(c), "true"] + Settings(DEBUG, flags)
  {
    LineBehindApp(c, rktPath, ["--debug"] + (["sandbox"] + flags));
    GlobalDebug(c);
    DebugTwice(GlobalFlags(c), flags);
    assert [DebugText(c)] + (["true"] + Settings(DEBUG, flags)) == [DebugText(c), "true"] + Settings(DEBUG, flags);
  }

  lemma LineBehindApp(c: CliConfig, rktPath: string, args: seq<string>)
    ensures Line(c, rktPath, "app", (["app"] + args)[1..]) == ["app"] + (GlobalFlags(c) + args)
  {
    assert (["app"] + args)[1..] == args;
    assert [rktPath, "app"] + GlobalFlags(c) + args == [rktPath] + (["app"] + (GlobalFlags(c) + args));
  }

  lemma DebugTwice(globals: seq<string>, flags: seq<string>)
    requires END_OF_FLAGS !in globals
    ensures Settings(DEBUG, ["app"] + (globals + (["--debug"] + (["sandbox"] + flags))))
         == Settings(DEBUG, globals) + (["true"] + Settings(DEBUG, flags))
  {
    assert "app"[0] == 'a' && "sandbox"[0] == 's';
    SettingsOfWord(DEBUG, "sandbox", flags);
    BareDebug(["sandbox"] + flags);
    SettingsAppend(DEBUG, globals, ["--debug"] + (["sandbox"] + flags));
    SettingsOfWord(DEBUG, "app", globals + (["--debug"] + (["sandbox"] + flags)));
  }

  lemma BareDebug(tail: seq<string>)
    ensures Settings(DEBUG, ["--debug"] + tail) == ["true"] + Settings(DEBUG, tail)
  {
    assert (["--debug"] + tail)[1..] == tail;
    assert "--debug" == "--" + DEBUG;
  }

  lemma NoDebugAmong(config: SandboxConfig, uuidFile: string, stage1: string, plugin: string, w: SandboxWorld)
    requires HonestSandbox(config, w)
    ensures Settings(DEBUG, Render(SandboxFlags(config, uuidFile, stage1, plugin, w))) == []
  {
    DebugIsNoFlag();
    NotAmongFlags(DEBUG, config, uuidFile, stage1, plugin, w);
    NoSettings(DEBUG, SandboxFlags(config, uuidFile, stage1, plugin, w));
  }

  lemma NoSettings(f: FlagName, gs: seq<Group>)
    requires AllValued(gs) && ValuesOf(f, gs) == []
    ensures Settings(f, Render(gs)) == []
  {
    NoBareFlag(f, gs);
    SettingsAreValues(f, Render(gs));
    ReadRender(f, gs);
  }

  /** `--debug` is printed twice as well: as configured, and then always on. */
  lemma DebugIsOn(c: CliConfig, rktPath: string, config: SandboxConfig, uuidFile: string, stage1: string,
                  plugin: string, w: SandboxWorld)
    requires HonestSandbox(config, w) && AppSandboxCommand(config, uuidFile, stage1, plugin, w).Ok?
    ensures Settings(DEBUG, ExecutedLine(c, rktPath, config, uuidFile, stage1, plugin, w)) == [DebugText(c), "true"]
  {
    PrintedShape(config, uuidFile, stage1, plugin, w);
    NoDebugAmong(config, uuidFile, stage1, plugin, w);
    SettingsOnLine(c, rktPath, Render(SandboxFlags(config, uuidFile, stage1, plugin, w)));
  }
}
