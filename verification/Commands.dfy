/** The commands rktlet issues, and how rkt understands each of them when the global flags of the
    configuration are printed in between. */
module Commands {
  import opened Flags
  import opened FlagNames
  import opened Annotations
  import opened Cri
  import opened Cli
  import opened Rkt
  import opened AppAdd
  import opened AppSandbox
  import Identity

  function AppArgs(verb: string, uuid: string, app: string): seq<string> { [verb, uuid, Flag(APP, app)] }

  function AppStatusArgs(uuid: string, app: string): seq<string>
  {
    ["status", uuid, Flag(APP, app), Flag(FORMAT, "json")]
  }

  function StopArgs(force: bool, id: string): seq<string> { [Flag(FORCE, if force then "true" else "false"), id] }

  function StatusArgs(id: string, wait: bool): seq<string>
  {
    [id, Flag(FORMAT, "json")] + (if wait then [Flag(WAIT_READY, "10s")] else [])
  }

  /** What rkt is given: everything after the path of its binary. */
  function Line(c: CliConfig, rktPath: string, sub: string, args: seq<string>): seq<string>
  {
    Command(rktPath, GlobalFlags(c), sub, args)[1..]
  }

  lemma LocalNames()
    ensures !GlobalName(APP) && !GlobalName(WAIT_READY) && !GlobalName(NAME)
    ensures !GlobalName(USER_ANNOTATION) && !GlobalName(USER_LABEL)
  {
  }

  /** An operand in front of the remaining arguments: a word is read as such, anything else is not. */
  lemma ReadOperand(f: FlagName, w: string, tail: seq<string>)
    ensures IsWord(w) ==> Words([w] + tail) == [w] + Words(tail) && Values(f, [w] + tail) == Values(f, tail)
    ensures !IsWord(w) ==> Words([w] + tail) == if w == END_OF_FLAGS then [] else Words(tail)
  {
    assert ([w] + tail)[1..] == tail;
    assert Prefix(f)[..2] == "--";
  }

  /** A single flag in front of the remaining arguments. */
  lemma ReadLeadingFlag(f: FlagName, g: FlagName, v: string, tail: seq<string>)
    ensures Words([Flag(g, v)] + tail) == Words(tail)
    ensures Values(f, [Flag(g, v)] + tail) == if f == g then [v] + Values(f, tail) else Values(f, tail)
  {
    ReadFlag(f, g, v);
    assert ([Flag(g, v)] + tail)[1..] == tail;
  }

  lemma VerbsAreWords()
    ensures IsWord("app") && IsWord("start") && IsWord("stop") && IsWord("rm") && IsWord("status") && IsWord("list")
  {
    assert "app"[0] == 'a' && "start"[0] == 's' && "stop"[0] == 's' && "rm"[0] == 'r';
    assert "status"[0] == 's' && "list"[0] == 'l';
  }

  predicate AppVerb(verb: string) { verb == "start" || verb == "stop" || verb == "rm" || verb == "status" }

  lemma AppVerbWords(verb: string, uuid: string, app: string, tail: seq<string>)
    requires AppVerb(verb) && Words(tail) == [] && Values(APP, tail) == []
    ensures
      var args := [verb] + ([uuid] + ([Flag(APP, app)] + tail));
      && Words(args) == [verb] + (if IsWord(uuid) then [uuid] else [])
      && (IsWord(uuid) ==> Values(APP, args) == [app])
  {
    VerbsAreWords();
    ReadLeadingFlag(APP, APP, app, tail);
    ReadOperand(APP, uuid, [Flag(APP, app)] + tail);
    ReadOperand(APP, verb, [uuid] + ([Flag(APP, app)] + tail));
  }

  /** `rkt app <verb>` reaches the app named, and is malformed when the pod looks like a flag. */
  lemma AppLine(c: CliConfig, rktPath: string, verb: string, uuid: string, app: string, tail: seq<string>)
    requires AppVerb(verb) && Words(tail) == [] && Values(APP, tail) == []
    ensures ReadInstruction(Line(c, rktPath, "app", [verb] + ([uuid] + ([Flag(APP, app)] + tail))))
         == if IsWord(uuid) then ReadAppVerb(verb, uuid, app) else Malformed
  {
    var args := [verb] + ([uuid] + ([Flag(APP, app)] + tail));
    LocalNames();
    VerbsAreWords();
    GlobalFlagsDoNotInterfere(APP, c, rktPath, "app", args);
    AppVerbWords(verb, uuid, app, tail);
    VerbReading(Line(c, rktPath, "app", args), verb, uuid);
  }

  lemma VerbReading(line: seq<string>, verb: string, uuid: string)
    requires AppVerb(verb)
    requires Words(line) == ["app"] + ([verb] + (if IsWord(uuid) then [uuid] else []))
    ensures ReadInstruction(line)
         == if IsWord(uuid) then ReadAppVerb(verb, uuid, LastOf(Values(APP, line))) else Malformed
  {
    assert verb != "sandbox";
  }

  lemma AppArgsLine(c: CliConfig, rktPath: string, verb: string, uuid: string, app: string)
    requires AppVerb(verb)
    ensures ReadInstruction(Line(c, rktPath, "app", AppArgs(verb, uuid, app)))
         == if IsWord(uuid) then ReadAppVerb(verb, uuid, app) else Malformed
  {
    AppLine(c, rktPath, verb, uuid, app, []);
    assert [verb] + ([uuid] + ([Flag(APP, app)] + [])) == AppArgs(verb, uuid, app);
  }

  lemma AppStatusLine(c: CliConfig, rktPath: string, uuid: string, app: string)
    ensures ReadInstruction(Line(c, rktPath, "app", AppStatusArgs(uuid, app)))
         == if IsWord(uuid) then AppStatus(uuid, app) else Malformed
  {
    var tail := [Flag(FORMAT, "json")];
    assert tail == tail + [];
    ReadLeadingFlag(APP, FORMAT, "json", []);
    AppLine(c, rktPath, "status", uuid, app, tail);
    assert ["status"] + ([uuid] + ([Flag(APP, app)] + tail)) == AppStatusArgs(uuid, app);
  }

  lemma PodReading(line: seq<string>, verb: string, id: string)
    requires verb == "stop" || verb == "rm" || verb == "status"
    requires Words(line) == [verb] + (if IsWord(id) then [id] else [])
    ensures ReadInstruction(line)
         == if IsWord(id) then ReadPodVerb(verb, id, Values(WAIT_READY, line) != []) else Malformed
  {
    assert verb != "app" && verb != "list";
    assert Words(line)[0] == verb;
  }

  lemma StopLine(c: CliConfig, rktPath: string, force: bool, id: string)
    ensures ReadInstruction(Line(c, rktPath, "stop", StopArgs(force, id)))
         == if IsWord(id) then StopPod(id) else Malformed
  {
    var value := if force then "true" else "false";
    LocalNames();
    VerbsAreWords();
    assert StopArgs(force, id) == [Flag(FORCE, value)] + ([id] + []);
    ReadLeadingFlag(WAIT_READY, FORCE, value, [id] + []);
    ReadOperand(WAIT_READY, id, []);
    GlobalFlagsDoNotInterfere(WAIT_READY, c, rktPath, "stop", StopArgs(force, id));
    PodReading(Line(c, rktPath, "stop", StopArgs(force, id)), "stop", id);
  }

  lemma RemoveLine(c: CliConfig, rktPath: string, id: string)
    ensures ReadInstruction(Line(c, rktPath, "rm", [id])) == if IsWord(id) then RemovePod(id) else Malformed
  {
    LocalNames();
    VerbsAreWords();
    assert [id] == [id] + [];
    ReadOperand(WAIT_READY, id, []);
    GlobalFlagsDoNotInterfere(WAIT_READY, c, rktPath, "rm", [id]);
    PodReading(Line(c, rktPath, "rm", [id]), "rm", id);
  }

  lemma StatusLine(c: CliConfig, rktPath: string, id: string, wait: bool)
    ensures ReadInstruction(Line(c, rktPath, "status", StatusArgs(id, wait)))
         == if IsWord(id) then PodStatus(id, wait) else Malformed
  {
    LocalNames();
    VerbsAreWords();
    var waiting := if wait then [Flag(WAIT_READY, "10s")] else [];
    assert waiting == (if wait then [Flag(WAIT_READY, "10s")] + [] else []);
    ReadLeadingFlag(WAIT_READY, WAIT_READY, "10s", []);
    var tail := [Flag(FORMAT, "json")] + waiting;
    ReadLeadingFlag(WAIT_READY, FORMAT, "json", waiting);
    ReadOperand(WAIT_READY, id, tail);
    assert StatusArgs(id, wait) == [id] + tail;
    assert FORMAT != WAIT_READY;
    GlobalFlagsDoNotInterfere(WAIT_READY, c, rktPath, "status", StatusArgs(id, wait));
    PodReading(Line(c, rktPath, "status", StatusArgs(id, wait)), "status", id);
  }

  lemma ListLine(c: CliConfig, rktPath: string)
    ensures ReadInstruction(Line(c, rktPath, "list", [Flag(FORMAT, "json")])) == ListPods
  {
    LocalNames();
    VerbsAreWords();
    assert [Flag(FORMAT, "json")] == [Flag(FORMAT, "json")] + [];
    ReadLeadingFlag(WAIT_READY, FORMAT, "json", []);
    GlobalFlagsDoNotInterfere(WAIT_READY, c, rktPath, "list", [Flag(FORMAT, "json")]);
  }

  /** A generated command that starts with `app`, with the global flags slipped in behind it. */
  lemma GeneratedLine(f: FlagName, c: CliConfig, rktPath: string, cmd: seq<string>)
    requires cmd != [] && cmd[0] == "app"
    ensures Words(Line(c, rktPath, "app", cmd[1..])) == Words(cmd)
    ensures Values(f, Line(c, rktPath, "app", cmd[1..])) == Values(f, GlobalFlags(c)) + Values(f, cmd)
    ensures !GlobalName(f) ==> Values(f, Line(c, rktPath, "app", cmd[1..])) == Values(f, cmd)
    ensures Rest(Line(c, rktPath, "app", cmd[1..])) == Rest(cmd)
  {
    VerbsAreWords();
    GlobalFlagsComeFirst(f, c, rktPath, "app", cmd[1..]);
    GlobalFlagsDoNotInterfere(f, c, rktPath, "app", cmd[1..]);
    assert cmd == ["app"] + cmd[1..];
    ReadOperand(f, "app", cmd[1..]);
    ReadAppend(f, ["app"], cmd[1..]);
  }

  lemma SandboxLine(c: CliConfig, rktPath: string, config: SandboxConfig, uuidFile: string, stage1: string,
                    plugin: string, w: SandboxWorld)
    requires HonestSandbox(config, w)
    requires AppSandboxCommand(config, uuidFile, stage1, plugin, w).Ok?
    ensures
      var cmd := AppSandboxCommand(config, uuidFile, stage1, plugin, w).value;
      && cmd != [] && cmd[0] == "app"
      && ReadInstruction(Line(c, rktPath, "app", cmd[1..]))
         == RunPod(Pairs(w.annotationOrder, config.annotations) + MetadataPairs(config.metadata),
                   Pairs(w.labelOrder, config.labels))
  {
    var cmd := AppSandboxCommand(config, uuidFile, stage1, plugin, w).value;
    AppSandboxMeaning(config, uuidFile, stage1, plugin, w);
    FirstIsApp(SandboxGroups(config, uuidFile, stage1, plugin, w));
    LocalNames();
    GeneratedLine(USER_ANNOTATION, c, rktPath, cmd);
    GeneratedLine(USER_LABEL, c, rktPath, cmd);
  }

  lemma FirstIsApp(gs: seq<Group>)
    requires gs != [] && gs[0] == Word("app")
    ensures Render(gs) != [] && Render(gs)[0] == "app"
  {
  }

  /** The line of a create request: its words, and the values of every flag that is not global. */
  lemma AddLineReads(f: FlagName, c: CliConfig, rktPath: string, req: CreateContainerRequest, image: string,
                     imageID: string, w: AddWorld)
    requires Honest(req.config, w) && Accepts(req.config, w) && IsWord(imageID) && !GlobalName(f)
    ensures
      var cmd, body := AppAddCommand(req, image, imageID, w), Body(req.config, image, w);
      && cmd.Ok? && cmd.value != [] && cmd.value[0] == "app"
      && var line := Line(c, rktPath, "app", cmd.value[1..]);
         && Words(line) == ["app", "add"] + WordsBehind(req.podSandboxId, [imageID] + Words(body))
         && Values(f, line) == Behind(f, req.podSandboxId, Values(f, body))
  {
    CommandShape(req, image, imageID, w);
    CommandReads(f, req, image, imageID, w);
    GeneratedLine(f, c, rktPath, AppAddCommand(req, image, imageID, w).value);
  }

  /** rkt reads a container request as one app to add, with its annotations and labels; the stray empty
      argument is one more operand. */
  lemma AddLine(c: CliConfig, rktPath: string, req: CreateContainerRequest, image: string, imageID: string, w: AddWorld)
    requires Honest(req.config, w) && Accepts(req.config, w) && IsWord(req.podSandboxId) && IsWord(imageID)
    ensures
      var cmd, config := AppAddCommand(req, image, imageID, w), req.config;
      && cmd.Ok? && cmd.value != [] && cmd.value[0] == "app"
      && ReadInstruction(Line(c, rktPath, "app", cmd.value[1..]))
         == AddApp(req.podSandboxId, imageID, if BlankSeccomp(config) then [""] else [],
                   Identity.BuildAppName(config.attempt, config.name).value,
                   Pairs(w.annotationOrder, config.annotations) + [Pair(IMAGE_NAME_KEY, image)],
                   Pairs(w.labelOrder, config.labels))
  {
    LocalNames();
    AppAddMeaning(req.config, image, w);
    AddLineReads(NAME, c, rktPath, req, image, imageID, w);
    AddLineReads(USER_ANNOTATION, c, rktPath, req, image, imageID, w);
    AddLineReads(USER_LABEL, c, rktPath, req, image, imageID, w);
    AddReading(Line(c, rktPath, "app", AppAddCommand(req, image, imageID, w).value[1..]), req.podSandboxId, imageID,
               BlankSeccomp(req.config));
  }

  lemma AddReading(line: seq<string>, pod: string, imageID: string, blank: bool)
    requires Words(line) == ["app", "add"] + ([pod] + ([imageID] + (if blank then [""] else [])))
    ensures ReadInstruction(line)
         == AddApp(pod, imageID, if blank then [""] else [], LastOf(Values(NAME, line)),
                   Values(USER_ANNOTATION, line), Values(USER_LABEL, line))
  {
    var w := Words(line);
    assert w[0] == "app" && w[1] == "add" && w[2] == pod && w[3] == imageID;
    assert w[4..] == if blank then [""] else [];
  }

  /** A sandbox id that looks like a flag never makes rkt add an app to a pod: the command is malformed
      or names the image in the place of the pod. */
  lemma BadSandboxLine(c: CliConfig, rktPath: string, req: CreateContainerRequest, image: string, imageID: string,
                       w: AddWorld)
    requires Honest(req.config, w) && Accepts(req.config, w) && !IsWord(req.podSandboxId) && IsWord(imageID)
    ensures
      var cmd := AppAddCommand(req, image, imageID, w);
      && cmd.Ok? && cmd.value != [] && cmd.value[0] == "app"
      && var ins := ReadInstruction(Line(c, rktPath, "app", cmd.value[1..]));
         ins.Malformed? || (ins.AddApp? && ins.pod == imageID)
  {
    LocalNames();
    AppAddMeaning(req.config, image, w);
    AddLineReads(NAME, c, rktPath, req, image, imageID, w);
    BadReading(Line(c, rktPath, "app", AppAddCommand(req, image, imageID, w).value[1..]),
               [imageID] + (if BlankSeccomp(req.config) then [""] else []), imageID);
  }

  lemma BadReading(line: seq<string>, words: seq<string>, imageID: string)
    requires words == [imageID] || words == [imageID, ""]
    requires Words(line) == ["app", "add"] || Words(line) == ["app", "add"] + words
    ensures ReadInstruction(line).Malformed? || (ReadInstruction(line).AddApp? && ReadInstruction(line).pod == imageID)
  {
    var w := Words(line);
    assert w[0] == "app" && w[1] == "add";
    assert "add" != "sandbox" && "add" != "start" && "add" != "stop" && "add" != "rm" && "add" != "status";
    assert "app" != "stop" && "app" != "rm" && "app" != "status";
  }
}
