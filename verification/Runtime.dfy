/** rktlet's runtime service: every call goes through text, the command lines it prints and the answers
    rkt gives. Each method is proved to do what the typed database does. */
module Runtime {
  import opened Wrappers
  import opened Lists
  import opened Flags
  import opened FlagNames
  import opened Identity
  import opened Cri
  import opened Cli
  import opened StopErrors
  import opened Commands
  import opened Conversion
  import opened ConversionHeap
  import opened ImageNames
  import opened Database
  import opened Refinement
  import opened Effects
  import AppAdd
  import AppAddBuilder
  import AppSandbox
  import AppSandboxBuilder
  import Listing
  import Systemd
  import R = Rkt

  /** RemovePodSandbox returns an error in every case; its text shows rkt's output and the cause, and
      the cause is missing exactly when rkt removed the pod. */
  datatype RemoveError = RemoveError(output: seq<string>, cause: Option<string>)

  /** The bounded polling of the uuid file. */
  method PollUuidFile(polls: seq<Poll>, uuid: string) returns (r: Result<string>)
    requires uuid != ""
    ensures r.Ok? <==> Found(polls)
    ensures r.Ok? ==> r.value == uuid
  {
    var rktUUID := "";
    var i := 0;
    while i < POLL_LIMIT && rktUUID == ""
      invariant 0 <= i <= POLL_LIMIT
      invariant rktUUID == "" ==> forall j :: 0 <= j < i && j < |polls| ==> polls[j].Empty?
      invariant rktUUID != "" ==> rktUUID == uuid && Found(polls)
    {
      var found := if i < |polls| then polls[i] else Empty;
      if found.ReadError? {
        return Err("error reading rkt pod UUID file");
      }
      if found.Written? {
        rktUUID := uuid;
      }
      i := i + 1;
    }
    if rktUUID == "" {
      return Err("waited 10s for pod sandbox to start, but it didn't");
    }
    return Ok(rktUUID);
  }

  /** The line of a call on one container; an ID that does not parse gives none. */
  function AppLines(c: CliConfig, rktPath: string, verb: string, containerID: string, more: seq<string>)
    : seq<seq<string>>
  {
    match ParseContainerID(containerID)
    case Err(_) => []
    case Ok((uuid, appName)) => [Line(c, rktPath, "app", [verb, uuid, "--app=" + appName] + more)]
  }

  function StopCommand(c: CliConfig, rktPath: string, force: bool, id: string): seq<string>
  {
    Line(c, rktPath, "stop", [if force then "--force=true" else "--force=false", id])
  }

  /** The line of a create request: the command that is printed for it and for the canonical name of its image. */
  function CreateLines(c: CliConfig, rktPath: string, parse: Parser, req: CreateContainerRequest, w: AddWorld)
    : seq<seq<string>>
    requires Honest(req.config, w)
  {
    match req.config.image
    case None => []
    case Some(image) =>
      match GetCanonicalImageName(parse, image)
      case Err(_) => []
      case Ok(imageID) =>
        match AppAdd.AppAddCommand(req, image, imageID, w)
        case Err(_) => []
        case Ok(cmd) =>
          AppAdd.AcceptedIff(req, image, imageID, w);
          AppAdd.CommandShape(req, image, imageID, w);
          [Line(c, rktPath, "app", cmd[1..])]
  }

  /** Printed flags, letter by letter. */
  lemma FlagTexts(app: string)
    ensures Flag(APP, app) == "--app=" + app && Flag(FORMAT, "json") == "--format=json"
    ensures Flag(FORCE, "true") == "--force=true" && Flag(FORCE, "false") == "--force=false"
    ensures Flag(WAIT_READY, "10s") == "--wait-ready=10s"
  {
    assert Prefix(APP) == "--app=";
  }

  lemma AppTexts(c: CliConfig, rktPath: string, verb: string, containerID: string, uuid: string, appName: string)
    requires ParseContainerID(containerID) == Ok((uuid, appName))
    ensures AppLines(c, rktPath, verb, containerID, []) == [Line(c, rktPath, "app", AppArgs(verb, uuid, appName))]
    ensures AppLines(c, rktPath, "status", containerID, ["--format=json"])
         == [Line(c, rktPath, "app", AppStatusArgs(uuid, appName))]
  {
    FlagTexts(appName);
    assert [verb, uuid, "--app=" + appName] + [] == AppArgs(verb, uuid, appName);
    assert ["status", uuid, "--app=" + appName] + ["--format=json"] == AppStatusArgs(uuid, appName);
  }

  lemma StatusTexts(id: string)
    ensures StatusArgs(id, true) == [id, "--format=json", "--wait-ready=10s"]
    ensures StatusArgs(id, false) == [id, "--format=json"]
  {
    FlagTexts("");
  }

  class RktRuntime {
    const config: CliConfig
    const rktPath: string
    const systemdRunPath: string
    const stage1Name: string
    const networkPluginName: string
    const parse: Parser
    const globalFlags: seq<string>
    /** The state of rkt. */
    var pods: seq<R.Pod>
    /** The database this runtime behaves as. */
    ghost var db: Db
    /** Every command line rkt was given, and every one systemd was, in order. */
    ghost var issued: seq<seq<string>>
    ghost var launched: seq<seq<string>>

    /** Enough to issue commands: what holds whatever else uses rkt. */
    ghost predicate Ready()
    {
      IsWord(rktPath) && globalFlags == GlobalFlags(config)
    }

    ghost predicate Valid()
      reads this
    {
      Ready() && Represents(pods, db)
    }

    constructor (config: CliConfig, rktPath: string, systemdRunPath: string, stage1Name: string,
                 networkPluginName: string, parse: Parser)
      requires IsWord(rktPath)
      ensures Valid() && pods == [] && db == [] && this.parse == parse
    {
      this.config, this.rktPath, this.systemdRunPath := config, rktPath, systemdRunPath;
      this.stage1Name, this.networkPluginName, this.parse := stage1Name, networkPluginName, parse;
      var flags := GetArgumentFormOfStruct(ConfigFields(config));
      ConfigGroups(config);
      globalFlags := flags;
      pods, db, issued, launched := [], [], [], [];
    }

    /** Runs an rkt command and turns a failure into an error text. */
    method RunCommand(subCmd: string, args: seq<string>, a: R.Answer) returns (r: Result<R.Output>)
      requires Ready()
      modifies this`pods, this`issued
      ensures
        var (next, outcome) := R.Exec(old(pods), Line(config, rktPath, subCmd, args), a);
        && pods == next && r == Reported(subCmd, args, EXIT_STATUS, outcome)
        && issued == old(issued) + [Line(config, rktPath, subCmd, args)]
    {
      var command := Command(rktPath, globalFlags, subCmd, args);
      var (next, outcome) := R.Exec(pods, command[1..], a);
      pods, issued := next, issued + [command[1..]];
      match outcome {
        case Success(output) => r := Ok(output);
        case Failure(text) => r := Err(RunError(subCmd, args, EXIT_STATUS, text));
      }
    }

    /** Runs a command that brings rkt to a state representing `after`. */
    method RunChange(subCmd: string, args: seq<string>, a: R.Answer, ghost after: Db) returns (r: Result<R.Output>)
      requires Ready() && Represents(R.Exec(pods, Line(config, rktPath, subCmd, args), a).0, after)
      modifies this
      ensures Valid() && db == after
      ensures r == Reported(subCmd, args, EXIT_STATUS, R.Exec(old(pods), Line(config, rktPath, subCmd, args), a).1)
      ensures issued == old(issued) + [Line(config, rktPath, subCmd, args)] && launched == old(launched)
    {
      r := RunCommand(subCmd, args, a);
      db := after;
    }

    // ----- containers -----

    /** Start, stop and remove: parse the ID, run `rkt app <verb>`. */
    method RunAppVerb(verb: Verb, containerID: string, a: R.Answer) returns (r: Result<()>)
      requires Valid() && !verb.Query?
      modifies this
      ensures Valid()
      ensures (db, r.Ok?) == OnContainer(old(db), verb, containerID, a)
      ensures issued == old(issued) + AppLines(config, rktPath, WordFor(verb), containerID, [])
    {
      var parsed := ParseContainerID(containerID);
      if parsed.Err? {
        return Err(parsed.error);
      }
      var (uuid, appName) := parsed.value;
      AppTexts(config, rktPath, WordFor(verb), containerID, uuid, appName);
      VerbEffect(config, rktPath, pods, db, verb, containerID, uuid, appName, a);
      var output := RunChange("app", AppArgs(WordFor(verb), uuid, appName), a, OnContainer(db, verb, containerID, a).0);
      if output.Err? {
        return Err(output.error);
      }
      return Ok(());
    }

    method StartContainer(containerID: string, a: R.Answer) returns (r: Result<()>)
      requires Valid()
      modifies this
      ensures Valid()
      ensures (db, r.Ok?) == OnContainer(old(db), Start, containerID, a)
      ensures issued == old(issued) + AppLines(config, rktPath, "start", containerID, [])
    {
      r := RunAppVerb(Start, containerID, a);
    }

    method StopContainer(containerID: string, a: R.Answer) returns (r: Result<()>)
      requires Valid()
      modifies this
      ensures Valid()
      ensures (db, r.Ok?) == OnContainer(old(db), Stop, containerID, a)
      ensures issued == old(issued) + AppLines(config, rktPath, "stop", containerID, [])
    {
      r := RunAppVerb(Stop, containerID, a);
    }

    method RemoveContainer(containerID: string, a: R.Answer) returns (r: Result<()>)
      requires Valid()
      modifies this
      ensures Valid()
      ensures (db, r.Ok?) == OnContainer(old(db), Remove, containerID, a)
      ensures issued == old(issued) + AppLines(config, rktPath, "rm", containerID, [])
    {
      r := RunAppVerb(Remove, containerID, a);
    }

    method ContainerStatus(containerID: string, a: R.Answer) returns (r: Result<ContainerStatus>)
      requires Ready()
      modifies this`pods, this`issued
      ensures pods == old(pods)
      ensures Listing.StatusIn(pods, containerID) == match r case Ok(status) => Some(status) case Err(_) => None
      ensures Valid() ==> Listing.StatusIn(pods, containerID) == ContainerStatusReply(db, containerID)
      ensures issued == old(issued) + AppLines(config, rktPath, "status", containerID, ["--format=json"])
    {
      StatusIfRepresented(pods, db, containerID);
      var parsed := ParseContainerID(containerID);
      if parsed.Err? {
        return Err(parsed.error);
      }
      var (uuid, appName) := parsed.value;
      AppTexts(config, rktPath, "status", containerID, uuid, appName);
      StatusEffect(config, rktPath, pods, uuid, appName, a);
      var resp := RunCommand("app", AppStatusArgs(uuid, appName), a);
      match resp {
        case Err(e) => return Err(e);
        case Ok(output) =>
          var app := new AppObject(output.app);
          r := ToContainerStatusObject(uuid, app);
      }
    }

    /** One app add, and the ID made from the same names. */
    method CreateContainer(req: CreateContainerRequest, w: AddWorld, a: R.Answer) returns (r: Result<string>)
      requires Valid() && Honest(req.config, w)
      modifies this
      ensures Valid()
      ensures (db, if r.Ok? then Some(r.value) else None) == Create(old(db), parse, req, w, a)
      ensures issued == old(issued) + CreateLines(config, rktPath, parse, req, w)
    {
      if req.config.image.None? {
        return Err("unable to get image spec");
      }
      var image := req.config.image.value;
      var canonical := GetCanonicalImageName(parse, image);
      if canonical.Err? {
        return Err(canonical.error);
      }
      var imageID := canonical.value;
      var command := AppAddBuilder.GenerateAppAddCommand(req, image, imageID, w);
      AppAdd.AcceptedIff(req, image, imageID, w);
      if command.Err? {
        return Err(command.error);
      }
      var cmd := command.value;
      CreateEffect(config, rktPath, parse, pods, db, req, imageID, w, a);
      var output := RunChange(cmd[0], cmd[1..], a, Create(db, parse, req, w, a).0);
      if output.Err? {
        return Err(output.error);
      }
      match BuildAppName(req.config.attempt, req.config.name) {
        case Err(e) => return Err(e);
        case Ok(appName) => return Ok(BuildContainerID(req.podSandboxId, appName));
      }
    }

    // ----- sandboxes -----

    /** Asks for the status and, when the pod does not get ready in time, asks again without waiting. */
    method PodSandboxStatus(id: string, a: R.Answer) returns (r: Result<SandboxStatus>)
      requires Valid()
      modifies this`pods, this`issued
      ensures Valid() && pods == old(pods)
      ensures r.Ok? <==> SandboxStatusReply(db, id).Some?
      ensures r.Ok? ==> SandboxStatusReply(db, id) == Some(r.value)
      ensures
        var waiting := Line(config, rktPath, "status", [id, "--format=json", "--wait-ready=10s"]);
        || issued == old(issued) + [waiting]
        || issued == old(issued) + [waiting, Line(config, rktPath, "status", [id, "--format=json"])]
      ensures r.Err? ==> |issued| == |old(issued)| + 2
    {
      StatusTexts(id);
      var resp := AskPod(id, true, a);
      if resp.Err? {
        resp := AskPod(id, false, a);
        if resp.Err? {
          return Err(resp.error);
        }
      }
      var pod := new PodObject(resp.value.pod);
      r := ConversionHeap.ToPodSandboxStatus(pod);
    }

    method AskPod(id: string, wait: bool, a: R.Answer) returns (r: Result<R.Output>)
      requires Valid()
      modifies this`pods, this`issued
      ensures Valid() && pods == old(pods)
      ensures issued == old(issued) + [Line(config, rktPath, "status", StatusArgs(id, wait))]
      ensures r.Ok? ==> SandboxStatusReply(db, id).Some? && r.value.OnePod?
      ensures r.Ok? ==> ToSandboxStatus(r.value.pod) == Ok(SandboxStatusReply(db, id).value)
      ensures !wait && r.Err? ==> SandboxStatusReply(db, id).None?
    {
      PodStatusEffect(config, rktPath, pods, db, id, wait, a);
      r := RunCommand("status", StatusArgs(id, wait), a);
    }

    method RunStop(id: string, force: bool, a: R.Answer) returns (r: Result<R.Output>)
      requires Valid()
      modifies this
      ensures Valid() && db == StopSandbox(old(db), id, a).0 && Ids(db) == Ids(old(db))
      ensures id in Ids(db) ==> (StopSandbox(old(db), id, a).1 <==> Stopped(r))
      ensures issued == old(issued) + [StopCommand(config, rktPath, force, id)] && launched == old(launched)
    {
      FlagTexts("");
      StopEffect(config, rktPath, pods, db, force, id, EXIT_STATUS, a);
      r := RunChange("stop", StopArgs(force, id), a, StopSandbox(db, id, a).0);
    }

    /** Stop errors are ignored when they say that there is nothing to stop; then the pod must exist. */
    method StopSandboxById(id: string, force: bool, a: R.Answer) returns (r: Result<()>)
      requires Valid()
      modifies this
      ensures Valid()
      ensures (db, r.Ok?) == StopSandbox(old(db), id, a)
      ensures old(issued) + [StopCommand(config, rktPath, force, id)] <= issued && launched == old(launched)
    {
      KnownIffStatus(db, id);
      var output := RunStop(id, force, a);
      KnownIffStatus(db, id);
      match output {
        case Ok(_) =>
        case Err(e) =>
          if !RktStopIsAlreadyStoppedError(e) && !RktStopIsNotExistError(e) {
            return Err(e);
          }
      }
      var status := PodSandboxStatus(id, a);
      match status {
        case Ok(_) => return Ok(());
        case Err(e) => return Err(e);
      }
    }

    method StopPodSandbox(id: string, a: R.Answer) returns (r: Result<()>)
      requires Valid()
      modifies this
      ensures Valid()
      ensures (db, r.Ok?) == StopSandbox(old(db), id, a)
      ensures r.Ok? <==> exists i :: 0 <= i < |old(db)| && old(db)[i].id == id && Stoppable(old(db)[i], a)
      ensures r.Err? ==> db == old(db)
      ensures old(issued) + [Line(config, rktPath, "stop", ["--force=false", id])] <= issued
    {
      StopSucceedsIff(db, id, a);
      r := StopSandboxById(id, false, a);
    }

    /** Forces a stop, whatever comes of it, then removes. */
    method RemovePodSandbox(id: string, stop: R.Answer, remove: R.Answer) returns (err: RemoveError)
      requires Valid()
      modifies this
      ensures Valid()
      ensures (db, err.cause.None?) == RemoveSandbox(old(db), id, stop, remove)
      ensures old(issued) + [Line(config, rktPath, "stop", ["--force=true", id])] <= issued
      ensures issued[|issued| - 1] == Line(config, rktPath, "rm", [id]) && |issued| >= |old(issued)| + 2
    {
      ghost var before := db;
      var ignored := StopSandboxById(id, true, stop);
      RemoveEffect(config, rktPath, pods, before, id, stop, remove);
      var output := RunChange("rm", [id], remove, RemoveSandbox(before, id, stop, remove).0);
      match output {
        case Ok(out) => err := RemoveError(out.lines, None);
        case Err(e) => err := RemoveError([], Some(e));
      }
    }

    /** Hands a command to systemd, which runs it. */
    method StartProcess(unitName: string, cgroupParent: string, command: seq<string>, a: R.Answer)
      returns (r: Result<string>)
      modifies this`pods, this`launched
      ensures launched == old(launched) +
        if cgroupParent == "" then [[systemdRunPath] + Systemd.LaunchFlags(unitName, None) + command]
        else
          match Systemd.CgroupParentToSliceName(cgroupParent)
          case Err(_) => []
          case Ok(slice) => [[systemdRunPath] + Systemd.LaunchFlags(unitName, Some(slice)) + command]
      ensures
        var launch := Systemd.LaunchCommand(systemdRunPath, unitName, cgroupParent, command);
        if launch.Err? || Systemd.Launched(launch.value[1..]) == [] then r.Err? && pods == old(pods)
        else
          var (next, outcome) := R.Exec(old(pods), Systemd.Launched(launch.value[1..])[1..], a);
          pods == next && (r.Ok? <==> outcome.Success?)
      ensures
        var launch := Systemd.LaunchCommand(systemdRunPath, unitName, cgroupParent, command);
        launch.Ok? && command != [] && IsWord(command[0]) ==>
          var (next, outcome) := R.Exec(old(pods), command[1..], a);
          pods == next && (r.Ok? <==> outcome.Success?)
    {
      if command != [] && IsWord(command[0]) {
        Launchable(command, cgroupParent, unitName);
      }
      Systemd.LaunchInFull(systemdRunPath, unitName, cgroupParent, command);
      var launch := Systemd.BuildLaunchCommand(systemdRunPath, unitName, cgroupParent, command);
      if launch.Err? {
        return Err(launch.error);
      }
      launched := launched + [launch.value];
      var started := Systemd.Launched(launch.value[1..]);
      if started == [] {
        return Err("failed to run systemd-run");
      }
      var (next, outcome) := R.Exec(pods, started[1..], a);
      pods := next;
      if outcome.Failure? {
        return Err("failed to run systemd-run");
      }
      return Ok(unitName);
    }

    /** Starts a sandbox, waits for its UUID and checks that it is running. The id is handed out together
        with an error when the sandbox exists but is not ready. */
    method RunPodSandbox(sandbox: SandboxConfig, l: Launch) returns (r: RunReply)
      requires Valid() && HonestSandbox(sandbox, l.w)
      modifies this
      ensures Valid()
      ensures (db, r) == RunSandbox(old(db), sandbox, l)
      ensures launched == old(launched) + SandboxLaunches(sandbox, l)
    {
      ghost var before := db;
      var started := StartSandbox(sandbox, l);
      if !started {
        return RunReply(None, false);
      }
      var polled := PollUuidFile(l.polls, l.answer.uuid);
      if polled.Err? {
        return RunReply(None, false);
      }
      var rktUUID := polled.value;
      NewSandboxIsKnown(before, sandbox, l);
      var status := PodSandboxStatus(rktUUID, l.answer);
      match status {
        case Err(_) => return RunReply(Some(rktUUID), false);
        case Ok(s) => return RunReply(Some(rktUUID), s.ready);
      }
    }

    /** The launch itself: the file, the command and systemd. */
    method StartSandbox(sandbox: SandboxConfig, l: Launch) returns (started: bool)
      requires Valid() && HonestSandbox(sandbox, l.w)
      modifies this
      ensures Valid()
      ensures db == RunSandbox(old(db), sandbox, l).0 && (started <==> Launches(old(db), sandbox, l))
      ensures launched == old(launched) + SandboxLaunches(sandbox, l)
    {
      if l.uuidFile.None? {
        return false;
      }
      var uuidFile := l.uuidFile.value;
      var command := AppSandboxBuilder.GenerateAppSandboxCommand(sandbox, uuidFile, stage1Name, networkPluginName, l.w);
      if command.Err? {
        return false;
      }
      LaunchesOf(sandbox, l);
      LaunchEffect(config, rktPath, systemdRunPath, pods, db, sandbox, stage1Name, networkPluginName, l);
      var cmd := Command(rktPath, globalFlags, command.value[0], command.value[1..]);
      var cgroupParent := if sandbox.linux.Some? then sandbox.linux.value.cgroupParent else "";
      var id := StartProcess(l.unitName, cgroupParent, cmd, l.answer);
      db := RunSandbox(db, sandbox, l).0;
      return id.Ok?;
    }

    /** What systemd is asked to run for a sandbox request: the generated command, with the global flags slipped in, in
        the slice of the request. */
    function SandboxLaunches(sandbox: SandboxConfig, l: Launch): seq<seq<string>>
      requires HonestSandbox(sandbox, l.w)
    {
      if l.uuidFile.None? then []
      else
        match AppSandbox.AppSandboxCommand(sandbox, l.uuidFile.value, stage1Name, networkPluginName, l.w)
        case Err(_) => []
        case Ok(cmd) =>
          AppSandbox.StartsWithApp(sandbox, l.uuidFile.value, stage1Name, networkPluginName, l.w);
          var line := [rktPath] + Line(config, rktPath, "app", cmd[1..]);
          match sandbox.linux
          case Some(LinuxSandbox(parent, _)) =>
            if parent == "" then [[systemdRunPath] + Systemd.LaunchFlags(l.unitName, None) + line]
            else
              (match Systemd.CgroupParentToSliceName(parent)
               case Err(_) => []
               case Ok(slice) => [[systemdRunPath] + Systemd.LaunchFlags(l.unitName, Some(slice)) + line])
          case None => [[systemdRunPath] + Systemd.LaunchFlags(l.unitName, None) + line]
    }

    lemma LaunchesOf(sandbox: SandboxConfig, l: Launch)
      requires HonestSandbox(sandbox, l.w) && l.uuidFile.Some?
      requires AppSandbox.AppSandboxCommand(sandbox, l.uuidFile.value, stage1Name, networkPluginName, l.w).Ok?
      ensures
        var cmd := AppSandbox.AppSandboxCommand(sandbox, l.uuidFile.value, stage1Name, networkPluginName, l.w).value;
        && cmd != [] && cmd[0] == "app"
        && var line, parent := Command(rktPath, GlobalFlags(config), cmd[0], cmd[1..]), CgroupParent(sandbox);
           SandboxLaunches(sandbox, l) ==
             if parent == "" then [[systemdRunPath] + Systemd.LaunchFlags(l.unitName, None) + line]
             else
               match Systemd.CgroupParentToSliceName(parent)
               case Err(_) => []
               case Ok(slice) => [[systemdRunPath] + Systemd.LaunchFlags(l.unitName, Some(slice)) + line]
    {
      AppSandbox.StartsWithApp(sandbox, l.uuidFile.value, stage1Name, networkPluginName, l.w);
      var cmd := AppSandbox.AppSandboxCommand(sandbox, l.uuidFile.value, stage1Name, networkPluginName, l.w).value;
      assert [rktPath] + Line(config, rktPath, "app", cmd[1..])
        == Command(rktPath, GlobalFlags(config), "app", cmd[1..]);
    }

    lemma Launchable(cmd: seq<string>, cgroupParent: string, unitName: string)
      requires cmd != [] && IsWord(cmd[0])
      ensures
        var launch := Systemd.LaunchCommand(systemdRunPath, unitName, cgroupParent, cmd);
        launch.Ok? ==> Systemd.Launched(launch.value[1..]) == cmd
    {
      if Systemd.LaunchCommand(systemdRunPath, unitName, cgroupParent, cmd).Ok? {
        Systemd.LaunchRunsCommand(systemdRunPath, unitName, cgroupParent, cmd);
      }
    }

    /** The listing loop mutates the pods it got from rkt, but not what it reports about them. */
    method ListPodSandbox(filter: Option<SandboxFilter>, a: R.Answer) returns (r: Result<seq<PodSandbox>>)
      requires Ready()
      modifies this`pods, this`issued
      ensures pods == old(pods)
      ensures r == Conversion.ListSandboxes(pods, filter)
      ensures Valid() ==> r == Ok(Database.ListSandboxes(db, filter))
      ensures r.Ok? && filter.Some? ==> forall item :: item in r.value <==>
        && Conversion.ListSandboxes(pods, None).Ok? && item in Conversion.ListSandboxes(pods, None).value
        && (filter.value.id != "" ==> item.id == filter.value.id)
        && (filter.value.ready.Some? ==> item.ready == filter.value.ready.value)
        && forall k :: k in filter.value.labelSelector ==>
             k in item.labels && item.labels[k] == filter.value.labelSelector[k]
    {
      SandboxListingIfRepresented(pods, db, filter);
      SandboxFilterMeaning(pods, filter);
      var resp := ListPods(a);
      match resp {
        case Err(e) => return Err(e);
        case Ok(listed) =>
          var objects := Unmarshal(listed);
          r := ListPodObjects(objects, filter);
      }
    }

    /** `rkt list`, which both listings start from. */
    method ListPods(a: R.Answer) returns (r: Result<seq<R.Pod>>)
      requires Ready()
      modifies this`pods, this`issued
      ensures pods == old(pods) && r == Ok(pods)
    {
      ListEffect(config, rktPath, pods, a);
      var resp := RunCommand("list", [Flag(FORMAT, "json")], a);
      match resp {
        case Err(e) => r := Err(e);
        case Ok(output) => r := Ok(output.pods);
      }
    }

    /** Visits every app of every pod and asks for its status; what cannot be asked is skipped. */
    method ListContainers(filter: Option<ContainerFilter>, a: R.Answer) returns (r: Result<seq<Container>>)
      requires Ready()
      modifies this`pods, this`issued
      ensures pods == old(pods)
      ensures r == Ok(Listing.Containers(pods, pods, filter))
      ensures Valid() ==> r == Ok(Database.ListContainers(db, filter))
      ensures filter.Some? ==> forall c :: c in r.value <==>
        && c in Listing.Containers(pods, pods, None)
        && (filter.value.id != "" ==> c.id == filter.value.id)
        && (filter.value.state.Some? ==> c.state == filter.value.state.value)
        && (filter.value.podSandboxId != "" ==> c.podSandboxId == filter.value.podSandboxId)
        && forall k :: k in filter.value.labelSelector ==>
             k in c.labels && c.labels[k] == filter.value.labelSelector[k]
    {
      ContainerFilterMeaning(pods, filter);
      var resp := ListPods(a);
      match resp {
        case Err(e) => return Err(e);
        case Ok(listed) =>
          var containers := ListContainersOfAll(listed, filter, a);
          r := Ok(containers);
      }
      ContainerListingIfRepresented(pods, db, filter);
    }

    /** The outer loop, over the listed pods. */
    method ListContainersOfAll(listed: seq<R.Pod>, filter: Option<ContainerFilter>, a: R.Answer)
      returns (containers: seq<Container>)
      requires Ready()
      modifies this`pods, this`issued
      ensures pods == old(pods)
      ensures containers == Listing.Containers(pods, listed, filter)
    {
      containers := [];
      for i := 0 to |listed|
        invariant pods == old(pods)
        invariant containers == Listing.Containers(pods, listed[..i], filter)
      {
        var more := ListContainersOf(listed[i], filter, a);
        assert listed[..i + 1][..i] == listed[..i];
        containers := containers + more;
      }
      assert listed[..|listed|] == listed;
    }

    /** The inner loop, over the apps of one listed pod. */
    method ListContainersOf(p: R.Pod, filter: Option<ContainerFilter>, a: R.Answer) returns (containers: seq<Container>)
      requires Ready()
      modifies this`pods, this`issued
      ensures pods == old(pods)
      ensures containers == Listing.ShownInPod(pods, p, filter)
    {
      containers := [];
      if !IsKubernetesPod(p) {
        return;
      }
      var appNames := R.AppNames(p.apps);
      for j := 0 to |appNames|
        invariant pods == old(pods)
        invariant containers == Listing.ShownApps(pods, p.uuid, appNames[..j], filter)
      {
        Listing.NextShown(pods, p.uuid, appNames, j, filter);
        var shown := ShowContainer(p.uuid, appNames[j], a);
        match shown {
          case None => continue;
          case Some(container) =>
            if PassFilter(container, filter) {
              containers := containers + [container];
            }
        }
      }
      assert appNames[..|appNames|] == appNames;
    }

    /** The container made of one app's status, unless it is internal or cannot be asked. */
    method ShowContainer(uuid: string, appName: string, a: R.Answer) returns (c: Option<Container>)
      requires Ready()
      modifies this`pods, this`issued
      ensures pods == old(pods) && c == Listing.Shown(pods, uuid, appName)
    {
      if INTERNAL_APP_PREFIX <= appName {
        return None;
      }
      var status := ContainerStatus(BuildContainerID(uuid, appName), a);
      match status {
        case Err(_) => return None;
        case Ok(s) =>
          return Some(Container(s.id, uuid, s.name, s.attempt, s.image, s.imageRef, s.state, s.createdAt,
                                s.labels, s.annotations));
      }
    }

    // ----- what happens without a call -----

    method DriftPod(id: string, state: string)
      requires Valid()
      modifies this
      ensures Valid() && db == Database.DriftPod(old(db), id, state)
    {
      PodDriftAgrees(pods, db, id, state);
      pods := R.DriftPod(pods, id, state);
      db := Database.DriftPod(db, id, state);
    }

    method DriftContainer(containerID: string, report: R.Report)
      requires Valid()
      modifies this
      ensures Valid() && db == Database.DriftContainer(old(db), containerID, report)
    {
      match ParseContainerID(containerID) {
        case Err(_) =>
        case Ok((uuid, appName)) =>
          AppDriftAgrees(pods, db, containerID, uuid, appName, report);
          pods := R.DriftApp(pods, uuid, appName, report);
      }
      db := Database.DriftContainer(db, containerID, report);
    }
  }

  lemma ContainerFilterMeaning(pods: seq<R.Pod>, filter: Option<ContainerFilter>)
    ensures filter.Some? ==> forall c :: c in Listing.Containers(pods, pods, filter) <==>
      && c in Listing.Containers(pods, pods, None)
      && (filter.value.id != "" ==> c.id == filter.value.id)
      && (filter.value.state.Some? ==> c.state == filter.value.state.value)
      && (filter.value.podSandboxId != "" ==> c.podSandboxId == filter.value.podSandboxId)
      && forall k :: k in filter.value.labelSelector ==> k in c.labels && c.labels[k] == filter.value.labelSelector[k]
  {
    if filter.Some? {
      forall c { Listing.FilteredIff(pods, filter.value, c); }
    }
  }

  lemma SandboxFilterMeaning(pods: seq<R.Pod>, filter: Option<SandboxFilter>)
    ensures Conversion.ListSandboxes(pods, filter).Ok? ==> Conversion.ListSandboxes(pods, None).Ok?
    ensures filter.Some? && Conversion.ListSandboxes(pods, filter).Ok? ==>
      forall item :: item in Conversion.ListSandboxes(pods, filter).value <==>
        && item in Conversion.ListSandboxes(pods, None).value
        && (filter.value.id != "" ==> item.id == filter.value.id)
        && (filter.value.ready.Some? ==> item.ready == filter.value.ready.value)
        && forall k :: k in filter.value.labelSelector ==>
             k in item.labels && item.labels[k] == filter.value.labelSelector[k]
  {
    Conversion.ListingCommutesWithFilter(pods, filter);
    if filter.Some? && Conversion.ListSandboxes(pods, None).Ok? {
      forall item { Conversion.FilteredIff(pods, filter.value, item); }
    }
  }

  lemma KnownIffStatus(db: Db, id: string)
    ensures SandboxStatusReply(db, id).Some? <==> id in Ids(db)
  {
  }

  lemma NewSandboxIsKnown(db: Db, config: SandboxConfig, l: Launch)
    requires HonestSandbox(config, l.w) && Launches(db, config, l) && Distinct(Ids(db))
    ensures SandboxStatusReply(RunSandbox(db, config, l).0, l.answer.uuid)
         == Some(SandboxStatusOf(NewSandbox(config, l)))
  {
    var s, position := NewSandbox(config, l), l.answer.position;
    IdsInserted(db, position, s);
    IndexOfInserted(Ids(db), position, s.id, s.id);
    ElementsInserted(db, position, s);
  }
}
