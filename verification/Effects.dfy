/** What each command line rktlet issues does to rkt, in terms of the database that rkt represents. */
module Effects {
  import opened Wrappers
  import opened Text
  import opened Lists
  import opened Flags
  import opened FlagNames
  import opened Annotations
  import opened Identity
  import opened Cri
  import opened Cli
  import opened Commands
  import opened Conversion
  import opened ImageNames
  import opened Database
  import opened Refinement
  import AppAdd
  import AppSandbox
  import StopErrors
  import Systemd
  import Listing
  import R = Rkt

  /** What RunCommand makes of an outcome. */
  function Reported(subCmd: string, args: seq<string>, exit: string, outcome: R.Outcome): Result<R.Output>
  {
    match outcome
    case Success(output) => Ok(output)
    case Failure(text) => Err(RunError(subCmd, args, exit, text))
  }

  // ----- operands that name no pod -----

  lemma IdsAreUuids(pods: seq<R.Pod>, db: Db)
    requires Represents(pods, db)
    ensures forall id :: id in Ids(db) ==> R.IsUuid(id)
    ensures R.Uuids(pods) == Ids(db)
  {
    SameIds(pods, db);
    forall id | id in Ids(db) ensures R.IsUuid(id) {
      var i :| 0 <= i < |db| && db[i].id == id;
      assert EncodesPod(pods[i], db[i]);
    }
  }

  /** Neither an operand that looks like a flag nor an image name is a UUID. */
  lemma NotUuid(name: string)
    requires !IsWord(name) || (|name| >= 5 && (name[0] == 's' || (name[0] == 'd' && name[1] == 'o')))
    ensures !R.IsUuid(name)
  {
    assert R.IsUuid(name) ==> R.IsHex(name[0]) && R.IsHex(name[1]);
  }

  // ----- containers -----

  function WordFor(verb: Verb): string
    requires !verb.Query?
  {
    match verb case Start => "start" case Stop => "stop" case Remove => "rm"
  }

  lemma ExecOfAppLine(pods: seq<R.Pod>, line: seq<string>, a: R.Answer)
    requires R.OnApp(R.ReadInstruction(line))
    ensures R.Exec(pods, line, a) == R.ExecOnApp(pods, R.ReadInstruction(line), a)
  {
  }

  lemma ExecOfPodLine(pods: seq<R.Pod>, line: seq<string>, a: R.Answer)
    requires
      var ins := R.ReadInstruction(line);
      ins.StopPod? || ins.RemovePod? || ins.PodStatus?
    ensures R.Exec(pods, line, a) == R.ExecOnPod(pods, R.ReadInstruction(line), a)
  {
  }

  lemma ReadVerb(verb: Verb, uuid: string, appName: string)
    requires !verb.Query?
    ensures R.ReadAppVerb(WordFor(verb), uuid, appName) == InstructionFor(verb, uuid, appName)
    ensures AppVerb(WordFor(verb))
  {
  }

  lemma VerbWithoutPod(pods: seq<R.Pod>, db: Db, line: seq<string>, verb: Verb, containerID: string,
                       uuid: string, appName: string, a: R.Answer)
    requires Represents(pods, db) && ParseContainerID(containerID) == Ok((uuid, appName)) && !IsWord(uuid)
    requires R.ReadInstruction(line).Malformed?
    ensures R.Exec(pods, line, a).0 == pods && R.Exec(pods, line, a).1.Failure?
    ensures OnContainer(db, verb, containerID, a) == (db, false)
  {
    IdsAreUuids(pods, db);
    NotUuid(uuid);
  }

  lemma VerbEffect(c: CliConfig, rktPath: string, pods: seq<R.Pod>, db: Db, verb: Verb, containerID: string,
                   uuid: string, appName: string, a: R.Answer)
    requires Represents(pods, db) && !verb.Query?
    requires ParseContainerID(containerID) == Ok((uuid, appName))
    ensures
      var (next, outcome) := R.Exec(pods, Line(c, rktPath, "app", AppArgs(WordFor(verb), uuid, appName)), a);
      var (db', ok) := OnContainer(db, verb, containerID, a);
      Represents(next, db') && (outcome.Success? <==> ok)
  {
    var line := Line(c, rktPath, "app", AppArgs(WordFor(verb), uuid, appName));
    ReadVerb(verb, uuid, appName);
    AppArgsLine(c, rktPath, WordFor(verb), uuid, appName);
    if IsWord(uuid) {
      ExecOfAppLine(pods, line, a);
      OnContainerAgrees(pods, db, verb, containerID, uuid, appName, a);
    } else {
      VerbWithoutPod(pods, db, line, verb, containerID, uuid, appName, a);
    }
  }

  /** Asking for an app works on every state of rkt, and changes none. */
  lemma StatusEffect(c: CliConfig, rktPath: string, pods: seq<R.Pod>, uuid: string, appName: string, a: R.Answer)
    ensures
      var (next, outcome) := R.Exec(pods, Line(c, rktPath, "app", AppStatusArgs(uuid, appName)), a);
      && next == pods
      && (outcome.Success? <==> IsWord(uuid) && Listing.App(pods, uuid, appName).Some?)
      && (outcome.Success? ==> outcome.output.OneApp? && Listing.App(pods, uuid, appName) == Some(outcome.output.app))
  {
    AppStatusLine(c, rktPath, uuid, appName);
  }

  lemma ExecOfAdd(pods: seq<R.Pod>, line: seq<string>, app: R.App, a: R.Answer)
    requires R.ReadInstruction(line).AddApp?
    requires
      var ins := R.ReadInstruction(line);
      app == R.App(ins.name, a.report, ReadPairs(map[], ins.annotations), ReadPairs(map[], ins.labels))
    ensures
      var ins := R.ReadInstruction(line);
      if a.strict && ins.more != [] then R.Exec(pods, line, a).0 == pods && R.Exec(pods, line, a).1.Failure?
      else R.Exec(pods, line, a) == R.AddTo(pods, ins.pod, app, a)
  {
  }

  lemma ExecWithoutPod(pods: seq<R.Pod>, line: seq<string>, a: R.Answer)
    requires
      var ins := R.ReadInstruction(line);
      ins.Malformed? || (ins.AddApp? && ins.pod !in R.Uuids(pods))
    ensures R.Exec(pods, line, a).0 == pods && R.Exec(pods, line, a).1.Failure?
  {
  }

  /** Whatever the sandbox id looks like, the generated command adds the app of the request to that
      sandbox, or fails; it fails when rkt minds the stray operand. */
  lemma AddEffect(c: CliConfig, rktPath: string, parse: Parser, pods: seq<R.Pod>, db: Db,
                  req: CreateContainerRequest, imageID: string, w: AddWorld, a: R.Answer)
    requires Represents(pods, db) && Honest(req.config, w) && Creatable(parse, req.config, w)
    requires GetCanonicalImageName(parse, req.config.image.value) == Ok(imageID)
    ensures
      var image := req.config.image.value;
      && AppAdd.AppAddCommand(req, image, imageID, w).Ok?
      && var cmd := AppAdd.AppAddCommand(req, image, imageID, w).value;
         && cmd != [] && cmd[0] == "app"
         && var (next, outcome) := R.Exec(pods, Line(c, rktPath, "app", cmd[1..]), a);
            var (next', outcome') := R.AddTo(pods, req.podSandboxId, StoredApp(req.config, image, w, a), a);
            if Minded(req.config, a) then next == pods && outcome.Failure?
            else next == next' && (outcome.Success? <==> outcome'.Success?)
  {
    var image := req.config.image.value;
    AppAdd.AcceptedIff(req, image, imageID, w);
    CanonicalIsOperand(parse, image);
    var cmd := AppAdd.AppAddCommand(req, image, imageID, w).value;
    if IsWord(req.podSandboxId) {
      AddLine(c, rktPath, req, image, imageID, w);
      ExecOfAdd(pods, Line(c, rktPath, "app", cmd[1..]), StoredApp(req.config, image, w, a), a);
    } else {
      BadSandboxLine(c, rktPath, req, image, imageID, w);
      IdsAreUuids(pods, db);
      NotUuid(req.podSandboxId);
      NotUuid(imageID);
      ExecWithoutPod(pods, Line(c, rktPath, "app", cmd[1..]), a);
    }
  }

  /** The same, in terms of the database. */
  lemma CreateEffect(c: CliConfig, rktPath: string, parse: Parser, pods: seq<R.Pod>, db: Db,
                     req: CreateContainerRequest, imageID: string, w: AddWorld, a: R.Answer)
    requires Represents(pods, db) && Honest(req.config, w) && Creatable(parse, req.config, w)
    requires GetCanonicalImageName(parse, req.config.image.value) == Ok(imageID)
    ensures
      var image := req.config.image.value;
      && AppAdd.AppAddCommand(req, image, imageID, w).Ok?
      && var cmd := AppAdd.AppAddCommand(req, image, imageID, w).value;
         && cmd != [] && cmd[0] == "app"
         && var (next, outcome) := R.Exec(pods, Line(c, rktPath, "app", cmd[1..]), a);
            var (db', id) := Create(db, parse, req, w, a);
            && Represents(next, db')
            && id == if outcome.Success?
                     then Some(BuildContainerID(req.podSandboxId,
                                                BuildAppName(req.config.attempt, req.config.name).value))
                     else None
  {
    AddEffect(c, rktPath, parse, pods, db, req, imageID, w, a);
    if !Minded(req.config, a) {
      CreateAgrees(pods, db, parse, req, w, a);
    }
  }

  // ----- sandboxes -----

  /** Stopping: the effect, and how the reported error is classified. */
  lemma StopEffect(c: CliConfig, rktPath: string, pods: seq<R.Pod>, db: Db, force: bool, id: string, exit: string,
                   a: R.Answer)
    requires Represents(pods, db) && '"' !in exit
    ensures
      var (next, outcome) := R.Exec(pods, Line(c, rktPath, "stop", StopArgs(force, id)), a);
      && Represents(next, StopSandbox(db, id, a).0)
      && Ids(StopSandbox(db, id, a).0) == Ids(db)
      && (id in Ids(db) ==>
            (StopSandbox(db, id, a).1 <==> Stopped(Reported("stop", StopArgs(force, id), exit, outcome))))
  {
    StopLine(c, rktPath, force, id);
    IdsAreUuids(pods, db);
    StopKeepsIds(db, id, a);
    if IsWord(id) {
      StopAgrees(pods, db, id, a);
      if id in Ids(db) {
        StopWrapper(force, id);
        var outcome := R.Exec(pods, Line(c, rktPath, "stop", StopArgs(force, id)), a).1;
        if outcome.Failure? {
          StopErrors.ToleratedThroughWrapping("stop", StopArgs(force, id), exit, outcome.text);
        }
      }
    } else {
      NotUuid(id);
    }
  }

  /** A stop that succeeded or failed for a tolerated reason. */
  predicate Stopped(r: Result<R.Output>) { r.Ok? || StopErrors.Tolerated(r.error) }

  lemma StopWrapper(force: bool, id: string)
    requires R.IsUuid(id)
    ensures '"' !in "stop" && '"' !in Bracketed(StopArgs(force, id))
  {
    UuidHasNoQuote(id);
    var args := StopArgs(force, id);
    assert args[1..] == [id];
    assert Join(args, ' ') == args[0] + [' '] + id;
    assert '"' !in "--force=true" && '"' !in "--force=false";
    assert args[0] == if force then "--force=true" else "--force=false";
  }

  predicate Stoppable(s: Sandbox, a: R.Answer)
  {
    s.state == "running" && a.refusal.Some? ==> StopErrors.Tolerated(a.refusal.value)
  }

  /** A stop succeeds exactly on the known sandboxes, except when rkt refuses to stop a running one for a
      reason other than the two tolerated ones; a failed stop changes nothing. */
  lemma StopSucceedsIff(db: Db, id: string, a: R.Answer)
    requires Distinct(Ids(db))
    ensures
      var (db', ok) := StopSandbox(db, id, a);
      && (!ok ==> db' == db)
      && (ok <==> exists i :: 0 <= i < |db| && db[i].id == id && Stoppable(db[i], a))
  {
    if IndexOf(Ids(db), id).Some? {
      var i := IndexOf(Ids(db), id).value;
      forall k | 0 <= k < |db| && db[k].id == id ensures k == i {
        IndexOfDistinct(Ids(db), k);
      }
    } else {
      assert forall i :: 0 <= i < |db| ==> Ids(db)[i] == db[i].id;
    }
  }

  lemma StopKeepsIds(db: Db, id: string, a: R.Answer)
    ensures Ids(StopSandbox(db, id, a).0) == Ids(db)
  {
  }

  lemma RemoveEffect(c: CliConfig, rktPath: string, pods: seq<R.Pod>, db: Db, id: string, stop: R.Answer,
                     remove: R.Answer)
    requires Represents(pods, StopSandbox(db, id, stop).0)
    ensures
      var (next, outcome) := R.Exec(pods, Line(c, rktPath, "rm", [id]), remove);
      && Represents(next, RemoveSandbox(db, id, stop, remove).0)
      && (outcome.Success? <==> RemoveSandbox(db, id, stop, remove).1)
      && (outcome.Success? ==> outcome.output.Lines?)
  {
    RemoveLine(c, rktPath, id);
    if IsWord(id) {
      ExecOfPodLine(pods, Line(c, rktPath, "rm", [id]), remove);
      RemoveAgrees(pods, db, id, stop, remove);
    } else {
      RemoveNothing(pods, db, id, stop, remove);
    }
  }

  lemma RemoveNothing(pods: seq<R.Pod>, db: Db, id: string, stop: R.Answer, remove: R.Answer)
    requires Represents(pods, StopSandbox(db, id, stop).0) && !IsWord(id)
    ensures RemoveSandbox(db, id, stop, remove) == (StopSandbox(db, id, stop).0, false)
  {
    IdsAreUuids(pods, StopSandbox(db, id, stop).0);
    NotUuid(id);
  }

  lemma PodStatusEffect(c: CliConfig, rktPath: string, pods: seq<R.Pod>, db: Db, id: string, wait: bool, a: R.Answer)
    requires Represents(pods, db)
    ensures
      var (next, outcome) := R.Exec(pods, Line(c, rktPath, "status", StatusArgs(id, wait)), a);
      && next == pods
      && (outcome.Success? ==> SandboxStatusReply(db, id).Some?)
      && (!wait && SandboxStatusReply(db, id).Some? ==> outcome.Success?)
      && (outcome.Success? ==> outcome.output.OnePod?)
      && (outcome.Success? ==> ToSandboxStatus(outcome.output.pod) == Ok(SandboxStatusReply(db, id).value))
  {
    StatusLine(c, rktPath, id, wait);
    if IsWord(id) {
      PodStatusAgrees(pods, db, id, a);
    } else {
      IdsAreUuids(pods, db);
      NotUuid(id);
    }
  }

  lemma ListEffect(c: CliConfig, rktPath: string, pods: seq<R.Pod>, a: R.Answer)
    ensures R.Exec(pods, Line(c, rktPath, "list", [Flag(FORMAT, "json")]), a) == (pods, R.Success(R.AllPods(pods)))
  {
    ListLine(c, rktPath);
  }

  /** What the printed sandbox line does to rkt. */
  lemma SandboxExec(c: CliConfig, rktPath: string, pods: seq<R.Pod>, db: Db, config: SandboxConfig, stage1: string,
                    plugin: string, l: Launch)
    requires Represents(pods, db) && HonestSandbox(config, l.w)
    requires l.uuidFile.Some? && AppSandbox.AppSandboxCommand(config, l.uuidFile.value, stage1, plugin, l.w).Ok?
    requires CgroupParent(config) != "" ==> Systemd.CgroupParentToSliceName(CgroupParent(config)).Ok?
    ensures
      var cmd := AppSandbox.AppSandboxCommand(config, l.uuidFile.value, stage1, plugin, l.w).value;
      && cmd != []
      && var (next, outcome) := R.Exec(pods, Line(c, rktPath, "app", cmd[1..]), l.answer);
         (outcome.Success? <==> Launches(db, config, l)) && Represents(next, RunSandbox(db, config, l).0)
  {
    SandboxLine(c, rktPath, config, l.uuidFile.value, stage1, plugin, l.w);
    RunAgrees(pods, db, config, l);
  }

  /** Launching: systemd runs the printed command, and rkt starts the requested sandbox. */
  lemma LaunchEffect(c: CliConfig, rktPath: string, systemdRun: string, pods: seq<R.Pod>, db: Db, config: SandboxConfig,
                     stage1: string, plugin: string, l: Launch)
    requires Represents(pods, db) && HonestSandbox(config, l.w) && IsWord(rktPath)
    requires l.uuidFile.Some? && AppSandbox.AppSandboxCommand(config, l.uuidFile.value, stage1, plugin, l.w).Ok?
    ensures
      var cmd := AppSandbox.AppSandboxCommand(config, l.uuidFile.value, stage1, plugin, l.w).value;
      && cmd != [] && cmd[0] == "app"
      && var launch := Systemd.LaunchCommand(systemdRun, l.unitName, CgroupParent(config),
                                             Command(rktPath, GlobalFlags(c), "app", cmd[1..]));
         if launch.Err? then !Launches(db, config, l)
         else
           && Systemd.Launched(launch.value[1..]) == Command(rktPath, GlobalFlags(c), "app", cmd[1..])
           && var (next, outcome) := R.Exec(pods, Line(c, rktPath, "app", cmd[1..]), l.answer);
           && (outcome.Success? <==> Launches(db, config, l))
           && Represents(next, RunSandbox(db, config, l).0)
  {
    var cmd := AppSandbox.AppSandboxCommand(config, l.uuidFile.value, stage1, plugin, l.w).value;
    SandboxLine(c, rktPath, config, l.uuidFile.value, stage1, plugin, l.w);
    var command := Command(rktPath, GlobalFlags(c), "app", cmd[1..]);
    if Systemd.LaunchCommand(systemdRun, l.unitName, CgroupParent(config), command).Ok? {
      Systemd.LaunchRunsCommand(systemdRun, l.unitName, CgroupParent(config), command);
      SandboxExec(c, rktPath, pods, db, config, stage1, plugin, l);
    }
  }
}
