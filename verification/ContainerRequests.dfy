/** The printed `rkt app add` command in terms of the request: every flag by its name, every value by the field of the
    request it comes from. */
module ContainerRequests {
  import opened Wrappers
  import opened Text
  import opened Flags
  import opened FlagNames
  import opened Annotations
  import opened Cri
  import opened AcName
  import opened Identity
  import opened Volumes
  import opened AppAdd
  import Cpu

  /** What stands behind the two ids of a printed command. */
  lemma Printed(req: CreateContainerRequest, image: string, imageID: string, w: AddWorld)
    requires Honest(req.config, w) && AppAddCommand(req, image, imageID, w).Ok?
    ensures Accepts(req.config, w)
    ensures
      var cmd := AppAddCommand(req, image, imageID, w).value;
      |cmd| >= 4 && cmd[..4] == ["app", "add", req.podSandboxId, imageID] && cmd[4..] == Body(req.config, image, w)
  {
    AcceptedIff(req, image, imageID, w);
    CommandShape(req, image, imageID, w);
  }

  /** The arguments behind the ids. */
  function Arguments(req: CreateContainerRequest, image: string, imageID: string, w: AddWorld): seq<string>
    requires Honest(req.config, w) && AppAddCommand(req, image, imageID, w).Ok?
  {
    Printed(req, image, imageID, w);
    AppAddCommand(req, image, imageID, w).value[4..]
  }

  // ----- seccomp -----

  /** What a seccomp profile does to a container that is not privileged: another text than these two, or none, is
      refused; `unconfined` and the empty text are sent as such; `docker/default` is rkt's own default, asked for by an
      empty argument. */
  ghost predicate Obeys(req: CreateContainerRequest, image: string, imageID: string, w: AddWorld, profile: string)
    requires Honest(req.config, w)
  {
    var cmd := AppAddCommand(req, image, imageID, w);
    && (profile != "" && profile != "unconfined" && profile != "docker/default" ==>
          cmd.Err? && (Sanitize(req.config.name).Ok? ==> cmd == Err("seccomp profile not supported")))
    && (cmd.Ok? ==>
          var args := Arguments(req, image, imageID, w);
          if profile == "docker/default" then Values("seccomp", args) == [] && Words(args) == [""]
          else Values("seccomp", args) == ["mode=retain,@appc.io/all"] && Words(args) == [])
  }

  lemma ChosenProfile(req: CreateContainerRequest, image: string, imageID: string, w: AddWorld, sc: ContainerSecurity,
                      profile: string)
    requires Honest(req.config, w) && SecurityOf(req.config) == Some(sc)
    requires SeccompOf(req.config, sc) ==
      if profile == "unconfined" || profile == "" then Unconfined else if profile == "docker/default" then Blank
      else Unsupported
    ensures Obeys(req, image, imageID, w, profile)
  {
    if AppAddCommand(req, image, imageID, w).Ok? {
      Printed(req, image, imageID, w);
      BodyParts(SECCOMP, req.config, image, w);
      SeccompSent(req.config, image, w);
    }
  }

  /** The profile of the request decides when there is one; then the annotation for this very container; then the one
      for the whole pod; and a container nobody speaks for is unconfined. */
  lemma SeccompAsRequested(req: CreateContainerRequest, image: string, imageID: string, w: AddWorld,
                           resources: Option<Resources>, sc: ContainerSecurity)
    requires Honest(req.config, w) && req.config.linux == Some(LinuxContainer(resources, Some(sc))) && !sc.privileged
    ensures
      var own := "container.seccomp.security.alpha.kubernetes.io/" + req.config.name;
      var pod := "seccomp.security.alpha.kubernetes.io/pod";
      var annotations := req.config.annotations;
      && (sc.seccompProfile != "" ==> Obeys(req, image, imageID, w, sc.seccompProfile))
      && (sc.seccompProfile == "" && own in annotations ==> Obeys(req, image, imageID, w, annotations[own]))
      && (sc.seccompProfile == "" && own !in annotations && pod in annotations ==>
            Obeys(req, image, imageID, w, annotations[pod]))
      && (sc.seccompProfile == "" && own !in annotations && pod !in annotations ==>
            Obeys(req, image, imageID, w, "unconfined"))
  {
    var own := "container.seccomp.security.alpha.kubernetes.io/" + req.config.name;
    var pod := "seccomp.security.alpha.kubernetes.io/pod";
    if sc.seccompProfile != "" {
      ChosenProfile(req, image, imageID, w, sc, sc.seccompProfile);
    } else if own in req.config.annotations {
      ChosenProfile(req, image, imageID, w, sc, req.config.annotations[own]);
    } else if pod in req.config.annotations {
      ChosenProfile(req, image, imageID, w, sc, req.config.annotations[pod]);
    } else {
      ChosenProfile(req, image, imageID, w, sc, "unconfined");
    }
  }

  // ----- capabilities, users, files -----

  /** A container without security context gets no security flag; a privileged one keeps all capabilities and is
      unconfined; any other keeps the adjusted ones if it asked for an adjustment. */
  lemma PrivilegesAsRequested(req: CreateContainerRequest, image: string, imageID: string, w: AddWorld)
    requires Honest(req.config, w) && AppAddCommand(req, image, imageID, w).Ok?
    ensures
      var args := Arguments(req, image, imageID, w);
      match req.config.linux
      case Some(LinuxContainer(_, Some(sc))) =>
        if sc.privileged then
          && Values("seccomp", args) == ["mode=retain,@appc.io/all"]
          && Values("caps-retain", args) == When(w.allCapabilities != [], Join(w.allCapabilities, ','))
        else if sc.capabilities.Some? then
          && w.tweakedCapabilities.Ok?
          && Values("caps-retain", args)
             == When(w.tweakedCapabilities.value != [], Join(w.tweakedCapabilities.value, ','))
        else Values("caps-retain", args) == []
      case _ =>
        && Values("seccomp", args) == [] && Values("caps-retain", args) == [] && Values("user", args) == []
        && Values("supplementary-gids", args) == [] && Values("readonly-rootfs", args) == []
  {
    var config := req.config;
    Printed(req, image, imageID, w);
    if SecurityOf(config).Some? {
      AppAddConfinement(config, image, w);
    } else {
      NoSecurity(SECCOMP, config, image, w);
      NoSecurity(CAPS_RETAIN, config, image, w);
      NoSecurity(USER, config, image, w);
      NoSecurity(SUPPLEMENTARY_GIDS, config, image, w);
      NoSecurity(READONLY_ROOTFS, config, image, w);
    }
  }

  lemma NoSecurity(f: FlagName, config: ContainerConfig, image: string, w: AddWorld)
    requires Honest(config, w) && Accepts(config, w) && SecurityOf(config).None? && f in SECURITY_NAMES
    ensures Values(f, Body(config, image, w)) == []
  {
    OneSection(f, config, image, w);
    SecurityNamesAlone();
    ResourceNamesAlone();
  }

  /** The groups are the decimal numbers of the request, in order, separated by commas. */
  ghost predicate ListsNumbers(value: string, numbers: seq<Cpu.Int64>)
  {
    var parts := Split(value, ',');
    |parts| == |numbers| && forall i :: 0 <= i < |numbers| ==> parts[i] == DecimalInt(numbers[i])
  }

  lemma NumbersRead(ns: seq<Cpu.Int64>)
    requires ns != []
    ensures ListsNumbers(Join(Numbers(ns), ','), ns)
  {
    forall t | t in Numbers(ns) ensures ',' !in t {
      var i :| 0 <= i < |ns| && t == DecimalInt(ns[i]);
      DecimalIntShape(ns[i]);
    }
    SplitOfJoin(Numbers(ns), ',');
  }

  /** Who the program runs as: the number if there is one, else the name, and never both. */
  lemma UserAsRequested(req: CreateContainerRequest, image: string, imageID: string, w: AddWorld,
                        resources: Option<Resources>, sc: ContainerSecurity)
    requires Honest(req.config, w) && AppAddCommand(req, image, imageID, w).Ok?
    requires req.config.linux == Some(LinuxContainer(resources, Some(sc)))
    ensures
      var args := Arguments(req, image, imageID, w);
      && (match (sc.runAsUser, sc.runAsUsername)
          case (Some(uid), name) => name == "" && Values("user", args) == [DecimalInt(uid)]
          case (None, "") => Values("user", args) == []
          case (None, name) => Values("user", args) == [name])
      && (if sc.supplementalGroups == [] then Values("supplementary-gids", args) == []
          else
            var groups := Values("supplementary-gids", args);
            |groups| == 1 && ListsNumbers(groups[0], sc.supplementalGroups))
      && Values("readonly-rootfs", args) == (if sc.readonlyRootfs then ["true"] else [])
  {
    Printed(req, image, imageID, w);
    AppAddIdentity(req.config, image, w);
    if sc.supplementalGroups != [] { NumbersRead(sc.supplementalGroups); }
  }

  // ----- resources -----

  /** Shares when there are any, memory and out-of-memory score when they are not zero, CPU time when it amounts to a
      millicore, and nothing without resources. */
  lemma LimitsAsRequested(req: CreateContainerRequest, image: string, imageID: string, w: AddWorld)
    requires Honest(req.config, w) && AppAddCommand(req, image, imageID, w).Ok?
    ensures
      var args := Arguments(req, image, imageID, w);
      match req.config.linux
      case Some(LinuxContainer(Some(Resources(period, quota, shares, memory, score)), _)) =>
        var milliCores := Cpu.CpuQuotaToMilliCores(quota, period);
        && Values("cpu", args) == (if milliCores > 0 then [DecimalInt(milliCores) + "m"] else [])
        && Values("cpu-shares", args) == (if shares > 0 then [DecimalInt(shares)] else [])
        && Values("memory", args) == (if memory != 0 then [DecimalInt(memory)] else [])
        && Values("oom-score-adj", args) == (if score != 0 then [DecimalInt(score)] else [])
      case _ =>
        && Values("cpu", args) == [] && Values("cpu-shares", args) == [] && Values("memory", args) == []
        && Values("oom-score-adj", args) == []
  {
    Printed(req, image, imageID, w);
    if req.config.linux.Some? && req.config.linux.value.resources.Some? {
      AppAddLimits(req.config, image, w);
    } else {
      ResourceSection(CPU, req.config, image, w);
      ResourceSection(CPU_SHARES, req.config, image, w);
      ResourceSection(MEMORY, req.config, image, w);
      ResourceSection(OOM_SCORE_ADJ, req.config, image, w);
    }
  }

  // ----- names, program, files -----

  /** The log goes to the requested path, else to one made of attempt and sanitized name; the streams are attached. */
  lemma StreamsAsRequested(req: CreateContainerRequest, image: string, imageID: string, w: AddWorld)
    requires Honest(req.config, w) && AppAddCommand(req, image, imageID, w).Ok?
    ensures Sanitize(req.config.name).Ok?
    ensures
      var args, config := Arguments(req, image, imageID, w), req.config;
      var name := Decimal(config.attempt) + "-" + Sanitize(config.name).value;
      var log := if config.logPath != "" then config.logPath else name + "_0.log";
      && Values("name", args) == [name]
      && Values("annotation", args) == ["coreos.com/rkt/experiment/kubernetes-log-path=" + log]
      && Values("stdin", args) == ["stream"] && Values("stdout", args) == ["stream"]
      && Values("stderr", args) == ["stream"]
  {
    Printed(req, image, imageID, w);
    AppAddStreams(req.config, image, w);
    AppAddMeaning(req.config, image, w);
  }

  lemma ImageNamePair(image: string)
    ensures Pair(IMAGE_NAME_KEY, image) == "k8s.io/reserved/image-name=" + image
  {
    assert Pair(IMAGE_NAME_KEY, image) == IMAGE_NAME_KEY + "=" + image;
    assert IMAGE_NAME_KEY + "=" == "k8s.io/reserved/image-name=";
  }

  lemma PairsSent(req: CreateContainerRequest, image: string, imageID: string, w: AddWorld)
    requires Honest(req.config, w) && AppAddCommand(req, image, imageID, w).Ok?
    ensures
      var args, config := Arguments(req, image, imageID, w), req.config;
      && Values("user-annotation", args)
         == Pairs(w.annotationOrder, config.annotations) + [Pair(IMAGE_NAME_KEY, image)]
      && Values("user-label", args) == Pairs(w.labelOrder, config.labels)
      && Values("environment", args) == EnvValues(config.envs)
  {
    Printed(req, image, imageID, w);
    AppAddMeaning(req.config, image, w);
  }

  /** Labels and annotations go out pair by pair, the image name behind the latter, and the environment in order. */
  lemma PairsAsRequested(req: CreateContainerRequest, image: string, imageID: string, w: AddWorld)
    requires Honest(req.config, w) && AppAddCommand(req, image, imageID, w).Ok?
    ensures
      var args, config := Arguments(req, image, imageID, w), req.config;
      var annotations, envs := Values("user-annotation", args), Values("environment", args);
      && annotations != [] && annotations[|annotations| - 1] == "k8s.io/reserved/image-name=" + image
      && ListsPairs(annotations[..|annotations| - 1], w.annotationOrder, config.annotations)
      && ListsPairs(Values("user-label", args), w.labelOrder, config.labels)
      && |envs| == |config.envs|
      && forall i :: 0 <= i < |envs| ==> envs[i] == config.envs[i].key + "=" + config.envs[i].value
  {
    PairsSent(req, image, imageID, w);
    ImageNamePair(image);
    var annotations := Values("user-annotation", Arguments(req, image, imageID, w));
    assert annotations[..|annotations| - 1] == Pairs(w.annotationOrder, req.config.annotations);
  }

  /** The volumes are those of the mounts that are not nil, in the order of the request: the positions of these increase
      and leave none out. */
  ghost predicate MountsSent(volumes: seq<string>, mounts: seq<Option<Mount>>, names: seq<string>)
    requires |mounts| <= |names|
  {
    var at := PresentAt(mounts);
    && |volumes| == |at|
    && forall j :: 0 <= j < |at| ==>
         var m := mounts[at[j]].value;
         volumes[j] == "name=" + names[at[j]] + ",kind=host,source=" + m.hostPath + ",target=" + m.containerPath
                       + ",readOnly=" + (if m.readonly then "true" else "false")
  }

  lemma JoinFive(a: string, b: string, c: string, d: string, e: string)
    ensures Join([a, b, c, d, e], ',') == a + [','] + (b + [','] + (c + [','] + (d + [','] + e)))
  {
    assert [a, b, c, d, e][1..] == [b, c, d, e] && [b, c, d, e][1..] == [c, d, e];
    assert [c, d, e][1..] == [d, e] && [d, e][1..] == [e];
    assert Join([d, e], ',') == d + [','] + e;
    assert Join([c, d, e], ',') == c + [','] + Join([d, e], ',');
    assert Join([b, c, d, e], ',') == b + [','] + Join([c, d, e], ',');
  }

  lemma FlatText(volume: string, source: string, target: string, readOnly: string)
    ensures "name=" + volume + [','] + ("kind=host" + [','] + ("source=" + source + [',']
              + ("target=" + target + [','] + ("readOnly=" + readOnly))))
         == "name=" + volume + ",kind=host,source=" + source + ",target=" + target + ",readOnly=" + readOnly
  {
  }

  lemma MountText(volume: string, m: Mount)
    ensures MountValue(volume, m)
         == "name=" + volume + ",kind=host,source=" + m.hostPath + ",target=" + m.containerPath
            + ",readOnly=" + (if m.readonly then "true" else "false")
  {
    var f := MountFields(volume, m);
    JoinFive(f[0], f[1], f[2], f[3], f[4]);
    assert f == [f[0], f[1], f[2], f[3], f[4]];
    assert f[0] == "name=" + volume && f[1] == "kind=host" && f[2] == "source=" + m.hostPath;
    assert f[3] == "target=" + m.containerPath && f[4] == "readOnly=" + (if m.readonly then "true" else "false");
    FlatText(volume, m.hostPath, m.containerPath, if m.readonly then "true" else "false");
  }

  /** The program: its first word, the rest of its words and then its arguments behind the first `--`, the directory it
      runs in, and its mounts. */
  lemma ProgramAsRequested(req: CreateContainerRequest, image: string, imageID: string, w: AddWorld)
    requires Honest(req.config, w) && AppAddCommand(req, image, imageID, w).Ok?
    ensures
      var args, config := Arguments(req, image, imageID, w), req.config;
      var program := (if config.command == [] then [] else config.command[1..]) + config.args;
      && Values("exec", args) == (if config.command == [] then [] else [config.command[0]])
      && Rest(args) == (if program == [] then [] else program + ["---"])
      && Values("working-dir", args) == (if config.workingDir == "" then [] else [config.workingDir])
      && MountsSent(Values("mnt-volume", args), config.mounts, w.volumeNames)
  {
    Printed(req, image, imageID, w);
    AppAddMeaning(req.config, image, w);
    AppAddProgram(req.config, image, w);
    var at := PresentAt(req.config.mounts);
    forall j | 0 <= j < |at| {
      MountText(w.volumeNames[at[j]], req.config.mounts[at[j]].value);
    }
  }

  // ----- which requests are refused -----

  /** Every reason to refuse a request: no usable character in the name, a host path that cannot be provided, two users,
      capabilities that cannot be adjusted, and a seccomp profile that is not known. */
  lemma RefusedIff(req: CreateContainerRequest, image: string, imageID: string, w: AddWorld)
    requires Honest(req.config, w)
    ensures AppAddCommand(req, image, imageID, w).Err? <==>
      || Sanitize(req.config.name).Err?
      || (exists i :: 0 <= i < |req.config.mounts| && req.config.mounts[i].Some? && !w.hostPathReady[i])
      || match req.config.linux
         case Some(LinuxContainer(_, Some(sc))) =>
           || (sc.runAsUser.Some? && sc.runAsUsername != "")
           || (!sc.privileged && sc.capabilities.Some? && w.tweakedCapabilities.Err?)
           || (!sc.privileged && !KnownProfile(sc.seccompProfile, req.config.annotations, req.config.name))
         case _ => false
  {
    AcceptedIff(req, image, imageID, w);
  }

  /** The profile in force is the empty text, `unconfined` or `docker/default`. */
  predicate KnownProfile(profile: string, annotations: map<string, string>, name: string)
  {
    var own := "container.seccomp.security.alpha.kubernetes.io/" + name;
    var known := {"", "unconfined", "docker/default"};
    if profile != "" then profile in known
    else if own in annotations then annotations[own] in known
    else Lookup(annotations, "seccomp.security.alpha.kubernetes.io/pod") in known
  }
}
