/** The `rkt app add` command line: how rktlet prints a container request, and what the printed
    arguments mean to a parser. */
module AppAdd {
  import opened Wrappers
  import opened Text
  import opened Flags
  import opened FlagNames
  import opened Annotations
  import opened Cri
  import opened Identity
  import opened AcName
  import opened Volumes
  import Cpu

  const SECCOMP_UNCONFINED: string := "mode=retain,@appc.io/all"
  const SECCOMP_POD_KEY: string := "seccomp.security.alpha.kubernetes.io/pod"
  const SECCOMP_CONTAINER_PREFIX: string := "container.seccomp.security.alpha.kubernetes.io/"

  const UNSUPPORTED: string := "seccomp profile not supported"
  const TWO_USERS: string := "invalid request; both username and user fields of SecurityContext set"

  // ----- the parts of the command -----

  datatype SeccompChoice = Unconfined | Blank | Unsupported

  /** `Blank` is the empty argument rktlet prints for the profile `docker/default`. */
  function ChooseSeccomp(profilePath: string, annotations: map<string, string>, containerName: string): SeccompChoice
  {
    var own := SECCOMP_CONTAINER_PREFIX + containerName;
    var profile :=
      if profilePath != "" then profilePath
      else if own in annotations then annotations[own]
      else Lookup(annotations, SECCOMP_POD_KEY);
    if profile == "unconfined" || profile == "" then Unconfined
    else if profile == "docker/default" then Blank
    else Unsupported
  }

  function SeccompGroup(c: SeccompChoice): Group
  {
    if c.Blank? then Word("") else Valued(SECCOMP, [SECCOMP_UNCONFINED])
  }

  function LogPath(config: ContainerConfig, appName: string): string
  {
    "coreos.com/rkt/experiment/kubernetes-log-path=" +
    (if config.logPath == "" then appName + "_0.log" else config.logPath)
  }

  /** The volumes of the mounts that are not nil; fails on a host path that cannot be provided. */
  function MountValues(mounts: seq<Option<Mount>>, w: AddWorld): Result<seq<string>>
    requires |mounts| <= |w.volumeNames| && |mounts| <= |w.hostPathReady|
    decreases |mounts|
  {
    if mounts == [] then Ok([])
    else
      var i := |mounts| - 1;
      match MountValues(mounts[..i], w)
      case Err(e) => Err(e)
      case Ok(values) =>
        match mounts[i]
        case None => Ok(values)
        case Some(m) =>
          if w.hostPathReady[i] then Ok(values + [MountValue(w.volumeNames[i], m)])
          else Err("create volume HostPath failed")
  }

  function Numbers(ns: seq<Cpu.Int64>): seq<string>
  {
    seq(|ns|, i requires 0 <= i < |ns| => DecimalInt(ns[i]))
  }

  function HeadGroups(config: ContainerConfig, image: string, appName: string, w: AddWorld): (gs: seq<Group>)
    requires forall k :: k in w.labelOrder ==> k in config.labels
    requires forall k :: k in w.annotationOrder ==> k in config.annotations
    ensures AllValued(gs)
  {
    [Valued(ANNOTATION, [LogPath(config, appName)]),
     Valued(NAME, [appName]),
     Valued(STDIN, ["stream"]), Valued(STDOUT, ["stream"]), Valued(STDERR, ["stream"]),
     Valued(USER_ANNOTATION, Pairs(w.annotationOrder, config.annotations) + [Pair(IMAGE_NAME_KEY, image)]),
     Valued(USER_LABEL, Pairs(w.labelOrder, config.labels)),
     Valued(ENVIRONMENT, EnvValues(config.envs))]
  }

  function ResourceGroups(config: ContainerConfig): (gs: seq<Group>)
    ensures AllValued(gs)
  {
    if config.linux.None? || config.linux.value.resources.None? then []
    else
      var r := config.linux.value.resources.value;
      var milliCores := Cpu.CpuQuotaToMilliCores(r.cpuQuota, r.cpuPeriod);
      [Valued(CPU_SHARES, When(r.cpuShares > 0, DecimalInt(r.cpuShares))),
       Valued(CPU, When(milliCores > 0, DecimalInt(milliCores) + "m")),
       Valued(MEMORY, When(r.memoryLimit != 0, DecimalInt(r.memoryLimit))),
       Valued(OOM_SCORE_ADJ, When(r.oomScoreAdj != 0, DecimalInt(r.oomScoreAdj)))]
  }

  function CapabilityList(sc: ContainerSecurity, w: AddWorld): Result<seq<string>>
  {
    if sc.privileged then Ok(w.allCapabilities)
    else if sc.capabilities.None? then Ok([])
    else w.tweakedCapabilities
  }

  function SecurityOf(config: ContainerConfig): Option<ContainerSecurity>
  {
    if config.linux.None? then None else config.linux.value.security
  }

  function SeccompOf(config: ContainerConfig, sc: ContainerSecurity): SeccompChoice
  {
    if sc.privileged then Unconfined else ChooseSeccomp(sc.seccompProfile, config.annotations, config.name)
  }

  function RequestedUser(sc: ContainerSecurity): seq<string>
  {
    if sc.runAsUser.Some? then [DecimalInt(sc.runAsUser.value)] else When(sc.runAsUsername != "", sc.runAsUsername)
  }

  function IdentityGroups(sc: ContainerSecurity, caps: seq<string>): (gs: seq<Group>)
    ensures AllValued(gs)
  {
    [Valued(CAPS_RETAIN, When(caps != [], Join(caps, ','))),
     Valued(USER, RequestedUser(sc)),
     Valued(SUPPLEMENTARY_GIDS, When(sc.supplementalGroups != [], Join(Numbers(sc.supplementalGroups), ','))),
     Valued(READONLY_ROOTFS, When(sc.readonlyRootfs, "true"))]
  }

  function SecurityGroups(config: ContainerConfig, w: AddWorld): Result<seq<Group>>
  {
    match SecurityOf(config)
    case None => Ok([])
    case Some(sc) =>
      var seccomp := SeccompOf(config, sc);
      if seccomp.Unsupported? then Err(UNSUPPORTED)
      else
        match CapabilityList(sc, w)
        case Err(e) => Err(e)
        case Ok(caps) =>
          if sc.runAsUser.Some? && sc.runAsUsername != ""
          then Err(TWO_USERS)
          else Ok([SeccompGroup(seccomp)] + IdentityGroups(sc, caps))
  }

  function TailGroups(config: ContainerConfig, mounts: seq<string>): (gs: seq<Group>)
    ensures AllValued(gs)
  {
    [Valued(WORKING_DIR, When(config.workingDir != "", config.workingDir)),
     Valued(MNT_VOLUME, mounts),
     Valued(EXEC, config.command[..if |config.command| > 0 then 1 else 0])]
  }

  /** The arguments of the containerized program: everything but the command itself. */
  function ProgramArgs(config: ContainerConfig): seq<string>
  {
    (if config.command == [] then [] else config.command[1..]) + config.args
  }

  function Enclosed(args: seq<string>): seq<string>
  {
    if args == [] then [] else [END_OF_FLAGS] + args + ["---"]
  }

  function AppAddGroups(req: CreateContainerRequest, image: string, imageID: string, w: AddWorld): Result<seq<Group>>
    requires Honest(req.config, w)
  {
    match BuildAppName(req.config.attempt, req.config.name)
    case Err(e) => Err(e)
    case Ok(appName) =>
      match SecurityGroups(req.config, w)
      case Err(e) => Err(e)
      case Ok(security) =>
        match MountValues(req.config.mounts, w)
        case Err(e) => Err(e)
        case Ok(mounts) =>
          Ok(WordGroups(["app", "add", req.podSandboxId, imageID])
             + (HeadGroups(req.config, image, appName, w)
                + (ResourceGroups(req.config) + (security + TailGroups(req.config, mounts)))))
  }

  function AppAddCommand(req: CreateContainerRequest, image: string, imageID: string, w: AddWorld): Result<seq<string>>
    requires Honest(req.config, w)
  {
    match AppAddGroups(req, image, imageID, w)
    case Err(e) => Err(e)
    case Ok(groups) => Ok(Render(groups) + Enclosed(ProgramArgs(req.config)))
  }

  // ----- what the printed command means -----

  lemma AppendFlags(f: FlagName, a: seq<Group>, b: seq<Group>)
    ensures ValuesOf(f, a + b) == ValuesOf(f, a) + ValuesOf(f, b)
    ensures NoWords(a) ==> WordsOf(a + b) == WordsOf(b)
    ensures NoWords(b) ==> WordsOf(a + b) == WordsOf(a)
  {
    OfAppend(f, a, b);
    OfLacking(f, a);
    OfLacking(f, b);
  }

  /** What a reader finds in the sections between the ids and the program. */
  lemma SectionParts(f: FlagName, head: seq<Group>, resources: seq<Group>, security: seq<Group>, tail: seq<Group>)
    requires AllValued(head) && AllValued(resources) && Printable(security) && AllValued(tail)
    ensures
      var gs := head + (resources + (security + tail));
      && Printable(gs)
      && WordsOf(gs) == WordsOf(security)
      && ValuesOf(f, gs) == ValuesOf(f, head) + (ValuesOf(f, resources) + (ValuesOf(f, security) + ValuesOf(f, tail)))
  {
    AppendFlags(f, security, tail);
    AppendFlags(f, resources, security + tail);
    AppendFlags(f, head, resources + (security + tail));
  }

  lemma HeadValues(config: ContainerConfig, image: string, appName: string, w: AddWorld)
    requires Honest(config, w)
    ensures
      var h := HeadGroups(config, image, appName, w);
      && ValuesOf(NAME, h) == [appName]
      && ValuesOf(USER_ANNOTATION, h) == Pairs(w.annotationOrder, config.annotations) + [Pair(IMAGE_NAME_KEY, image)]
  {
    var h := HeadGroups(config, image, appName, w);
    SoleGroup(NAME, h[..1], h[1].values, h[2..]);
    assert h == h[..1] + [h[1]] + h[2..];
    SoleGroup(USER_ANNOTATION, h[..5], h[5].values, h[6..]);
    assert h == h[..5] + [h[5]] + h[6..];
  }

  lemma MoreHeadValues(config: ContainerConfig, image: string, appName: string, w: AddWorld)
    requires Honest(config, w)
    ensures
      var h := HeadGroups(config, image, appName, w);
      && ValuesOf(USER_LABEL, h) == Pairs(w.labelOrder, config.labels)
      && ValuesOf(ENVIRONMENT, h) == EnvValues(config.envs)
  {
    var h := HeadGroups(config, image, appName, w);
    SoleGroup(USER_LABEL, h[..6], h[6].values, h[7..]);
    assert h == h[..6] + [h[6]] + h[7..];
    SoleGroup(ENVIRONMENT, h[..7], h[7].values, h[8..]);
    assert h == h[..7] + [h[7]] + h[8..];
  }

  /** The requests for which a command is printed. */
  predicate Accepts(config: ContainerConfig, w: AddWorld)
    requires |w.hostPathReady| == |config.mounts|
  {
    && Sanitize(config.name).Ok?
    && (SecurityOf(config).Some? ==>
          var sc := SecurityOf(config).value;
          && !SeccompOf(config, sc).Unsupported?
          && CapabilityList(sc, w).Ok?
          && !(sc.runAsUser.Some? && sc.runAsUsername != ""))
    && AllReady(config.mounts, w)
  }

  /** Each mount that is not nil has a volume of its own, in order. */
  ghost predicate VolumesMatch(volumes: seq<string>, mounts: seq<Option<Mount>>, w: AddWorld)
    requires |mounts| <= |w.volumeNames|
  {
    var at := PresentAt(mounts);
    && |volumes| == |at|
    && forall j :: 0 <= j < |volumes| ==> volumes[j] == MountValue(w.volumeNames[at[j]], mounts[at[j]].value)
  }

  predicate AllReady(mounts: seq<Option<Mount>>, w: AddWorld)
    requires |mounts| <= |w.hostPathReady|
  {
    forall i :: 0 <= i < |mounts| && mounts[i].Some? ==> w.hostPathReady[i]
  }

  lemma {:induction false} OnlyMissingPathsFail(mounts: seq<Option<Mount>>, w: AddWorld)
    requires |mounts| <= |w.volumeNames| && |mounts| <= |w.hostPathReady|
    ensures MountValues(mounts, w).Ok? <==> AllReady(mounts, w)
    decreases |mounts|
  {
    if mounts != [] {
      var n := |mounts| - 1;
      OnlyMissingPathsFail(mounts[..n], w);
      assert forall i :: 0 <= i < n ==> mounts[..n][i] == mounts[i];
      assert AllReady(mounts, w) <==> AllReady(mounts[..n], w) && (mounts[n].Some? ==> w.hostPathReady[n]);
    }
  }

  lemma {:induction false} VolumesInOrder(mounts: seq<Option<Mount>>, w: AddWorld)
    requires |mounts| <= |w.volumeNames| && |mounts| <= |w.hostPathReady| && MountValues(mounts, w).Ok?
    ensures VolumesMatch(MountValues(mounts, w).value, mounts, w)
    decreases |mounts|
  {
    if mounts != [] {
      var before := MountValues(mounts[..|mounts| - 1], w).value;
      VolumesInOrder(mounts[..|mounts| - 1], w);
      VolumesStep(before, mounts, w);
      assert before + [] == before;
    }
  }

  /** Volumes come out one per mount that is not nil, in order, and only a missing host path fails. */
  lemma MountValuesMeaning(mounts: seq<Option<Mount>>, w: AddWorld)
    requires |mounts| <= |w.volumeNames| && |mounts| <= |w.hostPathReady|
    ensures MountValues(mounts, w).Ok? <==> AllReady(mounts, w)
    ensures MountValues(mounts, w).Ok? ==> VolumesMatch(MountValues(mounts, w).value, mounts, w)
  {
    OnlyMissingPathsFail(mounts, w);
    if MountValues(mounts, w).Ok? { VolumesInOrder(mounts, w); }
  }

  lemma VolumesStep(volumes: seq<string>, mounts: seq<Option<Mount>>, w: AddWorld)
    requires 0 < |mounts| <= |w.volumeNames| && VolumesMatch(volumes, mounts[..|mounts| - 1], w)
    ensures
      var n := |mounts| - 1;
      var more := if mounts[n].Some? then [MountValue(w.volumeNames[n], mounts[n].value)] else [];
      VolumesMatch(volumes + more, mounts, w)
  {
    var n := |mounts| - 1;
    var more := if mounts[n].Some? then [MountValue(w.volumeNames[n], mounts[n].value)] else [];
    var before, at := PresentAt(mounts[..n]), PresentAt(mounts);
    PresentStep(mounts);
    forall j | 0 <= j < |volumes + more|
      ensures (volumes + more)[j] == MountValue(w.volumeNames[at[j]], mounts[at[j]].value)
    {
      if j < |before| {
        assert at[j] == before[j] && mounts[..n][before[j]] == mounts[before[j]];
      }
    }
  }

  lemma AcceptedIff(req: CreateContainerRequest, image: string, imageID: string, w: AddWorld)
    requires Honest(req.config, w)
    ensures AppAddCommand(req, image, imageID, w).Ok? <==> Accepts(req.config, w)
  {
    MountValuesMeaning(req.config.mounts, w);
  }

  predicate BlankSeccomp(config: ContainerConfig)
  {
    SecurityOf(config).Some? && SeccompOf(config, SecurityOf(config).value).Blank?
  }

  lemma SecurityWords(f: FlagName, config: ContainerConfig, w: AddWorld)
    requires SecurityGroups(config, w).Ok?
    ensures WordsOf(SecurityGroups(config, w).value) == if BlankSeccomp(config) then [""] else []
    ensures Printable(SecurityGroups(config, w).value)
  {
    if SecurityOf(config).Some? {
      var sc := SecurityOf(config).value;
      var rest := IdentityGroups(sc, CapabilityList(sc, w).value);
      var g := SeccompGroup(SeccompOf(config, sc));
      AppendFlags(f, [g], rest);
      assert [g][1..] == [];
    }
  }

  lemma ReadEnclosed(f: FlagName, flags: seq<string>, args: seq<string>)
    requires END_OF_FLAGS !in flags
    ensures Words(flags + Enclosed(args)) == Words(flags)
    ensures Values(f, flags + Enclosed(args)) == Values(f, flags)
    ensures Rest(flags + Enclosed(args)) == if args == [] then [] else args + ["---"]
  {
    ReadAppend(f, flags, Enclosed(args));
    if args != [] {
      assert Enclosed(args)[0] == END_OF_FLAGS && Enclosed(args)[1..] == args + ["---"];
    }
  }

  function FlagGroups(config: ContainerConfig, image: string, w: AddWorld): seq<Group>
    requires Honest(config, w) && Accepts(config, w)
  {
    MountValuesMeaning(config.mounts, w);
    HeadGroups(config, image, BuildAppName(config.attempt, config.name).value, w)
    + (ResourceGroups(config)
       + (SecurityGroups(config, w).value + TailGroups(config, MountValues(config.mounts, w).value)))
  }

  /** Everything behind the two ids on the command line. */
  function Body(config: ContainerConfig, image: string, w: AddWorld): seq<string>
    requires Honest(config, w) && Accepts(config, w)
  {
    Render(FlagGroups(config, image, w)) + Enclosed(ProgramArgs(config))
  }

  lemma CommandShape(req: CreateContainerRequest, image: string, imageID: string, w: AddWorld)
    requires Honest(req.config, w) && Accepts(req.config, w)
    ensures AppAddCommand(req, image, imageID, w)
         == Ok(["app"] + (["add"] + ([req.podSandboxId] + ([imageID] + Body(req.config, image, w)))))
  {
    AcceptedIff(req, image, imageID, w);
    var words, flags := ["app", "add", req.podSandboxId, imageID], Render(FlagGroups(req.config, image, w));
    RenderWords(words);
    RenderAppend(WordGroups(words), FlagGroups(req.config, image, w));
    FourWords("app", "add", req.podSandboxId, imageID, flags, Enclosed(ProgramArgs(req.config)));
  }

  lemma FourWords(p: string, q: string, r: string, s: string, x: seq<string>, y: seq<string>)
    ensures [p, q, r, s] + x + y == [p] + ([q] + ([r] + ([s] + (x + y))))
  {
  }

  lemma ReadOne(f: FlagName, x: string, tail: seq<string>)
    ensures Words([x] + tail) == if x == END_OF_FLAGS then [] else if IsWord(x) then [x] + Words(tail) else Words(tail)
    ensures Values(f, [x] + tail) == if x == END_OF_FLAGS then [] else Values(f, [x]) + Values(f, tail)
    ensures IsWord(x) ==> Values(f, [x]) == []
    ensures Rest([x] + tail) == if x == END_OF_FLAGS then tail else Rest(tail)
  {
    assert ([x] + tail)[1..] == tail && [x][1..] == [];
    assert Prefix(f)[..2] == "--";
  }

  /** What a reader finds from the sandbox id on: nothing behind a `--`; and an id that looks like a flag
      is one. */
  function Behind(f: FlagName, sandbox: string, values: seq<string>): (r: seq<string>)
    ensures IsWord(sandbox) ==> r == values
  {
    ReadOne(f, sandbox, []);
    if sandbox == END_OF_FLAGS then [] else Values(f, [sandbox]) + values
  }

  function WordsBehind(sandbox: string, words: seq<string>): (r: seq<string>)
    ensures IsWord(sandbox) ==> r == [sandbox] + words
  {
    if IsWord(sandbox) then [sandbox] + words else if sandbox == END_OF_FLAGS then [] else words
  }

  lemma BehindAppAdd(f: FlagName, tail: seq<string>)
    ensures
      var cmd := ["app"] + (["add"] + tail);
      Words(cmd) == ["app", "add"] + Words(tail) && Values(f, cmd) == Values(f, tail) && Rest(cmd) == Rest(tail)
  {
    assert "app"[0] == 'a' && "add"[0] == 'a';
    ReadOne(f, "add", tail);
    ReadOne(f, "app", ["add"] + tail);
    assert ["app"] + (["add"] + Words(tail)) == ["app", "add"] + Words(tail);
  }

  lemma BehindIds(f: FlagName, sandbox: string, imageID: string, body: seq<string>)
    requires IsWord(imageID)
    ensures
      var cmd := ["app"] + (["add"] + ([sandbox] + ([imageID] + body)));
      && Words(cmd) == ["app", "add"] + WordsBehind(sandbox, [imageID] + Words(body))
      && Values(f, cmd) == Behind(f, sandbox, Values(f, body))
      && (sandbox != END_OF_FLAGS ==> Rest(cmd) == Rest(body))
  {
    var tail := [imageID] + body;
    ReadOne(f, imageID, body);
    ReadOne(f, sandbox, tail);
    BehindAppAdd(f, [sandbox] + tail);
  }

  lemma BodyParts(f: FlagName, config: ContainerConfig, image: string, w: AddWorld)
    requires Honest(config, w) && Accepts(config, w)
    ensures MountValues(config.mounts, w).Ok? && SecurityGroups(config, w).Ok?
    ensures BuildAppName(config.attempt, config.name).Ok?
    ensures Words(Body(config, image, w)) == (if BlankSeccomp(config) then [""] else [])
    ensures Values(f, Body(config, image, w))
         == ValuesOf(f, HeadGroups(config, image, BuildAppName(config.attempt, config.name).value, w))
            + (ValuesOf(f, ResourceGroups(config))
               + (ValuesOf(f, SecurityGroups(config, w).value)
                  + ValuesOf(f, TailGroups(config, MountValues(config.mounts, w).value))))
    ensures Rest(Body(config, image, w)) == (if ProgramArgs(config) == [] then [] else ProgramArgs(config) + ["---"])
  {
    MountValuesMeaning(config.mounts, w);
    SecurityWords(f, config, w);
    SectionParts(f, HeadGroups(config, image, BuildAppName(config.attempt, config.name).value, w),
                 ResourceGroups(config), SecurityGroups(config, w).value,
                 TailGroups(config, MountValues(config.mounts, w).value));
    ReadRender(f, FlagGroups(config, image, w));
    ReadEnclosed(f, Render(FlagGroups(config, image, w)), ProgramArgs(config));
  }

  /** Reading a whole command: the words, and for every flag the values given behind the ids, for any
      sandbox id whatsoever. */
  lemma CommandReads(f: FlagName, req: CreateContainerRequest, image: string, imageID: string, w: AddWorld)
    requires Honest(req.config, w) && Accepts(req.config, w) && IsWord(imageID)
    ensures
      var cmd, p, body := AppAddCommand(req, image, imageID, w), req.podSandboxId, Body(req.config, image, w);
      && cmd.Ok?
      && Words(cmd.value) == ["app", "add"] + WordsBehind(p, [imageID] + Words(body))
      && Values(f, cmd.value) == Behind(f, p, Values(f, body))
      && (p != END_OF_FLAGS ==> Rest(cmd.value) == Rest(body))
  {
    CommandShape(req, image, imageID, w);
    BehindIds(f, req.podSandboxId, imageID, Body(req.config, image, w));
  }

  // Each flag is used by one section of the command only.

  const HEAD_NAMES: set<string> := {ANNOTATION, NAME, STDIN, STDOUT, STDERR, USER_ANNOTATION, USER_LABEL, ENVIRONMENT}
  const RESOURCE_NAMES: set<string> := {CPU_SHARES, CPU, MEMORY, OOM_SCORE_ADJ}
  const SECURITY_NAMES: set<string> := {SECCOMP, CAPS_RETAIN, USER, SUPPLEMENTARY_GIDS, READONLY_ROOTFS}
  const TAIL_NAMES: set<string> := {WORKING_DIR, MNT_VOLUME, EXEC}

  lemma HeadNamesAlone()
    ensures HEAD_NAMES !! RESOURCE_NAMES && HEAD_NAMES !! TAIL_NAMES
  {
  }

  lemma SecurityNamesAlone()
    ensures SECURITY_NAMES !! HEAD_NAMES && SECURITY_NAMES !! TAIL_NAMES
  {
  }

  lemma ResourceNamesAlone()
    ensures RESOURCE_NAMES !! SECURITY_NAMES && RESOURCE_NAMES !! TAIL_NAMES
  {
  }

  lemma NotInHead(f: FlagName, config: ContainerConfig, image: string, appName: string, w: AddWorld)
    requires Honest(config, w) && f !in HEAD_NAMES
    ensures ValuesOf(f, HeadGroups(config, image, appName, w)) == []
  {
    OfLacking(f, HeadGroups(config, image, appName, w));
  }

  lemma NotInResources(f: FlagName, config: ContainerConfig)
    requires f !in RESOURCE_NAMES
    ensures ValuesOf(f, ResourceGroups(config)) == []
  {
    OfLacking(f, ResourceGroups(config));
  }

  lemma NotInSecurity(f: FlagName, config: ContainerConfig, w: AddWorld)
    requires SecurityGroups(config, w).Ok? && f !in SECURITY_NAMES
    ensures ValuesOf(f, SecurityGroups(config, w).value) == []
  {
    OfLacking(f, SecurityGroups(config, w).value);
  }

  lemma NotInTail(f: FlagName, config: ContainerConfig, mounts: seq<string>)
    requires f !in TAIL_NAMES
    ensures ValuesOf(f, TailGroups(config, mounts)) == []
  {
    OfLacking(f, TailGroups(config, mounts));
  }

  /** The section of the command that speaks for a flag. */
  function SectionOf(f: FlagName, config: ContainerConfig, image: string, w: AddWorld): seq<Group>
    requires Honest(config, w) && Accepts(config, w)
  {
    MountValuesMeaning(config.mounts, w);
    if f in HEAD_NAMES then HeadGroups(config, image, BuildAppName(config.attempt, config.name).value, w)
    else if f in RESOURCE_NAMES then ResourceGroups(config)
    else if f in SECURITY_NAMES then SecurityGroups(config, w).value
    else if f in TAIL_NAMES then TailGroups(config, MountValues(config.mounts, w).value)
    else []
  }

  lemma OneSection(f: FlagName, config: ContainerConfig, image: string, w: AddWorld)
    requires Honest(config, w) && Accepts(config, w)
    ensures Values(f, Body(config, image, w)) == ValuesOf(f, SectionOf(f, config, image, w))
  {
    HeadNamesAlone();
    SecurityNamesAlone();
    ResourceNamesAlone();
    BodyParts(f, config, image, w);
    if f !in HEAD_NAMES { NotInHead(f, config, image, BuildAppName(config.attempt, config.name).value, w); }
    if f !in RESOURCE_NAMES { NotInResources(f, config); }
    if f !in SECURITY_NAMES { NotInSecurity(f, config, w); }
    if f !in TAIL_NAMES { NotInTail(f, config, MountValues(config.mounts, w).value); }
  }

  lemma ResourceValues(config: ContainerConfig)
    requires config.linux.Some? && config.linux.value.resources.Some?
    ensures
      var g, r := ResourceGroups(config), config.linux.value.resources.value;
      var milliCores := Cpu.CpuQuotaToMilliCores(r.cpuQuota, r.cpuPeriod);
      && ValuesOf(CPU_SHARES, g) == When(r.cpuShares > 0, DecimalInt(r.cpuShares))
      && ValuesOf(CPU, g) == When(milliCores > 0, DecimalInt(milliCores) + "m")
      && ValuesOf(MEMORY, g) == When(r.memoryLimit != 0, DecimalInt(r.memoryLimit))
      && ValuesOf(OOM_SCORE_ADJ, g) == When(r.oomScoreAdj != 0, DecimalInt(r.oomScoreAdj))
  {
    var g := ResourceGroups(config);
    SoleGroup(CPU_SHARES, g[..0], g[0].values, g[1..]);
    assert g == g[..0] + [g[0]] + g[1..];
    SoleGroup(CPU, g[..1], g[1].values, g[2..]);
    assert g == g[..1] + [g[1]] + g[2..];
    SoleGroup(MEMORY, g[..2], g[2].values, g[3..]);
    assert g == g[..2] + [g[2]] + g[3..];
    SoleGroup(OOM_SCORE_ADJ, g[..3], g[3].values, g[4..]);
    assert g == g[..3] + [g[3]] + g[4..];
  }

  lemma IdentityValues(sc: ContainerSecurity, caps: seq<string>)
    ensures
      var g := IdentityGroups(sc, caps);
      && ValuesOf(CAPS_RETAIN, g) == When(caps != [], Join(caps, ','))
      && ValuesOf(USER, g) == RequestedUser(sc)
      && ValuesOf(SUPPLEMENTARY_GIDS, g)
         == When(sc.supplementalGroups != [], Join(Numbers(sc.supplementalGroups), ','))
      && ValuesOf(READONLY_ROOTFS, g) == When(sc.readonlyRootfs, "true")
  {
    var g := IdentityGroups(sc, caps);
    SoleGroup(CAPS_RETAIN, g[..0], g[0].values, g[1..]);
    assert g == g[..0] + [g[0]] + g[1..];
    SoleGroup(USER, g[..1], g[1].values, g[2..]);
    assert g == g[..1] + [g[1]] + g[2..];
    SoleGroup(SUPPLEMENTARY_GIDS, g[..2], g[2].values, g[3..]);
    assert g == g[..2] + [g[2]] + g[3..];
    SoleGroup(READONLY_ROOTFS, g[..3], g[3].values, g[4..]);
    assert g == g[..3] + [g[3]] + g[4..];
  }

  lemma SeccompFirst(f: FlagName, c: SeccompChoice, rest: seq<Group>)
    ensures ValuesOf(f, [SeccompGroup(c)] + rest)
         == if f == SECCOMP && !c.Blank? then [SECCOMP_UNCONFINED] + ValuesOf(f, rest) else ValuesOf(f, rest)
  {
    assert ([SeccompGroup(c)] + rest)[1..] == rest;
  }

  lemma TailValues(config: ContainerConfig, mounts: seq<string>)
    ensures
      var t := TailGroups(config, mounts);
      && ValuesOf(EXEC, t) == (if config.command == [] then [] else [config.command[0]])
      && ValuesOf(MNT_VOLUME, t) == mounts
      && ValuesOf(WORKING_DIR, t) == When(config.workingDir != "", config.workingDir)
  {
    var t := TailGroups(config, mounts);
    SoleGroup(WORKING_DIR, t[..0], t[0].values, t[1..]);
    assert t == t[..0] + [t[0]] + t[1..];
    SoleGroup(MNT_VOLUME, t[..1], mounts, t[2..]);
    assert t == t[..1] + [t[1]] + t[2..];
    SoleGroup(EXEC, t[..2], t[2].values, t[3..]);
    assert t == t[..2] + [t[2]] + t[3..];
  }

  lemma HeadSection(f: FlagName, config: ContainerConfig, image: string, w: AddWorld)
    requires Honest(config, w) && Accepts(config, w) && f in HEAD_NAMES
    ensures Values(f, Body(config, image, w))
         == ValuesOf(f, HeadGroups(config, image, BuildAppName(config.attempt, config.name).value, w))
  {
    OneSection(f, config, image, w);
  }

  /** What rkt learns behind the ids: a stray empty word for the profile `docker/default`, the app name,
      the user's annotations followed by the image name, the labels and the environment, and the program
      with all its arguments, whatever these contain. */
  lemma AppAddMeaning(config: ContainerConfig, image: string, w: AddWorld)
    requires Honest(config, w) && Accepts(config, w)
    ensures
      var body := Body(config, image, w);
      && Words(body) == (if BlankSeccomp(config) then [""] else [])
      && Values(NAME, body) == [BuildAppName(config.attempt, config.name).value]
      && Values(USER_ANNOTATION, body) == Pairs(w.annotationOrder, config.annotations) + [Pair(IMAGE_NAME_KEY, image)]
      && Values(USER_LABEL, body) == Pairs(w.labelOrder, config.labels)
      && Values(ENVIRONMENT, body) == EnvValues(config.envs)
      && Rest(body) == (if ProgramArgs(config) == [] then [] else ProgramArgs(config) + ["---"])
  {
    BodyParts(NAME, config, image, w);
    HeadSection(NAME, config, image, w);
    HeadSection(USER_ANNOTATION, config, image, w);
    HeadSection(USER_LABEL, config, image, w);
    HeadSection(ENVIRONMENT, config, image, w);
    HeadValues(config, image, BuildAppName(config.attempt, config.name).value, w);
    MoreHeadValues(config, image, BuildAppName(config.attempt, config.name).value, w);
  }

  lemma TailSection(f: FlagName, config: ContainerConfig, image: string, w: AddWorld)
    requires Honest(config, w) && Accepts(config, w) && f in TAIL_NAMES
    ensures MountValues(config.mounts, w).Ok?
    ensures Values(f, Body(config, image, w)) == ValuesOf(f, TailGroups(config, MountValues(config.mounts, w).value))
  {
    MountValuesMeaning(config.mounts, w);
    OneSection(f, config, image, w);
    HeadNamesAlone();
    SecurityNamesAlone();
    ResourceNamesAlone();
  }

  /** The program is the first word of the command, its volumes are the mounts that are not nil, in
      order, and it runs in the requested directory. */
  lemma AppAddProgram(config: ContainerConfig, image: string, w: AddWorld)
    requires Honest(config, w) && Accepts(config, w)
    ensures
      var body := Body(config, image, w);
      && Values(EXEC, body) == (if config.command == [] then [] else [config.command[0]])
      && Values(WORKING_DIR, body) == When(config.workingDir != "", config.workingDir)
      && VolumesMatch(Values(MNT_VOLUME, body), config.mounts, w)
  {
    TailSection(EXEC, config, image, w);
    TailSection(WORKING_DIR, config, image, w);
    TailSection(MNT_VOLUME, config, image, w);
    TailValues(config, MountValues(config.mounts, w).value);
    MountValuesMeaning(config.mounts, w);
  }

  lemma ResourceSection(f: FlagName, config: ContainerConfig, image: string, w: AddWorld)
    requires Honest(config, w) && Accepts(config, w) && f in RESOURCE_NAMES
    ensures Values(f, Body(config, image, w)) == ValuesOf(f, ResourceGroups(config))
  {
    OneSection(f, config, image, w);
    HeadNamesAlone();
  }

  /** Resource limits: each is sent under its own flag, and the CPU limit, short of overflow, exactly when
      it amounts to a millicore. */
  lemma AppAddLimits(config: ContainerConfig, image: string, w: AddWorld)
    requires Honest(config, w) && Accepts(config, w)
    requires config.linux.Some? && config.linux.value.resources.Some?
    ensures
      var body, r := Body(config, image, w), config.linux.value.resources.value;
      var milliCores := Cpu.CpuQuotaToMilliCores(r.cpuQuota, r.cpuPeriod);
      && Values(CPU, body) == When(milliCores > 0, DecimalInt(milliCores) + "m")
      && (Cpu.NoOverflow(r.cpuQuota) ==> (Values(CPU, body) != [] <==> Cpu.Reaches(1000 * r.cpuQuota, r.cpuPeriod)))
      && Values(CPU_SHARES, body) == When(r.cpuShares > 0, DecimalInt(r.cpuShares))
      && Values(MEMORY, body) == When(r.memoryLimit != 0, DecimalInt(r.memoryLimit))
      && Values(OOM_SCORE_ADJ, body) == When(r.oomScoreAdj != 0, DecimalInt(r.oomScoreAdj))
  {
    var r := config.linux.value.resources.value;
    ResourceSection(CPU, config, image, w);
    ResourceSection(CPU_SHARES, config, image, w);
    ResourceSection(MEMORY, config, image, w);
    ResourceSection(OOM_SCORE_ADJ, config, image, w);
    ResourceValues(config);
    if Cpu.NoOverflow(r.cpuQuota) { Cpu.CpuFlagWithoutOverflow(r.cpuQuota, r.cpuPeriod); }
  }

  lemma SecuritySection(f: FlagName, config: ContainerConfig, image: string, w: AddWorld)
    requires Honest(config, w) && Accepts(config, w) && SecurityOf(config).Some? && f in SECURITY_NAMES
    ensures
      var sc := SecurityOf(config).value;
      Values(f, Body(config, image, w))
      == When(f == SECCOMP && !BlankSeccomp(config), SECCOMP_UNCONFINED)
         + ValuesOf(f, IdentityGroups(sc, CapabilityList(sc, w).value))
  {
    var sc := SecurityOf(config).value;
    OneSection(f, config, image, w);
    SecurityNamesAlone();
    ResourceNamesAlone();
    SeccompFirst(f, SeccompOf(config, sc), IdentityGroups(sc, CapabilityList(sc, w).value));
  }

  lemma SeccompSent(config: ContainerConfig, image: string, w: AddWorld)
    requires Honest(config, w) && Accepts(config, w) && SecurityOf(config).Some?
    ensures Values(SECCOMP, Body(config, image, w)) == When(!BlankSeccomp(config), SECCOMP_UNCONFINED)
  {
    var sc := SecurityOf(config).value;
    SecuritySection(SECCOMP, config, image, w);
    NoSeccompInIdentity(sc, CapabilityList(sc, w).value);
  }

  lemma NoSeccompInIdentity(sc: ContainerSecurity, caps: seq<string>)
    ensures ValuesOf(SECCOMP, IdentityGroups(sc, caps)) == []
  {
    OfLacking(SECCOMP, IdentityGroups(sc, caps));
  }

  /** Confinement: a privileged container keeps every capability and is never confined. */
  lemma AppAddConfinement(config: ContainerConfig, image: string, w: AddWorld)
    requires Honest(config, w) && Accepts(config, w) && SecurityOf(config).Some?
    ensures
      var body, sc := Body(config, image, w), SecurityOf(config).value;
      var caps := CapabilityList(sc, w).value;
      && Values(SECCOMP, body) == When(!BlankSeccomp(config), SECCOMP_UNCONFINED)
      && (sc.privileged ==> !BlankSeccomp(config) && caps == w.allCapabilities)
      && Values(CAPS_RETAIN, body) == When(caps != [], Join(caps, ','))
  {
    var sc := SecurityOf(config).value;
    SeccompSent(config, image, w);
    SecuritySection(CAPS_RETAIN, config, image, w);
    IdentityValues(sc, CapabilityList(sc, w).value);
  }

  /** Identity: at most one user is sent, with the groups and the read-only flag. */
  lemma AppAddIdentity(config: ContainerConfig, image: string, w: AddWorld)
    requires Honest(config, w) && Accepts(config, w) && SecurityOf(config).Some?
    ensures
      var body, sc := Body(config, image, w), SecurityOf(config).value;
      && Values(USER, body) == RequestedUser(sc)
      && (sc.runAsUser.Some? ==> sc.runAsUsername == "")
      && Values(SUPPLEMENTARY_GIDS, body)
         == When(sc.supplementalGroups != [], Join(Numbers(sc.supplementalGroups), ','))
      && Values(READONLY_ROOTFS, body) == When(sc.readonlyRootfs, "true")
  {
    var sc := SecurityOf(config).value;
    SecuritySection(USER, config, image, w);
    SecuritySection(SUPPLEMENTARY_GIDS, config, image, w);
    SecuritySection(READONLY_ROOTFS, config, image, w);
    IdentityValues(sc, CapabilityList(sc, w).value);
  }

  lemma LogValues(config: ContainerConfig, image: string, appName: string, w: AddWorld)
    requires Honest(config, w)
    ensures
      var h := HeadGroups(config, image, appName, w);
      ValuesOf(ANNOTATION, h) == [LogPath(config, appName)] && ValuesOf(STDIN, h) == ["stream"]
  {
    var h := HeadGroups(config, image, appName, w);
    SoleGroup(ANNOTATION, h[..0], h[0].values, h[1..]);
    assert h == h[..0] + [h[0]] + h[1..];
    SoleGroup(STDIN, h[..2], h[2].values, h[3..]);
    assert h == h[..2] + [h[2]] + h[3..];
  }

  lemma OutputValues(config: ContainerConfig, image: string, appName: string, w: AddWorld)
    requires Honest(config, w)
    ensures
      var h := HeadGroups(config, image, appName, w);
      ValuesOf(STDOUT, h) == ["stream"] && ValuesOf(STDERR, h) == ["stream"]
  {
    var h := HeadGroups(config, image, appName, w);
    SoleGroup(STDOUT, h[..3], h[3].values, h[4..]);
    assert h == h[..3] + [h[3]] + h[4..];
    SoleGroup(STDERR, h[..4], h[4].values, h[5..]);
    assert h == h[..4] + [h[4]] + h[5..];
  }

  /** Input and output: all three streams are attached, and the log goes to the requested path or to one
      named after the app. */
  lemma AppAddStreams(config: ContainerConfig, image: string, w: AddWorld)
    requires Honest(config, w) && Accepts(config, w)
    ensures
      var body := Body(config, image, w);
      && Values(STDIN, body) == ["stream"] && Values(STDOUT, body) == ["stream"] && Values(STDERR, body) == ["stream"]
      && Values(ANNOTATION, body) == [LogPath(config, BuildAppName(config.attempt, config.name).value)]
  {
    HeadSection(STDIN, config, image, w);
    HeadSection(STDOUT, config, image, w);
    HeadSection(STDERR, config, image, w);
    HeadSection(ANNOTATION, config, image, w);
    LogValues(config, image, BuildAppName(config.attempt, config.name).value, w);
    OutputValues(config, image, BuildAppName(config.attempt, config.name).value, w);
  }

  // ----- where the program's arguments start -----

  /** rkt takes exactly the program's arguments, whatever they contain, for the text between the first
      `--` and the final `---` if and only if neither id is itself `--`. */
  lemma ProgramSeparatedIff(req: CreateContainerRequest, image: string, imageID: string, w: AddWorld)
    requires Honest(req.config, w) && Accepts(req.config, w)
    ensures
      var cmd, args := AppAddCommand(req, image, imageID, w), ProgramArgs(req.config);
      && cmd.Ok?
      && (Rest(cmd.value) == (if args == [] then [] else args + ["---"]) <==>
            req.podSandboxId != END_OF_FLAGS && imageID != END_OF_FLAGS)
  {
    CommandShape(req, image, imageID, w);
    BodyParts(NAME, req.config, image, w);
    BodyIsLonger(req.config, image, w);
    RestBehindWords(req.podSandboxId, imageID, Body(req.config, image, w));
  }

  lemma BodyIsLonger(config: ContainerConfig, image: string, w: AddWorld)
    requires Honest(config, w) && Accepts(config, w)
    ensures |Rest(Body(config, image, w))| < |Body(config, image, w)|
  {
    BodyParts(NAME, config, image, w);
    AppAddMeaning(config, image, w);
    assert Values(NAME, Body(config, image, w)) != [];
    RestIsShorter(Body(config, image, w));
  }

  lemma {:induction false} RestIsShorter(args: seq<string>)
    requires args != []
    ensures |Rest(args)| < |args|
  {
    if args[0] != END_OF_FLAGS && |args| > 1 {
      RestIsShorter(args[1..]);
    }
  }

  lemma RestBehindWords(p: string, q: string, body: seq<string>)
    requires |Rest(body)| < |body|
    ensures Rest(["app"] + (["add"] + ([p] + ([q] + body)))) == Rest(body) <==> p != END_OF_FLAGS && q != END_OF_FLAGS
  {
    ReadOne(NAME, q, body);
    ReadOne(NAME, p, [q] + body);
    BehindAppAdd(NAME, [p] + ([q] + body));
  }
}
