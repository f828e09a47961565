/** Assembling the `rkt app add` command by appending, proved against the command AppAdd specifies. */
module AppAddBuilder {
  import opened Wrappers
  import opened Text
  import opened Lists
  import opened Flags
  import opened FlagNames
  import opened Annotations
  import opened Cri
  import opened Identity
  import opened AppAdd
  import opened Volumes
  import Cpu

  method AppendHead(cmd: seq<string>, config: ContainerConfig, image: string, appName: string, w: AddWorld)
    returns (out: seq<string>)
    requires Honest(config, w)
    ensures out == cmd + Render(HeadGroups(config, image, appName, w))
  {
    var labels := FormatPairs(w.labelOrder, config.labels);
    var annotations := FormatPairs(w.annotationOrder, config.annotations);
    annotations := annotations + [Pair(IMAGE_NAME_KEY, image)];
    var logged := AppendEach(cmd, ANNOTATION, [LogPath(config, appName)]);
    var named := AppendEach(logged, NAME, [appName]);
    var input := AppendEach(named, STDIN, ["stream"]);
    var output := AppendEach(input, STDOUT, ["stream"]);
    var errors := AppendEach(output, STDERR, ["stream"]);
    var annotated := AppendEach(errors, USER_ANNOTATION, annotations);
    var labelled := AppendEach(annotated, USER_LABEL, labels);
    out := AppendEnvironment(labelled, config.envs);
    RenderFold([cmd, logged, named, input, output, errors, annotated, labelled, out],
               HeadGroups(config, image, appName, w));
  }

  method AppendEnvironment(cmd: seq<string>, envs: seq<KeyValue>) returns (out: seq<string>)
    ensures out == cmd + Emit(ENVIRONMENT, EnvValues(envs))
  {
    out := cmd;
    for i := 0 to |envs|
      invariant out == cmd + Emit(ENVIRONMENT, EnvValues(envs[..i]))
    {
      out := out + [Flag(ENVIRONMENT, Pair(envs[i].key, envs[i].value))];
      assert EnvValues(envs[..i + 1]) == EnvValues(envs[..i]) + [Pair(envs[i].key, envs[i].value)];
      EmitSnoc(ENVIRONMENT, EnvValues(envs[..i]), Pair(envs[i].key, envs[i].value));
    }
    assert envs[..|envs|] == envs;
  }

  lemma EmitSnoc(f: FlagName, values: seq<string>, v: string)
    ensures Emit(f, values + [v]) == Emit(f, values) + [Flag(f, v)]
  {
  }

  method AppendResources(cmd: seq<string>, config: ContainerConfig) returns (out: seq<string>)
    ensures out == cmd + Render(ResourceGroups(config))
  {
    out := cmd;
    if config.linux.Some? && config.linux.value.resources.Some? {
      var r := config.linux.value.resources.value;
      var cpuMilliCores := Cpu.CpuQuotaToMilliCores(r.cpuQuota, r.cpuPeriod);
      var shares := AppendWhen(cmd, r.cpuShares > 0, CPU_SHARES, DecimalInt(r.cpuShares));
      var cpu := AppendWhen(shares, cpuMilliCores > 0, CPU, DecimalInt(cpuMilliCores) + "m");
      var memory := AppendWhen(cpu, r.memoryLimit != 0, MEMORY, DecimalInt(r.memoryLimit));
      out := AppendWhen(memory, r.oomScoreAdj != 0, OOM_SCORE_ADJ, DecimalInt(r.oomScoreAdj));
      RenderFold([cmd, shares, cpu, memory, out], ResourceGroups(config));
    }
  }

  method AppendUser(cmd: seq<string>, sc: ContainerSecurity) returns (out: seq<string>)
    requires !(sc.runAsUser.Some? && sc.runAsUsername != "")
    ensures out == cmd + Emit(USER, RequestedUser(sc))
  {
    out := cmd;
    if sc.runAsUser.Some? {
      out := AppendEach(out, USER, [DecimalInt(sc.runAsUser.value)]);
    }
    if sc.runAsUsername != "" {
      out := AppendEach(out, USER, [sc.runAsUsername]);
    }
    EmitNothing(cmd);
  }

  method AppendIdentity(cmd: seq<string>, sc: ContainerSecurity, caps: seq<string>) returns (out: seq<string>)
    requires !(sc.runAsUser.Some? && sc.runAsUsername != "")
    ensures out == cmd + Render(IdentityGroups(sc, caps))
  {
    var capped := AppendWhen(cmd, caps != [], CAPS_RETAIN, Join(caps, ','));
    var user := AppendUser(capped, sc);
    var gids := FormatNumbers(sc.supplementalGroups);
    var groups := AppendWhen(user, sc.supplementalGroups != [], SUPPLEMENTARY_GIDS, Join(gids, ','));
    out := AppendWhen(groups, sc.readonlyRootfs, READONLY_ROOTFS, "true");
    RenderFold([cmd, capped, user, groups, out], IdentityGroups(sc, caps));
  }

  /** What SecurityGroups makes of the choices. */
  lemma SecurityChoices(config: ContainerConfig, sc: ContainerSecurity, w: AddWorld)
    requires SecurityOf(config) == Some(sc)
    ensures
      var seccomp, caps := SeccompOf(config, sc), CapabilityList(sc, w);
      SecurityGroups(config, w) ==
        if seccomp.Unsupported? then Err(UNSUPPORTED)
        else if caps.Err? then Err(caps.error)
        else if sc.runAsUser.Some? && sc.runAsUsername != "" then Err(TWO_USERS)
        else Ok([SeccompGroup(seccomp)] + IdentityGroups(sc, caps.value))
  {
  }

  method AppendSecurity(cmd: seq<string>, config: ContainerConfig, w: AddWorld) returns (r: Result<seq<string>>)
    ensures r == match SecurityGroups(config, w) case Err(e) => Err(e) case Ok(g) => Ok(cmd + Render(g))
  {
    if SecurityOf(config).None? {
      assert cmd + Render([]) == cmd;
      return Ok(cmd);
    }
    var sc := SecurityOf(config).value;
    SecurityChoices(config, sc, w);
    var caps := [];
    var seccomp := Unconfined;
    if sc.privileged {
      caps := w.allCapabilities;
    } else {
      seccomp := ChooseSeccomp(sc.seccompProfile, config.annotations, config.name);
      if seccomp.Unsupported? {
        return Err(UNSUPPORTED);
      }
      if sc.capabilities.Some? {
        if w.tweakedCapabilities.Err? {
          return Err(w.tweakedCapabilities.error);
        }
        caps := w.tweakedCapabilities.value;
      }
    }
    if sc.runAsUser.Some? && sc.runAsUsername != "" {
      return Err(TWO_USERS);
    }
    var out := AppendChoices(cmd, seccomp, sc, caps);
    return Ok(out);
  }

  method AppendChoices(cmd: seq<string>, seccomp: SeccompChoice, sc: ContainerSecurity, caps: seq<string>)
    returns (out: seq<string>)
    requires !seccomp.Unsupported? && !(sc.runAsUser.Some? && sc.runAsUsername != "")
    ensures out == cmd + Render([SeccompGroup(seccomp)] + IdentityGroups(sc, caps))
  {
    var seccompArgs := if seccomp.Blank? then [""] else [Flag(SECCOMP, SECCOMP_UNCONFINED)];
    assert seccompArgs == RenderGroup(SeccompGroup(seccomp));
    out := AppendIdentity(cmd + seccompArgs, sc, caps);
    RenderSeccomp(cmd, seccomp, IdentityGroups(sc, caps));
  }

  lemma RenderSeccomp(cmd: seq<string>, c: SeccompChoice, g: seq<Group>)
    ensures cmd + RenderGroup(SeccompGroup(c)) + Render(g) == cmd + Render([SeccompGroup(c)] + g)
  {
    assert ([SeccompGroup(c)] + g)[1..] == g;
  }

  method FormatNumbers(ns: seq<Cpu.Int64>) returns (texts: seq<string>)
    ensures texts == Numbers(ns)
  {
    texts := [];
    for i := 0 to |ns|
      invariant texts == Numbers(ns[..i])
    {
      texts := texts + [DecimalInt(ns[i])];
    }
    assert ns[..|ns|] == ns;
  }

  lemma {:induction false} MountErrorPersists(mounts: seq<Option<Mount>>, i: nat, w: AddWorld)
    requires i <= |mounts| <= |w.volumeNames| && |mounts| <= |w.hostPathReady|
    requires MountValues(mounts[..i], w).Err?
    ensures MountValues(mounts, w) == MountValues(mounts[..i], w)
    decreases |mounts|
  {
    if i == |mounts| {
      assert mounts[..i] == mounts;
    } else {
      assert mounts[..|mounts| - 1][..i] == mounts[..i];
      MountErrorPersists(mounts[..|mounts| - 1], i, w);
    }
  }

  method AppendMounts(cmd: seq<string>, mounts: seq<Option<Mount>>, w: AddWorld) returns (r: Result<seq<string>>)
    requires |mounts| <= |w.volumeNames| && |mounts| <= |w.hostPathReady|
    ensures r ==
      match MountValues(mounts, w) case Err(e) => Err(e) case Ok(values) => Ok(cmd + Emit(MNT_VOLUME, values))
  {
    var out := cmd;
    for i := 0 to |mounts|
      invariant MountValues(mounts[..i], w).Ok?
      invariant out == cmd + Emit(MNT_VOLUME, MountValues(mounts[..i], w).value)
    {
      assert mounts[..i + 1][..i] == mounts[..i];
      if mounts[i].None? {
        continue;
      }
      if !w.hostPathReady[i] {
        MountErrorPersists(mounts, i + 1, w);
        return Err("create volume HostPath failed");
      }
      var value := MountValue(w.volumeNames[i], mounts[i].value);
      EmitSnoc(MNT_VOLUME, MountValues(mounts[..i], w).value, value);
      out := out + [Flag(MNT_VOLUME, value)];
    }
    assert mounts[..|mounts|] == mounts;
    return Ok(out);
  }

  /** The whole command. */
  method GenerateAppAddCommand(req: CreateContainerRequest, image: string, imageID: string, w: AddWorld)
    returns (r: Result<seq<string>>)
    requires Honest(req.config, w)
    ensures r == AppAddCommand(req, image, imageID, w)
  {
    var config := req.config;
    var built := BuildAppName(config.attempt, config.name);
    if built.Err? {
      return Err(built.error);
    }
    var words := ["app", "add", req.podSandboxId, imageID];
    var cmd := AppendHead(words, config, image, built.value, w);
    cmd := AppendResources(cmd, config);
    var secured := AppendSecurity(cmd, config, w);
    if secured.Err? {
      return Err(secured.error);
    }
    cmd := AppendWhen(secured.value, config.workingDir != "", WORKING_DIR, config.workingDir);
    var mounted := AppendMounts(cmd, config.mounts, w);
    if mounted.Err? {
      return Err(mounted.error);
    }
    cmd := AppendEach(mounted.value, EXEC, config.command[..if |config.command| > 0 then 1 else 0]);
    RenderTail(secured.value, config, MountValues(config.mounts, w).value);
    RenderSections(words, HeadGroups(config, image, built.value, w), ResourceGroups(config),
                   SecurityGroups(config, w).value, TailGroups(config, MountValues(config.mounts, w).value));
    cmd := AppendProgram(cmd, config);
    return Ok(cmd);
  }

  method AppendProgram(cmd: seq<string>, config: ContainerConfig) returns (out: seq<string>)
    ensures out == cmd + Enclosed(ProgramArgs(config))
  {
    out := cmd;
    var args: seq<string> := [];
    if |config.command| > 0 {
      args := args + config.command[1..];
    }
    if |config.args| > 0 {
      args := args + config.args;
    }
    assert args == ProgramArgs(config);
    if |args| > 0 {
      out := out + ["--"];
      out := out + args;
      out := out + ["---"];
    }
  }

  lemma RenderTail(cmd: seq<string>, config: ContainerConfig, mounts: seq<string>)
    ensures cmd + Emit(WORKING_DIR, When(config.workingDir != "", config.workingDir)) + Emit(MNT_VOLUME, mounts)
              + Emit(EXEC, config.command[..if |config.command| > 0 then 1 else 0])
         == cmd + Render(TailGroups(config, mounts))
  {
    var dir := cmd + Emit(WORKING_DIR, When(config.workingDir != "", config.workingDir));
    var volumes := dir + Emit(MNT_VOLUME, mounts);
    RenderFold([cmd, dir, volumes, volumes + Emit(EXEC, config.command[..if |config.command| > 0 then 1 else 0])],
               TailGroups(config, mounts));
  }

  lemma RenderSections(words: seq<string>, head: seq<Group>, resources: seq<Group>, security: seq<Group>,
                       tail: seq<Group>)
    ensures words + Render(head) + Render(resources) + Render(security) + Render(tail)
         == Render(WordGroups(words) + (head + (resources + (security + tail))))
  {
    RenderWords(words);
    RenderAppend(security, tail);
    RenderAppend(resources, security + tail);
    RenderAppend(head, resources + (security + tail));
    RenderAppend(WordGroups(words), head + (resources + (security + tail)));
    Reassociate(words, Render(head), Render(resources), Render(security), Render(tail));
  }
}
