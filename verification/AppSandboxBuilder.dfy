/** Assembling the `rkt app sandbox` command by appending, proved against the command AppSandbox specifies. */
module AppSandboxBuilder {
  import opened Wrappers
  import opened Lists
  import opened Flags
  import opened FlagNames
  import opened Annotations
  import opened Cri
  import opened Ports
  import opened AppSandbox
  import Paths

  method AppendStart(cmd: seq<string>, config: SandboxConfig, uuidFile: string, stage1Name: string)
    returns (out: seq<string>)
    ensures out == cmd + Render(StartGroups(config, uuidFile, stage1Name))
  {
    var stage1 := stage1Name;
    if STAGE1_NAME_KEY in config.annotations {
      stage1 := config.annotations[STAGE1_NAME_KEY];
    }
    var logDirectory := config.logDirectory;
    if logDirectory == "" {
      logDirectory := Paths.DefaultLogDirectory(config.metadata.uid);
    }
    assert stage1 == Stage1(config, stage1Name) && logDirectory == LogDirectory(config);
    out := AppendStartFlags(cmd, config, uuidFile, stage1Name, stage1, logDirectory);
  }

  method AppendStartFlags(cmd: seq<string>, config: SandboxConfig, uuidFile: string, ghost configured: string,
                          stage1: string, logDirectory: string)
    returns (out: seq<string>)
    requires stage1 == Stage1(config, configured) && logDirectory == LogDirectory(config)
    ensures out == cmd + Render(StartGroups(config, uuidFile, configured))
  {
    var saved := AppendEach(cmd, UUID_FILE_SAVE, [uuidFile]);
    var logged := AppendEach(saved, ANNOTATION, [LOG_MODE, LOG_DIR + logDirectory]);
    var staged := AppendWhen(logged, stage1 != "", STAGE1_NAME, stage1);
    out := AppendWhen(staged, config.hostname != "", HOSTNAME, config.hostname);
    RenderFold([cmd, saved, logged, staged, out], StartGroups(config, uuidFile, configured));
  }

  method AppendDns(cmd: seq<string>, config: SandboxConfig) returns (out: seq<string>)
    ensures out == cmd + Render(DnsGroups(config))
  {
    var servers, searches, options := cmd, cmd, cmd;
    if config.dns.Some? {
      servers := AppendEach(cmd, DNS, config.dns.value.servers);
      searches := AppendEach(servers, DNS_SEARCH, config.dns.value.searches);
      options := AppendEach(searches, DNS_OPT, config.dns.value.options);
    } else {
      EmitNothing(cmd);
    }
    out := AppendWhen(options, Privileged(config), INSECURE_OPTIONS, ALL_RUN);
    RenderFold([cmd, servers, searches, options, out], DnsGroups(config));
  }

  method AppendPorts(cmd: seq<string>, ports: seq<PortMapping>) returns (out: seq<string>)
    ensures out == cmd + Emit(PORT, PortValues(ports))
  {
    out := cmd;
    for i := 0 to |ports|
      invariant out == cmd + Emit(PORT, PortValues(ports[..i]))
    {
      assert ports[..i + 1][..i] == ports[..i];
      if ports[i].hostPort == 0 || ports[i].containerPort == 0 {
        continue;
      }
      assert Emit(PORT, PortValues(ports[..i]) + [PortValue(ports[i])])
          == Emit(PORT, PortValues(ports[..i])) + [Flag(PORT, PortValue(ports[i]))];
      out := out + [Flag(PORT, PortValue(ports[i]))];
    }
    assert ports[..|ports|] == ports;
  }

  method AppendNetwork(cmd: seq<string>, config: SandboxConfig, plugin: string, w: SandboxWorld)
    returns (out: seq<string>)
    ensures out == cmd + Render(NetworkGroups(config, plugin, w))
  {
    EmitNothing(cmd);
    if HasHostNetwork(config) {
      var net := AppendEach(cmd, NET, ["host"]);
      var hosts := AppendEach(net, HOSTS_ENTRY, ["host"]);
      out := hosts;
      if w.hostname.Some? {
        out := AppendEach(out, HOSTNAME, [w.hostname.value]);
      } else {
        EmitNothing(hosts);
      }
      RenderFold([cmd, cmd, net, hosts, out], NetworkGroups(config, plugin, w));
    } else {
      var ports := AppendPorts(cmd, config.portMappings);
      out := AppendWhen(ports, plugin != "", NET, plugin);
      EmitNothing(out);
      RenderFold([cmd, ports, out, out, out], NetworkGroups(config, plugin, w));
    }
  }

  method AppendUser(cmd: seq<string>, config: SandboxConfig, w: SandboxWorld) returns (out: seq<string>)
    requires HonestSandbox(config, w)
    ensures out == cmd + Render(UserGroups(config, w))
  {
    var labels := FormatPairs(w.labelOrder, config.labels);
    var annotations := FormatPairs(w.annotationOrder, config.annotations);
    annotations := annotations + MetadataPairs(config.metadata);
    var annotated := AppendEach(cmd, USER_ANNOTATION, annotations);
    out := AppendEach(annotated, USER_LABEL, labels);
    RenderFold([cmd, annotated, out], UserGroups(config, w));
  }

  /** The whole command. */
  method GenerateAppSandboxCommand(config: SandboxConfig, uuidFile: string, stage1Name: string, plugin: string,
                                   w: SandboxWorld)
    returns (r: Result<seq<string>>)
    requires HonestSandbox(config, w)
    ensures r == AppSandboxCommand(config, uuidFile, stage1Name, plugin, w)
  {
    if config.logDirectory == "" && !w.logDirectoryReady {
      return Err("mkdir failed");
    }
    var start := ["app", "--debug", "sandbox"];
    var cmd := AppendStart(start, config, uuidFile, stage1Name);
    cmd := AppendDns(cmd, config);
    cmd := AppendNetwork(cmd, config, plugin, w);
    cmd := AppendUser(cmd, config, w);
    RenderSections(StartGroups(config, uuidFile, stage1Name), DnsGroups(config),
                   NetworkGroups(config, plugin, w), UserGroups(config, w));
    return Ok(cmd);
  }

  lemma RenderSections(s: seq<Group>, d: seq<Group>, n: seq<Group>, u: seq<Group>)
    ensures ["app", "--debug", "sandbox"] + Render(s) + Render(d) + Render(n) + Render(u)
         == Render(START_WORDS + (s + (d + (n + u))))
  {
    RenderStart();
    RenderAppend(n, u);
    RenderAppend(d, n + u);
    RenderAppend(s, d + (n + u));
    RenderAppend(START_WORDS, s + (d + (n + u)));
    Reassociate(["app", "--debug", "sandbox"], Render(s), Render(d), Render(n), Render(u));
  }
}
