/** The printed `rkt app sandbox` command in terms of the request: every flag by its name, every value by the field of
    the request it comes from. */
module SandboxRequests {
  import opened Wrappers
  import opened Text
  import opened Flags
  import opened Annotations
  import opened Cri
  import opened Ports
  import opened AppSandbox
  import Paths

  /** The mappings with both numbers set, by their positions. */
  function OpenAt(ports: seq<PortMapping>): (at: seq<nat>)
    ensures forall j :: 0 <= j < |at| ==>
      at[j] < |ports| && ports[at[j]].hostPort != 0 && ports[at[j]].containerPort != 0
    ensures forall i, j :: 0 <= i < j < |at| ==> at[i] < at[j]
    ensures forall i :: 0 <= i < |ports| && ports[i].hostPort != 0 && ports[i].containerPort != 0 ==> i in at
    decreases |ports|
  {
    if ports == [] then []
    else
      var n := |ports| - 1;
      var before := OpenAt(ports[..n]);
      assert forall j :: 0 <= j < |before| ==> ports[before[j]] == ports[..n][before[j]];
      if ports[n].hostPort != 0 && ports[n].containerPort != 0 then before + [n] else before
  }

  /** A mapping in full: its name, protocol, ports and host address, which is the unspecified one by default. */
  function PortText(p: PortMapping): string
  {
    var protocol := match p.protocol case TCP => "tcp" case UDP => "udp" case Other(n) => DecimalInt(n);
    protocol + "-" + DecimalInt(p.containerPort) + "-" + DecimalInt(p.hostPort) + ":" + protocol + ":"
    + DecimalInt(p.containerPort) + ":" + (if p.hostIp == "" then "0.0.0.0" else p.hostIp) + ":"
    + DecimalInt(p.hostPort)
  }

  /** One value per open mapping, in order. */
  ghost predicate PortsSent(values: seq<string>, ports: seq<PortMapping>)
  {
    var at := OpenAt(ports);
    |values| == |at| && forall j :: 0 <= j < |at| ==> values[j] == PortText(ports[at[j]])
  }

  lemma JoinFive(a: string, b: string, c: string, d: string, e: string)
    ensures Join([a, b, c, d, e], ':') == a + ":" + b + ":" + c + ":" + d + ":" + e
  {
    assert [a, b, c, d, e][1..] == [b, c, d, e] && [b, c, d, e][1..] == [c, d, e];
    assert [c, d, e][1..] == [d, e] && [d, e][1..] == [e];
    assert Join([d, e], ':') == d + [':'] + e;
    assert Join([c, d, e], ':') == c + [':'] + Join([d, e], ':');
    assert Join([b, c, d, e], ':') == b + [':'] + Join([c, d, e], ':');
  }

  lemma PortInFull(p: PortMapping)
    ensures PortValue(p) == PortText(p)
  {
    var f := PortFields(p);
    JoinFive(f[0], f[1], f[2], f[3], f[4]);
    assert f == [f[0], f[1], f[2], f[3], f[4]];
    var t := ProtocolText(p.protocol);
    assert PortName(p) == t + "-" + DecimalInt(p.containerPort) + "-" + DecimalInt(p.hostPort);
  }

  lemma {:induction false} PortsInFull(ports: seq<PortMapping>)
    ensures PortsSent(PortValues(ports), ports)
    decreases |ports|
  {
    if ports != [] {
      var n := |ports| - 1;
      PortsInFull(ports[..n]);
      PortInFull(ports[n]);
      var before, at := OpenAt(ports[..n]), OpenAt(ports);
      forall j | 0 <= j < |at| ensures PortValues(ports)[j] == PortText(ports[at[j]]) {
        if j < |before| { assert at[j] == before[j] && ports[..n][before[j]] == ports[before[j]]; }
      }
    }
  }

  /** The host's network is used exactly when the request says so. Then no port is published, the host's entries are
      used, and its name if it is known; in every other case, be it that the request says no or nothing, the sandbox is
      on the plugin's network, if there is one, with one published port per open mapping. */
  lemma NetworkAsRequested(config: SandboxConfig, uuidFile: string, stage1: string, plugin: string, w: SandboxWorld)
    requires HonestSandbox(config, w) && AppSandboxCommand(config, uuidFile, stage1, plugin, w).Ok?
    ensures
      var cmd := AppSandboxCommand(config, uuidFile, stage1, plugin, w).value;
      var named := if config.hostname == "" then [] else [config.hostname];
      match config.linux
      case Some(LinuxSandbox(_, Some(SandboxSecurity(_, Some(true))))) =>
        && Values("hosts-entry", cmd) == ["host"] && Values("net", cmd) == ["host"] && Values("port", cmd) == []
        && Values("hostname", cmd) == named + (match w.hostname case Some(host) => [host] case None => [])
      case _ =>
        && Values("hosts-entry", cmd) == [] && Values("net", cmd) == (if plugin == "" then [] else [plugin])
        && PortsSent(Values("port", cmd), config.portMappings)
        && Values("hostname", cmd) == named
  {
    AppSandboxNetwork(config, uuidFile, stage1, plugin, w);
    AppSandboxPrivileges(config, uuidFile, stage1, plugin, w);
    AppSandboxNames(config, uuidFile, stage1, plugin, w);
    PortsInFull(config.portMappings);
  }

  /** The confinement of paths is lifted exactly for the sandboxes that ask for privileges. */
  lemma PrivilegesAsRequested(config: SandboxConfig, uuidFile: string, stage1: string, plugin: string, w: SandboxWorld)
    requires HonestSandbox(config, w) && AppSandboxCommand(config, uuidFile, stage1, plugin, w).Ok?
    ensures
      var cmd := AppSandboxCommand(config, uuidFile, stage1, plugin, w).value;
      match config.linux
      case Some(LinuxSandbox(_, Some(SandboxSecurity(true, _)))) => Values("insecure-options", cmd) == ["all-run"]
      case _ => Values("insecure-options", cmd) == []
  {
    AppSandboxPrivileges(config, uuidFile, stage1, plugin, w);
  }

  /** The file that is polled, the log directory, and the stage1 image, for which an annotation precedes the
      configuration and an empty text stands for rkt's own. */
  lemma FilesAsRequested(config: SandboxConfig, uuidFile: string, stage1: string, plugin: string, w: SandboxWorld)
    requires HonestSandbox(config, w) && AppSandboxCommand(config, uuidFile, stage1, plugin, w).Ok?
    ensures
      var cmd := AppSandboxCommand(config, uuidFile, stage1, plugin, w).value;
      var key := "rkt.alpha.kubernetes.io/stage1-name-override";
      var name := if key in config.annotations then config.annotations[key] else stage1;
      var logs := if config.logDirectory != "" then config.logDirectory
                  else Paths.DefaultLogDirectory(config.metadata.uid);
      && |cmd| >= 3 && cmd[..3] == ["app", "--debug", "sandbox"] && Words(cmd) == ["app", "sandbox"]
      && Values("uuid-file-save", cmd) == [uuidFile]
      && Values("annotation", cmd) == ["coreos.com/rkt/experiment/logmode=k8s-plain",
                                       "coreos.com/rkt/experiment/kubernetes-log-dir=" + logs]
      && Values("stage1-name", cmd) == (if name == "" then [] else [name])
  {
    AppSandboxFiles(config, uuidFile, stage1, plugin, w);
    AppSandboxMeaning(config, uuidFile, stage1, plugin, w);
    var flags := SandboxFlags(config, uuidFile, stage1, plugin, w);
    RenderAppend(START_WORDS, flags);
    RenderStart();
  }

  /** The three lists of name resolution, in order, and none without them. */
  lemma ResolutionAsRequested(config: SandboxConfig, uuidFile: string, stage1: string, plugin: string, w: SandboxWorld)
    requires HonestSandbox(config, w) && AppSandboxCommand(config, uuidFile, stage1, plugin, w).Ok?
    ensures
      var cmd := AppSandboxCommand(config, uuidFile, stage1, plugin, w).value;
      match config.dns
      case Some(DnsConfig(servers, searches, options)) =>
        && Values("dns", cmd) == servers && Values("dns-search", cmd) == searches && Values("dns-opt", cmd) == options
      case None => Values("dns", cmd) == [] && Values("dns-search", cmd) == [] && Values("dns-opt", cmd) == []
  {
    AppSandboxNames(config, uuidFile, stage1, plugin, w);
  }

  /** The pairs of the annotations, then those of the metadata; and the pairs of the labels. */
  lemma PairsAsRequested(config: SandboxConfig, uuidFile: string, stage1: string, plugin: string, w: SandboxWorld)
    requires HonestSandbox(config, w) && AppSandboxCommand(config, uuidFile, stage1, plugin, w).Ok?
    ensures
      var cmd := AppSandboxCommand(config, uuidFile, stage1, plugin, w).value;
      var n, annotations, labels := |w.annotationOrder|, Values("user-annotation", cmd), Values("user-label", cmd);
      && |annotations| == n + 4 && ListsPairs(annotations[..n], w.annotationOrder, config.annotations)
      && annotations[n..] == ["k8s.io/reserved/pod-uid=" + config.metadata.uid,
                              "k8s.io/reserved/pod-name=" + config.metadata.name,
                              "k8s.io/reserved/pod-namespace=" + config.metadata.namespace,
                              "k8s.io/reserved/pod-attempt=" + Decimal(config.metadata.attempt)]
      && ListsPairs(labels, w.labelOrder, config.labels)
  {
    AppSandboxMeaning(config, uuidFile, stage1, plugin, w);
    var cmd := AppSandboxCommand(config, uuidFile, stage1, plugin, w).value;
    var n, annotations := |w.annotationOrder|, Values("user-annotation", cmd);
    assert annotations[..n] == Pairs(w.annotationOrder, config.annotations);
    assert annotations[n..] == MetadataPairs(config.metadata);
    MetadataInFull(config.metadata);
  }

  lemma MetadataInFull(meta: Metadata)
    ensures MetadataPairs(meta)
         == ["k8s.io/reserved/pod-uid=" + meta.uid, "k8s.io/reserved/pod-name=" + meta.name,
             "k8s.io/reserved/pod-namespace=" + meta.namespace, "k8s.io/reserved/pod-attempt=" + Decimal(meta.attempt)]
  {
    var p := MetadataPairs(meta);
    assert p[0] == "k8s.io/reserved/pod-uid=" + meta.uid && p[1] == "k8s.io/reserved/pod-name=" + meta.name;
    assert p[2] == "k8s.io/reserved/pod-namespace=" + meta.namespace;
    assert p[3] == "k8s.io/reserved/pod-attempt=" + Decimal(meta.attempt);
  }
}
