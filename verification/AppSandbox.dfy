/** The `rkt app sandbox` command line. */
module AppSandbox {
  import opened Wrappers
  import opened Flags
  import opened FlagNames
  import opened Annotations
  import opened Cri
  import opened Ports
  import Paths

  const LOG_MODE: string := "coreos.com/rkt/experiment/logmode=k8s-plain"
  const LOG_DIR: string := "coreos.com/rkt/experiment/kubernetes-log-dir="

  const ALL_RUN: string := "all-run"

  const STAGE1_NAME_KEY: string := "rkt.alpha.kubernetes.io/stage1-name-override"

  predicate HasHostNetwork(config: SandboxConfig)
  {
    && config.linux.Some? && config.linux.value.security.Some?
    && config.linux.value.security.value.hostNetwork == Some(true)
  }

  predicate Privileged(config: SandboxConfig)
  {
    config.linux.Some? && config.linux.value.security.Some? && config.linux.value.security.value.privileged
  }

  /** The stage1 image: an annotation takes precedence over the configured one. */
  function Stage1(config: SandboxConfig, configured: string): string
  {
    if STAGE1_NAME_KEY in config.annotations then config.annotations[STAGE1_NAME_KEY] else configured
  }

  function LogDirectory(config: SandboxConfig): string
  {
    if config.logDirectory == "" then Paths.DefaultLogDirectory(config.metadata.uid) else config.logDirectory
  }

  function Servers(config: SandboxConfig): DnsConfig
  {
    if config.dns.None? then DnsConfig([], [], []) else config.dns.value
  }

  /** The names the sandbox is given: the requested one, and with the host's network the host's own. */
  function SharedHostname(config: SandboxConfig, w: SandboxWorld): seq<string>
  {
    if HasHostNetwork(config) && w.hostname.Some? then [w.hostname.value] else []
  }

  function Networks(config: SandboxConfig, plugin: string): seq<string>
  {
    if HasHostNetwork(config) then ["host"] else When(plugin != "", plugin)
  }

  function StartGroups(config: SandboxConfig, uuidFile: string, stage1: string): seq<Group>
  {
    [Valued(UUID_FILE_SAVE, [uuidFile]),
     Valued(ANNOTATION, [LOG_MODE, LOG_DIR + LogDirectory(config)]),
     Valued(STAGE1_NAME, When(Stage1(config, stage1) != "", Stage1(config, stage1))),
     Valued(HOSTNAME, When(config.hostname != "", config.hostname))]
  }

  function DnsGroups(config: SandboxConfig): seq<Group>
  {
    [Valued(DNS, Servers(config).servers),
     Valued(DNS_SEARCH, Servers(config).searches),
     Valued(DNS_OPT, Servers(config).options),
     Valued(INSECURE_OPTIONS, When(Privileged(config), ALL_RUN))]
  }

  function NetworkGroups(config: SandboxConfig, plugin: string, w: SandboxWorld): seq<Group>
  {
    [Valued(PORT, if HasHostNetwork(config) then [] else PortValues(config.portMappings)),
     Valued(NET, Networks(config, plugin)),
     Valued(HOSTS_ENTRY, When(HasHostNetwork(config), "host")),
     Valued(HOSTNAME, SharedHostname(config, w))]
  }

  function UserGroups(config: SandboxConfig, w: SandboxWorld): seq<Group>
    requires forall k :: k in w.labelOrder ==> k in config.labels
    requires forall k :: k in w.annotationOrder ==> k in config.annotations
  {
    [Valued(USER_ANNOTATION, Pairs(w.annotationOrder, config.annotations) + MetadataPairs(config.metadata)),
     Valued(USER_LABEL, Pairs(w.labelOrder, config.labels))]
  }

  const START_WORDS: seq<Group> := [Word("app"), Switch(DEBUG), Word("sandbox")]

  function SandboxFlags(config: SandboxConfig, uuidFile: string, stage1: string, plugin: string,
                        w: SandboxWorld): seq<Group>
    requires HonestSandbox(config, w)
  {
    StartGroups(config, uuidFile, stage1)
    + (DnsGroups(config) + (NetworkGroups(config, plugin, w) + UserGroups(config, w)))
  }

  function SandboxGroups(config: SandboxConfig, uuidFile: string, stage1: string, plugin: string,
                         w: SandboxWorld): seq<Group>
    requires HonestSandbox(config, w)
  {
    START_WORDS + SandboxFlags(config, uuidFile, stage1, plugin, w)
  }

  function AppSandboxCommand(config: SandboxConfig, uuidFile: string, stage1: string, plugin: string, w: SandboxWorld)
    : Result<seq<string>>
    requires HonestSandbox(config, w)
  {
    if config.logDirectory == "" && !w.logDirectoryReady then Err("mkdir failed")
    else Ok(Render(SandboxGroups(config, uuidFile, stage1, plugin, w)))
  }

  lemma StartsWithApp(config: SandboxConfig, uuidFile: string, stage1: string, plugin: string, w: SandboxWorld)
    requires HonestSandbox(config, w) && AppSandboxCommand(config, uuidFile, stage1, plugin, w).Ok?
    ensures
      var cmd := AppSandboxCommand(config, uuidFile, stage1, plugin, w).value;
      cmd != [] && cmd[0] == "app"
  {
  }

  // ----- what the printed command means -----

  lemma RenderStart()
    ensures Render(START_WORDS) == ["app", "--debug", "sandbox"]
  {
    assert START_WORDS[1..] == [Switch(DEBUG), Word("sandbox")];
    assert START_WORDS[1..][1..] == [Word("sandbox")];
    assert START_WORDS[1..][1..][1..] == [];
    assert Render(START_WORDS[1..][1..]) == ["sandbox"] + [];
    assert Render(START_WORDS[1..]) == ["--" + DEBUG] + ["sandbox"];
    assert "--" + DEBUG == "--debug";
  }

  const START_NAMES: set<string> := {UUID_FILE_SAVE, ANNOTATION, STAGE1_NAME, HOSTNAME}
  const DNS_NAMES: set<string> := {DNS, DNS_SEARCH, DNS_OPT, INSECURE_OPTIONS}
  const NETWORK_NAMES: set<string> := {PORT, NET, HOSTS_ENTRY, HOSTNAME}
  const USER_NAMES: set<string> := {USER_ANNOTATION, USER_LABEL}

  lemma StartNamesAlone()
    ensures START_NAMES !! DNS_NAMES && START_NAMES !! USER_NAMES && START_NAMES * NETWORK_NAMES == {HOSTNAME}
  {
  }

  lemma NetworkNamesAlone()
    ensures NETWORK_NAMES !! DNS_NAMES && NETWORK_NAMES !! USER_NAMES && DNS_NAMES !! USER_NAMES
  {
  }

  lemma NotInStart(f: FlagName, config: SandboxConfig, uuidFile: string, stage1: string)
    ensures AllValued(StartGroups(config, uuidFile, stage1))
    ensures f !in START_NAMES ==> ValuesOf(f, StartGroups(config, uuidFile, stage1)) == []
  {
    OfLacking(f, StartGroups(config, uuidFile, stage1));
  }

  lemma NotInDns(f: FlagName, config: SandboxConfig)
    ensures AllValued(DnsGroups(config))
    ensures f !in DNS_NAMES ==> ValuesOf(f, DnsGroups(config)) == []
  {
    OfLacking(f, DnsGroups(config));
  }

  lemma NotInNetwork(f: FlagName, config: SandboxConfig, plugin: string, w: SandboxWorld)
    ensures AllValued(NetworkGroups(config, plugin, w))
    ensures f !in NETWORK_NAMES ==> ValuesOf(f, NetworkGroups(config, plugin, w)) == []
  {
    OfLacking(f, NetworkGroups(config, plugin, w));
  }

  lemma NotInUser(f: FlagName, config: SandboxConfig, w: SandboxWorld)
    requires HonestSandbox(config, w)
    ensures AllValued(UserGroups(config, w))
    ensures f !in USER_NAMES ==> ValuesOf(f, UserGroups(config, w)) == []
  {
    OfLacking(f, UserGroups(config, w));
  }

  lemma SandboxWords(f: FlagName)
    ensures WordsOf(START_WORDS) == ["app", "sandbox"] && ValuesOf(f, START_WORDS) == [] && Printable(START_WORDS)
  {
    assert START_WORDS[1..] == [Switch(DEBUG), Word("sandbox")];
    assert START_WORDS[1..][1..] == [Word("sandbox")];
    assert START_WORDS[1..][1..][1..] == [];
    assert WordsOf(START_WORDS[1..][1..]) == ["sandbox"];
    assert WordsOf(START_WORDS[1..]) == ["sandbox"];
    OfLacking(f, START_WORDS);
    assert "app"[0] == 'a' && "sandbox"[0] == 's';
  }

  lemma AppendValued(f: FlagName, a: seq<Group>, b: seq<Group>)
    requires AllValued(b)
    ensures ValuesOf(f, a + b) == ValuesOf(f, a) + ValuesOf(f, b)
    ensures WordsOf(a + b) == WordsOf(a)
    ensures Printable(a) ==> Printable(a + b)
    ensures AllValued(a) ==> AllValued(a + b)
  {
    OfAppend(f, a, b);
    OfLacking(f, b);
  }

  lemma FlagSections(f: FlagName, config: SandboxConfig, uuidFile: string, stage1: string, plugin: string,
                     w: SandboxWorld)
    requires HonestSandbox(config, w)
    ensures AllValued(SandboxFlags(config, uuidFile, stage1, plugin, w))
    ensures ValuesOf(f, SandboxFlags(config, uuidFile, stage1, plugin, w))
         == ValuesOf(f, StartGroups(config, uuidFile, stage1))
            + (ValuesOf(f, DnsGroups(config))
               + (ValuesOf(f, NetworkGroups(config, plugin, w)) + ValuesOf(f, UserGroups(config, w))))
  {
    var s, d := StartGroups(config, uuidFile, stage1), DnsGroups(config);
    var n, u := NetworkGroups(config, plugin, w), UserGroups(config, w);
    NotInStart(f, config, uuidFile, stage1);
    NotInDns(f, config);
    NotInNetwork(f, config, plugin, w);
    NotInUser(f, config, w);
    AppendValued(f, n, u);
    AppendValued(f, d, n + u);
    AppendValued(f, s, d + (n + u));
  }

  lemma NotAmongFlags(f: FlagName, config: SandboxConfig, uuidFile: string, stage1: string, plugin: string,
                      w: SandboxWorld)
    requires HonestSandbox(config, w)
    requires f !in START_NAMES && f !in DNS_NAMES && f !in NETWORK_NAMES && f !in USER_NAMES
    ensures AllValued(SandboxFlags(config, uuidFile, stage1, plugin, w))
    ensures ValuesOf(f, SandboxFlags(config, uuidFile, stage1, plugin, w)) == []
    ensures WordsOf(SandboxFlags(config, uuidFile, stage1, plugin, w)) == []
  {
    FlagSections(f, config, uuidFile, stage1, plugin, w);
    NotInStart(f, config, uuidFile, stage1);
    NotInDns(f, config);
    NotInNetwork(f, config, plugin, w);
    NotInUser(f, config, w);
    OfLacking(f, SandboxFlags(config, uuidFile, stage1, plugin, w));
  }

  lemma DebugIsNoFlag()
    ensures DEBUG !in START_NAMES && DEBUG !in DNS_NAMES && DEBUG !in NETWORK_NAMES && DEBUG !in USER_NAMES
  {
  }

  /** The sections of the command as a parser reads them. */
  lemma SandboxParts(f: FlagName, config: SandboxConfig, uuidFile: string, stage1: string, plugin: string,
                     w: SandboxWorld)
    requires HonestSandbox(config, w)
    ensures
      var cmd := Render(SandboxGroups(config, uuidFile, stage1, plugin, w));
      && END_OF_FLAGS !in cmd
      && Words(cmd) == ["app", "sandbox"]
      && Values(f, cmd) == ValuesOf(f, StartGroups(config, uuidFile, stage1))
                         + (ValuesOf(f, DnsGroups(config))
                            + (ValuesOf(f, NetworkGroups(config, plugin, w)) + ValuesOf(f, UserGroups(config, w))))
  {
    FlagSections(f, config, uuidFile, stage1, plugin, w);
    SandboxWords(f);
    AppendValued(f, START_WORDS, SandboxFlags(config, uuidFile, stage1, plugin, w));
    ReadRender(f, SandboxGroups(config, uuidFile, stage1, plugin, w));
  }

  lemma UserSection(f: FlagName, config: SandboxConfig, uuidFile: string, stage1: string, plugin: string,
                    w: SandboxWorld)
    requires HonestSandbox(config, w) && f in USER_NAMES
    ensures Values(f, Render(SandboxGroups(config, uuidFile, stage1, plugin, w))) == ValuesOf(f, UserGroups(config, w))
  {
    SandboxParts(f, config, uuidFile, stage1, plugin, w);
    StartNamesAlone();
    NetworkNamesAlone();
    NotInStart(f, config, uuidFile, stage1);
    NotInDns(f, config);
    NotInNetwork(f, config, plugin, w);
  }

  lemma DnsSection(f: FlagName, config: SandboxConfig, uuidFile: string, stage1: string, plugin: string,
                   w: SandboxWorld)
    requires HonestSandbox(config, w) && f in DNS_NAMES
    ensures Values(f, Render(SandboxGroups(config, uuidFile, stage1, plugin, w))) == ValuesOf(f, DnsGroups(config))
  {
    SandboxParts(f, config, uuidFile, stage1, plugin, w);
    StartNamesAlone();
    NetworkNamesAlone();
    NotInStart(f, config, uuidFile, stage1);
    NotInNetwork(f, config, plugin, w);
    NotInUser(f, config, w);
  }

  lemma NetworkSection(f: FlagName, config: SandboxConfig, uuidFile: string, stage1: string, plugin: string,
                       w: SandboxWorld)
    requires HonestSandbox(config, w) && f in NETWORK_NAMES && f !in START_NAMES
    ensures Values(f, Render(SandboxGroups(config, uuidFile, stage1, plugin, w)))
         == ValuesOf(f, NetworkGroups(config, plugin, w))
  {
    SandboxParts(f, config, uuidFile, stage1, plugin, w);
    NetworkNamesAlone();
    NotInStart(f, config, uuidFile, stage1);
    NotInDns(f, config);
    NotInUser(f, config, w);
  }

  lemma HostnameSections(config: SandboxConfig, uuidFile: string, stage1: string, plugin: string, w: SandboxWorld)
    requires HonestSandbox(config, w)
    ensures Values(HOSTNAME, Render(SandboxGroups(config, uuidFile, stage1, plugin, w)))
         == When(config.hostname != "", config.hostname) + SharedHostname(config, w)
  {
    SandboxParts(HOSTNAME, config, uuidFile, stage1, plugin, w);
    StartNamesAlone();
    NetworkNamesAlone();
    NotInDns(HOSTNAME, config);
    NotInUser(HOSTNAME, config, w);
    NetworkValues(config, plugin, w);
    StartHostname(config, uuidFile, stage1);
  }

  lemma UserValues(config: SandboxConfig, w: SandboxWorld)
    requires HonestSandbox(config, w)
    ensures
      var g := UserGroups(config, w);
      && ValuesOf(USER_ANNOTATION, g) == Pairs(w.annotationOrder, config.annotations) + MetadataPairs(config.metadata)
      && ValuesOf(USER_LABEL, g) == Pairs(w.labelOrder, config.labels)
  {
    var g := UserGroups(config, w);
    SoleGroup(USER_ANNOTATION, g[..0], g[0].values, g[1..]);
    assert g == g[..0] + [g[0]] + g[1..];
    SoleGroup(USER_LABEL, g[..1], g[1].values, g[2..]);
    assert g == g[..1] + [g[1]] + g[2..];
  }

  /** What rkt learns from the printed command: the user's annotations followed by the metadata, and
      the labels, each in iteration order and nothing else under these flags. */
  lemma AppSandboxMeaning(config: SandboxConfig, uuidFile: string, stage1: string, plugin: string, w: SandboxWorld)
    requires HonestSandbox(config, w)
    requires AppSandboxCommand(config, uuidFile, stage1, plugin, w).Ok?
    ensures
      var cmd := AppSandboxCommand(config, uuidFile, stage1, plugin, w).value;
      && END_OF_FLAGS !in cmd
      && Words(cmd) == ["app", "sandbox"]
      && Values(USER_ANNOTATION, cmd) == Pairs(w.annotationOrder, config.annotations) + MetadataPairs(config.metadata)
      && Values(USER_LABEL, cmd) == Pairs(w.labelOrder, config.labels)
  {
    UserSection(USER_ANNOTATION, config, uuidFile, stage1, plugin, w);
    UserSection(USER_LABEL, config, uuidFile, stage1, plugin, w);
    UserValues(config, w);
    SandboxParts(USER_LABEL, config, uuidFile, stage1, plugin, w);
  }

  lemma NetworkValues(config: SandboxConfig, plugin: string, w: SandboxWorld)
    ensures
      var g := NetworkGroups(config, plugin, w);
      && ValuesOf(PORT, g) == (if HasHostNetwork(config) then [] else PortValues(config.portMappings))
      && ValuesOf(NET, g) == Networks(config, plugin)
      && ValuesOf(HOSTNAME, g) == SharedHostname(config, w)
  {
    var g := NetworkGroups(config, plugin, w);
    SoleGroup(PORT, g[..0], g[0].values, g[1..]);
    assert g == g[..0] + [g[0]] + g[1..];
    SoleGroup(NET, g[..1], g[1].values, g[2..]);
    assert g == g[..1] + [g[1]] + g[2..];
    SoleGroup(HOSTNAME, g[..3], g[3].values, g[4..]);
    assert g == g[..3] + [g[3]] + g[4..];
  }

  /** Network: on the host's network no port is published; otherwise one `--port` per mapping with both
      ports set, in order, and the configured plugin if there is one. */
  lemma AppSandboxNetwork(config: SandboxConfig, uuidFile: string, stage1: string, plugin: string, w: SandboxWorld)
    requires HonestSandbox(config, w)
    requires AppSandboxCommand(config, uuidFile, stage1, plugin, w).Ok?
    ensures
      var cmd := AppSandboxCommand(config, uuidFile, stage1, plugin, w).value;
      && Values(PORT, cmd) == (if HasHostNetwork(config) then [] else PortValues(config.portMappings))
      && (Values(NET, cmd) == ["host"] <== HasHostNetwork(config))
      && (!HasHostNetwork(config) ==> Values(NET, cmd) == When(plugin != "", plugin))
  {
    NetworkSection(PORT, config, uuidFile, stage1, plugin, w);
    NetworkSection(NET, config, uuidFile, stage1, plugin, w);
    NetworkValues(config, plugin, w);
  }

  /** Name resolution reaches rkt list by list, in order, and a sandbox on the host's network ends up with
      the host's name whenever it is known. */
  lemma AppSandboxNames(config: SandboxConfig, uuidFile: string, stage1: string, plugin: string, w: SandboxWorld)
    requires HonestSandbox(config, w)
    requires AppSandboxCommand(config, uuidFile, stage1, plugin, w).Ok?
    ensures
      var cmd := AppSandboxCommand(config, uuidFile, stage1, plugin, w).value;
      && Values(DNS, cmd) == Servers(config).servers
      && Values(DNS_SEARCH, cmd) == Servers(config).searches
      && Values(DNS_OPT, cmd) == Servers(config).options
      && Values(HOSTNAME, cmd) == When(config.hostname != "", config.hostname) + SharedHostname(config, w)
  {
    DnsSection(DNS, config, uuidFile, stage1, plugin, w);
    DnsSection(DNS_SEARCH, config, uuidFile, stage1, plugin, w);
    DnsSection(DNS_OPT, config, uuidFile, stage1, plugin, w);
    DnsValues(config);
    HostnameSections(config, uuidFile, stage1, plugin, w);
  }

  lemma DnsValues(config: SandboxConfig)
    ensures
      var g := DnsGroups(config);
      && ValuesOf(DNS, g) == Servers(config).servers
      && ValuesOf(DNS_SEARCH, g) == Servers(config).searches
      && ValuesOf(DNS_OPT, g) == Servers(config).options
  {
    var g := DnsGroups(config);
    SoleGroup(DNS, g[..0], g[0].values, g[1..]);
    assert g == g[..0] + [g[0]] + g[1..];
    SoleGroup(DNS_SEARCH, g[..1], g[1].values, g[2..]);
    assert g == g[..1] + [g[1]] + g[2..];
    SoleGroup(DNS_OPT, g[..2], g[2].values, g[3..]);
    assert g == g[..2] + [g[2]] + g[3..];
  }

  lemma StartHostname(config: SandboxConfig, uuidFile: string, stage1: string)
    ensures ValuesOf(HOSTNAME, StartGroups(config, uuidFile, stage1)) == When(config.hostname != "", config.hostname)
  {
    var g := StartGroups(config, uuidFile, stage1);
    SoleGroup(HOSTNAME, g[..3], g[3].values, g[4..]);
    assert g == g[..3] + [g[3]] + g[4..];
  }

  lemma StartValues(config: SandboxConfig, uuidFile: string, stage1: string)
    ensures
      var g := StartGroups(config, uuidFile, stage1);
      && ValuesOf(UUID_FILE_SAVE, g) == [uuidFile]
      && ValuesOf(ANNOTATION, g) == [LOG_MODE, LOG_DIR + LogDirectory(config)]
      && ValuesOf(STAGE1_NAME, g) == When(Stage1(config, stage1) != "", Stage1(config, stage1))
  {
    var g := StartGroups(config, uuidFile, stage1);
    SoleGroup(UUID_FILE_SAVE, g[..0], g[0].values, g[1..]);
    assert g == g[..0] + [g[0]] + g[1..];
    SoleGroup(ANNOTATION, g[..1], g[1].values, g[2..]);
    assert g == g[..1] + [g[1]] + g[2..];
    SoleGroup(STAGE1_NAME, g[..2], g[2].values, g[3..]);
    assert g == g[..2] + [g[2]] + g[3..];
  }

  lemma StartSection(f: FlagName, config: SandboxConfig, uuidFile: string, stage1: string, plugin: string,
                     w: SandboxWorld)
    requires HonestSandbox(config, w) && f in START_NAMES && f !in NETWORK_NAMES
    ensures Values(f, Render(SandboxGroups(config, uuidFile, stage1, plugin, w)))
         == ValuesOf(f, StartGroups(config, uuidFile, stage1))
  {
    SandboxParts(f, config, uuidFile, stage1, plugin, w);
    StartNamesAlone();
    NotInDns(f, config);
    NotInNetwork(f, config, plugin, w);
    NotInUser(f, config, w);
  }

  /** Where rkt finds its files: the UUID goes to the file that is polled, logs to the requested directory,
      and the stage1 image is the annotated one, else the configured one, else rkt's own. */
  lemma AppSandboxFiles(config: SandboxConfig, uuidFile: string, stage1: string, plugin: string, w: SandboxWorld)
    requires HonestSandbox(config, w)
    requires AppSandboxCommand(config, uuidFile, stage1, plugin, w).Ok?
    ensures
      var cmd := AppSandboxCommand(config, uuidFile, stage1, plugin, w).value;
      && Values(UUID_FILE_SAVE, cmd) == [uuidFile]
      && Values(ANNOTATION, cmd) == [LOG_MODE, LOG_DIR + LogDirectory(config)]
      && Values(STAGE1_NAME, cmd) == When(Stage1(config, stage1) != "", Stage1(config, stage1))
  {
    StartSection(UUID_FILE_SAVE, config, uuidFile, stage1, plugin, w);
    StartSection(ANNOTATION, config, uuidFile, stage1, plugin, w);
    StartSection(STAGE1_NAME, config, uuidFile, stage1, plugin, w);
    StartValues(config, uuidFile, stage1);
  }

  /** Privileges, among the sandbox's own arguments: `all-run` exactly for a privileged sandbox, the host's
      entries exactly on the host's network. */
  lemma AppSandboxPrivileges(config: SandboxConfig, uuidFile: string, stage1: string, plugin: string, w: SandboxWorld)
    requires HonestSandbox(config, w)
    requires AppSandboxCommand(config, uuidFile, stage1, plugin, w).Ok?
    ensures
      var cmd := AppSandboxCommand(config, uuidFile, stage1, plugin, w).value;
      && Values(INSECURE_OPTIONS, cmd) == When(Privileged(config), ALL_RUN)
      && Values(HOSTS_ENTRY, cmd) == When(HasHostNetwork(config), "host")
  {
    DnsSection(INSECURE_OPTIONS, config, uuidFile, stage1, plugin, w);
    NetworkSection(HOSTS_ENTRY, config, uuidFile, stage1, plugin, w);
    var d, n := DnsGroups(config), NetworkGroups(config, plugin, w);
    SoleGroup(INSECURE_OPTIONS, d[..3], d[3].values, d[4..]);
    assert d == d[..3] + [d[3]] + d[4..];
    SoleGroup(HOSTS_ENTRY, n[..2], n[2].values, n[3..]);
    assert n == n[..2] + [n[2]] + n[3..];
  }
}
