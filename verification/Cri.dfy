/** The Container Runtime Interface messages, and the answers of the outside world that a call may
    depend on (map iteration orders, file-system outcomes, fresh names). */
module Cri {
  import opened Wrappers
  import opened Text
  import opened Annotations
  import Cpu

  // ----- containers -----

  datatype KeyValue = KeyValue(key: string, value: string)

  datatype Mount = Mount(hostPath: string, containerPath: string, readonly: bool)

  datatype Resources = Resources(cpuPeriod: Cpu.Int64, cpuQuota: Cpu.Int64, cpuShares: Cpu.Int64,
                                 memoryLimit: Cpu.Int64, oomScoreAdj: Cpu.Int64)

  datatype Capabilities = Capabilities(add: seq<string>, drop: seq<string>)

  datatype ContainerSecurity = ContainerSecurity(
    privileged: bool, seccompProfile: string, capabilities: Option<Capabilities>,
    runAsUser: Option<Cpu.Int64>, runAsUsername: string, supplementalGroups: seq<Cpu.Int64>, readonlyRootfs: bool)

  datatype LinuxContainer = LinuxContainer(resources: Option<Resources>, security: Option<ContainerSecurity>)

  datatype ContainerConfig = ContainerConfig(
    name: string, attempt: Uint32, image: Option<string>, command: seq<string>, args: seq<string>,
    workingDir: string, envs: seq<KeyValue>, mounts: seq<Option<Mount>>, labels: map<string, string>,
    annotations: map<string, string>, logPath: string, linux: Option<LinuxContainer>)

  datatype CreateContainerRequest = CreateContainerRequest(podSandboxId: string, config: ContainerConfig)

  /** What generating an `app add` command asks of its surroundings. */
  datatype AddWorld = AddWorld(
    labelOrder: seq<string>, annotationOrder: seq<string>,
    allCapabilities: seq<string>, tweakedCapabilities: Result<seq<string>>,
    volumeNames: seq<string>, hostPathReady: seq<bool>)

  ghost predicate Honest(config: ContainerConfig, w: AddWorld)
  {
    && Enumerates(w.labelOrder, config.labels)
    && Enumerates(w.annotationOrder, config.annotations)
    && |w.volumeNames| == |w.hostPathReady| == |config.mounts|
  }

  // ----- sandboxes -----

  datatype Protocol = TCP | UDP | Other(number: int)

  datatype PortMapping = PortMapping(protocol: Protocol, containerPort: int, hostPort: int, hostIp: string)

  datatype DnsConfig = DnsConfig(servers: seq<string>, searches: seq<string>, options: seq<string>)

  datatype SandboxSecurity = SandboxSecurity(privileged: bool, hostNetwork: Option<bool>)

  datatype LinuxSandbox = LinuxSandbox(cgroupParent: string, security: Option<SandboxSecurity>)

  datatype SandboxConfig = SandboxConfig(
    metadata: Metadata, hostname: string, logDirectory: string, dns: Option<DnsConfig>,
    portMappings: seq<PortMapping>, labels: map<string, string>, annotations: map<string, string>,
    linux: Option<LinuxSandbox>)

  /** What generating an `app sandbox` command asks of its surroundings. */
  datatype SandboxWorld = SandboxWorld(
    labelOrder: seq<string>, annotationOrder: seq<string>, logDirectoryReady: bool,
    hostname: Option<string>)

  ghost predicate HonestSandbox(config: SandboxConfig, w: SandboxWorld)
  {
    && config.metadata.attempt < UINT32_LIMIT
    && Enumerates(w.labelOrder, config.labels)
    && Enumerates(w.annotationOrder, config.annotations)
  }

  // ----- answers -----

  datatype ContainerState = ContainerUnknown | ContainerCreated | ContainerRunning | ContainerExited

  datatype ContainerStatus = ContainerStatus(
    id: string, name: string, attempt: nat, state: ContainerState, createdAt: int, startedAt: int,
    finishedAt: int, exitCode: int, imageRef: string, image: string, labels: map<string, string>,
    annotations: map<string, string>, mounts: seq<Mount>)

  datatype Container = Container(
    id: string, podSandboxId: string, name: string, attempt: nat, image: string, imageRef: string,
    state: ContainerState, createdAt: int, labels: map<string, string>, annotations: map<string, string>)

  datatype SandboxStatus = SandboxStatus(
    id: string, metadata: Metadata, ready: bool, createdAt: int, ip: string,
    labels: map<string, string>, annotations: map<string, string>)

  datatype PodSandbox = PodSandbox(
    id: string, metadata: Metadata, ready: bool, createdAt: int, labels: map<string, string>)

  // ----- filters -----

  /** Empty texts and absent states do not restrict. */
  datatype ContainerFilter = ContainerFilter(
    id: string, state: Option<ContainerState>, podSandboxId: string, labelSelector: map<string, string>)

  datatype SandboxFilter = SandboxFilter(id: string, ready: Option<bool>, labelSelector: map<string, string>)

  predicate Selects(selector: map<string, string>, labels: map<string, string>)
  {
    forall k :: k in selector ==> k in labels && labels[k] == selector[k]
  }

  predicate PassFilter(c: Container, filter: Option<ContainerFilter>)
  {
    filter.None? ||
    var f := filter.value;
    && (f.id == "" || f.id == c.id)
    && (f.state.None? || f.state.value == c.state)
    && (f.podSandboxId == "" || f.podSandboxId == c.podSandboxId)
    && Selects(f.labelSelector, c.labels)
  }

  predicate SandboxPasses(id: string, ready: bool, labels: map<string, string>, filter: Option<SandboxFilter>)
  {
    filter.None? ||
    var f := filter.value;
    && (f.id == "" || f.id == id)
    && (f.ready.None? || f.ready.value == ready)
    && Selects(f.labelSelector, labels)
  }
}
