/** The reference: a CRI runtime that keeps a database of typed records. A container ID is still a text, read
    once to find a record by the app name its key stands for; `Refinement.LocatedIff` says the same in terms of keys. */
module Database {
  import opened Wrappers
  import opened Lists
  import opened Annotations
  import opened AcName
  import opened Identity
  import opened Network
  import opened Cri
  import opened Conversion
  import opened ImageNames
  import AppAdd
  import Rkt
  import Systemd
  import StopErrors

  // ----- records -----

  datatype Record = Record(key: ContainerKey, report: Rkt.Report, image: string,
                           labels: map<string, string>, annotations: map<string, string>)

  datatype Sandbox = Sandbox(
    id: string, state: string, createdAt: Option<int>, networks: seq<NetInfo>, metadata: Metadata,
    labels: map<string, string>, annotations: map<string, string>, records: seq<Record>)

  type Db = seq<Sandbox>

  function Ids(db: Db): (ids: seq<string>)
    ensures |ids| == |db| && forall i :: 0 <= i < |db| ==> ids[i] == db[i].id
  {
    seq(|db|, i requires 0 <= i < |db| => db[i].id)
  }

  function Names(records: seq<Record>): (names: seq<string>)
    ensures |names| == |records| && forall i :: 0 <= i < |records| ==> names[i] == AppName(records[i].key)
  {
    seq(|records|, i requires 0 <= i < |records| => AppName(records[i].key))
  }

  ghost predicate WellFormed(db: Db)
  {
    && Distinct(Ids(db))
    && forall i :: 0 <= i < |db| ==>
         && Rkt.IsUuid(db[i].id)
         && Distinct(Names(db[i].records))
         && forall j :: 0 <= j < |db[i].records| ==> ValidKey(db[i].records[j].key)
  }

  // ----- calls on one container -----

  datatype Verb = Start | Stop | Remove | Query

  function Resulting(r: Rkt.Report, verb: Verb, a: Rkt.Answer): Rkt.Report
  {
    if verb.Start? then r.(state := "running", startedAt := a.report.startedAt)
    else r.(state := "exited", finishedAt := a.report.finishedAt, exitCode := a.report.exitCode)
  }

  /** The container an ID names: the ID is read up to the letter case of its app name. */
  function Locate(db: Db, containerID: string): Option<(nat, nat)>
  {
    match ParseContainerID(containerID)
    case Err(_) => None
    case Ok((uuid, appName)) =>
      match IndexOf(Ids(db), uuid)
      case None => None
      case Some(i) =>
        match IndexOf(Names(db[i].records), appName) case None => None case Some(j) => Some((i, j))
  }

  /** The effect on container `j` of sandbox `i`, and whether the call succeeds. */
  function ContainerEffect(db: Db, verb: Verb, i: nat, j: nat, a: Rkt.Answer): (Db, bool)
    requires i < |db| && j < |db[i].records|
  {
    var r := db[i].records;
    if verb.Query? then (db, true)
    else if a.refusal.Some? then (db, false)
    else if verb.Remove? then (db[i := db[i].(records := RemoveAt(r, j))], true)
    else (db[i := db[i].(records := r[j := r[j].(report := Resulting(r[j].report, verb, a))])], true)
  }

  function OnContainer(db: Db, verb: Verb, containerID: string, a: Rkt.Answer): (Db, bool)
  {
    match Locate(db, containerID)
    case None => (db, false)
    case Some((i, j)) => ContainerEffect(db, verb, i, j, a)
  }

  function StatusOf(uuid: string, r: Record): ContainerStatus
  {
    StatusFrom(BuildContainerID(uuid, AppName(r.key)), r.key.name, r.key.attempt, r.report, r.image, r.labels,
               r.annotations)
  }

  function ContainerStatusReply(db: Db, containerID: string): Option<ContainerStatus>
  {
    match Locate(db, containerID)
    case None => None
    case Some((i, j)) => Some(StatusOf(db[i].id, db[i].records[j]))
  }

  // ----- creating containers -----

  function NewRecord(config: ContainerConfig, image: string, w: AddWorld, a: Rkt.Answer): Record
    requires Honest(config, w) && Sanitize(config.name).Ok?
  {
    Record(ContainerKey(config.attempt, Sanitize(config.name).value), a.report, image,
           Wire(w.labelOrder, config.labels), Strip(Wire(w.annotationOrder, config.annotations)))
  }

  predicate Creatable(parse: Parser, config: ContainerConfig, w: AddWorld)
    requires Honest(config, w)
  {
    config.image.Some? && GetCanonicalImageName(parse, config.image.value).Ok? && AppAdd.Accepts(config, w)
  }

  /** The seccomp profile `docker/default` comes out as one operand too many, and rkt may mind. */
  predicate Minded(config: ContainerConfig, a: Rkt.Answer) { a.strict && AppAdd.BlankSeccomp(config) }

  /** A new record; its key must be free in the sandbox. */
  function AddTo(db: Db, id: string, r: Record, a: Rkt.Answer): (Db, bool)
  {
    match IndexOf(Ids(db), id)
    case None => (db, false)
    case Some(i) =>
      if AppName(r.key) in Names(db[i].records) || a.refusal.Some? then (db, false)
      else (db[i := db[i].(records := InsertAt(db[i].records, a.position, r))], true)
  }

  function Create(db: Db, parse: Parser, req: CreateContainerRequest, w: AddWorld, a: Rkt.Answer): (Db, Option<string>)
    requires Honest(req.config, w)
  {
    if !Creatable(parse, req.config, w) || Minded(req.config, a) then (db, None)
    else
      var r := NewRecord(req.config, req.config.image.value, w, a);
      var (db', ok) := AddTo(db, req.podSandboxId, r, a);
      (db', if ok then Some(BuildContainerID(req.podSandboxId, AppName(r.key))) else None)
  }

  // ----- sandboxes -----

  /** What the poller finds in the uuid file, attempt by attempt. */
  datatype Poll = ReadError | Empty | Written

  const POLL_LIMIT: nat := 100

  /** The first attempt that is not empty decides; without one in the first hundred the poller gives up. */
  predicate Found(polls: seq<Poll>)
  {
    exists i :: 0 <= i < |polls| && i < POLL_LIMIT && polls[i].Written? && forall j :: 0 <= j < i ==> polls[j].Empty?
  }

  /** Creating the temporary uuid file may fail. */
  datatype Launch =
    Launch(w: SandboxWorld, uuidFile: Option<string>, unitName: string, polls: seq<Poll>, answer: Rkt.Answer)

  function NewSandbox(config: SandboxConfig, l: Launch): Sandbox
    requires HonestSandbox(config, l.w)
  {
    Sandbox(l.answer.uuid, l.answer.podState, l.answer.createdAt, l.answer.networks, config.metadata,
            Wire(l.w.labelOrder, config.labels), Strip(Wire(l.w.annotationOrder, config.annotations)), [])
  }

  function CgroupParent(config: SandboxConfig): string
  {
    if config.linux.Some? then config.linux.value.cgroupParent else ""
  }

  /** Whether the launch is carried out, as far as that does not depend on the state. */
  predicate StartsUp(config: SandboxConfig, l: Launch)
  {
    && l.uuidFile.Some?
    && (config.logDirectory != "" || l.w.logDirectoryReady)
    && (CgroupParent(config) != "" ==> Systemd.CgroupParentToSliceName(CgroupParent(config)).Ok?)
    && l.answer.refusal.None? && Rkt.IsUuid(l.answer.uuid)
  }

  /** Whether a sandbox comes into being at all. */
  predicate Launches(db: Db, config: SandboxConfig, l: Launch) { StartsUp(config, l) && l.answer.uuid !in Ids(db) }

  /** The id handed out, if the poller saw it, and whether the call succeeded. */
  datatype RunReply = RunReply(id: Option<string>, ok: bool)

  function RunSandbox(db: Db, config: SandboxConfig, l: Launch): (Db, RunReply)
    requires HonestSandbox(config, l.w)
  {
    if !Launches(db, config, l) then (db, RunReply(None, false))
    else
      var s := NewSandbox(config, l);
      (InsertAt(db, l.answer.position, s),
       if Found(l.polls) then RunReply(Some(s.id), s.state == "running") else RunReply(None, false))
  }

  function StopRecords(records: seq<Record>): (r: seq<Record>)
    ensures |r| == |records|
    ensures forall i :: 0 <= i < |records| ==> r[i] == records[i].(report := Rkt.Stopped(records[i].report))
  {
    seq(|records|, i requires 0 <= i < |records| => records[i].(report := Rkt.Stopped(records[i].report)))
  }

  function StopAt(db: Db, i: nat): Db
    requires i < |db|
  {
    db[i := db[i].(state := "exited", records := StopRecords(db[i].records))]
  }

  /** Stopping succeeds on every known sandbox unless rkt refuses for a reason that is not tolerated. */
  function StopSandbox(db: Db, id: string, a: Rkt.Answer): (Db, bool)
  {
    match IndexOf(Ids(db), id)
    case None => (db, false)
    case Some(i) =>
      if db[i].state != "running" then (db, true)
      else if a.refusal.Some? then (db, StopErrors.Tolerated(a.refusal.value))
      else (StopAt(db, i), true)
  }

  /** A sandbox goes away once it is not running; the flag says whether it is gone. */
  function RemoveSandbox(db: Db, id: string, stop: Rkt.Answer, remove: Rkt.Answer): (Db, bool)
  {
    var stopped := StopSandbox(db, id, stop).0;
    match IndexOf(Ids(stopped), id)
    case None => (stopped, false)
    case Some(i) =>
      if stopped[i].state == "running" || remove.refusal.Some? then (stopped, false)
      else (RemoveAt(stopped, i), true)
  }

  function SandboxStatusOf(s: Sandbox): SandboxStatus
  {
    SandboxFrom(s.id, s.metadata, s.state, s.createdAt, s.networks, s.labels, s.annotations)
  }

  function SandboxStatusReply(db: Db, id: string): Option<SandboxStatus>
  {
    match IndexOf(Ids(db), id) case None => None case Some(i) => Some(SandboxStatusOf(db[i]))
  }

  // ----- listings -----

  function ContainerOf(s: Sandbox, r: Record): Container
  {
    Container(BuildContainerID(s.id, AppName(r.key)), s.id, r.key.name, r.key.attempt, r.image, r.report.imageID,
              StateOf(r.report.state), OrZero(r.report.createdAt), r.labels, r.annotations)
  }

  function ContainersIn(s: Sandbox, records: seq<Record>, filter: Option<ContainerFilter>): seq<Container>
    decreases |records|
  {
    if records == [] then []
    else
      var c := ContainerOf(s, records[|records| - 1]);
      ContainersIn(s, records[..|records| - 1], filter) + (if PassFilter(c, filter) then [c] else [])
  }

  function ListContainers(db: Db, filter: Option<ContainerFilter>): seq<Container>
    decreases |db|
  {
    if db == [] then []
    else
      var s := db[|db| - 1];
      ListContainers(db[..|db| - 1], filter) + ContainersIn(s, s.records, filter)
  }

  function ListSandboxes(db: Db, filter: Option<SandboxFilter>): seq<PodSandbox>
    decreases |db|
  {
    if db == [] then []
    else
      var item := Item(SandboxStatusOf(db[|db| - 1]));
      ListSandboxes(db[..|db| - 1], filter)
      + (if SandboxPasses(item.id, item.ready, item.labels, filter) then [item] else [])
  }

  // ----- changes that happen on their own -----

  /** Containers start and exit, and pods change state, without being asked. */
  function DriftPod(db: Db, id: string, state: string): Db
  {
    match IndexOf(Ids(db), id) case None => db case Some(i) => db[i := db[i].(state := state)]
  }

  function DriftContainer(db: Db, containerID: string, report: Rkt.Report): Db
  {
    match Locate(db, containerID)
    case None => db
    case Some((i, j)) => db[i := db[i].(records := db[i].records[j := db[i].records[j].(report := report)])]
  }
}
