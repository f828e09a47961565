/** All that callers can see: two maps, from ids to what the status calls answer. Every call updates the
    maps and answers from them alone; neither order, nor records, nor any text that rkt keeps plays a part. */
module Registry {
  import opened Wrappers
  import opened Text
  import opened Lists
  import opened Identity
  import opened Cri
  import opened Conversion
  import opened ImageNames
  import opened Database
  import opened Runs
  import opened Frames
  import Refinement
  import StopErrors
  import R = Rkt

  datatype Statuses = Statuses(sandboxes: map<string, SandboxStatus>, containers: map<string, ContainerStatus>)

  function Get<T>(m: map<string, T>, id: string): Option<T> { if id in m then Some(m[id]) else None }

  /** The sandbox part of a container ID. */
  function SandboxOf(containerID: string): string
  {
    match SplitFirst(containerID, ':') case None => containerID case Some((uuid, _)) => uuid
  }

  /** The ID in the form in which it is handed out. */
  function Normalized(containerID: string): string
  {
    match ParseContainerID(containerID) case Err(_) => containerID case Ok((uuid, app)) => BuildContainerID(uuid, app)
  }

  predicate Knows(st: Statuses, containerID: string)
  {
    ParseContainerID(containerID).Ok? && Normalized(containerID) in st.containers
  }

  /** The answer of ContainerStatus. */
  function StatusReply(st: Statuses, containerID: string): Option<ContainerStatus>
  {
    if Knows(st, containerID) then Some(st.containers[Normalized(containerID)]) else None
  }

  // ----- the calls -----

  function RunOn(st: Statuses, config: SandboxConfig, l: Launch): (Statuses, RunReply)
    requires HonestSandbox(config, l.w)
  {
    if !StartsUp(config, l) || l.answer.uuid in st.sandboxes then (st, RunReply(None, false))
    else
      var s := SandboxStatusOf(NewSandbox(config, l));
      (st.(sandboxes := st.sandboxes[s.id := s]),
       if Found(l.polls) then RunReply(Some(s.id), s.ready) else RunReply(None, false))
  }

  function Halted(s: ContainerStatus): ContainerStatus
  {
    if s.state.ContainerRunning? then s.(state := ContainerExited) else s
  }

  function StopOn(st: Statuses, id: string, a: R.Answer): (Statuses, bool)
  {
    if id !in st.sandboxes then (st, false)
    else if !st.sandboxes[id].ready then (st, true)
    else if a.refusal.Some? then (st, StopErrors.Tolerated(a.refusal.value))
    else
      (Statuses(st.sandboxes[id := st.sandboxes[id].(ready := false)],
                map c | c in st.containers ::
                  if SandboxOf(c) == id then Halted(st.containers[c]) else st.containers[c]), true)
  }

  /** Everything but one sandbox and its containers. */
  function Without(st: Statuses, id: string): Statuses
  {
    Statuses(st.sandboxes - {id}, map c | c in st.containers && SandboxOf(c) != id :: st.containers[c])
  }

  function RemoveOn(st: Statuses, id: string, stop: R.Answer, remove: R.Answer): (Statuses, bool)
  {
    var stopped := StopOn(st, id, stop).0;
    if id !in stopped.sandboxes || stopped.sandboxes[id].ready || remove.refusal.Some? then (stopped, false)
    else (Without(stopped, id), true)
  }

  function CreateOn(st: Statuses, parse: Parser, req: CreateContainerRequest, w: AddWorld, a: R.Answer)
    : (Statuses, Option<string>)
    requires Honest(req.config, w)
  {
    if !Creatable(parse, req.config, w) || Minded(req.config, a) || a.refusal.Some? then (st, None)
    else
      var s := StatusOf(req.podSandboxId, NewRecord(req.config, req.config.image.value, w, a));
      if req.podSandboxId !in st.sandboxes || s.id in st.containers then (st, None)
      else (st.(containers := st.containers[s.id := s]), Some(s.id))
  }

  function OnContainerOn(st: Statuses, verb: Verb, containerID: string, a: R.Answer): (Statuses, bool)
  {
    if !Knows(st, containerID) then (st, false)
    else if verb.Query? then (st, true)
    else if a.refusal.Some? then (st, false)
    else
      var id := Normalized(containerID);
      match Changed(st.containers[id], verb, a)
      case None => (st.(containers := st.containers - {id}), true)
      case Some(s) => (st.(containers := st.containers[id := s]), true)
  }

  function Reported(s: ContainerStatus, r: R.Report): ContainerStatus
  {
    s.(state := StateOf(r.state), createdAt := OrZero(r.createdAt), startedAt := OrZero(r.startedAt),
       finishedAt := OrZero(r.finishedAt), exitCode := OrZero(r.exitCode), imageRef := r.imageID, mounts := r.mounts)
  }

  function PodDriftOn(st: Statuses, id: string, state: string): Statuses
  {
    if id in st.sandboxes
    then st.(sandboxes := st.sandboxes[id := st.sandboxes[id].(ready := state == "running")]) else st
  }

  function DriftOn(st: Statuses, containerID: string, r: R.Report): Statuses
  {
    var id := Normalized(containerID);
    if Knows(st, containerID) then st.(containers := st.containers[id := Reported(st.containers[id], r)]) else st
  }

  ghost function Perform(st: Statuses, parse: Parser, op: Op): (Statuses, Reply)
    requires HonestOp(op)
  {
    match op
    case RunPodSandbox(config, l) => var (st', r) := RunOn(st, config, l); (st', Ran(r))
    case StopPodSandbox(id, a) => var (st', ok) := StopOn(st, id, a); (st', Answered(ok))
    case RemovePodSandbox(id, s, r) => var (st', gone) := RemoveOn(st, id, s, r); (st', Removed(gone))
    case CreateContainer(req, w, a) => var (st', id) := CreateOn(st, parse, req, w, a); (st', Created(id))
    case OnContainer(verb, id, a) => var (st', ok) := OnContainerOn(st, verb, id, a); (st', Answered(ok))
    case PodDrifts(id, state) => (PodDriftOn(st, id, state), Nothing)
    case ContainerDrifts(containerID, r) => (DriftOn(st, containerID, r), Nothing)
  }

  ghost function PerformAll(parse: Parser, ops: seq<Op>): (r: (Statuses, seq<Reply>))
    requires HonestRun(ops)
    ensures |r.1| == |ops|
    decreases |ops|
  {
    if ops == [] then (Statuses(map[], map[]), [])
    else
      var (st, replies) := PerformAll(parse, ops[..|ops| - 1]);
      var (st', reply) := Perform(st, parse, ops[|ops| - 1]);
      (st', replies + [reply])
  }

  // ----- the database and the maps -----

  ghost predicate SandboxesMirror(db: Db, sandboxes: map<string, SandboxStatus>)
  {
    forall id :: SandboxStatusReply(db, id) == Get(sandboxes, id)
  }

  /** Well-formed IDs on both sides: the sandbox part has no colon. */
  ghost predicate ContainersMirror(db: Db, containers: map<string, ContainerStatus>)
  {
    && (forall u, n :: ':' !in u ==> StatusAt(db, u, n) == Get(containers, BuildContainerID(u, n)))
    && (forall c :: c in containers ==> ':' in c)
  }

  ghost predicate Mirrors(db: Db, st: Statuses)
  {
    WellFormed(db) && SandboxesMirror(db, st.sandboxes) && ContainersMirror(db, st.containers)
  }

  lemma PartsOf(c: string) returns (u: string, n: string)
    requires ':' in c
    ensures c == BuildContainerID(u, n) && ':' !in u && SandboxOf(c) == u
  {
    var p := SplitFirst(c, ':').value;
    u, n := p.0, p.1;
  }

  lemma SandboxOfBuilt(u: string, n: string)
    requires ':' !in u
    ensures SandboxOf(BuildContainerID(u, n)) == u
  {
    SplitFirstOfJoin(u, ':', n);
  }

  lemma SameID(u: string, n: string, v: string, m: string)
    requires ':' !in u && ':' !in v
    ensures BuildContainerID(u, n) == BuildContainerID(v, m) <==> u == v && n == m
  {
    if BuildContainerID(u, n) == BuildContainerID(v, m) {
      UniqueSplit(u, n, v, m, ':');
    }
  }

  /** What the parser makes of an ID has no colon in its sandbox part. */
  lemma ParsedParts(containerID: string)
    requires ParseContainerID(containerID).Ok?
    ensures
      var (u, n) := ParseContainerID(containerID).value;
      ':' !in u && Normalized(containerID) == BuildContainerID(u, n)
  {
  }

  lemma MirroredReply(db: Db, st: Statuses, containerID: string)
    requires Mirrors(db, st)
    ensures ContainerStatusReply(db, containerID) == StatusReply(st, containerID)
  {
    StatusShowsRecord(db, containerID);
    if ParseContainerID(containerID).Ok? {
      ParsedParts(containerID);
      var (u, n) := ParseContainerID(containerID).value;
      assert StatusAt(db, u, n) == Get(st.containers, BuildContainerID(u, n));
    }
  }

  lemma MirroredSandbox(db: Db, st: Statuses, id: string)
    requires Mirrors(db, st)
    ensures id in st.sandboxes <==> id in Ids(db)
    ensures id in st.sandboxes ==>
      SandboxAt(db, id).Some? && st.sandboxes[id] == SandboxStatusOf(SandboxAt(db, id).value)
  {
    assert SandboxStatusReply(db, id) == Get(st.sandboxes, id);
  }

  // ----- each call -----

  lemma RunMirrors(db: Db, st: Statuses, config: SandboxConfig, l: Launch)
    requires Mirrors(db, st) && HonestSandbox(config, l.w)
    ensures
      var (db', r) := RunSandbox(db, config, l);
      var (st', r') := RunOn(st, config, l);
      Mirrors(db', st') && r == r'
  {
    MirroredSandbox(db, st, l.answer.uuid);
    if Launches(db, config, l) {
      var s, position := NewSandbox(config, l), l.answer.position;
      var db' := InsertAt(db, position, s);
      WithSandbox(db, position, s);
      forall id ensures SandboxStatusReply(db', id) == Get(RunOn(st, config, l).0.sandboxes, id) {
        AtInserted(db, position, s, id);
        assert SandboxStatusReply(db, id) == Get(st.sandboxes, id);
      }
      forall u, n | ':' !in u ensures StatusAt(db', u, n) == Get(st.containers, BuildContainerID(u, n)) {
        AtInserted(db, position, s, u);
      }
    }
  }

  lemma HaltedStatus(uuid: string, r: Record)
    ensures StatusOf(uuid, r.(report := R.Stopped(r.report))) == Halted(StatusOf(uuid, r))
  {
  }

  lemma StopMirrors(db: Db, st: Statuses, id: string, a: R.Answer)
    requires Mirrors(db, st)
    ensures
      var (db', ok) := StopSandbox(db, id, a);
      var (st', ok') := StopOn(st, id, a);
      Mirrors(db', st') && ok == ok'
  {
    MirroredSandbox(db, st, id);
    match IndexOf(Ids(db), id)
    case None =>
    case Some(i) =>
      if db[i].state == "running" && a.refusal.None? {
        StoppedSandboxes(db, st, i, a);
        StoppedContainers(db, st, i, a);
      }
  }

  lemma StoppedSandboxes(db: Db, st: Statuses, i: nat, a: R.Answer)
    requires Mirrors(db, st) && i < |db| && db[i].state == "running" && a.refusal.None?
    ensures WellFormed(StopAt(db, i)) && SandboxesMirror(StopAt(db, i), StopOn(st, db[i].id, a).0.sandboxes)
  {
    var st' := StopOn(st, db[i].id, a).0;
    StopUpdates(db, i, db[i].id);
    MirroredSandbox(db, st, db[i].id);
    forall id ensures SandboxStatusReply(StopAt(db, i), id) == Get(st'.sandboxes, id) {
      StopUpdates(db, i, id);
      assert SandboxStatusReply(db, id) == Get(st.sandboxes, id);
    }
  }

  lemma StoppedContainers(db: Db, st: Statuses, i: nat, a: R.Answer)
    requires Mirrors(db, st) && i < |db| && db[i].state == "running" && a.refusal.None?
    ensures ContainersMirror(StopAt(db, i), StopOn(st, db[i].id, a).0.containers)
  {
    var st' := StopOn(st, db[i].id, a).0;
    StopUpdates(db, i, db[i].id);
    MirroredSandbox(db, st, db[i].id);
    forall u, n | ':' !in u ensures StatusAt(StopAt(db, i), u, n) == Get(st'.containers, BuildContainerID(u, n)) {
      StopUpdates(db, i, u);
      SandboxOfBuilt(u, n);
      assert StatusAt(db, u, n) == Get(st.containers, BuildContainerID(u, n));
      if u == db[i].id {
        FindStopped(db[i].records, n);
        if RecordAt(db, u, n).Some? { HaltedStatus(u, RecordAt(db, u, n).value); }
      }
    }
  }

  lemma RemoveMirrors(db: Db, st: Statuses, id: string, stop: R.Answer, remove: R.Answer)
    requires Mirrors(db, st)
    ensures
      var (db', gone) := RemoveSandbox(db, id, stop, remove);
      var (st', gone') := RemoveOn(st, id, stop, remove);
      Mirrors(db', st') && gone == gone'
  {
    StopMirrors(db, st, id, stop);
    var stopped, seen := StopSandbox(db, id, stop).0, StopOn(st, id, stop).0;
    MirroredSandbox(stopped, seen, id);
    if RemoveSandbox(db, id, stop, remove).1 {
      RemovalMirrors(stopped, seen, IndexOf(Ids(stopped), id).value);
    }
  }

  lemma RemovalMirrors(db: Db, st: Statuses, i: nat)
    requires Mirrors(db, st) && i < |db|
    ensures Mirrors(RemoveAt(db, i), Without(st, db[i].id))
  {
    WithoutSandbox(db, i);
    forall id ensures SandboxStatusReply(RemoveAt(db, i), id) == Get(Without(st, db[i].id).sandboxes, id) {
      AtRemoved(db, i, id);
      assert SandboxStatusReply(db, id) == Get(st.sandboxes, id);
    }
    forall u, n | ':' !in u
      ensures StatusAt(RemoveAt(db, i), u, n) == Get(Without(st, db[i].id).containers, BuildContainerID(u, n))
    {
      AtRemoved(db, i, u);
      SandboxOfBuilt(u, n);
      assert StatusAt(db, u, n) == Get(st.containers, BuildContainerID(u, n));
    }
  }

  /** An update of one container, as long as the sandboxes show the same. */
  lemma OneContainer(db: Db, db': Db, st: Statuses, uuid: string, name: string, after: Option<ContainerStatus>)
    requires Mirrors(db, st) && WellFormed(db') && ':' !in uuid
    requires forall id :: SandboxStatusReply(db', id) == SandboxStatusReply(db, id)
    requires forall u, n :: StatusAt(db', u, n) == if u == uuid && n == name then after else StatusAt(db, u, n)
    ensures
      var id := BuildContainerID(uuid, name);
      match after
      case None => Mirrors(db', st.(containers := st.containers - {id}))
      case Some(s) => Mirrors(db', st.(containers := st.containers[id := s]))
  {
    var id := BuildContainerID(uuid, name);
    var containers := match after case None => st.containers - {id} case Some(s) => st.containers[id := s];
    forall u, n | ':' !in u ensures StatusAt(db', u, n) == Get(containers, BuildContainerID(u, n)) {
      SameID(u, n, uuid, name);
      assert StatusAt(db, u, n) == Get(st.containers, BuildContainerID(u, n));
    }
    assert id[|uuid|] == ':';
  }

  lemma CreateMirrors(db: Db, st: Statuses, parse: Parser, req: CreateContainerRequest, w: AddWorld, a: R.Answer)
    requires Mirrors(db, st) && Honest(req.config, w)
    ensures
      var (db', id) := Create(db, parse, req, w, a);
      var (st', id') := CreateOn(st, parse, req, w, a);
      Mirrors(db', st') && id == id'
  {
    var (db', id) := Create(db, parse, req, w, a);
    if id.Some? {
      CreatedMirrors(db, st, parse, req, w, a);
    } else if Creatable(parse, req.config, w) && !Minded(req.config, a) {
      MirroredSandbox(db, st, req.podSandboxId);
      TakenName(db, st, req.podSandboxId, NewRecord(req.config, req.config.image.value, w, a));
    }
  }

  /** A name that is taken in a known sandbox is a known container. */
  lemma TakenName(db: Db, st: Statuses, uuid: string, r: Record)
    requires Mirrors(db, st)
    ensures uuid in Ids(db) ==>
      var names := Names(SandboxAt(db, uuid).value.records);
      AppName(r.key) in names <==> BuildContainerID(uuid, AppName(r.key)) in st.containers
  {
    if uuid in Ids(db) {
      Refinement.UuidHasNoQuote(db[IndexOf(Ids(db), uuid).value].id);
      assert StatusAt(db, uuid, AppName(r.key)) == Get(st.containers, BuildContainerID(uuid, AppName(r.key)));
    }
  }

  lemma CreatedStatus(db: Db, parse: Parser, req: CreateContainerRequest, w: AddWorld, a: R.Answer)
    requires WellFormed(db) && Honest(req.config, w) && Create(db, parse, req, w, a).1.Some?
    ensures
      var db' := Create(db, parse, req, w, a).0;
      var uuid, r := req.podSandboxId, NewRecord(req.config, req.config.image.value, w, a);
      forall u, n :: StatusAt(db', u, n) ==
        if u == uuid && n == AppName(r.key) then Some(StatusOf(uuid, r)) else StatusAt(db, u, n)
  {
    var db' := Create(db, parse, req, w, a).0;
    var uuid, r := req.podSandboxId, NewRecord(req.config, req.config.image.value, w, a);
    forall u, n
      ensures StatusAt(db', u, n)
           == if u == uuid && n == AppName(r.key) then Some(StatusOf(uuid, r)) else StatusAt(db, u, n)
    {
      CreateUpdates(db, parse, req, w, a, u, n);
    }
  }

  lemma CreatedMirrors(db: Db, st: Statuses, parse: Parser, req: CreateContainerRequest, w: AddWorld, a: R.Answer)
    requires Mirrors(db, st) && Honest(req.config, w) && Create(db, parse, req, w, a).1.Some?
    ensures Mirrors(Create(db, parse, req, w, a).0, CreateOn(st, parse, req, w, a).0)
    ensures Create(db, parse, req, w, a).1 == CreateOn(st, parse, req, w, a).1
  {
    var db' := Create(db, parse, req, w, a).0;
    var uuid, r := req.podSandboxId, NewRecord(req.config, req.config.image.value, w, a);
    CreateUpdates(db, parse, req, w, a, "", "");
    Refinement.UuidHasNoQuote(uuid);
    MirroredSandbox(db, st, uuid);
    TakenName(db, st, uuid, r);
    CreatedStatus(db, parse, req, w, a);
    var i := IndexOf(Ids(db), uuid).value;
    assert db' == db[i := db'[i]];
    SameShownSandboxes(db, i, db'[i]);
    OneContainer(db, db', st, uuid, AppName(r.key), Some(StatusOf(uuid, r)));
  }

  /** New records do not show in the status of their sandbox. */
  lemma SameShownSandboxes(db: Db, i: nat, s: Sandbox)
    requires Distinct(Ids(db)) && i < |db| && s == db[i].(records := s.records)
    ensures forall id :: SandboxStatusReply(db[i := s], id) == SandboxStatusReply(db, id)
  {
    forall id ensures SandboxStatusReply(db[i := s], id) == SandboxStatusReply(db, id) {
      AtReplaced(db, i, s, id);
    }
  }

  lemma VerbStatus(db: Db, verb: Verb, containerID: string, a: R.Answer, u: string, n: string)
    requires WellFormed(db) && Database.OnContainer(db, verb, containerID, a).1 && !verb.Query?
    ensures ContainerStatusReply(db, containerID).Some?
    ensures
      var db' := Database.OnContainer(db, verb, containerID, a).0;
      && WellFormed(db')
      && StatusAt(db', u, n) ==
           if ParseContainerID(containerID) == Ok((u, n))
           then Changed(ContainerStatusReply(db, containerID).value, verb, a) else StatusAt(db, u, n)
  {
    VerbUpdates(db, verb, containerID, a, u, n);
    StatusShowsRecord(db, containerID);
    var (uuid, name) := ParseContainerID(containerID).value;
    if verb.Start? || verb.Stop? {
      ResultingStatus(uuid, RecordAt(db, uuid, name).value, verb, a);
    }
  }

  lemma VerbMirrors(db: Db, st: Statuses, verb: Verb, containerID: string, a: R.Answer)
    requires Mirrors(db, st)
    ensures
      var (db', ok) := Database.OnContainer(db, verb, containerID, a);
      var (st', ok') := OnContainerOn(st, verb, containerID, a);
      Mirrors(db', st') && ok == ok'
  {
    MirroredReply(db, st, containerID);
    if Database.OnContainer(db, verb, containerID, a).1 && !verb.Query? {
      EffectMirrors(db, st, verb, containerID, a);
    }
  }

  lemma EffectMirrors(db: Db, st: Statuses, verb: Verb, containerID: string, a: R.Answer)
    requires Mirrors(db, st) && Database.OnContainer(db, verb, containerID, a).1 && !verb.Query?
    requires ContainerStatusReply(db, containerID) == StatusReply(st, containerID)
    ensures Mirrors(Database.OnContainer(db, verb, containerID, a).0, OnContainerOn(st, verb, containerID, a).0)
    ensures OnContainerOn(st, verb, containerID, a).1
  {
    var db' := Database.OnContainer(db, verb, containerID, a).0;
    VerbStatus(db, verb, containerID, a, "", "");
    ParsedParts(containerID);
    var (uuid, name) := ParseContainerID(containerID).value;
    var after := Changed(StatusReply(st, containerID).value, verb, a);
    forall u, n ensures StatusAt(db', u, n) == if u == uuid && n == name then after else StatusAt(db, u, n) {
      VerbStatus(db, verb, containerID, a, u, n);
    }
    var i := Locate(db, containerID).value.0;
    assert db' == db[i := db'[i]];
    SameShownSandboxes(db, i, db'[i]);
    OneContainer(db, db', st, uuid, name, after);
  }

  lemma PodDriftMirrors(db: Db, st: Statuses, pod: string, state: string)
    requires Mirrors(db, st)
    ensures Mirrors(DriftPod(db, pod, state), PodDriftOn(st, pod, state))
  {
    MirroredSandbox(db, st, pod);
    match IndexOf(Ids(db), pod)
    case None =>
    case Some(i) =>
      var s := db[i].(state := state);
      SameKeys(db, i, s);
      forall id ensures SandboxStatusReply(db[i := s], id) == Get(PodDriftOn(st, pod, state).sandboxes, id) {
        AtReplaced(db, i, s, id);
        assert SandboxStatusReply(db, id) == Get(st.sandboxes, id);
      }
      forall u, n ensures StatusAt(db[i := s], u, n) == StatusAt(db, u, n) {
        AtReplaced(db, i, s, u);
      }
  }

  lemma ReportedStatus(uuid: string, r: Record, report: R.Report)
    ensures StatusOf(uuid, r.(report := report)) == Reported(StatusOf(uuid, r), report)
  {
  }

  lemma DriftStatus(db: Db, containerID: string, report: R.Report, u: string, n: string)
    requires WellFormed(db) && Locate(db, containerID).Some?
    ensures ContainerStatusReply(db, containerID).Some?
    ensures
      var db' := DriftContainer(db, containerID, report);
      && WellFormed(db')
      && StatusAt(db', u, n) ==
           if ParseContainerID(containerID) == Ok((u, n))
           then Some(Reported(ContainerStatusReply(db, containerID).value, report)) else StatusAt(db, u, n)
  {
    var (i, j) := Locate(db, containerID).value;
    ReportSet(db, i, j, report, u, n);
    ReportedStatus(db[i].id, db[i].records[j], report);
  }

  lemma ContainerDriftMirrors(db: Db, st: Statuses, containerID: string, report: R.Report)
    requires Mirrors(db, st)
    ensures Mirrors(DriftContainer(db, containerID, report), DriftOn(st, containerID, report))
  {
    MirroredReply(db, st, containerID);
    if Locate(db, containerID).Some? {
      DriftedMirrors(db, st, containerID, report);
    }
  }

  lemma DriftedMirrors(db: Db, st: Statuses, containerID: string, report: R.Report)
    requires Mirrors(db, st) && Locate(db, containerID).Some?
    requires ContainerStatusReply(db, containerID) == StatusReply(st, containerID)
    ensures Knows(st, containerID)
    ensures
      var id := Normalized(containerID);
      Mirrors(DriftContainer(db, containerID, report),
              st.(containers := st.containers[id := Reported(st.containers[id], report)]))
  {
    var db' := DriftContainer(db, containerID, report);
    DriftStatus(db, containerID, report, "", "");
    ParsedParts(containerID);
    var (uuid, name) := ParseContainerID(containerID).value;
    var after := Some(Reported(StatusReply(st, containerID).value, report));
    forall u, n ensures StatusAt(db', u, n) == if u == uuid && n == name then after else StatusAt(db, u, n) {
      DriftStatus(db, containerID, report, u, n);
    }
    var i := Locate(db, containerID).value.0;
    assert db' == db[i := db'[i]];
    SameShownSandboxes(db, i, db'[i]);
    OneContainer(db, db', st, uuid, name, after);
  }

  /** Every step, whatever rkt answers, gives the reply that the maps give and keeps the database their mirror. */
  lemma StepMirrors(db: Db, st: Statuses, parse: Parser, op: Op)
    requires Mirrors(db, st) && HonestOp(op)
    ensures
      var (db', reply) := Step(db, parse, op);
      var (st', reply') := Perform(st, parse, op);
      Mirrors(db', st') && reply == reply'
  {
    match op
    case RunPodSandbox(config, l) => RunMirrors(db, st, config, l);
    case StopPodSandbox(id, a) => StopMirrors(db, st, id, a);
    case RemovePodSandbox(id, stop, remove) => RemoveMirrors(db, st, id, stop, remove);
    case CreateContainer(req, w, a) => CreateMirrors(db, st, parse, req, w, a);
    case OnContainer(verb, id, a) => VerbMirrors(db, st, verb, id, a);
    case PodDrifts(id, state) => PodDriftMirrors(db, st, id, state);
    case ContainerDrifts(id, report) => ContainerDriftMirrors(db, st, id, report);
  }

  lemma {:induction false} RunsMirror(parse: Parser, ops: seq<Op>)
    requires HonestRun(ops)
    ensures
      var (db, replies) := Run(parse, ops);
      var (st, replies') := PerformAll(parse, ops);
      Mirrors(db, st) && replies == replies'
    decreases |ops|
  {
    if ops != [] {
      var n := |ops| - 1;
      RunsMirror(parse, ops[..n]);
      StepMirrors(Run(parse, ops[..n]).0, PerformAll(parse, ops[..n]).0, parse, ops[n]);
    }
  }
}
