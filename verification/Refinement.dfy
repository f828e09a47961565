/** How rkt's pods represent the database, and that rkt's effects keep the two in step. */
module Refinement {
  import opened Wrappers
  import opened Lists
  import opened Flags
  import opened Annotations
  import opened AcName
  import opened Identity
  import opened Cri
  import opened Conversion
  import opened Database
  import Listing
  import R = Rkt
  import ImageNames
  import Systemd
  import StopErrors

  // ----- the representation -----

  ghost predicate Encodes(a: R.App, r: Record)
  {
    && ValidKey(r.key)
    && a.name == AppName(r.key)
    && a.report == r.report
    && a.labels == r.labels
    && GetImageName(a.annotations) == r.image
    && Strip(a.annotations) == r.annotations
  }

  ghost predicate EncodesAll(apps: seq<R.App>, records: seq<Record>)
  {
    |apps| == |records| && forall j :: 0 <= j < |apps| ==> Encodes(apps[j], records[j])
  }

  ghost predicate EncodesPod(p: R.Pod, s: Sandbox)
  {
    && R.IsUuid(s.id) && p.uuid == s.id
    && p.state == s.state && p.createdAt == s.createdAt && p.networks == s.networks && p.labels == s.labels
    && POD_UID_KEY in p.annotations
    && GetMetadata(p.annotations) == Ok(s.metadata)
    && Strip(p.annotations) == s.annotations
    && EncodesAll(p.apps, s.records)
    && Distinct(Names(s.records))
  }

  /** rkt's pods, in rkt's order, hold exactly the sandboxes of the database. */
  ghost predicate Represents(pods: seq<R.Pod>, db: Db)
  {
    && |pods| == |db|
    && (forall i :: 0 <= i < |pods| ==> EncodesPod(pods[i], db[i]))
    && Distinct(Ids(db))
  }

  lemma RepresentedIsWellFormed(pods: seq<R.Pod>, db: Db)
    requires Represents(pods, db)
    ensures WellFormed(db)
  {
    forall i | 0 <= i < |db|
      ensures R.IsUuid(db[i].id) && Distinct(Names(db[i].records))
      ensures forall j :: 0 <= j < |db[i].records| ==> ValidKey(db[i].records[j].key)
    {
      assert EncodesPod(pods[i], db[i]);
      forall j | 0 <= j < |db[i].records| ensures ValidKey(db[i].records[j].key) {
        assert Encodes(pods[i].apps[j], db[i].records[j]);
      }
    }
  }

  lemma SameIds(pods: seq<R.Pod>, db: Db)
    requires Represents(pods, db)
    ensures R.Uuids(pods) == Ids(db)
  {
    forall i | 0 <= i < |pods| ensures R.Uuids(pods)[i] == Ids(db)[i] {
      assert EncodesPod(pods[i], db[i]);
    }
  }

  lemma SameNames(apps: seq<R.App>, records: seq<Record>)
    requires EncodesAll(apps, records)
    ensures R.AppNames(apps) == Names(records)
  {
    forall j | 0 <= j < |apps| ensures R.AppNames(apps)[j] == Names(records)[j] {
      assert Encodes(apps[j], records[j]);
    }
  }

  // ----- changes at one place -----

  lemma IdsInserted(db: Db, position: nat, s: Sandbox)
    ensures Ids(InsertAt(db, position, s)) == InsertAt(Ids(db), position, s.id)
  {
    forall j | 0 <= j <= |db| ensures Ids(InsertAt(db, position, s))[j] == InsertAt(Ids(db), position, s.id)[j] {
      OriginInserted(db, position, s, j);
      OriginInserted(Ids(db), position, s.id, j);
    }
  }

  lemma IdsRemoved(db: Db, i: nat)
    requires i < |db|
    ensures Ids(RemoveAt(db, i)) == RemoveAt(Ids(db), i)
  {
    forall j | 0 <= j < |db| - 1 ensures Ids(RemoveAt(db, i))[j] == RemoveAt(Ids(db), i)[j] {
      OriginRemoved(db, i, j);
      OriginRemoved(Ids(db), i, j);
    }
  }

  lemma NamesRemoved(records: seq<Record>, j: nat)
    requires j < |records|
    ensures Names(RemoveAt(records, j)) == RemoveAt(Names(records), j)
  {
    forall k | 0 <= k < |records| - 1 ensures Names(RemoveAt(records, j))[k] == RemoveAt(Names(records), j)[k] {
      OriginRemoved(records, j, k);
      OriginRemoved(Names(records), j, k);
    }
  }

  lemma NamesInserted(records: seq<Record>, position: nat, r: Record)
    ensures Names(InsertAt(records, position, r)) == InsertAt(Names(records), position, AppName(r.key))
  {
    forall k | 0 <= k <= |records|
      ensures Names(InsertAt(records, position, r))[k] == InsertAt(Names(records), position, AppName(r.key))[k]
    {
      OriginInserted(records, position, r, k);
      OriginInserted(Names(records), position, AppName(r.key), k);
    }
  }

  lemma PodChanges(pods: seq<R.Pod>, db: Db, i: nat, p: R.Pod, s: Sandbox)
    requires Represents(pods, db) && i < |pods|
    requires EncodesPod(p, s) && s.id == db[i].id
    ensures Represents(pods[i := p], db[i := s])
  {
    assert Ids(db[i := s]) == Ids(db);
  }

  lemma PodInserted(pods: seq<R.Pod>, db: Db, position: nat, p: R.Pod, s: Sandbox)
    requires Represents(pods, db) && EncodesPod(p, s) && s.id !in Ids(db)
    ensures Represents(InsertAt(pods, position, p), InsertAt(db, position, s))
  {
    IdsInserted(db, position, s);
    InsertDistinct(Ids(db), position, s.id);
    var pods', db' := InsertAt(pods, position, p), InsertAt(db, position, s);
    forall i | 0 <= i < |pods'| ensures EncodesPod(pods'[i], db'[i]) {
      OriginInserted(pods, position, p, i);
      OriginInserted(db, position, s, i);
    }
  }

  lemma PodRemoved(pods: seq<R.Pod>, db: Db, i: nat)
    requires Represents(pods, db) && i < |pods|
    ensures Represents(RemoveAt(pods, i), RemoveAt(db, i))
  {
    IdsRemoved(db, i);
    RemoveDistinct(Ids(db), i);
  }

  lemma AppsChange(pods: seq<R.Pod>, db: Db, i: nat, apps: seq<R.App>, records: seq<Record>)
    requires Represents(pods, db) && i < |pods|
    requires EncodesAll(apps, records) && Distinct(Names(records))
    ensures Represents(pods[i := pods[i].(apps := apps)], db[i := db[i].(records := records)])
  {
    assert EncodesPod(pods[i], db[i]);
    PodChanges(pods, db, i, pods[i].(apps := apps), db[i].(records := records));
  }

  lemma ReportChanges(apps: seq<R.App>, records: seq<Record>, j: nat, report: R.Report)
    requires EncodesAll(apps, records) && j < |apps| && Distinct(Names(records))
    ensures EncodesAll(apps[j := apps[j].(report := report)], records[j := records[j].(report := report)])
    ensures Distinct(Names(records[j := records[j].(report := report)]))
  {
    assert Encodes(apps[j], records[j]);
    assert Names(records[j := records[j].(report := report)]) == Names(records);
  }

  lemma AppRemoved(apps: seq<R.App>, records: seq<Record>, j: nat)
    requires EncodesAll(apps, records) && j < |apps| && Distinct(Names(records))
    ensures EncodesAll(RemoveAt(apps, j), RemoveAt(records, j))
    ensures Distinct(Names(RemoveAt(records, j)))
  {
    NamesRemoved(records, j);
    RemoveDistinct(Names(records), j);
    forall k | 0 <= k < |apps| - 1 ensures Encodes(RemoveAt(apps, j)[k], RemoveAt(records, j)[k]) {
      OriginRemoved(apps, j, k);
      OriginRemoved(records, j, k);
    }
  }

  lemma EncodingInserted(apps: seq<R.App>, records: seq<Record>, position: nat, a: R.App, r: Record)
    requires EncodesAll(apps, records) && Encodes(a, r)
    ensures EncodesAll(InsertAt(apps, position, a), InsertAt(records, position, r))
  {
    forall j | 0 <= j <= |apps| ensures Encodes(InsertAt(apps, position, a)[j], InsertAt(records, position, r)[j]) {
      OriginInserted(apps, position, a, j);
      OriginInserted(records, position, r, j);
    }
  }

  lemma AppInserted(pods: seq<R.Pod>, db: Db, i: nat, position: nat, a: R.App, r: Record)
    requires Represents(pods, db) && i < |pods|
    requires Encodes(a, r) && AppName(r.key) !in Names(db[i].records)
    ensures Represents(pods[i := pods[i].(apps := InsertAt(pods[i].apps, position, a))],
                       db[i := db[i].(records := InsertAt(db[i].records, position, r))])
  {
    assert EncodesPod(pods[i], db[i]);
    NamesInserted(db[i].records, position, r);
    InsertDistinct(Names(db[i].records), position, AppName(r.key));
    EncodingInserted(pods[i].apps, db[i].records, position, a, r);
    AppsChange(pods, db, i, InsertAt(pods[i].apps, position, a), InsertAt(db[i].records, position, r));
  }

  lemma AllStopped(apps: seq<R.App>, records: seq<Record>)
    requires EncodesAll(apps, records)
    ensures EncodesAll(R.StopApps(apps), StopRecords(records))
    ensures Names(StopRecords(records)) == Names(records)
  {
    forall j | 0 <= j < |apps| ensures Encodes(R.StopApps(apps)[j], StopRecords(records)[j]) {
      assert Encodes(apps[j], records[j]);
    }
  }

  // ----- instructions -----

  function InstructionFor(verb: Verb, uuid: string, appName: string): (ins: R.Instruction)
    ensures R.OnApp(ins) && ins.pod == uuid && ins.app == appName
  {
    match verb
    case Start => R.StartApp(uuid, appName)
    case Stop => R.StopApp(uuid, appName)
    case Remove => R.RemoveApp(uuid, appName)
    case Query => R.AppStatus(uuid, appName)
  }

  lemma ReportAgrees(pods: seq<R.Pod>, db: Db, i: nat, j: nat, report: R.Report)
    requires Represents(pods, db) && i < |pods| && j < |pods[i].apps| && |db[i].records| == |pods[i].apps|
    ensures Represents(R.SetApp(pods, i, j, report),
                       db[i := db[i].(records := db[i].records[j := db[i].records[j].(report := report)])])
    ensures pods[i].apps[j].report == db[i].records[j].report
  {
    assert EncodesPod(pods[i], db[i]);
    assert Encodes(pods[i].apps[j], db[i].records[j]);
    ReportChanges(pods[i].apps, db[i].records, j, report);
    AppsChange(pods, db, i, pods[i].apps[j := pods[i].apps[j].(report := report)],
               db[i].records[j := db[i].records[j].(report := report)]);
  }

  lemma RemovalAgrees(pods: seq<R.Pod>, db: Db, i: nat, j: nat)
    requires Represents(pods, db) && i < |pods| && j < |pods[i].apps| && |db[i].records| == |pods[i].apps|
    ensures Represents(pods[i := pods[i].(apps := RemoveAt(pods[i].apps, j))],
                       db[i := db[i].(records := RemoveAt(db[i].records, j))])
  {
    assert EncodesPod(pods[i], db[i]);
    AppRemoved(pods[i].apps, db[i].records, j);
    AppsChange(pods, db, i, RemoveAt(pods[i].apps, j), RemoveAt(db[i].records, j));
  }

  /** rkt finds an app exactly where the database has the container. */
  lemma LocateAgrees(pods: seq<R.Pod>, db: Db, containerID: string, uuid: string, appName: string)
    requires Represents(pods, db)
    requires ParseContainerID(containerID) == Ok((uuid, appName))
    ensures Locate(db, containerID) ==
      match IndexOf(R.Uuids(pods), uuid)
      case None => None
      case Some(i) =>
        match IndexOf(R.AppNames(pods[i].apps), appName) case None => None case Some(j) => Some((i, j))
    ensures Locate(db, containerID).Some? ==>
      var (i, j) := Locate(db, containerID).value;
      |db[i].records| == |pods[i].apps| && db[i].id == uuid && Encodes(pods[i].apps[j], db[i].records[j])
  {
    SameIds(pods, db);
    match IndexOf(Ids(db), uuid)
    case None =>
    case Some(i) =>
      assert EncodesPod(pods[i], db[i]);
      SameNames(pods[i].apps, db[i].records);
  }

  lemma EffectAgrees(pods: seq<R.Pod>, db: Db, verb: Verb, i: nat, j: nat, ins: R.Instruction, a: R.Answer)
    requires Represents(pods, db) && i < |pods| && j < |pods[i].apps| && |db[i].records| == |pods[i].apps|
    requires R.OnApp(ins) && ins == InstructionFor(verb, ins.pod, ins.app)
    ensures
      var (pods', outcome) := R.AppEffect(pods, i, j, ins, a);
      var (db', ok) := ContainerEffect(db, verb, i, j, a);
      Represents(pods', db') && (outcome.Success? <==> ok)
  {
    if verb.Remove? {
      RemovalAgrees(pods, db, i, j);
    } else if !verb.Query? {
      ReportAgrees(pods, db, i, j, Resulting(db[i].records[j].report, verb, a));
    }
  }

  /** A verb on a container: rkt and the database agree on whether it succeeds and on what it does. */
  lemma OnContainerAgrees(pods: seq<R.Pod>, db: Db, verb: Verb, containerID: string, uuid: string, appName: string,
                          a: R.Answer)
    requires Represents(pods, db)
    requires ParseContainerID(containerID) == Ok((uuid, appName))
    ensures
      var (pods', outcome) := R.ExecOnApp(pods, InstructionFor(verb, uuid, appName), a);
      var (db', ok) := OnContainer(db, verb, containerID, a);
      Represents(pods', db') && (outcome.Success? <==> ok)
  {
    LocateAgrees(pods, db, containerID, uuid, appName);
    if Locate(db, containerID).Some? {
      var (i, j) := Locate(db, containerID).value;
      EffectAgrees(pods, db, verb, i, j, InstructionFor(verb, uuid, appName), a);
    }
  }

  /** Asking for a container's status gives the database's status of that container. */
  lemma StatusAgrees(pods: seq<R.Pod>, db: Db, containerID: string)
    requires Represents(pods, db)
    ensures Listing.StatusIn(pods, containerID) == ContainerStatusReply(db, containerID)
  {
    match ParseContainerID(containerID)
    case Err(_) =>
    case Ok((uuid, appName)) =>
      AppAgrees(pods, db, containerID, uuid, appName);
      if Locate(db, containerID).Some? {
        var (i, j) := Locate(db, containerID).value;
        EncodedStatus(pods[i].apps[j], db[i], db[i].records[j]);
      }
  }

  /** The app a container ID leads to in rkt is the one that encodes its record. */
  lemma AppAgrees(pods: seq<R.Pod>, db: Db, containerID: string, uuid: string, appName: string)
    requires Represents(pods, db) && ParseContainerID(containerID) == Ok((uuid, appName))
    ensures Locate(db, containerID).None? ==> Listing.App(pods, uuid, appName).None?
    ensures Locate(db, containerID).Some? ==>
      var (i, j) := Locate(db, containerID).value;
      && i < |pods| && j < |pods[i].apps| && IsWord(uuid) && db[i].id == uuid
      && Listing.App(pods, uuid, appName) == Some(pods[i].apps[j]) && Encodes(pods[i].apps[j], db[i].records[j])
  {
    LocateAgrees(pods, db, containerID, uuid, appName);
    if Locate(db, containerID).Some? {
      assert EncodesPod(pods[Locate(db, containerID).value.0], db[Locate(db, containerID).value.0]);
      UuidHasNoQuote(uuid);
    }
  }

  lemma EncodedStatus(a: R.App, s: Sandbox, r: Record)
    requires Encodes(a, r)
    ensures ToContainerStatus(s.id, a) == Ok(StatusOf(s.id, r))
  {
    ParseOfAppName(r.key);
  }

  lemma EncodedSandboxStatus(p: R.Pod, s: Sandbox)
    requires EncodesPod(p, s)
    ensures IsKubernetesPod(p) && ToSandboxStatus(p) == Ok(SandboxStatusOf(s))
  {
  }

  /** The app rkt stores for a request. */
  function StoredApp(config: ContainerConfig, image: string, w: AddWorld, a: R.Answer): R.App
    requires Honest(config, w) && Sanitize(config.name).Ok?
  {
    R.App(BuildAppName(config.attempt, config.name).value, a.report,
          ReadPairs(map[], Pairs(w.annotationOrder, config.annotations) + [Pair(IMAGE_NAME_KEY, image)]),
          ReadPairs(map[], Pairs(w.labelOrder, config.labels)))
  }

  lemma StoredAppEncodes(config: ContainerConfig, image: string, w: AddWorld, a: R.Answer)
    requires Honest(config, w) && Sanitize(config.name).Ok?
    ensures Encodes(StoredApp(config, image, w, a), NewRecord(config, image, w, a))
  {
    SanitizeIsCanonical(config.name);
    ImageNameRoundTrip(Pairs(w.annotationOrder, config.annotations), image);
  }

  lemma AddAgrees(pods: seq<R.Pod>, db: Db, id: string, app: R.App, r: Record, a: R.Answer)
    requires Represents(pods, db) && Encodes(app, r)
    ensures
      var (pods', outcome) := R.AddTo(pods, id, app, a);
      var (db', ok) := Database.AddTo(db, id, r, a);
      Represents(pods', db') && (outcome.Success? <==> ok)
  {
    SameIds(pods, db);
    match IndexOf(Ids(db), id)
    case None =>
    case Some(i) =>
      assert EncodesPod(pods[i], db[i]);
      SameNames(pods[i].apps, db[i].records);
      if AppName(r.key) !in Names(db[i].records) {
        AppInserted(pods, db, i, a.position, app, r);
      }
  }

  /** Adding the app of a create request: rkt and the database agree, and so does the ID handed out. */
  lemma CreateAgrees(pods: seq<R.Pod>, db: Db, parse: ImageNames.Parser, req: CreateContainerRequest, w: AddWorld,
                     a: R.Answer)
    requires Represents(pods, db) && Honest(req.config, w) && Creatable(parse, req.config, w) && !Minded(req.config, a)
    ensures
      var (pods', outcome) := R.AddTo(pods, req.podSandboxId, StoredApp(req.config, req.config.image.value, w, a), a);
      var (db', id) := Create(db, parse, req, w, a);
      && Represents(pods', db')
      && id == if outcome.Success?
               then Some(BuildContainerID(req.podSandboxId, BuildAppName(req.config.attempt, req.config.name).value))
               else None
  {
    var image := req.config.image.value;
    StoredAppEncodes(req.config, image, w, a);
    AddAgrees(pods, db, req.podSandboxId, StoredApp(req.config, image, w, a), NewRecord(req.config, image, w, a), a);
  }

  /** Starting a sandbox. */
  lemma RunAgrees(pods: seq<R.Pod>, db: Db, config: SandboxConfig, l: Launch)
    requires Represents(pods, db) && HonestSandbox(config, l.w)
    requires l.uuidFile.Some? && (config.logDirectory != "" || l.w.logDirectoryReady)
    requires CgroupParent(config) != "" ==> Systemd.CgroupParentToSliceName(CgroupParent(config)).Ok?
    ensures
      var ins := R.RunPod(Pairs(l.w.annotationOrder, config.annotations) + MetadataPairs(config.metadata),
                          Pairs(l.w.labelOrder, config.labels));
      var (pods', outcome) := R.ExecRunPod(pods, ins, l.answer);
      && (outcome.Success? <==> Launches(db, config, l))
      && Represents(pods', RunSandbox(db, config, l).0)
  {
    SameIds(pods, db);
    if Launches(db, config, l) {
      var user := Pairs(l.w.annotationOrder, config.annotations);
      SandboxMetadataRoundTrip(user, config.metadata);
      var s := NewSandbox(config, l);
      var p := R.Pod(l.answer.uuid, l.answer.podState, l.answer.createdAt, l.answer.networks,
                     ReadPairs(map[], user + MetadataPairs(config.metadata)),
                     ReadPairs(map[], Pairs(l.w.labelOrder, config.labels)), []);
      assert EncodesPod(p, s);
      PodInserted(pods, db, l.answer.position, p, s);
    }
  }

  /** Stopping a pod: what rkt does, and what its failure text says, agree with the database. */
  lemma StopAgrees(pods: seq<R.Pod>, db: Db, id: string, a: R.Answer)
    requires Represents(pods, db)
    ensures
      var (pods', outcome) := R.ExecOnPod(pods, R.StopPod(id), a);
      && Represents(pods', StopSandbox(db, id, a).0)
      && (id in Ids(db) && outcome.Failure? ==>
            (StopErrors.Tolerated(outcome.text) <==> StopSandbox(db, id, a).1))
      && (id in Ids(db) && outcome.Success? ==> StopSandbox(db, id, a).1)
  {
    SameIds(pods, db);
    match IndexOf(Ids(db), id)
    case None =>
    case Some(i) =>
      assert EncodesPod(pods[i], db[i]);
      if pods[i].state != "running" {
        UuidHasNoQuote(id);
        StopErrors.QuotedIsFound(StopErrors.STOPPED_PRE, StopErrors.STOPPED_POST, a.before, id, a.after);
      } else if a.refusal.None? {
        AllStopped(pods[i].apps, db[i].records);
        PodChanges(pods, db, i, pods[i].(state := "exited", apps := R.StopApps(pods[i].apps)),
                   db[i].(state := "exited", records := StopRecords(db[i].records)));
      }
  }

  lemma UuidHasNoQuote(id: string)
    requires R.IsUuid(id)
    ensures '"' !in id && id != "" && ':' !in id && '-' != id[0] && ' ' !in id
  {
  }

  /** Removing a pod that was asked to stop before. */
  lemma RemoveAgrees(pods: seq<R.Pod>, db: Db, id: string, stop: R.Answer, remove: R.Answer)
    requires Represents(pods, StopSandbox(db, id, stop).0)
    ensures
      var (pods', outcome) := R.ExecOnPod(pods, R.RemovePod(id), remove);
      && Represents(pods', RemoveSandbox(db, id, stop, remove).0)
      && (outcome.Success? <==> RemoveSandbox(db, id, stop, remove).1)
  {
    var stopped := StopSandbox(db, id, stop).0;
    SameIds(pods, stopped);
    match IndexOf(Ids(stopped), id)
    case None =>
    case Some(i) =>
      assert EncodesPod(pods[i], stopped[i]);
      PodRemoved(pods, stopped, i);
  }

  /** Asking for a pod's status: a pod that did not get ready in time is asked again without waiting. */
  lemma PodStatusAgrees(pods: seq<R.Pod>, db: Db, id: string, a: R.Answer)
    requires Represents(pods, db)
    ensures
      var (p1, first) := R.ExecOnPod(pods, R.PodStatus(id, true), a);
      var (p2, second) := R.ExecOnPod(pods, R.PodStatus(id, false), a);
      && p1 == p2 == pods
      && (second.Success? <==> SandboxStatusReply(db, id).Some?)
      && (first.Success? ==> second == first)
      && (second.Success? ==> second.output.OnePod?)
      && (second.Success? ==>
            ToSandboxStatus(second.output.pod) == Ok(SandboxStatusReply(db, id).value))
  {
    SameIds(pods, db);
    match IndexOf(Ids(db), id)
    case None =>
    case Some(i) =>
      EncodedSandboxStatus(pods[i], db[i]);
  }

  // ----- changes that happen on their own -----

  lemma PodDriftAgrees(pods: seq<R.Pod>, db: Db, id: string, state: string)
    requires Represents(pods, db)
    ensures Represents(R.DriftPod(pods, id, state), DriftPod(db, id, state))
  {
    SameIds(pods, db);
    match IndexOf(Ids(db), id)
    case None =>
    case Some(i) =>
      assert EncodesPod(pods[i], db[i]);
      PodChanges(pods, db, i, pods[i].(state := state), db[i].(state := state));
  }

  lemma AppDriftAgrees(pods: seq<R.Pod>, db: Db, containerID: string, uuid: string, appName: string, report: R.Report)
    requires Represents(pods, db) && ParseContainerID(containerID) == Ok((uuid, appName))
    ensures Represents(R.DriftApp(pods, uuid, appName, report), DriftContainer(db, containerID, report))
  {
    LocateAgrees(pods, db, containerID, uuid, appName);
    match Locate(db, containerID)
    case None =>
    case Some((i, j)) => ReportAgrees(pods, db, i, j, report);
  }

  // ----- listings -----

  /** In a well-formed state every container is found under its own ID. */
  lemma LocatedAt(db: Db, i: nat, j: nat)
    requires WellFormed(db) && i < |db| && j < |db[i].records|
    ensures Locate(db, BuildContainerID(db[i].id, AppName(db[i].records[j].key))) == Some((i, j))
  {
    UuidHasNoQuote(db[i].id);
    ContainerIDRoundTrip(db[i].id, db[i].records[j].key);
    IndexOfDistinct(Ids(db), i);
    IndexOfDistinct(Names(db[i].records), j);
  }

  /** The key an app name stands for, if it is exactly the name of a key. */
  function KeyOf(appName: string): Option<ContainerKey>
  {
    match ParseAppName(appName)
    case Err(_) => None
    case Ok((attempt, name)) =>
      if AppName(ContainerKey(attempt, name)) == appName then Some(ContainerKey(attempt, name)) else None
  }

  /** Looking up a container by its app name is looking it up by its key. */
  lemma LocatedIff(db: Db, containerID: string, i: nat, j: nat)
    requires WellFormed(db)
    ensures Locate(db, containerID) == Some((i, j)) <==>
      && i < |db| && j < |db[i].records| && ParseContainerID(containerID).Ok?
      && ParseContainerID(containerID).value.0 == db[i].id
      && KeyOf(ParseContainerID(containerID).value.1) == Some(db[i].records[j].key)
  {
    if i < |db| && j < |db[i].records| && ParseContainerID(containerID).Ok? {
      IndexOfDistinct(Ids(db), i);
      IndexOfDistinct(Names(db[i].records), j);
      ParseOfAppName(db[i].records[j].key);
    }
  }

  /** Containers are never hidden by the internal prefix, and never lost to a failing status call. */
  lemma EveryRecordIsShown(pods: seq<R.Pod>, db: Db, i: nat, j: nat)
    requires Represents(pods, db) && i < |db| && j < |db[i].records|
    ensures Listing.Shown(pods, db[i].id, AppName(db[i].records[j].key)) == Some(ContainerOf(db[i], db[i].records[j]))
  {
    RepresentedIsWellFormed(pods, db);
    AppNameIsCanonical(db[i].records[j].key);
    LocatedAt(db, i, j);
    StatusAgrees(pods, db, BuildContainerID(db[i].id, AppName(db[i].records[j].key)));
  }

  lemma {:induction false} AppByApp(pods: seq<R.Pod>, s: Sandbox, names: seq<string>, records: seq<Record>,
                                    filter: Option<ContainerFilter>)
    requires |names| == |records|
    requires forall j :: 0 <= j < |names| ==> Listing.Shown(pods, s.id, names[j]) == Some(ContainerOf(s, records[j]))
    ensures Listing.ShownApps(pods, s.id, names, filter) == ContainersIn(s, records, filter)
    decreases |names|
  {
    if names != [] {
      var n := |names| - 1;
      AppByApp(pods, s, names[..n], records[..n], filter);
    }
  }

  lemma PodListingAgrees(pods: seq<R.Pod>, db: Db, i: nat, filter: Option<ContainerFilter>)
    requires Represents(pods, db) && i < |db|
    ensures Listing.ShownInPod(pods, pods[i], filter) == ContainersIn(db[i], db[i].records, filter)
  {
    var s := db[i];
    assert EncodesPod(pods[i], s);
    SameNames(pods[i].apps, s.records);
    forall j | 0 <= j < |s.records|
      ensures Listing.Shown(pods, s.id, Names(s.records)[j]) == Some(ContainerOf(s, s.records[j]))
    {
      EveryRecordIsShown(pods, db, i, j);
    }
    AppByApp(pods, s, Names(s.records), s.records, filter);
  }

  lemma {:induction false} PodByPod(pods: seq<R.Pod>, db: Db, n: nat, filter: Option<ContainerFilter>)
    requires n <= |db| == |pods|
    requires forall i :: 0 <= i < n ==>
      Listing.ShownInPod(pods, pods[i], filter) == ContainersIn(db[i], db[i].records, filter)
    ensures Listing.Containers(pods, pods[..n], filter) == Database.ListContainers(db[..n], filter)
    decreases n
  {
    if n > 0 {
      assert pods[..n][..n - 1] == pods[..n - 1] && db[..n][..n - 1] == db[..n - 1];
      PodByPod(pods, db, n - 1, filter);
    }
  }

  /** In a represented state the container listing is the database's. */
  lemma ContainerListingAgrees(pods: seq<R.Pod>, db: Db, filter: Option<ContainerFilter>)
    requires Represents(pods, db)
    ensures Listing.Containers(pods, pods, filter) == Database.ListContainers(db, filter)
  {
    forall i | 0 <= i < |db|
      ensures Listing.ShownInPod(pods, pods[i], filter) == ContainersIn(db[i], db[i].records, filter)
    {
      PodListingAgrees(pods, db, i, filter);
    }
    PodByPod(pods, db, |db|, filter);
    assert pods[..|db|] == pods && db[..|db|] == db;
  }

  /** The same where the state may or may not be represented. */
  lemma ContainerListingIfRepresented(pods: seq<R.Pod>, db: Db, filter: Option<ContainerFilter>)
    ensures Represents(pods, db) ==> Listing.Containers(pods, pods, filter) == Database.ListContainers(db, filter)
  {
    if Represents(pods, db) { ContainerListingAgrees(pods, db, filter); }
  }

  lemma StatusIfRepresented(pods: seq<R.Pod>, db: Db, containerID: string)
    ensures Represents(pods, db) ==> Listing.StatusIn(pods, containerID) == ContainerStatusReply(db, containerID)
  {
    if Represents(pods, db) { StatusAgrees(pods, db, containerID); }
  }

  lemma SandboxListingIfRepresented(pods: seq<R.Pod>, db: Db, filter: Option<SandboxFilter>)
    ensures Represents(pods, db) ==> Conversion.ListSandboxes(pods, filter) == Ok(Database.ListSandboxes(db, filter))
  {
    if Represents(pods, db) { SandboxListingAgrees(pods, db, filter); }
  }

  /** No pod in a represented state spoils the sandbox listing, and every one is listed as recorded. */
  lemma {:induction false} SandboxListingAgrees(pods: seq<R.Pod>, db: Db, filter: Option<SandboxFilter>)
    requires |pods| == |db| && forall i :: 0 <= i < |pods| ==> EncodesPod(pods[i], db[i])
    ensures Conversion.ListSandboxes(pods, filter) == Ok(Database.ListSandboxes(db, filter))
    decreases |pods|
  {
    if pods != [] {
      var n := |pods| - 1;
      SandboxListingAgrees(pods[..n], db[..n], filter);
      EncodedSandboxStatus(pods[n], db[n]);
      var items := Database.ListSandboxes(db[..n], filter);
      assert Conversion.ListSandboxes(pods[..n], filter) == Ok(items);
      assert items + [] == items;
    }
  }
}
