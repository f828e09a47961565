/** What each call changes and what it leaves alone, as seen through the status calls: the database is a
    map from container IDs to records, and every call is an update of it. */
module Frames {
  import opened Wrappers
  import opened Lists
  import opened AcName
  import opened Identity
  import opened Cri
  import opened Conversion
  import opened ImageNames
  import opened Database
  import Refinement
  import R = Rkt

  function Find(records: seq<Record>, name: string): Option<Record> { ItemFor(Names(records), records, name) }

  function SandboxAt(db: Db, uuid: string): Option<Sandbox> { ItemFor(Ids(db), db, uuid) }

  function RecordAt(db: Db, uuid: string, name: string): Option<Record>
  {
    match SandboxAt(db, uuid) case None => None case Some(s) => Find(s.records, name)
  }

  function StatusAt(db: Db, uuid: string, name: string): Option<ContainerStatus>
  {
    match RecordAt(db, uuid, name) case None => None case Some(r) => Some(StatusOf(uuid, r))
  }

  /** The status call looks its container up and shows the record. */
  lemma StatusShowsRecord(db: Db, containerID: string)
    ensures ContainerStatusReply(db, containerID) ==
      match ParseContainerID(containerID) case Err(_) => None case Ok((uuid, name)) => StatusAt(db, uuid, name)
  {
  }

  // ----- lookups after a change -----

  lemma FindUpdated(records: seq<Record>, j: nat, r: Record, name: string)
    requires Distinct(Names(records)) && j < |records| && r.key == records[j].key
    ensures Find(records[j := r], name) == if name == AppName(r.key) then Some(r) else Find(records, name)
    ensures Find(records, AppName(r.key)) == Some(records[j])
  {
    assert Names(records[j := r]) == Names(records);
    ItemForReplaced(Names(records), records, j, r, name);
  }

  lemma FindRemoved(records: seq<Record>, j: nat, name: string)
    requires Distinct(Names(records)) && j < |records|
    ensures Find(RemoveAt(records, j), name) == if name == AppName(records[j].key) then None else Find(records, name)
  {
    Refinement.NamesRemoved(records, j);
    ItemForRemoved(Names(records), records, j, name);
  }

  lemma FindInserted(records: seq<Record>, position: nat, r: Record, name: string)
    requires Distinct(Names(records)) && AppName(r.key) !in Names(records)
    ensures Find(InsertAt(records, position, r), name)
         == if name == AppName(r.key) then Some(r) else Find(records, name)
    ensures Find(records, AppName(r.key)) == None
  {
    Refinement.NamesInserted(records, position, r);
    ItemForInserted(Names(records), records, position, AppName(r.key), r, name);
  }

  lemma FindStopped(records: seq<Record>, name: string)
    ensures Find(StopRecords(records), name) ==
      match Find(records, name) case None => None case Some(r) => Some(r.(report := R.Stopped(r.report)))
  {
    assert Names(StopRecords(records)) == Names(records);
  }

  lemma AtReplaced(db: Db, i: nat, s: Sandbox, uuid: string)
    requires Distinct(Ids(db)) && i < |db| && s.id == db[i].id
    ensures SandboxAt(db[i := s], uuid) == if uuid == s.id then Some(s) else SandboxAt(db, uuid)
    ensures SandboxAt(db, s.id) == Some(db[i])
  {
    assert Ids(db[i := s]) == Ids(db);
    ItemForReplaced(Ids(db), db, i, s, uuid);
  }

  lemma AtRemoved(db: Db, i: nat, uuid: string)
    requires Distinct(Ids(db)) && i < |db|
    ensures SandboxAt(RemoveAt(db, i), uuid) == if uuid == db[i].id then None else SandboxAt(db, uuid)
  {
    Refinement.IdsRemoved(db, i);
    ItemForRemoved(Ids(db), db, i, uuid);
  }

  lemma AtInserted(db: Db, position: nat, s: Sandbox, uuid: string)
    requires Distinct(Ids(db)) && s.id !in Ids(db)
    ensures SandboxAt(InsertAt(db, position, s), uuid) == if uuid == s.id then Some(s) else SandboxAt(db, uuid)
    ensures SandboxAt(db, s.id) == None
  {
    Refinement.IdsInserted(db, position, s);
    ItemForInserted(Ids(db), db, position, s.id, s, uuid);
  }

  // ----- every call keeps the database well formed -----

  lemma ReplaceWellFormed(db: Db, i: nat, s: Sandbox)
    requires WellFormed(db) && i < |db| && s.id == db[i].id
    requires Distinct(Names(s.records)) && forall j :: 0 <= j < |s.records| ==> ValidKey(s.records[j].key)
    ensures WellFormed(db[i := s])
  {
    assert Ids(db[i := s]) == Ids(db);
  }

  /** A change that keeps the keys of a sandbox. */
  lemma SameKeys(db: Db, i: nat, s: Sandbox)
    requires WellFormed(db) && i < |db| && s.id == db[i].id && |s.records| == |db[i].records|
    requires forall j :: 0 <= j < |s.records| ==> s.records[j].key == db[i].records[j].key
    ensures WellFormed(db[i := s])
  {
    assert Names(s.records) == Names(db[i].records);
    ReplaceWellFormed(db, i, s);
  }

  lemma WithoutRecord(db: Db, i: nat, j: nat)
    requires WellFormed(db) && i < |db| && j < |db[i].records|
    ensures WellFormed(db[i := db[i].(records := RemoveAt(db[i].records, j))])
  {
    Refinement.NamesRemoved(db[i].records, j);
    RemoveDistinct(Names(db[i].records), j);
    ReplaceWellFormed(db, i, db[i].(records := RemoveAt(db[i].records, j)));
  }

  lemma WithRecord(db: Db, i: nat, position: nat, r: Record)
    requires WellFormed(db) && i < |db| && ValidKey(r.key) && AppName(r.key) !in Names(db[i].records)
    ensures WellFormed(db[i := db[i].(records := InsertAt(db[i].records, position, r))])
  {
    Refinement.NamesInserted(db[i].records, position, r);
    InsertDistinct(Names(db[i].records), position, AppName(r.key));
    ReplaceWellFormed(db, i, db[i].(records := InsertAt(db[i].records, position, r)));
  }

  lemma WithSandbox(db: Db, position: nat, s: Sandbox)
    requires WellFormed(db) && s.id !in Ids(db) && s.records == [] && R.IsUuid(s.id)
    ensures WellFormed(InsertAt(db, position, s))
  {
    var db' := InsertAt(db, position, s);
    Refinement.IdsInserted(db, position, s);
    InsertDistinct(Ids(db), position, s.id);
    forall i | 0 <= i < |db'| ensures db'[i] == s || exists k :: 0 <= k < |db| && db'[i] == db[k] {
      OriginInserted(db, position, s, i);
    }
  }

  lemma WithoutSandbox(db: Db, i: nat)
    requires WellFormed(db) && i < |db|
    ensures WellFormed(RemoveAt(db, i))
  {
    var db' := RemoveAt(db, i);
    Refinement.IdsRemoved(db, i);
    RemoveDistinct(Ids(db), i);
    forall j | 0 <= j < |db'| ensures exists k :: 0 <= k < |db| && db'[j] == db[k] {
      OriginRemoved(db, i, j);
    }
  }

  // ----- calls -----

  /** A call on a container touches exactly the record its ID names. */
  lemma VerbUpdates(db: Db, verb: Verb, containerID: string, a: R.Answer, uuid: string, name: string)
    requires WellFormed(db) && OnContainer(db, verb, containerID, a).1
    ensures ParseContainerID(containerID).Ok?
    ensures
      var db' := OnContainer(db, verb, containerID, a).0;
      var (u, n) := ParseContainerID(containerID).value;
      var before := RecordAt(db, uuid, name);
      && WellFormed(db') && RecordAt(db, u, n).Some?
      && RecordAt(db', uuid, name) ==
           if uuid != u || name != n || verb.Query? then before
           else if verb.Remove? then None
           else Some(before.value.(report := Resulting(before.value.report, verb, a)))
  {
    var (i, j) := Locate(db, containerID).value;
    var records := db[i].records;
    IndexOfDistinct(Ids(db), i);
    if verb.Remove? {
      AtReplaced(db, i, db[i].(records := RemoveAt(records, j)), uuid);
      FindRemoved(records, j, name);
      WithoutRecord(db, i, j);
    } else if !verb.Query? {
      ReportSet(db, i, j, Resulting(records[j].report, verb, a), uuid, name);
    }
  }

  /** A new report for one record. */
  lemma ReportSet(db: Db, i: nat, j: nat, report: R.Report, uuid: string, name: string)
    requires WellFormed(db) && i < |db| && j < |db[i].records|
    ensures
      var r := db[i].records[j];
      var db' := db[i := db[i].(records := db[i].records[j := r.(report := report)])];
      && WellFormed(db')
      && RecordAt(db, db[i].id, AppName(r.key)) == Some(r)
      && RecordAt(db', uuid, name) ==
           if uuid == db[i].id && name == AppName(r.key) then Some(r.(report := report)) else RecordAt(db, uuid, name)
  {
    var records := db[i].records;
    var r := records[j].(report := report);
    var s := db[i].(records := records[j := r]);
    AtReplaced(db, i, s, uuid);
    FindUpdated(records, j, r, name);
    SameKeys(db, i, s);
  }

  /** What a verb makes of a status. */
  function Changed(before: ContainerStatus, verb: Verb, a: R.Answer): Option<ContainerStatus>
  {
    match verb
    case Start => Some(before.(state := ContainerRunning, startedAt := OrZero(a.report.startedAt)))
    case Stop => Some(before.(state := ContainerExited, finishedAt := OrZero(a.report.finishedAt),
                              exitCode := OrZero(a.report.exitCode)))
    case Remove => None
    case Query => Some(before)
  }

  lemma ResultingStatus(uuid: string, r: Record, verb: Verb, a: R.Answer)
    requires verb.Start? || verb.Stop?
    ensures Some(StatusOf(uuid, r.(report := Resulting(r.report, verb, a)))) == Changed(StatusOf(uuid, r), verb, a)
  {
  }

  /** The status afterwards: a started container runs since the reported time, a stopped one has exited
      with the reported time and code, a removed one is unknown, and nothing else about it changes. */
  lemma VerbIsVisible(db: Db, verb: Verb, containerID: string, a: R.Answer)
    requires WellFormed(db) && OnContainer(db, verb, containerID, a).1
    ensures
      var db' := OnContainer(db, verb, containerID, a).0;
      var before, after := ContainerStatusReply(db, containerID), ContainerStatusReply(db', containerID);
      before.Some? && after == Changed(before.value, verb, a)
  {
    VerbUpdates(db, verb, containerID, a, "", "");
    var (u, n) := ParseContainerID(containerID).value;
    VerbUpdates(db, verb, containerID, a, u, n);
    StatusShowsRecord(db, containerID);
    StatusShowsRecord(OnContainer(db, verb, containerID, a).0, containerID);
    if verb.Start? || verb.Stop? {
      ResultingStatus(u, RecordAt(db, u, n).value, verb, a);
    }
  }

  /** Every other container keeps its status. */
  lemma VerbLeavesOthers(db: Db, verb: Verb, containerID: string, a: R.Answer, other: string)
    requires WellFormed(db) && ParseContainerID(other) != ParseContainerID(containerID)
    ensures ContainerStatusReply(OnContainer(db, verb, containerID, a).0, other) == ContainerStatusReply(db, other)
  {
    if OnContainer(db, verb, containerID, a).1 && ParseContainerID(other).Ok? {
      var (u, n) := ParseContainerID(other).value;
      VerbUpdates(db, verb, containerID, a, u, n);
      StatusShowsRecord(db, other);
      StatusShowsRecord(OnContainer(db, verb, containerID, a).0, other);
    }
  }

  /** A successful create adds exactly one record, under a name that was free. */
  lemma CreateUpdates(db: Db, parse: Parser, req: CreateContainerRequest, w: AddWorld, a: R.Answer, uuid: string,
                      name: string)
    requires WellFormed(db) && Honest(req.config, w) && Create(db, parse, req, w, a).1.Some?
    ensures
      var (db', id) := Create(db, parse, req, w, a);
      var r := NewRecord(req.config, req.config.image.value, w, a);
      && WellFormed(db') && ValidKey(r.key) && R.IsUuid(req.podSandboxId)
      && id.value == BuildContainerID(req.podSandboxId, AppName(r.key))
      && RecordAt(db, req.podSandboxId, AppName(r.key)) == None
      && RecordAt(db', uuid, name) ==
           if uuid == req.podSandboxId && name == AppName(r.key) then Some(r) else RecordAt(db, uuid, name)
  {
    var i := IndexOf(Ids(db), req.podSandboxId).value;
    var r := NewRecord(req.config, req.config.image.value, w, a);
    SanitizeIsCanonical(req.config.name);
    AtReplaced(db, i, db[i].(records := InsertAt(db[i].records, a.position, r)), uuid);
    FindInserted(db[i].records, a.position, r, name);
    WithRecord(db, i, a.position, r);
  }

  /** Creating a container leaves every container with another ID alone. */
  lemma CreateLeavesOthers(db: Db, parse: Parser, req: CreateContainerRequest, w: AddWorld, a: R.Answer, other: string)
    requires WellFormed(db) && Honest(req.config, w)
    requires
      var id := Create(db, parse, req, w, a).1;
      id.Some? ==> ParseContainerID(other) != ParseContainerID(id.value)
    ensures ContainerStatusReply(Create(db, parse, req, w, a).0, other) == ContainerStatusReply(db, other)
  {
    var (db', id) := Create(db, parse, req, w, a);
    StatusShowsRecord(db, other);
    StatusShowsRecord(db', other);
    if id.Some? && ParseContainerID(other).Ok? {
      var (u, n) := ParseContainerID(other).value;
      CreateUpdates(db, parse, req, w, a, u, n);
      Refinement.UuidHasNoQuote(req.podSandboxId);
      ContainerIDRoundTrip(req.podSandboxId, NewRecord(req.config, req.config.image.value, w, a).key);
    }
  }

  /** A stop that takes effect makes one sandbox exit. */
  lemma StopUpdates(db: Db, i: nat, uuid: string)
    requires WellFormed(db) && i < |db|
    ensures
      var s := db[i].(state := "exited", records := StopRecords(db[i].records));
      && WellFormed(StopAt(db, i)) && SandboxAt(db, db[i].id) == Some(db[i])
      && SandboxAt(StopAt(db, i), uuid) == if uuid == db[i].id then Some(s) else SandboxAt(db, uuid)
  {
    var s := db[i].(state := "exited", records := StopRecords(db[i].records));
    AtReplaced(db, i, s, uuid);
    SameKeys(db, i, s);
  }

  /** Stopping a sandbox makes exactly its running containers exit. */
  lemma StopIsVisible(db: Db, id: string, a: R.Answer, uuid: string, name: string)
    requires WellFormed(db)
    ensures
      var db' := StopSandbox(db, id, a).0;
      var before := RecordAt(db, uuid, name);
      && WellFormed(db')
      && RecordAt(db', uuid, name) ==
           if db' == db || uuid != id || before.None? then before
           else Some(before.value.(report := R.Stopped(before.value.report)))
  {
    var db' := StopSandbox(db, id, a).0;
    if db' != db {
      var i := IndexOf(Ids(db), id).value;
      StopUpdates(db, i, uuid);
      FindStopped(db[i].records, name);
    }
  }

  /** Removing a sandbox takes its containers along and nobody else's. */
  lemma RemovalIsVisible(db: Db, id: string, stop: R.Answer, remove: R.Answer, uuid: string, name: string)
    requires WellFormed(db) && RemoveSandbox(db, id, stop, remove).1
    ensures RecordAt(RemoveSandbox(db, id, stop, remove).0, uuid, name)
         == if uuid == id then None else RecordAt(db, uuid, name)
  {
    var stopped := StopSandbox(db, id, stop).0;
    assert Ids(stopped) == Ids(db);
    StopIsVisible(db, id, stop, uuid, name);
    AtRemoved(stopped, IndexOf(Ids(stopped), id).value, uuid);
  }

  /** A new sandbox starts without containers and disturbs none. */
  lemma RunIsVisible(db: Db, config: SandboxConfig, l: Launch, uuid: string, name: string)
    requires WellFormed(db) && HonestSandbox(config, l.w)
    ensures RecordAt(RunSandbox(db, config, l).0, uuid, name) == RecordAt(db, uuid, name)
  {
    if Launches(db, config, l) {
      AtInserted(db, l.answer.position, NewSandbox(config, l), uuid);
    }
  }
}
