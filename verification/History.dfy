/** What the answers owe to the history of calls and replies: after any run, statuses and listings agree with
    the ledgers and with each other. */
module History {
  import opened Wrappers
  import opened Lists
  import opened Annotations
  import opened AcName
  import opened Identity
  import opened Cri
  import opened Conversion
  import opened ImageNames
  import opened Database
  import opened Runs
  import opened Frames
  import opened Registry
  import opened Ledgers
  import Refinement
  import Listing
  import R = Rkt

  // ----- statuses over whole runs -----

  /** What ContainerStatus owes to a run: it knows exactly the containers created and not removed since, and
      shows each as its request said. */
  ghost predicate StatusOwed(live: map<string, ContainerConfig>, containerID: string, s: Option<ContainerStatus>)
  {
    && (s.Some? <==> ParseContainerID(containerID).Ok? && Normalized(containerID) in live)
    && (s.Some? ==> s.value.id == Normalized(containerID) && StatusAsRequested(live[s.value.id], s.value))
  }

  ghost predicate SandboxStatusOwed(live: map<string, SandboxConfig>, id: string, s: Option<SandboxStatus>)
  {
    (s.Some? <==> id in live) && (s.Some? ==> s.value.id == id && SandboxAsRequested(live[id], s.value))
  }

  /** After every run, for every text taken for an ID: the status call answers what the maps hold, and what
      the calls and replies of the run say it must. */
  lemma StatusesMatchHistory(parse: Parser, ops: seq<Op>, id: string)
    requires HonestRun(ops)
    ensures
      var (db, replies) := Run(parse, ops);
      var st := PerformAll(parse, ops).0;
      && ContainerStatusReply(db, id) == StatusReply(st, id)
      && SandboxStatusReply(db, id) == Get(st.sandboxes, id)
      && StatusOwed(ContainerLedger(ops, replies), id, ContainerStatusReply(db, id))
      && SandboxStatusOwed(SandboxLedger(ops, replies), id, SandboxStatusReply(db, id))
  {
    RunsMirror(parse, ops);
    RunsFit(parse, ops);
    var db, st := Run(parse, ops).0, PerformAll(parse, ops).0;
    MirroredReply(db, st, id);
    assert SandboxStatusReply(db, id) == Get(st.sandboxes, id);
  }

  // ----- what the listings show -----

  function ContainerIds(cs: seq<Container>): (ids: seq<string>)
    ensures |ids| == |cs| && forall i :: 0 <= i < |cs| ==> ids[i] == cs[i].id
  {
    seq(|cs|, i requires 0 <= i < |cs| => cs[i].id)
  }

  function IdsOf(s: Sandbox): set<string>
  {
    set n | n in Names(s.records) :: BuildContainerID(s.id, n)
  }

  ghost predicate Holds(db: Db, id: string)
  {
    exists i :: 0 <= i < |db| && id in IdsOf(db[i])
  }

  lemma IdsBelong(db: Db, i: nat, id: string)
    requires WellFormed(db) && i < |db| && id in IdsOf(db[i])
    ensures SandboxOf(id) == db[i].id
  {
    var n :| n in Names(db[i].records) && id == BuildContainerID(db[i].id, n);
    Refinement.UuidHasNoQuote(db[i].id);
    SandboxOfBuilt(db[i].id, n);
  }

  /** No container belongs to two sandboxes. */
  lemma OwnersDiffer(db: Db, i: nat)
    requires WellFormed(db) && i < |db|
    ensures forall k :: 0 <= k < |db| && k != i ==> IdsOf(db[k]) !! IdsOf(db[i])
  {
    forall k | 0 <= k < |db| && k != i ensures IdsOf(db[k]) !! IdsOf(db[i]) {
      assert Ids(db)[k] != Ids(db)[i];
      forall id | id in IdsOf(db[k]) ensures id !in IdsOf(db[i]) {
        IdsBelong(db, k, id);
        if id in IdsOf(db[i]) { IdsBelong(db, i, id); }
      }
    }
  }

  /** The database holds exactly the containers of the maps. */
  lemma HeldIffKnown(db: Db, st: Statuses, id: string)
    requires Mirrors(db, st)
    ensures Holds(db, id) <==> id in st.containers
  {
    if Holds(db, id) {
      var i: nat :| i < |db| && id in IdsOf(db[i]);
      var n :| n in Names(db[i].records) && id == BuildContainerID(db[i].id, n);
      Refinement.UuidHasNoQuote(db[i].id);
      IndexOfDistinct(Ids(db), i);
      assert StatusAt(db, db[i].id, n) == Get(st.containers, id);
    }
    if id in st.containers {
      var u, n := PartsOf(id);
      assert StatusAt(db, u, n) == Get(st.containers, id);
      assert id in IdsOf(db[IndexOf(Ids(db), u).value]);
    }
  }

  lemma {:induction false} ContainersInIds(s: Sandbox, records: seq<Record>)
    ensures |ContainersIn(s, records, None)| == |records|
    ensures forall j :: 0 <= j < |records| ==> ContainersIn(s, records, None)[j] == ContainerOf(s, records[j])
    decreases |records|
  {
    if records != [] {
      ContainersInIds(s, records[..|records| - 1]);
    }
  }

  lemma SandboxIdsDistinct(s: Sandbox)
    requires Distinct(Names(s.records))
    ensures Distinct(ContainerIds(ContainersIn(s, s.records, None)))
    ensures forall id :: id in ContainerIds(ContainersIn(s, s.records, None)) <==> id in IdsOf(s)
  {
    ContainersInIds(s, s.records);
    var ids, names := ContainerIds(ContainersIn(s, s.records, None)), Names(s.records);
    forall j | 0 <= j < |ids| ensures ids[j] == BuildContainerID(s.id, names[j]) {
    }
    forall j, k | 0 <= j < k < |ids| ensures ids[j] != ids[k] {
      assert ids[j][|s.id| + 1..] == names[j];
      assert ids[k][|s.id| + 1..] == names[k];
    }
  }

  lemma DistinctConcat(a: seq<string>, b: seq<string>)
    requires Distinct(a) && Distinct(b) && forall x :: x in a ==> x !in b
    ensures Distinct(a + b)
    ensures forall x :: x in a + b <==> x in a || x in b
  {
    forall i, j | 0 <= i < j < |a + b| ensures (a + b)[i] != (a + b)[j] {
      if i < |a| <= j {
        assert (a + b)[i] in a && (a + b)[j] in b;
      }
    }
  }

  lemma {:induction false} ListedIds(db: Db)
    requires WellFormed(db)
    ensures Distinct(ContainerIds(ListContainers(db, None)))
    ensures forall id :: id in ContainerIds(ListContainers(db, None)) <==> Holds(db, id)
    decreases |db|
  {
    if db != [] {
      var n := |db| - 1;
      var init, s := db[..n], db[n];
      assert forall i :: 0 <= i < n ==> init[i] == db[i];
      assert Ids(init) == Ids(db)[..n];
      ListedIds(init);
      SandboxIdsDistinct(s);
      var a, b := ListContainers(init, None), ContainersIn(s, s.records, None);
      assert ContainerIds(a + b) == ContainerIds(a) + ContainerIds(b);
      OwnersDiffer(db, n);
      forall id | Holds(init, id) ensures id !in IdsOf(s) && Holds(db, id) {
        var i :| 0 <= i < n && id in IdsOf(init[i]);
        assert id in IdsOf(db[i]);
      }
      DistinctConcat(ContainerIds(a), ContainerIds(b));
      forall id | Holds(db, id) ensures Holds(init, id) || id in IdsOf(s) {
        var i :| 0 <= i < |db| && id in IdsOf(db[i]);
        if i < n { assert id in IdsOf(init[i]); }
      }
    }
  }

  /** A listed container shows the status that asking for it would give. */
  ghost predicate ShowsStatus(db: Db, c: Container)
  {
    var s := ContainerStatusReply(db, c.id);
    s.Some? && c == Listing.Listed(s.value, SandboxOf(c.id))
  }

  lemma RecordShowsStatus(db: Db, i: nat, j: nat)
    requires WellFormed(db) && i < |db| && j < |db[i].records|
    ensures ShowsStatus(db, ContainerOf(db[i], db[i].records[j]))
  {
    Refinement.LocatedAt(db, i, j);
    Refinement.UuidHasNoQuote(db[i].id);
    SandboxOfBuilt(db[i].id, AppName(db[i].records[j].key));
  }

  /** Listing and status calls agree on every container. */
  lemma {:induction false} ListedStatuses(db: Db, n: nat)
    requires WellFormed(db) && n <= |db|
    ensures forall c :: c in ListContainers(db[..n], None) ==> ShowsStatus(db, c)
    decreases n
  {
    if n > 0 {
      var s := db[n - 1];
      assert db[..n][..n - 1] == db[..n - 1];
      ListedStatuses(db, n - 1);
      ContainersInIds(s, s.records);
      forall j | 0 <= j < |s.records| ensures ShowsStatus(db, ContainersIn(s, s.records, None)[j]) {
        RecordShowsStatus(db, n - 1, j);
      }
    }
  }

  /** The listed containers are exactly those of the ledger, each once and as requested. */
  ghost predicate ShowsContainers(items: seq<Container>, live: map<string, ContainerConfig>)
  {
    && Distinct(ContainerIds(items))
    && (forall id :: id in ContainerIds(items) <==> id in live)
    && forall c :: c in items ==> c.id in live && ContainerAsRequested(live[c.id], c)
  }

  ghost predicate ContainerAsRequested(config: ContainerConfig, c: Container)
  {
    c.podSandboxId == SandboxOf(c.id) && AsRequested(config, c.name, c.attempt, c.image, c.labels, c.annotations)
  }

  /** Conservation: after any run from the empty state, the unfiltered listing shows every container that
      was created and neither removed nor lost with its sandbox, each exactly once and as its request
      said, and no others; and it shows what the status calls would. */
  lemma ContainersAreConserved(parse: Parser, ops: seq<Op>)
    requires HonestRun(ops)
    ensures
      var (db, replies) := Run(parse, ops);
      var items := ListContainers(db, None);
      && ShowsContainers(items, ContainerLedger(ops, replies))
      && forall c :: c in items ==> ShowsStatus(db, c)
  {
    RunsMirror(parse, ops);
    RunsFit(parse, ops);
    var (db, replies) := Run(parse, ops);
    var st, live, items := PerformAll(parse, ops).0, ContainerLedger(ops, replies), ListContainers(db, None);
    ListedIds(db);
    ListedStatuses(db, |db|);
    assert db[..|db|] == db;
    forall id ensures id in ContainerIds(items) <==> id in live {
      HeldIffKnown(db, st, id);
    }
    forall c | c in items ensures c.id in live && ContainerAsRequested(live[c.id], c) {
      StatusesMatchHistory(parse, ops, c.id);
      assert ShowsStatus(db, c);
    }
  }

  lemma {:induction false} AllSandboxesListed(db: Db)
    ensures |Database.ListSandboxes(db, None)| == |db|
    ensures forall i :: 0 <= i < |db| ==> Database.ListSandboxes(db, None)[i] == Item(SandboxStatusOf(db[i]))
    decreases |db|
  {
    if db != [] {
      AllSandboxesListed(db[..|db| - 1]);
    }
  }

  /** A listed sandbox shows the status that asking for it would give. */
  ghost predicate ShowsSandbox(db: Db, item: PodSandbox)
  {
    var s := SandboxStatusReply(db, item.id);
    s.Some? && item == Item(s.value)
  }

  lemma ItemsInOrder(db: Db)
    requires WellFormed(db)
    ensures
      var items := Database.ListSandboxes(db, None);
      |items| == |db| && forall i :: 0 <= i < |items| ==> items[i].id == Ids(db)[i] && ShowsSandbox(db, items[i])
  {
    AllSandboxesListed(db);
    forall i | 0 <= i < |db| ensures SandboxStatusReply(db, db[i].id) == Some(SandboxStatusOf(db[i])) {
      IndexOfDistinct(Ids(db), i);
    }
  }

  /** The items are exactly the sandboxes of the ledger, each once and as requested. */
  ghost predicate ShowsSandboxes(items: seq<PodSandbox>, live: map<string, SandboxConfig>)
  {
    && (forall i, j :: 0 <= i < j < |items| ==> items[i].id != items[j].id)
    && (forall i :: 0 <= i < |items| ==> items[i].id in live && ItemAsRequested(live[items[i].id], items[i]))
    && (forall id :: id in live ==> exists i :: 0 <= i < |items| && items[i].id == id)
  }

  ghost predicate ItemAsRequested(config: SandboxConfig, item: PodSandbox)
  {
    item.metadata == config.metadata && Arrived(config.labels, item.labels)
  }

  /** Likewise for sandboxes: each one that was started and not removed is listed once, as its status says,
      with exactly the uid, name, namespace and attempt it was run with. */
  lemma SandboxesAreConserved(parse: Parser, ops: seq<Op>)
    requires HonestRun(ops)
    ensures
      var (db, replies) := Run(parse, ops);
      var items := Database.ListSandboxes(db, None);
      ShowsSandboxes(items, SandboxLedger(ops, replies)) && forall item :: item in items ==> ShowsSandbox(db, item)
  {
    RunsMirror(parse, ops);
    var (db, replies) := Run(parse, ops);
    ItemsInOrder(db);
    var live, items := SandboxLedger(ops, replies), Database.ListSandboxes(db, None);
    forall i | 0 <= i < |items| ensures items[i].id in live && ItemAsRequested(live[items[i].id], items[i]) {
      StatusesMatchHistory(parse, ops, items[i].id);
      assert ShowsSandbox(db, items[i]);
    }
    forall id | id in live ensures exists i :: 0 <= i < |items| && items[i].id == id {
      StatusesMatchHistory(parse, ops, id);
      assert items[IndexOf(Ids(db), id).value].id == id;
    }
  }

  // ----- what the caller knows of the sandboxes -----

  /** No later call was told that the sandbox is gone. */
  predicate NotRemovedAfter(ops: seq<Op>, replies: seq<Reply>, k: nat, id: string)
    requires |ops| == |replies|
  {
    forall j :: k < j < |ops| && ops[j].RemovePodSandbox? && ops[j].sandbox == id ==> replies[j] != Removed(true)
  }

  /** Call `k` handed out the id, and it was not removed since. This looks at calls and replies only. */
  predicate HandedOut(ops: seq<Op>, replies: seq<Reply>, k: nat, id: string)
    requires |ops| == |replies|
  {
    && k < |ops| && ops[k].RunPodSandbox? && replies[k].Ran? && replies[k].reply.id == Some(id)
    && NotRemovedAfter(ops, replies, k, id)
  }

  /** Call `k` started a sandbox whose UUID the poller never saw, and it was not removed since. */
  predicate Silent(ops: seq<Op>, replies: seq<Reply>, k: nat, id: string)
    requires |ops| == |replies|
  {
    && k < |ops| && ops[k].RunPodSandbox? && replies[k] == Ran(RunReply(None, false))
    && StartsUp(ops[k].config, ops[k].launch) && ops[k].launch.answer.uuid == id && !Found(ops[k].launch.polls)
    && NotRemovedAfter(ops, replies, k, id)
  }

  predicate Started(ops: seq<Op>, replies: seq<Reply>, k: nat, id: string, config: SandboxConfig)
    requires |ops| == |replies|
  {
    (HandedOut(ops, replies, k, id) || Silent(ops, replies, k, id)) && ops[k].config == config
  }

  ghost predicate StartedBy(ops: seq<Op>, replies: seq<Reply>, id: string, config: SandboxConfig)
    requires |ops| == |replies|
  {
    exists k: nat :: Started(ops, replies, k, id, config)
  }

  ghost predicate StartedOnce(ops: seq<Op>, replies: seq<Reply>, item: PodSandbox)
    requires |ops| == |replies|
  {
    exists config :: StartedBy(ops, replies, item.id, config) && ItemAsRequested(config, item)
  }

  /** What a caller can rely on: every id handed out and not removed is listed as its request said, and any
      other listed sandbox was started by a call whose poller never saw the UUID. */
  ghost predicate CallersView(ops: seq<Op>, replies: seq<Reply>, items: seq<PodSandbox>)
    requires |ops| == |replies|
  {
    && (forall i, j :: 0 <= i < j < |items| ==> items[i].id != items[j].id)
    && (forall k: nat, id :: HandedOut(ops, replies, k, id) ==>
          exists i :: 0 <= i < |items| && items[i].id == id && ItemAsRequested(ops[k].config, items[i]))
    && (forall i :: 0 <= i < |items| ==> StartedOnce(ops, replies, items[i]))
  }

  /** The same of a ledger. */
  ghost predicate Explains(ops: seq<Op>, replies: seq<Reply>, live: map<string, SandboxConfig>)
    requires |ops| == |replies|
  {
    && (forall k: nat, id :: HandedOut(ops, replies, k, id) ==> id in live && live[id] == ops[k].config)
    && (forall id :: id in live ==> StartedBy(ops, replies, id, live[id]))
  }

  /** The reply to a launch, as far as the caller's knowledge is concerned. */
  predicate LaunchReply(op: Op, reply: Reply, live: map<string, SandboxConfig>)
  {
    op.RunPodSandbox? ==>
      var starts := StartsUp(op.config, op.launch) && op.launch.answer.uuid !in live;
      && reply.Ran?
      && reply.reply.id == (if starts && Found(op.launch.polls) then Some(op.launch.answer.uuid) else None)
      && (reply.reply.id.None? ==> !reply.reply.ok)
  }

  lemma StepReplies(st: Statuses, parse: Parser, op: Op, live: map<string, SandboxConfig>)
    requires HonestOp(op) && SandboxesFit(st.sandboxes, live)
    ensures LaunchReply(op, Perform(st, parse, op).1, live)
  {
  }

  predicate Removes(op: Op, reply: Reply, id: string)
  {
    op.RemovePodSandbox? && op.sandbox == id && reply == Removed(true)
  }

  lemma EarlierCall(ops: seq<Op>, replies: seq<Reply>, k: nat, id: string)
    requires |ops| == |replies| > 0 && k < |ops| - 1
    ensures
      var n := |ops| - 1;
      && (HandedOut(ops, replies, k, id) <==>
            HandedOut(ops[..n], replies[..n], k, id) && !Removes(ops[n], replies[n], id))
      && (Silent(ops, replies, k, id) <==>
            Silent(ops[..n], replies[..n], k, id) && !Removes(ops[n], replies[n], id))
  {
    var n := |ops| - 1;
    assert NotRemovedAfter(ops, replies, k, id) <==>
      NotRemovedAfter(ops[..n], replies[..n], k, id) && !Removes(ops[n], replies[n], id) by
    {
      assert forall j :: 0 <= j < n ==> ops[..n][j] == ops[j] && replies[..n][j] == replies[j];
    }
  }

  lemma HandedOutStep(ops: seq<Op>, replies: seq<Reply>, live: map<string, SandboxConfig>, k: nat, id: string)
    requires |ops| == |replies| > 0
    requires Explains(ops[..|ops| - 1], replies[..|ops| - 1], live)
    requires LaunchReply(ops[|ops| - 1], replies[|ops| - 1], live)
    requires HandedOut(ops, replies, k, id)
    ensures
      var after := SandboxLedgerStep(live, ops[|ops| - 1], replies[|ops| - 1]);
      id in after && after[id] == ops[k].config
  {
    if k < |ops| - 1 {
      EarlierCall(ops, replies, k, id);
      assert id in live;
    }
  }

  lemma LiveStep(ops: seq<Op>, replies: seq<Reply>, live: map<string, SandboxConfig>, id: string) returns (k: nat)
    requires |ops| == |replies| > 0
    requires Explains(ops[..|ops| - 1], replies[..|ops| - 1], live)
    requires LaunchReply(ops[|ops| - 1], replies[|ops| - 1], live)
    requires id in SandboxLedgerStep(live, ops[|ops| - 1], replies[|ops| - 1])
    ensures Started(ops, replies, k, id, SandboxLedgerStep(live, ops[|ops| - 1], replies[|ops| - 1])[id])
  {
    var n := |ops| - 1;
    if id in live {
      k :| Started(ops[..n], replies[..n], k, id, live[id]);
      EarlierCall(ops, replies, k, id);
    } else {
      k := n;
    }
  }

  lemma {:induction false} RunExplains(parse: Parser, ops: seq<Op>)
    requires HonestRun(ops)
    ensures
      var replies := PerformAll(parse, ops).1;
      Explains(ops, replies, SandboxLedger(ops, replies))
    decreases |ops|
  {
    if ops != [] {
      var n := |ops| - 1;
      RunExplains(parse, ops[..n]);
      RunsFit(parse, ops[..n]);
      var (st, before) := PerformAll(parse, ops[..n]);
      var replies := PerformAll(parse, ops).1;
      assert replies[..n] == before;
      var live := SandboxLedger(ops[..n], before);
      StepReplies(st, parse, ops[n], live);
      forall k: nat, id | HandedOut(ops, replies, k, id)
        ensures id in SandboxLedger(ops, replies) && SandboxLedger(ops, replies)[id] == ops[k].config
      {
        HandedOutStep(ops, replies, live, k, id);
      }
      forall id | id in SandboxLedger(ops, replies)
        ensures StartedBy(ops, replies, id, SandboxLedger(ops, replies)[id])
      {
        var k := LiveStep(ops, replies, live, id);
      }
    }
  }

  lemma ExplainedListing(ops: seq<Op>, replies: seq<Reply>, live: map<string, SandboxConfig>, items: seq<PodSandbox>)
    requires |ops| == |replies| && Explains(ops, replies, live) && ShowsSandboxes(items, live)
    ensures CallersView(ops, replies, items)
  {
    forall k: nat, id | HandedOut(ops, replies, k, id)
      ensures exists i :: 0 <= i < |items| && items[i].id == id && ItemAsRequested(ops[k].config, items[i])
    {
      var i :| 0 <= i < |items| && items[i].id == id;
      assert ItemAsRequested(live[id], items[i]);
    }
    forall i | 0 <= i < |items| ensures StartedOnce(ops, replies, items[i]) {
      assert StartedBy(ops, replies, items[i].id, live[items[i].id]);
    }
  }

  /** After every run the listing of sandboxes is what the caller can rely on. */
  lemma ListingMatchesReplies(parse: Parser, ops: seq<Op>)
    requires HonestRun(ops)
    ensures
      var (db, replies) := Run(parse, ops);
      CallersView(ops, replies, Database.ListSandboxes(db, None))
  {
    SandboxesAreConserved(parse, ops);
    RunExplains(parse, ops);
    RunsMirror(parse, ops);
    var (db, replies) := Run(parse, ops);
    ExplainedListing(ops, replies, SandboxLedger(ops, replies), Database.ListSandboxes(db, None));
  }

  /** The same of one status: an id handed out and not removed is known as its request said, and a known
      sandbox was started by some call, handed out or not. */
  ghost predicate CallersStatus(ops: seq<Op>, replies: seq<Reply>, id: string, s: Option<SandboxStatus>)
    requires |ops| == |replies|
  {
    && (forall k: nat :: HandedOut(ops, replies, k, id) ==> s.Some? && SandboxAsRequested(ops[k].config, s.value))
    && (s.Some? ==> exists config :: StartedBy(ops, replies, id, config) && SandboxAsRequested(config, s.value))
  }

  lemma SandboxStatusMatchesReplies(parse: Parser, ops: seq<Op>, id: string)
    requires HonestRun(ops)
    ensures
      var (db, replies) := Run(parse, ops);
      CallersStatus(ops, replies, id, SandboxStatusReply(db, id))
  {
    StatusesMatchHistory(parse, ops, id);
    RunsMirror(parse, ops);
    RunExplains(parse, ops);
    var (db, replies) := Run(parse, ops);
    var live := SandboxLedger(ops, replies);
    assert id in live ==> StartedBy(ops, replies, id, live[id]);
  }

  // ----- what a call does to the listing -----

  /** What the listing shows of one container is what the maps hold. */
  lemma ListedAsKnown(parse: Parser, ops: seq<Op>, id: string)
    requires HonestRun(ops) && ContainerStatusReply(Run(parse, ops).0, id).Some?
    ensures
      var db := Run(parse, ops).0;
      ListedOnlyAs(ListContainers(db, None), Normalized(id), ContainerStatusReply(db, id).value.state)
  {
    var (db, replies) := Run(parse, ops);
    ContainersAreConserved(parse, ops);
    StatusesMatchHistory(parse, ops, id);
    assert Normalized(id) in ContainerIds(ListContainers(db, None));
    forall c | c in ListContainers(db, None) && c.id == Normalized(id)
      ensures c.state == ContainerStatusReply(db, id).value.state
    {
      StatusesMatchHistory(parse, ops, c.id);
      assert ShowsStatus(db, c);
    }
  }

  lemma StatusAfterVerb(parse: Parser, ops: seq<Op>, verb: Verb, id: string, a: R.Answer)
    requires HonestRun(ops) && (verb.Start? || verb.Stop?)
    ensures HonestRun(ops + [Op.OnContainer(verb, id, a)])
    ensures
      var (db, replies) := Run(parse, ops + [Op.OnContainer(verb, id, a)]);
      replies[|ops|] == Answered(true) ==>
        && ContainerStatusReply(db, id).Some?
        && ContainerStatusReply(db, id).value.state == if verb.Start? then ContainerRunning else ContainerExited
  {
    RunNext(parse, ops, Op.OnContainer(verb, id, a));
    RunsMirror(parse, ops);
    var before := Run(parse, ops).0;
    if Database.OnContainer(before, verb, id, a).1 {
      StateAfterVerb(before, verb, id, a);
    }
  }

  lemma StateAfterVerb(db: Db, verb: Verb, id: string, a: R.Answer)
    requires WellFormed(db) && Database.OnContainer(db, verb, id, a).1 && (verb.Start? || verb.Stop?)
    ensures
      var s := ContainerStatusReply(Database.OnContainer(db, verb, id, a).0, id);
      s.Some? && s.value.state == if verb.Start? then ContainerRunning else ContainerExited
  {
    VerbIsVisible(db, verb, id, a);
  }

  /** After a start or stop that succeeded the container is listed, and only, in the state the call brought it to. */
  lemma VerbSettles(parse: Parser, ops: seq<Op>, verb: Verb, id: string, a: R.Answer)
    requires HonestRun(ops) && (verb.Start? || verb.Stop?)
    ensures HonestRun(ops + [Op.OnContainer(verb, id, a)])
    ensures
      var (db, replies) := Run(parse, ops + [Op.OnContainer(verb, id, a)]);
      replies[|ops|] == Answered(true) ==> ListedOnlyAs(ListContainers(db, None), Normalized(id),
                                                        if verb.Start? then ContainerRunning else ContainerExited)
  {
    StatusAfterVerb(parse, ops, verb, id, a);
    var all := ops + [Op.OnContainer(verb, id, a)];
    if Run(parse, all).1[|ops|] == Answered(true) {
      ListedAsKnown(parse, all, id);
    }
  }

  /** There is a container of that id in the list, and it is always in that state. */
  ghost predicate ListedOnlyAs(items: seq<Container>, id: string, state: ContainerState)
  {
    id in ContainerIds(items) && forall c :: c in items && c.id == id ==> c.state == state
  }

  // ----- laws of single calls -----

  /** A started sandbox is handed out to the caller if and only if its UUID shows up in the file within the
      first hundred attempts; otherwise it exists, is listed, and nobody was told. */
  lemma HandedOutIff(db: Db, config: SandboxConfig, l: Launch)
    requires HonestSandbox(config, l.w)
    ensures
      var (db', r) := RunSandbox(db, config, l);
      && (r.id.Some? <==> Launches(db, config, l) && Found(l.polls))
      && (l.answer.uuid in Ids(db') && r.id.None? <==>
            l.answer.uuid in Ids(db) || (Launches(db, config, l) && !Found(l.polls)))
      && (r.ok ==> r.id == Some(l.answer.uuid) && SandboxStatusReply(db', l.answer.uuid).Some?)
  {
    var s, position := NewSandbox(config, l), l.answer.position;
    if Launches(db, config, l) {
      Refinement.IdsInserted(db, position, s);
      var k := if position <= |db| then position else |db|;
      assert InsertAt(Ids(db), position, s.id)[k] == s.id;
    }
  }

  /** Stopping is idempotent: once a stop went through, any further stop of the sandbox succeeds,
      whatever rkt answers, and changes nothing. */
  lemma StopTwice(db: Db, id: string, first: R.Answer, second: R.Answer)
    requires Distinct(Ids(db)) && id in Ids(db) && first.refusal.None?
    ensures
      var (once, ok1) := StopSandbox(db, id, first);
      var (twice, ok2) := StopSandbox(once, id, second);
      ok1 && ok2 && twice == once
  {
    var once := StopSandbox(db, id, first).0;
    assert Ids(once) == Ids(db);
  }

  /** What CreateContainer returns is what the other calls understand: right after a successful create
      the container is there under that ID, with the requested attempt, sanitized name and image. */
  lemma CreatedIsKnown(db: Db, parse: Parser, req: CreateContainerRequest, w: AddWorld, a: R.Answer)
    requires WellFormed(db) && Honest(req.config, w) && Create(db, parse, req, w, a).1.Some?
    ensures
      var (db', id) := Create(db, parse, req, w, a);
      var status := ContainerStatusReply(db', id.value);
      && status.Some?
      && status.value.id == id.value && status.value.attempt == req.config.attempt
      && Sanitize(req.config.name) == Ok(status.value.name)
      && Some(status.value.image) == req.config.image
      && (a.report.state == "created" ==> status.value.state.ContainerCreated?)
      && status.value.createdAt == (match a.report.createdAt case Some(t) => t case None => 0)
      && ((forall k :: k in req.config.labels ==> '=' !in k) ==> status.value.labels == req.config.labels)
      && ((forall k :: k in req.config.annotations ==> '=' !in k && !Reserved(k)) ==>
            status.value.annotations == req.config.annotations)
  {
    var (db', id) := Create(db, parse, req, w, a);
    var r := NewRecord(req.config, req.config.image.value, w, a);
    SanitizeIsCanonical(req.config.name);
    CreateUpdates(db, parse, req, w, a, req.podSandboxId, AppName(r.key));
    Refinement.UuidHasNoQuote(req.podSandboxId);
    ContainerIDRoundTrip(req.podSandboxId, r.key);
    StatusShowsRecord(db', id.value);
    WireExactIff(w.labelOrder, req.config.labels);
    UserAnnotationsExactIff(w.annotationOrder, req.config.annotations);
  }
}
