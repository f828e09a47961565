/** Whole runs of the text-level runtime: they answer as the database does, so everything proved about
    runs of the database holds of rktlet. */
module Execution {
  import opened Wrappers
  import opened Cri
  import opened Database
  import opened Runs
  import opened Registry
  import opened Ledgers
  import opened History
  import opened Runtime
  import R = Rkt

  method Perform(rkt: RktRuntime, op: Op) returns (reply: Reply)
    requires rkt.Valid() && HonestOp(op)
    modifies rkt
    ensures rkt.Valid()
    ensures (rkt.db, reply) == Step(old(rkt.db), rkt.parse, op)
  {
    match op {
      case RunPodSandbox(config, launch) =>
        var r := rkt.RunPodSandbox(config, launch);
        reply := Ran(r);
      case StopPodSandbox(id, a) =>
        var r := rkt.StopPodSandbox(id, a);
        reply := Answered(r.Ok?);
      case RemovePodSandbox(id, stop, remove) =>
        var err := rkt.RemovePodSandbox(id, stop, remove);
        reply := Removed(err.cause.None?);
      case CreateContainer(req, w, a) =>
        var r := rkt.CreateContainer(req, w, a);
        reply := Created(match r case Ok(id) => Some(id) case Err(_) => None);
      case OnContainer(verb, id, a) =>
        reply := PerformOnContainer(rkt, verb, id, a);
      case PodDrifts(id, state) =>
        rkt.DriftPod(id, state);
        reply := Nothing;
      case ContainerDrifts(id, report) =>
        rkt.DriftContainer(id, report);
        reply := Nothing;
    }
  }

  method PerformOnContainer(rkt: RktRuntime, verb: Verb, id: string, a: R.Answer) returns (reply: Reply)
    requires rkt.Valid()
    modifies rkt
    ensures rkt.Valid()
    ensures
      var (db', ok) := Database.OnContainer(old(rkt.db), verb, id, a);
      rkt.db == db' && reply == Answered(ok)
  {
    match verb {
      case Start =>
        var r := rkt.StartContainer(id, a);
        reply := Answered(r.Ok?);
      case Stop =>
        var r := rkt.StopContainer(id, a);
        reply := Answered(r.Ok?);
      case Remove =>
        var r := rkt.RemoveContainer(id, a);
        reply := Answered(r.Ok?);
      case Query =>
        QueryAnswer(rkt.db, id, a);
        var r := rkt.ContainerStatus(id, a);
        reply := Answered(r.Ok?);
    }
  }

  lemma QueryAnswer(db: Db, id: string, a: R.Answer)
    ensures Database.OnContainer(db, Query, id, a) == (db, ContainerStatusReply(db, id).Some?)
  {
  }

  /** A run of calls against rkt is a run of the database. */
  method Execute(rkt: RktRuntime, ops: seq<Op>) returns (replies: seq<Reply>)
    requires rkt.Valid() && rkt.db == [] && HonestRun(ops)
    modifies rkt
    ensures rkt.Valid()
    ensures (rkt.db, replies) == Run(rkt.parse, ops)
  {
    replies := [];
    for i := 0 to |ops|
      invariant rkt.Valid()
      invariant HonestRun(ops[..i]) && (rkt.db, replies) == Run(rkt.parse, ops[..i])
    {
      var reply := Perform(rkt, ops[i]);
      replies := replies + [reply];
      assert ops[..i + 1][..i] == ops[..i];
    }
    assert ops[..|ops|] == ops;
  }

  /** The listings after any run show exactly what the calls and replies say should exist, as it was requested. */
  method ExecuteThenList(rkt: RktRuntime, ops: seq<Op>, a: R.Answer)
    returns (replies: seq<Reply>, containers: seq<Container>, sandboxes: seq<PodSandbox>)
    requires rkt.Valid() && rkt.db == [] && HonestRun(ops)
    modifies rkt
    ensures rkt.Valid() && |replies| == |ops|
    ensures ShowsContainers(containers, ContainerLedger(ops, replies))
    ensures ShowsSandboxes(sandboxes, SandboxLedger(ops, replies)) && CallersView(ops, replies, sandboxes)
  {
    replies := Execute(rkt, ops);
    ContainersAreConserved(rkt.parse, ops);
    SandboxesAreConserved(rkt.parse, ops);
    ListingMatchesReplies(rkt.parse, ops);
    var listed := rkt.ListContainers(None, a);
    containers := listed.value;
    var pods := rkt.ListPodSandbox(None, a);
    sandboxes := pods.value;
  }

  function Answer<T>(r: Result<T>): Option<T> { match r case Ok(value) => Some(value) case Err(_) => None }

  /** Asking for any container after any run. */
  method ExecuteThenAsk(rkt: RktRuntime, ops: seq<Op>, containerID: string, a: R.Answer)
    returns (replies: seq<Reply>, status: Result<ContainerStatus>)
    requires rkt.Valid() && rkt.db == [] && HonestRun(ops)
    modifies rkt
    ensures rkt.Valid() && |replies| == |ops|
    ensures replies == PerformAll(rkt.parse, ops).1
    ensures Answer(status) == StatusReply(PerformAll(rkt.parse, ops).0, containerID)
    ensures StatusOwed(ContainerLedger(ops, replies), containerID, Answer(status))
  {
    replies := Execute(rkt, ops);
    RunsMirror(rkt.parse, ops);
    StatusesMatchHistory(rkt.parse, ops, containerID);
    status := rkt.ContainerStatus(containerID, a);
  }

  /** Asking for any sandbox after any run. */
  method ExecuteThenAskSandbox(rkt: RktRuntime, ops: seq<Op>, id: string, a: R.Answer)
    returns (replies: seq<Reply>, status: Result<SandboxStatus>)
    requires rkt.Valid() && rkt.db == [] && HonestRun(ops)
    modifies rkt
    ensures rkt.Valid() && |replies| == |ops|
    ensures Answer(status) == Get(PerformAll(rkt.parse, ops).0.sandboxes, id)
    ensures SandboxStatusOwed(SandboxLedger(ops, replies), id, Answer(status))
    ensures CallersStatus(ops, replies, id, Answer(status))
  {
    replies := Execute(rkt, ops);
    StatusesMatchHistory(rkt.parse, ops, id);
    SandboxStatusMatchesReplies(rkt.parse, ops, id);
    status := rkt.PodSandboxStatus(id, a);
  }

  /** After any run and a start or stop that succeeded, listing by state shows the container in the one state the call
      brought it to and in no other. */
  method ExecuteThenListByState(rkt: RktRuntime, ops: seq<Op>, verb: Verb, id: string, a: R.Answer,
                                state: ContainerState)
    returns (ok: bool, listed: seq<Container>)
    requires rkt.Valid() && rkt.db == [] && HonestRun(ops) && (verb.Start? || verb.Stop?)
    modifies rkt
    ensures rkt.Valid()
    ensures ok ==> ((exists c :: c in listed && c.id == Normalized(id)) <==>
                      state == if verb.Start? then ContainerRunning else ContainerExited)
  {
    var all := ops + [Op.OnContainer(verb, id, a)];
    VerbSettles(rkt.parse, ops, verb, id, a);
    var replies := Execute(rkt, all);
    ok := replies[|ops|] == Answered(true);
    ghost var everything := Database.ListContainers(rkt.db, None);
    listed := ListByState(rkt, state, a);
    InState(everything, listed, id, state, if verb.Start? then ContainerRunning else ContainerExited);
  }

  /** The listing with a filter for the state alone. */
  method ListByState(rkt: RktRuntime, state: ContainerState, a: R.Answer) returns (listed: seq<Container>)
    requires rkt.Valid()
    modifies rkt
    ensures rkt.Valid() && rkt.db == old(rkt.db)
    ensures forall c :: c in listed <==> c in Database.ListContainers(rkt.db, None) && c.state == state
  {
    var everything := rkt.ListContainers(None, a);
    var some := rkt.ListContainers(Some(ContainerFilter("", Some(state), "", map[])), a);
    listed := some.value;
  }

  lemma InState(items: seq<Container>, listed: seq<Container>, id: string, state: ContainerState,
                settled: ContainerState)
    requires forall c :: c in listed <==> c in items && c.state == state
    ensures ListedOnlyAs(items, Normalized(id), settled) ==>
      ((exists c :: c in listed && c.id == Normalized(id)) <==> state == settled)
  {
    if ListedOnlyAs(items, Normalized(id), settled) && state == settled {
      var i :| 0 <= i < |items| && ContainerIds(items)[i] == Normalized(id);
      assert items[i] in items && items[i].id == Normalized(id);
    }
  }
}
