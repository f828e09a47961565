/** Runs: sequences of CRI calls, interleaved with changes that happen on their own. */
module Runs {
  import opened Wrappers
  import opened Cri
  import opened ImageNames
  import opened Database
  import R = Rkt

  datatype Op =
    | RunPodSandbox(config: SandboxConfig, launch: Launch)
    | StopPodSandbox(sandbox: string, a: R.Answer)
    | RemovePodSandbox(sandbox: string, stop: R.Answer, remove: R.Answer)
    | CreateContainer(req: CreateContainerRequest, w: AddWorld, a: R.Answer)
    | OnContainer(verb: Verb, container: string, a: R.Answer)
    | PodDrifts(pod: string, state: string)
    | ContainerDrifts(container: string, report: R.Report)

  /** What the caller learns. */
  datatype Reply =
    | Ran(reply: RunReply)
    | Created(id: Option<string>)
    | Answered(ok: bool)
    | Removed(gone: bool)
    | Nothing

  ghost predicate HonestOp(op: Op)
  {
    match op
    case RunPodSandbox(config, l) => HonestSandbox(config, l.w)
    case CreateContainer(req, w, _) => Honest(req.config, w)
    case _ => true
  }

  ghost function Step(db: Db, parse: Parser, op: Op): (Db, Reply)
    requires HonestOp(op)
  {
    match op
    case RunPodSandbox(config, l) => var (db', r) := RunSandbox(db, config, l); (db', Ran(r))
    case StopPodSandbox(id, a) => var (db', ok) := StopSandbox(db, id, a); (db', Answered(ok))
    case RemovePodSandbox(id, s, r) => var (db', gone) := RemoveSandbox(db, id, s, r); (db', Removed(gone))
    case CreateContainer(req, w, a) => var (db', id) := Create(db, parse, req, w, a); (db', Created(id))
    case OnContainer(verb, id, a) => var (db', ok) := Database.OnContainer(db, verb, id, a); (db', Answered(ok))
    case PodDrifts(id, state) => (DriftPod(db, id, state), Nothing)
    case ContainerDrifts(id, report) => (DriftContainer(db, id, report), Nothing)
  }

  ghost predicate HonestRun(ops: seq<Op>) { forall i :: 0 <= i < |ops| ==> HonestOp(ops[i]) }

  /** The state and the replies after a run from the empty state. */
  ghost function Run(parse: Parser, ops: seq<Op>): (r: (Db, seq<Reply>))
    requires HonestRun(ops)
    ensures |r.1| == |ops|
    decreases |ops|
  {
    if ops == [] then ([], [])
    else
      var (db, replies) := Run(parse, ops[..|ops| - 1]);
      var (db', reply) := Step(db, parse, ops[|ops| - 1]);
      (db', replies + [reply])
  }

  lemma RunNext(parse: Parser, ops: seq<Op>, op: Op)
    requires HonestRun(ops) && HonestOp(op)
    ensures HonestRun(ops + [op])
    ensures
      var (db, replies) := Run(parse, ops);
      var (db', reply) := Step(db, parse, op);
      Run(parse, ops + [op]) == (db', replies + [reply])
  {
    assert (ops + [op])[..|ops|] == ops;
  }
}
