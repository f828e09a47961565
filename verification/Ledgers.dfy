/** Ledgers computed from a run: what should exist after it, and who asked for it; and the proof that the maps
    of statuses agree with them. */
module Ledgers {
  import opened Wrappers
  import opened Annotations
  import opened AcName
  import opened Identity
  import opened Cri
  import opened ImageNames
  import opened Database
  import opened Runs
  import opened Frames
  import opened Registry
  import R = Rkt

  // ----- the ledgers: what should exist, and who asked for it -----

  /** By calls and replies alone: created containers with the request that created them, minus those
      removed, minus those whose sandbox was removed. */
  function ContainerLedgerStep(live: map<string, ContainerConfig>, op: Op, reply: Reply): map<string, ContainerConfig>
  {
    match (op, reply)
    case (CreateContainer(req, _, _), Created(Some(id))) => live[id := req.config]
    case (OnContainer(Remove, id, _), Answered(true)) => live - {Normalized(id)}
    case (RemovePodSandbox(id, _, _), Removed(true)) => map c | c in live && SandboxOf(c) != id :: live[c]
    case _ => live
  }

  function ContainerLedger(ops: seq<Op>, replies: seq<Reply>): map<string, ContainerConfig>
    requires |ops| == |replies|
    decreases |ops|
  {
    if ops == [] then map[]
    else
      var n := |ops| - 1;
      ContainerLedgerStep(ContainerLedger(ops[..n], replies[..n]), ops[n], replies[n])
  }

  /** Sandboxes that were started and not removed, with the request they were started by. Not every caller
      learns of a start, so this ledger looks at rkt's side of the launch. */
  function SandboxLedgerStep(live: map<string, SandboxConfig>, op: Op, reply: Reply): map<string, SandboxConfig>
  {
    match (op, reply)
    case (RunPodSandbox(config, l), _) =>
      if StartsUp(config, l) && l.answer.uuid !in live then live[l.answer.uuid := config] else live
    case (RemovePodSandbox(id, _, _), Removed(true)) => live - {id}
    case _ => live
  }

  function SandboxLedger(ops: seq<Op>, replies: seq<Reply>): map<string, SandboxConfig>
    requires |ops| == |replies|
    decreases |ops|
  {
    if ops == [] then map[]
    else
      var n := |ops| - 1;
      SandboxLedgerStep(SandboxLedger(ops[..n], replies[..n]), ops[n], replies[n])
  }

  // ----- what an answer owes to the request -----

  /** What a map of the request has become on its way through the command line, in some iteration order. */
  ghost predicate Arrived(sent: map<string, string>, arrived: map<string, string>)
  {
    exists order :: Enumerates(order, sent) && Wire(order, sent) == arrived
  }

  ghost predicate ArrivedUnreserved(sent: map<string, string>, arrived: map<string, string>)
  {
    exists order :: Enumerates(order, sent) && Strip(Wire(order, sent)) == arrived
  }

  lemma ArrivedExactIff(sent: map<string, string>, arrived: map<string, string>)
    ensures Arrived(sent, arrived) ==> (arrived == sent <==> forall k :: k in sent ==> '=' !in k)
    ensures ArrivedUnreserved(sent, arrived) ==>
      (arrived == sent <==> forall k :: k in sent ==> '=' !in k && !Reserved(k))
  {
    forall order | Enumerates(order, sent)
      ensures Wire(order, sent) == sent <==> forall k :: k in sent ==> '=' !in k
      ensures Strip(Wire(order, sent)) == sent <==> forall k :: k in sent ==> '=' !in k && !Reserved(k)
    {
      WireExactIff(order, sent);
      UserAnnotationsExactIff(order, sent);
    }
  }

  /** Attempt, sanitized name, image, labels and annotations are those of the request. */
  ghost predicate AsRequested(config: ContainerConfig, name: string, attempt: nat, image: string,
                              labels: map<string, string>, annotations: map<string, string>)
  {
    && Sanitize(config.name) == Ok(name) && attempt == config.attempt && config.image == Some(image)
    && Arrived(config.labels, labels) && ArrivedUnreserved(config.annotations, annotations)
  }

  ghost predicate StatusAsRequested(config: ContainerConfig, s: ContainerStatus)
  {
    AsRequested(config, s.name, s.attempt, s.image, s.labels, s.annotations)
  }

  ghost predicate SandboxAsRequested(config: SandboxConfig, s: SandboxStatus)
  {
    && s.metadata == config.metadata
    && Arrived(config.labels, s.labels) && ArrivedUnreserved(config.annotations, s.annotations)
  }

  // ----- the maps of statuses agree with the ledgers -----

  /** The part of a status that no call and no drift changes. */
  function Lasting(s: ContainerStatus): ContainerStatus
  {
    s.(state := ContainerUnknown, createdAt := 0, startedAt := 0, finishedAt := 0, exitCode := 0, imageRef := "",
       mounts := [])
  }

  function LastingOfSandbox(s: SandboxStatus): SandboxStatus { s.(ready := false) }

  ghost predicate Born(op: Op, config: ContainerConfig, s: ContainerStatus)
  {
    && op.CreateContainer? && HonestOp(op) && op.req.config == config && config.image.Some?
    && Sanitize(config.name).Ok?
    && s == StatusOf(op.req.podSandboxId, NewRecord(config, config.image.value, op.w, op.a))
  }

  ghost predicate SandboxBorn(op: Op, config: SandboxConfig, s: SandboxStatus)
  {
    op.RunPodSandbox? && HonestOp(op) && op.config == config && s == SandboxStatusOf(NewSandbox(config, op.launch))
  }

  /** The ledger speaks of the known containers; one step keeps what lasts about them or has just created them. */
  ghost predicate ContainersMove(op: Op, before: map<string, ContainerStatus>, live: map<string, ContainerConfig>,
                                 after: map<string, ContainerStatus>, live': map<string, ContainerConfig>)
  {
    && after.Keys == live'.Keys
    && forall id :: id in live' ==>
         || (id in live && id in before && live'[id] == live[id] && Lasting(after[id]) == Lasting(before[id]))
         || (Born(op, live'[id], after[id]) && after[id].id == id)
  }

  ghost predicate SandboxesMove(op: Op, before: map<string, SandboxStatus>, live: map<string, SandboxConfig>,
                                after: map<string, SandboxStatus>, live': map<string, SandboxConfig>)
  {
    && after.Keys == live'.Keys
    && forall id :: id in live' ==>
         || (&& id in live && id in before && live'[id] == live[id]
             && LastingOfSandbox(after[id]) == LastingOfSandbox(before[id]))
         || (SandboxBorn(op, live'[id], after[id]) && after[id].id == id)
  }

  ghost predicate Kept(before: map<string, ContainerStatus>, after: map<string, ContainerStatus>)
  {
    forall id :: id in after ==> id in before && Lasting(after[id]) == Lasting(before[id])
  }

  ghost predicate SandboxesKept(before: map<string, SandboxStatus>, after: map<string, SandboxStatus>)
  {
    forall id :: id in after ==> id in before && LastingOfSandbox(after[id]) == LastingOfSandbox(before[id])
  }

  lemma StopKeeps(st: Statuses, id: string, a: R.Answer)
    ensures
      var st' := StopOn(st, id, a).0;
      && st'.containers.Keys == st.containers.Keys && Kept(st.containers, st'.containers)
      && st'.sandboxes.Keys == st.sandboxes.Keys && SandboxesKept(st.sandboxes, st'.sandboxes)
  {
    var st' := StopOn(st, id, a).0;
    forall c | c in st.containers ensures Lasting(st'.containers[c]) == Lasting(st.containers[c]) {
      assert Lasting(Halted(st.containers[c])) == Lasting(st.containers[c]);
    }
  }

  lemma RemoveKeeps(st: Statuses, id: string, stop: R.Answer, remove: R.Answer)
    ensures
      var (st', gone) := RemoveOn(st, id, stop, remove);
      && Kept(st.containers, st'.containers) && SandboxesKept(st.sandboxes, st'.sandboxes)
      && st'.containers.Keys == (set c | c in st.containers && (gone ==> SandboxOf(c) != id))
      && st'.sandboxes.Keys == st.sandboxes.Keys - if gone then {id} else {}
  {
    StopKeeps(st, id, stop);
  }

  lemma ChangedKeeps(s: ContainerStatus, verb: Verb, a: R.Answer)
    ensures Changed(s, verb, a).Some? <==> !verb.Remove?
    ensures Changed(s, verb, a).Some? ==> Lasting(Changed(s, verb, a).value) == Lasting(s)
  {
  }

  lemma VerbKeeps(st: Statuses, verb: Verb, containerID: string, a: R.Answer)
    ensures
      var (st', ok) := OnContainerOn(st, verb, containerID, a);
      && st'.sandboxes == st.sandboxes && Kept(st.containers, st'.containers)
      && st'.containers.Keys == st.containers.Keys - if verb.Remove? && ok then {Normalized(containerID)} else {}
  {
    var id := Normalized(containerID);
    if OnContainerOn(st, verb, containerID, a).0 != st {
      var s := st.containers[id];
      ChangedKeeps(s, verb, a);
      var after := OnContainerOn(st, verb, containerID, a).0.containers;
      match Changed(s, verb, a)
      case None => assert after == st.containers - {id};
      case Some(s') => assert after == st.containers[id := s'];
    }
  }

  lemma DriftKeeps(st: Statuses, parse: Parser, op: Op)
    requires op.PodDrifts? || op.ContainerDrifts?
    ensures
      var st' := Perform(st, parse, op).0;
      && st'.containers.Keys == st.containers.Keys && Kept(st.containers, st'.containers)
      && st'.sandboxes.Keys == st.sandboxes.Keys && SandboxesKept(st.sandboxes, st'.sandboxes)
  {
    if op.ContainerDrifts? && Knows(st, op.container) {
      var s := st.containers[Normalized(op.container)];
      assert Lasting(Reported(s, op.report)) == Lasting(s);
    }
  }

  /** Fewer containers or as many, and nothing lasting about them changed. */
  lemma KeptMoves(op: Op, before: map<string, ContainerStatus>, live: map<string, ContainerConfig>,
                  after: map<string, ContainerStatus>, live': map<string, ContainerConfig>)
    requires before.Keys == live.Keys && Kept(before, after) && after.Keys == live'.Keys
    requires forall id :: id in live' ==> id in live && live'[id] == live[id]
    ensures ContainersMove(op, before, live, after, live')
  {
  }

  lemma SandboxesKeptMove(op: Op, before: map<string, SandboxStatus>, live: map<string, SandboxConfig>,
                          after: map<string, SandboxStatus>, live': map<string, SandboxConfig>)
    requires before.Keys == live.Keys && SandboxesKept(before, after) && after.Keys == live'.Keys
    requires forall id :: id in live' ==> id in live && live'[id] == live[id]
    ensures SandboxesMove(op, before, live, after, live')
  {
  }

  lemma CreateMoves(st: Statuses, parse: Parser, op: Op, live: map<string, ContainerConfig>)
    requires op.CreateContainer? && HonestOp(op) && st.containers.Keys == live.Keys
    ensures
      var (st', id) := CreateOn(st, parse, op.req, op.w, op.a);
      var live' := if id.Some? then live[id.value := op.req.config] else live;
      ContainersMove(op, st.containers, live, st'.containers, live')
  {
    var (st', id) := CreateOn(st, parse, op.req, op.w, op.a);
    if id.Some? {
      assert Born(op, op.req.config, st'.containers[id.value]);
    }
  }

  lemma RunMoves(st: Statuses, op: Op, live: map<string, SandboxConfig>)
    requires op.RunPodSandbox? && HonestOp(op) && st.sandboxes.Keys == live.Keys
    ensures
      var st' := RunOn(st, op.config, op.launch).0;
      var id := op.launch.answer.uuid;
      && st'.containers == st.containers
      && SandboxesMove(op, st.sandboxes, live, st'.sandboxes,
                       if StartsUp(op.config, op.launch) && id !in live then live[id := op.config] else live)
  {
    var id := op.launch.answer.uuid;
    if StartsUp(op.config, op.launch) && id !in live {
      assert SandboxBorn(op, op.config, RunOn(st, op.config, op.launch).0.sandboxes[id]);
    }
  }

  lemma LedgerShrinks(live: map<string, ContainerConfig>, op: Op, reply: Reply)
    requires !op.CreateContainer?
    ensures
      var live' := ContainerLedgerStep(live, op, reply);
      forall id :: id in live' ==> id in live && live'[id] == live[id]
  {
  }

  /** Whatever is not a create keeps what it leaves. */
  lemma OthersKeep(st: Statuses, parse: Parser, op: Op)
    requires HonestOp(op) && !op.CreateContainer?
    ensures Kept(st.containers, Perform(st, parse, op).0.containers)
  {
    match op
    case RunPodSandbox(_, _) =>
    case StopPodSandbox(id, a) => StopKeeps(st, id, a);
    case RemovePodSandbox(id, stop, remove) => RemoveKeeps(st, id, stop, remove);
    case OnContainer(verb, id, a) => VerbKeeps(st, verb, id, a);
    case PodDrifts(_, _) => DriftKeeps(st, parse, op);
    case ContainerDrifts(_, _) => DriftKeeps(st, parse, op);
  }

  lemma OthersInLedger(st: Statuses, parse: Parser, op: Op, live: map<string, ContainerConfig>)
    requires HonestOp(op) && !op.CreateContainer? && st.containers.Keys == live.Keys
    ensures
      var (st', reply) := Perform(st, parse, op);
      st'.containers.Keys == ContainerLedgerStep(live, op, reply).Keys
  {
    match op
    case RunPodSandbox(_, _) =>
    case StopPodSandbox(id, a) => StopKeeps(st, id, a);
    case RemovePodSandbox(id, stop, remove) => RemoveKeeps(st, id, stop, remove);
    case OnContainer(verb, id, a) => VerbKeeps(st, verb, id, a);
    case PodDrifts(_, _) => DriftKeeps(st, parse, op);
    case ContainerDrifts(_, _) => DriftKeeps(st, parse, op);
  }

  lemma ContainersStep(st: Statuses, parse: Parser, op: Op, live: map<string, ContainerConfig>)
    requires HonestOp(op) && st.containers.Keys == live.Keys
    ensures
      var (st', reply) := Perform(st, parse, op);
      ContainersMove(op, st.containers, live, st'.containers, ContainerLedgerStep(live, op, reply))
  {
    if op.CreateContainer? {
      CreateMoves(st, parse, op, live);
    } else {
      var (st', reply) := Perform(st, parse, op);
      OthersKeep(st, parse, op);
      OthersInLedger(st, parse, op, live);
      LedgerShrinks(live, op, reply);
      KeptMoves(op, st.containers, live, st'.containers, ContainerLedgerStep(live, op, reply));
    }
  }

  lemma SandboxesStep(st: Statuses, parse: Parser, op: Op, live: map<string, SandboxConfig>)
    requires HonestOp(op) && st.sandboxes.Keys == live.Keys
    ensures
      var (st', reply) := Perform(st, parse, op);
      SandboxesMove(op, st.sandboxes, live, st'.sandboxes, SandboxLedgerStep(live, op, reply))
  {
    if op.RunPodSandbox? {
      RunMoves(st, op, live);
    } else {
      match op {
        case StopPodSandbox(id, a) => StopKeeps(st, id, a);
        case RemovePodSandbox(id, stop, remove) => RemoveKeeps(st, id, stop, remove);
        case OnContainer(verb, id, a) => VerbKeeps(st, verb, id, a);
        case CreateContainer(_, _, _) =>
        case _ => DriftKeeps(st, parse, op);
      }
      var (st', reply) := Perform(st, parse, op);
      SandboxesKeptMove(op, st.sandboxes, live, st'.sandboxes, SandboxLedgerStep(live, op, reply));
    }
  }

  lemma BornAsRequested(op: Op, config: ContainerConfig, s: ContainerStatus)
    requires Born(op, config, s)
    ensures StatusAsRequested(config, s)
  {
    assert Enumerates(op.w.labelOrder, config.labels) && Enumerates(op.w.annotationOrder, config.annotations);
  }

  lemma SandboxBornAsRequested(op: Op, config: SandboxConfig, s: SandboxStatus)
    requires SandboxBorn(op, config, s)
    ensures SandboxAsRequested(config, s)
  {
    assert Enumerates(op.launch.w.labelOrder, config.labels);
    assert Enumerates(op.launch.w.annotationOrder, config.annotations);
  }

  lemma LastingAsRequested(config: ContainerConfig, before: ContainerStatus, after: ContainerStatus)
    requires Lasting(before) == Lasting(after) && StatusAsRequested(config, before)
    ensures StatusAsRequested(config, after) && after.id == before.id
  {
    assert Lasting(before).labels == before.labels && Lasting(before).annotations == before.annotations;
  }

  lemma LastingSandboxAsRequested(config: SandboxConfig, before: SandboxStatus, after: SandboxStatus)
    requires LastingOfSandbox(before) == LastingOfSandbox(after) && SandboxAsRequested(config, before)
    ensures SandboxAsRequested(config, after) && after.id == before.id
  {
    assert LastingOfSandbox(before).labels == before.labels;
  }

  ghost predicate ContainersFit(containers: map<string, ContainerStatus>, live: map<string, ContainerConfig>)
  {
    && containers.Keys == live.Keys
    && forall id :: id in live ==> containers[id].id == id && StatusAsRequested(live[id], containers[id])
  }

  ghost predicate SandboxesFit(sandboxes: map<string, SandboxStatus>, live: map<string, SandboxConfig>)
  {
    && sandboxes.Keys == live.Keys
    && forall id :: id in live ==> sandboxes[id].id == id && SandboxAsRequested(live[id], sandboxes[id])
  }

  lemma MovedContainersFit(op: Op, before: map<string, ContainerStatus>, live: map<string, ContainerConfig>,
                           after: map<string, ContainerStatus>, live': map<string, ContainerConfig>)
    requires ContainersMove(op, before, live, after, live') && ContainersFit(before, live)
    ensures ContainersFit(after, live')
  {
    forall id | id in live' ensures after[id].id == id && StatusAsRequested(live'[id], after[id]) {
      if Born(op, live'[id], after[id]) && after[id].id == id {
        BornAsRequested(op, live'[id], after[id]);
      } else {
        LastingAsRequested(live[id], before[id], after[id]);
      }
    }
  }

  lemma MovedSandboxesFit(op: Op, before: map<string, SandboxStatus>, live: map<string, SandboxConfig>,
                          after: map<string, SandboxStatus>, live': map<string, SandboxConfig>)
    requires SandboxesMove(op, before, live, after, live') && SandboxesFit(before, live)
    ensures SandboxesFit(after, live')
  {
    forall id | id in live' ensures after[id].id == id && SandboxAsRequested(live'[id], after[id]) {
      if SandboxBorn(op, live'[id], after[id]) && after[id].id == id {
        SandboxBornAsRequested(op, live'[id], after[id]);
      } else {
        LastingSandboxAsRequested(live[id], before[id], after[id]);
      }
    }
  }

  /** Every step keeps the maps and the ledgers in agreement. */
  lemma StepFits(st: Statuses, parse: Parser, op: Op, containers: map<string, ContainerConfig>,
                 sandboxes: map<string, SandboxConfig>)
    requires HonestOp(op) && ContainersFit(st.containers, containers) && SandboxesFit(st.sandboxes, sandboxes)
    ensures
      var (st', reply) := Perform(st, parse, op);
      && ContainersFit(st'.containers, ContainerLedgerStep(containers, op, reply))
      && SandboxesFit(st'.sandboxes, SandboxLedgerStep(sandboxes, op, reply))
  {
    var (st', reply) := Perform(st, parse, op);
    ContainersStep(st, parse, op, containers);
    SandboxesStep(st, parse, op, sandboxes);
    MovedContainersFit(op, st.containers, containers, st'.containers, ContainerLedgerStep(containers, op, reply));
    MovedSandboxesFit(op, st.sandboxes, sandboxes, st'.sandboxes, SandboxLedgerStep(sandboxes, op, reply));
  }

  lemma {:induction false} RunsFit(parse: Parser, ops: seq<Op>)
    requires HonestRun(ops)
    ensures
      var (st, replies) := PerformAll(parse, ops);
      && ContainersFit(st.containers, ContainerLedger(ops, replies))
      && SandboxesFit(st.sandboxes, SandboxLedger(ops, replies))
    decreases |ops|
  {
    if ops != [] {
      var n := |ops| - 1;
      RunsFit(parse, ops[..n]);
      var (st, replies) := PerformAll(parse, ops[..n]);
      assert PerformAll(parse, ops).1[..n] == replies;
      StepFits(st, parse, ops[n], ContainerLedger(ops[..n], replies), SandboxLedger(ops[..n], replies));
    }
  }
}
