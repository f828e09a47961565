/** From rkt's pods and apps to CRI objects: the specification on values. */
module Conversion {
  import opened Wrappers
  import opened Text
  import opened Lists
  import opened Annotations
  import opened Identity
  import opened Network
  import opened Cri
  import Rkt

  function OrZero(i: Option<int>): int { if i.Some? then i.value else 0 }

  function StateOf(s: string): ContainerState
  {
    if s == "created" then ContainerCreated
    else if s == "running" then ContainerRunning
    else if s == "exited" then ContainerExited
    else ContainerUnknown
  }

  /** The status of a container with known identity, image and user data. */
  function StatusFrom(id: string, name: string, attempt: nat, r: Rkt.Report, image: string,
                      labels: map<string, string>, annotations: map<string, string>): ContainerStatus
  {
    ContainerStatus(id, name, attempt, StateOf(r.state), OrZero(r.createdAt), OrZero(r.startedAt),
                    OrZero(r.finishedAt), OrZero(r.exitCode), r.imageID, image, labels, annotations, r.mounts)
  }

  function ToContainerStatus(uuid: string, app: Rkt.App): Result<ContainerStatus>
  {
    match ParseAppName(app.name)
    case Err(e) => Err(e)
    case Ok((attempt, name)) =>
      Ok(StatusFrom(BuildContainerID(uuid, app.name), name, attempt, app.report, GetImageName(app.annotations),
                    app.labels, Strip(app.annotations)))
  }

  predicate IsKubernetesPod(pod: Rkt.Pod) { POD_UID_KEY in pod.annotations }

  function SandboxFrom(id: string, metadata: Metadata, state: string, createdAt: Option<int>, networks: seq<NetInfo>,
                       labels: map<string, string>, annotations: map<string, string>): SandboxStatus
  {
    SandboxStatus(id, metadata, state == "running", OrZero(createdAt), PreferredIp(networks), labels, annotations)
  }

  function ToSandboxStatus(pod: Rkt.Pod): Result<SandboxStatus>
  {
    match GetMetadata(pod.annotations)
    case Err(e) => Err(e)
    case Ok(metadata) =>
      Ok(SandboxFrom(pod.uuid, metadata, pod.state, pod.createdAt, pod.networks, pod.labels, Strip(pod.annotations)))
  }

  function Item(s: SandboxStatus): PodSandbox { PodSandbox(s.id, s.metadata, s.ready, s.createdAt, s.labels) }

  /** The listing as a filter-then-map over the pods; the first pod that cannot be converted fails it. */
  function ListSandboxes(pods: seq<Rkt.Pod>, filter: Option<SandboxFilter>): Result<seq<PodSandbox>>
    decreases |pods|
  {
    if pods == [] then Ok([])
    else
      var init, pod := pods[..|pods| - 1], pods[|pods| - 1];
      match ListSandboxes(init, filter)
      case Err(e) => Err(e)
      case Ok(items) =>
        if !IsKubernetesPod(pod) then Ok(items)
        else
          match ToSandboxStatus(pod)
          case Err(e) => Err(e)
          case Ok(s) => Ok(if SandboxPasses(s.id, s.ready, s.labels, filter) then items + [Item(s)] else items)
  }

  /** A converted pod is used up: without its reserved annotations it no longer counts as a Kubernetes
      pod and cannot be converted again, while every other annotation is as before. */
  lemma ConversionIsSingleUse(pod: Rkt.Pod)
    requires ToSandboxStatus(pod).Ok?
    ensures
      var used := pod.(annotations := ToSandboxStatus(pod).value.annotations);
      && !IsKubernetesPod(used)
      && ToSandboxStatus(used).Err?
      && forall k :: k in pod.annotations && !Reserved(k) ==>
           k in used.annotations && used.annotations[k] == pod.annotations[k]
  {
    StripTwice(pod.annotations);
  }

  /** A shown sandbox in terms of the pod that rkt reports: ready exactly when it runs, created at zero when rkt does
      not say when, with the address that is preferred, and its identity from the reserved annotations, which are kept
      from the user. */
  lemma StatusInFull(pod: Rkt.Pod)
    requires ToSandboxStatus(pod).Ok?
    ensures
      var s := ToSandboxStatus(pod).value;
      && s.id == pod.uuid && (s.ready <==> pod.state == "running") && s.ip == PreferredIp(pod.networks)
      && s.createdAt == (match pod.createdAt case Some(t) => t case None => 0) && s.labels == pod.labels
      && Unreserved(pod.annotations, s.annotations)
      && Described(pod.annotations, s.metadata)
  {
    StripLeavesUnreserved(pod.annotations);
  }

  /** The identity of a sandbox as its annotations give it. */
  predicate Described(annotations: map<string, string>, meta: Metadata)
  {
    && meta.uid == (if "k8s.io/reserved/pod-uid" in annotations then annotations["k8s.io/reserved/pod-uid"] else "")
    && meta.name == (if "k8s.io/reserved/pod-name" in annotations then annotations["k8s.io/reserved/pod-name"] else "")
    && meta.namespace
       == (if "k8s.io/reserved/pod-namespace" in annotations then annotations["k8s.io/reserved/pod-namespace"] else "")
    && "k8s.io/reserved/pod-attempt" in annotations
    && ParseUint32(annotations["k8s.io/reserved/pod-attempt"]) == Some(meta.attempt)
  }

  // ----- filters -----

  function Passing(filter: Option<SandboxFilter>): PodSandbox -> bool
  {
    (x: PodSandbox) => SandboxPasses(x.id, x.ready, x.labels, filter)
  }

  /** Listing with a filter is filtering the unfiltered listing, in the same order and with the same
      failures. */
  lemma {:induction false} ListingCommutesWithFilter(pods: seq<Rkt.Pod>, filter: Option<SandboxFilter>)
    ensures ListSandboxes(pods, filter).Ok? <==> ListSandboxes(pods, None).Ok?
    ensures ListSandboxes(pods, None).Ok? ==>
      ListSandboxes(pods, filter) == Ok(Filter(Passing(filter), ListSandboxes(pods, None).value))
    decreases |pods|
  {
    if pods != [] {
      var init, pod := pods[..|pods| - 1], pods[|pods| - 1];
      ListingCommutesWithFilter(init, filter);
      if ListSandboxes(pods, None).Ok? && IsKubernetesPod(pod) {
        var items, s := ListSandboxes(init, None).value, ToSandboxStatus(pod).value;
        FilterNext(Passing(filter), items, Item(s));
      }
    }
  }

  /** Listing with a filter shows exactly the sandboxes of the unfiltered listing that agree with every restriction of
      the filter: its id and state where they are given, and each label it selects by. */
  lemma FilteredIff(pods: seq<Rkt.Pod>, f: SandboxFilter, item: PodSandbox)
    requires ListSandboxes(pods, None).Ok?
    ensures ListSandboxes(pods, Some(f)).Ok?
    ensures item in ListSandboxes(pods, Some(f)).value <==>
      && item in ListSandboxes(pods, None).value
      && (f.id != "" ==> item.id == f.id)
      && (f.ready.Some? ==> item.ready == f.ready.value)
      && forall k :: k in f.labelSelector ==> k in item.labels && item.labels[k] == f.labelSelector[k]
  {
    ListingCommutesWithFilter(pods, Some(f));
    FilterIsPart(Passing(Some(f)), ListSandboxes(pods, None).value, item);
  }

  /** Enlarging the label selector only drops sandboxes from the listing. */
  lemma {:induction false} LargerSelectorShrinks(pods: seq<Rkt.Pod>, f: SandboxFilter, selector: map<string, string>)
    requires forall k :: k in f.labelSelector ==> k in selector && selector[k] == f.labelSelector[k]
    requires ListSandboxes(pods, None).Ok?
    ensures
      var larger := Some(f.(labelSelector := selector));
      && ListSandboxes(pods, Some(f)).Ok?
      && ListSandboxes(pods, larger) == Ok(Filter(Passing(larger), ListSandboxes(pods, Some(f)).value))
  {
    var larger := Some(f.(labelSelector := selector));
    ListingCommutesWithFilter(pods, larger);
    ListingCommutesWithFilter(pods, Some(f));
    FilterTwice(Passing(larger), Passing(Some(f)), ListSandboxes(pods, None).value);
  }
}
