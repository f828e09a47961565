/** Listing containers on any state of rkt, including pods of other users of rkt, rktlet's internal apps
    and apps whose names are not understood. */
module Listing {
  import opened Wrappers
  import opened Text
  import opened Lists
  import opened Flags
  import opened Annotations
  import opened AcName
  import opened Identity
  import opened Cri
  import opened Conversion
  import opened Rkt

  function App(pods: seq<Pod>, uuid: string, appName: string): Option<Rkt.App>
  {
    match IndexOf(Uuids(pods), uuid)
    case None => None
    case Some(i) =>
      match IndexOf(AppNames(pods[i].apps), appName) case None => None case Some(j) => Some(pods[i].apps[j])
  }

  /** What asking for the status of a container yields. */
  function StatusIn(pods: seq<Pod>, containerID: string): Option<ContainerStatus>
  {
    match ParseContainerID(containerID)
    case Err(_) => None
    case Ok((uuid, appName)) =>
      if !IsWord(uuid) || App(pods, uuid, appName).None? then None
      else
        match ToContainerStatus(uuid, App(pods, uuid, appName).value) case Err(_) => None case Ok(s) => Some(s)
  }

  function Listed(s: ContainerStatus, uuid: string): Container
  {
    Container(s.id, uuid, s.name, s.attempt, s.image, s.imageRef, s.state, s.createdAt, s.labels, s.annotations)
  }

  /** What the listing makes of one app of a Kubernetes pod. */
  function Shown(pods: seq<Pod>, uuid: string, appName: string): Option<Container>
  {
    if INTERNAL_APP_PREFIX <= appName then None
    else
      match StatusIn(pods, BuildContainerID(uuid, appName)) case None => None case Some(s) => Some(Listed(s, uuid))
  }

  function ShownApps(pods: seq<Pod>, uuid: string, appNames: seq<string>,
                     filter: Option<ContainerFilter>): seq<Container>
    decreases |appNames|
  {
    if appNames == [] then []
    else
      ShownApps(pods, uuid, appNames[..|appNames| - 1], filter)
      + match Shown(pods, uuid, appNames[|appNames| - 1])
        case None => []
        case Some(c) => if PassFilter(c, filter) then [c] else []
  }

  lemma NextShown(pods: seq<Pod>, uuid: string, appNames: seq<string>, j: nat, filter: Option<ContainerFilter>)
    requires j < |appNames|
    ensures ShownApps(pods, uuid, appNames[..j + 1], filter)
         == ShownApps(pods, uuid, appNames[..j], filter)
            + match Shown(pods, uuid, appNames[j])
              case None => []
              case Some(c) => if PassFilter(c, filter) then [c] else []
  {
    assert appNames[..j + 1][..j] == appNames[..j];
  }

  function ShownInPod(pods: seq<Pod>, p: Pod, filter: Option<ContainerFilter>): seq<Container>
  {
    if IsKubernetesPod(p) then ShownApps(pods, p.uuid, AppNames(p.apps), filter) else []
  }

  /** The containers of the listed pods. */
  function Containers(pods: seq<Pod>, listed: seq<Pod>, filter: Option<ContainerFilter>): seq<Container>
    decreases |listed|
  {
    if listed == [] then []
    else
      Containers(pods, listed[..|listed| - 1], filter) + ShownInPod(pods, listed[|listed| - 1], filter)
  }

  // ----- filters -----

  function Passing(filter: Option<ContainerFilter>): Container -> bool { c => PassFilter(c, filter) }

  lemma {:induction false} AppsCommuteWithFilter(pods: seq<Pod>, uuid: string, appNames: seq<string>,
                                                 filter: Option<ContainerFilter>)
    ensures ShownApps(pods, uuid, appNames, filter) == Filter(Passing(filter), ShownApps(pods, uuid, appNames, None))
    decreases |appNames|
  {
    if appNames != [] {
      var init, last := appNames[..|appNames| - 1], Shown(pods, uuid, appNames[|appNames| - 1]);
      AppsCommuteWithFilter(pods, uuid, init, filter);
      var shown := ShownApps(pods, uuid, init, None);
      match last
      case None =>
        assert shown + [] == shown;
      case Some(c) =>
        FilterNext(Passing(filter), shown, c);
    }
  }

  /** On every state of rkt, listing with a filter is filtering the unfiltered listing, in the same
      order. */
  lemma {:induction false} ListingCommutesWithFilter(pods: seq<Pod>, listed: seq<Pod>, filter: Option<ContainerFilter>)
    ensures Containers(pods, listed, filter) == Filter(Passing(filter), Containers(pods, listed, None))
    decreases |listed|
  {
    if listed != [] {
      var init, p := listed[..|listed| - 1], listed[|listed| - 1];
      ListingCommutesWithFilter(pods, init, filter);
      AppsCommuteWithFilter(pods, p.uuid, AppNames(p.apps), filter);
      FilterAppend(Passing(filter), Containers(pods, init, None), ShownInPod(pods, p, None));
    }
  }

  /** Enlarging the label selector only drops containers: the new listing is the old one filtered, so it
      is a subsequence of it. */
  lemma {:induction false} LargerSelectorShrinks(pods: seq<Pod>, f: ContainerFilter, selector: map<string, string>)
    requires forall k :: k in f.labelSelector ==> k in selector && selector[k] == f.labelSelector[k]
    ensures
      var larger := Some(f.(labelSelector := selector));
      Containers(pods, pods, larger) == Filter(Passing(larger), Containers(pods, pods, Some(f)))
  {
    var larger := Some(f.(labelSelector := selector));
    ListingCommutesWithFilter(pods, pods, larger);
    ListingCommutesWithFilter(pods, pods, Some(f));
    FilterTwice(Passing(larger), Passing(Some(f)), Containers(pods, pods, None));
  }

  /** Listing with a filter shows exactly the containers of the unfiltered listing that agree with every restriction of
      the filter: its id, state and sandbox where they are given, and each label it selects by. */
  lemma FilteredIff(pods: seq<Pod>, f: ContainerFilter, c: Container)
    ensures c in Containers(pods, pods, Some(f)) <==>
      && c in Containers(pods, pods, None)
      && (f.id != "" ==> c.id == f.id)
      && (f.state.Some? ==> c.state == f.state.value)
      && (f.podSandboxId != "" ==> c.podSandboxId == f.podSandboxId)
      && forall k :: k in f.labelSelector ==> k in c.labels && c.labels[k] == f.labelSelector[k]
  {
    ListingCommutesWithFilter(pods, pods, Some(f));
    FilterIsPart(Passing(Some(f)), Containers(pods, pods, None), c);
  }

  // ----- statuses in full -----

  function NumberOr0(i: Option<int>): int { match i case Some(n) => n case None => 0 }

  /** A shown status in terms of the app that rkt reports: its identity from the app's name, its state word by word, its
      times and exit code, which are zero when rkt gives none, its image, and the user's labels and annotations. */
  lemma StatusInFull(pods: seq<Pod>, containerID: string)
    requires StatusIn(pods, containerID).Some? && ParseContainerID(containerID).Ok?
    ensures
      var s, (uuid, appName) := StatusIn(pods, containerID).value, ParseContainerID(containerID).value;
      && App(pods, uuid, appName).Some?
      && var a := App(pods, uuid, appName).value;
         && s.id == uuid + ":" + appName && ParseAppName(appName) == Ok((s.attempt, s.name))
         && (s.state.ContainerCreated? <==> a.report.state == "created")
         && (s.state.ContainerRunning? <==> a.report.state == "running")
         && (s.state.ContainerExited? <==> a.report.state == "exited")
         && s.createdAt == NumberOr0(a.report.createdAt) && s.startedAt == NumberOr0(a.report.startedAt)
         && s.finishedAt == NumberOr0(a.report.finishedAt) && s.exitCode == NumberOr0(a.report.exitCode)
         && s.imageRef == a.report.imageID && s.mounts == a.report.mounts && s.labels == a.labels
         && ImageAndRest(a.annotations, s.image, s.annotations)
  {
    var (uuid, appName) := ParseContainerID(containerID).value;
    StripLeavesUnreserved(App(pods, uuid, appName).value.annotations);
  }

  /** One annotation is the image name; the reserved ones are kept from the user. */
  ghost predicate ImageAndRest(annotations: map<string, string>, image: string, shown: map<string, string>)
  {
    && image == (if "k8s.io/reserved/image-name" in annotations then annotations["k8s.io/reserved/image-name"] else "")
    && Unreserved(annotations, shown)
  }

  // ----- which apps are shown -----

  /** What rkt guarantees of its state: unique UUIDs, and app names that are unique in their pod and legal
      AC Names. */
  ghost predicate Sound(pods: seq<Pod>)
  {
    && Distinct(Uuids(pods))
    && forall i :: 0 <= i < |pods| ==>
         && IsUuid(pods[i].uuid)
         && Distinct(AppNames(pods[i].apps))
         && forall j :: 0 <= j < |pods[i].apps| ==> Canonical(pods[i].apps[j].name)
  }

  predicate Visible(p: Pod, a: Rkt.App)
  {
    IsKubernetesPod(p) && !(INTERNAL_APP_PREFIX <= a.name) && ParseAppName(a.name).Ok?
  }

  lemma AppIsFound(pods: seq<Pod>, i: nat, j: nat)
    requires Sound(pods) && i < |pods| && j < |pods[i].apps|
    ensures
      var p, a := pods[i], pods[i].apps[j];
      && IsWord(p.uuid) && ':' !in p.uuid
      && ParseContainerID(BuildContainerID(p.uuid, a.name)) == Ok((p.uuid, a.name))
      && App(pods, p.uuid, a.name) == Some(a)
  {
    var p, a := pods[i], pods[i].apps[j];
    assert ':' !in p.uuid && p.uuid[0] != '-';
    FixedPointIffCanonical(a.name);
    SplitFirstOfJoin(p.uuid, ':', a.name);
    IndexOfDistinct(Uuids(pods), i);
    IndexOfDistinct(AppNames(p.apps), j);
  }

  /** Each app of a Kubernetes pod is shown under its own ID unless it is internal or its name does not
      parse. */
  lemma ShownIffVisible(pods: seq<Pod>, i: nat, j: nat)
    requires Sound(pods) && i < |pods| && j < |pods[i].apps| && IsKubernetesPod(pods[i])
    ensures
      var p, a := pods[i], pods[i].apps[j];
      && (Shown(pods, p.uuid, a.name).Some? <==> Visible(p, a))
      && (Visible(p, a) ==> Shown(pods, p.uuid, a.name).value.id == BuildContainerID(p.uuid, a.name))
  {
    AppIsFound(pods, i, j);
  }

  /** A container in the listing of the first `n` apps of a pod is one of those apps. */
  ghost predicate InApps(p: Pod, n: nat, id: string)
    requires n <= |p.apps|
  {
    exists j :: 0 <= j < n && Visible(p, p.apps[j]) && id == BuildContainerID(p.uuid, p.apps[j].name)
  }

  predicate HasId(cs: seq<Container>, id: string)
  {
    exists k :: 0 <= k < |cs| && cs[k].id == id
  }

  lemma HasIdAppend(a: seq<Container>, b: seq<Container>, id: string)
    ensures HasId(a + b, id) <==> HasId(a, id) || HasId(b, id)
  {
    if HasId(a, id) {
      var k :| 0 <= k < |a| && a[k].id == id;
      assert (a + b)[k].id == id;
    }
    if HasId(b, id) {
      var k :| 0 <= k < |b| && b[k].id == id;
      assert (a + b)[|a| + k].id == id;
    }
  }

  lemma InAppsStep(p: Pod, n: nat, id: string)
    requires 0 < n <= |p.apps|
    ensures InApps(p, n, id) <==>
      (InApps(p, n - 1, id) || (Visible(p, p.apps[n - 1]) && id == BuildContainerID(p.uuid, p.apps[n - 1].name)))
  {
  }

  function Contribution(pods: seq<Pod>, uuid: string, appName: string): seq<Container>
  {
    match Shown(pods, uuid, appName) case None => [] case Some(c) => [c]
  }

  lemma ContributionIff(pods: seq<Pod>, i: nat, j: nat, id: string)
    requires Sound(pods) && i < |pods| && j < |pods[i].apps| && IsKubernetesPod(pods[i])
    ensures
      var p, a := pods[i], pods[i].apps[j];
      HasId(Contribution(pods, p.uuid, a.name), id) <==> Visible(p, a) && id == BuildContainerID(p.uuid, a.name)
  {
    ShownIffVisible(pods, i, j);
    var p, a := pods[i], pods[i].apps[j];
    match Shown(pods, p.uuid, a.name)
    case None =>
    case Some(c) => assert [c][0].id == c.id;
  }

  lemma {:induction false} AppsShownIff(pods: seq<Pod>, i: nat, n: nat, id: string)
    requires Sound(pods) && i < |pods| && n <= |pods[i].apps| && IsKubernetesPod(pods[i])
    ensures HasId(ShownApps(pods, pods[i].uuid, AppNames(pods[i].apps)[..n], None), id) <==> InApps(pods[i], n, id)
    decreases n
  {
    if n > 0 {
      var p, names := pods[i], AppNames(pods[i].apps);
      assert names[..n][..n - 1] == names[..n - 1];
      AppsShownIff(pods, i, n - 1, id);
      ContributionIff(pods, i, n - 1, id);
      HasIdAppend(ShownApps(pods, p.uuid, names[..n - 1], None), Contribution(pods, p.uuid, names[n - 1]), id);
      InAppsStep(p, n, id);
    }
  }

  ghost predicate InPods(pods: seq<Pod>, n: nat, id: string)
    requires n <= |pods|
  {
    exists i :: 0 <= i < n && InApps(pods[i], |pods[i].apps|, id)
  }

  lemma InPodsStep(pods: seq<Pod>, n: nat, id: string)
    requires 0 < n <= |pods|
    ensures InPods(pods, n, id) <==> InPods(pods, n - 1, id) || InApps(pods[n - 1], |pods[n - 1].apps|, id)
  {
  }

  lemma PodShownIff(pods: seq<Pod>, i: nat, id: string)
    requires Sound(pods) && i < |pods|
    ensures HasId(ShownInPod(pods, pods[i], None), id) <==> InApps(pods[i], |pods[i].apps|, id)
  {
    var p := pods[i];
    if IsKubernetesPod(p) {
      AppsShownIff(pods, i, |p.apps|, id);
      assert AppNames(p.apps)[..|p.apps|] == AppNames(p.apps);
    }
  }

  /** The unfiltered listing shows exactly the visible apps of the Kubernetes pods. */
  lemma {:induction false} ListedIffVisible(pods: seq<Pod>, n: nat, id: string)
    requires Sound(pods) && n <= |pods|
    ensures HasId(Containers(pods, pods[..n], None), id) <==> InPods(pods, n, id)
    decreases n
  {
    if n > 0 {
      var p := pods[n - 1];
      assert pods[..n][..n - 1] == pods[..n - 1];
      ListedIffVisible(pods, n - 1, id);
      HasIdAppend(Containers(pods, pods[..n - 1], None), ShownInPod(pods, p, None), id);
      PodShownIff(pods, n - 1, id);
      InPodsStep(pods, n, id);
    }
  }

  /** rktlet's internal apps never show up, whatever pod they are in. */
  lemma InternalAppsAreHidden(pods: seq<Pod>, i: nat, j: nat, filter: Option<ContainerFilter>)
    requires Sound(pods) && i < |pods| && j < |pods[i].apps| && INTERNAL_APP_PREFIX <= pods[i].apps[j].name
    ensures !HasId(Containers(pods, pods, filter), BuildContainerID(pods[i].uuid, pods[i].apps[j].name))
  {
    var uuid, name := pods[i].uuid, pods[i].apps[j].name;
    var id := BuildContainerID(uuid, name);
    assert pods[..|pods|] == pods;
    ListedIffVisible(pods, |pods|, id);
    if InPods(pods, |pods|, id) {
      var k :| 0 <= k < |pods| && InApps(pods[k], |pods[k].apps|, id);
      var l :| 0 <= l < |pods[k].apps| && Visible(pods[k], pods[k].apps[l])
               && id == BuildContainerID(pods[k].uuid, pods[k].apps[l].name);
      AppIsFound(pods, i, j);
      AppIsFound(pods, k, l);
    }
    ListingCommutesWithFilter(pods, pods, filter);
    FilteredIds(Containers(pods, pods, None), filter, id);
  }

  lemma FilteredIds(cs: seq<Container>, filter: Option<ContainerFilter>, id: string)
    ensures HasId(Filter(Passing(filter), cs), id) ==> HasId(cs, id)
  {
    var kept := Filter(Passing(filter), cs);
    if k :| 0 <= k < |kept| && kept[k].id == id {
      FilterIsPart(Passing(filter), cs, kept[k]);
    }
  }
}
