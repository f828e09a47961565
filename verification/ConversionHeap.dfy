/** The conversions as rktlet performs them: on objects whose annotation maps are stripped in place. */
module ConversionHeap {
  import opened Wrappers
  import opened Annotations
  import opened Identity
  import opened Network
  import opened Cri
  import opened Conversion
  import Rkt

  /** A Go map: aliases see each other's deletions. */
  class StringMap {
    var entries: map<string, string>

    constructor (m: map<string, string>)
      ensures entries == m
    {
      entries := m;
    }

    method Delete(key: string)
      modifies this
      ensures entries == old(entries) - {key}
    {
      entries := entries - {key};
    }
  }

  class PodObject {
    const pod: Rkt.Pod
    const annotations: StringMap

    /** A freshly unmarshalled pod with a map of its own. */
    constructor (p: Rkt.Pod)
      ensures pod == p && fresh(annotations) && annotations.entries == p.annotations
    {
      pod := p;
      annotations := new StringMap(p.annotations);
    }

    /** The pod as it is now. */
    function Value(): Rkt.Pod
      reads annotations
    {
      pod.(annotations := annotations.entries)
    }
  }

  class AppObject {
    const app: Rkt.App
    const annotations: StringMap

    constructor (a: Rkt.App)
      ensures app == a && fresh(annotations) && annotations.entries == a.annotations
    {
      app := a;
      annotations := new StringMap(a.annotations);
    }

    function Value(): Rkt.App
      reads annotations
    {
      app.(annotations := annotations.entries)
    }
  }

  /** Deletes the reserved keys from the caller's own map and returns that very map, or nil for an empty
      one. */
  method GetKubernetesAnnotations(annotations: StringMap) returns (ret: StringMap?)
    modifies annotations
    ensures annotations.entries == Strip(old(annotations.entries))
    ensures ret == if old(annotations.entries) == map[] then null else annotations
  {
    if |annotations.entries| == 0 {
      return null;
    }
    ret := annotations;
    for i := 0 to |RESERVED_KEYS|
      invariant ret.entries ==
        map k | k in old(annotations.entries) && k !in RESERVED_KEYS[..i] :: old(annotations.entries)[k]
    {
      ret.Delete(RESERVED_KEYS[i]);
      assert RESERVED_KEYS[..i + 1] == RESERVED_KEYS[..i] + [RESERVED_KEYS[i]];
    }
    assert RESERVED_KEYS[..|RESERVED_KEYS|] == RESERVED_KEYS;
  }

  function Entries(m: StringMap?): map<string, string>
    reads m
  {
    if m == null then map[] else m.entries
  }

  /** Metadata is read before the map is stripped; a failed conversion leaves the map alone. */
  method ToPodSandboxStatus(p: PodObject) returns (r: Result<SandboxStatus>)
    modifies p.annotations
    ensures r == ToSandboxStatus(old(p.Value()))
    ensures p.annotations.entries == if r.Ok? then Strip(old(p.annotations.entries)) else old(p.annotations.entries)
  {
    var metadata := GetMetadata(p.annotations.entries);
    if metadata.Err? {
      return Err(metadata.error);
    }
    var ip := GetIP(p.pod.networks);
    var stripped := GetKubernetesAnnotations(p.annotations);
    return Ok(SandboxStatus(p.pod.uuid, metadata.value, p.pod.state == "running", OrZero(p.pod.createdAt), ip,
                            p.pod.labels, Entries(stripped)));
  }

  /** A converted pod object is used up: converting it deleted its reserved annotations, so it no longer
      counts as a Kubernetes pod and the next conversion fails, while every other annotation is as before. */
  method ConvertTwice(p: PodObject) returns (first: Result<SandboxStatus>, second: Result<SandboxStatus>)
    modifies p.annotations
    ensures first == ToSandboxStatus(old(p.Value()))
    ensures first.Ok? ==> second.Err? && !IsKubernetesPod(p.Value())
    ensures first.Err? ==> second == first && p.Value() == old(p.Value())
    ensures forall k :: k in old(p.annotations.entries) && !Reserved(k) ==>
      k in p.annotations.entries && p.annotations.entries[k] == old(p.annotations.entries[k])
  {
    if ToSandboxStatus(p.Value()).Ok? {
      ConversionIsSingleUse(p.Value());
    }
    first := ToPodSandboxStatus(p);
    second := ToPodSandboxStatus(p);
  }

  /** The image name of a container is likewise read before its map is stripped, unless its name does not parse. */
  method ToContainerStatusObject(uuid: string, a: AppObject) returns (r: Result<ContainerStatus>)
    modifies a.annotations
    ensures r == ToContainerStatus(uuid, old(a.Value()))
    ensures a.annotations.entries == if r.Ok? then Strip(old(a.annotations.entries)) else old(a.annotations.entries)
  {
    var id := BuildContainerID(uuid, a.app.name);
    var parsed := ParseAppName(a.app.name);
    if parsed.Err? {
      return Err(parsed.error);
    }
    var (attempt, containerName) := parsed.value;
    var image := GetImageName(a.annotations.entries);
    var stripped := GetKubernetesAnnotations(a.annotations);
    return Ok(StatusFrom(id, containerName, attempt, a.app.report, image, a.app.labels, Entries(stripped)));
  }

  function Values(pods: seq<PodObject>): (values: seq<Rkt.Pod>)
    reads set i | 0 <= i < |pods| :: pods[i].annotations
    ensures |values| == |pods| && forall i :: 0 <= i < |pods| ==> values[i] == pods[i].Value()
  {
    seq(|pods|, i requires 0 <= i < |pods| reads set i | 0 <= i < |pods| :: pods[i].annotations => pods[i].Value())
  }

  ghost predicate SeparateMaps(pods: seq<PodObject>)
  {
    forall i, j :: 0 <= i < j < |pods| ==> pods[i].annotations != pods[j].annotations
  }

  lemma {:induction false} ListingErrorPersists(pods: seq<Rkt.Pod>, n: nat, filter: Option<SandboxFilter>)
    requires n <= |pods| && ListSandboxes(pods[..n], filter).Err?
    ensures ListSandboxes(pods, filter) == ListSandboxes(pods[..n], filter)
    decreases |pods|
  {
    if n == |pods| {
      assert pods[..n] == pods;
    } else {
      assert pods[..|pods| - 1][..n] == pods[..n];
      ListingErrorPersists(pods[..|pods| - 1], n, filter);
    }
  }

  function Appended(items: seq<PodSandbox>, s: SandboxStatus, filter: Option<SandboxFilter>): seq<PodSandbox>
  {
    if SandboxPasses(s.id, s.ready, s.labels, filter) then items + [Item(s)] else items
  }

  /** What the specified listing makes of one more pod. */
  lemma NextListed(pods: seq<Rkt.Pod>, i: nat, filter: Option<SandboxFilter>, items: seq<PodSandbox>)
    requires i < |pods| && ListSandboxes(pods[..i], filter) == Ok(items)
    ensures !IsKubernetesPod(pods[i]) ==> ListSandboxes(pods[..i + 1], filter) == Ok(items)
    ensures IsKubernetesPod(pods[i]) && ToSandboxStatus(pods[i]).Err? ==>
      ListSandboxes(pods, filter) == Err(ToSandboxStatus(pods[i]).error)
    ensures IsKubernetesPod(pods[i]) && ToSandboxStatus(pods[i]).Ok? ==>
      ListSandboxes(pods[..i + 1], filter) == Ok(Appended(items, ToSandboxStatus(pods[i]).value, filter))
  {
    assert pods[..i + 1][..i] == pods[..i];
    if ListSandboxes(pods[..i + 1], filter).Err? {
      ListingErrorPersists(pods, i + 1, filter);
    }
  }

  /** The listing loop. Although every conversion deletes from a map, for pods with maps of their own the
      result is the specified listing of the pods as they were before. */
  method ListPodObjects(pods: seq<PodObject>, filter: Option<SandboxFilter>) returns (r: Result<seq<PodSandbox>>)
    requires SeparateMaps(pods)
    modifies set i | 0 <= i < |pods| :: pods[i].annotations
    ensures r == ListSandboxes(old(Values(pods)), filter)
  {
    ghost var before := Values(pods);
    var sandboxes: seq<PodSandbox> := [];
    for i := 0 to |pods|
      invariant ListSandboxes(before[..i], filter) == Ok(sandboxes)
      invariant forall j :: i <= j < |pods| ==> pods[j].Value() == before[j]
    {
      var p := pods[i];
      NextListed(before, i, filter, sandboxes);
      assert p.Value() == before[i];
      if POD_UID_KEY !in p.annotations.entries {
        continue;
      }
      var status := ToPodSandboxStatus(p);
      if status.Err? {
        return Err(status.error);
      }
      var s := status.value;
      if !SandboxPasses(s.id, s.ready, s.labels, filter) {
        continue;
      }
      sandboxes := sandboxes + [PodSandbox(s.id, s.metadata, s.ready, s.createdAt, s.labels)];
    }
    assert before[..|pods|] == before;
    return Ok(sandboxes);
  }

  /** Unmarshalling gives every pod a fresh map of its own. */
  method Unmarshal(pods: seq<Rkt.Pod>) returns (objects: seq<PodObject>)
    ensures SeparateMaps(objects)
    ensures forall i :: 0 <= i < |objects| ==> fresh(objects[i].annotations)
    ensures Values(objects) == pods
  {
    objects := [];
    for i := 0 to |pods|
      invariant |objects| == i
      invariant SeparateMaps(objects)
      invariant forall j :: 0 <= j < i ==> fresh(objects[j].annotations) && objects[j].Value() == pods[j]
    {
      var o := new PodObject(pods[i]);
      objects := objects + [o];
    }
  }
}
