/** The address of a pod, chosen among its networks. */
module Network {
  import opened Wrappers
  import opened Text

  datatype Ipv4 = Ipv4(a: nat, b: nat, c: nat, d: nat)

  /** A network of a pod; its address may be missing or not be an IPv4 address. */
  datatype NetInfo = NetInfo(name: string, ip: Option<Ipv4>)

  /** `IP.To4().String()`, which is `<nil>` when there is no IPv4 address. */
  function Render(ip: Option<Ipv4>): (s: string)
    ensures s != ""
  {
    match ip
    case None => "<nil>"
    case Some(i) => Decimal(i.a) + "." + Decimal(i.b) + "." + Decimal(i.c) + "." + Decimal(i.d)
  }

  /** An address is written as its four numbers, separated by dots; without one there is a fixed text. */
  lemma AddressInFull(i: Ipv4)
    ensures Split(Render(Some(i)), '.') == [Decimal(i.a), Decimal(i.b), Decimal(i.c), Decimal(i.d)]
    ensures Render(None) == "<nil>"
  {
    var parts := [Decimal(i.a), Decimal(i.b), Decimal(i.c), Decimal(i.d)];
    assert parts[1..] == [parts[1], parts[2], parts[3]] && parts[1..][1..] == [parts[2], parts[3]];
    assert parts[1..][1..][1..] == [parts[3]];
    assert Join(parts[1..][1..], '.') == parts[2] + ['.'] + parts[3];
    assert Join(parts[1..], '.') == parts[1] + ['.'] + Join(parts[1..][1..], '.');
    assert Join(parts, '.') == Render(Some(i));
    SplitOfJoin(parts, '.');
  }

  const PREFERRED: string := "rkt.kubernetes.io"
  const FALLBACK: string := "default"

  predicate Names(networks: seq<NetInfo>, name: string) { exists i :: 0 <= i < |networks| && networks[i].name == name }

  function FirstNamed(networks: seq<NetInfo>, name: string): (n: NetInfo)
    requires Names(networks, name)
    ensures n.name == name
  {
    if networks[0].name == name then networks[0] else FirstNamed(networks[1..], name)
  }

  function LastNamed(networks: seq<NetInfo>, name: string): (n: NetInfo)
    requires Names(networks, name)
    ensures n.name == name
  {
    if networks[|networks| - 1].name == name then networks[|networks| - 1]
    else LastNamed(networks[..|networks| - 1], name)
  }

  /** The documented preference: the first `rkt.kubernetes.io`, else the last `default`, else the first. */
  function PreferredIp(networks: seq<NetInfo>): string
  {
    if Names(networks, PREFERRED) then Render(FirstNamed(networks, PREFERRED).ip)
    else if Names(networks, FALLBACK) then Render(LastNamed(networks, FALLBACK).ip)
    else if networks != [] then Render(networks[0].ip)
    else ""
  }

  lemma {:induction false} FirstNamedAt(networks: seq<NetInfo>, i: nat, name: string)
    requires i < |networks| && networks[i].name == name
    requires forall j :: 0 <= j < i ==> networks[j].name != name
    ensures FirstNamed(networks, name) == networks[i]
  {
    if i > 0 {
      assert networks[1..][i - 1] == networks[i];
      FirstNamedAt(networks[1..], i - 1, name);
    }
  }

  /** Extending a list without preferred network by one more that is not preferred either. */
  lemma PreferenceStep(networks: seq<NetInfo>, i: nat)
    requires i < |networks| && !Names(networks[..i + 1], PREFERRED)
    ensures !Names(networks[..i], PREFERRED)
    ensures PreferredIp(networks[..i + 1]) ==
            if networks[i].name == FALLBACK || i == 0 then Render(networks[i].ip) else PreferredIp(networks[..i])
  {
    var before, after := networks[..i], networks[..i + 1];
    assert after[..i] == before;
    assert forall j :: 0 <= j < i ==> before[j] == after[j];
    assert after[i] == networks[i];
    if networks[i].name != FALLBACK {
      assert Names(after, FALLBACK) ==> Names(before, FALLBACK);
    }
  }

  /** Nothing before the first preferred network changes the choice. */
  lemma PreferredAt(networks: seq<NetInfo>, i: nat)
    requires i < |networks| && networks[i].name == PREFERRED && !Names(networks[..i], PREFERRED)
    ensures PreferredIp(networks) == Render(networks[i].ip)
  {
    assert forall j :: 0 <= j < i ==> networks[..i][j] == networks[j];
    FirstNamedAt(networks, i, PREFERRED);
  }

  lemma StillNotPreferred(networks: seq<NetInfo>, i: nat)
    requires i < |networks| && networks[i].name != PREFERRED && !Names(networks[..i], PREFERRED)
    ensures !Names(networks[..i + 1], PREFERRED)
  {
    assert forall j :: 0 <= j < i ==> networks[..i][j] == networks[..i + 1][j];
  }

  /** The loop implements the preference; only a pod without networks has no address. */
  method GetIP(networks: seq<NetInfo>) returns (foundIP: string)
    ensures foundIP == PreferredIp(networks)
    ensures foundIP == "" <==> networks == []
  {
    foundIP := "";
    for i := 0 to |networks|
      invariant !Names(networks[..i], PREFERRED)
      invariant foundIP == PreferredIp(networks[..i])
      invariant foundIP == "" <==> i == 0
    {
      var network := networks[i];
      if network.name == PREFERRED {
        PreferredAt(networks, i);
        return Render(network.ip);
      }
      StillNotPreferred(networks, i);
      PreferenceStep(networks, i);
      if network.name == FALLBACK {
        foundIP := Render(network.ip);
      }
      if foundIP == "" {
        foundIP := Render(network.ip);
      }
    }
    assert networks[..|networks|] == networks;
  }
}
