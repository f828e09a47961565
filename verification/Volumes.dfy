/** Mounts as `--mnt-volume` values, environment variables as `--environment` values, and their readers. */
module Volumes {
  import opened Wrappers
  import opened Text
  import opened Annotations
  import opened Cri

  // ----- environment -----

  function EnvValues(envs: seq<KeyValue>): (values: seq<string>)
    ensures |values| == |envs| && forall i :: 0 <= i < |envs| ==> values[i] == Pair(envs[i].key, envs[i].value)
  {
    seq(|envs|, i requires 0 <= i < |envs| => Pair(envs[i].key, envs[i].value))
  }

  /** A variable is set by the text behind the first `=`. */
  function ReadEnv(value: string): Option<KeyValue>
  {
    match SplitFirst(value, '=') case None => None case Some((k, v)) => Some(KeyValue(k, v))
  }

  /** A variable arrives as it was sent if and only if its name has no `=`. */
  lemma EnvRoundTripIff(env: KeyValue)
    ensures ReadEnv(Pair(env.key, env.value)) == Some(env) <==> '=' !in env.key
  {
    if '=' !in env.key {
      SplitFirstOfJoin(env.key, '=', env.value);
    }
  }

  // ----- volumes -----

  function BoolText(b: bool): string { if b then "true" else "false" }

  function MountFields(volume: string, m: Mount): seq<string>
  {
    [Pair("name", volume), Pair("kind", "host"), Pair("source", m.hostPath), Pair("target", m.containerPath),
     Pair("readOnly", BoolText(m.readonly))]
  }

  function MountValue(volume: string, m: Mount): string { Join(MountFields(volume, m), ',') }

  /** The value of a `key=value` field. */
  function ReadField(key: string, field: string): Option<string>
  {
    match SplitFirst(field, '=') case None => None case Some((k, v)) => if k == key then Some(v) else None
  }

  function ReadMount(source: Option<string>, target: Option<string>, readOnly: Option<string>): Option<Mount>
  {
    match (source, target, readOnly)
    case (Some(s), Some(t), Some(r)) =>
      if r == "true" then Some(Mount(s, t, true)) else if r == "false" then Some(Mount(s, t, false)) else None
    case _ => None
  }

  /** A host volume with its name: fields are separated by commas, keys end at the first `=`. */
  function ReadVolume(value: string): Option<(string, Mount)>
  {
    var f := Split(value, ',');
    if |f| != 5 || ReadField("kind", f[1]) != Some("host") then None
    else
      var mount := ReadMount(ReadField("source", f[2]), ReadField("target", f[3]), ReadField("readOnly", f[4]));
      match (ReadField("name", f[0]), mount)
      case (Some(name), Some(m)) => Some((name, m))
      case _ => None
  }

  lemma ReadOwnField(key: string, value: string)
    requires '=' !in key
    ensures ReadField(key, Pair(key, value)) == Some(value)
  {
    SplitFirstOfJoin(key, '=', value);
  }

  lemma KeysHaveNoEquals()
    ensures '=' !in "name" && '=' !in "kind" && '=' !in "source" && '=' !in "target" && '=' !in "readOnly"
    ensures ',' !in "name" && ',' !in "kind" && ',' !in "source" && ',' !in "target" && ',' !in "readOnly"
  {
  }

  lemma PairWithoutComma(key: string, value: string)
    requires ',' !in key
    ensures ',' !in Pair(key, value) <==> ',' !in value
  {
    if ',' in value {
      var i :| 0 <= i < |value| && value[i] == ',';
      assert Pair(key, value)[|key| + 1 + i] == ',';
    }
  }

  lemma FieldsWithoutComma(volume: string, m: Mount)
    ensures (forall f :: f in MountFields(volume, m) ==> ',' !in f)
       <==> ',' !in volume && ',' !in m.hostPath && ',' !in m.containerPath
  {
    KeysHaveNoEquals();
    PairWithoutComma("name", volume);
    PairWithoutComma("kind", "host");
    PairWithoutComma("source", m.hostPath);
    PairWithoutComma("target", m.containerPath);
    PairWithoutComma("readOnly", BoolText(m.readonly));
    var fields := MountFields(volume, m);
    assert fields[0] in fields && fields[2] in fields && fields[3] in fields;
  }

  /** A volume argument reads back to its name and mount if and only if none of the texts in it contains
      a comma; rktlet names volumes by UUIDs, so this depends on the two paths. */
  lemma VolumeRoundTripIff(volume: string, m: Mount)
    ensures ReadVolume(MountValue(volume, m)) == Some((volume, m))
       <==> ',' !in volume && ',' !in m.hostPath && ',' !in m.containerPath
  {
    var fields := MountFields(volume, m);
    FieldsWithoutComma(volume, m);
    if |Split(MountValue(volume, m), ',')| == 5 {
      FieldCount(fields, ',');
      SplitOfJoin(fields, ',');
      ReadFields(volume, m);
    }
    if forall f :: f in fields ==> ',' !in f {
      SplitOfJoin(fields, ',');
    }
  }

  lemma ReadFields(volume: string, m: Mount)
    ensures
      var f := MountFields(volume, m);
      && ReadField("name", f[0]) == Some(volume) && ReadField("kind", f[1]) == Some("host")
      && ReadField("source", f[2]) == Some(m.hostPath) && ReadField("target", f[3]) == Some(m.containerPath)
      && ReadField("readOnly", f[4]) == Some(BoolText(m.readonly))
  {
    KeysHaveNoEquals();
    ReadOwnField("name", volume);
    ReadOwnField("kind", "host");
    ReadOwnField("source", m.hostPath);
    ReadOwnField("target", m.containerPath);
    ReadOwnField("readOnly", BoolText(m.readonly));
  }

  // ----- the mounts that are not nil -----

  /** Their positions, in order. */
  function PresentAt(mounts: seq<Option<Mount>>): (at: seq<nat>)
    ensures forall j :: 0 <= j < |at| ==> at[j] < |mounts| && mounts[at[j]].Some?
    ensures forall i, j :: 0 <= i < j < |at| ==> at[i] < at[j]
    ensures forall i :: 0 <= i < |mounts| && mounts[i].Some? ==> i in at
    decreases |mounts|
  {
    if mounts == [] then []
    else
      var n := |mounts| - 1;
      var before := PresentAt(mounts[..n]);
      assert forall j :: 0 <= j < |before| ==> mounts[before[j]] == mounts[..n][before[j]];
      if mounts[n].Some? then before + [n] else before
  }

  lemma PresentStep(mounts: seq<Option<Mount>>)
    requires mounts != []
    ensures
      var n := |mounts| - 1;
      PresentAt(mounts) == PresentAt(mounts[..n]) + if mounts[n].Some? then [n] else []
  {
  }
}
