/** Annotations and labels on their way through `key=value` arguments, and the reserved annotations
    in which rktlet keeps the pod metadata and the image name. */
module Annotations {
  import opened Wrappers
  import opened Text

  const IMAGE_NAME_KEY: string := "k8s.io/reserved/image-name"
  const POD_UID_KEY: string := "k8s.io/reserved/pod-uid"
  const POD_NAME_KEY: string := "k8s.io/reserved/pod-name"
  const POD_NAMESPACE_KEY: string := "k8s.io/reserved/pod-namespace"
  const POD_ATTEMPT_KEY: string := "k8s.io/reserved/pod-attempt"

  const RESERVED_KEYS: seq<string> :=
    [IMAGE_NAME_KEY, POD_UID_KEY, POD_NAME_KEY, POD_NAMESPACE_KEY, POD_ATTEMPT_KEY]

  datatype Metadata = Metadata(uid: string, name: string, namespace: string, attempt: nat)

  // ----- printing -----

  function Pair(key: string, value: string): string { key + ['='] + value }

  /** One `key=value` text per key, in iteration order. */
  function Pairs(order: seq<string>, m: map<string, string>): (pairs: seq<string>)
    requires forall k :: k in order ==> k in m
    ensures |pairs| == |order|
    ensures forall i :: 0 <= i < |order| ==> pairs[i] == Pair(order[i], m[order[i]])
  {
    seq(|order|, i requires 0 <= i < |order| => Pair(order[i], m[order[i]]))
  }

  method FormatPairs(order: seq<string>, m: map<string, string>) returns (pairs: seq<string>)
    requires forall k :: k in order ==> k in m
    ensures pairs == Pairs(order, m)
  {
    pairs := [];
    for i := 0 to |order|
      invariant pairs == Pairs(order[..i], m)
    {
      assert order[i] in order;
      pairs := pairs + [Pair(order[i], m[order[i]])];
    }
    assert order[..|order|] == order;
  }

  /** The pairs of a map, one per key, in the order in which they were visited. */
  ghost predicate ListsPairs(values: seq<string>, order: seq<string>, m: map<string, string>)
  {
    && |values| == |order|
    && forall i :: 0 <= i < |order| ==> order[i] in m && values[i] == order[i] + "=" + m[order[i]]
  }

  /** Go visits every key of a map once, in an order of its own choosing. */
  ghost predicate Enumerates(order: seq<string>, m: map<string, string>)
  {
    && (forall k :: k in order <==> k in m)
    && (forall i, j :: 0 <= i < j < |order| ==> order[i] != order[j])
  }

  /** The reserved annotations of a sandbox, appended after the user's. */
  function MetadataPairs(meta: Metadata): seq<string>
  {
    [Pair(POD_UID_KEY, meta.uid), Pair(POD_NAME_KEY, meta.name),
     Pair(POD_NAMESPACE_KEY, meta.namespace), Pair(POD_ATTEMPT_KEY, Decimal(meta.attempt))]
  }

  // ----- reading -----

  /** rkt splits each pair at its first `=`; a later pair overrides an earlier one. */
  function ReadPair(m: map<string, string>, pair: string): map<string, string>
  {
    match SplitFirst(pair, '=')
    case None => m
    case Some((k, v)) => m[k := v]
  }

  function ReadPairs(m: map<string, string>, pairs: seq<string>): map<string, string>
    decreases |pairs|
  {
    if pairs == [] then m
    else ReadPair(ReadPairs(m, pairs[..|pairs| - 1]), pairs[|pairs| - 1])
  }

  /** What a map becomes after a trip through command-line arguments. */
  function Wire(order: seq<string>, m: map<string, string>): map<string, string>
    requires forall k :: k in order ==> k in m
  {
    ReadPairs(map[], Pairs(order, m))
  }

  /** Go's `m[k]`, which is empty for a missing key. */
  function Lookup(m: map<string, string>, k: string): string { if k in m then m[k] else "" }

  predicate Reserved(k: string) { k in RESERVED_KEYS }

  function Strip(m: map<string, string>): map<string, string>
  {
    map k | k in m && !Reserved(k) :: m[k]
  }

  /** What is left without the five reserved keys. */
  ghost predicate Unreserved(annotations: map<string, string>, shown: map<string, string>)
  {
    var reserved := {"k8s.io/reserved/image-name", "k8s.io/reserved/pod-uid", "k8s.io/reserved/pod-name",
                     "k8s.io/reserved/pod-namespace", "k8s.io/reserved/pod-attempt"};
    && (forall k :: k in shown <==> k in annotations && k !in reserved)
    && forall k :: k in shown ==> shown[k] == annotations[k]
  }

  lemma StripLeavesUnreserved(m: map<string, string>)
    ensures Unreserved(m, Strip(m))
  {
    var reserved := {"k8s.io/reserved/image-name", "k8s.io/reserved/pod-uid", "k8s.io/reserved/pod-name",
                     "k8s.io/reserved/pod-namespace", "k8s.io/reserved/pod-attempt"};
    assert RESERVED_KEYS == ["k8s.io/reserved/image-name", "k8s.io/reserved/pod-uid", "k8s.io/reserved/pod-name",
                             "k8s.io/reserved/pod-namespace", "k8s.io/reserved/pod-attempt"];
    assert forall k :: Reserved(k) <==> k in reserved;
  }

  function GetMetadata(annotations: map<string, string>): Result<Metadata>
  {
    match ParseUint32(Lookup(annotations, POD_ATTEMPT_KEY))
    case None => Err("error parsing attempt count")
    case Some(attempt) =>
      Ok(Metadata(Lookup(annotations, POD_UID_KEY), Lookup(annotations, POD_NAME_KEY),
                  Lookup(annotations, POD_NAMESPACE_KEY), attempt))
  }

  function GetImageName(annotations: map<string, string>): string { Lookup(annotations, IMAGE_NAME_KEY) }

  // ----- round trips -----

  lemma ReservedKeysDiffer()
    ensures POD_UID_KEY != POD_NAME_KEY && POD_UID_KEY != POD_NAMESPACE_KEY && POD_UID_KEY != POD_ATTEMPT_KEY
    ensures POD_NAME_KEY != POD_NAMESPACE_KEY && POD_NAME_KEY != POD_ATTEMPT_KEY
    ensures POD_NAMESPACE_KEY != POD_ATTEMPT_KEY
    ensures '=' !in IMAGE_NAME_KEY && '=' !in POD_UID_KEY && '=' !in POD_NAME_KEY
    ensures '=' !in POD_NAMESPACE_KEY && '=' !in POD_ATTEMPT_KEY
  {
  }

  lemma ReadOfPair(m: map<string, string>, k: string, v: string)
    requires '=' !in k
    ensures ReadPair(m, Pair(k, v)) == m[k := v]
  {
    SplitFirstOfJoin(k, '=', v);
  }

  lemma {:induction false} ReadPairsAppend(m: map<string, string>, a: seq<string>, b: seq<string>)
    ensures ReadPairs(m, a + b) == ReadPairs(ReadPairs(m, a), b)
    decreases |b|
  {
    if b == [] {
      assert a + b == a;
    } else {
      assert (a + b)[..|a + b| - 1] == a + b[..|b| - 1];
      ReadPairsAppend(m, a, b[..|b| - 1]);
    }
  }

  /** Keys read back never contain `=`, whatever was sent. */
  lemma {:induction false} ReadKeysAreClean(pairs: seq<string>, k: string)
    requires k in ReadPairs(map[], pairs)
    ensures '=' !in k
    decreases |pairs|
  {
    if pairs != [] && k in ReadPairs(map[], pairs[..|pairs| - 1]) {
      ReadKeysAreClean(pairs[..|pairs| - 1], k);
    }
  }

  lemma {:induction false} WireOfCleanKeys(order: seq<string>, m: map<string, string>)
    requires forall k :: k in order ==> k in m && '=' !in k
    ensures Wire(order, m) == map k | k in order :: m[k]
    decreases |order|
  {
    if order != [] {
      var init, last := order[..|order| - 1], order[|order| - 1];
      assert order == init + [last];
      assert Pairs(order, m)[..|order| - 1] == Pairs(init, m);
      WireOfCleanKeys(init, m);
      ReadOfPair(Wire(init, m), last, m[last]);
    }
  }

  /** A map survives the trip unchanged, in any iteration order and whatever its values contain,
      exactly when no key contains `=`. */
  lemma WireExactIff(order: seq<string>, m: map<string, string>)
    requires Enumerates(order, m)
    ensures Wire(order, m) == m <==> forall k :: k in m ==> '=' !in k
  {
    if forall k :: k in m ==> '=' !in k {
      WireOfCleanKeys(order, m);
    }
    if Wire(order, m) == m {
      forall k | k in m ensures '=' !in k {
        ReadKeysAreClean(Pairs(order, m), k);
      }
    }
  }

  // ----- iteration orders -----

  /** The key and value as which an entry arrives. */
  function Arrival(key: string, value: string): (string, string)
  {
    assert Pair(key, value)[|key|] == '=';
    SplitFirst(Pair(key, value), '=').value
  }

  lemma WireStep(order: seq<string>, m: map<string, string>)
    requires order != [] && forall k :: k in order ==> k in m
    ensures
      var init, last := order[..|order| - 1], order[|order| - 1];
      last in m && Wire(order, m) == Wire(init, m)[Arrival(last, m[last]).0 := Arrival(last, m[last]).1]
  {
    assert Pairs(order, m)[..|order| - 1] == Pairs(order[..|order| - 1], m);
  }

  /** Whatever arrives was sent. */
  lemma {:induction false} Sender(order: seq<string>, m: map<string, string>, x: string) returns (k: string)
    requires (forall key :: key in order ==> key in m) && x in Wire(order, m)
    ensures k in order && Arrival(k, m[k]) == (x, Wire(order, m)[x])
    decreases |order|
  {
    var init, last := order[..|order| - 1], order[|order| - 1];
    WireStep(order, m);
    if Arrival(last, m[last]).0 == x {
      k := last;
    } else {
      k := Sender(init, m, x);
    }
  }

  /** Whatever is sent arrives, if not with its own value. */
  lemma {:induction false} Arrives(order: seq<string>, m: map<string, string>, k: string)
    requires (forall key :: key in order ==> key in m) && k in order
    ensures Arrival(k, m[k]).0 in Wire(order, m)
    decreases |order|
  {
    WireStep(order, m);
    if k != order[|order| - 1] {
      Arrives(order[..|order| - 1], m, k);
    }
  }

  /** Two entries arrive under the same key with different values. */
  predicate Clash(m: map<string, string>, j: string, k: string)
    requires j in m && k in m
  {
    Arrival(j, m[j]).0 == Arrival(k, m[k]).0 && Arrival(j, m[j]).1 != Arrival(k, m[k]).1
  }

  lemma SameArrival(a: seq<string>, b: seq<string>, m: map<string, string>, x: string)
    requires Enumerates(a, m) && Enumerates(b, m) && x in Wire(a, m)
    requires forall j, k :: j in m && k in m ==> !Clash(m, j, k)
    ensures x in Wire(b, m) && Wire(b, m)[x] == Wire(a, m)[x]
  {
    var j := Sender(a, m, x);
    Arrives(b, m, j);
    var k := Sender(b, m, x);
    assert !Clash(m, j, k);
  }

  lemma WithoutClash(a: seq<string>, b: seq<string>, m: map<string, string>)
    requires Enumerates(a, m) && Enumerates(b, m)
    requires forall j, k :: j in m && k in m ==> !Clash(m, j, k)
    ensures Wire(a, m) == Wire(b, m)
  {
    forall x | x in Wire(a, m) ensures x in Wire(b, m) && Wire(b, m)[x] == Wire(a, m)[x] {
      SameArrival(a, b, m, x);
    }
    forall x | x in Wire(b, m) ensures x in Wire(a, m) {
      SameArrival(b, a, m, x);
    }
  }

  lemma {:induction false} EnumerationOf(keys: set<string>) returns (order: seq<string>)
    ensures forall k :: k in order <==> k in keys
    ensures forall i, j :: 0 <= i < j < |order| ==> order[i] != order[j]
    decreases |keys|
  {
    if keys == {} {
      order := [];
    } else {
      var k :| k in keys;
      var rest := EnumerationOf(keys - {k});
      order := rest + [k];
    }
  }

  /** Any key may come last. */
  lemma EnumerationEndingIn(m: map<string, string>, last: string) returns (order: seq<string>)
    requires last in m
    ensures Enumerates(order, m)
    ensures var (x, v) := Arrival(last, m[last]); x in Wire(order, m) && Wire(order, m)[x] == v
  {
    var rest := EnumerationOf(m.Keys - {last});
    order := rest + [last];
    WireStep(order, m);
  }

  /** What arrives is the same for all iteration orders if and only if no two entries clash. */
  lemma OrderIrrelevantIff(m: map<string, string>)
    ensures (forall a, b :: Enumerates(a, m) && Enumerates(b, m) ==> Wire(a, m) == Wire(b, m))
       <==> (forall j, k :: j in m && k in m ==> !Clash(m, j, k))
  {
    if forall j, k :: j in m && k in m ==> !Clash(m, j, k) {
      forall a, b | Enumerates(a, m) && Enumerates(b, m) ensures Wire(a, m) == Wire(b, m) {
        WithoutClash(a, b, m);
      }
    } else {
      var j, k :| j in m && k in m && Clash(m, j, k);
      var a := EnumerationEndingIn(m, j);
      var b := EnumerationEndingIn(m, k);
      assert Wire(a, m) != Wire(b, m);
    }
  }

  /** A map whose two iteration orders arrive differently. */
  lemma DirtyKeysDependOnOrder()
    ensures
      var m := map["a" := "1", "a=b" := "2"];
      && Enumerates(["a", "a=b"], m) && Enumerates(["a=b", "a"], m)
      && Wire(["a", "a=b"], m) != Wire(["a=b", "a"], m)
  {
    var m := map["a" := "1", "a=b" := "2"];
    assert "a" != "a=b";
    SplitFirstOfJoin("a", '=', "1");
    SplitFirstOfJoin("a", '=', "b=2");
    assert Pair("a=b", "2") == "a" + ['='] + "b=2";
    var p, q := Pairs(["a", "a=b"], m), Pairs(["a=b", "a"], m);
    assert p[..1][..0] == [] && q[..1][..0] == [];
    assert p[..1] == [Pair("a", "1")] && q[..1] == [Pair("a=b", "2")];
    assert ReadPairs(map[], p)["a"] == "b=2";
    assert ReadPairs(map[], q)["a"] == "1";
  }

  lemma ReadMetadataPairs(m: map<string, string>, meta: Metadata)
    ensures ReadPairs(m, MetadataPairs(meta)) ==
            m[POD_UID_KEY := meta.uid][POD_NAME_KEY := meta.name]
             [POD_NAMESPACE_KEY := meta.namespace][POD_ATTEMPT_KEY := Decimal(meta.attempt)]
  {
    ReservedKeysDiffer();
    var p := MetadataPairs(meta);
    assert p[..1][..0] == [] && p[..2][..1] == p[..1] && p[..3][..2] == p[..2];
    ReadOfPair(m, POD_UID_KEY, meta.uid);
    var m1 := m[POD_UID_KEY := meta.uid];
    assert ReadPairs(m, p[..1]) == m1;
    ReadOfPair(m1, POD_NAME_KEY, meta.name);
    var m2 := m1[POD_NAME_KEY := meta.name];
    assert ReadPairs(m, p[..2]) == m2;
    ReadOfPair(m2, POD_NAMESPACE_KEY, meta.namespace);
    var m3 := m2[POD_NAMESPACE_KEY := meta.namespace];
    assert ReadPairs(m, p[..3]) == m3;
    ReadOfPair(m3, POD_ATTEMPT_KEY, Decimal(meta.attempt));
  }

  /** The metadata of a sandbox is read back exactly, whatever annotations the user sent along. */
  lemma SandboxMetadataRoundTrip(user: seq<string>, meta: Metadata)
    requires meta.attempt < UINT32_LIMIT
    ensures
      var stored := ReadPairs(map[], user + MetadataPairs(meta));
      && POD_UID_KEY in stored
      && GetMetadata(stored) == Ok(meta)
      && Strip(stored) == Strip(ReadPairs(map[], user))
  {
    var m := ReadPairs(map[], user);
    ReadPairsAppend(map[], user, MetadataPairs(meta));
    ReadMetadataPairs(m, meta);
    ReservedKeysDiffer();
    ParseOfDecimal(meta.attempt);
  }

  /** Likewise for the image name of a container. */
  lemma ImageNameRoundTrip(user: seq<string>, image: string)
    ensures
      var stored := ReadPairs(map[], user + [Pair(IMAGE_NAME_KEY, image)]);
      && GetImageName(stored) == image
      && Strip(stored) == Strip(ReadPairs(map[], user))
  {
    var p := [Pair(IMAGE_NAME_KEY, image)];
    ReadPairsAppend(map[], user, p);
    assert p[..0] == [];
    ReservedKeysDiffer();
    ReadOfPair(ReadPairs(map[], user), IMAGE_NAME_KEY, image);
  }

  /** The user gets back exactly the annotations sent, in any iteration order, if and only if they use
      no reserved key and no key with `=` in it. */
  lemma UserAnnotationsExactIff(order: seq<string>, m: map<string, string>)
    requires Enumerates(order, m)
    ensures Strip(Wire(order, m)) == m <==> forall k :: k in m ==> '=' !in k && !Reserved(k)
  {
    WireExactIff(order, m);
    if Strip(Wire(order, m)) == m {
      forall k | k in m ensures '=' !in k && !Reserved(k) {
        ReadKeysAreClean(Pairs(order, m), k);
      }
    }
    if forall k :: k in m ==> '=' !in k && !Reserved(k) {
      assert Strip(m) == m;
    }
  }

  /** Stripping is idempotent, drops exactly the reserved keys and keeps all other entries. */
  lemma StripTwice(m: map<string, string>)
    ensures Strip(Strip(m)) == Strip(m)
    ensures POD_UID_KEY !in Strip(m)
    ensures GetMetadata(Strip(m)).Err?
  {
    assert Reserved(POD_UID_KEY) && Reserved(POD_ATTEMPT_KEY);
  }
}
