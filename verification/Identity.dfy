/** AC Names of the App Container specification, and the sanitizer rktlet applies to container names. */
module AcName {
  import opened Wrappers
  import opened Text

  predicate Alphanumeric(c: char) { 'a' <= c <= 'z' || '0' <= c <= '9' }

  /** A legal AC Name, as far as the library checks: lower-case alphanumerics and dashes, no dash at either edge, not
      empty. */
  predicate Canonical(s: string)
  {
    && s != ""
    && (forall i :: 0 <= i < |s| ==> Alphanumeric(s[i]) || s[i] == '-')
    && s[0] != '-' && s[|s| - 1] != '-'
  }

  /** Lower-casing followed by the replacement of whatever is still illegal. The Kelvin sign and the
      dotted capital I are the only characters outside ASCII whose lower case is an ASCII letter. */
  function SanitizeChar(c: char): (r: char)
    ensures Alphanumeric(r) || r == '-'
    ensures Alphanumeric(c) || c == '-' ==> r == c
  {
    if 'A' <= c <= 'Z' then (c as int + 32) as char
    else if c == '\U{212A}' then 'k'
    else if c == '\U{0130}' then 'i'
    else if Alphanumeric(c) then c
    else '-'
  }

  function SanitizeChars(s: string): (r: string)
    ensures |r| == |s|
    ensures forall i :: 0 <= i < |s| ==> r[i] == SanitizeChar(s[i])
  {
    seq(|s|, i requires 0 <= i < |s| => SanitizeChar(s[i]))
  }

  function TrimLeft(s: string): string
  {
    if s != "" && s[0] == '-' then TrimLeft(s[1..]) else s
  }

  function TrimRight(s: string): string
  {
    if s != "" && s[|s| - 1] == '-' then TrimRight(s[..|s| - 1]) else s
  }

  function Sanitize(s: string): Result<string>
  {
    var t := TrimRight(TrimLeft(SanitizeChars(s)));
    if t == "" then Err("must contain at least one valid character") else Ok(t)
  }

  /** Trimming keeps a slice that runs from the first to the last character that is not a dash. */
  lemma {:induction false} TrimLeftSlice(s: string) returns (i: nat)
    ensures i <= |s| && TrimLeft(s) == s[i..]
    ensures forall j :: 0 <= j < i ==> s[j] == '-'
    ensures i < |s| ==> s[i] != '-'
  {
    if s != "" && s[0] == '-' {
      var k := TrimLeftSlice(s[1..]);
      i := k + 1;
      assert s[1..][k..] == s[i..];
      forall j | 0 <= j < i ensures s[j] == '-' {
        if j > 0 { assert s[j] == s[1..][j - 1]; }
      }
    } else {
      i := 0;
    }
  }

  lemma {:induction false} TrimRightSlice(s: string) returns (n: nat)
    ensures n <= |s| && TrimRight(s) == s[..n]
    ensures forall j :: n <= j < |s| ==> s[j] == '-'
    ensures n > 0 ==> s[n - 1] != '-'
  {
    if s != "" && s[|s| - 1] == '-' {
      n := TrimRightSlice(s[..|s| - 1]);
      assert s[..|s| - 1][..n] == s[..n];
    } else {
      n := |s|;
    }
  }

  /** The sanitized name is the mapped text without its dash edges, and it fails exactly when the
      mapped text consists of dashes only. */
  lemma SanitizeShape(s: string) returns (i: nat, n: nat)
    ensures i <= n <= |s|
    ensures forall j :: 0 <= j < |s| && !(i <= j < n) ==> SanitizeChar(s[j]) == '-'
    ensures i < n ==> Sanitize(s) == Ok(SanitizeChars(s)[i..n])
    ensures i < n ==> SanitizeChar(s[i]) != '-' && SanitizeChar(s[n - 1]) != '-'
    ensures i == n ==> Sanitize(s).Err?
  {
    var m := SanitizeChars(s);
    i := TrimLeftSlice(m);
    var k := TrimRightSlice(m[i..]);
    n := i + k;
    assert m[i..][..k] == m[i..n];
    forall j | 0 <= j < |s| && !(i <= j < n) ensures SanitizeChar(s[j]) == '-' {
      assert m[j] == SanitizeChar(s[j]);
      if j >= n { assert m[j] == m[i..][j - i]; }
    }
    if i < n { assert m[n - 1] == m[i..][k - 1]; }
  }

  /** Sanitizing yields legal names, and fails exactly for texts without any usable character. */
  lemma SanitizeIsCanonical(s: string)
    ensures Sanitize(s).Ok? ==> Canonical(Sanitize(s).value)
    ensures Sanitize(s).Ok? <==> exists i :: 0 <= i < |s| && SanitizeChar(s[i]) != '-'
  {
    var i, n := SanitizeShape(s);
    if i < n {
      var r := SanitizeChars(s)[i..n];
      assert r[0] == SanitizeChar(s[i]) && r[|r| - 1] == SanitizeChar(s[n - 1]);
      forall j | 0 <= j < |r| ensures Alphanumeric(r[j]) || r[j] == '-' {
        assert r[j] == SanitizeChar(s[i + j]);
      }
    }
  }

  // ----- the documented pattern -----

  predicate AllAlphanumeric(s: string) { forall i :: 0 <= i < |s| ==> Alphanumeric(s[i]) }

  /** `^[a-z0-9]+([-][a-z0-9]+)*$`: groups of alphanumerics joined by single dashes. */
  predicate MatchesPattern(s: string) { forall g :: g in Split(s, '-') ==> g != "" && AllAlphanumeric(g) }

  predicate DoubleDash(s: string) { exists i :: 0 <= i < |s| - 1 && s[i] == '-' && s[i + 1] == '-' }

  lemma CharsOf(s: string, a: string, b: string)
    requires s == a + ['-'] + b
    ensures |s| == |a| + 1 + |b| && s[|a|] == '-'
    ensures forall i :: 0 <= i < |a| ==> s[i] == a[i]
    ensures forall i :: 0 <= i < |b| ==> s[|a| + 1 + i] == b[i]
  {
  }

  lemma DashesOf(s: string, a: string, b: string)
    requires s == a + ['-'] + b && '-' !in a
    ensures DoubleDash(s) <==> DoubleDash(b) || (b != "" && b[0] == '-')
  {
    CharsOf(s, a, b);
    if DoubleDash(b) {
      var i :| 0 <= i < |b| - 1 && b[i] == '-' && b[i + 1] == '-';
      assert s[|a| + 1 + i] == '-' && s[|a| + 1 + i + 1] == '-';
    }
    if DoubleDash(s) {
      var i :| 0 <= i < |s| - 1 && s[i] == '-' && s[i + 1] == '-';
      assert i >= |a| && s[i + 1] == b[i - |a|];
      if i > |a| { assert s[i] == b[i - |a| - 1]; }
    }
  }

  /** A first group in front of the rest. */
  lemma GroupInFront(s: string, a: string, b: string)
    requires s == a + ['-'] + b && '-' !in a
    ensures Canonical(s) && !DoubleDash(s) <==> a != "" && AllAlphanumeric(a) && Canonical(b) && !DoubleDash(b)
  {
    CharsOf(s, a, b);
    DashesOf(s, a, b);
    assert b != "" ==> s[|s| - 1] == b[|b| - 1];
    if Canonical(s) {
      forall i | 0 <= i < |b| ensures Alphanumeric(b[i]) || b[i] == '-' { assert b[i] == s[|a| + 1 + i]; }
    }
    if AllAlphanumeric(a) && Canonical(b) {
      forall i | 0 <= i < |s| ensures Alphanumeric(s[i]) || s[i] == '-' {
        if i > |a| { assert s[i] == b[i - |a| - 1]; }
      }
    }
  }

  lemma FirstOrRest(a: string, rest: seq<string>)
    ensures a in [a] + rest && forall g :: g in [a] + rest <==> g == a || g in rest
  {
    assert ([a] + rest)[0] == a;
    forall g | g in rest ensures g in [a] + rest {
      var k :| 0 <= k < |rest| && rest[k] == g;
      assert ([a] + rest)[k + 1] == g;
    }
  }

  lemma WithoutDash(s: string)
    requires '-' !in s
    ensures Canonical(s) && !DoubleDash(s) <==> s != "" && AllAlphanumeric(s)
  {
    if Canonical(s) {
      forall i | 0 <= i < |s| ensures Alphanumeric(s[i]) { assert s[i] in s; }
    }
    if AllAlphanumeric(s) && s != "" {
      assert s[0] in s && s[|s| - 1] in s;
    }
  }

  lemma {:induction false} PatternIff(s: string)
    ensures MatchesPattern(s) <==> Canonical(s) && !DoubleDash(s)
    decreases |s|
  {
    match SplitFirst(s, '-')
    case None =>
      assert Split(s, '-') == [s] + [];
      FirstOrRest(s, []);
      WithoutDash(s);
    case Some((a, b)) =>
      PatternIff(b);
      GroupInFront(s, a, b);
      assert Split(s, '-') == [a] + Split(b, '-');
      FirstOrRest(a, Split(b, '-'));
  }

  predicate Usable(c: char) { SanitizeChar(c) != '-' }

  /** Two neighbouring unusable characters with usable ones somewhere before and behind. */
  ghost predicate WideGap(s: string, j: int)
  {
    && 0 <= j < |s| - 1 && !Usable(s[j]) && !Usable(s[j + 1])
    && (exists a :: 0 <= a < j && Usable(s[a])) && (exists b :: j + 1 < b < |s| && Usable(s[b]))
  }

  lemma GapGivesDashes(s: string, i: nat, n: nat, j: int)
    requires i < n <= |s| && WideGap(s, j)
    requires forall k :: 0 <= k < |s| && !(i <= k < n) ==> !Usable(s[k])
    ensures DoubleDash(SanitizeChars(s)[i..n])
  {
    var r := SanitizeChars(s)[i..n];
    assert i < j && j + 1 < n - 1;
    assert r[j - i] == SanitizeChar(s[j]) && r[j - i + 1] == SanitizeChar(s[j + 1]);
  }

  lemma DashesGiveGap(s: string, i: nat, n: nat)
    requires i < n <= |s| && Usable(s[i]) && Usable(s[n - 1]) && DoubleDash(SanitizeChars(s)[i..n])
    ensures exists j :: WideGap(s, j)
  {
    var r := SanitizeChars(s)[i..n];
    var k :| 0 <= k < |r| - 1 && r[k] == '-' && r[k + 1] == '-';
    assert r[k] == SanitizeChar(s[i + k]) && r[k + 1] == SanitizeChar(s[i + k + 1]);
    assert WideGap(s, i + k);
  }

  /** The sanitizer checks less than the pattern says: its result matches the documented pattern exactly when no two
      unusable characters are neighbours inside the name. */
  lemma SanitizedMatchesIff(s: string)
    requires Sanitize(s).Ok?
    ensures MatchesPattern(Sanitize(s).value) <==> !exists j :: WideGap(s, j)
  {
    var i, n := SanitizeShape(s);
    SanitizeIsCanonical(s);
    PatternIff(SanitizeChars(s)[i..n]);
    if DoubleDash(SanitizeChars(s)[i..n]) {
      DashesGiveGap(s, i, n);
    } else if j :| WideGap(s, j) {
      GapGivesDashes(s, i, n, j);
    }
  }

  /** Two underscores are enough to miss the pattern. */
  lemma DoubleUnderscore()
    ensures Sanitize("a__b").Ok? && !MatchesPattern(Sanitize("a__b").value)
  {
    var s := "a__b";
    assert Usable(s[0]) && Usable(s[3]) && WideGap(s, 1);
    SanitizeIsCanonical(s);
    SanitizedMatchesIff(s);
  }

  /** The legal names are exactly the fixed points of the sanitizer. */
  lemma FixedPointIffCanonical(s: string)
    ensures Sanitize(s) == Ok(s) <==> Canonical(s)
  {
    SanitizeIsCanonical(s);
    if Canonical(s) {
      assert SanitizeChars(s) == s;
      assert TrimLeft(s) == s && TrimRight(s) == s;
    }
  }
}

/** The identity codec: app names and container IDs. */
module Identity {
  import opened Wrappers
  import opened Text
  import opened AcName

  const INTERNAL_APP_PREFIX: string := "rktletinternal-"

  /** What distinguishes the containers of one sandbox: the attempt number and the sanitized name. */
  datatype ContainerKey = ContainerKey(attempt: nat, name: string)

  predicate ValidKey(k: ContainerKey) { k.attempt < UINT32_LIMIT && Canonical(k.name) }

  function AppName(k: ContainerKey): string { Decimal(k.attempt) + ['-'] + k.name }

  function BuildAppName(attempt: nat, containerName: string): Result<string>
    requires attempt < UINT32_LIMIT
  {
    match Sanitize(containerName)
    case Err(e) => Err(e)
    case Ok(name) => Ok(Decimal(attempt) + ['-'] + name)
  }

  function BuildContainerID(uuid: string, appName: string): string { uuid + [':'] + appName }

  function ParseContainerID(containerID: string): Result<(string, string)>
  {
    match SplitFirst(containerID, ':')
    case None => Err("invalid container ID")
    case Some((uuid, rest)) =>
      match Sanitize(rest)
      case Err(e) => Err(e)
      case Ok(appName) => Ok((uuid, appName))
  }

  function ParseAppName(appName: string): Result<(nat, string)>
  {
    match SplitFirst(appName, '-')
    case None => Err("invalid appName")
    case Some((digits, name)) =>
      match ParseUint32(digits)
      case None => Err("invalid appName")
      case Some(attempt) => Ok((attempt, name))
  }

  /** App names of valid keys are themselves legal AC Names, free of colons, that start with a digit. */
  lemma AppNameIsCanonical(k: ContainerKey)
    requires ValidKey(k)
    ensures Canonical(AppName(k)) && ':' !in AppName(k) && IsDigit(AppName(k)[0])
    ensures !(INTERNAL_APP_PREFIX <= AppName(k))
  {
    var d, s := Decimal(k.attempt), AppName(k);
    assert s[0] == d[0] && s[|s| - 1] == k.name[|k.name| - 1];
    forall i | 0 <= i < |s| ensures Alphanumeric(s[i]) || s[i] == '-' {
      if i < |d| { assert s[i] == d[i]; }
      if i > |d| { assert s[i] == k.name[i - |d| - 1]; }
    }
    assert INTERNAL_APP_PREFIX[0] == 'r';
  }

  /** Reading an app name gives back the attempt and the name it was built from. */
  lemma ParseOfAppName(k: ContainerKey)
    requires ValidKey(k)
    ensures ParseAppName(AppName(k)) == Ok((k.attempt, k.name))
  {
    SplitFirstOfJoin(Decimal(k.attempt), '-', k.name);
    ParseOfDecimal(k.attempt);
  }

  lemma AppNameInjective(j: ContainerKey, k: ContainerKey)
    requires AppName(j) == AppName(k)
    ensures j == k
  {
    UniqueSplit(Decimal(j.attempt), j.name, Decimal(k.attempt), k.name, '-');
    DecimalInjective(j.attempt, k.attempt);
  }

  /** A container ID is read back to the uuid and the exact app name (sanitizing it again changes
      nothing), and this holds for precisely the uuids that contain no colon. */
  lemma ContainerIDRoundTrip(uuid: string, k: ContainerKey)
    requires ValidKey(k)
    ensures ParseContainerID(BuildContainerID(uuid, AppName(k))) == Ok((uuid, AppName(k))) <==> ':' !in uuid
  {
    AppNameIsCanonical(k);
    FixedPointIffCanonical(AppName(k));
    if ':' !in uuid {
      SplitFirstOfJoin(uuid, ':', AppName(k));
    }
  }

  /** From the request to the ID and back: what CreateContainer hands out determines the sandbox, the
      attempt and the sanitized name. */
  lemma IdentityRoundTrip(uuid: string, attempt: nat, containerName: string)
    requires attempt < UINT32_LIMIT && ':' !in uuid
    requires Sanitize(containerName).Ok?
    ensures
      var appName := BuildAppName(attempt, containerName).value;
      && BuildAppName(attempt, containerName).Ok?
      && ParseContainerID(BuildContainerID(uuid, appName)) == Ok((uuid, appName))
      && ParseAppName(appName) == Ok((attempt, Sanitize(containerName).value))
  {
    SanitizeIsCanonical(containerName);
    var k := ContainerKey(attempt, Sanitize(containerName).value);
    ContainerIDRoundTrip(uuid, k);
    ParseOfAppName(k);
  }

  /** Two create requests get the same ID exactly when sandbox, attempt and sanitized name agree. The
      app name holds no colon, so this needs no assumption on the sandbox ids. */
  lemma CollisionIff(u1: string, a1: nat, n1: string, u2: string, a2: nat, n2: string)
    requires a1 < UINT32_LIMIT && a2 < UINT32_LIMIT
    requires Sanitize(n1).Ok? && Sanitize(n2).Ok?
    ensures BuildContainerID(u1, BuildAppName(a1, n1).value) == BuildContainerID(u2, BuildAppName(a2, n2).value)
       <==> u1 == u2 && a1 == a2 && Sanitize(n1) == Sanitize(n2)
  {
    SanitizeIsCanonical(n1);
    SanitizeIsCanonical(n2);
    var k1, k2 := ContainerKey(a1, Sanitize(n1).value), ContainerKey(a2, Sanitize(n2).value);
    if BuildContainerID(u1, AppName(k1)) == BuildContainerID(u2, AppName(k2)) {
      ContainerIDInjective(u1, k1, u2, k2);
    }
  }

  lemma ContainerIDInjective(u1: string, k1: ContainerKey, u2: string, k2: ContainerKey)
    requires ValidKey(k1) && ValidKey(k2)
    requires BuildContainerID(u1, AppName(k1)) == BuildContainerID(u2, AppName(k2))
    ensures u1 == u2 && k1 == k2
  {
    AppNameIsCanonical(k1);
    AppNameIsCanonical(k2);
    UniqueLastSplit(u1, AppName(k1), u2, AppName(k2), ':');
    AppNameInjective(k1, k2);
  }

  /** The documented limitation: names that differ only in case name the same container. */
  lemma CaseCollision(uuid: string)
    ensures BuildAppName(0, "FooBar") == BuildAppName(0, "foobar") == Ok("0-foobar")
    ensures BuildContainerID(uuid, BuildAppName(0, "FooBar").value)
         == BuildContainerID(uuid, BuildAppName(0, "foobar").value)
  {
    FixedPointIffCanonical("foobar");
    assert SanitizeChars("FooBar") == "foobar";
    assert SanitizeChars("foobar") == "foobar";
    assert Sanitize("FooBar") == Sanitize("foobar") == Ok("foobar");
    assert Decimal(0) + ['-'] + "foobar" == "0-foobar";
  }
}
