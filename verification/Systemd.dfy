/** Launching a sandbox through systemd-run: slice names and the launch command. */
module Systemd {
  import opened Wrappers
  import opened Text
  import opened Lists
  import opened Flags
  import opened FlagNames

  const SLICE_SUFFIX: string := ".slice"

  function StripSlashes(p: string): string
  {
    if p != "" && p[|p| - 1] == '/' then StripSlashes(p[..|p| - 1]) else p
  }

  function AfterLastSlash(p: string): string
    decreases |p|
  {
    match SplitFirst(p, '/')
    case None => p
    case Some((_, rest)) => AfterLastSlash(rest)
  }

  /** `path.Base`. */
  function Base(p: string): string
  {
    if p == "" then "."
    else
      var b := AfterLastSlash(StripSlashes(p));
      if b == "" then "/" else b
  }

  predicate HasSuffix(s: string, suffix: string)
  {
    |suffix| <= |s| && s[|s| - |suffix|..] == suffix
  }

  lemma SuffixIff(s: string, suffix: string)
    ensures HasSuffix(s, suffix) <==> exists stem :: s == stem + suffix
  {
    if HasSuffix(s, suffix) {
      assert s == s[..|s| - |suffix|] + suffix;
    }
    if stem :| s == stem + suffix {
      assert s[|s| - |suffix|..] == suffix;
    }
  }

  function CgroupParentToSliceName(cgroupParent: string): Result<string>
  {
    var base := Base(cgroupParent);
    if HasSuffix(base, SLICE_SUFFIX) then Ok(base) else Err("cgroup not convertible to slice name")
  }

  /** A path is its directory part, empty or ending in a slash, and a last component without slashes. */
  lemma {:induction false} LastComponent(p: string) returns (dir: string)
    ensures p == dir + AfterLastSlash(p) && '/' !in AfterLastSlash(p)
    ensures dir != "" ==> dir[|dir| - 1] == '/'
    decreases |p|
  {
    match SplitFirst(p, '/')
    case None =>
      dir := "";
    case Some((a, rest)) =>
      var d := LastComponent(rest);
      dir := a + ['/'] + d;
      Reassociate([], a, ['/'], d, AfterLastSlash(rest));
  }

  lemma NoSlashNoStrip(p: string)
    requires p != "" && '/' !in p
    ensures StripSlashes(p) == p && AfterLastSlash(p) == p
  {
    assert p[|p| - 1] in p;
  }

  /** Every accepted cgroup parent gives a name without slashes that ends in `.slice`, is the last
      component of the path, and converts to itself. */
  lemma SliceNameMeaning(cgroupParent: string) returns (dir: string)
    requires CgroupParentToSliceName(cgroupParent).Ok?
    ensures
      var name := CgroupParentToSliceName(cgroupParent).value;
      && '/' !in name && (exists stem :: name == stem + ".slice")
      && StripSlashes(cgroupParent) == dir + name && (dir != "" ==> dir[|dir| - 1] == '/')
      && CgroupParentToSliceName(name) == Ok(name)
  {
    var name := CgroupParentToSliceName(cgroupParent).value;
    dir := LastComponent(StripSlashes(cgroupParent));
    assert |name| >= 6;
    SuffixIff(name, SLICE_SUFFIX);
    NoSlashNoStrip(name);
  }

  lemma {:induction false} StripShape(p: string) returns (slashes: string)
    ensures p == StripSlashes(p) + slashes && forall c :: c in slashes ==> c == '/'
    ensures StripSlashes(p) != "" ==> StripSlashes(p)[|StripSlashes(p)| - 1] != '/'
  {
    if p != "" && p[|p| - 1] == '/' {
      var s := StripShape(p[..|p| - 1]);
      slashes := s + ['/'];
      assert p == p[..|p| - 1] + ['/'];
    } else {
      slashes := "";
    }
  }

  /** Every path is a directory part, a last component without slashes, and slashes at the end; it is accepted
      exactly when the last component ends in `.slice`, and then that is its name. */
  lemma SliceAcceptedIff(p: string) returns (dir: string, last: string, slashes: string)
    ensures p == dir + last + slashes && '/' !in last && (forall c :: c in slashes ==> c == '/')
    ensures dir != "" ==> dir[|dir| - 1] == '/' && last != ""
    ensures CgroupParentToSliceName(p).Ok? <==> exists stem :: last == stem + ".slice"
    ensures CgroupParentToSliceName(p).Ok? ==> CgroupParentToSliceName(p).value == last
  {
    slashes := StripShape(p);
    dir := LastComponent(StripSlashes(p));
    last := AfterLastSlash(StripSlashes(p));
    assert last == "" ==> dir + last == dir;
    SuffixIff(last, SLICE_SUFFIX);
  }

  // ----- the launch command -----

  function LaunchGroups(unitName: string, slice: Option<string>): (gs: seq<Group>)
    ensures AllValued(gs)
  {
    [Valued(UNIT, [unitName]),
     Valued(SETENV, ["RKT_EXPERIMENT_APP=true", "RKT_EXPERIMENT_ATTACH=true"]),
     Valued(SERVICE_TYPE, ["notify"]),
     Valued(SLICE, if slice.Some? then [slice.value] else [])]
  }

  function LaunchCommand(systemdRun: string, unitName: string, cgroupParent: string,
                         command: seq<string>): Result<seq<string>>
  {
    if cgroupParent == "" then Ok([systemdRun] + Render(LaunchGroups(unitName, None)) + command)
    else
      match CgroupParentToSliceName(cgroupParent)
      case Err(e) => Err(e)
      case Ok(slice) => Ok([systemdRun] + Render(LaunchGroups(unitName, Some(slice))) + command)
  }

  /** systemd-run takes the leading flags for itself; the first word starts the command it runs. */
  function Launched(args: seq<string>): seq<string>
  {
    if args != [] && !IsWord(args[0]) then Launched(args[1..]) else args
  }

  lemma {:induction false} LaunchedAfterFlags(flags: seq<string>, command: seq<string>)
    requires forall a :: a in flags ==> !IsWord(a)
    requires command != [] && IsWord(command[0])
    ensures Launched(flags + command) == command
  {
    if flags == [] {
      assert flags + command == command;
    } else {
      assert (flags + command)[0] == flags[0] && (flags + command)[1..] == flags[1..] + command;
      LaunchedAfterFlags(flags[1..], command);
    }
  }

  lemma {:induction false} NoWordsAmongFlags(args: seq<string>)
    requires Words(args) == [] && END_OF_FLAGS !in args
    ensures forall a :: a in args ==> !IsWord(a)
  {
    if args != [] {
      NoWordsAmongFlags(args[1..]);
    }
  }

  /** What systemd-run executes is exactly the command handed to StartProcess. */
  lemma LaunchRunsCommand(systemdRun: string, unitName: string, cgroupParent: string, command: seq<string>)
    requires command != [] && IsWord(command[0])
    requires LaunchCommand(systemdRun, unitName, cgroupParent, command).Ok?
    ensures Launched(LaunchCommand(systemdRun, unitName, cgroupParent, command).value[1..]) == command
  {
    var slice := if cgroupParent == "" then None else Some(CgroupParentToSliceName(cgroupParent).value);
    LaunchedAfterGroups(systemdRun, LaunchGroups(unitName, slice), command);
  }

  lemma LaunchedAfterGroups(systemdRun: string, gs: seq<Group>, command: seq<string>)
    requires AllValued(gs) && command != [] && IsWord(command[0])
    ensures Launched(([systemdRun] + Render(gs) + command)[1..]) == command
  {
    OfLacking(UNIT, gs);
    ReadRender(UNIT, gs);
    NoWordsAmongFlags(Render(gs));
    assert ([systemdRun] + Render(gs) + command)[1..] == Render(gs) + command;
    LaunchedAfterFlags(Render(gs), command);
  }

  /** The unit's name, its environment and type, and the slice if there is one. */
  function LaunchFlags(unitName: string, slice: Option<string>): seq<string>
  {
    ["--unit=" + unitName, "--setenv=" + "RKT_EXPERIMENT_APP=true", "--setenv=" + "RKT_EXPERIMENT_ATTACH=true",
     "--service-type=" + "notify"] + (match slice case Some(s) => ["--slice=" + s] case None => [])
  }

  /** The whole command: its own flags, with the slice of the cgroup parent if there is one, and the command as it was
      given. It fails exactly for a parent that is no slice. */
  lemma LaunchInFull(systemdRun: string, unitName: string, cgroupParent: string, command: seq<string>)
    ensures LaunchCommand(systemdRun, unitName, cgroupParent, command) ==
      if cgroupParent == "" then Ok([systemdRun] + LaunchFlags(unitName, None) + command)
      else
        match CgroupParentToSliceName(cgroupParent)
        case Err(e) => Err(e)
        case Ok(slice) => Ok([systemdRun] + LaunchFlags(unitName, Some(slice)) + command)
  {
    LaunchText(unitName, None);
    if cgroupParent != "" && CgroupParentToSliceName(cgroupParent).Ok? {
      LaunchText(unitName, Some(CgroupParentToSliceName(cgroupParent).value));
    }
  }

  lemma RenderFour(a: Group, b: Group, c: Group, d: Group)
    ensures Render([a, b, c, d]) == RenderGroup(a) + RenderGroup(b) + RenderGroup(c) + RenderGroup(d)
  {
    var x := RenderGroup(a);
    var y := x + RenderGroup(b);
    var z := y + RenderGroup(c);
    RenderFold([[], x, y, z, z + RenderGroup(d)], [a, b, c, d]);
  }

  lemma FlagTexts(f: FlagName, text: string, u: string, v: string)
    requires Prefix(f) == text
    ensures Emit(f, [u]) == [text + u] && Emit(f, [u, v]) == [text + u, text + v]
  {
  }

  lemma LaunchLiterals()
    ensures Prefix(UNIT) == "--unit=" && Prefix(SERVICE_TYPE) == "--service-type=" && Prefix(SLICE) == "--slice="
    ensures Prefix(SETENV) == "--setenv="
  {
  }

  lemma LaunchText(unitName: string, slice: Option<string>)
    ensures Render(LaunchGroups(unitName, slice)) == LaunchFlags(unitName, slice)
  {
    var gs := LaunchGroups(unitName, slice);
    var app, attach := "RKT_EXPERIMENT_APP=true", "RKT_EXPERIMENT_ATTACH=true";
    RenderFour(gs[0], gs[1], gs[2], gs[3]);
    LaunchLiterals();
    FlagTexts(UNIT, "--unit=", unitName, "");
    FlagTexts(SETENV, "--setenv=", app, attach);
    FlagTexts(SERVICE_TYPE, "--service-type=", "notify", "");
    if slice.Some? { FlagTexts(SLICE, "--slice=", slice.value, ""); }
  }

  /** The command list StartProcess builds. */
  method BuildLaunchCommand(systemdRun: string, unitName: string, cgroupParent: string, command: seq<string>)
    returns (r: Result<seq<string>>)
    ensures r == LaunchCommand(systemdRun, unitName, cgroupParent, command)
  {
    var slice := None;
    if cgroupParent != "" {
      match CgroupParentToSliceName(cgroupParent) {
        case Err(e) => return Err(e);
        case Ok(name) => slice := Some(name);
      }
    }
    var unit := AppendEach([systemdRun], UNIT, [unitName]);
    var environment := AppendEach(unit, SETENV, ["RKT_EXPERIMENT_APP=true", "RKT_EXPERIMENT_ATTACH=true"]);
    var service := AppendEach(environment, SERVICE_TYPE, ["notify"]);
    var cmdList := service;
    if slice.Some? {
      cmdList := AppendEach(cmdList, SLICE, [slice.value]);
    } else {
      EmitNothing(service);
    }
    RenderFold([[systemdRun], unit, environment, service, cmdList], LaunchGroups(unitName, slice));
    return Ok(cmdList + command);
  }
}
