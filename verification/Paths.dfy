/** Go's `path.Join` and `path.Clean` on absolute paths, as far as the default log directory needs them. */
module Paths {
  import opened Text

  /** A component that names an entry of its directory. */
  predicate Proper(c: string) { c != "" && c != "." && c != ".." }

  /** Walks along components: empty ones and `.` stay, `..` goes back, at the root nowhere. */
  function Walk(stack: seq<string>, components: seq<string>): seq<string>
    decreases |components|
  {
    if components == [] then stack
    else
      var c, rest := components[0], components[1..];
      if Proper(c) then Walk(stack + [c], rest)
      else if c == ".." && stack != [] then Walk(stack[..|stack| - 1], rest)
      else Walk(stack, rest)
  }

  /** `path.Clean` of a path that starts with a slash. */
  function CleanRooted(p: string): string
    requires p != "" && p[0] == '/'
  {
    "/" + Join(Walk([], Split(p[1..], '/')), '/')
  }

  const LOG_ROOT: string := "/var/log/pods"

  /** `path.Join(root, name)`, which leaves out an empty element. */
  function JoinPath(root: string, name: string): string
    requires root != "" && root[0] == '/'
  {
    CleanRooted(if name == "" then root else root + "/" + name)
  }

  function DefaultLogDirectory(uid: string): string { JoinPath(LOG_ROOT, uid) }

  // ----- lengths -----

  /** The length of the components with a separator behind each. */
  function Size(components: seq<string>): nat
  {
    if components == [] then 0 else |components[0]| + 1 + Size(components[1..])
  }

  lemma {:induction false} SizeAppend(a: seq<string>, b: seq<string>)
    ensures Size(a + b) == Size(a) + Size(b)
  {
    if a == [] {
      assert a + b == b;
    } else {
      assert (a + b)[1..] == a[1..] + b;
      SizeAppend(a[1..], b);
    }
  }

  lemma {:induction false} JoinSize(components: seq<string>)
    ensures |Join(components, '/')| == if components == [] then 0 else Size(components) - 1
  {
    if |components| > 1 {
      JoinSize(components[1..]);
    }
  }

  /** Walking adds what it walks over, and less unless every component is proper. */
  lemma {:induction false} WalkSize(stack: seq<string>, components: seq<string>)
    ensures Size(Walk(stack, components)) <= Size(stack) + Size(components)
    ensures (exists c :: c in components && !Proper(c)) ==>
      Size(Walk(stack, components)) < Size(stack) + Size(components)
    decreases |components|
  {
    if components != [] {
      var c, rest := components[0], components[1..];
      assert components == [c] + rest;
      if Proper(c) {
        WalkSize(stack + [c], rest);
        SizeAppend(stack, [c]);
      } else if c == ".." && stack != [] {
        var n := |stack| - 1;
        WalkSize(stack[..n], rest);
        SizeAppend(stack[..n], [stack[n]]);
        assert stack == stack[..n] + [stack[n]];
      } else {
        WalkSize(stack, rest);
      }
    }
  }

  lemma {:induction false} WalkProper(stack: seq<string>, components: seq<string>)
    requires forall c :: c in components ==> Proper(c)
    ensures Walk(stack, components) == stack + components
    decreases |components|
  {
    if components == [] {
      assert stack + components == stack;
    } else {
      WalkProper(stack + [components[0]], components[1..]);
      assert stack + components == (stack + [components[0]]) + components[1..];
    }
  }

  lemma {:induction false} SplitAppend(a: string, b: string)
    ensures Split(a + "/" + b, '/') == Split(a, '/') + Split(b, '/')
    decreases |a|
  {
    match SplitFirst(a, '/')
    case None =>
      SplitFirstOfJoin(a, '/', b);
    case Some((x, y)) =>
      assert a + "/" + b == x + ['/'] + (y + "/" + b);
      SplitFirstOfJoin(x, '/', y + "/" + b);
      SplitAppend(y, b);
  }

  ghost predicate AllProper(path: string) { forall c :: c in Split(path, '/') ==> Proper(c) }

  lemma CleanOfProper(p: string)
    requires p != "" && p[0] == '/' && AllProper(p[1..])
    ensures CleanRooted(p) == p
  {
    var parts := Split(p[1..], '/');
    WalkProper([], parts);
    assert [] + parts == parts;
    JoinOfSplit(p[1..], '/');
  }

  lemma CleanIsShorter(p: string)
    requires p != "" && p[0] == '/' && !AllProper(p[1..])
    ensures |CleanRooted(p)| < |p| || CleanRooted(p) == "/"
  {
    var parts := Split(p[1..], '/');
    WalkSize([], parts);
    JoinOfSplit(p[1..], '/');
    JoinSize(parts);
    JoinSize(Walk([], parts));
  }

  /** Joining leads to the entry with the given name exactly when every component of the name is proper. */
  lemma JoinPathIff(root: string, name: string)
    requires |root| > 1 && root[0] == '/' && AllProper(root[1..])
    ensures JoinPath(root, name) == root + "/" + name <==> AllProper(name)
  {
    var p := root + "/" + name;
    if name == "" {
      assert Split(name, '/')[0] == "" && "" in Split(name, '/');
      CleanOfProper(root);
      assert |p| > |root|;
    } else {
      assert p[1..] == root[1..] + "/" + name;
      SplitAppend(root[1..], name);
      if AllProper(name) {
        CleanOfProper(p);
      } else {
        var c :| c in Split(name, '/') && !Proper(c);
        assert c in Split(p[1..], '/');
        CleanIsShorter(p);
      }
    }
  }

  lemma LogRoot()
    ensures LOG_ROOT[0] == '/' && AllProper(LOG_ROOT[1..])
  {
    var parts := ["var", "log", "pods"];
    assert parts[1..] == ["log", "pods"] && parts[1..][1..] == ["pods"];
    assert Join(parts, '/') == LOG_ROOT[1..];
    SplitOfJoin(parts, '/');
  }

  /** The default log directory is the one named after the pod exactly when every component of the uid names an
      entry: an ordinary uid does, while a slash at an edge, `.` or `..` lead elsewhere. */
  lemma DefaultDirectoryIff(uid: string)
    ensures DefaultLogDirectory(uid) == LOG_ROOT + "/" + uid <==> AllProper(uid)
  {
    LogRoot();
    JoinPathIff(LOG_ROOT, uid);
  }
}
