/** rktlet's image service: loops over what `rkt image` commands print. */
module ImageService {
  import opened Wrappers
  import opened Text
  import opened Lists
  import opened Flags
  import opened FlagNames
  import opened Cli
  import opened Commands
  import opened ImageNames
  import opened Images
  import B = ImageBackend

  const LIST_ARGS: seq<string> := ["list", "--full", "--format=json", "--sort=importtime"]

  /** What a refused listing comes back as. */
  function ListError(text: string): string
  {
    "couldn't list images: " + RunError("image", LIST_ARGS, EXIT_STATUS, text)
  }

  function FetchArgs(name: string): seq<string> { ["fetch", "--pull-policy=update", "--full=true", name] }

  // ----- how rkt reads the image commands -----

  lemma ImageWords(c: CliConfig, rktPath: string, args: seq<string>)
    ensures Words(Line(c, rktPath, "image", args)) == ["image"] + Words(args)
  {
    LocalNames();
    assert "image"[0] == 'i';
    GlobalFlagsDoNotInterfere(APP, c, rktPath, "image", args);
  }

  /** Leading words, then flags, then at most one operand. */
  lemma OperandWords(verb: string, operand: string)
    requires IsWord(verb) && IsWord(operand)
    ensures Words([verb, operand]) == [verb, operand]
  {
    assert [operand] == [operand] + [];
    ReadOperand(APP, operand, []);
    assert [verb, operand] == [verb] + [operand];
    ReadOperand(APP, verb, [operand]);
  }

  lemma ListWords()
    ensures Words(LIST_ARGS) == ["list"]
  {
    assert "list"[0] == 'l' && "--full"[..2] == "--" && "--sort=importtime"[..2] == "--";
    var sort := ["--sort=importtime"];
    assert sort == sort + [];
    ReadOperand(APP, "--sort=importtime", []);
    ReadLeadingFlag(APP, FORMAT, "json", sort);
    ReadOperand(APP, "--full", [Flag(FORMAT, "json")] + sort);
    ReadOperand(APP, "list", ["--full"] + ([Flag(FORMAT, "json")] + sort));
    assert Flag(FORMAT, "json") == "--format=json";
    assert LIST_ARGS == ["list"] + (["--full"] + ([Flag(FORMAT, "json")] + sort));
  }

  lemma FetchWords(name: string)
    requires IsWord(name)
    ensures Words(FetchArgs(name)) == ["fetch", name]
  {
    assert "fetch"[0] == 'f' && "--pull-policy=update"[..2] == "--" && "--full=true"[..2] == "--";
    assert [name] == [name] + [];
    ReadOperand(APP, name, []);
    ReadOperand(APP, "--full=true", [name]);
    ReadOperand(APP, "--pull-policy=update", ["--full=true"] + [name]);
    ReadOperand(APP, "fetch", ["--pull-policy=update"] + (["--full=true"] + [name]));
    assert FetchArgs(name) == ["fetch"] + (["--pull-policy=update"] + (["--full=true"] + [name]));
  }

  lemma ListReading(c: CliConfig, rktPath: string)
    ensures B.ReadInstruction(Line(c, rktPath, "image", LIST_ARGS)) == B.ListImages
  {
    ImageWords(c, rktPath, LIST_ARGS);
    ListWords();
  }

  lemma FetchReading(c: CliConfig, rktPath: string, name: string)
    requires IsWord(name)
    ensures B.ReadInstruction(Line(c, rktPath, "image", FetchArgs(name))) == B.Fetch(name)
  {
    ImageWords(c, rktPath, FetchArgs(name));
    FetchWords(name);
  }

  /** The line of a pull asks for what was written: a reference with tag or digest is fetched unchanged, any other under
      the default tag. */
  lemma PullReading(c: CliConfig, rktPath: string, parse: Parser, image: string)
    requires Lawful(parse) && !("docker://" <= image) && !IsHash(image) && parse(image).Some?
    ensures
      var canonical := GetCanonicalImageName(parse, image);
      && canonical.Ok?
      && B.ReadInstruction(
           Line(c, rktPath, "image", ["fetch", "--pull-policy=update", "--full=true", canonical.value]))
         == match parse(image)
            case Some(Reference(name, false, false)) => B.Fetch("docker://" + name + ":latest")
            case _ => B.Fetch("docker://" + image)
  {
    FetchedName(parse, image, image);
    CanonicalIsOperand(parse, image);
    FetchReading(c, rktPath, GetCanonicalImageName(parse, image).value);
  }

  lemma ByIdReading(c: CliConfig, rktPath: string, id: string)
    requires B.IsImageId(id)
    ensures B.ReadInstruction(Line(c, rktPath, "image", ["cat-manifest", id])) == B.CatManifest(id)
    ensures B.ReadInstruction(Line(c, rktPath, "image", ["rm", id])) == B.RemoveById(id)
  {
    B.IdIsHash(id);
    assert "cat-manifest"[0] == 'c' && "rm"[0] == 'r';
    OperandWords("cat-manifest", id);
    OperandWords("rm", id);
    ImageWords(c, rktPath, ["cat-manifest", id]);
    ImageWords(c, rktPath, ["rm", id]);
  }

  // ----- what a command prints -----

  /** What rktlet makes of an output: text is split into lines. */
  datatype Response = Entries(entries: seq<B.Entry>) | ManifestOf(manifest: B.Manifest) | Lines(lines: seq<string>)

  function Received(output: B.Output): Response
  {
    match output
    case Entries(entries) => Entries(entries)
    case ManifestOf(m) => ManifestOf(m)
    case Printed(text) => Lines(OutputLines(text))
  }

  lemma {:induction false} JoinSnoc(parts: seq<string>, last: string, sep: char)
    ensures Join(parts + [last], sep) == if parts == [] then last else Join(parts, sep) + [sep] + last
  {
    if |parts| > 1 {
      assert (parts + [last])[1..] == parts[1..] + [last];
      JoinSnoc(parts[1..], last, sep);
      Reassociate(parts[0], [sep], Join(parts[1..], sep), [sep], last);
    } else if |parts| == 1 {
      assert (parts + [last])[1..] == [last];
    }
  }

  lemma {:induction false} LastOfSplit(x: string, sep: char, last: string)
    requires sep !in last
    ensures
      var parts := Split(x + [sep] + last, sep);
      parts[|parts| - 1] == last
    decreases |x|
  {
    match SplitFirst(x, sep)
    case None =>
      SplitFirstOfJoin(x, sep, last);
    case Some((a, b)) =>
      assert x + [sep] + last == a + [sep] + (b + [sep] + last);
      SplitFirstOfJoin(a, sep, b + [sep] + last);
      LastOfSplit(b, sep, last);
  }

  /** Trimming a text that ends with a line holding an id cuts off the final newline and, at most, some of
      what precedes the id. */
  lemma TrimBeforeId(pre: string, id: string) returns (i: nat)
    requires B.IsImageId(id)
    ensures i <= |pre| && TrimSpace(pre + id + "\n") == pre[i..] + id
  {
    var s := pre + id + "\n";
    var from, n := TrimSpaceMeaning(s);
    B.IdIsHash(id);
    assert s[|pre|] == id[0] && s[|pre| + |id| - 1] == id[|id| - 1] && s[|s| - 1] == '\n';
    assert !IsSpace(id[0]) && !IsSpace(id[|id| - 1]) && IsSpace('\n');
    assert n == |pre| + |id|;
    i := from;
    assert s[from..n] == pre[from..] + id;
  }

  /** The last line of a text that consists of the rest of a line break and an id. */
  lemma LastLineAfter(pre: string, i: nat, id: string)
    requires i <= |pre| && '\n' !in id && (pre != "" ==> pre[|pre| - 1] == '\n')
    ensures Ends(Split(pre[i..] + id, '\n'), id)
  {
    if i < |pre| {
      var x := pre[i..|pre| - 1];
      assert pre[i..] == x + ['\n'];
      LastOfSplit(x, '\n', id);
    } else {
      assert pre[i..] + id == id;
    }
  }

  /** The last line of what a fetch prints is the id, however much was printed before. */
  lemma LastLineIsId(log: seq<string>, id: string)
    requires B.IsImageId(id)
    ensures Ends(OutputLines(B.FetchText(log, id)), id)
  {
    B.IdIsHash(id);
    JoinSnoc(log, id, '\n');
    var pre := if log == [] then "" else Join(log, '\n') + ['\n'];
    assert B.FetchText(log, id) == pre + id + "\n";
    var i := TrimBeforeId(pre, id);
    LastLineAfter(pre, i, id);
  }

  // ----- searches -----

  method ExistInSlice(inSlice: seq<string>, key: string) returns (found: bool)
    ensures found <==> key in inSlice
  {
    for i := 0 to |inSlice|
      invariant key !in inSlice[..i]
    {
      if inSlice[i] == key {
        return true;
      }
    }
    return false;
  }

  method Passes(image: Image, filter: Option<string>) returns (passes: bool)
    ensures passes <==> PassFilter(image, filter)
  {
    if filter.None? {
      return true;
    }
    for i := 0 to |image.repoTags|
      invariant filter.value !in image.repoTags[..i]
    {
      if filter.value == image.repoTags[i] {
        return true;
      }
    }
    return false;
  }

  lemma ExecOfFetch(store: B.Store, line: seq<string>, name: string, a: B.Answer)
    requires B.ReadInstruction(line) == B.Fetch(name)
    ensures B.Exec(store, line, a) == B.ExecFetch(store, name, a)
  {
  }

  /** What a fetch does to the store, and what its output tells. */
  lemma FetchOutcome(parse: Parser, store: B.Store, name: string, canonical: string, a: B.Answer)
    requires B.Sound(store) && GetCanonicalImageName(parse, name) == Ok(canonical)
    ensures
      var (next, outcome) := B.ExecFetch(store, canonical, a);
      var (after, ref) := Pull(parse, store, name, a);
      && next == after && B.Sound(next)
      && (outcome.Success? <==> ref.Some?)
      && (outcome.Success? ==> outcome.output.Printed? && Ends(OutputLines(outcome.output.text), ref.value))
  {
    var e := B.Fetched(canonical, a.fetched);
    if B.IsImageId(e.id) {
      LastLineIsId(a.log, e.id);
      B.ImportIsSound(store, a.position, e);
    }
  }

  /** The same of the printed command. */
  lemma FetchEffect(c: CliConfig, rktPath: string, parse: Parser, store: B.Store, name: string, canonical: string,
                    a: B.Answer)
    requires B.Sound(store) && GetCanonicalImageName(parse, name) == Ok(canonical)
    ensures
      var (next, outcome) := B.Exec(store, Line(c, rktPath, "image", FetchArgs(canonical)), a);
      var (after, ref) := Pull(parse, store, name, a);
      && next == after && B.Sound(next)
      && (outcome.Success? <==> ref.Some?)
      && (outcome.Success? ==> Received(outcome.output).Lines?)
      && (outcome.Success? ==> Ends(Received(outcome.output).lines, ref.value))
  {
    CanonicalIsOperand(parse, name);
    FetchReading(c, rktPath, canonical);
    ExecOfFetch(store, Line(c, rktPath, "image", FetchArgs(canonical)), canonical, a);
    FetchOutcome(parse, store, name, canonical, a);
  }

  predicate Ends(lines: seq<string>, last: string) { |lines| >= 1 && lines[|lines| - 1] == last }

  lemma NextImage(parse: Parser, store: B.Store, i: nat, filter: Option<string>)
    requires i < |store|
    ensures
      var image := ImageOf(parse, store[i]);
      Listing(parse, store[..i + 1], filter)
      == if PassFilter(image, filter) then Listing(parse, store[..i], filter) + [image]
         else Listing(parse, store[..i], filter)
  {
    assert store[..i + 1][..i] == store[..i];
  }

  // ----- the lines of a call -----

  function ImageListLine(c: CliConfig, rktPath: string): seq<string>
  {
    Line(c, rktPath, "image", ["list", "--full", "--format=json", "--sort=importtime"])
  }

  /** One manifest is read per image, in order. */
  function ManifestLines(c: CliConfig, rktPath: string, store: B.Store): (lines: seq<seq<string>>)
    ensures |lines| == |store|
    ensures forall i :: 0 <= i < |store| ==> lines[i] == Line(c, rktPath, "image", ["cat-manifest", store[i].id])
  {
    seq(|store|, i requires 0 <= i < |store| => Line(c, rktPath, "image", ["cat-manifest", store[i].id]))
  }

  /** The listing, and the manifests unless it is refused. */
  function ListingLines(c: CliConfig, rktPath: string, store: B.Store, list: B.Answer): seq<seq<string>>
  {
    [ImageListLine(c, rktPath)] + if list.refusal.Some? then [] else ManifestLines(c, rktPath, store)
  }

  // ----- the service -----

  class ImageStore {
    const config: CliConfig
    const rktPath: string
    const parse: Parser
    const globalFlags: seq<string>
    /** rkt's image store. */
    var store: B.Store
    /** Every command line rkt was given, in order. */
    ghost var issued: seq<seq<string>>

    ghost predicate Valid()
      reads this
    {
      globalFlags == GlobalFlags(config) && B.Sound(store)
    }

    constructor (config: CliConfig, rktPath: string, parse: Parser)
      ensures Valid() && store == [] && this.parse == parse
    {
      this.config, this.rktPath, this.parse := config, rktPath, parse;
      var flags := GetArgumentFormOfStruct(ConfigFields(config));
      ConfigGroups(config);
      globalFlags := flags;
      store, issued := [], [];
    }

    method RunCommand(args: seq<string>, a: B.Answer) returns (r: Result<Response>)
      requires Valid()
      modifies this
      ensures
        var (next, outcome) := B.Exec(old(store), Line(config, rktPath, "image", args), a);
        && store == next && issued == old(issued) + [Line(config, rktPath, "image", args)]
        && r == match outcome
                case Success(output) => Ok(Received(output))
                case Failure(text) => Err(RunError("image", args, EXIT_STATUS, text))
    {
      var command := Command(rktPath, globalFlags, "image", args);
      var (next, outcome) := B.Exec(store, command[1..], a);
      store, issued := next, issued + [command[1..]];
      match outcome {
        case Success(output) => r := Ok(Received(output));
        case Failure(text) => r := Err(RunError("image", args, EXIT_STATUS, text));
      }
    }

    /** The tag under which an image is listed, its original name as far as its manifest can be read, and its user. */
    method Describe(e: B.Entry, ghost i: nat, a: B.Answer) returns (tag: string, user: string)
      requires Valid() && i < |store| && store[i] == e
      modifies this
      ensures Valid() && store == old(store) && tag == TagOf(parse, Readable(store, a.unreadable)[i])
      ensures issued == old(issued) + [Line(config, rktPath, "image", ["cat-manifest", e.id])]
      ensures user == B.UserOf(Readable(store, a.unreadable)[i].manifest)
    {
      ByIdReading(config, rktPath, e.id);
      IndexOfDistinct(B.Ids(store), i);
      assert B.Ids(store)[i] == e.id;
      var manifest := RunCommand(["cat-manifest", e.id], a);
      match manifest {
        case Err(_) => tag, user := e.name, "";
        case Ok(output) => tag, user := RealName(parse, output.manifest, e.name), output.manifest.user;
      }
    }

    method ListEntries(list: B.Answer) returns (r: Result<seq<B.Entry>>)
      requires Valid()
      modifies this
      ensures Valid() && store == old(store)
      ensures r == if list.refusal.Some? then Err(ListError(list.refusal.value)) else Ok(store)
      ensures issued == old(issued) + [ImageListLine(config, rktPath)]
    {
      ListReading(config, rktPath);
      var output := RunCommand(LIST_ARGS, list);
      match output {
        case Err(e) => return Err("couldn't list images: " + e);
        case Ok(o) => return Ok(o.entries);
      }
    }

    method ListImages(filter: Option<string>, list: B.Answer) returns (r: Result<seq<Image>>)
      requires Valid()
      modifies this
      ensures Valid() && store == old(store)
      ensures r == if list.refusal.Some? then Err(ListError(list.refusal.value))
                   else Ok(Listing(parse, Readable(store, list.unreadable), filter))
      ensures issued == old(issued) + ListingLines(config, rktPath, store, list)
    {
      var listed := ListEntries(list);
      if listed.Err? {
        return Err(listed.error);
      }
      var images := ImagesOf(listed.value, filter, list);
      return Ok(images);
    }

    method ImageFor(e: B.Entry, ghost i: nat, a: B.Answer) returns (image: Image)
      requires Valid() && i < |store| && store[i] == e
      modifies this
      ensures Valid() && store == old(store) && image == ImageOf(parse, Readable(store, a.unreadable)[i])
      ensures issued == old(issued) + [Line(config, rktPath, "image", ["cat-manifest", e.id])]
    {
      var tag, user := Describe(e, i, a);
      image := Image(e.id, [tag], [e.id], Uint64(e.size), None, "");
      var (uid, parsed) := ParseInt64(user);
      if !parsed {
        image := image.(uid := Some(uid));
      } else {
        image := image.(username := user);
      }
    }

    /** The loop over the listed entries. */
    method ImagesOf(entries: seq<B.Entry>, filter: Option<string>, a: B.Answer) returns (images: seq<Image>)
      requires Valid() && entries == store
      modifies this
      ensures Valid() && store == old(store)
      ensures images == Listing(parse, Readable(store, a.unreadable), filter)
      ensures issued == old(issued) + ManifestLines(config, rktPath, store)
    {
      images := [];
      ghost var seen, lines := Readable(store, a.unreadable), ManifestLines(config, rktPath, store);
      for i := 0 to |entries|
        invariant Valid() && store == old(store)
        invariant images == Listing(parse, seen[..i], filter)
        invariant issued == old(issued) + lines[..i]
      {
        var img := entries[i];
        var image := ImageFor(img, i, a);
        NextImage(parse, seen, i, filter);
        AppendNext(old(issued), lines, i);
        var passes := Passes(image, filter);
        if passes {
          images := images + [image];
        }
      }
      assert seen[..|entries|] == seen && lines[..|entries|] == lines;
    }

    method ImageStatus(name: string, list: B.Answer) returns (r: Result<Option<Image>>)
      requires Valid()
      modifies this
      ensures Valid() && store == old(store)
      ensures r == if list.refusal.Some? then Err(ListError(list.refusal.value))
                   else StatusReply(parse, Readable(store, list.unreadable), name)
      ensures issued == old(issued) + ListingLines(config, rktPath, store, list)
    {
      var listed := ListImages(None, list);
      if listed.Err? {
        return Err(listed.error);
      }
      var images := listed.value;
      var reqImg := name;
      if !IsHash(reqImg) {
        var tagged := ApplyDefaultImageTag(parse, reqImg);
        if tagged.Err? {
          return Err(tagged.error);
        }
        reqImg := tagged.value;
      }
      for i := 0 to |images|
        invariant Valid() && store == old(store)
        invariant FirstMatch(images, reqImg) == FirstMatch(images[i..], reqImg)
        invariant issued == old(issued) + ListingLines(config, rktPath, store, list)
      {
        var img := images[i];
        var tagged := ExistInSlice(img.repoTags, reqImg);
        assert images[i..][1..] == images[i + 1..];
        if img.id == reqImg || tagged {
          return Ok(Some(img));
        }
      }
      return Ok(None);
    }

    method RemoveImage(name: string, list: B.Answer, remove: B.Answer) returns (r: Result<()>)
      requires Valid()
      modifies this
      ensures Valid()
      ensures
        var (after, id) := Remove(parse, old(store), name, list, remove);
        && store == after && (r.Ok? <==> id.Some?)
        && (r.Ok? ==> issued == old(issued) + ListingLines(config, rktPath, old(store), list)
                                + [Line(config, rktPath, "image", ["rm", id.value])])
    {
      FoundIsStored(parse, store, name, list.unreadable);
      var status := ImageStatus(name, list);
      match status {
        case Err(e) => return Err(e);
        case Ok(None) => return Err("Image does not exist");
        case Ok(Some(image)) =>
          ByIdReading(config, rktPath, image.id);
          B.RemoveIsSound(store, IndexOf(B.Ids(store), image.id).value);
          var output := RunCommand(["rm", image.id], remove);
          match output {
            case Err(e) => return Err(e);
            case Ok(_) => return Ok(());
          }
      }
    }

    method PullImage(name: string, a: B.Answer) returns (r: Result<string>)
      requires Valid()
      modifies this
      ensures Valid()
      ensures (store, match r case Ok(ref) => Some(ref) case Err(_) => None) == Pull(parse, old(store), name, a)
      ensures issued == old(issued) +
        match GetCanonicalImageName(parse, name)
        case Err(_) => []
        case Ok(text) => [Line(config, rktPath, "image", ["fetch", "--pull-policy=update", "--full=true", text])]
    {
      var canonical := GetCanonicalImageName(parse, name);
      if canonical.Err? {
        return Err(canonical.error);
      }
      FetchEffect(config, rktPath, parse, store, name, canonical.value, a);
      var output := RunCommand(FetchArgs(canonical.value), a);
      match output {
        case Err(e) => return Err(e);
        case Ok(o) =>
          if |o.lines| < 1 {
            return Err("malformed fetch image response");
          }
          return Ok(o.lines[|o.lines| - 1]);
      }
    }

    // ----- what the caller can count on -----

    /** Pull, then ask: the image is there. */
    method PullThenStatus(name: string, a: B.Answer, list: B.Answer)
      returns (ref: Result<string>, status: Result<Option<Image>>)
      requires Valid() && Lawful(parse) && list.refusal.None?
      modifies this
      ensures Valid()
      ensures ref.Ok? && !IsHash(name) ==> (status.Ok? <==> !(DOCKER_PREFIX <= name))
      ensures ref.Ok? && !IsHash(name) && status.Ok? && ref.value !in list.unreadable ==> status.value.Some?
    {
      ref := PullImage(name, a);
      if ref.Ok? {
        PulledIsFound(parse, old(store), name, a, list.unreadable);
      }
      status := ImageStatus(name, list);
    }
  }

  /** What ImageStatus finds is in the store. */
  lemma FoundIsStored(parse: Parser, store: B.Store, name: string, unreadable: set<string>)
    requires B.Sound(store)
    ensures
      match StatusReply(parse, Readable(store, unreadable), name)
      case Ok(Some(image)) => IndexOf(B.Ids(store), image.id).Some? && B.IsImageId(image.id)
      case _ => true
  {
    match StatusReply(parse, Readable(store, unreadable), name)
    case Ok(Some(image)) =>
      var images, wanted := Listing(parse, Readable(store, unreadable), None), Wanted(parse, name).value;
      ListedIds(parse, store, unreadable);
      FirstMatchMeaning(images, wanted);
      var i: int :| IsFirstMatch(images, wanted, i);
      assert B.Ids(store)[i] == image.id;
    case _ =>
  }

  /** A caller who removes an image asks for it first. */
  method Perform(s: ImageStore, op: Op) returns (reply: Reply)
    requires s.Valid()
    modifies s
    ensures s.Valid() && (s.store, reply) == Step(s.parse, old(s.store), op)
  {
    match op {
      case PullImage(name, a) =>
        var pulled := s.PullImage(name, a);
        reply := Pulled(match pulled case Ok(ref) => Some(ref) case Err(_) => None);
      case RemoveImage(name, list, remove) =>
        var status := s.ImageStatus(name, list);
        var removed := s.RemoveImage(name, list, remove);
        reply := Removed(match status case Ok(Some(image)) => Some(image.id) case _ => None, removed.Ok?);
    }
  }

  method Execute(s: ImageStore, ops: seq<Op>) returns (replies: seq<Reply>)
    requires s.Valid() && s.store == []
    modifies s
    ensures s.Valid() && (s.store, replies) == Run(s.parse, ops)
  {
    replies := [];
    for i := 0 to |ops|
      invariant s.Valid() && (s.store, replies) == Run(s.parse, ops[..i])
    {
      RunNext(s.parse, ops, i);
      var reply := Perform(s, ops[i]);
      replies := replies + [reply];
    }
    assert ops[..|ops|] == ops;
  }

  /** After any run of pulls and removals the listing shows the images that, by the replies of the service, were
      pulled and not removed since, once each, and nothing else. */
  method ExecuteThenList(s: ImageStore, ops: seq<Op>, list: B.Answer)
    returns (replies: seq<Reply>, images: seq<Image>)
    requires s.Valid() && s.store == [] && list.refusal.None?
    modifies s
    ensures s.Valid() && (s.store, replies) == Run(s.parse, ops)
    ensures forall i, j :: 0 <= i < j < |images| ==> images[i].id != images[j].id
    ensures forall id :: id in Ledger(replies) <==> exists i :: 0 <= i < |images| && images[i].id == id
  {
    replies := Execute(s, ops);
    var listed := s.ListImages(None, list);
    images := listed.value;
    ImagesAreConserved(s.parse, ops);
    ListedIds(s.parse, s.store, list.unreadable);
    IdsListed(images, B.Ids(s.store));
  }

  lemma IdsListed(images: seq<Image>, ids: seq<string>)
    requires |images| == |ids| && forall i :: 0 <= i < |ids| ==> images[i].id == ids[i]
    ensures forall id :: id in ids <==> exists i :: 0 <= i < |images| && images[i].id == id
  {
    forall id | id in ids ensures exists i :: 0 <= i < |images| && images[i].id == id {
      var i :| 0 <= i < |ids| && ids[i] == id;
      assert images[i].id == id;
    }
  }
}
