/** The image half of rkt: its store, its reading of `rkt image` command lines and their effect. */
module ImageBackend {
  import opened Wrappers
  import opened Text
  import opened Lists
  import opened Flags
  import opened ImageNames
  import Rkt

  /** The user is empty when the manifest describes no app. */
  datatype Manifest = Manifest(originalName: Option<string>, user: string)

  /** A stored image; its manifest may be unreadable. */
  datatype Entry = Entry(id: string, name: string, size: int, manifest: Option<Manifest>)

  type Store = seq<Entry>

  function Ids(store: Store): (ids: seq<string>)
    ensures |ids| == |store| && forall i :: 0 <= i < |store| ==> ids[i] == store[i].id
  {
    seq(|store|, i requires 0 <= i < |store| => store[i].id)
  }

  const ID_PREFIX: string := "sha512-"

  /** rkt names images by the SHA-512 hash of their content, in hexadecimal digits. */
  predicate IsImageId(s: string)
  {
    |s| > 7 && ID_PREFIX <= s && forall i :: 7 <= i < |s| ==> Rkt.IsHex(s[i])
  }

  lemma IdIsHash(s: string)
    requires IsImageId(s)
    ensures IsHash(s) && IsWord(s) && '\n' !in s && s[0] == 's'
  {
    assert s[..7] == ID_PREFIX && "sha512-"[0] == 's' && "sha512-"[1] == 'h';
    assert forall i :: 0 <= i < 7 ==> s[i] == ID_PREFIX[i];
    assert s[0] == 's' && s[1] == 'h' && s[2] == 'a' && s[3] == '5' && s[4] == '1' && s[5] == '2' && s[6] == '-';
  }

  ghost predicate Sound(store: Store)
  {
    Distinct(Ids(store)) && forall i :: 0 <= i < |store| ==> IsImageId(store[i].id)
  }

  /** What rkt decides on its own: whether it refuses, what it fetched, where it lists it, what it prints
      before the image id, and which manifests it cannot show. */
  datatype Answer = Answer(
    refusal: Option<string>, fetched: Entry, position: nat, log: seq<string>, unreadable: set<string>)

  datatype Instruction = ListImages | CatManifest(id: string) | RemoveById(id: string) | Fetch(name: string) | Malformed

  function ReadInstruction(args: seq<string>): Instruction
  {
    var w := Words(args);
    if |w| < 2 || w[0] != "image" then Malformed
    else if |w| == 2 && w[1] == "list" then ListImages
    else if |w| == 3 && w[1] == "cat-manifest" then CatManifest(w[2])
    else if |w| == 3 && w[1] == "rm" then RemoveById(w[2])
    else if |w| == 3 && w[1] == "fetch" then Fetch(w[2])
    else Malformed
  }

  datatype Output = Entries(entries: seq<Entry>) | ManifestOf(manifest: Manifest) | Printed(text: string)

  datatype Outcome = Success(output: Output) | Failure(text: string)

  function UserOf(manifest: Option<Manifest>): string
  {
    match manifest case None => "" case Some(m) => m.user
  }

  /** What a fetch stores: an image fetched by a docker name records that name without the scheme. */
  function Fetched(name: string, e: Entry): Entry
  {
    if DOCKER_PREFIX <= name then e.(manifest := Some(Manifest(Some(TrimDockerPrefix(name)), UserOf(e.manifest))))
    else e
  }

  /** An id is a hash of the content, so an image stored under it has the same manifest. */
  predicate Importable(store: Store, e: Entry)
  {
    && IsImageId(e.id)
    && match IndexOf(Ids(store), e.id) case None => true case Some(i) => store[i].manifest == e.manifest
  }

  /** The image is stored once, wherever rkt lists it. */
  function Import(store: Store, position: nat, e: Entry): Store
  {
    match IndexOf(Ids(store), e.id)
    case None => InsertAt(store, position, e)
    case Some(i) => InsertAt(RemoveAt(store, i), position, e)
  }

  /** The last line of what a fetch prints is the id. */
  function FetchText(log: seq<string>, id: string): string { Join(log + [id], '\n') + "\n" }

  function ExecFetch(store: Store, name: string, a: Answer): (Store, Outcome)
  {
    var e := Fetched(name, a.fetched);
    if a.refusal.Some? then (store, Failure(a.refusal.value))
    else if !Importable(store, e) then (store, Failure("not an image"))
    else (Import(store, a.position, e), Success(Printed(FetchText(a.log, e.id))))
  }

  function ExecRemove(store: Store, id: string, a: Answer): (Store, Outcome)
  {
    if a.refusal.Some? then (store, Failure(a.refusal.value))
    else
      match IndexOf(Ids(store), id)
      case None => (store, Failure("no such image"))
      case Some(i) => (RemoveAt(store, i), Success(Printed(Join(a.log, '\n'))))
  }

  function ExecCatManifest(store: Store, id: string, a: Answer): Outcome
  {
    match IndexOf(Ids(store), id)
    case None => Failure("no such image")
    case Some(i) =>
      if id in a.unreadable then Failure("unreadable manifest")
      else match store[i].manifest case None => Failure("no manifest") case Some(m) => Success(ManifestOf(m))
  }

  function Exec(store: Store, args: seq<string>, a: Answer): (Store, Outcome)
  {
    match ReadInstruction(args)
    case ListImages => (store, if a.refusal.Some? then Failure(a.refusal.value) else Success(Entries(store)))
    case CatManifest(id) => (store, ExecCatManifest(store, id, a))
    case RemoveById(id) => ExecRemove(store, id, a)
    case Fetch(name) => ExecFetch(store, name, a)
    case Malformed => (store, Failure("usage"))
  }

  lemma ImportIsSound(store: Store, position: nat, e: Entry)
    requires Sound(store) && IsImageId(e.id)
    ensures Sound(Import(store, position, e))
    ensures forall id :: id in Ids(Import(store, position, e)) <==> id in Ids(store) || id == e.id
  {
    match IndexOf(Ids(store), e.id)
    case None =>
      InsertIsSound(store, position, e);
    case Some(i) =>
      RemoveIsSound(store, i);
      InsertIsSound(RemoveAt(store, i), position, e);
  }

  lemma InsertIsSound(store: Store, position: nat, e: Entry)
    requires Sound(store) && IsImageId(e.id) && e.id !in Ids(store)
    ensures Sound(InsertAt(store, position, e))
    ensures forall id :: id in Ids(InsertAt(store, position, e)) <==> id in Ids(store) || id == e.id
  {
    assert Ids(InsertAt(store, position, e)) == InsertAt(Ids(store), position, e.id);
    InsertDistinct(Ids(store), position, e.id);
  }

  lemma RemoveIsSound(store: Store, i: nat)
    requires Sound(store) && i < |store|
    ensures Sound(RemoveAt(store, i))
    ensures forall id :: id in Ids(RemoveAt(store, i)) <==> id in Ids(store) && id != store[i].id
  {
    assert Ids(RemoveAt(store, i)) == RemoveAt(Ids(store), i);
    RemoveDistinct(Ids(store), i);
  }
}

/** The image service on values: listing, lookup by name, and what pulling and removing do to them. */
module Images {
  import opened Wrappers
  import opened Text
  import opened Lists
  import opened ImageNames
  import opened ImageBackend

  datatype Image = Image(id: string, repoTags: seq<string>, repoDigests: seq<string>, size: nat, uid: Option<int>,
                         username: string)

  /** Go's conversion of an int64 to a uint64. */
  function Uint64(i: int): nat { i % 0x1_0000_0000_0000_0000 }

  /** The original name with its default tag, as far as there is one. */
  function RealName(parse: Parser, manifest: Manifest, name: string): string
  {
    match manifest.originalName
    case None => name
    case Some(original) =>
      match ApplyDefaultImageTag(parse, original) case Err(_) => original case Ok(tagged) => tagged
  }

  function TagOf(parse: Parser, e: Entry): string
  {
    match e.manifest case None => e.name case Some(m) => RealName(parse, m, e.name)
  }

  function ImageOf(parse: Parser, e: Entry): Image
  {
    var (uid, number) := ParseInt64(UserOf(e.manifest));
    Image(e.id, [TagOf(parse, e)], [e.id], Uint64(e.size), if number then None else Some(uid),
          if number then UserOf(e.manifest) else "")
  }

  /** The text ImageStatus looks for: a hash as it is, a reference with tag or digest as it was written, any other with
      the default tag behind its normalized name. */
  lemma SoughtName(parse: Parser, name: string)
    ensures IsHash(name) ==> Wanted(parse, name) == Ok(name)
    ensures !IsHash(name) ==>
      match parse(name)
      case None => Wanted(parse, name).Err?
      case Some(Reference(normalized, tagged, digested)) =>
        Wanted(parse, name) == Ok(if tagged || digested then name else normalized + ":latest")
  {
  }

  /** A listed image in full: the id is also its digest, the size is the stored one as far as it is a size, and its tag
      is the name it was fetched by, with the default tag where there was none, or what rkt calls it when that is not
      known. */
  lemma ImageInFull(parse: Parser, e: Entry)
    ensures
      var image := ImageOf(parse, e);
      && image.id == e.id && image.repoDigests == [e.id] && |image.repoTags| == 1
      && (0 <= e.size < 0x8000_0000_0000_0000 ==> image.size == e.size)
      && image.repoTags[0] ==
         match e.manifest
         case Some(Manifest(Some(original), _)) =>
           (match parse(original)
            case Some(Reference(name, false, false)) => name + ":latest"
            case _ => original)
         case _ => e.name
  {
  }

  /** An image tells its user: a number as the uid, anything else as the user name. */
  predicate Tells(image: Image, user: string)
  {
    var (uid, number) := ParseInt64(user);
    if number then image.uid == Some(uid) else image.username == user
  }

  /** The test for a number is the wrong way round, so an image tells its user exactly when it has none: a number
      comes as a user name, and a name is lost. */
  lemma UserToldIff(parse: Parser, e: Entry)
    ensures
      var image, user := ImageOf(parse, e), UserOf(e.manifest);
      && (Tells(image, user) <==> user == "")
      && (ParseInt64(user).1 <==> image.uid.None?)
      && (image.username == user <==> user == "" || ParseInt64(user).1)
  {
  }

  /** The store as far as its manifests can be read. */
  function Readable(store: Store, unreadable: set<string>): (r: Store)
    ensures |r| == |store|
    ensures forall i :: 0 <= i < |store| ==>
      r[i] == if store[i].id in unreadable then store[i].(manifest := None) else store[i]
  {
    seq(|store|, i requires 0 <= i < |store| =>
      if store[i].id in unreadable then store[i].(manifest := None) else store[i])
  }

  predicate PassFilter(image: Image, filter: Option<string>)
  {
    filter.None? || filter.value in image.repoTags
  }

  function Listing(parse: Parser, store: Store, filter: Option<string>): seq<Image>
    decreases |store|
  {
    if store == [] then []
    else
      var image := ImageOf(parse, store[|store| - 1]);
      Listing(parse, store[..|store| - 1], filter) + (if PassFilter(image, filter) then [image] else [])
  }

  /** What ImageStatus looks for. */
  function Wanted(parse: Parser, name: string): Result<string>
  {
    if IsHash(name) then Ok(name) else ApplyDefaultImageTag(parse, name)
  }

  predicate Matches(image: Image, wanted: string) { image.id == wanted || wanted in image.repoTags }

  function FirstMatch(images: seq<Image>, wanted: string): Option<Image>
  {
    if images == [] then None
    else if Matches(images[0], wanted) then Some(images[0])
    else FirstMatch(images[1..], wanted)
  }

  function StatusReply(parse: Parser, store: Store, name: string): Result<Option<Image>>
  {
    match Wanted(parse, name)
    case Err(e) => Err(e)
    case Ok(wanted) => Ok(FirstMatch(Listing(parse, store, None), wanted))
  }

  /** The store after a pull and the reference handed out. */
  function Pull(parse: Parser, store: Store, name: string, a: Answer): (Store, Option<string>)
  {
    match GetCanonicalImageName(parse, name)
    case Err(_) => (store, None)
    case Ok(canonical) =>
      var e := Fetched(canonical, a.fetched);
      if a.refusal.Some? || !Importable(store, e) then (store, None) else (Import(store, a.position, e), Some(e.id))
  }

  /** The store after a removal and the id that was removed. */
  function Remove(parse: Parser, store: Store, name: string, list: Answer, remove: Answer): (Store, Option<string>)
  {
    match StatusReply(parse, Readable(store, list.unreadable), name)
    case Err(_) => (store, None)
    case Ok(None) => (store, None)
    case Ok(Some(image)) =>
      match IndexOf(Ids(store), image.id)
      case None => (store, None)
      case Some(i) =>
        if list.refusal.Some? || remove.refusal.Some? then (store, None) else (RemoveAt(store, i), Some(image.id))
  }

  // ----- the listing -----

  lemma {:induction false} ListingAt(parse: Parser, store: Store)
    ensures |Listing(parse, store, None)| == |store|
    ensures forall i :: 0 <= i < |store| ==> Listing(parse, store, None)[i] == ImageOf(parse, store[i])
    decreases |store|
  {
    if store != [] {
      ListingAt(parse, store[..|store| - 1]);
    }
  }

  function Passing(filter: Option<string>): Image -> bool { image => PassFilter(image, filter) }

  /** Listing with a filter is filtering the unfiltered listing. */
  lemma {:induction false} ListingCommutesWithFilter(parse: Parser, store: Store, filter: Option<string>)
    ensures Listing(parse, store, filter) == Filter(Passing(filter), Listing(parse, store, None))
    decreases |store|
  {
    if store != [] {
      var init, all := store[..|store| - 1], Listing(parse, store, None);
      ListingCommutesWithFilter(parse, init, filter);
      assert all[..|all| - 1] == Listing(parse, init, None);
    }
  }

  /** Listing with a filter shows exactly the images that carry the wanted text as their tag. */
  lemma FilteredIff(parse: Parser, store: Store, wanted: string, image: Image)
    ensures image in Listing(parse, store, Some(wanted)) <==>
      image in Listing(parse, store, None) && wanted in image.repoTags
  {
    ListingCommutesWithFilter(parse, store, Some(wanted));
    FilterIsPart(Passing(Some(wanted)), Listing(parse, store, None), image);
  }

  lemma {:induction false} FirstMatchMeaning(images: seq<Image>, wanted: string)
    ensures FirstMatch(images, wanted).None? <==> forall i :: 0 <= i < |images| ==> !Matches(images[i], wanted)
    ensures FirstMatch(images, wanted).Some? ==> exists i :: IsFirstMatch(images, wanted, i)
    ensures forall i :: IsFirstMatch(images, wanted, i) ==> FirstMatch(images, wanted) == Some(images[i])
  {
    if images != [] && !Matches(images[0], wanted) {
      FirstMatchMeaning(images[1..], wanted);
      if FirstMatch(images, wanted).Some? {
        var i :| IsFirstMatch(images[1..], wanted, i);
        assert IsFirstMatch(images, wanted, i + 1);
      }
      forall i | IsFirstMatch(images, wanted, i) ensures FirstMatch(images, wanted) == Some(images[i]) {
        assert IsFirstMatch(images[1..], wanted, i - 1);
      }
    } else if images != [] {
      assert IsFirstMatch(images, wanted, 0);
    }
  }

  ghost predicate IsFirstMatch(images: seq<Image>, wanted: string, i: int)
  {
    0 <= i < |images| && Matches(images[i], wanted) && forall j :: 0 <= j < i ==> !Matches(images[j], wanted)
  }

  predicate Has(parse: Parser, e: Entry, wanted: string) { e.id == wanted || TagOf(parse, e) == wanted }

  /** ImageStatus finds an image exactly when some stored image has the wanted id or tag. */
  lemma StatusFindsIff(parse: Parser, store: Store, name: string)
    requires Wanted(parse, name).Ok?
    ensures StatusReply(parse, store, name).Ok?
    ensures StatusReply(parse, store, name).value.Some?
       <==> exists i :: 0 <= i < |store| && Has(parse, store[i], Wanted(parse, name).value)
  {
    var wanted, images := Wanted(parse, name).value, Listing(parse, store, None);
    ListingAt(parse, store);
    FirstMatchMeaning(images, wanted);
    forall i | 0 <= i < |store| ensures Matches(images[i], wanted) <==> Has(parse, store[i], wanted) {
    }
    if i :| 0 <= i < |images| && Matches(images[i], wanted) {
      assert Has(parse, store[i], wanted);
    }
  }

  // ----- pulling -----

  lemma ImportedIsThere(store: Store, position: nat, e: Entry)
    ensures exists i :: 0 <= i < |Import(store, position, e)| && Import(store, position, e)[i] == e
  {
    var base := match IndexOf(Ids(store), e.id) case None => store case Some(i) => RemoveAt(store, i);
    var i := if position <= |base| then position else |base|;
    assert Import(store, position, e)[i] == e;
  }

  /** What a pull stores carries the tag that ImageStatus looks for. */
  lemma PulledTag(parse: Parser, name: string, e: Entry)
    requires Lawful(parse) && !IsHash(name) && !(DOCKER_PREFIX <= name) && GetCanonicalImageName(parse, name).Ok?
    ensures Wanted(parse, name) == Ok(TagOf(parse, Fetched(GetCanonicalImageName(parse, name).value, e)))
  {
    DefaultTagIdempotent(parse, name);
    TrimOfPrefixed(ApplyDefaultImageTag(parse, name).value);
  }

  /** ImageStatus answers with an image. */
  predicate Finds(parse: Parser, store: Store, name: string, unreadable: set<string>)
  {
    var reply := StatusReply(parse, Readable(store, unreadable), name);
    reply.Ok? && reply.value.Some?
  }

  lemma FoundAt(parse: Parser, store: Store, i: nat, name: string, unreadable: set<string>)
    requires i < |store| && Wanted(parse, name).Ok?
    requires Has(parse, Readable(store, unreadable)[i], Wanted(parse, name).value)
    ensures Finds(parse, store, name, unreadable)
  {
    StatusFindsIff(parse, Readable(store, unreadable), name);
  }

  lemma FoundByName(parse: Parser, store: Store, i: nat, name: string, unreadable: set<string>)
    requires Lawful(parse) && i < |store| && !IsHash(name) && !(DOCKER_PREFIX <= name)
    requires GetCanonicalImageName(parse, name).Ok? && store[i].id !in unreadable
    requires store[i].manifest.Some?
    requires store[i].manifest.value.originalName == Some(TrimDockerPrefix(GetCanonicalImageName(parse, name).value))
    ensures Finds(parse, store, name, unreadable)
  {
    PulledName(parse, name);
    PulledTag(parse, name, store[i]);
    FoundAt(parse, store, i, name, unreadable);
  }

  lemma FoundById(parse: Parser, store: Store, i: nat, unreadable: set<string>)
    requires i < |store| && IsImageId(store[i].id)
    ensures Finds(parse, store, store[i].id, unreadable)
  {
    IdIsHash(store[i].id);
    FoundAt(parse, store, i, store[i].id, unreadable);
  }

  /** What ImageStatus says of a pulled name and its reference: the reference is found; the name, unless
      it is a hash, is rejected if and only if it is written with `docker://`, and is found otherwise as
      long as the manifest can be read. */
  predicate Answers(parse: Parser, store: Store, name: string, ref: string, unreadable: set<string>)
  {
    && Finds(parse, store, ref, unreadable)
    && (!IsHash(name) ==> (StatusReply(parse, Readable(store, unreadable), name).Ok? <==> !(DOCKER_PREFIX <= name)))
    && (!IsHash(name) && !(DOCKER_PREFIX <= name) && ref !in unreadable ==> Finds(parse, store, name, unreadable))
  }

  /** The entry a pull stores. */
  function PulledEntry(parse: Parser, name: string, a: Answer): Entry
    requires GetCanonicalImageName(parse, name).Ok?
  {
    Fetched(GetCanonicalImageName(parse, name).value, a.fetched)
  }

  lemma StoredAnswers(parse: Parser, store: Store, i: nat, name: string, a: Answer, unreadable: set<string>)
    requires Lawful(parse) && GetCanonicalImageName(parse, name).Ok? && i < |store|
    requires store[i].id == PulledEntry(parse, name, a).id && store[i].manifest == PulledEntry(parse, name, a).manifest
    requires IsImageId(store[i].id)
    ensures Answers(parse, store, name, store[i].id, unreadable)
  {
    FoundById(parse, store, i, unreadable);
    if !IsHash(name) {
      RejectedIff(parse, Readable(store, unreadable), name);
      if !(DOCKER_PREFIX <= name) && store[i].id !in unreadable {
        PulledName(parse, name);
        FoundByName(parse, store, i, name, unreadable);
      }
    }
  }

  lemma RejectedIff(parse: Parser, store: Store, name: string)
    requires Lawful(parse) && GetCanonicalImageName(parse, name).Ok? && !IsHash(name)
    ensures StatusReply(parse, store, name).Ok? <==> !(DOCKER_PREFIX <= name)
  {
    if !(DOCKER_PREFIX <= name) { PulledName(parse, name); }
  }

  lemma PulledName(parse: Parser, name: string)
    requires Lawful(parse) && GetCanonicalImageName(parse, name).Ok? && !IsHash(name) && !(DOCKER_PREFIX <= name)
    ensures DOCKER_PREFIX <= GetCanonicalImageName(parse, name).value && Wanted(parse, name).Ok?
  {
    DefaultTagIdempotent(parse, name);
  }

  lemma PulledIsFound(parse: Parser, store: Store, name: string, a: Answer, unreadable: set<string>)
    requires Lawful(parse) && Pull(parse, store, name, a).1.Some?
    ensures
      var (after, ref) := Pull(parse, store, name, a);
      Answers(parse, after, name, ref.value, unreadable)
  {
    var after, e := Pull(parse, store, name, a).0, PulledEntry(parse, name, a);
    ImportedIsThere(store, a.position, e);
    var i :| 0 <= i < |after| && after[i] == e;
    StoredAnswers(parse, after, i, name, a, unreadable);
  }

  // ----- removing -----

  lemma {:induction false} FirstMatchWithout(images: seq<Image>, wanted: string, i: nat)
    requires IsFirstMatch(images, wanted, i)
    ensures FirstMatch(RemoveAt(images, i), wanted) == FirstMatch(images[i + 1..], wanted)
  {
    if i == 0 {
      assert RemoveAt(images, 0) == images[1..];
    } else {
      assert RemoveAt(images, i)[1..] == RemoveAt(images[1..], i - 1);
      assert images[1..][i..] == images[i + 1..];
      FirstMatchWithout(images[1..], wanted, i - 1);
    }
  }

  lemma ListedEntry(parse: Parser, store: Store, i: nat)
    requires i < |store|
    ensures |Listing(parse, store, None)| == |store| && Listing(parse, store, None)[i] == ImageOf(parse, store[i])
  {
    ListingAt(parse, store);
  }

  lemma ListingWithoutAt(parse: Parser, store: Store, i: nat, k: nat)
    requires i < |store| && k < |store| - 1
    ensures
      var images, rest := Listing(parse, store, None), Listing(parse, RemoveAt(store, i), None);
      |images| == |store| && |rest| == |store| - 1 && rest[k] == RemoveAt(images, i)[k]
  {
    var j := if k < i then k else k + 1;
    ElementRemoved(store, i, j);
    ListedEntry(parse, store, j);
    ListedEntry(parse, RemoveAt(store, i), k);
    ElementRemoved(Listing(parse, store, None), i, j);
  }

  lemma ListingWithout(parse: Parser, store: Store, i: nat)
    requires i < |store|
    ensures |Listing(parse, store, None)| == |store|
    ensures Listing(parse, RemoveAt(store, i), None) == RemoveAt(Listing(parse, store, None), i)
  {
    var images, rest := Listing(parse, store, None), Listing(parse, RemoveAt(store, i), None);
    ListedEntry(parse, store, i);
    if |store| == 1 {
      assert RemoveAt(store, i) == [];
    } else {
      ListingWithoutAt(parse, store, i, 0);
    }
    forall k | 0 <= k < |store| - 1 ensures rest[k] == RemoveAt(images, i)[k] {
      ListingWithoutAt(parse, store, i, k);
    }
  }

  lemma ReadableWithout(store: Store, i: nat, unreadable: set<string>)
    requires i < |store|
    ensures Readable(RemoveAt(store, i), unreadable) == RemoveAt(Readable(store, unreadable), i)
  {
    ElementsRemoved(store, i);
  }

  /** Which entry a removal takes. */
  lemma RemovedEntry(parse: Parser, store: Store, name: string, list: Answer, remove: Answer) returns (i: nat)
    requires Sound(store) && Remove(parse, store, name, list, remove).1.Some?
    ensures i < |store| && Remove(parse, store, name, list, remove) == (RemoveAt(store, i), Some(store[i].id))
    ensures
      var images := Listing(parse, Readable(store, list.unreadable), None);
      && Wanted(parse, name).Ok? && IsFirstMatch(images, Wanted(parse, name).value, i)
      && |images| == |store| && images[i].id == store[i].id
  {
    var images, wanted := Listing(parse, Readable(store, list.unreadable), None), Wanted(parse, name).value;
    ListingAt(parse, Readable(store, list.unreadable));
    FirstMatchMeaning(images, wanted);
    var k: int :| IsFirstMatch(images, wanted, k);
    i := k;
    IndexOfDistinct(Ids(store), i);
  }

  /** RemoveImage removes exactly the image that ImageStatus returns, the first match in the listing;
      everything else is listed as before, and ImageStatus then returns the next match. */
  lemma RemoveTakesFirstMatch(parse: Parser, store: Store, name: string, list: Answer, remove: Answer)
    returns (i: nat)
    requires Sound(store) && Remove(parse, store, name, list, remove).1.Some?
    ensures Wanted(parse, name).Ok?
    ensures
      var (after, id) := Remove(parse, store, name, list, remove);
      var seen, images := Readable(store, list.unreadable), Listing(parse, Readable(store, list.unreadable), None);
      var wanted := Wanted(parse, name).value;
      && IsFirstMatch(images, wanted, i) && StatusReply(parse, seen, name) == Ok(Some(images[i]))
      && images[i].id == id.value
      && Listing(parse, Readable(after, list.unreadable), None) == RemoveAt(images, i)
      && StatusReply(parse, Readable(after, list.unreadable), name) == Ok(FirstMatch(images[i + 1..], wanted))
  {
    i := RemovedEntry(parse, store, name, list, remove);
    var images, wanted := Listing(parse, Readable(store, list.unreadable), None), Wanted(parse, name).value;
    FirstMatchMeaning(images, wanted);
    ReadableWithout(store, i, list.unreadable);
    ListingWithout(parse, Readable(store, list.unreadable), i);
    FirstMatchWithout(images, wanted, i);
  }

  // ----- runs -----

  datatype Op =
    | PullImage(name: string, a: Answer)
    | RemoveImage(name: string, list: Answer, remove: Answer)

  /** What the caller learns. A caller who removes an image asks for its status first, and so knows which one goes. */
  datatype Reply = Pulled(ref: Option<string>) | Removed(asked: Option<string>, ok: bool)

  /** The id of the image that ImageStatus returns. */
  function Asked(parse: Parser, store: Store, name: string, list: Answer): Option<string>
  {
    if list.refusal.Some? then None
    else
      match StatusReply(parse, Readable(store, list.unreadable), name)
      case Ok(Some(image)) => Some(image.id)
      case _ => None
  }

  function Step(parse: Parser, store: Store, op: Op): (Store, Reply)
  {
    match op
    case PullImage(name, a) => var (after, ref) := Pull(parse, store, name, a); (after, Pulled(ref))
    case RemoveImage(name, list, remove) =>
      var (after, id) := Remove(parse, store, name, list, remove);
      (after, Removed(Asked(parse, store, name, list), id.Some?))
  }

  function Run(parse: Parser, ops: seq<Op>): (r: (Store, seq<Reply>))
    ensures |r.1| == |ops|
    decreases |ops|
  {
    if ops == [] then ([], [])
    else
      var (store, replies) := Run(parse, ops[..|ops| - 1]);
      var (store', reply) := Step(parse, store, ops[|ops| - 1]);
      (store', replies + [reply])
  }

  lemma RunNext(parse: Parser, ops: seq<Op>, i: nat)
    requires i < |ops|
    ensures
      var (store, replies) := Run(parse, ops[..i]);
      var (store', reply) := Step(parse, store, ops[i]);
      Run(parse, ops[..i + 1]) == (store', replies + [reply])
  {
    assert ops[..i + 1][..i] == ops[..i];
  }

  function LedgerStep(held: set<string>, reply: Reply): set<string>
  {
    match reply
    case Pulled(Some(id)) => held + {id}
    case Removed(Some(id), true) => held - {id}
    case _ => held
  }

  /** Pulled and not removed since, by the replies alone. */
  function Ledger(replies: seq<Reply>): set<string>
    decreases |replies|
  {
    if replies == [] then {} else LedgerStep(Ledger(replies[..|replies| - 1]), replies[|replies| - 1])
  }

  lemma StepIsSound(parse: Parser, store: Store, op: Op)
    requires Sound(store)
    ensures
      var (after, reply) := Step(parse, store, op);
      Sound(after) && forall held :: (forall id :: id in Ids(store) <==> id in held) ==>
        forall id :: id in Ids(after) <==> id in LedgerStep(held, reply)
  {
    match op
    case PullImage(name, a) =>
      if Pull(parse, store, name, a).1.Some? {
        ImportIsSound(store, a.position, Fetched(GetCanonicalImageName(parse, name).value, a.fetched));
      }
    case RemoveImage(name, list, remove) =>
      var id := Remove(parse, store, name, list, remove).1;
      if id.Some? {
        RemoveIsSound(store, IndexOf(Ids(store), id.value).value);
      }
  }

  /** After any run from an empty store, it holds every image that was pulled and not removed since, once
      each, and nothing else. */
  lemma {:induction false} ImagesAreConserved(parse: Parser, ops: seq<Op>)
    ensures
      var (store, replies) := Run(parse, ops);
      && Sound(store)
      && (forall id :: id in Ids(store) <==> id in Ledger(replies))
    decreases |ops|
  {
    var (store, replies) := Run(parse, ops);
    if ops != [] {
      var n := |ops| - 1;
      ImagesAreConserved(parse, ops[..n]);
      var (before, earlier) := Run(parse, ops[..n]);
      assert replies[..n] == earlier;
      StepIsSound(parse, before, ops[n]);
    }
  }

  /** The listing shows what is stored, in order, whatever manifests can be read. */
  lemma ListedIds(parse: Parser, store: Store, unreadable: set<string>)
    ensures
      var images := Listing(parse, Readable(store, unreadable), None);
      |images| == |store| && forall i :: 0 <= i < |store| ==> images[i].id == Ids(store)[i]
  {
    ListingAt(parse, Readable(store, unreadable));
  }

  /** An image is stored under an id with a given manifest. */
  ghost predicate Holds(store: Store, id: string, m: Option<Manifest>)
  {
    exists i :: 0 <= i < |store| && store[i].id == id && store[i].manifest == m
  }

  lemma ImportKeeps(store: Store, position: nat, e: Entry, id: string, m: Option<Manifest>)
    requires Sound(store) && Importable(store, e) && Holds(store, id, m)
    ensures Holds(Import(store, position, e), id, m)
  {
    var k :| 0 <= k < |store| && store[k].id == id && store[k].manifest == m;
    IndexOfDistinct(Ids(store), k);
    match IndexOf(Ids(store), e.id)
    case None =>
      InsertKeeps(store, position, e, k);
    case Some(i) =>
      var base := RemoveAt(store, i);
      if i == k {
        ImportedIsThere(store, position, e);
      } else {
        assert base[if k < i then k else k - 1] == store[k];
        InsertKeeps(base, position, e, if k < i then k else k - 1);
      }
  }

  lemma InsertKeeps(store: Store, position: nat, e: Entry, k: nat)
    requires k < |store|
    ensures exists i :: 0 <= i < |InsertAt(store, position, e)| && InsertAt(store, position, e)[i] == store[k]
  {
    var i := if position <= |store| then position else |store|;
    assert InsertAt(store, position, e)[if k < i then k else k + 1] == store[k];
  }

  lemma RemoveKeeps(store: Store, i: nat, id: string, m: Option<Manifest>)
    requires i < |store| && store[i].id != id && Holds(store, id, m)
    ensures Holds(RemoveAt(store, i), id, m)
  {
    var k :| 0 <= k < |store| && store[k].id == id && store[k].manifest == m;
    assert RemoveAt(store, i)[if k < i then k else k - 1] == store[k];
  }

  lemma StepKeeps(parse: Parser, store: Store, op: Op, id: string, m: Option<Manifest>)
    requires Sound(store) && Holds(store, id, m)
    requires Step(parse, store, op).1 != Removed(Some(id), true)
    ensures Holds(Step(parse, store, op).0, id, m)
  {
    match op
    case PullImage(name, a) =>
      if Pull(parse, store, name, a).1.Some? {
        ImportKeeps(store, a.position, Fetched(GetCanonicalImageName(parse, name).value, a.fetched), id, m);
      }
    case RemoveImage(name, list, remove) =>
      if Remove(parse, store, name, list, remove).1.Some? {
        var i := RemovedEntry(parse, store, name, list, remove);
        RemoveKeeps(store, i, id, m);
      }
  }

  /** Call `k` pulled an image, and no later call removed it. */
  predicate PulledAndKept(replies: seq<Reply>, k: nat)
  {
    && k < |replies| && replies[k].Pulled? && replies[k].ref.Some?
    && forall j :: k < j < |replies| ==> replies[j] != Removed(replies[k].ref, true)
  }

  /** The image of call `k` is in the store. */
  ghost predicate Kept(parse: Parser, store: Store, op: Op, reply: Reply)
  {
    && op.PullImage? && reply.Pulled? && reply.ref.Some? && GetCanonicalImageName(parse, op.name).Ok?
    && var e := PulledEntry(parse, op.name, op.a);
       e.id == reply.ref.value && IsImageId(e.id) && Holds(store, e.id, e.manifest)
  }

  lemma PullKept(parse: Parser, store: Store, op: Op)
    requires Step(parse, store, op).1.Pulled? && Step(parse, store, op).1.ref.Some?
    ensures Kept(parse, Step(parse, store, op).0, op, Step(parse, store, op).1)
  {
    ImportedIsThere(store, op.a.position, PulledEntry(parse, op.name, op.a));
  }

  lemma KeptStep(parse: Parser, store: Store, next: Op, op: Op, reply: Reply)
    requires Sound(store) && Kept(parse, store, op, reply) && Step(parse, store, next).1 != Removed(reply.ref, true)
    ensures Kept(parse, Step(parse, store, next).0, op, reply)
  {
    var e := PulledEntry(parse, op.name, op.a);
    StepKeeps(parse, store, next, e.id, e.manifest);
  }

  lemma KeptBefore(replies: seq<Reply>, last: Reply, k: nat)
    requires PulledAndKept(replies + [last], k) && k < |replies|
    ensures PulledAndKept(replies, k) && last != Removed(replies[k].ref, true)
  {
    var all := replies + [last];
    assert all[|replies|] == last;
    forall j | k < j < |replies| ensures replies[j] != Removed(replies[k].ref, true) {
      assert all[j] == replies[j];
    }
  }

  lemma {:induction false} PulledStays(parse: Parser, ops: seq<Op>, k: nat)
    requires PulledAndKept(Run(parse, ops).1, k)
    ensures Kept(parse, Run(parse, ops).0, ops[k], Run(parse, ops).1[k])
    decreases |ops|
  {
    var n := |ops| - 1;
    RunNext(parse, ops, n);
    assert ops[..n + 1] == ops;
    var (before, earlier) := Run(parse, ops[..n]);
    if k == n {
      PullKept(parse, before, ops[n]);
    } else {
      KeptBefore(earlier, Step(parse, before, ops[n]).1, k);
      PulledStays(parse, ops[..n], k);
      ImagesAreConserved(parse, ops[..n]);
      KeptStep(parse, before, ops[n], ops[k], earlier[k]);
    }
  }

  /** Whatever is pulled or removed besides, a pulled image stays known, by its reference and under its
      name, until it is itself removed. */
  lemma {:induction false} PulledStaysFound(parse: Parser, ops: seq<Op>, k: nat, unreadable: set<string>)
    requires Lawful(parse) && PulledAndKept(Run(parse, ops).1, k)
    ensures
      var (store, replies) := Run(parse, ops);
      ops[k].PullImage? && Answers(parse, store, ops[k].name, replies[k].ref.value, unreadable)
  {
    PulledStays(parse, ops, k);
    var store, e := Run(parse, ops).0, PulledEntry(parse, ops[k].name, ops[k].a);
    var i :| 0 <= i < |store| && store[i].id == e.id && store[i].manifest == e.manifest;
    StoredAnswers(parse, store, i, ops[k].name, ops[k].a, unreadable);
  }
}
