/** Image names. The Docker reference parser is a library and enters as a function with stated laws. */
module ImageNames {
  import opened Wrappers
  import opened Flags

  const DOCKER_PREFIX: string := "docker://"
  const DEFAULT_TAG: string := ":latest"

  /** A parsed reference: its normalized name, and whether the text carried a tag or a digest. */
  datatype Reference = Reference(name: string, tagged: bool, digested: bool)

  type Parser = string -> Option<Reference>

  function WithDefaultTag(r: Reference): string { r.name + DEFAULT_TAG }

  /** The laws of the reference parser: it rejects names with a URL scheme; a normalized name with the
      default tag is a tagged reference; and normalizing does not turn a name into a hash. */
  ghost predicate Lawful(parse: Parser)
  {
    && (forall s :: parse(s).Some? ==> !(DOCKER_PREFIX <= s))
    && (forall s :: parse(s).Some? ==>
          parse(WithDefaultTag(parse(s).value)).Some? && parse(WithDefaultTag(parse(s).value)).value.tagged)
    && (forall s :: parse(s).Some? && !IsHash(s) ==> !IsHash(WithDefaultTag(parse(s).value)))
  }

  predicate HashAfter(prefix: string, s: string) { prefix <= s && '\n' !in s[|prefix|..] }

  /** `^(sha1|sha2|sha256|sha512)-.*$` */
  predicate IsHash(s: string)
  {
    HashAfter("sha1-", s) || HashAfter("sha2-", s) || HashAfter("sha256-", s) || HashAfter("sha512-", s)
  }

  function ApplyDefaultImageTag(parse: Parser, image: string): Result<string>
  {
    match parse(image)
    case None => Err("couldn't parse image reference")
    case Some(r) => if !r.tagged && !r.digested then Ok(WithDefaultTag(r)) else Ok(image)
  }

  function TrimDockerPrefix(s: string): string
  {
    if DOCKER_PREFIX <= s then s[|DOCKER_PREFIX|..] else s
  }

  function GetCanonicalImageName(parse: Parser, imageName: string): Result<string>
  {
    var imgName := TrimDockerPrefix(imageName);
    if IsHash(imgName) then Ok(imgName)
    else
      match ApplyDefaultImageTag(parse, imgName)
      case Err(e) => Err(e)
      case Ok(canonical) => Ok(if DOCKER_PREFIX <= canonical then canonical else DOCKER_PREFIX + canonical)
  }

  /** Whatever the parser does, the canonical name is an operand, not a flag, and no pod is called that. */
  lemma CanonicalIsOperand(parse: Parser, image: string)
    requires GetCanonicalImageName(parse, image).Ok?
    ensures
      var name := GetCanonicalImageName(parse, image).value;
      && IsWord(name) && |name| >= 5
      && (name[0] == 's' || (name[0] == 'd' && name[1] == 'o'))
  {
    var name := GetCanonicalImageName(parse, image).value;
    if DOCKER_PREFIX <= name {
      assert name[0] == DOCKER_PREFIX[0] && name[1] == DOCKER_PREFIX[1];
    } else {
      assert IsHash(name);
      assert name[..5] == "sha1-" || name[..5] == "sha2-" || name[..5] == "sha25" || name[..5] == "sha51";
      assert name[0] == name[..5][0] && name[1] == name[..5][1];
    }
  }

  /** Applying the default tag twice is applying it once. */
  lemma DefaultTagIdempotent(parse: Parser, image: string)
    requires Lawful(parse) && ApplyDefaultImageTag(parse, image).Ok?
    ensures
      var t := ApplyDefaultImageTag(parse, image).value;
      && ApplyDefaultImageTag(parse, t) == Ok(t)
      && !(DOCKER_PREFIX <= t)
      && (!IsHash(image) ==> !IsHash(t))
  {
  }

  lemma TrimOfPrefixed(s: string)
    ensures TrimDockerPrefix(DOCKER_PREFIX + s) == s
  {
  }

  /** Canonicalization is idempotent. */
  lemma CanonicalIdempotent(parse: Parser, image: string)
    requires Lawful(parse) && GetCanonicalImageName(parse, image).Ok?
    ensures
      var name := GetCanonicalImageName(parse, image).value;
      GetCanonicalImageName(parse, name) == Ok(name)
  {
    var short := TrimDockerPrefix(image);
    if IsHash(short) {
      HashHasNoPrefix(short);
    } else {
      DefaultTagIdempotent(parse, short);
      TrimOfPrefixed(ApplyDefaultImageTag(parse, short).value);
    }
  }

  lemma HashHasNoPrefix(s: string)
    requires IsHash(s)
    ensures !(DOCKER_PREFIX <= s)
  {
    assert s[..4] == "sha1" || s[..4] == "sha2" || s[..4] == "sha5";
    assert s[0] == s[..4][0] == 's';
    assert DOCKER_PREFIX[0] == 'd';
  }

  /** What is fetched for a name: a hash as it is; a reference with tag or digest as it was written; any other reference
      with the default tag behind its normalized name; each reference behind the scheme, whether or not the name was
      written with it. */
  lemma FetchedName(parse: Parser, written: string, image: string)
    requires written == image || written == "docker://" + image
    requires !("docker://" <= image)
    ensures IsHash(image) ==> GetCanonicalImageName(parse, written) == Ok(image)
    ensures !IsHash(image) ==>
      match parse(image)
      case None => GetCanonicalImageName(parse, written).Err?
      case Some(Reference(name, tagged, digested)) =>
        if tagged || digested then GetCanonicalImageName(parse, written) == Ok("docker://" + image)
        else Lawful(parse) ==> GetCanonicalImageName(parse, written) == Ok("docker://" + name + ":latest")
  {
    TrimOfPrefixed(image);
    if !IsHash(image) && parse(image).Some? {
      var r := parse(image).value;
      assert "docker://" + (r.name + ":latest") == "docker://" + r.name + ":latest";
    }
  }

  /** An algorithm's name, a dash, and no line break behind it. */
  ghost predicate HashBy(algorithm: string, s: string)
  {
    exists rest :: s == algorithm + "-" + rest && '\n' !in rest
  }

  lemma HashAfterIff(algorithm: string, s: string)
    ensures HashAfter(algorithm + "-", s) <==> HashBy(algorithm, s)
  {
    var prefix := algorithm + "-";
    if HashAfter(prefix, s) {
      assert s == prefix + s[|prefix|..];
    }
    if rest :| s == algorithm + "-" + rest && '\n' !in rest {
      assert s[|prefix|..] == rest;
    }
  }

  /** What counts as a hash. */
  lemma HashIff(s: string)
    ensures IsHash(s) <==> HashBy("sha1", s) || HashBy("sha2", s) || HashBy("sha256", s) || HashBy("sha512", s)
  {
    assert "sha1-" == "sha1" + "-" && "sha2-" == "sha2" + "-";
    assert "sha256-" == "sha256" + "-" && "sha512-" == "sha512" + "-";
    HashAfterIff("sha1", s);
    HashAfterIff("sha2", s);
    HashAfterIff("sha256", s);
    HashAfterIff("sha512", s);
  }

  lemma HashStartsWithS(s: string)
    ensures IsHash(s) ==> s != "" && s[0] == 's'
  {
    assert "sha1-"[0] == 's' && "sha2-"[0] == 's' && "sha256-"[0] == 's' && "sha512-"[0] == 's';
  }

  function TinyParser(s: string): Option<Reference>
  {
    if s == "a" then Some(Reference("a", false, false))
    else if s == "a" + DEFAULT_TAG then Some(Reference("a", true, false))
    else None
  }

  lemma TinyNames(s: string)
    requires TinyParser(s).Some?
    ensures s == "a" || s == "a" + DEFAULT_TAG
    ensures s != "" && s[0] == 'a' && WithDefaultTag(TinyParser(s).value) == "a" + DEFAULT_TAG
  {
    assert ("a" + DEFAULT_TAG)[0] == 'a';
  }

  lemma TinyIsLawful(s: string)
    requires TinyParser(s).Some?
    ensures
      var t := WithDefaultTag(TinyParser(s).value);
      !(DOCKER_PREFIX <= s) && TinyParser(t).Some? && TinyParser(t).value.tagged && !IsHash(t)
  {
    TinyNames(s);
    var t := "a" + DEFAULT_TAG;
    assert t[0] == 'a' && |t| == 8 && DOCKER_PREFIX[0] == 'd';
    HashStartsWithS(t);
  }

  /** The laws are consistent: a parser that knows one name satisfies them. */
  lemma LawsAreSatisfiable()
    ensures Lawful(TinyParser) && TinyParser("a").Some?
  {
    forall s | TinyParser(s).Some?
      ensures
        var t := WithDefaultTag(TinyParser(s).value);
        !(DOCKER_PREFIX <= s) && TinyParser(t).Some? && TinyParser(t).value.tagged && !IsHash(t)
    {
      TinyIsLawful(s);
    }
  }
}
