/** Recognising the errors of `rkt stop` that are ignored for idempotency. */
module StopErrors {
  import opened Text
  import opened Lists
  import opened Cli

  /** `regexp` `pre"[^"]+"post` at the start of a text; `pre` ends and `post` begins with the quote. */
  predicate StartsQuoted(pre: string, post: string, s: string)
  {
    pre <= s &&
    match SplitFirst(s[|pre|..], '"')
    case None => false
    case Some((inner, after)) => inner != "" && post <= ['"'] + after
  }

  predicate HasQuoted(pre: string, post: string, s: string)
  {
    StartsQuoted(pre, post, s) || (s != "" && HasQuoted(pre, post, s[1..]))
  }

  const STOPPED_PRE: string := "pod \""
  const STOPPED_POST: string := "\" is already stopped"
  const MISSING_PRE: string := "stop: cannot get pod: no matches found for \""
  const MISSING_POST: string := "\""

  predicate RktStopIsAlreadyStoppedError(err: string) { HasQuoted(STOPPED_PRE, STOPPED_POST, err) }

  predicate RktStopIsNotExistError(err: string) { HasQuoted(MISSING_PRE, MISSING_POST, err) }

  /** A stop error that is ignored for idempotency. */
  predicate Tolerated(err: string) { RktStopIsAlreadyStoppedError(err) || RktStopIsNotExistError(err) }

  function Quoted(pre: string, inner: string, post: string): string { pre + inner + post }

  /** The matcher finds exactly the texts in which the pattern occurs. */
  lemma HasQuotedIff(pre: string, post: string, s: string)
    requires post != "" && post[0] == '"'
    ensures HasQuoted(pre, post, s) <==>
      exists a, inner, b :: inner != "" && '"' !in inner && s == a + Quoted(pre, inner, post) + b
  {
    if HasQuoted(pre, post, s) {
      var a, inner, b := FindQuoted(pre, post, s);
    }
    if a, inner, b :| inner != "" && '"' !in inner && s == a + Quoted(pre, inner, post) + b {
      QuotedIsFound(pre, post, a, inner, b);
    }
  }

  lemma StartQuoted(pre: string, post: string, s: string) returns (inner: string, b: string)
    requires post != "" && post[0] == '"' && StartsQuoted(pre, post, s)
    ensures inner != "" && '"' !in inner && s == Quoted(pre, inner, post) + b
  {
    var t := s[|pre|..];
    var r := SplitFirst(t, '"').value;
    inner := r.0;
    var q := ['"'] + r.1;
    b := q[|post|..];
    assert s == pre + t;
    assert t == inner + q;
    assert q == post + b;
    Reassociate("", pre, inner, post, b);
    assert pre + (inner + (post + b)) == pre + inner + post + b;
  }

  lemma {:induction false} FindQuoted(pre: string, post: string, s: string)
    returns (a: string, inner: string, b: string)
    requires post != "" && post[0] == '"' && HasQuoted(pre, post, s)
    ensures inner != "" && '"' !in inner && s == a + Quoted(pre, inner, post) + b
  {
    if StartsQuoted(pre, post, s) {
      inner, b := StartQuoted(pre, post, s);
      a := "";
      assert s == "" + Quoted(pre, inner, post) + b;
    } else {
      var a';
      a', inner, b := FindQuoted(pre, post, s[1..]);
      a := [s[0]] + a';
      PrependChar(s, a', Quoted(pre, inner, post), b);
    }
  }

  lemma PrependChar(s: string, a: string, m: string, b: string)
    requires s != "" && s[1..] == a + m + b
    ensures s == [s[0]] + a + m + b
  {
    assert s == [s[0]] + s[1..];
  }

  lemma QuotedAtStart(pre: string, post: string, inner: string, b: string)
    requires post != "" && post[0] == '"' && inner != "" && '"' !in inner
    ensures StartsQuoted(pre, post, Quoted(pre, inner, post) + b)
  {
    var s, tail := Quoted(pre, inner, post) + b, post[1..] + b;
    assert ['"'] + tail == post + b;
    Reassociate("", pre, inner, post, b);
    assert pre + (inner + (post + b)) == s;
    assert inner + ['"'] + tail == inner + (post + b);
    assert s[|pre|..] == inner + ['"'] + tail;
    SplitFirstOfJoin(inner, '"', tail);
  }

  lemma {:induction false} QuotedIsFound(pre: string, post: string, a: string, inner: string, b: string)
    requires post != "" && post[0] == '"'
    requires inner != "" && '"' !in inner
    ensures HasQuoted(pre, post, a + Quoted(pre, inner, post) + b)
  {
    var s := a + Quoted(pre, inner, post) + b;
    if a == "" {
      assert s == Quoted(pre, inner, post) + b;
      QuotedAtStart(pre, post, inner, b);
    } else {
      QuotedIsFound(pre, post, a[1..], inner, b);
      assert s[1..] == a[1..] + Quoted(pre, inner, post) + b;
    }
  }

  /** Whatever surrounds a message, it is still recognised. */
  lemma WrappedIsFound(pre: string, post: string, x: string, s: string, y: string)
    requires post != "" && post[0] == '"' && HasQuoted(pre, post, s)
    ensures HasQuoted(pre, post, x + s + y)
  {
    var a, inner, b := FindQuoted(pre, post, s);
    assert x + s + y == (x + a) + Quoted(pre, inner, post) + (b + y);
    QuotedIsFound(pre, post, x + a, inner, b + y);
  }

  // ----- recognition does not depend on the wrapping -----

  /** The pattern opens with a text whose only quote is its last character and that never has `t: `
      before its end, so it cannot begin inside a wrapper ending in `output: `. */
  predicate OpensApart(pre: string)
  {
    && |pre| >= 3 && pre[|pre| - 1] == '"'
    && pre[0] != ' ' && pre[0] != ':'
    && forall k :: 2 <= k < |pre| - 1 ==> !(pre[k - 2] == 't' && pre[k - 1] == ':' && pre[k] == ' ')
  }

  lemma StoppedOpensApart()
    ensures OpensApart(STOPPED_PRE)
  {
  }

  lemma MissingOpensApart()
    ensures OpensApart(MISSING_PRE)
  {
  }

  lemma NoMatchInWrapper(pre: string, post: string, x: string, s: string)
    requires OpensApart(pre) && '"' !in x
    requires |x| >= 3 ==> x[|x| - 3..] == "t: "
    requires |x| == 2 ==> x == ": "
    requires |x| == 1 ==> x == " "
    requires x != ""
    ensures !StartsQuoted(pre, post, x + s)
  {
    var t := x + s;
    if |x| >= 3 {
      assert x[|x| - 3..][0] == x[|x| - 3] && x[|x| - 3..][1] == x[|x| - 2] && x[|x| - 3..][2] == x[|x| - 1];
    }
    if pre <= t {
      assert forall k :: 0 <= k < |pre| ==> pre[k] == t[k];
      assert forall k :: 0 <= k < |x| && k < |pre| ==> pre[k] == x[k];
    }
  }

  /** A pattern occurs in a wrapped output exactly when it occurs in the output itself, for a wrapper
      without quotes that ends in `t: `. */
  lemma {:induction false} SeesThrough(pre: string, post: string, x: string, s: string)
    requires OpensApart(pre) && post != "" && post[0] == '"' && '"' !in x
    requires |x| >= 3 ==> x[|x| - 3..] == "t: "
    requires |x| == 2 ==> x == ": "
    requires |x| == 1 ==> x == " "
    ensures HasQuoted(pre, post, x + s) <==> HasQuoted(pre, post, s)
    decreases |x|
  {
    if x == "" {
      assert x + s == s;
    } else {
      NoMatchInWrapper(pre, post, x, s);
      assert (x + s)[1..] == x[1..] + s;
      if |x| > 3 { assert x[1..][|x| - 4..] == x[|x| - 3..]; }
      if |x| == 3 { assert x == "t: " && x[1..] == ": "; }
      if |x| == 2 { assert x[1..] == " "; }
      SeesThrough(pre, post, x[1..], s);
    }
  }

  /** The stop errors RunCommand reports are tolerated exactly when rkt's own output says so, as long as
      neither the arguments nor the exit status contain a quote. */
  lemma ToleratedThroughWrapping(subCmd: string, args: seq<string>, err: string, output: string)
    requires '"' !in subCmd && '"' !in Bracketed(args) && '"' !in err
    ensures Tolerated(RunError(subCmd, args, err, output)) <==> Tolerated(output)
  {
    var x := "failed to run " + subCmd + " " + Bracketed(args) + ": " + err + "\noutput: ";
    assert x[|x| - 3..] == "t: ";
    WrapperHasNoQuote(subCmd, args, err);
    StoppedOpensApart();
    MissingOpensApart();
    SeesThrough(STOPPED_PRE, STOPPED_POST, x, output);
    SeesThrough(MISSING_PRE, MISSING_POST, x, output);
  }

  lemma WrapperHasNoQuote(subCmd: string, args: seq<string>, err: string)
    requires '"' !in subCmd && '"' !in Bracketed(args) && '"' !in err
    ensures '"' !in "failed to run " + subCmd + " " + Bracketed(args) + ": " + err + "\noutput: "
  {
    assert '"' !in "failed to run ";
    assert '"' !in "\noutput: ";
  }

  /** In any case a recognised output stays recognised, whatever command it came from. */
  lemma RecognisedThroughWrapping(subCmd: string, args: seq<string>, err: string, output: string)
    ensures RktStopIsAlreadyStoppedError(output) ==> RktStopIsAlreadyStoppedError(RunError(subCmd, args, err, output))
    ensures RktStopIsNotExistError(output) ==> RktStopIsNotExistError(RunError(subCmd, args, err, output))
  {
    var x := "failed to run " + subCmd + " " + Bracketed(args) + ": " + err + "\noutput: ";
    assert RunError(subCmd, args, err, output) == x + output + "";
    if RktStopIsAlreadyStoppedError(output) { WrappedIsFound(STOPPED_PRE, STOPPED_POST, x, output, ""); }
    if RktStopIsNotExistError(output) { WrappedIsFound(MISSING_PRE, MISSING_POST, x, output, ""); }
  }
}
