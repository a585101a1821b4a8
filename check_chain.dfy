/** A caller asserting several facts one after another through the checks.
    The first check that throws aborts the rest, and its exception is what
    reaches the HTTP layer; when none throws, the last returns `true`. */
module CheckChain {
  import opened Http
  import opened ArticleCheck

  /** Run the calls in order; stop at the first failure. */
  function AssertAll(cs: seq<Call>): (r: Result)
    ensures r.Ok? ==> r.value
    ensures r.Ok? <==> forall i :: 0 <= i < |cs| ==> Apply(cs[i]).Ok?
  {
    if cs == [] then Ok(true)
    else if Apply(cs[0]).Err? then Apply(cs[0])
    else AssertAll(cs[1..])
  }

  /** A failed chain reports the error of its first failing call: every call
      before it passed. */
  lemma {:induction false} FirstFailureReported(cs: seq<Call>) returns (i: nat)
    requires AssertAll(cs).Err?
    ensures i < |cs|
    ensures Apply(cs[i]) == AssertAll(cs)
    ensures forall j :: 0 <= j < i ==> Apply(cs[j]).Ok?
  {
    if Apply(cs[0]).Err? {
      i := 0;
    } else {
      var k := FirstFailureReported(cs[1..]);
      i := k + 1;
    }
  }

  /** Running two chains back to back is one chain: the second runs only
      when the first passed. */
  lemma {:induction false} AssertAllAppend(a: seq<Call>, b: seq<Call>)
    ensures AssertAll(a + b) == if AssertAll(a).Err? then AssertAll(a) else AssertAll(b)
  {
    if a == [] {
      assert a + b == b;
    } else {
      assert (a + b)[0] == a[0];
      assert (a + b)[1..] == a[1..] + b;
      if Apply(a[0]).Ok? {
        AssertAllAppend(a[1..], b);
      }
    }
  }

  /** The checks keep no state, so asserting the same facts again changes
      nothing: running a chain twice gives the outcome of running it once. */
  lemma AssertAllTwice(cs: seq<Call>)
    ensures AssertAll(cs + cs) == AssertAll(cs)
  {
    AssertAllAppend(cs, cs);
  }

  /** A failing chain fails with 403 Forbidden only because of an `isAuthor`
      call; every other failure is 400 Bad Request. */
  lemma ForbiddenOnlyFromAuthor(cs: seq<Call>) returns (i: nat)
    requires AssertAll(cs).Err?
    requires AssertAll(cs).error.status == Forbidden
    ensures i < |cs| && cs[i].Author? && !cs[i].b
  {
    i := FirstFailureReported(cs);
    OnlyAuthorIsForbidden(cs[i]);
  }
}
