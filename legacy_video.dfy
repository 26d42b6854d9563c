/** analyzeVideo of the older snapshot (app/video_utils.go), whose retry is driven by the HTTP
    status of each response rather than by any error. The server is an oracle from the attempt
    index to what that attempt returned. */
module LegacyVideo {
  import opened Wrappers
  import T = Types

  const MaxRetries := 6
  const BadGateway := 502
  const InternalServerError := 500

  datatype AnalyzedResult = AnalyzedResult(skeletonVideo: string, score: string, suggestions: seq<string>)

  /** A response's status, and its body parsed as an AnalyzedResult (None: not valid JSON). */
  datatype HttpResponse = HttpResponse(status: int, body: Option<AnalyzedResult>)

  /** One Post: a response with no transport error, or a transport error that may still carry
      a response. */
  datatype Attempt = Answered(response: HttpResponse) | Failed(partial: Option<HttpResponse>)

  function ResponseOf(a: Attempt): Option<HttpResponse> {
    if a.Answered? then Some(a.response) else a.partial
  }

  /** The loop's first exit test: no error and a status other than 502. */
  predicate Accepted(a: Attempt) {
    a.Answered? && a.response.status != BadGateway
  }

  /** The second test: a response with status 502 or 500, which sleeps and retries. */
  predicate Retryable(a: Attempt) {
    !Accepted(a) && ResponseOf(a).Some? &&
    (ResponseOf(a).value.status == BadGateway || ResponseOf(a).value.status == InternalServerError)
  }

  /** The attempt the loop ends on, starting from attempt i, and whether it ended by returning
      a transport error directly. */
  function LoopEnd(post: nat -> Attempt, i: nat): (r: (nat, bool))
    requires i < MaxRetries
    ensures i <= r.0 < MaxRetries
    decreases MaxRetries - i
  {
    if Accepted(post(i)) then (i, false)
    else if Retryable(post(i)) then (if i + 1 == MaxRetries then (i, false) else LoopEnd(post, i + 1))
    else (i, true)
  }

  /** What the function returns once the loop has ended on attempt k. */
  function Outcome(post: nat -> Attempt, k: nat, early: bool): Result<AnalyzedResult, string> {
    var a := post(k);
    if early || a.Failed? then Err("transport error")
    else if a.response.status != 200 then Err("unexpected status code from AI server")
    else if a.response.body.None? then Err("invalid JSON body")
    else Ok(a.response.body.value)
  }

  /** After i retryable attempts the loop is where it would be had it started at attempt i. */
  lemma {:induction false} LoopEndSkips(post: nat -> Attempt, i: nat)
    requires i < MaxRetries
    requires forall j :: 0 <= j < i ==> Retryable(post(j))
    ensures LoopEnd(post, 0) == LoopEnd(post, i)
  {
    if i > 0 {
      LoopEndSkips(post, i - 1);
      assert Retryable(post(i - 1)) && !Accepted(post(i - 1));
    }
  }

  /** analyzeVideo: reads the resized file, then up to six Posts; 502 (and 500 with a transport
      error) sleeps and retries, any other transport error returns at once, and the final
      response must be a 200 with a JSON body. `handedness.String()` outside the enum panics. */
  method AnalyzeVideo(resizedVideo: string, localFiles: map<string, seq<bv8>>, handedness: T.Handedness,
                      post: nat -> Attempt)
    returns (panicked: bool, r: Result<AnalyzedResult, string>, attempts: nat, sleeps: nat)
    ensures resizedVideo !in localFiles ==> !panicked && r.Err? && attempts == 0
    ensures resizedVideo in localFiles ==> (panicked <==> T.HandednessString(handedness).None?)
    ensures resizedVideo in localFiles && !panicked ==>
      var (k, early) := LoopEnd(post, 0);
      r == Outcome(post, k, early) && attempts == k + 1 &&
      sleeps == k + (if !early && Retryable(post(k)) then 1 else 0)
  {
    attempts, sleeps := 0, 0;
    if resizedVideo !in localFiles {
      return false, Err("failed to read the resized video"), 0, 0;
    }
    if T.HandednessString(handedness).None? {
      return true, Err("index out of range"), 0, 0;
    }
    panicked := false;
    var i := 0;
    var a := post(0);
    while i < MaxRetries
      invariant 0 <= i <= MaxRetries && attempts == i && sleeps == i
      invariant forall j :: 0 <= j < i ==> Retryable(post(j))
      invariant i > 0 ==> a == post(i - 1)
    {
      a := post(i);
      attempts := attempts + 1;
      if Accepted(a) {
        break;
      } else if Retryable(a) {
        sleeps := sleeps + 1;
      } else {
        LoopEndSkips(post, i);
        return false, Err("transport error"), attempts, sleeps;
      }
      i := i + 1;
    }
    var k := if i == MaxRetries then i - 1 else i;
    LoopEndSkips(post, k);
    if a.Failed? {
      return false, Err("transport error"), attempts, sleeps;
    }
    if a.response.status != 200 {
      return false, Err("unexpected status code from AI server"), attempts, sleeps;
    }
    if a.response.body.None? {
      return false, Err("invalid JSON body"), attempts, sleeps;
    }
    r := Ok(a.response.body.value);
  }

  /** A plain 500 ends the loop at once and is reported as an error: it is never retried. */
  lemma PlainServerErrorNotRetried(post: nat -> Attempt)
    requires post(0).Answered? && post(0).response.status == InternalServerError
    ensures LoopEnd(post, 0) == (0, false)
    ensures Outcome(post, 0, false).Err?
  {
  }

  /** A server that answers 502 every time is tried six times and the result is an error. */
  lemma AlwaysBadGateway(post: nat -> Attempt)
    requires forall i :: post(i).Answered? && post(i).response.status == BadGateway
    ensures LoopEnd(post, 0) == (MaxRetries - 1, false)
    ensures Outcome(post, MaxRetries - 1, false).Err?
  {
    assert forall j :: 0 <= j < MaxRetries - 1 ==> Retryable(post(j));
    LoopEndSkips(post, MaxRetries - 1);
    assert Retryable(post(MaxRetries - 1));
  }

  /** A transport error with no retryable status ends everything on that attempt. */
  lemma TransportErrorReturnsAtOnce(post: nat -> Attempt, i: nat)
    requires i < MaxRetries
    requires forall j :: 0 <= j < i ==> Retryable(post(j))
    requires post(i) == Failed(None)
    ensures LoopEnd(post, 0) == (i, true)
  {
    LoopEndSkips(post, i);
  }
}
