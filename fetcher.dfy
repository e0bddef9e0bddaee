/**
 * `requestWithRetry`: GET a URL until it answers 200 OK, giving up on the first transport
 * error and treating the 20th non-200 answer as fatal. The network is an oracle: the n-th
 * GET the loop makes returns `attempts[n]`.
 */
module Fetcher {

  const MaxTries := 20
  const StatusOK := 200

  /** An HTTP response: its status code and a body of whatever type the caller reads. */
  datatype Response<B> = Response(status: int, body: B)

  /** What one GET returns: a transport error, or a response with some status. */
  datatype Attempt<B> = TransportError(reason: string) | Reply(response: Response<B>)

  /** What `requestWithRetry` ends with; `Fatal` is the `log.Fatalf` exit. */
  datatype FetchResult<B> = Fetched(response: Response<B>) | Failed(reason: string) | Fatal

  /** The result together with the number of GETs made. */
  datatype Fetch<B> = Fetch(result: FetchResult<B>, gets: nat)

  /** An answer that makes the loop try again: a response whose status is not 200. */
  predicate Rejected<B>(a: Attempt<B>) {
    a.Reply? && a.response.status != StatusOK
  }

  /** How an answer that is not `Rejected` ends the loop. */
  function Decide<B>(a: Attempt<B>): FetchResult<B> {
    match a
    case TransportError(reason) => Failed(reason)
    case Reply(response) => Fetched(response)
  }

  /** The oracle answers every GET the loop can make. */
  predicate Answers<B>(attempts: seq<Attempt<B>>) {
    MaxTries <= |attempts|
  }

  /** The loop entered with `tries` non-200 answers behind it. */
  function RetryFrom<B>(attempts: seq<Attempt<B>>, tries: nat): (f: Fetch<B>)
    requires tries <= MaxTries && Answers(attempts)
    ensures tries <= f.gets <= MaxTries
    ensures f.result.Fatal? ==> f.gets == MaxTries
    ensures !f.result.Fatal? ==> tries < f.gets
    ensures f.result.Fetched? ==> f.result.response.status == StatusOK
    ensures !f.result.Fatal? ==> Decide(attempts[f.gets - 1]) == f.result
    decreases MaxTries - tries
  {
    if tries >= MaxTries then Fetch(Fatal, tries)
    else
      match attempts[tries]
      case TransportError(reason) => Fetch(Failed(reason), tries + 1)
      case Reply(response) =>
        if response.status == StatusOK then Fetch(Fetched(response), tries + 1)
        else RetryFrom(attempts, tries + 1)
  }

  /** `requestWithRetry` from its first GET. */
  function Retry<B>(attempts: seq<Attempt<B>>): (f: Fetch<B>)
    requires Answers(attempts)
    ensures 1 <= f.gets <= MaxTries
    ensures f.result.Fatal? ==> f.gets == MaxTries
    ensures f.result.Fetched? ==> f.result.response.status == StatusOK
    ensures !f.result.Fatal? ==> Decide(attempts[f.gets - 1]) == f.result
  {
    RetryFrom(attempts, 0)
  }

  /** The loop of `requestWithRetry` over `tries`, `successful`, `resp` and `err`. */
  method RequestWithRetry<B>(attempts: seq<Attempt<B>>) returns (f: Fetch<B>)
    requires Answers(attempts)
    ensures f == Retry(attempts)
  {
    var successful := false;
    var tries := 0;
    f := Fetch(Fatal, tries);
    while !successful
      invariant !successful && tries <= MaxTries
      invariant RetryFrom(attempts, tries) == Retry(attempts)
      decreases MaxTries - tries
    {
      if tries >= MaxTries {
        return Fetch(Fatal, tries);
      }
      var answer := attempts[tries];
      if answer.TransportError? {
        f := Fetch(Failed(answer.reason), tries + 1);
        break;
      }
      if answer.response.status == StatusOK {
        successful := true;
        f := Fetch(Fetched(answer.response), tries + 1);
        break;
      }
      tries := tries + 1;
    }
  }

  /**
   * The first answer that is not a non-200 response decides the fetch: after k non-200
   * answers (k < 20), GET k + 1 is the last one made, and its answer is returned.
   */
  lemma {:induction false} DecidedFrom<B>(attempts: seq<Attempt<B>>, tries: nat, k: nat)
    requires Answers(attempts) && tries <= k < MaxTries
    requires forall i | tries <= i < k :: Rejected(attempts[i])
    requires !Rejected(attempts[k])
    ensures RetryFrom(attempts, tries) == Fetch(Decide(attempts[k]), k + 1)
    decreases k - tries
  {
    if tries < k {
      assert Rejected(attempts[tries]);
      DecidedFrom(attempts, tries + 1, k);
    }
  }

  lemma DecidedAt<B>(attempts: seq<Attempt<B>>, k: nat)
    requires Answers(attempts) && k < MaxTries
    requires forall i | 0 <= i < k :: Rejected(attempts[i])
    requires !Rejected(attempts[k])
    ensures Retry(attempts) == Fetch(Decide(attempts[k]), k + 1)
  {
    DecidedFrom(attempts, 0, k);
  }

  /** The loop takes the fatal exit exactly when every answer from `tries` to the 20th is non-200. */
  lemma {:induction false} FatalFrom<B>(attempts: seq<Attempt<B>>, tries: nat)
    requires Answers(attempts) && tries <= MaxTries
    ensures RetryFrom(attempts, tries).result.Fatal? <==> forall i | tries <= i < MaxTries :: Rejected(attempts[i])
    decreases MaxTries - tries
  {
    if tries < MaxTries {
      FatalFrom(attempts, tries + 1);
    }
  }

  /** k non-200 answers and then a 200: that response, no error, exactly k + 1 GETs. */
  lemma SucceedsAfterRejections<B>(attempts: seq<Attempt<B>>, k: nat)
    requires Answers(attempts) && k < MaxTries
    requires forall i | 0 <= i < k :: Rejected(attempts[i])
    requires attempts[k].Reply? && attempts[k].response.status == StatusOK
    ensures Retry(attempts) == Fetch(Fetched(attempts[k].response), k + 1)
  {
    DecidedAt(attempts, k);
  }

  /** A transport error is returned at once: no GET is made after it. */
  lemma TransportErrorNotRetried<B>(attempts: seq<Attempt<B>>, k: nat)
    requires Answers(attempts) && k < MaxTries
    requires forall i | 0 <= i < k :: Rejected(attempts[i])
    requires attempts[k].TransportError?
    ensures Retry(attempts) == Fetch(Failed(attempts[k].reason), k + 1)
  {
    DecidedAt(attempts, k);
  }

  /** Twenty non-200 answers: exactly twenty GETs, then the fatal exit; never a 21st GET. */
  lemma AllRejectedIsFatal<B>(attempts: seq<Attempt<B>>)
    requires Answers(attempts)
    requires forall i | 0 <= i < MaxTries :: Rejected(attempts[i])
    ensures Retry(attempts) == Fetch(Fatal, MaxTries)
  {
    FatalFrom(attempts, 0);
  }

  /** Conversely, the fatal exit is only taken after twenty non-200 answers. */
  lemma FatalOnlyAfterTwentyRejections<B>(attempts: seq<Attempt<B>>)
    requires Answers(attempts) && Retry(attempts).result.Fatal?
    ensures forall i | 0 <= i < MaxTries :: Rejected(attempts[i])
  {
    FatalFrom(attempts, 0);
  }

  /**
   * Only the answers to GETs actually made matter: two oracles that agree on them give the
   * same fetch, so nothing is requested after the deciding answer.
   */
  lemma {:induction false} OnlyMadeGetsMatter<B>(a: seq<Attempt<B>>, b: seq<Attempt<B>>, tries: nat)
    requires Answers(a) && Answers(b) && tries <= MaxTries
    requires a[..RetryFrom(a, tries).gets] == b[..RetryFrom(a, tries).gets]
    ensures RetryFrom(a, tries) == RetryFrom(b, tries)
    decreases MaxTries - tries
  {
    var n := RetryFrom(a, tries).gets;
    if tries < MaxTries {
      assert a[tries] == a[..n][tries] == b[..n][tries] == b[tries];
      if Rejected(a[tries]) {
        OnlyMadeGetsMatter(a, b, tries + 1);
      }
    }
  }
}
