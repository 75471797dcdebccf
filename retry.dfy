/**
  `get_extraction`: bounded retry of one download request.

  The download client is an oracle: `client(request, k)` is what the k-th
  call to the client does with `request` — it completes, raises a socket
  timeout, or raises anything else. The loop keeps a `counter` and a
  `gotFile` flag exactly as the scripts do.
 */
module Retry {

  /** Upper bound on `counter` in the scripts' `while` condition. */
  const MAX_ATTEMPTS := 10

  datatype Outcome = Completed | SocketTimeout | OtherError

  /** The token `get_extraction` returns. */
  datatype Token = Success | Fail

  function TokenText(t: Token): string {
    match t
    case Success => "success"
    case Fail => "fail"
  }

  /** The attempt numbers the loop may reach. */
  predicate IsAttempt(k: int) {
    1 <= k <= MAX_ATTEMPTS
  }

  /** Some call among the first ten completes without raising. */
  predicate AnyCompletes<R>(client: (R, nat) -> Outcome, request: R) {
    exists k :: 1 <= k <= MAX_ATTEMPTS && client(request, k).Completed?
  }

  /** The token the loop ends with. */
  function ExtractionResult<R>(client: (R, nat) -> Outcome, request: R): Token {
    if AnyCompletes(client, request) then Success else Fail
  }

  /** Calls made from attempt `counter` on, until one completes or the bound is hit. */
  function CallsFrom<R>(client: (R, nat) -> Outcome, request: R, counter: nat): (n: nat)
    requires 1 <= counter <= MAX_ATTEMPTS + 1
    ensures n <= MAX_ATTEMPTS + 1 - counter
    ensures counter <= MAX_ATTEMPTS ==> 1 <= n
    decreases MAX_ATTEMPTS + 1 - counter
  {
    if counter > MAX_ATTEMPTS then 0
    else if client(request, counter).Completed? then 1
    else 1 + CallsFrom(client, request, counter + 1)
  }

  /** Number of calls one `get_extraction` makes. */
  function CallCount<R>(client: (R, nat) -> Outcome, request: R): (n: nat)
    ensures 1 <= n <= MAX_ATTEMPTS
  {
    CallsFrom(client, request, 1)
  }

  /**
    The `while` loop of `get_extraction`. `calls` is the number of calls made
    to the client (the final `counter` minus one); the scripts only return
    `result`.
   */
  method GetExtraction<R>(request: R, client: (R, nat) -> Outcome) returns (result: Token, calls: nat)
    ensures result == ExtractionResult(client, request)
    ensures calls == CallCount(client, request)
  {
    var counter := 1;
    var gotFile := false;
    while counter <= MAX_ATTEMPTS && !gotFile
      invariant 1 <= counter <= MAX_ATTEMPTS + 1
      invariant gotFile <==> exists j :: 1 <= j < counter && client(request, j).Completed?
      invariant counter - 1 + (if gotFile then 0 else CallsFrom(client, request, counter))
                == CallCount(client, request)
    {
      var outcome := client(request, counter);
      match outcome {
        case SocketTimeout =>
        case OtherError =>
        case Completed => gotFile := true;
      }
      counter := counter + 1;
    }
    if gotFile {
      result := Success;
    } else {
      result := Fail;
    }
    calls := counter - 1;
  }

  // ---------------------------------------------------------------------
  // Properties of one extraction

  lemma {:induction false} CallsFromFirstCompletion<R>(client: (R, nat) -> Outcome, request: R, counter: nat, k: nat)
    requires 1 <= counter <= k <= MAX_ATTEMPTS
    requires client(request, k).Completed?
    requires forall j :: counter <= j < k ==> !client(request, j).Completed?
    ensures CallsFrom(client, request, counter) == k - counter + 1
    decreases k - counter
  {
    if counter < k {
      CallsFromFirstCompletion(client, request, counter + 1, k);
    }
  }

  lemma {:induction false} CallsFromNoCompletion<R>(client: (R, nat) -> Outcome, request: R, counter: nat)
    requires 1 <= counter <= MAX_ATTEMPTS + 1
    requires forall j :: counter <= j <= MAX_ATTEMPTS ==> !client(request, j).Completed?
    ensures CallsFrom(client, request, counter) == MAX_ATTEMPTS + 1 - counter
    decreases MAX_ATTEMPTS + 1 - counter
  {
    if counter <= MAX_ATTEMPTS {
      CallsFromNoCompletion(client, request, counter + 1);
    }
  }

  /** If the first call that completes is call k, exactly k calls are made and the result is success. */
  lemma FirstCompletionStops<R>(client: (R, nat) -> Outcome, request: R, k: nat)
    requires IsAttempt(k) && client(request, k).Completed?
    requires forall j :: 1 <= j < k ==> !client(request, j).Completed?
    ensures CallCount(client, request) == k
    ensures ExtractionResult(client, request) == Success
  {
    CallsFromFirstCompletion(client, request, 1, k);
  }

  /** Ten failed calls of either kind: exactly ten calls and the result is fail. */
  lemma AllAttemptsFail<R>(client: (R, nat) -> Outcome, request: R)
    requires forall j :: IsAttempt(j) ==> !client(request, j).Completed?
    ensures CallCount(client, request) == MAX_ATTEMPTS
    ensures ExtractionResult(client, request) == Fail
  {
    CallsFromNoCompletion(client, request, 1);
  }

  /** The result is success exactly when the last call made completed; no call is made after a completion. */
  lemma ResultIsLastCall<R>(client: (R, nat) -> Outcome, request: R)
    ensures ExtractionResult(client, request) == Success
            <==> client(request, CallCount(client, request)).Completed?
    ensures forall j :: 1 <= j < CallCount(client, request) ==> !client(request, j).Completed?
  {
    if AnyCompletes(client, request) {
      var k: nat :| IsAttempt(k) && client(request, k).Completed?
               && forall j :: 1 <= j < k ==> !client(request, j).Completed?
      by {
        var k0: nat :| IsAttempt(k0) && client(request, k0).Completed?;
        FirstIn(client, request, k0);
      }
      FirstCompletionStops(client, request, k);
    } else {
      AllAttemptsFail(client, request);
    }
  }

  /** A completed call at or before `k0` has a first completed call. */
  lemma {:induction false} FirstIn<R>(client: (R, nat) -> Outcome, request: R, k0: nat)
    requires IsAttempt(k0) && client(request, k0).Completed?
    ensures exists k :: IsAttempt(k) && client(request, k).Completed?
                        && forall j :: 1 <= j < k ==> !client(request, j).Completed?
    decreases k0
  {
    if exists j :: 1 <= j < k0 && client(request, j).Completed? {
      var j: nat :| 1 <= j < k0 && client(request, j).Completed?;
      FirstIn(client, request, j);
    }
  }

  lemma {:induction false} CallsFromSameCompletions<R, S>(
    c1: (R, nat) -> Outcome, r1: R, c2: (S, nat) -> Outcome, r2: S, counter: nat)
    requires 1 <= counter <= MAX_ATTEMPTS + 1
    requires forall j :: IsAttempt(j) ==> (c1(r1, j).Completed? <==> c2(r2, j).Completed?)
    ensures CallsFrom(c1, r1, counter) == CallsFrom(c2, r2, counter)
    decreases MAX_ATTEMPTS + 1 - counter
  {
    if counter <= MAX_ATTEMPTS {
      CallsFromSameCompletions(c1, r1, c2, r2, counter + 1);
    }
  }

  /**
    A socket timeout and any other exception are handled alike: two clients
    whose calls complete at the same attempts give the same number of calls
    and the same result, whatever the request and whichever kind of error.
   */
  lemma ErrorKindIrrelevant<R, S>(c1: (R, nat) -> Outcome, r1: R, c2: (S, nat) -> Outcome, r2: S)
    requires forall j :: IsAttempt(j) ==> (c1(r1, j).Completed? <==> c2(r2, j).Completed?)
    ensures CallCount(c1, r1) == CallCount(c2, r2)
    ensures ExtractionResult(c1, r1) == ExtractionResult(c2, r2)
  {
    CallsFromSameCompletions(c1, r1, c2, r2, 1);
  }
}
