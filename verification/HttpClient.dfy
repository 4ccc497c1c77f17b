/** The bounded retry loop under every broker call. */
module HttpClient {
  import opened Outcomes

  /**
   What one pass of the loop meets: an error raised before dispatch, a timeout or connection error,
   any other error after dispatch, or a response.
   */
  datatype Pass<T> = RaisedBefore | RetryableError | OtherError | Response(value: T)

  datatype Call<T> = Call(dispatched: nat, outcome: Option<T>)

  /** The loop from pass number attempt on; None stands for a raised error. */
  function From<T>(maxRetries: int, script: seq<Pass<T>>, attempt: nat): (c: Call<T>)
    requires maxRetries <= |script| && attempt >= 1
    ensures attempt > maxRetries ==> c.dispatched == 0
    ensures attempt <= maxRetries ==> c.dispatched <= maxRetries - attempt + 1
    ensures c.outcome.Some? ==> exists i :: attempt - 1 <= i < maxRetries && script[i] == Response(c.outcome.value)
    decreases maxRetries - attempt
  {
    if attempt > maxRetries then Call(0, None)
    else match script[attempt - 1]
      case RaisedBefore => Call(0, None)
      case OtherError => Call(1, None)
      case Response(value) => Call(1, Some(value))
      case RetryableError =>
        var rest := From(maxRetries, script, attempt + 1);
        Call(rest.dispatched + 1, rest.outcome)
  }

  /**
   What a call comes to: i passes meet a retryable error and the next one, if there is one left, ends
   the loop. An error before dispatch sends nothing, and only a response answers.
   */
  lemma {:induction false} CallMeans<T>(maxRetries: int, script: seq<Pass<T>>, i: nat, attempt: nat)
    requires 1 <= attempt <= i + 1 && i <= maxRetries <= |script|
    requires forall j :: attempt - 1 <= j < i ==> script[j] == RetryableError
    requires i < maxRetries ==> script[i] != RetryableError
    ensures var c := From(maxRetries, script, attempt);
            && c.dispatched == i - (attempt - 1) + (if i < maxRetries && script[i] != RaisedBefore then 1 else 0)
            && (c.outcome.Some? <==> i < maxRetries && script[i].Response?)
            && (c.outcome.Some? ==> c.outcome.value == script[i].value)
    decreases i - attempt
  {
    if attempt <= i {
      CallMeans(maxRetries, script, i, attempt + 1);
    }
  }

  /** At most max_retries physical requests, each but the last followed by a retryable error. */
  method Request<T>(maxRetries: int, script: seq<Pass<T>>) returns (c: Call<T>)
    requires maxRetries <= |script|
    ensures c == From(maxRetries, script, 1)
    ensures maxRetries <= 0 ==> c == Call(0, None)
    ensures maxRetries > 0 ==> c.dispatched <= maxRetries
    ensures forall i :: 0 <= i < c.dispatched - 1 ==> script[i] == RetryableError
  {
    var dispatched := 0;
    var attempt := 1;
    while attempt <= maxRetries
      invariant 1 <= attempt && (maxRetries > 0 ==> attempt <= maxRetries + 1) && dispatched == attempt - 1
      invariant forall i :: 0 <= i < dispatched && i < |script| ==> script[i] == RetryableError
      invariant dispatched <= |script|
      invariant var rest := From(maxRetries, script, attempt);
                From(maxRetries, script, 1) == Call(dispatched + rest.dispatched, rest.outcome)
    {
      match script[attempt - 1] {
        case RaisedBefore => return Call(dispatched, None);
        case OtherError => return Call(dispatched + 1, None);
        case Response(value) => return Call(dispatched + 1, Some(value));
        case RetryableError =>
          dispatched := dispatched + 1;
          if attempt == maxRetries {
            return Call(dispatched, None);
          }
      }
      attempt := attempt + 1;
    }
    return Call(dispatched, None);
  }
}
