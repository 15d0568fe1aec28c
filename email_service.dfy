/** The dispatcher (src/services/EmailService.ts): try each provider in list
    order, each up to `retryLimit` times, waiting after every failed attempt,
    and stop at the first delivery. */
module Service {
  import opened Providers
  import opened Backoff

  /** The retry limit used when the constructor is given none. */
  const DefaultRetryLimit: int := 3

  /** One provider call: which provider (its index in the list), the value of
      the attempt counter when it was called (from 0), and what it produced. */
  datatype Call = Call(provider: nat, attempt: nat, outcome: Outcome)

  /** One backoff: the attempt number it was given (from 1) and the delay it
      waits, with the default cap. */
  datatype Wait = Wait(attempt: nat, delay: int)

  /** A whole dispatch: its result, the provider calls in the order they were
      made, and the backoffs in the order they were waited. */
  datatype Run = Run(sent: bool, calls: seq<Call>, waits: seq<Wait>)

  /** How many attempts each provider gets; a limit of 0 or less gives none. */
  function Budget(limit: int): nat
  {
    if limit > 0 then limit else 0
  }

  /** The backoff that follows a failed attempt, once the counter has been
      incremented to `attempt`. */
  function BackoffAfter(attempt: nat): (w: Wait)
    ensures w.attempt == attempt
    ensures w.delay == Delay(attempt, DefaultMaxDelay)
    ensures w.delay <= DefaultMaxDelay
  {
    Wait(attempt, Delay(attempt, DefaultMaxDelay))
  }

  /** The rest of a dispatch from the state where provider `i` is current and
      its attempt counter is `k`. */
  function RunFrom(providers: seq<Provider>, limit: int, m: Message, i: nat, k: nat): (r: Run)
    requires i <= |providers| && k <= Budget(limit)
    ensures |r.waits| <= |r.calls|
    ensures r.sent ==> |r.calls| > 0 && Delivered(r.calls[|r.calls| - 1].outcome)
    decreases |providers| - i, Budget(limit) - k
  {
    if i == |providers| then
      Run(false, [], [])
    else if k >= limit then
      RunFrom(providers, limit, m, i + 1, 0)
    else
      var o := Send(providers[i], m, k);
      if Delivered(o) then
        Run(true, [Call(i, k, o)], [])
      else
        var rest := RunFrom(providers, limit, m, i, k + 1);
        Run(rest.sent, [Call(i, k, o)] + rest.calls, [BackoffAfter(k + 1)] + rest.waits)
  }

  /** The dispatch of message `m` over `providers` with retry limit `limit`. */
  function Dispatch(providers: seq<Provider>, limit: int, m: Message): (r: Run)
    ensures |r.waits| <= |r.calls|
    ensures r.sent ==> |r.calls| > 0 && Delivered(r.calls[|r.calls| - 1].outcome)
    ensures |providers| == 0 ==> r == Run(false, [], [])
  {
    RunFrom(providers, limit, m, 0, 0)
  }

  /** The calls and waits already made, followed by the rest of the run. */
  function Extend(calls: seq<Call>, waits: seq<Wait>, rest: Run): Run
  {
    Run(rest.sent, calls + rest.calls, waits + rest.waits)
  }

  /** A failed attempt moves one call and one backoff from the rest of the
      run into the part already done. */
  lemma ExtendFailedStep(providers: seq<Provider>, limit: int, m: Message, i: nat, k: nat,
                         calls: seq<Call>, waits: seq<Wait>)
    requires i < |providers| && k < limit
    requires !Delivered(Send(providers[i], m, k))
    ensures Extend(calls + [Call(i, k, Send(providers[i], m, k))], waits + [BackoffAfter(k + 1)],
                   RunFrom(providers, limit, m, i, k + 1))
         == Extend(calls, waits, RunFrom(providers, limit, m, i, k))
  {
  }

  class EmailService {
    const providers: seq<Provider>
    const retryLimit: int

    constructor (providers: seq<Provider>, retryLimit: int := DefaultRetryLimit)
      ensures this.providers == providers
      ensures this.retryLimit == retryLimit
    {
      this.providers := providers;
      this.retryLimit := retryLimit;
    }

    /** Sends one message. Besides the result, returns as ghost values the
        provider calls made and the backoffs waited, in order. The first
        postcondition, implied by the second, states the returned result on
        its own. */
    method SendEmail(recipient: string, subject: string, body: string)
      returns (sent: bool, ghost calls: seq<Call>, ghost waits: seq<Wait>)
      ensures sent == Dispatch(providers, retryLimit, Message(recipient, subject, body)).sent
      ensures Run(sent, calls, waits) == Dispatch(providers, retryLimit, Message(recipient, subject, body))
    {
      var m := Message(recipient, subject, body);
      calls, waits := [], [];
      for i := 0 to |providers|
        invariant Extend(calls, waits, RunFrom(providers, retryLimit, m, i, 0)) == Dispatch(providers, retryLimit, m)
      {
        var attempt: nat := 0;
        while attempt < retryLimit
          invariant attempt <= Budget(retryLimit)
          invariant Extend(calls, waits, RunFrom(providers, retryLimit, m, i, attempt)) == Dispatch(providers, retryLimit, m)
        {
          var outcome := Send(providers[i], m, attempt);
          match outcome {
            case Returned(success) =>
              if success {
                calls := calls + [Call(i, attempt, outcome)];
                assert waits + [] == waits;
                return true, calls, waits;
              }
            case Threw(_) =>
          }
          ExtendFailedStep(providers, retryLimit, m, i, attempt, calls, waits);
          calls := calls + [Call(i, attempt, outcome)];
          attempt := attempt + 1;
          waits := waits + [BackoffAfter(attempt)];
        }
      }
      sent := false;
    }
  }
}
