/** What a dispatch promises, proved about `Dispatch`. `SendEmail` returns
    exactly `Dispatch`'s run, so each lemma here holds of every call of it. */
module DispatchProperties {
  import opened Providers
  import opened Backoff
  import opened Service

  // ---------------------------------------------------------------------
  // Arithmetic on the position of a call in the provider-major schedule
  // ---------------------------------------------------------------------

  lemma MulMonotone(a: nat, b: nat, r: nat)
    requires a <= b
    ensures a * r <= b * r
  {
  }

  /** Positions `p * r + a` with `a < r` are ordered lexicographically. */
  lemma {:induction false} PositionOrder(p1: nat, a1: nat, p2: nat, a2: nat, r: nat)
    requires a1 < r && a2 < r
    requires p1 * r + a1 < p2 * r + a2
    ensures p1 < p2 || (p1 == p2 && a1 < a2)
  {
    if p1 > p2 {
      assert (p2 + 1) * r == p2 * r + r;
      MulMonotone(p2 + 1, p1, r);
    }
  }

  /** A position `p * r + a` with `a < r` determines `p` and `a`. */
  lemma PositionUnique(p1: nat, a1: nat, p2: nat, a2: nat, r: nat)
    requires a1 < r && a2 < r
    requires p1 * r + a1 == p2 * r + a2
    ensures p1 == p2 && a1 == a2
  {
    if p1 < p2 {
      assert (p1 + 1) * r == p1 * r + r;
      MulMonotone(p1 + 1, p2, r);
    } else if p2 < p1 {
      assert (p2 + 1) * r == p2 * r + r;
      MulMonotone(p2 + 1, p1, r);
    }
  }

  // ---------------------------------------------------------------------
  // Generalised facts about RunFrom, by induction over the run
  // ---------------------------------------------------------------------

  /** Call `c` is the one at position `pos` of the provider-major schedule,
      and it records what its provider yields. */
  ghost predicate AtPosition(providers: seq<Provider>, limit: int, m: Message, c: Call, pos: int)
  {
    && c.provider < |providers|
    && c.attempt < Budget(limit)
    && c.provider * Budget(limit) + c.attempt == pos
    && c.outcome == Send(providers[c.provider], m, c.attempt)
  }

  /** The calls are those at positions start, start + 1, ... of the
      provider-major schedule. */
  ghost predicate FollowsSchedule(providers: seq<Provider>, limit: int, m: Message, calls: seq<Call>, start: int)
  {
    forall j :: 0 <= j < |calls| ==> AtPosition(providers, limit, m, calls[j], start + j)
  }

  /** From state (i, k), the j-th call is the one at position i * R + k + j of
      the provider-major schedule (R the budget per provider). */
  lemma {:induction false} RunFromTrace(providers: seq<Provider>, limit: int, m: Message, i: nat, k: nat)
    requires i <= |providers| && k <= Budget(limit)
    ensures FollowsSchedule(providers, limit, m, RunFrom(providers, limit, m, i, k).calls, i * Budget(limit) + k)
    decreases |providers| - i, Budget(limit) - k
  {
    var R := Budget(limit);
    var r := RunFrom(providers, limit, m, i, k);
    if i == |providers| {
    } else if k >= limit {
      RunFromTrace(providers, limit, m, i + 1, 0);
      assert (i + 1) * R == i * R + k;
    } else if !Delivered(Send(providers[i], m, k)) {
      RunFromTrace(providers, limit, m, i, k + 1);
      var rest := RunFrom(providers, limit, m, i, k + 1);
      forall j | 0 <= j < |r.calls|
        ensures AtPosition(providers, limit, m, r.calls[j], i * R + k + j)
      {
        if j > 0 {
          assert r.calls[j] == rest.calls[j - 1];
        }
      }
    }
  }

  /** Every call but the last failed, and the last one delivered exactly
      when the run reports success. */
  ghost predicate StopsAtFirstDelivery(r: Run)
  {
    && (forall j :: 0 <= j < |r.calls| - 1 ==> !Delivered(r.calls[j].outcome))
    && (r.sent ==> |r.calls| > 0 && Delivered(r.calls[|r.calls| - 1].outcome))
    && (!r.sent ==> forall j :: 0 <= j < |r.calls| ==> !Delivered(r.calls[j].outcome))
  }

  /** From state (i, k): the run stops at the first delivery. */
  lemma {:induction false} RunFromStops(providers: seq<Provider>, limit: int, m: Message, i: nat, k: nat)
    requires i <= |providers| && k <= Budget(limit)
    ensures StopsAtFirstDelivery(RunFrom(providers, limit, m, i, k))
    decreases |providers| - i, Budget(limit) - k
  {
    if i == |providers| {
    } else if k >= limit {
      RunFromStops(providers, limit, m, i + 1, 0);
    } else if !Delivered(Send(providers[i], m, k)) {
      RunFromStops(providers, limit, m, i, k + 1);
      var rest := RunFrom(providers, limit, m, i, k + 1);
      var r := RunFrom(providers, limit, m, i, k);
      assert r.calls == [Call(i, k, Send(providers[i], m, k))] + rest.calls;
      forall j | 0 <= j < |r.calls|
        ensures j > 0 ==> r.calls[j] == rest.calls[j - 1]
      {
      }
    }
  }

  /** From state (i, k): a run without a delivery made every call left in
      the schedule. */
  lemma {:induction false} RunFromExhausts(providers: seq<Provider>, limit: int, m: Message, i: nat, k: nat)
    requires i <= |providers| && k <= Budget(limit)
    requires i < |providers| || k == 0
    ensures !RunFrom(providers, limit, m, i, k).sent ==>
              |RunFrom(providers, limit, m, i, k).calls| + k == (|providers| - i) * Budget(limit)
    decreases |providers| - i, Budget(limit) - k
  {
    var R := Budget(limit);
    if i == |providers| {
    } else if k >= limit {
      RunFromExhausts(providers, limit, m, i + 1, 0);
      assert (|providers| - i) * R == (|providers| - (i + 1)) * R + R;
    } else if !Delivered(Send(providers[i], m, k)) {
      RunFromExhausts(providers, limit, m, i, k + 1);
    }
  }

  /** Both facts together. */
  lemma RunFromVerdict(providers: seq<Provider>, limit: int, m: Message, i: nat, k: nat)
    requires i <= |providers| && k <= Budget(limit)
    requires i < |providers| || k == 0
    ensures StopsAtFirstDelivery(RunFrom(providers, limit, m, i, k))
    ensures !RunFrom(providers, limit, m, i, k).sent ==>
              |RunFrom(providers, limit, m, i, k).calls| + k == (|providers| - i) * Budget(limit)
  {
    RunFromStops(providers, limit, m, i, k);
    RunFromExhausts(providers, limit, m, i, k);
  }

  /** One backoff per failed call, in the same order, each given the failed
      call's counter plus one. */
  ghost predicate OneBackoffPerFailure(r: Run)
  {
    && |r.waits| == (if r.sent then |r.calls| - 1 else |r.calls|)
    && forall j :: 0 <= j < |r.waits| ==> r.waits[j] == BackoffAfter(r.calls[j].attempt + 1)
  }

  lemma {:induction false} RunFromWaits(providers: seq<Provider>, limit: int, m: Message, i: nat, k: nat)
    requires i <= |providers| && k <= Budget(limit)
    ensures OneBackoffPerFailure(RunFrom(providers, limit, m, i, k))
    decreases |providers| - i, Budget(limit) - k
  {
    if i == |providers| {
    } else if k >= limit {
      RunFromWaits(providers, limit, m, i + 1, 0);
    } else if !Delivered(Send(providers[i], m, k)) {
      RunFromWaits(providers, limit, m, i, k + 1);
      var rest := RunFrom(providers, limit, m, i, k + 1);
      var r := RunFrom(providers, limit, m, i, k);
      assert r.waits == [BackoffAfter(k + 1)] + rest.waits;
      assert r.calls == [Call(i, k, Send(providers[i], m, k))] + rest.calls;
      forall j | 0 <= j < |r.waits|
        ensures r.waits[j] == BackoffAfter(r.calls[j].attempt + 1)
      {
        if j > 0 {
          assert r.waits[j] == rest.waits[j - 1];
          assert r.calls[j] == rest.calls[j - 1];
        }
      }
    }
  }

  /** How many of `calls` went to provider `p`. */
  function CallsTo(calls: seq<Call>, p: nat): nat
  {
    if calls == [] then 0
    else (if calls[0].provider == p then 1 else 0) + CallsTo(calls[1..], p)
  }

  /** The attempts still open to provider `p` in state (i, k). */
  function Remaining(n: nat, R: nat, i: nat, k: nat, p: nat): int
  {
    if p < i || n <= p then 0 else if p == i then R - k else R
  }

  lemma {:induction false} RunFromCallCounts(providers: seq<Provider>, limit: int, m: Message, i: nat, k: nat, p: nat)
    requires i <= |providers| && k <= Budget(limit)
    ensures var r := RunFrom(providers, limit, m, i, k);
      && CallsTo(r.calls, p) <= Remaining(|providers|, Budget(limit), i, k, p)
      && (!r.sent ==> CallsTo(r.calls, p) == Remaining(|providers|, Budget(limit), i, k, p))
    decreases |providers| - i, Budget(limit) - k
  {
    if i == |providers| {
    } else if k >= limit {
      RunFromCallCounts(providers, limit, m, i + 1, 0, p);
    } else {
      var r := RunFrom(providers, limit, m, i, k);
      if Delivered(Send(providers[i], m, k)) {
        assert r.calls[1..] == [];
      } else {
        RunFromCallCounts(providers, limit, m, i, k + 1, p);
        assert r.calls[1..] == RunFrom(providers, limit, m, i, k + 1).calls;
      }
    }
  }

  lemma {:induction false} NoAttemptsFrom(providers: seq<Provider>, limit: int, m: Message, i: nat)
    requires i <= |providers| && limit <= 0
    ensures RunFrom(providers, limit, m, i, 0) == Run(false, [], [])
    decreases |providers| - i
  {
    if i < |providers| {
      NoAttemptsFrom(providers, limit, m, i + 1);
    }
  }

  /** Two provider lists that deliver on exactly the same calls. */
  ghost predicate SameDeliveries(providers: seq<Provider>, others: seq<Provider>, m: Message)
  {
    && |providers| == |others|
    && forall i: nat, k: nat :: i < |providers| ==>
         Delivered(Send(providers[i], m, k)) == Delivered(Send(others[i], m, k))
  }

  /** Two runs that agree on everything but what each failed call produced. */
  ghost predicate SameControlFlow(r: Run, s: Run)
  {
    && r.sent == s.sent
    && r.waits == s.waits
    && |r.calls| == |s.calls|
    && forall j :: 0 <= j < |r.calls| ==>
         r.calls[j].provider == s.calls[j].provider && r.calls[j].attempt == s.calls[j].attempt
  }

  lemma {:induction false} RunFromOnlyDeliveryMatters(providers: seq<Provider>, others: seq<Provider>,
                                                      limit: int, m: Message, i: nat, k: nat)
    requires SameDeliveries(providers, others, m)
    requires i <= |providers| && k <= Budget(limit)
    ensures SameControlFlow(RunFrom(providers, limit, m, i, k), RunFrom(others, limit, m, i, k))
    decreases |providers| - i, Budget(limit) - k
  {
    if i == |providers| {
    } else if k >= limit {
      RunFromOnlyDeliveryMatters(providers, others, limit, m, i + 1, 0);
    } else if !Delivered(Send(providers[i], m, k)) {
      RunFromOnlyDeliveryMatters(providers, others, limit, m, i, k + 1);
      var r, s := RunFrom(providers, limit, m, i, k), RunFrom(others, limit, m, i, k);
      var r', s' := RunFrom(providers, limit, m, i, k + 1), RunFrom(others, limit, m, i, k + 1);
      assert !Delivered(Send(others[i], m, k));
      assert r.calls == [Call(i, k, Send(providers[i], m, k))] + r'.calls;
      assert s.calls == [Call(i, k, Send(others[i], m, k))] + s'.calls;
      forall j | 0 <= j < |r.calls|
        ensures r.calls[j].provider == s.calls[j].provider && r.calls[j].attempt == s.calls[j].attempt
      {
        if j > 0 {
          assert r.calls[j] == r'.calls[j - 1] && s.calls[j] == s'.calls[j - 1];
        }
      }
    }
  }

  // ---------------------------------------------------------------------
  // The properties of one sendEmail invocation
  // ---------------------------------------------------------------------

  /** The last call of a run that follows the schedule from 0 lies within
      the |providers| * R calls of the schedule. */
  lemma ScheduleLength(providers: seq<Provider>, limit: int, m: Message, calls: seq<Call>)
    requires FollowsSchedule(providers, limit, m, calls, 0)
    ensures |calls| <= |providers| * Budget(limit)
  {
    if |calls| > 0 {
      var c := calls[|calls| - 1];
      assert AtPosition(providers, limit, m, c, 0 + (|calls| - 1));
      assert (c.provider + 1) * Budget(limit) == c.provider * Budget(limit) + Budget(limit);
      MulMonotone(c.provider + 1, |providers|, Budget(limit));
    }
  }

  /** The calls follow the provider-major schedule: the j-th call is attempt
      j mod R of provider j div R (R the retry limit), so providers are
      tried in list order, each from attempt 0 upward, at most
      |providers| * R calls are made, and each call records what that
      provider yields. */
  lemma DispatchTrace(providers: seq<Provider>, limit: int, m: Message)
    ensures var r := Dispatch(providers, limit, m);
      && |r.calls| <= |providers| * Budget(limit)
      && forall j :: 0 <= j < |r.calls| ==>
        && r.calls[j].provider < |providers|
        && r.calls[j].attempt < Budget(limit)
        && r.calls[j].provider * Budget(limit) + r.calls[j].attempt == j
        && r.calls[j].outcome == Send(providers[r.calls[j].provider], m, r.calls[j].attempt)
  {
    RunFromTrace(providers, limit, m, 0, 0);
    assert 0 * Budget(limit) + 0 == 0;
    ScheduleLength(providers, limit, m, Dispatch(providers, limit, m).calls);
  }

  /** Earlier calls come first in list order: an earlier call is on an
      earlier provider, or on the same provider with a smaller counter. */
  lemma ProvidersTriedInOrder(providers: seq<Provider>, limit: int, m: Message, j1: nat, j2: nat)
    requires j1 < j2 < |Dispatch(providers, limit, m).calls|
    ensures var c1, c2 := Dispatch(providers, limit, m).calls[j1], Dispatch(providers, limit, m).calls[j2];
      c1.provider < c2.provider || (c1.provider == c2.provider && c1.attempt < c2.attempt)
  {
    var calls := Dispatch(providers, limit, m).calls;
    RunFromTrace(providers, limit, m, 0, 0);
    assert AtPosition(providers, limit, m, calls[j1], 0 * Budget(limit) + 0 + j1);
    assert AtPosition(providers, limit, m, calls[j2], 0 * Budget(limit) + 0 + j2);
    PositionOrder(calls[j1].provider, calls[j1].attempt, calls[j2].provider, calls[j2].attempt, Budget(limit));
  }

  /** A provider other than the first is called for the first time only
      right after the previous provider has failed all of its attempts, in
      order 0, 1, ..., retryLimit - 1. */
  lemma FallbackOnlyAfterAllRetries(providers: seq<Provider>, limit: int, m: Message, j: nat)
    requires j < |Dispatch(providers, limit, m).calls|
    requires Dispatch(providers, limit, m).calls[j].provider > 0
    requires Dispatch(providers, limit, m).calls[j].attempt == 0
    ensures var r := Dispatch(providers, limit, m);
      && limit > 0
      && j >= limit
      && forall t :: j - limit <= t < j ==>
           && r.calls[t].provider == r.calls[j].provider - 1
           && r.calls[t].attempt == t - (j - limit)
           && !Delivered(r.calls[t].outcome)
  {
    var calls := Dispatch(providers, limit, m).calls;
    var R := Budget(limit);
    RunFromTrace(providers, limit, m, 0, 0);
    RunFromStops(providers, limit, m, 0, 0);
    var p := calls[j].provider;
    assert AtPosition(providers, limit, m, calls[j], 0 * R + 0 + j);
    assert j == (p - 1) * R + R by {
      assert p * R == (p - 1) * R + R;
    }
    forall t | j - limit <= t < j
      ensures calls[t].provider == p - 1 && calls[t].attempt == t - (j - limit)
    {
      assert AtPosition(providers, limit, m, calls[t], 0 * R + 0 + t);
      PositionUnique(calls[t].provider, calls[t].attempt, p - 1, t - (j - R), R);
    }
  }

  /** The result is true exactly when some call delivered. On success that
      call is the last one made and nothing follows it; every earlier call
      failed. When every call fails, every provider was given all its
      attempts: exactly |providers| * retryLimit calls were made. */
  lemma DispatchVerdict(providers: seq<Provider>, limit: int, m: Message)
    ensures var r := Dispatch(providers, limit, m);
      && (r.sent <==> exists j :: 0 <= j < |r.calls| && Delivered(r.calls[j].outcome))
      && (r.sent ==> Delivered(r.calls[|r.calls| - 1].outcome))
      && (forall j :: 0 <= j < |r.calls| - 1 ==> !Delivered(r.calls[j].outcome))
      && (!r.sent ==> |r.calls| == |providers| * Budget(limit))
  {
    RunFromVerdict(providers, limit, m, 0, 0);
  }

  /** Every failed call, the last attempt on a provider included, is
      followed by exactly one backoff, given that call's attempt number
      (counted from 1) and waiting Delay of it with the default cap; a
      delivery is followed by none. */
  lemma DispatchBackoffs(providers: seq<Provider>, limit: int, m: Message)
    ensures var r := Dispatch(providers, limit, m);
      && |r.waits| == (if r.sent then |r.calls| - 1 else |r.calls|)
      && forall j :: 0 <= j < |r.waits| ==>
           && r.waits[j].attempt == r.calls[j].attempt + 1
           && r.waits[j].delay == Delay(r.calls[j].attempt + 1, DefaultMaxDelay)
  {
    RunFromWaits(providers, limit, m, 0, 0);
  }

  /** No list entry is called more than retryLimit times; when the dispatch
      fails, every list entry was called exactly retryLimit times. */
  lemma DispatchCallCounts(providers: seq<Provider>, limit: int, m: Message, p: nat)
    ensures var r := Dispatch(providers, limit, m);
      && CallsTo(r.calls, p) <= Budget(limit)
      && (p >= |providers| ==> CallsTo(r.calls, p) == 0)
      && (!r.sent && p < |providers| ==> CallsTo(r.calls, p) == Budget(limit))
  {
    RunFromCallCounts(providers, limit, m, 0, 0, p);
  }

  /** When no provider delivers on any of its first retryLimit calls, the
      result is false after exactly |providers| * retryLimit calls and as
      many backoffs. */
  lemma AllProvidersFail(providers: seq<Provider>, limit: int, m: Message)
    requires forall i: nat, k: nat :: i < |providers| && k < Budget(limit) ==> !Delivered(Send(providers[i], m, k))
    ensures !Dispatch(providers, limit, m).sent
    ensures |Dispatch(providers, limit, m).calls| == |providers| * Budget(limit)
    ensures |Dispatch(providers, limit, m).waits| == |providers| * Budget(limit)
  {
    var r := Dispatch(providers, limit, m);
    RunFromTrace(providers, limit, m, 0, 0);
    RunFromVerdict(providers, limit, m, 0, 0);
    RunFromWaits(providers, limit, m, 0, 0);
  }

  /** In a dispatch where every call failed, provider p's backoffs are given
      1, 2, ..., retryLimit, in that order, right after its calls. */
  lemma ExhaustedBackoffs(providers: seq<Provider>, limit: int, m: Message, p: nat, t: nat)
    requires !Dispatch(providers, limit, m).sent
    requires p < |providers| && 1 <= t <= limit
    ensures p * limit + t - 1 < |Dispatch(providers, limit, m).calls| == |Dispatch(providers, limit, m).waits|
    ensures Dispatch(providers, limit, m).calls[p * limit + t - 1] == Call(p, t - 1, Send(providers[p], m, t - 1))
    ensures Dispatch(providers, limit, m).waits[p * limit + t - 1] == BackoffAfter(t)
  {
    var r := Dispatch(providers, limit, m);
    var R := Budget(limit);
    var j := p * R + t - 1;
    RunFromTrace(providers, limit, m, 0, 0);
    RunFromVerdict(providers, limit, m, 0, 0);
    RunFromWaits(providers, limit, m, 0, 0);
    assert (p + 1) * R == p * R + R;
    MulMonotone(p + 1, |providers|, R);
    assert j < |r.calls|;
    assert AtPosition(providers, limit, m, r.calls[j], 0 * R + 0 + j);
    PositionUnique(r.calls[j].provider, r.calls[j].attempt, p, t - 1, R);
  }

  /** With no provider, or a retry limit of 0 or less, nothing is called,
      nothing is waited and the result is false. */
  lemma NothingToTry(providers: seq<Provider>, limit: int, m: Message)
    requires |providers| == 0 || limit <= 0
    ensures Dispatch(providers, limit, m) == Run(false, [], [])
  {
    if limit <= 0 {
      NoAttemptsFrom(providers, limit, m, 0);
    }
  }

  /** A thrown error is handled exactly like a returned false: two provider
      lists that deliver on the same calls give the same result, the same
      calls and the same backoffs, whatever their failed calls produced. */
  lemma OnlyDeliveryMatters(providers: seq<Provider>, others: seq<Provider>, limit: int, m: Message)
    requires SameDeliveries(providers, others, m)
    ensures SameControlFlow(Dispatch(providers, limit, m), Dispatch(others, limit, m))
  {
    RunFromOnlyDeliveryMatters(providers, others, limit, m, 0, 0);
  }

  /** The repository's scenario: the failing mock, then the succeeding one,
      with the default retry limit. */
  lemma FallbackScenario(m: Message)
    ensures Dispatch([MockEmailProvider1, MockEmailProvider2], DefaultRetryLimit, m)
         == Run(true,
                [Call(0, 0, Returned(false)), Call(0, 1, Returned(false)), Call(0, 2, Returned(false)),
                 Call(1, 0, Returned(true))],
                [Wait(1, 200), Wait(2, 400), Wait(3, 800)])
  {
  }

  /** The same scenario through the class: constructed without a retry
      limit, the service delivers, and at least one backoff was waited. */
  method FallbackThroughService(m: Message) returns (sent: bool, ghost waits: seq<Wait>)
    ensures sent
    ensures waits == [Wait(1, 200), Wait(2, 400), Wait(3, 800)]
  {
    var service := new EmailService([MockEmailProvider1, MockEmailProvider2]);
    ghost var calls;
    sent, calls, waits := service.SendEmail(m.recipient, m.subject, m.body);
    FallbackScenario(m);
  }
}
