/** `TryDownload` and `TryChallenge`: the two retry loops around the ACME
    library.

    The library's calls are scripted: `downloads[k]` is what the k-th
    `Download` call produced (`None` when it threw; calls past the script's
    end throw too), and `statuses[k]` is the status the k-th `Validate` call
    reported (`None` when it threw; `Pending` past the script's end, since
    a challenge never leaves `Pending` by itself). Delays last no time in the model; what
    matters is that each one observes the cancellation token. */
module Extensions {
  import opened Wrappers
  import opened Acme

  // =====================================================================
  // TryDownload

  /** At most this many `Download` calls. */
  const MaxTry := 5

  datatype DownloadEnd =
    | Downloaded(chain: CertificateChain)   // a call succeeded; its chain is returned
    | GaveUp                                // five calls threw; null is returned
    | Cancelled                             // the delay after a failed call saw the token cancelled and threw

  /** How a `TryDownload` call ended, how many `Download` calls and delays
      it made, and the token observation count afterwards. */
  datatype DownloadRun = DownloadRun(end: DownloadEnd, attempts: nat, delays: nat, observations: nat)

  /** The outcome of the `k`-th `Download` call. */
  function DownloadAttempt(downloads: seq<Option<CertificateChain>>, k: nat): Option<CertificateChain>
  {
    if k < |downloads| then downloads[k] else None
  }

  /** The rest of a `TryDownload` call once `count` calls have failed and
      `obs` token observations have been made. */
  function DownloadFrom(downloads: seq<Option<CertificateChain>>, token: Cancellation, count: nat, obs: nat): (run: DownloadRun)
    requires count < MaxTry
    decreases MaxTry - count
  {
    match DownloadAttempt(downloads, count)
    case Some(chain) => DownloadRun(Downloaded(chain), count + 1, count, obs)
    case None =>
      if IsRequested(token, obs) then DownloadRun(Cancelled, count + 1, count + 1, obs + 1)
      else if count + 1 < MaxTry then DownloadFrom(downloads, token, count + 1, obs + 1)
      else DownloadRun(GaveUp, MaxTry, MaxTry, obs + 1)
  }

  /** At least one more call and at most five in all; a delay follows every
      call except a successful one. */
  lemma {:induction false} DownloadBounds(downloads: seq<Option<CertificateChain>>, token: Cancellation, count: nat, obs: nat)
    requires count < MaxTry
    ensures var run := DownloadFrom(downloads, token, count, obs);
      && count < run.attempts <= MaxTry
      && run.delays == if run.end.Downloaded? then run.attempts - 1 else run.attempts
    decreases MaxTry - count
  {
    if DownloadAttempt(downloads, count).None? && !IsRequested(token, obs) && count + 1 < MaxTry {
      DownloadBounds(downloads, token, count + 1, obs + 1);
    }
  }

  /** `orderContext.TryDownload(cancellationToken: token)`, starting at token
      observation `obs0`. */
  method TryDownload(downloads: seq<Option<CertificateChain>>, token: Cancellation, obs0: nat) returns (run: DownloadRun)
    ensures run == DownloadFrom(downloads, token, 0, obs0)
    ensures 1 <= run.attempts <= MaxTry
  {
    var count := 0;
    var obs := obs0;
    ghost var spec := DownloadFrom(downloads, token, 0, obs0);
    DownloadBounds(downloads, token, 0, obs0);
    while count < MaxTry
      invariant 0 <= count <= MaxTry
      invariant obs == obs0 + count
      invariant count < MaxTry ==> DownloadFrom(downloads, token, count, obs) == spec
      invariant count == MaxTry ==> spec == DownloadRun(GaveUp, MaxTry, MaxTry, obs)
      decreases MaxTry - count
    {
      var attempt := DownloadAttempt(downloads, count);
      if attempt.Some? {
        run := DownloadRun(Downloaded(attempt.value), count + 1, count, obs);
        return;
      }
      // catch: Task.Delay(3 s, token) observes the token and throws if it is cancelled
      var cancelled := IsRequested(token, obs);
      if cancelled {
        run := DownloadRun(Cancelled, count + 1, count + 1, obs + 1);
        return;
      }
      DownloadFromStep(downloads, token, count, obs);
      obs := obs + 1;
      // finally: count++; then the do-while test count < maxTry
      count := count + 1;
    }
    run := DownloadRun(GaveUp, MaxTry, MaxTry, obs);
  }

  /** One iteration: a successful call returns its chain; a failed one is
      followed by a delay that either sees cancellation or leads to the
      next attempt, or to giving up when the budget is spent. */
  lemma DownloadFromStep(downloads: seq<Option<CertificateChain>>, token: Cancellation, count: nat, obs: nat)
    requires count < MaxTry
    ensures DownloadAttempt(downloads, count).Some? ==>
      DownloadFrom(downloads, token, count, obs)
        == DownloadRun(Downloaded(DownloadAttempt(downloads, count).value), count + 1, count, obs)
    ensures DownloadAttempt(downloads, count).None? && IsRequested(token, obs) ==>
      DownloadFrom(downloads, token, count, obs) == DownloadRun(Cancelled, count + 1, count + 1, obs + 1)
    ensures DownloadAttempt(downloads, count).None? && !IsRequested(token, obs) && count + 1 < MaxTry ==>
      DownloadFrom(downloads, token, count, obs) == DownloadFrom(downloads, token, count + 1, obs + 1)
    ensures DownloadAttempt(downloads, count).None? && !IsRequested(token, obs) && count + 1 == MaxTry ==>
      DownloadFrom(downloads, token, count, obs) == DownloadRun(GaveUp, MaxTry, MaxTry, obs + 1)
  {
  }

  /** The last call decides: the run returns a chain exactly when its last
      `Download` call succeeded, and that call's chain; every delay made is
      one token observation. */
  lemma {:induction false} DownloadLastCallDecides(downloads: seq<Option<CertificateChain>>, token: Cancellation, count: nat, obs: nat)
    requires count < MaxTry
    ensures var run := DownloadFrom(downloads, token, count, obs);
      && count < run.attempts
      && (run.end.Downloaded? <==> DownloadAttempt(downloads, run.attempts - 1).Some?)
      && (run.end.Downloaded? ==> Some(run.end.chain) == DownloadAttempt(downloads, run.attempts - 1))
      && run.observations == obs + run.delays - count
    decreases MaxTry - count
  {
    if DownloadAttempt(downloads, count).None? && !IsRequested(token, obs) && count + 1 < MaxTry {
      DownloadLastCallDecides(downloads, token, count + 1, obs + 1);
    }
  }

  /** Every call before the last one threw: retries happen only after failures. */
  lemma {:induction false} DownloadRetriesOnlyFailures(downloads: seq<Option<CertificateChain>>, token: Cancellation, count: nat, obs: nat)
    requires count < MaxTry
    ensures var run := DownloadFrom(downloads, token, count, obs);
      forall k :: count <= k < run.attempts - 1 ==> DownloadAttempt(downloads, k).None?
    decreases MaxTry - count
  {
    if DownloadAttempt(downloads, count).None? && !IsRequested(token, obs) && count + 1 < MaxTry {
      DownloadRetriesOnlyFailures(downloads, token, count + 1, obs + 1);
    }
  }

  /** The first successful call within the budget is returned at once,
      provided none of the delays before it saw the token cancelled. */
  lemma {:induction false} DownloadReturnsFirstSuccess(downloads: seq<Option<CertificateChain>>, token: Cancellation, n: nat, obs0: nat)
    requires n < MaxTry
    requires DownloadAttempt(downloads, n).Some?
    requires forall k :: 0 <= k < n ==> DownloadAttempt(downloads, k).None?
    requires n > 0 ==> !IsRequested(token, obs0 + n - 1)
    ensures DownloadFrom(downloads, token, 0, obs0)
      == DownloadRun(Downloaded(DownloadAttempt(downloads, n).value), n + 1, n, obs0 + n)
  {
    DownloadFirstSuccessFrom(downloads, token, n, 0, obs0);
  }

  lemma {:induction false} DownloadFirstSuccessFrom(downloads: seq<Option<CertificateChain>>, token: Cancellation, n: nat, count: nat, obs: nat)
    requires count <= n < MaxTry
    requires DownloadAttempt(downloads, n).Some?
    requires forall k :: count <= k < n ==> DownloadAttempt(downloads, k).None?
    requires count < n ==> !IsRequested(token, obs + n - 1 - count)
    ensures DownloadFrom(downloads, token, count, obs)
      == DownloadRun(Downloaded(DownloadAttempt(downloads, n).value), n + 1, n, obs + n - count)
    decreases n - count
  {
    DownloadFromStep(downloads, token, count, obs);
    if count < n {
      assert !IsRequested(token, obs);
      DownloadFirstSuccessFrom(downloads, token, n, count + 1, obs + 1);
    }
  }

  /** `TryDownload` returns null exactly when five calls in a row threw and
      none of the five delays saw the token cancelled; it then made five
      calls and five delays. */
  lemma {:induction false} DownloadGivesUp(downloads: seq<Option<CertificateChain>>, token: Cancellation, obs0: nat)
    ensures var run := DownloadFrom(downloads, token, 0, obs0);
      run.end == GaveUp <==>
        (forall k :: 0 <= k < MaxTry ==> DownloadAttempt(downloads, k).None?) && !IsRequested(token, obs0 + MaxTry - 1)
    ensures var run := DownloadFrom(downloads, token, 0, obs0);
      run.end == GaveUp ==> run.attempts == MaxTry && run.delays == MaxTry
  {
    var run := DownloadFrom(downloads, token, 0, obs0);
    if (forall k :: 0 <= k < MaxTry ==> DownloadAttempt(downloads, k).None?) && !IsRequested(token, obs0 + MaxTry - 1) {
      var count := 0;
      while count < MaxTry - 1
        invariant 0 <= count <= MaxTry - 1
        invariant DownloadFrom(downloads, token, count, obs0 + count) == run
      {
        DownloadFromStep(downloads, token, count, obs0 + count);
        count := count + 1;
      }
    } else if run.end == GaveUp {
      DownloadGaveUpOnlyAfterFive(downloads, token, 0, obs0);
    }
  }

  lemma {:induction false} DownloadGaveUpOnlyAfterFive(downloads: seq<Option<CertificateChain>>, token: Cancellation, count: nat, obs: nat)
    requires count < MaxTry
    requires DownloadFrom(downloads, token, count, obs).end == GaveUp
    ensures forall k :: count <= k < MaxTry ==> DownloadAttempt(downloads, k).None?
    ensures !IsRequested(token, obs + MaxTry - 1 - count)
    decreases MaxTry - count
  {
    if count + 1 < MaxTry {
      DownloadGaveUpOnlyAfterFive(downloads, token, count + 1, obs + 1);
    }
  }

  /** A cancelled delay ends the retry: the call that preceded it had failed,
      the delay saw the token cancelled, and no earlier delay did. */
  lemma {:induction false} DownloadCancelledByDelay(downloads: seq<Option<CertificateChain>>, token: Cancellation, count: nat, obs: nat)
    requires count < MaxTry
    requires DownloadFrom(downloads, token, count, obs).end == Cancelled
    ensures var run := DownloadFrom(downloads, token, count, obs);
      && count < run.attempts
      && DownloadAttempt(downloads, run.attempts - 1).None?
      && run.observations >= 1
      && IsRequested(token, run.observations - 1)
      && (run.observations - 1 > obs ==> !IsRequested(token, run.observations - 2))
    decreases MaxTry - count
  {
    if !IsRequested(token, obs) && count + 1 < MaxTry && DownloadAttempt(downloads, count).None? {
      DownloadCancelledByDelay(downloads, token, count + 1, obs + 1);
    }
  }

  /** A delay that sees the token aborts the retry at once: if the token is
      first cancelled at the delay after call `n`, and the calls up to `n`
      all threw, the run ends cancelled right there, with no further call. */
  lemma {:induction false} DownloadCancelsAtSeenDelay(downloads: seq<Option<CertificateChain>>, count: nat, obs: nat, n: nat)
    requires count <= n < MaxTry
    requires forall k :: count <= k <= n ==> DownloadAttempt(downloads, k).None?
    ensures DownloadFrom(downloads, RequestedAt(obs + n - count), count, obs)
      == DownloadRun(Cancelled, n + 1, n + 1, obs + n - count + 1)
    decreases n - count
  {
    if count < n {
      DownloadCancelsAtSeenDelay(downloads, count + 1, obs + 1, n);
    }
  }

  // =====================================================================
  // TryChallenge

  datatype PollEnd =
    | Settled                  // a validation reported a status other than Pending
    | CancelledAfterValidate   // the token was found cancelled right after a validation: break
    | DelayCancelled           // a delay saw the token cancelled and threw
    | ValidateThrew            // a `Validate` call threw; nothing catches it
    | StillPolling             // the fuel ran out while every validation reported Pending

  /** How a `TryChallenge` call ended, how many `Validate` calls it made,
      and the token observation count afterwards. No status is part of it:
      the source returns none. */
  datatype PollRun = PollRun(end: PollEnd, validations: nat, observations: nat)

  /** What the `k`-th `Validate` call reports (`None`: it threw). */
  function ValidationAt(statuses: seq<Option<ChallengeStatus>>, k: nat): Option<ChallengeStatus>
  {
    if k < |statuses| then statuses[k] else Some(Pending)
  }

  /** The `k`-th `Validate` call returned and reported `Pending`. */
  predicate PendingAt(statuses: seq<Option<ChallengeStatus>>, k: nat)
  {
    ValidationAt(statuses, k) == Some(Pending)
  }

  /** The rest of a `TryChallenge` call after `validations` validations and
      `obs` token observations, allowing at most `fuel` more iterations. One
      iteration observes the token three times: the first delay, the
      cancellation test and the second delay. The source's loop has no
      bound; `fuel` only stands for how long one is willing to watch it. */
  function PollFrom(statuses: seq<Option<ChallengeStatus>>, token: Cancellation, validations: nat, obs: nat, fuel: nat): PollRun
    decreases fuel
  {
    if fuel == 0 then PollRun(StillPolling, validations, obs)
    else if IsRequested(token, obs) then PollRun(DelayCancelled, validations, obs + 1)
    else if ValidationAt(statuses, validations).None? then PollRun(ValidateThrew, validations + 1, obs + 1)
    else if IsRequested(token, obs + 1) then PollRun(CancelledAfterValidate, validations + 1, obs + 2)
    else if IsRequested(token, obs + 2) then PollRun(DelayCancelled, validations + 1, obs + 3)
    else if !PendingAt(statuses, validations) then PollRun(Settled, validations + 1, obs + 3)
    else PollFrom(statuses, token, validations + 1, obs + 3, fuel - 1)
  }

  /** Every validation but the last returned and reported `Pending`; a
      settled poll's last one returned something else; a thrown validation
      is the last one; a break follows a validation whose test saw the
      token cancelled when the delay before it had not; a thrown delay saw it. */
  lemma {:induction false} PollOutcome(statuses: seq<Option<ChallengeStatus>>, token: Cancellation, validations: nat, obs: nat, fuel: nat)
    ensures var run := PollFrom(statuses, token, validations, obs, fuel);
      && validations <= run.validations <= validations + fuel
      && (forall k :: validations <= k < run.validations - 1 ==> PendingAt(statuses, k))
      && (run.end == Settled ==>
            run.validations > validations && ValidationAt(statuses, run.validations - 1).Some?
            && !PendingAt(statuses, run.validations - 1))
      && (run.end == ValidateThrew ==>
            run.validations > validations && ValidationAt(statuses, run.validations - 1).None?)
      && (run.end == StillPolling ==>
            run.validations == validations + fuel && (fuel > 0 ==> PendingAt(statuses, run.validations - 1)))
      && (run.end == CancelledAfterValidate ==>
            run.validations > validations && run.observations >= 2
            && IsRequested(token, run.observations - 1) && !IsRequested(token, run.observations - 2))
      && (run.end == DelayCancelled ==> run.observations >= 1 && IsRequested(token, run.observations - 1))
    decreases fuel
  {
    if fuel > 0 && !IsRequested(token, obs + 2) && PendingAt(statuses, validations) {
      PollOutcome(statuses, token, validations + 1, obs + 3, fuel - 1);
    }
  }

  /** `challengeContext.TryChallenge(token)`, starting at token observation
      `obs0`, watched for at most `fuel` iterations. */
  method TryChallenge(statuses: seq<Option<ChallengeStatus>>, token: Cancellation, obs0: nat, fuel: nat) returns (run: PollRun)
    ensures run == PollFrom(statuses, token, 0, obs0, fuel)
  {
    var validations := 0;
    var obs := obs0;
    var left := fuel;
    var end := StillPolling;
    while left > 0
      invariant validations + left == fuel
      invariant PollFrom(statuses, token, validations, obs, left) == PollFrom(statuses, token, 0, obs0, fuel)
      decreases left
    {
      // await Task.Delay(3 s, token)
      if IsRequested(token, obs) {
        return PollRun(DelayCancelled, validations, obs + 1);
      }
      obs := obs + 1;
      // rs = await challengeContext.Validate(): an exception leaves the loop
      var rs := ValidationAt(statuses, validations);
      validations := validations + 1;
      if rs.None? {
        return PollRun(ValidateThrew, validations, obs);
      }
      // if (token.IsCancellationRequested) break;
      var requested := IsRequested(token, obs);
      obs := obs + 1;
      if requested {
        end := CancelledAfterValidate;
        break;
      }
      // await Task.Delay(3 s, token)
      if IsRequested(token, obs) {
        return PollRun(DelayCancelled, validations, obs + 1);
      }
      obs := obs + 1;
      // while (rs.Status == ChallengeStatus.Pending)
      if rs.value != Pending {
        end := Settled;
        break;
      }
      left := left - 1;
    }
    run := PollRun(end, validations, obs);
  }

  /** A do-while: unless the very first delay sees the token cancelled,
      `Validate` is called at least once. */
  lemma PollValidatesAtLeastOnce(statuses: seq<Option<ChallengeStatus>>, token: Cancellation, obs0: nat, fuel: nat)
    requires fuel > 0 && !IsRequested(token, obs0)
    ensures PollFrom(statuses, token, 0, obs0, fuel).validations >= 1
  {
    PollOutcome(statuses, token, 1, obs0 + 3, fuel - 1);
  }

  /** With no cancellation, the loop stops right after the first validation
      that does not report `Pending`: settled when it returned a status,
      whatever that status is, and with the exception when it threw. */
  lemma {:induction false} PollStopsAtFirstDecision(statuses: seq<Option<ChallengeStatus>>, n: nat, obs0: nat, fuel: nat)
    requires !PendingAt(statuses, n)
    requires forall k :: 0 <= k < n ==> PendingAt(statuses, k)
    requires fuel > n
    ensures PollFrom(statuses, NotRequested, 0, obs0, fuel) ==
      if ValidationAt(statuses, n).None? then PollRun(ValidateThrew, n + 1, obs0 + 3 * n + 1)
      else PollRun(Settled, n + 1, obs0 + 3 * (n + 1))
  {
    var v := 0;
    while v < n
      invariant 0 <= v <= n
      invariant PollFrom(statuses, NotRequested, v, obs0 + 3 * v, fuel - v) == PollFrom(statuses, NotRequested, 0, obs0, fuel)
    {
      assert PendingAt(statuses, v);
      v := v + 1;
    }
  }

  /** A test that sees the token breaks the loop at once: if the token is
      first cancelled at the test of iteration `n`, the poll ends right
      after that iteration's validation. */
  lemma {:induction false} PollBreaksOnCancel(statuses: seq<Option<ChallengeStatus>>, validations: nat, obs: nat, fuel: nat, n: nat)
    requires fuel > n
    requires forall k :: validations <= k < validations + n ==> PendingAt(statuses, k)
    requires ValidationAt(statuses, validations + n).Some?
    ensures PollFrom(statuses, RequestedAt(obs + 3 * n + 1), validations, obs, fuel)
      == PollRun(CancelledAfterValidate, validations + n + 1, obs + 3 * n + 2)
    decreases n
  {
    if n > 0 {
      assert PendingAt(statuses, validations);
      PollBreaksOnCancel(statuses, validations + 1, obs + 3, fuel - 1, n - 1);
      assert RequestedAt(obs + 3 + 3 * (n - 1) + 1) == RequestedAt(obs + 3 * n + 1);
    }
  }

  /** Nothing catches a throwing `Validate`: when the `n`-th call throws,
      every earlier one reported `Pending` and no delay or test before that
      call saw the token cancelled, the poll ends with the exception right
      there, after `n + 1` calls. */
  lemma {:induction false} PollThrowsAt(statuses: seq<Option<ChallengeStatus>>, token: Cancellation,
                                        validations: nat, obs: nat, fuel: nat, n: nat)
    requires fuel > n
    requires forall k :: validations <= k < validations + n ==> PendingAt(statuses, k)
    requires ValidationAt(statuses, validations + n).None?
    requires !IsRequested(token, obs + 3 * n)
    ensures PollFrom(statuses, token, validations, obs, fuel) == PollRun(ValidateThrew, validations + n + 1, obs + 3 * n + 1)
    decreases n
  {
    if n > 0 {
      assert PendingAt(statuses, validations);
      PollThrowsAt(statuses, token, validations + 1, obs + 3, fuel - 1, n - 1);
      assert obs + 3 + 3 * (n - 1) == obs + 3 * n;
    }
  }

  /** There is no iteration bound: while every validation reports `Pending`
      and nobody cancels, any number of iterations leaves the loop still
      polling, one `Validate` call per iteration. */
  lemma {:induction false} PollNeverGivesUp(statuses: seq<Option<ChallengeStatus>>, validations: nat, obs: nat, fuel: nat)
    requires forall k :: 0 <= k < |statuses| ==> statuses[k] == Some(Pending)
    ensures PollFrom(statuses, NotRequested, validations, obs, fuel) == PollRun(StillPolling, validations + fuel, obs + 3 * fuel)
    decreases fuel
  {
    if fuel > 0 {
      PollNeverGivesUp(statuses, validations + 1, obs + 3, fuel - 1);
    }
  }

  /** `Valid`, `Invalid` and `Processing` end the loop identically: two
      scripts whose validations throw at the same calls and report
      `Pending` at the same calls give the same run. */
  lemma {:induction false} PollIgnoresVerdict(s1: seq<Option<ChallengeStatus>>, s2: seq<Option<ChallengeStatus>>, token: Cancellation, validations: nat, obs: nat, fuel: nat)
    requires forall k: nat :: ValidationAt(s1, k).None? == ValidationAt(s2, k).None?
    requires forall k: nat :: PendingAt(s1, k) == PendingAt(s2, k)
    ensures PollFrom(s1, token, validations, obs, fuel) == PollFrom(s2, token, validations, obs, fuel)
    decreases fuel
  {
    if fuel > 0 {
      PollIgnoresVerdict(s1, s2, token, validations + 1, obs + 3, fuel - 1);
    }
  }
}
