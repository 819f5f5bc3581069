/**
 * The bounded retry controller that both generation routes
 * (`api/image-post` and `api/festival-post`) wrap around the image provider.
 *
 * The provider is a parameter: a function from the attempt number and the
 * prompt to a reply. Whether the provider client has an API key is a
 * parameter too; without one every attempt throws before the provider is
 * reached. The message of that error is part of the context too (the routes
 * use `MissingKeyMessage`), so that the controller's proofs do not depend on
 * its text. Sleeps are not performed: the controller reports the delays it
 * would wait, in order.
 */
module Retry {
  import opened Wrappers
  import opened Text
  import opened RetryText

  const MaxRetries: nat := 3
  const BaseDelayMs: nat := 1000
  const UnknownErrorMessage: string := "Unknown error"
  /** What one provider call gives back: a success envelope, whose first image
      may or may not carry a URL, or a thrown error with its message. */
  datatype Reply = Generated(url: Option<string>) | Failed(message: string)

  /** Everything one request fixes before the loop starts. */
  datatype Ctx = Ctx(
    primary: string,                      // the full prompt
    fallback: string,                     // the prompt used after a moderation error
    apiKeyPresent: bool,
    keyError: string,                     // what the key check throws
    provider: (nat, string) -> Reply)

  /** The two prompts a route builds before the loop: the full one and the
      one used after a moderation error. */
  datatype Prompts = Prompts(primary: string, fallback: string)

  function ContextFor(prompts: Prompts, apiKeyPresent: bool, provider: (nat, string) -> Reply): Ctx {
    Ctx(prompts.primary, prompts.fallback, apiKeyPresent, MissingKeyMessage, provider)
  }

  /** One pass through the loop body: either the key check threw `message`,
      or the provider was called with `prompt` and answered `reply`. */
  datatype Attempt = NotInitialised(message: string) | Called(prompt: string, reply: Reply)

  /** How the loop is left: by `break` after a success envelope (with the URL
      it carried, if any), or by rethrowing the last error. */
  datatype LoopEnd = Returned(url: Option<string>) | Rethrown(message: string)

  /** The attempts made, the delays waited between them, and how the loop ended. */
  datatype Run = Run(attempts: seq<Attempt>, waits: seq<nat>, end: LoopEnd)

  function Pow2(k: nat): (r: nat)
    ensures r >= 1
  {
    if k == 0 then 1 else 2 * Pow2(k - 1)
  }

  /** The wait after failure number `retryCount` (`1000 * 2^retryCount`). */
  function Backoff(retryCount: nat): nat {
    BaseDelayMs * Pow2(retryCount)
  }

  /** The loop's test for a content-moderation error. */
  predicate IsModeration(message: string) {
    Includes(message, "safety") || Includes(message, "moderation")
  }

  /** The message an attempt throws, if it throws. */
  function ErrorOf(a: Attempt): Option<string> {
    match a
    case NotInitialised(m) => Some(m)
    case Called(_, Failed(m)) => Some(m)
    case Called(_, Generated(_)) => None
  }

  /** `error.message || "Unknown error"`. */
  function LoggedMessage(m: string): string {
    if m == "" then UnknownErrorMessage else m
  }

  /** The attempt threw an error that sets the sticky moderation flag: the
      loop tests `error.message || "Unknown error"`. With the routes'
      missing-key message only a provider error can (`OnlyProviderErrorsFlag`). */
  predicate FlagsModeration(a: Attempt) {
    ErrorOf(a).Some? && IsModeration(LoggedMessage(ErrorOf(a).value))
  }

  function PromptFor(c: Ctx, hadModerationError: bool): string {
    if hadModerationError then c.fallback else c.primary
  }

  /** The loop body's attempt number `retryCount` given the flag. */
  function AttemptAt(c: Ctx, retryCount: nat, hadModerationError: bool): Attempt {
    if !c.apiKeyPresent then NotInitialised(c.keyError)
    else
      var prompt := PromptFor(c, hadModerationError);
      Called(prompt, c.provider(retryCount, prompt))
  }

  /** The controller as a state machine over `(retryCount, hadModerationError)`:
      the run from that state to the end of the loop. */
  function Drive(c: Ctx, retryCount: nat, hadModerationError: bool): (r: Run)
    requires retryCount < MaxRetries
    ensures 1 <= |r.attempts| <= MaxRetries - retryCount
    ensures |r.waits| == |r.attempts| - 1
    decreases MaxRetries - retryCount
  {
    var a := AttemptAt(c, retryCount, hadModerationError);
    match ErrorOf(a)
    case None => Run([a], [], Returned(a.reply.url))
    case Some(m) =>
      var count := retryCount + 1;
      if count == MaxRetries then Run([a], [], Rethrown(m))
      else
        var rest := Drive(c, count, hadModerationError || FlagsModeration(a));
        Run([a] + rest.attempts, [Backoff(count)] + rest.waits, rest.end)
  }

  /** The whole loop, from its initial state: at least one attempt and at
      most `MaxRetries`, with one wait between consecutive attempts. */
  function Generate(c: Ctx): (r: Run)
    ensures 1 <= |r.attempts| <= MaxRetries
    ensures |r.waits| == |r.attempts| - 1
  {
    Drive(c, 0, false)
  }

  /** The loop as the routes write it: `retryCount` and `hadModerationError`
      are updated in place, success breaks out, the last failure is rethrown. */
  method CallWithRetry(c: Ctx) returns (run: Run)
    ensures run == Generate(c)
  {
    var retryCount: nat := 0;
    var hadModerationError := false;
    var attempts: seq<Attempt> := [];
    var waits: seq<nat> := [];
    var result: Option<Option<string>> := None;
    while retryCount < MaxRetries
      invariant retryCount < MaxRetries
      invariant result.None?
      invariant Generate(c) == Continue(attempts, waits, Drive(c, retryCount, hadModerationError))
      decreases MaxRetries - retryCount
    {
      var attempt, thrown := TryOnce(c, retryCount, hadModerationError);
      LoopStep(c, attempts, waits, retryCount, hadModerationError);
      attempts := attempts + [attempt];
      if thrown.None? {
        result := Some(attempt.reply.url);
        break;
      }
      retryCount := retryCount + 1;
      var errorMessage := if thrown.value == "" then UnknownErrorMessage else thrown.value;
      if IsModeration(errorMessage) {
        hadModerationError := true;
      }
      if retryCount == MaxRetries {
        run := Run(attempts, waits, Rethrown(thrown.value));
        return;
      }
      waits := waits + [Backoff(retryCount)];
    }
    run := Run(attempts, waits, Returned(if result.Some? then result.value else None));
  }

  /** The `try` block of one iteration: the key check, the choice of prompt
      and the provider call; `thrown` is the error it throws, if any. */
  method TryOnce(c: Ctx, retryCount: nat, hadModerationError: bool) returns (attempt: Attempt, thrown: Option<string>)
    ensures attempt == AttemptAt(c, retryCount, hadModerationError)
    ensures thrown == ErrorOf(attempt)
  {
    if !c.apiKeyPresent {
      return NotInitialised(c.keyError), Some(c.keyError);
    }
    var promptToUse := if hadModerationError then c.fallback else c.primary;
    var reply := c.provider(retryCount, promptToUse);
    attempt := Called(promptToUse, reply);
    thrown := if reply.Failed? then Some(reply.message) else None;
  }

  /** What one pass through the loop body does to the invariant: a success
      ends the run, the last failure is rethrown, any other failure leaves
      the loop in the next state. */
  lemma LoopStep(c: Ctx, attempts: seq<Attempt>, waits: seq<nat>, n: nat, h: bool)
    requires n < MaxRetries
    requires Generate(c) == Continue(attempts, waits, Drive(c, n, h))
    ensures var a := AttemptAt(c, n, h);
      && (ErrorOf(a).None? ==> Generate(c) == Run(attempts + [a], waits, Returned(a.reply.url)))
      && (ErrorOf(a).Some? && n + 1 == MaxRetries ==> Generate(c) == Run(attempts + [a], waits, Rethrown(ErrorOf(a).value)))
      && (ErrorOf(a).Some? && n + 1 < MaxRetries ==>
            Generate(c) == Continue(attempts + [a], waits + [Backoff(n + 1)], Drive(c, n + 1, h || FlagsModeration(a))))
  {
    var a := AttemptAt(c, n, h);
    if ErrorOf(a).Some? && n + 1 < MaxRetries {
      ContinueTwice(attempts, waits, [a], [Backoff(n + 1)], Drive(c, n + 1, h || FlagsModeration(a)));
    }
  }

  lemma ContinueTwice(a1: seq<Attempt>, w1: seq<nat>, a2: seq<Attempt>, w2: seq<nat>, r: Run)
    ensures Continue(a1, w1, Continue(a2, w2, r)) == Continue(a1 + a2, w1 + w2, r)
  {
    assert a1 + (a2 + r.attempts) == (a1 + a2) + r.attempts;
    assert w1 + (w2 + r.waits) == (w1 + w2) + r.waits;
  }

  /** `prefix` followed by `rest`. */
  function Continue(attempts: seq<Attempt>, waits: seq<nat>, rest: Run): Run {
    Run(attempts + rest.attempts, waits + rest.waits, rest.end)
  }

  // ---------------------------------------------------------------------------
  // Properties of the controller

  /** Some attempt before index `k` set the moderation flag. */
  predicate ModerationSeen(attempts: seq<Attempt>, k: nat) {
    exists j :: 0 <= j < k && j < |attempts| && FlagsModeration(attempts[j])
  }

  /** From state `(n, h)` the loop waits `Backoff(n + k + 1)` after the k-th
      attempt, except after the last one. */
  lemma {:induction false} DriveWaits(c: Ctx, n: nat, h: bool)
    requires n < MaxRetries
    ensures var r := Drive(c, n, h);
      forall k :: 0 <= k < |r.waits| ==> r.waits[k] == Backoff(n + k + 1)
    decreases MaxRetries - n
  {
    var a := AttemptAt(c, n, h);
    if ErrorOf(a).Some? && n + 1 < MaxRetries {
      var h' := h || FlagsModeration(a);
      DriveWaits(c, n + 1, h');
      var rest := Drive(c, n + 1, h');
      var r := Drive(c, n, h);
      assert r.waits == [Backoff(n + 1)] + rest.waits;
      forall k | 1 <= k < |r.waits|
        ensures r.waits[k] == Backoff(n + k + 1)
      {
        assert r.waits[k] == rest.waits[k - 1];
      }
    }
  }

  lemma ModerationSeenCons(a: Attempt, rest: seq<Attempt>, k: nat)
    requires 1 <= k
    ensures ModerationSeen([a] + rest, k) <==> FlagsModeration(a) || ModerationSeen(rest, k - 1)
  {
    var all := [a] + rest;
    if ModerationSeen(all, k) && !FlagsModeration(a) {
      var j :| 0 <= j < k && j < |all| && FlagsModeration(all[j]);
      assert j != 0 && all[j] == rest[j - 1];
    }
    if ModerationSeen(rest, k - 1) {
      var j :| 0 <= j < k - 1 && j < |rest| && FlagsModeration(rest[j]);
      assert all[j + 1] == rest[j];
    }
    if FlagsModeration(a) {
      assert all[0] == a;
    }
  }

  /** Neither message the loop makes up itself sets the moderation flag. */
  lemma FixedMessagesAreNotModeration()
    ensures !IsModeration(MissingKeyMessage) && !IsModeration(UnknownErrorMessage)
  {
    NotIncludedWithoutPair(MissingKeyMessage, "safety", 's', 'a');
    NotIncludedWithoutPair(MissingKeyMessage, "moderation", 'm', 'o');
    NotIncludedWithoutPair(UnknownErrorMessage, "safety", 's', 'a');
    NotIncludedWithoutPair(UnknownErrorMessage, "moderation", 'm', 'o');
  }

  /** With the routes' missing-key message, only a provider error that
      mentions moderation sets the flag: neither the missing-key message nor
      the "Unknown error" default does. */
  lemma OnlyProviderErrorsFlag(a: Attempt)
    requires a.NotInitialised? ==> a.message == MissingKeyMessage
    ensures FlagsModeration(a) <==> a.Called? && a.reply.Failed? && IsModeration(a.reply.message)
  {
    FixedMessagesAreNotModeration();
    if a.Called? && a.reply.Failed? && a.reply.message == "" {
      assert !Includes("", "safety") && !Includes("", "moderation");
    }
  }

  /** Attempt k is exactly what the loop body does in attempt `n + k` with the
      flag set by the state it started from or by any earlier attempt: the
      moderation flag is sticky, and the provider sees the attempt's prompt. */
  lemma {:induction false} DriveAttempt(c: Ctx, n: nat, h: bool, k: nat)
    requires n < MaxRetries && k < |Drive(c, n, h).attempts|
    ensures var r := Drive(c, n, h);
      r.attempts[k] == AttemptAt(c, n + k, h || ModerationSeen(r.attempts, k))
    decreases k
  {
    var a := AttemptAt(c, n, h);
    DriveAttemptsCons(c, n, h);
    if k == 0 {
      assert !ModerationSeen(Drive(c, n, h).attempts, 0);
    } else {
      var h' := h || FlagsModeration(a);
      DriveAttempt(c, n + 1, h', k - 1);
      var rest := Drive(c, n + 1, h').attempts;
      assert rest[k - 1] == AttemptAt(c, n + 1 + (k - 1), h' || ModerationSeen(rest, k - 1));
      assert n + 1 + (k - 1) == n + k;
      assert rest[k - 1] == AttemptAt(c, n + k, h' || ModerationSeen(rest, k - 1));
      ShiftAttempt(c, n + k, h, a, h', rest, k);
    }
  }

  /** Attempt `k` of a run whose first attempt is `a`, from attempt `k - 1`
      of the rest of the run. */
  lemma ShiftAttempt(c: Ctx, m: nat, h: bool, a: Attempt, h': bool, rest: seq<Attempt>, k: nat)
    requires 0 < k <= |rest| && h' == (h || FlagsModeration(a))
    requires rest[k - 1] == AttemptAt(c, m, h' || ModerationSeen(rest, k - 1))
    ensures ([a] + rest)[k] == AttemptAt(c, m, h || ModerationSeen([a] + rest, k))
  {
    ModerationSeenCons(a, rest, k);
  }

  /** One step of `Drive`: the first attempt, and what follows it. */
  lemma DriveStep(c: Ctx, n: nat, h: bool)
    requires n < MaxRetries
    ensures var a := AttemptAt(c, n, h);
      var r := Drive(c, n, h);
      && r.attempts[0] == a
      && (ErrorOf(a).None? ==> r == Run([a], [], Returned(a.reply.url)))
      && (ErrorOf(a).Some? && n + 1 == MaxRetries ==> r == Run([a], [], Rethrown(ErrorOf(a).value)))
      && (ErrorOf(a).Some? && n + 1 < MaxRetries ==>
            var rest := Drive(c, n + 1, h || FlagsModeration(a));
            r == Run([a] + rest.attempts, [Backoff(n + 1)] + rest.waits, rest.end))
  {
  }

  /** The attempts of `Drive`: the first one, then those of the next state. */
  lemma DriveAttemptsCons(c: Ctx, n: nat, h: bool)
    requires n < MaxRetries
    ensures var a := AttemptAt(c, n, h);
      var r := Drive(c, n, h);
      && r.attempts[0] == a
      && (|r.attempts| > 1 ==>
            && ErrorOf(a).Some? && n + 1 < MaxRetries
            && r.attempts == [a] + Drive(c, n + 1, h || FlagsModeration(a)).attempts)
  {
  }

  /** Every attempt but the last one failed. */
  lemma {:induction false} DriveRetriesFailures(c: Ctx, n: nat, h: bool)
    requires n < MaxRetries
    ensures var r := Drive(c, n, h);
      forall k :: 0 <= k < |r.attempts| - 1 ==> ErrorOf(r.attempts[k]).Some?
    decreases MaxRetries - n
  {
    var a := AttemptAt(c, n, h);
    DriveStep(c, n, h);
    if ErrorOf(a).Some? && n + 1 < MaxRetries {
      var h' := h || FlagsModeration(a);
      DriveRetriesFailures(c, n + 1, h');
      var rest := Drive(c, n + 1, h');
      var r := Drive(c, n, h);
      forall k | 1 <= k < |r.attempts| - 1
        ensures ErrorOf(r.attempts[k]).Some?
      {
        assert r.attempts[k] == rest.attempts[k - 1];
      }
    }
  }

  /** A success envelope ends the loop, with or without a URL; the loop
      rethrows only after `MaxRetries - n` failures, and then it rethrows the
      last error. */
  lemma {:induction false} DriveLast(c: Ctx, n: nat, h: bool)
    requires n < MaxRetries
    ensures var r := Drive(c, n, h);
      var last := r.attempts[|r.attempts| - 1];
      && (r.end.Returned? <==> ErrorOf(last).None?)
      && (r.end.Returned? ==> last == Called(last.prompt, Generated(r.end.url)))
      && (r.end.Rethrown? ==> |r.attempts| == MaxRetries - n && ErrorOf(last) == Some(r.end.message))
    decreases MaxRetries - n
  {
    var a := AttemptAt(c, n, h);
    DriveStep(c, n, h);
    if ErrorOf(a).Some? && n + 1 < MaxRetries {
      var h' := h || FlagsModeration(a);
      DriveLast(c, n + 1, h');
      var rest := Drive(c, n + 1, h');
      var r := Drive(c, n, h);
      assert r.attempts[|r.attempts| - 1] == rest.attempts[|rest.attempts| - 1];
    }
  }

  /** Only the last attempt can succeed. A success envelope ends the loop, with
      or without a URL; the loop rethrows only after `MaxRetries - n` failures,
      and then it rethrows the last error. */
  lemma DriveEnds(c: Ctx, n: nat, h: bool)
    requires n < MaxRetries
    ensures var r := Drive(c, n, h);
      && |r.attempts| >= 1
      && (forall k :: 0 <= k < |r.attempts| - 1 ==> ErrorOf(r.attempts[k]).Some?)
      && (r.end.Returned? <==> ErrorOf(r.attempts[|r.attempts| - 1]).None?)
      && (r.end.Returned? ==> r.attempts[|r.attempts| - 1] == Called(r.attempts[|r.attempts| - 1].prompt, Generated(r.end.url)))
      && (r.end.Rethrown? ==> |r.attempts| == MaxRetries - n && ErrorOf(r.attempts[|r.attempts| - 1]) == Some(r.end.message))
  {
    DriveRetriesFailures(c, n, h);
    DriveLast(c, n, h);
  }

  /** Without an API key the provider is never called: all `MaxRetries - n`
      attempts throw the initialisation error, which is rethrown at the end. */
  lemma {:induction false} DriveWithoutKey(c: Ctx, n: nat, h: bool)
    requires n < MaxRetries && !c.apiKeyPresent
    ensures var r := Drive(c, n, h);
      && |r.attempts| == MaxRetries - n
      && (forall k :: 0 <= k < |r.attempts| ==> r.attempts[k] == NotInitialised(c.keyError))
      && r.end == Rethrown(c.keyError)
    decreases MaxRetries - n
  {
    if n + 1 < MaxRetries {
      var a := AttemptAt(c, n, h);
      var h' := h || FlagsModeration(a);
      DriveWithoutKey(c, n + 1, h');
      var r := Drive(c, n, h);
      var rest := Drive(c, n + 1, h');
      assert r.attempts == [NotInitialised(c.keyError)] + rest.attempts;
    }
  }

  lemma Pow2Grows(i: nat, j: nat)
    requires i < j
    ensures Pow2(i) < Pow2(j)
    decreases j
  {
    if j > i + 1 {
      Pow2Grows(i, j - 1);
    }
  }

  /** The waits are 2000 ms and then 4000 ms: one fewer than the attempts,
      strictly increasing, and none after the last attempt. */
  lemma BackoffSchedule(c: Ctx)
    ensures var r := Generate(c);
      && |r.waits| == |r.attempts| - 1
      && r.waits == [2000, 4000][..|r.waits|]
      && (forall i, j :: 0 <= i < j < |r.waits| ==> r.waits[i] < r.waits[j])
  {
    DriveWaits(c, 0, false);
    var r := Generate(c);
    assert Pow2(1) == 2 && Pow2(2) == 4;
    forall i, j | 0 <= i < j < |r.waits|
      ensures r.waits[i] < r.waits[j]
    {
      Pow2Grows(i + 1, j + 1);
    }
  }

  /** Attempts before the first moderation error use the full prompt; every
      attempt after it uses the fallback prompt. Attempt k asks the provider
      for attempt k with that prompt. */
  lemma StickyFallback(c: Ctx)
    ensures var r := Generate(c);
      forall k :: 0 <= k < |r.attempts| && r.attempts[k].Called? ==>
        && r.attempts[k].prompt == (if ModerationSeen(r.attempts, k) then c.fallback else c.primary)
        && r.attempts[k].reply == c.provider(k, r.attempts[k].prompt)
  {
    var r := Generate(c);
    assert r == Drive(c, 0, false);
    forall k | 0 <= k < |r.attempts| && r.attempts[k].Called?
      ensures r.attempts[k].prompt == (if ModerationSeen(r.attempts, k) then c.fallback else c.primary)
      ensures r.attempts[k].reply == c.provider(k, r.attempts[k].prompt)
    {
      DriveAttempt(c, 0, false, k);
    }
  }

  /** A success envelope is never retried, even when it carries no URL. */
  lemma SuccessEndsLoop(c: Ctx)
    ensures var r := Generate(c);
      forall k :: 0 <= k < |r.attempts| && r.attempts[k].Called? && r.attempts[k].reply.Generated? ==>
        k == |r.attempts| - 1 && r.end == Returned(r.attempts[k].reply.url)
  {
    DriveEnds(c, 0, false);
  }

  /** The loop rethrows only after three failed attempts, and rethrows the
      third one's error. */
  lemma RethrowAfterThreeFailures(c: Ctx)
    ensures var r := Generate(c);
      r.end.Rethrown? ==>
        && |r.attempts| == MaxRetries
        && (forall k :: 0 <= k < MaxRetries ==> ErrorOf(r.attempts[k]).Some?)
        && ErrorOf(r.attempts[MaxRetries - 1]) == Some(r.end.message)
  {
    DriveEnds(c, 0, false);
  }

  /** Without an API key: three attempts, no provider call, waits of 2000 and
      4000 ms, and the initialisation error is rethrown. */
  lemma MissingKeyRetried(c: Ctx)
    requires !c.apiKeyPresent
    ensures var e := NotInitialised(c.keyError);
      Generate(c) == Run([e, e, e], [2000, 4000], Rethrown(c.keyError))
  {
    DriveWithoutKey(c, 0, false);
    DriveWaits(c, 0, false);
    var r := Generate(c);
    assert Pow2(1) == 2 && Pow2(2) == 4;
    assert r.waits == [2000, 4000];
    assert r.attempts == [NotInitialised(c.keyError), NotInitialised(c.keyError), NotInitialised(c.keyError)];
  }

  /** The loop ends with a URL exactly when some attempt received an envelope
      carrying one; it is then the last attempt, and every earlier one failed. */
  lemma UrlFromLastAttempt(c: Ctx)
    ensures var r := Generate(c);
      && ((r.end.Returned? && r.end.url.Some? && r.end.url.value != "") <==>
            exists k :: 0 <= k < |r.attempts| && r.attempts[k].Called?
              && r.attempts[k].reply.Generated? && r.attempts[k].reply.url.Some?
              && r.attempts[k].reply.url.value != "")
      && (r.end.Returned? ==>
            && r.attempts[|r.attempts| - 1].reply == Generated(r.end.url)
            && (forall k :: 0 <= k < |r.attempts| - 1 ==> ErrorOf(r.attempts[k]).Some?))
  {
    var r := Generate(c);
    DriveEnds(c, 0, false);
    SuccessEndsLoop(c);
    var last := |r.attempts| - 1;
    if r.end.Returned? && r.end.url.Some? && r.end.url.value != "" {
      assert r.attempts[last].Called? && r.attempts[last].reply.Generated?;
    }
  }

  /** A provider that rejects every prompt on moderation grounds: the first
      attempt uses the full prompt, the next two the fallback prompt, with
      waits of 2000 and 4000 ms, and the rejection is rethrown. */
  lemma ModerationEveryAttempt(c: Ctx, m: string)
    requires c.apiKeyPresent && IsModeration(m)
    requires forall k: nat, p: string :: c.provider(k, p) == Failed(m)
    ensures Generate(c) == Run([Called(c.primary, Failed(m)), Called(c.fallback, Failed(m)), Called(c.fallback, Failed(m))],
                               [2000, 4000], Rethrown(m))
  {
    assert m != "";
    assert LoggedMessage(m) == m;
    assert Pow2(1) == 2 && Pow2(2) == 4;
    var third := Drive(c, 2, true);
    assert third == Run([Called(c.fallback, Failed(m))], [], Rethrown(m));
    var second := Drive(c, 1, true);
    assert second == Run([Called(c.fallback, Failed(m))] + third.attempts, [4000] + third.waits, Rethrown(m));
    var first := Drive(c, 0, false);
    assert first == Run([Called(c.primary, Failed(m))] + second.attempts, [2000] + second.waits, Rethrown(m));
  }

  // ---------------------------------------------------------------------------
  // Classification of the final error

  /** The three kinds of error response: moderation (400), configuration (500)
      and every other failure (500). */
  datatype ErrorKind = ModerationRejected | ConfigurationError | GenericFailure

  /** The route's `catch` block: moderation is tested first, then the API key. */
  function Classify(message: string): (k: ErrorKind)
    ensures k == ModerationRejected <==> IsModeration(message)
    ensures k == ConfigurationError <==> !IsModeration(message) && Includes(message, "API key")
  {
    if Includes(message, "moderation") || Includes(message, "safety") then ModerationRejected
    else if Includes(message, "API key") then ConfigurationError
    else GenericFailure
  }

  /** The initialisation error never sets the moderation flag, and once it is
      rethrown it is classified as a configuration error. */
  lemma MissingKeyIsConfigurationError()
    ensures !IsModeration(LoggedMessage(MissingKeyMessage))
    ensures Classify(MissingKeyMessage) == ConfigurationError
  {
    NotIncludedWithoutPair(MissingKeyMessage, "safety", 's', 'a');
    NotIncludedWithoutPair(MissingKeyMessage, "moderation", 'm', 'o');
    assert OccursAt(MissingKeyMessage, "API key", 46);
  }
}
