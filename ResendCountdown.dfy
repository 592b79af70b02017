/**
 * The resend countdown both OTP pages run: `startResendTimer` sets 30
 * seconds and disables resending, and each firing of the one-second
 * interval steps the timer down, re-enabling resending when it runs out.
 */
module ResendCountdown {

  const ResendSeconds: nat := 30

  /** The relation the two fields keep: resending is allowed exactly when no time is left. */
  predicate CountdownConsistent(timer: nat, canResend: bool) {
    timer <= ResendSeconds && (canResend <==> timer == 0)
  }

  /** The updater passed to `setResendTimer` by one interval firing. */
  function TickTimer(prev: nat): (next: nat)
    ensures next == 0 <==> prev <= 1
    ensures next < prev || prev == 0
    ensures prev > 1 ==> next == prev - 1
  {
    if prev <= 1 then 0 else prev - 1
  }

  /** Whether the firing re-enables resending (the `prev <= 1` branch). */
  function TickEnables(prev: nat): bool {
    prev <= 1
  }

  /** One firing keeps the two fields consistent. */
  lemma TickKeepsConsistent(timer: nat, canResend: bool)
    requires CountdownConsistent(timer, canResend)
    ensures CountdownConsistent(TickTimer(timer), canResend || TickEnables(timer))
  {
  }

  /** The timer after k firings. */
  function AfterTicks(timer: nat, k: nat): nat {
    if k == 0 then timer else AfterTicks(TickTimer(timer), k - 1)
  }

  /** At least as many firings as seconds left bring the timer to zero. */
  lemma {:induction false} CountdownRunsOut(timer: nat, k: nat)
    requires k >= timer
    ensures AfterTicks(timer, k) == 0
  {
    if k > 0 {
      CountdownRunsOut(TickTimer(timer), k - 1);
    } else {
      assert timer == 0;
    }
  }

  /** From a fresh start, resending becomes possible after exactly 30 firings and not before. */
  lemma {:induction false} FreshCountdownLasts(k: nat)
    requires k <= ResendSeconds
    ensures AfterTicks(ResendSeconds, k) == ResendSeconds - k
  {
    if k > 0 {
      AfterTicksLast(ResendSeconds, k - 1);
      FreshCountdownLasts(k - 1);
    }
  }

  /** Firing k + 1 times is firing k times and then once more. */
  lemma {:induction false} AfterTicksLast(timer: nat, k: nat)
    ensures AfterTicks(timer, k + 1) == TickTimer(AfterTicks(timer, k))
  {
    if k > 0 {
      AfterTicksLast(TickTimer(timer), k - 1);
    }
  }
}
