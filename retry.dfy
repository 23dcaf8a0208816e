/**
 * The counters of one `reconnect` run, as values: the attempts made, the
 * attempts remaining, and the delay of the scheduled next attempt.
 */
module Retry {
  import opened Wrappers
  import opened Persistence

  /** The delay of the first, "immediate" attempt. */
  const FirstDelay: int := 200

  /** `timer` is the delay of the scheduled attempt; `None` once nothing is scheduled. */
  datatype Countdown = Countdown(made: int, remaining: int, timer: Option<int>)

  /**
   * The numeric budget `attemptsRemaining` starts from. The source tests it with
   * `!attemptsRemaining` and decrements it, so a boolean acts as 1 or 0, a
   * function as 1 (after one decrement it is NaN, which is falsy), and an absent
   * value as 0.
   */
  function Budget(attempts: Option<OptionValue>): int {
    match attempts
    case Some(Num(n)) => n
    case Some(Bool(b)) => if b then 1 else 0
    case Some(Func(_, _)) => 1
    case None => 0
  }

  /** The delay to the next attempt: `interval` itself, or `interval(attemptsMade)`; otherwise `setTimeout`'s 0. */
  function Delay(interval: Option<OptionValue>, made: int): int {
    match interval
    case Some(Num(n)) => n
    case Some(Func(_, f)) => f(made)
    case _ => 0
  }

  /** A fresh run: nothing made, the whole budget remaining, the first attempt scheduled. */
  function Start(budget: int): Countdown {
    Countdown(0, budget, Some(FirstDelay))
  }

  /**
   * The scheduled timer fires: with nothing remaining the run times out and
   * schedules nothing; otherwise it schedules the next attempt and counts this one.
   */
  function Fire(c: Countdown, interval: Option<OptionValue>): (next: Countdown)
    ensures next.made + next.remaining == c.made + c.remaining
    ensures next.timer.None? <==> c.remaining == 0
  {
    if c.remaining == 0 then c.(timer := None)
    else Countdown(c.made + 1, c.remaining - 1, Some(Delay(interval, c.made)))
  }

  /** The connection of some attempt opened: nothing remains and the scheduled timer is cleared. */
  function Succeed(c: Countdown): Countdown {
    c.(remaining := 0, timer := None)
  }

  /** The run after its timer has fired `k` times with a fixed `interval`. */
  function FireTimes(c: Countdown, interval: Option<OptionValue>, k: nat): Countdown {
    if k == 0 then c else Fire(FireTimes(c, interval, k - 1), interval)
  }

  /**
   * With a budget of `n >= 0`, each of the first `n` firings is an attempt whose
   * successor is scheduled with `Delay(interval, made)`, and the counters always
   * add up to the budget.
   */
  lemma {:induction false} AttemptsCounted(n: nat, interval: Option<OptionValue>, k: nat)
    requires k <= n
    ensures FireTimes(Start(n), interval, k).made == k
    ensures FireTimes(Start(n), interval, k).remaining == n - k
    ensures k > 0 ==> FireTimes(Start(n), interval, k).timer == Some(Delay(interval, k - 1))
  {
    if k > 0 {
      AttemptsCounted(n, interval, k - 1);
    }
  }

  /** After its `n` attempts a run with budget `n` times out on the next firing and schedules nothing more. */
  lemma TimesOutAfterBudget(n: nat, interval: Option<OptionValue>)
    ensures FireTimes(Start(n), interval, n).timer.Some?
    ensures FireTimes(Start(n), interval, n + 1).timer.None?
    ensures FireTimes(Start(n), interval, n + 1).made == n
  {
    if n > 0 {
      AttemptsCounted(n, interval, n);
    }
  }

  /** A negative budget never reaches zero: the run keeps attempting. */
  lemma {:induction false} NegativeBudgetNeverTimesOut(n: int, interval: Option<OptionValue>, k: nat)
    requires n < 0
    ensures FireTimes(Start(n), interval, k).remaining == n - k
    ensures FireTimes(Start(n), interval, k).timer.Some?
  {
    if k > 0 {
      NegativeBudgetNeverTimesOut(n, interval, k - 1);
    }
  }
}
