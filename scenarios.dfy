/** End-to-end cases proved of the model: a verified session that reaches zero,
    a tamper pause a few seconds in, and store purchases refused before any
    call is made. */
module Scenarios {
  import opened Remote
  import opened StudyTimer
  import opened Marketplace

  /** A freshly mounted timer, opened for today and started in verified mode
      with a token, completes for today at its 1500th tick (25 minutes) when
      the server confirms the time, and not before. */
  lemma VerifiedSessionCompletes(today: int, token: string)
    requires token != ""
    ensures var started := AfterStart(AfterOpen(StudyTimer.Initial, today), Ok(Some(token)));
      && started.isRunning && started.timeLeft == 25 * 60
      && Ticked(Run(started, 25 * 60 - 1, Ok(true)), Ok(true)).1 == Some(Completed(today))
      && Ticked(Run(started, 25 * 60 - 1, Ok(true)), Ok(true)).0.timeLeft == 0
      && !Ticked(Run(started, 25 * 60 - 1, Ok(true)), Ok(true)).0.isRunning
      && forall k :: 0 <= k < 25 * 60 - 1 ==> Ticked(Run(started, k, Ok(true)), Ok(true)).1.None?
  {
    var started := AfterStart(AfterOpen(StudyTimer.Initial, today), Ok(Some(token)));
    CountsDown(started, 25 * 60 - 1, Ok(true));
    forall k | 0 <= k < 25 * 60 - 1
      ensures Ticked(Run(started, k, Ok(true)), Ok(true)).1.None?
    {
      CompletesAtLastTick(started, k, Ok(true));
    }
  }

  /** The same session, hidden after five seconds: it stops with the tamper
      status, keeps its remaining time, and the next tick fires nothing. */
  lemma TamperAfterFiveSeconds(today: int, token: string, verdict: Reply<bool>)
    requires token != ""
    ensures var started := AfterStart(AfterOpen(StudyTimer.Initial, today), Ok(Some(token)));
      var paused := AfterVisibility(Run(started, 5, verdict), true);
      && !paused.isRunning && paused.statusMsg == CheatMsg && paused.timeLeft == 25 * 60 - 5
      && Ticked(paused, verdict) == (paused, None)
  {
    var started := AfterStart(AfterOpen(StudyTimer.Initial, today), Ok(Some(token)));
    CountsDown(started, 5, verdict);
  }

  /** With 300 coins, the 500-coin gold theme is refused for a shortfall of
      200 to a member, and for membership to a free account; the popover does
      not open either way. */
  lemma GoldThemeWithThreeHundredCoins()
    ensures PurchaseGate(Items[1], true, 300) == InsufficientFunds(200)
    ensures PurchaseGate(Items[1], false, 300) == PremiumRequired
  {
  }
}
