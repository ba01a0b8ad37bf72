/** `ReviewManager.requestReview()`: a launch counter kept in UserDefaults.
    Below 3 each call counts one more launch; from 3 on, a call asks for a
    review when there is a foreground-active window scene and then starts
    counting again from 0. */
module ReviewManager {
  import opened AppStorage

  /** The stored count after a call and whether the call asked for a review. */
  datatype Outcome = Outcome(launchCount: int, requested: bool)

  /** The specification of one call, given the stored count and whether a
      foreground-active window scene exists. */
  function LaunchStep(launchCount: int, sceneActive: bool): (r: Outcome)
    ensures r.requested <==> launchCount >= 3 && sceneActive
    ensures r.requested ==> r.launchCount == 0
    ensures !r.requested ==> r.launchCount == (if launchCount < 3 then launchCount + 1 else launchCount)
    ensures 0 <= launchCount <= 3 ==> 0 <= r.launchCount <= 3
  {
    if launchCount < 3 then Outcome(launchCount + 1, false)
    else if sceneActive then Outcome(0, true)
    else Outcome(launchCount, false)
  }

  /** The stored count after `n` calls that each found an active scene. */
  function CountAfter(launchCount: int, n: nat): int {
    if n == 0 then launchCount else LaunchStep(CountAfter(launchCount, n - 1), true).launchCount
  }

  /** Starting from a fresh store and with a scene always active, the count
      cycles 0, 1, 2, 3, 0, ... and exactly every fourth call asks for a
      review. */
  lemma {:induction false} EveryFourthCall(n: nat)
    ensures CountAfter(0, n) == n % 4
    ensures LaunchStep(CountAfter(0, n), true).requested <==> (n + 1) % 4 == 0
  {
    if n > 0 {
      EveryFourthCall(n - 1);
    }
  }

  /** Without an active scene a count that has reached 3 never moves and no
      review is ever asked for. */
  lemma {:induction false} StuckWithoutScene(launchCount: int, n: nat)
    requires launchCount >= 3
    ensures LaunchStepsWithoutScene(launchCount, n) == launchCount
  {
    if n > 0 {
      StuckWithoutScene(launchCount, n - 1);
    }
  }

  /** The stored count after `n` calls that found no active scene. */
  function LaunchStepsWithoutScene(launchCount: int, n: nat): int {
    if n == 0 then launchCount else LaunchStep(LaunchStepsWithoutScene(launchCount, n - 1), false).launchCount
  }

  /** The method as written: read the stored count into a local, update it
      in the branches and write the final value back. */
  method RequestReview(d: Defaults, sceneActive: bool) returns (requested: bool)
    modifies d`launchCount
    ensures Outcome(d.launchCount, requested) == LaunchStep(old(d.launchCount), sceneActive)
    ensures old(d.launchCount) < 3 ==> d.launchCount == old(d.launchCount) + 1 && !requested
    ensures old(d.launchCount) >= 3 && sceneActive ==> d.launchCount == 0 && requested
    ensures old(d.launchCount) >= 3 && !sceneActive ==> d.launchCount == old(d.launchCount) && !requested
  {
    requested := false;
    var launchCount := d.launchCount;
    if launchCount >= 3 {
      if sceneActive {
        requested := true;
        launchCount := 0;
      }
    } else {
      launchCount := launchCount + 1;
    }
    d.launchCount := launchCount;
  }
}
