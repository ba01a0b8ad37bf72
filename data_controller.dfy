/** `DataController.requestReview()`: a second copy of the launch counter,
    reading and writing the same "launchCount" key. */
module DataController {
  import opened AppStorage
  import ReviewManager

  /** The copy as written; its effect on the store and its decision are those
      of `ReviewManager.requestReview()` for every stored count and scene. */
  method RequestReview(d: Defaults, sceneActive: bool) returns (requested: bool)
    modifies d`launchCount
    ensures ReviewManager.Outcome(d.launchCount, requested) == ReviewManager.LaunchStep(old(d.launchCount), sceneActive)
    ensures old(d.launchCount) < 3 ==> d.launchCount == old(d.launchCount) + 1 && !requested
    ensures old(d.launchCount) >= 3 ==> (requested <==> sceneActive)
    ensures 0 <= old(d.launchCount) <= 3 ==> 0 <= d.launchCount <= 3
  {
    requested := false;
    var launchCount := d.launchCount;
    if launchCount >= 3 {
      if sceneActive {
        requested := true;
        launchCount := 0;
      }
    } else {
      launchCount := launchCount + 1;
    }
    d.launchCount := launchCount;
  }
}
