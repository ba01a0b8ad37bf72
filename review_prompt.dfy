/** `experiencedReview()` of the form screens that count completed resets:
    ask for an App Store review once the user has completed at least three
    resets, and at most once per app version. */
module ReviewPrompt {
  import opened AppStorage

  /** Whether `experiencedReview()` prompts in a state with these stored values. */
  predicate WouldPrompt(processCompletedCount: int, currentAppVersion: string, lastVersionPromptedForReview: string) {
    processCompletedCount >= 3 && currentAppVersion != lastVersionPromptedForReview
  }

  /** Prompts (the delayed `presentReview()`) exactly when the count has
      reached 3 and the current version has not been prompted for yet, and
      then records the current version as prompted. Afterwards the same call
      would not prompt again: the decision is idempotent. */
  method ExperiencedReview(d: Defaults) returns (prompted: bool)
    modifies d`lastVersionPromptedForReview
    ensures prompted <==> d.processCompletedCount >= 3 && d.currentAppVersion != old(d.lastVersionPromptedForReview)
    ensures d.lastVersionPromptedForReview == if prompted then d.currentAppVersion else old(d.lastVersionPromptedForReview)
    ensures !WouldPrompt(d.processCompletedCount, d.currentAppVersion, d.lastVersionPromptedForReview)
  {
    prompted := false;
    if d.processCompletedCount >= 3 && d.currentAppVersion != d.lastVersionPromptedForReview {
      prompted := true;
      d.lastVersionPromptedForReview := d.currentAppVersion;
    }
  }
}
