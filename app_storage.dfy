/** The UserDefaults entries the review logic reads and writes (through
    `@AppStorage` in the form screens and `UserDefaults.standard` in the
    review managers). Keys that are missing read as the declaring property's
    default; `integer(forKey:)` reads a missing key as 0. */
module AppStorage {

  class Defaults {
    /** "launchCount" */
    var launchCount: int
    /** "processCompletedCount" */
    var processCompletedCount: int
    /** "currentAppVersion" */
    var currentAppVersion: string
    /** "lastVersionPromptedForReview" */
    var lastVersionPromptedForReview: string

    /** A store in which no key has been written yet: the counters read as 0
        and the two versions as the defaults the reading screen declares. */
    constructor (currentDefault: string, lastPromptedDefault: string)
      ensures launchCount == 0 && processCompletedCount == 0
      ensures currentAppVersion == currentDefault
      ensures lastVersionPromptedForReview == lastPromptedDefault
    {
      launchCount := 0;
      processCompletedCount := 0;
      currentAppVersion := currentDefault;
      lastVersionPromptedForReview := lastPromptedDefault;
    }
  }
}
