/**
 * `LocalBuild`: runs one repository's `.rebuildbot.sh` on this machine and
 * records the result on that repository's `BuildInfo`. Cloning and running
 * the script are outside the model; what the run reports is an input.
 */
module LocalBuilds {
  import opened Wrappers
  import opened BuildState

  /** What a dry run reports: nothing ran, so no part of the outcome is known. */
  const NothingRan := LocalOutcome(None, None, None, None, None, None)

  class LocalBuild {
    const repoName: string
    const buildInfo: BuildInfo
    const dryRun: bool

    constructor (repoName: string, buildInfo: BuildInfo, dryRun: bool)
      ensures this.repoName == repoName && this.buildInfo == buildInfo && this.dryRun == dryRun
    {
      this.repoName := repoName;
      this.buildInfo := buildInfo;
      this.dryRun := dryRun;
    }

    /**
     * Runs the build (or, in a dry run, only describes it) and stores the
     * outcome, which marks the local build finished.
     */
    method Run(reported: LocalOutcome)
      modifies buildInfo
      ensures buildInfo.Snapshot() == WithLocalBuild(old(buildInfo.Snapshot()), if dryRun then NothingRan else reported)
      ensures buildInfo.local.finished
    {
      if dryRun {
        buildInfo.SetLocalBuild(NothingRan);
      } else {
        buildInfo.SetLocalBuild(reported);
      }
    }
  }
}
