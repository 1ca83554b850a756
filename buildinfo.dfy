/**
 * `BuildInfo`: the mutable record of one repository's Travis and local build.
 * `Record` is its value (every attribute), the functions beside it are what
 * each setter does to that value, and the class `BuildInfo` holds the
 * attributes as fields and is proved to follow those functions.
 */
module BuildState {
  import opened Wrappers
  import opened Text
  import opened Exceptions
  import opened TravisApi
  import opened GitHub

  /** A Travis build as the API returns it. */
  datatype TravisBuild = TravisBuild(
    id: int,
    number: int,
    state: string,
    color: string,
    duration: int,
    errored: bool,
    finished: bool)

  /** What a local build reports; any part may be absent. */
  datatype LocalOutcome = LocalOutcome(
    returnCode: Option<int>,
    output: Option<string>,
    duration: Option<int>,
    exception: Option<string>,
    exType: Option<string>,
    traceback: Option<string>)

  /** The attributes describing the Travis build (`travis_build_*`). */
  datatype TravisStatus = TravisStatus(
    result: Option<TravisBuild>,
    state: Option<string>,
    color: Option<string>,
    duration: Option<int>,
    errored: Option<bool>,
    number: Option<int>,
    url: Option<string>,
    finished: bool)

  /** The attributes describing the local build (`local_build_*`). */
  datatype LocalStatus = LocalStatus(
    returnCode: Option<int>,
    output: Option<string>,
    exception: Option<string>,
    exType: Option<string>,
    traceback: Option<string>,
    finished: bool,
    duration: Option<int>,
    s3Link: Option<string>)

  /** Every attribute of a `BuildInfo`. */
  datatype Record = Record(
    slug: string,
    localScript: Option<ProjectConfig>,
    httpsCloneUrl: Option<string>,
    sshCloneUrl: Option<string>,
    runTravis: bool,
    runLocal: bool,
    travisTriggerError: Option<BuildError>,
    travisBuildId: Option<int>,
    travis: TravisStatus,
    local: LocalStatus)

  /** The attributes no setter touches. */
  function Identity(r: Record): (string, Option<ProjectConfig>, Option<string>, Option<string>, bool, bool) {
    (r.slug, r.localScript, r.httpsCloneUrl, r.sshCloneUrl, r.runTravis, r.runLocal)
  }

  const TravisNotRun := TravisStatus(None, None, None, None, None, None, None, false)
  const LocalNotRun := LocalStatus(None, None, None, None, None, false, None, None)

  /** A fresh record: a local build is wanted exactly when a local script was given. */
  function NewRecord(slug: string, localScript: Option<ProjectConfig>): (r: Record)
    ensures r.slug == slug && r.localScript == localScript
    ensures !r.runTravis && r.travisTriggerError.None? && r.travisBuildId.None?
    ensures r.runLocal <==> localScript.Some?
    ensures !r.travis.finished && !r.local.finished && !Done(r)
  {
    Record(slug, localScript, None, None, false, localScript.Some?, None, None, TravisNotRun, LocalNotRun)
  }

  /** `is_done`: the Travis build finished and, if a local build is wanted, it finished too. */
  predicate Done(r: Record) {
    r.travis.finished && (!r.runLocal || r.local.finished)
  }

  function WithTriggerError(r: Record, e: BuildError): Record {
    r.(travisTriggerError := Some(e))
  }

  function WithBuildId(r: Record, id: Option<int>): Record {
    r.(travisBuildId := id)
  }

  /** `set_travis_build_finished`: copies the fetched build and links to its page. */
  function FinishedWith(r: Record, b: TravisBuild): Record {
    r.(travis := TravisStatus(Some(b), Some(b.state), Some(b.color), Some(b.duration), Some(b.errored),
                              Some(b.number), Some(UrlForBuild(r.slug, b.id)), true))
  }

  /** `set_dry_run`: a finished sentinel Travis result. */
  function DryRun(r: Record): Record {
    r.(travisBuildId := Some(-1),
       travis := TravisStatus(r.travis.result, Some("DRY RUN"), Some("black"), Some(-1), Some(false),
                              Some(-1), Some("#"), true))
  }

  /** `set_local_build`: stores every part of the outcome, supplied or not, and marks the local build finished. */
  function WithLocalBuild(r: Record, o: LocalOutcome): Record {
    r.(local := LocalStatus(o.returnCode, o.output, o.exception, o.exType, o.traceback, true, o.duration,
                            r.local.s3Link))
  }

  function WithS3Link(r: Record, link: string): Record {
    r.(local := r.local.(s3Link := Some(link)))
  }

  /** One call of a `BuildInfo` setter. */
  datatype Update =
    | SetTriggerError(e: BuildError)
    | SetBuildId(id: Option<int>)
    | SetFinished(b: TravisBuild)
    | SetDryRun
    | SetLocal(o: LocalOutcome)
    | SetS3Link(link: string)

  function Apply(r: Record, u: Update): Record {
    match u
    case SetTriggerError(e) => WithTriggerError(r, e)
    case SetBuildId(id) => WithBuildId(r, id)
    case SetFinished(b) => FinishedWith(r, b)
    case SetDryRun => DryRun(r)
    case SetLocal(o) => WithLocalBuild(r, o)
    case SetS3Link(link) => WithS3Link(r, link)
  }

  function ApplyAll(r: Record, us: seq<Update>): Record
    decreases |us|
  {
    if us == [] then r else ApplyAll(Apply(r, us[0]), us[1..])
  }

  // ----- what the setters promise -----

  /** No setter changes the slug, the script, the clone URLs or what is to be run. */
  lemma UpdateKeepsIdentity(r: Record, u: Update)
    ensures Identity(Apply(r, u)) == Identity(r)
  {
  }

  /** Recording a Travis outcome leaves the local build untouched, and the reverse. */
  lemma UpdatesTouchOneSide(r: Record, u: Update)
    ensures (u.SetTriggerError? || u.SetBuildId? || u.SetFinished? || u.SetDryRun?) ==> Apply(r, u).local == r.local
    ensures (u.SetLocal? || u.SetS3Link?) ==>
      Apply(r, u).travis == r.travis && Apply(r, u).travisBuildId == r.travisBuildId
  {
  }

  /** `set_travis_trigger_error` stores exactly the error and nothing else changes. */
  lemma TriggerErrorOnlyChangesError(r: Record, e: BuildError)
    ensures WithTriggerError(r, e).travisTriggerError == Some(e)
    ensures WithTriggerError(r, e).(travisTriggerError := r.travisTriggerError) == r
  {
  }

  /** `set_travis_build_id` stores exactly the id and nothing else changes. */
  lemma BuildIdOnlyChangesId(r: Record, id: Option<int>)
    ensures WithBuildId(r, id).travisBuildId == id
    ensures WithBuildId(r, id).(travisBuildId := r.travisBuildId) == r
  {
  }

  /** Once finished, a Travis or local build stays finished, whatever setters follow. */
  lemma {:induction false} FinishedStaysFinished(r: Record, us: seq<Update>)
    ensures r.travis.finished ==> ApplyAll(r, us).travis.finished
    ensures r.local.finished ==> ApplyAll(r, us).local.finished
    ensures Identity(ApplyAll(r, us)) == Identity(r)
    decreases |us|
  {
    if us != [] {
      UpdateKeepsIdentity(r, us[0]);
      FinishedStaysFinished(Apply(r, us[0]), us[1..]);
    }
  }

  /** A done record stays done: every setter keeps `is_done`. */
  lemma {:induction false} DoneIsStable(r: Record, us: seq<Update>)
    requires Done(r)
    ensures Done(ApplyAll(r, us))
  {
    FinishedStaysFinished(r, us);
  }

  /** After `set_dry_run` only a pending local build keeps a record from being done. */
  lemma DryRunDone(r: Record)
    ensures DryRun(r).travis.finished && DryRun(r).travisBuildId == Some(-1)
    ensures Done(DryRun(r)) <==> !r.runLocal || r.local.finished
    ensures DryRun(DryRun(r)) == DryRun(r)
  {
  }

  /** After a local build only the Travis side decides whether the record is done. */
  lemma LocalBuildDone(r: Record, o: LocalOutcome)
    ensures Done(WithLocalBuild(r, o)) <==> r.travis.finished
  {
  }

  /** The link stored for a finished build ends in that build's id. */
  lemma FinishedLinksToBuild(r: Record, b: TravisBuild)
    ensures FinishedWith(r, b).travis.url.Some?
    ensures ParseInt(LastField(FinishedWith(r, b).travis.url.value, '/')) == Some(b.id)
    ensures FinishedWith(r, b).travis.result == Some(b)
  {
    UrlForBuildNamesNumber(r.slug, b.id);
  }

  /**
   * The record of one repository, updated in place by the bot. The
   * `travis_build_*` attributes are held together in `travis` and the
   * `local_build_*` attributes in `local`.
   */
  class BuildInfo {
    const slug: string
    const localScript: Option<ProjectConfig>
    var httpsCloneUrl: Option<string>
    var sshCloneUrl: Option<string>
    var runTravis: bool
    var runLocal: bool
    var travisTriggerError: Option<BuildError>
    var travisBuildId: Option<int>
    var travis: TravisStatus
    var local: LocalStatus

    ghost function Snapshot(): Record
      reads this
    {
      Record(slug, localScript, httpsCloneUrl, sshCloneUrl, runTravis, runLocal, travisTriggerError, travisBuildId,
             travis, local)
    }

    constructor (slug: string, localScript: Option<ProjectConfig>)
      ensures this.slug == slug
      ensures Snapshot() == NewRecord(slug, localScript)
    {
      this.slug := slug;
      this.localScript := localScript;
      runTravis := false;
      runLocal := true;
      travisTriggerError := None;
      travisBuildId := None;
      httpsCloneUrl, sshCloneUrl := None, None;
      travis := TravisNotRun;
      local := LocalNotRun;
      new;
      if localScript.None? {
        runLocal := false;
      }
    }

    /** `is_done`. */
    predicate IsDone()
      reads this
      ensures IsDone() <==> Done(Snapshot())
    {
      travis.finished && (!runLocal || local.finished)
    }

    method SetTravisTriggerError(e: BuildError)
      modifies this
      ensures Snapshot() == WithTriggerError(old(Snapshot()), e)
    {
      travisTriggerError := Some(e);
    }

    method SetTravisBuildId(buildId: Option<int>)
      modifies this
      ensures Snapshot() == WithBuildId(old(Snapshot()), buildId)
    {
      travisBuildId := buildId;
    }

    method SetTravisBuildFinished(b: TravisBuild)
      modifies this
      ensures Snapshot() == FinishedWith(old(Snapshot()), b)
    {
      travis := TravisStatus(Some(b), Some(b.state), Some(b.color), Some(b.duration), Some(b.errored),
                             Some(b.number), Some(UrlForBuild(slug, b.id)), true);
    }

    method SetDryRun()
      modifies this
      ensures Snapshot() == DryRun(old(Snapshot()))
    {
      travisBuildId := Some(-1);
      travis := travis.(state := Some("DRY RUN"), color := Some("black"), duration := Some(-1),
                        errored := Some(false), number := Some(-1), url := Some("#"), finished := true);
    }

    method SetLocalBuild(o: LocalOutcome)
      modifies this
      ensures Snapshot() == WithLocalBuild(old(Snapshot()), o)
    {
      local := local.(returnCode := o.returnCode, output := o.output, duration := o.duration,
                      exception := o.exception, exType := o.exType, traceback := o.traceback, finished := true);
    }

    method SetLocalBuildS3Link(link: string)
      modifies this
      ensures Snapshot() == WithS3Link(old(Snapshot()), link)
    {
      local := local.(s3Link := Some(link));
    }
  }
}
