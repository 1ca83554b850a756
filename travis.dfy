/**
 * The bot's wrapper around the Travis CI API: triggering a build, waiting for
 * the repository's last-build id to change, listing candidate repositories and
 * forming build URLs. Every answer from Travis is an input: the trigger
 * response, the successive last-build ids a poll observes, the repository list.
 */
module TravisApi {
  import opened Wrappers
  import opened Text
  import opened Quoting
  import opened Exceptions

  /** Seconds slept between two polls for a new build. */
  const CheckWaitTime := 10
  /** How many polls are made before giving up. */
  const PollNumTimes := 6
  /** The Travis API endpoint that `travispy` calls `PUBLIC`. */
  const Public := "http://api.travis-ci.org"
  const TriggerMessage := "triggered by https://github.com/jantman/rebuildbot"
  const OneDay := 86400

  const ContentType := "Content-Type"
  const Accept := "Accept"
  const ApiVersion := "Travis-API-Version"
  const Json := "application/json"

  /**
   * A repository as Travis lists it. `lastBuildAge` is the number of seconds
   * since its last build started, or `None` when it has no builds (looking up
   * the last build then raises `KeyError`).
   */
  datatype TravisRepo = TravisRepo(slug: string, lastBuildAge: Option<int>)

  /** The HTTP response to the trigger request. */
  datatype Response = Response(statusCode: int, headers: seq<(string, string)>, text: string)

  /** What the trigger request sends: URL, the body's branch and message, and the headers. */
  datatype TriggerRequest = TriggerRequest(url: string, branch: string, message: string, headers: map<string, string>)

  /** `repo_build_in_last_day`: false exactly when the last build is more than 24 hours old. */
  predicate BuildInLastDay(age: int) {
    !(age > OneDay)
  }

  /** The trigger succeeded: a 2xx status. */
  predicate IsSuccess(statusCode: int) {
    statusCode >= 200 && statusCode < 300
  }

  /** The trigger endpoint; the slug is one percent-encoded path segment. */
  function TriggerUrl(slug: string): string {
    Public + "/repo/" + Quote(slug) + "/requests"
  }

  /** The HTML page of a build. */
  function UrlForBuild(slug: string, buildNum: int): string {
    "https://travis-ci.org/" + slug + "/builds/" + IntToString(buildNum)
  }

  /** The session headers after a trigger: the three API headers set, every other entry kept. */
  function ApiHeaders(h: map<string, string>): (r: map<string, string>)
    ensures r.Keys == h.Keys + {ContentType, Accept, ApiVersion}
    ensures r[ContentType] == Json && r[Accept] == Json && r[ApiVersion] == "3"
    ensures forall k :: k in h && k !in {ContentType, Accept, ApiVersion} ==> r[k] == h[k]
  {
    h[ContentType := Json][Accept := Json][ApiVersion := "3"]
  }

  lemma ApiHeadersIdempotent(h: map<string, string>)
    ensures ApiHeaders(ApiHeaders(h)) == ApiHeaders(h)
  {
  }

  /** The repositories `get_repos` keeps, before sorting. */
  predicate Keeps(login: string, r: TravisRepo, dateCheck: bool) {
    StartsWith(r.slug, login + "/")
    && r.lastBuildAge.Some?
    && !(dateCheck && BuildInLastDay(r.lastBuildAge.value))
  }

  /** The slugs `get_repos` appends, in the order Travis lists the repositories. */
  function Candidates(login: string, repos: seq<TravisRepo>, dateCheck: bool): seq<string>
    decreases |repos|
  {
    if repos == [] then []
    else
      var last := repos[|repos| - 1];
      Candidates(login, repos[..|repos| - 1], dateCheck)
      + (if Keeps(login, last, dateCheck) then [last.slug] else [])
  }

  lemma {:induction false} CandidatesMembership(login: string, repos: seq<TravisRepo>, dateCheck: bool, s: string)
    ensures s in Candidates(login, repos, dateCheck)
        <==> exists i :: 0 <= i < |repos| && Keeps(login, repos[i], dateCheck) && repos[i].slug == s
    decreases |repos|
  {
    if repos != [] {
      var front := repos[..|repos| - 1];
      CandidatesMembership(login, front, dateCheck, s);
      if s in Candidates(login, repos, dateCheck) && s !in Candidates(login, front, dateCheck) {
        assert Keeps(login, repos[|repos| - 1], dateCheck) && repos[|repos| - 1].slug == s;
      }
      if exists i :: 0 <= i < |repos| && Keeps(login, repos[i], dateCheck) && repos[i].slug == s {
        var i :| 0 <= i < |repos| && Keeps(login, repos[i], dateCheck) && repos[i].slug == s;
        if i < |repos| - 1 {
          assert front[i] == repos[i];
        }
      }
    }
  }

  /**
   * The index of the first poll, among polls `from` up to `PollNumTimes`, that
   * sees a last-build id other than `lastBuildId`.
   */
  function FirstChange(observe: nat -> int, lastBuildId: int, from: nat): (r: Option<nat>)
    requires from <= PollNumTimes
    ensures r.Some? ==> from <= r.value < PollNumTimes && observe(r.value) != lastBuildId
    ensures r.Some? ==> forall j :: from <= j < r.value ==> observe(j) == lastBuildId
    ensures r.None? ==> forall j :: from <= j < PollNumTimes ==> observe(j) == lastBuildId
    decreases PollNumTimes - from
  {
    if from == PollNumTimes then None
    else if observe(from) != lastBuildId then Some(from)
    else FirstChange(observe, lastBuildId, from + 1)
  }

  /**
   * What `run_build` returns, or the exception it lets through. `lastBuild` is
   * the repository lookup: the id of the last build, or the message of the
   * exception the lookup raises, in which case nothing is triggered.
   */
  function RunBuildOutcome(slug: string, branch: string, lastBuild: Result<int, string>, response: Response,
                           observe: nat -> int)
    : Result<(int, Option<int>), BuildError>
  {
    match lastBuild
    case Failure(message) => Failure(OtherFailure(message))
    case Success(lastBuildId) =>
      if !IsSuccess(response.statusCode) then
        Failure(TriggerFailed(
          TravisTriggerError(slug, branch, TriggerUrl(slug), response.statusCode, response.headers, response.text)))
      else
        match FirstChange(observe, lastBuildId, 0)
        case Some(i) => Success((lastBuildId, Some(observe(i))))
        case None => Success((lastBuildId, None))
  }

  /** `run_build` reports a new build id only when it differs from the old one. */
  lemma RunBuildNewIdDiffers(slug: string, branch: string, lastBuild: Result<int, string>, response: Response,
                             observe: nat -> int)
    requires RunBuildOutcome(slug, branch, lastBuild, response, observe).Success?
    ensures lastBuild.Success?
    ensures var v := RunBuildOutcome(slug, branch, lastBuild, response, observe).value;
      v.0 == lastBuild.value && (v.1.Some? ==> v.1.value != lastBuild.value)
  {
  }

  /**
   * `run_build` raises exactly when the repository lookup fails, passing on
   * its exception, or when the trigger status is outside 2xx, raising the
   * `TravisTriggerError` for the request.
   */
  lemma RunBuildErrors(slug: string, branch: string, lastBuild: Result<int, string>, response: Response,
                       observe: nat -> int)
    ensures var r := RunBuildOutcome(slug, branch, lastBuild, response, observe);
      && (r.Failure? <==> lastBuild.Failure? || !IsSuccess(response.statusCode))
      && (lastBuild.Failure? ==> r == Failure(OtherFailure(lastBuild.error)))
      && (lastBuild.Success? && !IsSuccess(response.statusCode) ==>
            r.Failure? && r.error.TriggerFailed? && r.error.error.statusCode == response.statusCode
            && r.error.error.repo == slug && r.error.error.url == TriggerUrl(slug))
  {
  }

  class Travis {
    /** The login of the authenticated Travis user. */
    const login: string
    /** The API session's shared default headers, which a trigger updates in place. */
    var headers: map<string, string>

    constructor (login: string, headers: map<string, string>)
      ensures this.login == login && this.headers == headers
    {
      this.login := login;
      this.headers := headers;
    }

    /**
     * The sorted slugs of the user's own repositories that have builds and,
     * when `dateCheck` is set, no build in the last day.
     */
    method GetRepos(repos: seq<TravisRepo>, dateCheck: bool) returns (slugs: seq<string>)
      ensures Sorted(slugs)
      ensures multiset(slugs) == multiset(Candidates(login, repos, dateCheck))
      ensures forall s :: (s in slugs
        <==> exists i :: 0 <= i < |repos| && Keeps(login, repos[i], dateCheck) && repos[i].slug == s)
    {
      var found: seq<string> := [];
      for i := 0 to |repos|
        invariant found == Candidates(login, repos[..i], dateCheck)
      {
        assert repos[..i + 1][..i] == repos[..i];
        var r := repos[i];
        if !StartsWith(r.slug, login + "/") {
          continue;
        }
        if r.lastBuildAge.None? {
          continue;
        }
        var buildInLastDay := BuildInLastDay(r.lastBuildAge.value);
        if dateCheck && buildInLastDay {
          continue;
        }
        found := found + [r.slug];
      }
      assert repos[..|repos|] == repos;
      slugs := Sort(found);
      forall s ensures s in slugs <==> s in found {
        assert s in slugs <==> s in multiset(slugs);
        assert s in found <==> s in multiset(found);
      }
      forall s ensures s in found
        <==> exists i :: 0 <= i < |repos| && Keeps(login, repos[i], dateCheck) && repos[i].slug == s
      {
        CandidatesMembership(login, repos, dateCheck, s);
      }
    }

    /**
     * Polls for the repository's last-build id at most `PollNumTimes` times,
     * sleeping `CheckWaitTime` seconds after each poll that still sees
     * `lastBuildId`. `observe(i)` is the id the i-th poll sees.
     */
    method WaitForNewBuild(slug: string, lastBuildId: int, observe: nat -> int)
      returns (r: Result<int, PollTimeoutException>, polls: nat, sleeps: nat)
      ensures 1 <= polls <= PollNumTimes
      ensures forall i :: 0 <= i < polls - 1 ==> observe(i) == lastBuildId
      ensures r.Success? ==> r.value == observe(polls - 1) && r.value != lastBuildId && sleeps == polls - 1
      ensures r.Failure? ==> polls == PollNumTimes && sleeps == PollNumTimes && observe(polls - 1) == lastBuildId
      ensures r.Failure? ==> r.error == PollTimeoutException("last_build.id", slug, CheckWaitTime, PollNumTimes)
      ensures r.Success? <==> FirstChange(observe, lastBuildId, 0).Some?
    {
      polls, sleeps := 0, 0;
      while polls < PollNumTimes
        invariant 0 <= polls <= PollNumTimes && sleeps == polls
        invariant forall i :: 0 <= i < polls ==> observe(i) == lastBuildId
        invariant FirstChange(observe, lastBuildId, 0) == FirstChange(observe, lastBuildId, polls)
      {
        var buildId := observe(polls);
        polls := polls + 1;
        if buildId != lastBuildId {
          return Success(buildId), polls, sleeps;
        }
        sleeps := sleeps + 1;
      }
      r := Failure(PollTimeoutException("last_build.id", slug, CheckWaitTime, PollNumTimes));
    }

    /**
     * Posts a build request for `branch` of `slug`. The shared session headers
     * gain the three API headers; a status outside 2xx becomes a `TravisTriggerError`.
     */
    method TriggerTravis(slug: string, branch: string, response: Response)
      returns (request: TriggerRequest, outcome: Outcome<TravisTriggerError>)
      modifies this
      ensures headers == ApiHeaders(old(headers))
      ensures request == TriggerRequest(TriggerUrl(slug), branch, TriggerMessage, headers)
      ensures outcome.Pass? <==> IsSuccess(response.statusCode)
      ensures outcome.Fail? ==>
        outcome.error == TravisTriggerError(slug, branch, TriggerUrl(slug), response.statusCode, response.headers, response.text)
    {
      var url := Public + "/repo/" + Quote(slug) + "/requests";
      headers := headers[ContentType := Json];
      headers := headers[Accept := Json];
      headers := headers[ApiVersion := "3"];
      request := TriggerRequest(url, branch, TriggerMessage, headers);
      if response.statusCode >= 200 && response.statusCode < 300 {
        return request, Pass;
      }
      outcome := Fail(TravisTriggerError(slug, branch, url, response.statusCode, response.headers, response.text));
    }

    /**
     * Looks the repository up, triggers a build, then waits for the
     * last-build id to move past the one the lookup found; returns the old id
     * and the new one, `None` on a poll timeout. A failed lookup is passed on
     * before anything is posted; a trigger error is passed on and nothing is
     * polled.
     */
    method RunBuild(slug: string, branch: string, lastBuild: Result<int, string>, response: Response, observe: nat -> int)
      returns (request: Option<TriggerRequest>, r: Result<(int, Option<int>), BuildError>, polls: nat)
      modifies this
      ensures headers == if lastBuild.Success? then ApiHeaders(old(headers)) else old(headers)
      ensures request == if lastBuild.Success? then Some(TriggerRequest(TriggerUrl(slug), branch, TriggerMessage, headers))
        else None
      ensures r == RunBuildOutcome(slug, branch, lastBuild, response, observe)
      ensures r.Failure? <==> polls == 0
    {
      if lastBuild.Failure? {
        return None, Failure(OtherFailure(lastBuild.error)), 0;
      }
      var lastBuildId := lastBuild.value;
      var posted, outcome;
      posted, outcome := TriggerTravis(slug, branch, response);
      request := Some(posted);
      if outcome.Fail? {
        return request, Failure(TriggerFailed(outcome.error)), 0;
      }
      var waited, sleeps;
      waited, polls, sleeps := WaitForNewBuild(slug, lastBuildId, observe);
      var newId := if waited.Success? then Some(waited.value) else None;
      r := Success((lastBuildId, newId));
    }
  }

  // ----- the URLs name what they were built from -----

  /** The quoted slug is one path segment of the trigger URL and decodes back to the slug. */
  lemma TriggerUrlNamesSlug(slug: string)
    ensures var u := TriggerUrl(slug);
      var segment := u[|Public + "/repo/"|..|u| - |"/requests"|];
      '/' !in segment && Unquote(segment) == Some(slug)
  {
    var u := TriggerUrl(slug);
    assert u[|Public + "/repo/"|..|u| - |"/requests"|] == Quote(slug);
    QuoteNoSlash(slug);
    QuoteRoundTrip(slug);
  }

  /** Different repositories are triggered through different URLs. */
  lemma TriggerUrlInjective(a: string, b: string)
    requires TriggerUrl(a) == TriggerUrl(b)
    ensures a == b
  {
    TriggerUrlNamesSlug(a);
    TriggerUrlNamesSlug(b);
  }

  /** The last path segment of a build URL reads back as the build number. */
  lemma UrlForBuildNamesNumber(slug: string, buildNum: int)
    ensures ParseInt(LastField(UrlForBuild(slug, buildNum), '/')) == Some(buildNum)
  {
    var front := "https://travis-ci.org/" + slug + "/builds";
    assert UrlForBuild(slug, buildNum) == front + ['/'] + IntToString(buildNum);
    IntToStringHasNo(buildNum, '/');
    LastFieldOf(front, '/', IntToString(buildNum));
    IntToStringRoundTrip(buildNum);
  }

  lemma UrlForBuildSameNumber(s1: string, s2: string, n: int)
    requires UrlForBuild(s1, n) == UrlForBuild(s2, n)
    ensures s1 == s2
  {
    var p, q := "https://travis-ci.org/", "/builds/" + IntToString(n);
    assert UrlForBuild(s1, n) == p + s1 + q;
    assert UrlForBuild(s2, n) == p + s2 + q;
    CancelAround(p, s1, s2, q);
  }

  /** A build URL determines both the repository and the build number. */
  lemma UrlForBuildInjective(s1: string, n1: int, s2: string, n2: int)
    requires UrlForBuild(s1, n1) == UrlForBuild(s2, n2)
    ensures s1 == s2 && n1 == n2
  {
    UrlForBuildNamesNumber(s1, n1);
    UrlForBuildNamesNumber(s2, n2);
    UrlForBuildSameNumber(s1, s2, n1);
  }
}
