/**
 * `ReBuildBot`: finds the projects to build, keeps one `BuildInfo` per
 * repository slug, triggers the Travis builds and then repeats rounds of
 * "poll Travis, run at most one local build" while some build is not done.
 * Every service answer (GitHub and Travis listings, trigger responses,
 * polled ids, fetched builds, local build reports) is an input.
 */
module Bot {
  import opened Wrappers
  import opened Text
  import opened Exceptions
  import opened TravisApi
  import opened GitHub
  import opened BuildState
  import opened LocalBuilds
  import opened Orchestration

  // ----- get_github_token -----

  const TokenVariable := "GITHUB_TOKEN"

  /** The token found, and whether `~/.gitconfig` had to be read for it. */
  datatype TokenLookup = TokenLookup(token: Result<string, GitTokenMissingError>, readGitconfig: bool)

  /**
   * The GitHub token: the `GITHUB_TOKEN` environment variable if it is set,
   * else the `token` key of the `github` section of `~/.gitconfig`
   * (`gitconfig` maps section names to their keys), else the missing-token
   * error.
   */
  function GetGithubToken(environ: map<string, string>, gitconfig: map<string, map<string, string>>): (r: TokenLookup)
    ensures r.readGitconfig <==> TokenVariable !in environ
    ensures r.token.Success? ==>
      r.token.value in environ.Values || ("github" in gitconfig && r.token.value in gitconfig["github"].Values)
  {
    if TokenVariable in environ then TokenLookup(Success(environ[TokenVariable]), false)
    else if "github" in gitconfig && "token" in gitconfig["github"] then
      TokenLookup(Success(gitconfig["github"]["token"]), true)
    else TokenLookup(Failure(GitTokenMissingError), true)
  }

  /** The environment variable wins: whatever `~/.gitconfig` holds, it is not read. */
  lemma EnvironmentTokenWins(environ: map<string, string>, c1: map<string, map<string, string>>,
                             c2: map<string, map<string, string>>)
    requires TokenVariable in environ
    ensures GetGithubToken(environ, c1) == GetGithubToken(environ, c2)
    ensures GetGithubToken(environ, c1).token == Success(environ[TokenVariable])
    ensures !GetGithubToken(environ, c1).readGitconfig
  {
  }

  /** Without the environment variable, the token is the `token` key of the `github` section of `~/.gitconfig`. */
  lemma GitconfigTokenUsed(environ: map<string, string>, gitconfig: map<string, map<string, string>>)
    requires TokenVariable !in environ && "github" in gitconfig && "token" in gitconfig["github"]
    ensures GetGithubToken(environ, gitconfig).token == Success(gitconfig["github"]["token"])
    ensures GetGithubToken(environ, gitconfig).readGitconfig
  {
  }

  /** The lookup fails exactly when neither source holds a token, and then it raises the missing-token error. */
  lemma TokenMissingExactly(environ: map<string, string>, gitconfig: map<string, map<string, string>>)
    ensures GetGithubToken(environ, gitconfig).token.Failure? <==>
      TokenVariable !in environ && !("github" in gitconfig && "token" in gitconfig["github"])
    ensures GetGithubToken(environ, gitconfig).token == Failure(GitTokenMissingError) ||
      GetGithubToken(environ, gitconfig).token.Success?
  {
  }

  // ----- find_projects -----

  /** `github.find_projects` gives a pair of clone URLs; it becomes the local script. */
  function ConfigOf(urls: (string, string)): ProjectConfig {
    ProjectConfig(Some(urls.0), Some(urls.1))
  }

  /** The record the GitHub loop of the automatic branch creates for `slug`. */
  function GitHubRecord(github: map<string, (string, string)>, slug: string): Record {
    NewRecord(slug, if slug in github then Some(ConfigOf(github[slug])) else None)
  }

  /** The records the GitHub loop of the automatic branch creates. */
  function GitHubRecords(github: map<string, (string, string)>): Builds {
    map k | k in github :: GitHubRecord(github, k)
  }

  /**
   * The automatic branch: a record per GitHub project, then each Travis
   * repository in turn gets Travis wanted, on a new record without a local
   * script when GitHub did not list it.
   */
  function AutoProjects(github: map<string, (string, string)>, travisSlugs: seq<string>): Builds
    decreases |travisSlugs|
  {
    if travisSlugs == [] then GitHubRecords(github)
    else
      WithTravis(AutoProjects(github, travisSlugs[..|travisSlugs| - 1]), travisSlugs[|travisSlugs| - 1])
  }

  /** One step of the Travis loop: `slug`'s record, new if need be, gets Travis wanted. */
  function WithTravis(m: Builds, slug: string): Builds {
    var r := if slug in m then m[slug] else NewRecord(slug, None);
    m[slug := r.(runTravis := true)]
  }

  /** What a listed project's local script is: none when `get_project_config` found no `.rebuildbot.sh`. */
  function LocalScriptOf(config: ProjectConfig): (s: Option<ProjectConfig>)
    ensures s.None? <==> config == ProjectConfig(None, None)
  {
    if config == ProjectConfig(None, None) then None else Some(config)
  }

  /** A listed project's record, `run_travis` set when Travis knows a last build. */
  function ListedRecord(project: string, config: ProjectConfig, hasBuild: bool): Record {
    NewRecord(project, LocalScriptOf(config)).(runTravis := hasBuild)
  }

  /** A listed project's record as the source builds it: the `(None, None)` pair is passed on as the local script. */
  function ListedRecordAsWritten(project: string, config: ProjectConfig, hasBuild: bool): Record {
    NewRecord(project, Some(config)).(runTravis := hasBuild)
  }

  /** The explicit-list branch: one record per listed project. */
  function ListedProjects(projects: seq<string>, configOf: string -> ProjectConfig, hasBuild: string -> bool): Builds {
    map k | k in projects :: ListedRecord(k, configOf(k), hasBuild(k))
  }

  /** `find_projects`: the listed projects when a list is given, else the automatic discovery. */
  function FoundProjects(projects: Option<seq<string>>, github: map<string, (string, string)>, travisSlugs: seq<string>,
                         configOf: string -> ProjectConfig, hasBuild: string -> bool): Builds
  {
    if projects.None? then AutoProjects(github, travisSlugs) else ListedProjects(projects.value, configOf, hasBuild)
  }

  /**
   * The automatic branch finds the union of the GitHub projects and the Travis
   * repositories; Travis is wanted exactly for the Travis ones and a local
   * build exactly for the GitHub ones, and nothing is done yet.
   */
  lemma {:induction false} AutoProjectsShape(github: map<string, (string, string)>, travisSlugs: seq<string>, k: string)
    ensures k in AutoProjects(github, travisSlugs) <==> k in github || k in travisSlugs
    ensures k in AutoProjects(github, travisSlugs) ==>
      var r := AutoProjects(github, travisSlugs)[k];
      && r.slug == k && (r.runTravis <==> k in travisSlugs) && (r.runLocal <==> k in github)
      && r.localScript == (if k in github then Some(ConfigOf(github[k])) else None)
      && r.travisBuildId.None? && r.travisTriggerError.None? && !Done(r)
    decreases |travisSlugs|
  {
    if travisSlugs != [] {
      var front := travisSlugs[..|travisSlugs| - 1];
      AutoProjectsShape(github, front, k);
      assert travisSlugs == front + [travisSlugs[|travisSlugs| - 1]];
    }
  }

  /**
   * The explicit-list branch has one record per listed project, Travis wanted
   * exactly when the project has a Travis build, and a local build exactly
   * when the repository has a `.rebuildbot.sh` on master, where `get_project_config` looks.
   */
  lemma ListedProjectsShape(projects: seq<string>, configOf: string -> ProjectConfig, hasBuild: string -> bool,
                            repo: GitHubRepo)
    requires configOf(repo.fullName) == GetProjectConfig(repo, ConfigBranch)
    ensures repo.fullName in ListedProjects(projects, configOf, hasBuild) <==> repo.fullName in projects
    ensures repo.fullName in projects ==>
      var r := ListedProjects(projects, configOf, hasBuild)[repo.fullName];
      r.slug == repo.fullName && (r.runTravis <==> hasBuild(repo.fullName)) && (r.runLocal <==> ScriptOn(repo, ConfigBranch))
  {
  }

  /** As written, a listed repository without `.rebuildbot.sh` on master still gets a local build. */
  lemma AsWrittenRunsLocalWithoutScript(repo: GitHubRepo, hasBuild: bool)
    requires !ScriptOn(repo, ConfigBranch)
    ensures ListedRecordAsWritten(repo.fullName, GetProjectConfig(repo, ConfigBranch), hasBuild).runLocal
    ensures !ListedRecord(repo.fullName, GetProjectConfig(repo, ConfigBranch), hasBuild).runLocal
  {
  }

  // ----- the dict of BuildInfo objects -----

  /**
   * Each entry is keyed by its own slug; as the slug of an object never
   * changes, no object is shared between two keys.
   */
  ghost predicate WellFormed(bs: map<string, BuildInfo>) {
    forall k | k in bs :: bs[k].slug == k
  }

  ghost function SnapshotsOf(bs: map<string, BuildInfo>): (m: Builds)
    reads bs.Values
    ensures m.Keys == bs.Keys
  {
    map k | k in bs :: bs[k].Snapshot()
  }

  lemma SnapshotsOfUpdate(bs: map<string, BuildInfo>, s: string, b: BuildInfo)
    ensures SnapshotsOf(bs[s := b]) == SnapshotsOf(bs)[s := b.Snapshot()]
  {
  }

  /** Once every object but the one under `s` still has its old snapshot, only the record under `s` changed. */
  lemma SnapshotsAfter(bs: map<string, BuildInfo>, prior: Builds, s: string)
    requires s in bs && prior.Keys == bs.Keys
    requires forall k | k in bs && k != s :: bs[k].Snapshot() == prior[k]
    ensures SnapshotsOf(bs) == prior[s := bs[s].Snapshot()]
  {
  }

  /**
   * A loop over a dict part way: each slug of `done` found in `m` has had
   * its record replaced by `f` of the slug and the old record.
   */
  function UpdateEach(m: Builds, f: (string, Record) -> Record, done: seq<string>): (r: Builds)
    ensures r.Keys == m.Keys
    decreases |done|
  {
    if done == [] then m
    else
      var p := UpdateEach(m, f, done[..|done| - 1]);
      var k := done[|done| - 1];
      if k in m then p[k := f(k, m[k])] else p
  }

  /** The next slug visited had not been visited yet: its record is replaced now, from its original value. */
  lemma UpdateEachNext(m: Builds, f: (string, Record) -> Record, keys: seq<string>, i: nat)
    requires i < |keys| && keys[i] in m && keys[i] !in keys[..i]
    ensures UpdateEach(m, f, keys[..i])[keys[i]] == m[keys[i]]
    ensures UpdateEach(m, f, keys[..i + 1]) == UpdateEach(m, f, keys[..i])[keys[i] := f(keys[i], m[keys[i]])]
  {
    assert keys[..i + 1][..i] == keys[..i];
    UpdateEachAt(m, f, keys[..i], keys[i]);
  }

  lemma {:induction false} UpdateEachAt(m: Builds, f: (string, Record) -> Record, done: seq<string>, k: string)
    requires k in m
    ensures UpdateEach(m, f, done)[k] == if k in done then f(k, m[k]) else m[k]
    decreases |done|
  {
    if done != [] {
      var front := done[..|done| - 1];
      UpdateEachAt(m, f, front, k);
      assert done == front + [done[|done| - 1]];
    }
  }

  /** Once every slug has been visited, every record has been replaced. */
  lemma UpdateEachAll(m: Builds, f: (string, Record) -> Record, keys: seq<string>)
    requires forall k | k in m :: k in keys
    ensures UpdateEach(m, f, keys) == map k | k in m :: f(k, m[k])
  {
    forall k | k in m ensures UpdateEach(m, f, keys)[k] == f(k, m[k]) {
      UpdateEachAt(m, f, keys, k);
    }
  }

  /** A loop that builds a dict part way: the slugs in `names` have been given the record `g` makes. */
  function Collect(names: seq<string>, g: string -> Record): Builds
    decreases |names|
  {
    if names == [] then map[]
    else Collect(names[..|names| - 1], g)[names[|names| - 1] := g(names[|names| - 1])]
  }

  lemma CollectStep(names: seq<string>, g: string -> Record, i: nat)
    requires i < |names|
    ensures Collect(names[..i + 1], g) == Collect(names[..i], g)[names[i] := g(names[i])]
  {
    assert names[..i + 1][..i] == names[..i];
  }

  lemma {:induction false} CollectAt(names: seq<string>, g: string -> Record, k: string)
    ensures k in Collect(names, g) <==> k in names
    ensures k in names ==> Collect(names, g)[k] == g(k)
    decreases |names|
  {
    if names != [] {
      var front := names[..|names| - 1];
      CollectAt(front, g, k);
      assert names == front + [names[|names| - 1]];
    }
  }

  /** Once every name has been visited, the dict has one entry per name. */
  lemma CollectAll(names: seq<string>, g: string -> Record)
    ensures Collect(names, g) == map k | k in names :: g(k)
  {
    forall k ensures k in Collect(names, g) <==> k in names {
      CollectAt(names, g, k);
    }
    forall k | k in names ensures Collect(names, g)[k] == g(k) {
      CollectAt(names, g, k);
    }
  }

  /** `start_travis_builds` part way: the slugs in `done` have been handled. */
  function StartUpTo(m: Builds, inputs: string -> RunInput, dryRun: bool, done: seq<string>): Builds {
    UpdateEach(m, (k, r) => TriggerOne(r, inputs(k), dryRun), done)
  }

  lemma StartUpToNext(m: Builds, inputs: string -> RunInput, dryRun: bool, keys: seq<string>, i: nat)
    requires keys == SlugOrder(m.Keys) && i < |keys|
    ensures keys[i] in m
    ensures StartUpTo(m, inputs, dryRun, keys[..i]).Keys == m.Keys
    ensures StartUpTo(m, inputs, dryRun, keys[..i])[keys[i]] == m[keys[i]]
    ensures StartUpTo(m, inputs, dryRun, keys[..i + 1]) ==
      StartUpTo(m, inputs, dryRun, keys[..i])[keys[i] := TriggerOne(m[keys[i]], inputs(keys[i]), dryRun)]
  {
    SlugOrderNoRepeat(m.Keys, i);
    UpdateEachNext(m, (k, r) => TriggerOne(r, inputs(k), dryRun), keys, i);
  }

  lemma StartUpToAll(m: Builds, inputs: string -> RunInput, dryRun: bool, keys: seq<string>)
    requires forall k | k in m :: k in keys
    ensures StartUpTo(m, inputs, dryRun, keys) == StartAll(m, inputs, dryRun)
  {
    UpdateEachAll(m, (k, r) => TriggerOne(r, inputs(k), dryRun), keys);
  }

  /** `poll_travis_updates` part way: the slugs in `done` have been handled. */
  function PollUpTo(m: Builds, fetch: int -> TravisBuild, dryRun: bool, done: seq<string>): Builds {
    UpdateEach(m, (k, r) => PollOne(r, fetch, dryRun), done)
  }

  lemma PollUpToNext(m: Builds, fetch: int -> TravisBuild, dryRun: bool, keys: seq<string>, i: nat)
    requires keys == SlugOrder(m.Keys) && i < |keys|
    ensures keys[i] in m
    ensures PollUpTo(m, fetch, dryRun, keys[..i]).Keys == m.Keys
    ensures PollUpTo(m, fetch, dryRun, keys[..i])[keys[i]] == m[keys[i]]
    ensures PollUpTo(m, fetch, dryRun, keys[..i + 1]) ==
      PollUpTo(m, fetch, dryRun, keys[..i])[keys[i] := PollOne(m[keys[i]], fetch, dryRun)]
  {
    SlugOrderNoRepeat(m.Keys, i);
    UpdateEachNext(m, (k, r) => PollOne(r, fetch, dryRun), keys, i);
  }

  lemma PollUpToAll(m: Builds, fetch: int -> TravisBuild, dryRun: bool, keys: seq<string>)
    requires forall k | k in m :: k in keys
    ensures PollUpTo(m, fetch, dryRun, keys) == PollAll(m, fetch, dryRun)
  {
    UpdateEachAll(m, (k, r) => PollOne(r, fetch, dryRun), keys);
  }

  /** The GitHub loop of the automatic branch part way: the projects in `names` have a record. */
  function GitHubUpTo(github: map<string, (string, string)>, names: seq<string>): Builds {
    Collect(names, k => GitHubRecord(github, k))
  }

  lemma GitHubUpToNext(github: map<string, (string, string)>, names: seq<string>, i: nat)
    requires i < |names|
    ensures GitHubUpTo(github, names[..i + 1]) == GitHubUpTo(github, names[..i])[names[i] := GitHubRecord(github, names[i])]
  {
    CollectStep(names, k => GitHubRecord(github, k), i);
  }

  lemma GitHubUpToAll(github: map<string, (string, string)>, names: seq<string>)
    requires forall k :: k in names <==> k in github
    ensures GitHubUpTo(github, names) == GitHubRecords(github)
  {
    CollectAll(names, k => GitHubRecord(github, k));
  }

  /** The explicit-list loop part way: the projects in `listed` have a record. */
  function ListedUpTo(listed: seq<string>, configOf: string -> ProjectConfig, hasBuild: string -> bool): Builds {
    Collect(listed, k => ListedRecord(k, configOf(k), hasBuild(k)))
  }

  lemma ListedUpToNext(listed: seq<string>, configOf: string -> ProjectConfig, hasBuild: string -> bool, i: nat)
    requires i < |listed|
    ensures ListedUpTo(listed[..i + 1], configOf, hasBuild) ==
      ListedUpTo(listed[..i], configOf, hasBuild)[listed[i] := ListedRecord(listed[i], configOf(listed[i]), hasBuild(listed[i]))]
  {
    CollectStep(listed, k => ListedRecord(k, configOf(k), hasBuild(k)), i);
  }

  lemma ListedUpToAll(listed: seq<string>, configOf: string -> ProjectConfig, hasBuild: string -> bool)
    ensures ListedUpTo(listed, configOf, hasBuild) == ListedProjects(listed, configOf, hasBuild)
  {
    CollectAll(listed, k => ListedRecord(k, configOf(k), hasBuild(k)));
  }

  lemma TriggeredStep(keys: seq<string>, m: Builds, i: nat)
    requires i < |keys|
    ensures Triggered(keys[..i + 1], m) ==
      Triggered(keys[..i], m) + (if keys[i] in m && WantsTravis(m[keys[i]]) then [keys[i]] else [])
  {
    assert keys[..i + 1][..i] == keys[..i];
  }

  lemma PostedStep(calls: seq<string>, slug: string, inputs: string -> RunInput)
    ensures Posted(calls + [slug], inputs) <==> Posted(calls, inputs) || inputs(slug).lastBuild.Success?
  {
    if inputs(slug).lastBuild.Success? {
      assert (calls + [slug])[|calls|] == slug;
    }
    if Posted(calls + [slug], inputs) && !inputs(slug).lastBuild.Success? {
      var i :| 0 <= i < |calls + [slug]| && inputs((calls + [slug])[i]).lastBuild.Success?;
      assert (calls + [slug])[i] == calls[i];
    }
    if Posted(calls, inputs) {
      var i :| 0 <= i < |calls| && inputs(calls[i]).lastBuild.Success?;
      assert (calls + [slug])[i] == calls[i];
    }
  }

  lemma PolledStep(keys: seq<string>, m: Builds, i: nat)
    requires i < |keys|
    ensures Polled(keys[..i + 1], m) ==
      Polled(keys[..i], m) + (if keys[i] in m && Pollable(m[keys[i]]) then [m[keys[i]].travisBuildId.value] else [])
  {
    assert keys[..i + 1][..i] == keys[..i];
  }

  lemma AutoProjectsStep(github: map<string, (string, string)>, travisSlugs: seq<string>, i: nat)
    requires i < |travisSlugs|
    ensures AutoProjects(github, travisSlugs[..i + 1]) == WithTravis(AutoProjects(github, travisSlugs[..i]), travisSlugs[i])
  {
    assert travisSlugs[..i + 1][..i] == travisSlugs[..i];
  }

  lemma HaveWorkOf(bs: map<string, BuildInfo>)
    ensures HaveWork(SnapshotsOf(bs)) <==> exists k | k in bs :: !Done(bs[k].Snapshot())
  {
    var m := SnapshotsOf(bs);
    if exists k | k in bs :: !Done(bs[k].Snapshot()) {
      var k :| k in bs && !Done(bs[k].Snapshot());
      assert m[k] == bs[k].Snapshot();
    }
  }

  /** One turn of the `start_travis_builds` loop: returns whether `run_build` was called. */
  method StartRecord(b: BuildInfo, travis: Travis, input: RunInput, dryRun: bool) returns (called: bool)
    modifies b, travis
    ensures b.Snapshot() == TriggerOne(old(b.Snapshot()), input, dryRun)
    ensures called <==> !dryRun && WantsTravis(old(b.Snapshot()))
    ensures travis.headers ==
      if called && input.lastBuild.Success? then ApiHeaders(old(travis.headers)) else old(travis.headers)
  {
    called := false;
    if b.runTravis && !b.travis.finished {
      if dryRun {
        b.SetDryRun();
      } else {
        var request, result, polls := travis.RunBuild(b.slug, Branch, input.lastBuild, input.response, input.observe);
        match result {
          case Failure(e) => b.SetTravisTriggerError(e);
          case Success(ids) => b.SetTravisBuildId(ids.1);
        }
        called := true;
      }
    }
  }

  /** One turn of the `poll_travis_updates` loop: returns the build id fetched, if any. */
  method PollRecord(b: BuildInfo, fetch: int -> TravisBuild, dryRun: bool) returns (id: Option<int>)
    modifies b
    ensures b.Snapshot() == PollOne(old(b.Snapshot()), fetch, dryRun)
    ensures id == if !dryRun && Pollable(old(b.Snapshot())) then old(b.Snapshot()).travisBuildId else None
  {
    id := None;
    if dryRun {
      b.SetDryRun();
    } else if b.runTravis && !b.travis.finished && b.travisBuildId.Some? {
      id := b.travisBuildId;
      var build := fetch(id.value);
      if build.finished {
        b.SetTravisBuildFinished(build);
      }
    }
  }

  /** One turn of the `start_travis_builds` loop, on the record under `slug` only. */
  method StartSlug(bs: map<string, BuildInfo>, slug: string, travis: Travis, input: RunInput, dryRun: bool)
    returns (called: bool)
    requires WellFormed(bs) && slug in bs
    modifies bs[slug], travis
    ensures SnapshotsOf(bs) == old(SnapshotsOf(bs))[slug := TriggerOne(old(SnapshotsOf(bs))[slug], input, dryRun)]
    ensures called <==> !dryRun && WantsTravis(old(SnapshotsOf(bs))[slug])
    ensures travis.headers ==
      if called && input.lastBuild.Success? then ApiHeaders(old(travis.headers)) else old(travis.headers)
  {
    var b := bs[slug];
    ghost var prior := SnapshotsOf(bs);
    called := StartRecord(b, travis, input, dryRun);
    forall k | k in bs && k != slug ensures bs[k].Snapshot() == prior[k] {
      assert bs[k].slug != b.slug;
    }
    SnapshotsAfter(bs, prior, slug);
  }

  /** The `start_travis_builds` loop over `keys`, the slugs in sorted order. */
  method StartInOrder(bs: map<string, BuildInfo>, keys: seq<string>, travis: Travis, inputs: string -> RunInput, dryRun: bool)
    returns (calls: seq<string>)
    requires WellFormed(bs) && keys == SlugOrder(bs.Keys)
    modifies bs.Values, travis
    ensures SnapshotsOf(bs) == StartUpTo(old(SnapshotsOf(bs)), inputs, dryRun, keys)
    ensures calls == if dryRun then [] else Triggered(keys, old(SnapshotsOf(bs)))
    ensures travis.headers == if Posted(calls, inputs) then ApiHeaders(old(travis.headers)) else old(travis.headers)
  {
    ghost var before := SnapshotsOf(bs);
    calls := [];
    for i := 0 to |keys|
      invariant StartedUpTo(bs, keys, travis, inputs, dryRun, before, old(travis.headers), i, calls)
    {
      calls := StartTurn(bs, keys, travis, inputs, dryRun, before, old(travis.headers), i, calls);
    }
    assert keys[..|keys|] == keys;
  }

  /** Where the `start_travis_builds` loop stands after the first `i` slugs of `keys`. */
  ghost predicate StartedUpTo(bs: map<string, BuildInfo>, keys: seq<string>, travis: Travis, inputs: string -> RunInput,
                              dryRun: bool, before: Builds, headers: map<string, string>, i: nat, calls: seq<string>)
    reads bs.Values, travis
  {
    && WellFormed(bs) && keys == SlugOrder(before.Keys) && i <= |keys|
    && SnapshotsOf(bs) == StartUpTo(before, inputs, dryRun, keys[..i])
    && calls == (if dryRun then [] else Triggered(keys[..i], before))
    && travis.headers == if Posted(calls, inputs) then ApiHeaders(headers) else headers
  }

  /** The `start_travis_builds` loop's step for the slug at position `i` of `keys`. */
  method StartTurn(bs: map<string, BuildInfo>, keys: seq<string>, travis: Travis, inputs: string -> RunInput, dryRun: bool,
                   ghost before: Builds, ghost headers: map<string, string>, i: nat, calls: seq<string>)
    returns (next: seq<string>)
    requires StartedUpTo(bs, keys, travis, inputs, dryRun, before, headers, i, calls) && i < |keys|
    modifies bs.Values, travis
    ensures StartedUpTo(bs, keys, travis, inputs, dryRun, before, headers, i + 1, next)
  {
    var slug := keys[i];
    StartUpToNext(before, inputs, dryRun, keys, i);
    ghost var cur := SnapshotsOf(bs);
    var called := StartSlug(bs, slug, travis, inputs(slug), dryRun);
    next := if called then calls + [slug] else calls;
    StartTurnDone(before, inputs, dryRun, keys, i, cur, SnapshotsOf(bs), calls, called);
    if called {
      PostedStep(calls, slug, inputs);
      if inputs(slug).lastBuild.Success? {
        ApiHeadersIdempotent(headers);
      }
    }
  }

  /** What one turn of the `start_travis_builds` loop does to the records and the calls made so far. */
  lemma {:induction false} StartTurnDone(before: Builds, inputs: string -> RunInput, dryRun: bool, keys: seq<string>, i: nat,
                      cur: Builds, n: Builds, calls: seq<string>, called: bool)
    requires keys == SlugOrder(before.Keys) && i < |keys|
    requires cur == StartUpTo(before, inputs, dryRun, keys[..i])
    requires calls == if dryRun then [] else Triggered(keys[..i], before)
    requires keys[i] in cur && n == cur[keys[i] := TriggerOne(cur[keys[i]], inputs(keys[i]), dryRun)]
    requires called <==> !dryRun && WantsTravis(cur[keys[i]])
    ensures n == StartUpTo(before, inputs, dryRun, keys[..i + 1])
    ensures (if called then calls + [keys[i]] else calls) == if dryRun then [] else Triggered(keys[..i + 1], before)
  {
    StartUpToNext(before, inputs, dryRun, keys, i);
    TriggeredStep(keys, before, i);
  }

  /** One turn of the `poll_travis_updates` loop, on the record under `slug` only. */
  method PollSlug(bs: map<string, BuildInfo>, slug: string, fetch: int -> TravisBuild, dryRun: bool)
    returns (id: Option<int>)
    requires WellFormed(bs) && slug in bs
    modifies bs[slug]
    ensures SnapshotsOf(bs) == old(SnapshotsOf(bs))[slug := PollOne(old(SnapshotsOf(bs))[slug], fetch, dryRun)]
    ensures id == if !dryRun && Pollable(old(SnapshotsOf(bs))[slug]) then old(SnapshotsOf(bs))[slug].travisBuildId else None
  {
    var b := bs[slug];
    ghost var prior := SnapshotsOf(bs);
    id := PollRecord(b, fetch, dryRun);
    forall k | k in bs && k != slug ensures bs[k].Snapshot() == prior[k] {
      assert bs[k].slug != b.slug;
    }
    SnapshotsAfter(bs, prior, slug);
  }

  /** The `poll_travis_updates` loop over `keys`, the slugs in sorted order. */
  method PollInOrder(bs: map<string, BuildInfo>, keys: seq<string>, fetch: int -> TravisBuild, dryRun: bool)
    returns (fetched: seq<int>)
    requires WellFormed(bs) && keys == SlugOrder(bs.Keys)
    modifies bs.Values
    ensures SnapshotsOf(bs) == PollUpTo(old(SnapshotsOf(bs)), fetch, dryRun, keys)
    ensures fetched == if dryRun then [] else Polled(keys, old(SnapshotsOf(bs)))
  {
    ghost var before := SnapshotsOf(bs);
    fetched := [];
    for i := 0 to |keys|
      invariant PolledUpTo(bs, keys, fetch, dryRun, before, i, fetched)
    {
      fetched := PollTurn(bs, keys, fetch, dryRun, before, i, fetched);
    }
    assert keys[..|keys|] == keys;
  }

  /** Where the `poll_travis_updates` loop stands after the first `i` slugs of `keys`. */
  ghost predicate PolledUpTo(bs: map<string, BuildInfo>, keys: seq<string>, fetch: int -> TravisBuild, dryRun: bool,
                             before: Builds, i: nat, fetched: seq<int>)
    reads bs.Values
  {
    && WellFormed(bs) && keys == SlugOrder(before.Keys) && i <= |keys|
    && SnapshotsOf(bs) == PollUpTo(before, fetch, dryRun, keys[..i])
    && fetched == if dryRun then [] else Polled(keys[..i], before)
  }

  /** The `poll_travis_updates` loop's step for the slug at position `i` of `keys`. */
  method PollTurn(bs: map<string, BuildInfo>, keys: seq<string>, fetch: int -> TravisBuild, dryRun: bool,
                  ghost before: Builds, i: nat, fetched: seq<int>)
    returns (next: seq<int>)
    requires PolledUpTo(bs, keys, fetch, dryRun, before, i, fetched) && i < |keys|
    modifies bs.Values
    ensures PolledUpTo(bs, keys, fetch, dryRun, before, i + 1, next)
  {
    var slug := keys[i];
    PollUpToNext(before, fetch, dryRun, keys, i);
    ghost var cur := SnapshotsOf(bs);
    var id := PollSlug(bs, slug, fetch, dryRun);
    next := if id.Some? then fetched + [id.value] else fetched;
    PollTurnDone(before, fetch, dryRun, keys, i, cur, SnapshotsOf(bs), fetched, id);
  }

  /** What one turn of the `poll_travis_updates` loop does to the records and the ids fetched so far. */
  lemma {:induction false} PollTurnDone(before: Builds, fetch: int -> TravisBuild, dryRun: bool, keys: seq<string>, i: nat,
                                        cur: Builds, n: Builds, fetched: seq<int>, id: Option<int>)
    requires keys == SlugOrder(before.Keys) && i < |keys|
    requires cur == PollUpTo(before, fetch, dryRun, keys[..i])
    requires fetched == if dryRun then [] else Polled(keys[..i], before)
    requires keys[i] in cur && n == cur[keys[i] := PollOne(cur[keys[i]], fetch, dryRun)]
    requires id == if !dryRun && Pollable(cur[keys[i]]) then cur[keys[i]].travisBuildId else None
    ensures n == PollUpTo(before, fetch, dryRun, keys[..i + 1])
    ensures (if id.Some? then fetched + [id.value] else fetched) == if dryRun then [] else Polled(keys[..i + 1], before)
  {
    PollUpToNext(before, fetch, dryRun, keys, i);
    PolledStep(keys, before, i);
  }

  /** The position in `keys` of the first record that waits for its local build, or `|keys|` when none does. */
  method FirstPendingIndex(bs: map<string, BuildInfo>, keys: seq<string>) returns (i: nat)
    ensures i <= |keys|
    ensures FirstPending(keys, SnapshotsOf(bs), 0) == if i == |keys| then None else Some(i)
  {
    ghost var m := SnapshotsOf(bs);
    i := 0;
    while i < |keys| && !(keys[i] in bs && bs[keys[i]].runLocal && !bs[keys[i]].local.finished)
      invariant i <= |keys|
      invariant FirstPending(keys, m, 0) == FirstPending(keys, m, i)
    {
      assert keys[i] in bs ==> bs[keys[i]].Snapshot() == m[keys[i]];
      i := i + 1;
    }
    if i < |keys| {
      assert bs[keys[i]].Snapshot() == m[keys[i]];
    }
  }

  /** Runs the local build of the record under `slug`, through a `LocalBuild` that shares the record. */
  method RunLocalBuild(bs: map<string, BuildInfo>, slug: string, reported: LocalOutcome, dryRun: bool)
    requires WellFormed(bs) && slug in bs
    modifies bs[slug]
    ensures SnapshotsOf(bs) ==
      old(SnapshotsOf(bs))[slug := WithLocalBuild(old(SnapshotsOf(bs))[slug], if dryRun then NothingRan else reported)]
  {
    var b := bs[slug];
    var lb := new LocalBuild(slug, b, dryRun);
    ghost var prior := SnapshotsOf(bs);
    lb.Run(reported);
    forall k | k in bs && k != slug ensures bs[k].Snapshot() == prior[k] {
      assert bs[k].slug != b.slug;
    }
    SnapshotsAfter(bs, prior, slug);
  }

  /** A round, once the first pending position `i` after polling (or `|keys|` for none) is known. */
  lemma RoundAtIndex(m: Builds, p: Builds, round: Round, dryRun: bool, i: nat)
    requires p == PollAll(m, round.fetch, dryRun)
    requires i <= |SlugOrder(p.Keys)|
    requires FirstPending(SlugOrder(p.Keys), p, 0) == if i == |SlugOrder(p.Keys)| then None else Some(i)
    ensures var keys := SlugOrder(p.Keys);
      RunnerStep(m, round, dryRun) ==
        if i == |keys| then p
        else p[keys[i] := WithLocalBuild(p[keys[i]], if dryRun then NothingRan else round.reported(keys[i]))]
  {
  }

  /** `run_travis` set on the record under `slug`, created first when there is none. */
  method MarkTravisRepo(bs: map<string, BuildInfo>, slug: string) returns (next: map<string, BuildInfo>)
    requires WellFormed(bs)
    modifies bs.Values
    ensures WellFormed(next) && forall k | k in next :: (k in bs && next[k] == bs[k]) || fresh(next[k])
    ensures SnapshotsOf(next) == WithTravis(old(SnapshotsOf(bs)), slug)
  {
    if slug !in bs {
      next := AddTravisOnly(bs, slug);
    } else {
      WantTravis(bs, slug);
      next := bs;
    }
  }

  /** A new `BuildInfo` without a local script and with Travis wanted, stored under `slug`. */
  method AddTravisOnly(bs: map<string, BuildInfo>, slug: string) returns (next: map<string, BuildInfo>)
    requires WellFormed(bs)
    ensures WellFormed(next) && forall k | k in next :: (k in bs && next[k] == bs[k]) || fresh(next[k])
    ensures SnapshotsOf(next) == SnapshotsOf(bs)[slug := NewRecord(slug, None).(runTravis := true)]
  {
    var created := new BuildInfo(slug, None);
    created.runTravis := true;
    SnapshotsOfUpdate(bs, slug, created);
    next := bs[slug := created];
  }

  /** Sets `run_travis` on the record under `slug`, leaving every other record as it was. */
  method WantTravis(bs: map<string, BuildInfo>, slug: string)
    requires WellFormed(bs) && slug in bs
    modifies bs[slug]
    ensures SnapshotsOf(bs) == old(SnapshotsOf(bs))[slug := old(SnapshotsOf(bs))[slug].(runTravis := true)]
  {
    var b := bs[slug];
    ghost var prior := SnapshotsOf(bs);
    b.runTravis := true;
    forall k | k in bs && k != slug ensures bs[k].Snapshot() == prior[k] {
      assert bs[k].slug != b.slug;
    }
    assert b.Snapshot() == prior[slug].(runTravis := true);
    SnapshotsAfter(bs, prior, slug);
  }

  /** One turn of the explicit-list loop: a new `BuildInfo` for `project`, stored under its name. */
  method AddListed(found: map<string, BuildInfo>, project: string, config: ProjectConfig, hasBuild: bool)
    returns (next: map<string, BuildInfo>)
    requires WellFormed(found)
    ensures WellFormed(next) && forall k | k in next :: (k in found && next[k] == found[k]) || fresh(next[k])
    ensures SnapshotsOf(next) == SnapshotsOf(found)[project := ListedRecord(project, config, hasBuild)]
  {
    var tmpBuild := new BuildInfo(project, LocalScriptOf(config));
    if hasBuild {
      tmpBuild.runTravis := true;
    }
    SnapshotsOfUpdate(found, project, tmpBuild);
    next := found[project := tmpBuild];
  }

  /** `start_travis_builds` over a whole map of records, in slug order. */
  method StartRecords(bs: map<string, BuildInfo>, travis: Travis, inputs: string -> RunInput, dryRun: bool)
    returns (calls: seq<string>)
    requires WellFormed(bs)
    modifies bs.Values, travis
    ensures SnapshotsOf(bs) == StartAll(old(SnapshotsOf(bs)), inputs, dryRun)
    ensures calls == if dryRun then [] else Triggered(SlugOrder(bs.Keys), old(SnapshotsOf(bs)))
    ensures travis.headers == if Posted(calls, inputs) then ApiHeaders(old(travis.headers)) else old(travis.headers)
  {
    var keys := SlugOrder(bs.Keys);
    ghost var before := SnapshotsOf(bs);
    calls := StartInOrder(bs, keys, travis, inputs, dryRun);
    SlugOrderCovers(bs.Keys);
    StartUpToAll(before, inputs, dryRun, keys);
  }

  /** `poll_travis_updates` over every record, in slug order. */
  method PollRecords(bs: map<string, BuildInfo>, fetch: int -> TravisBuild, dryRun: bool) returns (fetched: seq<int>)
    requires WellFormed(bs)
    modifies bs.Values
    ensures SnapshotsOf(bs) == PollAll(old(SnapshotsOf(bs)), fetch, dryRun)
    ensures fetched == if dryRun then [] else Polled(SlugOrder(bs.Keys), old(SnapshotsOf(bs)))
  {
    var keys := SlugOrder(bs.Keys);
    ghost var before := SnapshotsOf(bs);
    fetched := PollInOrder(bs, keys, fetch, dryRun);
    SlugOrderCovers(bs.Keys);
    PollUpToAll(before, fetch, dryRun, keys);
  }

  /** Whether some record is not done. */
  function AnyWork(bs: map<string, BuildInfo>): (r: bool)
    reads bs.Values
    ensures r <==> HaveWork(SnapshotsOf(bs))
  {
    HaveWorkOf(bs);
    exists k | k in bs :: !bs[k].IsDone()
  }

  /** One round over every record: poll, then the first pending local build in slug order. */
  method RunRound(bs: map<string, BuildInfo>, round: Round, dryRun: bool) returns (fetched: seq<int>, built: Option<string>)
    requires WellFormed(bs)
    modifies bs.Values
    ensures SnapshotsOf(bs) == RunnerStep(old(SnapshotsOf(bs)), round, dryRun)
    ensures built.Some? ==> built.value in bs && SnapshotsOf(bs)[built.value].local.finished
  {
    ghost var before := SnapshotsOf(bs);
    fetched := PollRecords(bs, round.fetch, dryRun);
    ghost var polled := SnapshotsOf(bs);
    var keys := SlugOrder(bs.Keys);
    var i := FirstPendingIndex(bs, keys);
    RoundAtIndex(before, polled, round, dryRun, i);
    if i == |keys| {
      built := None;
    } else {
      var slug := keys[i];
      RunLocalBuild(bs, slug, round.reported(slug), dryRun);
      built := Some(slug);
    }
  }

  /** The `run` loop for any round function `step`, over the rounds from position `from` on. */
  function IterateFrom(m: Builds, rounds: seq<Round>, from: nat, step: (Builds, Round) -> Builds): (r: (Builds, nat))
    requires from <= |rounds|
    decreases |rounds| - from
  {
    if !HaveWork(m) || from == |rounds| then (m, 0)
    else
      var rest := IterateFrom(step(m, rounds[from]), rounds, from + 1, step);
      (rest.0, rest.1 + 1)
  }

  /** Counting rounds from a position is iterating over the rounds left. */
  lemma {:induction false} IterateFromIsIterate(m: Builds, rounds: seq<Round>, from: nat, step: (Builds, Round) -> Builds)
    requires from <= |rounds|
    ensures IterateFrom(m, rounds, from, step) == Iterate(m, rounds[from..], step)
    decreases |rounds| - from
  {
    if HaveWork(m) && from < |rounds| {
      IterateFromIsIterate(step(m, rounds[from]), rounds, from + 1, step);
      assert rounds[from..][0] == rounds[from];
      assert rounds[from..][1..] == rounds[from + 1..];
    }
  }

  /** The states `t` the loop has passed through so far: each is one round on from the one before, taken while there was work. */
  ghost predicate RoundsSoFar(t: seq<Builds>, rounds: seq<Round>, step: (Builds, Round) -> Builds) {
    1 <= |t| <= |rounds| + 1
    && forall j | 0 <= j < |t| - 1 :: HaveWork(t[j]) && t[j + 1] == step(t[j], rounds[j])
  }

  /** One more round. */
  lemma RoundsSoFarNext(t: seq<Builds>, rounds: seq<Round>, step: (Builds, Round) -> Builds, n: Builds)
    requires RoundsSoFar(t, rounds, step) && |t| <= |rounds| && HaveWork(t[|t| - 1])
    requires n == step(t[|t| - 1], rounds[|t| - 1])
    ensures RoundsSoFar(t + [n], rounds, step)
  {
    var u := t + [n];
    forall j | 0 <= j < |u| - 1 ensures HaveWork(u[j]) && u[j + 1] == step(u[j], rounds[j]) {
      assert u[j] == t[j];
      if j < |t| - 1 {
        assert u[j + 1] == t[j + 1];
      }
    }
  }

  /** The states after one more round of `runner_loop`. */
  ghost function RoundTraced(t: seq<Builds>, rounds: seq<Round>, dryRun: bool, n: Builds): (u: seq<Builds>)
    requires RoundsSoFar(t, rounds, RoundStep(dryRun)) && |t| <= |rounds| && HaveWork(t[|t| - 1])
    requires n == RunnerStep(t[|t| - 1], rounds[|t| - 1], dryRun)
    ensures RoundsSoFar(u, rounds, RoundStep(dryRun)) && |u| == |t| + 1 && u[|t|] == n && u[0] == t[0]
  {
    RoundsSoFarNext(t, rounds, RoundStep(dryRun), n);
    t + [n]
  }

  /** Where the loop stops, after the states `t`, from position `i` on. */
  lemma {:induction false} RoundsSoFarEnd(t: seq<Builds>, rounds: seq<Round>, step: (Builds, Round) -> Builds, i: nat)
    requires RoundsSoFar(t, rounds, step) && i < |t|
    requires |t| - 1 == |rounds| || !HaveWork(t[|t| - 1])
    ensures IterateFrom(t[i], rounds, i, step) == (t[|t| - 1], |t| - 1 - i)
    decreases |t| - i
  {
    if i < |t| - 1 {
      assert HaveWork(t[i]) && t[i + 1] == step(t[i], rounds[i]);
      RoundsSoFarEnd(t, rounds, step, i + 1);
    }
  }

  /** One round of `run`, recorded on the states so far. */
  method TraceRound(bs: map<string, BuildInfo>, rounds: seq<Round>, used: nat, dryRun: bool, ghost t: seq<Builds>)
    returns (ghost u: seq<Builds>)
    requires WellFormed(bs) && RoundsSoFar(t, rounds, RoundStep(dryRun)) && |t| == used + 1 && used < |rounds|
    requires SnapshotsOf(bs) == t[|t| - 1] && HaveWork(t[|t| - 1])
    modifies bs.Values
    ensures RoundsSoFar(u, rounds, RoundStep(dryRun)) && |u| == |t| + 1 && SnapshotsOf(bs) == u[|u| - 1] && u[0] == t[0]
  {
    var fetched, built := RunRound(bs, rounds[used], dryRun);
    u := RoundTraced(t, rounds, dryRun, SnapshotsOf(bs));
  }

  /** The rounds of `run`: one element of `rounds` per round while some record is not done. */
  method RunRounds(bs: map<string, BuildInfo>, rounds: seq<Round>, dryRun: bool) returns (used: nat)
    requires WellFormed(bs)
    modifies bs.Values
    ensures (SnapshotsOf(bs), used) == RunLoop(old(SnapshotsOf(bs)), rounds, dryRun)
  {
    ghost var t := [SnapshotsOf(bs)];
    used := 0;
    while AnyWork(bs) && used < |rounds|
      invariant RoundsSoFar(t, rounds, RoundStep(dryRun)) && |t| == used + 1
      invariant SnapshotsOf(bs) == t[used] && t[0] == old(SnapshotsOf(bs))
      decreases |rounds| - used
    {
      t := TraceRound(bs, rounds, used, dryRun, t);
      used := used + 1;
    }
    RoundsSoFarEnd(t, rounds, RoundStep(dryRun), 0);
    IterateFromIsIterate(t[0], rounds, 0, RoundStep(dryRun));
    assert rounds[0..] == rounds;
  }

  class ReBuildBot {
    const dryRun: bool
    const travis: Travis
    /** Repository slug to its `BuildInfo`. */
    var builds: map<string, BuildInfo>

    ghost predicate Valid()
      reads this
    {
      WellFormed(builds)
    }

    ghost function Snapshots(): Builds
      reads this, builds.Values
    {
      SnapshotsOf(builds)
    }

    constructor (dryRun: bool, travis: Travis)
      ensures this.dryRun == dryRun && this.travis == travis && builds == map[]
    {
      this.dryRun := dryRun;
      this.travis := travis;
      builds := map[];
    }

    /**
     * A new `BuildInfo` per project: from the GitHub projects and Travis
     * repositories when `projects` is `None`, else one per listed project.
     */
    method FindProjects(projects: Option<seq<string>>, github: map<string, (string, string)>, travisSlugs: seq<string>,
                        configOf: string -> ProjectConfig, hasBuild: string -> bool)
      returns (found: map<string, BuildInfo>)
      ensures WellFormed(found) && forall k | k in found :: fresh(found[k])
      ensures SnapshotsOf(found) == FoundProjects(projects, github, travisSlugs, configOf, hasBuild)
    {
      if projects.None? {
        found := FindAllProjects(github, travisSlugs);
      } else {
        found := FindListedProjects(projects.value, configOf, hasBuild);
      }
    }

    /** The automatic branch of `find_projects`. */
    method FindAllProjects(github: map<string, (string, string)>, travisSlugs: seq<string>)
      returns (found: map<string, BuildInfo>)
      ensures WellFormed(found) && forall k | k in found :: fresh(found[k])
      ensures SnapshotsOf(found) == AutoProjects(github, travisSlugs)
    {
      var fromGitHub := NewGitHubRecords(github);
      found := MarkTravisRepos(fromGitHub, github, travisSlugs);
    }

    /** The GitHub loop of the automatic branch: a new record per project, in slug order. */
    method NewGitHubRecords(github: map<string, (string, string)>) returns (found: map<string, BuildInfo>)
      ensures WellFormed(found) && forall k | k in found :: fresh(found[k])
      ensures SnapshotsOf(found) == GitHubRecords(github)
    {
      found := map[];
      var names := SlugOrder(github.Keys);
      for i := 0 to |names|
        invariant WellFormed(found) && forall k | k in found :: fresh(found[k])
        invariant SnapshotsOf(found) == GitHubUpTo(github, names[..i])
      {
        var repo := names[i];
        GitHubUpToNext(github, names, i);
        var b := new BuildInfo(repo, Some(ConfigOf(github[repo])));
        SnapshotsOfUpdate(found, repo, b);
        found := found[repo := b];
      }
      assert names[..|names|] == names;
      SlugOrderCovers(github.Keys);
      GitHubUpToAll(github, names);
    }

    /**
     * The Travis loop of the automatic branch: each Travis repository gets
     * Travis wanted, on a new record when GitHub did not list it.
     */
    method MarkTravisRepos(fromGitHub: map<string, BuildInfo>, github: map<string, (string, string)>, travisSlugs: seq<string>)
      returns (found: map<string, BuildInfo>)
      requires WellFormed(fromGitHub) && SnapshotsOf(fromGitHub) == GitHubRecords(github)
      modifies fromGitHub.Values
      ensures WellFormed(found) && forall k | k in found :: (k in fromGitHub && found[k] == fromGitHub[k]) || fresh(found[k])
      ensures SnapshotsOf(found) == AutoProjects(github, travisSlugs)
    {
      found := fromGitHub;
      for i := 0 to |travisSlugs|
        invariant WellFormed(found) && forall k | k in found :: (k in fromGitHub && found[k] == fromGitHub[k]) || fresh(found[k])
        invariant SnapshotsOf(found) == AutoProjects(github, travisSlugs[..i])
      {
        AutoProjectsStep(github, travisSlugs, i);
        found := MarkTravisRepo(found, travisSlugs[i]);
      }
      assert travisSlugs[..|travisSlugs|] == travisSlugs;
    }

    /** The explicit-list branch of `find_projects`. */
    method FindListedProjects(listed: seq<string>, configOf: string -> ProjectConfig, hasBuild: string -> bool)
      returns (found: map<string, BuildInfo>)
      ensures WellFormed(found) && forall k | k in found :: fresh(found[k])
      ensures SnapshotsOf(found) == ListedProjects(listed, configOf, hasBuild)
    {
      found := map[];
      for i := 0 to |listed|
        invariant WellFormed(found) && forall k | k in found :: fresh(found[k])
        invariant SnapshotsOf(found) == ListedUpTo(listed[..i], configOf, hasBuild)
      {
        ListedUpToNext(listed, configOf, hasBuild, i);
        found := AddListed(found, listed[i], configOf(listed[i]), hasBuild(listed[i]));
      }
      assert listed[..|listed|] == listed;
      ListedUpToAll(listed, configOf, hasBuild);
    }

    /**
     * `run_build` for each record that wants Travis, in slug order, storing
     * the new build id or the trigger error on that record only; in a dry run
     * those records are marked done by `set_dry_run` instead. Returns the
     * slugs `run_build` was called for.
     */
    method StartTravisBuilds(inputs: string -> RunInput) returns (calls: seq<string>)
      requires Valid()
      modifies builds.Values, travis
      ensures Snapshots() == StartAll(old(Snapshots()), inputs, dryRun)
      ensures calls == if dryRun then [] else Triggered(SlugOrder(builds.Keys), old(Snapshots()))
      ensures travis.headers == if Posted(calls, inputs) then ApiHeaders(old(travis.headers)) else old(travis.headers)
    {
      calls := StartRecords(builds, travis, inputs, dryRun);
    }

    /**
     * Fetches each record that wants Travis and has a build id, in slug
     * order, and records the build when it has finished; in a dry run every
     * record gets `set_dry_run` and nothing is fetched. Returns the ids fetched.
     */
    method PollTravisUpdates(fetch: int -> TravisBuild) returns (fetched: seq<int>)
      requires Valid()
      modifies builds.Values
      ensures Snapshots() == PollAll(old(Snapshots()), fetch, dryRun)
      ensures fetched == if dryRun then [] else Polled(SlugOrder(builds.Keys), old(Snapshots()))
    {
      fetched := PollRecords(builds, fetch, dryRun);
    }

    /** `have_work_to_do`: some record is not done. */
    function HaveWorkToDo(): (r: bool)
      reads this, builds.Values
      ensures r <==> HaveWork(Snapshots())
    {
      AnyWork(builds)
    }

    /**
     * One round: poll Travis, then run the local build of the first record in
     * slug order that still waits for one. Returns the ids fetched and the
     * slug built locally, if any.
     */
    method RunnerLoop(round: Round) returns (fetched: seq<int>, built: Option<string>)
      requires Valid()
      modifies builds.Values
      ensures Snapshots() == RunnerStep(old(Snapshots()), round, dryRun)
      ensures built.Some? ==> built.value in builds && Snapshots()[built.value].local.finished
    {
      fetched, built := RunRound(builds, round, dryRun);
    }

    /** `self.builds = self.find_projects(projects)`. */
    method StoreProjects(projects: Option<seq<string>>, github: map<string, (string, string)>, travisSlugs: seq<string>,
                         configOf: string -> ProjectConfig, hasBuild: string -> bool)
      modifies this
      ensures Valid() && forall k | k in builds :: fresh(builds[k])
      ensures Snapshots() == FoundProjects(projects, github, travisSlugs, configOf, hasBuild)
    {
      var found := FindProjects(projects, github, travisSlugs, configOf, hasBuild);
      ghost var s0 := SnapshotsOf(found);
      builds := found;
      assert Snapshots() == s0;
    }

    /** `run` as written: store the projects found and start their Travis builds. */
    method FindAndStart(projects: Option<seq<string>>, github: map<string, (string, string)>, travisSlugs: seq<string>,
                        configOf: string -> ProjectConfig, hasBuild: string -> bool, inputs: string -> RunInput)
      returns (calls: seq<string>)
      modifies this, travis
      ensures Valid() && forall k | k in builds :: fresh(builds[k])
      ensures Snapshots() == StartAll(FoundProjects(projects, github, travisSlugs, configOf, hasBuild), inputs, dryRun)
    {
      StoreProjects(projects, github, travisSlugs, configOf, hasBuild);
      calls := StartTravisBuilds(inputs);
    }

    /**
     * `run` as its tests describe it: find the projects, start the Travis
     * builds, then run rounds of `runner_loop` while `have_work_to_do`, one
     * element of `rounds` per round, until the rounds run out. Returns the
     * `run_build` calls and the number of rounds run.
     */
    method Run(projects: Option<seq<string>>, github: map<string, (string, string)>, travisSlugs: seq<string>,
               configOf: string -> ProjectConfig, hasBuild: string -> bool,
               inputs: string -> RunInput, rounds: seq<Round>)
      returns (calls: seq<string>, used: nat)
      modifies this, travis
      ensures Valid() && forall k | k in builds :: fresh(builds[k])
      ensures (Snapshots(), used) ==
        RunLoop(StartAll(FoundProjects(projects, github, travisSlugs, configOf, hasBuild), inputs, dryRun), rounds, dryRun)
    {
      calls := FindAndStart(projects, github, travisSlugs, configOf, hasBuild, inputs);
      used := RunRounds(builds, rounds, dryRun);
    }
  }
}
