/**
 * The bot's wrapper around the GitHub API: the user's own repositories, the
 * ones with a `.rebuildbot.sh` on their default branch and no commit on master
 * in the last day, and one repository's clone URLs when a branch holds a
 * `.rebuildbot.sh`. Repository listings and file lookups are inputs.
 */
module GitHub {
  import opened Wrappers

  const OneDay := 86400

  /** The branch `get_project_config` looks at unless told otherwise. */
  const ConfigBranch := "master"

  /**
   * A repository as GitHub lists it. `scriptBranches` are the branches on
   * which `.rebuildbot.sh` exists; a lookup without a ref reads
   * `defaultBranch`. `headCommitAge` is the age in seconds of master's HEAD
   * commit, `None` when looking up the branch fails.
   */
  datatype GitHubRepo = GitHubRepo(
    fullName: string,
    ownerLogin: string,
    cloneUrl: string,
    sshUrl: string,
    defaultBranch: string,
    scriptBranches: set<string>,
    headCommitAge: Option<int>)

  /** Whether looking up `.rebuildbot.sh` on `branch` finds it. */
  predicate ScriptOn(r: GitHubRepo, branch: string) {
    branch in r.scriptBranches
  }

  /** Whether looking up `.rebuildbot.sh` without a ref, on the default branch, finds it. */
  predicate HasDefaultScript(r: GitHubRepo) {
    ScriptOn(r, r.defaultBranch)
  }

  /** `get_project_config`'s 2-tuple: the HTTPS and SSH clone URLs, or `(None, None)`. */
  datatype ProjectConfig = ProjectConfig(cloneUrl: Option<string>, sshUrl: Option<string>)

  /** `repo_commit_in_last_day`: true when the branch cannot be read, else whether HEAD is at most a day old. */
  predicate CommitInLastDay(headCommitAge: Option<int>) {
    match headCommitAge
    case None => true
    case Some(age) => !(age > OneDay)
  }

  /** The repositories `find_projects` keeps. */
  predicate Includes(r: GitHubRepo, dateCheck: bool) {
    !(CommitInLastDay(r.headCommitAge) && dateCheck) && HasDefaultScript(r)
  }

  /** The repositories owned by `login`, in listing order. */
  function OwnedBy(login: string, repos: seq<GitHubRepo>): seq<GitHubRepo>
    decreases |repos|
  {
    if repos == [] then []
    else
      var last := repos[|repos| - 1];
      OwnedBy(login, repos[..|repos| - 1]) + (if last.ownerLogin == login then [last] else [])
  }

  /** The dict `find_projects` builds: a later repository with the same name overwrites an earlier one. */
  function ProjectsOf(repos: seq<GitHubRepo>, dateCheck: bool): map<string, (string, string)>
    decreases |repos|
  {
    if repos == [] then map[]
    else
      var last := repos[|repos| - 1];
      var earlier := ProjectsOf(repos[..|repos| - 1], dateCheck);
      if Includes(last, dateCheck) then earlier[last.fullName := (last.cloneUrl, last.sshUrl)] else earlier
  }

  /** The user's own repositories, in the order GitHub lists them. */
  method GetRepos(login: string, repos: seq<GitHubRepo>) returns (owned: seq<GitHubRepo>)
    ensures owned == OwnedBy(login, repos)
    ensures forall r :: r in owned <==> r in repos && r.ownerLogin == login
  {
    owned := [];
    for i := 0 to |repos|
      invariant owned == OwnedBy(login, repos[..i])
    {
      assert repos[..i + 1][..i] == repos[..i];
      var repo := repos[i];
      if repo.ownerLogin != login {
        continue;
      }
      owned := owned + [repo];
    }
    assert repos[..|repos|] == repos;
    forall r ensures r in owned <==> r in repos && r.ownerLogin == login {
      OwnedByMembership(login, repos, r);
    }
  }

  /**
   * The user's repositories that have a `.rebuildbot.sh` on their default branch and, when
   * `dateCheck` is set, no commit on master in the last day, mapped to their
   * clone URLs.
   */
  method FindProjects(login: string, repos: seq<GitHubRepo>, dateCheck: bool)
    returns (projects: map<string, (string, string)>)
    ensures projects == ProjectsOf(OwnedBy(login, repos), dateCheck)
    ensures forall n :: n in projects <==>
      exists r :: r in repos && r.ownerLogin == login && Includes(r, dateCheck) && r.fullName == n
  {
    var owned := GetRepos(login, repos);
    projects := map[];
    for i := 0 to |owned|
      invariant projects == ProjectsOf(owned[..i], dateCheck)
    {
      assert owned[..i + 1][..i] == owned[..i];
      var repo := owned[i];
      if CommitInLastDay(repo.headCommitAge) && dateCheck {
        continue;
      }
      if repo.defaultBranch !in repo.scriptBranches {
        continue;
      }
      projects := projects[repo.fullName := (repo.cloneUrl, repo.sshUrl)];
    }
    assert owned[..|owned|] == owned;
    forall n ensures n in projects <==>
      exists r :: r in repos && r.ownerLogin == login && Includes(r, dateCheck) && r.fullName == n
    {
      ProjectsOfKeys(owned, dateCheck, n);
      if n in projects {
        var r :| r in owned && Includes(r, dateCheck) && r.fullName == n;
        assert r in repos && r.ownerLogin == login;
      }
    }
  }

  /** One repository's clone URLs, or `(None, None)` when `branch` has no `.rebuildbot.sh`. */
  function GetProjectConfig(r: GitHubRepo, branch: string): (c: ProjectConfig)
    ensures c == ProjectConfig(None, None) <==> !ScriptOn(r, branch)
    ensures ScriptOn(r, branch) ==> c == ProjectConfig(Some(r.cloneUrl), Some(r.sshUrl))
  {
    if branch !in r.scriptBranches then ProjectConfig(None, None) else ProjectConfig(Some(r.cloneUrl), Some(r.sshUrl))
  }

  // ----- properties -----

  lemma {:induction false} OwnedByMembership(login: string, repos: seq<GitHubRepo>, r: GitHubRepo)
    ensures r in OwnedBy(login, repos) <==> r in repos && r.ownerLogin == login
    decreases |repos|
  {
    if repos != [] {
      var front := repos[..|repos| - 1];
      OwnedByMembership(login, front, r);
      assert repos == front + [repos[|repos| - 1]];
    }
  }

  /** Owner filtering keeps the listing order: it distributes over concatenation. */
  lemma {:induction false} OwnedByConcat(login: string, a: seq<GitHubRepo>, b: seq<GitHubRepo>)
    ensures OwnedBy(login, a + b) == OwnedBy(login, a) + OwnedBy(login, b)
    decreases |b|
  {
    if b != [] {
      var front := b[..|b| - 1];
      assert (a + b)[..|a + b| - 1] == a + front;
      OwnedByConcat(login, a, front);
    } else {
      assert a + b == a;
    }
  }

  lemma {:induction false} ProjectsOfKeys(repos: seq<GitHubRepo>, dateCheck: bool, n: string)
    ensures n in ProjectsOf(repos, dateCheck) <==> exists r :: r in repos && Includes(r, dateCheck) && r.fullName == n
    decreases |repos|
  {
    if repos != [] {
      var front := repos[..|repos| - 1];
      ProjectsOfKeys(front, dateCheck, n);
      assert repos == front + [repos[|repos| - 1]];
    }
  }

  /**
   * A name in the dict maps to the clone URLs of the last listed repository
   * with that name that qualifies.
   */
  lemma {:induction false} ProjectsOfValue(repos: seq<GitHubRepo>, dateCheck: bool, n: string)
    requires n in ProjectsOf(repos, dateCheck)
    ensures exists i :: (0 <= i < |repos| && repos[i].fullName == n && Includes(repos[i], dateCheck)
      && ProjectsOf(repos, dateCheck)[n] == (repos[i].cloneUrl, repos[i].sshUrl)
      && forall j :: i < j < |repos| ==> !(repos[j].fullName == n && Includes(repos[j], dateCheck)))
    decreases |repos|
  {
    var last := repos[|repos| - 1];
    var front := repos[..|repos| - 1];
    if Includes(last, dateCheck) && last.fullName == n {
      assert repos[|repos| - 1] == last;
    } else {
      ProjectsOfValue(front, dateCheck, n);
      var i :| 0 <= i < |front| && front[i].fullName == n && Includes(front[i], dateCheck)
        && ProjectsOf(front, dateCheck)[n] == (front[i].cloneUrl, front[i].sshUrl)
        && forall j :: i < j < |front| ==> !(front[j].fullName == n && Includes(front[j], dateCheck));
      assert repos[i] == front[i];
      forall j | i < j < |repos| ensures !(repos[j].fullName == n && Includes(repos[j], dateCheck)) {
        if j < |repos| - 1 { assert repos[j] == front[j]; }
      }
    }
  }

  /** Without the date check only a missing `.rebuildbot.sh` on the default branch excludes a repository. */
  lemma NoDateCheckKeepsEveryScript(r: GitHubRepo)
    ensures Includes(r, false) <==> HasDefaultScript(r)
  {
  }

  /** With the date check, a repository whose master branch cannot be read is skipped. */
  lemma UnreadableBranchSkipped(r: GitHubRepo)
    requires r.headCommitAge.None?
    ensures !Includes(r, true)
  {
  }

  /** A repository is skipped for recency exactly when its HEAD commit is at most a day old. */
  lemma RecencyRule(r: GitHubRepo, age: int)
    requires r.headCommitAge == Some(age) && HasDefaultScript(r)
    ensures Includes(r, true) <==> age > OneDay
  {
  }

  /**
   * The two discovery routes look in different places: `find_projects` reads
   * `.rebuildbot.sh` from the default branch, `get_project_config` from
   * master. For a repository `find_projects` reports, `get_project_config`
   * gives the same clone URLs exactly when master holds the script too (full
   * names being unique), and so always when master is the default branch.
   */
  lemma ConfigAgreesWithFindProjects(repos: seq<GitHubRepo>, dateCheck: bool, k: int)
    requires forall i, j :: 0 <= i < j < |repos| ==> repos[i].fullName != repos[j].fullName
    requires 0 <= k < |repos| && repos[k].fullName in ProjectsOf(repos, dateCheck)
    ensures HasDefaultScript(repos[k])
    ensures var v := ProjectsOf(repos, dateCheck)[repos[k].fullName];
      GetProjectConfig(repos[k], ConfigBranch) == ProjectConfig(Some(v.0), Some(v.1)) <==> ScriptOn(repos[k], ConfigBranch)
    ensures repos[k].defaultBranch == ConfigBranch ==>
      var v := ProjectsOf(repos, dateCheck)[repos[k].fullName];
      GetProjectConfig(repos[k], ConfigBranch) == ProjectConfig(Some(v.0), Some(v.1))
  {
    ProjectsOfValue(repos, dateCheck, repos[k].fullName);
  }
}
