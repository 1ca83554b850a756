# rebuildbot, modelled in Dafny

rebuildbot periodically rebuilds a user's GitHub projects. It does two kinds of build:

- It triggers a new Travis CI build of each repository that Travis knows.
- It runs each repository's `.rebuildbot.sh` on the local machine.

This project models the parts of the bot that make decisions:

- **`BuildInfo`** (`buildinfo.dfy`, module `BuildState`). This is the record of one repository's Travis build and local build. The class `BuildInfo` holds its attributes as fields. Each setter is proved to act on that record as a pure function on a `Record` value, and the lemmas beside those functions state what the setters promise.
- **The Travis wrapper** (`travis.dfy`, module `TravisApi`):
  - `get_repos`: the candidate filter and `sorted()`;
  - `trigger_travis`: the request URL with the slug percent-encoded, the in-place header update, and the 2xx test;
  - `wait_for_new_build`: a bounded poll;
  - `run_build` and `url_for_build`.
- **The GitHub wrapper** (`github.dfy`, module `GitHub`): the owner filter, the `.rebuildbot.sh` and recency filter of `find_projects`, `get_project_config` and `repo_commit_in_last_day`. The two script lookups read different branches: `find_projects` asks for `.rebuildbot.sh` without a ref, so on the default branch, and `get_project_config` asks on master. A repository records its default branch and the branches that hold the script, and `GitHub.ConfigAgreesWithFindProjects` states when the two answers agree.
- **The exceptions** (`exceptions.dfy`): their stored fields and formatted messages. Lemmas read the status code and the number of seconds back out of the messages.
- **The bot** (`bot.dfy`, module `Bot`, class `ReBuildBot`; `orchestration.dfy`, module `Orchestration`):
  - the token precedence of `get_github_token`;
  - both branches of `find_projects`;
  - `start_travis_builds`, `poll_travis_updates`, `have_work_to_do`, `runner_loop` and the `run` loop;
  - `LocalBuild.run` (`local_build.dfy`).

  The methods change the `BuildInfo` objects of the slug-to-`BuildInfo` dict in place. Each method is proved to follow a function on the dict of `Record` values in `Orchestration`, and the lemmas there state what follows for whole rounds and runs.
- **Supporting pieces** (`text.dfy` and `quoting.dfy`):
  - Python's `str()` of an integer;
  - string order, `sorted()` and sorted iteration over dict keys;
  - `urllib.quote(s, safe='')`, with a decoder that proves it reversible.

The snapshot of the program is mid-refactor. Several pieces appear only in the tests, so they are modelled from those tests:

- `start_travis_builds` is a stub whose doc comment says what it does;
- `poll_travis_updates`, `runner_loop`, `have_work_to_do` and the rest of `run` do not exist in `bot.py`;
- the `BuildInfo` members `is_done`, `set_dry_run`, `set_local_build`, `set_travis_build_finished` and `set_local_build_s3_link` do not exist in `buildinfo.py`.

Where the tests and the source disagree, the model follows the source. The places are listed below. There is one exception: the defect listed under "## Findings". There the list branch of `find_projects` (`Bot.AddListed`, `Bot.ReBuildBot.FindListedProjects` and the methods that call it) builds the corrected record, and `Bot.AsWrittenRunsLocalWithoutScript` states what the code as written does.

Every answer from an outside service is an input to the model:

- the GitHub and Travis repository listings;
- the repository lookup (the old last-build id, or the exception it raises) and the trigger response;
- the successive last-build ids a poll observes;
- the builds fetched by id;
- what a local build reports;
- the environment and the `~/.gitconfig` sections.

Where the source and its tests disagree:

- **`BuildInfo` constructor.** The tests construct `BuildInfo` with `run_local` and clone-URL keyword arguments. The source takes `(repo_slug, local_script=None)` (`rebuildbot/buildinfo.py:47`), and the model follows the source.
- **`get_project_config` and `find_projects`.** Both return 2-tuples `(clone_url, ssh_url)` in the source, and the model uses the source's pair.
- **`travis.get_repos(date_check=False)`.** The source still calls the date check (`rebuildbot/travis.py:104`), so a repository without builds is still skipped through its `KeyError`. The model keeps this: `Keeps` requires a last build whatever `dateCheck` is.

## Model

| member | source | states |
|---|---|---|
| Text.IntToStringRoundTrip | rebuildbot/travis.py:240 | the decimal rendering of an integer, as `'%s' % n` writes it, parses back to the same integer |
| Text.IntToStringInjective | rebuildbot/travis.py:240 | distinct integers render as distinct strings |
| Text.Sort | rebuildbot/travis.py:113 | `sorted()` of a list of strings is ordered and is a permutation of the list |
| Text.SortedUnique | rebuildbot/travis.py:113 | two ordered permutations of the same strings are equal, so the sorted result is determined by its contents |
| Text.SlugOrder | rebuildbot/tests/test_bot.py:403-407 | the dict keys in visiting order: as many as there are keys, each of them a key |
| Text.SlugOrderIncreasing | rebuildbot/tests/test_bot.py:403-407 | the keys are visited in strictly increasing slug order, so none is visited twice |
| Text.SlugOrderCovers | rebuildbot/tests/test_bot.py:403-407 | every key of the dict is visited |
| Quoting.QuoteRoundTrip | rebuildbot/travis.py:221 | percent-decoding `quote(slug, safe='')` gives back the slug |
| Quoting.QuoteNoSlash | rebuildbot/travis.py:221 | with no safe characters, `/` is always encoded (`%2F`), so the quoted slug contains no `/` |
| Quoting.QuoteInjective | rebuildbot/travis.py:221 | different slugs quote to different strings |
| Exceptions.TriggerMessageReportsStatus | rebuildbot/exceptions.py:62-70 | the word after "Got " in a `TravisTriggerError` message reads back as exactly the response's status code |
| Exceptions.TriggerMessageNamesRequest | rebuildbot/exceptions.py:62-70 | right after the fixed text that follows the status code, a `TravisTriggerError` message names the repository, the branch in parentheses and the URL, and it ends with the response body |
| Exceptions.TimeoutMessageReportsSeconds | rebuildbot/exceptions.py:85-90 | the word before " seconds" in a `PollTimeoutException` message reads back as `wait_time * num_times` |
| Exceptions.TokenMessageNamesBothSources | rebuildbot/exceptions.py:43-48 | the fixed missing-token message names both `GITHUB_TOKEN` and `~/.gitconfig` |
| TravisApi.ApiHeaders | rebuildbot/travis.py:223-226 | after a trigger the session headers have Content-Type and Accept set to `application/json` and Travis-API-Version to `3`; every other entry is kept and nothing else is added |
| TravisApi.ApiHeadersIdempotent | rebuildbot/travis.py:223-226 | updating the headers a second time changes nothing |
| TravisApi.CandidatesMembership | rebuildbot/travis.py:97-111 | a slug is appended exactly when some listed repository has it and it passes all three tests: it starts with `login + '/'`, it has builds, and it has no build in the last day when `date_check` is set |
| TravisApi.FirstChange | rebuildbot/travis.py:182-186 | the first poll whose last-build id differs from the old one; when there is none, all `POLL_NUM_TIMES` polls saw the old id |
| TravisApi.RunBuildNewIdDiffers | rebuildbot/travis.py:154-161 | a successful `run_build` returns the old id first and a new id that, when present, differs from it |
| TravisApi.RunBuildErrors | rebuildbot/travis.py:144-161 | `run_build` raises exactly when the repository lookup raises, passing that exception on, or when the trigger status is outside 2xx, raising the `TravisTriggerError` for the request to its own slug's URL |
| TravisApi.Travis.GetRepos | rebuildbot/travis.py:81-113 | the result is sorted, is a permutation of the appended slugs, and holds a slug exactly when a listed repository with that slug passes the filter |
| TravisApi.Travis.WaitForNewBuild | rebuildbot/travis.py:163-191 | it returns the first polled id that differs from `last_build_id`, after one sleep per earlier poll. Otherwise it polls and sleeps 6 times and fails with `PollTimeoutException('last_build.id', slug, 10, 6)`; it never returns the old id |
| TravisApi.Travis.TriggerTravis | rebuildbot/travis.py:199-232 | it posts to `PUBLIC + '/repo/' + quote(slug) + '/requests'` with the branch and message and the updated shared headers. It succeeds exactly on a 2xx status, and otherwise fails with a `TravisTriggerError` that carries repo, branch, url, status, headers and body |
| TravisApi.Travis.RunBuild | rebuildbot/travis.py:128-161 | it looks the repository up, triggers once, then waits. It returns `(old id, new id)`, with the new id `None` on a poll timeout. A failed lookup is passed on before anything is posted, leaving the headers as they were. A trigger error is passed on and then nothing is polled |
| TravisApi.TriggerUrlNamesSlug | rebuildbot/travis.py:221 | the quoted slug is exactly one path segment of the trigger URL and decodes back to the slug |
| TravisApi.TriggerUrlInjective | rebuildbot/travis.py:221 | different repositories are triggered through different URLs |
| TravisApi.UrlForBuildNamesNumber | rebuildbot/travis.py:234-241 | the last path segment of a build URL reads back as the build number |
| TravisApi.UrlForBuildInjective | rebuildbot/travis.py:234-241 | a build URL determines both the repository slug and the build number |
| GitHub.GetRepos | rebuildbot/github_wrapper.py:114-131 | it keeps exactly the repositories whose owner is the user, in listing order |
| GitHub.OwnedByMembership | rebuildbot/github_wrapper.py:125-130 | a repository is kept exactly when it is listed and owned by the user |
| GitHub.OwnedByConcat | rebuildbot/github_wrapper.py:125-130 | the owner filter keeps listing order: filtering a concatenation is concatenating the filtered parts |
| GitHub.FindProjects | rebuildbot/github_wrapper.py:61-90 | the dict has a name exactly when an owned repository with that name has `.rebuildbot.sh` on its default branch and is not (recently committed and `date_check` set) |
| GitHub.ProjectsOfKeys | rebuildbot/github_wrapper.py:76-90 | the names in the dict are exactly the names of the qualifying repositories |
| GitHub.ProjectsOfValue | rebuildbot/github_wrapper.py:88 | a name maps to `(clone_url, ssh_url)` of the last qualifying repository listed with that name |
| GitHub.GetProjectConfig | rebuildbot/github_wrapper.py:92-112 | it returns `(None, None)` exactly when the given branch (master unless told otherwise) has no `.rebuildbot.sh`, and otherwise the repository's HTTPS and SSH clone URLs |
| GitHub.NoDateCheckKeepsEveryScript | rebuildbot/github_wrapper.py:78-87 | without the date check only a missing `.rebuildbot.sh` on the default branch excludes a repository |
| GitHub.UnreadableBranchSkipped | rebuildbot/github_wrapper.py:145-150 | a failed branch lookup counts as a recent commit, so with the date check the repository is skipped |
| GitHub.RecencyRule | rebuildbot/github_wrapper.py:152-159 | with the date check, a repository with a script is kept exactly when its HEAD commit is more than a day old |
| GitHub.ConfigAgreesWithFindProjects | rebuildbot/github_wrapper.py:81-112 | a repository `find_projects` reports has the script on its default branch; `get_project_config` gives it the same clone URLs exactly when master holds the script too, and so always when master is the default branch |
| BuildState.NewRecord | rebuildbot/buildinfo.py:56-64 | a fresh record has `run_travis` false, no trigger error and no build id, nothing finished and is not done; `run_local` is true exactly when a local script was given |
| BuildState.BuildInfo.constructor | rebuildbot/buildinfo.py:47-64 | the new object's attributes are those of a fresh record for the slug and script |
| BuildState.BuildInfo.IsDone | rebuildbot/tests/test_buildinfo.py:148-170 | done exactly when the Travis build finished and, if a local build is wanted, it finished too |
| BuildState.BuildInfo.SetTravisTriggerError | rebuildbot/buildinfo.py:66-74 | the object's new attributes are the old ones with the given exception stored, a `TravisTriggerError` or any other exception |
| BuildState.BuildInfo.SetTravisBuildId | rebuildbot/buildinfo.py:76-83 | the object's new attributes are the old ones with the build id stored |
| BuildState.BuildInfo.SetTravisBuildFinished | rebuildbot/tests/test_buildinfo.py:181-202 | the fetched build, its state, color, duration, errored and number are copied; the url is `url_for_build(slug, build.id)`; the build is marked finished |
| BuildState.BuildInfo.SetDryRun | rebuildbot/tests/test_buildinfo.py:224-249 | Travis is marked finished with the sentinel values (id, number and duration -1, 'DRY RUN', 'black', not errored, url '#'); everything else is kept |
| BuildState.BuildInfo.SetLocalBuild | rebuildbot/tests/test_buildinfo.py:204-222 | every part of the outcome is stored, with parts not supplied stored as None, and the local build is marked finished |
| BuildState.BuildInfo.SetLocalBuildS3Link | rebuildbot/tests/test_buildinfo.py:272-274 | only the S3 link changes |
| BuildState.UpdateKeepsIdentity | rebuildbot/tests/test_buildinfo.py:224-241 | no setter changes the slug, the local script, the clone URLs, `run_travis` or `run_local` |
| BuildState.UpdatesTouchOneSide | rebuildbot/tests/test_buildinfo.py:204-249 | Travis setters leave the local build untouched, and local setters leave the Travis build and id untouched |
| BuildState.TriggerErrorOnlyChangesError | rebuildbot/buildinfo.py:66-74 | `set_travis_trigger_error` stores exactly the given exception and changes no other attribute |
| BuildState.BuildIdOnlyChangesId | rebuildbot/buildinfo.py:76-83 | `set_travis_build_id` stores exactly the given id and changes no other attribute |
| BuildState.FinishedStaysFinished | rebuildbot/tests/test_buildinfo.py:181-249 | after any sequence of setter calls, a finished Travis build or local build is still finished and the identity attributes are unchanged |
| BuildState.DoneIsStable | rebuildbot/tests/test_buildinfo.py:148-170 | a done record stays done through any sequence of setter calls |
| BuildState.DryRunDone | rebuildbot/tests/test_buildinfo.py:224-249 | after `set_dry_run` the Travis build is finished with id -1, the record is done exactly when no local build is pending, and a second call changes nothing |
| BuildState.LocalBuildDone | rebuildbot/tests/test_buildinfo.py:204-222 | after `set_local_build` the record is done exactly when its Travis build finished |
| BuildState.FinishedLinksToBuild | rebuildbot/tests/test_buildinfo.py:181-202 | the stored url ends in the fetched build's id and the stored result is that build |
| LocalBuilds.LocalBuild.constructor | rebuildbot/local_build.py:47-58 | it stores the repository name, the shared `BuildInfo` and the dry-run flag |
| LocalBuilds.LocalBuild.Run | rebuildbot/local_build.py:60-70 | it records the outcome on the shared `BuildInfo` (nothing ran in a dry run) and marks the local build finished |
| Orchestration.StartAll | rebuildbot/bot.py:199-206 | `start_travis_builds` keeps the set of slugs |
| Orchestration.StartRecordOutcome | rebuildbot/tests/test_bot.py:365-412 | outside a dry run, a record that wants Travis ends up with one of three things. When the repository lookup raised, it holds that exception, with the id unchanged. On a non-2xx trigger it holds the `TravisTriggerError` for its own slug and status, with the id unchanged. Otherwise it holds the new build id, which is `None` exactly when no new id was seen and otherwise differs from the old one. Records that do not want Travis are unchanged, and no record's identity, Travis result or local build changes |
| Orchestration.StartDryRun | rebuildbot/tests/test_bot.py:414-431 | in a dry run exactly the records that want Travis get `set_dry_run` (and are Travis-finished); the others are unchanged |
| Orchestration.TriggeredMembership | rebuildbot/tests/test_bot.py:403-407 | `run_build` is called for a slug exactly when its record wants Travis (`run_travis` set, not yet finished) |
| Orchestration.TriggeredIncreasing | rebuildbot/tests/test_bot.py:403-407 | the `run_build` calls are made in strictly increasing slug order, once each |
| Orchestration.PollAll | rebuildbot/tests/test_bot.py:513-583 | `poll_travis_updates` keeps the set of slugs |
| Orchestration.FirstPending | rebuildbot/tests/test_bot.py:451-478 | the position of the first record in slug order whose local build is wanted and not finished, or none when no record waits |
| Orchestration.RunnerStep | rebuildbot/tests/test_bot.py:451-511 | a round of `runner_loop` keeps the set of slugs |
| Orchestration.Iterate | rebuildbot/tests/test_bot.py:331-346 | the loop runs at most one round per available round, and stops early only when there is no work left |
| Orchestration.LocalStepAt | rebuildbot/tests/test_bot.py:451-511 | in the local half of a round a record either stays as it is or was pending and gets its local build |
| Orchestration.RunnerStepAt | rebuildbot/tests/test_bot.py:451-511 | a record after a round is its polled self, possibly with its local build run |
| Orchestration.RoundKeepsFinished | rebuildbot/tests/test_bot.py:451-583 | a round keeps finished builds finished, done records done and identities unchanged |
| Orchestration.LocalStepChoice | rebuildbot/tests/test_bot.py:465-478 | the only record whose local build changes is the first pending one in slug order |
| Orchestration.AtMostOneLocalBuild | rebuildbot/tests/test_bot.py:475-478 | a round runs at most one local build |
| Orchestration.LocalStepGoesToFirst | rebuildbot/tests/test_bot.py:465-478 | the record built locally was pending and comes no later in slug order than any other pending record |
| Orchestration.LocalBuildGoesToFirst | rebuildbot/tests/test_bot.py:465-478 | the same over a whole round: the local build goes to the first pending record in slug order |
| Orchestration.NoWorkLeft | rebuildbot/tests/test_bot.py:442-449 | with every Travis build finished and no local build pending, `have_work_to_do` is false |
| Orchestration.LocalStepShrinksPending | rebuildbot/tests/test_bot.py:451-511 | the local half of a round removes one record from the pending set whenever it is not empty, and adds none |
| Orchestration.DryRunPoll | rebuildbot/tests/test_bot.py:568-583 | a dry-run poll finishes every Travis build and leaves the pending local builds as they were |
| Orchestration.DryRunRound | rebuildbot/tests/test_bot.py:480-497 | a dry-run round finishes every Travis build and takes one record off a non-empty pending set |
| Orchestration.DryRunFinishes | rebuildbot/tests/test_bot.py:331-346 | a dry run ends with no work left after at most one round more than there are pending local builds |
| Orchestration.UnpolledNeverDone | rebuildbot/tests/test_buildinfo.py:167-170 | outside a dry run, an unfinished record that does not want Travis, or has no build id, is never polled. It never becomes done, so the loop uses every round it is given |
| Bot.GetGithubToken | rebuildbot/bot.py:176-197 | `~/.gitconfig` is read exactly when `GITHUB_TOKEN` is not set; a token returned comes from the environment or from the `github` section |
| Bot.EnvironmentTokenWins | rebuildbot/bot.py:183-186 | with `GITHUB_TOKEN` set its value is returned whatever `~/.gitconfig` holds, and the file is not read |
| Bot.GitconfigTokenUsed | rebuildbot/bot.py:187-197 | without `GITHUB_TOKEN`, the token is the `token` key of the `github` section of `~/.gitconfig`, which is read |
| Bot.TokenMissingExactly | rebuildbot/bot.py:187-197 | the lookup fails exactly when neither source holds a token, and then fails with `GitTokenMissingError` |
| Bot.AutoProjectsShape | rebuildbot/bot.py:142-153 | the automatic branch creates one record per slug in the union of the GitHub projects and Travis repositories. `run_travis` is true exactly for the Travis ones, and `run_local` and the local script are set exactly for the GitHub ones. Nothing is triggered or done yet |
| Bot.ListedProjectsShape | rebuildbot/bot.py:154-164 | the list branch creates exactly one record per listed project, with `run_travis` exactly when Travis knows a last build and `run_local` exactly when the repository has `.rebuildbot.sh` on master (corrected, see Findings) |
| Bot.LocalScriptOf | rebuildbot/bot.py:156-157 | (corrected, see Findings) a listed project has no local script exactly when `get_project_config` returned `(None, None)`, where the code as written passes the pair on |
| Bot.AsWrittenRunsLocalWithoutScript | rebuildbot/bot.py:156-157 | as written, a listed repository without `.rebuildbot.sh` on master still gets `run_local`; the corrected record does not |
| Bot.StartRecord | rebuildbot/bot.py:199-206 | one record after `start_travis_builds`; `run_build` is called exactly when it wants Travis outside a dry run, and the headers are updated only when that call got past the repository lookup |
| Bot.StartInOrder | rebuildbot/bot.py:199-206 | the loop over the slugs in sorted order handles each record on its own and calls `run_build` for exactly the `Triggered` slugs in that order |
| Bot.StartRecords | rebuildbot/bot.py:199-206 | `start_travis_builds` over the whole dict equals `StartAll` of the old records, with the calls in slug order |
| Bot.PollRecord | rebuildbot/tests/test_bot.py:513-583 | one record after `poll_travis_updates`; the build is fetched exactly for a pollable record outside a dry run |
| Bot.PollInOrder | rebuildbot/tests/test_bot.py:513-566 | the loop over the slugs in sorted order handles each record on its own and fetches exactly the `Polled` ids in that order |
| Bot.PollRecords | rebuildbot/tests/test_bot.py:513-583 | `poll_travis_updates` over the whole dict equals `PollAll` of the old records |
| Bot.FirstPendingIndex | rebuildbot/tests/test_bot.py:451-478 | the scan finds the first pending record in slug order, as `FirstPending` specifies |
| Bot.RunLocalBuild | rebuildbot/tests/test_bot.py:475-497 | `LocalBuild(slug, build, dry_run).run()` changes only that record, which gets its local build |
| Bot.MarkTravisRepo | rebuildbot/bot.py:149-152 | a Travis repository's record gets `run_travis`, and is first created without a local script when GitHub did not list it |
| Bot.AddTravisOnly | rebuildbot/bot.py:150-152 | a new record without a local script and with `run_travis` is stored under the slug |
| Bot.WantTravis | rebuildbot/bot.py:152 | only the record under the slug changes, and only its `run_travis` |
| Bot.AddListed | rebuildbot/bot.py:155-163 | (corrected, see Findings) a listed project gets a new record under its name, without a local script when `get_project_config` found none |
| Bot.AnyWork | rebuildbot/tests/test_bot.py:433-449 | true exactly when some record is not done |
| Bot.RunRound | rebuildbot/tests/test_bot.py:451-511 | one round over the dict equals `RunnerStep` of the old records; the slug built locally has its local build finished |
| Bot.RunRounds | rebuildbot/tests/test_bot.py:331-363 | the final records and the number of rounds run are exactly those of `RunLoop` |
| Bot.ReBuildBot.constructor | rebuildbot/bot.py:63-77 | the bot starts with the dry-run flag, its Travis wrapper and an empty builds dict |
| Bot.ReBuildBot.FindProjects | rebuildbot/bot.py:127-164 | the records of the new objects are `FoundProjects`: listed projects when a list is given (corrected, see Findings), automatic discovery otherwise. Every object is new and keyed by its own slug |
| Bot.ReBuildBot.FindAllProjects | rebuildbot/bot.py:143-153 | the automatic branch produces `AutoProjects` |
| Bot.ReBuildBot.NewGitHubRecords | rebuildbot/bot.py:146-147 | one new record per GitHub project, with its clone URLs as local script |
| Bot.ReBuildBot.MarkTravisRepos | rebuildbot/bot.py:149-152 | after the Travis loop the records are `AutoProjects` |
| Bot.ReBuildBot.FindListedProjects | rebuildbot/bot.py:154-164 | (corrected, see Findings) the list branch produces `ListedProjects` |
| Bot.ReBuildBot.StartTravisBuilds | rebuildbot/bot.py:199-206 | the records become `StartAll` of the old ones; `run_build` is called for exactly the records that want Travis, in slug order, and for none in a dry run; the session headers are updated exactly when some call got past the repository lookup |
| Bot.ReBuildBot.PollTravisUpdates | rebuildbot/tests/test_bot.py:513-583 | the records become `PollAll` of the old ones; exactly the pollable ids are fetched, in slug order, and none in a dry run |
| Bot.ReBuildBot.HaveWorkToDo | rebuildbot/tests/test_bot.py:433-449 | true exactly when some record is not done |
| Bot.ReBuildBot.RunnerLoop | rebuildbot/tests/test_bot.py:451-511 | the records become `RunnerStep` of the old ones: one poll, then at most one local build |
| Bot.ReBuildBot.StoreProjects | rebuildbot/bot.py:91 | `self.builds` holds new objects whose records are `FoundProjects` |
| Bot.ReBuildBot.FindAndStart | rebuildbot/bot.py:91-93 | `run` as written: the records are `StartAll` of the projects found |
| Bot.ReBuildBot.Run | rebuildbot/tests/test_bot.py:331-363 | `run` as its tests describe it: find, start, then `runner_loop` while `have_work_to_do`; the final records and round count are `RunLoop` of the started records |

## Left out

- `handle_results`, the HTML and e-mail report, and `connect_s3` with the S3 upload. Only the stored S3 link is modelled. These are output plumbing over services outside the program.
- `local_build_output_str`: it depends on Python's traceback module and `timedelta` formatting.
- The git clone and the script run in `LocalBuild.run`, which is an empty stub in the source. What a run reports is an input; a dry run reports nothing.
- Clocks and sleeping. The age of the last Travis build and of master's HEAD commit are given in seconds, and the sleeps of `wait_for_new_build` are counted rather than taken.
- The reading of `~/.gitconfig` (leading-space stripping and INI parsing) is left out, and so is the error raised when the file does not exist. The sections and keys are an input.
- `ReBuildBot.__init__`'s calls to `get_github_token`, `GitHubWrapper(...)`, `Travis(...)` and `connect_s3`. The constructor takes the dry-run flag and a Travis wrapper.
- The lookups `travis.repo(slug).last_build`, `get_last_build` and `get_build`. The old last-build id or the exception the repository lookup raises, whether `get_last_build` raised `TravisError`, and the build fetched for an id are inputs. `find_projects` takes the results of `github.find_projects()` and `travis.get_repos()` as inputs.
- Logging.
- Dict iteration order. Python 2 dicts iterate in no specified order. The model visits the keys in sorted slug order, the order the tests' expected call lists follow.
- Bot.ReBuildBot.Run: the number of rounds is a finite input sequence, because the source's loop would repeat until every record is done. `Orchestration.UnpolledNeverDone` shows that outside a dry run this need not happen.
- Bot.ReBuildBot.Run: it does not state the `run_build` calls it makes; `Bot.ReBuildBot.StartTravisBuilds` states them.
- Bot.ReBuildBot.FindAndStart: `run` in `bot.py` returns right after `start_travis_builds` (`rebuildbot/bot.py:91-93`). `FindAndStart` models the code as written and does not state the `run_build` calls it makes. `Run` models the `runner_loop` rounds that the tests expect; their final `handle_results` call is left out, as above.
- Bot.StartRecord: it stores the new id, the second element of `run_build`'s tuple, as the build id. The test stubs `run_build` to return a bare id.
- TravisApi.Travis.RunBuild: of the exceptions other than `TravisTriggerError` that `run_build` can raise, only a failing repository lookup (`rebuildbot/travis.py:144`) is modelled. An exception from the trigger POST (`rebuildbot/travis.py:227`) or from `get_last_build` while polling (`rebuildbot/travis.py:183`) is not. Each would need a failure point of its own, after the headers have already been updated.
- BuildState.BuildInfo.SetTravisTriggerError: an exception other than `TravisTriggerError` is stored by its message only (`Exceptions.BuildError`), not as an object of its own class.
- GitHub.GetProjectConfig: `github.get_repo(name)` raising for an unknown name (`rebuildbot/github_wrapper.py:105`) is not modelled. The repository is given, so the bot's list branch assumes each listed name exists; it takes `get_project_config`'s answers as an input.
- Bot.AddListed: it builds the corrected record of the finding below, with no local script when `get_project_config` returns `(None, None)`. The code as written passes that pair on as the local script (`rebuildbot/bot.py:157`); `Bot.AsWrittenRunsLocalWithoutScript` states what follows from that.
- Bot.LocalScriptOf: it is the correction, not code the source has; see the finding below.
- Bot.ReBuildBot.FindListedProjects: its records are the corrected `ListedProjects`, so a listed project without `.rebuildbot.sh` on master has `run_local` false, where the code as written sets it true.
- Bot.ReBuildBot.FindProjects: its list branch is `FindListedProjects`, corrected as above. `StoreProjects`, `FindAndStart` and `Run` use the same records.
- Orchestration.PollAll: it fetches a record only when it has a build id. The tests do not cover a record that wants Travis but has no id, as after a failed trigger or a poll timeout, and there is no `poll_travis_updates` in the source. The model skips such a record rather than calling `get_build(None)`. So the record is never polled and never done, and the second half of `Orchestration.UnpolledNeverDone` rests on this choice.
- Bot.ReBuildBot.PollTravisUpdates: it follows `Orchestration.PollAll`, so it has the same build-id guard.
- BuildState.BuildInfo.constructor: the source never sets `https_clone_url` or `ssh_clone_url`, although the `find_projects` tests read them. The model keeps those attributes `None` and stores the clone-URL pair as the local script, which is what the source does.
- BuildState.BuildInfo.IsDone: as the tests specify it, `is_done` does not consult `run_travis`. A record that does not want Travis is therefore never done outside a dry run. The model keeps this, and `Orchestration.UnpolledNeverDone` states the consequence.
- Exceptions.DictRepr: Python's `str()` of the response-headers dict is modelled without escaping quotes inside keys or values, and with the headers in the order given.
- Quoting.Quote: it quotes the UTF-8 bytes of each character. That is the result of Python 2's `quote` on a UTF-8 `str`; `unicode` input is not modelled.

## Findings

| source | as written | input that shows it | evidently intended | confidence | as-written member | corrected member |
|---|---|---|---|---|---|---|
| rebuildbot/bot.py:156-157 | `get_project_config` returns the pair `(None, None)` for a repository without `.rebuildbot.sh`. That pair is passed to `BuildInfo` as `local_script`, and as it is not `None`, `run_local` becomes true | `find_projects(['a/p3'])` where `a/p3` has no `.rebuildbot.sh`: the record wants a local build that has no script | `run_local` false for such a project, as `rebuildbot/tests/test_bot.py:319` expects | not executed | Bot.AsWrittenRunsLocalWithoutScript | Bot.ListedProjectsShape |
