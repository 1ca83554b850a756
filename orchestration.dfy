/**
 * What the bot's control loop does to the whole slug-to-`BuildInfo` dict, as
 * functions on `Record` values: one pass of `start_travis_builds`, one of
 * `poll_travis_updates`, one round of `runner_loop`, and the `run` loop that
 * repeats rounds while `have_work_to_do` holds. The class `ReBuildBot` is
 * proved to follow these functions; the lemmas here are what follows from
 * them.
 */
module Orchestration {
  import opened Wrappers
  import opened Text
  import opened Exceptions
  import opened TravisApi
  import opened BuildState
  import opened LocalBuilds

  type Builds = map<string, Record>

  /** The branch `start_travis_builds` asks Travis to build. */
  const Branch := "master"

  /**
   * What one `run_build` call meets on Travis: the repository lookup (the old
   * last-build id, or the message of the exception it raises), the trigger
   * response and the polled ids.
   */
  datatype RunInput = RunInput(lastBuild: Result<int, string>, response: Response, observe: nat -> int)

  /** What one round of `runner_loop` meets: builds fetched by id, and each local build's report. */
  datatype Round = Round(fetch: int -> TravisBuild, reported: string -> LocalOutcome)

  // ----- start_travis_builds -----

  /** A record `start_travis_builds` acts on: Travis wanted and not finished yet. */
  predicate WantsTravis(r: Record) {
    r.runTravis && !r.travis.finished
  }

  /** One record after `start_travis_builds`. */
  function TriggerOne(r: Record, input: RunInput, dryRun: bool): Record {
    if !WantsTravis(r) then r
    else if dryRun then DryRun(r)
    else
      match RunBuildOutcome(r.slug, Branch, input.lastBuild, input.response, input.observe)
      case Failure(e) => WithTriggerError(r, e)
      case Success(ids) => WithBuildId(r, ids.1)
  }

  /** The dict after `start_travis_builds`: every record is handled on its own. */
  function StartAll(m: Builds, inputs: string -> RunInput, dryRun: bool): (r: Builds)
    ensures r.Keys == m.Keys
  {
    map k | k in m :: TriggerOne(m[k], inputs(k), dryRun)
  }

  /** The slugs among `keys` that `run_build` is called for, in the order of the calls. */
  function Triggered(keys: seq<string>, m: Builds): seq<string>
    decreases |keys|
  {
    if keys == [] then []
    else
      var k := keys[|keys| - 1];
      Triggered(keys[..|keys| - 1], m) + (if k in m && WantsTravis(m[k]) then [k] else [])
  }

  /** Whether some `run_build` call among `calls` got past the repository lookup and posted a trigger request. */
  predicate Posted(calls: seq<string>, inputs: string -> RunInput) {
    exists i :: 0 <= i < |calls| && inputs(calls[i]).lastBuild.Success?
  }

  // ----- poll_travis_updates -----

  /** A record `poll_travis_updates` fetches: Travis wanted, not finished, and a build id known. */
  predicate Pollable(r: Record) {
    r.runTravis && !r.travis.finished && r.travisBuildId.Some?
  }

  /** One record after `poll_travis_updates`. */
  function PollOne(r: Record, fetch: int -> TravisBuild, dryRun: bool): Record {
    if dryRun then DryRun(r)
    else if Pollable(r) && fetch(r.travisBuildId.value).finished then FinishedWith(r, fetch(r.travisBuildId.value))
    else r
  }

  function PollAll(m: Builds, fetch: int -> TravisBuild, dryRun: bool): (r: Builds)
    ensures r.Keys == m.Keys
  {
    map k | k in m :: PollOne(m[k], fetch, dryRun)
  }

  /** The build ids `get_build` is called with, in the order of the calls. */
  function Polled(keys: seq<string>, m: Builds): seq<int>
    decreases |keys|
  {
    if keys == [] then []
    else
      var k := keys[|keys| - 1];
      Polled(keys[..|keys| - 1], m) + (if k in m && Pollable(m[k]) then [m[k].travisBuildId.value] else [])
  }

  // ----- runner_loop -----

  /** A record still waiting for its local build. */
  predicate PendingLocal(r: Record) {
    r.runLocal && !r.local.finished
  }

  predicate PendingAt(keys: seq<string>, m: Builds, j: int) {
    0 <= j < |keys| && keys[j] in m && PendingLocal(m[keys[j]])
  }

  /** The position of the first record from `from` on in `keys` that waits for its local build. */
  function FirstPending(keys: seq<string>, m: Builds, from: nat): (r: Option<nat>)
    requires from <= |keys|
    ensures r.Some? ==> from <= r.value < |keys| && PendingAt(keys, m, r.value)
    ensures r.Some? ==> forall j :: from <= j < r.value ==> !PendingAt(keys, m, j)
    ensures r.None? ==> forall j :: from <= j < |keys| ==> !PendingAt(keys, m, j)
    decreases |keys| - from
  {
    if from == |keys| then None
    else if PendingAt(keys, m, from) then Some(from)
    else FirstPending(keys, m, from + 1)
  }

  /** What a local build reports in this mode. */
  function Reported(round: Round, slug: string, dryRun: bool): LocalOutcome {
    if dryRun then NothingRan else round.reported(slug)
  }

  /** One round of `runner_loop`: poll Travis, then run the first pending local build in slug order, if any. */
  function RunnerStep(m: Builds, round: Round, dryRun: bool): (r: Builds)
    ensures r.Keys == m.Keys
  {
    LocalStep(PollAll(m, round.fetch, dryRun), round, dryRun)
  }

  /** The second half of a round: the first pending local build in slug order, if any, runs. */
  function LocalStep(p: Builds, round: Round, dryRun: bool): (r: Builds)
    ensures r.Keys == p.Keys
  {
    var keys := SlugOrder(p.Keys);
    match FirstPending(keys, p, 0)
    case None => p
    case Some(i) => p[keys[i] := WithLocalBuild(p[keys[i]], Reported(round, keys[i], dryRun))]
  }

  /** `have_work_to_do`. */
  predicate HaveWork(m: Builds) {
    exists k | k in m :: !Done(m[k])
  }

  /** A round as a function value. */
  function RoundStep(dryRun: bool): (Builds, Round) -> Builds {
    (m, round) => RunnerStep(m, round, dryRun)
  }

  /**
   * Rounds of `step` while there is work, one element of `rounds` per round.
   * Returns the final dict and the number of rounds run.
   */
  function Iterate(m: Builds, rounds: seq<Round>, step: (Builds, Round) -> Builds): (r: (Builds, nat))
    ensures r.1 <= |rounds|
    ensures r.1 < |rounds| ==> !HaveWork(r.0)
    decreases |rounds|
  {
    if !HaveWork(m) || rounds == [] then (m, 0)
    else
      var rest := Iterate(step(m, rounds[0]), rounds[1..], step);
      (rest.0, rest.1 + 1)
  }

  /** The `run` loop after `start_travis_builds`: rounds of `runner_loop` while there is work. */
  function RunLoop(m: Builds, rounds: seq<Round>, dryRun: bool): (Builds, nat) {
    Iterate(m, rounds, RoundStep(dryRun))
  }

  // ----- properties of start_travis_builds -----

  /**
   * After `start_travis_builds` outside a dry run, a record that wanted Travis
   * holds the lookup's exception when the repository lookup failed, the
   * trigger error when the trigger status was not 2xx, and otherwise the id
   * of the new build, `None` when none was seen; every other record is
   * unchanged.
   */
  lemma StartRecordOutcome(m: Builds, inputs: string -> RunInput, k: string)
    requires k in m
    ensures var r := StartAll(m, inputs, false)[k];
      var input := inputs(k);
      && Identity(r) == Identity(m[k]) && r.travis == m[k].travis && r.local == m[k].local
      && (!WantsTravis(m[k]) ==> r == m[k])
      && (WantsTravis(m[k]) && input.lastBuild.Failure? ==>
            && r.travisTriggerError == Some(OtherFailure(input.lastBuild.error))
            && r.travisBuildId == m[k].travisBuildId)
      && (WantsTravis(m[k]) && input.lastBuild.Success? && !IsSuccess(input.response.statusCode) ==>
            && r.travisTriggerError.Some? && r.travisTriggerError.value.TriggerFailed?
            && r.travisTriggerError.value.error.statusCode == input.response.statusCode
            && r.travisTriggerError.value.error.repo == m[k].slug
            && r.travisBuildId == m[k].travisBuildId)
      && (WantsTravis(m[k]) && input.lastBuild.Success? && IsSuccess(input.response.statusCode) ==>
            && r.travisTriggerError == m[k].travisTriggerError
            && (r.travisBuildId.Some? <==> FirstChange(input.observe, input.lastBuild.value, 0).Some?)
            && (r.travisBuildId.Some? ==> r.travisBuildId.value != input.lastBuild.value))
  {
    var input := inputs(k);
    var r := StartAll(m, inputs, false)[k];
    assert r == TriggerOne(m[k], input, false);
    if WantsTravis(m[k]) && input.lastBuild.Success? && IsSuccess(input.response.statusCode) {
      var o := RunBuildOutcome(m[k].slug, Branch, input.lastBuild, input.response, input.observe);
      RunBuildNewIdDiffers(m[k].slug, Branch, input.lastBuild, input.response, input.observe);
      assert r == WithBuildId(m[k], o.value.1);
    }
  }

  /** In a dry run `start_travis_builds` marks exactly the records that wanted Travis as finished. */
  lemma StartDryRun(m: Builds, inputs: string -> RunInput, k: string)
    requires k in m
    ensures var r := StartAll(m, inputs, true)[k];
      (WantsTravis(m[k]) ==> r == DryRun(m[k]) && r.travis.finished) && (!WantsTravis(m[k]) ==> r == m[k])
  {
    DryRunDone(m[k]);
  }

  /** `run_build` is called once for each record that wants Travis, and for no other. */
  lemma {:induction false} TriggeredMembership(keys: seq<string>, m: Builds, k: string)
    ensures k in Triggered(keys, m) <==> k in keys && k in m && WantsTravis(m[k])
    decreases |keys|
  {
    if keys != [] {
      var front := keys[..|keys| - 1];
      TriggeredMembership(front, m, k);
      assert keys == front + [keys[|keys| - 1]];
    }
  }

  /** The calls follow the order of `keys`: in slug order when `keys` is. */
  lemma {:induction false} TriggeredIncreasing(keys: seq<string>, m: Builds)
    requires Increasing(keys)
    ensures Increasing(Triggered(keys, m))
    decreases |keys|
  {
    if keys != [] {
      var front := keys[..|keys| - 1];
      var last := keys[|keys| - 1];
      assert Increasing(front);
      TriggeredIncreasing(front, m);
      var t := Triggered(front, m);
      forall x | x in t ensures LessEq(x, last) && x != last {
        TriggeredMembership(front, m, x);
        var i :| 0 <= i < |front| && front[i] == x;
        assert keys[i] == x;
      }
    }
  }

  // ----- properties of one round -----

  /** In the local half of a round a record either stays as it is or is the one whose local build runs. */
  lemma LocalStepAt(p: Builds, round: Round, dryRun: bool, k: string)
    requires k in p
    ensures var r := LocalStep(p, round, dryRun)[k];
      r == p[k] || (PendingLocal(p[k]) && r == WithLocalBuild(p[k], Reported(round, k, dryRun)))
  {
    var keys := SlugOrder(p.Keys);
    match FirstPending(keys, p, 0)
    case None =>
    case Some(i) =>
      if keys[i] == k {
        assert PendingAt(keys, p, i);
      }
  }

  /** A record keeps everything but its local build through the local half of a round. */
  lemma RunnerStepAt(m: Builds, round: Round, dryRun: bool, k: string)
    requires k in m
    ensures var p := PollOne(m[k], round.fetch, dryRun);
      var r := RunnerStep(m, round, dryRun)[k];
      r == p || (PendingLocal(p) && r == WithLocalBuild(p, Reported(round, k, dryRun)))
  {
    LocalStepAt(PollAll(m, round.fetch, dryRun), round, dryRun, k);
  }

  /** A finished Travis build or local build stays finished through a round, and so does a done record. */
  lemma RoundKeepsFinished(m: Builds, round: Round, dryRun: bool, k: string)
    requires k in m
    ensures var r := RunnerStep(m, round, dryRun)[k];
      (m[k].travis.finished ==> r.travis.finished) && (m[k].local.finished ==> r.local.finished)
      && Identity(r) == Identity(m[k]) && (Done(m[k]) ==> Done(r))
  {
    RunnerStepAt(m, round, dryRun, k);
  }

  /** The only record whose local build the local half of a round changes is the first pending one in slug order. */
  lemma LocalStepChoice(p: Builds, round: Round, dryRun: bool, k: string)
    requires k in p
    ensures var keys := SlugOrder(p.Keys);
      LocalStep(p, round, dryRun)[k].local != p[k].local ==>
        FirstPending(keys, p, 0).Some? && keys[FirstPending(keys, p, 0).value] == k
  {
    var keys := SlugOrder(p.Keys);
    var n := LocalStep(p, round, dryRun);
    match FirstPending(keys, p, 0)
    case None =>
      assert n == p;
    case Some(i) =>
      assert n == p[keys[i] := WithLocalBuild(p[keys[i]], Reported(round, keys[i], dryRun))];
  }

  /** A round runs at most one local build: at most one record's local build changes. */
  lemma AtMostOneLocalBuild(m: Builds, round: Round, dryRun: bool, j: string, k: string)
    requires j in m && k in m
    requires RunnerStep(m, round, dryRun)[j].local != m[j].local
    requires RunnerStep(m, round, dryRun)[k].local != m[k].local
    ensures j == k
  {
    var p := PollAll(m, round.fetch, dryRun);
    assert p[j].local == m[j].local && p[k].local == m[k].local;
    LocalStepChoice(p, round, dryRun, j);
    LocalStepChoice(p, round, dryRun, k);
  }

  /** The local half of a round builds the first pending record in slug order. */
  lemma LocalStepGoesToFirst(p: Builds, round: Round, dryRun: bool, k: string, other: string)
    requires k in p && other in p
    requires LocalStep(p, round, dryRun)[k].local != p[k].local
    requires PendingLocal(p[other])
    ensures PendingLocal(p[k]) && LessEq(k, other)
  {
    LocalStepChoice(p, round, dryRun, k);
    var keys := SlugOrder(p.Keys);
    var i := FirstPending(keys, p, 0).value;
    var o := SlugOrderIndex(p.Keys, other);
    assert PendingAt(keys, p, o);
    if o > i {
      SlugOrderLess(p.Keys, i, o);
    } else {
      LessEqReflexive(k);
    }
  }

  /** The local build a round runs is for the first pending record in slug order. */
  lemma LocalBuildGoesToFirst(m: Builds, round: Round, dryRun: bool, k: string, other: string)
    requires k in m && other in m
    requires RunnerStep(m, round, dryRun)[k].local != m[k].local
    requires PendingLocal(m[other])
    ensures PendingLocal(m[k]) && LessEq(k, other)
  {
    var p := PollAll(m, round.fetch, dryRun);
    assert p[k].local == m[k].local && p[other].local == m[other].local;
    assert p[k].runLocal == m[k].runLocal && p[other].runLocal == m[other].runLocal;
    LocalStepGoesToFirst(p, round, dryRun, k, other);
  }

  // ----- dry runs finish -----

  function PendingSet(m: Builds): set<string> {
    set k | k in m && PendingLocal(m[k])
  }

  lemma NoWorkLeft(m: Builds)
    requires forall k | k in m :: m[k].travis.finished
    requires PendingSet(m) == {}
    ensures !HaveWork(m)
  {
    forall k | k in m ensures Done(m[k]) {
      assert k !in PendingSet(m);
    }
  }

  /** The local half of a round takes one record off the pending set, if it is not empty. */
  lemma LocalStepShrinksPending(p: Builds, round: Round, dryRun: bool)
    ensures var n := LocalStep(p, round, dryRun);
      PendingSet(n) <= PendingSet(p) && (PendingSet(p) != {} ==> |PendingSet(n)| < |PendingSet(p)|)
  {
    var keys := SlugOrder(p.Keys);
    var n := LocalStep(p, round, dryRun);
    match FirstPending(keys, p, 0)
    case None =>
      if PendingSet(p) != {} {
        var x :| x in PendingSet(p);
        SlugOrderCovers(p.Keys);
        var o :| 0 <= o < |keys| && keys[o] == x;
        assert PendingAt(keys, p, o);
        assert false;
      }
    case Some(i) =>
      var k := keys[i];
      assert n == p[k := WithLocalBuild(p[k], Reported(round, k, dryRun))];
      assert PendingSet(n) == PendingSet(p) - {k};
      assert k in PendingSet(p);
  }

  /** A dry-run poll finishes every Travis build and leaves the local builds alone. */
  lemma DryRunPoll(m: Builds, fetch: int -> TravisBuild)
    ensures var p := PollAll(m, fetch, true);
      (forall k | k in p :: p[k].travis.finished) && PendingSet(p) == PendingSet(m)
  {
    var p := PollAll(m, fetch, true);
    forall k | k in p ensures p[k].travis.finished && (PendingLocal(p[k]) <==> PendingLocal(m[k])) {
      assert p[k] == DryRun(m[k]);
    }
  }

  /**
   * A dry-run round finishes every Travis build and runs one pending local
   * build, if any is left.
   */
  lemma DryRunRound(m: Builds, round: Round)
    ensures var n := RunnerStep(m, round, true);
      (forall k | k in n :: n[k].travis.finished)
      && PendingSet(n) <= PendingSet(m)
      && (PendingSet(m) != {} ==> |PendingSet(n)| < |PendingSet(m)|)
  {
    var p := PollAll(m, round.fetch, true);
    var n := RunnerStep(m, round, true);
    DryRunPoll(m, round.fetch);
    LocalStepShrinksPending(p, round, true);
    forall k | k in n ensures n[k].travis.finished {
      LocalStepAt(p, round, true, k);
    }
  }

  /** A dry run stops after at most one round more than there are pending local builds. */
  lemma {:induction false} DryRunFinishes(m: Builds, rounds: seq<Round>)
    requires |rounds| > |PendingSet(m)|
    ensures !HaveWork(RunLoop(m, rounds, true).0)
    ensures RunLoop(m, rounds, true).1 <= |PendingSet(m)| + 1
    decreases |rounds|
  {
    if HaveWork(m) {
      var n := RunnerStep(m, rounds[0], true);
      assert RoundStep(true)(m, rounds[0]) == n;
      DryRunRound(m, rounds[0]);
      if PendingSet(m) == {} {
        NoWorkLeft(n);
        assert Iterate(n, rounds[1..], RoundStep(true)) == (n, 0);
      } else {
        DryRunFinishes(n, rounds[1..]);
      }
    }
  }

  // ----- outside a dry run, some records are never done -----

  /**
   * Outside a dry run a record whose Travis build has not finished, and that
   * either does not want Travis or has no build id, is never polled, so it is
   * never done and the loop uses up every round it is given.
   */
  lemma {:induction false} UnpolledNeverDone(m: Builds, rounds: seq<Round>, k: string)
    requires k in m && !m[k].travis.finished
    requires !m[k].runTravis || m[k].travisBuildId.None?
    ensures var r := RunLoop(m, rounds, false);
      k in r.0 && !r.0[k].travis.finished && HaveWork(r.0) && r.1 == |rounds|
    decreases |rounds|
  {
    assert !Done(m[k]);
    if rounds != [] {
      var n := RunnerStep(m, rounds[0], false);
      assert RoundStep(false)(m, rounds[0]) == n;
      RunnerStepAt(m, rounds[0], false, k);
      assert PollOne(m[k], rounds[0].fetch, false) == m[k];
      UnpolledNeverDone(n, rounds[1..], k);
    }
  }
}
