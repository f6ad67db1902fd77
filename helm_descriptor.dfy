/**
 * The command descriptor `HelmCmd` as a value, the options that configure it,
 * and what `NewHelmCmd` builds from a mode and a list of options.
 *
 * The functions here are the specification that the in-place methods of the
 * class `Helm.HelmCmd` are proved against; the lemmas state what the builder
 * promises about them.
 */
module HelmDescriptor {
  import opened Wrappers
  import opened KeyValueFormat

  /** One command line: the executable followed by its arguments. */
  type Argv = seq<string>

  /**
   * The injected runner, as far as the core can observe it: whether each call
   * it is asked to make reports an error. Calls are numbered from 0 in the
   * order they are made; `fails` holds the numbers of the calls that fail.
   */
  datatype Runner = Runner(fails: set<nat>) {
    predicate Succeeds(call: nat)
    {
      call !in fails
    }
  }

  /** The two mode selectors `WithInstallUpgradeMode` and `WithRollbackMode`. */
  datatype Mode = InstallUpgradeMode | RollbackMode

  /** The keywords a mode selector puts in front of the arguments. */
  function ModeArgs(mode: Mode): (r: seq<string>)
    ensures "upgrade" in r <==> mode == InstallUpgradeMode
  {
    match mode
    case InstallUpgradeMode => ["upgrade", "--install"]
    case RollbackMode => ["rollback"]
  }

  /**
   * The options `NewHelmCmd` accepts, one case per `With*` constructor. A
   * timeout is carried as the string Go's `Duration.String()` gives for it.
   */
  datatype HelmOption =
    | WithRelease(release: string)
    | WithChart(chart: string)
    | WithNamespace(namespace: string)
    | WithLint(lint: bool)
    | WithAtomic(atomic: bool)
    | WithWait(wait: bool)
    | WithForce(force: bool)
    | WithCleanupOnFail(cleanup: bool)
    | WithDryRun(dry: bool)
    | WithTimeout(timeout: string)
    | WithHelmRepos(repos: seq<string>)
    | WithBuildDependencies(build: bool, buildChart: string)
    | WithUpdateDependencies(update: bool, updateChart: string)
    | WithTest(test: bool, testRelease: string)
    | WithTestRollback(testRollback: bool, rollbackRelease: string)
    | WithValues(values: seq<string>)
    | WithValuesString(stringValues: seq<string>)
    | WithValuesYaml(file: string)
    | WithPreCommand(preCommand: Argv)
    | WithPostCommand(postCommand: Argv)
    | WithKubeConfig(config: string)
    | WithRunner(runner: Option<Runner>)

  /** The fields of a `HelmCmd`; a runner of None is Go's nil runner. */
  datatype Descriptor = Descriptor(
    release: string,
    chart: string,
    args: seq<string>,
    preCmds: seq<Argv>,
    postCmds: seq<Argv>,
    runner: Option<Runner>,
    test: bool,
    testRollback: bool)

  /** The descriptor `NewHelmCmd` allocates before applying anything. */
  const Empty := Descriptor("", "", [], [], [], None, false, false)

  /** The descriptor once the mode selector has been applied to Empty. */
  function Start(mode: Mode): (r: Descriptor)
    ensures r.args == ModeArgs(mode) && r.(args := []) == Empty
  {
    Empty.(args := ModeArgs(mode) + Empty.args)
  }

  /** What applying one option leaves: the descriptor and the error it returned, if any. */
  datatype Step = Step(next: Descriptor, err: Option<string>)

  /** What a parsing option leaves of the list it appends to, and the error it returned, if any. */
  datatype Appended<T> = Appended(list: seq<T>, err: Option<string>)

  /** The errors `NewHelmCmd` reports instead of a descriptor. */
  datatype BuildError =
    | OptionError(entry: string)
    | MissingRelease
    | MissingChart
    | MissingRunner

  const RepoUpdate: Argv := ["helm", "repo", "update"]

  /** `cmd` is `helm repo add <name> <url>` for the entry `<name>=<url>`, split at its first `=`. */
  predicate IsRepoAdd(cmd: Argv, entry: string)
  {
    |cmd| == 5 && cmd[..3] == ["helm", "repo", "add"] && '=' !in cmd[3] && cmd[3] + "=" + cmd[4] == entry
  }

  /** The `helm repo add` pre-commands for a list of well-formed repository entries. */
  function RepoAddCmds(repos: seq<string>): (r: seq<Argv>)
    requires AllPairs(repos)
    ensures |r| == |repos|
  {
    if repos == [] then []
    else
      var p := Split(repos[|repos| - 1]).value;
      RepoAddCmds(repos[..|repos| - 1]) + [["helm", "repo", "add", p.key, p.value]]
  }

  /** The `i`-th command is the `repo add` of the `i`-th entry. */
  lemma {:induction false} RepoAddCmdsShape(repos: seq<string>)
    requires AllPairs(repos)
    ensures forall i :: 0 <= i < |repos| ==> IsRepoAdd(RepoAddCmds(repos)[i], repos[i])
  {
    if repos != [] {
      var n := |repos| - 1;
      assert AllPairs(repos[..n]) by {
        assert forall i :: 0 <= i < n ==> repos[..n][i] == repos[i];
      }
      RepoAddCmdsShape(repos[..n]);
      var r := RepoAddCmds(repos);
      forall i | 0 <= i < |repos|
        ensures IsRepoAdd(r[i], repos[i])
      {
        if i < n {
          assert r[i] == RepoAddCmds(repos[..n])[i] && repos[..n][i] == repos[i];
        } else {
          var p := Split(repos[n]).value;
          assert r[i] == ["helm", "repo", "add", p.key, p.value];
        }
      }
    }
  }

  /** Extending the entries by one extends the commands by that entry's `repo add`. */
  lemma RepoAddCmdsSnoc(repos: seq<string>, i: nat)
    requires i < |repos| && AllPairs(repos[..i]) && '=' in repos[i]
    ensures AllPairs(repos[..i + 1])
    ensures var p := Split(repos[i]).value;
            RepoAddCmds(repos[..i + 1]) == RepoAddCmds(repos[..i]) + [["helm", "repo", "add", p.key, p.value]]
  {
    assert repos[..i + 1][..i] == repos[..i];
    assert repos[..i + 1][i] == repos[i];
  }

  /** The `<flag> key=value` arguments for a list of well-formed entries. */
  function SetArgs(flag: string, values: seq<string>): (r: seq<string>)
    requires AllPairs(values)
    ensures |r| == 2 * |values|
  {
    if values == [] then []
    else
      var n := |values| - 1;
      SetArgs(flag, values[..n]) + [flag, Join(Split(values[n]).value)]
  }

  /** Each entry becomes the flag followed by the entry itself, in order. */
  lemma {:induction false} SetArgsShape(flag: string, values: seq<string>)
    requires AllPairs(values)
    ensures forall i :: 0 <= i < |values| ==>
              SetArgs(flag, values)[2 * i] == flag && SetArgs(flag, values)[2 * i + 1] == values[i]
  {
    if values != [] {
      var n := |values| - 1;
      assert AllPairs(values[..n]) by {
        assert forall i :: 0 <= i < n ==> values[..n][i] == values[i];
      }
      SetArgsShape(flag, values[..n]);
      var r', r := SetArgs(flag, values[..n]), SetArgs(flag, values);
      forall i | 0 <= i < |values|
        ensures r[2 * i] == flag && r[2 * i + 1] == values[i]
      {
        if i < n {
          assert r[2 * i] == r'[2 * i] && r[2 * i + 1] == r'[2 * i + 1] && values[..n][i] == values[i];
        }
      }
    }
  }

  /** Extending the entries by one extends the arguments by that entry's `<flag> key=value`. */
  lemma SetArgsSnoc(flag: string, values: seq<string>, i: nat)
    requires i < |values| && AllPairs(values[..i]) && '=' in values[i]
    ensures AllPairs(values[..i + 1])
    ensures SetArgs(flag, values[..i + 1]) == SetArgs(flag, values[..i]) + [flag, Join(Split(values[i]).value)]
  {
    assert values[..i + 1][..i] == values[..i];
    assert values[..i + 1][i] == values[i];
  }

  /**
   * `WithHelmRepos`: one `helm repo add` per entry, in order, then one
   * `helm repo update`; nothing at all for an empty list; at the first entry
   * without `=` the option stops with that entry as its error, keeping the
   * commands already added and adding no update.
   */
  function ReposStep(preCmds: seq<Argv>, repos: seq<string>): (r: Appended<Argv>)
    ensures preCmds <= r.list
    ensures r.err.Some? ==> '=' !in r.err.value
  {
    var k := FirstMalformed(repos);
    var added := RepoAddCmds(repos[..k]);
    if k < |repos| then Appended(preCmds + added, Some(repos[k]))
    else if repos == [] then Appended(preCmds, None)
    else Appended(preCmds + added + [RepoUpdate], None)
  }

  /**
   * `WithValues` (flag `--set`) and `WithValuesString` (flag `--set-string`):
   * one `<flag> key=value` pair per entry, stopping at the first entry without
   * `=` with that entry as the error and the earlier pairs kept.
   */
  function ValuesStep(args: seq<string>, flag: string, values: seq<string>): (r: Appended<string>)
    ensures args <= r.list
    ensures r.err.Some? ==> '=' !in r.err.value
  {
    var k := FirstMalformed(values);
    Appended(args + SetArgs(flag, values[..k]), if k < |values| then Some(values[k]) else None)
  }

  /** ReposStep once the first malformed entry is known to be the `k`-th. */
  lemma ReposStepAt(preCmds: seq<Argv>, repos: seq<string>, k: nat)
    requires k <= |repos| && AllPairs(repos[..k]) && (k < |repos| ==> '=' !in repos[k])
    ensures k < |repos| ==> ReposStep(preCmds, repos) == Appended(preCmds + RepoAddCmds(repos[..k]), Some(repos[k]))
    ensures repos == [] ==> ReposStep(preCmds, repos) == Appended(preCmds, None)
    ensures 0 < k == |repos| ==>
              ReposStep(preCmds, repos) == Appended(preCmds + RepoAddCmds(repos) + [RepoUpdate], None)
  {
    FirstMalformedAt(repos, k);
    if k == |repos| {
      assert repos[..k] == repos;
    }
  }

  /** ValuesStep once the first malformed entry is known to be the `k`-th. */
  lemma ValuesStepAt(args: seq<string>, flag: string, values: seq<string>, k: nat)
    requires k <= |values| && AllPairs(values[..k]) && (k < |values| ==> '=' !in values[k])
    ensures ValuesStep(args, flag, values) ==
              Appended(args + SetArgs(flag, values[..k]), if k < |values| then Some(values[k]) else None)
  {
    FirstMalformedAt(values, k);
  }

  /** The result of applying one option to a descriptor. */
  function ApplyOption(d: Descriptor, o: HelmOption): (r: Step)
    ensures r.err.Some? ==> o.WithHelmRepos? || o.WithValues? || o.WithValuesString?
  {
    match o
    case WithRelease(release) => Step(d.(release := release), None)
    case WithChart(chart) => Step(d.(chart := chart), None)
    case WithNamespace(namespace) => Step(d.(args := d.args + ["-n", namespace]), None)
    case WithLint(lint) =>
      Step(if lint then d.(preCmds := d.preCmds + [["helm", "lint", d.chart]]) else d, None)
    case WithAtomic(atomic) => Step(if atomic then d.(args := d.args + ["--atomic"]) else d, None)
    case WithWait(wait) => Step(if wait then d.(args := d.args + ["--wait"]) else d, None)
    case WithForce(force) => Step(if force then d.(args := d.args + ["--force"]) else d, None)
    case WithCleanupOnFail(cleanup) =>
      Step(if cleanup then d.(args := d.args + ["--cleanup-on-fail"]) else d, None)
    case WithDryRun(dry) => Step(if dry then d.(args := d.args + ["--dry-run"]) else d, None)
    case WithTimeout(timeout) => Step(d.(args := d.args + ["--timeout", timeout]), None)
    case WithHelmRepos(repos) =>
      var a := ReposStep(d.preCmds, repos);
      Step(d.(preCmds := a.list), a.err)
    case WithBuildDependencies(build, chart) =>
      Step(if build then d.(preCmds := d.preCmds + [["helm", "dependency", "build", chart]]) else d, None)
    case WithUpdateDependencies(update, chart) =>
      Step(if update then d.(preCmds := d.preCmds + [["helm", "dependency", "update", chart]]) else d, None)
    case WithTest(test, _) => Step(d.(test := test), None)
    case WithTestRollback(testRollback, _) => Step(d.(testRollback := testRollback), None)
    case WithValues(values) =>
      var a := ValuesStep(d.args, "--set", values);
      Step(d.(args := a.list), a.err)
    case WithValuesString(values) =>
      var a := ValuesStep(d.args, "--set-string", values);
      Step(d.(args := a.list), a.err)
    case WithValuesYaml(file) => Step(if file != "" then d.(args := d.args + ["--values", file]) else d, None)
    case WithPreCommand(command) => Step(d.(preCmds := d.preCmds + [command]), None)
    case WithPostCommand(command) => Step(d.(postCmds := d.postCmds + [command]), None)
    case WithKubeConfig(config) =>
      Step(if config != "" then d.(args := d.args + ["--kubeconfig", config]) else d, None)
    case WithRunner(runner) => Step(d.(runner := runner), None)
  }

  /** The options that append at most one flag, with its value, to the main command's arguments. */
  predicate IsFlagOption(o: HelmOption)
  {
    || o.WithNamespace? || o.WithAtomic? || o.WithWait? || o.WithForce? || o.WithCleanupOnFail?
    || o.WithDryRun? || o.WithTimeout? || o.WithValuesYaml?
    || o.WithKubeConfig?
  }

  /**
   * What one option may do to a descriptor: only append to the argument and
   * command lists; change each identity field and switch only through its
   * own setter; fail only in the three `key=value` parsers, and then with an
   * entry that has no `=`.
   */
  predicate OptionFrame(d: Descriptor, o: HelmOption, r: Step)
  {
    && d.args <= r.next.args && d.preCmds <= r.next.preCmds && d.postCmds <= r.next.postCmds
    && (r.next.release != d.release ==> o.WithRelease?)
    && (r.next.chart != d.chart ==> o.WithChart?)
    && (r.next.runner != d.runner ==> o.WithRunner?)
    && (r.next.test != d.test ==> o.WithTest?)
    && (r.next.testRollback != d.testRollback ==> o.WithTestRollback?)
    && (r.err.Some? ==> (o.WithHelmRepos? || o.WithValues? || o.WithValuesString?) && '=' !in r.err.value)
  }

  /** Every option keeps to OptionFrame. */
  lemma ApplyOptionFrame(d: Descriptor, o: HelmOption)
    ensures OptionFrame(d, o, ApplyOption(d, o))
  {
    if IsFlagOption(o) {
      FlagOptionFrame(d, o);
    } else {
      OtherOptionFrame(d, o);
    }
  }

  lemma FlagOptionFrame(d: Descriptor, o: HelmOption)
    requires IsFlagOption(o)
    ensures OptionFrame(d, o, ApplyOption(d, o))
  {
    match o
    case WithNamespace(_) =>
    case WithAtomic(_) =>
    case WithWait(_) =>
    case WithForce(_) =>
    case WithCleanupOnFail(_) =>
    case WithDryRun(_) =>
    case WithTimeout(_) =>
    case WithValuesYaml(_) =>
    case WithKubeConfig(_) =>
  }

  lemma OtherOptionFrame(d: Descriptor, o: HelmOption)
    requires !IsFlagOption(o)
    ensures OptionFrame(d, o, ApplyOption(d, o))
  {
    match o
    case WithRelease(_) =>
    case WithChart(_) =>
    case WithValues(_) =>
    case WithValuesString(_) =>
    case WithLint(_) =>
    case WithHelmRepos(_) =>
    case WithBuildDependencies(_, _) =>
    case WithUpdateDependencies(_, _) =>
    case WithTest(_, _) =>
    case WithTestRollback(_, _) =>
    case WithPreCommand(_) =>
    case WithPostCommand(_) =>
    case WithRunner(_) =>
  }

  /**
   * The options applied in the caller's order; the first one that returns an
   * error ends the fold with that error and no later option is applied.
   */
  function ApplyAll(d: Descriptor, options: seq<HelmOption>): (r: Result<Descriptor, string>)
    ensures r.Success? ==> d.args <= r.value.args && d.preCmds <= r.value.preCmds && d.postCmds <= r.value.postCmds
    ensures r.Failure? ==> '=' !in r.error
    decreases |options|
  {
    if options == [] then Success(d)
    else
      var s := ApplyOption(d, options[0]);
      ApplyOptionFrame(d, options[0]);
      if s.err.Some? then Failure(s.err.value) else ApplyAll(s.next, options[1..])
  }

  /** The validation at the end of `NewHelmCmd`, then the positional arguments. */
  function Finalize(d: Descriptor): (r: Result<Descriptor, BuildError>)
    ensures r.Failure? ==> !r.error.OptionError?
    ensures r.Success? ==> && r.value.release != "" && r.value.runner.Some?
                           && r.value.(args := d.args) == d && d.args < r.value.args
  {
    var upgrade := "upgrade" in d.args;
    if d.release == "" then Failure(MissingRelease)
    else if d.chart == "" && upgrade then Failure(MissingChart)
    else if d.runner.None? then Failure(MissingRunner)
    else if !upgrade then Success(d.(args := d.args + [d.release]))
    else Success(d.(args := d.args + [d.release, d.chart]))
  }

  /** What `NewHelmCmd(mode, options...)` returns: a descriptor or an error. */
  function Build(mode: Mode, options: seq<HelmOption>): (r: Result<Descriptor, BuildError>)
    ensures r.Failure? && r.error.OptionError? ==> '=' !in r.error.entry
    ensures r.Success? ==> r.value.release != "" && r.value.runner.Some?
  {
    match ApplyAll(Start(mode), options)
    case Failure(entry) => Failure(OptionError(entry))
    case Success(d) => Finalize(d)
  }

  // ---------------------------------------------------------------------------
  // Composition of options

  /** One step of the fold: the first option, then the rest unless it failed. */
  lemma ApplyAllCons(d: Descriptor, o: HelmOption, rest: seq<HelmOption>)
    ensures ApplyAll(d, [o] + rest) == if ApplyOption(d, o).err.Some? then Failure(ApplyOption(d, o).err.value)
                                       else ApplyAll(ApplyOption(d, o).next, rest)
  {
    assert ([o] + rest)[0] == o && ([o] + rest)[1..] == rest;
  }

  /** Applying `a + b` is applying `a`, then `b` to its result unless `a` failed. */
  lemma {:induction false} ApplyAllConcat(d: Descriptor, a: seq<HelmOption>, b: seq<HelmOption>)
    ensures ApplyAll(d, a + b) == match ApplyAll(d, a)
                                 case Failure(e) => Failure(e)
                                 case Success(d') => ApplyAll(d', b)
    decreases |a|
  {
    if a == [] {
      assert a + b == b;
    } else {
      assert (a + b)[0] == a[0];
      assert (a + b)[1..] == a[1..] + b;
      var s := ApplyOption(d, a[0]);
      if s.err.None? {
        ApplyAllConcat(s.next, a[1..], b);
      }
    }
  }

  /**
   * The first option that returns an error aborts construction with an
   * option error: whatever follows it is never applied.
   */
  lemma FirstOptionErrorAborts(mode: Mode, done: seq<HelmOption>, o: HelmOption, rest: seq<HelmOption>)
    requires ApplyAll(Start(mode), done).Success?
    requires ApplyOption(ApplyAll(Start(mode), done).value, o).err.Some?
    ensures Build(mode, done + [o] + rest)
            == Failure(OptionError(ApplyOption(ApplyAll(Start(mode), done).value, o).err.value))
  {
    ApplyAllConcat(Start(mode), done, [o] + rest);
    assert done + [o] + rest == done + ([o] + rest);
    assert ([o] + rest)[0] == o;
  }

  /** Options never set the runner unless they are `WithRunner` with a runner. */
  predicate SetsNoRunner(options: seq<HelmOption>)
  {
    forall i :: 0 <= i < |options| ==> !(options[i].WithRunner? && options[i].runner.Some?)
  }

  lemma {:induction false} RunnerStaysNil(d: Descriptor, options: seq<HelmOption>)
    requires d.runner.None? && SetsNoRunner(options)
    ensures ApplyAll(d, options).Success? ==> ApplyAll(d, options).value.runner.None?
    decreases |options|
  {
    if options != [] {
      var s := ApplyOption(d, options[0]);
      if s.err.None? {
        assert forall i :: 0 <= i < |options[1..]| ==> options[1..][i] == options[i + 1];
        RunnerStaysNil(s.next, options[1..]);
      }
    }
  }

  /** Without a runner option construction always fails, whatever else is given. */
  lemma RunnerIsRequired(mode: Mode, options: seq<HelmOption>)
    requires SetsNoRunner(options)
    ensures Build(mode, options).Failure?
  {
    RunnerStaysNil(Start(mode), options);
  }

  // ---------------------------------------------------------------------------
  // Validation and the positional arguments

  /**
   * Construction fails exactly when an option fails, the release is empty,
   * the chart is empty in upgrade mode, or no runner was given; the checks
   * run in that order, so the error names the first one that fails.
   */
  lemma BuildFailsIff(mode: Mode, options: seq<HelmOption>)
    ensures var a := ApplyAll(Start(mode), options);
            var b := Build(mode, options);
            && (a.Failure? ==> b == Failure(OptionError(a.error)))
            && (a.Success? ==>
                  var d := a.value;
                  && (b.Failure? <==> d.release == "" || (d.chart == "" && "upgrade" in d.args) || d.runner.None?)
                  && (b == Failure(MissingRelease) <==> d.release == "")
                  && (b == Failure(MissingChart) <==> d.release != "" && d.chart == "" && "upgrade" in d.args)
                  && (b == Failure(MissingRunner) <==>
                        d.release != "" && !(d.chart == "" && "upgrade" in d.args) && d.runner.None?))
  {
  }

  /**
   * A built descriptor has a release and a runner, starts with its mode's
   * keywords, and is the descriptor the options left with the positional
   * arguments appended once: release and chart (chart non-empty) when
   * "upgrade" was among the arguments, the release alone otherwise.
   */
  lemma BuiltDescriptor(mode: Mode, options: seq<HelmOption>)
    requires Build(mode, options).Success?
    ensures ApplyAll(Start(mode), options).Success?
    ensures var d := ApplyAll(Start(mode), options).value;
            var h := Build(mode, options).value;
            && h.release != "" && h.runner.Some?
            && ModeArgs(mode) <= h.args
            && h.(args := d.args) == d
            && h.args[..|d.args|] == d.args
            && ("upgrade" in d.args ==> h.chart != "" && h.args[|d.args|..] == [h.release, h.chart])
            && ("upgrade" !in d.args ==> h.args[|d.args|..] == [h.release])
  {
    var d := ApplyAll(Start(mode), options).value;
    var h := Build(mode, options).value;
    assert Start(mode).args == ModeArgs(mode);
    assert d.args <= h.args;
  }

  /** `NewHelmCmd(WithRollbackMode(), WithRelease(r), WithRunner(x))` succeeds without a chart. */
  lemma RollbackNeedsNoChart(release: string, runner: Runner)
    requires release != ""
    ensures Build(RollbackMode, [WithRelease(release), WithRunner(Some(runner))])
            == Success(Descriptor(release, "", ["rollback", release], [], [], Some(runner), false, false))
  {
    var d := Start(RollbackMode).(release := release);
    ApplyAllCons(d, WithRunner(Some(runner)), []);
    ApplyAllCons(Start(RollbackMode), WithRelease(release), [WithRunner(Some(runner))]);
    assert Start(RollbackMode).args == ["rollback"];
    assert "upgrade" !in ["rollback"];
    assert ["rollback"] + [release] == ["rollback", release];
  }

  /** The same options in install/upgrade mode fail for want of a chart. */
  lemma UpgradeNeedsChart(release: string, runner: Runner)
    requires release != ""
    ensures Build(InstallUpgradeMode, [WithRelease(release), WithRunner(Some(runner))]) == Failure(MissingChart)
  {
    var d := Start(InstallUpgradeMode).(release := release);
    ApplyAllCons(d, WithRunner(Some(runner)), []);
    ApplyAllCons(Start(InstallUpgradeMode), WithRelease(release), [WithRunner(Some(runner))]);
    assert "upgrade" in ["upgrade", "--install"];
  }

  /** With a chart, install/upgrade ends its arguments with the release and the chart. */
  lemma UpgradeAppendsReleaseAndChart(release: string, chart: string, runner: Runner)
    requires release != "" && chart != ""
    ensures Build(InstallUpgradeMode, [WithRelease(release), WithChart(chart), WithRunner(Some(runner))])
            == Success(Descriptor(release, chart, ["upgrade", "--install", release, chart], [], [],
                                  Some(runner), false, false))
  {
    var d1 := Start(InstallUpgradeMode).(release := release);
    var d2 := d1.(chart := chart);
    ApplyAllCons(d2, WithRunner(Some(runner)), []);
    ApplyAllCons(d1, WithChart(chart), [WithRunner(Some(runner))]);
    ApplyAllCons(Start(InstallUpgradeMode), WithRelease(release), [WithChart(chart), WithRunner(Some(runner))]);
    assert Start(InstallUpgradeMode).args == ["upgrade", "--install"];
    assert "upgrade" in ["upgrade", "--install"];
    assert ["upgrade", "--install"] + [release, chart] == ["upgrade", "--install", release, chart];
  }

  /**
   * Upgrade mode is detected from the whole argument list: a rollback whose
   * namespace happens to be "upgrade" is taken for an upgrade and then
   * refused for want of a chart.
   */
  lemma UpgradeTokenAnywhere(runner: Runner)
    ensures Build(RollbackMode, [WithRelease("web"), WithNamespace("upgrade"), WithRunner(Some(runner))])
            == Failure(MissingChart)
  {
    var d1 := Start(RollbackMode).(release := "web");
    var d2 := d1.(args := ["rollback", "-n", "upgrade"]);
    ApplyAllCons(d2, WithRunner(Some(runner)), []);
    ApplyAllCons(d1, WithNamespace("upgrade"), [WithRunner(Some(runner))]);
    ApplyAllCons(Start(RollbackMode), WithRelease("web"), [WithNamespace("upgrade"), WithRunner(Some(runner))]);
    assert d2.args[2] == "upgrade";
  }

  /**
   * Detection happens before the release is appended, so a rollback of a
   * release named "upgrade" is built with "upgrade" among its arguments and
   * an empty chart.
   */
  lemma ReleaseNamedUpgrade(runner: Runner)
    ensures Build(RollbackMode, [WithRelease("upgrade"), WithRunner(Some(runner))])
            == Success(Descriptor("upgrade", "", ["rollback", "upgrade"], [], [], Some(runner), false, false))
  {
    RollbackNeedsNoChart("upgrade", runner);
  }

  // ---------------------------------------------------------------------------
  // The individual options

  /** `WithHelmRepos` with well-formed entries: one add per entry in order, then one update; nothing for []. */
  lemma ReposWellFormed(preCmds: seq<Argv>, repos: seq<string>)
    requires AllPairs(repos)
    ensures var s := ReposStep(preCmds, repos);
            && s.err.None?
            && preCmds <= s.list
            && (repos == [] ==> s.list == preCmds)
            && (repos != [] ==>
                  var added := s.list[|preCmds|..];
                  && |added| == |repos| + 1
                  && added[|repos|] == RepoUpdate
                  && forall i :: 0 <= i < |repos| ==> IsRepoAdd(added[i], repos[i]))
  {
    FirstMalformedAt(repos, |repos|);
    assert repos[..|repos|] == repos;
    RepoAddCmdsShape(repos);
  }

  /** `WithHelmRepos` with a malformed entry reports the first one; no update is added. */
  lemma ReposMalformed(preCmds: seq<Argv>, repos: seq<string>, k: nat)
    requires k < |repos| && AllPairs(repos[..k]) && '=' !in repos[k]
    ensures var s := ReposStep(preCmds, repos);
            && s.err == Some(repos[k])
            && preCmds <= s.list
            && var added := s.list[|preCmds|..];
               |added| == k && forall i :: 0 <= i < k ==> IsRepoAdd(added[i], repos[i])
  {
    FirstMalformedAt(repos, k);
    var added := ReposStep(preCmds, repos).list[|preCmds|..];
    assert added == RepoAddCmds(repos[..k]);
    RepoAddCmdsShape(repos[..k]);
    assert forall i :: 0 <= i < k ==> repos[..k][i] == repos[i];
  }

  /**
   * `WithHelmRepos([a + "=" + u1, b + "=" + u2])` for names without `=`
   * adds exactly `repo add a u1`, `repo add b u2` and `repo update`, in that
   * order; the URLs may themselves contain `=`.
   */
  lemma ReposTwoEntries(preCmds: seq<Argv>, a: string, u1: string, b: string, u2: string)
    requires '=' !in a && '=' !in b
    ensures ReposStep(preCmds, [a + "=" + u1, b + "=" + u2])
            == Appended(preCmds + [["helm", "repo", "add", a, u1],
                                   ["helm", "repo", "add", b, u2],
                                   RepoUpdate], None)
  {
    var repos := [Join(Pair(a, u1)), Join(Pair(b, u2))];
    SplitJoin(Pair(a, u1));
    SplitJoin(Pair(b, u2));
    var addA: Argv := ["helm", "repo", "add", a, u1];
    var addB: Argv := ["helm", "repo", "add", b, u2];
    assert RepoAddCmds(repos[..1]) == [addA] by {
      assert repos[..0] == [];
      RepoAddCmdsSnoc(repos, 0);
    }
    assert RepoAddCmds(repos) == [addA, addB] by {
      RepoAddCmdsSnoc(repos, 1);
      assert repos[..2] == repos;
    }
    ReposStepAt(preCmds, repos, 2);
    assert preCmds + [addA, addB] + [RepoUpdate] == preCmds + [addA, addB, RepoUpdate];
  }

  /** `WithValues`/`WithValuesString` with well-formed entries: `<flag>, entry` per entry, in order. */
  lemma ValuesWellFormed(args: seq<string>, flag: string, values: seq<string>)
    requires AllPairs(values)
    ensures var s := ValuesStep(args, flag, values);
            && s.err.None?
            && args <= s.list
            && var added := s.list[|args|..];
               && |added| == 2 * |values|
               && forall i :: 0 <= i < |values| ==> added[2 * i] == flag && added[2 * i + 1] == values[i]
  {
    FirstMalformedAt(values, |values|);
    assert values[..|values|] == values;
    SetArgsShape(flag, values);
  }

  /** ... and with a malformed entry: that entry is the error and the earlier pairs stay appended. */
  lemma ValuesMalformed(args: seq<string>, flag: string, values: seq<string>, k: nat)
    requires k < |values| && AllPairs(values[..k]) && '=' !in values[k]
    ensures var s := ValuesStep(args, flag, values);
            && s.err == Some(values[k])
            && args <= s.list
            && var added := s.list[|args|..];
               && |added| == 2 * k
               && forall i :: 0 <= i < k ==> added[2 * i] == flag && added[2 * i + 1] == values[i]
  {
    FirstMalformedAt(values, k);
    SetArgsShape(flag, values[..k]);
    assert forall i :: 0 <= i < k ==> values[..k][i] == values[i];
  }

  /** An option whose switch is off, whose string is empty, or whose list is empty. */
  predicate Disabled(o: HelmOption)
  {
    match o
    case WithLint(lint) => !lint
    case WithAtomic(atomic) => !atomic
    case WithWait(wait) => !wait
    case WithForce(force) => !force
    case WithCleanupOnFail(cleanup) => !cleanup
    case WithDryRun(dry) => !dry
    case WithBuildDependencies(build, _) => !build
    case WithUpdateDependencies(update, _) => !update
    case WithValuesYaml(file) => file == ""
    case WithKubeConfig(config) => config == ""
    case WithHelmRepos(repos) => repos == []
    case WithValues(values) => values == []
    case WithValuesString(values) => values == []
    case _ => false
  }

  /** A disabled option leaves the descriptor as it is. */
  lemma DisabledIsNoOp(d: Descriptor, o: HelmOption)
    requires Disabled(o)
    ensures ApplyOption(d, o) == Step(d, None)
  {
    match o
    case WithHelmRepos(repos) => FirstMalformedAt(repos, 0);
    case WithValues(values) => FirstMalformedAt(values, 0);
    case WithValuesString(values) => FirstMalformedAt(values, 0);
    case _ =>
  }

  /** The options that only append to the argument or command lists and never fail. */
  predicate Appends(o: HelmOption)
  {
    o.WithNamespace? || o.WithLint? || o.WithAtomic? || o.WithWait? || o.WithForce? ||
    o.WithCleanupOnFail? || o.WithDryRun? || o.WithTimeout? || o.WithBuildDependencies? ||
    o.WithUpdateDependencies? || o.WithValuesYaml? || o.WithPreCommand? || o.WithPostCommand? ||
    o.WithKubeConfig?
  }

  /**
   * Applying `o` twice from `d` succeeds both times, and the second
   * application appends to each list exactly what the first one appended;
   * nothing else changes.
   */
  predicate AppendedTwice(d: Descriptor, o: HelmOption)
  {
    var once := ApplyOption(d, o);
    var twice := ApplyOption(once.next, o);
    && once.err.None? && twice.err.None?
    && |d.args| <= |once.next.args| && |d.preCmds| <= |once.next.preCmds| && |d.postCmds| <= |once.next.postCmds|
    && twice.next.args == once.next.args + once.next.args[|d.args|..]
    && twice.next.preCmds == once.next.preCmds + once.next.preCmds[|d.preCmds|..]
    && twice.next.postCmds == once.next.postCmds + once.next.postCmds[|d.postCmds|..]
    && twice.next == once.next.(args := twice.next.args, preCmds := twice.next.preCmds,
                                postCmds := twice.next.postCmds)
  }

  /** There is no deduplication: applying such an option twice appends its contribution twice. */
  lemma AppliedTwiceAppendsTwice(d: Descriptor, o: HelmOption)
    requires Appends(o)
    ensures AppendedTwice(d, o)
  {
    if o.WithAtomic? || o.WithWait? || o.WithForce? || o.WithCleanupOnFail? || o.WithDryRun? {
      SwitchAppliedTwice(d, o);
    } else if o.WithNamespace? || o.WithTimeout? || o.WithValuesYaml? || o.WithKubeConfig? {
      ValueFlagAppliedTwice(d, o);
    } else {
      CommandAppliedTwice(d, o);
    }
  }

  lemma SwitchAppliedTwice(d: Descriptor, o: HelmOption)
    requires o.WithAtomic? || o.WithWait? || o.WithForce? || o.WithCleanupOnFail? || o.WithDryRun?
    ensures AppendedTwice(d, o)
  {
    match o
    case WithAtomic(_) =>
    case WithWait(_) =>
    case WithForce(_) =>
    case WithCleanupOnFail(_) =>
    case WithDryRun(_) =>
  }

  lemma ValueFlagAppliedTwice(d: Descriptor, o: HelmOption)
    requires o.WithNamespace? || o.WithTimeout? || o.WithValuesYaml? || o.WithKubeConfig?
    ensures AppendedTwice(d, o)
  {
    match o
    case WithNamespace(_) =>
    case WithTimeout(_) =>
    case WithValuesYaml(_) =>
    case WithKubeConfig(_) =>
  }

  lemma CommandAppliedTwice(d: Descriptor, o: HelmOption)
    requires o.WithLint? || o.WithBuildDependencies? || o.WithUpdateDependencies? || o.WithPreCommand? || o.WithPostCommand?
    ensures AppendedTwice(d, o)
  {
    match o
    case WithLint(_) =>
    case WithBuildDependencies(_, _) =>
    case WithUpdateDependencies(_, _) =>
    case WithPreCommand(_) =>
    case WithPostCommand(_) =>
  }

  /** `WithLint` lints the chart set before it, not one set after it. */
  lemma LintUsesCurrentChart(d: Descriptor, chart: string)
    ensures ApplyAll(d, [WithLint(true), WithChart(chart)])
            == Success(d.(preCmds := d.preCmds + [["helm", "lint", d.chart]], chart := chart))
  {
    var d1 := d.(preCmds := d.preCmds + [["helm", "lint", d.chart]]);
    ApplyAllCons(d1, WithChart(chart), []);
    ApplyAllCons(d, WithLint(true), [WithChart(chart)]);
  }
}
