/**
 * The `HelmCmd` descriptor as the object the Go code updates in place: the
 * mode selector and every option change its fields, `NewHelmCmd` applies them
 * in order and validates, and `Run` drives the runner through the
 * pre-commands, the main call, the optional test and rollback, and the
 * post-commands. Each method is proved against the specification in
 * HelmDescriptor and HelmExecution.
 */
module Helm {
  import opened Wrappers
  import opened KeyValueFormat
  import opened HelmDescriptor
  import opened HelmExecution

  /** Go's `contains`: whether some element of `arr` equals `str`. */
  method Contains(arr: seq<string>, str: string) returns (found: bool)
    ensures found <==> exists i :: 0 <= i < |arr| && arr[i] == str
  {
    var i := 0;
    while i < |arr|
      invariant 0 <= i <= |arr|
      invariant forall j :: 0 <= j < i ==> arr[j] != str
    {
      if arr[i] == str {
        return true;
      }
      i := i + 1;
    }
    return false;
  }

  class HelmCmd {
    var release: string
    var chart: string
    var args: seq<string>
    var preCmds: seq<Argv>
    var postCmds: seq<Argv>
    var runner: Option<Runner>
    var test: bool
    var testRollback: bool

    /** The descriptor's fields as a value. */
    function State(): Descriptor
      reads this
    {
      Descriptor(release, chart, args, preCmds, postCmds, runner, test, testRollback)
    }

    /** The descriptor `NewHelmCmd` allocates: empty strings and lists, no runner, both switches off. */
    constructor ()
      ensures State() == Empty
    {
      release, chart := "", "";
      args, preCmds, postCmds := [], [], [];
      runner := None;
      test, testRollback := false, false;
    }

    /** A mode selector: puts its keywords in front of the arguments and changes nothing else. */
    method ApplyMode(mode: Mode)
      modifies this
      ensures State() == old(State()).(args := ModeArgs(mode) + old(args))
    {
      match mode
      case InstallUpgradeMode => args := ["upgrade", "--install"] + args;
      case RollbackMode => args := ["rollback"] + args;
    }

    /** `WithHelmRepos(repos)` applied to this descriptor's pre-commands. */
    method AppendRepos(repos: seq<string>) returns (err: Option<string>)
      modifies this`preCmds
      ensures Appended(preCmds, err) == ReposStep(old(preCmds), repos)
    {
      preCmds, err := RepoCommands(preCmds, repos);
    }

    /** `WithValues(values)` (flag `--set`) or `WithValuesString(values)` (flag `--set-string`) applied to the arguments. */
    method AppendValues(flag: string, values: seq<string>) returns (err: Option<string>)
      modifies this`args
      ensures Appended(args, err) == ValuesStep(old(args), flag, values)
    {
      args, err := SetPairs(args, flag, values);
    }

    /** Applies one option to this descriptor, returning the error it reports, if any. */
    method Apply(o: HelmOption) returns (err: Option<string>)
      modifies this
      ensures Step(State(), err) == ApplyOption(old(State()), o)
    {
      err := None;
      match o
      case WithHelmRepos(repos) => err := AppendRepos(repos);
      case WithValues(values) => err := AppendValues("--set", values);
      case WithValuesString(values) => err := AppendValues("--set-string", values);
      case WithRelease(_) => SetField(o);
      case WithChart(_) => SetField(o);
      case WithTest(_, _) => SetField(o);
      case WithTestRollback(_, _) => SetField(o);
      case WithRunner(_) => SetField(o);
      case WithLint(_) => AddCommand(o);
      case WithBuildDependencies(_, _) => AddCommand(o);
      case WithUpdateDependencies(_, _) => AddCommand(o);
      case WithPreCommand(_) => AddCommand(o);
      case WithPostCommand(_) => AddCommand(o);
      case WithNamespace(_) => AddArguments(o);
      case WithAtomic(_) => AddArguments(o);
      case WithWait(_) => AddArguments(o);
      case WithForce(_) => AddArguments(o);
      case WithCleanupOnFail(_) => AddArguments(o);
      case WithDryRun(_) => AddArguments(o);
      case WithTimeout(_) => AddArguments(o);
      case WithValuesYaml(_) => AddArguments(o);
      case WithKubeConfig(_) => AddArguments(o);
    }

    /** The options that set an identity field, a switch or the runner. */
    method SetField(o: HelmOption)
      requires o.WithRelease? || o.WithChart? || o.WithTest? || o.WithTestRollback? || o.WithRunner?
      modifies this`release, this`chart, this`test, this`testRollback, this`runner
      ensures Step(State(), None) == ApplyOption(old(State()), o)
    {
      match o
      case WithRelease(r) => release := r;
      case WithChart(c) => chart := c;
      case WithTest(t, _) => test := t;
      case WithTestRollback(t, _) => testRollback := t;
      case WithRunner(r) => runner := r;
    }

    /** The options that add a pre- or post-command. */
    method AddCommand(o: HelmOption)
      requires o.WithLint? || o.WithBuildDependencies? || o.WithUpdateDependencies? || o.WithPreCommand? || o.WithPostCommand?
      modifies this`preCmds, this`postCmds
      ensures Step(State(), None) == ApplyOption(old(State()), o)
    {
      match o
      case WithLint(lint) =>
        if lint { preCmds := preCmds + [["helm", "lint", chart]]; }
      case WithBuildDependencies(build, c) =>
        if build { preCmds := preCmds + [["helm", "dependency", "build", c]]; }
      case WithUpdateDependencies(update, c) =>
        if update { preCmds := preCmds + [["helm", "dependency", "update", c]]; }
      case WithPreCommand(command) => preCmds := preCmds + [command];
      case WithPostCommand(command) => postCmds := postCmds + [command];
    }

    /** The options that append flags to the main command's arguments. */
    method AddArguments(o: HelmOption)
      requires IsFlagOption(o)
      modifies this`args
      ensures Step(State(), None) == ApplyOption(old(State()), o)
    {
      match o
      case WithNamespace(namespace) => args := args + ["-n", namespace];
      case WithAtomic(atomic) =>
        if atomic { args := args + ["--atomic"]; }
      case WithWait(wait) =>
        if wait { args := args + ["--wait"]; }
      case WithForce(force) =>
        if force { args := args + ["--force"]; }
      case WithCleanupOnFail(cleanup) =>
        if cleanup { args := args + ["--cleanup-on-fail"]; }
      case WithDryRun(dry) =>
        if dry { args := args + ["--dry-run"]; }
      case WithTimeout(timeout) => args := args + ["--timeout", timeout];
      case WithValuesYaml(file) =>
        if file != "" { args := args + ["--values", file]; }
      case WithKubeConfig(config) =>
        if config != "" { args := args + ["--kubeconfig", config]; }
    }

    /**
     * The option loop of `NewHelmCmd`: applies the options in order and
     * stops at the first one that reports an error, as ApplyAll specifies.
     */
    method ApplyAllOptions(options: seq<HelmOption>) returns (err: Option<string>)
      modifies this
      ensures err.None? ==> ApplyAll(old(State()), options) == Success(State())
      ensures err.Some? ==> ApplyAll(old(State()), options) == Failure(err.value)
    {
      var i := 0;
      while i < |options|
        invariant 0 <= i <= |options|
        invariant ApplyAll(old(State()), options) == ApplyAll(State(), options[i..])
      {
        ghost var before := State();
        err := Apply(options[i]);
        ApplyAllCons(before, options[i], options[i + 1..]);
        assert options[i..] == [options[i]] + options[i + 1..];
        if err.Some? {
          return err;
        }
        i := i + 1;
      }
      return None;
    }

    /**
     * Runs the descriptor: the calls made on the runner, in order, and the
     * error returned (None for nil), exactly as Exec specifies. The three
     * stages after the pre-commands are split into RunRelease and
     * RunPostCommands.
     */
    method Run() returns (calls: seq<Call>, err: Option<RunError>)
      requires Runnable(State())
      ensures Execution(calls, err) == Exec(State())
    {
      var ok;
      calls, ok := RunCommands(preCmds, runner.value, 0);
      if !ok {
        PreCommandFailureStops(State(), |calls| - 1);
        return calls, Some(PreFailed);
      }
      calls, err := RunRelease(calls);
    }

    /** `Run` after its pre-commands all succeeded: the main call, then the test and its rollback. */
    method RunRelease(pre: seq<Call>) returns (calls: seq<Call>, err: Option<RunError>)
      requires Runnable(State()) && pre == CallsOf(preCmds)
      requires forall j :: 0 <= j < |pre| ==> runner.value.Succeeds(j)
      ensures Execution(calls, err) == Exec(State())
    {
      var r := runner.value;
      var ok := r.Succeeds(|pre|);
      calls := pre + [Call("helm", args)];
      if !ok {
        MainFailureStops(State());
        return calls, Some(HelmFailed);
      }
      if test {
        ok := r.Succeeds(|calls|);
        calls := calls + [Call("helm", ["test", "--logs", release])];
        assert calls == Head(State());
        if !ok {
          TestFailureSkipsPostCommands(State());
          if testRollback {
            var rollbackOk := r.Succeeds(|calls|);
            calls := calls + [Call("helm", ["rollback", release])];
            if !rollbackOk {
              return calls, Some(RollbackFailed);
            }
          }
          return calls, Some(TestFailed);
        }
      }
      assert calls == Head(State());
      calls, err := RunPostCommands(calls);
    }

    /** `Run` after every call of Head succeeded: the post-commands. */
    method RunPostCommands(head: seq<Call>) returns (calls: seq<Call>, err: Option<RunError>)
      requires Runnable(State()) && head == Head(State())
      requires forall j :: 0 <= j < |head| ==> runner.value.Succeeds(j)
      ensures Execution(calls, err) == Exec(State())
    {
      var postCalls, ok := RunCommands(postCmds, runner.value, |head|);
      calls := head + postCalls;
      if !ok {
        PostCommandFailureStops(State(), |postCalls| - 1);
        return calls, Some(PostFailed);
      }
      RunSucceedsIff(State());
      return calls, None;
    }
  }

  /**
   * The loop of `WithHelmRepos`: appends one `helm repo add <name> <url>` to
   * `cmds` per entry, in order, then one `helm repo update`; stops at the
   * first entry without `=` and returns it as the error.
   */
  method RepoCommands(cmds: seq<Argv>, repos: seq<string>) returns (result: seq<Argv>, err: Option<string>)
    ensures Appended(result, err) == ReposStep(cmds, repos)
  {
    result := cmds;
    if |repos| == 0 {
      ReposStepAt(cmds, repos, 0);
      return result, None;
    }
    var i := 0;
    while i < |repos|
      invariant 0 <= i <= |repos|
      invariant AllPairs(repos[..i])
      invariant result == cmds + RepoAddCmds(repos[..i])
    {
      var split := Split(repos[i]);
      if split.None? {
        ReposStepAt(cmds, repos, i);
        return result, Some(repos[i]);
      }
      var name, url := split.value.key, split.value.value;
      RepoAddCmdsSnoc(repos, i);
      result := result + [["helm", "repo", "add", name, url]];
      i := i + 1;
    }
    assert repos[..i] == repos;
    ReposStepAt(cmds, repos, i);
    result := result + [RepoUpdate];
    return result, None;
  }

  /**
   * The loop of `WithValues` and `WithValuesString`: appends `flag` and the
   * re-joined `key=value` to `args` per entry, in order; stops at the first
   * entry without `=` and returns it as the error.
   */
  method SetPairs(args: seq<string>, flag: string, values: seq<string>) returns (result: seq<string>, err: Option<string>)
    ensures Appended(result, err) == ValuesStep(args, flag, values)
  {
    result := args;
    var i := 0;
    while i < |values|
      invariant 0 <= i <= |values|
      invariant AllPairs(values[..i])
      invariant result == args + SetArgs(flag, values[..i])
    {
      var split := Split(values[i]);
      if split.None? {
        ValuesStepAt(args, flag, values, i);
        return result, Some(values[i]);
      }
      var key, value := split.value.key, split.value.value;
      SetArgsSnoc(flag, values, i);
      result := result + [flag, key + "=" + value];
      i := i + 1;
    }
    ValuesStepAt(args, flag, values, i);
    return result, None;
  }

  /**
   * One of `Run`'s two command loops: runs `cmds` in turn as calls numbered
   * from `first`, stopping after the first call that fails. `ok` says that
   * none failed; otherwise the last call made is the failing one.
   */
  method RunCommands(cmds: seq<Argv>, r: Runner, first: nat) returns (calls: seq<Call>, ok: bool)
    requires NonEmptyArgvs(cmds)
    ensures ok ==> calls == CallsOf(cmds) && forall j :: first <= j < first + |cmds| ==> r.Succeeds(j)
    ensures !ok ==> 0 < |calls| <= |cmds| && calls == CallsOf(cmds[..|calls|])
                    && !r.Succeeds(first + |calls| - 1)
                    && forall j :: first <= j < first + |calls| - 1 ==> r.Succeeds(j)
  {
    calls := [];
    var i := 0;
    while i < |cmds|
      invariant 0 <= i <= |cmds|
      invariant calls == CallsOf(cmds[..i])
      invariant forall j :: first <= j < first + i ==> r.Succeeds(j)
    {
      var cmd := cmds[i];
      var succeeded := r.Succeeds(first + i);
      calls := calls + [Call(cmd[0], cmd[1..])];
      CallsOfSnoc(cmds, i);
      if !succeeded {
        return calls, false;
      }
      i := i + 1;
    }
    assert cmds[..i] == cmds;
    return calls, true;
  }

  /**
   * `NewHelmCmd(mode, options...)`: a fresh descriptor with the mode applied,
   * then each option in order, stopping at the first that reports an error;
   * then the validation and the positional arguments. On any error no
   * descriptor is returned.
   */
  method NewHelmCmd(mode: Mode, options: seq<HelmOption>) returns (h: HelmCmd?, err: Option<BuildError>)
    ensures h == null <==> err.Some?
    ensures h == null ==> Build(mode, options) == Failure(err.value)
    ensures h != null ==> fresh(h) && Build(mode, options) == Success(h.State())
  {
    var c := new HelmCmd();
    c.ApplyMode(mode);
    assert c.State() == Start(mode);
    var e := c.ApplyAllOptions(options);
    if e.Some? {
      return null, Some(OptionError(e.value));
    }
    var upgrade := Contains(c.args, "upgrade");
    if c.release == "" {
      return null, Some(MissingRelease);
    }
    if c.chart == "" && upgrade {
      return null, Some(MissingChart);
    }
    if c.runner.None? {
      return null, Some(MissingRunner);
    }
    if !upgrade {
      c.args := c.args + [c.release];
      return c, None;
    }
    c.args := c.args + [c.release, c.chart];
    return c, None;
  }
}
