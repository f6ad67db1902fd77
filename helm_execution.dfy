/**
 * What `HelmCmd.Run` does with a built descriptor: the calls it makes on the
 * runner, in order, and the error it returns.
 *
 * The specification here is stated through the PLAN of a run, the calls a
 * run makes when nothing fails: the pre-commands, the main `helm` call, the
 * test call when testing is on, and the post-commands. A run makes the calls
 * of the plan up to and including the first one that fails; when that one is
 * the test and rollback-on-failure is on, it then makes one rollback call.
 * The loop-based method `Helm.HelmCmd.Run` is proved to behave exactly so.
 */
module HelmExecution {
  import opened Wrappers
  import opened HelmDescriptor

  /** One call on the runner: `Runner.Run(ctx, command, args...)`. */
  datatype Call = Call(command: string, args: seq<string>)

  /** The errors `Run` returns; None is Go's nil error. */
  datatype RunError =
    | PreFailed       // "precmd failed: ..."
    | HelmFailed      // "helm failed: ..."
    | TestFailed      // the test call's own error
    | RollbackFailed  // the rollback call's own error
    | PostFailed      // "postcmd failed: ..."

  /** The calls a run made, in order, and what it returned. */
  datatype Execution = Execution(calls: seq<Call>, err: Option<RunError>)

  /** Every command vector names an executable. */
  predicate NonEmptyArgvs(cmds: seq<Argv>)
  {
    forall i :: 0 <= i < |cmds| ==> |cmds[i]| > 0
  }

  /** What `Run` needs of a descriptor: a runner, and commands that name an executable. */
  predicate Runnable(d: Descriptor)
  {
    d.runner.Some? && NonEmptyArgvs(d.preCmds) && NonEmptyArgvs(d.postCmds)
  }

  /** The call a pre- or post-command makes: its first element, with the rest as arguments. */
  function ToCall(cmd: Argv): Call
    requires |cmd| > 0
  {
    Call(cmd[0], cmd[1..])
  }

  /** The calls a list of commands makes when each is run in turn. */
  function CallsOf(cmds: seq<Argv>): (r: seq<Call>)
    requires NonEmptyArgvs(cmds)
    ensures |r| == |cmds|
    ensures forall i :: 0 <= i < |cmds| ==> r[i] == ToCall(cmds[i])
  {
    if cmds == [] then []
    else
      var n := |cmds| - 1;
      assert forall i :: 0 <= i < n ==> cmds[..n][i] == cmds[i];
      CallsOf(cmds[..n]) + [ToCall(cmds[n])]
  }

  /** Running one more command adds its call at the end. */
  lemma CallsOfSnoc(cmds: seq<Argv>, i: nat)
    requires NonEmptyArgvs(cmds) && i < |cmds|
    ensures CallsOf(cmds[..i + 1]) == CallsOf(cmds[..i]) + [ToCall(cmds[i])]
  {
    assert cmds[..i + 1][..i] == cmds[..i];
  }

  function MainCall(d: Descriptor): Call { Call("helm", d.args) }

  function TestCall(d: Descriptor): Call { Call("helm", ["test", "--logs", d.release]) }

  function RollbackCall(d: Descriptor): Call { Call("helm", ["rollback", d.release]) }

  /** The calls of a run in which nothing fails, up to the post-commands. */
  function Head(d: Descriptor): (r: seq<Call>)
    requires Runnable(d)
    ensures |r| == |d.preCmds| + (if d.test then 2 else 1)
    ensures r[|d.preCmds|] == MainCall(d)
  {
    CallsOf(d.preCmds) + [MainCall(d)] + (if d.test then [TestCall(d)] else [])
  }

  /** The calls of a run in which nothing fails. */
  function Plan(d: Descriptor): (r: seq<Call>)
    requires Runnable(d)
    ensures |r| == |Head(d)| + |d.postCmds| && Head(d) <= r
  {
    Head(d) + CallsOf(d.postCmds)
  }

  /** The number of the first call among the first `n` that fails, or `n` when none does. */
  function FirstFailure(n: nat, runner: Runner): (k: nat)
    ensures k <= n
    ensures forall i :: 0 <= i < k ==> runner.Succeeds(i)
    ensures k < n ==> !runner.Succeeds(k)
  {
    if n == 0 then 0
    else
      var k := FirstFailure(n - 1, runner);
      if k < n - 1 then k
      else if !runner.Succeeds(n - 1) then n - 1
      else n
  }

  /** What `Run` does with a descriptor. */
  function Exec(d: Descriptor): (r: Execution)
    requires Runnable(d)
    ensures 0 < |r.calls| <= |Plan(d)| + 1
    ensures r.err.None? ==> r.calls == Plan(d)
  {
    var plan := Plan(d);
    var runner := d.runner.value;
    var k := FirstFailure(|plan|, runner);
    var pre := |d.preCmds|;
    if k == |plan| then Execution(plan, None)
    else if k < pre then Execution(plan[..k + 1], Some(PreFailed))
    else if k == pre then Execution(plan[..k + 1], Some(HelmFailed))
    else if d.test && k == pre + 1 then
      if !d.testRollback then Execution(plan[..k + 1], Some(TestFailed))
      else if runner.Succeeds(k + 1) then Execution(plan[..k + 1] + [RollbackCall(d)], Some(TestFailed))
      else Execution(plan[..k + 1] + [RollbackCall(d)], Some(RollbackFailed))
    else Execution(plan[..k + 1], Some(PostFailed))
  }

  // ---------------------------------------------------------------------------
  // Properties of a run

  /** FirstFailure is pinned down by its contract. */
  lemma FirstFailureAt(n: nat, runner: Runner, k: nat)
    requires k <= n
    requires forall i :: 0 <= i < k ==> runner.Succeeds(i)
    requires k < n ==> !runner.Succeeds(k)
    ensures FirstFailure(n, runner) == k
  {
    var m := FirstFailure(n, runner);
    assert forall i :: 0 <= i < m ==> runner.Succeeds(i);
  }

  /**
   * A run returns nil exactly when every call of the plan succeeds, and then
   * it has made every call of the plan, in order: pre-commands in
   * registration order, the main call, the test call if any, post-commands
   * in registration order.
   */
  lemma RunSucceedsIff(d: Descriptor)
    requires Runnable(d)
    ensures Exec(d).err.None? <==> forall i :: 0 <= i < |Plan(d)| ==> d.runner.value.Succeeds(i)
    ensures Exec(d).err.None? ==> Exec(d).calls == Plan(d)
  {
    var plan := Plan(d);
    var runner := d.runner.value;
    if forall i :: 0 <= i < |plan| ==> runner.Succeeds(i) {
      FirstFailureAt(|plan|, runner, |plan|);
    }
  }

  /**
   * The first failing pre-command ends the run with "precmd failed": the
   * calls made are the pre-commands up to and including it, so neither the
   * main call nor any post-command is made.
   */
  lemma PreCommandFailureStops(d: Descriptor, k: nat)
    requires Runnable(d) && k < |d.preCmds|
    requires forall i :: 0 <= i < k ==> d.runner.value.Succeeds(i)
    requires !d.runner.value.Succeeds(k)
    ensures Exec(d) == Execution(CallsOf(d.preCmds[..k + 1]), Some(PreFailed))
  {
    var plan := Plan(d);
    FirstFailureAt(|plan|, d.runner.value, k);
    assert plan[..k + 1] == CallsOf(d.preCmds[..k + 1]);
  }

  /**
   * When the pre-commands succeed and the main call fails, the run ends with
   * "helm failed" right after the main call: no test, rollback or post-command.
   */
  lemma MainFailureStops(d: Descriptor)
    requires Runnable(d)
    requires forall i :: 0 <= i < |d.preCmds| ==> d.runner.value.Succeeds(i)
    requires !d.runner.value.Succeeds(|d.preCmds|)
    ensures Exec(d) == Execution(CallsOf(d.preCmds) + [MainCall(d)], Some(HelmFailed))
  {
    var plan := Plan(d);
    var k := |d.preCmds|;
    FirstFailureAt(|plan|, d.runner.value, k);
    assert plan[..k + 1] == CallsOf(d.preCmds) + [MainCall(d)];
  }

  /**
   * When the test call (the last call of Head) fails, no post-command ever
   * runs. Without rollback-on-failure the test's error is returned; with it,
   * one `helm rollback <release>` call follows, and the run returns the
   * rollback's error if the rollback fails and the test's error if it
   * succeeds.
   */
  lemma TestFailureSkipsPostCommands(d: Descriptor)
    requires Runnable(d) && d.test
    requires forall i :: 0 <= i < |Head(d)| - 1 ==> d.runner.value.Succeeds(i)
    requires !d.runner.value.Succeeds(|Head(d)| - 1)
    ensures Head(d)[|Head(d)| - 1] == TestCall(d)
    ensures !d.testRollback ==> Exec(d) == Execution(Head(d), Some(TestFailed))
    ensures d.testRollback ==>
              Exec(d) == Execution(Head(d) + [RollbackCall(d)],
                                   if d.runner.value.Succeeds(|Head(d)|) then Some(TestFailed)
                                   else Some(RollbackFailed))
  {
    var plan := Plan(d);
    var k := |Head(d)| - 1;
    FirstFailureAt(|plan|, d.runner.value, k);
    assert plan[..k + 1] == Head(d);
  }

  /**
   * The first failing post-command ends the run with "postcmd failed" after
   * every earlier call of the plan; the remaining post-commands are not run.
   */
  lemma PostCommandFailureStops(d: Descriptor, k: nat)
    requires Runnable(d) && k < |d.postCmds|
    requires forall i :: 0 <= i < |Head(d)| + k ==> d.runner.value.Succeeds(i)
    requires !d.runner.value.Succeeds(|Head(d)| + k)
    ensures Exec(d) == Execution(Head(d) + CallsOf(d.postCmds[..k + 1]), Some(PostFailed))
  {
    var plan := Plan(d);
    var before := |Head(d)| + k;
    FirstFailureAt(|plan|, d.runner.value, before);
    assert plan[..before + 1] == Head(d) + CallsOf(d.postCmds)[..k + 1];
    assert CallsOf(d.postCmds)[..k + 1] == CallsOf(d.postCmds[..k + 1]);
  }

  /**
   * Every run follows its plan: it makes a prefix of the plan's calls, and
   * the only call outside the plan is a single rollback, made last, after a
   * failed test when rollback-on-failure is on. A run that fails made the
   * failing call last, or the rollback right after it.
   */
  lemma RunFollowsPlan(d: Descriptor)
    requires Runnable(d)
    ensures var e := Exec(d);
            || e.calls <= Plan(d)
            || (d.test && d.testRollback && e.calls == Plan(d)[..|d.preCmds| + 2] + [RollbackCall(d)])
    ensures var e := Exec(d);
            e.err.Some? ==>
              var n := if (e.err == Some(TestFailed) && d.testRollback) || e.err == Some(RollbackFailed)
                       then |e.calls| - 2 else |e.calls| - 1;
              0 <= n && !d.runner.value.Succeeds(n) && forall i :: 0 <= i < n ==> d.runner.value.Succeeds(i)
  {
  }
}
