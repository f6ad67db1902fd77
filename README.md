# drone-helm3 `internal/helm`: the Helm command builder and runner, in Dafny

This project models the package `internal/helm` of drone-helm3. The package has two halves.

**The builder.** `NewHelmCmd` starts from an empty `HelmCmd` descriptor. It then:

1. applies a mode selector, which prepends `upgrade --install` or `rollback` to the arguments;
2. applies the `With*` options in the caller's order. Each option appends to the argument list, appends to the pre- or post-command lists, or sets a field. The three `key=value` parsers (`WithHelmRepos`, `WithValues`, `WithValuesString`) can fail, and the first failure aborts construction;
3. validates the descriptor and appends the positional release, or release and chart.

**The runner.** `HelmCmd.Run` drives an injected `Runner` through this sequence:

1. the pre-commands;
2. the main `helm <args>` call;
3. an optional `helm test --logs <release>`, with an optional `helm rollback <release>` when the test fails;
4. the post-commands.

A fixed rule decides which failure stops the run and which error is returned.

Modules:

- `Wrappers` (`wrappers.dfy`): `Option` and `Result`.
- `KeyValueFormat` (`key_value.dfy`): the split of an entry at its first `=` (Go's `strings.SplitN(s, "=", 2)`) and its inverse.
- `HelmDescriptor` (`helm_descriptor.dfy`): the specification of the builder.
  - The descriptor as a value, and one datatype case per option.
  - `ApplyOption`: one option.
  - `ApplyAll`: the option loop with its early exit.
  - `Finalize`: validation and the positional arguments.
  - `Build`: the whole of `NewHelmCmd`.
  - The lemmas about these.
- `HelmExecution` (`helm_execution.dfy`): the specification of `Run`, stated through its plan, the calls a run makes when nothing fails. `Exec` makes the plan's calls up to and including the first one that fails. A failed test adds a single rollback call when rollback-on-failure is on.
- `Helm` (`helm.dfy`): the imperative code itself.
  - The class `HelmCmd`, with the Go struct's fields, and methods that update them in place.
  - The option loop, `NewHelmCmd`, `Run` and its two command loops, and `contains`.
  - Each method is proved to agree exactly with the specification above.

**The runner.** The runner is an outcome oracle, `Runner(fails)`. Calls are numbered from 0 in the order `Run` makes them, and call `i` reports an error exactly when `i` is in `fails`. `Run` returns the trace of calls it made (command and arguments) together with its error. Errors are tags:

- `PreFailed`, `HelmFailed`, `TestFailed`, `RollbackFailed`, `PostFailed` for `Run`;
- `OptionError(entry)`, `MissingRelease`, `MissingChart`, `MissingRunner` for `NewHelmCmd`.

**A descriptor invariant the code does not keep.** One would expect a built descriptor to have a non-empty chart whenever its arguments contain `"upgrade"`. The code does not guarantee this, and the model follows the code. Upgrade mode is decided by `contains(h.Args, "upgrade")` over the whole argument list, before the release is appended. Two consequences follow:

- A rollback of a release named `upgrade` is built with `"upgrade"` among its arguments and an empty chart (`ReleaseNamedUpgrade`).
- A rollback whose namespace is `upgrade` is refused for want of a chart (`UpgradeTokenAnywhere`).

## Model

| member | source | states |
|---|---|---|
| KeyValueFormat.Join | internal/helm/helm.go:197 | the definition of `fmt.Sprintf("%s=%s", key, value)`: key, one `=`, value; its contract gives the length and the `=` right after the key, and SplitJoin proves Split inverts it |
| KeyValueFormat.IndexOf | internal/helm/helm.go:191 | the result is None exactly when the character does not occur; otherwise it is the position of its first occurrence |
| KeyValueFormat.Split | internal/helm/helm.go:191-194 | `SplitN(s, "=", 2)` yields two parts exactly when `s` contains `=`; the key holds no `=`, and key + "=" + value is the original entry |
| KeyValueFormat.SplitJoin | internal/helm/helm.go:191-197 | splitting a rejoined pair whose key has no `=` gives the pair back (round trip) |
| KeyValueFormat.FirstMalformed | internal/helm/helm.go:132-136 | the index where a parsing loop stops: every earlier entry has `=` and the entry at the index (if any) has none |
| HelmDescriptor.ModeArgs | internal/helm/helm.go:32-42 | the definition of the keywords each mode selector prepends; its contract: they contain "upgrade" exactly in install/upgrade mode; Helm.HelmCmd.ApplyMode is proved against it |
| HelmDescriptor.Start | internal/helm/helm.go:258-264 | the definition of the fresh descriptor after the mode selector; its contract: Args is the mode's keywords and every other field is as allocated |
| HelmDescriptor.RepoAddCmds | internal/helm/helm.go:141-143 | the definition of the `repo add` commands of well-formed entries; its contract gives one command per entry, and RepoAddCmdsShape proves each is that entry's `helm repo add name url` |
| HelmDescriptor.SetArgs | internal/helm/helm.go:190-198 | the definition of the `<flag> key=value` arguments of well-formed entries; its contract gives two per entry, and SetArgsShape proves their contents |
| HelmDescriptor.RepoAddCmdsShape | internal/helm/helm.go:132-145 | the i-th `repo add` command is `helm repo add name url` for the i-th entry's name and URL, in input order |
| HelmDescriptor.SetArgsShape | internal/helm/helm.go:190-198 | for each entry i, the arguments hold the flag at 2i and the entry itself (rejoined `k=v`) at 2i+1 |
| HelmDescriptor.ReposStep | internal/helm/helm.go:128-150 | `WithHelmRepos` only appends to the pre-commands, and a reported entry never contains `=` |
| HelmDescriptor.ValuesStep | internal/helm/helm.go:188-216 | `WithValues`/`WithValuesString` only append to the arguments, and a reported entry never contains `=` |
| HelmDescriptor.ApplyOption | internal/helm/helm.go:44-255 | the definition of every `With*` option; its contract: only the three key=value parsers report an error. ApplyOptionFrame, DisabledIsNoOp, AppliedTwiceAppendsTwice and LintUsesCurrentChart state its properties, and Helm.HelmCmd.Apply is proved against it |
| HelmDescriptor.ApplyOptionFrame | internal/helm/helm.go:44-255 | every option only appends to Args, PreCmds and PostCmds; each of Release, Chart, Runner, Test and TestRollback changes only through its own setter; only the three key=value parsers fail, and then with an entry lacking `=` |
| HelmDescriptor.ApplyAll | internal/helm/helm.go:265-270 | the option loop only extends the lists, and its error is always an entry without `=` |
| HelmDescriptor.Finalize | internal/helm/helm.go:271-287 | the definition of the validation and positional arguments; its contract: its errors are never option errors, and on success the release and runner are set, only Args changed, and Args strictly grew. BuildFailsIff and BuiltDescriptor state the rest |
| HelmDescriptor.Build | internal/helm/helm.go:257-288 | the definition of what `NewHelmCmd` returns; its contract: an option error names an entry without `=`, and a built descriptor has a release and a runner. BuildFailsIff, BuiltDescriptor, FirstOptionErrorAborts and RunnerIsRequired state the rest, and Helm.NewHelmCmd is proved against it |
| HelmDescriptor.ApplyAllConcat | internal/helm/helm.go:265-270 | applying `a + b` is applying `a`, then `b` to its result, unless `a` failed |
| HelmDescriptor.FirstOptionErrorAborts | internal/helm/helm.go:265-270 | the first option that reports an error makes construction fail with that option error, whatever options follow |
| HelmDescriptor.RunnerIsRequired | internal/helm/helm.go:278-280 | without a `WithRunner` carrying a runner, construction always fails |
| HelmDescriptor.BuildFailsIff | internal/helm/helm.go:265-280 | construction fails exactly when an option fails, the release is empty, the chart is empty while Args contains "upgrade", or the runner is nil; each error is reported exactly when the earlier checks passed (checks in that order) |
| HelmDescriptor.BuiltDescriptor | internal/helm/helm.go:257-288 | a built descriptor has a release and a runner and starts with its mode's keywords. It is the descriptor the options left, with Args extended once: by [Release, Chart] (chart non-empty) when "upgrade" occurred, by [Release] otherwise |
| HelmDescriptor.RollbackNeedsNoChart | internal/helm/helm.go:264-284 | a rollback with a release and a runner, but no chart, is built as `rollback <release>` |
| HelmDescriptor.UpgradeNeedsChart | internal/helm/helm.go:275-277 | the same options in install/upgrade mode fail with MissingChart |
| HelmDescriptor.UpgradeAppendsReleaseAndChart | internal/helm/helm.go:281-287 | install/upgrade with release, chart and runner is built as `upgrade --install <release> <chart>` |
| HelmDescriptor.UpgradeTokenAnywhere | internal/helm/helm.go:271 | a rollback whose namespace is "upgrade" is taken for upgrade mode and fails with MissingChart |
| HelmDescriptor.ReleaseNamedUpgrade | internal/helm/helm.go:271-284 | a rollback of a release named "upgrade" is built with "upgrade" in Args and an empty chart |
| HelmDescriptor.ReposWellFormed | internal/helm/helm.go:128-150 | with n well-formed entries: no error; exactly n `repo add` commands in input order, then exactly one `repo update`; nothing at all for an empty list |
| HelmDescriptor.ReposMalformed | internal/helm/helm.go:133-136 | an entry without `=` is reported as the error; the earlier entries' `repo add` commands stay; no `repo update` is added |
| HelmDescriptor.ReposTwoEntries | internal/helm/helm.go:128-150 | two well-formed entries yield exactly `repo add a u1`, `repo add b u2`, `repo update`, also when the URLs contain `=` |
| HelmDescriptor.ValuesWellFormed | internal/helm/helm.go:188-216 | with well-formed entries: no error; two arguments per entry, the flag and then the entry itself, in order |
| HelmDescriptor.ValuesMalformed | internal/helm/helm.go:192-194 | an entry without `=` is the error; the pairs of the earlier entries stay appended |
| HelmDescriptor.DisabledIsNoOp | internal/helm/helm.go:65-248 | an option whose switch is false, or whose string or list is empty, leaves the descriptor unchanged and reports no error |
| HelmDescriptor.AppliedTwiceAppendsTwice | internal/helm/helm.go:58-248 | there is no deduplication: applying an appending option twice appends its contribution twice and changes nothing else |
| HelmDescriptor.LintUsesCurrentChart | internal/helm/helm.go:65-74 | `WithLint` lints the chart set before it; a `WithChart` after it does not change the lint command |
| HelmExecution.MainCall | internal/helm/helm.go:297 | the definition of the main call `helm <Args>` (no contract; MainFailureStops and Head use it) |
| HelmExecution.TestCall | internal/helm/helm.go:302 | the definition of the test call `helm test --logs <Release>` (no contract; TestFailureSkipsPostCommands uses it) |
| HelmExecution.RollbackCall | internal/helm/helm.go:306 | the definition of the rollback call `helm rollback <Release>` (no contract; TestFailureSkipsPostCommands and RunFollowsPlan use it) |
| HelmExecution.Head | internal/helm/helm.go:290-316 | the definition of the calls up to the post-commands when nothing fails; its contract gives its length and places the main call right after the pre-commands |
| HelmExecution.Plan | internal/helm/helm.go:290-323 | the definition of all calls of a run in which nothing fails; its contract: Head followed by one call per post-command |
| HelmExecution.Exec | internal/helm/helm.go:290-323 | the definition of what `Run` does (calls made, error returned); its contract: at least one call, at most the plan plus one rollback, and exactly the plan on success. RunSucceedsIff, the four *Stops/TestFailure* lemmas and RunFollowsPlan state the rest, and Helm.HelmCmd.Run is proved against it |
| HelmExecution.CallsOf | internal/helm/helm.go:291-322 | running a command list, as both the pre-command loop (291-296) and the post-command loop (317-322) do, makes one call per command, in order, each with the command's first element as the executable |
| HelmExecution.FirstFailure | internal/helm/helm.go:290-323 | the first failing call: every earlier call succeeded and this one failed |
| HelmExecution.RunSucceedsIff | internal/helm/helm.go:290-323 | a run returns nil exactly when every call of the plan succeeds, and then it made exactly the plan's calls: pre-commands, main call, test (if on), post-commands |
| HelmExecution.PreCommandFailureStops | internal/helm/helm.go:291-296 | the first failing pre-command ends the run with PreFailed after the pre-commands up to it; no main call, no post-command |
| HelmExecution.MainFailureStops | internal/helm/helm.go:297-300 | a failing main call ends the run with HelmFailed right after it |
| HelmExecution.TestFailureSkipsPostCommands | internal/helm/helm.go:301-316 | after a failed test no post-command runs. Without rollback-on-failure the test error is returned. With it, exactly one `helm rollback <release>` follows, and the result is RollbackFailed if that call fails, TestFailed otherwise |
| HelmExecution.PostCommandFailureStops | internal/helm/helm.go:317-322 | the first failing post-command ends the run with PostFailed; the remaining post-commands are not run |
| HelmExecution.RunFollowsPlan | internal/helm/helm.go:290-323 | every run makes a prefix of its plan, or that prefix up to the test plus one rollback; a failing run's last call (or the one before the rollback) is its first failing call |
| Helm.Contains | internal/helm/helm.go:326-332 | `contains` is true exactly when some element equals the token |
| Helm.RunCommands | internal/helm/helm.go:291-296 | the command loop makes the commands' calls in order and stops after the first failing one; `ok` exactly when all succeeded |
| Helm.RepoCommands | internal/helm/helm.go:128-150 | the loop of `WithHelmRepos` computes exactly ReposStep |
| Helm.SetPairs | internal/helm/helm.go:188-216 | the loop of `WithValues`/`WithValuesString` computes exactly ValuesStep |
| Helm.NewHelmCmd | internal/helm/helm.go:257-288 | returns a fresh descriptor exactly when there is no error, and then it equals Build's result; otherwise no descriptor and Build's error |
| Helm.HelmCmd.constructor | internal/helm/helm.go:258-263 | the freshly allocated descriptor has empty lists, empty strings, a nil runner and both switches off |
| Helm.HelmCmd.ApplyMode | internal/helm/helm.go:32-42 | the selector prepends its keywords to Args and changes nothing else |
| Helm.HelmCmd.AppendRepos | internal/helm/helm.go:128-150 | `WithHelmRepos` updates PreCmds in place as ReposStep specifies |
| Helm.HelmCmd.AppendValues | internal/helm/helm.go:188-216 | `WithValues`/`WithValuesString` update Args in place as ValuesStep specifies |
| Helm.HelmCmd.Apply | internal/helm/helm.go:44-255 | applying an option in place leaves the state and error ApplyOption specifies |
| Helm.HelmCmd.SetField | internal/helm/helm.go:44-56 | the setters `WithRelease`, `WithChart` (44-56), `WithTest`, `WithTestRollback` (174-186) and `WithRunner` (250-255) change only their own field, as ApplyOption specifies |
| Helm.HelmCmd.AddCommand | internal/helm/helm.go:65-74 | `WithLint` (65-74), `WithBuildDependencies`, `WithUpdateDependencies` (152-172), `WithPreCommand` and `WithPostCommand` (227-239) append exactly their command (when enabled), as ApplyOption specifies |
| Helm.HelmCmd.AddArguments | internal/helm/helm.go:58-126 | the flag options `WithNamespace` through `WithTimeout` (58-126), `WithValuesYaml` (218-225) and `WithKubeConfig` (241-248) append exactly their flag and value (when enabled), as ApplyOption specifies |
| Helm.HelmCmd.ApplyAllOptions | internal/helm/helm.go:265-270 | the option loop ends in ApplyAll's descriptor, or stops at the first error, which is ApplyAll's error |
| Helm.HelmCmd.Run | internal/helm/helm.go:290-324 | the calls made and the error returned are exactly Exec's |
| Helm.HelmCmd.RunRelease | internal/helm/helm.go:297-316 | after successful pre-commands: the main call, the test and its rollback behave as Exec specifies |
| Helm.HelmCmd.RunPostCommands | internal/helm/helm.go:317-323 | after a successful Head, the post-command loop and the nil result behave as Exec specifies |

## Left out

- Logging (`log.Printf`) is not modelled; it has no effect on the descriptor or the result.
- `context.Context` is passed through to the runner and never inspected, so it is not modelled.
- Process execution behind `Runner.Run` is a foreign call. It is replaced by the outcome oracle `Runner(fails)` and the call trace; the text of the runner's errors is not modelled.
- Error messages (`fmt.Errorf` text) are replaced by the tags listed above. `OptionError` carries the offending entry.
- `WithTimeout`: the timeout is an opaque string standing for `time.Duration.String()`; duration formatting is not modelled.
- Helm.HelmCmd.Run: requires every pre- and post-command to be non-empty (`Runnable`). Go panics on `preCmd[0]` for an empty command vector, and that panic is not modelled. The requirement is stronger than needed: it also excludes runs that stop before they reach an empty command, where Go never indexes it and does not panic (for example `PreCmds = [["false"], []]` with the first call failing); such runs are not covered by the model.
- Helm.HelmCmd.Run: split into `Run`, `RunRelease` and `RunPostCommands` for the proof. Together they make the same calls in the same order as the single Go method.
- Helm.HelmCmd.AppendRepos and Helm.HelmCmd.AppendValues: the loops run in `RepoCommands` and `SetPairs` over a copy of the list, which is stored back into the field. No other code can observe the field in between, so the effect is the same as Go appending in place.
- `WithTest` and `WithTestRollback` take a release argument that the code ignores. The model keeps it in the option and ignores it too.
