# create-rust-github-repo, modelled in Dafny

`create-rust-github-repo` bootstraps a Rust project on GitHub. It works in order:

1. Probe whether the repository exists. If it does not, create it.
2. Clone the repository unless the target directory exists.
3. Run `cargo init` unless `Cargo.toml` exists.
4. Optionally copy configuration files in from another project.
5. Test, add, commit and push.

Every step but the copy is a shell command (`shell_cmd -c <command>`); the
copy calls `copy_items` (src/lib.rs:157). Each command is a template whose
`{{name}}` and `{{dir}}` placeholders are replaced first. The first failing
step ends the run. Its error names the step, except when `current_dir()` or
the probe fails (src/lib.rs:112, 124): those errors pass through without
context.

This project models the library core, `src/lib.rs`:

- `results.dfy` (module `Results`): `Option` and `Result`, with the
  `or_else`/`map`/`unwrap_or` combinators used for the directory choice.
- `visibility.dfy` (module `Visibility`): `RepoVisibility` and its
  `gh repo create` flag.
- `paths.dfy` (module `Paths`): paths as segment sequences, `join`,
  `display`, and how `run` resolves the target directory.
- `template.dfy` (module `Template`): Rust's `str::replace`, then
  `replace_all` as written (a loop over the map entries, in the map's
  iteration order). It also defines `Substitute`, the order-independent
  substitution that the rest of the model uses (see Findings). `replace_args`
  maps the substitution over the argument list.
- `process.dfy` (module `Process`): `check_status`, `exec_raw`,
  `success_raw`, `cmd_to_string` (as a loop), `exec` and `success`. The
  outcome of spawning and waiting for the child is a parameter.
- `bootstrap.dfy` (module `Bootstrap`): `CreateRustGithubRepo::run` and its
  default options.
  - The environment is a parameter: the current directory, which paths
    exist, what each spawned command returned, and how the copy ended.
  - `Run` returns the sequence of effects it performed.
  - The plan is the sequence of effects a run makes when nothing fails. It
    is defined declaratively from the skip rules.
  - `Run` is proved to perform a prefix of its plan, up to and including the
    first failure. It returns `Ok` exactly when the whole plan went through.
  - Lemmas about the plan give the skip rules, the step order, the working
    directories, the exact commands, and the rerun behaviour. One of them
    shows that a run that pushes has passed its tests first.

## Model

| member | source | states |
|---|---|---|
| Visibility.ToGhCreateRepoFlag | src/lib.rs:52-59 | The flag of a visibility is `--` followed by its command-line value name. |
| Visibility.ParseValueName | src/lib.rs:44-50 | A command-line value that parses names the variant it yields. |
| Visibility.FlagIdentifiesVisibility | src/lib.rs:44-59 | Two visibilities have the same flag exactly when they are equal, and every value name parses back to its variant. |
| Visibility.DefaultIsPrivate | src/lib.rs:47-48 | The default visibility's flag is `--private`. |
| Paths.Join | src/lib.rs:115-116 | Joining adds exactly one last segment and keeps the base. |
| Paths.ResolveDir | src/lib.rs:113-116 | `--dir` wins if given. Otherwise `--workspace` joined with the name, otherwise the current directory joined with the name. Without `--dir`, the result ends with the name. |
| Paths.Display | src/lib.rs:117 | The root displays as `/`. An absolute path's text starts with `/`, and a path of two or more segments ends with `/` and its last segment. |
| Paths.DisplayJoin | src/lib.rs:115-117 | The displayed join is the displayed base, a `/` (none after the root), then the new segment. |
| Paths.DirOverridesWorkspace | src/lib.rs:113-116 | Once `--dir` is given, the workspace, current directory and name make no difference. |
| Template.ReplaceAll | src/lib.rs:182-187 | The loop yields the template with each entry's key replaced in the order the entries come, each on the previous result. |
| Template.Replace | src/lib.rs:184 | `str::replace`: a replacement no longer than its key never lengthens the text, and one of the same length keeps the length. |
| Template.ReplaceConcat | src/lib.rs:184 | When no occurrence of the key can straddle the seam, replacing in a concatenation replaces in each part. |
| Template.ReplaceAround | src/lib.rs:184 | A key without a space, in text split at spaces: replacing in the whole replaces in each of the three parts. |
| Template.SpacedKeysInOrder | src/lib.rs:182-187 | A template `<text> k1 k2`, keys replaced first `k1` then `k2`: the first value is itself searched for `k2`, the second stands as given. |
| Template.SpacedKeysReversed | src/lib.rs:182-187 | The same template with `k2` replaced first: the first value stands as given, the second is searched for `k1`. |
| Template.ContainsConcat | src/lib.rs:184 | A key that neither part holds and that cannot straddle the seam does not occur in the concatenation. |
| Template.ReplaceAbsent | src/lib.rs:184 | `str::replace` leaves a string in which the key does not occur unchanged. |
| Template.ReplaceSelf | src/lib.rs:184 | Replacing a key by itself changes nothing. |
| Template.ReplaceInOrderNoKeys | src/lib.rs:182-187 | A template that holds none of the keys comes back unchanged, in any entry order. |
| Template.ReplaceNameCreatesDirKey | src/lib.rs:184 | `str::replace` does not rescan its output: replacing `{{name}}` by `dir` in `{{{{name}}}}` yields the key `{{dir}}`. |
| Template.ReplaceAllNameFirst | src/lib.rs:182-187 | Name entry first: `{{{{name}}}}` with name `dir` ends up as the directory. |
| Template.ReplaceAllDirFirst | src/lib.rs:182-187 | Directory entry first: the same template ends up as the text `{{dir}}`. |
| Template.ReplaceAllDependsOnOrder | src/lib.rs:182-187 | The two iteration orders of the same map give different results for the same template (Findings). |
| Template.FirstMatch | src/lib.rs:182-187 | The entry found is in the map, with a non-empty key that starts the text. When none is found, no entry's non-empty key starts the text. |
| Template.FirstMatchUnique | src/lib.rs:119-122 | In a map where no key starts another, the entry whose key starts the text is the one found, whatever the entry order. |
| Template.Substitute | src/lib.rs:182-187 | The corrected substitution (see Findings): when every value equals its key the text comes back unchanged, and when every value is as long as its key the length is kept. |
| Template.SubstituteOrderIndependent | src/lib.rs:119-122 | The corrected substitution gives the same result for every listing of the same unambiguous map. |
| Template.SubstituteSingle | src/lib.rs:184 | With one non-empty key, the corrected substitution equals `str::replace`. |
| Template.SubstituteNoKeys | src/lib.rs:182-187 | A template that holds no key comes back unchanged from the corrected substitution. |
| Template.SubstitutePlain | src/lib.rs:182-187 | Text that starts no key passes through unchanged, and substitution continues after it. |
| Template.SubstituteKey | src/lib.rs:182-187 | A key at the front of the text becomes its value, and substitution continues after the key. |
| Template.ReplaceArgs | src/lib.rs:176-180 | One output argument per input argument, each the substituted input at the same position. |
| Process.CheckStatus | src/lib.rs:228-234 | `Ok` exactly for a successful status, which is kept. Any other status becomes an error carrying that status. |
| Process.ExecRaw | src/lib.rs:201-203 | Succeeds exactly when the child ran and exited successfully. A spawn error passes through, and an unsuccessful exit becomes an exit-failure error. |
| Process.SuccessRaw | src/lib.rs:205-207 | An error only when the child could not run. Otherwise the answer is whether it exited successfully. |
| Process.ExecRawAgreesWithSuccessRaw | src/lib.rs:201-207 | `exec_raw` succeeds exactly when `success_raw` answers `true`. An answer of `false` is an exit-failure error for `exec_raw`. |
| Process.CmdToString | src/lib.rs:219-226 | The loop builds the command followed by a space and each argument, in order. |
| Process.CmdLineStartsWithCmd | src/lib.rs:219-226 | The line starts with the command, is the bare command when there are no arguments, and has at least one character per argument beyond it. |
| Process.CmdLineWordsRoundTrip | src/lib.rs:219-226 | When no part holds a space, splitting the line on spaces gives back the command and the arguments. |
| Process.Exec | src/lib.rs:189-193 | The child runs the given program and fixed arguments in the given directory, with each extra argument substituted. The echoed line shows program and fixed arguments only. The result is `Ok` exactly on a successful exit. |
| Process.Succeeds | src/lib.rs:195-199 | Same invocation as `exec`. The answer is whether the child exited successfully, and it is an error only when the child could not run. |
| Process.EchoOmitsCommand | src/lib.rs:210 | Invocations with the same program and fixed arguments echo the same line, whatever command they run. |
| Bootstrap.ConfigPaths | src/lib.rs:148-152 | One source path per config entry: `copy_configs_from` joined with that entry, in order. |
| Bootstrap.ProbeStep | src/lib.rs:124 | The probe spawns the substituted existence command in the current directory. A failure to run it ends the run with an uncontexted error. Otherwise its answer is whether the repository was found. |
| Bootstrap.ExecStep | src/lib.rs:126-129 | A guarded step either is skipped or spawns its command. If it fails, the run so far followed the plan up to this failure. Otherwise the run is on plan. |
| Bootstrap.Prepare | src/lib.rs:126-145 | Create, clone and init run as the plan says (each guarded by its existence check) and stop at the first failure. |
| Bootstrap.CopyStep | src/lib.rs:147-158 | Copies only when `copy_configs_from` is given. A copy failure ends the run with the copy context. |
| Bootstrap.Publish | src/lib.rs:160-170 | Test, add, commit and push always run in that order, and the first failure ends the run. Success completes the plan. |
| Bootstrap.CommitAndPush | src/lib.rs:166-170 | Commit, then push: the first failure ends the run on plan, and success completes the plan. |
| Bootstrap.Run | src/lib.rs:111-173 | If the current directory is unavailable, nothing runs and its error is returned. Otherwise the run performs a non-empty prefix of its plan. Every event but the last went through. The result is `Ok` exactly when the whole plan went through, and otherwise the failing event's error with its context. |
| Bootstrap.PlanSteps | src/lib.rs:124-170 | The plan starts with the probe. A step's effect is in the plan exactly when the skip rules let the step run. Steps come in strictly increasing order. |
| Bootstrap.PlanFromOrdered | src/lib.rs:124-170 | The plan from any step on follows the order of `run`. |
| Bootstrap.PlanSkipRules | src/lib.rs:126-147 | Create is planned exactly when the repository was not found. Clone exactly when the directory is missing, init exactly when `Cargo.toml` is missing, and the copy exactly when a source is given. |
| Bootstrap.PlanAlwaysRuns | src/lib.rs:124-170 | Probe, test, add, commit and push are in every plan. |
| Bootstrap.PlanCommands | src/lib.rs:124-170 | Every planned command runs `shell_cmd -c` with the step's configured command, substituted, as the single argument. |
| Bootstrap.PlanWorkingDirs | src/lib.rs:124-170 | Probe, create and clone run in the current directory. Every later command runs in the resolved directory. |
| Bootstrap.PlanCopy | src/lib.rs:147-158 | A planned copy takes the configured source paths into the resolved directory, and only when a source is given. |
| Bootstrap.PlanEndsWithPublishing | src/lib.rs:160-170 | Whatever the facts, the plan ends with test, add, commit and push, in that order. |
| Bootstrap.PlanFromCopy | src/lib.rs:147-170 | From the copy step on, the plan is the copy when a source is given, then test, add, commit and push. |
| Bootstrap.RerunPlan | src/lib.rs:124-170 | A rerun where the repository, the clone and `Cargo.toml` all exist runs only the probe, the optional copy, and test, add, commit, push. |
| Bootstrap.PushOnlyAfterTestsPass | src/lib.rs:160-170 | A run that pushes has run the project's tests, and they passed. |
| Bootstrap.EarlierStepSucceeded | src/lib.rs:124-170 | In a run that followed an ordered plan, every planned effect of an earlier step than one performed was also performed, and it went through. |
| Bootstrap.FailureContext | src/lib.rs:124-170 | A failing step's error carries that step's context, and only the probe's error carries none. |
| Bootstrap.PlaceholdersUnambiguous | src/lib.rs:119-122 | Neither placeholder starts the other. |
| Bootstrap.PlaceholderOrderIrrelevant | src/lib.rs:119-122 | Under the corrected substitution, substituting the two placeholders gives the same command in either entry order. (`replace_all` as written does not: `Template.ReplaceAllDependsOnOrder`.) |
| Bootstrap.DefaultConfig | src/lib.rs:66-107 | The defaults: the given name, no `--dir`, no `--workspace`, shell `/bin/sh`, no copy source and no config entries. |
| Bootstrap.DefaultTemplatePlaceholders | src/lib.rs:85-92 | The default probe and create commands hold `{{name}}` and not `{{dir}}`. The default clone command holds both. |
| Bootstrap.DefaultCloneCommand | src/lib.rs:91-92 | Under the corrected substitution, the default clone command becomes `gh repo clone <name> <dir>` for every name and directory. |
| Bootstrap.DefaultCreateCommand | src/lib.rs:88-89 | Under the corrected substitution, the default create command becomes `gh repo create` with the default visibility's flag, then the name. |
| Bootstrap.DefaultProbeCommand | src/lib.rs:85-86 | Under the corrected substitution, the default probe becomes `gh repo view --json nameWithOwner <name> 2>/dev/null`. |
| Bootstrap.ReplaceAllCloneCommand | src/lib.rs:91-92 | `replace_all` as written, in either iteration order, turns the default clone command into `gh repo clone <name> <dir>`, the corrected result, when the name holds no `{{dir}}` and the directory shows no `{{name}}`. |
| Bootstrap.ReplaceAllCreateCommand | src/lib.rs:88-89 | `replace_all` as written, in either order, turns the default create command into `gh repo create --private <name>`, the corrected result, when the name holds no `{{dir}}`. |
| Bootstrap.ReplaceAllProbeCommand | src/lib.rs:85-86 | `replace_all` as written, in either order, turns the default probe into `gh repo view --json nameWithOwner <name> 2>/dev/null`, the corrected result, when the name holds no `{{dir}}`. |
| Bootstrap.CloneNameHoldingDirKey | src/lib.rs:91-92 | With the name `{{dir}}`, name first clones `gh repo clone <dir> <dir>`. Directory first gives `gh repo clone {{dir}} <dir>`, as the corrected substitution does. |
| Bootstrap.FixedReplaceAll | src/lib.rs:182-187 | `replace_all` leaves text that holds neither placeholder unchanged, in either iteration order. |
| Bootstrap.DefaultCommandsLeaveNoPlaceholder | src/lib.rs:85-92 | When neither the name nor the displayed directory holds a placeholder, `replace_all` as written leaves none in the default probe, create and clone commands. |
| Bootstrap.DefaultFixedCommands | src/lib.rs:94-107 | The default init, test, add, commit and push commands hold neither placeholder. `replace_all` as written, in either iteration order, and the corrected substitution all leave them unchanged. |

## Left out

- Spawning and waiting for child processes is not modelled.
  - The per-step outcome is a parameter of the environment, as is the result of `current_dir()`.
  - `Path::exists` is a parameter too. It gives one fixed answer per path for the whole run, so the model does not capture paths that appear or vanish while a command runs.
- Output is not modelled: the `eprintln!` echo of each command (only its text, `Process.Echo`, is modelled) and the two `println!` skip messages.
- `copy_items` and its options are not modelled (skip existing files, copy directory contents, buffer size). Only the sources, the destination and the success or failure of the copy are.
- `PathBuf::join` is modelled for a single relative segment. This covers the name joined at src/lib.rs:115-116 and each `configs` entry joined at src/lib.rs:151. A name or entry holding `/` (such as `.github/workflows`), or an absolute one, is not split or re-rooted as Rust would.
- `Path::display` is modelled as the segments joined by `/`, with the root shown as `/`. Non-UTF-8 paths and their lossy conversion are out of scope, because strings here are sequences of characters.
- The message text of `check_status`'s error (`Process exited with with status …`) is not modelled. The error carries the status itself.
- Each `anyhow` context is modelled as a `RunError` with an optional context string and a cause.
- Command-line parsing with `clap`, the setters derive and the `verify_cli` test are not modelled. Only the option defaults and the visibility value names are. The binary entry point is not part of this model.
- `HashMap`'s iteration order is random per process. `Template.ReplaceAll` takes that order as the listing of its map.
- Template.Substitute: ignores empty keys, where `str::replace` would insert the value at every position. The keys of `run` are the two fixed non-empty placeholders.
- Bootstrap.Run: this line covers `Run` and its step methods `Bootstrap.ProbeStep`, `Bootstrap.ExecStep`, `Bootstrap.Prepare`, `Bootstrap.Publish` and `Bootstrap.CommitAndPush`. They substitute placeholders with `Template.Substitute`, the corrected substitution, and not with `replace_all` as written (see Findings). They agree on single-key maps (`Template.SubstituteSingle`), on templates that hold no key (`Template.SubstituteNoKeys`, `Template.ReplaceInOrderNoKeys`), and on the default probe, create and clone commands when the name holds no `{{dir}}` and the displayed directory no `{{name}}` (`Bootstrap.ReplaceAllProbeCommand`, `Bootstrap.ReplaceAllCreateCommand`, `Bootstrap.ReplaceAllCloneCommand`), and on the five other default commands for every name and directory (`Bootstrap.DefaultFixedCommands`). They differ elsewhere: for the template `{{name}}{{dir}}` with name `{{dir}}` and directory `{{name}}`, `replace_all` gives `{{name}}{{name}}` or `{{dir}}{{dir}}` depending on the map's order, while `Substitute` gives `{{dir}}{{name}}`.
- Template.ReplaceArgs: maps the corrected substitution over the arguments, not `replace_all` as written; it differs on the `{{name}}{{dir}}` input above.
- Process.Exec: the child's command is substituted with the corrected substitution, not `replace_all` as written; it differs on the `{{name}}{{dir}}` input above.
- Process.Succeeds: the same as `Process.Exec`.
- Bootstrap.PlanCommands: the planned commands are substituted with the corrected substitution. For a user-supplied template they can differ from the program's on the `{{name}}{{dir}}` input above. For the default templates they agree under the conditions of the three `Bootstrap.ReplaceAll…Command` lemmas.
- Bootstrap.DefaultCloneCommand: holds for the corrected substitution only. As written, the name `{{dir}}` with the name entry first gives `gh repo clone <dir> <dir>` (`Bootstrap.CloneNameHoldingDirKey`). Agreement with `replace_all` is proved when the name holds no `{{dir}}` and the directory shows no `{{name}}` (`Bootstrap.ReplaceAllCloneCommand`).
- Bootstrap.DefaultCreateCommand: holds for the corrected substitution only. Agreement with `replace_all` in both orders is proved when the name holds no `{{dir}}` (`Bootstrap.ReplaceAllCreateCommand`).
- Bootstrap.DefaultProbeCommand: holds for the corrected substitution only. Agreement with `replace_all` in both orders is proved when the name holds no `{{dir}}` (`Bootstrap.ReplaceAllProbeCommand`).
- Bootstrap.PlaceholderOrderIrrelevant: holds for the corrected substitution only. For `replace_all` as written the two entry orders differ on `{{{{name}}}}` with name `dir` (`Template.ReplaceAllDependsOnOrder`).
- Bootstrap.DefaultCommandsLeaveNoPlaceholder: proved for the default templates only. For an arbitrary template `replace_all` can leave a placeholder (`{{{{name}}}}` with name `dir`, directory first, leaves `{{dir}}`: `Template.ReplaceAllDirFirst`), and its result depends on the order (`Template.ReplaceAllDependsOnOrder`).
- Exit statuses are either an exit code or a signal. Platform-specific status details are out of scope.

## Findings

| source | as written | input that shows it | evidently intended | confidence | as-written member | corrected member |
|---|---|---|---|---|---|---|
| src/lib.rs:182-187 | Each map entry is replaced over the whole current string, in `HashMap` iteration order. Text produced by one replacement can match a later key, so the result depends on an order that changes from process to process. | The template `{{{{name}}}}` with name `dir` and any directory `d` other than `{{dir}}`. Name first gives `d`. Directory first gives `{{dir}}`. | One simultaneous scan that replaces each placeholder occurring in the template, with a result independent of map order. | low, not executed | Template.ReplaceAllDependsOnOrder | Template.SubstituteOrderIndependent |
