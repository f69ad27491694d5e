/**
 * The bootstrap pipeline `CreateRustGithubRepo::run` (src/lib.rs:111-173):
 * probe for the remote repository, create it, clone it, initialise the
 * project, copy configuration files, then test, add, commit and push. The
 * first step that fails ends the run.
 *
 * The environment is a parameter: the result of `current_dir()`, which paths
 * exist, what each spawned step's child returned, and the outcome of the
 * configuration copy.
 */
module Bootstrap {
  import opened Results
  import opened Paths
  import opened Template
  import opened Process
  import opened Visibility

  /** The steps of a run, in the order the pipeline takes them. */
  datatype Step =
    | RepoExists | RepoCreate | RepoClone | ProjectInit | CopyConfigs
    | ProjectTest | RepoAdd | RepoCommit | RepoPush

  function Rank(s: Step): nat
  {
    match s
    case RepoExists => 0
    case RepoCreate => 1
    case RepoClone => 2
    case ProjectInit => 3
    case CopyConfigs => 4
    case ProjectTest => 5
    case RepoAdd => 6
    case RepoCommit => 7
    case RepoPush => 8
  }

  /** The options of one run (the fields of `CreateRustGithubRepo`). */
  datatype Config = Config(
    name: string,
    dir: Option<Path>,
    workspace: Option<Path>,
    shellCmd: string,
    copyConfigsFrom: Option<Path>,
    configs: seq<string>,
    repoExistsCmd: string,
    repoCreateCmd: string,
    repoCloneCmd: string,
    projectInitCmd: string,
    projectTestCmd: string,
    repoAddArgs: string,
    repoCommitArgs: string,
    repoPushArgs: string)

  /** The placeholder for the repository name. */
  const NameKey := "{{name}}"

  /** The placeholder for the resolved directory. */
  const DirKey := "{{dir}}"

  /** The options with every default the command line supplies (src/lib.rs:75-107). */
  function DefaultConfig(name: string): (r: Config)
    ensures r.name == name && r.shellCmd == "/bin/sh"
    ensures r.dir.None? && r.workspace.None? && r.copyConfigsFrom.None? && r.configs == []
  {
    Config(name, None, None, "/bin/sh", None, [],
      "gh repo view --json nameWithOwner " + NameKey + " 2>/dev/null",
      "gh repo create --private " + NameKey + "",
      "gh repo clone " + NameKey + " " + DirKey,
      "cargo init",
      "cargo test",
      "git add .",
      "git commit -m \"Setup project\"",
      "git push")
  }

  /** The failure reported by the configuration copy. */
  datatype CopyError = CopyError(message: string)

  /** What the world answers during one run. */
  datatype Env = Env(
    currentDir: IoResult<Path>,
    pathExists: Path -> bool,
    spawn: Step -> IoResult<ExitStatus>,
    copy: Result<(), CopyError>)

  datatype Cause = Io(io: IoError) | Copy(copyError: CopyError)

  /** An error of `run`: the context message added to it, if any, and its cause. */
  datatype RunError = RunError(context: Option<string>, cause: Cause)

  /** One effect of a run: a shell command spawned for a step, or a copy of configuration paths. */
  datatype Event =
    | Spawned(step: Step, inv: Invocation)
    | Copied(sources: seq<Path>, dest: Path)
  {
    function StepOf(): Step
    {
      if Spawned? then step else CopyConfigs
    }
  }

  /** The placeholders and their values: the name and the resolved directory as displayed. */
  function Placeholders(name: string, dir: Path): Substitutions
  {
    [(NameKey, name), (DirKey, Display(dir))]
  }

  /** The command template configured for a spawned step. */
  function CommandOf(cfg: Config, s: Step): string
  {
    match s
    case RepoExists => cfg.repoExistsCmd
    case RepoCreate => cfg.repoCreateCmd
    case RepoClone => cfg.repoCloneCmd
    case ProjectInit => cfg.projectInitCmd
    case CopyConfigs => ""
    case ProjectTest => cfg.projectTestCmd
    case RepoAdd => cfg.repoAddArgs
    case RepoCommit => cfg.repoCommitArgs
    case RepoPush => cfg.repoPushArgs
  }

  /** The context attached to a failing step's error. */
  function Context(s: Step): Option<string>
  {
    match s
    case RepoExists => None
    case RepoCreate => Some("Failed to create repository")
    case RepoClone => Some("Failed to clone repository")
    case ProjectInit => Some("Failed to initialize the project")
    case CopyConfigs => Some("Failed to copy configuration files")
    case ProjectTest => Some("Failed to test the project")
    case RepoAdd => Some("Failed to add files for commit")
    case RepoCommit => Some("Failed to commit changes")
    case RepoPush => Some("Failed to push changes")
  }

  /** `copy_configs_from` joined with each configured path, in order. */
  function ConfigPaths(from: Path, configs: seq<string>): (r: seq<Path>)
    ensures |r| == |configs|
    ensures forall i :: 0 <= i < |configs| ==> r[i] == Join(from, configs[i])
  {
    if configs == [] then [] else [Join(from, configs[0])] + ConfigPaths(from, configs[1..])
  }

  /** What a run has learnt before its effects start: the directories and the three existence checks. */
  datatype Facts = Facts(cur: Path, dir: Path, repoFound: bool, dirExists: bool, cargoTomlExists: bool)

  /** The step after `s`; `RepoPush` is the last. */
  function Succ(s: Step): (t: Step)
    requires s != RepoPush
    ensures Rank(t) == Rank(s) + 1
  {
    match s
    case RepoExists => RepoCreate
    case RepoCreate => RepoClone
    case RepoClone => ProjectInit
    case ProjectInit => CopyConfigs
    case CopyConfigs => ProjectTest
    case ProjectTest => RepoAdd
    case RepoAdd => RepoCommit
    case RepoCommit => RepoPush
  }

  /** The skip rules: whether step `s` takes place. */
  predicate Runs(cfg: Config, f: Facts, s: Step)
  {
    match s
    case RepoCreate => !f.repoFound
    case RepoClone => !f.dirExists
    case ProjectInit => !f.cargoTomlExists
    case CopyConfigs => cfg.copyConfigsFrom.Some?
    case _ => true
  }

  /** The effect of step `s`: a copy for `CopyConfigs`, otherwise its command run through the shell. */
  function EventOf(cfg: Config, f: Facts, s: Step): (e: Event)
    ensures e.StepOf() == s
  {
    if s == CopyConfigs then
      Copied(ConfigPaths(cfg.copyConfigsFrom.UnwrapOr([]), cfg.configs), f.dir)
    else
      var cwd := if Rank(s) <= Rank(RepoClone) then f.cur else f.dir;
      Spawned(s, Invocation(cfg.shellCmd, ["-c"], ReplaceArgs([CommandOf(cfg, s)], Placeholders(cfg.name, f.dir)), cwd))
  }

  /** The events of the steps from `s` on that take place, in step order. */
  function PlanFrom(cfg: Config, f: Facts, s: Step): seq<Event>
    decreases 8 - Rank(s)
  {
    (if Runs(cfg, f, s) then [EventOf(cfg, f, s)] else [])
    + (if s == RepoPush then [] else PlanFrom(cfg, f, Succ(s)))
  }

  /** Every event a run performs when no step fails. */
  function Plan(cfg: Config, f: Facts): seq<Event>
  {
    PlanFrom(cfg, f, RepoExists)
  }

  /** The probe reports the repository as present: it ran and exited successfully. */
  predicate RepoFound(env: Env)
  {
    SuccessRaw(env.spawn(RepoExists)) == Ok(true)
  }

  /** The facts of a run in `env`, once the current directory is known. */
  function FactsOf(cfg: Config, env: Env): Facts
    requires env.currentDir.Ok?
  {
    var cur := env.currentDir.value;
    var dir := ResolveDir(cfg.dir, cfg.workspace, cur, cfg.name);
    Facts(cur, dir, RepoFound(env), env.pathExists(dir), env.pathExists(Join(dir, "Cargo.toml")))
  }

  /** An event went through: the probe ran at all, any other command exited successfully, the copy completed. */
  predicate Succeeded(env: Env, e: Event)
  {
    match e
    case Copied(_, _) => env.copy.Ok?
    case Spawned(s, _) =>
      if s == RepoExists then env.spawn(s).Ok? else ExecRaw(env.spawn(s)).Ok?
  }

  /** The error `run` returns when event `e` fails. */
  function FailureOf(env: Env, e: Event): RunError
    requires !Succeeded(env, e)
  {
    match e
    case Copied(_, _) => RunError(Context(CopyConfigs), Copy(env.copy.error))
    case Spawned(s, _) =>
      if s == RepoExists then RunError(None, Io(env.spawn(s).error))
      else RunError(Context(s), Io(ExecRaw(env.spawn(s)).error))
  }

  predicate AllSucceeded(env: Env, events: seq<Event>)
  {
    forall i :: 0 <= i < |events| ==> Succeeded(env, events[i])
  }

  /**
   * How a run went, measured against its plan: it performed a non-empty
   * prefix of the plan, every event but the last went through, it returned
   * `Ok` exactly when the whole plan went through, and otherwise the error of
   * the last event performed, which failed.
   */
  predicate FollowedPlan(plan: seq<Event>, env: Env, executed: seq<Event>, result: Result<(), RunError>)
  {
    && 0 < |executed| <= |plan|
    && executed == plan[..|executed|]
    && AllSucceeded(env, executed[..|executed| - 1])
    && (result.Ok? <==> executed == plan && Succeeded(env, executed[|executed| - 1]))
    && (result.Err? ==>
          !Succeeded(env, executed[|executed| - 1])
          && result.error == FailureOf(env, executed[|executed| - 1]))
  }

  lemma Associative<T>(a: seq<T>, b: seq<T>, c: seq<T>)
    ensures a + (b + c) == (a + b) + c
  {
  }

  /** A run that stops at its first failing event followed the plan. */
  lemma StopAt(plan: seq<Event>, env: Env, done: seq<Event>, e: Event, rest: seq<Event>)
    requires plan == done + [e] + rest
    requires AllSucceeded(env, done) && !Succeeded(env, e)
    ensures FollowedPlan(plan, env, done + [e], Err(FailureOf(env, e)))
  {
    assert (done + [e])[..|done|] == done;
    assert plan[..|done| + 1] == done + [e];
  }

  /** Extending a run whose events all went through by one more that did. */
  lemma Extend(env: Env, done: seq<Event>, e: Event)
    requires AllSucceeded(env, done) && Succeeded(env, e)
    ensures AllSucceeded(env, done + [e])
  {
  }

  /** A run whose every planned event went through followed the plan. */
  lemma Completed(plan: seq<Event>, env: Env)
    requires plan != [] && AllSucceeded(env, plan)
    ensures FollowedPlan(plan, env, plan, Ok(()))
  {
  }

  /** The plan still ahead once the run is past step `s`. */
  function PlanAfter(cfg: Config, f: Facts, s: Step): seq<Event>
  {
    if s == RepoPush then [] else PlanFrom(cfg, f, Succ(s))
  }

  /** A step that the skip rules leave out adds nothing to the plan. */
  lemma Skip(cfg: Config, f: Facts, s: Step)
    requires !Runs(cfg, f, s)
    ensures PlanFrom(cfg, f, s) == PlanAfter(cfg, f, s)
  {
  }

  /**
   * One `if cond { exec(..).context(..)?; }` of `run`: when `enabled`, spawn
   * the shell for step `s` and either carry on with the event recorded or end
   * the run with its error; otherwise skip the step.
   */
  method ExecStep(cfg: Config, env: Env, f: Facts, s: Step, enabled: bool, cwd: Path,
                  ghost plan: seq<Event>, done: seq<Event>)
    returns (executed: seq<Event>, failure: Option<RunError>)
    requires s != RepoExists && s != CopyConfigs && enabled == Runs(cfg, f, s)
    requires cwd == (if Rank(s) <= Rank(RepoClone) then f.cur else f.dir)
    requires plan == done + PlanFrom(cfg, f, s) && AllSucceeded(env, done)
    ensures failure.None? ==> plan == executed + PlanAfter(cfg, f, s) && AllSucceeded(env, executed)
    ensures !enabled ==> failure.None?
    ensures failure.Some? ==> enabled && FollowedPlan(plan, env, executed, Err(failure.value))
  {
    if !enabled {
      Skip(cfg, f, s);
      executed, failure := done, None;
      return;
    }
    var out := Exec(cfg.shellCmd, ["-c"], [CommandOf(cfg, s)], cwd, Placeholders(cfg.name, f.dir), env.spawn(s));
    var e := Spawned(s, out.0);
    assert e == EventOf(cfg, f, s);
    assert PlanFrom(cfg, f, s) == [e] + PlanAfter(cfg, f, s);
    Associative(done, [e], PlanAfter(cfg, f, s));
    executed := done + [e];
    if out.1.Err? {
      StopAt(plan, env, done, e, PlanAfter(cfg, f, s));
      failure := Some(RunError(Context(s), Io(out.1.error)));
    } else {
      Extend(env, done, e);
      failure := None;
    }
  }

  /**
   * The `if let Some(copy_configs_from)` block of `run`: copy the configured
   * paths into the directory, or skip the step when no source is given.
   */
  method CopyStep(cfg: Config, env: Env, f: Facts, ghost plan: seq<Event>, done: seq<Event>)
    returns (executed: seq<Event>, failure: Option<RunError>)
    requires plan == done + PlanFrom(cfg, f, CopyConfigs) && AllSucceeded(env, done)
    ensures failure.None? ==> plan == executed + PlanAfter(cfg, f, CopyConfigs) && AllSucceeded(env, executed)
    ensures failure.None? && cfg.copyConfigsFrom.Some? ==> executed == done + [EventOf(cfg, f, CopyConfigs)]
    ensures cfg.copyConfigsFrom.None? ==> failure.None? && executed == done
    ensures failure.Some? ==> cfg.copyConfigsFrom.Some? && FollowedPlan(plan, env, executed, Err(failure.value))
  {
    if cfg.copyConfigsFrom.None? {
      Skip(cfg, f, CopyConfigs);
      executed, failure := done, None;
      return;
    }
    var paths := ConfigPaths(cfg.copyConfigsFrom.value, cfg.configs);
    var e := Copied(paths, f.dir);
    assert PlanFrom(cfg, f, CopyConfigs) == [e] + PlanAfter(cfg, f, CopyConfigs);
    Associative(done, [e], PlanAfter(cfg, f, CopyConfigs));
    executed := done + [e];
    if env.copy.Err? {
      StopAt(plan, env, done, e, PlanAfter(cfg, f, CopyConfigs));
      failure := Some(RunError(Context(CopyConfigs), Copy(env.copy.error)));
    } else {
      Extend(env, done, e);
      failure := None;
    }
  }

  /**
   * The probe at the start of `run`: ask whether the repository exists. Only
   * a failure to run the probe ends the run; an unsuccessful exit means "no".
   */
  method ProbeStep(cfg: Config, env: Env, f: Facts, ghost plan: seq<Event>)
    returns (executed: seq<Event>, found: Result<bool, RunError>)
    requires plan == Plan(cfg, f) && f.repoFound == RepoFound(env)
    ensures found.Ok? ==>
      found.value == f.repoFound && executed == [EventOf(cfg, f, RepoExists)]
      && plan == executed + PlanAfter(cfg, f, RepoExists) && AllSucceeded(env, executed)
    ensures found.Err? ==> FollowedPlan(plan, env, executed, Err(found.error))
  {
    var probe := Succeeds(cfg.shellCmd, ["-c"], [CommandOf(cfg, RepoExists)], f.cur,
                          Placeholders(cfg.name, f.dir), env.spawn(RepoExists));
    var e := Spawned(RepoExists, probe.0);
    assert e == EventOf(cfg, f, RepoExists);
    assert plan == [e] + PlanAfter(cfg, f, RepoExists);
    executed := [e];
    if probe.1.Err? {
      assert [] + [e] == [e];
      StopAt(plan, env, [], e, PlanAfter(cfg, f, RepoExists));
      found := Err(RunError(None, Io(probe.1.error)));
    } else {
      found := Ok(probe.1.value);
    }
  }

  /**
   * The three guarded steps of `run` that set the project up: create the
   * repository unless the probe found it, clone it unless the directory
   * exists, initialise the crate unless `Cargo.toml` exists.
   */
  method Prepare(cfg: Config, env: Env, f: Facts, repoFound: bool, ghost plan: seq<Event>, done: seq<Event>)
    returns (executed: seq<Event>, failure: Option<RunError>)
    requires repoFound == f.repoFound
    requires f.dirExists == env.pathExists(f.dir) && f.cargoTomlExists == env.pathExists(Join(f.dir, "Cargo.toml"))
    requires plan == done + PlanFrom(cfg, f, RepoCreate) && AllSucceeded(env, done)
    ensures failure.None? ==> plan == executed + PlanFrom(cfg, f, CopyConfigs) && AllSucceeded(env, executed)
    ensures failure.Some? ==> FollowedPlan(plan, env, executed, Err(failure.value))
  {
    executed, failure := ExecStep(cfg, env, f, RepoCreate, !repoFound, f.cur, plan, done);
    if failure.Some? { return; }
    executed, failure := ExecStep(cfg, env, f, RepoClone, !env.pathExists(f.dir), f.cur, plan, executed);
    if failure.Some? { return; }
    executed, failure := ExecStep(cfg, env, f, ProjectInit, !env.pathExists(Join(f.dir, "Cargo.toml")), f.dir, plan, executed);
  }

  /** The four unconditional steps at the end of `run`: test, add, commit, push. */
  method Publish(cfg: Config, env: Env, f: Facts, ghost plan: seq<Event>, done: seq<Event>)
    returns (executed: seq<Event>, failure: Option<RunError>)
    requires plan == done + PlanFrom(cfg, f, ProjectTest) && AllSucceeded(env, done)
    ensures failure.None? ==> executed == plan && AllSucceeded(env, executed)
    ensures failure.Some? ==> FollowedPlan(plan, env, executed, Err(failure.value))
  {
    executed, failure := ExecStep(cfg, env, f, ProjectTest, true, f.dir, plan, done);
    if failure.Some? { return; }
    executed, failure := ExecStep(cfg, env, f, RepoAdd, true, f.dir, plan, executed);
    if failure.Some? { return; }
    executed, failure := CommitAndPush(cfg, env, f, plan, executed);
  }

  /** The last two steps of `run`: commit, then push. */
  method CommitAndPush(cfg: Config, env: Env, f: Facts, ghost plan: seq<Event>, done: seq<Event>)
    returns (executed: seq<Event>, failure: Option<RunError>)
    requires plan == done + PlanFrom(cfg, f, RepoCommit) && AllSucceeded(env, done)
    ensures failure.None? ==> executed == plan && AllSucceeded(env, executed)
    ensures failure.Some? ==> FollowedPlan(plan, env, executed, Err(failure.value))
  {
    executed, failure := ExecStep(cfg, env, f, RepoCommit, true, f.dir, plan, done);
    if failure.Some? { return; }
    executed, failure := ExecStep(cfg, env, f, RepoPush, true, f.dir, plan, executed);
    if failure.None? {
      assert executed + [] == executed;
    }
  }

  /**
   * `CreateRustGithubRepo::run`. `executed` lists the effects in the order
   * they happen. The run performs its plan up to and including the first
   * failing event; it returns `Ok` exactly when the whole plan went through.
   */
  method Run(cfg: Config, env: Env) returns (result: Result<(), RunError>, executed: seq<Event>)
    ensures env.currentDir.Err? ==>
      executed == [] && result == Err(RunError(None, Io(env.currentDir.error)))
    ensures env.currentDir.Ok? ==> FollowedPlan(Plan(cfg, FactsOf(cfg, env)), env, executed, result)
  {
    executed := [];
    if env.currentDir.Err? {
      result := Err(RunError(None, Io(env.currentDir.error)));
      return;
    }
    var f := FactsOf(cfg, env);
    ghost var plan := Plan(cfg, f);
    var failure: Option<RunError>;

    var repoExists;
    executed, repoExists := ProbeStep(cfg, env, f, plan);
    if repoExists.Err? { result := Err(repoExists.error); return; }

    executed, failure := Prepare(cfg, env, f, repoExists.value, plan, executed);
    if failure.Some? { result := Err(failure.value); return; }

    executed, failure := CopyStep(cfg, env, f, plan, executed);
    if failure.Some? { result := Err(failure.value); return; }

    executed, failure := Publish(cfg, env, f, plan, executed);
    if failure.Some? { result := Err(failure.value); return; }

    Completed(plan, env);
    result := Ok(());
  }

  /** Every rank belongs to exactly one step. */
  lemma RankInjective(s: Step, t: Step)
    requires Rank(s) == Rank(t)
    ensures s == t
  {
  }

  /** Each event of the plan from `s0` on is the event of a step from `s0` on that the skip rules let through. */
  lemma {:induction false} PlanFromSound(cfg: Config, f: Facts, s0: Step)
    ensures forall e :: e in PlanFrom(cfg, f, s0) ==>
      Rank(s0) <= Rank(e.StepOf()) && Runs(cfg, f, e.StepOf()) && e == EventOf(cfg, f, e.StepOf())
    decreases 8 - Rank(s0)
  {
    if s0 != RepoPush {
      PlanFromSound(cfg, f, Succ(s0));
    }
  }

  /** Each step from `s0` on that the skip rules let through has its event in the plan from `s0` on. */
  lemma {:induction false} PlanFromComplete(cfg: Config, f: Facts, s0: Step)
    ensures forall s :: Rank(s0) <= Rank(s) && Runs(cfg, f, s) ==> EventOf(cfg, f, s) in PlanFrom(cfg, f, s0)
    decreases 8 - Rank(s0)
  {
    var head := if Runs(cfg, f, s0) then [EventOf(cfg, f, s0)] else [];
    var plan := PlanFrom(cfg, f, s0);
    if s0 == RepoPush {
      assert plan == head;
      forall s | Rank(s0) <= Rank(s) && Runs(cfg, f, s)
        ensures EventOf(cfg, f, s) in plan
      {
        RankInjective(s, s0);
      }
    } else {
      var tail := PlanFrom(cfg, f, Succ(s0));
      PlanFromComplete(cfg, f, Succ(s0));
      assert plan == head + tail;
      forall s | Rank(s0) <= Rank(s) && Runs(cfg, f, s)
        ensures EventOf(cfg, f, s) in plan
      {
        if Rank(s) == Rank(s0) {
          RankInjective(s, s0);
        }
      }
    }
  }

  /** Events whose steps come in strictly increasing order. */
  predicate Ordered(events: seq<Event>)
  {
    forall i, j :: 0 <= i < j < |events| ==> Rank(events[i].StepOf()) < Rank(events[j].StepOf())
  }

  /** Two ordered runs of events, all steps of the first before rank `r` and of the second from it on, concatenate in order. */
  lemma ConcatOrdered(head: seq<Event>, tail: seq<Event>, r: nat)
    requires forall e :: e in head ==> Rank(e.StepOf()) < r
    requires forall e :: e in tail ==> r <= Rank(e.StepOf())
    requires Ordered(head) && Ordered(tail)
    ensures Ordered(head + tail)
  {
    var all := head + tail;
    forall i, j | 0 <= i < j < |all|
      ensures Rank(all[i].StepOf()) < Rank(all[j].StepOf())
    {
      if j < |head| {
        assert all[i] == head[i] && all[j] == head[j];
      } else if i < |head| {
        assert all[i] == head[i] && head[i] in head;
        assert all[j] == tail[j - |head|] && tail[j - |head|] in tail;
      } else {
        assert all[i] == tail[i - |head|] && all[j] == tail[j - |head|];
      }
    }
  }

  /** The plan from `s0` on follows the step order of `run`. */
  lemma {:induction false} PlanFromOrdered(cfg: Config, f: Facts, s0: Step)
    ensures Ordered(PlanFrom(cfg, f, s0))
    decreases 8 - Rank(s0)
  {
    if s0 != RepoPush {
      var tail := PlanFrom(cfg, f, Succ(s0));
      PlanFromOrdered(cfg, f, Succ(s0));
      if Runs(cfg, f, s0) {
        OrderedCons(cfg, f, s0);
      } else {
        SkipTo(cfg, f, s0);
      }
    }
  }

  /** A step that takes place, put before the ordered plan of the steps after it, keeps the order. */
  lemma OrderedCons(cfg: Config, f: Facts, s0: Step)
    requires s0 != RepoPush && Runs(cfg, f, s0) && Ordered(PlanFrom(cfg, f, Succ(s0)))
    ensures Ordered(PlanFrom(cfg, f, s0))
  {
    var e, tail := EventOf(cfg, f, s0), PlanFrom(cfg, f, Succ(s0));
    PlanFromSound(cfg, f, Succ(s0));
    assert forall x :: x in [e] ==> x == e;
    Unfold(cfg, f, s0);
    ConcatOrdered([e], tail, Rank(Succ(s0)));
  }

  /**
   * The plan of a run: the probe comes first; a step's event is in the plan
   * exactly when the skip rules let the step through; every event is the
   * event of its own step; and the steps follow the order of `run`.
   */
  lemma PlanSteps(cfg: Config, f: Facts)
    ensures Plan(cfg, f) != [] && Plan(cfg, f)[0] == EventOf(cfg, f, RepoExists)
    ensures forall s :: EventOf(cfg, f, s) in Plan(cfg, f) <==> Runs(cfg, f, s)
    ensures forall e :: e in Plan(cfg, f) ==> e == EventOf(cfg, f, e.StepOf())
    ensures Ordered(Plan(cfg, f))
  {
    PlanFromSound(cfg, f, RepoExists);
    PlanFromComplete(cfg, f, RepoExists);
    PlanFromOrdered(cfg, f, RepoExists);
  }

  /**
   * The skip rules of `run` as they show in the plan: create only when the
   * probe did not find the repository, clone only when the directory is
   * missing, initialise only when `Cargo.toml` is missing, copy only when a
   * source is given; the probe, test, add, commit and push always happen.
   */
  lemma PlanSkipRules(cfg: Config, f: Facts)
    ensures EventOf(cfg, f, RepoCreate) in Plan(cfg, f) <==> !f.repoFound
    ensures EventOf(cfg, f, RepoClone) in Plan(cfg, f) <==> !f.dirExists
    ensures EventOf(cfg, f, ProjectInit) in Plan(cfg, f) <==> !f.cargoTomlExists
    ensures EventOf(cfg, f, CopyConfigs) in Plan(cfg, f) <==> cfg.copyConfigsFrom.Some?
  {
    PlanSteps(cfg, f);
    assert Runs(cfg, f, RepoCreate) == !f.repoFound;
    assert Runs(cfg, f, RepoClone) == !f.dirExists;
    assert Runs(cfg, f, ProjectInit) == !f.cargoTomlExists;
  }

  /** The probe, test, add, commit and push are in every plan. */
  lemma PlanAlwaysRuns(cfg: Config, f: Facts)
    ensures EventOf(cfg, f, RepoExists) in Plan(cfg, f) && EventOf(cfg, f, ProjectTest) in Plan(cfg, f)
    ensures EventOf(cfg, f, RepoAdd) in Plan(cfg, f) && EventOf(cfg, f, RepoCommit) in Plan(cfg, f)
    ensures EventOf(cfg, f, RepoPush) in Plan(cfg, f)
  {
    Unfold(cfg, f, RepoExists);
    PlanFromComplete(cfg, f, ProjectTest);
    assert Runs(cfg, f, ProjectTest) && Runs(cfg, f, RepoAdd) && Runs(cfg, f, RepoCommit) && Runs(cfg, f, RepoPush);
    PlanFromSuffix(cfg, f, RepoCreate, ProjectTest);
  }

  /** The plan from a step on ends with the plan from any later step on. */
  lemma {:induction false} PlanFromSuffix(cfg: Config, f: Facts, s: Step, t: Step)
    requires Rank(s) <= Rank(t)
    ensures forall e :: e in PlanFrom(cfg, f, t) ==> e in PlanFrom(cfg, f, s)
    decreases Rank(t) - Rank(s)
  {
    if s != t {
      PlanFromSuffix(cfg, f, Succ(s), t);
      assert PlanFrom(cfg, f, s) == (if Runs(cfg, f, s) then [EventOf(cfg, f, s)] else []) + PlanFrom(cfg, f, Succ(s));
    }
  }

  /**
   * Every command of the plan runs `shell_cmd -c <command>`, with the
   * step's configured command after substitution as the one argument after
   * `-c`.
   */
  lemma PlanCommands(cfg: Config, f: Facts)
    ensures forall e :: e in Plan(cfg, f) && e.Spawned? ==>
      && e.inv.program == cfg.shellCmd
      && e.inv.args == ["-c"]
      && e.inv.extraArgs == [Substitute(CommandOf(cfg, e.step), Placeholders(cfg.name, f.dir))]
  {
    PlanFromSound(cfg, f, RepoExists);
    forall e | e in Plan(cfg, f) && e.Spawned?
      ensures e.inv.extraArgs == [Substitute(CommandOf(cfg, e.step), Placeholders(cfg.name, f.dir))]
    {
      var args := ReplaceArgs([CommandOf(cfg, e.step)], Placeholders(cfg.name, f.dir));
      assert e.inv.extraArgs == args;
    }
  }

  /** The probe, create and clone run in the current directory; the later commands in the resolved directory. */
  lemma PlanWorkingDirs(cfg: Config, f: Facts)
    ensures forall e :: e in Plan(cfg, f) && e.Spawned? && Rank(e.step) <= Rank(RepoClone) ==> e.inv.cwd == f.cur
    ensures forall e :: e in Plan(cfg, f) && e.Spawned? && Rank(RepoClone) < Rank(e.step) ==> e.inv.cwd == f.dir
  {
    PlanFromSound(cfg, f, RepoExists);
  }

  /** The copy takes `copy_configs_from` joined with each config path, into the resolved directory. */
  lemma PlanCopy(cfg: Config, f: Facts)
    ensures forall e :: e in Plan(cfg, f) && e.Copied? ==>
      && cfg.copyConfigsFrom.Some?
      && e.sources == ConfigPaths(cfg.copyConfigsFrom.value, cfg.configs)
      && e.dest == f.dir
  {
    PlanFromSound(cfg, f, RepoExists);
  }

  /** The events of the four unconditional steps that end `run`: test, add, commit, push. */
  function Publishing(cfg: Config, f: Facts): seq<Event>
  {
    [EventOf(cfg, f, ProjectTest), EventOf(cfg, f, RepoAdd), EventOf(cfg, f, RepoCommit), EventOf(cfg, f, RepoPush)]
  }

  /** Whatever the facts, every plan ends with the four unconditional steps. */
  lemma PlanEndsWithPublishing(cfg: Config, f: Facts)
    ensures PlanFrom(cfg, f, ProjectTest) == Publishing(cfg, f)
  {
    PlanFromAdd(cfg, f);
    Unfold(cfg, f, ProjectTest);
  }

  /** The plan from the add step on: add, commit, push. */
  lemma PlanFromAdd(cfg: Config, f: Facts)
    ensures PlanFrom(cfg, f, RepoAdd) == [EventOf(cfg, f, RepoAdd), EventOf(cfg, f, RepoCommit), EventOf(cfg, f, RepoPush)]
  {
    PlanFromCommit(cfg, f);
    Unfold(cfg, f, RepoAdd);
  }

  /** The plan from the commit step on: commit, push. */
  lemma PlanFromCommit(cfg: Config, f: Facts)
    ensures PlanFrom(cfg, f, RepoCommit) == [EventOf(cfg, f, RepoCommit), EventOf(cfg, f, RepoPush)]
  {
    Unfold(cfg, f, RepoCommit);
    assert PlanFrom(cfg, f, RepoPush) == [EventOf(cfg, f, RepoPush)];
  }

  /** A step that the skip rules let through heads the plan from it on. */
  lemma Unfold(cfg: Config, f: Facts, s: Step)
    requires s != RepoPush && Runs(cfg, f, s)
    ensures PlanFrom(cfg, f, s) == [EventOf(cfg, f, s)] + PlanFrom(cfg, f, Succ(s))
  {
  }

  /**
   * A rerun over a repository that exists, is cloned and is initialised
   * probes, copies if asked, and then only tests, adds, commits and pushes.
   */
  lemma RerunPlan(cfg: Config, f: Facts)
    requires f.repoFound && f.dirExists && f.cargoTomlExists
    ensures cfg.copyConfigsFrom.None? ==> Plan(cfg, f) == [EventOf(cfg, f, RepoExists)] + Publishing(cfg, f)
    ensures cfg.copyConfigsFrom.Some? ==>
      Plan(cfg, f) == [EventOf(cfg, f, RepoExists), EventOf(cfg, f, CopyConfigs)] + Publishing(cfg, f)
  {
    RerunSkipsSetup(cfg, f);
    PlanFromCopy(cfg, f);
    if cfg.copyConfigsFrom.Some? {
      var probe, copy := EventOf(cfg, f, RepoExists), EventOf(cfg, f, CopyConfigs);
      assert [probe] + ([copy] + Publishing(cfg, f)) == [probe, copy] + Publishing(cfg, f);
    }
  }

  /** Whatever the facts, the plan from the copy step on: the copy when a source is given, then the four unconditional steps. */
  lemma PlanFromCopy(cfg: Config, f: Facts)
    ensures cfg.copyConfigsFrom.None? ==> PlanFrom(cfg, f, CopyConfigs) == Publishing(cfg, f)
    ensures cfg.copyConfigsFrom.Some? ==> PlanFrom(cfg, f, CopyConfigs) == [EventOf(cfg, f, CopyConfigs)] + Publishing(cfg, f)
  {
    PlanEndsWithPublishing(cfg, f);
    if cfg.copyConfigsFrom.Some? {
      Unfold(cfg, f, CopyConfigs);
    } else {
      SkipTo(cfg, f, CopyConfigs);
    }
  }

  /** With the repository, the clone and `Cargo.toml` all present, the probe is followed directly by the copy step. */
  lemma RerunSkipsSetup(cfg: Config, f: Facts)
    requires f.repoFound && f.dirExists && f.cargoTomlExists
    ensures Plan(cfg, f) == [EventOf(cfg, f, RepoExists)] + PlanFrom(cfg, f, CopyConfigs)
  {
    Unfold(cfg, f, RepoExists);
    SkipTo(cfg, f, RepoCreate);
    SkipTo(cfg, f, RepoClone);
    SkipTo(cfg, f, ProjectInit);
  }

  /** A step that the skip rules leave out contributes nothing before the next step. */
  lemma SkipTo(cfg: Config, f: Facts, s: Step)
    requires s != RepoPush && !Runs(cfg, f, s)
    ensures PlanFrom(cfg, f, s) == PlanFrom(cfg, f, Succ(s))
  {
  }

  /**
   * Whatever the environment, a run that pushes has run the tests first,
   * and they passed: the push comes after the test in the plan and only the
   * last event of a run may fail.
   */
  lemma PushOnlyAfterTestsPass(cfg: Config, f: Facts, env: Env, executed: seq<Event>, result: Result<(), RunError>)
    requires FollowedPlan(Plan(cfg, f), env, executed, result)
    requires EventOf(cfg, f, RepoPush) in executed
    ensures EventOf(cfg, f, ProjectTest) in executed
    ensures Succeeded(env, EventOf(cfg, f, ProjectTest))
  {
    PlanAlwaysRuns(cfg, f);
    PlanFromOrdered(cfg, f, RepoExists);
    EarlierStepSucceeded(Plan(cfg, f), env, executed, result, EventOf(cfg, f, ProjectTest), EventOf(cfg, f, RepoPush));
  }

  /**
   * In a run that followed an ordered plan, the planned event of a step
   * earlier than one performed was performed too, and went through.
   */
  lemma EarlierStepSucceeded(plan: seq<Event>, env: Env, executed: seq<Event>, result: Result<(), RunError>, a: Event, b: Event)
    requires FollowedPlan(plan, env, executed, result) && Ordered(plan)
    requires a in plan && b in executed && Rank(a.StepOf()) < Rank(b.StepOf())
    ensures a in executed && Succeeded(env, a)
  {
    var k :| 0 <= k < |executed| && executed[k] == b;
    var j :| 0 <= j < |plan| && plan[j] == a;
    assert plan[k] == b;
    assert executed[..|executed| - 1][j] == executed[j];
  }

  /** `run`'s errors carry the context of the step that failed; only the probe's has none. */
  lemma FailureContext(env: Env, e: Event)
    requires !Succeeded(env, e)
    ensures FailureOf(env, e).context == Context(e.StepOf())
    ensures FailureOf(env, e).context.None? <==> e.StepOf() == RepoExists
  {
  }

  /** The two placeholders never start one another, so no list order of them matters. */
  lemma PlaceholdersUnambiguous(name: string, dir: Path)
    ensures Unambiguous(Placeholders(name, dir))
  {
    assert NameKey[2] == 'n' && DirKey[2] == 'd';
  }

  /** Both placeholders start with an opening brace. */
  lemma PlaceholdersOpenWithBrace(name: string, dir: Path)
    ensures forall p :: p in Placeholders(name, dir) ==> p.0 != [] && p.0[0] == '{'
  {
    assert NameKey[0] == '{' && DirKey[0] == '{';
  }

  /** Text without an opening brace passes through the substitution of the placeholders unchanged. */
  lemma PlainPrefix(a: string, t: string, name: string, dir: Path)
    requires '{' !in a
    ensures Substitute(a + t, Placeholders(name, dir)) == a + Substitute(t, Placeholders(name, dir))
  {
    PlaceholdersOpenWithBrace(name, dir);
    SubstitutePlain(a, t, Placeholders(name, dir));
  }

  /**
   * Under the corrected substitution, the `HashMap` of `run` has no order:
   * substituting it in either order of its two entries gives the same
   * command. `replace_all` as written does not have this property
   * (`Template.ReplaceAllDependsOnOrder`).
   */
  lemma PlaceholderOrderIrrelevant(s: string, name: string, dir: Path)
    ensures Substitute(s, Placeholders(name, dir)) == Substitute(s, [(DirKey, Display(dir)), (NameKey, name)])
  {
    var b := [(DirKey, Display(dir)), (NameKey, name)];
    PlaceholdersUnambiguous(name, dir);
    assert NameKey[2] == 'n' && DirKey[2] == 'd';
    SubstituteOrderIndependent(s, Placeholders(name, dir), b);
  }

  /** Brace-free text, then the name placeholder: the text stays and the name replaces the placeholder. */
  lemma SubstituteNameThen(a: string, t: string, name: string, dir: Path)
    requires '{' !in a
    ensures Substitute(a + NameKey + t, Placeholders(name, dir)) == a + name + Substitute(t, Placeholders(name, dir))
  {
    var subs := Placeholders(name, dir);
    PlaceholdersUnambiguous(name, dir);
    assert (NameKey, name) in subs;
    Associative(a, NameKey, t);
    PlainPrefix(a, NameKey + t, name, dir);
    SubstituteKey(NameKey, name, t, subs);
    Associative(a, name, Substitute(t, subs));
  }

  /** Brace-free text alone is left as it is. */
  lemma SubstitutePlainText(b: string, name: string, dir: Path)
    requires '{' !in b
    ensures Substitute(b, Placeholders(name, dir)) == b
  {
    PlainPrefix(b, [], name, dir);
    assert b + [] == b;
  }

  /** Brace-free text ending in the directory placeholder: the text stays and the directory replaces the placeholder. */
  lemma SubstituteDirLast(b: string, name: string, dir: Path)
    requires '{' !in b
    ensures Substitute(b + DirKey, Placeholders(name, dir)) == b + Display(dir)
  {
    PlaceholdersUnambiguous(name, dir);
    PlainPrefix(b, DirKey, name, dir);
    assert DirKey == DirKey + [];
    SubstituteKey(DirKey, Display(dir), [], Placeholders(name, dir));
  }

  /** A template holding the name placeholder between two brace-free texts. */
  lemma SubstituteName(a: string, b: string, name: string, dir: Path)
    requires '{' !in a && '{' !in b
    ensures Substitute(a + NameKey + b, Placeholders(name, dir)) == a + name + b
  {
    SubstituteNameThen(a, b, name, dir);
    SubstitutePlainText(b, name, dir);
  }

  /** A template holding the name and then the directory placeholder between brace-free texts. */
  lemma SubstituteNameDir(a: string, b: string, name: string, dir: Path)
    requires '{' !in a && '{' !in b
    ensures Substitute(a + NameKey + b + DirKey, Placeholders(name, dir)) == a + name + b + Display(dir)
  {
    assert a + NameKey + b + DirKey == a + NameKey + (b + DirKey);
    SubstituteNameThen(a, b + DirKey, name, dir);
    SubstituteDirLast(b, name, dir);
  }

  /** Under the corrected substitution, the default clone command becomes `gh repo clone <name> <dir>`, whatever the name and directory hold. */
  lemma DefaultCloneCommand(name: string, dir: Path)
    ensures Substitute(DefaultConfig(name).repoCloneCmd, Placeholders(name, dir))
      == "gh repo clone " + name + " " + Display(dir)
  {
    SubstituteNameDir("gh repo clone ", " ", name, dir);
  }

  /** Under the corrected substitution, the default create command creates a repository with the default visibility's flag. */
  lemma DefaultCreateCommand(name: string, dir: Path)
    ensures Substitute(DefaultConfig(name).repoCreateCmd, Placeholders(name, dir))
      == "gh repo create " + ToGhCreateRepoFlag(DefaultVisibility) + " " + name
  {
    SubstituteName("gh repo create --private ", "", name, dir);
    DefaultCreateFlag();
  }

  /** The literal create command carries the flag of the default visibility. */
  lemma DefaultCreateFlag()
    ensures "gh repo create " + ToGhCreateRepoFlag(DefaultVisibility) + " " == "gh repo create --private "
  {
    assert ToGhCreateRepoFlag(DefaultVisibility) == "--private";
  }

  /** Under the corrected substitution, the default probe asks `gh` about the repository by name, discarding its error output. */
  lemma DefaultProbeCommand(name: string, dir: Path)
    ensures Substitute(DefaultConfig(name).repoExistsCmd, Placeholders(name, dir))
      == "gh repo view --json nameWithOwner " + name + " 2>/dev/null"
  {
    SubstituteName("gh repo view --json nameWithOwner ", " 2>/dev/null", name, dir);
  }

  /** Text without an opening brace is untouched by replacing either placeholder, and holds neither. */
  lemma FixedText(w: string, value: string)
    requires '{' !in w
    ensures Replace(w, NameKey, value) == w && Replace(w, DirKey, value) == w
    ensures !Contains(w, NameKey) && !Contains(w, DirKey)
  {
    assert NameKey[0] == '{' && DirKey[0] == '{';
    ReplaceMissingChar(w, NameKey, value, '{');
    ReplaceMissingChar(w, DirKey, value, '{');
  }

  /** Neither placeholder is empty or holds a space. */
  lemma PlaceholdersHaveNoSpace()
    ensures NameKey != [] && ' ' !in NameKey && DirKey != [] && ' ' !in DirKey
  {
  }

  /** Replacing the name placeholder replaces it where it stands and leaves the directory placeholder alone. */
  lemma ReplaceNameKey(v: string)
    ensures Replace(NameKey, NameKey, v) == v && Replace(DirKey, NameKey, v) == DirKey
  {
    ReplaceWholeKey(NameKey, v);
    ReplaceMissingChar(DirKey, NameKey, v, 'n');
  }

  /** Replacing the directory placeholder replaces it where it stands and leaves the name placeholder alone. */
  lemma ReplaceDirKey(v: string)
    ensures Replace(DirKey, DirKey, v) == v && Replace(NameKey, DirKey, v) == NameKey
  {
    ReplaceWholeKey(DirKey, v);
    ReplaceMissingChar(NameKey, DirKey, v, 'd');
  }

  /**
   * The shape of the default probe and create commands: brace-free text
   * ending in a space, the name placeholder, then brace-free text that is
   * empty or starts with a space. Spaces separate the placeholder from its
   * neighbours, so no replacement can complete or split a key at a seam.
   */
  predicate NameTemplate(t: string, pre: string, post: string)
  {
    && pre != [] && pre[|pre| - 1] == ' ' && '{' !in pre
    && (post == [] || post[0] == ' ') && '{' !in post
    && t == pre + NameKey + post
  }

  /** `replace_all` as written, name entry first, on a `NameTemplate`. */
  lemma NameTemplateNameFirst(t: string, pre: string, post: string, name: string, d: string)
    requires NameTemplate(t, pre, post) && !Contains(name, DirKey)
    ensures ReplaceInOrder(t, [(NameKey, name), (DirKey, d)]) == pre + name + post
  {
    ReplaceInOrderPair(t, (NameKey, name), (DirKey, d));
    PlaceholdersHaveNoSpace();
    ReplaceNameKey(name);
    FixedText(pre, name);
    FixedText(post, name);
    FixedText(pre, d);
    FixedText(post, d);
    ReplaceAround(pre, NameKey, post, NameKey, name);
    ReplaceAround(pre, name, post, DirKey, d);
    ReplaceAbsent(name, DirKey, d);
  }

  /** The same, directory entry first; the name may hold anything. */
  lemma NameTemplateDirFirst(t: string, pre: string, post: string, name: string, d: string)
    requires NameTemplate(t, pre, post)
    ensures ReplaceInOrder(t, [(DirKey, d), (NameKey, name)]) == pre + name + post
  {
    ReplaceInOrderPair(t, (DirKey, d), (NameKey, name));
    PlaceholdersHaveNoSpace();
    ReplaceNameKey(name);
    ReplaceDirKey(d);
    FixedText(pre, name);
    FixedText(post, name);
    FixedText(pre, d);
    FixedText(post, d);
    ReplaceAround(pre, NameKey, post, DirKey, d);
    ReplaceAround(pre, NameKey, post, NameKey, name);
  }

  /**
   * The shape of the default clone command: brace-free text ending in a
   * space, the name placeholder, a space and the directory placeholder.
   */
  predicate NameDirTemplate(t: string, pre: string)
  {
    && pre != [] && pre[|pre| - 1] == ' ' && '{' !in pre
    && t == pre + NameKey + (" " + DirKey)
  }

  /** `replace_all` as written, name entry first, on a `NameDirTemplate`. */
  lemma NameDirTemplateNameFirst(t: string, pre: string, name: string, d: string)
    requires NameDirTemplate(t, pre)
    ensures ReplaceInOrder(t, [(NameKey, name), (DirKey, d)]) == pre + Replace(name, DirKey, d) + (" " + d)
  {
    PlaceholdersHaveNoSpace();
    ReplaceNameKey(name);
    ReplaceDirKey(d);
    FixedText(pre, name);
    FixedText(pre, d);
    SpacedKeysInOrder(t, pre, NameKey, name, DirKey, d);
  }

  /** The same, directory entry first. */
  lemma NameDirTemplateDirFirst(t: string, pre: string, name: string, d: string)
    requires NameDirTemplate(t, pre)
    ensures ReplaceInOrder(t, [(DirKey, d), (NameKey, name)]) == pre + name + (" " + Replace(d, NameKey, name))
  {
    PlaceholdersHaveNoSpace();
    ReplaceNameKey(name);
    ReplaceDirKey(d);
    FixedText(pre, name);
    FixedText(pre, d);
    SpacedKeysReversed(t, pre, NameKey, name, DirKey, d);
  }

  /**
   * `replace_all` as written yields the default clone command
   * `gh repo clone <name> <dir>` in both iteration orders, the command the
   * corrected substitution yields, whenever the name holds no `{{dir}}` and
   * the directory shows no `{{name}}`.
   */
  lemma ReplaceAllCloneCommand(name: string, dir: Path)
    requires !Contains(name, DirKey) && !Contains(Display(dir), NameKey)
    ensures ReplaceInOrder(DefaultConfig(name).repoCloneCmd, Placeholders(name, dir))
         == ReplaceInOrder(DefaultConfig(name).repoCloneCmd, [(DirKey, Display(dir)), (NameKey, name)])
         == Substitute(DefaultConfig(name).repoCloneCmd, Placeholders(name, dir))
         == "gh repo clone " + name + " " + Display(dir)
  {
    var t := DefaultConfig(name).repoCloneCmd;
    assert NameDirTemplate(t, "gh repo clone ");
    NameDirTemplateNameFirst(t, "gh repo clone ", name, Display(dir));
    NameDirTemplateDirFirst(t, "gh repo clone ", name, Display(dir));
    ReplaceAbsent(name, DirKey, Display(dir));
    ReplaceAbsent(Display(dir), NameKey, name);
    Associative("gh repo clone " + name, " ", Display(dir));
    DefaultCloneCommand(name, dir);
  }

  /**
   * A name that is `{{dir}}` makes the two iteration orders disagree on the
   * default clone command: name first clones into the directory twice over,
   * directory first keeps the literal name, as the corrected substitution does.
   */
  lemma CloneNameHoldingDirKey(dir: Path)
    requires !Contains(Display(dir), NameKey)
    ensures ReplaceInOrder(DefaultConfig(DirKey).repoCloneCmd, Placeholders(DirKey, dir))
         == "gh repo clone " + Display(dir) + " " + Display(dir)
    ensures ReplaceInOrder(DefaultConfig(DirKey).repoCloneCmd, [(DirKey, Display(dir)), (NameKey, DirKey)])
         == Substitute(DefaultConfig(DirKey).repoCloneCmd, Placeholders(DirKey, dir))
         == "gh repo clone " + DirKey + " " + Display(dir)
  {
    var t := DefaultConfig(DirKey).repoCloneCmd;
    assert NameDirTemplate(t, "gh repo clone ");
    NameDirTemplateNameFirst(t, "gh repo clone ", DirKey, Display(dir));
    NameDirTemplateDirFirst(t, "gh repo clone ", DirKey, Display(dir));
    ReplaceDirKey(Display(dir));
    ReplaceAbsent(Display(dir), NameKey, DirKey);
    Associative("gh repo clone " + Display(dir), " ", Display(dir));
    Associative("gh repo clone " + DirKey, " ", Display(dir));
    DefaultCloneCommand(DirKey, dir);
  }

  /**
   * `replace_all` as written yields the default create command in both
   * iteration orders, the command the corrected substitution yields,
   * whenever the name holds no `{{dir}}`.
   */
  lemma ReplaceAllCreateCommand(name: string, dir: Path)
    requires !Contains(name, DirKey)
    ensures ReplaceInOrder(DefaultConfig(name).repoCreateCmd, Placeholders(name, dir))
         == ReplaceInOrder(DefaultConfig(name).repoCreateCmd, [(DirKey, Display(dir)), (NameKey, name)])
         == Substitute(DefaultConfig(name).repoCreateCmd, Placeholders(name, dir))
         == "gh repo create --private " + name
  {
    var t := DefaultConfig(name).repoCreateCmd;
    assert NameTemplate(t, "gh repo create --private ", "");
    NameTemplateNameFirst(t, "gh repo create --private ", "", name, Display(dir));
    NameTemplateDirFirst(t, "gh repo create --private ", "", name, Display(dir));
    DefaultCreateCommand(name, dir);
    DefaultCreateFlag();
  }

  /**
   * `replace_all` as written yields the default probe in both iteration
   * orders, the command the corrected substitution yields, whenever the
   * name holds no `{{dir}}`.
   */
  lemma ReplaceAllProbeCommand(name: string, dir: Path)
    requires !Contains(name, DirKey)
    ensures ReplaceInOrder(DefaultConfig(name).repoExistsCmd, Placeholders(name, dir))
         == ReplaceInOrder(DefaultConfig(name).repoExistsCmd, [(DirKey, Display(dir)), (NameKey, name)])
         == Substitute(DefaultConfig(name).repoExistsCmd, Placeholders(name, dir))
         == "gh repo view --json nameWithOwner " + name + " 2>/dev/null"
  {
    var t := DefaultConfig(name).repoExistsCmd;
    assert NameTemplate(t, "gh repo view --json nameWithOwner ", " 2>/dev/null");
    NameTemplateNameFirst(t, "gh repo view --json nameWithOwner ", " 2>/dev/null", name, Display(dir));
    NameTemplateDirFirst(t, "gh repo view --json nameWithOwner ", " 2>/dev/null", name, Display(dir));
    DefaultProbeCommand(name, dir);
  }

  /** Filling a `NameTemplate` with a placeholder-free name leaves no placeholder. */
  lemma NameTemplateFilled(t: string, pre: string, post: string, name: string)
    requires NameTemplate(t, pre, post)
    requires !Contains(name, NameKey) && !Contains(name, DirKey)
    ensures !Contains(pre + name + post, NameKey) && !Contains(pre + name + post, DirKey)
  {
    PlaceholdersHaveNoSpace();
    FixedText(pre, name);
    FixedText(post, name);
    ContainsAround(pre, name, post, NameKey);
    ContainsAround(pre, name, post, DirKey);
  }

  /** Filling a `NameDirTemplate` with a placeholder-free name and directory leaves no placeholder. */
  lemma NameDirTemplateFilled(t: string, pre: string, name: string, d: string)
    requires NameDirTemplate(t, pre)
    requires !Contains(name, NameKey) && !Contains(name, DirKey)
    requires !Contains(d, NameKey) && !Contains(d, DirKey)
    ensures !Contains(pre + name + (" " + d), NameKey) && !Contains(pre + name + (" " + d), DirKey)
  {
    PlaceholdersHaveNoSpace();
    FixedText(pre, name);
    FixedText(" ", name);
    ContainsConcat(" ", d, NameKey);
    ContainsConcat(" ", d, DirKey);
    ContainsAround(pre, name, " " + d, NameKey);
    ContainsAround(pre, name, " " + d, DirKey);
  }

  /**
   * When neither the name nor the directory holds a placeholder, `replace_all`
   * as written leaves no placeholder in the default probe, create and clone
   * commands, in either iteration order (the three lemmas above equate the
   * orders).
   */
  lemma DefaultCommandsLeaveNoPlaceholder(name: string, dir: Path)
    requires !Contains(name, NameKey) && !Contains(name, DirKey)
    requires !Contains(Display(dir), NameKey) && !Contains(Display(dir), DirKey)
    ensures !Contains(ReplaceInOrder(DefaultConfig(name).repoExistsCmd, Placeholders(name, dir)), NameKey)
    ensures !Contains(ReplaceInOrder(DefaultConfig(name).repoExistsCmd, Placeholders(name, dir)), DirKey)
    ensures !Contains(ReplaceInOrder(DefaultConfig(name).repoCreateCmd, Placeholders(name, dir)), NameKey)
    ensures !Contains(ReplaceInOrder(DefaultConfig(name).repoCreateCmd, Placeholders(name, dir)), DirKey)
    ensures !Contains(ReplaceInOrder(DefaultConfig(name).repoCloneCmd, Placeholders(name, dir)), NameKey)
    ensures !Contains(ReplaceInOrder(DefaultConfig(name).repoCloneCmd, Placeholders(name, dir)), DirKey)
  {
    var cfg := DefaultConfig(name);
    var probe, post, create, clone := "gh repo view --json nameWithOwner ", " 2>/dev/null", "gh repo create --private ", "gh repo clone ";
    assert NameTemplate(cfg.repoExistsCmd, probe, post);
    assert NameTemplate(cfg.repoCreateCmd, create, "");
    assert NameDirTemplate(cfg.repoCloneCmd, clone);
    NameTemplateNameFirst(cfg.repoExistsCmd, probe, post, name, Display(dir));
    NameTemplateNameFirst(cfg.repoCreateCmd, create, "", name, Display(dir));
    NameDirTemplateNameFirst(cfg.repoCloneCmd, clone, name, Display(dir));
    ReplaceAbsent(name, DirKey, Display(dir));
    NameTemplateFilled(cfg.repoExistsCmd, probe, post, name);
    NameTemplateFilled(cfg.repoCreateCmd, create, "", name);
    NameDirTemplateFilled(cfg.repoCloneCmd, clone, name, Display(dir));
  }

  /** Neither placeholder occurs inside the other. */
  lemma PlaceholdersApart()
    ensures !Contains(NameKey, DirKey) && !Contains(DirKey, NameKey)
  {
    forall i | 0 <= i <= |NameKey|
      ensures !OccursAt(NameKey, DirKey, i)
    {
      assert i + 2 < |NameKey| ==> NameKey[i + 2] != DirKey[2];
    }
  }

  /** A `NameTemplate` holds the name placeholder and not the directory one. */
  lemma NameTemplateKeys(t: string, pre: string, post: string)
    requires NameTemplate(t, pre, post)
    ensures Contains(t, NameKey) && !Contains(t, DirKey)
  {
    assert OccursAt(t, NameKey, |pre|);
    PlaceholdersHaveNoSpace();
    PlaceholdersApart();
    FixedText(pre, []);
    FixedText(post, []);
    ContainsAround(pre, NameKey, post, DirKey);
  }

  /** A `NameDirTemplate` holds both placeholders. */
  lemma NameDirTemplateKeys(t: string, pre: string)
    requires NameDirTemplate(t, pre)
    ensures Contains(t, NameKey) && Contains(t, DirKey)
  {
    assert OccursAt(t, NameKey, |pre|);
    assert OccursAt(t, DirKey, |pre| + |NameKey| + 1);
  }

  /**
   * The default probe and create commands name the repository and not the
   * directory; the default clone command names both.
   */
  lemma DefaultTemplatePlaceholders(name: string)
    ensures Contains(DefaultConfig(name).repoExistsCmd, NameKey) && !Contains(DefaultConfig(name).repoExistsCmd, DirKey)
    ensures Contains(DefaultConfig(name).repoCreateCmd, NameKey) && !Contains(DefaultConfig(name).repoCreateCmd, DirKey)
    ensures Contains(DefaultConfig(name).repoCloneCmd, NameKey) && Contains(DefaultConfig(name).repoCloneCmd, DirKey)
  {
    var c := DefaultConfig(name);
    assert NameTemplate(c.repoExistsCmd, "gh repo view --json nameWithOwner ", " 2>/dev/null");
    NameTemplateKeys(c.repoExistsCmd, "gh repo view --json nameWithOwner ", " 2>/dev/null");
    assert NameTemplate(c.repoCreateCmd, "gh repo create --private ", "");
    NameTemplateKeys(c.repoCreateCmd, "gh repo create --private ", "");
    assert NameDirTemplate(c.repoCloneCmd, "gh repo clone ");
    NameDirTemplateKeys(c.repoCloneCmd, "gh repo clone ");
  }

  /**
   * The other default commands hold no placeholder and run as written:
   * `replace_all`, in either iteration order, and the corrected substitution
   * all leave them unchanged.
   */
  lemma DefaultFixedCommands(name: string, dir: Path, s: Step)
    requires s == ProjectInit || Rank(ProjectTest) <= Rank(s)
    ensures !Contains(CommandOf(DefaultConfig(name), s), NameKey) && !Contains(CommandOf(DefaultConfig(name), s), DirKey)
    ensures ReplaceInOrder(CommandOf(DefaultConfig(name), s), Placeholders(name, dir)) == CommandOf(DefaultConfig(name), s)
    ensures ReplaceInOrder(CommandOf(DefaultConfig(name), s), [(DirKey, Display(dir)), (NameKey, name)]) == CommandOf(DefaultConfig(name), s)
    ensures Substitute(CommandOf(DefaultConfig(name), s), Placeholders(name, dir)) == CommandOf(DefaultConfig(name), s)
  {
    var c := CommandOf(DefaultConfig(name), s);
    assert '{' !in c;
    FixedText(c, name);
    PlainPrefix(c, [], name, dir);
    assert c + [] == c;
    FixedReplaceAll(c, name, Display(dir));
  }

  /** `replace_all` leaves text that holds neither placeholder unchanged, in either iteration order. */
  lemma FixedReplaceAll(c: string, name: string, d: string)
    requires !Contains(c, NameKey) && !Contains(c, DirKey)
    ensures ReplaceInOrder(c, [(NameKey, name), (DirKey, d)]) == c
    ensures ReplaceInOrder(c, [(DirKey, d), (NameKey, name)]) == c
  {
    var a, b := [(NameKey, name), (DirKey, d)], [(DirKey, d), (NameKey, name)];
    assert forall p :: p in a ==> p.0 == NameKey || p.0 == DirKey;
    ReplaceInOrderNoKeys(c, a);
    assert forall p :: p in b ==> p.0 == NameKey || p.0 == DirKey;
    ReplaceInOrderNoKeys(c, b);
  }
}
