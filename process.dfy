/**
 * Running one shell command and classifying how it ended
 * (src/lib.rs:189-234).
 *
 * Spawning the child and waiting for it are outside the model: the outcome
 * of `spawn()?.wait()` is a parameter, either the child's exit status or the
 * I/O error that prevented it from running.
 */
module Process {
  import opened Results
  import opened Paths
  import opened Template

  /** How a child process ended: with an exit code, or killed by a signal. */
  datatype ExitStatus = Exited(code: int) | Signaled(signal: int)

  /** `ExitStatus::success`: exited with code zero. */
  predicate Success(status: ExitStatus)
  {
    status.Exited? && status.code == 0
  }

  /** An I/O error: the child ran but did not succeed, or the OS refused an operation. */
  datatype IoError = ExitFailure(status: ExitStatus) | OsError(code: int)

  type IoResult<T> = Result<T, IoError>

  /** `check_status`: a successful status passes through, any other becomes an error carrying it. */
  function CheckStatus(status: ExitStatus): (r: IoResult<ExitStatus>)
    ensures r.Ok? <==> Success(status)
    ensures r.Ok? ==> r.value == status
    ensures r.Err? ==> r.error == ExitFailure(status)
  {
    if Success(status) then Ok(status) else Err(ExitFailure(status))
  }

  /** `exec_raw`: fails when the child could not be run and when it exits unsuccessfully. */
  function ExecRaw(spawned: IoResult<ExitStatus>): (r: IoResult<ExitStatus>)
    ensures r.Ok? <==> spawned.Ok? && Success(spawned.value)
    ensures r.Ok? ==> r == spawned
    ensures spawned.Err? ==> r == spawned
    ensures spawned.Ok? && !Success(spawned.value) ==> r == Err(ExitFailure(spawned.value))
  {
    match spawned
    case Err(e) => Err(e)
    case Ok(status) => CheckStatus(status)
  }

  /** `success_raw`: an unsuccessful exit is the answer `false`; only a failure to run is an error. */
  function SuccessRaw(spawned: IoResult<ExitStatus>): (r: IoResult<bool>)
    ensures r.Ok? <==> spawned.Ok?
    ensures r.Ok? ==> r.value == Success(spawned.value)
    ensures r.Err? ==> r.error == spawned.error
  {
    match spawned
    case Err(e) => Err(e)
    case Ok(status) => Ok(Success(status))
  }

  /** The two classifications agree: `exec_raw` succeeds exactly when `success_raw` answers `true`. */
  lemma ExecRawAgreesWithSuccessRaw(spawned: IoResult<ExitStatus>)
    ensures ExecRaw(spawned).Ok? <==> SuccessRaw(spawned) == Ok(true)
    ensures SuccessRaw(spawned) == Ok(false) ==> ExecRaw(spawned).Err? && ExecRaw(spawned).error.ExitFailure?
  {
  }

  /** The command line `cmd_to_string` builds: `cmd`, then a space and each argument in turn. */
  function CmdLine(cmd: string, args: seq<string>): string
    decreases |args|
  {
    if args == [] then cmd else CmdLine(cmd, args[..|args| - 1]) + " " + args[|args| - 1]
  }

  /** `cmd_to_string`: appends a space and the next argument, one argument per iteration. */
  method CmdToString(cmd: string, args: seq<string>) returns (line: string)
    ensures line == CmdLine(cmd, args)
  {
    line := cmd;
    for i := 0 to |args|
      invariant line == CmdLine(cmd, args[..i])
    {
      assert args[..i + 1][..i] == args[..i];
      line := line + " " + args[i];
    }
    assert args[..|args|] == args;
  }

  /** The line starts with the command, and with no arguments it is the command alone. */
  lemma {:induction false} CmdLineStartsWithCmd(cmd: string, args: seq<string>)
    ensures cmd <= CmdLine(cmd, args)
    ensures args == [] ==> CmdLine(cmd, args) == cmd
    ensures |CmdLine(cmd, args)| >= |cmd| + |args|
    decreases |args|
  {
    if args != [] {
      CmdLineStartsWithCmd(cmd, args[..|args| - 1]);
    }
  }

  /** The pieces of `s` between single spaces, as `str::split(' ')` yields them. */
  function Words(s: string): (r: seq<string>)
    ensures |r| >= 1
  {
    if s == [] then [[]]
    else if s[0] == ' ' then [[]] + Words(s[1..])
    else var w := Words(s[1..]); [[s[0]] + w[0]] + w[1..]
  }

  /** A string without spaces is a single word. */
  lemma {:induction false} WordsNoSpace(s: string)
    requires ' ' !in s
    ensures Words(s) == [s]
  {
    if s != [] {
      assert s[0] != ' ';
      WordsNoSpace(s[1..]);
      assert [s[0]] + s[1..] == s;
    }
  }

  /** Appending a space and a word without spaces adds exactly that word. */
  lemma {:induction false} WordsAppend(x: string, a: string)
    requires ' ' !in a
    ensures Words(x + " " + a) == Words(x) + [a]
  {
    if x == [] {
      assert x + " " + a == [' '] + a;
      assert (x + " " + a)[1..] == a;
      WordsNoSpace(a);
    } else {
      assert (x + " " + a)[1..] == x[1..] + " " + a;
      WordsAppend(x[1..], a);
    }
  }

  /**
   * The echoed command line can be split back into the command and its
   * arguments when none of them contains a space.
   */
  lemma {:induction false} CmdLineWordsRoundTrip(cmd: string, args: seq<string>)
    requires ' ' !in cmd
    requires forall i :: 0 <= i < |args| ==> ' ' !in args[i]
    ensures Words(CmdLine(cmd, args)) == [cmd] + args
    decreases |args|
  {
    if args == [] {
      WordsNoSpace(cmd);
    } else {
      var init := args[..|args| - 1];
      CmdLineWordsRoundTrip(cmd, init);
      WordsAppend(CmdLine(cmd, init), args[|args| - 1]);
      assert init + [args[|args| - 1]] == args;
    }
  }

  /**
   * One child process: the program, the fixed arguments, the arguments that
   * went through substitution, and the working directory.
   */
  datatype Invocation = Invocation(program: string, args: seq<string>, extraArgs: seq<string>, cwd: Path)

  /** The line written to standard error before the child is spawned. */
  function Echo(inv: Invocation): string
  {
    "$ " + CmdLine(inv.program, inv.args)
  }

  /**
   * `exec`: substitute the extra arguments, run the program in `cwd`, and
   * classify the outcome with `exec_raw`. `spawned` is what spawning and
   * waiting for that child produced.
   */
  function Exec(cmd: string, args: seq<string>, extraArgs: seq<string>, cwd: Path,
                subs: Substitutions, spawned: IoResult<ExitStatus>): (out: (Invocation, IoResult<ExitStatus>))
    ensures out.0.program == cmd && out.0.args == args && out.0.cwd == cwd
    ensures |out.0.extraArgs| == |extraArgs|
    ensures forall i :: 0 <= i < |extraArgs| ==> out.0.extraArgs[i] == Substitute(extraArgs[i], subs)
    ensures Echo(out.0) == "$ " + CmdLine(cmd, args)
    ensures out.1.Ok? <==> spawned.Ok? && Success(spawned.value)
  {
    (Invocation(cmd, args, ReplaceArgs(extraArgs, subs), cwd), ExecRaw(spawned))
  }

  /** `success`: like `Exec`, but an unsuccessful exit is the answer `false`. */
  function Succeeds(cmd: string, args: seq<string>, extraArgs: seq<string>, cwd: Path,
                    subs: Substitutions, spawned: IoResult<ExitStatus>): (out: (Invocation, IoResult<bool>))
    ensures out.0.program == cmd && out.0.args == args && out.0.cwd == cwd
    ensures |out.0.extraArgs| == |extraArgs|
    ensures forall i :: 0 <= i < |extraArgs| ==> out.0.extraArgs[i] == Substitute(extraArgs[i], subs)
    ensures Echo(out.0) == "$ " + CmdLine(cmd, args)
    ensures out.1.Ok? <==> spawned.Ok?
    ensures out.1.Ok? ==> out.1.value == Success(spawned.value)
  {
    (Invocation(cmd, args, ReplaceArgs(extraArgs, subs), cwd), SuccessRaw(spawned))
  }

  /** The echoed line names the shell and its fixed arguments only, never the substituted command. */
  lemma EchoOmitsCommand(a: Invocation, b: Invocation)
    requires a.program == b.program && a.args == b.args
    ensures Echo(a) == Echo(b)
  {
  }
}
