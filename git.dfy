/**
 * The command-line git driver of pkg/git/git.go.
 *
 * A `CLIGit` turns each high-level operation into zero or more argument
 * vectors handed to an injected `Runner`. The runner here is a recording
 * double: it appends every command to `log` and answers from a scripted list
 * of replies, one reply per call.
 */
module GitCli {
  import opened Wrappers
  import Text

  const GitCmd := "git"
  const CommitMessage := "Push changes to remote"

  /** One invocation of the runner: the program and its arguments. */
  datatype Command = Command(name: string, args: seq<string>)

  /** The error a runner reports for a failed command. */
  datatype RunError = RunError(text: string)

  /** What the runner answers for one command: its combined output and its error, if any. */
  datatype Reply = Reply(output: string, err: Option<RunError>)

  /** The outcome of `os.Stat` on a path. */
  datatype StatResult = Exists | NotExist | StatFailed(text: string)

  /** Errors returned by the driver, one variant per wrapping site. */
  datatype Error =
    | PathNotExist(path: string)
    | StatusCheckFailed(cause: RunError)
    | ChangeDetectionFailed(inner: Error)
    | CommitRunFailed(cause: RunError)
    | BranchCreateFailed(branch: string, cause: RunError)
    | PushRunFailed(remote: string, branch: string, cause: RunError)
    | AddRunFailed(cause: RunError)
  {
    /** The text Go's error chain renders (`%w` appends ": " and the cause). */
    function Message(): string
    {
      match this
      case PathNotExist(path) => "stat " + path + ": no such file or directory"
      case StatusCheckFailed(cause) => "failed to check if there are changes: " + cause.text
      case ChangeDetectionFailed(inner) => "failed to detect if repository has changes: " + inner.Message()
      case CommitRunFailed(cause) => "failed to run commit: " + cause.text
      case BranchCreateFailed(branch, cause) => "failed to create new branch " + branch + ": " + cause.text
      case PushRunFailed(remote, branch, cause) =>
        "failed to push changes to remote " + remote + " with branch " + branch + ": " + cause.text
      case AddRunFailed(cause) => "failed to run add: " + cause.text
    }
  }

  /** The configuration a driver is built from. */
  datatype Config = Config(location: string, branch: string, remote: string, base: string)

  /** `filepath.Join(location, ".git")` for a location that needs no cleaning. */
  function GitDir(location: string): string
  {
    if location == "" then ".git" else location + "/.git"
  }

  /** A git invocation against the metadata directory `dir`. */
  function GitCommand(dir: string, rest: seq<string>): Command
  {
    Command(GitCmd, ["--git-dir", dir] + rest)
  }

  function StatusCommand(dir: string): Command { GitCommand(dir, ["status", "-s"]) }
  function CommitCommand(dir: string): Command { GitCommand(dir, ["commit", "-am", CommitMessage]) }
  function CheckoutCommand(dir: string, branch: string): Command { GitCommand(dir, ["checkout", "-b", branch]) }
  function AddCommand(dir: string): Command { GitCommand(dir, ["add", "."]) }
  function PushCommand(dir: string, remote: string, branch: string): Command { GitCommand(dir, ["push", remote, branch]) }

  /** `c` was issued against the metadata directory `dir`. */
  predicate IssuedAgainst(c: Command, dir: string)
  {
    c.name == GitCmd && |c.args| >= 2 && c.args[0] == "--git-dir" && c.args[1] == dir
  }

  /** Every command in `cmds` was issued against `dir`. */
  predicate AllIssuedAgainst(cmds: seq<Command>, dir: string)
  {
    forall i :: 0 <= i < |cmds| ==> IssuedAgainst(cmds[i], dir)
  }

  /** No command in `cmds` is a push. */
  predicate NoPushAmong(cmds: seq<Command>)
  {
    forall i :: 0 <= i < |cmds| ==> |cmds[i].args| >= 3 && cmds[i].args[2] != "push"
  }

  /** Both properties survive concatenation. */
  lemma IssuedConcat(a: seq<Command>, b: seq<Command>, dir: string)
    ensures AllIssuedAgainst(a, dir) && AllIssuedAgainst(b, dir) ==> AllIssuedAgainst(a + b, dir)
    ensures NoPushAmong(a) && NoPushAmong(b) ==> NoPushAmong(a + b)
  {
    if AllIssuedAgainst(a, dir) && AllIssuedAgainst(b, dir) {
      forall i | 0 <= i < |a + b| ensures IssuedAgainst((a + b)[i], dir) {
        if i >= |a| { assert (a + b)[i] == b[i - |a|]; }
      }
    }
    if NoPushAmong(a) && NoPushAmong(b) {
      forall i | 0 <= i < |a + b| ensures |(a + b)[i].args| >= 3 && (a + b)[i].args[2] != "push" {
        if i >= |a| { assert (a + b)[i] == b[i - |a|]; }
      }
    }
  }

  /** The text the suite's `stringRunner` answers with: "cmd: <name>|args: <args joined by commas>". */
  function Echo(c: Command): string
  {
    "cmd: " + c.name + "|args: " + Text.Join(c.args, ",")
  }

  /** The reply to `c` given the remaining script: its head, or an echo without error once it is used up. */
  function ReplyTo(script: seq<Reply>, c: Command): Reply
  {
    if script == [] then Reply(Echo(c), None) else script[0]
  }

  /** The script left after one call. */
  function Rest(script: seq<Reply>): seq<Reply>
  {
    if script == [] then [] else script[1..]
  }

  /** The injected command runner, as a recording double with scripted replies. */
  class Runner {
    var log: seq<Command>
    var script: seq<Reply>

    constructor (script: seq<Reply>)
      ensures log == [] && this.script == script
    {
      log := [];
      this.script := script;
    }

    /** Runs `name args...`: records it and answers with the next scripted reply. */
    method Run(name: string, args: seq<string>) returns (out: string, err: Option<RunError>)
      modifies this
      ensures log == old(log) + [Command(name, args)]
      ensures script == Rest(old(script))
      ensures Reply(out, err) == ReplyTo(old(script), Command(name, args))
    {
      var reply := ReplyTo(script, Command(name, args));
      log := log + [Command(name, args)];
      script := Rest(script);
      out, err := reply.output, reply.err;
    }
  }

  /** What one driver operation did to the runner: the commands it issued, the script it left and its error. */
  datatype StepRun = StepRun(issued: seq<Command>, rest: seq<Reply>, err: Option<Error>)

  /** `HasChanges` as a function of the script: whether changes were reported, and the probe's error. */
  function StatusProbe(dir: string, script: seq<Reply>): (bool, Option<Error>)
  {
    var r := ReplyTo(script, StatusCommand(dir));
    if r.err.Some? then (false, Some(StatusCheckFailed(r.err.value))) else (r.output != "", None)
  }

  /** `Commit` as a function of the script. */
  function CommitRun(dir: string, script: seq<Reply>): StepRun
  {
    var (changed, probeErr) := StatusProbe(dir, script);
    if probeErr.Some? then
      StepRun([StatusCommand(dir)], Rest(script), Some(ChangeDetectionFailed(probeErr.value)))
    else if !changed then
      StepRun([StatusCommand(dir)], Rest(script), None)
    else
      var c := ReplyTo(Rest(script), CommitCommand(dir));
      StepRun([StatusCommand(dir), CommitCommand(dir)], Rest(Rest(script)),
              if c.err.Some? then Some(CommitRunFailed(c.err.value)) else None)
  }

  /** `CreateBranch` as a function of the script. */
  function CreateBranchRun(dir: string, base: string, branch: string, script: seq<Reply>): StepRun
  {
    if base == branch then
      StepRun([], script, None)
    else
      var r := ReplyTo(script, CheckoutCommand(dir, branch));
      StepRun([CheckoutCommand(dir, branch)], Rest(script),
              if r.err.Some? then Some(BranchCreateFailed(branch, r.err.value)) else None)
  }

  /** `Add` as a function of the script. */
  function AddRun(dir: string, script: seq<Reply>): StepRun
  {
    var r := ReplyTo(script, AddCommand(dir));
    StepRun([AddCommand(dir)], Rest(script), if r.err.Some? then Some(AddRunFailed(r.err.value)) else None)
  }

  /** `Push` as a function of the script. */
  function PushRun(dir: string, remote: string, branch: string, script: seq<Reply>): StepRun
  {
    var r := ReplyTo(script, PushCommand(dir, remote, branch));
    StepRun([PushCommand(dir, remote, branch)], Rest(script),
            if r.err.Some? then Some(PushRunFailed(remote, branch, r.err.value)) else None)
  }

  /** `script` with its first `n` replies consumed (all of them if there are fewer). */
  function Drop(script: seq<Reply>, n: nat): seq<Reply>
  {
    if n <= |script| then script[n..] else []
  }

  /** How many of `available` replies are left once `used` commands asked for one each. */
  function Remaining(available: nat, used: nat): nat
  {
    if used <= available then available - used else 0
  }

  /** Every driver operation consumes exactly one reply per command it issues. */
  lemma StepsConsumeOneReplyPerCommand(dir: string, base: string, branch: string, remote: string, script: seq<Reply>)
    ensures var r := CommitRun(dir, script); r.rest == Drop(script, |r.issued|)
    ensures var r := CreateBranchRun(dir, base, branch, script); r.rest == Drop(script, |r.issued|)
    ensures var r := AddRun(dir, script); r.rest == Drop(script, |r.issued|)
    ensures var r := PushRun(dir, remote, branch, script); r.rest == Drop(script, |r.issued|)
  {
    if |script| >= 2 {
      assert Rest(Rest(script)) == script[2..];
    }
  }

  /** Every driver operation issues its commands against the `.git` directory; only `Push` issues a push. */
  lemma StepsIssueAgainstGitDir(dir: string, base: string, branch: string, remote: string, script: seq<Reply>)
    ensures AllIssuedAgainst(CommitRun(dir, script).issued, dir) && NoPushAmong(CommitRun(dir, script).issued)
    ensures AllIssuedAgainst(CreateBranchRun(dir, base, branch, script).issued, dir)
    ensures NoPushAmong(CreateBranchRun(dir, base, branch, script).issued)
    ensures AllIssuedAgainst(AddRun(dir, script).issued, dir) && NoPushAmong(AddRun(dir, script).issued)
    ensures AllIssuedAgainst(PushRun(dir, remote, branch, script).issued, dir)
  {
  }

  /** Changes are reported iff the status probe succeeds with non-empty output; a failed probe reports none. */
  lemma HasChangesIffOutput(dir: string, script: seq<Reply>)
    ensures var r := ReplyTo(script, StatusCommand(dir));
      && (StatusProbe(dir, script).0 <==> r.err.None? && r.output != "")
      && (StatusProbe(dir, script).1.Some? <==> r.err.Some?)
      && (r.err.Some? ==> StatusProbe(dir, script).1 == Some(StatusCheckFailed(r.err.value)))
  {
  }

  /** `Commit` always probes first, and issues the commit only as its second command. */
  lemma CommitProbesFirst(dir: string, script: seq<Reply>)
    ensures var r := CommitRun(dir, script);
      && 1 <= |r.issued| <= 2
      && r.issued[0] == GitCommand(dir, ["status", "-s"])
      && (|r.issued| == 2 ==> r.issued[1] == GitCommand(dir, ["commit", "-am", "Push changes to remote"]))
  {
  }

  /**
   * A clean tree makes `Commit` a successful no-op after the probe, so calling
   * it again when nothing changed never fails.
   */
  lemma CommitOnCleanTreeIsNoOp(dir: string, script: seq<Reply>)
    requires ReplyTo(script, StatusCommand(dir)) == Reply("", None)
    ensures CommitRun(dir, script) == StepRun([StatusCommand(dir)], Rest(script), None)
  {
  }

  /**
   * `Commit` issues the commit iff the probe found changes; a failed probe fails
   * the commit without issuing it; otherwise it fails iff the commit command fails.
   */
  lemma CommitOnlyWithChanges(dir: string, script: seq<Reply>)
    ensures var s := ReplyTo(script, StatusCommand(dir));
      var r := CommitRun(dir, script);
      && (|r.issued| == 2 <==> s.err.None? && s.output != "")
      && (s.err.Some? ==> r.err == Some(ChangeDetectionFailed(StatusCheckFailed(s.err.value))))
      && (s.err.None? && s.output != "" ==>
            (r.err.Some? <==> ReplyTo(Rest(script), CommitCommand(dir)).err.Some?))
  {
  }

  /**
   * `CreateBranch` issues nothing and succeeds when the branch is the base;
   * otherwise it issues exactly `checkout -b branch` and fails iff that fails.
   */
  lemma CreateBranchOnlyOffBase(dir: string, base: string, branch: string, script: seq<Reply>)
    ensures var r := CreateBranchRun(dir, base, branch, script);
      && (base == branch ==> r.issued == [] && r.rest == script && r.err == None)
      && (base != branch ==>
            && r.issued == [GitCommand(dir, ["checkout", "-b", branch])]
            && (r.err.Some? <==> ReplyTo(script, CheckoutCommand(dir, branch)).err.Some?))
  {
  }

  /** `Add` and `Push` are single runner calls whose error is wrapped around the runner's. */
  lemma AddAndPushAreSingleCalls(dir: string, remote: string, branch: string, script: seq<Reply>)
    ensures var a := AddRun(dir, script);
      var ra := ReplyTo(script, AddCommand(dir));
      && a.issued == [GitCommand(dir, ["add", "."])]
      && (a.err.Some? <==> ra.err.Some?)
      && (ra.err.Some? ==> a.err.value.cause == ra.err.value)
    ensures var p := PushRun(dir, remote, branch, script);
      var rp := ReplyTo(script, PushCommand(dir, remote, branch));
      && p.issued == [GitCommand(dir, ["push", remote, branch])]
      && (p.err.Some? <==> rp.err.Some?)
      && (rp.err.Some? ==> p.err.value.cause == rp.err.value)
  {
  }

  /** A git driver that shells out through `runner`; its configuration is fixed at construction. */
  class CLIGit {
    const location: string
    const branch: string
    const remote: string
    const base: string
    const runner: Runner

    /** `NewCLIGit`: the location becomes the `.git` directory beneath the configured one. */
    constructor (cfg: Config, runner: Runner)
      ensures location == GitDir(cfg.location)
      ensures branch == cfg.branch && remote == cfg.remote && base == cfg.base
      ensures this.runner == runner
    {
      location := GitDir(cfg.location);
      branch := cfg.branch;
      remote := cfg.remote;
      base := cfg.base;
      this.runner := runner;
    }

    /** `runCmd`: one runner call whose error is returned unchanged; the output is only logged. */
    method RunCmd(name: string, args: seq<string>) returns (err: Option<RunError>)
      modifies runner
      ensures runner.log == old(runner.log) + [Command(name, args)]
      ensures runner.script == Rest(old(runner.script))
      ensures err == ReplyTo(old(runner.script), Command(name, args)).err
    {
      var _, e := runner.Run(name, args);
      err := e;
    }

    /** `HasChanges`: probes `status -s`; changes exist iff the probe succeeds with non-empty output. */
    method HasChanges() returns (changed: bool, err: Option<Error>)
      modifies runner
      ensures runner.log == old(runner.log) + [StatusCommand(location)]
      ensures runner.script == Rest(old(runner.script))
      ensures (changed, err) == StatusProbe(location, old(runner.script))
    {
      var cmd := StatusCommand(location);
      var out, e := runner.Run(cmd.name, cmd.args);
      if e.Some? {
        return false, Some(StatusCheckFailed(e.value));
      }
      changed, err := out != "", None;
    }

    /**
     * `Commit`: probes for changes first and commits with the fixed message only
     * when there are some; a clean tree is a successful no-op.
     */
    method Commit() returns (err: Option<Error>)
      modifies runner
      ensures var r := CommitRun(location, old(runner.script));
        runner.log == old(runner.log) + r.issued && runner.script == r.rest && err == r.err
    {
      var changed, e := HasChanges();
      if e.Some? {
        return Some(ChangeDetectionFailed(e.value));
      }
      if !changed {
        return None;
      }
      var cmd := CommitCommand(location);
      var ce := RunCmd(cmd.name, cmd.args);
      if ce.Some? {
        return Some(CommitRunFailed(ce.value));
      }
      err := None;
    }

    /** `CreateBranch`: nothing to do when the branch is the base; otherwise `checkout -b branch`. */
    method CreateBranch() returns (err: Option<Error>)
      modifies runner
      ensures var r := CreateBranchRun(location, base, branch, old(runner.script));
        runner.log == old(runner.log) + r.issued && runner.script == r.rest && err == r.err
    {
      if base == branch {
        return None;
      }
      var cmd := CheckoutCommand(location, branch);
      var e := RunCmd(cmd.name, cmd.args);
      if e.Some? {
        return Some(BranchCreateFailed(branch, e.value));
      }
      err := None;
    }

    /**
     * `IsRepository`: fails iff stat reports that the `.git` directory does not
     * exist; any other stat failure is not reported. Issues no command.
     */
    method IsRepository(stat: string -> StatResult) returns (err: Option<Error>)
      ensures err.Some? <==> stat(location) == NotExist
      ensures err.Some? ==> err.value == PathNotExist(location)
    {
      if stat(location) == NotExist {
        return Some(PathNotExist(location));
      }
      err := None;
    }

    /** `Push`: `push remote branch`, with the driver's own branch. */
    method Push() returns (err: Option<Error>)
      modifies runner
      ensures var r := PushRun(location, remote, branch, old(runner.script));
        runner.log == old(runner.log) + r.issued && runner.script == r.rest && err == r.err
    {
      var cmd := PushCommand(location, remote, branch);
      var e := RunCmd(cmd.name, cmd.args);
      if e.Some? {
        return Some(PushRunFailed(remote, branch, e.value));
      }
      err := None;
    }

    /** `Add`: stages everything with `add .`. */
    method Add() returns (err: Option<Error>)
      modifies runner
      ensures var r := AddRun(location, old(runner.script));
        runner.log == old(runner.log) + r.issued && runner.script == r.rest && err == r.err
    {
      var cmd := AddCommand(location);
      var e := RunCmd(cmd.name, cmd.args);
      if e.Some? {
        return Some(AddRunFailed(e.value));
      }
      err := None;
    }
  }

  /** A client of the driver: committing again when the probe finds a clean tree does not fail. */
  method CommitAgainOnCleanTree(g: CLIGit) returns (first: Option<Error>, second: Option<Error>)
    requires ReplyTo(CommitRun(g.location, g.runner.script).rest, StatusCommand(g.location)) == Reply("", None)
    modifies g.runner
    ensures first == CommitRun(g.location, old(g.runner.script)).err
    ensures second == None
    ensures g.runner.log == old(g.runner.log) + CommitRun(g.location, old(g.runner.script)).issued + [StatusCommand(g.location)]
    ensures g.runner.script == Rest(CommitRun(g.location, old(g.runner.script)).rest)
  {
    first := g.Commit();
    CommitOnCleanTreeIsNoOp(g.location, g.runner.script);
    second := g.Commit();
  }

  /** The suite's runner test: the echo joins the arguments with commas. */
  lemma EchoMatchesRunnerSuite()
    ensures Echo(Command("cmd", ["args1", "args2"])) == "cmd: cmd|args: args1,args2"
  {
    assert ["args1", "args2"][1..] == ["args2"];
  }

  /** The suite's driver at "location" works in "location/.git". */
  lemma LocationMatchesSuite()
    ensures GitDir("location") == "location/.git"
  {
  }

  /** The suite's expectation for `Add` on a driver at "location". */
  lemma AddMatchesSuite()
    ensures Echo(AddCommand("location/.git")) == "cmd: git|args: --git-dir,location/.git,add,."
  {
    Text.JoinCons("add", ["."], ",");
    Text.JoinCons("location/.git", ["add", "."], ",");
    Text.JoinCons("--git-dir", ["location/.git", "add", "."], ",");
    assert AddCommand("location/.git").args == ["--git-dir"] + (["location/.git"] + (["add"] + ["."]));
  }

  /**
   * The suite's expectations for `HasChanges` and `Commit` against the echoing
   * runner: the echo is never empty, so changes are reported and the commit runs.
   */
  lemma CommitMatchesSuite()
    ensures StatusProbe("location/.git", []) == (true, None)
    ensures CommitRun("location/.git", []) == StepRun([StatusCommand("location/.git"), CommitCommand("location/.git")], [], None)
  {
  }
}
