/**
 Invocation of the git tool through an explicit `GitExecutor` object,
 which stands for the process-global `execGit` function variable: whether
 an invocation succeeds is a function of its arguments, and every
 invocation is recorded, in order, in the executor's trace.
 */
module GitExec {
  import opened GerritTypes

  /** The arguments handed to git for `args` run in `dir`: `-C <dir>` first, then `args` in order. */
  function GitArgs(dir: string, args: seq<string>): (r: seq<string>)
    ensures |r| == |args| + 2 && r[0] == "-C" && r[1] == dir
    ensures forall i :: 0 <= i < |args| ==> r[i + 2] == args[i]
  {
    ["-C", dir] + args
  }

  /** What a git stand-in sees: the directory given with `-C` and the command that follows it. */
  function SplitGitArgs(gitArgs: seq<string>): Option<(string, seq<string>)>
  {
    if |gitArgs| >= 2 && gitArgs[0] == "-C" then Some((gitArgs[1], gitArgs[2..])) else None
  }

  lemma GitArgsSplit(dir: string, args: seq<string>)
    ensures SplitGitArgs(GitArgs(dir, args)) == Some((dir, args))
  {
  }

  class GitExecutor {
    /** Whether git exits successfully when run with the given arguments. */
    const succeeds: seq<string> -> bool
    /** Every argument list git has been run with, oldest first. */
    var trace: seq<seq<string>>

    constructor (succeeds: seq<string> -> bool)
      ensures this.succeeds == succeeds && trace == []
    {
      this.succeeds := succeeds;
      trace := [];
    }

    /** Runs git once; its output is only logged and is not modelled. */
    method Exec(args: seq<string>) returns (ok: bool)
      modifies this
      ensures trace == old(trace) + [args]
      ensures ok == succeeds(args)
    {
      trace := trace + [args];
      ok := succeeds(args);
    }
  }

  /** Runs `args` in `dir`; a failing run becomes `GitFailed`. */
  method Git(executor: GitExecutor, dir: string, args: seq<string>) returns (err: Option<Error>)
    modifies executor
    ensures executor.trace == old(executor.trace) + [GitArgs(dir, args)]
    ensures err == if executor.succeeds(GitArgs(dir, args)) then None else Some(GitFailed)
  {
    var ok := executor.Exec(GitArgs(dir, args));
    err := if ok then None else Some(GitFailed);
  }

  /** The index of the first of `cmds` that fails, or `|cmds|` when all succeed. */
  function FirstFailure(succeeds: seq<string> -> bool, cmds: seq<seq<string>>): (k: nat)
    ensures k <= |cmds|
    ensures forall i :: 0 <= i < k ==> succeeds(cmds[i])
    ensures k < |cmds| ==> !succeeds(cmds[k])
  {
    if cmds == [] || !succeeds(cmds[0]) then 0 else 1 + FirstFailure(succeeds, cmds[1..])
  }

  /** The commands issued when `cmds` run in order and the first failure stops the run. */
  function Issued(succeeds: seq<string> -> bool, cmds: seq<seq<string>>): seq<seq<string>>
  {
    var k := FirstFailure(succeeds, cmds);
    if k < |cmds| then cmds[..k + 1] else cmds
  }

  /** A run that fails first at `k` issues exactly the commands up to and including `k`. */
  lemma IssuedUpTo(succeeds: seq<string> -> bool, cmds: seq<seq<string>>, k: nat)
    requires k < |cmds| && !succeeds(cmds[k])
    requires forall i :: 0 <= i < k ==> succeeds(cmds[i])
    ensures FirstFailure(succeeds, cmds) == k
    ensures Issued(succeeds, cmds) == cmds[..k + 1]
  {
  }

  /** A run in which every command succeeds issues all of them. */
  lemma IssuedAll(succeeds: seq<string> -> bool, cmds: seq<seq<string>>)
    requires forall i :: 0 <= i < |cmds| ==> succeeds(cmds[i])
    ensures FirstFailure(succeeds, cmds) == |cmds|
    ensures Issued(succeeds, cmds) == cmds
  {
  }
}
