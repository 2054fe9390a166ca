/** The allow-list that guards `exec` control blocks, and the result record
    `run_exec` produces.  Starting the process is not modelled: its outcome
    is a parameter. */
module LocalExec {
  import opened Text
  import opened JsonValue

  /** Program base name ↦ permitted first arguments. */
  type Allow = map<string, set<string>>

  const DefaultAllowed: Allow := map[
    "git" := {"status", "rev-parse", "checkout", "switch", "add", "commit", "push", "fetch", "pull",
              "merge", "worktree"},
    "gh" := {"issue", "pr", "repo", "auth"}
  ]

  datatype ExecResult = ExecResult(ok: bool, code: int, cmd: string, cwd: string, stdout: string, stderr: string)

  /** What happened when the permitted command was started. */
  datatype Outcome =
    | Finished(returncode: int, out: string, err: string)
    | NotFound(message: string)   // `FileNotFoundError`, rendered with `str(exc)`

  /** `_is_allowed`. */
  predicate IsAllowed(argv: seq<string>, allow: Allow)
  {
    |argv| > 0 &&
    var prog := Basename(argv[0]);
    prog in allow &&
    (|argv| == 1 || argv[1] in allow[prog] || StartsWith(argv[1], "-"))
  }

  /** `allow or DEFAULT_ALLOWED`: a missing or empty map falls back to the
      defaults. */
  function EffectiveAllow(allow: Option<Allow>): (a: Allow)
    ensures allow.Some? && allow.value != map[] ==> a == allow.value
    ensures allow.None? || allow.value == map[] ==> a == DefaultAllowed
  {
    if allow.Some? && allow.value != map[] then allow.value else DefaultAllowed
  }

  /** `run_exec` once the payload's `argv` and `cwd` are read: `cwd` falls
      back to the process's working directory when missing or empty. */
  function RunExec(argv: seq<string>, cwd: Option<string>, processCwd: string, allow: Option<Allow>,
                   outcome: Outcome): (r: ExecResult)
    ensures r.cmd == Join(argv, " ")
    ensures r.cwd == (if cwd.Some? && cwd.value != "" then cwd.value else processCwd)
    ensures !IsAllowed(argv, EffectiveAllow(allow)) ==>
              r == ExecResult(false, 126, r.cmd, r.cwd, "",
                              "denied: " + (if r.cmd == "" then "empty command" else r.cmd))
    ensures IsAllowed(argv, EffectiveAllow(allow)) && outcome.NotFound? ==>
              !r.ok && r.code == 127 && r.stdout == "" && r.stderr == outcome.message
    ensures IsAllowed(argv, EffectiveAllow(allow)) && outcome.Finished? ==>
              r.code == outcome.returncode && r.stdout == outcome.out && r.stderr == outcome.err
    ensures r.ok <==> IsAllowed(argv, EffectiveAllow(allow)) && outcome.Finished? && outcome.returncode == 0
  {
    var dir := if cwd.Some? && cwd.value != "" then cwd.value else processCwd;
    var cmdText := Join(argv, " ");
    if !IsAllowed(argv, EffectiveAllow(allow)) then
      ExecResult(false, 126, cmdText, dir, "", "denied: " + (if cmdText == "" then "empty command" else cmdText))
    else
      match outcome
      case NotFound(msg) => ExecResult(false, 127, cmdText, dir, "", msg)
      case Finished(rc, out, err) => ExecResult(rc == 0, rc, cmdText, dir, out, err)
  }

  // ------------------------------------------------------------ properties

  lemma EmptyArgvDenied(allow: Allow)
    ensures !IsAllowed([], allow)
  {
  }

  /** The program is judged by its base name, which must be a key. */
  lemma ProgramMustBeKnown(argv: seq<string>, allow: Allow)
    requires |argv| > 0 && Basename(argv[0]) !in allow
    ensures !IsAllowed(argv, allow)
  {
  }

  /** A path to an allowed program is as good as its bare name. */
  lemma PathToProgram(dir: string, prog: string, rest: seq<string>, allow: Allow)
    requires '/' !in prog
    ensures IsAllowed([dir + "/" + prog] + rest, allow) <==> IsAllowed([prog] + rest, allow)
  {
    BasenameAfterSlash(dir, prog);
    BasenamePlain(prog);
  }

  lemma {:induction false} BasenameAfterSlash(dir: string, prog: string)
    requires '/' !in prog
    ensures Basename(dir + "/" + prog) == prog
    decreases |dir|
  {
    var s := dir + "/" + prog;
    var k := IndexOf(s, '/', 0);
    assert k <= |dir| by {
      assert s[|dir|] == '/';
    }
    if k == |dir| {
      assert s[k + 1..] == prog;
      BasenamePlain(prog);
      assert IndexOf(prog, '/', 0) == |prog|;
    } else {
      assert s[k + 1..] == dir[k + 1..] + "/" + prog;
      BasenameAfterSlash(dir[k + 1..], prog);
    }
    assert Split(s, '/') == [s[..k]] + Split(s[k + 1..], '/');
  }

  /** A lone allowed program is permitted with no arguments. */
  lemma LoneProgram(prog: string, allow: Allow)
    ensures IsAllowed([prog], allow) <==> Basename(prog) in allow
  {
  }

  /** Flags are always permitted in first position; other first arguments
      must be listed. */
  lemma FirstArgument(argv: seq<string>, allow: Allow)
    requires |argv| >= 2 && Basename(argv[0]) in allow
    ensures IsAllowed(argv, allow) <==>
              argv[1] in allow[Basename(argv[0])] || (|argv[1]| > 0 && argv[1][0] == '-')
  {
  }

  /** A denied command does not depend on the process outcome: nothing is
      run. */
  lemma DeniedRunsNothing(argv: seq<string>, cwd: Option<string>, processCwd: string, allow: Option<Allow>,
                          o1: Outcome, o2: Outcome)
    requires !IsAllowed(argv, EffectiveAllow(allow))
    ensures RunExec(argv, cwd, processCwd, allow, o1) == RunExec(argv, cwd, processCwd, allow, o2)
  {
  }

  /** `git status` is permitted by default. */
  lemma DefaultAllowsGitStatus()
    ensures IsAllowed(["git", "status"], DefaultAllowed)
  {
    BasenamePlain("git");
  }

  /** A subcommand outside the default list is refused. */
  lemma DefaultRejectsGitReset()
    ensures !IsAllowed(["git", "reset"], DefaultAllowed)
  {
    BasenamePlain("git");
    assert "reset"[0] == 'r';
  }

  /** An invocation by absolute path is judged by the program's name. */
  lemma DefaultAllowsGhByPath()
    ensures IsAllowed(["/usr/bin/gh", "pr", "list"], DefaultAllowed)
  {
    BasenameAfterSlash("/usr/bin", "gh");
    assert "/usr/bin" + "/" + "gh" == "/usr/bin/gh";
  }

  /** A program outside the default list is refused whatever follows. */
  lemma DefaultRejectsRm()
    ensures !IsAllowed(["rm", "-rf"], DefaultAllowed)
  {
    BasenamePlain("rm");
  }
}
