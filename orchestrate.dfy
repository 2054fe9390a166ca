/** The GitHub-driven orchestrator: per-issue state records kept on disk,
    the decision taken for each labelled issue on every poll, and the
    mirroring of hub events back onto the issues.  The GitHub, git and hub
    calls are recorded as effects in the order they are made; their results
    (the live agents, the pull-request URL, the fetched issue, the clock)
    are parameters. */
module Orchestrate {
  import opened Text
  import opened JsonValue
  import GithubSync

  const LabelOrchestrate: string := "orchestrate"
  const LabelQueued: string := "agent:queued"
  const LabelRunning: string := "agent:running"
  const LabelReview: string := "agent:review"
  const LabelDone: string := "agent:done"
  const LabelStalled: string := "agent:stalled"
  const LabelPrOnComplete: string := "auto:pr-on-complete"

  // ------------------------------------------------------------ naming

  /** `slugify`: the normalised heading form of the text, cut to 40
      characters, or "task" when nothing is left. */
  function Slugify(text: string): (r: string)
    ensures r != [] && |r| <= 40
    ensures forall i :: 0 <= i < |r| ==> IsLowerAlnum(r[i]) || r[i] == '-'
  {
    var slug := GithubSync.NormaliseHeading(text);
    var cut := if |slug| <= 40 then slug else slug[..40];
    if cut == [] then "task" else cut
  }

  /** A text with nothing alphanumeric becomes "task". */
  lemma SlugifyFallback(text: string)
    requires GithubSync.NormaliseHeading(text) == []
    ensures Slugify(text) == "task"
  {
  }

  /** A slug of at most 40 characters is kept whole, and slugifying it
      again changes nothing. */
  lemma SlugifyShort(text: string)
    requires 0 < |GithubSync.NormaliseHeading(text)| <= 40
    ensures Slugify(text) == GithubSync.NormaliseHeading(text)
    ensures Slugify(Slugify(text)) == Slugify(text)
  {
    GithubSync.NormaliseHeadingIdempotent(text);
  }

  /** A longer slug is cut to its first 40 characters. */
  lemma SlugifyLong(text: string)
    requires |GithubSync.NormaliseHeading(text)| > 40
    ensures Slugify(text) == GithubSync.NormaliseHeading(text)[..40]
  {
  }

  /** `os.path.join(a, b)`: an absolute `b` replaces `a`; otherwise a `/`
      is inserted unless `a` is empty or already ends with one. */
  function PathJoin(a: string, b: string): string
  {
    if StartsWith(b, "/") then b
    else if a == [] || EndsWith(a, "/") then a + b
    else a + "/" + b
  }

  function Branch(issueNo: int, title: string): string
  {
    "ai/iss-" + IntToString(issueNo) + "-" + Slugify(title)
  }

  function WorktreeDir(root: string, issueNo: int): string
  {
    PathJoin(PathJoin(root, ".worktrees"), "iss-" + IntToString(issueNo))
  }

  /** `worktree_paths`: the branch and the worktree directory. */
  function WorktreePaths(root: string, issueNo: int, title: string): (string, string)
  {
    (Branch(issueNo, title), WorktreeDir(root, issueNo))
  }

  /** Decimal numbers followed by `-` differ as soon as the numbers do. */
  lemma DashedNumbersDiffer(a: string, b: string, u: string, v: string)
    requires a != b && a != [] && b != [] && AllDigits(a) && AllDigits(b)
    ensures a + "-" + u != b + "-" + v
  {
    var x, y := a + "-" + u, b + "-" + v;
    if |a| == |b| {
      assert x[..|a|] == a && y[..|b|] == b;
    } else if |a| < |b| {
      assert x[|a|] == '-' && y[|a|] == b[|a|];
    } else {
      assert y[|b|] == '-' && x[|b|] == a[|b|];
    }
  }

  /** Different issues get different branches, whatever their titles. */
  lemma BranchesDistinct(m: nat, n: nat, t1: string, t2: string)
    requires m != n
    ensures WorktreePaths("", m, t1).0 != WorktreePaths("", n, t2).0
  {
    BranchDiffers(m, n, t1, t2);
  }

  lemma BranchDiffers(m: nat, n: nat, t1: string, t2: string)
    requires m != n
    ensures Branch(m, t1) != Branch(n, t2)
  {
    var a, b := IntToString(m), IntToString(n);
    assert a == NatToString(m) && b == NatToString(n);
    if a == b {
      NatToStringInjective(m, n);
    }
    DashedDiffer("ai/iss-", a, b, Slugify(t1), Slugify(t2));
  }

  /** A common prefix followed by different dashed numbers. */
  lemma DashedDiffer(p: string, a: string, b: string, u: string, v: string)
    requires a != b && a != [] && b != [] && AllDigits(a) && AllDigits(b)
    ensures p + a + "-" + u != p + b + "-" + v
  {
    DashedNumbersDiffer(a, b, u, v);
    assert p + a + "-" + u == p + (a + "-" + u);
    assert p + b + "-" + v == p + (b + "-" + v);
    PrefixedDiffer(p, a + "-" + u, b + "-" + v);
  }

  lemma PrefixedDiffer(p: string, x: string, y: string)
    requires x != y
    ensures p + x != p + y
  {
    assert (p + x)[|p|..] == x && (p + y)[|p|..] == y;
  }

  /** Different issues get different worktree directories under the same
      root, and the directory does not depend on the title. */
  lemma WorktreesDistinct(root: string, m: nat, n: nat, t1: string, t2: string)
    requires m != n
    ensures WorktreePaths(root, m, t1).1 != WorktreePaths(root, n, t2).1
    ensures WorktreePaths(root, m, t1).1 == WorktreePaths(root, m, t2).1
  {
    var dir := PathJoin(root, ".worktrees");
    assert dir[|dir| - 1] == 's' by {
      assert ".worktrees"[..1] != "/" by { assert ".worktrees"[0] == '.'; }
      assert ".worktrees"[9] == 's';
    }
    assert !EndsWith(dir, "/");
    var a, b := "iss-" + NatToString(m), "iss-" + NatToString(n);
    assert !StartsWith(a, "/") && !StartsWith(b, "/");
    if WorktreeDir(root, m) == WorktreeDir(root, n) {
      assert dir + "/" + a == dir + "/" + b;
      assert a == (dir + "/" + a)[|dir| + 1..];
      assert b == (dir + "/" + b)[|dir| + 1..];
      assert NatToString(m) == a[4..] && NatToString(n) == b[4..];
      NatToStringInjective(m, n);
    }
  }

  /** `stale_since`: strictly more than `minutes` minutes have passed. */
  predicate StaleSince(now: int, timestamp: int, minutes: int)
  {
    now - timestamp > minutes * 60
  }

  /** Exactly `minutes` minutes is not yet stale; one second more is. */
  lemma StaleIsStrict(timestamp: int, minutes: int)
    ensures !StaleSince(timestamp + minutes * 60, timestamp, minutes)
    ensures StaleSince(timestamp + minutes * 60 + 1, timestamp, minutes)
  {
  }

  // ------------------------------------------------------------ state

  /** The per-issue state file: each key is absent (`None`) or present. */
  datatype IssueState = IssueState(agent: Option<string>, branch: Option<string>, worktree: Option<string>,
                                   status: Option<string>, lastActivity: Option<int>, stalledAt: Option<int>,
                                   completedAt: Option<int>, prUrl: Option<string>)

  /** `load_state` of an issue without a state file: `{}`. */
  const NoState: IssueState := IssueState(None, None, None, None, None, None, None, None)

  /** Python truthiness of `state.get(key)`. */
  predicate SetInt(o: Option<int>) { o.Some? && o.value != 0 }
  predicate SetStr(o: Option<string>) { o.Some? && o.value != "" }

  datatype IssueDetails = IssueDetails(number: int, title: string, state: string, url: string,
                                       labels: seq<string>, body: string)

  /** What the orchestrator says on an issue. */
  datatype Note = StartedNote(agent: string, branch: string, worktree: string) | PrNote(url: string)
                | StalledNote | DoneNote | Relay(text: string)

  /** The calls the orchestrator makes, in order. */
  datatype Effect =
    | EnsureWorktree(branch: string, worktree: string)
    | SpawnAgent(name: string, initial: string, cwd: string)
    | ReplaceLabels(issue: int, add: seq<string>, remove: seq<string>)
    | CommentOn(issue: int, note: Note)
    | EnsurePr(issue: int, branch: string, title: string)

  /** The state files and the calls made so far. */
  datatype World = World(states: map<int, IssueState>, effects: seq<Effect>)

  function LoadState(w: World, n: int): IssueState
  {
    if n in w.states then w.states[n] else NoState
  }

  function SaveState(w: World, n: int, s: IssueState): World
  {
    w.(states := w.states[n := s])
  }

  function Emit(w: World, es: seq<Effect>): World
  {
    w.(effects := w.effects + es)
  }

  function AgentName(n: int): string
  {
    "iss" + IntToString(n)
  }

  function Prompt(issue: IssueDetails): string
  {
    Join(GithubSync.PromptLines(GithubSync.Issue(issue.number, issue.title, issue.labels),
                                GithubSync.CharterOf(Some(issue.body))), "\n")
  }

  /** The first message of a new agent: the prompt, then where to work. */
  function Initial(prompt: string, branch: string, worktree: string): string
  {
    prompt + "\n\nWork in this repo worktree only:\n" + "- branch: " + branch + "\n- worktree: " + worktree + "\n"
    + "When you finish a coherent step, write an end-of-step report."
  }

  /** The calls of `start_for_issue`: the worktree, the agent, the labels
      and the comment. */
  function StartCalls(root: string, issue: IssueDetails): seq<Effect>
  {
    var n := issue.number;
    var branch := Branch(n, issue.title);
    var wt := WorktreeDir(root, n);
    [EnsureWorktree(branch, wt), SpawnAgent(AgentName(n), Initial(Prompt(issue), branch, wt), wt),
     ReplaceLabels(n, [LabelRunning], [LabelQueued, LabelStalled]),
     CommentOn(n, StartedNote(AgentName(n), branch, wt))]
  }

  /** The state file `start_for_issue` writes; earlier keys are dropped. */
  function StartState(root: string, issue: IssueDetails, now: int): IssueState
  {
    var n := issue.number;
    IssueState(Some(AgentName(n)), Some(Branch(n, issue.title)), Some(WorktreeDir(root, n)), Some("running"),
               Some(now), None, None, None)
  }

  /** What `start_for_issue` does. */
  function Start(w: World, root: string, issue: IssueDetails, now: int): World
  {
    SaveState(Emit(w, StartCalls(root, issue)), issue.number, StartState(root, issue, now))
  }

  function PrTitle(issue: IssueDetails): string
  {
    "Issue #" + IntToString(issue.number) + ": " + issue.title
  }

  /** What `open_pr_if_needed` does, with `given` the URL `ensure_pr`
      gives back: a PR that was given moves the issue to review. */
  function OpenPr(w: World, issue: IssueDetails, s: IssueState, given: Option<string>): World
  {
    var n := issue.number;
    var w1 := Emit(w, [EnsurePr(n, if SetStr(s.branch) then s.branch.value else "", PrTitle(issue))]);
    if SetStr(given) then
      Emit(w1, [ReplaceLabels(n, [LabelReview], [LabelRunning, LabelStalled, LabelQueued]), CommentOn(n, PrNote(given.value))])
    else w1
  }

  /** `agent_name and agent_name in hub.subs`. */
  predicate AgentActive(s: IssueState, live: set<string>)
  {
    SetStr(s.agent) && s.agent.value in live
  }

  /** Whether a poll (re)starts the agent of an issue. */
  predicate Starts(s: IssueState, labels: seq<string>, live: set<string>)
  {
    (LabelQueued in labels && s.status != Some("running")) || (LabelRunning in labels && !AgentActive(s, live))
  }

  /** The stall bookkeeping of a poll that does not start an agent. */
  function StallStep(w: World, n: int, s: IssueState, labels: seq<string>, now: int, staleMinutes: int): (World, IssueState)
  {
    if LabelRunning in labels then
      var last := if SetInt(s.lastActivity) then s.lastActivity.value else 0;
      if last != 0 && StaleSince(now, last, staleMinutes) && !SetInt(s.stalledAt) then
        var s1 := s.(stalledAt := Some(now));
        (SaveState(Emit(w, [ReplaceLabels(n, [LabelStalled], []), CommentOn(n, StalledNote)]), n, s1), s1)
      else (w, s)
    else if SetInt(s.stalledAt) then
      var s1 := s.(stalledAt := None);
      (SaveState(w, n, s1), s1)
    else (w, s)
  }

  /** The pull-request step of a poll that does not start an agent. */
  function PrStep(w: World, issue: IssueDetails, s: IssueState, given: Option<string>): World
  {
    if LabelPrOnComplete in issue.labels && s.status == Some("complete") && !SetStr(s.prUrl) then
      var w1 := OpenPr(w, issue, s, given);
      if SetStr(given) then SaveState(w1, issue.number, s.(prUrl := given)) else w1
    else w
  }

  /** One issue of one pass of the `daemon` loop. */
  function Poll(w: World, root: string, issue: IssueDetails, live: set<string>, now: int, staleMinutes: int,
                given: Option<string>): World
  {
    var s := LoadState(w, issue.number);
    if Starts(s, issue.labels, live) then Start(w, root, issue, now)
    else
      var (w1, s1) := StallStep(w, issue.number, s, issue.labels, now, staleMinutes);
      PrStep(w1, issue, s1, given)
  }

  /** The agents alive after one issue's poll: a started agent is in
      `hub.subs` afterwards. */
  function LiveAfter(w: World, issue: IssueDetails, live: set<string>): set<string>
  {
    if Starts(LoadState(w, issue.number), issue.labels, live) then live + {AgentName(issue.number)} else live
  }

  /** One pass of the `daemon` loop over the listed issues, each with the
      URL `ensure_pr` gives for it. */
  function Pass(w: World, root: string, polls: seq<(IssueDetails, Option<string>)>, live: set<string>, now: int,
                staleMinutes: int): World
    decreases |polls|
  {
    if polls == [] then w
    else Pass(Poll(w, root, polls[0].0, live, now, staleMinutes, polls[0].1), root, polls[1..],
              LiveAfter(w, polls[0].0, live), now, staleMinutes)
  }

  /** The pass from issue `i` on polls issue `i` and goes on from there. */
  lemma PassStep(w: World, root: string, polls: seq<(IssueDetails, Option<string>)>, i: nat, live: set<string>,
                 now: int, staleMinutes: int)
    requires i < |polls|
    ensures Pass(w, root, polls[i..], live, now, staleMinutes) ==
              Pass(Poll(w, root, polls[i].0, live, now, staleMinutes, polls[i].1), root, polls[i + 1..],
                   LiveAfter(w, polls[i].0, live), now, staleMinutes)
  {
    assert polls[i..][0] == polls[i] && polls[i..][1..] == polls[i + 1..];
  }

  /** The issue number of an agent named by `^iss(\d+)$`; `$` also
      accepts a final newline. */
  function IssueNo(who: string): (r: Option<nat>)
    ensures r.Some? ==> StartsWith(who, "iss")
  {
    var u := if who != [] && who[|who| - 1] == '\n' then who[..|who| - 1] else who;
    if |u| > 3 && u[..3] == "iss" && AllDigits(u[3..]) then Some(DigitsValue(u[3..])) else None
  }

  /** `mirror_events_to_github` for one event: `text` is the payload's
      text, `fetched` what `fetch_issue` gave (`None` when it failed) and
      `given` what `ensure_pr` gave. */
  function Mirror(w: World, kind: string, who: string, text: Option<string>, now: int,
                  fetched: Option<IssueDetails>, given: Option<string>): World
  {
    var no := IssueNo(who);
    if no.None? || no.value == 0 then w
    else if kind == "agent_to_orch" then Relayed(w, no.value, text, now)
    else if kind == "agent_removed" then Removed(w, no.value, now, fetched, given)
    else w
  }

  /** An `agent_to_orch` event of the agent of issue `n`. */
  function Relayed(w: World, n: int, text: Option<string>, now: int): World
  {
    var t := Strip(if text.Some? then text.value else "");
    var w1 := if t != "" then Emit(w, [CommentOn(n, Relay(t))]) else w;
    var s := LoadState(w1, n);
    var s1 := s.(lastActivity := Some(now), stalledAt := None,
                 status := if s.status.Some? then s.status else Some("running"));
    Emit(SaveState(w1, n, s1), [ReplaceLabels(n, [], [LabelStalled])])
  }

  /** An `agent_removed` event of the agent of issue `n`. */
  function Removed(w: World, n: int, now: int, fetched: Option<IssueDetails>, given: Option<string>): World
  {
    var s := LoadState(w, n).(status := Some("complete"), completedAt := Some(now));
    var w1 := SaveState(w, n, s);
    var prOpened := fetched.Some? && LabelPrOnComplete in fetched.value.labels;
    var w2 := if prOpened then OpenPr(w1, fetched.value, s, given) else w1;
    var withPr := prOpened && SetStr(given);
    var w3 := if withPr then SaveState(w2, n, s.(prUrl := given)) else w2;
    var removes := [LabelQueued, LabelRunning, LabelStalled];
    if withPr then Emit(w3, [ReplaceLabels(n, [], removes)])
    else Emit(w3, [ReplaceLabels(n, [LabelDone], removes), CommentOn(n, DoneNote)])
  }


  // ------------------------------------------------------------ the daemon

  class Orchestrator {
    var states: map<int, IssueState>
    var effects: seq<Effect>

    constructor ()
      ensures states == map[] && effects == []
    {
      states := map[];
      effects := [];
    }

    function Snapshot(): World
      reads this
    {
      World(states, effects)
    }

    function Load(n: int): IssueState
      reads this
    {
      if n in states then states[n] else NoState
    }

    /** The prompt of `start_for_issue`: the charter parsed from the body,
        formatted with the issue. */
    static method BuildPrompt(issue: IssueDetails) returns (prompt: string)
      ensures prompt == Prompt(issue)
    {
      var charter := GithubSync.ParseIssueBody(Some(issue.body));
      prompt := GithubSync.FormatIssuePrompt(GithubSync.Issue(issue.number, issue.title, issue.labels), charter);
    }

    /** `start_for_issue`. */
    method StartForIssue(root: string, issue: IssueDetails, now: int)
      modifies this
      ensures Snapshot() == Start(old(Snapshot()), root, issue, now)
    {
      var prompt := BuildPrompt(issue);
      var branch := Branch(issue.number, issue.title);
      var wt := WorktreeDir(root, issue.number);
      var agent := AgentName(issue.number);
      effects := effects + [EnsureWorktree(branch, wt), SpawnAgent(agent, Initial(prompt, branch, wt), wt),
                            ReplaceLabels(issue.number, [LabelRunning], [LabelQueued, LabelStalled]),
                            CommentOn(issue.number, StartedNote(agent, branch, wt))];
      states := states[issue.number := StartState(root, issue, now)];
    }

    /** `open_pr_if_needed`. */
    method OpenPrIfNeeded(issue: IssueDetails, s: IssueState, given: Option<string>) returns (prUrl: Option<string>)
      modifies this
      ensures prUrl == given
      ensures Snapshot() == OpenPr(old(Snapshot()), issue, s, given)
    {
      var branch := if s.branch.Some? && s.branch.value != "" then s.branch.value else "";
      effects := effects + [EnsurePr(issue.number, branch, "Issue #" + IntToString(issue.number) + ": " + issue.title)];
      prUrl := given;
      if prUrl.Some? && prUrl.value != "" {
        effects := effects + [ReplaceLabels(issue.number, [LabelReview], [LabelRunning, LabelStalled, LabelQueued])];
        effects := effects + [CommentOn(issue.number, PrNote(prUrl.value))];
      }
    }

    /** The stall bookkeeping of the `daemon` loop body. */
    method MarkOrClearStall(n: int, state0: IssueState, labels: seq<string>, now: int, staleMinutes: int)
      returns (state: IssueState)
      modifies this
      ensures (Snapshot(), state) == StallStep(old(Snapshot()), n, state0, labels, now, staleMinutes)
    {
      ghost var w0 := Snapshot();
      state := state0;
      if LabelRunning in labels {
        var last := if state.lastActivity.Some? && state.lastActivity.value != 0 then state.lastActivity.value else 0;
        if last != 0 && StaleSince(now, last, staleMinutes) && !(state.stalledAt.Some? && state.stalledAt.value != 0) {
          effects := effects + [ReplaceLabels(n, [LabelStalled], []), CommentOn(n, StalledNote)];
          state := state.(stalledAt := Some(now));
          states := states[n := state];
          assert Snapshot() == SaveState(Emit(w0, [ReplaceLabels(n, [LabelStalled], []), CommentOn(n, StalledNote)]), n, state);
        }
      } else if state.stalledAt.Some? && state.stalledAt.value != 0 {
        state := state.(stalledAt := None);
        states := states[n := state];
        assert Snapshot() == SaveState(w0, n, state);
      }
    }

    /** The pull-request step of the `daemon` loop body. */
    method OpenPrOnComplete(issue: IssueDetails, state0: IssueState, given: Option<string>)
      modifies this
      ensures Snapshot() == PrStep(old(Snapshot()), issue, state0, given)
    {
      var state := state0;
      if LabelPrOnComplete in issue.labels && state.status == Some("complete") && !(state.prUrl.Some? && state.prUrl.value != "") {
        var prUrl := OpenPrIfNeeded(issue, state, given);
        if prUrl.Some? && prUrl.value != "" {
          state := state.(prUrl := prUrl);
          states := states[issue.number := state];
        }
      }
    }

    /** The body of the `daemon` loop for one issue. */
    method PollIssue(root: string, issue: IssueDetails, live: set<string>, now: int, staleMinutes: int,
                     given: Option<string>)
      modifies this
      ensures Snapshot() == Poll(old(Snapshot()), root, issue, live, now, staleMinutes, given)
    {
      ghost var w0 := Snapshot();
      var labels := issue.labels;
      var state := Load(issue.number);
      assert state == LoadState(w0, issue.number);
      var agentActive := state.agent.Some? && state.agent.value != "" && state.agent.value in live;
      assert agentActive == AgentActive(state, live);
      if LabelQueued in labels && state.status != Some("running") {
        StartForIssue(root, issue, now);
        return;
      }
      if LabelRunning in labels && !agentActive {
        StartForIssue(root, issue, now);
        return;
      }
      assert !Starts(state, labels, live);
      var state1 := MarkOrClearStall(issue.number, state, labels, now, staleMinutes);
      ghost var w1 := Snapshot();
      assert (w1, state1) == StallStep(w0, issue.number, state, labels, now, staleMinutes);
      OpenPrOnComplete(issue, state1, given);
      assert Snapshot() == PrStep(w1, issue, state1, given);
    }

    /** One pass of the `daemon` loop: every listed issue is polled in
        order, and an agent started for one issue counts as alive for the
        rest of the pass. */
    method PollPass(root: string, polls: seq<(IssueDetails, Option<string>)>, live0: set<string>, now: int,
                    staleMinutes: int)
      modifies this
      ensures Snapshot() == Pass(old(Snapshot()), root, polls, live0, now, staleMinutes)
    {
      ghost var w0 := Snapshot();
      var live := live0;
      var i := 0;
      while i < |polls|
        invariant 0 <= i <= |polls|
        invariant Pass(Snapshot(), root, polls[i..], live, now, staleMinutes) == Pass(w0, root, polls, live0, now, staleMinutes)
      {
        PassStep(Snapshot(), root, polls, i, live, now, staleMinutes);
        live := PollTracked(root, polls[i].0, live, now, staleMinutes, polls[i].1);
        i := i + 1;
      }
      assert polls[i..] == [];
    }

    /** One issue of the pass: the poll, and the live agents after it. */
    method PollTracked(root: string, issue: IssueDetails, live: set<string>, now: int, staleMinutes: int,
                       given: Option<string>) returns (next: set<string>)
      modifies this
      ensures Snapshot() == Poll(old(Snapshot()), root, issue, live, now, staleMinutes, given)
      ensures next == LiveAfter(old(Snapshot()), issue, live)
    {
      ghost var w := Snapshot();
      next := live;
      if Starts(Load(issue.number), issue.labels, live) {
        next := live + {AgentName(issue.number)};
      }
      assert Load(issue.number) == LoadState(w, issue.number);
      PollIssue(root, issue, live, now, staleMinutes, given);
    }

    /** `mirror_events_to_github` for one event. */
    method MirrorEvent(kind: string, who: string, text: Option<string>, now: int,
                       fetched: Option<IssueDetails>, given: Option<string>)
      modifies this
      ensures Snapshot() == Mirror(old(Snapshot()), kind, who, text, now, fetched, given)
    {
      var issueNo := IssueNo(who);
      if issueNo.None? || issueNo.value == 0 {
        return;
      }
      if kind == "agent_to_orch" {
        RelayMessage(issueNo.value, text, now);
      } else if kind == "agent_removed" {
        CloseOut(issueNo.value, now, fetched, given);
      }
    }

    /** The `agent_to_orch` branch of `mirror_event`. */
    method RelayMessage(n: int, text: Option<string>, now: int)
      modifies this
      ensures Snapshot() == Relayed(old(Snapshot()), n, text, now)
    {
      var t := Strip(if text.Some? then text.value else "");
      if t != "" {
        effects := effects + [CommentOn(n, Relay(t))];
      }
      var state := Load(n);
      state := state.(lastActivity := Some(now));
      state := state.(stalledAt := None);
      if state.status.None? {
        state := state.(status := Some("running"));
      }
      states := states[n := state];
      effects := effects + [ReplaceLabels(n, [], [LabelStalled])];
    }

    /** The `agent_removed` branch of `mirror_event`. */
    method CloseOut(n: int, now: int, fetched: Option<IssueDetails>, given: Option<string>)
      modifies this
      ensures Snapshot() == Removed(old(Snapshot()), n, now, fetched, given)
    {
      var state := Load(n);
      state := state.(status := Some("complete"), completedAt := Some(now));
      states := states[n := state];
      var prUrl: Option<string> := None;
      if fetched.Some? && LabelPrOnComplete in fetched.value.labels {
        prUrl := OpenPrIfNeeded(fetched.value, state, given);
        if prUrl.Some? && prUrl.value != "" {
          state := state.(prUrl := prUrl);
          states := states[n := state];
        }
      }
      var removes := [LabelQueued, LabelRunning, LabelStalled];
      if prUrl.Some? && prUrl.value != "" {
        effects := effects + [ReplaceLabels(n, [], removes)];
      } else {
        effects := effects + [ReplaceLabels(n, [LabelDone], removes)];
        effects := effects + [CommentOn(n, DoneNote)];
      }
    }

  }

  // ------------------------------------------------------------ properties

  /** The number of agents spawned among `es`. */
  function Spawns(es: seq<Effect>): nat
  {
    if es == [] then 0 else (if es[0].SpawnAgent? then 1 else 0) + Spawns(es[1..])
  }

  /** The number of requests among `es` that add the stalled label. */
  function StallMarks(es: seq<Effect>): nat
  {
    if es == [] then 0 else (if IsStallMark(es[0]) then 1 else 0) + StallMarks(es[1..])
  }

  predicate IsStallMark(e: Effect)
  {
    e.ReplaceLabels? && e.add == [LabelStalled] && e.remove == []
  }

  /** The number of pull requests asked for among `es`. */
  function PrRequests(es: seq<Effect>): nat
  {
    if es == [] then 0 else (if es[0].EnsurePr? then 1 else 0) + PrRequests(es[1..])
  }

  lemma {:induction false} CountsAppend(a: seq<Effect>, b: seq<Effect>)
    ensures Spawns(a + b) == Spawns(a) + Spawns(b)
    ensures StallMarks(a + b) == StallMarks(a) + StallMarks(b)
    ensures PrRequests(a + b) == PrRequests(a) + PrRequests(b)
    decreases |a|
  {
    if a == [] {
      assert a + b == b;
    } else {
      assert (a + b)[0] == a[0] && (a + b)[1..] == a[1..] + b;
      CountsAppend(a[1..], b);
    }
  }

  lemma CountsOne(e: Effect)
    ensures Spawns([e]) == (if e.SpawnAgent? then 1 else 0)
    ensures StallMarks([e]) == (if IsStallMark(e) then 1 else 0)
    ensures PrRequests([e]) == (if e.EnsurePr? then 1 else 0)
  {
    assert [e][1..] == [];
  }

  /** Counting over `a + [e]`. */
  lemma CountsSnoc(a: seq<Effect>, e: Effect)
    ensures Spawns(a + [e]) == Spawns(a) + (if e.SpawnAgent? then 1 else 0)
    ensures StallMarks(a + [e]) == StallMarks(a) + (if IsStallMark(e) then 1 else 0)
    ensures PrRequests(a + [e]) == PrRequests(a) + (if e.EnsurePr? then 1 else 0)
  {
    CountsAppend(a, [e]);
    CountsOne(e);
  }

  lemma CountsFour(e1: Effect, e2: Effect, e3: Effect, e4: Effect)
    ensures Spawns([e1, e2, e3, e4]) == Spawns([e1]) + Spawns([e2]) + Spawns([e3]) + Spawns([e4])
    ensures StallMarks([e1, e2, e3, e4]) == StallMarks([e1]) + StallMarks([e2]) + StallMarks([e3]) + StallMarks([e4])
    ensures PrRequests([e1, e2, e3, e4]) == PrRequests([e1]) + PrRequests([e2]) + PrRequests([e3]) + PrRequests([e4])
  {
    assert [e1, e2, e3, e4] == [e1] + [e2] + [e3] + [e4];
    CountsAppend([e1], [e2]);
    CountsAppend([e1] + [e2], [e3]);
    CountsAppend([e1] + [e2] + [e3], [e4]);
  }

  /** A start spawns one agent, requests no pull request and does not
      mark the issue stalled; the new state says the agent is running. */
  lemma StartEffects(w: World, root: string, issue: IssueDetails, now: int)
    ensures Spawns(Start(w, root, issue, now).effects) == Spawns(w.effects) + 1
    ensures StallMarks(Start(w, root, issue, now).effects) == StallMarks(w.effects)
    ensures PrRequests(Start(w, root, issue, now).effects) == PrRequests(w.effects)
    ensures LoadState(Start(w, root, issue, now), issue.number).status == Some("running")
    ensures LoadState(Start(w, root, issue, now), issue.number).agent == Some(AgentName(issue.number))
  {
    var es := StartCalls(root, issue);
    assert es == [es[0], es[1], es[2], es[3]];
    CountsFour(es[0], es[1], es[2], es[3]);
    CountsOne(es[0]);
    CountsOne(es[1]);
    CountsOne(es[2]);
    CountsOne(es[3]);
    assert !IsStallMark(es[2]) by { assert [LabelRunning][0] != LabelStalled; }
    CountsAppend(w.effects, es);
  }

  /** The effects of the stall and pull-request steps spawn nothing. */
  lemma {:induction false} StallStepEffects(w: World, n: int, s: IssueState, labels: seq<string>, now: int, m: int)
    ensures Spawns(StallStep(w, n, s, labels, now, m).0.effects) == Spawns(w.effects)
    ensures PrRequests(StallStep(w, n, s, labels, now, m).0.effects) == PrRequests(w.effects)
    ensures StallMarks(StallStep(w, n, s, labels, now, m).0.effects) ==
              StallMarks(w.effects) + (if StallStep(w, n, s, labels, now, m).0.effects == w.effects then 0 else 1)
    ensures StallStep(w, n, s, labels, now, m).0.effects != w.effects ==>
              LabelRunning in labels && !SetInt(s.stalledAt)
    ensures StallStep(w, n, s, labels, now, m).1 == LoadState(StallStep(w, n, s, labels, now, m).0, n) ||
            StallStep(w, n, s, labels, now, m).0 == w
    ensures StallStep(w, n, s, labels, now, m).1.status == s.status
    ensures StallStep(w, n, s, labels, now, m).1.prUrl == s.prUrl
    ensures StallStep(w, n, s, labels, now, m).1.agent == s.agent
  {
    var e1, e2 := ReplaceLabels(n, [LabelStalled], []), CommentOn(n, StalledNote);
    if StallStep(w, n, s, labels, now, m).0.effects != w.effects {
      assert w.effects + [e1, e2] == w.effects + [e1] + [e2];
      CountsSnoc(w.effects, e1);
      CountsSnoc(w.effects + [e1], e2);
    }
  }

  lemma PrStepEffects(w: World, issue: IssueDetails, s: IssueState, given: Option<string>)
    ensures Spawns(PrStep(w, issue, s, given).effects) == Spawns(w.effects)
    ensures StallMarks(PrStep(w, issue, s, given).effects) == StallMarks(w.effects)
    ensures PrRequests(PrStep(w, issue, s, given).effects) ==
              PrRequests(w.effects) +
              (if LabelPrOnComplete in issue.labels && s.status == Some("complete") && !SetStr(s.prUrl) then 1 else 0)
  {
    if LabelPrOnComplete in issue.labels && s.status == Some("complete") && !SetStr(s.prUrl) {
      var n := issue.number;
      var e0 := EnsurePr(n, if SetStr(s.branch) then s.branch.value else "", PrTitle(issue));
      CountsSnoc(w.effects, e0);
      if SetStr(given) {
        var e1 := ReplaceLabels(n, [LabelReview], [LabelRunning, LabelStalled, LabelQueued]);
        var e2 := CommentOn(n, PrNote(given.value));
        assert w.effects + [e0] + [e1, e2] == w.effects + [e0] + [e1] + [e2];
        assert !IsStallMark(e1) by { assert [LabelReview][0] != LabelStalled; }
        CountsSnoc(w.effects + [e0], e1);
        CountsSnoc(w.effects + [e0] + [e1], e2);
      }
    }
  }

  /** A poll spawns an agent exactly when the issue is queued and not
      running, or labelled running without a live agent; in that case it
      does nothing else that a poll can do (no stall mark, no PR). */
  lemma PollStarts(w: World, root: string, issue: IssueDetails, live: set<string>, now: int, m: int,
                   given: Option<string>)
    ensures Spawns(Poll(w, root, issue, live, now, m, given).effects) ==
              Spawns(w.effects) + (if Starts(LoadState(w, issue.number), issue.labels, live) then 1 else 0)
    ensures Starts(LoadState(w, issue.number), issue.labels, live) ==>
              StallMarks(Poll(w, root, issue, live, now, m, given).effects) == StallMarks(w.effects) &&
              PrRequests(Poll(w, root, issue, live, now, m, given).effects) == PrRequests(w.effects)
  {
    var s := LoadState(w, issue.number);
    if Starts(s, issue.labels, live) {
      StartEffects(w, root, issue, now);
    } else {
      var (w1, s1) := StallStep(w, issue.number, s, issue.labels, now, m);
      StallStepEffects(w, issue.number, s, issue.labels, now, m);
      PrStepEffects(w1, issue, s1, given);
    }
  }

  /** Stall marking is idempotent: of two polls of a running issue that
      start nothing, at most one adds the stalled label, and only while
      `stalled_at` is unset. */
  lemma StallMarkedOnce(w: World, root: string, issue: IssueDetails, live: set<string>, now1: int, now2: int,
                        m: int, given1: Option<string>, given2: Option<string>)
    requires !Starts(LoadState(w, issue.number), issue.labels, live)
    requires now1 != 0
    ensures StallMarks(Poll(Poll(w, root, issue, live, now1, m, given1), root, issue, live, now2, m, given2).effects)
              <= StallMarks(w.effects) + 1
    ensures SetInt(LoadState(w, issue.number).stalledAt) ==>
              StallMarks(Poll(w, root, issue, live, now1, m, given1).effects) == StallMarks(w.effects)
  {
    var n := issue.number;
    var s := LoadState(w, n);
    var (w1, s1) := StallStep(w, n, s, issue.labels, now1, m);
    StallStepEffects(w, n, s, issue.labels, now1, m);
    PrStepEffects(w1, issue, s1, given1);
    var v := Poll(w, root, issue, live, now1, m, given1);
    var t := LoadState(v, n);
    PollKeeps(w, root, issue, live, now1, m, given1);
    assert !Starts(t, issue.labels, live);
    var (v1, t1) := StallStep(v, n, t, issue.labels, now2, m);
    StallStepEffects(v, n, t, issue.labels, now2, m);
    PrStepEffects(v1, issue, t1, given2);
    if StallMarks(v.effects) != StallMarks(w.effects) {
      assert w1.effects != w.effects;
      assert SetInt(t.stalledAt);
      assert v1.effects == v.effects;
    }
  }

  /** A poll that starts nothing keeps the agent and the status, and a
      stall mark it makes leaves `stalled_at` set. */
  lemma PollKeeps(w: World, root: string, issue: IssueDetails, live: set<string>, now: int, m: int,
                  given: Option<string>)
    requires !Starts(LoadState(w, issue.number), issue.labels, live)
    requires now != 0
    ensures LoadState(Poll(w, root, issue, live, now, m, given), issue.number).agent == LoadState(w, issue.number).agent
    ensures LoadState(Poll(w, root, issue, live, now, m, given), issue.number).status == LoadState(w, issue.number).status
    ensures StallStep(w, issue.number, LoadState(w, issue.number), issue.labels, now, m).0.effects != w.effects ==>
              SetInt(LoadState(Poll(w, root, issue, live, now, m, given), issue.number).stalledAt)
  {
    var n := issue.number;
    var s := LoadState(w, n);
    StallStepEffects(w, n, s, issue.labels, now, m);
  }

  /** Without the running label, a poll that starts nothing leaves
      `stalled_at` unset. */
  lemma StallCleared(w: World, root: string, issue: IssueDetails, live: set<string>, now: int, m: int,
                     given: Option<string>)
    requires !Starts(LoadState(w, issue.number), issue.labels, live)
    requires LabelRunning !in issue.labels
    ensures !SetInt(LoadState(Poll(w, root, issue, live, now, m, given), issue.number).stalledAt)
  {
  }

  /** A pull request is asked for only while the state has no `pr_url`,
      and one that was given is recorded, so the next poll asks for
      none. */
  lemma PrOpenedOnce(w: World, root: string, issue: IssueDetails, live: set<string>, now1: int, now2: int,
                     m: int, url: string, given2: Option<string>)
    requires !Starts(LoadState(w, issue.number), issue.labels, live)
    requires url != "" && now1 != 0
    ensures PrRequests(Poll(Poll(w, root, issue, live, now1, m, Some(url)), root, issue, live, now2, m, given2).effects)
              <= PrRequests(w.effects) + 1
  {
    var n := issue.number;
    var v := Poll(w, root, issue, live, now1, m, Some(url));
    PollPr(w, root, issue, live, now1, m, Some(url));
    PollKeeps(w, root, issue, live, now1, m, Some(url));
    assert !Starts(LoadState(v, n), issue.labels, live);
    PollPr(v, root, issue, live, now2, m, given2);
  }

  /** A poll that starts nothing asks for a PR exactly when the issue is
      complete, labelled for a PR and has no PR URL yet; a URL given back
      is then recorded. */
  lemma PollPr(w: World, root: string, issue: IssueDetails, live: set<string>, now: int, m: int,
               given: Option<string>)
    requires !Starts(LoadState(w, issue.number), issue.labels, live)
    ensures PrRequests(Poll(w, root, issue, live, now, m, given).effects) ==
              PrRequests(w.effects) + (if OpensPr(issue, LoadState(w, issue.number)) then 1 else 0)
    ensures OpensPr(issue, LoadState(w, issue.number)) && SetStr(given) ==>
              SetStr(LoadState(Poll(w, root, issue, live, now, m, given), issue.number).prUrl)
  {
    var n := issue.number;
    var s := LoadState(w, n);
    var (w1, s1) := StallStep(w, n, s, issue.labels, now, m);
    StallStepEffects(w, n, s, issue.labels, now, m);
    PrStepEffects(w1, issue, s1, given);
  }

  /** The condition under which `open_pr_if_needed` asks for a PR. */
  predicate OpensPr(issue: IssueDetails, s: IssueState)
  {
    LabelPrOnComplete in issue.labels && s.status == Some("complete") && !SetStr(s.prUrl)
  }


  /** The last `k` calls made (all of them when there are fewer). */
  function LastCalls(w: World, k: nat): seq<Effect>
  {
    if |w.effects| >= k then w.effects[|w.effects| - k..] else w.effects
  }

  /** An `agent_to_orch` event from a numbered agent records activity,
      clears `stalled_at` and asks for the stalled label to go. */
  lemma ActivityRecorded(w: World, n: nat, text: Option<string>, now: int)
    requires n != 0
    ensures LastCalls(Mirror(w, "agent_to_orch", AgentName(n), text, now, None, None), 1) ==
            [ReplaceLabels(n, [], [LabelStalled])]
    ensures LoadState(Mirror(w, "agent_to_orch", AgentName(n), text, now, None, None), n).lastActivity == Some(now)
    ensures LoadState(Mirror(w, "agent_to_orch", AgentName(n), text, now, None, None), n).stalledAt == None
    ensures LoadState(Mirror(w, "agent_to_orch", AgentName(n), text, now, None, None), n).status ==
              (if LoadState(w, n).status.Some? then LoadState(w, n).status else Some("running"))
  {
    AgentNameNumber(n);
  }

  /** `iss<N>` names issue N. */
  lemma AgentNameNumber(n: nat)
    ensures IssueNo(AgentName(n)) == Some(n)
  {
    var who := AgentName(n);
    assert who[|who| - 1] != '\n' by { assert who[|who| - 1] == NatToString(n)[|NatToString(n)| - 1]; }
    assert who[..3] == "iss" && who[3..] == NatToString(n);
    NatToStringRoundTrip(n);
  }

  /** An event from an agent whose name is not `iss<N>` with N > 0
      changes nothing. */
  lemma OtherAgentsIgnored(w: World, kind: string, who: string, text: Option<string>, now: int,
                           fetched: Option<IssueDetails>, given: Option<string>)
    requires !StartsWith(who, "iss") || IssueNo(who) == Some(0)
    ensures Mirror(w, kind, who, text, now, fetched, given) == w
  {
  }

  lemma Iss0Ignored(w: World, kind: string, text: Option<string>, now: int, fetched: Option<IssueDetails>,
                    given: Option<string>)
    ensures Mirror(w, kind, "iss0", text, now, fetched, given) == w
  {
    assert "iss0"[..3] == "iss" && "iss0"[3..] == "0";
    assert DigitsValue("0") == 0 by { assert "0"[..0] == []; }
  }

  /** When an agent is removed its issue is complete; without an given
      PR it is labelled done (queued, running and stalled removed) and a
      comment says so, with one only the three labels are removed. */
  lemma RemovalLabels(w: World, n: nat, now: int, fetched: Option<IssueDetails>, given: Option<string>)
    requires n != 0
    ensures LoadState(Mirror(w, "agent_removed", AgentName(n), None, now, fetched, given), n).status == Some("complete")
    ensures fetched.Some? && LabelPrOnComplete in fetched.value.labels && SetStr(given) ==>
              LastCalls(Mirror(w, "agent_removed", AgentName(n), None, now, fetched, given), 1) ==
              [ReplaceLabels(n, [], [LabelQueued, LabelRunning, LabelStalled])]
    ensures !(fetched.Some? && LabelPrOnComplete in fetched.value.labels && SetStr(given)) ==>
              LastCalls(Mirror(w, "agent_removed", AgentName(n), None, now, fetched, given), 2) ==
              [ReplaceLabels(n, [LabelDone], [LabelQueued, LabelRunning, LabelStalled]), CommentOn(n, DoneNote)]
  {
    AgentNameNumber(n);
  }

  /** Opening a PR moves the issue to review, taking off running, stalled
      and queued. */
  lemma PrMovesToReview(w: World, issue: IssueDetails, s: IssueState, url: string)
    requires url != ""
    ensures LastCalls(OpenPr(w, issue, s, Some(url)), 2) ==
              [ReplaceLabels(issue.number, [LabelReview], [LabelRunning, LabelStalled, LabelQueued]),
               CommentOn(issue.number, PrNote(url))]
  {
  }

  /** A poll only appends calls and spawns at most one agent. */
  lemma PollExtends(w: World, root: string, issue: IssueDetails, live: set<string>, now: int, m: int,
                    given: Option<string>)
    ensures w.effects <= Poll(w, root, issue, live, now, m, given).effects
    ensures Spawns(Poll(w, root, issue, live, now, m, given).effects) <= Spawns(w.effects) + 1
  {
    PollStarts(w, root, issue, live, now, m, given);
    var s := LoadState(w, issue.number);
    if !Starts(s, issue.labels, live) {
      StallStepEffects(w, issue.number, s, issue.labels, now, m);
      var (w1, s1) := StallStep(w, issue.number, s, issue.labels, now, m);
      PrStepEffects(w1, issue, s1, given);
    }
  }

  /** A pass keeps every earlier call and spawns at most one agent per
      issue. */
  lemma {:induction false} PassExtends(w: World, root: string, polls: seq<(IssueDetails, Option<string>)>,
                                       live: set<string>, now: int, m: int)
    ensures w.effects <= Pass(w, root, polls, live, now, m).effects
    ensures Spawns(Pass(w, root, polls, live, now, m).effects) <= Spawns(w.effects) + |polls|
    decreases |polls|
  {
    if polls != [] {
      var w1 := Poll(w, root, polls[0].0, live, now, m, polls[0].1);
      PollExtends(w, root, polls[0].0, live, now, m, polls[0].1);
      PassExtends(w1, root, polls[1..], LiveAfter(w, polls[0].0, live), now, m);
    }
  }
}
