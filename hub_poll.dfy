/** One pass of the GitHub poller (codex_hub_core.py `_poll_github`): the
    issues labelled for orchestration that are neither held, closed nor
    blocked by an open issue are admitted, as many as the WIP limit leaves
    room for, each as a sub-agent `iss<number>`. The issue listing, the
    status-comment ids GitHub hands back and the clock are parameters. */
module HubPoll {
  import opened Text
  import opened JsonValue
  import opened HubNames
  import opened HubModel
  import opened HubRegistry
  import HubPolicy
  import GithubSync
  import GithubLabels

  /** One item of `list_orchestrate_issues`: the issue, its body and its state. */
  datatype Listing = Listing(issue: GithubSync.Issue, body: Option<string>, state: Option<string>)

  const PollSuffix: string :=
    "\n\nYou have high permissions and autopilot is enabled. Create a small, testable branch or PR. " +
    "Provide regular check-ins. When done, map outcomes to Acceptance and reference this issue."

  predicate IsClosed(x: Listing)
  {
    Lower(if x.state.Some? then x.state.value else "") == "closed"
  }

  /** The numbers of the closed issues in the listing. */
  function Closed(items: seq<Listing>): set<int>
  {
    set i | 0 <= i < |items| && IsClosed(items[i]) :: items[i].issue.number
  }

  /** Whether the poller takes an issue up: no agent holds it, it is open,
      and every issue blocking it is closed. */
  predicate IsReady(x: Listing, active: set<int>, closed: set<int>)
  {
    x.issue.number !in active && x.issue.number !in closed &&
    forall b :: b in GithubLabels.Blockers(x.body, x.issue.labels) ==> b in closed
  }

  /** The ready issues, in listing order. */
  function Ready(items: seq<Listing>, active: set<int>, closed: set<int>): (ready: seq<Listing>)
    ensures forall x :: x in ready <==> x in items && IsReady(x, active, closed)
    ensures |ready| <= |items|
  {
    if items == [] then []
    else (if IsReady(items[0], active, closed) then [items[0]] else []) + Ready(items[1..], active, closed)
  }

  /** `max(0, wip_limit - len(subs)) if wip_limit else len(ready)`. */
  function Capacity(c: Config, held: nat, ready: nat): nat
  {
    if c.wipLimit != 0 then (if c.wipLimit >= held then c.wipLimit - held else 0) else ready
  }

  /** `ready[:capacity]`. */
  function Admitted(c: Config, s: HubState, items: seq<Listing>): (adm: seq<Listing>)
    ensures var ready := Ready(items, s.reg.issueToAgent.Keys, Closed(items));
            adm <= ready &&
            (forall x :: x in adm ==> x in items && IsReady(x, s.reg.issueToAgent.Keys, Closed(items))) &&
            (c.wipLimit != 0 ==> |s.reg.subs| + |adm| <= if c.wipLimit >= |s.reg.subs| then c.wipLimit else |s.reg.subs|) &&
            (|adm| < |ready| ==> c.wipLimit != 0 && |s.reg.subs| + |adm| >= c.wipLimit)
  {
    var ready := Ready(items, s.reg.issueToAgent.Keys, Closed(items));
    var cap := Capacity(c, |s.reg.subs|, |ready|);
    ready[..if cap <= |ready| then cap else |ready|]
  }

  function IssueName(n: int): string
  {
    "iss" + IntToString(n)
  }

  /** The name of an issue's agent is already a normalised agent key. */
  lemma IssueNameIsKey(n: int)
    requires n >= 0
    ensures IsAgentKey(IssueName(n)) && NormaliseAgentName(Some(IssueName(n))) == IssueName(n)
  {
    var r := IssueName(n);
    var d := IntToString(n);
    assert forall i :: 3 <= i < |r| ==> r[i] == d[i - 3];
    assert forall i :: 0 <= i < |r| ==> r[i] != '_';
    KeyIsFixedPoint(r);
  }

  /** The task handed to an issue's agent: the issue prompt and the
      autopilot instructions. */
  function PollPrompt(x: Listing): string
  {
    Join(GithubSync.PromptLines(x.issue, GithubSync.CharterOf(x.body)), "\n") + PollSuffix
  }

  /** The agent's metadata once the poller has filed the issue against it:
      the SLA labels override the default check-in and budget, and a
      status comment, when one could be made, is recorded. */
  function Filed(c: Config, m: Meta, x: Listing, comment: Option<int>): Meta
  {
    var sla := GithubLabels.SlaFold(map[], x.issue.labels);
    m.(issueNumber := Some(x.issue.number),
       checkinSeconds := if GithubLabels.CheckinKey in sla then sla[GithubLabels.CheckinKey] else c.defaultCheckin,
       budgetSeconds := if GithubLabels.BudgetKey in sla then sla[GithubLabels.BudgetKey] else c.defaultBudget,
       statusCommentId := if comment.Some? then comment else m.statusCommentId)
  }

  /** The loop body for one admitted issue; `comments(n)` is what
      `ensure_status_comment` returns for issue `n`, `None` when it raises. */
  function Admit(c: Config, env: HubPolicy.Env, comments: int -> Option<int>, s: HubState, x: Listing): HubState
  {
    var n := x.issue.number;
    var name := IssueName(n);
    var s1 := SpawnSub(c, s, Some(name), PollPrompt(x), c.defaultCwd, env.newConv(|s.calls|), env.now, env.dumps);
    var reg := if name in s1.reg.agentMeta
               then s1.reg.(agentMeta := s1.reg.agentMeta[name := Filed(c, s1.reg.agentMeta[name], x, comments(n))])
               else s1.reg;
    s1.(reg := reg.(issueToAgent := reg.issueToAgent[n := name]))
  }

  function AdmitAll(c: Config, env: HubPolicy.Env, comments: int -> Option<int>, s: HubState, xs: seq<Listing>): HubState
    decreases |xs|
  {
    if xs == [] then s else AdmitAll(c, env, comments, Admit(c, env, comments, s, xs[0]), xs[1..])
  }

  /** One pass of `_poll_github` over the listing `items`; without the
      GitHub helpers the poller does nothing. */
  function PollPass(c: Config, env: HubPolicy.Env, comments: int -> Option<int>, s: HubState, items: seq<Listing>): HubState
  {
    if !env.ghx then s else AdmitAll(c, env, comments, s, Admitted(c, s, items))
  }

  // ------------------------------------------------------------ properties

  /** `spawn_sub` never touches the issue map. */
  lemma SpawnKeepsIssues(c: Config, s: HubState, name: Option<string>, task: string, cwd: Option<string>,
                         conv: string, now: int, dumps: Json -> string)
    requires LogValid(s)
    ensures SpawnSub(c, s, name, task, cwd, conv, now, dumps).reg.issueToAgent == s.reg.issueToAgent
  {
    if name.None? || name.value == "" {
      SpawnMissingName(c, s, name, task, cwd, conv, now, dumps);
    } else if NormaliseAgentName(name) in s.reg.subs {
      SpawnExisting(c, s, name, task, cwd, conv, now, dumps);
    } else {
      SpawnRegisters(c, s, name, task, cwd, conv, now, dumps);
    }
  }

  /** After `spawn_sub(name, …)` the agent `name` exists. */
  lemma SpawnHolds(c: Config, s: HubState, name: string, task: string, cwd: Option<string>,
                   conv: string, now: int, dumps: Json -> string)
    requires LogValid(s) && KeysValid(s.reg) && IsAgentKey(name)
    ensures var r := SpawnSub(c, s, Some(name), task, cwd, conv, now, dumps);
            name in r.reg.subs && name in r.reg.agentMeta
  {
    KeyIsFixedPoint(name);
    if name in s.reg.subs {
      SpawnExisting(c, s, Some(name), task, cwd, conv, now, dumps);
    } else {
      SpawnRegisters(c, s, Some(name), task, cwd, conv, now, dumps);
    }
  }

  /** One admission keeps the registries consistent and the conversation
      ids fresh, adds at most one agent, and files the issue against
      `iss<number>`, which then exists. */
  lemma AdmitKeeps(c: Config, env: HubPolicy.Env, comments: int -> Option<int>, s: HubState, x: Listing)
    requires Valid(s) && HubPolicy.FreshIds(env, s) && x.issue.number >= 0
    ensures var r := Admit(c, env, comments, s, x);
            Valid(r) && HubPolicy.FreshIds(env, r) && |r.reg.subs| <= |s.reg.subs| + 1 &&
            r.reg.issueToAgent == s.reg.issueToAgent[x.issue.number := IssueName(x.issue.number)] &&
            IssueName(x.issue.number) in r.reg.subs
  {
    var n := x.issue.number;
    var name := IssueName(n);
    var conv := env.newConv(|s.calls|);
    var s1 := SpawnSub(c, s, Some(name), PollPrompt(x), c.defaultCwd, conv, env.now, env.dumps);
    IssueNameIsKey(n);
    HubPolicy.SpawnKeeps(c, s, Some(name), PollPrompt(x), c.defaultCwd, env);
    SpawnKeepsIssues(c, s, Some(name), PollPrompt(x), c.defaultCwd, conv, env.now, env.dumps);
    SpawnHolds(c, s, name, PollPrompt(x), c.defaultCwd, conv, env.now, env.dumps);
    var m := Filed(c, s1.reg.agentMeta[name], x, comments(n));
    var reg := s1.reg.(agentMeta := s1.reg.agentMeta[name := m]);
    TouchMetaValid(s1.reg, name, m);
    var r := Admit(c, env, comments, s, x);
    assert r.reg == reg.(issueToAgent := reg.issueToAgent[n := name]);
    LogCarries(s1, r);
    HubPolicy.FreshCarries(env, s1, r);
  }

  /** The issue's agent carries the issue number and the check-in and
      budget its SLA labels give, or the defaults. */
  lemma AdmitFiles(c: Config, env: HubPolicy.Env, comments: int -> Option<int>, s: HubState, x: Listing)
    requires Valid(s) && x.issue.number >= 0
    ensures var r := Admit(c, env, comments, s, x);
            var name := IssueName(x.issue.number);
            var sla := GithubLabels.SlaFold(map[], x.issue.labels);
            name in r.reg.agentMeta &&
            r.reg.agentMeta[name].issueNumber == Some(x.issue.number) &&
            r.reg.agentMeta[name].checkinSeconds == (if GithubLabels.CheckinKey in sla then sla[GithubLabels.CheckinKey] else c.defaultCheckin) &&
            r.reg.agentMeta[name].budgetSeconds == (if GithubLabels.BudgetKey in sla then sla[GithubLabels.BudgetKey] else c.defaultBudget)
  {
    var name := IssueName(x.issue.number);
    IssueNameIsKey(x.issue.number);
    SpawnHolds(c, s, name, PollPrompt(x), c.defaultCwd, env.newConv(|s.calls|), env.now, env.dumps);
  }

  /** The issue map after the admissions of `xs`. */
  function Holders(m: map<int, string>, xs: seq<Listing>): map<int, string>
    decreases |xs|
  {
    if xs == [] then m else Holders(m[xs[0].issue.number := IssueName(xs[0].issue.number)], xs[1..])
  }

  /** What the admissions of `xs` do to the issue map: each admitted issue
      is held by its agent, nothing else is added, and every other issue
      keeps its holder. */
  ghost predicate HeldFacts(a: map<int, string>, b: map<int, string>, xs: seq<Listing>)
  {
    (forall x :: x in xs ==> x.issue.number in b && b[x.issue.number] == IssueName(x.issue.number)) &&
    (forall n :: n in b <==> n in a || exists x :: x in xs && x.issue.number == n) &&
    (forall n :: n in a && (forall x :: x in xs ==> x.issue.number != n) ==> n in b && b[n] == a[n])
  }

  lemma {:induction false} HoldersFacts(m: map<int, string>, xs: seq<Listing>)
    ensures HeldFacts(m, Holders(m, xs), xs)
    decreases |xs|
  {
    if xs != [] {
      var x := xs[0];
      var b := m[x.issue.number := IssueName(x.issue.number)];
      HoldersFacts(b, xs[1..]);
      assert xs == [x] + xs[1..];
      HeldCompose(m, b, Holders(m, xs), x, xs[1..]);
    }
  }

  lemma HeldCompose(a: map<int, string>, b: map<int, string>, r: map<int, string>, x: Listing, rest: seq<Listing>)
    requires b == a[x.issue.number := IssueName(x.issue.number)]
    requires HeldFacts(b, r, rest)
    ensures HeldFacts(a, r, [x] + rest)
  {
    var xs := [x] + rest;
    forall y | y in xs
      ensures y.issue.number in r && r[y.issue.number] == IssueName(y.issue.number)
    {
      if y != x {
        assert y in rest;
      }
    }
    forall n | n in r
      ensures n in a || exists y :: y in xs && y.issue.number == n
    {
      if n == x.issue.number {
        assert x in xs;
      } else if n !in a {
        var y :| y in rest && y.issue.number == n;
        assert y in xs;
      }
    }
    forall n | n in a && (forall y :: y in xs ==> y.issue.number != n)
      ensures n in r && r[n] == a[n]
    {
      assert x in xs;
      assert forall y :: y in rest ==> y in xs;
    }
  }

  /** The admissions of a pass keep the registries consistent and add at
      most one agent each. */
  lemma {:induction false} AdmitAllKeeps(c: Config, env: HubPolicy.Env, comments: int -> Option<int>, s: HubState,
                                         xs: seq<Listing>)
    requires Valid(s) && HubPolicy.FreshIds(env, s)
    requires forall x :: x in xs ==> x.issue.number >= 0
    ensures var r := AdmitAll(c, env, comments, s, xs);
            Valid(r) && HubPolicy.FreshIds(env, r) && |r.reg.subs| <= |s.reg.subs| + |xs|
    decreases |xs|
  {
    if xs != [] {
      AdmitKeeps(c, env, comments, s, xs[0]);
      assert forall x :: x in xs[1..] ==> x in xs;
      AdmitAllKeeps(c, env, comments, Admit(c, env, comments, s, xs[0]), xs[1..]);
    }
  }

  /** The admissions of a pass file each admitted issue against its agent. */
  lemma {:induction false} AdmitAllHeld(c: Config, env: HubPolicy.Env, comments: int -> Option<int>, s: HubState,
                                        xs: seq<Listing>)
    requires Valid(s) && HubPolicy.FreshIds(env, s)
    requires forall x :: x in xs ==> x.issue.number >= 0
    ensures AdmitAll(c, env, comments, s, xs).reg.issueToAgent == Holders(s.reg.issueToAgent, xs)
    decreases |xs|
  {
    if xs != [] {
      AdmitKeeps(c, env, comments, s, xs[0]);
      assert forall x :: x in xs[1..] ==> x in xs;
      AdmitAllHeld(c, env, comments, Admit(c, env, comments, s, xs[0]), xs[1..]);
    }
  }

  /** What the held-issue facts of the admitted issues say about the pass. */
  lemma PollHeld(a: map<int, string>, adm: seq<Listing>, items: seq<Listing>, closed: set<int>)
    requires forall x :: x in adm ==> x in items && IsReady(x, a.Keys, closed)
    ensures var b := Holders(a, adm);
            (forall n :: n in a ==> n in b && b[n] == a[n]) &&
            (forall n :: n in b && n !in a ==>
                         b[n] == IssueName(n) && exists x :: x in items && x.issue.number == n && IsReady(x, a.Keys, closed))
  {
    var b := Holders(a, adm);
    HoldersFacts(a, adm);
    forall n | n in b && n !in a
      ensures b[n] == IssueName(n) && exists x :: x in items && x.issue.number == n && IsReady(x, a.Keys, closed)
    {
      var x :| x in adm && x.issue.number == n;
    }
  }

  /** A pass admits only ready issues — not held, not closed, every
      blocker closed — as many as the WIP limit allows; it keeps the
      registries consistent and never takes the agent count past the WIP
      limit; every issue held before is still held by the same agent, and
      every newly held issue is a ready one held by its `iss<number>`
      agent. */
  lemma PollKeeps(c: Config, env: HubPolicy.Env, comments: int -> Option<int>, s: HubState, items: seq<Listing>)
    requires Valid(s) && HubPolicy.FreshIds(env, s)
    requires forall x :: x in items ==> x.issue.number >= 0
    ensures var r := PollPass(c, env, comments, s, items);
            Valid(r) && HubPolicy.FreshIds(env, r) &&
            (c.wipLimit != 0 && |s.reg.subs| <= c.wipLimit ==> |r.reg.subs| <= c.wipLimit) &&
            (forall n :: n in s.reg.issueToAgent ==> n in r.reg.issueToAgent && r.reg.issueToAgent[n] == s.reg.issueToAgent[n]) &&
            (forall n :: n in r.reg.issueToAgent && n !in s.reg.issueToAgent ==>
                           env.ghx && r.reg.issueToAgent[n] == IssueName(n) &&
                           exists x :: x in items && x.issue.number == n && IsReady(x, s.reg.issueToAgent.Keys, Closed(items)))
  {
    if env.ghx {
      var adm := Admitted(c, s, items);
      AdmitAllKeeps(c, env, comments, s, adm);
      AdmitAllHeld(c, env, comments, s, adm);
      PollHeld(s.reg.issueToAgent, adm, items, Closed(items));
    }
  }

  /** An issue that is closed, already held, or blocked by an issue that
      is not closed is never admitted. */
  lemma NotReadySkipped(c: Config, s: HubState, items: seq<Listing>, x: Listing)
    requires x in items
    requires x.issue.number in Closed(items) || x.issue.number in s.reg.issueToAgent ||
             exists b :: b in GithubLabels.Blockers(x.body, x.issue.labels) && b !in Closed(items)
    ensures x !in Admitted(c, s, items)
  {
  }
}
