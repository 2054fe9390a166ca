/** The `Hub` object of codex_hub_core.py, whose methods update its
    registries, switches, digest bookkeeping and outbound logs in place.
    Each method is proved to leave the object in the state the matching
    function on `HubState` describes, so the properties proved about those
    functions hold of the object. */
module HubCore {
  import opened Text
  import opened JsonValue
  import opened HubNames
  import opened HubModel
  import opened HubRegistry
  import HubPolicy
  import HubTimers
  import HubPoll
  import LocalExec
  import GithubLabels
  import ControlFence
  import ControlBlocks

  class Hub {
    const c: Config
    var subs: map<string, Agent>
    var order: seq<string>
    var convToName: map<string, string>
    var agentState: map<string, string>
    var lastCheckin: map<string, int>
    var agentMeta: map<string, Meta>
    var issueToAgent: map<int, string>
    var autopilot: bool
    var warned: bool
    var dirty: seq<string>
    var extras: seq<Json>
    var lastSent: int
    var decisions: seq<Decision>
    var sequence: nat
    var events: seq<Event>
    var calls: seq<Call>
    var commands: seq<Command>

    function Reg(): Registry
      reads this
    {
      Registry(subs, order, convToName, agentState, lastCheckin, agentMeta, issueToAgent)
    }

    function Snapshot(): HubState
      reads this
    {
      HubState(Reg(), autopilot, warned, dirty, extras, lastSent, decisions, sequence, events, calls, commands)
    }

    /** The registries agree with one another and the logs are well formed. */
    ghost predicate Valid()
      reads this
    {
      HubModel.Valid(Snapshot())
    }

    constructor (config: Config)
      ensures c == config && Snapshot() == Initial && Valid()
    {
      c := config;
      subs, order, convToName, agentState, lastCheckin, agentMeta, issueToAgent :=
        map[], [], map[], map[], map[], map[], map[];
      autopilot, warned := true, false;
      dirty, extras, lastSent, decisions := [], [], 0, [];
      sequence, events, calls, commands := 0, [], [], [];
      InitialValid();
    }

    // ------------------------------------------------------------ outbound

    /** `_broadcast`. */
    method Broadcast(who: string, kind: string, payload: Json)
      modifies this
      ensures Snapshot() == Emit(old(Snapshot()), who, kind, payload)
    {
      sequence := sequence + 1;
      events := events + [Event(sequence, who, kind, payload)];
    }

    /** `_send_orch`. */
    method SendOrch(text: string)
      modifies this
      ensures Snapshot() == HubModel.SendOrch(c, old(Snapshot()), text)
    {
      if c.orchestrator.Some? {
        calls := calls + [SendMessage(c.orchestrator.value, text)];
      }
    }

    /** `_mark_dirty`. */
    method MarkDirty(agent: string)
      modifies this
      ensures Snapshot() == HubModel.MarkDirty(old(Snapshot()), agent)
    {
      if agent == "" || agent == "orchestrator" || agent in dirty {
        return;
      }
      dirty := dirty + [agent];
    }

    /** `_send_digest(reason, force)`. */
    method SendDigest(now: int, reason: string, force: bool, dumps: Json -> string)
      modifies this
      ensures Snapshot() == HubModel.SendDigest(c, old(Snapshot()), now, reason, force, dumps)
    {
      if c.orchestrator.None? {
        return;
      }
      if !force && dirty == [] && extras == [] {
        return;
      }
      ghost var s0 := Snapshot();
      PostDigest(now, reason, dumps);
      Broadcast("hub", "decision", DecisionPayload(Decision(now, reason)));
      dirty := [];
      SendDigestUnfold(c, s0, now, reason, force, dumps);
    }

    /** The digest goes out: the send, its time and its decision record. */
    method PostDigest(now: int, reason: string, dumps: Json -> string)
      requires c.orchestrator.Some?
      modifies this
      ensures Snapshot() == DigestSentState(c, old(Snapshot()), now, reason, dumps)
    {
      var text := DigestText(Snapshot(), now, dumps);
      StampSend(text, now);
      RecordDecision(Decision(now, reason));
    }

    /** The digest text goes to the orchestrator at time `now`. */
    method StampSend(text: string, now: int)
      requires c.orchestrator.Some?
      modifies this
      ensures Snapshot() == old(Snapshot()).(calls := old(calls) + [SendMessage(c.orchestrator.value, text)],
                                             lastSent := now)
    {
      calls := calls + [SendMessage(c.orchestrator.value, text)];
      lastSent := now;
    }

    /** The decision joins the bounded history and the pending extras are spent. */
    method RecordDecision(d: Decision)
      modifies this
      ensures Snapshot() == old(Snapshot()).(decisions := PushDecision(old(decisions), d), extras := [])
    {
      decisions := PushDecision(decisions, d);
      extras := [];
    }

    /** `_maybe_send_digest(reason)`. */
    method MaybeSendDigest(now: int, reason: string, dumps: Json -> string)
      modifies this
      ensures Snapshot() == MaybeDigest(c, old(Snapshot()), now, reason, dumps)
    {
      if c.orchestrator.None? || (dirty == [] && extras == []) {
        return;
      }
      if lastSent == 0 || now - lastSent >= Debounce {
        SendDigest(now, reason, false, dumps);
      }
    }

    // ------------------------------------------------------------ registry

    /** `spawn_sub(name, task_text, cwd)`; `conv` is the id
        `create_conversation` returns. */
    method SpawnSub(name: Option<string>, task: string, cwd: Option<string>, conv: string, now: int,
                    dumps: Json -> string)
      modifies this
      ensures Snapshot() == HubRegistry.SpawnSub(c, old(Snapshot()), name, task, cwd, conv, now, dumps)
    {
      if name.None? || name.value == "" {
        SendOrch("HUB: spawn missing 'name'.");
        return;
      }
      var key := NormaliseAgentName(name);
      if key in subs {
        calls := calls + [SendMessage(subs[key].conversationId, task)];
        SendOrch("HUB: sub-agent '" + key + "' already exists; forwarded new task.");
        return;
      }
      var workspace := Workspace(c, cwd);
      RegisterAgent(key, task, workspace, conv, now);
      AnnounceAgent(key);
      MarkDirty(key);
      MaybeSendDigest(now, "spawn", dumps);
    }

    /** The conversation is created and the agent enters every registry. */
    method RegisterAgent(key: string, task: string, workspace: string, conv: string, now: int)
      modifies this
      ensures Snapshot() == Register(c, old(Snapshot()), key, task, workspace, conv, now)
    {
      calls := calls + [CreateConversation(workspace, c.model, [FallbackSystemPrefix + SubagentSystem(key), task])];
      EnlistAgent(key, conv);
      SeedAgent(key, NewMeta(c, now, workspace));
    }

    /** The agent's record, its place in the order and its conversation route. */
    method EnlistAgent(key: string, conv: string)
      modifies this
      ensures Snapshot() == old(Snapshot()).(reg := old(Reg()).(subs := old(subs)[key := Agent(key, conv, "idle", 0, None, None)],
                                                               order := old(order) + [key],
                                                               convToName := old(convToName)[conv := key]))
    {
      subs := subs[key := Agent(key, conv, "idle", 0, None, None)];
      order := order + [key];
      convToName := convToName[conv := key];
    }

    /** The agent's first state, metadata and check-in sentinel. */
    method SeedAgent(key: string, meta: Meta)
      modifies this
      ensures Snapshot() == old(Snapshot()).(reg := old(Reg()).(agentState := old(agentState)[key := "idle"],
                                                               agentMeta := old(agentMeta)[key := meta],
                                                               lastCheckin := old(lastCheckin)[key := -1]))
    {
      agentState := agentState[key := "idle"];
      agentMeta := agentMeta[key := meta];
      lastCheckin := lastCheckin[key := -1];
    }

    /** The new agent is broadcast and the orchestrator told. */
    method AnnounceAgent(key: string)
      modifies this
      ensures Snapshot() == Announce(c, old(Snapshot()), key)
    {
      Broadcast(key, "agent_added", AgentPayload(key));
      Broadcast(key, "agent_state", StatePayload(key, "idle"));
      SendOrch("HUB: spawned sub-agent '" + key + "'.");
    }

    /** `send_to_sub(name, task_text)`. */
    method SendToSub(name: Option<string>, task: string, now: int)
      modifies this
      ensures Snapshot() == HubRegistry.SendToSub(c, old(Snapshot()), name, task, now)
    {
      var key := NormaliseAgentName(name);
      if key !in subs {
        SendOrch("HUB: no such sub-agent '" + Shown(name) + "'.");
        return;
      }
      calls := calls + [SendMessage(subs[key].conversationId, task)];
      if key in agentMeta {
        agentMeta := agentMeta[key := agentMeta[key].(lastEventAt := now)];
      }
      SendOrch("HUB: forwarded instruction to '" + key + "'.");
    }

    /** `close_sub(name)`. */
    method CloseSub(name: Option<string>)
      modifies this
      ensures Snapshot() == HubRegistry.CloseSub(c, old(Snapshot()), name)
    {
      var key := NormaliseAgentName(name);
      if key !in subs {
        SendOrch("HUB: no such sub-agent '" + Shown(name) + "'.");
        return;
      }
      UnregisterAgent(key);
      Broadcast(key, "agent_removed", AgentPayload(key));
      SendOrch("HUB: closed sub-agent '" + key + "'.");
    }

    /** Every registry forgets the agent. */
    method UnregisterAgent(key: string)
      requires key in subs
      modifies this
      ensures Snapshot() == old(Snapshot()).(reg := Unregister(old(Reg()), key))
    {
      DelistAgent(key);
      ForgetAgent(key);
      issueToAgent := DropHolder(issueToAgent, key);
    }

    /** The agent's record, its place in the order and its conversation route go. */
    method DelistAgent(key: string)
      requires key in subs
      modifies this
      ensures Snapshot() == old(Snapshot()).(reg := old(Reg()).(subs := old(subs) - {key},
                                                               order := Without(old(order), key),
                                                               convToName := old(convToName) - {old(subs)[key].conversationId}))
    {
      convToName := convToName - {subs[key].conversationId};
      subs := subs - {key};
      order := Without(order, key);
    }

    /** The agent's state, metadata and check-in time go. */
    method ForgetAgent(key: string)
      modifies this
      ensures Snapshot() == old(Snapshot()).(reg := old(Reg()).(agentState := old(agentState) - {key},
                                                               agentMeta := old(agentMeta) - {key},
                                                               lastCheckin := old(lastCheckin) - {key}))
    {
      agentState := agentState - {key};
      agentMeta := agentMeta - {key};
      lastCheckin := lastCheckin - {key};
    }

    /** `_set_state(agent, state)`. */
    method SetState(agent: string, state: string, now: int, dumps: Json -> string)
      modifies this
      ensures Snapshot() == HubRegistry.SetState(c, old(Snapshot()), agent, state, now, dumps)
    {
      if agent in agentState && agentState[agent] == state {
        return;
      }
      agentState := agentState[agent := state];
      Broadcast(agent, "agent_state", StatePayload(agent, state));
      if agent != "orchestrator" {
        MarkDirty(agent);
        MaybeSendDigest(now, "state_change", dumps);
      }
    }

    /** `set_autopilot(enabled)`. */
    method SetAutopilot(enabled: bool)
      modifies this
      ensures Snapshot() == HubRegistry.SetAutopilot(c, old(Snapshot()), enabled)
    {
      if autopilot == enabled {
        return;
      }
      autopilot := enabled;
      warned := false;
      Broadcast("hub", "autopilot_state", JObj([("enabled", JBool(enabled))]));
      SendOrch("HUB: autopilot " + (if enabled then "enabled" else "disabled") + " by human controller.");
    }

    // ------------------------------------------------------------ control blocks

    /** Autopilot off: the block is broadcast as suppressed and the
        orchestrator warned once. */
    method Suppress(b: Json)
      modifies this
      ensures Snapshot() == HubPolicy.Suppress(c, old(Snapshot()), b)
    {
      Broadcast("orchestrator", "autopilot_suppressed", HubPolicy.SuppressedPayload(b));
      if warned {
        return;
      }
      SendOrch(HubPolicy.AutopilotWarning);
      warned := true;
    }

    /** The `exec` branch; `run_exec`'s result is the one the block's
        command has under `env`, and a malformed block raises in
        `run_exec` before anything happens. */
    method ExecBlock(b: Json, env: HubPolicy.Env)
      modifies this
      ensures Snapshot() == HubPolicy.ExecBlock(c, old(Snapshot()), b, env)
    {
      if !c.dangerous {
        SendOrch(HubPolicy.ExecIgnored);
        return;
      }
      if HubPolicy.ExecRaises(b) {
        return;
      }
      var r := HubPolicy.ExecResultOf(c, b, env);
      RunCommand(HubPolicy.ArgvOf(HubPolicy.SpecOf(b, "exec")), r);
    }

    /** The command runs if the allow-list lets it, and its report follows. */
    method RunCommand(argv: seq<string>, r: LocalExec.ExecResult)
      modifies this
      ensures Snapshot() == HubPolicy.RunCommand(c, old(Snapshot()), argv, r)
    {
      if LocalExec.IsAllowed(argv, LocalExec.DefaultAllowed) {
        commands := commands + [Command(argv, r.cwd)];
      }
      Broadcast("orchestrator", "orch_to_user", HubPolicy.TextEvent(HubPolicy.ExecReport(r)));
      if !r.ok {
        SendOrch("HUB: exec command failed with exit code " + IntToString(r.code) + ".");
      }
    }

    /** The `status` branch. */
    method StatusBlock(b: Json, env: HubPolicy.Env)
      modifies this
      ensures Snapshot() == HubPolicy.StatusBlock(c, old(Snapshot()), b, env)
    {
      if HubPolicy.StatusRaises(b) {
        return;
      }
      var spec := HubPolicy.SpecOf(b, "status");
      PostStatus(HubPolicy.ValueOf(spec, "issue"), Strip(GetStr(spec, "text")), env.ghx);
    }

    /** The broadcast of a status report and its optional issue comment. */
    method PostStatus(issue: Json, text: string, ghx: bool)
      modifies this
      ensures Snapshot() == HubPolicy.StatusPosted(old(Snapshot()), issue, text, ghx)
    {
      var scope := if Truthy(issue) then "issue#" + PyStr(issue) else "project";
      Broadcast("hub", "status_posted", JObj([("scope", JStr(scope)), ("text", JStr(text))]));
      var number := HubPolicy.PyInt(issue);
      if ghx && Truthy(issue) && text != "" && number.Some? {
        calls := calls + [CommentIssue(number.value, text)];
      }
    }

    /** The `fetch` branch. */
    method FetchBlock(b: Json, env: HubPolicy.Env)
      modifies this
      ensures Snapshot() == HubPolicy.FetchBlock(c, old(Snapshot()), b, env)
    {
      var spec := HubPolicy.SpecOf(b, "fetch");
      var artJ := HubPolicy.ValueOf(spec, "artifact");
      if !HubPolicy.OrEmptyObject(HubPolicy.ValueOf(b, "fetch")) || !Truthy(artJ) {
        return;
      }
      var (event, note) := HubPolicy.FetchResult(env, artJ, PyStr(artJ), HubPolicy.MaxCharsOf(spec));
      extras := extras + [event];
      Broadcast("hub", "artifact_note", JObj([("note", JStr(note))]));
      MaybeSendDigest(env.now, "fetch", env.dumps);
    }

    /** The `spawn` branch, refused at the WIP limit. */
    method SpawnBlock(b: Json, env: HubPolicy.Env)
      modifies this
      ensures Snapshot() == HubPolicy.SpawnBlock(c, old(Snapshot()), b, env)
    {
      var spec := HubPolicy.SpecOf(b, "spawn");
      var task := GetStr(spec, "task");
      if HubPolicy.AgentSpecRaises(b, "spawn") {
        return;
      }
      if c.wipLimit != 0 && |subs| >= c.wipLimit {
        SendOrch("HUB: WIP limit " + NatToString(c.wipLimit) + " reached; please close an agent before spawning '" +
                 PyStr(HubPolicy.ValueOf(spec, "name")) + "'.");
        return;
      }
      Broadcast("orchestrator", "orch_to_agent", HubPolicy.OrchToAgent("spawn", HubPolicy.ValueOf(spec, "name"), task));
      if HubPolicy.BadName(HubPolicy.ValueOf(spec, "name")) {
        return;
      }
      SpawnSub(HubPolicy.NameOf(spec, "name"), task, HubPolicy.OptStr(spec, "cwd", c.defaultCwd),
               env.newConv(|calls|), env.now, env.dumps);
    }

    /** The `send` branch. */
    method SendBlock(b: Json, env: HubPolicy.Env)
      modifies this
      ensures Snapshot() == HubPolicy.SendBlock(c, old(Snapshot()), b, env)
    {
      var spec := HubPolicy.SpecOf(b, "send");
      var task := GetStr(spec, "task");
      if HubPolicy.AgentSpecRaises(b, "send") {
        return;
      }
      Broadcast("orchestrator", "orch_to_agent", HubPolicy.OrchToAgent("send", HubPolicy.ValueOf(spec, "to"), task));
      if HubPolicy.BadName(HubPolicy.ValueOf(spec, "to")) {
        return;
      }
      SendToSub(HubPolicy.NameOf(spec, "to"), task, env.now);
    }

    /** The `close` branch. */
    method CloseBlock(b: Json)
      modifies this
      ensures Snapshot() == HubPolicy.CloseBlock(c, old(Snapshot()), b)
    {
      var spec := HubPolicy.SpecOf(b, "close");
      if HubPolicy.AgentSpecRaises(b, "close") {
        return;
      }
      Broadcast("orchestrator", "orch_to_agent",
                HubPolicy.OrchToAgent("close", HubPolicy.ValueOf(spec, "agent"), GetStr(spec, "reason")));
      if HubPolicy.BadName(HubPolicy.ValueOf(spec, "agent")) {
        return;
      }
      CloseSub(HubPolicy.NameOf(spec, "agent"));
    }

    /** `_handle_control_block(block)`; `raised` says whether it ended in
        an exception. */
    method HandleControlBlock(b: Json, env: HubPolicy.Env) returns (raised: bool)
      modifies this
      ensures raised == HubPolicy.Raises(c, old(Snapshot()), b)
      ensures Snapshot() == HubPolicy.HandleControlBlock(c, old(Snapshot()), b, env)
    {
      raised := HubPolicy.Raises(c, Snapshot(), b);
      if !autopilot {
        Suppress(b);
        return;
      }
      match HubPolicy.KindOf(b)
      case KExec => ExecBlock(b, env);
      case KStatus => StatusBlock(b, env);
      case KFetch => FetchBlock(b, env);
      case KSpawn => SpawnBlock(b, env);
      case KSend => SendBlock(b, env);
      case KClose => CloseBlock(b);
      case KNone =>
    }

    /** `_handle_orchestrator_text(text)`: the display text first, then
        every block in order until one raises. */
    method HandleOrchestratorText(text: string, env: HubPolicy.Env)
      modifies this
      ensures Snapshot() == HubPolicy.HandleOrchestratorText(c, old(Snapshot()), text, env)
    {
      var blocks := ControlBlocks.ExtractControlBlocks(HubPolicy.CorePattern, Some(text), env.decode, env.signature);
      var display := ControlFence.StripControlBlocks(HubPolicy.CorePattern, text);
      if display != "" {
        Broadcast("orchestrator", "orch_to_user", HubPolicy.TextEvent(display));
      }
      ghost var s1 := Snapshot();
      var i := 0;
      while i < |blocks|
        invariant 0 <= i <= |blocks|
        invariant HubPolicy.HandleBlocks(c, Snapshot(), blocks[i..], env) == HubPolicy.HandleBlocks(c, s1, blocks, env)
        decreases |blocks| - i
      {
        assert blocks[i..][0] == blocks[i] && blocks[i..][1..] == blocks[i + 1..];
        HubPolicy.BlocksStep(c, Snapshot(), blocks[i..], env);
        var raised := HandleControlBlock(blocks[i], env);
        if raised {
          return;
        }
        i := i + 1;
      }
    }

    // ------------------------------------------------------------ approvals

    /** `_autoapprove`; `respondOk` says whether the reply went through, and
        `raised` whether building the description raised first. */
    method Autoapprove(requestId: Json, meth: string, params: Json, respondOk: bool) returns (raised: bool)
      modifies this
      ensures raised == HubPolicy.DescribeRaises(meth, params)
      ensures Snapshot() == HubPolicy.Autoapprove(c, old(Snapshot()), requestId, meth, params, respondOk)
    {
      raised := HubPolicy.DescribeRaises(meth, params);
      if !raised && respondOk {
        Reply(requestId, HubPolicy.Describe(meth, params));
      }
    }

    /** The reply to request `d` went through: it is logged, then the
        verdict announced. */
    method Reply(requestId: Json, d: string)
      modifies this
      ensures var approved := HubPolicy.Approves(c, old(Snapshot()));
              Snapshot() == HubPolicy.Verdict(c, old(Snapshot()).(calls := old(calls) + [Respond(requestId, if approved then "approved" else "denied")]),
                                              approved, d, HubPolicy.DenialReason(old(Snapshot())))
    {
      var approved := HubPolicy.Approves(c, Snapshot());
      var reason := HubPolicy.DenialReason(Snapshot());
      calls := calls + [Respond(requestId, if approved then "approved" else "denied")];
      AnnounceVerdict(approved, d, reason);
    }

    /** The decision is broadcast as a status; a denial is explained to the
        orchestrator. */
    method AnnounceVerdict(approved: bool, d: string, reason: string)
      modifies this
      ensures Snapshot() == HubPolicy.Verdict(c, old(Snapshot()), approved, d, reason)
    {
      if approved {
        Broadcast("hub", "status", HubPolicy.TextEvent("HUB: auto-approved " + d + "."));
      } else {
        Broadcast("hub", "status", HubPolicy.TextEvent("HUB: denied " + d + " because " + reason + "."));
        SendOrch("HUB: denied " + d + " because " + reason + ". Enable autopilot or dangerous mode to allow.");
      }
    }

    /** `_handle_request(method, params, request_id)`; `raised` says that
        the approval raised, which ends the event pump. */
    method HandleRequest(meth: string, params: Json, requestId: Json, respondOk: bool) returns (raised: bool)
      modifies this
      ensures raised <==> requestId != JNull && HubPolicy.DescribeRaises(meth, params)
      ensures Snapshot() == HubPolicy.HandleRequest(c, old(Snapshot()), meth, params, requestId, respondOk)
    {
      raised := false;
      if requestId == JNull {
        return;
      }
      var low := Lower(meth);
      if low == "execcommandapproval" || low == "applypatchapproval" {
        raised := Autoapprove(requestId, meth, params, respondOk);
        return;
      }
      calls := calls + [RespondError(requestId, -32601, "Unhandled request: " + meth)];
    }

    // ------------------------------------------------------------ timers

    /** One pass of `_watchdog_loop` at time `now`: every agent's delta is
        recorded, a timeout block is queued for each agent silent past its
        threshold, and a digest may follow. */
    method WatchdogTick(now: int, dumps: Json -> string)
      requires Valid()
      modifies this
      ensures Snapshot() == HubTimers.WatchdogPass(c, old(Snapshot()), now, dumps)
      ensures Valid()
    {
      ghost var s0 := Snapshot();
      var stamps, queued, dirty := ScanCheckins(c, Reg(), now);
      StoreCheckins(stamps, queued);
      HubTimers.StampedDeltas(s0.reg, now);
      HubTimers.WatchdogValid(c, s0, now, dumps);
      if dirty {
        MaybeSendDigest(now, "watchdog", dumps);
      }
    }

    /** One pass of `_scheduler` at time `now`, over a snapshot of the
        metadata taken before the loop. */
    method SchedulerTick(now: int)
      modifies this
      ensures Snapshot() == HubTimers.SchedulerPass(c, old(Snapshot()), now)
    {
      ghost var s0 := Snapshot();
      var snap := agentMeta;
      var names := HubTimers.Listed(order, snap);
      var i := 0;
      while i < |names|
        invariant 0 <= i <= |names|
        invariant HubTimers.SchedulerOver(c, Snapshot(), names[i..], snap, now) == HubTimers.SchedulerOver(c, s0, names, snap, now)
        decreases |names| - i
      {
        assert names[i] in snap && names[i..][1..] == names[i + 1..];
        SchedulerStep(names[i], snap[names[i]], now);
        i := i + 1;
      }
    }

    /** The scheduler's body for one agent whose metadata was `m` when the
        pass began. */
    method SchedulerStep(name: string, m: Meta, now: int)
      modifies this
      ensures Snapshot() == HubTimers.SchedulerStep(c, old(Snapshot()), name, m, now)
    {
      CountStep(name, m, now);
      if HubTimers.CloseDue(HubTimers.Ticked(m, now), now) {
        CloseSub(Some(name));
      }
    }

    /** The nudge and the wrap-up request that are due, and the agent's
        counters. */
    method CountStep(name: string, m: Meta, now: int)
      modifies this
      ensures Snapshot() == HubTimers.Counted(old(Snapshot()), name, m, now)
    {
      if HubTimers.NudgeDue(m, now) {
        MessageAgent(name, HubTimers.NudgeText);
      }
      if HubTimers.WrapUpDue(m, now) {
        MessageAgent(name, HubTimers.WrapUpText);
      }
      if name in agentMeta {
        agentMeta := agentMeta[name := HubTimers.Ticked(m, now)];
      }
    }

    /** `_nudge_agent` and `_ask_wrap_up`: the text goes to the agent's
        conversation, if the agent is still there. */
    method MessageAgent(name: string, text: string)
      modifies this
      ensures Snapshot() == old(Snapshot()).(calls := old(calls) + HubTimers.MessageTo(old(Reg()), name, text))
    {
      if name in subs {
        calls := calls + [SendMessage(subs[name].conversationId, text)];
      }
    }

    /** One pass of `_poll_github` over the listing `items`: the ready
        issues are collected, and as many as the WIP limit leaves room for
        are admitted in order. */
    method PollTick(env: HubPolicy.Env, comments: int -> Option<int>, items: seq<HubPoll.Listing>)
      modifies this
      ensures Snapshot() == HubPoll.PollPass(c, env, comments, old(Snapshot()), items)
    {
      if !env.ghx {
        return;
      }
      ghost var s0 := Snapshot();
      var closed := HubPoll.Closed(items);
      var ready := CollectReady(items, issueToAgent.Keys, closed);
      var capacity := HubPoll.Capacity(c, |subs|, |ready|);
      var admitted := ready[..if capacity <= |ready| then capacity else |ready|];
      assert admitted == HubPoll.Admitted(c, s0, items);
      var i := 0;
      while i < |admitted|
        invariant 0 <= i <= |admitted|
        invariant HubPoll.AdmitAll(c, env, comments, Snapshot(), admitted[i..]) ==
                  HubPoll.AdmitAll(c, env, comments, s0, admitted)
        decreases |admitted| - i
      {
        assert admitted[i..][1..] == admitted[i + 1..];
        AdmitIssue(env, comments, admitted[i]);
        i := i + 1;
      }
    }

    /** The poller's body for one admitted issue: its agent is spawned, the
        issue is filed on the agent's metadata and the issue is held. */
    method AdmitIssue(env: HubPolicy.Env, comments: int -> Option<int>, x: HubPoll.Listing)
      modifies this
      ensures Snapshot() == HubPoll.Admit(c, env, comments, old(Snapshot()), x)
    {
      var n := x.issue.number;
      var name := HubPoll.IssueName(n);
      SpawnSub(Some(name), HubPoll.PollPrompt(x), c.defaultCwd, env.newConv(|calls|), env.now, env.dumps);
      FileIssue(name, x, comments(n));
    }

    /** The SLA and the status comment go on the agent's metadata, if it
        has any, and the agent holds the issue. */
    method FileIssue(name: string, x: HubPoll.Listing, comment: Option<int>)
      modifies this
      ensures var reg := if name in old(agentMeta)
                         then old(Reg()).(agentMeta := old(agentMeta)[name := HubPoll.Filed(c, old(agentMeta)[name], x, comment)])
                         else old(Reg());
              Snapshot() == old(Snapshot()).(reg := reg.(issueToAgent := old(issueToAgent)[x.issue.number := name]))
    {
      if name in agentMeta {
        agentMeta := agentMeta[name := HubPoll.Filed(c, agentMeta[name], x, comment)];
      }
      issueToAgent := issueToAgent[x.issue.number := name];
    }

    /** The stamped check-ins and the queued timeouts are stored. */
    method StoreCheckins(stamps: map<string, int>, queued: seq<Json>)
      modifies this
      ensures Snapshot() == old(Snapshot()).(reg := old(Reg()).(lastCheckin := stamps), extras := old(extras) + queued)
    {
      lastCheckin := stamps;
      extras := extras + queued;
    }
  }

  /** The watchdog's loop over the agents of `r` in insertion order:
      `stamps` is `last_checkin` with each agent's delta, `queued` the
      timeout blocks in order, and `dirty` whether there are any. */
  method ScanCheckins(c: Config, r: Registry, now: int) returns (stamps: map<string, int>, queued: seq<Json>, dirty: bool)
    requires forall k :: k in r.order ==> k in r.subs
    ensures stamps == HubTimers.Stamped(r.lastCheckin, r.subs, r.order, now)
    ensures queued == HubTimers.TimeoutBlocks(c, r, r.order, now)
    ensures dirty <==> queued != []
  {
    stamps, queued, dirty := r.lastCheckin, [], false;
    var i := 0;
    while i < |r.order|
      invariant 0 <= i <= |r.order|
      invariant HubTimers.Stamped(stamps, r.subs, r.order[i..], now) == HubTimers.Stamped(r.lastCheckin, r.subs, r.order, now)
      invariant queued + HubTimers.TimeoutBlocks(c, r, r.order[i..], now) == HubTimers.TimeoutBlocks(c, r, r.order, now)
      invariant dirty <==> queued != []
      decreases |r.order| - i
    {
      var name := r.order[i];
      var delta := HubTimers.CheckinDelta(r.subs[name], now);
      var threshold := if name in r.agentMeta then r.agentMeta[name].checkinSeconds else c.defaultCheckin;
      HubTimers.WatchStep(c, r, stamps, i, now);
      ghost var rest := HubTimers.TimeoutBlocks(c, r, r.order[i + 1..], now);
      stamps := stamps[name := delta];
      if threshold != 0 && delta >= 0 && delta > threshold {
        AppendAssoc(queued, [HubTimers.TimeoutBlock(name, delta)], rest);
        queued := queued + [HubTimers.TimeoutBlock(name, delta)];
        dirty := true;
      } else {
        assert [] + rest == rest;
      }
      i := i + 1;
    }
  }

  /** The ready-list loop of `_poll_github`: the issues, in listing order,
      that no agent holds, that are open, and whose blockers are all
      closed. */
  method CollectReady(items: seq<HubPoll.Listing>, active: set<int>, closed: set<int>) returns (ready: seq<HubPoll.Listing>)
    ensures ready == HubPoll.Ready(items, active, closed)
  {
    ready := [];
    var i := 0;
    while i < |items|
      invariant 0 <= i <= |items|
      invariant ready + HubPoll.Ready(items[i..], active, closed) == HubPoll.Ready(items, active, closed)
      decreases |items| - i
    {
      var x := items[i];
      ReadyStep(items, i, active, closed);
      ghost var rest := HubPoll.Ready(items[i + 1..], active, closed);
      i := i + 1;
      if x.issue.number in active || x.issue.number in closed {
        assert [] + rest == rest;
        continue;
      }
      var blockers := GithubLabels.Blockers(x.body, x.issue.labels);
      if exists b :: b in blockers && b !in closed {
        assert [] + rest == rest;
        continue;
      }
      AppendAssoc(ready, [x], rest);
      ready := ready + [x];
    }
    assert items[i..] == [];
  }

  /** One listing of `CollectReady`. */
  lemma ReadyStep(items: seq<HubPoll.Listing>, i: nat, active: set<int>, closed: set<int>)
    requires i < |items|
    ensures HubPoll.Ready(items[i..], active, closed) ==
              (if HubPoll.IsReady(items[i], active, closed) then [items[i]] else [])
              + HubPoll.Ready(items[i + 1..], active, closed)
  {
    assert items[i..][0] == items[i] && items[i..][1..] == items[i + 1..];
  }

}
