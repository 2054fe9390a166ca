/** The dashboard's hub (hub_dashboard/codex_hub_web.py): a simpler hub that
    drives `codex proto` children, keys its sub-agents by the name exactly
    as given, and gates both control blocks and approvals on one switch,
    `allow_controls`.  Its fence pattern is the correct one (`\s`). What the
    hub writes to its children's stdin is recorded as a sequence of
    outbound operations; the dashboard's subscriber queues are not
    modelled, only the numbered broadcasts. */
module WebModel {
  import opened Text
  import opened JsonValue
  import opened ControlFence
  import ControlBlocks
  import HubModel
  import HubRegistry
  import HubPolicy

  /** The last lines of stderr the dashboard keeps per agent. */
  const StderrMax: nat := 500

  const ApprovedReason: string := "Auto-approved by hub"
  const DeniedReason: string := "Autopilot disabled"

  /** The dashboard's own sub-agent system message. */
  function SubagentSystem(name: string): string
  {
    "You are a SUB-AGENT named \"" + name + "\".\n" +
    "Follow the task from the user. Provide succinct progress updates and, when finished,\n" +
    "give a short summary and suggested next actions."
  }

  /** The switches the hub is started with. */
  datatype Settings = Settings(dangerous: bool, defaultCwd: Option<string>, model: Option<string>)

  /** A started `codex proto` child. */
  datatype Child = Child(name: string, cwd: Option<string>, system: string)

  /** What the hub writes to its children: a start, a user turn with its
      text items, a stop, and an approval decision. */
  datatype Out =
    | Start(agent: string, cwd: Option<string>, dangerous: bool, system: string, model: Option<string>)
    | Turn(agent: string, items: seq<string>)
    | Stop(agent: string)
    | Approval(agent: string, opType: string, callId: Json, approved: bool, reason: string, decision: string)

  /** The hub's registries, its switch, its broadcast log and its outbound
      operations. */
  datatype Web = Web(subs: map<string, Child>, agentState: map<string, string>,
                     stderrBuf: map<string, seq<string>>, allowControls: bool,
                     sequence: nat, events: seq<HubModel.Event>, outbox: seq<Out>)

  /** The state `__init__` leaves: only the orchestrator's state, and
      controls blocked. */
  function Initial(): Web
  {
    Web(map[], map["orchestrator" := "idle"], map[], false, 0, [], [])
  }

  /** The registries agree and the log is well formed: every agent is
      registered under its own non-empty name and has a state; stderr
      buffers are bounded; broadcasts are numbered 1, 2, 3, … */
  ghost predicate Valid(w: Web)
  {
    Registered(w) && Numbered(w)
  }

  ghost predicate Registered(w: Web)
  {
    "" !in w.subs && (forall k :: k in w.subs ==> w.subs[k].name == k) &&
    w.subs.Keys <= w.agentState.Keys &&
    (forall k :: k in w.stderrBuf ==> |w.stderrBuf[k]| <= StderrMax)
  }

  ghost predicate Numbered(w: Web)
  {
    w.sequence == |w.events| && (forall i :: 0 <= i < |w.events| ==> w.events[i].seqNo == i + 1)
  }

  // ------------------------------------------------------------ operations

  /** `_broadcast`: the next sequence number goes on the event. */
  function Broadcast(w: Web, who: string, kind: string, payload: Json): Web
  {
    w.(sequence := w.sequence + 1, events := w.events + [HubModel.Event(w.sequence + 1, who, kind, payload)])
  }

  /** `self.orch.send_text(text)`. */
  function ToOrch(w: Web, text: string): Web
  {
    w.(outbox := w.outbox + [Turn("orchestrator", [text])])
  }

  function AgentPayload(name: string): Json
  {
    JObj([("agent", JStr(name))])
  }

  /** `_set_state(agent, state)`. */
  function SetState(w: Web, agent: string, state: string): Web
  {
    if agent in w.agentState && w.agentState[agent] == state then w
    else Broadcast(w.(agentState := w.agentState[agent := state]), agent, "agent_state",
                   JObj([("agent", JStr(agent)), ("state", JStr(state))]))
  }

  /** The autopilot switch of the `/api/autopilot` route: set and
      announced. */
  function SetAutopilot(w: Web, enabled: bool): Web
  {
    Broadcast(w.(allowControls := enabled), "orchestrator", "autopilot", JObj([("enabled", JBool(enabled))]))
  }

  /** `cwd or self.default_cwd`. */
  function ChildCwd(st: Settings, cwd: Option<string>): Option<string>
  {
    if cwd.Some? && cwd.value != "" then cwd else st.defaultCwd
  }

  /** `spawn_sub(name, task_text, cwd)`: refused without a name or for a
      name already in use; otherwise the child starts under the name as
      given, gets its first turn with the system message, and is
      announced as idle. */
  function SpawnSub(st: Settings, w: Web, name: Option<string>, task: string, cwd: Option<string>): Web
  {
    if name.None? || name.value == "" then ToOrch(w, "HUB: spawn missing 'name'.")
    else if name.value in w.subs then ToOrch(w, "HUB: sub-agent '" + name.value + "' already exists.")
    else Launch(st, w, name.value, task, ChildCwd(st, cwd))
  }

  /** The accepted branch of `spawn_sub`. */
  function Launch(st: Settings, w: Web, n: string, task: string, dir: Option<string>): Web
  {
    var w1 := StartChild(st, w, n, task, dir, SubagentSystem(n));
    SetState(Broadcast(ToOrch(w1, "HUB: spawned sub-agent '" + n + "'."), n, "agent_added", AgentPayload(n)),
             n, "idle")
  }

  /** `agent.start()`, `self.subs[name] = agent` and the first turn. */
  function StartChild(st: Settings, w: Web, n: string, task: string, dir: Option<string>, sys: string): Web
  {
    w.(subs := w.subs[n := Child(n, dir, sys)],
       outbox := w.outbox + [Start(n, dir, st.dangerous, sys, st.model),
                             Turn(n, [HubRegistry.FallbackSystemPrefix + sys, task])])
  }

  /** The registry key of `name or ""`. */
  function KeyOf(name: Option<string>): string
  {
    if name.Some? then name.value else ""
  }

  /** `send_to_sub(name, task_text)`. */
  function SendToSub(w: Web, name: Option<string>, task: string): Web
  {
    var key := KeyOf(name);
    if key !in w.subs then ToOrch(w, "HUB: no such sub-agent '" + HubRegistry.Shown(name) + "'.")
    else ToOrch(w.(outbox := w.outbox + [Turn(key, [task])]),
                "HUB: forwarded instruction to '" + HubRegistry.Shown(name) + "'.")
  }

  /** `close_sub(name)`: the child is popped and stopped, its state and
      stderr buffer dropped, the orchestrator told and the removal
      broadcast. */
  function CloseSub(w: Web, name: Option<string>): Web
  {
    var key := KeyOf(name);
    if key !in w.subs then ToOrch(w, "HUB: no such sub-agent '" + HubRegistry.Shown(name) + "'.")
    else
      var w1 := w.(subs := w.subs - {key}, outbox := w.outbox + [Stop(key)],
                   agentState := if name.Some? then w.agentState - {key} else w.agentState,
                   stderrBuf := if name.Some? then w.stderrBuf - {key} else w.stderrBuf);
      Broadcast(ToOrch(w1, "HUB: closed sub-agent '" + HubRegistry.Shown(name) + "'."), key, "agent_removed",
                AgentPayload(key))
  }

  /** The last `StderrMax` lines of `buf`, as a bounded `deque` keeps them. */
  function Bounded(buf: seq<string>): (r: seq<string>)
    ensures |r| == (if |buf| > StderrMax then StderrMax else |buf|) && r == buf[|buf| - |r|..]
  {
    if |buf| > StderrMax then buf[|buf| - StderrMax..] else buf
  }

  /** One line of `_pump_stderr`: kept in the agent's buffer and broadcast. */
  function RecordStderr(w: Web, name: string, line: string): Web
  {
    var buf := (if name in w.stderrBuf then w.stderrBuf[name] else []) + [line];
    Broadcast(w.(stderrBuf := w.stderrBuf[name := Bounded(buf)]), name, "agent_stderr", JObj([("line", JStr(line))]))
  }

  /** `_autoapprove(who, msg, kind)`: nothing without a child to answer;
      otherwise the decision follows `allow_controls` alone. */
  function Autoapprove(w: Web, who: string, msg: Json, kind: string): Web
  {
    if who != "orchestrator" && who !in w.subs then w
    else
      var callId := GetOr(msg, "call_id", HubPolicy.ValueOf(msg, "id"));
      var opType := if kind == "exec" then "exec_approval" else "patch_approval";
      var ok := w.allowControls;
      w.(outbox := w.outbox + [Approval(who, opType, callId, ok, if ok then ApprovedReason else DeniedReason,
                                        if ok then "approved" else "denied")])
  }

  /** The command value of a block, `block[key]`. */
  function SpecOf(b: Json, key: string): Json
  {
    HubPolicy.ValueOf(b, key)
  }

  /** The command key a block is dispatched on: `spawn`, then `send`, then
      `close`; empty when it has none of them. */
  function CommandKey(b: Json): string
  {
    if HasKey(b, "spawn") then "spawn" else if HasKey(b, "send") then "send" else if HasKey(b, "close") then "close"
    else ""
  }

  /** Handling the block raises: controls are allowed and its command
      value is not an object, so `spec.get` fails. */
  predicate Raises(w: Web, b: Json)
  {
    w.allowControls && CommandKey(b) != "" && !SpecOf(b, CommandKey(b)).JObj?
  }

  /** The loop body of `_handle_orch` for one block that does not raise. */
  function HandleBlock(st: Settings, w: Web, b: Json): Web
  {
    if !w.allowControls then Broadcast(w, "orchestrator", "autopilot_suppressed", JObj([("control", b)]))
    else
      var key := CommandKey(b);
      var spec := SpecOf(b, key);
      if key == "spawn" then
        var task := GetStr(spec, "task");
        var w1 := Broadcast(w, "orchestrator", "orch_to_agent",
                            HubPolicy.OrchToAgent("spawn", HubPolicy.ValueOf(spec, "name"), task));
        SpawnSub(st, w1, HubPolicy.NameOf(spec, "name"), task, HubPolicy.OptStr(spec, "cwd", st.defaultCwd))
      else if key == "send" then
        var task := GetStr(spec, "task");
        var w1 := Broadcast(w, "orchestrator", "orch_to_agent",
                            HubPolicy.OrchToAgent("send", HubPolicy.ValueOf(spec, "to"), task));
        SendToSub(w1, HubPolicy.NameOf(spec, "to"), task)
      else if key == "close" then
        var w1 := Broadcast(w, "orchestrator", "orch_to_agent",
                            HubPolicy.OrchToAgent("close", HubPolicy.ValueOf(spec, "agent"), GetStr(spec, "reason")));
        CloseSub(w1, HubPolicy.NameOf(spec, "agent"))
      else w
  }

  /** The blocks of one message in order; a block that raises ends the
      handling of the message. */
  function HandleBlocks(st: Settings, w: Web, bs: seq<Json>): Web
    decreases |bs|
  {
    if bs == [] || Raises(w, bs[0]) then w else HandleBlocks(st, HandleBlock(st, w, bs[0]), bs[1..])
  }

  /** `msg.get("message") or msg.get("content") or ""`. */
  function MessageText(msg: Json): string
  {
    PyStr(GetOr(msg, "message", GetOr(msg, "content", JStr(""))))
  }

  /** `_handle_orch(msg_type, msg)`: only `agent_message` carries blocks. */
  function HandleOrch(st: Settings, w: Web, msgType: Option<string>, msg: Json,
                      decode: string -> Option<Json>, signature: Json -> string): Web
  {
    if msgType != Some("agent_message") then w
    else HandleBlocks(st, w, ControlBlocks.Extracted(Spaced, Some(MessageText(msg)), decode, signature))
  }

  // ------------------------------------------------------------ properties

  lemma InitialValid()
    ensures Valid(Initial()) && !Initial().allowControls && Initial().agentState == map["orchestrator" := "idle"]
  {
  }

  /** A broadcast keeps the numbering, and its event carries the new last
      number. */
  lemma BroadcastValid(w: Web, who: string, kind: string, payload: Json)
    requires Numbered(w)
    ensures var r := Broadcast(w, who, kind, payload);
            Numbered(r) && (Registered(w) ==> Registered(r)) && r.sequence == w.sequence + 1 && r.events[|r.events| - 1].seqNo == r.sequence &&
            r.events[..|w.events|] == w.events
  {
    var r := Broadcast(w, who, kind, payload);
    assert forall i :: 0 <= i < |w.events| ==> r.events[i] == w.events[i];
  }

  /** `_set_state` does nothing when the state is unchanged; otherwise it
      records the state, leaves the other agents' states alone and
      broadcasts once. */
  lemma SetStateEffect(w: Web, agent: string, state: string)
    requires Numbered(w)
    ensures var r := SetState(w, agent, state);
            Numbered(r) && (Registered(w) ==> Registered(r)) && agent in r.agentState && r.agentState[agent] == state &&
            (forall a :: a != agent ==> (a in r.agentState <==> a in w.agentState)) &&
            (forall a :: a != agent && a in w.agentState ==> r.agentState[a] == w.agentState[a]) &&
            r.subs == w.subs && r.outbox == w.outbox && r.allowControls == w.allowControls &&
            (agent in w.agentState && w.agentState[agent] == state <==> r == w)
  {
    if !(agent in w.agentState && w.agentState[agent] == state) {
      BroadcastValid(w.(agentState := w.agentState[agent := state]), agent, "agent_state",
                     JObj([("agent", JStr(agent)), ("state", JStr(state))]));
    }
  }

  /** With no name, or a name already taken, nothing is registered and
      only the orchestrator hears of it. */
  lemma SpawnRefused(st: Settings, w: Web, name: Option<string>, task: string, cwd: Option<string>)
    requires name.None? || name.value == "" || name.value in w.subs
    ensures var r := SpawnSub(st, w, name, task, cwd);
            r.subs == w.subs && r.agentState == w.agentState && r.events == w.events &&
            |r.outbox| == |w.outbox| + 1 && r.outbox[|w.outbox|].agent == "orchestrator"
  {
  }

  /** A new name is registered verbatim, with the child started in the
      requested or default directory, its first turn carrying the system
      message, and its state idle. */
  lemma SpawnAdds(st: Settings, w: Web, n: string, task: string, cwd: Option<string>)
    requires Valid(w) && n != "" && n !in w.subs
    ensures var r := SpawnSub(st, w, Some(n), task, cwd);
            Valid(r) && r.subs == w.subs[n := Child(n, ChildCwd(st, cwd), SubagentSystem(n))] &&
            r.agentState == w.agentState[n := "idle"] && r.stderrBuf == w.stderrBuf &&
            r.allowControls == w.allowControls &&
            w.outbox + [Start(n, ChildCwd(st, cwd), st.dangerous, SubagentSystem(n), st.model),
                        Turn(n, [HubRegistry.FallbackSystemPrefix + SubagentSystem(n), task])] <= r.outbox
  {
    LaunchWith(st, w, n, task, ChildCwd(st, cwd), SubagentSystem(n), "HUB: spawned sub-agent '" + n + "'.");
  }

  /** The accepted branch of `spawn_sub` for any system prompt and notice. */
  lemma LaunchWith(st: Settings, w: Web, n: string, task: string, dir: Option<string>, sys: string, msg: string)
    requires Valid(w) && n != "" && n !in w.subs
    ensures var r := SetState(Broadcast(ToOrch(StartChild(st, w, n, task, dir, sys), msg), n, "agent_added",
                                        AgentPayload(n)), n, "idle");
            Valid(r) && r.subs == w.subs[n := Child(n, dir, sys)] &&
            r.agentState == w.agentState[n := "idle"] && r.stderrBuf == w.stderrBuf &&
            r.allowControls == w.allowControls &&
            w.outbox + [Start(n, dir, st.dangerous, sys, st.model),
                        Turn(n, [HubRegistry.FallbackSystemPrefix + sys, task])] <= r.outbox
  {
    var w1 := StartChild(st, w, n, task, dir, sys);
    var w2 := ToOrch(w1, msg);
    assert w1.outbox <= w2.outbox;
    var w3 := Broadcast(w2, n, "agent_added", AgentPayload(n));
    BroadcastValid(w2, n, "agent_added", AgentPayload(n));
    SetStateEffect(w3, n, "idle");
  }


  /** Closing a registered agent removes it from `subs`, `agent_state` and
      the stderr buffers, stops its child, and leaves every other agent
      alone. */
  lemma CloseRemoves(w: Web, n: string)
    requires Valid(w) && n in w.subs
    ensures var r := CloseSub(w, Some(n));
            Valid(r) && r.subs == w.subs - {n} && r.agentState == w.agentState - {n} &&
            r.stderrBuf == w.stderrBuf - {n} && w.outbox + [Stop(n)] <= r.outbox
  {
    var w1 := w.(subs := w.subs - {n}, outbox := w.outbox + [Stop(n)],
                 agentState := w.agentState - {n}, stderrBuf := w.stderrBuf - {n});
    BroadcastValid(ToOrch(w1, "HUB: closed sub-agent '" + n + "'."), n, "agent_removed", AgentPayload(n));
  }

  /** Closing or messaging an unknown name only produces a message. */
  lemma UnknownNameMessage(w: Web, name: Option<string>, task: string)
    requires KeyOf(name) !in w.subs
    ensures CloseSub(w, name) == ToOrch(w, "HUB: no such sub-agent '" + HubRegistry.Shown(name) + "'.")
    ensures SendToSub(w, name, task) == CloseSub(w, name)
  {
  }

  /** Messaging a sub-agent changes no registry. */
  lemma SendKeeps(w: Web, name: Option<string>, task: string)
    requires Valid(w)
    ensures var r := SendToSub(w, name, task);
            Valid(r) && r.subs == w.subs && r.agentState == w.agentState && r.stderrBuf == w.stderrBuf &&
            r.events == w.events && (KeyOf(name) in w.subs <==> |r.outbox| == |w.outbox| + 2)
  {
  }

  /** A stderr line is kept, the buffer never exceeds its cap, and the
      other buffers are untouched. */
  lemma StderrKept(w: Web, name: string, line: string)
    requires Valid(w)
    ensures var r := RecordStderr(w, name, line);
            Valid(r) && name in r.stderrBuf && |r.stderrBuf[name]| > 0 &&
            r.stderrBuf[name][|r.stderrBuf[name]| - 1] == line &&
            (forall k :: k != name ==> (k in r.stderrBuf <==> k in w.stderrBuf)) &&
            r.subs == w.subs && r.agentState == w.agentState
  {
    var buf := (if name in w.stderrBuf then w.stderrBuf[name] else []) + [line];
    var b := Bounded(buf);
    assert b[|b| - 1] == buf[|buf| - 1] == line;
    BufferKept(w, name, b);
    BroadcastValid(w.(stderrBuf := w.stderrBuf[name := b]), name, "agent_stderr", JObj([("line", JStr(line))]));
  }

  /** Storing a bounded buffer keeps the registry invariant. */
  lemma BufferKept(w: Web, name: string, b: seq<string>)
    requires Valid(w) && |b| <= StderrMax
    ensures Valid(w.(stderrBuf := w.stderrBuf[name := b]))
  {
    var w1 := w.(stderrBuf := w.stderrBuf[name := b]);
    assert Registered(w1);
  }

  /** An approval is written exactly when there is a child to answer; it
      approves exactly when controls are allowed, and a denial gives the
      reason "Autopilot disabled". */
  lemma AutoapproveDecision(w: Web, who: string, msg: Json, kind: string)
    ensures var r := Autoapprove(w, who, msg, kind);
            (who == "orchestrator" || who in w.subs <==> |r.outbox| == |w.outbox| + 1) &&
            (r.outbox != w.outbox ==>
              var o := r.outbox[|w.outbox|];
              o.Approval? && o.agent == who && (o.approved <==> w.allowControls) &&
              (o.reason == DeniedReason <==> !w.allowControls) &&
              (o.decision == "approved" <==> w.allowControls) &&
              (o.opType == "exec_approval" <==> kind == "exec")) &&
            r.subs == w.subs && r.agentState == w.agentState && r.events == w.events
  {
  }

  /** The dispatch order: `spawn` wins over `send` and `close`, `send`
      over `close`, and a block with none of them does nothing. */
  lemma DispatchOrder(b: Json)
    ensures HasKey(b, "spawn") ==> CommandKey(b) == "spawn"
    ensures !HasKey(b, "spawn") && HasKey(b, "send") ==> CommandKey(b) == "send"
    ensures CommandKey(b) == "" <==> !HasKey(b, "spawn") && !HasKey(b, "send") && !HasKey(b, "close")
  {
  }

  /** Switching autopilot decides every later block and approval, and
      changes no registry. */
  lemma AutopilotSwitch(w: Web, enabled: bool)
    requires Valid(w)
    ensures var r := SetAutopilot(w, enabled);
            Valid(r) && r.allowControls == enabled && r.subs == w.subs && r.agentState == w.agentState &&
            r.outbox == w.outbox && r.events[|r.events| - 1].kind == "autopilot"
  {
    BroadcastValid(w.(allowControls := enabled), "orchestrator", "autopilot", JObj([("enabled", JBool(enabled))]));
  }

  /** A block without a command key changes nothing when controls are
      allowed. */
  lemma KeylessBlockIgnored(st: Settings, w: Web, b: Json)
    requires w.allowControls && !HasKey(b, "spawn") && !HasKey(b, "send") && !HasKey(b, "close")
    ensures !Raises(w, b) && HandleBlock(st, w, b) == w
  {
  }

  /** With controls blocked every block yields one `autopilot_suppressed`
      broadcast and nothing else happens. */
  lemma {:induction false} SuppressedAll(st: Settings, w: Web, bs: seq<Json>)
    requires !w.allowControls
    ensures var r := HandleBlocks(st, w, bs);
            r.subs == w.subs && r.agentState == w.agentState && r.outbox == w.outbox &&
            r.stderrBuf == w.stderrBuf && !r.allowControls &&
            |r.events| == |w.events| + |bs| && r.events[..|w.events|] == w.events &&
            (forall i :: |w.events| <= i < |r.events| ==>
               r.events[i].kind == "autopilot_suppressed" &&
               r.events[i].payload == JObj([("control", bs[i - |w.events|])]))
    decreases |bs|
  {
    if bs != [] {
      var w1 := Broadcast(w, "orchestrator", "autopilot_suppressed", JObj([("control", bs[0])]));
      SuppressedAll(st, w1, bs[1..]);
      var r := HandleBlocks(st, w, bs);
      forall i | |w.events| <= i < |r.events|
        ensures r.events[i].kind == "autopilot_suppressed" && r.events[i].payload == JObj([("control", bs[i - |w.events|])])
      {
        if i == |w.events| {
          assert r.events[i] == r.events[..|w1.events|][i] == w1.events[i];
        } else {
          assert bs[1..][i - |w1.events|] == bs[i - |w.events|];
        }
      }
      assert r.events[..|w.events|] == r.events[..|w1.events|][..|w.events|];
    }
  }

  /** Handling one block keeps the registries consistent. */
  lemma BlockValid(st: Settings, w: Web, b: Json)
    requires Valid(w)
    ensures Valid(HandleBlock(st, w, b)) && HandleBlock(st, w, b).allowControls == w.allowControls
  {
    if !w.allowControls {
      BroadcastValid(w, "orchestrator", "autopilot_suppressed", JObj([("control", b)]));
    } else {
      var key := CommandKey(b);
      var spec := SpecOf(b, key);
      if key == "spawn" {
        var task := GetStr(spec, "task");
        var p := HubPolicy.OrchToAgent("spawn", HubPolicy.ValueOf(spec, "name"), task);
        BroadcastValid(w, "orchestrator", "orch_to_agent", p);
        SpawnValid(st, Broadcast(w, "orchestrator", "orch_to_agent", p), HubPolicy.NameOf(spec, "name"), task,
                   HubPolicy.OptStr(spec, "cwd", st.defaultCwd));
      } else if key == "send" {
        var task := GetStr(spec, "task");
        var p := HubPolicy.OrchToAgent("send", HubPolicy.ValueOf(spec, "to"), task);
        BroadcastValid(w, "orchestrator", "orch_to_agent", p);
        SendKeeps(Broadcast(w, "orchestrator", "orch_to_agent", p), HubPolicy.NameOf(spec, "to"), task);
      } else if key == "close" {
        var p := HubPolicy.OrchToAgent("close", HubPolicy.ValueOf(spec, "agent"), GetStr(spec, "reason"));
        BroadcastValid(w, "orchestrator", "orch_to_agent", p);
        CloseValid(Broadcast(w, "orchestrator", "orch_to_agent", p), HubPolicy.NameOf(spec, "agent"));
      }
    }
  }

  lemma SpawnValid(st: Settings, w: Web, name: Option<string>, task: string, cwd: Option<string>)
    requires Valid(w)
    ensures Valid(SpawnSub(st, w, name, task, cwd)) && SpawnSub(st, w, name, task, cwd).allowControls == w.allowControls
  {
    if name.None? || name.value == "" {
      ToOrchValid(w, "HUB: spawn missing 'name'.");
    } else if name.value in w.subs {
      ToOrchValid(w, "HUB: sub-agent '" + name.value + "' already exists.");
    } else {
      SpawnAdds(st, w, name.value, task, cwd);
    }
  }

  lemma ToOrchValid(w: Web, text: string)
    requires Valid(w)
    ensures Valid(ToOrch(w, text)) && ToOrch(w, text).allowControls == w.allowControls
  {
  }

  lemma CloseValid(w: Web, name: Option<string>)
    requires Valid(w)
    ensures Valid(CloseSub(w, name)) && CloseSub(w, name).allowControls == w.allowControls
  {
    if KeyOf(name) in w.subs {
      assert name.Some?;
      CloseRemoves(w, name.value);
    }
  }

  /** A message's blocks keep the registries consistent. */
  lemma {:induction false} BlocksValid(st: Settings, w: Web, bs: seq<Json>)
    requires Valid(w)
    ensures Valid(HandleBlocks(st, w, bs))
    decreases |bs|
  {
    if bs != [] && !Raises(w, bs[0]) {
      BlockValid(st, w, bs[0]);
      BlocksValid(st, HandleBlock(st, w, bs[0]), bs[1..]);
    }
  }

  lemma OrchValid(st: Settings, w: Web, msgType: Option<string>, msg: Json,
                  decode: string -> Option<Json>, signature: Json -> string)
    requires Valid(w)
    ensures Valid(HandleOrch(st, w, msgType, msg, decode, signature))
  {
    if msgType == Some("agent_message") {
      BlocksValid(st, w, ControlBlocks.Extracted(Spaced, Some(MessageText(msg)), decode, signature));
    }
  }

}
