/** The sub-agent registry of codex_hub_core.py: `spawn_sub`,
    `send_to_sub`, `close_sub`, `_set_state` and `set_autopilot`, as
    functions on `HubState`, and the facts that they keep the registries
    consistent with one another. */
module HubRegistry {
  import opened Text
  import opened JsonValue
  import opened HubNames
  import opened HubModel

  const FallbackSystemPrefix: string := "### SYSTEM MESSAGE (treat as system role) ###\n"

  const SubagentRules: string :=
    "You work in the given workspace, creating branches and small, testable commits.\n" +
    "Follow the task from the human operator. Provide succinct progress updates and, when finished,\n" +
    "give a short summary and suggested next actions. If changes are code-related, open a PR referencing the Issue.\n" +
    "Always run tests if present. Provide check-ins with the next small step."

  /** `SUBAGENT_SYSTEM_TEMPLATE.format(name=key)`. */
  function SubagentSystem(key: string): string
  {
    "You are a SUB-AGENT named '" + key + "'.\n" + SubagentRules
  }

  /** `cwd or self.default_cwd or os.getcwd()`. */
  function Workspace(c: Config, cwd: Option<string>): string
  {
    if cwd.Some? && cwd.value != "" then cwd.value
    else if c.defaultCwd.Some? && c.defaultCwd.value != "" then c.defaultCwd.value
    else c.processCwd
  }

  /** `str(name)` inside an f-string: a missing name prints as `None`. */
  function Shown(name: Option<string>): string
  {
    if name.Some? then name.value else "None"
  }

  function AgentPayload(key: string): Json
  {
    JObj([("agent", JStr(key))])
  }

  function StatePayload(key: string, state: string): Json
  {
    JObj([("agent", JStr(key)), ("state", JStr(state))])
  }

  /** The `AgentMeta` of a new agent: started now, the hub's default
      check-in and budget, no nudges yet, at most two. */
  function NewMeta(c: Config, now: int, workspace: string): Meta
  {
    Meta(None, None, now, now, c.defaultCheckin, c.defaultBudget, 0, 2, None, Some(workspace), false)
  }

  /** `xs` without `key`. */
  function Without(xs: seq<string>, key: string): (r: seq<string>)
    ensures forall k :: k in r <==> k in xs && k != key
    ensures Distinct(xs) ==> Distinct(r)
    ensures |r| <= |xs|
  {
    if xs == [] then []
    else
      var rest := Without(xs[1..], key);
      assert forall k :: k in xs <==> k == xs[0] || k in xs[1..] by {
        assert xs == [xs[0]] + xs[1..];
      }
      if xs[0] == key then rest
      else
        assert Distinct(xs) ==> xs[0] !in xs[1..] by {
          assert forall j | 0 <= j < |xs[1..]| :: xs[1..][j] == xs[j + 1];
        }
        [xs[0]] + rest
  }

  /** `issue_to_agent` after dropping every issue `key` holds. */
  function DropHolder(m: map<int, string>, key: string): (r: map<int, string>)
    ensures forall n :: n in r <==> n in m && m[n] != key
    ensures forall n :: n in r ==> r[n] == m[n]
  {
    map n | n in m && m[n] != key :: m[n]
  }

  // ------------------------------------------------------------ spawn

  /** The registry entries `spawn_sub` creates for a new key. The source
      sets `last_checkin[key] = -1` after the broadcasts; nothing between
      reads it, so it is set here with the rest. */
  function AddAgent(r: Registry, key: string, conv: string, meta: Meta): Registry
  {
    r.(subs := r.subs[key := Agent(key, conv, "idle", 0, None, None)],
       order := r.order + [key],
       convToName := r.convToName[conv := key],
       agentState := r.agentState[key := "idle"],
       agentMeta := r.agentMeta[key := meta],
       lastCheckin := r.lastCheckin[key := -1])
  }

  /** The `create_conversation` call, whose result is `conv`, and the new
      registry entries. */
  function Register(c: Config, s: HubState, key: string, task: string, workspace: string, conv: string,
                    now: int): HubState
  {
    s.(calls := s.calls + [CreateConversation(workspace, c.model, [FallbackSystemPrefix + SubagentSystem(key), task])],
       reg := AddAgent(s.reg, key, conv, NewMeta(c, now, workspace)))
  }

  /** The two broadcasts and the orchestrator notice of a new agent. */
  function Announce(c: Config, s: HubState, key: string): HubState
  {
    var s1 := Emit(Emit(s, key, "agent_added", AgentPayload(key)), key, "agent_state", StatePayload(key, "idle"));
    SendOrch(c, s1, "HUB: spawned sub-agent '" + key + "'.")
  }

  /** Registration, announcement, the dirty mark and a possible digest. */
  function SpawnNew(c: Config, s: HubState, key: string, task: string, workspace: string, conv: string,
                    now: int, dumps: Json -> string): HubState
  {
    MaybeDigest(c, MarkDirty(Announce(c, Register(c, s, key, task, workspace, conv, now), key), key),
                now, "spawn", dumps)
  }

  /** `spawn_sub(name, task_text, cwd)`: `conv` is the id that
      `create_conversation` returns, `now` the clock. */
  function SpawnSub(c: Config, s: HubState, name: Option<string>, task: string, cwd: Option<string>,
                    conv: string, now: int, dumps: Json -> string): HubState
  {
    if name.None? || name.value == "" then SendOrch(c, s, "HUB: spawn missing 'name'.")
    else
      var key := NormaliseAgentName(name);
      if key in s.reg.subs then
        SendOrch(c, s.(calls := s.calls + [SendMessage(s.reg.subs[key].conversationId, task)]),
                 "HUB: sub-agent '" + key + "' already exists; forwarded new task.")
      else SpawnNew(c, s, key, task, Workspace(c, cwd), conv, now, dumps)
  }

  // ------------------------------------------------------------ send, close

  /** `send_to_sub(name, task_text)`. */
  function SendToSub(c: Config, s: HubState, name: Option<string>, task: string, now: int): HubState
  {
    var key := NormaliseAgentName(name);
    if key !in s.reg.subs then SendOrch(c, s, "HUB: no such sub-agent '" + Shown(name) + "'.")
    else
      var s1 := s.(calls := s.calls + [SendMessage(s.reg.subs[key].conversationId, task)]);
      var s2 := if key in s1.reg.agentMeta
                then s1.(reg := s1.reg.(agentMeta := s1.reg.agentMeta[key := s1.reg.agentMeta[key].(lastEventAt := now)]))
                else s1;
      SendOrch(c, s2, "HUB: forwarded instruction to '" + key + "'.")
  }

  /** The registry entries `close_sub` removes for a known key. */
  function Unregister(r: Registry, key: string): Registry
    requires key in r.subs
  {
    r.(subs := r.subs - {key}, order := Without(r.order, key), agentState := r.agentState - {key},
       convToName := r.convToName - {r.subs[key].conversationId}, agentMeta := r.agentMeta - {key},
       lastCheckin := r.lastCheckin - {key}, issueToAgent := DropHolder(r.issueToAgent, key))
  }

  /** `close_sub(name)`. */
  function CloseSub(c: Config, s: HubState, name: Option<string>): HubState
  {
    CloseKey(c, s, NormaliseAgentName(name), Shown(name))
  }

  /** `close_sub` once the name is normalised to `key`; `shown` is the
      name as the refusal quotes it. */
  function CloseKey(c: Config, s: HubState, key: string, shown: string): HubState
  {
    if key !in s.reg.subs then SendOrch(c, s, "HUB: no such sub-agent '" + shown + "'.")
    else SendOrch(c, Emit(s.(reg := Unregister(s.reg, key)), key, "agent_removed", AgentPayload(key)),
                  "HUB: closed sub-agent '" + key + "'.")
  }

  // ------------------------------------------------------------ state, autopilot

  /** `_set_state(agent, state)`. */
  function SetState(c: Config, s: HubState, agent: string, state: string, now: int, dumps: Json -> string): HubState
  {
    if agent in s.reg.agentState && s.reg.agentState[agent] == state then s
    else
      var s1 := Emit(s.(reg := s.reg.(agentState := s.reg.agentState[agent := state])), agent, "agent_state", StatePayload(agent, state));
      if agent != "orchestrator" then MaybeDigest(c, MarkDirty(s1, agent), now, "state_change", dumps) else s1
  }

  /** `set_autopilot(enabled)`: a change of mode re-arms the one-time
      "autopilot disabled" warning. */
  function SetAutopilot(c: Config, s: HubState, enabled: bool): HubState
  {
    if s.autopilot == enabled then s
    else
      var s1 := Emit(s.(autopilot := enabled, warned := false), "hub", "autopilot_state",
                     JObj([("enabled", JBool(enabled))]));
      SendOrch(c, s1, "HUB: autopilot " + (if enabled then "enabled" else "disabled") + " by human controller.")
  }

  // ------------------------------------------------------------ outbound shapes

  /** The orchestrator notice `_send_orch(text)` adds to the calls. */
  function Notice(c: Config, text: string): seq<Call>
  {
    if c.orchestrator.Some? then [SendMessage(c.orchestrator.value, text)] else []
  }

  lemma SendOrchNotice(c: Config, s: HubState, text: string)
    ensures SendOrch(c, s, text) == s.(calls := s.calls + Notice(c, text))
  {
  }

  /** A digest keeps the registries, the logs' shape, and only appends to
      the calls and the broadcasts. */
  lemma MaybeDigestShape(c: Config, s: HubState, now: int, reason: string, dumps: Json -> string)
    requires LogValid(s)
    ensures var r := MaybeDigest(c, s, now, reason, dumps);
            SameRegistry(s, r) && LogValid(r) && s.calls <= r.calls && s.events <= r.events &&
            (r.dirty == s.dirty || r.dirty == []) && r.commands == s.commands
  {
    MaybeDigestCases(c, s, now, reason, dumps);
    SendDigestShape(c, s, now, reason, false, dumps);
    if c.orchestrator.Some? && (s.dirty != [] || s.extras != []) {
      DigestSent(c, s, now, reason, false, dumps);
    } else {
      SendDigestIdle(c, s, now, reason, false, dumps);
    }
  }

  // ------------------------------------------------------------ spawn properties

  /** Without a name nothing is spawned; only the orchestrator is told. */
  lemma SpawnMissingName(c: Config, s: HubState, name: Option<string>, task: string, cwd: Option<string>,
                         conv: string, now: int, dumps: Json -> string)
    requires name.None? || name.value == ""
    ensures SpawnSub(c, s, name, task, cwd, conv, now, dumps) ==
            s.(calls := s.calls + Notice(c, "HUB: spawn missing 'name'."))
  {
    SendOrchNotice(c, s, "HUB: spawn missing 'name'.");
  }

  /** Spawning an existing agent forwards the task to its conversation and
      changes nothing else. */
  lemma SpawnExisting(c: Config, s: HubState, name: Option<string>, task: string, cwd: Option<string>,
                      conv: string, now: int, dumps: Json -> string)
    requires name.Some? && name.value != "" && NormaliseAgentName(name) in s.reg.subs
    ensures var key := NormaliseAgentName(name);
            SpawnSub(c, s, name, task, cwd, conv, now, dumps) ==
            s.(calls := s.calls + [SendMessage(s.reg.subs[key].conversationId, task)] +
                        Notice(c, "HUB: sub-agent '" + key + "' already exists; forwarded new task."))
  {
    var key := NormaliseAgentName(name);
    SendOrchNotice(c, s.(calls := s.calls + [SendMessage(s.reg.subs[key].conversationId, task)]),
                   "HUB: sub-agent '" + key + "' already exists; forwarded new task.");
  }

  /** A new key gets an idle agent on the fresh conversation, appended to
      the order, with default metadata and a `-1` check-in; the modes are
      untouched. */
  lemma SpawnRegisters(c: Config, s: HubState, name: Option<string>, task: string, cwd: Option<string>,
                       conv: string, now: int, dumps: Json -> string)
    requires LogValid(s)
    requires name.Some? && name.value != "" && NormaliseAgentName(name) !in s.reg.subs
    ensures var r := SpawnSub(c, s, name, task, cwd, conv, now, dumps);
            r.reg == AddAgent(s.reg, NormaliseAgentName(name), conv, NewMeta(c, now, Workspace(c, cwd))) &&
            r.autopilot == s.autopilot && r.warned == s.warned
  {
    var key := NormaliseAgentName(name);
    var s1 := Register(c, s, key, task, Workspace(c, cwd), conv, now);
    SpawnStages(c, s, key, task, Workspace(c, cwd), conv, now, dumps);
    assert SpawnSub(c, s, name, task, cwd, conv, now, dumps) == SpawnNew(c, s, key, task, Workspace(c, cwd), conv, now, dumps);
  }

  /** The `create_conversation` call carrying the system prompt and the
      task comes first, then `agent_added` and `agent_state` are
      broadcast. */
  lemma SpawnAnnounces(c: Config, s: HubState, name: Option<string>, task: string, cwd: Option<string>,
                       conv: string, now: int, dumps: Json -> string)
    requires LogValid(s)
    requires name.Some? && name.value != "" && NormaliseAgentName(name) !in s.reg.subs
    ensures var key := NormaliseAgentName(name);
            var r := SpawnSub(c, s, name, task, cwd, conv, now, dumps);
            s.calls + [CreateConversation(Workspace(c, cwd), c.model,
                                          [FallbackSystemPrefix + SubagentSystem(key), task])] <= r.calls &&
            s.events + [Event(s.sequence + 1, key, "agent_added", AgentPayload(key)),
                        Event(s.sequence + 2, key, "agent_state", StatePayload(key, "idle"))] <= r.events
  {
    var key := NormaliseAgentName(name);
    var ws := Workspace(c, cwd);
    var s1 := Register(c, s, key, task, ws, conv, now);
    var r := SpawnNew(c, s, key, task, ws, conv, now, dumps);
    assert SpawnSub(c, s, name, task, cwd, conv, now, dumps) == r;
    SpawnStages(c, s, key, task, ws, conv, now, dumps);
    SpawnEvents(c, s, key, task, ws, conv, now, dumps);

  }

  /** What each stage of a new spawn contributes: after the
      registration only the logs, the dirty set and the digest state
      change. */
  lemma SpawnStages(c: Config, s: HubState, key: string, task: string, ws: string, conv: string, now: int,
                    dumps: Json -> string)
    requires LogValid(s)
    ensures var s1 := Register(c, s, key, task, ws, conv, now);
            var r := SpawnNew(c, s, key, task, ws, conv, now, dumps);
            SameRegistry(s1, r) && LogValid(r) && s1.calls <= r.calls
  {
    var s1 := Register(c, s, key, task, ws, conv, now);
    var s2 := Announce(c, s1, key);
    AnnounceShape(c, s1, key);
    var s3 := MarkDirty(s2, key);
    MarkDirtySet(s2, key);
    MaybeDigestShape(c, s3, now, "spawn", dumps);
  }

  lemma SpawnEvents(c: Config, s: HubState, key: string, task: string, ws: string, conv: string, now: int,
                    dumps: Json -> string)
    requires LogValid(s)
    ensures s.events + [Event(s.sequence + 1, key, "agent_added", AgentPayload(key)),
                        Event(s.sequence + 2, key, "agent_state", StatePayload(key, "idle"))] <=
            SpawnNew(c, s, key, task, ws, conv, now, dumps).events
  {
    var s1 := Register(c, s, key, task, ws, conv, now);
    var s2 := Announce(c, s1, key);
    AnnounceShape(c, s1, key);
    var s3 := MarkDirty(s2, key);
    MarkDirtySet(s2, key);
    MaybeDigestShape(c, s3, now, "spawn", dumps);
  }

  /** The broadcasts and notice of a new agent. */
  lemma AnnounceShape(c: Config, s: HubState, key: string)
    requires LogValid(s)
    ensures var r := Announce(c, s, key);
            SameRegistry(s, r) && LogValid(r) && s.calls <= r.calls &&
            r.events == s.events + [Event(s.sequence + 1, key, "agent_added", AgentPayload(key)),
                                    Event(s.sequence + 2, key, "agent_state", StatePayload(key, "idle"))] &&
            r.dirty == s.dirty
  {
    var s1 := Emit(s, key, "agent_added", AgentPayload(key));
    EmitKeepsLogValid(s, key, "agent_added", AgentPayload(key));
    EmitKeepsLogValid(s1, key, "agent_state", StatePayload(key, "idle"));
  }

  /** Registering keeps the registries consistent, provided the key is
      a normalised name not yet registered and the app server hands out
      a conversation id not already in use. */
  lemma AddAgentValid(r: Registry, key: string, conv: string, meta: Meta)
    requires RegistryValid(r) && key !in r.subs && conv !in r.convToName
    requires IsAgentKey(key)
    ensures RegistryValid(AddAgent(r, key, conv, meta))
  {
    AddAgentOrder(r, key, conv, meta);
    AddAgentFiled(r, key, conv, meta);
    AddAgentConvs(r, key, conv, meta);
    AddAgentKeys(r, key, conv, meta);
  }

  lemma AddAgentKeys(r: Registry, key: string, conv: string, meta: Meta)
    requires KeysValid(r) && IssuesHeld(r)
    ensures KeysValid(AddAgent(r, key, conv, meta)) && IssuesHeld(AddAgent(r, key, conv, meta))
  {
    var r' := AddAgent(r, key, conv, meta);
    assert r'.agentMeta.Keys == r.agentMeta.Keys + {key};
    assert r'.subs.Keys == r.subs.Keys + {key};
  }

  lemma AddAgentOrder(r: Registry, key: string, conv: string, meta: Meta)
    requires OrderValid(r) && key !in r.subs
    ensures OrderValid(AddAgent(r, key, conv, meta))
  {
    var r' := AddAgent(r, key, conv, meta);
    assert key !in r.order;
    assert forall i | 0 <= i < |r.order| :: r'.order[i] == r.order[i] && r.order[i] != key;
    assert r'.order[|r.order|] == key;
  }

  lemma AddAgentFiled(r: Registry, key: string, conv: string, meta: Meta)
    requires SubsFiled(r) && conv !in r.convToName && IsAgentKey(key)
    ensures SubsFiled(AddAgent(r, key, conv, meta))
  {
    var r' := AddAgent(r, key, conv, meta);
    forall k | k in r'.subs
      ensures r'.subs[k].name == k && IsAgentKey(k) &&
              r'.subs[k].conversationId in r'.convToName && r'.convToName[r'.subs[k].conversationId] == k
    {
      if k == key {
        assert r'.subs[k] == Agent(key, conv, "idle", 0, None, None);
        assert r'.convToName[conv] == key;
      } else {
        assert r'.subs[k] == r.subs[k];
        var cv := r.subs[k].conversationId;
        assert cv in r.convToName && cv != conv;
        assert r'.convToName[cv] == r.convToName[cv] == k;
      }
    }
  }

  lemma AddAgentConvs(r: Registry, key: string, conv: string, meta: Meta)
    requires ConvsValid(r) && key !in r.subs
    ensures ConvsValid(AddAgent(r, key, conv, meta))
  {
  }

  /** Spawning keeps every invariant of the hub, given a fresh
      conversation id. */
  lemma SpawnValid(c: Config, s: HubState, name: Option<string>, task: string, cwd: Option<string>,
                   conv: string, now: int, dumps: Json -> string)
    requires Valid(s) && conv !in s.reg.convToName
    ensures Valid(SpawnSub(c, s, name, task, cwd, conv, now, dumps))
  {
    if name.None? || name.value == "" {
      SpawnMissingName(c, s, name, task, cwd, conv, now, dumps);
    } else if NormaliseAgentName(name) in s.reg.subs {
      SpawnExisting(c, s, name, task, cwd, conv, now, dumps);
    } else {
      var key := NormaliseAgentName(name);
      AddAgentValid(s.reg, key, conv, NewMeta(c, now, Workspace(c, cwd)));
      SpawnRegisters(c, s, name, task, cwd, conv, now, dumps);
      SpawnStages(c, s, key, task, Workspace(c, cwd), conv, now, dumps);
      assert SpawnSub(c, s, name, task, cwd, conv, now, dumps) == SpawnNew(c, s, key, task, Workspace(c, cwd), conv, now, dumps);
    }
  }

  // ------------------------------------------------------------ send properties

  /** An unknown name only earns the orchestrator a notice quoting the
      name as given. */
  lemma SendUnknown(c: Config, s: HubState, name: Option<string>, task: string, now: int)
    requires NormaliseAgentName(name) !in s.reg.subs
    ensures SendToSub(c, s, name, task, now) ==
            s.(calls := s.calls + Notice(c, "HUB: no such sub-agent '" + Shown(name) + "'."))
  {
    SendOrchNotice(c, s, "HUB: no such sub-agent '" + Shown(name) + "'.");
  }

  /** A known agent gets the task on its own conversation, its activity
      time becomes `now`, and the orchestrator is told. */
  lemma SendKnown(c: Config, s: HubState, name: Option<string>, task: string, now: int)
    requires KeysValid(s.reg) && NormaliseAgentName(name) in s.reg.subs
    ensures var key := NormaliseAgentName(name);
            var r := SendToSub(c, s, name, task, now);
            r.calls == s.calls + [SendMessage(s.reg.subs[key].conversationId, task)] +
                       Notice(c, "HUB: forwarded instruction to '" + key + "'.") &&
            r.events == s.events && r.dirty == s.dirty &&
            r.reg == s.reg.(agentMeta := s.reg.agentMeta[key := s.reg.agentMeta[key].(lastEventAt := now)])
  {
    var key := NormaliseAgentName(name);
    var s1 := s.(calls := s.calls + [SendMessage(s.reg.subs[key].conversationId, task)]);
    var s2 := s1.(reg := s1.reg.(agentMeta := s1.reg.agentMeta[key := s1.reg.agentMeta[key].(lastEventAt := now)]));
    SendOrchNotice(c, s2, "HUB: forwarded instruction to '" + key + "'.");
  }

  lemma SendValid(c: Config, s: HubState, name: Option<string>, task: string, now: int)
    requires Valid(s)
    ensures Valid(SendToSub(c, s, name, task, now))
  {
    var key := NormaliseAgentName(name);
    if key in s.reg.subs {
      SendKnown(c, s, name, task, now);
      TouchMetaValid(s.reg, key, s.reg.agentMeta[key].(lastEventAt := now));
      LogCarries(s, SendToSub(c, s, name, task, now));
    } else {
      SendUnknown(c, s, name, task, now);
    }
  }

  /** Replacing an agent's metadata keeps the registries consistent. */
  lemma TouchMetaValid(r: Registry, key: string, m: Meta)
    requires RegistryValid(r) && key in r.agentMeta
    ensures RegistryValid(r.(agentMeta := r.agentMeta[key := m]))
  {
    assert r.agentMeta[key := m].Keys == r.agentMeta.Keys;
  }

  /** The log invariant depends only on the logs and the dirty set. */
  lemma LogCarries(a: HubState, b: HubState)
    requires LogValid(a)
    requires b.sequence == a.sequence && b.events == a.events && b.dirty == a.dirty && b.decisions == a.decisions
    ensures LogValid(b)
  {
  }

  // ------------------------------------------------------------ close properties

  lemma CloseUnknown(c: Config, s: HubState, name: Option<string>)
    requires NormaliseAgentName(name) !in s.reg.subs
    ensures CloseSub(c, s, name) == s.(calls := s.calls + Notice(c, "HUB: no such sub-agent '" + Shown(name) + "'."))
  {
    SendOrchNotice(c, s, "HUB: no such sub-agent '" + Shown(name) + "'.");
  }

  /** Closing a known agent unregisters it, broadcasts `agent_removed`
      and tells the orchestrator. */
  lemma CloseKnown(c: Config, s: HubState, name: Option<string>)
    requires NormaliseAgentName(name) in s.reg.subs
    ensures var key := NormaliseAgentName(name);
            var r := CloseSub(c, s, name);
            r.reg == Unregister(s.reg, key) && r.autopilot == s.autopilot && r.dirty == s.dirty &&
            r.events == s.events + [Event(s.sequence + 1, key, "agent_removed", AgentPayload(key))] &&
            r.calls == s.calls + Notice(c, "HUB: closed sub-agent '" + key + "'.")
  {
    CloseKeyKnown(c, s, NormaliseAgentName(name), Shown(name));
  }

  lemma CloseKeyKnown(c: Config, s: HubState, key: string, shown: string)
    requires key in s.reg.subs
    ensures var r := CloseKey(c, s, key, shown);
            r.reg == Unregister(s.reg, key) && r.autopilot == s.autopilot && r.dirty == s.dirty &&
            r.events == s.events + [Event(s.sequence + 1, key, "agent_removed", AgentPayload(key))] &&
            r.calls == s.calls + Notice(c, "HUB: closed sub-agent '" + key + "'.")
  {
    var s1 := Emit(s.(reg := Unregister(s.reg, key)), key, "agent_removed", AgentPayload(key));
    SendOrchNotice(c, s1, "HUB: closed sub-agent '" + key + "'.");
  }

  /** After `close_sub` nothing refers to the agent any more: not the
      registries, not its conversation, not any issue; every other agent
      keeps its entries and its place in the order. */
  lemma UnregisterForgets(r: Registry, key: string)
    requires RegistryValid(r) && key in r.subs
    ensures var r' := Unregister(r, key);
            key !in r'.subs && key !in r'.order && key !in r'.agentState && key !in r'.agentMeta &&
            key !in r'.lastCheckin && r.subs[key].conversationId !in r'.convToName &&
            (forall n :: n in r'.issueToAgent ==> r'.issueToAgent[n] != key) &&
            (forall k :: k in r'.subs <==> k in r.subs && k != key) &&
            (forall k :: k in r'.subs ==> r'.subs[k] == r.subs[k] && r'.agentMeta[k] == r.agentMeta[k]) &&
            (forall n :: n in r.issueToAgent && r.issueToAgent[n] != key ==>
                           n in r'.issueToAgent && r'.issueToAgent[n] == r.issueToAgent[n])
  {
  }

  lemma UnregisterValid(r: Registry, key: string)
    requires RegistryValid(r) && key in r.subs
    ensures RegistryValid(Unregister(r, key))
  {
    UnregisterKeys(r, key);
    UnregisterFiled(r, key);
    UnregisterConvs(r, key);
  }

  lemma UnregisterKeys(r: Registry, key: string)
    requires KeysValid(r) && OrderValid(r) && IssuesHeld(r) && key in r.subs
    ensures KeysValid(Unregister(r, key)) && OrderValid(Unregister(r, key)) && IssuesHeld(Unregister(r, key))
  {
    var r' := Unregister(r, key);
    assert r'.agentMeta.Keys == r.agentMeta.Keys - {key};
    assert r'.subs.Keys == r.subs.Keys - {key};
    assert r'.agentState.Keys == r.agentState.Keys - {key};
  }

  lemma UnregisterFiled(r: Registry, key: string)
    requires SubsFiled(r) && key in r.subs
    ensures SubsFiled(Unregister(r, key))
  {
    var r' := Unregister(r, key);
    var cv0 := r.subs[key].conversationId;
    forall k | k in r'.subs
      ensures r'.subs[k].name == k && IsAgentKey(k) &&
              r'.subs[k].conversationId in r'.convToName && r'.convToName[r'.subs[k].conversationId] == k
    {
      var cv := r.subs[k].conversationId;
      assert r'.subs[k] == r.subs[k];
      assert r.convToName[cv] == k != key;
      assert cv != cv0;
      assert r'.convToName[cv] == r.convToName[cv];
    }
  }

  lemma UnregisterConvs(r: Registry, key: string)
    requires SubsFiled(r) && ConvsValid(r) && key in r.subs
    ensures ConvsValid(Unregister(r, key))
  {
    var r' := Unregister(r, key);
    var cv0 := r.subs[key].conversationId;
    forall cv | cv in r'.convToName
      ensures r'.convToName[cv] in r'.subs && r'.subs[r'.convToName[cv]].conversationId == cv
    {
      assert cv != cv0 && r'.convToName[cv] == r.convToName[cv];
      assert r.convToName[cv] != key;
    }
  }

  lemma CloseValid(c: Config, s: HubState, name: Option<string>)
    requires Valid(s)
    ensures Valid(CloseSub(c, s, name))
  {
    var key := NormaliseAgentName(name);
    if key in s.reg.subs {
      CloseKnown(c, s, name);
      UnregisterValid(s.reg, key);
      var s1 := Emit(s.(reg := Unregister(s.reg, key)), key, "agent_removed", AgentPayload(key));
      EmitKeepsLogValid(s.(reg := Unregister(s.reg, key)), key, "agent_removed", AgentPayload(key));
      SendOrchNotice(c, s1, "HUB: closed sub-agent '" + key + "'.");
      LogCarries(s1, CloseSub(c, s, name));
    } else {
      CloseUnknown(c, s, name);
    }
  }

  /** Removing a key not in the list changes nothing. */
  lemma WithoutAbsent(xs: seq<string>, key: string)
    requires key !in xs
    ensures Without(xs, key) == xs
  {
    if xs != [] {
      assert key !in xs[1..];
      WithoutAbsent(xs[1..], key);
    }
  }

  lemma {:induction false} WithoutLast(xs: seq<string>, key: string)
    requires key !in xs
    ensures Without(xs + [key], key) == xs
  {
    if xs == [] {
      assert Without([key], key) == Without([key][1..], key);
      assert [key][1..] == [];
    } else {
      assert (xs + [key])[1..] == xs[1..] + [key];
      assert key !in xs[1..];
      WithoutLast(xs[1..], key);
      assert xs == [xs[0]] + xs[1..];
    }
  }

  lemma UpdateThenRemove<V>(m: map<string, V>, k: string, v: V)
    requires k !in m
    ensures m[k := v] - {k} == m
  {
  }

  /** Closing an agent just spawned restores the registries, provided the
      name had no stale state or check-in entry. */
  lemma CloseUndoesSpawn(r: Registry, key: string, conv: string, meta: Meta)
    requires RegistryValid(r) && key !in r.subs && conv !in r.convToName
    requires key !in r.agentState && key !in r.lastCheckin
    ensures Unregister(AddAgent(r, key, conv, meta), key) == r
  {
    assert key !in r.order;
    WithoutLast(r.order, key);
    UpdateThenRemove(r.subs, key, Agent(key, conv, "idle", 0, None, None));
    UpdateThenRemove(r.agentState, key, "idle");
    assert key !in r.agentMeta;
    UpdateThenRemove(r.agentMeta, key, meta);
    UpdateThenRemove(r.lastCheckin, key, -1);
    UpdateThenRemove(r.convToName, conv, key);
    NoIssueHeld(r, key);
  }

  lemma NoIssueHeld(r: Registry, key: string)
    requires IssuesHeld(r) && key !in r.subs
    ensures DropHolder(r.issueToAgent, key) == r.issueToAgent
  {
    assert forall n :: n in r.issueToAgent ==> r.issueToAgent[n] != key;
    assert DropHolder(r.issueToAgent, key).Keys == r.issueToAgent.Keys;
  }

  // ------------------------------------------------------------ state properties

  /** Setting the state an agent already has does nothing at all. */
  lemma SetStateUnchanged(c: Config, s: HubState, agent: string, state: string, now: int, dumps: Json -> string)
    requires agent in s.reg.agentState && s.reg.agentState[agent] == state
    ensures SetState(c, s, agent, state, now, dumps) == s
  {
  }

  /** A new state is recorded and broadcast; a sub-agent (but never the
      orchestrator) is marked dirty, unless a digest went out at once. */
  lemma SetStateChanges(c: Config, s: HubState, agent: string, state: string, now: int, dumps: Json -> string)
    requires LogValid(s)
    requires !(agent in s.reg.agentState && s.reg.agentState[agent] == state)
    ensures var r := SetState(c, s, agent, state, now, dumps);
            r.reg == s.reg.(agentState := s.reg.agentState[agent := state]) &&
            r.autopilot == s.autopilot && r.warned == s.warned && LogValid(r) &&
            |r.events| > |s.events| && r.events[..|s.events|] == s.events &&
            r.events[|s.events|] == Event(s.sequence + 1, agent, "agent_state", StatePayload(agent, state)) &&
            (agent == "orchestrator" ==> r.dirty == s.dirty && r.calls == s.calls) &&
            (agent != "orchestrator" && agent != "" ==> agent in r.dirty || r.dirty == [])
  {
    var s1 := Emit(s.(reg := s.reg.(agentState := s.reg.agentState[agent := state])), agent, "agent_state",
                   StatePayload(agent, state));
    EmitKeepsLogValid(s.(reg := s.reg.(agentState := s.reg.agentState[agent := state])), agent, "agent_state",
                      StatePayload(agent, state));
    if agent != "orchestrator" {
      DirtyDigest(c, s1, agent, now, "state_change", dumps);
      var r := MaybeDigest(c, MarkDirty(s1, agent), now, "state_change", dumps);
      assert r.events[..|s.events|] == s1.events[..|s.events|];
    }
  }

  /** Marking an agent dirty and then maybe digesting keeps the registry
      and the log, and leaves the agent pending unless the digest went out. */
  lemma DirtyDigest(c: Config, s: HubState, agent: string, now: int, reason: string, dumps: Json -> string)
    requires LogValid(s)
    ensures var r := MaybeDigest(c, MarkDirty(s, agent), now, reason, dumps);
            SameRegistry(s, r) && LogValid(r) && s.events <= r.events &&
            (agent != "orchestrator" && agent != "" ==> agent in r.dirty || r.dirty == [])
  {
    MarkDirtySet(s, agent);
    MaybeDigestShape(c, MarkDirty(s, agent), now, reason, dumps);
  }

  lemma SetStateValid(c: Config, s: HubState, agent: string, state: string, now: int, dumps: Json -> string)
    requires Valid(s)
    ensures Valid(SetState(c, s, agent, state, now, dumps))
  {
    if !(agent in s.reg.agentState && s.reg.agentState[agent] == state) {
      SetStateChanges(c, s, agent, state, now, dumps);
      var r := SetState(c, s, agent, state, now, dumps);
      assert r.reg.agentState.Keys == s.reg.agentState.Keys + {agent};
    }
  }

  // ------------------------------------------------------------ autopilot properties

  /** A change of mode is recorded, re-arms the warning, is broadcast
      and announced; the registries stay as they were. */
  lemma AutopilotChanges(c: Config, s: HubState, enabled: bool)
    requires s.autopilot != enabled
    ensures var r := SetAutopilot(c, s, enabled);
            r.autopilot == enabled && !r.warned && r.reg == s.reg && r.dirty == s.dirty &&
            r.events == s.events + [Event(s.sequence + 1, "hub", "autopilot_state", JObj([("enabled", JBool(enabled))]))] &&
            r.calls == s.calls + Notice(c, "HUB: autopilot " + (if enabled then "enabled" else "disabled") +
                                           " by human controller.")
  {
    var s1 := Emit(s.(autopilot := enabled, warned := false), "hub", "autopilot_state",
                   JObj([("enabled", JBool(enabled))]));
    SendOrchNotice(c, s1, "HUB: autopilot " + (if enabled then "enabled" else "disabled") + " by human controller.");
  }

  /** Setting the mode twice is the same as setting it once. */
  lemma AutopilotIdempotent(c: Config, s: HubState, enabled: bool)
    ensures SetAutopilot(c, SetAutopilot(c, s, enabled), enabled) == SetAutopilot(c, s, enabled)
  {
    if s.autopilot != enabled {
      AutopilotChanges(c, s, enabled);
    }
  }

  lemma AutopilotValid(c: Config, s: HubState, enabled: bool)
    requires Valid(s)
    ensures Valid(SetAutopilot(c, s, enabled))
  {
    if s.autopilot != enabled {
      AutopilotChanges(c, s, enabled);
      EmitKeepsLogValid(s.(autopilot := enabled, warned := false), "hub", "autopilot_state",
                        JObj([("enabled", JBool(enabled))]));
    }
  }
}
