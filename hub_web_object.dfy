/** The dashboard's hub object: each method updates the fields in place
    and is proved against the function of the same name in WebModel. */
module WebHub {
  import opened Text
  import opened JsonValue
  import opened ControlFence
  import ControlBlocks
  import HubModel
  import HubRegistry
  import HubPolicy
  import opened WebModel


  class Hub {
    const st: Settings
    var subs: map<string, Child>
    var agentState: map<string, string>
    var stderrBuf: map<string, seq<string>>
    var allowControls: bool
    var sequence: nat
    var events: seq<HubModel.Event>
    var outbox: seq<Out>

    function Snapshot(): Web
      reads this
    {
      Web(subs, agentState, stderrBuf, allowControls, sequence, events, outbox)
    }

    constructor (settings: Settings)
      ensures st == settings && Snapshot() == Initial() && Valid(Snapshot())
    {
      st := settings;
      subs, agentState, stderrBuf, allowControls := map[], map["orchestrator" := "idle"], map[], false;
      sequence, events, outbox := 0, [], [];
    }

    /** `_broadcast(payload)`. */
    method Broadcast(who: string, kind: string, payload: Json)
      modifies this
      ensures Snapshot() == WebModel.Broadcast(old(Snapshot()), who, kind, payload)
    {
      sequence := sequence + 1;
      events := events + [HubModel.Event(sequence, who, kind, payload)];
    }

    /** The update made by the `/api/autopilot` route. */
    method SetAutopilot(enabled: bool)
      modifies this
      ensures Snapshot() == WebModel.SetAutopilot(old(Snapshot()), enabled)
    {
      allowControls := enabled;
      Broadcast("orchestrator", "autopilot", JObj([("enabled", JBool(enabled))]));
    }

    method ToOrch(text: string)
      modifies this
      ensures Snapshot() == WebModel.ToOrch(old(Snapshot()), text)
    {
      outbox := outbox + [Turn("orchestrator", [text])];
    }

    /** `_set_state(agent, state)`. */
    method SetState(agent: string, state: string)
      modifies this
      ensures Snapshot() == WebModel.SetState(old(Snapshot()), agent, state)
    {
      if agent in agentState && agentState[agent] == state {
        return;
      }
      agentState := agentState[agent := state];
      Broadcast(agent, "agent_state", JObj([("agent", JStr(agent)), ("state", JStr(state))]));
    }

    /** `spawn_sub(name, task_text, cwd)`. */
    method SpawnSub(name: Option<string>, task: string, cwd: Option<string>)
      modifies this
      ensures Snapshot() == WebModel.SpawnSub(st, old(Snapshot()), name, task, cwd)
    {
      if name.None? || name.value == "" {
        ToOrch("HUB: spawn missing 'name'.");
        return;
      }
      var n := name.value;
      if n in subs {
        ToOrch("HUB: sub-agent '" + n + "' already exists.");
        return;
      }
      Launch(n, task, ChildCwd(st, cwd));
    }

    /** The accepted branch of `spawn_sub`. */
    method Launch(n: string, task: string, dir: Option<string>)
      modifies this
      ensures Snapshot() == WebModel.Launch(st, old(Snapshot()), n, task, dir)
    {
      StartChild(n, task, dir, SubagentSystem(n));
      ToOrch("HUB: spawned sub-agent '" + n + "'.");
      Broadcast(n, "agent_added", AgentPayload(n));
      SetState(n, "idle");
    }

    method StartChild(n: string, task: string, dir: Option<string>, sys: string)
      modifies this
      ensures Snapshot() == WebModel.StartChild(st, old(Snapshot()), n, task, dir, sys)
    {
      outbox := outbox + [Start(n, dir, st.dangerous, sys, st.model),
                          Turn(n, [HubRegistry.FallbackSystemPrefix + sys, task])];
      subs := subs[n := Child(n, dir, sys)];
    }

    /** `send_to_sub(name, task_text)`. */
    method SendToSub(name: Option<string>, task: string)
      modifies this
      ensures Snapshot() == WebModel.SendToSub(old(Snapshot()), name, task)
    {
      var key := KeyOf(name);
      if key !in subs {
        ToOrch("HUB: no such sub-agent '" + HubRegistry.Shown(name) + "'.");
        return;
      }
      outbox := outbox + [Turn(key, [task])];
      ToOrch("HUB: forwarded instruction to '" + HubRegistry.Shown(name) + "'.");
    }

    /** `close_sub(name)`. */
    method CloseSub(name: Option<string>)
      modifies this
      ensures Snapshot() == WebModel.CloseSub(old(Snapshot()), name)
    {
      var key := KeyOf(name);
      if key !in subs {
        ToOrch("HUB: no such sub-agent '" + HubRegistry.Shown(name) + "'.");
        return;
      }
      subs := subs - {key};
      outbox := outbox + [Stop(key)];
      if name.Some? {
        agentState := agentState - {key};
        stderrBuf := stderrBuf - {key};
      }
      ToOrch("HUB: closed sub-agent '" + HubRegistry.Shown(name) + "'.");
      Broadcast(key, "agent_removed", AgentPayload(key));
    }

    /** One line of `_pump_stderr`. */
    method RecordStderr(name: string, line: string)
      modifies this
      ensures Snapshot() == WebModel.RecordStderr(old(Snapshot()), name, line)
    {
      var buf := (if name in stderrBuf then stderrBuf[name] else []) + [line];
      stderrBuf := stderrBuf[name := Bounded(buf)];
      Broadcast(name, "agent_stderr", JObj([("line", JStr(line))]));
    }

    /** `_autoapprove(who, msg, kind)`. */
    method Autoapprove(who: string, msg: Json, kind: string)
      modifies this
      ensures Snapshot() == WebModel.Autoapprove(old(Snapshot()), who, msg, kind)
    {
      if who != "orchestrator" && who !in subs {
        return;
      }
      var callId := GetOr(msg, "call_id", HubPolicy.ValueOf(msg, "id"));
      var opType := if kind == "exec" then "exec_approval" else "patch_approval";
      if allowControls {
        outbox := outbox + [Approval(who, opType, callId, true, ApprovedReason, "approved")];
      } else {
        outbox := outbox + [Approval(who, opType, callId, false, DeniedReason, "denied")];
      }
    }

    /** The loop body of `_handle_orch` for a block that does not raise. */
    method HandleBlock(b: Json)
      modifies this
      ensures Snapshot() == WebModel.HandleBlock(st, old(Snapshot()), b)
    {
      if !allowControls {
        Broadcast("orchestrator", "autopilot_suppressed", JObj([("control", b)]));
        return;
      }
      var key := CommandKey(b);
      var spec := SpecOf(b, key);
      if key == "spawn" {
        var task := GetStr(spec, "task");
        Broadcast("orchestrator", "orch_to_agent", HubPolicy.OrchToAgent("spawn", HubPolicy.ValueOf(spec, "name"), task));
        SpawnSub(HubPolicy.NameOf(spec, "name"), task, HubPolicy.OptStr(spec, "cwd", st.defaultCwd));
      } else if key == "send" {
        var task := GetStr(spec, "task");
        Broadcast("orchestrator", "orch_to_agent", HubPolicy.OrchToAgent("send", HubPolicy.ValueOf(spec, "to"), task));
        SendToSub(HubPolicy.NameOf(spec, "to"), task);
      } else if key == "close" {
        Broadcast("orchestrator", "orch_to_agent",
                  HubPolicy.OrchToAgent("close", HubPolicy.ValueOf(spec, "agent"), GetStr(spec, "reason")));
        CloseSub(HubPolicy.NameOf(spec, "agent"));
      }
    }

    /** The loop of `_handle_orch`: the blocks in order, until one
        raises. */
    method HandleAll(blocks: seq<Json>)
      modifies this
      ensures Snapshot() == HandleBlocks(st, old(Snapshot()), blocks)
    {
      ghost var w0 := Snapshot();
      var i := 0;
      while i < |blocks|
        invariant 0 <= i <= |blocks|
        invariant HandleBlocks(st, Snapshot(), blocks[i..]) == HandleBlocks(st, w0, blocks)
        decreases |blocks| - i
      {
        assert blocks[i..][0] == blocks[i] && blocks[i..][1..] == blocks[i + 1..];
        if Raises(Snapshot(), blocks[i]) {
          return;
        }
        HandleBlock(blocks[i]);
        i := i + 1;
      }
      assert blocks[i..] == [];
    }

    /** `_handle_orch(msg_type, msg)`. */
    method HandleOrch(msgType: Option<string>, msg: Json, decode: string -> Option<Json>, signature: Json -> string)
      modifies this
      ensures Snapshot() == WebModel.HandleOrch(st, old(Snapshot()), msgType, msg, decode, signature)
    {
      if msgType != Some("agent_message") {
        return;
      }
      var blocks := ControlBlocks.ExtractControlBlocks(Spaced, Some(MessageText(msg)), decode, signature);
      HandleAll(blocks);
    }
  }
}
