/** The state a `Hub` keeps (codex_hub_core.py): its registries of
    sub-agents, the orchestrator digest it accumulates, and the two logs of
    what it says to the outside world — events broadcast to subscribers, and
    calls made to the app server.  Each operation is a function from the old
    state to the new one; the class in hub.dfy performs them in place. */
module HubModel {
  import opened Text
  import opened JsonValue
  import opened Sorting
  import opened HubNames

  // ------------------------------------------------------------ records

  /** The `Agent` dataclass. Timestamps are whole seconds. */
  datatype Agent = Agent(name: string, conversationId: string, state: string, lastCheckinTs: int,
                         lastArtifactId: Option<string>, lastSummary: Option<string>)

  /** The `AgentMeta` dataclass. */
  datatype Meta = Meta(issueNumber: Option<int>, epic: Option<int>, startedAt: int, lastEventAt: int,
                       checkinSeconds: int, budgetSeconds: int, nudgesSent: int, maxNudges: int,
                       statusCommentId: Option<int>, workspace: Option<string>, closingAfterBudget: bool)

  /** One broadcast: `event = dict(payload); event["seq"] = self._sequence`. */
  datatype Event = Event(seqNo: nat, who: string, kind: string, payload: Json)

  /** What the hub asks of the app server and of GitHub. */
  datatype Call =
    | SendMessage(conversation: string, text: string)
    | CreateConversation(workspace: string, model: Option<string>, initial: seq<string>)
    | Respond(request: Json, decision: string)
    | RespondError(request: Json, code: int, message: string)
    | CommentIssue(issue: int, text: string)

  /** A command the hub started through `run_exec`. */
  datatype Command = Command(argv: seq<string>, cwd: string)

  /** A `_decision_log` record `{"ts", "who": "hub", "action": "digest_sent", "reason"}`. */
  datatype Decision = Decision(ts: int, reason: string)

  /** What `Hub.__init__` and `Hub.start` fix for the hub's lifetime:
      `orchestrator` is the orchestrator's conversation id once `start`
      has created it, and None before. */
  datatype Config = Config(dangerous: bool, wipLimit: nat, defaultCheckin: int, defaultBudget: int,
                           defaultCwd: Option<string>, processCwd: string, model: Option<string>,
                           orchestrator: Option<string>)

  /** Everything the hub's methods change. `order` lists the keys of `subs`
      in insertion order, which is the order in which the source iterates
      `subs` and `agent_meta`; `dirty` is the set `_orch_dirty`, held
      without repetition in the order agents were added. */
  datatype Registry = Registry(
    subs: map<string, Agent>, order: seq<string>, convToName: map<string, string>,
    agentState: map<string, string>, lastCheckin: map<string, int>, agentMeta: map<string, Meta>,
    issueToAgent: map<int, string>)

  datatype HubState = HubState(
    reg: Registry, autopilot: bool, warned: bool,
    dirty: seq<string>, extras: seq<Json>, lastSent: int, decisions: seq<Decision>,
    sequence: nat, events: seq<Event>, calls: seq<Call>, commands: seq<Command>)

  /** `Hub.__init__`: `wip_limit = max(0, int(wip_limit))` and the check-in
      and budget defaults parsed with fall-backs of 600 and 2700 seconds. */
  function MakeConfig(dangerous: bool, wipLimit: int, defaultCheckin: Option<string>,
                      defaultBudget: Option<string>, defaultCwd: Option<string>, processCwd: string,
                      model: Option<string>, orchestrator: Option<string>): (c: Config)
    ensures c.wipLimit == if wipLimit < 0 then 0 else wipLimit
    ensures c.defaultCheckin == ParseDuration(defaultCheckin, 600)
    ensures c.defaultBudget == ParseDuration(defaultBudget, 2700)
  {
    Config(dangerous, if wipLimit < 0 then 0 else wipLimit, ParseDuration(defaultCheckin, 600),
           ParseDuration(defaultBudget, 2700), defaultCwd, processCwd, model, orchestrator)
  }

  /** A new hub: nothing registered, autopilot on, nothing sent. */
  const Initial: HubState := HubState(Registry(map[], [], map[], map[], map[], map[], map[]), true, false,
                                      [], [], 0, [], 0, [], [], [])

  // ------------------------------------------------------------ invariants

  predicate Distinct<T(==)>(xs: seq<T>)
  {
    forall i, j :: 0 <= i < j < |xs| ==> xs[i] != xs[j]
  }

  /** The registries agree: `order` enumerates `subs`; `agent_meta` has the
      same keys and `agent_state` at least those; every agent's
      conversation maps back to it and nothing else is in `_conv_to_name`;
      every issue is held by a registered agent; every key is a
      normalised name. */
  /** The registries agree with one another: `order` lists each key of
      `subs` once; every agent has metadata and a state; every agent is
      filed under its own name, which has the shape of a normalised key
      (so `KeyIsFixedPoint` finds it again under that key), and reachable from its
      conversation id, and `_conv_to_name` holds nothing else; every issue
      is held by a registered agent. */
  ghost predicate RegistryValid(r: Registry)
  {
    OrderValid(r) && KeysValid(r) && SubsFiled(r) && ConvsValid(r) && IssuesHeld(r)
  }

  ghost predicate OrderValid(r: Registry)
  {
    Distinct(r.order) && (forall k :: k in r.order <==> k in r.subs)
  }

  ghost predicate KeysValid(r: Registry)
  {
    r.agentMeta.Keys == r.subs.Keys && r.subs.Keys <= r.agentState.Keys
  }

  ghost predicate SubsFiled(r: Registry)
  {
    forall k :: k in r.subs ==>
      r.subs[k].name == k && IsAgentKey(k) &&
      r.subs[k].conversationId in r.convToName && r.convToName[r.subs[k].conversationId] == k
  }

  ghost predicate ConvsValid(r: Registry)
  {
    forall cv :: cv in r.convToName ==> r.convToName[cv] in r.subs && r.subs[r.convToName[cv]].conversationId == cv
  }

  ghost predicate IssuesHeld(r: Registry)
  {
    forall n :: n in r.issueToAgent ==> r.issueToAgent[n] in r.subs
  }

  /** Broadcasts are numbered 1, 2, 3, … and `_sequence` is the last number;
      the dirty set has no repeats; the decision log holds at most 100. */
  ghost predicate LogValid(s: HubState)
  {
    s.sequence == |s.events| && (forall i :: 0 <= i < |s.events| ==> s.events[i].seqNo == i + 1) &&
    Distinct(s.dirty) && |s.decisions| <= DecisionLogMax
  }

  ghost predicate Valid(s: HubState)
  {
    RegistryValid(s.reg) && LogValid(s)
  }

  /** The fields no digest or broadcast touches. */
  predicate SameRegistry(a: HubState, b: HubState)
  {
    a.reg == b.reg && a.autopilot == b.autopilot && a.warned == b.warned
  }

  lemma InitialValid()
    ensures Valid(Initial)
  {
  }

  // ------------------------------------------------------------ outbound

  /** `_broadcast`: the next sequence number goes on the event. */
  function Emit(s: HubState, who: string, kind: string, payload: Json): (r: HubState)
    ensures r.events == s.events + [Event(s.sequence + 1, who, kind, payload)]
  {
    s.(sequence := s.sequence + 1, events := s.events + [Event(s.sequence + 1, who, kind, payload)])
  }

  /** `_send_orch`: a message to the orchestrator, dropped before `start`. */
  function SendOrch(c: Config, s: HubState, text: string): HubState
  {
    if c.orchestrator.Some? then s.(calls := s.calls + [SendMessage(c.orchestrator.value, text)]) else s
  }

  /** `_mark_dirty`: the orchestrator and an empty name are never dirty. */
  function MarkDirty(s: HubState, agent: string): HubState
  {
    if agent == "" || agent == "orchestrator" || agent in s.dirty then s
    else s.(dirty := s.dirty + [agent])
  }

  lemma EmitKeepsLogValid(s: HubState, who: string, kind: string, payload: Json)
    requires LogValid(s)
    ensures LogValid(Emit(s, who, kind, payload))
    ensures SameRegistry(s, Emit(s, who, kind, payload))
  {
  }

  /** A dirty mark is recorded once, and only for a real agent name. */
  lemma MarkDirtySet(s: HubState, agent: string)
    requires Distinct(s.dirty)
    ensures Distinct(MarkDirty(s, agent).dirty)
    ensures forall a :: a in MarkDirty(s, agent).dirty <==>
                          a in s.dirty || (a == agent && agent != "" && agent != "orchestrator")
  {
    if !(agent == "" || agent == "orchestrator" || agent in s.dirty) {
      var d := s.dirty + [agent];
      assert forall i :: 0 <= i < |s.dirty| ==> d[i] == s.dirty[i] != agent;
      assert d[|s.dirty|] == agent;
    }
  }

  // ------------------------------------------------------------ digest

  const DigestHeader: string := "Decision-ready digest:"
  const NoUpdatesLine: string := "- No agent updates; awaiting check-ins."
  const ForcedEmptyDigest: string := "Decision-ready digest: (no updates)"
  const Debounce: int := 3
  const DecisionLogMax: nat := 100

  function OrEmpty(o: Option<string>): string
  {
    if o.Some? then o.value else ""
  }

  function StateOf(s: HubState, name: string): string
  {
    if name in s.reg.agentState then s.reg.agentState[name] else "unknown"
  }

  /** `f"{last_seconds}s"` when the agent has checked in, else `"n/a"`. */
  function LastCheckinText(s: HubState, name: string, now: int): string
  {
    if name in s.reg.subs && s.reg.subs[name].lastCheckinTs != 0 then
      var delta := now - s.reg.subs[name].lastCheckinTs;
      IntToString(if delta < 0 then 0 else delta) + "s"
    else "n/a"
  }

  /** The one or two digest lines of a dirty agent. */
  function AgentLines(s: HubState, name: string, now: int): (ls: seq<string>)
    ensures 1 <= |ls| <= 2
  {
    var summary := if name in s.reg.subs then Strip(OrEmpty(s.reg.subs[name].lastSummary)) else "";
    ["- " + name + " [" + StateOf(s, name) + ", last check-in " + LastCheckinText(s, name, now) + "]"] +
    (if summary != "" then ["  \"" + summary + "\""] else [])
  }

  /** The `AGENT_UPDATE` event of a dirty agent; `issue` and `artifacts`
      appear only when they hold something. */
  function AgentEvent(s: HubState, name: string): (e: Json)
    ensures e.JObj? && |e.fields| >= 3 && e.fields[1] == ("agent", JStr(name))
  {
    var issue := if name in s.reg.agentMeta && s.reg.agentMeta[name].issueNumber.Some? &&
                    s.reg.agentMeta[name].issueNumber.value != 0
                 then [("issue", JInt(s.reg.agentMeta[name].issueNumber.value))] else [];
    var art := if name in s.reg.subs && s.reg.subs[name].lastArtifactId.Some? && s.reg.subs[name].lastArtifactId.value != ""
               then [("artifacts", JObj([("last_message", JStr(s.reg.subs[name].lastArtifactId.value))]))] else [];
    JObj([("type", JStr("AGENT_UPDATE")), ("agent", JStr(name)), ("state", JStr(StateOf(s, name)))] + issue + art)
  }

  function DigestLines(s: HubState, names: seq<string>, now: int): (ls: seq<string>)
    ensures names == [] <==> ls == []
  {
    if names == [] then [] else AgentLines(s, names[0], now) + DigestLines(s, names[1..], now)
  }

  function DigestEvents(s: HubState, names: seq<string>): (es: seq<Json>)
    ensures |es| == |names|
    ensures forall i :: 0 <= i < |names| ==> es[i] == AgentEvent(s, names[i])
  {
    if names == [] then [] else [AgentEvent(s, names[0])] + DigestEvents(s, names[1..])
  }

  /** Each event as a fenced ```` ```event ```` block, `dumps` standing for
      `json.dumps(..., ensure_ascii=False)`. */
  function EventBlocks(evs: seq<Json>, dumps: Json -> string): string
  {
    if evs == [] then "" else "\n\n```event\n" + dumps(evs[0]) + "\n```" + EventBlocks(evs[1..], dumps)
  }

  /** The digest's text lines: the header, then each dirty agent in sorted
      order, or a placeholder when there is none. */
  function DigestTextLines(s: HubState, now: int): seq<string>
  {
    var body := DigestLines(s, SortStrings(s.dirty), now);
    [DigestHeader] + (if body == [] then [NoUpdatesLine] else body)
  }

  /** `_build_digest_text`: the lines, then one event block per dirty agent
      in sorted order, then the queued extra blocks. */
  function DigestText(s: HubState, now: int, dumps: Json -> string): string
  {
    Join(DigestTextLines(s, now), "\n") + EventBlocks(DigestEvents(s, SortStrings(s.dirty)), dumps) +
    EventBlocks(s.extras, dumps)
  }

  /** `deque(maxlen=100).append`: the oldest record falls off a full log. */
  function PushDecision(log: seq<Decision>, d: Decision): (r: seq<Decision>)
    ensures |r| == if |log| + 1 > DecisionLogMax then DecisionLogMax else |log| + 1
    ensures r != [] && r[|r| - 1] == d
  {
    var l := log + [d];
    if |l| > DecisionLogMax then l[|l| - DecisionLogMax..] else l
  }

  function DecisionPayload(d: Decision): Json
  {
    JObj([("ts", JInt(d.ts)), ("who", JStr("hub")), ("action", JStr("digest_sent")), ("reason", JStr(d.reason))])
  }

  /** `_send_digest(reason, force)`: unless nothing is pending and the send
      is not forced, the digest goes to the orchestrator, the extra blocks
      and the dirty set are emptied, and the send time and a decision are
      recorded and broadcast. The source falls back to a placeholder text
      when the digest is blank; `DigestStartsWithHeader` shows it never is. */
  function SendDigest(c: Config, s: HubState, now: int, reason: string, force: bool,
                      dumps: Json -> string): HubState
  {
    if c.orchestrator.None? then s
    else if !force && s.dirty == [] && s.extras == [] then s
    else
      var d := Decision(now, reason);
      var s1 := s.(extras := [], calls := s.calls + [SendMessage(c.orchestrator.value, DigestText(s, now, dumps))],
                   lastSent := now, decisions := PushDecision(s.decisions, d));
      Emit(s1, "hub", "decision", DecisionPayload(d)).(dirty := [])
  }

  /** `_maybe_send_digest`: only with something to report, and at most once
      per debounce interval of 3 seconds. */
  function MaybeDigest(c: Config, s: HubState, now: int, reason: string, dumps: Json -> string): HubState
  {
    if c.orchestrator.None? then s
    else if s.dirty == [] && s.extras == [] then s
    else if s.lastSent == 0 || now - s.lastSent >= Debounce then SendDigest(c, s, now, reason, false, dumps)
    else s
  }

  /** `recent_decisions(count)`: `list(log)[-count:]` for a positive count. */
  function RecentDecisions(log: seq<Decision>, count: int): (r: seq<Decision>)
    ensures count <= 0 ==> r == []
    ensures count > 0 ==> |r| == (if count < |log| then count else |log|)
    ensures count > 0 ==> r == log[|log| - |r|..]
  {
    if count <= 0 then [] else if count >= |log| then log else log[|log| - count..]
  }

  // ------------------------------------------------------------ digest properties

  /** The digest text starts with its header, so it is never blank and the
      "no updates" replacement of a forced digest is never used. */
  lemma DigestStartsWithHeader(s: HubState, now: int, dumps: Json -> string)
    ensures StartsWith(DigestText(s, now, dumps), DigestHeader)
    ensures Strip(DigestText(s, now, dumps)) != ""
  {
    var lines := DigestTextLines(s, now);
    JoinStartsWith(lines, "\n");
    var t := DigestText(s, now, dumps);
    var j := Join(lines, "\n");
    assert t[..|j|] == j;
    assert t[0] == j[0] == DigestHeader[0] == 'D';
    assert !IsSpace(t[0]);
    StripEmptyIff(t);
  }

  /** Every dirty agent contributes exactly one `AGENT_UPDATE` event, in
      sorted order of names, and no other agent does. */
  lemma DigestCoversDirty(s: HubState)
    ensures var evs := DigestEvents(s, SortStrings(s.dirty));
            SortedStrings(SortStrings(s.dirty)) && multiset(SortStrings(s.dirty)) == multiset(s.dirty) &&
            |evs| == |s.dirty| &&
            forall i :: 0 <= i < |evs| ==> evs[i].fields[1] == ("agent", JStr(SortStrings(s.dirty)[i]))
  {
    SortStringsCorrect(s.dirty);
    assert |multiset(SortStrings(s.dirty))| == |multiset(s.dirty)|;
  }

  /** Without dirty agents the digest says that nobody has reported. */
  lemma DigestWithoutUpdates(s: HubState, now: int)
    requires s.dirty == []
    ensures DigestTextLines(s, now) == [DigestHeader, NoUpdatesLine]
  {
  }

  /** A digest that is sent clears the dirty set and the extra blocks,
      records the send time, appends one decision carrying the reason and
      sends exactly one message, the digest text, to the orchestrator. */
  lemma DigestSent(c: Config, s: HubState, now: int, reason: string, force: bool, dumps: Json -> string)
    requires c.orchestrator.Some? && (force || s.dirty != [] || s.extras != [])
    ensures var r := SendDigest(c, s, now, reason, force, dumps);
            r.dirty == [] && r.extras == [] && r.lastSent == now &&
            r.decisions == PushDecision(s.decisions, Decision(now, reason)) &&
            r.calls == s.calls + [SendMessage(c.orchestrator.value, DigestText(s, now, dumps))] &&
            SameRegistry(s, r)
  {
  }

  /** Nothing is sent when there is nothing to report, or within 3 seconds
      of the previous digest. */
  lemma DigestDebounced(c: Config, s: HubState, now: int, reason: string, dumps: Json -> string)
    requires (s.dirty == [] && s.extras == []) || (s.lastSent != 0 && now - s.lastSent < Debounce)
    ensures MaybeDigest(c, s, now, reason, dumps) == s
  {
  }

  /** A digest changes no registry, keeps the logs well formed and only
      appends to the calls and events. */
  lemma DigestKeepsValid(c: Config, s: HubState, now: int, reason: string, force: bool, dumps: Json -> string)
    requires Valid(s)
    ensures Valid(SendDigest(c, s, now, reason, force, dumps))
    ensures Valid(MaybeDigest(c, s, now, reason, dumps))
    ensures SameRegistry(s, SendDigest(c, s, now, reason, force, dumps))
    ensures SameRegistry(s, MaybeDigest(c, s, now, reason, dumps))
  {
    SendDigestShape(c, s, now, reason, force, dumps);
    SendDigestShape(c, s, now, reason, false, dumps);
    MaybeDigestCases(c, s, now, reason, dumps);
  }

  /** `_maybe_send_digest` either does nothing or is `_send_digest`. */
  lemma MaybeDigestCases(c: Config, s: HubState, now: int, reason: string, dumps: Json -> string)
    ensures MaybeDigest(c, s, now, reason, dumps) == s ||
            MaybeDigest(c, s, now, reason, dumps) == SendDigest(c, s, now, reason, false, dumps)
  {
  }

  /** What a digest can change: only the logs, the send time, the extra
      blocks and the dirty set, each kept well formed. */
  lemma SendDigestShape(c: Config, s: HubState, now: int, reason: string, force: bool, dumps: Json -> string)
    requires LogValid(s)
    ensures SameRegistry(s, SendDigest(c, s, now, reason, force, dumps))
    ensures LogValid(SendDigest(c, s, now, reason, force, dumps))
  {
    SendDigestRegistry(c, s, now, reason, force, dumps);
    SendDigestLog(c, s, now, reason, force, dumps);
  }

  lemma SendDigestRegistry(c: Config, s: HubState, now: int, reason: string, force: bool, dumps: Json -> string)
    ensures SameRegistry(s, SendDigest(c, s, now, reason, force, dumps))
  {
    if c.orchestrator.Some? && (force || s.dirty != [] || s.extras != []) {
      DigestSent(c, s, now, reason, force, dumps);
    } else {
      SendDigestIdle(c, s, now, reason, force, dumps);
    }
  }

  /** The state before the decision is broadcast. */
  function DigestSentState(c: Config, s: HubState, now: int, reason: string, dumps: Json -> string): HubState
    requires c.orchestrator.Some?
  {
    s.(extras := [], calls := s.calls + [SendMessage(c.orchestrator.value, DigestText(s, now, dumps))],
       lastSent := now, decisions := PushDecision(s.decisions, Decision(now, reason)))
  }

  lemma SendDigestUnfold(c: Config, s: HubState, now: int, reason: string, force: bool, dumps: Json -> string)
    requires c.orchestrator.Some? && (force || s.dirty != [] || s.extras != [])
    ensures SendDigest(c, s, now, reason, force, dumps) ==
            Emit(DigestSentState(c, s, now, reason, dumps), "hub", "decision",
                 DecisionPayload(Decision(now, reason))).(dirty := [])
  {
  }

  lemma SendDigestIdle(c: Config, s: HubState, now: int, reason: string, force: bool, dumps: Json -> string)
    requires !(c.orchestrator.Some? && (force || s.dirty != [] || s.extras != []))
    ensures SendDigest(c, s, now, reason, force, dumps) == s
  {
  }

  lemma SendDigestLog(c: Config, s: HubState, now: int, reason: string, force: bool, dumps: Json -> string)
    requires LogValid(s)
    ensures LogValid(SendDigest(c, s, now, reason, force, dumps))
  {
    if c.orchestrator.Some? && (force || s.dirty != [] || s.extras != []) {
      var d := Decision(now, reason);
      DecisionLogBounded(s.decisions, d);
      var s1 := DigestSentState(c, s, now, reason, dumps);
      assert LogValid(s1);
      EmitKeepsLogValid(s1, "hub", "decision", DecisionPayload(d));
      SendDigestUnfold(c, s, now, reason, force, dumps);
      ClearDirtyLogValid(Emit(s1, "hub", "decision", DecisionPayload(d)));
    } else {
      SendDigestIdle(c, s, now, reason, force, dumps);
    }
  }

  lemma ClearDirtyLogValid(s: HubState)
    requires LogValid(s)
    ensures LogValid(s.(dirty := []))
  {
  }

  /** The decision log never holds more than 100 records, and the newest
      is last. */
  lemma DecisionLogBounded(log: seq<Decision>, d: Decision)
    requires |log| <= DecisionLogMax
    ensures |PushDecision(log, d)| <= DecisionLogMax
    ensures |log| < DecisionLogMax ==> PushDecision(log, d) == log + [d]
  {
  }
}
