/** What the hub does with the orchestrator's control blocks and with the
    app server's approval requests (codex_hub_core.py:
    `_handle_orchestrator_text`, `_handle_control_block`, `_handle_request`,
    `_autoapprove`).  Every command is gated on autopilot; `exec` also needs
    dangerous mode and `spawn` respects the WIP limit. */
module HubPolicy {
  import opened Text
  import opened JsonValue
  import opened HubNames
  import opened HubModel
  import opened HubRegistry
  import LocalExec
  import Artifacts
  import ControlFence
  import ControlBlocks

  /** What the hub gets from outside while it handles a block: the clock;
      the id `create_conversation` returns when the calls made so far
      number `n`; how a permitted command ends; the artifact blobs and the
      text of the error raised for a missing one; whether the `gh` helpers
      are importable; and the JSON codec. */
  datatype Env = Env(now: int, newConv: nat -> string,
                     exec: (seq<string>, string) -> LocalExec.Outcome,
                     blobs: map<string, string>, loadError: string -> string, ghx: bool,
                     decode: string -> Option<Json>, signature: Json -> string, dumps: Json -> string)

  const AutopilotWarning: string :=
    "HUB: autopilot is currently disabled; ignoring control blocks. Use :autopilot on to allow automated actions."
  const ExecIgnored: string := "HUB: exec control block ignored because dangerous mode is off."
  const DefaultMaxChars: int := 4000

  // ------------------------------------------------------------ reading block fields

  /** The command a block carries, checked in the source's order. */
  datatype Kind = KExec | KStatus | KFetch | KSpawn | KSend | KClose | KNone

  function KindOf(b: Json): (k: Kind)
    ensures k == KExec <==> HasKey(b, "exec")
    ensures k == KSpawn <==> HasKey(b, "spawn") && !HasKey(b, "exec") && !HasKey(b, "status") && !HasKey(b, "fetch")
    ensures k == KNone <==> !HasKey(b, "exec") && !HasKey(b, "status") && !HasKey(b, "fetch") &&
                            !HasKey(b, "spawn") && !HasKey(b, "send") && !HasKey(b, "close")
  {
    if HasKey(b, "exec") then KExec
    else if HasKey(b, "status") then KStatus
    else if HasKey(b, "fetch") then KFetch
    else if HasKey(b, "spawn") then KSpawn
    else if HasKey(b, "send") then KSend
    else if HasKey(b, "close") then KClose
    else KNone
  }

  /** `block.get(key) or {}`. */
  function SpecOf(b: Json, key: string): Json
  {
    GetOr(b, key, JObj([]))
  }

  /** `next(iter(block), "control")`. */
  function FirstKey(b: Json): string
  {
    if b.JObj? && b.fields != [] then b.fields[0].0 else "control"
  }

  /** A string field used as a name (`spec.get(key)`), missing when absent
      or not a string. */
  function NameOf(spec: Json, key: string): Option<string>
  {
    var v := Get(spec, key);
    if v.Some? && v.value.JStr? then Some(v.value.s) else None
  }

  /** The JSON value of `spec.get(key)`, `null` when absent. */
  function ValueOf(spec: Json, key: string): Json
  {
    var v := Get(spec, key);
    if v.Some? then v.value else JNull
  }

  /** `spec.get(key) or fallback` for a string option. */
  function OptStr(spec: Json, key: string, fallback: Option<string>): Option<string>
  {
    var v := Get(spec, key);
    if v.Some? && v.value.JStr? && v.value.s != "" then Some(v.value.s) else fallback
  }

  /** `int(x)` where it succeeds: integers, booleans, floats truncated
      toward zero, and strings of decimal digits with an optional sign and
      surrounding white space. */
  function PyInt(j: Json): Option<int>
  {
    match j
    case JInt(i) => Some(i)
    case JBool(b) => Some(if b then 1 else 0)
    case JFloat(n, d) => if d == 0 then None else Some(if n >= 0 then n / d else -((-n) / d))
    case JStr(s) =>
      var t := Strip(s);
      if t != [] && AllDigits(t) then Some(DigitsValue(t))
      else if |t| >= 2 && (t[0] == '-' || t[0] == '+') && AllDigits(t[1..]) then
        var v: int := DigitsValue(t[1..]);
        Some(if t[0] == '-' then -v else v)
      else None
    case _ => None
  }

  /** `list(spec.get("argv") or [])`, each element rendered as a string. */
  function Strs(items: seq<Json>): (r: seq<string>)
    ensures |r| == |items|
  {
    if items == [] then [] else [PyStr(items[0])] + Strs(items[1..])
  }

  /** The one-character strings `list(s)` gives for a string. */
  function Chars(s: string): (r: seq<Json>)
    ensures |r| == |s|
    ensures forall i :: 0 <= i < |s| ==> r[i] == JStr([s[i]])
  {
    if s == [] then [] else [JStr([s[0]])] + Chars(s[1..])
  }

  /** The keys `list(d)` gives for an object: each key once, in the order
      it first appears. */
  function KeyList(fields: seq<(string, Json)>): (r: seq<Json>)
    ensures forall k :: JStr(k) in r <==> exists i :: 0 <= i < |fields| && fields[i].0 == k
    ensures forall i, j :: 0 <= i < j < |r| ==> r[i] != r[j]
  {
    if fields == [] then []
    else
      var rest := KeyList(fields[..|fields| - 1]);
      var k := JStr(fields[|fields| - 1].0);
      assert forall i :: 0 <= i < |fields| - 1 ==> fields[..|fields| - 1][i] == fields[i];
      if k in rest then rest else rest + [k]
  }

  /** `list(x or [])`: the items of an array, the characters of a string,
      the keys of an object; `None` where `list` raises. */
  function ListItems(v: Json): (r: Option<seq<Json>>)
    ensures r.None? <==> Truthy(v) && !v.JArr? && !v.JStr? && !v.JObj?
  {
    if !Truthy(v) then Some([])
    else
      match v
      case JArr(items) => Some(items)
      case JStr(s) => Some(Chars(s))
      case JObj(fields) => Some(KeyList(fields))
      case _ => None
  }

  /** `list(spec.get("argv") or [])`, each element rendered as a string. */
  function ArgvOf(spec: Json): seq<string>
  {
    var items := ListItems(ValueOf(spec, "argv"));
    if items.Some? then Strs(items.value) else []
  }

  // ------------------------------------------------------------ where a block raises

  /** `x or {}` is an object that `dict(…)` and `.get` accept. */
  predicate OrEmptyObject(v: Json)
  {
    !Truthy(v) || v.JObj?
  }

  /** `(name or "").lower()` and `.strip()` raise on a truthy non-string. */
  predicate BadName(v: Json)
  {
    Truthy(v) && !v.JStr?
  }

  predicate AllStr(items: seq<Json>)
  {
    forall i :: 0 <= i < |items| ==> items[i].JStr?
  }

  /** `subprocess.run` refuses an environment whose name holds `=` or
      whose value is not a string. */
  predicate EnvRefused(env: Json)
  {
    env.JObj? &&
    exists i :: 0 <= i < |env.fields| && ('=' in env.fields[i].0 || !ValueOf(env, env.fields[i].0).JStr?)
  }

  /** `run_exec` raises: the payload, `argv` or `env` is not of a kind
      `dict`/`list` accept, an `argv` item is not a string, or the
      permitted command has a non-string `cwd` or an environment the
      process cannot be given. */
  predicate ExecRaises(b: Json)
  {
    var spec := SpecOf(b, "exec");
    var items := ListItems(ValueOf(spec, "argv"));
    var envv := ValueOf(spec, "env");
    !OrEmptyObject(ValueOf(b, "exec")) || items.None? || !OrEmptyObject(envv) || !AllStr(items.value) ||
    (LocalExec.IsAllowed(Strs(items.value), LocalExec.DefaultAllowed) &&
     (BadName(ValueOf(spec, "cwd")) || EnvRefused(envv)))
  }

  /** `spec.get` on a non-object, or `.strip()` on a non-string text. */
  predicate StatusRaises(b: Json)
  {
    !OrEmptyObject(ValueOf(b, "status")) || BadName(ValueOf(SpecOf(b, "status"), "text"))
  }

  /** `block["spawn"]`, `["send"]` and `["close"]` are read without
      `or {}`: anything but an object raises at `spec.get`. */
  predicate AgentSpecRaises(b: Json, key: string)
  {
    !ValueOf(b, key).JObj?
  }

  /** Whether `_handle_control_block` raises on the block.  The exception
      leaves `_handle_orchestrator_text`, so the blocks after it are not
      handled. */
  predicate Raises(c: Config, s: HubState, b: Json)
  {
    s.autopilot &&
    match KindOf(b)
    case KExec => c.dangerous && ExecRaises(b)
    case KStatus => StatusRaises(b)
    case KFetch => !OrEmptyObject(ValueOf(b, "fetch"))
    case KSpawn => AgentSpecRaises(b, "spawn") || (!AtWipLimit(c, s) && BadName(ValueOf(SpecOf(b, "spawn"), "name")))
    case KSend => AgentSpecRaises(b, "send") || BadName(ValueOf(SpecOf(b, "send"), "to"))
    case KClose => AgentSpecRaises(b, "close") || BadName(ValueOf(SpecOf(b, "close"), "agent"))
    case KNone => false
  }

  function TextEvent(text: string): Json
  {
    JObj([("text", JStr(text))])
  }

  function OrchToAgent(action: string, agent: Json, text: string): Json
  {
    JObj([("action", JStr(action)), ("agent", agent), ("text", JStr(text))])
  }

  // ------------------------------------------------------------ the branches

  function SuppressedPayload(b: Json): Json
  {
    JObj([("summary", JStr(FirstKey(b))), ("control", b)])
  }

  /** Autopilot off: the block is broadcast as suppressed, and the
      orchestrator is warned once. */
  function Suppress(c: Config, s: HubState, b: Json): HubState
  {
    var s1 := Emit(s, "orchestrator", "autopilot_suppressed", SuppressedPayload(b));
    if s1.warned then s1 else SendOrch(c, s1, AutopilotWarning).(warned := true)
  }

  /** The `exec> …` report of a command. */
  function ExecReport(r: LocalExec.ExecResult): string
  {
    "exec> " + r.cmd + "\ncwd: " + r.cwd + "\ncode: " + IntToString(r.code) + "\n\nstdout:\n" + r.stdout +
    "\n" + "\nstderr:\n" + r.stderr
  }

  /** The result `run_exec` returns for the block's `exec` object. */
  function ExecResultOf(c: Config, b: Json, env: Env): LocalExec.ExecResult
  {
    var spec := SpecOf(b, "exec");
    var argv := ArgvOf(spec);
    var cv := ValueOf(spec, "cwd");
    var cwd := if Truthy(cv) then Some(PyStr(cv)) else None;
    var dir := if cwd.Some? && cwd.value != "" then cwd.value else c.processCwd;
    LocalExec.RunExec(argv, cwd, c.processCwd, None, env.exec(argv, dir))
  }

  /** `exec`: refused without dangerous mode; otherwise `run_exec` runs
      the block's command and the outcome is reported, unless `run_exec`
      raises first. */
  function ExecBlock(c: Config, s: HubState, b: Json, env: Env): HubState
  {
    if !c.dangerous then SendOrch(c, s, ExecIgnored)
    else if ExecRaises(b) then s
    else RunCommand(c, s, ArgvOf(SpecOf(b, "exec")), ExecResultOf(c, b, env))
  }

  /** The command starts only if the allow-list permits it; the report
      goes to the user, and a failure is reported to the orchestrator. */
  function RunCommand(c: Config, s: HubState, argv: seq<string>, r: LocalExec.ExecResult): HubState
  {
    var s1 := if LocalExec.IsAllowed(argv, LocalExec.DefaultAllowed)
              then s.(commands := s.commands + [Command(argv, r.cwd)]) else s;
    var s2 := Emit(s1, "orchestrator", "orch_to_user", TextEvent(ExecReport(r)));
    if r.ok then s2 else SendOrch(c, s2, "HUB: exec command failed with exit code " + IntToString(r.code) + ".")
  }

  /** `status`: broadcast with its scope; posted as an issue comment when
      `gh` is available, the issue is set and reads as an integer, and the
      text is not blank.  A malformed block raises before the broadcast. */
  function StatusBlock(c: Config, s: HubState, b: Json, env: Env): HubState
  {
    if StatusRaises(b) then s
    else
    var spec := SpecOf(b, "status");
    StatusPosted(s, ValueOf(spec, "issue"), Strip(GetStr(spec, "text")), env.ghx)
  }

  /** The `status_posted` broadcast and, with `gh` at hand, the issue comment. */
  function StatusPosted(s: HubState, issue: Json, text: string, ghx: bool): HubState
  {
    var scope := if Truthy(issue) then "issue#" + PyStr(issue) else "project";
    var s1 := Emit(s, "hub", "status_posted", JObj([("scope", JStr(scope)), ("text", JStr(text))]));
    if ghx && Truthy(issue) && text != "" && PyInt(issue).Some? then
      s1.(calls := s1.calls + [CommentIssue(PyInt(issue).value, text)])
    else s1
  }

  /** `int(max_chars)` with the fall-back of 4000 characters. */
  function MaxCharsOf(spec: Json): int
  {
    var v := ValueOf(spec, "max_chars");
    if v == JNull then DefaultMaxChars
    else if PyInt(v).Some? then PyInt(v).value
    else DefaultMaxChars
  }

  /** The extra digest block and the note for one fetched artifact. */
  function FetchResult(env: Env, artJ: Json, id: string, maxChars: int): (Json, string)
  {
    var loaded := Artifacts.Load(env.blobs, id, Some(maxChars));
    if loaded.Some? then
      var body := loaded.value.text;
      (JObj([("type", JStr("ARTIFACT")), ("id", artJ), ("chars", JInt(|body|)),
             ("total", JInt(loaded.value.total)), ("body", JStr(body))]),
       "Fetched artifact " + id + " (" + NatToString(|body|) + "/" + NatToString(loaded.value.total) + " chars)")
    else
      (JObj([("type", JStr("ARTIFACT_ERROR")), ("id", artJ), ("error", JStr(env.loadError(id)))]),
       "Artifact " + id + " not available (" + env.loadError(id) + ")")
  }

  /** `fetch`: without an artifact id nothing happens; otherwise the
      artifact (or the error) is queued for the next digest, a note is
      broadcast, and a digest may go out.  A spec `.get` cannot read
      raises before anything happens. */
  function FetchBlock(c: Config, s: HubState, b: Json, env: Env): HubState
  {
    var spec := SpecOf(b, "fetch");
    var artJ := ValueOf(spec, "artifact");
    if !OrEmptyObject(ValueOf(b, "fetch")) || !Truthy(artJ) then s
    else
      var (event, note) := FetchResult(env, artJ, PyStr(artJ), MaxCharsOf(spec));
      var s1 := Emit(s.(extras := s.extras + [event]), "hub", "artifact_note", JObj([("note", JStr(note))]));
      MaybeDigest(c, s1, env.now, "fetch", env.dumps)
  }

  /** Whether the WIP limit forbids another agent. */
  predicate AtWipLimit(c: Config, s: HubState)
  {
    c.wipLimit != 0 && |s.reg.subs| >= c.wipLimit
  }

  /** `spawn`: refused at the WIP limit; otherwise broadcast and passed to
      `spawn_sub` with the block's `cwd` or the hub's default.  A spec
      that is not an object raises at once, a name that is not a string
      raises in `spawn_sub`, after the broadcast. */
  function SpawnBlock(c: Config, s: HubState, b: Json, env: Env): HubState
  {
    var spec := SpecOf(b, "spawn");
    var task := GetStr(spec, "task");
    if AgentSpecRaises(b, "spawn") then s
    else if AtWipLimit(c, s) then
      SendOrch(c, s, "HUB: WIP limit " + NatToString(c.wipLimit) + " reached; please close an agent before spawning '" +
                     PyStr(ValueOf(spec, "name")) + "'.")
    else
      var s1 := Emit(s, "orchestrator", "orch_to_agent", OrchToAgent("spawn", ValueOf(spec, "name"), task));
      if BadName(ValueOf(spec, "name")) then s1
      else SpawnSub(c, s1, NameOf(spec, "name"), task, OptStr(spec, "cwd", c.defaultCwd), env.newConv(|s1.calls|),
               env.now, env.dumps)
  }

  /** `send`: broadcast, then `send_to_sub`; the same raises as a
      `spawn` block's. */
  function SendBlock(c: Config, s: HubState, b: Json, env: Env): HubState
  {
    var spec := SpecOf(b, "send");
    var task := GetStr(spec, "task");
    if AgentSpecRaises(b, "send") then s
    else
      var s1 := Emit(s, "orchestrator", "orch_to_agent", OrchToAgent("send", ValueOf(spec, "to"), task));
      if BadName(ValueOf(spec, "to")) then s1 else SendToSub(c, s1, NameOf(spec, "to"), task, env.now)
  }

  /** `close`: broadcast with the reason, then `close_sub`; the same raises
      as a `spawn` block's. */
  function CloseBlock(c: Config, s: HubState, b: Json): HubState
  {
    var spec := SpecOf(b, "close");
    if AgentSpecRaises(b, "close") then s
    else
      var s1 := Emit(s, "orchestrator", "orch_to_agent",
                     OrchToAgent("close", ValueOf(spec, "agent"), GetStr(spec, "reason")));
      if BadName(ValueOf(spec, "agent")) then s1 else CloseSub(c, s1, NameOf(spec, "agent"))
  }

  /** `_handle_control_block`; where it raises, the state the exception
      leaves behind. */
  function HandleControlBlock(c: Config, s: HubState, b: Json, env: Env): HubState
  {
    if !s.autopilot then Suppress(c, s, b)
    else
      match KindOf(b)
      case KExec => ExecBlock(c, s, b, env)
      case KStatus => StatusBlock(c, s, b, env)
      case KFetch => FetchBlock(c, s, b, env)
      case KSpawn => SpawnBlock(c, s, b, env)
      case KSend => SendBlock(c, s, b, env)
      case KClose => CloseBlock(c, s, b)
      case KNone => s
  }

  /** The blocks of one message, handled in order up to the first that
      raises. */
  function HandleBlocks(c: Config, s: HubState, bs: seq<Json>, env: Env): HubState
    decreases |bs|
  {
    if bs == [] then s
    else
      var s1 := HandleControlBlock(c, s, bs[0], env);
      if Raises(c, s, bs[0]) then s1 else HandleBlocks(c, s1, bs[1..], env)
  }

  /** One step of `HandleBlocks`. */
  lemma BlocksStep(c: Config, s: HubState, bs: seq<Json>, env: Env)
    requires bs != []
    ensures HandleBlocks(c, s, bs, env) ==
            if Raises(c, s, bs[0]) then HandleControlBlock(c, s, bs[0], env)
            else HandleBlocks(c, HandleControlBlock(c, s, bs[0], env), bs[1..], env)
  {
  }

  /** The blocks `HandleBlocks` reaches: all of them up to and including
      the first that raises. */
  function Handled(c: Config, s: HubState, bs: seq<Json>, env: Env): (r: seq<Json>)
    ensures r <= bs && (bs != [] ==> r != [])
    decreases |bs|
  {
    if bs == [] then []
    else if Raises(c, s, bs[0]) then [bs[0]]
    else [bs[0]] + Handled(c, HandleControlBlock(c, s, bs[0], env), bs[1..], env)
  }

  /** The fence pattern the hub reads control blocks with: white space
      after `control`, as in the dashboard's copy.  The core writes `\\s`,
      which no plain fence matches (ControlFence.EscapedMissesFence). */
  const CorePattern: ControlFence.Pattern := ControlFence.Spaced

  /** `_handle_orchestrator_text`: the text without its control blocks is
      shown to the user when anything is left, then each block is
      handled. */
  function HandleOrchestratorText(c: Config, s: HubState, text: string, env: Env): HubState
  {
    var blocks := ControlBlocks.Extracted(CorePattern, Some(text), env.decode, env.signature);
    var display := ControlFence.StripControlBlocks(CorePattern, text);
    var s1 := if display != "" then Emit(s, "orchestrator", "orch_to_user", TextEvent(display)) else s;
    HandleBlocks(c, s1, blocks, env)
  }

  // ------------------------------------------------------------ approvals

  /** The description of an approval request in the hub's messages. */
  function Describe(meth: string, params: Json): string
  {
    var low := Lower(meth);
    if low == "execcommandapproval" then
      var v := Get(params, "command");
      var command := if v.Some? && v.value.JArr? then Join(Strs(v.value.items), " ") else "";
      Strip("exec command " + command)
    else if low == "applypatchapproval" then "apply patch"
    else meth
  }

  /** `_autoapprove` raises before it answers an `execCommandApproval`
      request whose parameters are a truthy value other than an object
      (`params.get`), or whose `command` list holds an item that is not a
      string (`" ".join`). */
  predicate DescribeRaises(meth: string, params: Json)
  {
    Lower(meth) == "execcommandapproval" &&
    ((Truthy(params) && !params.JObj?) ||
     (var v := Get(params, "command"); v.Some? && v.value.JArr? && !AllStr(v.value.items)))
  }

  function DenialReason(s: HubState): string
  {
    if !s.autopilot then "autopilot disabled" else "dangerous mode disabled"
  }

  /** Approval needs both switches. */
  predicate Approves(c: Config, s: HubState)
  {
    c.dangerous && s.autopilot
  }

  /** `_autoapprove`: the decision is sent back (when sending fails, or the
      description raises first, nothing else happens), broadcast as a
      status, and a denial is explained to the orchestrator. */
  function Autoapprove(c: Config, s: HubState, requestId: Json, meth: string, params: Json,
                       respondOk: bool): HubState
  {
    if DescribeRaises(meth, params) || !respondOk then s
    else
      var approved := Approves(c, s);
      Verdict(c, s.(calls := s.calls + [Respond(requestId, if approved then "approved" else "denied")]),
              approved, Describe(meth, params), DenialReason(s))
  }

  /** The broadcast status of a decision on request `d`, and the
      explanation of a denial. */
  function Verdict(c: Config, s: HubState, approved: bool, d: string, reason: string): HubState
  {
    var status := if approved then "HUB: auto-approved " + d + "."
                  else "HUB: denied " + d + " because " + reason + ".";
    var s1 := Emit(s, "hub", "status", TextEvent(status));
    if approved then s1
    else SendOrch(c, s1, "HUB: denied " + d + " because " + reason + ". Enable autopilot or dangerous mode to allow.")
  }

  /** `_handle_request`: notifications without an id are ignored, the two
      approval kinds go to `_autoapprove`, anything else is refused with
      JSON-RPC error -32601. */
  function HandleRequest(c: Config, s: HubState, meth: string, params: Json, requestId: Json,
                         respondOk: bool): HubState
  {
    if requestId == JNull then s
    else if Lower(meth) == "execcommandapproval" || Lower(meth) == "applypatchapproval" then
      Autoapprove(c, s, requestId, meth, params, respondOk)
    else s.(calls := s.calls + [RespondError(requestId, -32601, "Unhandled request: " + meth)])
  }

  // ------------------------------------------------------------ what a block may change

  /** `r` extends `s`: the broadcast log stays well formed, the mode is the
      same, and calls and broadcasts are only appended. */
  ghost predicate Follows(s: HubState, r: HubState)
  {
    LogValid(r) && r.autopilot == s.autopilot && s.calls <= r.calls && s.events <= r.events
  }

  /** The command an `exec` block starts, if any: only with autopilot and
      dangerous mode both on, only when the allow-list permits it, and
      only when `run_exec` does not raise first. */
  function Permitted(c: Config, autopilot: bool, b: Json, env: Env): (r: seq<Command>)
    ensures r != [] ==> autopilot && c.dangerous && KindOf(b) == KExec && !ExecRaises(b) &&
                        LocalExec.IsAllowed(ArgvOf(SpecOf(b, "exec")), LocalExec.DefaultAllowed)
  {
    var argv := ArgvOf(SpecOf(b, "exec"));
    if autopilot && c.dangerous && KindOf(b) == KExec && !ExecRaises(b) &&
       LocalExec.IsAllowed(argv, LocalExec.DefaultAllowed)
    then [Command(argv, ExecResultOf(c, b, env).cwd)] else []
  }

  /** The commands a sequence of blocks starts. */
  function PermittedAll(c: Config, autopilot: bool, bs: seq<Json>, env: Env): seq<Command>
  {
    if bs == [] then [] else Permitted(c, autopilot, bs[0], env) + PermittedAll(c, autopilot, bs[1..], env)
  }

  lemma {:induction false} PermittedAllSafe(c: Config, autopilot: bool, bs: seq<Json>, env: Env)
    ensures forall cmd :: cmd in PermittedAll(c, autopilot, bs, env) ==>
              autopilot && c.dangerous && LocalExec.IsAllowed(cmd.argv, LocalExec.DefaultAllowed)
  {
    if bs != [] {
      PermittedAllSafe(c, autopilot, bs[1..], env);
    }
  }

  lemma SendOrchFollows(c: Config, s: HubState, text: string)
    requires LogValid(s)
    ensures Follows(s, SendOrch(c, s, text)) && SendOrch(c, s, text).commands == s.commands
    ensures SendOrch(c, s, text).reg == s.reg
  {
    SendOrchNotice(c, s, text);
    LogCarries(s, SendOrch(c, s, text));
  }

  lemma EmitFollows(s: HubState, who: string, kind: string, payload: Json)
    requires LogValid(s)
    ensures Follows(s, Emit(s, who, kind, payload)) && Emit(s, who, kind, payload).commands == s.commands
    ensures Emit(s, who, kind, payload).reg == s.reg
  {
    EmitKeepsLogValid(s, who, kind, payload);
  }

  lemma SpawnFollows(c: Config, s: HubState, name: Option<string>, task: string, cwd: Option<string>,
                     conv: string, now: int, dumps: Json -> string)
    requires LogValid(s)
    ensures var r := SpawnSub(c, s, name, task, cwd, conv, now, dumps);
            Follows(s, r) && r.commands == s.commands
  {
    if name.None? || name.value == "" {
      SendOrchFollows(c, s, "HUB: spawn missing 'name'.");
    } else {
      var key := NormaliseAgentName(name);
      if key in s.reg.subs {
        var s1 := s.(calls := s.calls + [SendMessage(s.reg.subs[key].conversationId, task)]);
        LogCarries(s, s1);
        SendOrchFollows(c, s1, "HUB: sub-agent '" + key + "' already exists; forwarded new task.");
      } else {
        SpawnNewFollows(c, s, key, task, Workspace(c, cwd), conv, now, dumps);
      }
    }
  }

  lemma SpawnNewFollows(c: Config, s: HubState, key: string, task: string, ws: string, conv: string, now: int,
                        dumps: Json -> string)
    requires LogValid(s)
    ensures var r := SpawnNew(c, s, key, task, ws, conv, now, dumps);
            Follows(s, r) && r.commands == s.commands
  {
    var s1 := Register(c, s, key, task, ws, conv, now);
    LogCarries(s, s1);
    var s2 := Announce(c, s1, key);
    AnnounceShape(c, s1, key);
    var s3 := MarkDirty(s2, key);
    MarkDirtySet(s2, key);
    MaybeDigestShape(c, s3, now, "spawn", dumps);
  }

  lemma SendFollows(c: Config, s: HubState, name: Option<string>, task: string, now: int)
    requires LogValid(s)
    ensures var r := SendToSub(c, s, name, task, now);
            Follows(s, r) && r.commands == s.commands
  {
    var key := NormaliseAgentName(name);
    if key !in s.reg.subs {
      SendOrchFollows(c, s, "HUB: no such sub-agent '" + Shown(name) + "'.");
    } else {
      var s1 := s.(calls := s.calls + [SendMessage(s.reg.subs[key].conversationId, task)]);
      var s2 := if key in s1.reg.agentMeta
                then s1.(reg := s1.reg.(agentMeta := s1.reg.agentMeta[key := s1.reg.agentMeta[key].(lastEventAt := now)]))
                else s1;
      LogCarries(s, s2);
      SendOrchFollows(c, s2, "HUB: forwarded instruction to '" + key + "'.");
    }
  }

  lemma CloseFollows(c: Config, s: HubState, name: Option<string>)
    requires LogValid(s)
    ensures var r := CloseSub(c, s, name);
            Follows(s, r) && r.commands == s.commands
  {
    var key := NormaliseAgentName(name);
    if key !in s.reg.subs {
      SendOrchFollows(c, s, "HUB: no such sub-agent '" + Shown(name) + "'.");
    } else {
      var s1 := s.(reg := Unregister(s.reg, key));
      LogCarries(s, s1);
      EmitFollows(s1, key, "agent_removed", AgentPayload(key));
      SendOrchFollows(c, Emit(s1, key, "agent_removed", AgentPayload(key)), "HUB: closed sub-agent '" + key + "'.");
    }
  }

  lemma ExecFollows(c: Config, s: HubState, b: Json, env: Env)
    requires LogValid(s) && s.autopilot
    ensures var r := ExecBlock(c, s, b, env);
            Follows(s, r) && r.commands == s.commands + Permitted(c, s.autopilot, b, env) && r.reg == s.reg
  {
    if !c.dangerous {
      SendOrchFollows(c, s, ExecIgnored);
    } else if !ExecRaises(b) {
      RunCommandFollows(c, s, ArgvOf(SpecOf(b, "exec")), ExecResultOf(c, b, env));
    }
  }

  lemma RunCommandFollows(c: Config, s: HubState, argv: seq<string>, r: LocalExec.ExecResult)
    requires LogValid(s)
    ensures var t := RunCommand(c, s, argv, r);
            Follows(s, t) && t.reg == s.reg &&
            t.commands == s.commands + (if LocalExec.IsAllowed(argv, LocalExec.DefaultAllowed)
                                        then [Command(argv, r.cwd)] else [])
  {
    var s1 := if LocalExec.IsAllowed(argv, LocalExec.DefaultAllowed)
              then s.(commands := s.commands + [Command(argv, r.cwd)]) else s;
    LogCarries(s, s1);
    var s2 := Emit(s1, "orchestrator", "orch_to_user", TextEvent(ExecReport(r)));
    EmitFollows(s1, "orchestrator", "orch_to_user", TextEvent(ExecReport(r)));
    SendOrchFollows(c, s2, "HUB: exec command failed with exit code " + IntToString(r.code) + ".");
  }

  lemma StatusFollows(c: Config, s: HubState, b: Json, env: Env)
    requires LogValid(s)
    ensures var r := StatusBlock(c, s, b, env);
            Follows(s, r) && r.commands == s.commands && r.reg == s.reg
  {
    if !StatusRaises(b) {
      var r := StatusBlock(c, s, b, env);
      var spec := SpecOf(b, "status");
      var issue := ValueOf(spec, "issue");
      var text := Strip(GetStr(spec, "text"));
      var scope := if Truthy(issue) then "issue#" + PyStr(issue) else "project";
      var s1 := Emit(s, "hub", "status_posted", JObj([("scope", JStr(scope)), ("text", JStr(text))]));
      EmitFollows(s, "hub", "status_posted", JObj([("scope", JStr(scope)), ("text", JStr(text))]));
      LogCarries(s1, r);
    }
  }

  lemma FetchFollows(c: Config, s: HubState, b: Json, env: Env)
    requires LogValid(s)
    ensures var r := FetchBlock(c, s, b, env);
            Follows(s, r) && r.commands == s.commands && r.reg == s.reg
  {
    var spec := SpecOf(b, "fetch");
    var artJ := ValueOf(spec, "artifact");
    if OrEmptyObject(ValueOf(b, "fetch")) && Truthy(artJ) {
      var (event, note) := FetchResult(env, artJ, PyStr(artJ), MaxCharsOf(spec));
      var s0 := s.(extras := s.extras + [event]);
      LogCarries(s, s0);
      var s1 := Emit(s0, "hub", "artifact_note", JObj([("note", JStr(note))]));
      EmitFollows(s0, "hub", "artifact_note", JObj([("note", JStr(note))]));
      MaybeDigestShape(c, s1, env.now, "fetch", env.dumps);
    }
  }

  /** One block in autopilot: only an `exec` block adds to the commands
      started, and only the one `Permitted` names. */
  lemma {:induction false} BlockCommands(c: Config, s: HubState, b: Json, env: Env)
    requires LogValid(s)
    ensures var r := HandleControlBlock(c, s, b, env);
            LogValid(r) && r.autopilot == s.autopilot && r.commands == s.commands + Permitted(c, s.autopilot, b, env)
  {
    if !s.autopilot {
      SuppressShape(c, s, b);
    } else {
      match KindOf(b)
      case KExec => ExecFollows(c, s, b, env);
      case KStatus => StatusFollows(c, s, b, env);
      case KFetch => FetchFollows(c, s, b, env);
      case KSpawn => SpawnBlockFollows(c, s, b, env);
      case KSend => SendBlockFollows(c, s, b, env);
      case KClose => CloseBlockFollows(c, s, b);
      case KNone =>
    }
  }

  /** One block only appends to the calls and the broadcasts. */
  lemma {:induction false} BlockFollows(c: Config, s: HubState, b: Json, env: Env)
    requires LogValid(s)
    ensures var r := HandleControlBlock(c, s, b, env);
            Follows(s, r)
  {
    if !s.autopilot {
      SuppressShape(c, s, b);
    } else {
      match KindOf(b)
      case KExec => ExecFollows(c, s, b, env);
      case KStatus => StatusFollows(c, s, b, env);
      case KFetch => FetchFollows(c, s, b, env);
      case KSpawn => SpawnBlockFollows(c, s, b, env);
      case KSend => SendBlockFollows(c, s, b, env);
      case KClose => CloseBlockFollows(c, s, b);
      case KNone =>
    }
  }

  lemma SpawnBlockFollows(c: Config, s: HubState, b: Json, env: Env)
    requires LogValid(s)
    ensures var r := SpawnBlock(c, s, b, env);
            Follows(s, r) && r.commands == s.commands
  {
    var spec := SpecOf(b, "spawn");
    var task := GetStr(spec, "task");
    if AgentSpecRaises(b, "spawn") {
    } else if AtWipLimit(c, s) {
      SendOrchFollows(c, s, "HUB: WIP limit " + NatToString(c.wipLimit) + " reached; please close an agent before spawning '" +
                            PyStr(ValueOf(spec, "name")) + "'.");
    } else {
      var payload := OrchToAgent("spawn", ValueOf(spec, "name"), task);
      var s1 := Emit(s, "orchestrator", "orch_to_agent", payload);
      EmitFollows(s, "orchestrator", "orch_to_agent", payload);
      SpawnFollows(c, s1, NameOf(spec, "name"), task, OptStr(spec, "cwd", c.defaultCwd), env.newConv(|s1.calls|),
                   env.now, env.dumps);
    }
  }

  lemma SendBlockFollows(c: Config, s: HubState, b: Json, env: Env)
    requires LogValid(s)
    ensures var r := SendBlock(c, s, b, env);
            Follows(s, r) && r.commands == s.commands
  {
    var spec := SpecOf(b, "send");
    var task := GetStr(spec, "task");
    if !AgentSpecRaises(b, "send") {
      var s1 := Emit(s, "orchestrator", "orch_to_agent", OrchToAgent("send", ValueOf(spec, "to"), task));
      EmitFollows(s, "orchestrator", "orch_to_agent", OrchToAgent("send", ValueOf(spec, "to"), task));
      SendFollows(c, s1, NameOf(spec, "to"), task, env.now);
    }
  }

  lemma CloseBlockFollows(c: Config, s: HubState, b: Json)
    requires LogValid(s)
    ensures var r := CloseBlock(c, s, b);
            Follows(s, r) && r.commands == s.commands
  {
    var spec := SpecOf(b, "close");
    if !AgentSpecRaises(b, "close") {
      var payload := OrchToAgent("close", ValueOf(spec, "agent"), GetStr(spec, "reason"));
      EmitFollows(s, "orchestrator", "orch_to_agent", payload);
      CloseFollows(c, Emit(s, "orchestrator", "orch_to_agent", payload), NameOf(spec, "agent"));
    }
  }

  lemma CommandsChain(a: seq<Command>, b: seq<Command>, r: seq<Command>, p: seq<Command>, rest: seq<Command>)
    requires b == a + p && r == b + rest
    ensures r == a + (p + rest)
  {
  }

  /** The commands a message's blocks start are exactly those `Permitted`
      names, block by block, in order, for the blocks handled before one
      raises. */
  lemma {:induction false} BlocksCommands(c: Config, s: HubState, bs: seq<Json>, env: Env)
    requires LogValid(s)
    ensures HandleBlocks(c, s, bs, env).commands == s.commands + PermittedAll(c, s.autopilot, Handled(c, s, bs, env), env)
    decreases |bs|
  {
    if bs != [] {
      var s1 := HandleControlBlock(c, s, bs[0], env);
      BlockCommands(c, s, bs[0], env);
      if Raises(c, s, bs[0]) {
        assert PermittedAll(c, s.autopilot, [bs[0]], env) == Permitted(c, s.autopilot, bs[0], env) + [];
      } else {
        var hs := Handled(c, s1, bs[1..], env);
        BlocksCommands(c, s1, bs[1..], env);
        assert ([bs[0]] + hs)[1..] == hs;
        CommandsChain(s.commands, s1.commands, HandleBlocks(c, s1, bs[1..], env).commands,
                      Permitted(c, s.autopilot, bs[0], env), PermittedAll(c, s.autopilot, hs, env));
      }
    }
  }

  /** Handling blocks only appends to the calls and the broadcasts. */
  lemma {:induction false} BlocksFollow(c: Config, s: HubState, bs: seq<Json>, env: Env)
    requires LogValid(s)
    ensures Follows(s, HandleBlocks(c, s, bs, env))
    decreases |bs|
  {
    if bs != [] {
      var s1 := HandleControlBlock(c, s, bs[0], env);
      BlockFollows(c, s, bs[0], env);
      if !Raises(c, s, bs[0]) {
        BlocksFollow(c, s1, bs[1..], env);
      }
    }
  }

  /** A message from the orchestrator starts only allow-listed commands,
      and only when autopilot and dangerous mode are both on. */
  lemma TextCommands(c: Config, s: HubState, text: string, env: Env)
    requires LogValid(s)
    ensures var r := HandleOrchestratorText(c, s, text, env);
            Follows(s, r) &&
            var blocks := ControlBlocks.Extracted(CorePattern, Some(text), env.decode, env.signature);
            var s1 := if ControlFence.StripControlBlocks(CorePattern, text) != ""
                      then Emit(s, "orchestrator", "orch_to_user", TextEvent(ControlFence.StripControlBlocks(CorePattern, text)))
                      else s;
            r.commands == s.commands + PermittedAll(c, s.autopilot, Handled(c, s1, blocks, env), env) &&
            forall cmd :: cmd in r.commands[|s.commands|..] ==>
              s.autopilot && c.dangerous && LocalExec.IsAllowed(cmd.argv, LocalExec.DefaultAllowed)
  {
    var blocks := ControlBlocks.Extracted(CorePattern, Some(text), env.decode, env.signature);
    var display := ControlFence.StripControlBlocks(CorePattern, text);
    var s1 := if display != "" then Emit(s, "orchestrator", "orch_to_user", TextEvent(display)) else s;
    EmitFollows(s, "orchestrator", "orch_to_user", TextEvent(display));
    BlocksCommands(c, s1, blocks, env);
    BlocksFollow(c, s1, blocks, env);
    PermittedAllSafe(c, s.autopilot, Handled(c, s1, blocks, env), env);
    var r := HandleOrchestratorText(c, s, text, env);
    assert r.commands[|s.commands|..] == PermittedAll(c, s.autopilot, Handled(c, s1, blocks, env), env);
  }

  // ------------------------------------------------------------ autopilot off

  /** With autopilot off a block is only broadcast as suppressed; the
      orchestrator hears the warning the first time only. */
  lemma SuppressShape(c: Config, s: HubState, b: Json)
    requires LogValid(s)
    ensures var r := Suppress(c, s, b);
            Follows(s, r) && r.reg == s.reg && r.commands == s.commands && r.warned &&
            r.dirty == s.dirty && r.extras == s.extras &&
            r.events == s.events + [Event(s.sequence + 1, "orchestrator", "autopilot_suppressed", SuppressedPayload(b))] &&
            r.calls == s.calls + (if s.warned then [] else Notice(c, AutopilotWarning))
  {
    var s1 := Emit(s, "orchestrator", "autopilot_suppressed", SuppressedPayload(b));
    EmitFollows(s, "orchestrator", "autopilot_suppressed", SuppressedPayload(b));
    SendOrchNotice(c, s1, AutopilotWarning);
    LogCarries(s1, Suppress(c, s, b));
  }

  /** However many blocks arrive while autopilot is off, nothing is done,
      each is broadcast, and the orchestrator is warned at most once. */
  lemma {:induction false} WarnOnce(c: Config, s: HubState, bs: seq<Json>, env: Env)
    requires LogValid(s) && !s.autopilot
    ensures var r := HandleBlocks(c, s, bs, env);
            Follows(s, r) && r.reg == s.reg && r.commands == s.commands && r.dirty == s.dirty &&
            r.extras == s.extras && r.warned == (s.warned || bs != []) && |r.events| == |s.events| + |bs| &&
            r.calls == s.calls + (if s.warned || bs == [] then [] else Notice(c, AutopilotWarning))
    decreases |bs|
  {
    if bs != [] {
      var s1 := Suppress(c, s, bs[0]);
      SuppressShape(c, s, bs[0]);
      WarnOnce(c, s1, bs[1..], env);
    }
  }

  /** Re-enabling and then disabling autopilot re-arms the warning. */
  lemma WarnAgainAfterToggle(c: Config, s: HubState, bs: seq<Json>, env: Env)
    requires LogValid(s) && !s.autopilot && bs != []
    ensures var s2 := SetAutopilot(c, SetAutopilot(c, s, true), false);
            HandleBlocks(c, s2, bs, env).calls == s2.calls + Notice(c, AutopilotWarning)
  {
    var s1 := SetAutopilot(c, s, true);
    var s2 := SetAutopilot(c, s1, false);
    AutopilotChanges(c, s, true);
    AutopilotLog(c, s, true);
    AutopilotChanges(c, s1, false);
    AutopilotLog(c, s1, false);
    WarnOnce(c, s2, bs, env);
  }

  lemma AutopilotLog(c: Config, s: HubState, enabled: bool)
    requires LogValid(s)
    ensures LogValid(SetAutopilot(c, s, enabled))
  {
    if s.autopilot != enabled {
      var s0 := s.(autopilot := enabled, warned := false);
      LogCarries(s, s0);
      var s1 := Emit(s0, "hub", "autopilot_state", JObj([("enabled", JBool(enabled))]));
      EmitKeepsLogValid(s0, "hub", "autopilot_state", JObj([("enabled", JBool(enabled))]));
      LogCarries(s1, SetAutopilot(c, s, enabled));
    }
  }

  // ------------------------------------------------------------ registry consistency

  /** The app server never hands out a conversation id twice, and none it
      will hand out is already on file. */
  ghost predicate FreshIds(env: Env, s: HubState)
  {
    (forall m: nat, n: nat :: env.newConv(m) == env.newConv(n) ==> m == n) &&
    (forall n: nat :: n >= |s.calls| ==> env.newConv(n) !in s.reg.convToName)
  }

  lemma FreshCarries(env: Env, s: HubState, r: HubState)
    requires FreshIds(env, s) && |s.calls| <= |r.calls| && r.reg.convToName.Keys <= s.reg.convToName.Keys
    ensures FreshIds(env, r)
  {
  }

  /** A block leaves the registries consistent, keeps conversation ids
      fresh, and adds at most one agent — none at the WIP limit. */
  ghost predicate BlockKeeps(c: Config, env: Env, s: HubState, r: HubState, spawns: bool)
  {
    Valid(r) && FreshIds(env, r) && |r.reg.subs| <= |s.reg.subs| + (if spawns then 1 else 0)
  }

  /** Whether a block may add an agent. */
  predicate MaySpawn(c: Config, s: HubState, b: Json)
  {
    s.autopilot && KindOf(b) == KSpawn && !AtWipLimit(c, s)
  }

  lemma SpawnKeeps(c: Config, s: HubState, name: Option<string>, task: string, cwd: Option<string>,
                   env: Env)
    requires Valid(s) && FreshIds(env, s)
    ensures BlockKeeps(c, env, s, SpawnSub(c, s, name, task, cwd, env.newConv(|s.calls|), env.now, env.dumps), true)
  {
    var conv := env.newConv(|s.calls|);
    var r := SpawnSub(c, s, name, task, cwd, conv, env.now, env.dumps);
    SpawnValid(c, s, name, task, cwd, conv, env.now, env.dumps);
    if name.None? || name.value == "" {
      SpawnMissingName(c, s, name, task, cwd, conv, env.now, env.dumps);
      FreshCarries(env, s, r);
    } else if NormaliseAgentName(name) in s.reg.subs {
      SpawnExisting(c, s, name, task, cwd, conv, env.now, env.dumps);
      FreshCarries(env, s, r);
    } else {
      SpawnFresh(c, s, name, task, cwd, env);
    }
  }

  lemma SpawnFresh(c: Config, s: HubState, name: Option<string>, task: string, cwd: Option<string>, env: Env)
    requires LogValid(s) && FreshIds(env, s)
    requires name.Some? && name.value != "" && NormaliseAgentName(name) !in s.reg.subs
    ensures var r := SpawnSub(c, s, name, task, cwd, env.newConv(|s.calls|), env.now, env.dumps);
            FreshIds(env, r) && |r.reg.subs| == |s.reg.subs| + 1
  {
    var conv := env.newConv(|s.calls|);
    var r := SpawnSub(c, s, name, task, cwd, conv, env.now, env.dumps);
    SpawnRegisters(c, s, name, task, cwd, conv, env.now, env.dumps);
    SpawnAnnounces(c, s, name, task, cwd, conv, env.now, env.dumps);
    assert |r.calls| > |s.calls|;
    assert r.reg.convToName == s.reg.convToName[conv := NormaliseAgentName(name)];
    forall n: nat | n >= |r.calls|
      ensures env.newConv(n) !in r.reg.convToName
    {
      assert env.newConv(n) != conv;
    }
  }

  lemma CloseKeeps(c: Config, s: HubState, name: Option<string>, env: Env)
    requires Valid(s) && FreshIds(env, s)
    ensures BlockKeeps(c, env, s, CloseSub(c, s, name), false)
  {
    var r := CloseSub(c, s, name);
    CloseValid(c, s, name);
    var key := NormaliseAgentName(name);
    if key !in s.reg.subs {
      CloseUnknown(c, s, name);
    } else {
      CloseKnown(c, s, name);
      assert r.reg.subs.Keys == s.reg.subs.Keys - {key};
      assert |r.reg.subs| == |r.reg.subs.Keys|;
    }
    FreshCarries(env, s, r);
  }

  lemma SendKeeps(c: Config, s: HubState, name: Option<string>, task: string, env: Env)
    requires Valid(s) && FreshIds(env, s)
    ensures BlockKeeps(c, env, s, SendToSub(c, s, name, task, env.now), false)
  {
    var r := SendToSub(c, s, name, task, env.now);
    SendValid(c, s, name, task, env.now);
    if NormaliseAgentName(name) in s.reg.subs {
      SendKnown(c, s, name, task, env.now);
    } else {
      SendUnknown(c, s, name, task, env.now);
    }
    FreshCarries(env, s, r);
  }

  /** Every block keeps the registries consistent and respects the WIP
      limit. */
  lemma {:induction false} BlockValid(c: Config, s: HubState, b: Json, env: Env)
    requires Valid(s) && FreshIds(env, s)
    ensures BlockKeeps(c, env, s, HandleControlBlock(c, s, b, env), MaySpawn(c, s, b))
  {
    var r := HandleControlBlock(c, s, b, env);
    if !s.autopilot {
      SuppressShape(c, s, b);
      FreshCarries(env, s, r);
    } else {
      match KindOf(b)
      case KExec =>
        ExecFollows(c, s, b, env);
        FreshCarries(env, s, r);
      case KStatus =>
        StatusFollows(c, s, b, env);
        FreshCarries(env, s, r);
      case KFetch =>
        FetchFollows(c, s, b, env);
        FreshCarries(env, s, r);
      case KSpawn => SpawnBlockValid(c, s, b, env);
      case KSend => SendBlockValid(c, s, b, env);
      case KClose => CloseBlockValid(c, s, b, env);
      case KNone =>
    }
  }

  lemma SpawnBlockValid(c: Config, s: HubState, b: Json, env: Env)
    requires Valid(s) && FreshIds(env, s) && s.autopilot
    ensures BlockKeeps(c, env, s, SpawnBlock(c, s, b, env), !AtWipLimit(c, s))
  {
    var spec := SpecOf(b, "spawn");
    var task := GetStr(spec, "task");
    if AgentSpecRaises(b, "spawn") {
    } else if AtWipLimit(c, s) {
      var msg := "HUB: WIP limit " + NatToString(c.wipLimit) + " reached; please close an agent before spawning '" +
                 PyStr(ValueOf(spec, "name")) + "'.";
      SendOrchFollows(c, s, msg);
      FreshCarries(env, s, SendOrch(c, s, msg));
    } else {
      var payload := OrchToAgent("spawn", ValueOf(spec, "name"), task);
      var s1 := Emit(s, "orchestrator", "orch_to_agent", payload);
      EmitFollows(s, "orchestrator", "orch_to_agent", payload);
      if BadName(ValueOf(spec, "name")) {
        FreshCarries(env, s, s1);
      } else {
        SpawnKeeps(c, s1, NameOf(spec, "name"), task, OptStr(spec, "cwd", c.defaultCwd), env);
      }
    }
  }

  lemma SendBlockValid(c: Config, s: HubState, b: Json, env: Env)
    requires Valid(s) && FreshIds(env, s)
    ensures BlockKeeps(c, env, s, SendBlock(c, s, b, env), false)
  {
    var spec := SpecOf(b, "send");
    var task := GetStr(spec, "task");
    if !AgentSpecRaises(b, "send") {
      var payload := OrchToAgent("send", ValueOf(spec, "to"), task);
      var s1 := Emit(s, "orchestrator", "orch_to_agent", payload);
      EmitFollows(s, "orchestrator", "orch_to_agent", payload);
      if BadName(ValueOf(spec, "to")) {
        FreshCarries(env, s, s1);
      } else {
        SendKeeps(c, s1, NameOf(spec, "to"), task, env);
      }
    }
  }

  lemma CloseBlockValid(c: Config, s: HubState, b: Json, env: Env)
    requires Valid(s) && FreshIds(env, s)
    ensures BlockKeeps(c, env, s, CloseBlock(c, s, b), false)
  {
    var spec := SpecOf(b, "close");
    if !AgentSpecRaises(b, "close") {
      var payload := OrchToAgent("close", ValueOf(spec, "agent"), GetStr(spec, "reason"));
      var s1 := Emit(s, "orchestrator", "orch_to_agent", payload);
      EmitFollows(s, "orchestrator", "orch_to_agent", payload);
      if BadName(ValueOf(spec, "agent")) {
        FreshCarries(env, s, s1);
      } else {
        CloseKeeps(c, s1, NameOf(spec, "agent"), env);
      }
    }
  }

  /** The number of agents stays within the WIP limit. */
  predicate WithinWip(c: Config, s: HubState)
  {
    c.wipLimit == 0 || |s.reg.subs| <= c.wipLimit
  }

  /** Handling a message's blocks keeps the registries consistent, and
      never takes the number of agents past the WIP limit. */
  lemma {:induction false} BlocksValid(c: Config, s: HubState, bs: seq<Json>, env: Env)
    requires Valid(s) && FreshIds(env, s)
    ensures var r := HandleBlocks(c, s, bs, env);
            Valid(r) && FreshIds(env, r) && (WithinWip(c, s) ==> WithinWip(c, r))
    decreases |bs|
  {
    if bs != [] {
      var s1 := HandleControlBlock(c, s, bs[0], env);
      BlockValid(c, s, bs[0], env);
      if !Raises(c, s, bs[0]) {
        BlocksValid(c, s1, bs[1..], env);
      }
    }
  }

  lemma TextValid(c: Config, s: HubState, text: string, env: Env)
    requires Valid(s) && FreshIds(env, s)
    ensures var r := HandleOrchestratorText(c, s, text, env);
            Valid(r) && FreshIds(env, r) && (WithinWip(c, s) ==> WithinWip(c, r))
  {
    var display := ControlFence.StripControlBlocks(CorePattern, text);
    var s1 := if display != "" then Emit(s, "orchestrator", "orch_to_user", TextEvent(display)) else s;
    EmitFollows(s, "orchestrator", "orch_to_user", TextEvent(display));
    FreshCarries(env, s, s1);
    BlocksValid(c, s1, ControlBlocks.Extracted(CorePattern, Some(text), env.decode, env.signature), env);
  }

  // ------------------------------------------------------------ blocks that raise

  /** A block that raises has done at most the `orch_to_agent` broadcast
      that comes before the registry call that fails: nothing is sent,
      started, queued or registered. */
  lemma RaiseLeavesRegistry(c: Config, s: HubState, b: Json, env: Env)
    requires LogValid(s) && Raises(c, s, b)
    ensures var r := HandleControlBlock(c, s, b, env);
            Follows(s, r) && r.reg == s.reg && r.calls == s.calls && r.commands == s.commands &&
            r.extras == s.extras && r.dirty == s.dirty && |r.events| <= |s.events| + 1
  {
    match KindOf(b)
    case KSpawn =>
      if !AgentSpecRaises(b, "spawn") {
        EmitFollows(s, "orchestrator", "orch_to_agent",
                    OrchToAgent("spawn", ValueOf(SpecOf(b, "spawn"), "name"), GetStr(SpecOf(b, "spawn"), "task")));
      }
    case KSend =>
      if !AgentSpecRaises(b, "send") {
        EmitFollows(s, "orchestrator", "orch_to_agent",
                    OrchToAgent("send", ValueOf(SpecOf(b, "send"), "to"), GetStr(SpecOf(b, "send"), "task")));
      }
    case KClose =>
      if !AgentSpecRaises(b, "close") {
        EmitFollows(s, "orchestrator", "orch_to_agent",
                    OrchToAgent("close", ValueOf(SpecOf(b, "close"), "agent"), GetStr(SpecOf(b, "close"), "reason")));
      }
    case _ =>
  }

  /** The exception ends the message: the blocks after a raising one are
      never handled. */
  lemma RaiseEndsMessage(c: Config, s: HubState, b: Json, rest: seq<Json>, env: Env)
    requires Raises(c, s, b)
    ensures HandleBlocks(c, s, [b] + rest, env) == HandleControlBlock(c, s, b, env)
    ensures Handled(c, s, [b] + rest, env) == [b]
  {
  }

  /** Blocks `_handle_control_block` may raise on, whatever the hub's state. */
  predicate Malformed(c: Config, b: Json)
  {
    match KindOf(b)
    case KExec => c.dangerous && ExecRaises(b)
    case KStatus => StatusRaises(b)
    case KFetch => !OrEmptyObject(ValueOf(b, "fetch"))
    case KSpawn => AgentSpecRaises(b, "spawn") || BadName(ValueOf(SpecOf(b, "spawn"), "name"))
    case KSend => AgentSpecRaises(b, "send") || BadName(ValueOf(SpecOf(b, "send"), "to"))
    case KClose => AgentSpecRaises(b, "close") || BadName(ValueOf(SpecOf(b, "close"), "agent"))
    case KNone => false
  }

  /** When no block is malformed, every block of the message is handled. */
  lemma {:induction false} WellFormedAllHandled(c: Config, s: HubState, bs: seq<Json>, env: Env)
    requires forall i :: 0 <= i < |bs| ==> !Malformed(c, bs[i])
    ensures Handled(c, s, bs, env) == bs
    decreases |bs|
  {
    if bs != [] {
      assert !Malformed(c, bs[0]);
      assert !Raises(c, s, bs[0]);
      WellFormedAllHandled(c, HandleControlBlock(c, s, bs[0], env), bs[1..], env);
    }
  }

  /** `block["spawn"]` is read without `or {}`: a `null` spec raises
      before anything is broadcast, and the rest of the message is lost. */
  lemma SpawnNullEndsMessage(c: Config, s: HubState, rest: seq<Json>, env: Env)
    requires s.autopilot
    ensures HandleBlocks(c, s, [JObj([("spawn", JNull)])] + rest, env) == s
  {
    var b := JObj([("spawn", JNull)]);
    assert b.fields[0].0 == "spawn";
    assert !HasKey(b, "exec") && !HasKey(b, "status") && !HasKey(b, "fetch") && HasKey(b, "spawn");
    assert Raises(c, s, b);
    RaiseEndsMessage(c, s, b, rest, env);
  }

  /** A `send` to a number is broadcast, then `normalise_agent_name`
      raises on it. */
  lemma SendToNumberRaises(c: Config, s: HubState, env: Env)
    requires s.autopilot
    ensures var b := JObj([("send", JObj([("to", JInt(7))]))]);
            Raises(c, s, b) &&
            HandleControlBlock(c, s, b, env) == Emit(s, "orchestrator", "orch_to_agent", OrchToAgent("send", JInt(7), ""))
  {
    var b := JObj([("send", JObj([("to", JInt(7))]))]);
    assert KindOf(b) == KSend;
    assert ValueOf(SpecOf(b, "send"), "to") == JInt(7);
  }

  /** `list` of a string gives its characters, so a string `argv` is a
      command of one-letter words. */
  lemma ArgvStringSplits()
    ensures ArgvOf(JObj([("argv", JStr("ls"))])) == ["l", "s"]
  {
    assert ValueOf(JObj([("argv", JStr("ls"))]), "argv") == JStr("ls");
    assert Chars("ls") == [JStr("l"), JStr("s")];
  }

  // ------------------------------------------------------------ refusals

  /** Without dangerous mode an `exec` block only draws the refusal
      notice. */
  lemma ExecRefused(c: Config, s: HubState, b: Json, env: Env)
    requires s.autopilot && !c.dangerous && HasKey(b, "exec")
    ensures HandleControlBlock(c, s, b, env) == s.(calls := s.calls + Notice(c, ExecIgnored))
  {
    SendOrchNotice(c, s, ExecIgnored);
  }

  /** At the WIP limit a `spawn` block only draws the refusal notice,
      naming the limit and the agent. */
  lemma SpawnRefusedAtLimit(c: Config, s: HubState, b: Json, env: Env)
    requires s.autopilot && KindOf(b) == KSpawn && AtWipLimit(c, s) && ValueOf(b, "spawn").JObj?
    ensures HandleControlBlock(c, s, b, env) ==
            s.(calls := s.calls + Notice(c, "HUB: WIP limit " + NatToString(c.wipLimit) +
                                            " reached; please close an agent before spawning '" +
                                            PyStr(ValueOf(SpecOf(b, "spawn"), "name")) + "'."))
  {
    SendOrchNotice(c, s, "HUB: WIP limit " + NatToString(c.wipLimit) +
                         " reached; please close an agent before spawning '" +
                         PyStr(ValueOf(SpecOf(b, "spawn"), "name")) + "'.");
  }

  /** A block with none of the six commands changes nothing. */
  lemma UnknownBlockIgnored(c: Config, s: HubState, b: Json, env: Env)
    requires s.autopilot && KindOf(b) == KNone
    ensures HandleControlBlock(c, s, b, env) == s
  {
  }

  /** Below the limit a spawn block for a new name registers exactly
      that agent, on the next conversation the app server opens, in the
      block's working directory or the hub's default. */
  lemma SpawnBelowLimit(c: Config, s: HubState, b: Json, env: Env)
    requires LogValid(s) && !AtWipLimit(c, s)
    requires var n := NameOf(SpecOf(b, "spawn"), "name");
             n.Some? && n.value != "" && NormaliseAgentName(n) !in s.reg.subs
    ensures var spec := SpecOf(b, "spawn");
            SpawnBlock(c, s, b, env).reg ==
            AddAgent(s.reg, NormaliseAgentName(NameOf(spec, "name")), env.newConv(|s.calls|),
                     NewMeta(c, env.now, Workspace(c, OptStr(spec, "cwd", c.defaultCwd))))
  {
    var spec := SpecOf(b, "spawn");
    var task := GetStr(spec, "task");
    var payload := OrchToAgent("spawn", ValueOf(spec, "name"), task);
    var s1 := Emit(s, "orchestrator", "orch_to_agent", payload);
    EmitFollows(s, "orchestrator", "orch_to_agent", payload);
    SpawnRegisters(c, s1, NameOf(spec, "name"), task, OptStr(spec, "cwd", c.defaultCwd), env.newConv(|s1.calls|),
                   env.now, env.dumps);
  }

  // ------------------------------------------------------------ approval properties

  /** Approval is sent back exactly when autopilot and dangerous mode are
      both on; otherwise the denial names the switch that is off. */
  lemma AutoapproveDecision(c: Config, s: HubState, requestId: Json, meth: string, params: Json)
    requires !DescribeRaises(meth, params)
    ensures var r := Autoapprove(c, s, requestId, meth, params, true);
            |r.calls| > |s.calls| && r.calls[..|s.calls|] == s.calls &&
            (r.calls[|s.calls|] == Respond(requestId, "approved") <==> c.dangerous && s.autopilot) &&
            (r.calls[|s.calls|] == Respond(requestId, "denied") <==> !(c.dangerous && s.autopilot))
  {
  }

  /** A denial tells the orchestrator why: autopilot is named first. */
  lemma DenialExplained(c: Config, s: HubState, requestId: Json, meth: string, params: Json)
    requires !Approves(c, s) && !DescribeRaises(meth, params)
    ensures var r := Autoapprove(c, s, requestId, meth, params, true);
            var reason := if !s.autopilot then "autopilot disabled" else "dangerous mode disabled";
            r.calls == s.calls + [Respond(requestId, "denied")] +
                       Notice(c, "HUB: denied " + Describe(meth, params) + " because " + reason +
                                 ". Enable autopilot or dangerous mode to allow.") &&
            r.events == s.events + [Event(s.sequence + 1, "hub", "status",
                                          TextEvent("HUB: denied " + Describe(meth, params) + " because " + reason + "."))]
  {
    var s1 := s.(calls := s.calls + [Respond(requestId, "denied")]);
    var s2 := Emit(s1, "hub", "status", TextEvent("HUB: denied " + Describe(meth, params) + " because " + DenialReason(s) + "."));
    SendOrchNotice(c, s2, "HUB: denied " + Describe(meth, params) + " because " + DenialReason(s) +
                          ". Enable autopilot or dangerous mode to allow.");
  }

  /** An approval is answered and broadcast, and the orchestrator hears
      nothing. */
  lemma ApprovalQuiet(c: Config, s: HubState, requestId: Json, meth: string, params: Json)
    requires Approves(c, s) && !DescribeRaises(meth, params)
    ensures var r := Autoapprove(c, s, requestId, meth, params, true);
            r.calls == s.calls + [Respond(requestId, "approved")] &&
            r.events == s.events + [Event(s.sequence + 1, "hub", "status",
                                          TextEvent("HUB: auto-approved " + Describe(meth, params) + "."))]
  {
  }

  /** When the answer cannot be sent nothing else happens. */
  lemma AutoapproveUnsent(c: Config, s: HubState, requestId: Json, meth: string, params: Json)
    ensures Autoapprove(c, s, requestId, meth, params, false) == s
  {
  }

  /** Deciding a request never touches the registries, the modes or the
      commands. */
  lemma RequestKeeps(c: Config, s: HubState, meth: string, params: Json, requestId: Json, respondOk: bool)
    requires LogValid(s)
    ensures var r := HandleRequest(c, s, meth, params, requestId, respondOk);
            Follows(s, r) && SameRegistry(s, r) && r.commands == s.commands
  {
    var r := HandleRequest(c, s, meth, params, requestId, respondOk);
    if requestId != JNull && (Lower(meth) == "execcommandapproval" || Lower(meth) == "applypatchapproval") {
      AutoapproveKeeps(c, s, requestId, meth, params, respondOk);
    } else {
      LogCarries(s, r);
    }
  }

  lemma AutoapproveKeeps(c: Config, s: HubState, requestId: Json, meth: string, params: Json, respondOk: bool)
    requires LogValid(s)
    ensures var r := Autoapprove(c, s, requestId, meth, params, respondOk);
            Follows(s, r) && SameRegistry(s, r) && r.commands == s.commands
  {
    if respondOk && !DescribeRaises(meth, params) {
      var d := Describe(meth, params);
      var status := if Approves(c, s) then "HUB: auto-approved " + d + "."
                    else "HUB: denied " + d + " because " + DenialReason(s) + ".";
      var s1 := s.(calls := s.calls + [Respond(requestId, if Approves(c, s) then "approved" else "denied")]);
      LogCarries(s, s1);
      EmitFollows(s1, "hub", "status", TextEvent(status));
      SendOrchFollows(c, Emit(s1, "hub", "status", TextEvent(status)),
                      "HUB: denied " + d + " because " + DenialReason(s) + ". Enable autopilot or dangerous mode to allow.");
    }
  }

  /** A request whose description raises gets no answer and changes
      nothing, whatever the switches. */
  lemma ApprovalRaises(c: Config, s: HubState, meth: string, params: Json, requestId: Json, respondOk: bool)
    requires DescribeRaises(meth, params)
    ensures Autoapprove(c, s, requestId, meth, params, respondOk) == s
    ensures HandleRequest(c, s, meth, params, requestId, respondOk) == s
  {
  }

  /** Only `execCommandApproval` reads its parameters, so `applyPatchApproval`
      never raises, whatever they are. */
  lemma ApplyPatchNeverRaises(meth: string, params: Json)
    requires Lower(meth) == "applypatchapproval"
    ensures !DescribeRaises(meth, params)
  {
  }

  /** A command list with a number in it raises at `" ".join`, and so do
      parameters that are a list. */
  lemma NonStringCommandRaises()
    ensures DescribeRaises("execCommandApproval", JObj([("command", JArr([JStr("ls"), JInt(1)]))]))
    ensures DescribeRaises("execCommandApproval", JArr([JInt(1)]))
  {
    ExecApprovalLower();
    JsonValue.GetSingle("command", JArr([JStr("ls"), JInt(1)]), "command");
    assert !JArr([JStr("ls"), JInt(1)]).items[1].JStr?;
  }

  /** A list of strings is joined with blanks into the description. */
  lemma StringCommandDescribed()
    ensures var p := JObj([("command", JArr([JStr("ls"), JStr("-l")]))]);
            !DescribeRaises("execCommandApproval", p) && Describe("execCommandApproval", p) == "exec command ls -l"
  {
    ExecApprovalLower();
    JsonValue.GetSingle("command", JArr([JStr("ls"), JStr("-l")]), "command");
    assert Strs([JStr("ls"), JStr("-l")]) == ["ls", "-l"];
    assert Join(["ls", "-l"], " ") == "ls -l";
    var d := "exec command ls -l";
    assert d[0] == 'e' && d[|d| - 1] == 'l';
    assert Strip(d) == d;
  }

  lemma ExecApprovalLower()
    ensures Lower("execCommandApproval") == "execcommandapproval"
  {
  }

  /** A request without an id is a notification and is ignored. */
  lemma RequestWithoutId(c: Config, s: HubState, meth: string, params: Json, respondOk: bool)
    ensures HandleRequest(c, s, meth, params, JNull, respondOk) == s
  {
  }

  /** Any other request is refused with the JSON-RPC "method not found"
      code, and nothing else happens. */
  lemma RequestUnhandled(c: Config, s: HubState, meth: string, params: Json, requestId: Json, respondOk: bool)
    requires requestId != JNull && Lower(meth) != "execcommandapproval" && Lower(meth) != "applypatchapproval"
    ensures HandleRequest(c, s, meth, params, requestId, respondOk) ==
            s.(calls := s.calls + [RespondError(requestId, -32601, "Unhandled request: " + meth)])
  {
  }

  /** The approval methods are recognised whatever their case: two
      spellings that agree in lower case get the same answer. */
  lemma RequestIgnoresCase(c: Config, s: HubState, m1: string, m2: string, params: Json, requestId: Json,
                           respondOk: bool)
    requires Lower(m1) == Lower(m2)
    requires Lower(m1) == "execcommandapproval" || Lower(m1) == "applypatchapproval"
    ensures HandleRequest(c, s, m1, params, requestId, respondOk) == HandleRequest(c, s, m2, params, requestId, respondOk)
  {
    assert Describe(m1, params) == Describe(m2, params);
  }
}
