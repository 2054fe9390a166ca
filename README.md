# Orchestration hub for coding agents, modelled in Dafny

The system is a hub that runs one orchestrator agent and any number of
sub-agents (Codex processes), relays messages between them, and reads
fenced `control` blocks out of the orchestrator's messages to spawn, message
and close sub-agents, to run allow-listed local commands, to store text
artifacts and to switch the autopilot that answers approval requests. Around
it sit a web dashboard with its own copy of the hub logic, a daemon that
drives agents from GitHub issues (labels, worktrees, state files, stall
marks, pull requests), an issue-rollup report, and a tailer that reads
OpenTelemetry log records.

The project models, one Dafny module per part:

- `HubNames`, `HubModel`, `HubRegistry`, `HubPolicy`, `HubTimers`, `HubPoll`,
  `HubCore` (`codex_hub_core.py`): agent names and the sub-agent registry,
  the event log with its sequence numbers, control-block dispatch, the
  approval policy, check-in and budget timers, the watchdog pass and
  GitHub polling of the hub. `HubCore.Hub` is a class whose fields are the
  hub's dictionaries and lists; its methods update them in place and are
  proved against the functions of the other modules.
- `ControlFence`, `ControlBlocks`: the control-block regular expression
  and the JSON payloads it carries, for both the core and the dashboard
  variants of the pattern.
- `WebModel`, `WebHub` (`hub_dashboard/codex_hub_web.py`): the dashboard's
  hub state as a value with its invariant, and the class that updates it.
- `GithubSync`, `GithubLabels`, `GithubSyncSample` (`github_sync.py`):
  issue bodies parsed into charters, the prompt built from a charter,
  blockers and SLA labels, and the round trip of a charter written in the
  layout of the tests' sample body.
- `Orchestrate` (`orchestrate_github.py`): slugs, worktree paths, the
  per-issue decisions of the daemon loop and the mirroring of hub events
  back to GitHub, as a class holding the state files and the list of calls
  made to GitHub.
- `IssueRollup` (`issue_rollup.py`): issue references in text, task
  classification and the partition of sub-issues.
- `LocalExec`, `Artifacts`, `OtelTailer` (`local_exec.py`, `artifacts.py`,
  `otel_tailer.py`): the exec allow-list and result shape, artifact
  storage, and conversation-id extraction.
- `Text`, `JsonValue`, `Sorting`: the Python string operations, JSON values
  and `sorted` that the modules above rely on.

Clocks, uuids, process ids, subprocess outcomes, files on disk and answers
from `gh` are parameters of the operations that use them. Calls that leave
the process (GitHub requests, messages to agent processes, published
events) are recorded in order as values rather than performed.

## Model

| member | source | states |
|---|---|---|
| Artifacts.ArtifactId | artifacts.py:30-31 | an identifier starts with the decimal timestamp and a dash |
| Artifacts.MetaOr | artifacts.py:34 | a missing or falsy meta is recorded as an empty object |
| Artifacts.PrefixSlice | artifacts.py:46-47 | `data[:max_chars]` keeps the first `max_chars` characters, or drops the last `-max_chars` for a negative bound |
| Artifacts.UniversalNewlines | artifacts.py:43-44 | reading in text mode never yields a carriage return and never lengthens the text |
| Artifacts.UniversalNewlinesIdentity | artifacts.py:43-44 | text without carriage returns reads back unchanged |
| Artifacts.LoadAsWritten | artifacts.py:40-48 | `load_text` as written yields a result exactly when the blob exists |
| Artifacts.Load | artifacts.py:40-48 | the corrected read of `load_text` (the file opened with `newline=""`, see the first "## Findings" row): a result exists exactly when the blob exists; the total is the full length; the text is the whole blob, or its first `max_chars` characters when it is longer |
| Artifacts.Store.constructor | artifacts.py:14-25 | a new store has no blobs and an empty index |
| Artifacts.Store.StoreText | artifacts.py:28-37 | the blob is written under the new id, a missing body as empty text, and exactly one index record is appended |
| Artifacts.RoundTrip | artifacts.py:28-48 | loading a stored body gives back the body and its length, or its first `max_chars` characters |
| Artifacts.StoreKeepsOthers | artifacts.py:28-37 | storing one artifact changes what any other id loads to in no way |
| Artifacts.AsWrittenRoundTrip | artifacts.py:32-44 | with the text-mode read as written, the round trip holds for bodies without carriage returns |
| Artifacts.AsWrittenLosesCarriageReturn | artifacts.py:32-44 | with the text-mode read as written, a stored "a\rb" loads as "a\nb" |
| Artifacts.Store.LoadText | artifacts.py:40-48 | with the corrected read of the first "## Findings" row, an identifier loads exactly when it has a blob, with the blob's full length as total and a prefix of the blob as text |
| Artifacts.Store.IndexedReadable | artifacts.py:28-48 | every artifact the index lists can be loaded, and without a limit in full |
| LocalExec.EffectiveAllow | local_exec.py:43 | a missing or empty allow-list falls back to the default one |
| LocalExec.RunExec | local_exec.py:36-57 | the command text is the space-joined argv and the directory the given one or the process's; a refused command gives code 126 and a "denied: …" message, a missing program code 127, and a run its return code, with `ok` exactly when that code is 0 |
| LocalExec.EmptyArgvDenied | local_exec.py:25-26 | an empty argv is never allowed |
| LocalExec.ProgramMustBeKnown | local_exec.py:27-29 | a program whose base name is not in the allow-list is refused |
| LocalExec.PathToProgram | local_exec.py:27 | a program named by a path is judged by its base name alone |
| LocalExec.BasenameAfterSlash | local_exec.py:27 | the base name of `dir/prog` is `prog` |
| LocalExec.LoneProgram | local_exec.py:27-31 | a program given alone is allowed exactly when it is listed |
| LocalExec.FirstArgument | local_exec.py:32-33 | with a listed program, the command is allowed exactly when its first argument is an allowed verb or starts with `-` |
| LocalExec.DeniedRunsNothing | local_exec.py:44-46 | a refused command's result does not depend on what running it would have done |
| LocalExec.DefaultAllowsGitStatus | local_exec.py:8-11 | the default allow-list admits `git status` |
| LocalExec.DefaultRejectsGitReset | local_exec.py:8-11 | the default allow-list refuses `git reset` |
| LocalExec.DefaultAllowsGhByPath | local_exec.py:8-33 | the default allow-list admits `/usr/bin/gh pr list` |
| LocalExec.DefaultRejectsRm | local_exec.py:8-11 | the default allow-list refuses `rm -rf` |
| LocalExec.IsAllowed | local_exec.py:24-33 | reference definition of `_is_allowed`: a non-empty argv whose program basename is listed, and either no argument or a first argument that is listed for it or starts with `-`; its properties are `EmptyArgvDenied`, `ProgramMustBeKnown`, `LoneProgram` and `FirstArgument` |
| OtelTailer.Leaf | otel_tailer.py:18-20 | a leaf has a string form exactly when it is a string or an integer (booleans included, as in Python) |
| OtelTailer.Dig | otel_tailer.py:10-20 | the loop over the dotted parts gives the reference path lookup: None at the first non-object or missing key, else the leaf's string form |
| OtelTailer.FirstDig | otel_tailer.py:33-36 | a nested key only ever yields a non-empty value |
| OtelTailer.FirstNested | otel_tailer.py:31-37 | the nested search only ever yields a non-empty value |
| OtelTailer.ExtractConversationId | otel_tailer.py:23-37 | the nested loops with early returns give `ConversationId` for an object payload, and any other payload raises (`raised`) |
| OtelTailer.DigNest | otel_tailer.py:10-20 | looking a path up in an object built along that path finds the leaf |
| OtelTailer.DigThroughLeaf | otel_tailer.py:13-14 | a path that continues past a non-object value gives None |
| OtelTailer.TopLevelFirst | otel_tailer.py:25-29 | a string `conversation_id` wins over everything else |
| OtelTailer.TopLevelOrder | otel_tailer.py:25-29 | `conversationId` is tried before `sessionId`, and an integer value comes back as its decimal text |
| OtelTailer.NestedNonEmpty | otel_tailer.py:34-37 | without a top-level id, an empty nested value is never returned |
| OtelTailer.NestedAttribute | otel_tailer.py:31-36 | a `session.id` under `attributes` is found by the nested search |
| OtelTailer.NoTopLevel | otel_tailer.py:25-29 | a payload holding only `attributes` has no top-level id |
| OtelTailer.SessionPath | otel_tailer.py:33-36 | the key `session.id` finds a value nested as `session` → `id` |
| OtelTailer.MissingPaths | otel_tailer.py:33-35 | the earlier keys `conversation.id` and `conversation_id` find nothing in such a blob |
| OtelTailer.SplitConversationId | otel_tailer.py:12 | `split('.')` splits a dotted key at the dot and leaves an underscore key whole |
| OtelTailer.FoundPath | otel_tailer.py:10-33 | `_dig` with `session.id` finds the nested value |
| OtelTailer.SplitOnce | otel_tailer.py:12 | a string with one separator splits into the two parts around it |
| OtelTailer.DigPath | otel_tailer.py:10-20 | reference definition of `_dig` over the split path; its properties are `DigNest` and `DigThroughLeaf` |
| OtelTailer.ConversationId | otel_tailer.py:23-37 | reference definition of `_extract_conversation_id` on an object; its properties are `TopLevelFirst`, `TopLevelOrder`, `NestedNonEmpty` and `NestedAttribute` |
| ControlFence.LazyClose | codex_hub_core.py:57-59 | the lazy `(.*?)\n```` ends at the first closing fence after the body start, and there is none when it fails |
| ControlFence.SRunEnd | codex_hub_core.py:57-59 | `\s*` (or the core's literal `\\s*`) consumes the longest run of its character |
| ControlFence.AfterControl | codex_hub_core.py:57-59 | after the opening ticks, a match position lies past the case-insensitive word `control` |
| ControlFence.SpacedTail | hub_dashboard/codex_hub_web.py:31-34 | the backtracking over `\s*\n` yields a well-formed match starting at the fence |
| ControlFence.MatchAt | codex_hub_core.py:57-59 | a match at a position starts there and is well formed; under the core's pattern its opening always contains a backslash |
| ControlFence.MatchesFound | codex_hub_core.py:94 | `finditer` finds matches that are each the leftmost one after the previous match |
| ControlFence.MatchesOrdered | codex_hub_core.py:94 | the matches come in text order and do not overlap |
| ControlFence.Sub | codex_hub_core.py:75 | `CONTROL_BLOCK_RE.sub("", text)` never lengthens the text |
| ControlFence.Bodies | codex_hub_core.py:94-95 | there is one captured body per match |
| ControlFence.CollapseNewlines | codex_hub_core.py:76 | `re.sub(r"\n{2,}", "\n", …)` leaves no two newlines in a row, keeps a leading newline, and changes nothing that has none |
| ControlFence.NewlineRunEnd | codex_hub_core.py:76 | the run `\n{2,}` is the maximal run of newlines |
| ControlFence.StripControlBlocks | codex_hub_core.py:72-77 | empty input gives ""; the result has no surrounding white space and no blank lines |
| ControlFence.StripBlankLines | codex_hub_core.py:77 | stripping keeps the absence of blank lines |
| ControlFence.EscapedNeedsBackslash | codex_hub_core.py:57-59 | the core's pattern matches nothing in a text without a backslash, and its substitution then leaves the text as it is |
| ControlFence.SpacedMatchesFence | hub_dashboard/codex_hub_web.py:31-34 | the dashboard's pattern matches a plain ```` ```control ```` fence whole |
| ControlFence.LazyCloseFirst | hub_dashboard/codex_hub_web.py:31-34 | the lazy body ends at the first closing fence |
| ControlFence.SpacedStripsFence | hub_dashboard/codex_hub_web.py:37-45 | the dashboard's `strip_control_blocks` removes a plain fence entirely |
| ControlFence.EscapedMissesFence | codex_hub_core.py:57-59 | the core's pattern never matches a plain ```` ```control ```` fence, so its `strip_control_blocks` leaves the fence in place |
| ControlFence.EscapedMatchesLiteral | codex_hub_core.py:57-59 | the core's pattern does match a fence written with a literal `\s` after `control` |
| ControlBlocks.LinePayload | codex_hub_core.py:106-117 | a fallback line yields only an object holding `spawn`, `send` or `close` |
| ControlBlocks.Extracted | codex_hub_core.py:88-90 | no text or empty text gives no blocks |
| ControlBlocks.ExtractControlBlocks | codex_hub_core.py:88-122 | the method computes the reference extraction: fenced objects first, then fallback lines |
| ControlBlocks.CollectFenced | codex_hub_core.py:94-102 | the loop keeps exactly the fenced bodies that decode to objects, in order |
| ControlBlocks.CollectFallback | codex_hub_core.py:104-120 | the loop keeps exactly the fresh command lines, in order, adding each signature to `seen` |
| ControlBlocks.FallbackFresh | codex_hub_core.py:104-120 | every fallback block is a command object, none repeats a signature already seen, and no two share a signature |
| ControlBlocks.FallbackAfterFenced | codex_hub_core.py:104-120 | no fallback block repeats the signature of any earlier block, fenced or fallback |
| ControlBlocks.NoCandidateLines | codex_hub_core.py:106-108 | lines that do not start with `{` contribute nothing |
| ControlBlocks.FenceFallbackEmpty | codex_hub_core.py:104-118 | a fenced block's own body line is not picked up a second time by the fallback |
| ControlBlocks.DashboardFence | hub_dashboard/codex_hub_web.py:56-92 | the dashboard extracts a fenced object exactly once |
| ControlBlocks.FenceLines | codex_hub_core.py:105 | `splitlines` splits a fence into its three lines |
| ControlBlocks.FirstBreakAt | codex_hub_core.py:105 | `splitlines` cuts at the first line break |
| HubNames.NormaliseAgentName | codex_hub_core.py:125-127 | the result is always a registry key: non-empty, lower-case letters, digits and inner single underscores only |
| HubNames.LowerOfKey | codex_hub_core.py:126 | lower-casing leaves a key's characters alone |
| HubNames.NormaliseIdempotent | codex_hub_core.py:125-127 | normalising a normalised name changes nothing |
| HubNames.KeyIsFixedPoint | codex_hub_core.py:125-127 | every registry key normalises to itself |
| HubNames.MissingNameIsAgent | codex_hub_core.py:126-127 | a missing name, or one with no letters or digits, becomes `agent` |
| HubNames.IssueAgentKey | codex_hub_core.py:125-127 | the poller's `iss<n>` names are already keys |
| HubNames.SubAlnumPrefix | codex_hub_core.py:126 | `re.sub(r"[^a-z0-9]+", "_", …)` keeps a leading run of letters and digits |
| HubNames.SubOneSeparator | codex_hub_core.py:126 | a run of other characters becomes one underscore |
| HubNames.DashBecomesUnderscore | codex_hub_core.py:125-127 | `test-worker` becomes `test_worker` |
| HubNames.SubDashed | codex_hub_core.py:126 | a dash between two words becomes one underscore |
| HubNames.Scaled | codex_hub_core.py:1154-1163 | a digit string scales by its unit's seconds; anything else falls back to the default |
| HubNames.Millis | codex_hub_core.py:1154-1155 | milliseconds become whole seconds, at least 1 |
| HubNames.DurationDefault | codex_hub_core.py:1149-1150 | a missing or empty value gives the default |
| HubNames.DigitsPlain | codex_hub_core.py:1151 | stripping and lower-casing leave plain lower-case text unchanged |
| HubNames.ParsePlain | codex_hub_core.py:1151-1164 | `ms` is checked before the one-letter units, and a bare number counts as seconds |
| HubNames.NotMillis | codex_hub_core.py:1154 | text not ending in `ms` is not read as milliseconds |
| HubNames.DurationWithUnit | codex_hub_core.py:1156-1163 | `<n>s`, `<n>m`, `<n>h` and `<n>d` give n times 1, 60, 3600 and 86400 seconds |
| HubNames.DurationBare | codex_hub_core.py:1164 | a bare number is seconds |
| HubNames.DurationMillis | codex_hub_core.py:1154-1155 | `<n>ms` gives n div 1000 seconds, at least 1 |
| HubNames.DurationUnitAlone | codex_hub_core.py:1165-1166 | a unit without a number fails to parse and gives the default |
| HubNames.DurationWord | codex_hub_core.py:1165-1166 | a word that is no duration gives the default |
| HubNames.HubDefaults | codex_hub_core.py:164-169 | the hub's default check-in `10m` is 600 seconds and its default budget `45m` 2700 |
| HubNames.ParseDuration | codex_hub_core.py:1148-1166 | reference definition of `_parse_duration` on whole numbers; its properties are `DurationDefault`, `DurationWithUnit`, `DurationBare`, `DurationMillis`, `DurationUnitAlone` and `DurationWord` |
| HubModel.MakeConfig | codex_hub_core.py:156-180 | a negative WIP limit is clamped to 0, and check-in and budget parse with defaults 600 and 2700 seconds |
| HubModel.InitialValid | codex_hub_core.py:181-213 | the state `__init__` leaves satisfies the registry and log invariants |
| HubModel.Emit | codex_hub_core.py:791-795 | a broadcast appends exactly one event, numbered one past the last |
| HubModel.EmitKeepsLogValid | codex_hub_core.py:791-795 | a broadcast keeps the events numbered 1, 2, 3, … and changes no registry |
| HubModel.MarkDirtySet | codex_hub_core.py:812-816 | marking dirty adds the agent to the set exactly when it is neither empty nor the orchestrator |
| HubModel.AgentLines | codex_hub_core.py:862-865 | each dirty agent contributes its status line and at most one summary line |
| HubModel.AgentEvent | codex_hub_core.py:866-871 | an agent's event object names the agent right after its type |
| HubModel.DigestLines | codex_hub_core.py:855-865 | the agent lines are empty exactly when no agent is dirty |
| HubModel.DigestEvents | codex_hub_core.py:855-872 | there is one event per dirty agent, in order |
| HubModel.PushDecision | codex_hub_core.py:901-902 | the decision log keeps at most its last 100 records and ends with the new one |
| HubModel.RecentDecisions | codex_hub_core.py:907-910 | a non-positive count gives nothing; otherwise the last `count` records, or all of them |
| HubModel.DigestStartsWithHeader | codex_hub_core.py:848-886 | a digest always starts with its header and is never blank, so the `(no updates)` fallback is never used |
| HubModel.DigestCoversDirty | codex_hub_core.py:855-872 | the digest visits the dirty agents in sorted order, each exactly once |
| HubModel.DigestWithoutUpdates | codex_hub_core.py:877-878 | with no dirty agent the digest says it awaits check-ins |
| HubModel.DigestSent | codex_hub_core.py:887-905 | a sent digest goes to the orchestrator, clears dirty and extra blocks, stamps the send time and logs the decision, with no registry changed |
| HubModel.DigestDebounced | codex_hub_core.py:839-846 | nothing is sent with nothing pending, or within the debounce window |
| HubModel.DigestKeepsValid | codex_hub_core.py:839-905 | sending or maybe sending a digest keeps the invariants and changes no registry |
| HubModel.MaybeDigestCases | codex_hub_core.py:839-846 | `_maybe_send_digest` either does nothing or sends an unforced digest |
| HubModel.SendDigestShape | codex_hub_core.py:887-905 | sending a digest keeps the log numbered and changes no registry |
| HubModel.SendDigestRegistry | codex_hub_core.py:887-905 | sending a digest changes no registry |
| HubModel.SendDigestUnfold | codex_hub_core.py:896-905 | a sent digest is the send, the decision broadcast, then the dirty set cleared |
| HubModel.SendDigestIdle | codex_hub_core.py:888-891 | without an orchestrator, or with nothing pending and no force, nothing changes |
| HubModel.SendDigestLog | codex_hub_core.py:887-905 | sending a digest keeps the log numbered |
| HubModel.ClearDirtyLogValid | codex_hub_core.py:905 | clearing the dirty set keeps the log invariant |
| HubModel.DecisionLogBounded | codex_hub_core.py:205 | the decision log never exceeds 100 records and grows by one while below that |
| HubModel.DigestText | codex_hub_core.py:848-885 | reference definition of `_build_digest_text`; its properties are `DigestStartsWithHeader`, `DigestCoversDirty`, `DigestWithoutUpdates` and `DigestSent` |
| HubModel.SendDigest | codex_hub_core.py:887-906 | reference definition of `_send_digest`; its properties are `DigestSent`, `SendDigestIdle`, `SendDigestUnfold`, `SendDigestShape`, `SendDigestRegistry`, `SendDigestLog` and `DigestKeepsValid` |
| HubModel.MaybeDigest | codex_hub_core.py:839-846 | reference definition of `_maybe_send_digest`; its properties are `DigestDebounced`, `MaybeDigestCases` and `DigestKeepsValid` |
| HubModel.SendOrch | codex_hub_core.py:706-709 | reference definition of `_send_orch`: one message to the orchestrator's conversation, nothing before it exists; its properties are `HubRegistry.SendOrchNotice` and `HubPolicy.SendOrchFollows` |
| HubModel.MarkDirty | codex_hub_core.py:812-816 | reference definition of `_mark_dirty`: the agent joins the dirty set unless it is empty or the orchestrator; its property is `MarkDirtySet` |
| HubRegistry.Without | codex_hub_core.py:764-773 | removing an agent from the registration order keeps every other agent and a list without repeats |
| HubRegistry.DropHolder | codex_hub_core.py:774-776 | exactly the issues held by the closed agent are dropped, and the rest keep their holder |
| HubRegistry.SendOrchNotice | codex_hub_core.py:706-709 | a notice to the orchestrator is one message to its conversation, or nothing without one |
| HubRegistry.MaybeDigestShape | codex_hub_core.py:839-846 | a maybe-digest changes no registry, only appends calls and events, and at most clears the dirty set |
| HubRegistry.SpawnMissingName | codex_hub_core.py:712-714 | a spawn without a name only tells the orchestrator so |
| HubRegistry.SpawnExisting | codex_hub_core.py:715-722 | a spawn of an existing key forwards the task to that agent and says so, registering nothing |
| HubRegistry.SpawnRegisters | codex_hub_core.py:715-744 | a new agent is registered under its normalised key, with its conversation, state idle and fresh metadata |
| HubRegistry.SpawnAnnounces | codex_hub_core.py:723-750 | the conversation is created with the system prefix and the task, then `agent_added` and `agent_state idle` are broadcast in that order |
| HubRegistry.SpawnStages | codex_hub_core.py:744-750 | after registration the announcements and the digest change no registry |
| HubRegistry.SpawnEvents | codex_hub_core.py:745-746 | the two spawn broadcasts carry the next two sequence numbers |
| HubRegistry.AnnounceShape | codex_hub_core.py:745-747 | the announcements append exactly two events and change no registry |
| HubRegistry.AddAgentValid | codex_hub_core.py:732-744 | registering a new key with a fresh conversation keeps the registry invariant |
| HubRegistry.AddAgentKeys | codex_hub_core.py:732-744 | registering keeps every per-agent map keyed by registered agents |
| HubRegistry.AddAgentOrder | codex_hub_core.py:733 | registering appends the key to the order without a repeat |
| HubRegistry.AddAgentFiled | codex_hub_core.py:732-734 | registering keeps each agent filed under its own key and conversation |
| HubRegistry.AddAgentConvs | codex_hub_core.py:734 | registering keeps the conversation map pointing at registered agents |
| HubRegistry.SpawnValid | codex_hub_core.py:711-750 | `spawn_sub` keeps the hub's invariants in every branch |
| HubRegistry.SendUnknown | codex_hub_core.py:752-757 | sending to an unknown name only produces the "no such sub-agent" notice, with the name as given |
| HubRegistry.SendKnown | codex_hub_core.py:758-762 | sending to a known agent forwards the task, refreshes its last-event time and reports the key |
| HubRegistry.SendValid | codex_hub_core.py:752-762 | `send_to_sub` keeps the hub's invariants |
| HubRegistry.TouchMetaValid | codex_hub_core.py:759-761 | replacing an agent's metadata keeps the registry invariant |
| HubRegistry.LogCarries | codex_hub_core.py:791-795 | a state with the same log and dirty set stays log-valid |
| HubRegistry.CloseUnknown | codex_hub_core.py:764-769 | closing an unknown name only produces the "no such sub-agent" notice |
| HubRegistry.CloseKnown | codex_hub_core.py:764-779 | closing a known agent unregisters it, broadcasts `agent_removed`, then notifies the orchestrator |
| HubRegistry.UnregisterForgets | codex_hub_core.py:766-776 | the closed key leaves every map and the conversation index, no issue stays held by it, and every other agent is kept unchanged |
| HubRegistry.UnregisterValid | codex_hub_core.py:766-776 | unregistering keeps the registry invariant |
| HubRegistry.UnregisterKeys | codex_hub_core.py:766-776 | unregistering keeps the per-agent maps keyed by registered agents |
| HubRegistry.UnregisterFiled | codex_hub_core.py:766-772 | unregistering keeps the others filed under their own keys |
| HubRegistry.UnregisterConvs | codex_hub_core.py:772 | unregistering keeps the conversation map pointing at registered agents |
| HubRegistry.CloseValid | codex_hub_core.py:764-779 | `close_sub` keeps the hub's invariants |
| HubRegistry.WithoutAbsent | codex_hub_core.py:766 | removing an absent key from the order changes nothing |
| HubRegistry.WithoutLast | codex_hub_core.py:733-766 | removing the key just appended restores the order |
| HubRegistry.UpdateThenRemove | codex_hub_core.py:732-776 | adding then popping a fresh key restores a map |
| HubRegistry.CloseUndoesSpawn | codex_hub_core.py:732-776 | closing an agent just registered restores the registry exactly |
| HubRegistry.NoIssueHeld | codex_hub_core.py:774-776 | an unregistered key holds no issue |
| HubRegistry.SetStateUnchanged | codex_hub_core.py:781-784 | setting the current state again changes nothing |
| HubRegistry.SetStateChanges | codex_hub_core.py:785-789 | a new state is recorded and broadcast next; a sub-agent is also marked dirty, the orchestrator never |
| HubRegistry.SetStateValid | codex_hub_core.py:781-789 | `_set_state` keeps the hub's invariants |
| HubRegistry.AutopilotChanges | codex_hub_core.py:286-296 | a change of autopilot clears the warning flag, broadcasts `autopilot_state` and tells the orchestrator, touching no registry |
| HubRegistry.AutopilotIdempotent | codex_hub_core.py:287-288 | setting autopilot twice to the same value is setting it once |
| HubRegistry.AutopilotValid | codex_hub_core.py:286-296 | `set_autopilot` keeps the hub's invariants |
| HubRegistry.SpawnSub | codex_hub_core.py:711-750 | reference definition of `spawn_sub`: the missing-name notice, forwarding to an existing agent, or registering and announcing a new one; its properties are `SpawnMissingName`, `SpawnExisting`, `SpawnRegisters`, `SpawnAnnounces` and `SpawnValid` |
| HubRegistry.SendToSub | codex_hub_core.py:752-762 | reference definition of `send_to_sub`; its properties are `SendUnknown`, `SendKnown` and `SendValid` |
| HubRegistry.CloseSub | codex_hub_core.py:764-779 | reference definition of `close_sub`; its properties are `CloseUnknown`, `CloseKnown`, `CloseValid` and `CloseUndoesSpawn` |
| HubRegistry.SetState | codex_hub_core.py:781-789 | reference definition of `_set_state`; its properties are `SetStateUnchanged`, `SetStateChanges` and `SetStateValid` |
| HubRegistry.SetAutopilot | codex_hub_core.py:286-296 | reference definition of `set_autopilot`; its properties are `AutopilotChanges`, `AutopilotIdempotent` and `AutopilotValid` |
| HubRegistry.Register | codex_hub_core.py:723-742 | reference definition of the registration in `spawn_sub`: the `create_conversation` call and the new entries; its properties are `SpawnRegisters`, `SpawnStages` and `AddAgentValid` |
| HubRegistry.SpawnNew | codex_hub_core.py:723-750 | reference definition of the new-agent branch of `spawn_sub`; its properties are `SpawnRegisters`, `SpawnAnnounces`, `SpawnStages` and `SpawnEvents` |
| HubRegistry.Unregister | codex_hub_core.py:766-776 | reference definition of the entries `close_sub` removes; its properties are `UnregisterForgets`, `UnregisterValid` and `CloseUndoesSpawn` |
| HubRegistry.NewMeta | codex_hub_core.py:738-744 | reference definition of a new `AgentMeta`: started and last active now, the hub's default check-in and budget, and the workspace; `SpawnRegisters` states that the new agent gets it |
| HubRegistry.AddAgent | codex_hub_core.py:734-748 | reference definition of the registry entries of a new agent: filed under its key with an idle state, its conversation indexed, its metadata, and a check-in of -1; its properties are `AddAgentValid`, `AddAgentKeys`, `AddAgentOrder`, `AddAgentFiled`, `AddAgentConvs` and `UpdateThenRemove` |
| HubRegistry.Announce | codex_hub_core.py:745-747 | reference definition of the `agent_added` and idle `agent_state` broadcasts and the spawned notice; its property is `AnnounceShape` |
| HubRegistry.CloseKey | codex_hub_core.py:766-779 | reference definition of `close_sub` after normalising: the refusal notice for an unknown key, else unregistering, `agent_removed` and the closed notice; its properties are `CloseUnknown`, `CloseKeyKnown` and `CloseUndoesSpawn` |
| HubRegistry.CloseKeyKnown | codex_hub_core.py:770-779 | closing a known key unregisters it, broadcasts exactly one `agent_removed` with the next sequence number and sends the closed notice, and changes neither autopilot nor the dirty set |
| HubRegistry.Workspace | codex_hub_core.py:728 | reference definition of `cwd or self.default_cwd or os.getcwd()`; `SpawnRegisters` states that the conversation is created there |
| HubPolicy.KindOf | codex_hub_core.py:543-642 | a block is dispatched on `exec`, then `status`, `fetch`, `spawn`, `send`, `close`, and is ignored exactly when it has none of them |
| HubPolicy.Strs | codex_hub_core.py:547-548 | the argv list keeps one entry per item |
| HubPolicy.Permitted | codex_hub_core.py:543-548 | a block runs a command only with autopilot on, dangerous mode on, an `exec` key, a `run_exec` that does not raise, and an argv the default allow-list accepts |
| HubPolicy.PermittedAllSafe | codex_hub_core.py:516-548 | every command a message's blocks run was admitted by autopilot, dangerous mode and the allow-list |
| HubPolicy.SendOrchFollows | codex_hub_core.py:706-709 | a notice extends the history, runs nothing and changes no registry |
| HubPolicy.EmitFollows | codex_hub_core.py:791-795 | a broadcast extends the history, runs nothing and changes no registry |
| HubPolicy.SpawnFollows | codex_hub_core.py:711-750 | `spawn_sub` only extends the history and runs no command |
| HubPolicy.SpawnNewFollows | codex_hub_core.py:723-750 | registering a new agent only extends the history and runs no command |
| HubPolicy.SendFollows | codex_hub_core.py:752-762 | `send_to_sub` only extends the history and runs no command |
| HubPolicy.CloseFollows | codex_hub_core.py:764-779 | `close_sub` only extends the history and runs no command |
| HubPolicy.ExecFollows | codex_hub_core.py:543-559 | an `exec` block with autopilot on runs exactly its permitted commands and changes no registry |
| HubPolicy.RunCommandFollows | codex_hub_core.py:547-559 | a run broadcasts its output and reports failure, recording the command only when the allow-list admits it |
| HubPolicy.StatusFollows | codex_hub_core.py:561-572 | a `status` block runs no command and changes no registry |
| HubPolicy.FetchFollows | codex_hub_core.py:574-595 | a `fetch` block runs no command and changes no registry |
| HubPolicy.BlockCommands | codex_hub_core.py:526-642 | one block keeps the log valid, the autopilot flag, and runs exactly its permitted commands |
| HubPolicy.BlockFollows | codex_hub_core.py:526-642 | one block only extends the history |
| HubPolicy.SpawnBlockFollows | codex_hub_core.py:597-615 | a `spawn` block only extends the history and runs no command |
| HubPolicy.BlocksCommands | codex_hub_core.py:523-524 | a message's blocks run exactly the permitted commands of each block handled, in order, up to the block that raises |
| HubPolicy.BlocksFollow | codex_hub_core.py:523-524 | a message's blocks only extend the history |
| HubPolicy.TextCommands | codex_hub_core.py:516-524 | an orchestrator message runs only commands allowed by autopilot, dangerous mode and the allow-list: those of its extracted blocks up to the first that raises, in order |
| HubPolicy.SuppressShape | codex_hub_core.py:527-541 | with autopilot off a block is broadcast as suppressed, with the warning sent only the first time |
| HubPolicy.WarnOnce | codex_hub_core.py:527-541 | with autopilot off a message's blocks run nothing, change no registry, emit one event each and warn at most once |
| HubPolicy.WarnAgainAfterToggle | codex_hub_core.py:286-290 | switching autopilot on and off again re-arms the warning |
| HubPolicy.AutopilotLog | codex_hub_core.py:286-296 | `set_autopilot` keeps the log numbered |
| HubPolicy.FreshCarries | codex_hub_core.py:723-734 | fresh conversation ids stay fresh as calls are added and conversations removed |
| HubPolicy.SpawnKeeps | codex_hub_core.py:711-750 | `spawn_sub` keeps the hub's invariants and the freshness of new ids |
| HubPolicy.SpawnFresh | codex_hub_core.py:723-744 | a successful spawn adds exactly one agent |
| HubPolicy.CloseKeeps | codex_hub_core.py:764-779 | `close_sub` keeps the invariants and adds no agent |
| HubPolicy.SendKeeps | codex_hub_core.py:752-762 | `send_to_sub` keeps the invariants and adds no agent |
| HubPolicy.BlockValid | codex_hub_core.py:526-642 | one block keeps the invariants, and adds an agent only where a spawn is allowed |
| HubPolicy.SpawnBlockValid | codex_hub_core.py:597-615 | a `spawn` block at the WIP limit adds no agent |
| HubPolicy.BlocksValid | codex_hub_core.py:523-524 | a message's blocks keep the invariants and never push the agent count past a non-zero WIP limit |
| HubPolicy.TextValid | codex_hub_core.py:516-524 | an orchestrator message keeps the invariants and the WIP bound |
| HubPolicy.ExecRefused | codex_hub_core.py:543-546 | without dangerous mode an `exec` block only produces the refusal notice |
| HubPolicy.SpawnRefusedAtLimit | codex_hub_core.py:602-606 | at the WIP limit a spawn with an object spec only produces the limit notice, naming the requested agent |
| HubPolicy.UnknownBlockIgnored | codex_hub_core.py:526-642 | with autopilot on, a block with no known key changes nothing |
| HubPolicy.SpawnBelowLimit | codex_hub_core.py:597-615 | below the limit a spawn of a new name registers it with the block's `cwd` or the default directory |
| HubPolicy.AutoapproveDecision | codex_hub_core.py:666-688 | for a request whose description does not raise, the reply is `approved` exactly when dangerous mode and autopilot are both on, `denied` otherwise; the raising case is `ApprovalRaises` |
| HubPolicy.DenialExplained | codex_hub_core.py:679-701 | for a request whose description does not raise, a denial gives the first failing reason, in the status broadcast and in the note to the orchestrator |
| HubPolicy.ApprovalQuiet | codex_hub_core.py:680-694 | for a request whose description does not raise, an approval broadcasts its status and sends the orchestrator nothing |
| HubPolicy.AutoapproveUnsent | codex_hub_core.py:686-689 | when the reply cannot be sent nothing else happens |
| HubPolicy.RequestKeeps | codex_hub_core.py:381-388 | a server request only extends the history and changes no registry |
| HubPolicy.AutoapproveKeeps | codex_hub_core.py:666-701 | an approval only extends the history and changes no registry |
| HubPolicy.RequestWithoutId | codex_hub_core.py:382-383 | a request without an id is ignored |
| HubPolicy.RequestUnhandled | codex_hub_core.py:384-388 | any other method gets error -32601 `Unhandled request: <method>` |
| HubPolicy.RequestIgnoresCase | codex_hub_core.py:384-386 | the approval methods are recognised case-insensitively |
| HubPolicy.KeyList | local_exec.py:40 | `list` of an object gives each key once, and gives exactly the object's keys |
| HubPolicy.Chars | local_exec.py:40 | `list` of a string gives one one-character string per character, in order |
| HubPolicy.ListItems | local_exec.py:40 | `list(x or [])` fails exactly for a truthy value that is not an array, a string or an object |
| HubPolicy.Handled | codex_hub_core.py:523-524 | the blocks handled are a prefix of the message, and not empty for a message with blocks |
| HubPolicy.BlocksStep | codex_hub_core.py:523-524 | one step of the loop: a raising block ends it with the state it left, any other block is followed by the rest |
| HubPolicy.SendBlockValid | codex_hub_core.py:617-629 | a `send` block keeps the invariants and adds no agent, raising or not |
| HubPolicy.CloseBlockValid | codex_hub_core.py:631-642 | a `close` block keeps the invariants and adds no agent, raising or not |
| HubPolicy.RaiseLeavesRegistry | codex_hub_core.py:597-642 | a block that raises sends nothing, starts nothing, queues nothing and registers nothing; at most the `orch_to_agent` broadcast has gone out |
| HubPolicy.RaiseEndsMessage | codex_hub_core.py:523-524 | the exception leaves the loop, so the blocks after a raising one are never handled |
| HubPolicy.WellFormedAllHandled | codex_hub_core.py:523-524 | when no block of a message is malformed, every block is handled |
| HubPolicy.SpawnNullEndsMessage | codex_hub_core.py:598-599 | `{"spawn": null}` raises at `spec.get` before any broadcast, and the rest of the message is lost |
| HubPolicy.SendToNumberRaises | codex_hub_core.py:617-628 | a `send` to a number is broadcast, then raises in `normalise_agent_name` |
| HubPolicy.ArgvStringSplits | local_exec.py:40 | a string `argv` is read as the list of its characters |
| HubPolicy.HandleOrchestratorText | codex_hub_core.py:516-524 | reference definition: broadcast the text without its control blocks when any is left, then `HandleBlocks` on the extracted blocks; its properties are `TextCommands` and `TextValid` |
| HubPolicy.HandleControlBlock | codex_hub_core.py:526-642 | reference definition of one block: suppressed without autopilot, else dispatched on `KindOf`; its properties are `BlockCommands`, `BlockFollows`, `BlockValid` and `RaiseLeavesRegistry` |
| HubPolicy.HandleBlocks | codex_hub_core.py:523-524 | reference definition of the loop: each block in turn, stopping after the first that raises; its properties are `BlocksCommands`, `BlocksFollow`, `BlocksValid` and `WarnOnce` |
| HubPolicy.Raises | codex_hub_core.py:543-642 | reference definition of where a block raises: `run_exec` on a malformed spec, `.get` on a non-object spec, `.strip`/`.lower` on a non-string text or name; used by `RaiseEndsMessage` and `WellFormedAllHandled` |
| HubPolicy.ExecRaises | local_exec.py:36-57 | reference definition of where `run_exec` raises: `dict`/`list` on the wrong kind of value, a non-string argv item, and for a permitted command a non-string `cwd` or an environment the process refuses |
| HubPolicy.ExecBlock | codex_hub_core.py:543-559 | reference definition of the `exec` branch; its property is `ExecFollows` (exactly the permitted command runs) and `ExecRefused` |
| HubPolicy.StatusBlock | codex_hub_core.py:561-572 | reference definition of the `status` branch; its property is `StatusFollows` |
| HubPolicy.FetchBlock | codex_hub_core.py:574-595 | reference definition of the `fetch` branch; its property is `FetchFollows` |
| HubPolicy.FetchResult | codex_hub_core.py:584-592 | reference definition of the digest block and note for a loaded or missing artifact, through `Artifacts.Load` |
| HubPolicy.SpawnBlock | codex_hub_core.py:597-615 | reference definition of the `spawn` branch; its properties are `SpawnBlockFollows`, `SpawnBlockValid`, `SpawnRefusedAtLimit` and `SpawnBelowLimit` |
| HubPolicy.SendBlock | codex_hub_core.py:617-629 | reference definition of the `send` branch; its properties are `SendBlockFollows` and `SendBlockValid` |
| HubPolicy.CloseBlock | codex_hub_core.py:631-642 | reference definition of the `close` branch; its properties are `CloseBlockFollows` and `CloseBlockValid` |
| HubPolicy.SpecOf | codex_hub_core.py:547 | reference definition of `block.get(key) or {}` |
| HubPolicy.PyInt | codex_hub_core.py:579 | reference definition of `int(x)` on a JSON value, `None` where it raises |
| HubPolicy.MaxCharsOf | codex_hub_core.py:577-581 | reference definition of the `max_chars` reading with its fall-back of 4000 |
| HubPolicy.ArgvOf | local_exec.py:40 | reference definition of `list(spec.get("argv") or [])` as strings; `ArgvStringSplits` shows the string case |
| HubPolicy.Autoapprove | codex_hub_core.py:666-701 | reference definition of `_autoapprove`, which changes nothing when the description raises; its properties are `ApprovalRaises`, `AutoapproveDecision`, `DenialExplained`, `ApprovalQuiet`, `AutoapproveUnsent` and `AutoapproveKeeps` |
| HubPolicy.HandleRequest | codex_hub_core.py:381-388 | reference definition of `_handle_request`; its properties are `ApprovalRaises`, `RequestKeeps`, `RequestWithoutId`, `RequestUnhandled` and `RequestIgnoresCase` |
| HubPolicy.DescribeRaises | codex_hub_core.py:672-673 | where `_autoapprove` raises: an `execCommandApproval` whose parameters are truthy but not an object, or whose `command` list holds a non-string item; used by `ApprovalRaises`, `ApplyPatchNeverRaises`, `NonStringCommandRaises` and `StringCommandDescribed` |
| HubPolicy.ApprovalRaises | codex_hub_core.py:672-688 | a request whose description raises gets no reply, no status and no note, whatever the switches and whether the reply could be sent |
| HubPolicy.ApplyPatchNeverRaises | codex_hub_core.py:674-675 | `applyPatchApproval` never reads its parameters, so it never raises |
| HubPolicy.NonStringCommandRaises | codex_hub_core.py:673 | `{"command": ["ls", 1]}` raises at `" ".join`, and parameters `[1]` raise at `params.get` |
| HubPolicy.StringCommandDescribed | codex_hub_core.py:672-674 | `{"command": ["ls", "-l"]}` does not raise and is described as `exec command ls -l` |
| HubPolicy.Describe | codex_hub_core.py:670-677 | reference definition of the description: the joined command, `apply patch`, or the method name; its properties are `StringCommandDescribed`, `DenialExplained` and `ApprovalQuiet` |
| HubPolicy.DenialReason | codex_hub_core.py:679 | reference definition of the denial reason, autopilot named before dangerous mode; its property is `DenialExplained` |
| HubPolicy.Approves | codex_hub_core.py:667 | reference definition of the approval rule, both switches on; its properties are `AutoapproveDecision`, `ApprovalQuiet` and `DenialExplained` |
| HubPolicy.Verdict | codex_hub_core.py:680-701 | reference definition of the status broadcast and the denial note after a reply; its properties are `ApprovalQuiet` and `DenialExplained` |
| HubPolicy.Suppress | codex_hub_core.py:527-541 | reference definition of the autopilot-off path: the `autopilot_suppressed` broadcast of the block under its first key, and the disabled warning to the orchestrator only while the once-flag is unset; its properties are `SuppressShape`, `WarnOnce` and `WarnAgainAfterToggle` |
| HubPolicy.ExecReport | codex_hub_core.py:549-555 | reference definition of the `exec>`/`cwd:`/`code:`/`stdout:`/`stderr:` report text; `RunCommandFollows` states that it is what the user is shown |
| HubPolicy.ExecResultOf | codex_hub_core.py:547-548 | reference definition of `run_exec(block.get("exec") or {})`: the argv of the spec, its cwd when truthy, and the runner's outcome in the directory `run_exec` chooses; its properties are `ExecFollows` and `BlockCommands` |
| HubPolicy.RunCommand | codex_hub_core.py:547-559 | reference definition of running a permitted command: the run is recorded only when the allow-list admits it, the report is broadcast as `orch_to_user`, and a failure is reported to the orchestrator with its exit code; its property is `RunCommandFollows` |
| HubPolicy.StatusPosted | codex_hub_core.py:565-571 | reference definition of the `status_posted` broadcast with scope `issue#…` or `project`, followed by an issue comment only when `gh` is at hand, the issue is truthy and reads as an integer and the text is not blank; its property is `StatusFollows` |
| HubPolicy.AtWipLimit | codex_hub_core.py:602 | reference definition of the WIP test: a non-zero limit that the number of agents has reached; its properties are `SpawnRefusedAtLimit`, `SpawnBlockValid` and `SpawnBelowLimit` |
| HubPolicy.FirstKey | codex_hub_core.py:528 | reference definition of `next(iter(block), "control")`; `SuppressShape` states the summary it gives |
| HubPolicy.NameOf | codex_hub_core.py:599 | reference definition of a name read with `spec.get`: present only for a string value; its properties are `SpawnBelowLimit` and `SpawnRefusedAtLimit` |
| HubPolicy.OptStr | codex_hub_core.py:601 | reference definition of `spec.get(key) or fallback` for a string option; `SpawnBelowLimit` states that the cwd or the default is used |
| HubPolicy.StatusRaises | codex_hub_core.py:562-564 | reference definition of the status raise: a truthy non-object spec, or a truthy non-string text; its property is `RaiseLeavesRegistry` |
| HubPolicy.AgentSpecRaises | codex_hub_core.py:598-599 | reference definition of the spawn, send and close raise: `block[key]` that is not an object fails at `spec.get`; its properties are `SpawnNullEndsMessage` and `SendToNumberRaises` |
| HubPolicy.EnvRefused | local_exec.py:42-51 | reference definition of an environment `subprocess.run` refuses: a name holding `=` or a value that is not a string; its property is `RaiseLeavesRegistry` |
| HubTimers.CheckinDelta | codex_hub_core.py:919-922 | the delta is -1 exactly when the agent never checked in, otherwise the non-negative seconds since |
| HubTimers.TimeoutBlocks | codex_hub_core.py:918-931 | at most one timeout block per agent |
| HubTimers.StampedEntries | codex_hub_core.py:918-923 | the pass records a delta for every listed agent and keeps the other entries |
| HubTimers.StampedDeltas | codex_hub_core.py:918-923 | stamping in registration order gives every registered agent its current delta |
| HubTimers.WatchStep | codex_hub_core.py:918-931 | one agent's step records its delta and queues a timeout exactly when its threshold is non-zero and the delta exceeds it |
| HubTimers.TimeoutIff | codex_hub_core.py:924-931 | an agent gets a timeout block exactly when it is visited and has timed out |
| HubTimers.TimeoutBlocksSound | codex_hub_core.py:924-931 | every timeout block belongs to a visited agent that timed out |
| HubTimers.WatchdogRecords | codex_hub_core.py:916-933 | a watchdog pass stores every agent's delta, queues the timeouts, and calls the digest only when one was queued |
| HubTimers.DigestExtras | codex_hub_core.py:839-905 | a maybe-digest either keeps the extra blocks or clears them |
| HubTimers.WatchdogValid | codex_hub_core.py:912-935 | a watchdog pass keeps the hub's invariants |
| HubTimers.Ticked | codex_hub_core.py:942-948 | a tick sends at most one nudge and never more than the maximum, exactly when one is due, and marks wrap-up when it is due, changing nothing else |
| HubTimers.Listed | codex_hub_core.py:941 | the pass visits exactly the agents with metadata, without repeats |
| HubTimers.StepCounters | codex_hub_core.py:942-948 | one step stores the ticked counters and sends the due nudge and wrap-up messages, in that order |
| HubTimers.CloseOnly | codex_hub_core.py:764-779 | closing an agent removes it from the agents and the metadata and keeps every other agent's metadata |
| HubTimers.StepEffect | codex_hub_core.py:942-950 | one step ticks the agent and closes it exactly when its close is due |
| HubTimers.StepClosed | codex_hub_core.py:949-950 | a step that closes the agent removes it and keeps the others |
| HubTimers.ComposeFacts | codex_hub_core.py:941-950 | the step facts of one agent and of the rest compose into those of the pass |
| HubTimers.ComposeSubs | codex_hub_core.py:941-950 | after the pass exactly the agents whose close was not due remain |
| HubTimers.ComposeMeta | codex_hub_core.py:941-950 | after the pass each visited agent's metadata is its ticked copy |
| HubTimers.SkipFacts | codex_hub_core.py:941 | an agent already gone from the metadata is skipped |
| HubTimers.SnapCarries | codex_hub_core.py:941 | the copy taken at the start still agrees with the live metadata for the agents not yet visited |
| HubTimers.OverEffect | codex_hub_core.py:941-950 | the loop over the copied metadata ticks every visited agent and closes exactly those due |
| HubTimers.OverStep | codex_hub_core.py:941-950 | the first visited agent's step followed by the rest gives the pass facts |
| HubTimers.StepValid | codex_hub_core.py:941-950 | one step keeps the hub's invariants |
| HubTimers.OverValid | codex_hub_core.py:941-950 | the whole loop keeps the hub's invariants |
| HubTimers.SchedulerEffect | codex_hub_core.py:938-952 | after a scheduler pass exactly the agents not due for closing remain, each with its ticked metadata |
| HubTimers.SchedulerNudgesBounded | codex_hub_core.py:943-945 | no agent ever gets more nudges than its maximum |
| HubTimers.WrapUpOnce | codex_hub_core.py:946-948 | once wrap-up is asked it stays marked and is never asked again |
| HubTimers.WatchdogPass | codex_hub_core.py:916-933 | reference definition of one watchdog pass over the agents in insertion order; its properties are `WatchdogRecords` and `WatchdogValid` |
| HubTimers.SchedulerPass | codex_hub_core.py:938-952 | reference definition of one scheduler pass; its properties are `SchedulerEffect`, `SchedulerNudgesBounded`, `WrapUpOnce` and `OverValid` |
| HubTimers.TimedOut | codex_hub_core.py:924-926 | reference definition of a check-in timeout: the agent's own threshold, or the hub default without metadata, is non-zero, and the delta is known and exceeds it; its properties are `TimeoutBlocks`, `WatchStep` and `WatchdogRecords` |
| HubTimers.Threshold | codex_hub_core.py:924-925 | reference definition of the agent's check-in threshold, falling back to the hub default; `WatchStep` states its use |
| HubTimers.NudgeDue | codex_hub_core.py:944 | reference definition of the nudge condition: silent for longer than the check-in interval with nudges left; `Ticked` states that exactly then one more nudge is counted |
| HubTimers.WrapUpDue | codex_hub_core.py:947 | reference definition of the wrap-up condition: past the time budget and not yet asked; `Ticked` and `WrapUpOnce` state that the latch is then set and asked once |
| HubTimers.CloseDue | codex_hub_core.py:950 | reference definition of the close condition: wrapping up and silent for more than 60 seconds; its properties are `StepEffect` and `SchedulerEffect` |
| HubTimers.MessageTo | codex_hub_core.py:1007-1027 | reference definition of `_nudge_agent` and `_ask_wrap_up`: one message to the agent's conversation, or nothing when the agent is gone; `StepCounters` states the messages sent |
| HubTimers.Counted | codex_hub_core.py:944-949 | reference definition of the nudge, the wrap-up request and the ticked counters of one agent; its property is `StepCounters` |
| HubTimers.SchedulerStep | codex_hub_core.py:942-951 | reference definition of the scheduler's body for one agent: the counted step, then `close_sub` once the agent is due to close; its properties are `StepEffect`, `StepClosed` and `StepValid` |
| HubTimers.SchedulerOver | codex_hub_core.py:942-951 | reference definition of the loop over the `list(self.agent_meta.items())` copy, skipping an agent whose entry was in that copy; its properties are `OverEffect`, `OverValid` and `SchedulerEffect` |
| HubPoll.Ready | codex_hub_core.py:966-974 | an issue is ready exactly when it is not held, not closed and has no open blocker |
| HubPoll.Admitted | codex_hub_core.py:975-976 | the admitted issues are a prefix of the ready ones, never push a non-zero WIP limit past the agents already running, and stop short only at that limit |
| HubPoll.IssueNameIsKey | codex_hub_core.py:986 | `iss<n>` is a registry key that normalises to itself |
| HubPoll.SpawnKeepsIssues | codex_hub_core.py:711-750 | spawning changes no issue holder |
| HubPoll.SpawnHolds | codex_hub_core.py:711-750 | after a spawn of a key the agent exists and has metadata |
| HubPoll.AdmitKeeps | codex_hub_core.py:977-1003 | admitting an issue keeps the invariants, adds at most one agent, and records that agent as the issue's holder |
| HubPoll.AdmitFiles | codex_hub_core.py:988-993 | the admitted agent's metadata records the issue and the check-in and budget from its labels, or the defaults |
| HubPoll.HoldersFacts | codex_hub_core.py:1003 | each admitted issue ends up held by its own agent and the others are kept |
| HubPoll.HeldCompose | codex_hub_core.py:1003 | one issue's holder and the rest's compose |
| HubPoll.AdmitAllKeeps | codex_hub_core.py:977-1003 | admitting a list keeps the invariants and adds at most one agent per issue |
| HubPoll.AdmitAllHeld | codex_hub_core.py:977-1003 | admitting a list records exactly the issues' agents as holders |
| HubPoll.PollHeld | codex_hub_core.py:966-1003 | existing holders are kept, and every new holder is the `iss<n>` agent of a listed ready issue |
| HubPoll.PollKeeps | codex_hub_core.py:956-1004 | a poll keeps the invariants and the WIP bound, keeps old holders, and adds holders only for ready listed issues |
| HubPoll.NotReadySkipped | codex_hub_core.py:966-973 | a closed, held or blocked issue is never admitted |
| HubPoll.PollPass | codex_hub_core.py:956-1004 | reference definition of one poll of the listing; its properties are `PollHeld`, `PollKeeps` and `NotReadySkipped` |
| HubPoll.IsReady | codex_hub_core.py:968-975 | reference definition of a ready issue: not held, not closed, and no open blocker; its properties are `Ready` and `NotReadySkipped` |
| HubPoll.Closed | codex_hub_core.py:965 | reference definition of the closed set: the numbers of the listed issues whose state lowers to `closed`; `NotReadySkipped` states that they are never admitted |
| HubPoll.Capacity | codex_hub_core.py:976 | reference definition of `max(0, wip_limit - len(subs)) if wip_limit else len(ready)`; `Admitted` states the admitted prefix within it |
| HubPoll.PollPrompt | codex_hub_core.py:979-987 | reference definition of the issue prompt followed by the autopilot instructions handed to the issue's agent as the `spawn_sub` task in `Admit` |
| HubPoll.Filed | codex_hub_core.py:990-999 | reference definition of the metadata update: the issue number, the SLA check-in and budget or the hub defaults, and the status comment when one was made; its property is `AdmitFiles` |
| HubPoll.Admit | codex_hub_core.py:977-1002 | reference definition of the loop body for one admitted issue: `spawn_sub` under `iss<n>`, the metadata filed, and the issue recorded as held; its properties are `AdmitKeeps` and `AdmitFiles` |
| HubPoll.AdmitAll | codex_hub_core.py:977-1002 | reference definition of the loop over the admitted issues in order; its properties are `AdmitAllKeeps` and `AdmitAllHeld` |
| HubCore.Hub.constructor | codex_hub_core.py:156-213 | a new hub is in the initial state, which satisfies the invariants |
| HubCore.Hub.Broadcast | codex_hub_core.py:791-795 | the sequence number is bumped and the event appended with it |
| HubCore.Hub.SendOrch | codex_hub_core.py:706-709 | one message to the orchestrator's conversation, or nothing without one |
| HubCore.Hub.MarkDirty | codex_hub_core.py:812-816 | the agent joins the dirty set unless it is empty or the orchestrator |
| HubCore.Hub.SendDigest | codex_hub_core.py:887-905 | the fields are updated as the digest send specifies |
| HubCore.Hub.PostDigest | codex_hub_core.py:894-903 | the digest text is sent, the send time stamped and the decision logged |
| HubCore.Hub.StampSend | codex_hub_core.py:897-899 | the digest message is recorded and the send time stamped |
| HubCore.Hub.RecordDecision | codex_hub_core.py:901-902 | the decision joins the bounded log and the extra blocks are consumed |
| HubCore.Hub.MaybeSendDigest | codex_hub_core.py:839-846 | the fields are updated as the debounced digest specifies |
| HubCore.Hub.SpawnSub | codex_hub_core.py:711-750 | the fields are updated as `spawn_sub` specifies |
| HubCore.Hub.RegisterAgent | codex_hub_core.py:723-744 | the conversation is created and the agent registered |
| HubCore.Hub.EnlistAgent | codex_hub_core.py:732-734 | the agent is filed under its key, in the order, and under its conversation |
| HubCore.Hub.SeedAgent | codex_hub_core.py:735-744 | the agent's state is idle, its metadata fresh and its check-in -1 |
| HubCore.Hub.AnnounceAgent | codex_hub_core.py:745-750 | the spawn is broadcast, reported, marked dirty and digested |
| HubCore.Hub.SendToSub | codex_hub_core.py:752-762 | the fields are updated as `send_to_sub` specifies |
| HubCore.Hub.CloseSub | codex_hub_core.py:764-779 | the fields are updated as `close_sub` specifies |
| HubCore.Hub.UnregisterAgent | codex_hub_core.py:766-776 | the agent is removed from every registry |
| HubCore.Hub.DelistAgent | codex_hub_core.py:766-772 | the agent leaves the agents, the order and the conversation index |
| HubCore.Hub.ForgetAgent | codex_hub_core.py:770-773 | the agent's state, metadata and check-in are dropped |
| HubCore.Hub.SetState | codex_hub_core.py:781-789 | the fields are updated as `_set_state` specifies |
| HubCore.Hub.SetAutopilot | codex_hub_core.py:286-296 | the fields are updated as `set_autopilot` specifies |
| HubCore.Hub.Suppress | codex_hub_core.py:527-541 | a suppressed block is broadcast and the warning sent once |
| HubCore.Hub.ExecBlock | codex_hub_core.py:543-559 | the fields become what `HubPolicy.ExecBlock` gives: the refusal without dangerous mode, no change where `run_exec` raises, else the run and its report |
| HubCore.Hub.RunCommand | codex_hub_core.py:547-559 | the run is recorded, its output broadcast and a failure reported |
| HubCore.Hub.StatusBlock | codex_hub_core.py:561-572 | the fields become what `HubPolicy.StatusBlock` gives: no change where the spec or its text raises, else the broadcast and the optional issue comment |
| HubCore.Hub.FetchBlock | codex_hub_core.py:574-595 | the fields become what `HubPolicy.FetchBlock` gives: no change for a spec `.get` refuses or a missing artifact id, else the queued digest block, the note and a possible digest |
| HubCore.Hub.SpawnBlock | codex_hub_core.py:597-615 | the fields become what `HubPolicy.SpawnBlock` gives: no change for a non-object spec, the WIP notice at the limit, the broadcast alone for a non-string name, else the broadcast and `spawn_sub` |
| HubCore.Hub.SendBlock | codex_hub_core.py:617-629 | the fields become what `HubPolicy.SendBlock` gives: no change for a non-object spec, the broadcast alone for a non-string name, else the broadcast and `send_to_sub` |
| HubCore.Hub.CloseBlock | codex_hub_core.py:631-642 | the fields become what `HubPolicy.CloseBlock` gives: no change for a non-object spec, the broadcast alone for a non-string name, else the broadcast and `close_sub` |
| HubCore.Hub.HandleControlBlock | codex_hub_core.py:526-642 | the fields become what the dispatch gives, and `raised` is true exactly when the block raises (`HubPolicy.Raises`) |
| HubCore.Hub.HandleOrchestratorText | codex_hub_core.py:516-524 | the display text is broadcast and the blocks handled in order; the loop stops after a block that raises, as `HubPolicy.HandleBlocks` does |
| HubCore.Hub.Autoapprove | codex_hub_core.py:666-701 | `raised` exactly when the description raises, and the fields become what `HubPolicy.Autoapprove` gives: unchanged then or when the reply fails, else the reply, the status and a denial's note |
| HubCore.Hub.Reply | codex_hub_core.py:686-701 | the decision is sent and then announced |
| HubCore.Hub.AnnounceVerdict | codex_hub_core.py:691-701 | the status is broadcast and a denial explained to the orchestrator |
| HubCore.Hub.HandleRequest | codex_hub_core.py:381-388 | `raised` exactly for an approval request with an id whose description raises, and the fields become what `HubPolicy.HandleRequest` gives |
| HubCore.Hub.WatchdogTick | codex_hub_core.py:916-933 | one watchdog pass, as specified, keeping the invariants |
| HubCore.Hub.SchedulerTick | codex_hub_core.py:940-950 | one scheduler pass over a copy of the metadata, as specified |
| HubCore.Hub.SchedulerStep | codex_hub_core.py:942-950 | one agent's scheduler step, as specified |
| HubCore.Hub.CountStep | codex_hub_core.py:943-948 | the nudge and wrap-up sends and counters, as specified |
| HubCore.Hub.MessageAgent | codex_hub_core.py:1007-1028 | a message to the agent's conversation, or nothing for an unknown agent |
| HubCore.Hub.PollTick | codex_hub_core.py:959-1003 | one poll pass, as specified |
| HubCore.Hub.AdmitIssue | codex_hub_core.py:977-1003 | one admitted issue is spawned and filed, as specified |
| HubCore.Hub.FileIssue | codex_hub_core.py:987-1003 | the agent's metadata takes the issue and its labels, and the issue its holder |
| HubCore.Hub.StoreCheckins | codex_hub_core.py:923-931 | the deltas and queued timeouts are stored |
| HubCore.ScanCheckins | codex_hub_core.py:918-931 | the loop computes the deltas of every agent and the timeout blocks, dirty exactly when one was queued |
| HubCore.CollectReady | codex_hub_core.py:966-974 | the loop with its early continues collects exactly the ready issues, in order |
| HubCore.Hub.PostStatus | codex_hub_core.py:565-571 | the new state equals `HubPolicy.StatusPosted`: the `status_posted` broadcast, and the issue comment only with `gh`, a numeric issue and a non-blank text |
| WebModel.Bounded | hub_dashboard/codex_hub_web.py:234 | a `deque(maxlen=500)` keeps the last 500 lines, or all of them when there are fewer |
| WebModel.InitialValid | hub_dashboard/codex_hub_web.py:227-236 | the initial state is valid, controls start blocked and only the orchestrator has a state, `idle` |
| WebModel.BroadcastValid | hub_dashboard/codex_hub_web.py:534-538 | a broadcast keeps the events numbered, changes no registry and carries the new sequence number |
| WebModel.SetStateEffect | hub_dashboard/codex_hub_web.py:270-277 | `_set_state` is a no-op exactly when the state is unchanged; otherwise it sets that agent's state only and broadcasts |
| WebModel.SpawnRefused | hub_dashboard/codex_hub_web.py:485-491 | an empty name, or one already in use, adds nothing and only tells the orchestrator |
| WebModel.SpawnAdds | hub_dashboard/codex_hub_web.py:493-511 | a new name is registered verbatim, the child started in the requested or default directory and sent the system message with the task first, and its state set to idle |
| WebModel.CloseRemoves | hub_dashboard/codex_hub_web.py:521-530 | closing removes the name from `subs`, `agent_state` and `_stderr_buf`, stops the child, and keeps the others |
| WebModel.UnknownNameMessage | hub_dashboard/codex_hub_web.py:513-524 | closing or messaging an unknown name only produces the "no such sub-agent" message |
| WebModel.SendKeeps | hub_dashboard/codex_hub_web.py:513-519 | sending changes no registry, and writes the turn and the report exactly when the agent exists |
| WebModel.StderrKept | hub_dashboard/codex_hub_web.py:286-291 | a stderr line ends up last in its agent's bounded buffer, with the other buffers untouched |
| WebModel.AutoapproveDecision | hub_dashboard/codex_hub_web.py:441-481 | an answer is written exactly when the child exists; it approves exactly when controls are allowed, and a denial gives "Autopilot disabled" |
| WebModel.DispatchOrder | hub_dashboard/codex_hub_web.py:370-408 | `spawn` wins over `send` and `close`, `send` over `close`, and a block may have none |
| WebModel.AutopilotSwitch | hub_dashboard/codex_hub_web.py:812-820 | the autopilot route sets the switch and broadcasts it, touching no registry |
| WebModel.KeylessBlockIgnored | hub_dashboard/codex_hub_web.py:370-420 | with controls allowed, a block with none of the command keys changes nothing |
| WebModel.SuppressedAll | hub_dashboard/codex_hub_web.py:359-369 | with controls blocked every block yields one `autopilot_suppressed` event carrying it, and nothing else changes |
| WebModel.BlockValid | hub_dashboard/codex_hub_web.py:359-420 | one block keeps the registries consistent and the switch as it was |
| WebModel.SpawnValid | hub_dashboard/codex_hub_web.py:485-511 | `spawn_sub` keeps the registries consistent |
| WebModel.ToOrchValid | hub_dashboard/codex_hub_web.py:487 | a message to the orchestrator keeps the registries consistent |
| WebModel.CloseValid | hub_dashboard/codex_hub_web.py:521-530 | `close_sub` keeps the registries consistent |
| WebModel.BlocksValid | hub_dashboard/codex_hub_web.py:359-420 | a message's blocks keep the registries consistent |
| WebModel.OrchValid | hub_dashboard/codex_hub_web.py:354-420 | `_handle_orch` keeps the registries consistent |
| WebHub.Hub.constructor | hub_dashboard/codex_hub_web.py:205-236 | a new hub is in the initial, valid state |
| WebHub.Hub.Broadcast | hub_dashboard/codex_hub_web.py:534-538 | the sequence number is bumped and the event appended with it |
| WebHub.Hub.SetAutopilot | hub_dashboard/codex_hub_web.py:812-820 | the fields are updated as the autopilot route specifies |
| WebHub.Hub.ToOrch | hub_dashboard/codex_hub_web.py:487 | one turn to the orchestrator is written |
| WebHub.Hub.SetState | hub_dashboard/codex_hub_web.py:270-277 | the fields are updated as `_set_state` specifies |
| WebHub.Hub.SpawnSub | hub_dashboard/codex_hub_web.py:485-511 | the fields are updated as `spawn_sub` specifies |
| WebHub.Hub.Launch | hub_dashboard/codex_hub_web.py:493-511 | the accepted spawn, as specified |
| WebHub.Hub.StartChild | hub_dashboard/codex_hub_web.py:496-506 | the child is started, registered and sent its first turn |
| WebHub.Hub.SendToSub | hub_dashboard/codex_hub_web.py:513-519 | the fields are updated as `send_to_sub` specifies |
| WebHub.Hub.CloseSub | hub_dashboard/codex_hub_web.py:521-530 | the fields are updated as `close_sub` specifies |
| WebHub.Hub.RecordStderr | hub_dashboard/codex_hub_web.py:286-291 | the line is kept in the bounded buffer and broadcast |
| WebHub.Hub.Autoapprove | hub_dashboard/codex_hub_web.py:441-481 | the fields are updated as `_autoapprove` specifies |
| WebHub.Hub.HandleBlock | hub_dashboard/codex_hub_web.py:359-420 | the fields after one block are `WebModel.HandleBlock` of the fields before: suppressed without autopilot, otherwise the spawn, send or close it names |
| WebHub.Hub.HandleAll | hub_dashboard/codex_hub_web.py:359-420 | the loop leaves the fields as `WebModel.HandleBlocks` of the old ones: each block handled in order, stopping before the first that raises |
| WebHub.Hub.HandleOrch | hub_dashboard/codex_hub_web.py:354-420 | only an `agent_message` is read; its control blocks are then handled in order, stopping at one that raises |
| WebModel.SetState | hub_dashboard/codex_hub_web.py:270-277 | reference definition of the dashboard's `_set_state`; its property is `SetStateEffect` |
| WebModel.SpawnSub | hub_dashboard/codex_hub_web.py:485-511 | reference definition of the dashboard's `spawn_sub`; its properties are `SpawnRefused`, `SpawnAdds` and `SpawnValid` |
| WebModel.SendToSub | hub_dashboard/codex_hub_web.py:513-519 | reference definition of the dashboard's `send_to_sub`; its properties are `SendKeeps` and `UnknownNameMessage` |
| WebModel.CloseSub | hub_dashboard/codex_hub_web.py:521-530 | reference definition of the dashboard's `close_sub`; its properties are `CloseRemoves` and `CloseValid` |
| WebModel.Autoapprove | hub_dashboard/codex_hub_web.py:441-481 | reference definition of the dashboard's `_autoapprove`; its property is `AutoapproveDecision` |
| WebModel.HandleBlock | hub_dashboard/codex_hub_web.py:359-420 | reference definition of the dashboard's `_handle_control_block`; its properties are `DispatchOrder`, `KeylessBlockIgnored` and `BlockValid` |
| WebModel.HandleOrch | hub_dashboard/codex_hub_web.py:354-420 | reference definition of the dashboard's handling of one orchestrator message, stopping at a block that raises; its properties are `SuppressedAll` and `OrchValid` |
| WebModel.SetAutopilot | hub_dashboard/codex_hub_web.py:812-820 | reference definition of the autopilot route's switch; its property is `AutopilotSwitch` |
| WebModel.Launch | hub_dashboard/codex_hub_web.py:494-511 | reference definition of the accepted branch of the dashboard's `spawn_sub`; its properties are `SpawnAdds` and `LaunchWith` |
| WebModel.StartChild | hub_dashboard/codex_hub_web.py:497-506 | reference definition of `agent.start()`, the registration and the first turn; its property is `LaunchWith` |
| WebModel.RecordStderr | hub_dashboard/codex_hub_web.py:286-292 | reference definition of one line of `_pump_stderr`; its property is `StderrKept` |
| WebModel.Broadcast | hub_dashboard/codex_hub_web.py:534-538 | reference definition of `_broadcast`: the event carries the next sequence number; its property is `BroadcastValid` |
| WebModel.ToOrch | hub_dashboard/codex_hub_web.py:173-174 | reference definition of `self.orch.send_text`: one turn for the orchestrator; its property is `ToOrchValid` |
| WebModel.ChildCwd | hub_dashboard/codex_hub_web.py:499 | reference definition of `cwd or self.default_cwd`; `SpawnAdds` states that the child starts there |
| WebModel.Raises | hub_dashboard/codex_hub_web.py:370-407 | reference definition of the dashboard's raise: with controls allowed, a spawn, send or close value that is not an object fails at `spec.get`; `KeylessBlockIgnored` states that a block without those keys never raises, and `WebHub.Hub.HandleAll` that the loop stops at a raise |
| WebModel.HandleBlocks | hub_dashboard/codex_hub_web.py:359-420 | reference definition of the loop over one message's blocks, ending at a raising block; its properties are `BlocksValid` and `SuppressedAll` |
| WebModel.LaunchWith | hub_dashboard/codex_hub_web.py:494-511 | the accepted spawn registers the child under the name as given with an idle state, keeps the other buffers and the switch, and starts it and sends its first turn before anything else |
| GithubLabels.RefsNeedHash | github_sync.py:238 | a suffix with no `#` in it yields no `#(\d+)` reference |
| GithubLabels.RefRoundTrip | github_sync.py:238 | `#` followed by the decimal digits of n is found as exactly the reference n |
| GithubLabels.Positives | github_sync.py:281 | the filter `n > 0` keeps exactly the positive members of the candidates |
| GithubLabels.CollectLabelRefs | github_sync.py:260-268 | the label loop collects, in label order, the references of every label whose stripped text matches `blocked-by:` case-insensitively, and nothing from other labels |
| GithubLabels.CollectLineRefs | github_sync.py:270-278 | the body loop collects the references of every stripped line starting, in any case, with `blocked by:` or `blocked-by:` |
| GithubLabels.ParseBlockers | github_sync.py:256-281 | `parse_blockers` returns the ascending distinct positive references of the labels followed by the body lines; a missing body counts as empty |
| GithubLabels.BlockersSpec | github_sync.py:281 | the result is strictly ascending, and a number is in it exactly when it is positive and one of the label or line references |
| GithubLabels.LabelBlocks | github_sync.py:237-238 | a label `blocked-by:#n`, with the prefix in any case and n > 0, blocks on exactly n |
| GithubLabels.SlaFromLabels | github_sync.py:283-296 | the label loop computes the left fold of the per-label step over the labels, starting from an empty map |
| GithubLabels.SlaFoldAppend | github_sync.py:289 | processing one more label applies one more step to the result so far |
| GithubLabels.SlaKeys | github_sync.py:292-295 | the only keys ever written are `checkin_seconds` and `budget_seconds` |
| GithubLabels.CheckinLaterWins | github_sync.py:291-293 | a later `checkin:` label overrides an earlier one and leaves the budget entry as it was |
| GithubLabels.BudgetLaterWins | github_sync.py:294-295 | a later `budget:` label overrides an earlier budget |
| GithubLabels.OtherLabelIgnored | github_sync.py:290-295 | a label that matches neither pattern changes nothing |
| GithubLabels.KeysExclusive | github_sync.py:239-240 | no stripped label matches both the check-in and the budget pattern |
| GithubLabels.CheckinLabelValue | github_sync.py:243-253 | `checkin:<n><u>` for u in s, m, h, d sets the check-in to n times 1, 60, 3600 or 86400 seconds |
| GithubLabels.Refs | github_sync.py:238 | reference definition of `_ISSUE_REF_RE.findall`; its properties are `RefsNeedHash` and `RefRoundTrip` |
| GithubLabels.Blockers | github_sync.py:256-281 | reference definition of `parse_blockers`; its properties are `ParseBlockers`, `BlockersSpec` and `LabelBlocks` |
| GithubLabels.SlaFold | github_sync.py:289-295 | reference definition of the label loop of `sla_from_labels`; its properties are `SlaFoldAppend`, `SlaKeys`, `CheckinLaterWins`, `BudgetLaterWins` and `OtherLabelIgnored` |
| IssueRollup.SlugRunEnd | issue_rollup.py:15 | the owner and repository group `[A-Za-z0-9_.\-]+` is matched greedily: every character up to the end is a slug character and the next one is not |
| IssueRollup.MatchAt | issue_rollup.py:15-16 | a successful match of the URL or `owner/repo#n` pattern consumes at least one character and stays within the text |
| IssueRollup.LocalRefs | issue_rollup.py:86-87 | each bare `#n` becomes `(default_repo, n)`, in order |
| IssueRollup.Dedupe | issue_rollup.py:88-97 | the dedupe loop with its `seen` set computes the first-occurrence filter on `(slug.lower(), num)` |
| IssueRollup.ExtractIssueRefs | issue_rollup.py:80-98 | `extract_issue_refs` returns the deduplicated URL refs, then cross-repo refs, then bare refs |
| IssueRollup.DedupeDistinct | issue_rollup.py:88-97 | the result has no two refs with the same lowercased slug and number, every ref in it came from the input and was not already seen, and it keeps the input order |
| IssueRollup.SubsequenceSkip | issue_rollup.py:93-94 | skipping a ref keeps the result an ordered subsequence of the input |
| IssueRollup.DedupeKeepsFirst | issue_rollup.py:92-97 | the first occurrence of each key is kept |
| IssueRollup.LocalRefsDefault | issue_rollup.py:86-87 | every bare reference is attributed to `default_repo` |
| IssueRollup.EmptyTextNoRefs | issue_rollup.py:82-87 | empty text yields no references |
| IssueRollup.CrossBeforeLocal | issue_rollup.py:84-97 | `o/r#5` found as a cross-repo ref wins over its bare `#5` under `O/R`, because the keys agree once lowercased and the first slug spelling is kept |
| IssueRollup.NoUrl | issue_rollup.py:16 | a text shorter than `https://github.com/` holds no issue URL |
| IssueRollup.CrossExample | issue_rollup.py:15 | `o/r#5` is one cross-repo reference |
| IssueRollup.LocalExample | issue_rollup.py:14 | `#(\d+)` also finds the 5 inside `o/r#5` |
| IssueRollup.ClassifyTask | issue_rollup.py:113-120 | HPC exactly when an HPC keyword occurs in the lower-cased title and body or a label is one of `hpc`, `gpu`, `slurm`, `mpi` in any case; Unknown exactly when neither the HPC nor the Cloud test holds |
| IssueRollup.LowerAll | issue_rollup.py:115 | each label is lower-cased, position by position |
| IssueRollup.ClassifyIgnoresCase | issue_rollup.py:114-115 | the classification is the same for a lower-cased title, labels and body |
| IssueRollup.GpuLabelIsHpc | issue_rollup.py:116 | a label `GPU` makes any task HPC |
| IssueRollup.HpcBeatsCloud | issue_rollup.py:116-119 | a title naming both docker and slurm is HPC: the HPC test comes first |
| IssueRollup.OfKind | issue_rollup.py:143-152 | a group holds only sub-issues of that kind, drawn from the input |
| IssueRollup.FlattenAppend | issue_rollup.py:143-144 | walking one more group appends its issues |
| IssueRollup.OfKindAppend | issue_rollup.py:145-152 | one more sub-issue goes to the end of exactly the group of its kind |
| IssueRollup.Partition | issue_rollup.py:140-152 | the partition loop's three lists are the sub-issues of each kind, in order, over all three groups |
| IssueRollup.PartitionGroup | issue_rollup.py:145-152 | the inner loop extends each kind's list by the group's issues of that kind, in order |
| IssueRollup.PartitionIssue | issue_rollup.py:146-152 | one issue is appended to the list of its own kind and the other two lists are unchanged |
| IssueRollup.PartitionComplete | issue_rollup.py:140-152 | together the three kinds hold every sub-issue exactly once |
| IssueRollup.ScanFrom | issue_rollup.py:82-85 | reference definition of `finditer` for the URL and cross-repository patterns; its properties are `ScanReaches`, `CrossFound`, `NoUrl` and `CrossExample` |
| IssueRollup.IssueRefs | issue_rollup.py:80-98 | reference definition of `extract_issue_refs`; its properties are `ExtractIssueRefs`, `DedupeDistinct`, `DedupeKeepsFirst`, `CrossBeforeLocal` and `EmptyTextNoRefs` |
| IssueRollup.KindOf | issue_rollup.py:113-120 | reference definition of an issue's class through `classify_task`; its properties are `ClassifyTask`, `ClassifyIgnoresCase`, `GpuLabelIsHpc` and `HpcBeatsCloud` |
| IssueRollup.SlugRunEndAt | issue_rollup.py:15 | a run of owner or repository characters ends at the first character outside the class |
| IssueRollup.DigitRunEndAt | issue_rollup.py:15 | a run of digits ends at the first non-digit |
| IssueRollup.CrossFound | issue_rollup.py:15 | any `owner/repo#digits` whose digits are not followed by a digit is matched where it starts, with its slug and number |
| IssueRollup.ScanReaches | issue_rollup.py:82-85 | `finditer` skips the positions where nothing matches and reports the first match it reaches, then continues after it |
| GithubSync.NormaliseHeading | github_sync.py:63-65 | the result holds only lower-case letters, digits and `-`, has no `-` at either end and never two `-` in a row |
| GithubSync.NormaliseHeadingIdempotent | github_sync.py:63-65 | normalising a normalised heading changes nothing |
| GithubSync.LowerOfLower | github_sync.py:64 | lower-casing a string of `[a-z0-9-]` leaves it as it is |
| GithubSync.PreambleIsNoHeading | github_sync.py:91-96 | no heading normalises to `__preamble__`, so headings never add to the preamble |
| GithubSync.HashRunEnd | github_sync.py:52 | the leading run of `#` ends at the first character that is not `#` |
| GithubSync.LastNonNewline | github_sync.py:52 | the position found lies in the range and is not a newline |
| GithubSync.HeadingText | github_sync.py:52 | a heading title captured by `^#{1,6}\s+(.+?)\s*$` is never empty |
| GithubSync.ChecklistItem | github_sync.py:74-84 | a raw line contributes at most one item and never an empty one |
| GithubSync.Checklist | github_sync.py:72-85 | `_parse_checklist` yields at most one item per line |
| GithubSync.ParseChecklist | github_sync.py:72-85 | the loop over the lines computes the checklist, item by item in line order |
| GithubSync.ChecklistClean | github_sync.py:72-85 | every item is non-empty and already stripped |
| GithubSync.BlankLineSkipped | github_sync.py:76-77 | a white-space-only line gives no item |
| GithubSync.CheckboxItem | github_sync.py:78-84 | `- [x] item` with bullet `-`, `*` or `+` and mark space, `x`, `X` or `*` gives exactly `item` |
| GithubSync.CheckboxGroupOf | github_sync.py:59 | the checkbox pattern captures everything after the bullet, the box and the space |
| GithubSync.BulletItem | github_sync.py:78-84 | a bulleted line without a box gives the text after the bullet |
| GithubSync.SetDefault | github_sync.py:97 | `setdefault` makes the name a section and keeps the current section |
| GithubSync.SetDefaultValid | github_sync.py:97 | `setdefault` keeps an existing section as it is and appends a new name to the insertion order |
| GithubSync.StepValid | github_sync.py:93-99 | one line keeps the sections consistent (distinct names, current is a section) and never drops a name |
| GithubSync.WalkValid | github_sync.py:90-99 | the whole walk keeps the sections consistent and only adds names |
| GithubSync.ExactSection | github_sync.py:102-104 | an exact lookup returns the lines of one of the keys |
| GithubSync.PrefixSection | github_sync.py:106-109 | a prefix lookup returns a section name that starts with one of the keys; when it finds none, no name does |
| GithubSync.CleanLines | github_sync.py:68-69 | `_clean_lines` keeps at most every line and never an empty one |
| GithubSync.ParseIssueBody | github_sync.py:88-129 | the walk with its `sections` dict and `current` name, then the section lookups, computes the charter of the body; `None` counts as empty |
| GithubSync.AcceptanceClean | github_sync.py:117-121 | every acceptance item of every body is non-empty and stripped |
| GithubSync.ExactBeforePrefix | github_sync.py:102-104 | an exact section name is used in preference to a prefix match |
| GithubSync.MissingSection | github_sync.py:110 | with no exact or prefix match the section is empty |
| GithubSync.GoalOnlyLines | github_sync.py:92 | `## Goal\nShip v1.0\n` splits into the two lines |
| GithubSync.ShipLine | github_sync.py:92 | `Ship v1.0\n` is one line |
| GithubSync.HeadingGoal | github_sync.py:52 | `## Goal` is a heading titled `Goal` |
| GithubSync.HeadingShip | github_sync.py:52 | `Ship v1.0` is not a heading |
| GithubSync.NormaliseGoal | github_sync.py:63-65 | `Goal` normalises to `goal` |
| GithubSync.RStripNonSpaceEnd | github_sync.py:99 | `rstrip` leaves a line ending in a non-space character unchanged |
| GithubSync.StepGoal | github_sync.py:93-97 | the heading line switches to a new `goal` section |
| GithubSync.StepShip | github_sync.py:99 | the text line is appended to `goal` |
| GithubSync.GoalOnlyDoc | github_sync.py:92-99 | walking the goal-only body gives the preamble and a goal section holding `Ship v1.0` |
| GithubSync.GoalOnlyCharter | github_sync.py:88-129 | a body with only a Goal section gives goal `Ship v1.0` and empty acceptance, scope and validation |
| GithubSync.GoalOnlySections | github_sync.py:112-128 | the sections of the goal-only body give that charter |
| GithubSync.GoalSection | github_sync.py:112 | the goal lookup finds `Ship v1.0` |
| GithubSync.OtherSectionsMissing | github_sync.py:113-115 | the acceptance, scope, fallback scope and validation lookups all find nothing |
| GithubSync.NoPrefixIn | github_sync.py:106-109 | neither `__preamble__` nor `goal` starts with any acceptance, scope or validation key |
| GithubSync.Numbered | github_sync.py:219-221 | numbering keeps one line per acceptance item |
| GithubSync.NumberedAt | github_sync.py:219-221 | the k-th numbered line is item k with number start + k |
| GithubSync.PromptLines | github_sync.py:214 | the prompt always opens with `Work on Issue #N: title` |
| GithubSync.FormatIssuePrompt | github_sync.py:213-235 | `format_issue_prompt` appends the goal, numbered acceptance, scope, validation and labels lines in that order and joins them with newlines |
| GithubSync.AppendNumbered | github_sync.py:219-221 | the `enumerate(..., start=1)` loop appends the items numbered from 1 |
| GithubSync.NumberedAppend | github_sync.py:219-221 | one more item is numbered after all the earlier ones |
| GithubSync.PromptStartsWithHeader | github_sync.py:214-235 | the prompt text starts with the header line |
| GithubSync.AcceptanceNumbered | github_sync.py:218-221 | after the optional goal line comes `Acceptance:` and then `k. item` for each item k in order, white space collapsed |
| GithubSync.LabelsLineSorted | github_sync.py:231-233 | the last line is `Labels: ` followed by the labels sorted and joined with `, `; the sort is ordered and a permutation |
| GithubSync.LabelsExample | github_sync.py:232 | `orchestrate` and `P1` are listed as `P1, orchestrate`, because upper case sorts first |
| GithubSync.Step | github_sync.py:95-100 | reference definition of one line of the section walk; its property is `StepValid` |
| GithubSync.Walk | github_sync.py:94-100 | reference definition of the section walk over the body's lines; its property is `WalkValid` |
| GithubSync.CharterOf | github_sync.py:88-128 | reference definition of `parse_issue_body`; its properties are `ParseIssueBody`, `AcceptanceClean` and `GoalOnlyCharter` |
| Orchestrate.Slugify | orchestrate_github.py:32-34 | the slug is non-empty, at most 40 characters long and uses only `[a-z0-9-]` |
| Orchestrate.SlugifyFallback | orchestrate_github.py:34 | an empty normalised title gives `task` |
| Orchestrate.SlugifyShort | orchestrate_github.py:33-34 | a normalised title of 1 to 40 characters is the slug itself, and slugifying a slug changes nothing |
| Orchestrate.SlugifyLong | orchestrate_github.py:34 | a longer normalised title is cut to its first 40 characters |
| Orchestrate.DashedNumbersDiffer | orchestrate_github.py:38 | `<digits>-<rest>` differ whenever the digit strings do |
| Orchestrate.BranchDiffers | orchestrate_github.py:37-38 | the branch `ai/iss-<N>-<slug>` of one issue number is never that of another, whatever the two titles |
| Orchestrate.BranchesDistinct | orchestrate_github.py:37-40 | different issue numbers always give different branches, whatever the titles |
| Orchestrate.WorktreesDistinct | orchestrate_github.py:39 | different issue numbers give different worktree directories, and the directory does not depend on the title |
| Orchestrate.StaleIsStrict | orchestrate_github.py:110-111 | exactly `minutes * 60` seconds of silence is not stale, one second more is |
| Orchestrate.IssueNo | orchestrate_github.py:122-123 | an agent name yields an issue number only when it starts with `iss` |
| Orchestrate.Orchestrator.constructor | orchestrate_github.py:49-54 | no issue has a state file yet and no call has been made |
| Orchestrate.Orchestrator.BuildPrompt | orchestrate_github.py:67-68 | the prompt is the charter parsed from the issue body, formatted with the issue |
| Orchestrate.Orchestrator.StartForIssue | orchestrate_github.py:67-95 | `start_for_issue` ensures the worktree, spawns `iss<N>`, labels the issue running (queued and stalled taken off), comments, and replaces the state file with agent, branch, worktree, `running` and the time |
| Orchestrate.Orchestrator.OpenPrIfNeeded | orchestrate_github.py:97-107 | `open_pr_if_needed` asks for a pull request on the saved branch and, when one is given, moves the issue to review and comments its URL; it returns the URL given |
| Orchestrate.Orchestrator.MarkOrClearStall | orchestrate_github.py:212-225 | with the running label and silence past the limit, an unmarked issue gets the stalled label, a comment and `stalled_at`; without the running label `stalled_at` is dropped |
| Orchestrate.Orchestrator.OpenPrOnComplete | orchestrate_github.py:227-231 | a complete issue labelled `auto:pr-on-complete` without `pr_url` asks for a pull request and records a URL it is given |
| Orchestrate.Orchestrator.PollIssue | orchestrate_github.py:198-231 | the per-issue body of the daemon loop: start when queued and not running or running without a live agent, otherwise the stall step then the pull-request step |
| Orchestrate.Orchestrator.PollPass | orchestrate_github.py:196-233 | the loop over the listed issues polls each in order, an agent started for one being alive for the rest of the pass |
| Orchestrate.Orchestrator.PollTracked | orchestrate_github.py:198-231 | one issue of the pass is polled, and the agent it starts, if any, joins the live set for the issues after it |
| Orchestrate.Orchestrator.RelayMessage | orchestrate_github.py:125-141 | agent text that is non-empty once stripped is commented on the issue; the state records the time, drops `stalled_at` and keeps a status it has |
| Orchestrate.Orchestrator.CloseOut | orchestrate_github.py:142-166 | a removed agent's issue is saved `complete` with its time, and the pull-request request, labels and comment follow the fetched issue's labels |
| Orchestrate.Orchestrator.MirrorEvent | orchestrate_github.py:114-169 | `mirror_events_to_github` for one event: relays agent text, records activity and clears the stall, or completes the issue, opens a pull request when asked and relabels it |
| Orchestrate.CountsAppend | orchestrate_github.py:198-231 | the counts of spawns, stall marks and pull-request requests add up over concatenated call lists |
| Orchestrate.CountsOne | orchestrate_github.py:198-231 | a single call counts once in the tally of its kind |
| Orchestrate.CountsSnoc | orchestrate_github.py:198-231 | one more call adds one to the tally of its kind only |
| Orchestrate.CountsFour | orchestrate_github.py:67-95 | the four calls of a start count one by one |
| Orchestrate.StartEffects | orchestrate_github.py:67-95 | starting spawns exactly one agent, marks no stall, asks for no pull request, and leaves the state `running` with agent `iss<N>` |
| Orchestrate.StallStepEffects | orchestrate_github.py:212-225 | the stall step spawns nothing, asks for no pull request, adds at most one stall mark and only for a running issue not yet marked, and keeps status, `pr_url` and agent |
| Orchestrate.PrStepEffects | orchestrate_github.py:227-231 | the pull-request step asks for one pull request exactly when the issue is labelled for it, complete and without `pr_url` |
| Orchestrate.PollStarts | orchestrate_github.py:204-210 | a poll spawns one agent exactly when it starts the issue, and a start marks no stall and asks for no pull request |
| Orchestrate.StallMarkedOnce | orchestrate_github.py:214-222 | two polls that start nothing mark an issue stalled at most once, and a marked issue is not marked again |
| Orchestrate.PollKeeps | orchestrate_github.py:212-231 | a poll that starts nothing keeps the agent and status, and a stall it marks is recorded in `stalled_at` |
| Orchestrate.StallCleared | orchestrate_github.py:223-225 | without the running label a poll that starts nothing leaves `stalled_at` unset |
| Orchestrate.PollPr | orchestrate_github.py:227-231 | a poll that starts nothing asks for one pull request exactly when the issue is complete, labelled for it and has no `pr_url`, and a URL given back is saved |
| Orchestrate.PrOpenedOnce | orchestrate_github.py:227-231 | two polls ask for at most one pull request once the first was given a URL |
| Orchestrate.PollExtends | orchestrate_github.py:198-231 | a poll only appends calls and spawns at most one agent |
| Orchestrate.PassExtends | orchestrate_github.py:196-233 | a pass keeps all earlier calls and spawns at most one agent per listed issue |
| Orchestrate.ActivityRecorded | orchestrate_github.py:125-141 | a message from `iss<N>` records the time, drops `stalled_at`, sets status `running` only when none is set, and ends with taking off the stalled label |
| Orchestrate.AgentNameNumber | orchestrate_github.py:122-123 | the agent name `iss<N>` is read back as issue N |
| Orchestrate.OtherAgentsIgnored | orchestrate_github.py:122-125 | an event from an agent not named `iss<N>` with N > 0 changes nothing |
| Orchestrate.Iss0Ignored | orchestrate_github.py:123-125 | `iss0` is ignored, because issue number 0 is falsy |
| Orchestrate.RemovalLabels | orchestrate_github.py:142-166 | a removed agent completes its issue; with a pull request the queued, running and stalled labels are taken off, otherwise `agent:done` is added and a comment says so |
| Orchestrate.PrMovesToReview | orchestrate_github.py:100-106 | a pull request moves the issue to review, taking off running, stalled and queued, and comments its URL |
| Orchestrate.WorktreePaths | orchestrate_github.py:37-41 | reference definition of `worktree_paths`; its properties are `BranchesDistinct` and `WorktreesDistinct` |
| Orchestrate.StaleSince | orchestrate_github.py:110-111 | reference definition of `stale_since`; its property is `StaleIsStrict` |
| Orchestrate.Start | orchestrate_github.py:67-95 | reference definition of `start_for_issue`; its property is `StartEffects` |
| Orchestrate.Poll | orchestrate_github.py:198-231 | reference definition of one issue of a daemon pass; its properties are `PollStarts`, `StallMarkedOnce`, `StallCleared`, `PollPr`, `PrOpenedOnce`, `PollKeeps` and `PollExtends` |
| Orchestrate.Pass | orchestrate_github.py:196-233 | reference definition of one daemon pass over the listed issues; its property is `PassExtends` |
| Orchestrate.Mirror | orchestrate_github.py:118-169 | reference definition of mirroring one hub event; its properties are `ActivityRecorded`, `AgentNameNumber`, `OtherAgentsIgnored`, `Iss0Ignored`, `RemovalLabels` and `PrMovesToReview` |
| Orchestrate.PathJoin | orchestrate_github.py:39 | reference definition of `os.path.join` on two parts; its property is `WorktreesDistinct` |
| Orchestrate.Branch | orchestrate_github.py:38 | reference definition of the branch name; its properties are `BranchDiffers` and `BranchesDistinct` |
| Orchestrate.WorktreeDir | orchestrate_github.py:39 | reference definition of the worktree directory; its property is `WorktreesDistinct` |
| Orchestrate.StartCalls | orchestrate_github.py:70-84 | reference definition of the calls of `start_for_issue`; its property is `StartEffects` |
| Orchestrate.OpenPr | orchestrate_github.py:97-107 | reference definition of `open_pr_if_needed`; its property is `PrMovesToReview` |
| Orchestrate.StallStep | orchestrate_github.py:212-225 | reference definition of the stall bookkeeping of one poll; its properties are `StallStepEffects`, `StallMarkedOnce`, `StallCleared` and `PollKeeps` |
| Orchestrate.PrStep | orchestrate_github.py:227-231 | reference definition of the pull-request step of one poll; its properties are `PrStepEffects`, `PollPr` and `PrOpenedOnce` |
| Orchestrate.LiveAfter | orchestrate_github.py:202-210 | reference definition of the agents alive after one issue's poll; its property is `PollTracked` |
| Orchestrate.StartState | orchestrate_github.py:84-94 | reference definition of the state file `start_for_issue` writes: agent, branch, worktree, `running` and the activity time, earlier keys dropped; its property is `StartEffects` |
| Orchestrate.Starts | orchestrate_github.py:204-210 | reference definition of when a poll (re)starts an issue's agent: queued and not running, or running with no live agent; its property is `PollStarts` |
| Orchestrate.AgentActive | orchestrate_github.py:202 | reference definition of `agent_name and agent_name in hub.subs`; `PollStarts` and `LiveAfter` state its use |
| Orchestrate.Relayed | orchestrate_github.py:125-141 | reference definition of an `agent_to_orch` event: the stripped text commented when not blank, the activity time set, the stall stamp dropped, the status defaulted to `running`, and the stalled label removed; its property is `ActivityRecorded` |
| Orchestrate.Removed | orchestrate_github.py:142-166 | reference definition of an `agent_removed` event: the issue marked complete, a PR opened when labelled for it, then the labels removed with `agent:done` and the finished comment only when no PR was given; its property is `RemovalLabels`, and `PrMovesToReview` states what the PR it opens does |
| Orchestrate.PrTitle | orchestrate_github.py:99 | reference definition of `Issue #<n>: <title>`, the title `OpenPr` passes to `ensure_pr` |
| Orchestrate.PassStep | orchestrate_github.py:196-233 | the pass from issue i on equals polling issue i and going on with the live set after it |
| Sorting.StrLeTotal | github_sync.py:232 | the code-point order `sorted` uses on strings is total |
| Sorting.StrLeTrans | github_sync.py:232 | that order is transitive |
| Sorting.StrLeAntisym | github_sync.py:232 | that order is antisymmetric |
| Sorting.InsertPermutes | github_sync.py:232 | inserting a label into a sorted list adds exactly that label |
| Sorting.InsertSorted | github_sync.py:232 | inserting into a sorted list keeps it sorted |
| Sorting.SortStringsCorrect | github_sync.py:232 | `sorted(issue.labels)` is ordered and a permutation of the labels |
| Sorting.SortedUnique | github_sync.py:232 | the sorted permutation of a list is unique |
| Sorting.SortedDistinct | github_sync.py:281 | `sorted({...})` is strictly ascending and holds exactly the members of the input |
| Text.LowerIdempotent | github_sync.py:64 | lower-casing twice is lower-casing once |
| Text.StripIdempotent | github_sync.py:69 | stripping a stripped string changes nothing |
| Text.StripEmptyIff | github_sync.py:69 | a string strips to empty exactly when it is all white space |
| Text.SplitLinesNoBreak | github_sync.py:92 | `splitlines` yields no line for empty text, at least one otherwise, and no line contains a line break |
| Text.NatToStringRoundTrip | orchestrate_github.py:127-128 | reading back the decimal digits of a number gives the number |
| Text.NatToStringInjective | orchestrate_github.py:38-39 | different numbers have different decimal spellings |
| GithubSyncSample.LayoutParsed | tests/test_github_sync.py:6-43 | a charter written in the layout of the tests' sample body (leading blank line, `## Goal`, `## Acceptance checklist` with `- [m] item` lines, `## Scope notes` with `- item` lines, `## Validation`, a blank line closing each section) is read back by `parse_issue_body` exactly: same goal, same items in order, same scope notes, same validation |
| GithubSyncSample.SplitLinesOfLines | github_sync.py:94 | `splitlines` of lines each ended by a newline gives back exactly those lines, when none of them holds a line break |
| GithubSyncSample.BodySplit | github_sync.py:94 | `splitlines` of a laid-out body gives the layout's lines |
| GithubSyncSample.BodyWalk | github_sync.py:95-100 | lines that are no heading are appended, right-stripped (so unchanged), to the current section, and nothing else changes |
| GithubSyncSample.WalkAppend | github_sync.py:94-100 | walking two runs of lines equals walking the first, then the second from where it left off |
| GithubSyncSample.GroupWalk | github_sync.py:95-100 | a heading line followed by plain lines opens a new section under the heading's normalised name holding exactly those lines |
| GithubSyncSample.GroupsWalk | github_sync.py:92-100 | a blank line and then the goal, acceptance, scope and validation groups leave the preamble with the blank line and the four sections in that order |
| GithubSyncSample.LayoutWalk | github_sync.py:92-100 | walking a laid-out body gives the layout's preamble and four sections |
| GithubSyncSample.SubOneSpace | github_sync.py:64 | one blank between two `[a-z0-9]` words becomes one `-` |
| GithubSyncSample.NormaliseTwoWords | github_sync.py:63-65 | a title that lower-cases to two `[a-z0-9]` words separated by a blank normalises to the words joined by `-` |
| GithubSyncSample.OneWordHeading | github_sync.py:95-97 | `## Goal` and `## Validation` are headings and open the sections `goal` and `validation` |
| GithubSyncSample.TwoWordHeading | github_sync.py:95-97 | `## Acceptance checklist` and `## Scope notes` are headings and open the sections `acceptance-checklist` and `scope-notes` |
| GithubSyncSample.ChecklistAppend | github_sync.py:72-85 | the items of two runs of lines are the items of the first followed by those of the second |
| GithubSyncSample.ChecklistBoxes | github_sync.py:72-85 | lines `- [m] item`, for any box mark `m`, give exactly their items, in order |
| GithubSyncSample.ChecklistBullets | github_sync.py:72-85 | lines `- item` give exactly their items, in order |
| GithubSyncSample.LookupsFind | github_sync.py:102-111 | the exact-name lookups find `goal`, `acceptance-checklist`, `scope-notes` (after missing `scope`) and `validation` |
| GithubSyncSample.LayoutSections | github_sync.py:113-129 | the laid-out sections give back the charter: the one goal line, the box items, the bullet items (or none), the one validation line |

## Left out

- Every `gh` and `git` call (`_run_gh`, `fetch_issue`, `list_orchestrate_issues`, `ensure_status_comment`, `update_comment`, `repo_slug`, `fetch_prs_for_issue`, `ensure_worktree`, `ensure_pr`, `replace_labels`, `comment_issue`): they are process I/O. The model records the labels and comments the code asks for, and takes what GitHub returns as parameters.
- The hub's `_status_cache` and `_maybe_update_status_comment`: they only render status text around `gh` calls.
- `_ensure_digest_timer` and `_debounced_digest`: they start an asyncio task that sleeps for the debounce interval and then calls `_maybe_send_digest`. Timers and tasks are left out as the asyncio line below says. `HubModel.MaybeDigest`, which the task would call, is modelled.
- The exception paths of `ensure_status_comment` and `list_orchestrate_issues`: a failed call shows up in the model as an absent comment id or as the listing given.
- The fallback prompt used when `format_issue_prompt` raises: the modelled prompt functions are total and never raise.
- Event routing (`_handle`, `_handle_sub`, `_pump`), subscriber queues, asyncio tasks, signal handling and the process objects (`ProtoChild`, `AppServerProcess`): concurrency and I/O. Each handler is modelled as one atomic step.
- The watchdog pass (codex_hub_core.py:918-931) writes `last_checkin` and appends to `_orch_extra_blocks` agent by agent. `HubCore.Hub.WatchdogTick` first computes all the new stamps and queued blocks with `ScanCheckins`, then stores them with `StoreCheckins`. There is no `await` between the iterations, so no other handler can see the state in between, and the end states agree.
- Persisting the hub state to disk and reading it back: file I/O.
- The aiohttp routes of the dashboard other than the autopilot switch, its SSE stream and `INDEX_HTML`: web serving.
- `tools/hub_dashboard/codex_hub_web.py` is a byte-identical copy of the dashboard and is not modelled separately.
- `OTELJsonlTailer`'s file tailing: file I/O. Only the record parsing is modelled.
- `render_rollup`'s date header and text layout, `_render_status_comment` and `render_wip_table`: clock-formatted rendering. Only the partition loop of `render_rollup` is modelled.
- `select_open_subissues`: it only filters `fetch_issue` results by state. It is a `gh` call.
- Floating point: `time.time()` readings are integers, and `_parse_duration` accepts whole-number strings only, without `float()` parsing.
- Unicode case and digits: `Text.LowerChar` lowers only the ASCII capitals and U+212A (Kelvin sign) and leaves every other character unchanged, whereas `str.lower()` lowers all cased letters. `\d` and `int()` accept the ASCII digits only, whereas Python also accepts other Unicode decimal digits. `isspace()`, `\s` and `splitlines()` follow Python's full tables, and the `re.IGNORECASE` folds onto ASCII letters are those of `Text.CiEq`.
- Negative issue numbers: the lemmas about branches, worktrees and agent names are stated for n ≥ 0.
- Non-string names, tasks and cwds: a truthy non-string agent name makes the hub raise, and the model stops the message there. A falsy non-string name (`0`, `false`, `[]`) is treated like a missing name. A task or close reason that is not a string is turned into text by `JsonValue.PyStr` before it is broadcast in the `orch_to_agent` payload or passed to `spawn_sub` and `send_to_sub`, whereas the hub passes the raw value on. A spawn cwd that is not a string is replaced by the default cwd, whereas the hub would pass it to `create_conversation`. In the dashboard model names are strings; a list or object name would make `name in self.subs` raise.
- JsonValue.PyStr: it renders `None`, booleans, integers and strings as Python's `str()` does, but floats, lists and objects as `<value>`, whereas Python gives `1.5`, `[1]` or `{'a': 1}`. Python's float repr and the quoting of nested strings are not modelled. This shows wherever the hub formats a non-string value: `issue#{issue}` in a status, the artifact id in a fetch note, the name in the WIP-limit notice, and a task.
- Orchestrate.Orchestrator.PollPass: one clock reading stands for the whole pass, whereas the code reads `time.time()` at each issue.
- HubCore ids: fresh uuids and conversation ids are parameters that are assumed distinct from ids already in use.
- The dashboard's `close_sub` with no name while `""` is registered: `Valid` rules this state out.
- The dashboard's checks on child processes and their stdin: the model assumes the children are running.
- WebModel.HandleBlock: a spec that is not an object makes the dashboard raise `AttributeError`, which ends the handling of that message. `Raises` models this by stopping; the raised exception itself is not modelled.
- GithubSyncSample.LayoutParsed: the general layout is proved, but the sample body itself is not instantiated. Showing that each of the sample's longer lines holds no line break takes the solver too long on literal text.
- HubCore.Hub.HandleOrchestratorText: it finds and strips control fences with the corrected pattern `ControlFence.Spaced`, not with the pattern as written at codex_hub_core.py:57-59 (see "## Findings"). With the pattern as written, a fenced block is found only when it is a single JSON line with a `spawn`, `send` or `close` key, through the line-by-line fallback at codex_hub_core.py:103-119, and its fence stays in the displayed text. The same holds for HubPolicy.HandleOrchestratorText.
- HubCore.Hub.FetchBlock: it reads the artifact with the corrected `Artifacts.Load`, which returns the stored text exactly. The code as written turns `\r` and `\r\n` into `\n` on reading (see "## Findings"). The same holds for HubPolicy.FetchResult and HubPolicy.FetchBlock, which reads through it.
- HubPolicy.HandleControlBlock: the raise paths the model covers are listed in `HubPolicy.Raises`. It does not model these: `dict()` and `list()` accepting other iterables, such as a list of pairs; NUL bytes in argv, cwd or env; `OSError`s from starting the process other than `FileNotFoundError`, such as a `PermissionError`; and what the event pump does after the raise, which is to broadcast "event pump failed", end the pump, and skip setting the orchestrator's state back to idle. The model returns `raised` and stops handling that message. The same holds for HubCore.Hub.HandleControlBlock.
- OtelTailer.ExtractConversationId: for a payload that is not an object, the code raises and ends `_pump_otel`. The model only reports `raised`.
- HubPolicy.PyInt: `int()` also accepts single underscores between digits (`"1_000"` is 1000); the model does not, so such a `max_chars` falls back to 4000 and such an issue number is not commented on.
- HubPolicy.Autoapprove: where the `execCommandApproval` description raises (`HubPolicy.DescribeRaises`), the request gets no answer and the model changes nothing. The event pump's "event pump failed" broadcast and its ending are not modelled, as for control blocks. The same holds for HubPolicy.HandleRequest, HubCore.Hub.Autoapprove and HubCore.Hub.HandleRequest, which report `raised`. A method name that is not a string, on which `.lower()` would raise, is outside the model: `meth` is a string.

## Findings

| source | as written | input that shows it | evidently intended | confidence | as-written member | corrected member |
|---|---|---|---|---|---|---|
| artifacts.py:32-44 | `store_text` writes the body and `load_text` reads it back in text mode, so universal newlines turn `\r` and `\r\n` into `\n` | storing `a\rb` and loading it gives `a\nb` | loading returns exactly the stored body and its length | medium, not executed | Artifacts.AsWrittenLosesCarriageReturn | Artifacts.RoundTrip |
| codex_hub_core.py:57-59 | the raw string writes `\\s`, which in a regular expression is a literal backslash then `s*`, so a plain ```` ```control ```` fence never matches | a fence ```` ```control ```` with a JSON line inside is left in the displayed text, and its payload is read only by the single-line JSON fallback | `\s` as in the dashboard's copy of the pattern, so that the fence is found and stripped | high, not executed | ControlFence.EscapedMissesFence | ControlFence.SpacedStripsFence |
