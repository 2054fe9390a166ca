/** The hub's periodic passes (codex_hub_core.py `_watchdog_loop`,
    `_scheduler`, `_poll_github`), one iteration each: the loops sleep
    between passes, and the clock reading of a pass is the parameter
    `now`. */
module HubTimers {
  import opened Text
  import opened JsonValue
  import opened HubNames
  import opened HubModel
  import opened HubRegistry
  import GithubSync
  import GithubLabels

  const NudgeText: string :=
    "Quick check-in:\n- What is the next small step?\n- Is anything blocking you?\n- ETA to a minimal PR or result?"
  const WrapUpText: string :=
    "Time budget reached. Please summarise status, remaining work, and immediate next actions. If you have a branch or partial PR, share links now."
  /** Seconds of silence after which a wrapped-up agent is closed. */
  const CloseGrace: int := 60

  // ------------------------------------------------------------ watchdog

  /** Seconds since the agent's last check-in, or -1 if it never checked in. */
  function CheckinDelta(a: Agent, now: int): (d: int)
    ensures a.lastCheckinTs == 0 <==> d == -1
    ensures a.lastCheckinTs != 0 ==> d >= 0 && d >= now - a.lastCheckinTs
  {
    if a.lastCheckinTs != 0 then (if now - a.lastCheckinTs > 0 then now - a.lastCheckinTs else 0) else -1
  }

  /** The agent's own check-in interval, else the hub's default. */
  function Threshold(c: Config, r: Registry, name: string): int
  {
    if name in r.agentMeta then r.agentMeta[name].checkinSeconds else c.defaultCheckin
  }

  /** A timeout is raised exactly when the threshold is set, the agent has
      checked in, and it has been silent for longer than the threshold. */
  predicate TimedOut(c: Config, r: Registry, name: string, now: int)
    requires name in r.subs
  {
    var d := CheckinDelta(r.subs[name], now);
    var t := Threshold(c, r, name);
    t != 0 && d >= 0 && d > t
  }

  function TimeoutBlock(name: string, seconds: int): Json
  {
    JObj([("type", JStr("TIMEOUT_CHECKIN")), ("agent", JStr(name)), ("seconds", JInt(seconds))])
  }

  /** The `TIMEOUT_CHECKIN` blocks for `names`, in order. */
  function TimeoutBlocks(c: Config, r: Registry, names: seq<string>, now: int): (bs: seq<Json>)
    ensures |bs| <= |names|
    decreases |names|
  {
    if names == [] then []
    else
      var k := names[0];
      (if k in r.subs && TimedOut(c, r, k, now) then [TimeoutBlock(k, CheckinDelta(r.subs[k], now))] else []) +
      TimeoutBlocks(c, r, names[1..], now)
  }

  /** `last_checkin` after the pass: every agent's delta, the rest kept. */
  function Deltas(r: Registry, now: int): map<string, int>
  {
    map k | k in r.lastCheckin.Keys + r.subs.Keys :: if k in r.subs then CheckinDelta(r.subs[k], now) else r.lastCheckin[k]
  }

  /** `last_checkin` after the watchdog has stamped `names` one at a time. */
  function Stamped(m: map<string, int>, subs: map<string, Agent>, names: seq<string>, now: int): map<string, int>
    decreases |names|
  {
    if names == [] then m
    else
      var k := names[0];
      Stamped(if k in subs then m[k := CheckinDelta(subs[k], now)] else m, subs, names[1..], now)
  }

  /** Stamping keeps the old entries and adds one per listed agent, the
      agent's delta. */
  lemma {:induction false} StampedEntries(m: map<string, int>, subs: map<string, Agent>, names: seq<string>, now: int)
    ensures var r := Stamped(m, subs, names, now);
            (forall k :: k in r <==> k in m || (k in names && k in subs)) &&
            (forall k :: k in r ==> r[k] == if k in names && k in subs then CheckinDelta(subs[k], now) else m[k])
    decreases |names|
  {
    if names != [] {
      var k := names[0];
      var m1 := if k in subs then m[k := CheckinDelta(subs[k], now)] else m;
      StampedEntries(m1, subs, names[1..], now);
      assert forall j :: j in names <==> j == k || j in names[1..];
    }
  }

  /** Stamping the agents in insertion order yields `Deltas`. */
  lemma StampedDeltas(r: Registry, now: int)
    requires OrderValid(r)
    ensures Stamped(r.lastCheckin, r.subs, r.order, now) == Deltas(r, now)
  {
    StampedEntries(r.lastCheckin, r.subs, r.order, now);
  }

  /** One step of the watchdog's loop, as the loop computes it: the
      agent's delta is stamped and its block queued when it is past its
      threshold. */
  lemma WatchStep(c: Config, r: Registry, m: map<string, int>, i: nat, now: int)
    requires i < |r.order| && r.order[i] in r.subs
    ensures var k := r.order[i];
            var d := CheckinDelta(r.subs[k], now);
            var t := if k in r.agentMeta then r.agentMeta[k].checkinSeconds else c.defaultCheckin;
            Stamped(m, r.subs, r.order[i..], now) == Stamped(m[k := d], r.subs, r.order[i + 1..], now) &&
            TimeoutBlocks(c, r, r.order[i..], now) ==
            (if t != 0 && d >= 0 && d > t then [TimeoutBlock(k, d)] else []) + TimeoutBlocks(c, r, r.order[i + 1..], now)
  {
    assert r.order[i..][1..] == r.order[i + 1..];
  }

  /** One `_watchdog_loop` pass over the agents in insertion order. */
  function WatchdogPass(c: Config, s: HubState, now: int, dumps: Json -> string): HubState
  {
    var blocks := TimeoutBlocks(c, s.reg, s.reg.order, now);
    var s1 := s.(reg := s.reg.(lastCheckin := Deltas(s.reg, now)), extras := s.extras + blocks);
    if blocks != [] then MaybeDigest(c, s1, now, "watchdog", dumps) else s1
  }

  /** An agent gets a timeout block exactly when it is listed and timed out. */
  lemma {:induction false} TimeoutIff(c: Config, r: Registry, names: seq<string>, now: int, k: string)
    requires k in r.subs
    ensures TimeoutBlock(k, CheckinDelta(r.subs[k], now)) in TimeoutBlocks(c, r, names, now) <==>
            k in names && TimedOut(c, r, k, now)
    decreases |names|
  {
    if names != [] {
      TimeoutIff(c, r, names[1..], now, k);
      var j := names[0];
      if j in r.subs && TimedOut(c, r, j, now) && TimeoutBlock(j, CheckinDelta(r.subs[j], now)) == TimeoutBlock(k, CheckinDelta(r.subs[k], now)) {
        assert JStr(j) == JStr(k);
      }
      assert TimeoutBlocks(c, r, names, now) ==
             (if j in r.subs && TimedOut(c, r, j, now) then [TimeoutBlock(j, CheckinDelta(r.subs[j], now))] else []) +
             TimeoutBlocks(c, r, names[1..], now);
    }
  }

  /** Every block names a listed agent that has timed out. */
  lemma {:induction false} TimeoutBlocksSound(c: Config, r: Registry, names: seq<string>, now: int)
    ensures forall b :: b in TimeoutBlocks(c, r, names, now) ==>
              exists k :: k in names && k in r.subs && TimedOut(c, r, k, now) && b == TimeoutBlock(k, CheckinDelta(r.subs[k], now))
    decreases |names|
  {
    if names != [] {
      TimeoutBlocksSound(c, r, names[1..], now);
      forall b | b in TimeoutBlocks(c, r, names, now)
        ensures exists k :: k in names && k in r.subs && TimedOut(c, r, k, now) && b == TimeoutBlock(k, CheckinDelta(r.subs[k], now))
      {
        if b !in TimeoutBlocks(c, r, names[1..], now) {
          assert names[0] in names;
        } else {
          var k :| k in names[1..] && k in r.subs && TimedOut(c, r, k, now) && b == TimeoutBlock(k, CheckinDelta(r.subs[k], now));
          assert k in names;
        }
      }
    }
  }

  /** The pass records every agent's delta, queues the timeouts for the
      digest and leaves the rest of the registry alone; with no timeout
      nothing is sent. */
  lemma WatchdogRecords(c: Config, s: HubState, now: int, dumps: Json -> string)
    requires LogValid(s)
    ensures var r := WatchdogPass(c, s, now, dumps);
            var blocks := TimeoutBlocks(c, s.reg, s.reg.order, now);
            r.reg == s.reg.(lastCheckin := Deltas(s.reg, now)) &&
            (forall k :: k in s.reg.subs ==> k in r.reg.lastCheckin && r.reg.lastCheckin[k] == CheckinDelta(s.reg.subs[k], now)) &&
            (blocks == [] ==> r.calls == s.calls && r.extras == s.extras) &&
            (r.extras == s.extras + blocks || r.extras == []) && s.calls <= r.calls && LogValid(r) && r.commands == s.commands
  {
    var blocks := TimeoutBlocks(c, s.reg, s.reg.order, now);
    var s1 := s.(reg := s.reg.(lastCheckin := Deltas(s.reg, now)), extras := s.extras + blocks);
    LogCarries(s, s1);
    if blocks != [] {
      MaybeDigestShape(c, s1, now, "watchdog", dumps);
      DigestExtras(c, s1, now, "watchdog", dumps);
    }
  }

  /** A digest either leaves the extra blocks queued or sends them all. */
  lemma DigestExtras(c: Config, s: HubState, now: int, reason: string, dumps: Json -> string)
    ensures var r := MaybeDigest(c, s, now, reason, dumps);
            r.extras == s.extras || r.extras == []
  {
    MaybeDigestCases(c, s, now, reason, dumps);
    if c.orchestrator.Some? && (s.dirty != [] || s.extras != []) && (s.lastSent == 0 || now - s.lastSent >= Debounce) {
      DigestSent(c, s, now, reason, false, dumps);
    }
  }

  lemma WatchdogValid(c: Config, s: HubState, now: int, dumps: Json -> string)
    requires Valid(s)
    ensures Valid(WatchdogPass(c, s, now, dumps))
  {
    WatchdogRecords(c, s, now, dumps);
  }

  // ------------------------------------------------------------ scheduler

  /** Silent for longer than the check-in interval, with nudges left. */
  predicate NudgeDue(m: Meta, now: int)
  {
    now - m.lastEventAt > m.checkinSeconds && m.nudgesSent < m.maxNudges
  }

  /** Past the time budget and not yet asked to wrap up. */
  predicate WrapUpDue(m: Meta, now: int)
  {
    now - m.startedAt > m.budgetSeconds && !m.closingAfterBudget
  }

  /** Asked to wrap up and silent for more than a minute since. */
  predicate CloseDue(m: Meta, now: int)
  {
    m.closingAfterBudget && now - m.lastEventAt > CloseGrace
  }

  /** An agent's metadata after the scheduler has looked at it: one more
      nudge counted when one is due, and the wrap-up latch set when the
      budget has run out. */
  function Ticked(m: Meta, now: int): (t: Meta)
    ensures m.nudgesSent <= t.nudgesSent <= m.nudgesSent + 1
    ensures m.nudgesSent <= m.maxNudges ==> t.nudgesSent <= t.maxNudges
    ensures t.nudgesSent > m.nudgesSent <==> NudgeDue(m, now)
    ensures t.closingAfterBudget <==> m.closingAfterBudget || WrapUpDue(m, now)
    ensures t == m.(nudgesSent := t.nudgesSent, closingAfterBudget := t.closingAfterBudget)
  {
    var n := if NudgeDue(m, now) then m.nudgesSent + 1 else m.nudgesSent;
    m.(nudgesSent := n, closingAfterBudget := m.closingAfterBudget || WrapUpDue(m, now))
  }

  /** A message to an agent's conversation; nothing if the agent is gone. */
  function MessageTo(r: Registry, name: string, text: string): seq<Call>
  {
    if name in r.subs then [SendMessage(r.subs[name].conversationId, text)] else []
  }

  /** The nudge and the wrap-up request due for an agent, and its ticked
      metadata. */
  function Counted(s: HubState, name: string, m: Meta, now: int): HubState
  {
    var calls := s.calls + (if NudgeDue(m, now) then MessageTo(s.reg, name, NudgeText) else []) +
                 (if WrapUpDue(m, now) then MessageTo(s.reg, name, WrapUpText) else []);
    var reg := if name in s.reg.agentMeta then s.reg.(agentMeta := s.reg.agentMeta[name := Ticked(m, now)]) else s.reg;
    s.(calls := calls, reg := reg)
  }

  /** The scheduler's body for one agent: the nudge, the wrap-up request,
      the counters on the agent's metadata, and the close once a
      wrapped-up agent has been quiet for a minute. */
  function SchedulerStep(c: Config, s: HubState, name: string, m: Meta, now: int): HubState
  {
    var s1 := Counted(s, name, m, now);
    if CloseDue(Ticked(m, now), now) then CloseSub(c, s1, Some(name)) else s1
  }

  /** The names of `list(self.agent_meta.items())`, in insertion order. */
  function Listed(names: seq<string>, snap: map<string, Meta>): (ns: seq<string>)
    ensures forall k :: k in ns <==> k in names && k in snap
    ensures Distinct(names) ==> Distinct(ns)
  {
    if names == [] then []
    else (if names[0] in snap then [names[0]] else []) + Listed(names[1..], snap)
  }

  /** The scheduler's loop over a snapshot of the metadata. */
  function SchedulerOver(c: Config, s: HubState, names: seq<string>, snap: map<string, Meta>, now: int): HubState
    decreases |names|
  {
    if names == [] then s
    else
      var s1 := if names[0] in snap then SchedulerStep(c, s, names[0], snap[names[0]], now) else s;
      SchedulerOver(c, s1, names[1..], snap, now)
  }

  /** One `_scheduler` pass. */
  function SchedulerPass(c: Config, s: HubState, now: int): HubState
  {
    SchedulerOver(c, s, Listed(s.reg.order, s.reg.agentMeta), s.reg.agentMeta, now)
  }

  /** Every agent's nudge count is within its maximum. */
  ghost predicate NudgesBounded(r: Registry)
  {
    forall k :: k in r.agentMeta ==> r.agentMeta[k].nudgesSent <= r.agentMeta[k].maxNudges
  }

  /** What a step for `k` does to the registry. */
  ghost predicate StepFacts(a: Registry, b: Registry, k: string, now: int)
    requires k in a.agentMeta
  {
    (k in b.subs <==> !CloseDue(Ticked(a.agentMeta[k], now), now)) &&
    (k in b.agentMeta ==> b.agentMeta[k] == Ticked(a.agentMeta[k], now)) &&
    (forall j :: j != k ==> (j in b.subs <==> j in a.subs)) &&
    (forall j :: j != k ==> (j in b.agentMeta <==> j in a.agentMeta)) &&
    (forall j :: j != k && j in b.agentMeta ==> b.agentMeta[j] == a.agentMeta[j])
  }

  /** What the loop over `names` does to the registry: each listed agent
      is ticked and closed exactly when its close is due; the others are
      untouched. */
  ghost predicate PassFacts(a: Registry, b: Registry, names: seq<string>, now: int)
  {
    (forall j :: j in b.subs <==> j in a.subs && !(j in names && j in a.agentMeta && CloseDue(Ticked(a.agentMeta[j], now), now))) &&
    (forall j :: j in b.agentMeta ==> j in a.agentMeta) &&
    (forall j :: j in b.agentMeta ==> b.agentMeta[j] == (if j in names then Ticked(a.agentMeta[j], now) else a.agentMeta[j]))
  }

  /** The first half of a step: messages and counters. */
  lemma StepCounters(s: HubState, k: string, m: Meta, now: int)
    requires Valid(s) && k in s.reg.agentMeta
    ensures var s1 := Counted(s, k, m, now);
            Valid(s1) && s1.reg == s.reg.(agentMeta := s.reg.agentMeta[k := Ticked(m, now)]) && k in s1.reg.subs &&
            s.calls + (if NudgeDue(m, now) then MessageTo(s.reg, k, NudgeText) else []) +
            (if WrapUpDue(m, now) then MessageTo(s.reg, k, WrapUpText) else []) == s1.calls
  {
    TouchMetaValid(s.reg, k, Ticked(m, now));
    LogCarries(s, Counted(s, k, m, now));
  }

  /** The part of the registries' consistency the scheduler's bookkeeping needs. */
  ghost predicate Keyed(r: Registry)
  {
    KeysValid(r) && forall k :: k in r.subs ==> IsAgentKey(k)
  }

  /** Closing a registered agent removes it and nothing else. */
  lemma CloseOnly(c: Config, s: HubState, k: string)
    requires Keyed(s.reg) && k in s.reg.subs
    ensures var r := CloseSub(c, s, Some(k));
            Keyed(r.reg) && k !in r.reg.subs && k !in r.reg.agentMeta &&
            (forall j :: j != k ==> (j in r.reg.subs <==> j in s.reg.subs)) &&
            (forall j :: j != k ==> (j in r.reg.agentMeta <==> j in s.reg.agentMeta)) &&
            (forall j :: j != k && j in r.reg.agentMeta ==> r.reg.agentMeta[j] == s.reg.agentMeta[j])
  {
    KeyIsFixedPoint(k);
    CloseKnown(c, s, Some(k));
    assert (s.reg.agentMeta - {k}).Keys == (s.reg.subs - {k}).Keys;
  }

  lemma StepEffect(c: Config, s: HubState, k: string, now: int)
    requires Keyed(s.reg) && k in s.reg.agentMeta
    ensures var r := SchedulerStep(c, s, k, s.reg.agentMeta[k], now);
            Keyed(r.reg) && StepFacts(s.reg, r.reg, k, now)
  {
    var m := s.reg.agentMeta[k];
    var s1 := Counted(s, k, m, now);
    assert s1.reg == s.reg.(agentMeta := s.reg.agentMeta[k := Ticked(m, now)]);
    assert s1.reg.agentMeta.Keys == s.reg.agentMeta.Keys;
    if CloseDue(Ticked(m, now), now) {
      CloseOnly(c, s1, k);
      StepClosed(s.reg, s1.reg, CloseSub(c, s1, Some(k)).reg, k, now);
    }
  }

  lemma StepClosed(a: Registry, b: Registry, r: Registry, k: string, now: int)
    requires k in a.agentMeta && CloseDue(Ticked(a.agentMeta[k], now), now)
    requires b == a.(agentMeta := a.agentMeta[k := Ticked(a.agentMeta[k], now)])
    requires k !in r.subs && k !in r.agentMeta
    requires forall j :: j != k ==> (j in r.subs <==> j in b.subs)
    requires forall j :: j != k ==> (j in r.agentMeta <==> j in b.agentMeta)
    requires forall j :: j != k && j in r.agentMeta ==> r.agentMeta[j] == b.agentMeta[j]
    ensures StepFacts(a, r, k, now)
  {
  }

  lemma ComposeFacts(a: Registry, b: Registry, r: Registry, k: string, rest: seq<string>, now: int)
    requires k in a.agentMeta && k !in rest && KeysValid(a)
    requires StepFacts(a, b, k, now) && PassFacts(b, r, rest, now)
    ensures PassFacts(a, r, [k] + rest, now)
  {
    ComposeSubs(a, b, r, k, rest, now);
    ComposeMeta(a, b, r, k, rest, now);
  }

  lemma ComposeSubs(a: Registry, b: Registry, r: Registry, k: string, rest: seq<string>, now: int)
    requires k in a.agentMeta && k !in rest && KeysValid(a)
    requires StepFacts(a, b, k, now) && PassFacts(b, r, rest, now)
    ensures forall j :: j in r.subs <==> j in a.subs && !(j in [k] + rest && j in a.agentMeta && CloseDue(Ticked(a.agentMeta[j], now), now))
  {
  }

  lemma ComposeMeta(a: Registry, b: Registry, r: Registry, k: string, rest: seq<string>, now: int)
    requires k in a.agentMeta && k !in rest
    requires StepFacts(a, b, k, now) && PassFacts(b, r, rest, now)
    ensures forall j :: j in r.agentMeta ==> j in a.agentMeta
    ensures forall j :: j in r.agentMeta ==> r.agentMeta[j] == (if j in [k] + rest then Ticked(a.agentMeta[j], now) else a.agentMeta[j])
  {
  }

  lemma SkipFacts(a: Registry, r: Registry, k: string, rest: seq<string>, now: int)
    requires k !in a.agentMeta && PassFacts(a, r, rest, now)
    ensures PassFacts(a, r, [k] + rest, now)
  {
  }

  /** Whether the snapshot still agrees with the registry on `names`. */
  ghost predicate SnapAgrees(r: Registry, names: seq<string>, snap: map<string, Meta>)
  {
    (forall k :: k in names && k in snap ==> k in r.agentMeta && r.agentMeta[k] == snap[k]) &&
    (forall k :: k in names && k in r.agentMeta ==> k in snap)
  }

  lemma SnapCarries(a: Registry, b: Registry, k: string, rest: seq<string>, snap: map<string, Meta>, now: int)
    requires k in a.agentMeta && k !in rest && StepFacts(a, b, k, now) && SnapAgrees(a, [k] + rest, snap)
    ensures SnapAgrees(b, rest, snap)
  {
    assert forall j :: j in rest ==> j in [k] + rest && j != k;
  }

  /** The loop over distinct names whose snapshot is the current metadata. */
  lemma {:induction false} OverEffect(c: Config, s: HubState, names: seq<string>, snap: map<string, Meta>, now: int)
    requires Keyed(s.reg) && Distinct(names) && SnapAgrees(s.reg, names, snap)
    ensures PassFacts(s.reg, SchedulerOver(c, s, names, snap, now).reg, names, now)
    decreases |names|, 1
  {
    if names != [] {
      assert names == [names[0]] + names[1..];
      if names[0] in snap {
        OverStep(c, s, names, snap, now);
      } else {
        var r := SchedulerOver(c, s, names, snap, now);
        assert SnapAgrees(s.reg, names[1..], snap);
        OverEffect(c, s, names[1..], snap, now);
        SkipFacts(s.reg, r.reg, names[0], names[1..], now);
      }
    }
  }

  lemma {:induction false} OverStep(c: Config, s: HubState, names: seq<string>, snap: map<string, Meta>, now: int)
    requires Keyed(s.reg) && Distinct(names) && SnapAgrees(s.reg, names, snap)
    requires names != [] && names[0] in snap && names == [names[0]] + names[1..]
    ensures PassFacts(s.reg, SchedulerOver(c, s, names, snap, now).reg, names, now)
    decreases |names|, 0
  {
    var k := names[0];
    assert k !in names[1..];
    var s1 := SchedulerStep(c, s, k, snap[k], now);
    var r := SchedulerOver(c, s1, names[1..], snap, now);
    StepEffect(c, s, k, now);
    SnapCarries(s.reg, s1.reg, k, names[1..], snap, now);
    OverEffect(c, s1, names[1..], snap, now);
    ComposeFacts(s.reg, s1.reg, r.reg, k, names[1..], now);
  }

  /** One step keeps the registries consistent, whatever the snapshot says. */
  lemma StepValid(c: Config, s: HubState, k: string, m: Meta, now: int)
    requires Valid(s)
    ensures Valid(SchedulerStep(c, s, k, m, now))
  {
    var s1 := Counted(s, k, m, now);
    if k in s.reg.agentMeta {
      StepCounters(s, k, m, now);
    } else {
      LogCarries(s, s1);
    }
    CloseValid(c, s1, Some(k));
  }

  /** The loop keeps the registries consistent. */
  lemma {:induction false} OverValid(c: Config, s: HubState, names: seq<string>, snap: map<string, Meta>, now: int)
    requires Valid(s)
    ensures Valid(SchedulerOver(c, s, names, snap, now))
    decreases |names|
  {
    if names != [] {
      var k := names[0];
      if k in snap {
        StepValid(c, s, k, snap[k], now);
        OverValid(c, SchedulerStep(c, s, k, snap[k], now), names[1..], snap, now);
      } else {
        OverValid(c, s, names[1..], snap, now);
      }
    }
  }

  /** One pass ticks every agent and closes exactly those whose close is
      due; the registries stay consistent. */
  lemma SchedulerEffect(c: Config, s: HubState, now: int)
    requires Valid(s)
    ensures var r := SchedulerPass(c, s, now);
            Valid(r) &&
            (forall j :: j in r.reg.subs <==> j in s.reg.subs && !CloseDue(Ticked(s.reg.agentMeta[j], now), now)) &&
            (forall j :: j in r.reg.agentMeta ==> j in s.reg.agentMeta && r.reg.agentMeta[j] == Ticked(s.reg.agentMeta[j], now))
  {
    var names := Listed(s.reg.order, s.reg.agentMeta);
    OverEffect(c, s, names, s.reg.agentMeta, now);
    OverValid(c, s, names, s.reg.agentMeta, now);
  }

  /** No agent is ever nudged more than its maximum. */
  lemma SchedulerNudgesBounded(c: Config, s: HubState, now: int)
    requires Valid(s) && NudgesBounded(s.reg)
    ensures NudgesBounded(SchedulerPass(c, s, now).reg)
  {
    SchedulerEffect(c, s, now);
  }

  /** A wrap-up request is made once: after the pass that asks for it (or
      if one was asked before), no later pass asks again. */
  lemma WrapUpOnce(c: Config, s: HubState, now: int)
    requires Valid(s)
    ensures var r := SchedulerPass(c, s, now);
            forall j :: j in r.reg.agentMeta && j in s.reg.agentMeta &&
                        (s.reg.agentMeta[j].closingAfterBudget || WrapUpDue(s.reg.agentMeta[j], now)) ==>
                          r.reg.agentMeta[j].closingAfterBudget && forall later :: !WrapUpDue(r.reg.agentMeta[j], later)
  {
    SchedulerEffect(c, s, now);
  }
}
