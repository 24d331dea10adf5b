/** The adaptive relay trigger: after each response an agent asks whether
    to call a relay. Five rules are tried in a fixed order (an explicit
    request marker, a key-discovery marker, a cross-domain keyword, at least
    two uncertainty words, a progress checkpoint), and the trigger remembers
    which checkpoints each agent has already passed so that each of 25, 50
    and 75 percent fires at most once per agent. */
module RelayTrigger {
  import opened Util
  import opened CoreModels

  /** "[请求中继": the opening of an explicit relay request. */
  const ExplicitRequestMarker: string := "[\U{8BF7}\U{6C42}\U{4E2D}\U{7EE7}"
  /** "[关键发现]": a key-discovery tag. */
  const DiscoveryMarker: string := "[\U{5173}\U{952E}\U{53D1}\U{73B0}]"

  /** Phrases suggesting the text concerns another agent's domain, tried in
      this order. */
  const CrossDomainKeywords: seq<string> := [
    "\U{8FD9}\U{4E0E}", "\U{53EF}\U{80FD}\U{4E0E}", "\U{9700}\U{8981}\U{786E}\U{8BA4}",
    "\U{6709}\U{5173}\U{8054}", "\U{5EFA}\U{8BAE}", "\U{5047}\U{8BBE}", "\U{63A8}\U{6D4B}",
    "\U{53EF}\U{80FD}\U{5F71}\U{54CD}"]

  /** Words signalling uncertainty; two distinct ones are enough to fire. */
  const UncertaintyKeywords: seq<string> := [
    "\U{4E0D}\U{786E}\U{5B9A}", "\U{53EF}\U{80FD}", "\U{4E5F}\U{8BB8}",
    "\U{6709}\U{5F85}\U{9A8C}\U{8BC1}", "\U{9700}\U{8981}\U{66F4}\U{591A}\U{4FE1}\U{606F}"]

  const ProgressThresholds: seq<int> := [25, 50, 75]

  /** Why the trigger fired; the source reports these as display strings. */
  datatype Reason =
    | ExplicitRequest
    | KeyDiscovery
    | CrossDomain(keyword: string)
    | HighUncertainty
    | ProgressNode(threshold: int)

  datatype Decision = Fire(relayType: RelayType, reason: Reason) | Quiet

  datatype TriggerRecord = TriggerRecord(agentId: string, progress: int, timestamp: int)

  /** `threshold` is stored by the constructor but no rule reads it. */
  datatype Trigger = Trigger(threshold: int, history: seq<TriggerRecord>)

  function NewTrigger(): (t: Trigger)
    ensures t.history == [] && t.threshold == 70
  {
    Trigger(70, [])
  }

  /** `_has_triggered_at_progress`. */
  predicate HasTriggeredAt(t: Trigger, agentId: string, p: int) {
    exists i :: 0 <= i < |t.history| && t.history[i].agentId == agentId && t.history[i].progress == p
  }

  /** The first keyword of `keys`, in list order, that occurs in `content`. */
  function FirstPresent(content: string, keys: seq<string>): (r: Option<string>)
    ensures r.Some? ==> r.value in keys && Contains(content, r.value)
    ensures r.None? <==> forall k :: k in keys ==> !Contains(content, k)
    ensures r.Some? ==>
      (exists i :: 0 <= i < |keys| && keys[i] == r.value && forall j :: 0 <= j < i ==> !Contains(content, keys[j]))
  {
    if |keys| == 0 then None
    else if Contains(content, keys[0]) then Some(keys[0])
    else
      var rest := FirstPresent(content, keys[1..]);
      assert forall k :: k in keys ==> k == keys[0] || k in keys[1..];
      rest
  }

  /** How many uncertainty words occur in `content`. */
  function UncertaintyCount(content: string): (n: nat)
    ensures n <= |UncertaintyKeywords|
  {
    CountWhere(UncertaintyKeywords, k => Contains(content, k))
  }

  /** The first checkpoint this agent has reached but not yet fired. */
  function DueThreshold(t: Trigger, agentId: string, progress: int, ths: seq<int>): (r: Option<int>)
    ensures r.Some? ==> r.value in ths && progress >= r.value && !HasTriggeredAt(t, agentId, r.value)
    ensures r.None? <==> forall th :: th in ths && progress >= th ==> HasTriggeredAt(t, agentId, th)
  {
    if |ths| == 0 then None
    else if progress >= ths[0] && !HasTriggeredAt(t, agentId, ths[0]) then Some(ths[0])
    else
      assert forall th :: th in ths ==> th == ths[0] || th in ths[1..];
      DueThreshold(t, agentId, progress, ths[1..])
  }

  /** `should_trigger`: the rules in precedence order. Only a checkpoint
      firing changes the trigger, by recording exactly that checkpoint. */
  function ShouldTrigger(t: Trigger, agent: SubagentState, content: string, now: int): (r: (Trigger, Decision))
    ensures Contains(content, ExplicitRequestMarker) ==>
      r == (t, Fire(Alignment, ExplicitRequest))
    ensures !Contains(content, ExplicitRequestMarker) && Contains(content, DiscoveryMarker) ==>
      r == (t, Fire(Discovery, KeyDiscovery))
    ensures r.1.Fire? && r.1.reason.CrossDomain? ==>
      r.0 == t && r.1.relayType == Alignment && r.1.reason.keyword in CrossDomainKeywords
      && Contains(content, r.1.reason.keyword)
    ensures r.1.Fire? && r.1.reason == HighUncertainty ==>
      r.0 == t && r.1.relayType == Alignment && UncertaintyCount(content) >= 2
      && forall k :: k in CrossDomainKeywords ==> !Contains(content, k)
    ensures r.1.Fire? && r.1.reason.ProgressNode? ==>
      var th := r.1.reason.threshold;
      && r.1.relayType == Checkpoint
      && th in ProgressThresholds && agent.progress >= th
      && !HasTriggeredAt(t, agent.id, th)
      && r.0 == t.(history := t.history + [TriggerRecord(agent.id, th, now)])
    ensures r.1.Quiet? ==>
      && r.0 == t
      && !Contains(content, ExplicitRequestMarker) && !Contains(content, DiscoveryMarker)
      && (forall k :: k in CrossDomainKeywords ==> !Contains(content, k))
      && UncertaintyCount(content) < 2
      && (forall th :: th in ProgressThresholds && agent.progress >= th ==> HasTriggeredAt(t, agent.id, th))
  {
    if Contains(content, ExplicitRequestMarker) then (t, Fire(Alignment, ExplicitRequest))
    else if Contains(content, DiscoveryMarker) then (t, Fire(Discovery, KeyDiscovery))
    else
      var kw := FirstPresent(content, CrossDomainKeywords);
      if kw.Some? then (t, Fire(Alignment, CrossDomain(kw.value)))
      else if UncertaintyCount(content) >= 2 then (t, Fire(Alignment, HighUncertainty))
      else
        var due := DueThreshold(t, agent.id, agent.progress, ProgressThresholds);
        if due.Some? then
          (t.(history := t.history + [TriggerRecord(agent.id, due.value, now)]), Fire(Checkpoint, ProgressNode(due.value)))
        else (t, Quiet)
  }

  /** No (agent, checkpoint) pair is recorded twice, and only the three
      checkpoints are ever recorded. */
  ghost predicate OncePerAgent(t: Trigger) {
    (forall i, j :: 0 <= i < j < |t.history| ==>
       t.history[i].agentId != t.history[j].agentId || t.history[i].progress != t.history[j].progress)
    && (forall i :: 0 <= i < |t.history| ==> t.history[i].progress in ProgressThresholds)
  }

  /** One call keeps the record duplicate-free. */
  lemma ShouldTriggerKeepsOnce(t: Trigger, agent: SubagentState, content: string, now: int)
    requires OncePerAgent(t)
    ensures OncePerAgent(ShouldTrigger(t, agent, content, now).0)
  {
    var r := ShouldTrigger(t, agent, content, now);
    if r.1.Fire? && r.1.reason.ProgressNode? {
      var th := r.1.reason.threshold;
      var h := r.0.history;
      assert h == t.history + [TriggerRecord(agent.id, th, now)];
      forall i | 0 <= i < |t.history|
        ensures h[i].agentId != agent.id || h[i].progress != th
      {
        assert h[i] == t.history[i];
      }
    }
  }

  /** One observation by an agent: its current state and its latest response. */
  datatype Observation = Observation(agent: SubagentState, content: string, at: int)

  /** Feed a run of observations through the trigger, collecting decisions. */
  function Run(t: Trigger, obs: seq<Observation>): (r: (Trigger, seq<Decision>))
    ensures |r.1| == |obs|
    decreases |obs|
  {
    if |obs| == 0 then (t, [])
    else
      var step := ShouldTrigger(t, obs[0].agent, obs[0].content, obs[0].at);
      var rest := Run(step.0, obs[1..]);
      (rest.0, [step.1] + rest.1)
  }

  /** Across any run starting from a fresh trigger, every checkpoint of
      every agent is recorded at most once. */
  lemma {:induction false} RunKeepsOnce(t: Trigger, obs: seq<Observation>)
    requires OncePerAgent(t)
    ensures OncePerAgent(Run(t, obs).0)
    decreases |obs|
  {
    if |obs| > 0 {
      ShouldTriggerKeepsOnce(t, obs[0].agent, obs[0].content, obs[0].at);
      RunKeepsOnce(ShouldTrigger(t, obs[0].agent, obs[0].content, obs[0].at).0, obs[1..]);
    }
  }

  /** The record only grows along a run. */
  lemma {:induction false} RunOnlyAppends(t: Trigger, obs: seq<Observation>)
    ensures |t.history| <= |Run(t, obs).0.history|
    ensures Run(t, obs).0.history[..|t.history|] == t.history
    decreases |obs|
  {
    if |obs| > 0 {
      var step := ShouldTrigger(t, obs[0].agent, obs[0].content, obs[0].at);
      StepOnlyAppends(t, obs[0].agent, obs[0].content, obs[0].at);
      RunOnlyAppends(step.0, obs[1..]);
      var h := Run(t, obs).0.history;
      assert h == Run(step.0, obs[1..]).0.history;
      assert h[..|t.history|] == h[..|step.0.history|][..|t.history|];
    }
  }

  lemma StepOnlyAppends(t: Trigger, agent: SubagentState, content: string, now: int)
    ensures var h := ShouldTrigger(t, agent, content, now).0.history;
            |t.history| <= |h| && h[..|t.history|] == t.history
  {
  }

  /** Once an agent has fired a checkpoint, the same call state never
      fires it again: a second identical observation is not a checkpoint
      firing at that threshold. */
  lemma CheckpointNotRepeated(t: Trigger, agent: SubagentState, content: string, now: int, later: int)
    ensures var first := ShouldTrigger(t, agent, content, now);
      first.1.Fire? && first.1.reason.ProgressNode? ==>
      ShouldTrigger(first.0, agent, content, later).1 != first.1
  {
    var first := ShouldTrigger(t, agent, content, now);
    if first.1.Fire? && first.1.reason.ProgressNode? {
      var th := first.1.reason.threshold;
      assert first.0.history[|t.history|] == TriggerRecord(agent.id, th, now);
      assert HasTriggeredAt(first.0, agent.id, th);
    }
  }
}
