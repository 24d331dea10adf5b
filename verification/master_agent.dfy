/** The master agent's control surface: the human-intervention methods
    (pause, resume, cancel, inject, adjust, broadcast, and the general
    `apply_intervention`), the coordinator callbacks that queue relay events
    for the front end, the drain of that queue, opening the plan's first
    relay station, and the summary extracted for a follow-up round.
    Subagents are seen only through the commands sent to them, recorded in
    order in an action log; the UUIDs, relay-message text and clock reading
    of each broadcast arrive as a `Stamp`. */
module MasterAgent {
  import opened Util
  import opened OrderedTable
  import opened CoreModels
  import opened RelayCoordinator
  import opened Events
  import opened ServerSentEvents
  import LlmProvider

  /** The station id put on queued relay events that have no station. */
  const DefaultInterventionStation: string := "default-intervention-station"

  // Default reasons: "用户暂停了该 Agent", "用户恢复了该 Agent",
  // "用户取消了该 Agent 的任务", "用户广播了一条消息".
  const PauseReason: string := "\U{7528}\U{6237}\U{6682}\U{505C}\U{4E86}\U{8BE5} Agent"
  const ResumeReason: string := "\U{7528}\U{6237}\U{6062}\U{590D}\U{4E86}\U{8BE5} Agent"
  const CancelReason: string := "\U{7528}\U{6237}\U{53D6}\U{6D88}\U{4E86}\U{8BE5} Agent \U{7684}\U{4EFB}\U{52A1}"
  const BroadcastReason: string := "\U{7528}\U{6237}\U{5E7F}\U{64AD}\U{4E86}\U{4E00}\U{6761}\U{6D88}\U{606F}"
  // "用户向 {name} 注入了信息" and "用户调整了 {name} 的工作方向".
  const InjectReasonHead: string := "\U{7528}\U{6237}\U{5411} "
  const InjectReasonTail: string := " \U{6CE8}\U{5165}\U{4E86}\U{4FE1}\U{606F}"
  const AdjustReasonHead: string := "\U{7528}\U{6237}\U{8C03}\U{6574}\U{4E86} "
  const AdjustReasonTail: string := " \U{7684}\U{5DE5}\U{4F5C}\U{65B9}\U{5411}"
  /** "请根据以下指示调整你的工作方向：", the first line of an adjustment message. */
  const AdjustHeading: Line := "\U{8BF7}\U{6839}\U{636E}\U{4EE5}\U{4E0B}\U{6307}\U{793A}\U{8C03}\U{6574}\U{4F60}\U{7684}\U{5DE5}\U{4F5C}\U{65B9}\U{5411}\U{FF1A}"

  /** What the master tells one subagent to do. */
  datatype Command = DoPause | DoResume | DoCancel | DoInject(information: string)

  datatype Action = Action(agentId: string, command: Command)

  /** The master's state: its coordinator, the active subagents (id to
      display name, in spawn order), every command sent so far, and the relay
      events waiting to be polled. */
  datatype Master = Master(coord: Coordinator, active: Table<string>, actions: seq<Action>, pending: seq<Event>)

  /** The fresh values one broadcast draws: the intervention's UUID, the relay
      message's UUID, the message text the coordinator renders, and the clock. */
  datatype Stamp = Stamp(interventionId: string, messageId: string, content: string, now: int)

  ghost predicate WellFormed(m: Master) {
    Valid(m.active) && Valid(m.coord.stations)
  }

  // ---------------------------------------------------------------- callbacks

  /** `station_id or "default-intervention-station"`. */
  function EffectiveStation(station: string): (r: string)
    ensures r != ""
    ensures station != "" ==> r == station
    ensures station == "" ==> r == DefaultInterventionStation
  {
    if station == "" then DefaultInterventionStation else station
  }

  /** The event both callbacks queue for a broadcast message. */
  function RelayEvent(station: string, msg: RelayMessage): (e: Event)
    ensures e.Kind() == RELAY_MESSAGE_SENT && e.stationId == EffectiveStation(station)
  {
    RelayMessageSent(EffectiveStation(station), msg.id, msg.sourceAgentId, msg.sourceAgentName,
                     msg.targetAgentIds, msg.relayType.Value(), msg.content, msg.importance,
                     msg.meta, msg.viewedBy, msg.acknowledgedBy, msg.viewedTimestamps)
  }

  /** The queued event carries the message unchanged apart from the station
      fallback. */
  lemma RelayEventCarriesMessage(station: string, msg: RelayMessage)
    ensures var e := RelayEvent(station, msg);
      && e.relayMessageId == msg.id && e.sourceAgentId == msg.sourceAgentId
      && e.targetAgentIds == msg.targetAgentIds && e.content == msg.content
      && e.relayType == msg.relayType.Value() && e.importance == msg.importance
      && e.viewedBy == msg.viewedBy && e.acknowledgedBy == msg.acknowledgedBy
      && e.viewedTimestamps == msg.viewedTimestamps
  {
  }

  /** `broadcast_intervention` on the master's coordinator with no station
      requested; the coordinator invokes the intervention callback, which
      queues one relay event. */
  function Intervene(m: Master, h: HumanIntervention, st: Stamp): (r: Master)
    requires Valid(m.coord.stations)
    ensures r.coord.interventionHistory == m.coord.interventionHistory + [h]
    ensures |r.coord.messageHistory| == |m.coord.messageHistory| + 1
    ensures r.coord.agents == m.coord.agents && r.coord.activeStationId == m.coord.activeStationId
    ensures |r.pending| == |m.pending| + 1 && r.pending[..|m.pending|] == m.pending
    ensures r.pending[|m.pending|].RelayMessageSent? && r.pending[|m.pending|].stationId != ""
    ensures r.pending[|m.pending|].relayType == HumanInterventionType.Value()
    ensures r.pending[|m.pending|].targetAgentIds == InterventionTargets(h)
    ensures r.active == m.active && r.actions == m.actions
    ensures Valid(r.coord.stations)
    ensures Consistent(m.coord) ==> Consistent(r.coord)
  {
    var out := BroadcastIntervention(m.coord, h, st.messageId, st.content, st.now, None);
    m.(coord := out.coord, pending := m.pending + [RelayEvent(out.notifiedStation, out.message)])
  }

  /** A subagent's relay through the coordinator; the message callback
      queues one relay event. */
  function RelayFromAgent(m: Master, msg: RelayMessage): (r: Master)
    requires Valid(m.coord.stations)
    ensures |r.coord.messageHistory| == |m.coord.messageHistory| + 1
    ensures r.coord.messageHistory[..|m.coord.messageHistory|] == m.coord.messageHistory
    ensures r.coord.interventionHistory == m.coord.interventionHistory
    ensures |r.pending| == |m.pending| + 1 && r.pending[..|m.pending|] == m.pending
    ensures r.pending[|m.pending|].Kind() == RELAY_MESSAGE_SENT && r.pending[|m.pending|].stationId != ""
    ensures r.pending[|m.pending|].relayMessageId == msg.id
    ensures r.active == m.active && r.actions == m.actions
    ensures Valid(r.coord.stations)
  {
    var out := BroadcastMessage(m.coord, msg, None);
    m.(coord := out.coord, pending := m.pending + [RelayEvent(out.notifiedStation, out.message)])
  }

  /** `get_pending_relay_events`: hand out a copy of the queue and clear it. */
  function GetPendingRelayEvents(m: Master): (r: (Master, seq<Event>))
    ensures r.1 == m.pending && r.0.pending == []
    ensures r.0.coord == m.coord && r.0.active == m.active && r.0.actions == m.actions
  {
    (m.(pending := []), m.pending)
  }

  /** A run of interventions, each with its own stamp. */
  function InterveneAll(m: Master, hs: seq<HumanIntervention>, sts: seq<Stamp>): (r: Master)
    requires Valid(m.coord.stations) && |hs| == |sts|
    ensures Valid(r.coord.stations)
    decreases |hs|
  {
    if |hs| == 0 then m else InterveneAll(Intervene(m, hs[0], sts[0]), hs[1..], sts[1..])
  }

  /** Each intervention of a run queues one relay event, in order, after
      whatever was queued before. */
  lemma {:induction false} InterveneAllQueues(m: Master, hs: seq<HumanIntervention>, sts: seq<Stamp>)
    requires Valid(m.coord.stations) && |hs| == |sts|
    ensures |InterveneAll(m, hs, sts).pending| == |m.pending| + |hs|
    ensures InterveneAll(m, hs, sts).pending[..|m.pending|] == m.pending
    ensures forall i :: |m.pending| <= i < |m.pending| + |hs| ==>
      var e := InterveneAll(m, hs, sts).pending[i];
      e.RelayMessageSent? && e.stationId != "" && e.targetAgentIds == InterventionTargets(hs[i - |m.pending|])
    decreases |hs|
  {
    if |hs| > 0 {
      var m1 := Intervene(m, hs[0], sts[0]);
      assert InterveneAll(m, hs, sts) == InterveneAll(m1, hs[1..], sts[1..]);
      InterveneAllQueues(m1, hs[1..], sts[1..]);
      var p := InterveneAll(m1, hs[1..], sts[1..]).pending;
      assert p[..|m1.pending|] == m1.pending;
      assert p[..|m.pending|] == m1.pending[..|m.pending|];
      forall i | |m.pending| <= i < |m.pending| + |hs|
        ensures p[i].RelayMessageSent? && p[i].stationId != "" && p[i].targetAgentIds == InterventionTargets(hs[i - |m.pending|])
      {
        if i == |m.pending| {
          assert p[i] == m1.pending[i];
        } else {
          assert hs[i - |m.pending|] == hs[1..][i - |m1.pending|];
        }
      }
    }
  }

  /** Polling after a run of interventions yields the earlier queue followed
      by exactly one relay event per intervention, in order, each with a
      non-empty station id; the poll leaves the queue empty, so a second poll
      yields nothing. */
  lemma PendingCollectsInterventions(m: Master, hs: seq<HumanIntervention>, sts: seq<Stamp>)
    requires Valid(m.coord.stations) && |hs| == |sts|
    ensures var polled := GetPendingRelayEvents(InterveneAll(m, hs, sts));
      && |polled.1| == |m.pending| + |hs|
      && polled.1[..|m.pending|] == m.pending
      && (forall i :: |m.pending| <= i < |polled.1| ==>
            polled.1[i].RelayMessageSent? && polled.1[i].stationId != ""
            && polled.1[i].targetAgentIds == InterventionTargets(hs[i - |m.pending|]))
      && GetPendingRelayEvents(polled.0).1 == []
  {
    InterveneAllQueues(m, hs, sts);
  }

  // ------------------------------------------------------ control methods

  predicate IsControl(kind: InterventionType) {
    kind == Pause || kind == Resume || kind == Cancel
  }

  function ControlCommand(kind: InterventionType): Command
    requires IsControl(kind)
  {
    match kind
    case Pause => DoPause
    case Resume => DoResume
    case Cancel => DoCancel
  }

  /** The intervention `pause_agent`, `resume_agent` and `cancel_agent`
      broadcast: aimed at the one agent, scope SINGLE, priority 7 / 6 / 8,
      and a stock reason when none is given. */
  function ControlIntervention(kind: InterventionType, agentId: string, reason: string, st: Stamp): (h: HumanIntervention)
    requires IsControl(kind)
    ensures h.kind == kind && h.targetAgentId == Some(agentId) && h.targetAgentIds == []
    ensures h.scope == Single && h.broadcastToRelay && h.payload == EmptyPayload
    ensures h.priority == (match kind case Pause => 7 case Resume => 6 case Cancel => 8)
    ensures reason != "" ==> h.reason == reason
    ensures reason == "" ==> h.reason == (match kind case Pause => PauseReason case Resume => ResumeReason case Cancel => CancelReason)
  {
    var priority := match kind case Pause => 7 case Resume => 6 case Cancel => 8;
    var stock := match kind case Pause => PauseReason case Resume => ResumeReason case Cancel => CancelReason;
    HumanIntervention(st.interventionId, kind, Some(agentId), [], EmptyPayload,
                      if reason == "" then stock else reason, Single, priority, true, st.now)
  }

  /** `pause_agent` / `resume_agent` / `cancel_agent`: `false` and no effect
      for an agent that is not active; otherwise the command is sent and,
      when asked, the intervention is broadcast. */
  function ControlAgent(m: Master, kind: InterventionType, agentId: string, reason: string, broadcast: bool, st: Stamp): (r: (Master, bool))
    requires WellFormed(m) && IsControl(kind)
    ensures agentId !in m.active.rows ==> r == (m, false)
    ensures agentId in m.active.rows ==> r.1 && r.0.actions == m.actions + [Action(agentId, ControlCommand(kind))]
    ensures agentId in m.active.rows && broadcast ==>
      r.0.coord.interventionHistory == m.coord.interventionHistory + [ControlIntervention(kind, agentId, reason, st)]
      && |r.0.pending| == |m.pending| + 1
    ensures !broadcast ==> r.0.coord == m.coord && r.0.pending == m.pending
    ensures r.0.active == m.active
    ensures WellFormed(r.0)
  {
    if agentId !in m.active.rows then (m, false)
    else
      var m1 := m.(actions := m.actions + [Action(agentId, ControlCommand(kind))]);
      if broadcast then (Intervene(m1, ControlIntervention(kind, agentId, reason, st), st), true)
      else (m1, true)
  }

  /** `inject_to_agent`: the information goes straight to the agent (even
      when empty) and the broadcast intervention has scope BROADCAST, so the
      other agents see it without having to act on it. */
  function InjectToAgent(m: Master, agentId: string, information: string, broadcast: bool, priority: int, st: Stamp): (r: (Master, bool))
    requires WellFormed(m)
    ensures agentId !in m.active.rows ==> r == (m, false)
    ensures agentId in m.active.rows ==> r.1 && r.0.actions == m.actions + [Action(agentId, DoInject(information))]
    ensures agentId in m.active.rows && broadcast ==>
      |r.0.coord.interventionHistory| == |m.coord.interventionHistory| + 1
    ensures agentId in m.active.rows && broadcast ==>
      var h := r.0.coord.interventionHistory[|m.coord.interventionHistory|];
      && h.kind == Inject && h.scope == Broadcast && h.targetAgentId == Some(agentId)
      && h.payload.information == Some(information) && h.priority == priority
      && h.reason == InjectReasonHead + m.active.rows[agentId] + InjectReasonTail
    ensures !broadcast ==> r.0.coord == m.coord && r.0.pending == m.pending
    ensures WellFormed(r.0)
  {
    if agentId !in m.active.rows then (m, false)
    else
      var m1 := m.(actions := m.actions + [Action(agentId, DoInject(information))]);
      if broadcast then
        var h := HumanIntervention(st.interventionId, Inject, Some(agentId), [],
                                   Payload(Some(information), None, None),
                                   InjectReasonHead + m.active.rows[agentId] + InjectReasonTail,
                                   Broadcast, priority, true, st.now);
        (Intervene(m1, h, st), true)
      else (m1, true)
  }

  /** `broadcast_to_all_agents`: `false` with no active agents. Otherwise one
      INJECT intervention addressed to every active agent is broadcast, with
      scope ALL when forced and BROADCAST when not; only a forced broadcast
      injects the message into each agent, in spawn order. */
  function BroadcastToAllAgents(m: Master, message: string, reason: string, priority: int, force: bool, st: Stamp): (r: (Master, bool))
    requires WellFormed(m)
    ensures |m.active.keys| == 0 ==> r == (m, false)
    ensures |m.active.keys| > 0 ==>
      r.1 && |r.0.coord.interventionHistory| == |m.coord.interventionHistory| + 1
    ensures |m.active.keys| > 0 ==>
      var h := r.0.coord.interventionHistory[|m.coord.interventionHistory|];
      && h.kind == Inject && h.targetAgentIds == m.active.keys
      && h.scope == (if force then All else Broadcast)
      && h.payload.information == Some(message) && h.priority == priority
      && h.reason == (if reason == "" then BroadcastReason else reason)
    ensures |m.active.keys| > 0 && force ==>
      |r.0.actions| == |m.actions| + |m.active.keys| && r.0.actions[..|m.actions|] == m.actions
      && forall i :: 0 <= i < |m.active.keys| ==>
           r.0.actions[|m.actions| + i] == Action(m.active.keys[i], DoInject(message))
    ensures !force ==> r.0.actions == m.actions
    ensures WellFormed(r.0)
  {
    if |m.active.keys| == 0 then (m, false)
    else
      var m1 := Intervene(m, BroadcastRequest(m.active.keys, message, reason, priority, force, st), st);
      var injected := InjectAll(m.active.keys, message);
      assert |m1.actions + injected| == |m.actions| + |m.active.keys|;
      (if force then m1.(actions := m1.actions + injected) else m1, true)
  }

  /** The INJECT intervention a broadcast files. */
  function BroadcastRequest(targets: seq<string>, message: string, reason: string, priority: int, force: bool,
                            st: Stamp): HumanIntervention
  {
    HumanIntervention(st.interventionId, Inject, None, targets, Payload(Some(message), None, None),
                      if reason == "" then BroadcastReason else reason,
                      if force then All else Broadcast, priority, true, st.now)
  }

  /** One injection per agent, in order. */
  function InjectAll(agents: seq<string>, message: string): (acts: seq<Action>)
    ensures |acts| == |agents|
    ensures forall i :: 0 <= i < |agents| ==> acts[i] == Action(agents[i], DoInject(message))
  {
    seq(|agents|, i requires 0 <= i < |agents| => Action(agents[i], DoInject(message)))
  }

  /** The text an adjustment is injected as: a heading line, then one
      `- key: value` line per entry in dictionary order. */
  function AdjustLines(adjs: seq<Adjustment>): string
    decreases |adjs|
  {
    if |adjs| == 0 then "" else "- " + adjs[0].key + ": " + adjs[0].value + "\n" + AdjustLines(adjs[1..])
  }

  function AdjustMessage(adjs: seq<Adjustment>): string {
    AdjustHeading + "\n" + AdjustLines(adjs)
  }

  predicate SingleLineAdjustments(adjs: seq<Adjustment>) {
    forall i :: 0 <= i < |adjs| ==> IsLine(adjs[i].key) && IsLine(adjs[i].value)
  }

  predicate IsLine(s: string) {
    forall i | 0 <= i < |s| :: !IsBreak(s[i])
  }

  function EntryLine(a: Adjustment): string {
    "- " + a.key + ": " + a.value
  }

  lemma EntryIsLine(a: Adjustment)
    requires IsLine(a.key) && IsLine(a.value)
    ensures IsLine(EntryLine(a))
  {
    var s := EntryLine(a);
    forall i | 0 <= i < |s| ensures !IsBreak(s[i]) {
      if i < 2 {
        assert s[i] == "- "[i];
      } else if i < 2 + |a.key| {
        assert s[i] == a.key[i - 2];
      } else if i < 4 + |a.key| {
        assert s[i] == ": "[i - 2 - |a.key|];
      } else {
        assert s[i] == a.value[i - 4 - |a.key|];
      }
    }
  }

  /** Read back line by line, an adjustment message is its heading and then
      exactly one `- key: value` line per entry, in order, provided keys and
      values are single-line. */
  lemma {:induction false} AdjustLinesSplit(adjs: seq<Adjustment>)
    requires SingleLineAdjustments(adjs)
    ensures SplitLines(AdjustLines(adjs)) == EntryLines(adjs)
    decreases |adjs|
  {
    if |adjs| == 0 {
      assert FirstWhere("", IsBreak).None?;
    } else {
      EntryIsLine(adjs[0]);
      var l: Line := EntryLine(adjs[0]);
      var tail := adjs[1..];
      calc {
        SplitLines(AdjustLines(adjs));
        { assert AdjustLines(adjs) == l + "\n" + AdjustLines(tail); }
        SplitLines(l + "\n" + AdjustLines(tail));
        { SplitLinesCons(l, AdjustLines(tail)); }
        [l] + SplitLines(AdjustLines(tail));
        { AdjustLinesSplit(tail); }
        [l] + EntryLines(tail);
        { assert EntryLines(adjs) == [l] + EntryLines(tail); }
        EntryLines(adjs);
      }
    }
  }

  /** The entry lines of an adjustment message, in order. */
  function EntryLines(adjs: seq<Adjustment>): (ls: seq<string>)
    ensures |ls| == |adjs| && forall i :: 0 <= i < |adjs| ==> ls[i] == EntryLine(adjs[i])
  {
    seq(|adjs|, i requires 0 <= i < |adjs| => EntryLine(adjs[i]))
  }

  lemma AdjustMessageSplit(adjs: seq<Adjustment>)
    requires SingleLineAdjustments(adjs)
    ensures SplitLines(AdjustMessage(adjs)) ==
      [AdjustHeading] + EntryLines(adjs)
  {
    SplitLinesCons(AdjustHeading, AdjustLines(adjs));
    AdjustLinesSplit(adjs);
  }

  /** `adjust_agent`: the adjustments are injected as text and, when asked,
      broadcast as an ADJUST intervention with priority 6 and scope BROADCAST. */
  function AdjustAgent(m: Master, agentId: string, adjs: seq<Adjustment>, reason: string, broadcast: bool, st: Stamp): (r: (Master, bool))
    requires WellFormed(m)
    ensures agentId !in m.active.rows ==> r == (m, false)
    ensures agentId in m.active.rows ==> r.1 && r.0.actions == m.actions + [Action(agentId, DoInject(AdjustMessage(adjs)))]
    ensures agentId in m.active.rows && broadcast ==>
      |r.0.coord.interventionHistory| == |m.coord.interventionHistory| + 1
    ensures agentId in m.active.rows && broadcast ==>
      var h := r.0.coord.interventionHistory[|m.coord.interventionHistory|];
      && h.kind == Adjust && h.scope == Broadcast && h.priority == 6 && h.targetAgentId == Some(agentId)
      && h.payload.adjustments == Some(adjs)
      && h.reason == (if reason == "" then AdjustReasonHead + m.active.rows[agentId] + AdjustReasonTail else reason)
    ensures !broadcast ==> r.0.coord == m.coord && r.0.pending == m.pending
    ensures WellFormed(r.0)
  {
    if agentId !in m.active.rows then (m, false)
    else
      var m1 := m.(actions := m.actions + [Action(agentId, DoInject(AdjustMessage(adjs)))]);
      if broadcast then
        var h := HumanIntervention(st.interventionId, Adjust, Some(agentId), [],
                                   Payload(None, Some(adjs), None),
                                   if reason == "" then AdjustReasonHead + m.active.rows[agentId] + AdjustReasonTail else reason,
                                   Broadcast, 6, true, st.now);
        (Intervene(m1, h, st), true)
      else (m1, true)
  }

  // ---------------------------------------------------- apply_intervention

  /** The agents `apply_intervention` acts on, before unknown ones are
      skipped. */
  function ApplyTargets(m: Master, h: HumanIntervention): (r: seq<string>)
    ensures h.scope == Single ==> r == (if Truthy(h.targetAgentId) then [h.targetAgentId.value] else [])
    ensures h.scope == Selected ==> r == h.targetAgentIds
    ensures h.scope == All || h.scope == Broadcast ==> r == m.active.keys
  {
    match h.scope
    case Single => if Truthy(h.targetAgentId) then [h.targetAgentId.value] else []
    case Selected => h.targetAgentIds
    case _ => m.active.keys
  }

  /** What each targeted agent is told: RESTART does nothing, and an inject
      or adjust without content is dropped. */
  function CommandFor(h: HumanIntervention): (r: Option<Command>)
    ensures h.kind == Restart ==> r.None?
    ensures h.kind == Inject ==> (r.Some? <==> Truthy(h.payload.information))
    ensures h.kind == Adjust ==> (r.Some? <==> h.payload.adjustments.Some? && |h.payload.adjustments.value| > 0)
    ensures IsControl(h.kind) ==> r == Some(ControlCommand(h.kind))
  {
    match h.kind
    case Pause => Some(DoPause)
    case Resume => Some(DoResume)
    case Cancel => Some(DoCancel)
    case Restart => None
    case Inject => if Truthy(h.payload.information) then Some(DoInject(h.payload.information.value)) else None
    case Adjust =>
      if h.payload.adjustments.Some? && |h.payload.adjustments.value| > 0
      then Some(DoInject(AdjustMessage(h.payload.adjustments.value))) else None
  }

  /** One command per target that is an active agent, in target order. */
  function ActionsFor(active: Table<string>, targets: seq<string>, cmd: Command): (r: seq<Action>)
    ensures |r| == |Filter(targets, t => t in active.rows)|
    ensures forall i :: 0 <= i < |r| ==> r[i] == Action(Filter(targets, t => t in active.rows)[i], cmd)
    decreases |targets|
  {
    if |targets| == 0 then []
    else
      FilterCons(targets, t => t in active.rows);
      (if targets[0] in active.rows then [Action(targets[0], cmd)] else []) + ActionsFor(active, targets[1..], cmd)
  }

  /** `apply_intervention`: act on every known target, then broadcast when
      `broadcast_to_relay` is set; always `true`. */
  function ApplyIntervention(m: Master, h: HumanIntervention, st: Stamp): (r: (Master, bool))
    requires WellFormed(m)
    ensures r.1
    ensures var cmd := CommandFor(h);
      r.0.actions == m.actions + (if cmd.Some? then ActionsFor(m.active, ApplyTargets(m, h), cmd.value) else [])
    ensures forall i :: |m.actions| <= i < |r.0.actions| ==>
      r.0.actions[i].agentId in m.active.rows && r.0.actions[i].agentId in ApplyTargets(m, h)
    ensures h.broadcastToRelay ==>
      r.0.coord.interventionHistory == m.coord.interventionHistory + [h] && |r.0.pending| == |m.pending| + 1
    ensures !h.broadcastToRelay ==> r.0.coord == m.coord && r.0.pending == m.pending
    ensures r.0.active == m.active
    ensures WellFormed(r.0)
  {
    var cmd := CommandFor(h);
    var targets := ApplyTargets(m, h);
    var acts := if cmd.Some? then ActionsFor(m.active, targets, cmd.value) else [];
    FilterMembershipAll(targets, t => t in m.active.rows);
    var m1 := m.(actions := m.actions + acts);
    (if h.broadcastToRelay then Intervene(m1, h, st) else m1, true)
  }

  /** Pausing, resuming or cancelling an active agent through its own method
      is the same as applying the intervention that method broadcasts. */
  lemma ControlIsApply(m: Master, kind: InterventionType, agentId: string, reason: string, st: Stamp)
    requires WellFormed(m) && IsControl(kind) && agentId in m.active.rows && agentId != ""
    ensures ControlAgent(m, kind, agentId, reason, true, st)
         == ApplyIntervention(m, ControlIntervention(kind, agentId, reason, st), st)
  {
    var h := ControlIntervention(kind, agentId, reason, st);
    assert ApplyTargets(m, h) == [agentId];
    FilterCons([agentId], t => t in m.active.rows);
    assert Filter([agentId], t => t in m.active.rows) == [agentId];
    assert ActionsFor(m.active, [agentId], ControlCommand(kind)) == [Action(agentId, ControlCommand(kind))];
  }

  /** SELECTED with an empty id list acts on nobody, yet the coordinator,
      reading the same empty list, delivers the relay message to every
      registered agent. */
  lemma EmptySelectionActsOnNoneButReachesAll(m: Master, h: HumanIntervention, st: Stamp)
    requires WellFormed(m) && h.scope == Selected && h.targetAgentIds == []
    ensures ApplyIntervention(m, h, st).0.actions == m.actions
    ensures InterventionTargets(h) == []
  {
    var cmd := CommandFor(h);
    if cmd.Some? {
      assert Filter([], (t: string) => t in m.active.rows) == [];
    }
  }

  // ------------------------------------------------ plan's first relay station

  /** The relay station id `_convert_event` puts on a subagent's relay event:
      `active_station_id or ""`. */
  function ConvertedStation(c: Coordinator): (r: string)
    ensures Truthy(c.activeStationId) ==> r == c.activeStationId.value
    ensures !Truthy(c.activeStationId) ==> r == ""
  {
    if Truthy(c.activeStationId) then c.activeStationId.value else ""
  }

  /** Opening the plan's first station as written: `open_station` is called
      with an id the coordinator has never seen (plan stations are built
      directly, never through `create_station`), its `false` result is
      ignored, and RELAY_STATION_OPENED is emitted regardless. */
  function OpenPlanStationAsWritten(m: Master, station: RelayStation, participants: seq<string>): (r: (Master, Event))
    requires WellFormed(m)
    ensures r.1 == RelayStationOpened(station.id, station.name, station.phase, participants)
    ensures station.id !in m.coord.stations.rows ==> r.0 == m
  {
    var op := OpenStation(m.coord, station.id);
    (m.(coord := op.0), RelayStationOpened(station.id, station.name, station.phase, participants))
  }

  /** The defect: on the master's coordinator, which never has a station
      created, the announced station is not open afterwards, every relay
      event of the run carries station `""`, and every intervention event
      falls back to the default station. */
  lemma PlanStationNeverOpens(m: Master, station: RelayStation, participants: seq<string>, h: HumanIntervention, st: Stamp)
    requires WellFormed(m) && m.coord == NewCoordinator().(agents := m.coord.agents, handlers := m.coord.handlers)
    ensures var r := OpenPlanStationAsWritten(m, station, participants);
      && r.1.Kind() == RELAY_STATION_OPENED && r.1.stationId == station.id
      && r.0.coord.activeStationId.None?
      && ConvertedStation(r.0.coord) == ""
      && Intervene(r.0, h, st).pending[|r.0.pending|].stationId == DefaultInterventionStation
  {
    var r := OpenPlanStationAsWritten(m, station, participants);
    assert r.0 == m;
    InterventionWithoutStation(m, h, st);
  }

  lemma InterventionWithoutStation(m: Master, h: HumanIntervention, st: Stamp)
    requires WellFormed(m) && m.coord == NewCoordinator().(agents := m.coord.agents, handlers := m.coord.handlers)
    ensures Intervene(m, h, st).pending[|m.pending|].stationId == DefaultInterventionStation
  {
    var out := BroadcastIntervention(m.coord, h, st.messageId, st.content, st.now, None);
    assert out.notifiedStation == "";
  }

  /** The intended behaviour: register the plan's station with the
      coordinator when it is not known yet, then open it. */
  function OpenPlanStation(m: Master, station: RelayStation, participants: seq<string>): (r: (Master, Event))
    requires WellFormed(m) && station.id != ""
    ensures r.1 == RelayStationOpened(station.id, station.name, station.phase, participants)
    ensures r.0.coord.activeStationId == Some(station.id)
    ensures station.id in r.0.coord.stations.rows && r.0.coord.stations.rows[station.id].isActive
    ensures r.0.active == m.active && r.0.actions == m.actions && r.0.pending == m.pending
    ensures WellFormed(r.0)
    ensures Consistent(m.coord) ==> Consistent(r.0.coord)
  {
    var c1 := if station.id in m.coord.stations.rows then m.coord
              else CreateStation(m.coord, station.id, station.name, station.phase, participants).0;
    var op := OpenStation(c1, station.id);
    (m.(coord := op.0), RelayStationOpened(station.id, station.name, station.phase, participants))
  }

  /** With the station registered and opened, relay events carry its id and
      interventions are filed under it. */
  lemma OpenedStationIsUsed(m: Master, station: RelayStation, participants: seq<string>, h: HumanIntervention, st: Stamp)
    requires WellFormed(m) && station.id != ""
    ensures var r := OpenPlanStation(m, station, participants);
      && ConvertedStation(r.0.coord) == station.id
      && Intervene(r.0, h, st).pending[|r.0.pending|].stationId == station.id
      && |Intervene(r.0, h, st).coord.stations.rows[station.id].messages|
         == |r.0.coord.stations.rows[station.id].messages| + 1
  {
    var r := OpenPlanStation(m, station, participants);
    var out := BroadcastIntervention(r.0.coord, h, st.messageId, st.content, st.now, None);
    assert out.notifiedStation == station.id;
  }

  // ------------------------------------------------------- session summary

  datatype RoleInfo = RoleInfo(name: string, description: string, capabilities: seq<string>,
                               focusAreas: seq<string>, taskSegment: string, expertise: string)

  /** What `extract_session_summary` reads from a task session's plan: the
      analysis, the task, and per subagent config its role and task segment. */
  datatype PlanInfo = PlanInfo(analysis: string, originalTask: string, configs: seq<RoleInfo>)

  datatype TaskRecord = TaskRecord(plan: Option<PlanInfo>, finalReport: Option<string>)

  datatype SessionSummary = SessionSummary(
    finalReport: string,
    plan: Option<(string, string)>,
    interventionSummary: Option<string>,
    roles: seq<RoleInfo>)

  /** Python `str(dict)` of string-valued adjustments: each key and value
      in Python's string `repr`. */
  function DictRepr(adjs: seq<Adjustment>): string {
    LlmProvider.PyDictRepr(seq(|adjs|, i requires 0 <= i < |adjs| => (adjs[i].key, adjs[i].value)))
  }

  /** The detail shown for one intervention: the injected text, the
      adjustments, or the reason (the type's value when there is none),
      the first two cut to 200 characters. */
  function InterventionDetail(h: HumanIntervention): (r: string)
    ensures h.kind == Inject || h.kind == Adjust ==> |r| <= 200
  {
    match h.kind
    case Inject => Take(h.payload.information.GetOr(""), 200)
    case Adjust => Take(DictRepr(h.payload.adjustments.GetOr([])), 200)
    case _ => if h.reason != "" then h.reason else h.kind.Value()
  }

  function InterventionLine(h: HumanIntervention): string {
    "- [" + h.kind.Value() + "] " + InterventionDetail(h)
  }

  /** One line per intervention among the last five, oldest first. */
  function SummaryLines(history: seq<HumanIntervention>): (r: seq<string>)
    ensures |r| == Min(5, |history|)
    ensures forall i :: 0 <= i < |r| ==> r[i] == InterventionLine(history[|history| - |r| + i])
  {
    var recent := Last(history, 5);
    seq(|recent|, i requires 0 <= i < |recent| => InterventionLine(recent[i]))
  }

  /** The task session the summary reads: the current one when it is known,
      else the most recently created one. */
  function CurrentSession(sessions: Table<TaskRecord>, current: Option<string>): (r: Option<TaskRecord>)
    requires Valid(sessions)
    ensures Truthy(current) && current.value in sessions.rows ==> r == Some(sessions.rows[current.value])
    ensures !(Truthy(current) && current.value in sessions.rows) ==>
      r == (if |sessions.keys| == 0 then None else Some(sessions.rows[sessions.keys[|sessions.keys| - 1]]))
  {
    if Truthy(current) && current.value in sessions.rows then Some(sessions.rows[current.value])
    else if |sessions.keys| == 0 then None
    else Some(sessions.rows[sessions.keys[|sessions.keys| - 1]])
  }

  /** `extract_session_summary`. */
  function ExtractSessionSummary(sessions: Table<TaskRecord>, current: Option<string>, c: Coordinator): (r: SessionSummary)
    requires Valid(sessions)
    ensures var s := CurrentSession(sessions, current);
      && r.finalReport == (if s.Some? && Truthy(s.value.finalReport) then s.value.finalReport.value else "")
      && (s.Some? && s.value.plan.Some? ==> r.roles == s.value.plan.value.configs)
      && (s.None? || s.value.plan.None? ==> r.roles == [] && r.plan.None?)
    ensures r.interventionSummary.Some? <==> |c.interventionHistory| > 0
    ensures r.interventionSummary.Some? ==> r.interventionSummary.value == Join(SummaryLines(c.interventionHistory), "\n")
  {
    var s := CurrentSession(sessions, current);
    var report := if s.Some? && Truthy(s.value.finalReport) then s.value.finalReport.value else "";
    var plan := if s.Some? && s.value.plan.Some? then Some((s.value.plan.value.analysis, s.value.plan.value.originalTask)) else None;
    var roles := if s.Some? && s.value.plan.Some? then s.value.plan.value.configs else [];
    var summary := if |c.interventionHistory| > 0 then Some(Join(SummaryLines(c.interventionHistory), "\n")) else None;
    SessionSummary(report, plan, summary, roles)
  }

  /** The intervention summary covers at most the five newest interventions,
      one line each in order, and an injected text contributes at most 200
      characters of its own. */
  lemma SummaryCoversLastFive(history: seq<HumanIntervention>)
    ensures |SummaryLines(history)| <= 5
    ensures |history| >= 5 ==> forall i :: 0 <= i < 5 ==>
      SummaryLines(history)[i] == InterventionLine(history[|history| - 5 + i])
    ensures forall i :: 0 <= i < |SummaryLines(history)| ==>
      var h := history[|history| - |SummaryLines(history)| + i];
      h.kind == Inject ==> |SummaryLines(history)[i]| <= |"- [inject] "| + 200
  {
  }
}
