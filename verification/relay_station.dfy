/** The per-session relay coordinator: the stations of one session, at most
    one of which is open at a time, the agents registered to receive relay
    messages, and the append-only logs of every broadcast message and every
    human intervention. Station ids come from the caller (the source draws a
    fresh UUID), the clock is a parameter, and callbacks are reported as the
    list of deliveries they would receive. */
module RelayCoordinator {
  import opened Util
  import opened OrderedTable
  import opened CoreModels

  datatype Coordinator = Coordinator(
    stations: Table<RelayStation>,
    activeStationId: Option<string>,
    messageHistory: seq<RelayMessage>,
    interventionHistory: seq<HumanIntervention>,
    /** the keys of `agent_callbacks`, in registration order */
    agents: seq<string>,
    /** the keys of `agent_intervention_handlers` */
    handlers: set<string>)

  /** One callback invocation: which agent, and whether its dedicated
      intervention handler (rather than the plain callback) is used. */
  datatype Delivery = Delivery(agentId: string, viaHandler: bool)

  /** What `close_station` hands to `on_station_closed`: the station's
      name and phase, how many messages it holds and how many of them are
      human interventions. The wording of the summary text is not modelled. */
  datatype StationSummary = StationSummary(name: string, phase: int, messageCount: nat, interventionCount: nat)

  /** The outcome of a broadcast: the new state, the message as stored, the
      deliveries in order, and the station id passed to the front-end
      notification (`""` when there is none). */
  datatype Broadcast = Outcome(coord: Coordinator, message: RelayMessage, deliveries: seq<Delivery>, notifiedStation: string)

  /** The reachable states: station keys are non-empty ids naming their own
      station, a station is active exactly when it is the recorded active
      station, and no agent is registered twice. */
  ghost predicate Consistent(c: Coordinator) {
    Valid(c.stations)
    && (forall k :: k in c.stations.rows ==> k != "" && c.stations.rows[k].id == k)
    && (forall k :: k in c.stations.rows ==> (c.stations.rows[k].isActive <==> c.activeStationId == Some(k)))
    && (c.activeStationId.Some? ==> c.activeStationId.value in c.stations.rows)
    && Distinct(c.agents)
  }

  function NewCoordinator(): (c: Coordinator)
    ensures Consistent(c)
    ensures c.stations.rows == map[] && c.activeStationId.None? && c.agents == []
  {
    Coordinator(Empty(), None, [], [], [], {})
  }

  // ----------------------------------------------------------- registration

  /** `register_agent`: the callback entry is (re)set, keeping its position
      when the agent was already registered; a handler is recorded only when
      one is given, so re-registering without one keeps the old handler. */
  function RegisterAgent(c: Coordinator, agentId: string, withHandler: bool): (r: Coordinator)
    ensures forall a :: a in r.agents <==> a in c.agents || a == agentId
    ensures agentId in c.agents ==> r.agents == c.agents
    ensures agentId !in c.agents ==> r.agents == c.agents + [agentId]
    ensures withHandler ==> r.handlers == c.handlers + {agentId}
    ensures !withHandler ==> r.handlers == c.handlers
    ensures Consistent(c) ==> Consistent(r)
    ensures r.stations == c.stations && r.messageHistory == c.messageHistory
  {
    var agents := if agentId in c.agents then c.agents else c.agents + [agentId];
    c.(agents := agents, handlers := if withHandler then c.handlers + {agentId} else c.handlers)
  }

  /** `unregister_agent`: both entries are popped; unknown ids are a no-op. */
  function UnregisterAgent(c: Coordinator, agentId: string): (r: Coordinator)
    requires Distinct(c.agents)
    ensures forall a :: a in r.agents <==> a in c.agents && a != agentId
    ensures r.handlers == c.handlers - {agentId}
    ensures agentId !in c.agents ==> r.agents == c.agents
    ensures Consistent(c) ==> Consistent(r)
  {
    DistinctRemoveFirst(c.agents, agentId);
    c.(agents := RemoveFirst(c.agents, agentId), handlers := c.handlers - {agentId})
  }

  // --------------------------------------------------------------- stations

  /** `create_station`: a new, closed, empty station under a fresh id; the
      open station, if any, stays open. */
  function CreateStation(c: Coordinator, id: string, name: string, phase: int, participants: seq<string>): (r: (Coordinator, RelayStation))
    requires Valid(c.stations)
    requires id != "" && id !in c.stations.rows
    ensures r.1 == NewRelayStation(id, name, phase, participants)
    ensures !r.1.isActive && r.1.messages == []
    ensures r.0.stations.rows == c.stations.rows[id := r.1]
    ensures r.0.stations.keys == c.stations.keys + [id]
    ensures r.0.activeStationId == c.activeStationId
    ensures r.0.messageHistory == c.messageHistory && r.0.agents == c.agents
    ensures Consistent(c) ==> Consistent(r.0)
  {
    var st := NewRelayStation(id, name, phase, participants);
    (c.(stations := Put(c.stations, id, st)), st)
  }

  /** The summary handed to `on_station_closed`. */
  function Summarize(st: RelayStation): (s: StationSummary)
    ensures s.messageCount == |st.messages|
    ensures s.interventionCount <= s.messageCount
    ensures s.interventionCount == |Filter(st.messages, IsIntervention)|
  {
    CountIsFilterLength(st.messages, IsIntervention);
    StationSummary(st.name, st.phase, |st.messages|, CountWhere(st.messages, IsIntervention))
  }

  predicate IsIntervention(m: RelayMessage) {
    m.relayType == HumanInterventionType
  }

  /** `close_station`: `None` for an unknown id. Otherwise the station is
      closed, and the active id is cleared only when it named this station. */
  function CloseStation(c: Coordinator, id: string): (r: (Coordinator, Option<StationSummary>))
    requires Valid(c.stations)
    ensures id !in c.stations.rows ==> r.0 == c && r.1.None?
    ensures id in c.stations.rows ==>
      && r.1.Some?
      && r.0.stations.keys == c.stations.keys
      && r.0.stations.rows == c.stations.rows[id := c.stations.rows[id].(isActive := false)]
      && r.0.activeStationId == (if c.activeStationId == Some(id) then None else c.activeStationId)
      && r.1.value.messageCount == |c.stations.rows[id].messages|
    ensures Valid(r.0.stations)
    ensures r.0.messageHistory == c.messageHistory && r.0.interventionHistory == c.interventionHistory
    ensures r.0.agents == c.agents && r.0.handlers == c.handlers
    ensures Consistent(c) ==> Consistent(r.0)
  {
    if id !in c.stations.rows then (c, None)
    else
      var st := c.stations.rows[id].(isActive := false);
      var active := if c.activeStationId == Some(id) then None else c.activeStationId;
      (c.(stations := Put(c.stations, id, st), activeStationId := active), Some(Summarize(st)))
  }

  /** `open_station`: `false` and no change for an id that was never
      created. Otherwise the previously open station is closed first (its
      summary is returned), then this one is opened and recorded as active. */
  function OpenStation(c: Coordinator, id: string): (r: (Coordinator, bool, Option<StationSummary>))
    requires Valid(c.stations)
    ensures id !in c.stations.rows ==> r.0 == c && !r.1 && r.2.None?
    ensures id in c.stations.rows ==>
      && r.1
      && r.0.activeStationId == Some(id)
      && id in r.0.stations.rows && r.0.stations.rows[id].isActive
      && r.0.stations.keys == c.stations.keys
      && r.0.stations.rows[id].messages == c.stations.rows[id].messages
    ensures Valid(r.0.stations)
    ensures r.0.messageHistory == c.messageHistory && r.0.interventionHistory == c.interventionHistory
    ensures r.0.agents == c.agents && r.0.handlers == c.handlers
    ensures Consistent(c) ==> Consistent(r.0)
  {
    if id !in c.stations.rows then (c, false, None)
    else
      var closed := if Truthy(c.activeStationId) then CloseStation(c, c.activeStationId.value) else (c, None);
      var c1 := closed.0;
      var st := c1.stations.rows[id].(isActive := true);
      (c1.(stations := Put(c1.stations, id, st), activeStationId := Some(id)), true, closed.1)
  }

  /** Whatever was open before, after a successful `open_station` exactly
      the opened station is active. */
  lemma OpenLeavesOneActive(c: Coordinator, id: string)
    requires Consistent(c) && id in c.stations.rows
    ensures forall k :: k in OpenStation(c, id).0.stations.rows ==>
      (OpenStation(c, id).0.stations.rows[k].isActive <==> k == id)
  {
  }

  /** Opening and then closing the same station leaves no station active. */
  lemma OpenThenCloseLeavesNoneActive(c: Coordinator, id: string)
    requires Consistent(c) && id in c.stations.rows
    ensures CloseStation(OpenStation(c, id).0, id).0.activeStationId.None?
    ensures forall k :: k in CloseStation(OpenStation(c, id).0, id).0.stations.rows ==>
      !CloseStation(OpenStation(c, id).0, id).0.stations.rows[k].isActive
  {
  }

  // ---------------------------------------------------------- target station

  /** The station a relay message is filed under: the requested id, else
      the active station, else the first active station in creation order,
      else the most recently created one; `""` when there are no stations. */
  function MessageTargetStation(c: Coordinator, requested: Option<string>): (r: string)
    requires Valid(c.stations)
    ensures Truthy(requested) ==> r == requested.value
    ensures !Truthy(requested) && Truthy(c.activeStationId) ==> r == c.activeStationId.value
    ensures !Truthy(requested) && !Truthy(c.activeStationId) ==>
      && (|c.stations.keys| == 0 ==> r == "")
      && (|c.stations.keys| > 0 ==> r in c.stations.rows)
  {
    if Truthy(requested) then requested.value
    else if Truthy(c.activeStationId) then c.activeStationId.value
    else if |c.stations.keys| == 0 then ""
    else
      var open := Filter(c.stations.keys, IsOpenIn(c.stations));
      if |open| > 0 then open[0] else c.stations.keys[|c.stations.keys| - 1]
  }

  /** The station an intervention is filed under: the requested id, else the
      active station, else the most recently created one. */
  function InterventionTargetStation(c: Coordinator, requested: Option<string>): (r: string)
    requires Valid(c.stations)
    ensures Truthy(requested) ==> r == requested.value
    ensures !Truthy(requested) && Truthy(c.activeStationId) ==> r == c.activeStationId.value
    ensures !Truthy(requested) && !Truthy(c.activeStationId) ==>
      r == (if |c.stations.keys| == 0 then "" else c.stations.keys[|c.stations.keys| - 1])
  {
    if Truthy(requested) then requested.value
    else if Truthy(c.activeStationId) then c.activeStationId.value
    else if |c.stations.keys| == 0 then ""
    else c.stations.keys[|c.stations.keys| - 1]
  }

  /** In a reachable state the "first active station" fallback never fires:
      with no active id there is no open station, so messages and
      interventions fall back to the same station, the newest one. */
  lemma TargetStationsAgree(c: Coordinator, requested: Option<string>)
    requires Consistent(c)
    ensures MessageTargetStation(c, requested) == InterventionTargetStation(c, requested)
    ensures !Truthy(requested) && c.activeStationId.None? && |c.stations.keys| > 0 ==>
      MessageTargetStation(c, requested) == c.stations.keys[|c.stations.keys| - 1]
  {
    if !Truthy(requested) && !Truthy(c.activeStationId) && |c.stations.keys| > 0 {
      FilterKeepsNone(c.stations.keys, IsOpenIn(c.stations));
    }
  }

  // ------------------------------------------------------------- recipients

  /** Who receives a relay message: its explicit targets, or else every
      registered agent except the sender; unregistered ids are skipped. */
  function MessageRecipients(c: Coordinator, m: RelayMessage): (r: seq<string>)
    ensures forall a :: a in r ==> a in c.agents
    ensures |m.targetAgentIds| > 0 ==> forall a :: a in r <==> a in m.targetAgentIds && a in c.agents
    ensures |m.targetAgentIds| == 0 ==> forall a :: a in r <==> a in c.agents && a != m.sourceAgentId
    ensures |m.targetAgentIds| == 0 ==> r == Filter(c.agents, Other(m.sourceAgentId))
  {
    var targets := if |m.targetAgentIds| > 0 then m.targetAgentIds else Filter(c.agents, Other(m.sourceAgentId));
    FilterMembershipAll(targets, Registered(c.agents));
    FilterMembershipAll(c.agents, Other(m.sourceAgentId));
    RegisteredKept(targets, c.agents);
    Filter(targets, Registered(c.agents))
  }

  /** The ids registered with the coordinator. */
  function Registered(agents: seq<string>): string -> bool {
    a => a in agents
  }

  /** Every id but the sender's. */
  function Other(sender: string): string -> bool {
    a => a != sender
  }

  /** The ids of the stations that are open. */
  function IsOpenIn(stations: Table<RelayStation>): string -> bool {
    k => k in stations.rows && stations.rows[k].isActive
  }

  /** Keeping the registered ids of a list drawn from the registered ids
      keeps all of it. */
  lemma RegisteredKept(targets: seq<string>, agents: seq<string>)
    ensures (forall a :: a in targets ==> a in agents) ==> Filter(targets, Registered(agents)) == targets
  {
    if forall a :: a in targets ==> a in agents {
      FilterKeepsAll(targets, Registered(agents));
    }
  }

  /** The ids a human intervention is addressed to: the single target for
      SINGLE, the selected list for SELECTED, nobody (meaning everybody)
      otherwise — including a SINGLE without a target or an empty SELECTED. */
  function InterventionTargets(h: HumanIntervention): (r: seq<string>)
    ensures h.scope == Single && Truthy(h.targetAgentId) ==> r == [h.targetAgentId.value]
    ensures h.scope == Selected ==> r == h.targetAgentIds
    ensures h.scope == All || h.scope == InterventionScope.Broadcast ==> r == []
    ensures h.scope == Single && !Truthy(h.targetAgentId) ==> r == []
  {
    if h.scope == Single && Truthy(h.targetAgentId) then [h.targetAgentId.value]
    else if h.scope == Selected && |h.targetAgentIds| > 0 then h.targetAgentIds
    else []
  }

  /** Who receives an intervention, each through its dedicated handler when
      it registered one. An empty address list reaches every registered
      agent, the sender included, in registration order. */
  function InterventionDeliveries(c: Coordinator, h: HumanIntervention): (r: seq<Delivery>)
    ensures forall d :: d in r ==> d.agentId in c.agents && (d.viaHandler <==> d.agentId in c.handlers)
    ensures |InterventionTargets(h)| == 0 ==>
      (|r| == |c.agents| && forall i :: 0 <= i < |r| ==> r[i].agentId == c.agents[i])
    ensures |InterventionTargets(h)| > 0 ==>
      forall a :: (exists d :: d in r && d.agentId == a) <==> a in InterventionTargets(h) && a in c.agents
  {
    var reached := Filter(Addressed(c, h), Registered(c.agents));
    ReachedRegistered(c, h);
    EveryoneReached(c, h);
    DeliveriesCover(reached, c.handlers);
    ToDeliveries(reached, c.handlers)
  }

  /** The ids an intervention is addressed to, everybody standing for an
      empty list. */
  function Addressed(c: Coordinator, h: HumanIntervention): seq<string> {
    if |InterventionTargets(h)| > 0 then InterventionTargets(h) else c.agents
  }

  lemma ReachedRegistered(c: Coordinator, h: HumanIntervention)
    ensures forall a :: a in Filter(Addressed(c, h), Registered(c.agents)) <==> a in Addressed(c, h) && a in c.agents
  {
    FilterMembershipAll(Addressed(c, h), Registered(c.agents));
  }

  lemma EveryoneReached(c: Coordinator, h: HumanIntervention)
    ensures |InterventionTargets(h)| == 0 ==> Filter(Addressed(c, h), Registered(c.agents)) == c.agents
  {
    RegisteredKept(c.agents, c.agents);
  }

  lemma DeliveriesCover(ids: seq<string>, handlers: set<string>)
    ensures forall a :: (exists d :: d in ToDeliveries(ids, handlers) && d.agentId == a) <==> a in ids
  {
    var r := ToDeliveries(ids, handlers);
    forall a ensures (exists d :: d in r && d.agentId == a) <==> a in ids {
      if a in ids {
        var i :| 0 <= i < |ids| && ids[i] == a;
        assert r[i] in r && r[i].agentId == a;
      }
    }
  }

  function ToDeliveries(ids: seq<string>, handlers: set<string>): (r: seq<Delivery>)
    ensures |r| == |ids|
    ensures forall i :: 0 <= i < |r| ==> r[i] == Delivery(ids[i], ids[i] in handlers)
  {
    seq(|ids|, i requires 0 <= i < |ids| => Delivery(ids[i], ids[i] in handlers))
  }

  // -------------------------------------------------------------- broadcasts

  /** Append `m` to station `target` when that station exists. */
  function FileUnder(stations: Table<RelayStation>, target: string, m: RelayMessage): (r: Table<RelayStation>)
    requires Valid(stations)
    ensures Valid(r) && r.keys == stations.keys
    ensures forall k :: k in r.rows <==> k in stations.rows
    ensures forall k :: k in r.rows && k != target ==> r.rows[k] == stations.rows[k]
    ensures target != "" && target in stations.rows ==>
      r.rows[target] == stations.rows[target].(messages := stations.rows[target].messages + [m])
    ensures target == "" || target !in stations.rows ==> r == stations
  {
    if target != "" && target in stations.rows then
      var st := stations.rows[target];
      Put(stations, target, st.(messages := st.messages + [m]))
    else stations
  }

  /** `broadcast_message`: the message is stamped with its station (when
      there is one), filed under that station when it exists, always logged,
      and delivered to its recipients. Registration and the open station do
      not change. */
  function BroadcastMessage(c: Coordinator, m: RelayMessage, requested: Option<string>): (r: Broadcast)
    requires Valid(c.stations)
    ensures r.notifiedStation == MessageTargetStation(c, requested)
    ensures r.coord.messageHistory == c.messageHistory + [r.message]
    ensures r.coord.interventionHistory == c.interventionHistory
    ensures r.message == (if r.notifiedStation != "" then m.(meta := m.meta.(stationId := Some(r.notifiedStation))) else m)
    ensures r.coord.stations == FileUnder(c.stations, r.notifiedStation, r.message)
    ensures r.coord.activeStationId == c.activeStationId
    ensures r.coord.agents == c.agents && r.coord.handlers == c.handlers
    ensures |r.deliveries| == |MessageRecipients(c, m)|
    ensures forall i :: 0 <= i < |r.deliveries| ==> r.deliveries[i] == Delivery(MessageRecipients(c, m)[i], false)
    ensures Consistent(c) ==> Consistent(r.coord)
  {
    var target := MessageTargetStation(c, requested);
    var m1 := if target != "" then m.(meta := m.meta.(stationId := Some(target))) else m;
    var recipients := MessageRecipients(c, m);
    var deliveries := seq(|recipients|, i requires 0 <= i < |recipients| => Delivery(recipients[i], false));
    Outcome(c.(stations := FileUnder(c.stations, target, m1), messageHistory := c.messageHistory + [m1]),
              m1, deliveries, target)
  }

  /** The display name the coordinator gives the human operator. */
  const OperatorName: string := "\U{1F9D1}\U{200D}\U{1F4BC} \U{4EBA}\U{7C7B}\U{64CD}\U{4F5C}\U{5458}"

  /** `min(1.0, priority / 10 + 0.3)` in hundredths. */
  function InterventionImportance(priority: int): (i: int)
    ensures i <= 100
    ensures priority >= 7 ==> i == 100
    ensures priority < 7 ==> i == priority * 10 + 30
  {
    Min(100, priority * 10 + 30)
  }

  /** The relay message built for an intervention. Its text is a rendering
      of the intervention and is taken as given. */
  function InterventionMessage(h: HumanIntervention, id: string, content: string, station: string, now: int): (m: RelayMessage)
    ensures m.relayType == HumanInterventionType && m.sourceAgentId == "human"
    ensures m.targetAgentIds == InterventionTargets(h)
    ensures m.importance == InterventionImportance(h.priority)
    ensures m.meta == MessageMeta(Some(station), Some(h.kind.Value()), Some(h.priority), true)
    ensures ViewsValid(m)
  {
    RelayMessage(id, HumanInterventionType, "human", OperatorName, InterventionTargets(h), content,
                 InterventionImportance(h.priority),
                 MessageMeta(Some(station), Some(h.kind.Value()), Some(h.priority), true),
                 now, [], [], map[])
  }

  /** `broadcast_intervention`: the intervention and its relay message are
      each appended to their log exactly once, the message is filed under
      the target station when it exists, and it is delivered to the
      addressees, or to every registered agent when none are named. */
  function BroadcastIntervention(c: Coordinator, h: HumanIntervention, msgId: string, content: string,
                                 now: int, requested: Option<string>): (r: Broadcast)
    requires Valid(c.stations)
    ensures r.notifiedStation == InterventionTargetStation(c, requested)
    ensures r.coord.interventionHistory == c.interventionHistory + [h]
    ensures r.coord.messageHistory == c.messageHistory + [r.message]
    ensures r.message == InterventionMessage(h, msgId, content, r.notifiedStation, now)
    ensures r.message.meta.requiresAcknowledgement
    ensures r.coord.stations == FileUnder(c.stations, r.notifiedStation, r.message)
    ensures r.coord.activeStationId == c.activeStationId
    ensures r.coord.agents == c.agents && r.coord.handlers == c.handlers
    ensures r.deliveries == InterventionDeliveries(c, h)
    ensures Consistent(c) ==> Consistent(r.coord)
  {
    var target := InterventionTargetStation(c, requested);
    var m := InterventionMessage(h, msgId, content, target, now);
    Outcome(c.(stations := FileUnder(c.stations, target, m),
                 messageHistory := c.messageHistory + [m],
                 interventionHistory := c.interventionHistory + [h]),
              m, InterventionDeliveries(c, h), target)
  }

  // ---------------------------------------------------------------- history

  /** `get_intervention_history(limit)`: `intervention_history[-limit:]`, so
      a zero limit returns everything. */
  function GetInterventionHistory(c: Coordinator, limit: int): (r: seq<HumanIntervention>)
    ensures limit > 0 ==> |r| == Min(limit, |c.interventionHistory|)
    ensures limit > 0 ==> r == c.interventionHistory[|c.interventionHistory| - |r|..]
    ensures limit == 0 ==> r == c.interventionHistory
  {
    NegSlice(c.interventionHistory, limit)
  }

  /** `get_intervention_messages`: the intervention messages of the named
      station when it exists, otherwise of the whole history, in order. */
  function GetInterventionMessages(c: Coordinator, stationId: Option<string>): (r: seq<RelayMessage>)
    requires Valid(c.stations)
    ensures forall i :: 0 <= i < |r| ==> IsIntervention(r[i])
    ensures forall x :: x in r <==>
      IsIntervention(x) &&
      (if Truthy(stationId) && stationId.value in c.stations.rows
       then x in c.stations.rows[stationId.value].messages
       else x in c.messageHistory)
  {
    var source := if Truthy(stationId) && stationId.value in c.stations.rows
                  then c.stations.rows[stationId.value].messages else c.messageHistory;
    FilterMembershipAll(source, IsIntervention);
    Filter(source, IsIntervention)
  }

  /** A broadcast intervention is the newest entry of the history, and its
      message is found among the intervention messages both of the whole
      session and of the station it was filed under. */
  lemma InterventionIsRecorded(c: Coordinator, h: HumanIntervention, msgId: string, content: string,
                               now: int, requested: Option<string>)
    requires Consistent(c)
    ensures var b := BroadcastIntervention(c, h, msgId, content, now, requested);
      && GetInterventionHistory(b.coord, 1) == [h]
      && b.message in GetInterventionMessages(b.coord, None)
      && (b.notifiedStation in c.stations.rows ==> b.message in GetInterventionMessages(b.coord, Some(b.notifiedStation)))
  {
    var b := BroadcastIntervention(c, h, msgId, content, now, requested);
    assert b.message == b.coord.messageHistory[|b.coord.messageHistory| - 1];
    if b.notifiedStation in c.stations.rows {
      var msgs := b.coord.stations.rows[b.notifiedStation].messages;
      assert b.message == msgs[|msgs| - 1];
    }
  }

  /** Every broadcast keeps the state reachable, so across any run at most
      one station is open. */
  lemma AtMostOneOpen(c: Coordinator, k1: string, k2: string)
    requires Consistent(c)
    requires k1 in c.stations.rows && k2 in c.stations.rows
    requires c.stations.rows[k1].isActive && c.stations.rows[k2].isActive
    ensures k1 == k2 && c.activeStationId == Some(k1)
  {
  }

  // ------------------------------------------------ alignment and checkpoints

  /** The messages `request_alignment` answers with: ALIGNMENT and every
      type whose value starts with "alignment". */
  predicate IsAlignment(m: RelayMessage) {
    m.relayType == Alignment || StartsWith(m.relayType.Value(), "alignment")
  }

  /** The request an agent broadcasts: ALIGNMENT, addressed to everybody, at
      importance 0.9. Its text renders the reason and the agent's current
      understanding and is taken as given. */
  function AlignmentRequestMessage(id: string, agentId: string, agentName: string, content: string,
                                   now: int): (m: RelayMessage)
    ensures m.relayType == Alignment && m.sourceAgentId == agentId && m.targetAgentIds == []
    ensures m.importance == 90 && m.content == content && ViewsValid(m)
  {
    NewRelayMessage(id, Alignment, agentId, agentName, [], content, now).(importance := 90)
  }

  /** `request_alignment`: the request is broadcast like any relay message,
      without a requested station, and the alignment messages of the whole
      log are returned. */
  function RequestAlignment(c: Coordinator, id: string, agentId: string, agentName: string, content: string,
                            now: int): (r: (Broadcast, seq<RelayMessage>))
    requires Valid(c.stations)
    ensures r.0 == BroadcastMessage(c, AlignmentRequestMessage(id, agentId, agentName, content, now), None)
    ensures forall i :: 0 <= i < |r.1| ==> IsAlignment(r.1[i])
  {
    var b := BroadcastMessage(c, AlignmentRequestMessage(id, agentId, agentName, content, now), None);
    (b, Filter(b.coord.messageHistory, IsAlignment))
  }

  /** The agents a run of deliveries reaches are exactly its recipients. */
  lemma DeliveredTo(ds: seq<Delivery>, rs: seq<string>, a: string)
    requires |ds| == |rs| && forall i :: 0 <= i < |ds| ==> ds[i] == Delivery(rs[i], false)
    ensures (exists i :: 0 <= i < |ds| && ds[i].agentId == a) <==> a in rs
  {
    if a in rs {
      var i :| 0 <= i < |rs| && rs[i] == a;
      assert ds[i].agentId == a;
    }
  }

  /** A message without targets reaches every registered agent except its
      sender. */
  lemma UntargetedReachesOthers(c: Coordinator, m: RelayMessage, requested: Option<string>)
    requires Valid(c.stations) && m.targetAgentIds == []
    ensures var ds := BroadcastMessage(c, m, requested).deliveries;
      forall a :: (exists i :: 0 <= i < |ds| && ds[i].agentId == a) <==> a in c.agents && a != m.sourceAgentId
  {
    var ds := BroadcastMessage(c, m, requested).deliveries;
    var rs := MessageRecipients(c, m);
    forall a
      ensures (exists i :: 0 <= i < |ds| && ds[i].agentId == a) <==> a in c.agents && a != m.sourceAgentId
    {
      DeliveredTo(ds, rs, a);
    }
  }

  /** The answer is the earlier alignment traffic followed by the request
      itself, and the request reaches every registered agent except the
      one asking. */
  lemma AlignmentRequestAnswered(c: Coordinator, id: string, agentId: string, agentName: string, content: string,
                                 now: int)
    requires Valid(c.stations)
    ensures var r := RequestAlignment(c, id, agentId, agentName, content, now);
      && r.1 == Filter(c.messageHistory, IsAlignment) + [r.0.message]
      && r.0.message.relayType == Alignment && r.0.message.content == content
      && forall a :: (exists i :: 0 <= i < |r.0.deliveries| && r.0.deliveries[i].agentId == a) <==>
                     a in c.agents && a != agentId
  {
    var m := AlignmentRequestMessage(id, agentId, agentName, content, now);
    var b := BroadcastMessage(c, m, None);
    assert IsAlignment(b.message);
    FilterConcat(c.messageHistory, [b.message], IsAlignment);
    UntargetedReachesOthers(c, m, None);
  }

  /** A relay message an agent's state records as sent: its type and its
      content, when the entry has them. */
  datatype SentEntry = SentEntry(relayType: Option<string>, content: Option<string>)

  /** What `checkpoint` reads of one agent's state. */
  datatype AgentReport = AgentReport(id: string, roleName: string, status: AgentStatus, progress: int,
                                     partialResult: string, sent: seq<SentEntry>)

  /** One agent's entry in the checkpoint summary. */
  datatype AgentEntry = AgentEntry(name: string, status: string, progress: int, partialResult: string)

  /** A key discovery: the agent's role name and the start of the content. */
  datatype KeyPoint = KeyPoint(agent: string, content: string)

  /** The checkpoint summary; its timestamp is left out. */
  datatype CheckpointSummary = CheckpointSummary(phase: int, agents: seq<(string, AgentEntry)>,
                                                 discoveries: seq<KeyPoint>, alignmentNeeded: bool)

  function ReportIds(states: seq<AgentReport>): seq<string> {
    seq(|states|, i requires 0 <= i < |states| => states[i].id)
  }

  function EntryOf(s: AgentReport): AgentEntry {
    AgentEntry(s.roleName, s.status.Value(), s.progress, Take(s.partialResult, 500))
  }

  predicate IsDiscovery(e: SentEntry) {
    e.relayType == Some(Discovery.Value())
  }

  /** The key points of one agent: its discovery messages, in order, each
      cut to 200 characters. */
  function AgentKeyPoints(s: AgentReport): (ks: seq<KeyPoint>)
    ensures |ks| == |Filter(s.sent, IsDiscovery)|
  {
    var found := Filter(s.sent, IsDiscovery);
    seq(|found|, i requires 0 <= i < |found| => KeyPoint(s.roleName, Take(found[i].content.GetOr(""), 200)))
  }

  /** Every agent's key points, agent by agent. */
  function Discoveries(states: seq<AgentReport>): seq<KeyPoint>
    decreases |states|
  {
    if |states| == 0 then [] else Discoveries(states[..|states| - 1]) + AgentKeyPoints(states[|states| - 1])
  }

  /** Each key point is at most 200 characters long and names the role of
      one of the agents. */
  lemma {:induction false} KeyPointsBounded(states: seq<AgentReport>)
    ensures forall k :: k in Discoveries(states) ==>
      |k.content| <= 200 && exists i :: 0 <= i < |states| && states[i].roleName == k.agent
    decreases |states|
  {
    if |states| > 0 {
      var init := states[..|states| - 1];
      KeyPointsBounded(init);
      forall k | k in Discoveries(states)
        ensures |k.content| <= 200 && exists i :: 0 <= i < |states| && states[i].roleName == k.agent
      {
        if k in Discoveries(init) {
          var i :| 0 <= i < |init| && init[i].roleName == k.agent;
          assert states[i] == init[i];
        } else {
          assert k in AgentKeyPoints(states[|states| - 1]);
          assert states[|states| - 1].roleName == k.agent;
        }
      }
    }
  }

  /** The largest of the progress values. */
  function MaxProgress(ps: seq<int>): (m: int)
    requires |ps| > 0
    ensures forall i :: 0 <= i < |ps| ==> ps[i] <= m
    ensures m in ps
    decreases |ps|
  {
    if |ps| == 1 then ps[0]
    else
      var m0 := MaxProgress(ps[..|ps| - 1]);
      assert m0 in ps[..|ps| - 1];
      Max(m0, ps[|ps| - 1])
  }

  /** The smallest of the progress values. */
  function MinProgress(ps: seq<int>): (m: int)
    requires |ps| > 0
    ensures forall i :: 0 <= i < |ps| ==> m <= ps[i]
    ensures m in ps
    decreases |ps|
  {
    if |ps| == 1 then ps[0]
    else
      var m0 := MinProgress(ps[..|ps| - 1]);
      assert m0 in ps[..|ps| - 1];
      Min(m0, ps[|ps| - 1])
  }

  /** `max(progresses) - min(progresses) > 30`, false without agents. */
  predicate AlignmentNeeded(ps: seq<int>) {
    |ps| > 0 && MaxProgress(ps) - MinProgress(ps) > 30
  }

  /** Alignment is needed exactly when two agents' progress lies more than
      30 points apart. */
  lemma AlignmentNeededIffSpread(ps: seq<int>)
    ensures AlignmentNeeded(ps) <==> exists i, j :: 0 <= i < |ps| && 0 <= j < |ps| && ps[i] - ps[j] > 30
  {
    if AlignmentNeeded(ps) {
      var i :| 0 <= i < |ps| && ps[i] == MaxProgress(ps);
      var j :| 0 <= j < |ps| && ps[j] == MinProgress(ps);
      assert ps[i] - ps[j] > 30;
    }
  }

  function Progresses(states: seq<AgentReport>): (ps: seq<int>)
    ensures |ps| == |states| && forall i :: 0 <= i < |states| ==> ps[i] == states[i].progress
  {
    seq(|states|, i requires 0 <= i < |states| => states[i].progress)
  }

  /** The announcement text: the phase, then the number of key points found. */
  function CheckpointText(phase: int, found: nat): string {
    "\U{9636}\U{6BB5} " + IntToString(phase)
      + " \U{68C0}\U{67E5}\U{70B9}:\n\U{5DF2}\U{5B8C}\U{6210} Agent \U{8FDB}\U{5EA6}\U{6C47}\U{603B}\n\U{53D1}\U{73B0} "
      + NatToString(found) + " \U{4E2A}\U{5173}\U{952E}\U{70B9}"
  }

  /** The checkpoint message: CHECKPOINT from the master, to everybody, at
      importance 0.7, announcing the phase and the number of key points. */
  function CheckpointMessage(id: string, phase: int, found: nat, now: int): (m: RelayMessage)
    ensures m.relayType == Checkpoint && m.sourceAgentId == "master" && m.targetAgentIds == []
    ensures m.importance == 70 && m.content == CheckpointText(phase, found) && ViewsValid(m)
  {
    NewRelayMessage(id, Checkpoint, "master", "Master Agent", [], CheckpointText(phase, found), now).(importance := 70)
  }

  /** The summary `checkpoint` builds: every agent's entry under its id, in
      the order of the dictionary, the key discoveries, and whether the
      agents' progress has drifted apart. */
  function CheckpointOf(states: seq<AgentReport>, phase: int): (s: CheckpointSummary)
    ensures s.phase == phase
    ensures |s.agents| == |states|
    ensures forall i :: 0 <= i < |states| ==> s.agents[i] == (states[i].id, EntryOf(states[i]))
    ensures s.discoveries == Discoveries(states)
    ensures s.alignmentNeeded <==>
      exists i, j :: 0 <= i < |states| && 0 <= j < |states| && states[i].progress - states[j].progress > 30
  {
    var ps := Progresses(states);
    AlignmentNeededIffSpread(ps);
    CheckpointSummary(phase, seq(|states|, i requires 0 <= i < |states| => (states[i].id, EntryOf(states[i]))),
                      Discoveries(states), AlignmentNeeded(ps))
  }

  /** `checkpoint`: the summary is returned, and a message announcing it is
      broadcast to everybody and logged. The states come in the order of the
      dictionary, whose keys are distinct. */
  function TakeCheckpoint(c: Coordinator, states: seq<AgentReport>, phase: int, id: string, now: int)
    : (r: (Broadcast, CheckpointSummary))
    requires Valid(c.stations) && Distinct(ReportIds(states))
    ensures r.1 == CheckpointOf(states, phase)
    ensures r.0.coord.messageHistory == c.messageHistory + [r.0.message]
    ensures r.0.message.relayType == Checkpoint && r.0.message.sourceAgentId == "master"
    ensures r.0.message.content == CheckpointText(phase, |r.1.discoveries|)
  {
    var summary := CheckpointOf(states, phase);
    (BroadcastMessage(c, CheckpointMessage(id, phase, |summary.discoveries|, now), None), summary)
  }
}
