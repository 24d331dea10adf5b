/** The shared data model of the multi-agent core: status and type
    enumerations, relay messages with their viewed / acknowledged
    bookkeeping, relay stations, human interventions and the initial state of
    fresh objects. Importance, a float in [0, 1] in the source, is kept in
    hundredths (0..100). */
module CoreModels {
  import opened Util

  // ------------------------------------------------------------ enumerations

  datatype AgentStatus =
    | Pending | Planning | Running | WaitingRelay | Relaying
    | Completed | Failed | Paused | Cancelled
  {
    function Value(): string {
      match this
      case Pending => "pending"
      case Planning => "planning"
      case Running => "running"
      case WaitingRelay => "waiting_relay"
      case Relaying => "relaying"
      case Completed => "completed"
      case Failed => "failed"
      case Paused => "paused"
      case Cancelled => "cancelled"
    }
  }

  datatype RelayType =
    | Discovery | Insight | AlignmentRequest | AlignmentResponse | Alignment
    | Suggestion | Question | Confirmation | Checkpoint | Correction
    | Completion | HumanInterventionType
  {
    function Value(): string {
      match this
      case Discovery => "discovery"
      case Insight => "insight"
      case AlignmentRequest => "alignment_request"
      case AlignmentResponse => "alignment_response"
      case Alignment => "alignment"
      case Suggestion => "suggestion"
      case Question => "question"
      case Confirmation => "confirmation"
      case Checkpoint => "checkpoint"
      case Correction => "correction"
      case Completion => "completion"
      case HumanInterventionType => "human_intervention"
    }
  }

  datatype InterventionScope = Single | Selected | All | Broadcast {
    function Value(): string {
      match this
      case Single => "single"
      case Selected => "selected"
      case All => "all"
      case Broadcast => "broadcast"
    }
  }

  /** The six intervention kinds. There is no "broadcast" kind. */
  datatype InterventionType = Pause | Resume | Restart | Adjust | Inject | Cancel {
    function Value(): string {
      match this
      case Pause => "pause"
      case Resume => "resume"
      case Restart => "restart"
      case Adjust => "adjust"
      case Inject => "inject"
      case Cancel => "cancel"
    }
  }

  /** `InterventionType(value)`: the member whose value is `s`, if any. */
  function ParseInterventionType(s: string): (r: Option<InterventionType>)
    ensures r.Some? ==> r.value.Value() == s
    ensures r.None? ==> forall t: InterventionType :: t.Value() != s
  {
    if s == "pause" then Some(Pause)
    else if s == "resume" then Some(Resume)
    else if s == "restart" then Some(Restart)
    else if s == "adjust" then Some(Adjust)
    else if s == "inject" then Some(Inject)
    else if s == "cancel" then Some(Cancel)
    else None
  }

  /** `InterventionScope(value)`. */
  function ParseScope(s: string): (r: Option<InterventionScope>)
    ensures r.Some? ==> r.value.Value() == s
    ensures r.None? ==> forall t: InterventionScope :: t.Value() != s
  {
    if s == "single" then Some(Single)
    else if s == "selected" then Some(Selected)
    else if s == "all" then Some(All)
    else if s == "broadcast" then Some(Broadcast)
    else None
  }

  /** Enum values round-trip through their string form. */
  lemma EnumValuesRoundTrip(t: InterventionType, sc: InterventionScope)
    ensures ParseInterventionType(t.Value()) == Some(t)
    ensures ParseScope(sc.Value()) == Some(sc)
  {
  }

  // ---------------------------------------------------------- relay messages

  /** The metadata keys the core reads and writes on relay messages. */
  datatype MessageMeta = MessageMeta(
    stationId: Option<string>,
    interventionType: Option<string>,
    interventionPriority: Option<int>,
    requiresAcknowledgement: bool)

  const NoMeta := MessageMeta(None, None, None, false)

  datatype RelayMessage = RelayMessage(
    id: string,
    relayType: RelayType,
    sourceAgentId: string,
    sourceAgentName: string,
    targetAgentIds: seq<string>,
    content: string,
    importance: int,
    meta: MessageMeta,
    timestamp: int,
    viewedBy: seq<string>,
    acknowledgedBy: seq<string>,
    viewedTimestamps: map<string, int>)

  /** The viewed / acknowledged bookkeeping is consistent: no id is listed
      twice, every acknowledging agent has also viewed, and exactly the
      viewers have a view timestamp. */
  ghost predicate ViewsValid(m: RelayMessage) {
    Distinct(m.viewedBy) && Distinct(m.acknowledgedBy)
    && (forall a :: a in m.acknowledgedBy ==> a in m.viewedBy)
    && (forall a :: a in m.viewedTimestamps <==> a in m.viewedBy)
  }

  /** A new message: importance 0.5, no targets beyond those given, nobody
      has viewed or acknowledged it. */
  function NewRelayMessage(id: string, t: RelayType, sourceId: string, sourceName: string,
                           targets: seq<string>, content: string, now: int): (m: RelayMessage)
    ensures ViewsValid(m)
    ensures m.importance == 50 && m.viewedBy == [] && m.acknowledgedBy == []
  {
    RelayMessage(id, t, sourceId, sourceName, targets, content, 50, NoMeta, now, [], [], map[])
  }

  /** `mark_viewed`: the first view records the agent and the time; later
      views change nothing. */
  function MarkViewed(m: RelayMessage, agentId: string, now: int): (r: RelayMessage)
    ensures agentId in r.viewedBy
    ensures agentId in m.viewedBy ==> r == m
    ensures agentId !in m.viewedBy ==>
      r == m.(viewedBy := m.viewedBy + [agentId], viewedTimestamps := m.viewedTimestamps[agentId := now])
  {
    if agentId !in m.viewedBy then
      m.(viewedBy := m.viewedBy + [agentId], viewedTimestamps := m.viewedTimestamps[agentId := now])
    else m
  }

  /** `mark_acknowledged`: the first acknowledgement records the agent and
      marks the message viewed; later ones change nothing. */
  function MarkAcknowledged(m: RelayMessage, agentId: string, now: int): (r: RelayMessage)
    ensures agentId in r.acknowledgedBy
    ensures agentId in m.acknowledgedBy ==> r == m
    ensures agentId !in m.acknowledgedBy ==> r.acknowledgedBy == m.acknowledgedBy + [agentId]
  {
    if agentId !in m.acknowledgedBy then
      MarkViewed(m.(acknowledgedBy := m.acknowledgedBy + [agentId]), agentId, now)
    else m
  }

  lemma DistinctAppend(s: seq<string>, x: string)
    requires Distinct(s) && x !in s
    ensures Distinct(s + [x])
  {
  }

  /** Viewing twice is viewing once, whatever the clock says the second time. */
  lemma MarkViewedIdempotent(m: RelayMessage, agentId: string, t1: int, t2: int)
    ensures MarkViewed(MarkViewed(m, agentId, t1), agentId, t2) == MarkViewed(m, agentId, t1)
    ensures agentId in m.viewedBy ==> MarkViewed(m, agentId, t1).viewedTimestamps == m.viewedTimestamps
  {
  }

  /** Acknowledging twice is acknowledging once, and an acknowledged message
      counts as viewed by that agent. */
  lemma MarkAcknowledgedIdempotent(m: RelayMessage, agentId: string, t1: int, t2: int)
    requires ViewsValid(m)
    ensures MarkAcknowledged(MarkAcknowledged(m, agentId, t1), agentId, t2) == MarkAcknowledged(m, agentId, t1)
    ensures agentId in MarkAcknowledged(m, agentId, t1).viewedBy
  {
  }

  /** Both operations keep the bookkeeping consistent, so starting from a new
      message the lists stay duplicate-free and `acknowledged_by` stays
      inside `viewed_by`. */
  lemma MarksPreserveViewsValid(m: RelayMessage, agentId: string, now: int)
    requires ViewsValid(m)
    ensures ViewsValid(MarkViewed(m, agentId, now))
    ensures ViewsValid(MarkAcknowledged(m, agentId, now))
  {
    if agentId !in m.viewedBy {
      DistinctAppend(m.viewedBy, agentId);
    }
    if agentId !in m.acknowledgedBy {
      DistinctAppend(m.acknowledgedBy, agentId);
      var m1 := m.(acknowledgedBy := m.acknowledgedBy + [agentId]);
      if agentId !in m1.viewedBy {
        DistinctAppend(m1.viewedBy, agentId);
      }
    }
  }

  /** Any sequence of views and acknowledgements keeps the bookkeeping consistent. */
  datatype Mark = View(viewer: string, viewAt: int) | Ack(acker: string, ackAt: int)

  function ApplyMarks(m: RelayMessage, marks: seq<Mark>): RelayMessage
    decreases |marks|
  {
    if |marks| == 0 then m
    else
      var n := match marks[0]
        case View(a, t) => MarkViewed(m, a, t)
        case Ack(a, t) => MarkAcknowledged(m, a, t);
      ApplyMarks(n, marks[1..])
  }

  lemma {:induction false} MarksKeepViewsValid(m: RelayMessage, marks: seq<Mark>)
    requires ViewsValid(m)
    ensures ViewsValid(ApplyMarks(m, marks))
    decreases |marks|
  {
    if |marks| > 0 {
      match marks[0]
      case View(a, t) =>
        MarksPreserveViewsValid(m, a, t);
        MarksKeepViewsValid(MarkViewed(m, a, t), marks[1..]);
      case Ack(a, t) =>
        MarksPreserveViewsValid(m, a, t);
        MarksKeepViewsValid(MarkAcknowledged(m, a, t), marks[1..]);
    }
  }

  // ------------------------------------------------------ stations, sessions

  datatype RelayStation = RelayStation(
    id: string, name: string, phase: int, participatingAgents: seq<string>,
    messages: seq<RelayMessage>, isActive: bool)

  /** A station as the model constructor builds it: inactive, no messages. */
  function NewRelayStation(id: string, name: string, phase: int, agents: seq<string>): (s: RelayStation)
    ensures !s.isActive && s.messages == [] && s.id == id && s.participatingAgents == agents
  {
    RelayStation(id, name, phase, agents, [], false)
  }

  datatype SubagentState = SubagentState(
    id: string, status: AgentStatus, progress: int, iterations: nat,
    thinking: string, finalResult: Option<string>, error: Option<string>)

  function NewSubagentState(id: string): (s: SubagentState)
    ensures s.status == Pending && s.progress == 0 && s.iterations == 0
    ensures s.finalResult.None? && s.error.None?
  {
    SubagentState(id, Pending, 0, 0, "", None, None)
  }

  datatype TaskSession = TaskSession(id: string, task: string, status: AgentStatus, finalReport: Option<string>)

  function NewTaskSession(id: string, task: string): (s: TaskSession)
    ensures s.status == Pending && s.finalReport.None?
  {
    TaskSession(id, task, Pending, None)
  }

  // ---------------------------------------------------------- interventions

  /** One entry of an `adjustments` dictionary, its value already rendered
      as text, in the dictionary's insertion order. */
  datatype Adjustment = Adjustment(key: string, value: string)

  /** The payload keys the core reads: `information` (inject) and
      `adjustments` (adjust). */
  datatype Payload = Payload(information: Option<string>, adjustments: Option<seq<Adjustment>>, message: Option<string>)

  const EmptyPayload := Payload(None, None, None)

  datatype HumanIntervention = HumanIntervention(
    id: string,
    kind: InterventionType,
    targetAgentId: Option<string>,
    targetAgentIds: seq<string>,
    payload: Payload,
    reason: string,
    scope: InterventionScope,
    priority: int,
    broadcastToRelay: bool,
    timestamp: int)

  /** `HumanIntervention(type=kind)` with every other field defaulted: whole
      task, scope SINGLE, priority 5, broadcast to the relay. */
  function NewIntervention(id: string, kind: InterventionType, now: int): (h: HumanIntervention)
    ensures h.scope == Single && h.priority == 5 && h.broadcastToRelay
    ensures h.targetAgentId.None? && h.targetAgentIds == [] && h.payload == EmptyPayload && h.reason == ""
  {
    HumanIntervention(id, kind, None, [], EmptyPayload, "", Single, 5, true, now)
  }
}
