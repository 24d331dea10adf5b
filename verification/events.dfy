/** The AG-UI events the backend emits. Each event kind carries a fixed
    type tag whose wire value is the tag's own name; the event body is
    serialised to JSON by a library, so the encoder below takes that JSON
    text as given (a single line: the serialiser escapes line breaks). */
module Events {
  import opened Util
  import opened CoreModels
  import opened ServerSentEvents

  datatype EventType =
    | RUN_STARTED | RUN_FINISHED | RUN_ERROR
    | TEXT_MESSAGE_START | TEXT_MESSAGE_CONTENT | TEXT_MESSAGE_END
    | TOOL_CALL_START | TOOL_CALL_ARGS | TOOL_CALL_END | TOOL_CALL_RESULT
    | STATE_SNAPSHOT | STATE_DELTA
    | AGENT_SPAWNED | AGENT_STATUS_CHANGED | AGENT_PROGRESS | AGENT_THINKING
    | RELAY_STATION_OPENED | RELAY_MESSAGE_SENT | RELAY_STATION_CLOSED
    | PLAN_GENERATED | ROLE_EMERGED
    | INTERVENTION_REQUESTED | INTERVENTION_APPLIED | INTERVENTION_BROADCAST
    | SESSION_CREATED | SESSION_STATE_CHANGED
  {
    /** The wire value: the member's own name. */
    function Value(): Line {
      match this
      case RUN_STARTED => RunStartedName
      case RUN_FINISHED => RunFinishedName
      case RUN_ERROR => RunErrorName
      case TEXT_MESSAGE_START => TextMessageStartName
      case TEXT_MESSAGE_CONTENT => TextMessageContentName
      case TEXT_MESSAGE_END => TextMessageEndName
      case TOOL_CALL_START => ToolCallStartName
      case TOOL_CALL_ARGS => ToolCallArgsName
      case TOOL_CALL_END => ToolCallEndName
      case TOOL_CALL_RESULT => ToolCallResultName
      case STATE_SNAPSHOT => StateSnapshotName
      case STATE_DELTA => StateDeltaName
      case AGENT_SPAWNED => AgentSpawnedName
      case AGENT_STATUS_CHANGED => AgentStatusChangedName
      case AGENT_PROGRESS => AgentProgressName
      case AGENT_THINKING => AgentThinkingName
      case RELAY_STATION_OPENED => RelayStationOpenedName
      case RELAY_MESSAGE_SENT => RelayMessageSentName
      case RELAY_STATION_CLOSED => RelayStationClosedName
      case PLAN_GENERATED => PlanGeneratedName
      case ROLE_EMERGED => RoleEmergedName
      case INTERVENTION_REQUESTED => InterventionRequestedName
      case INTERVENTION_APPLIED => InterventionAppliedName
      case INTERVENTION_BROADCAST => InterventionBroadcastName
      case SESSION_CREATED => SessionCreatedName
      case SESSION_STATE_CHANGED => SessionStateChangedName
    }
  }

  // The wire names, one constant each so that each is checked to be a
  // single line on its own.
  const RunStartedName: Line := "RUN_STARTED"
  const RunFinishedName: Line := "RUN_FINISHED"
  const RunErrorName: Line := "RUN_ERROR"
  const TextMessageStartName: Line := "TEXT_MESSAGE_START"
  const TextMessageContentName: Line := "TEXT_MESSAGE_CONTENT"
  const TextMessageEndName: Line := "TEXT_MESSAGE_END"
  const ToolCallStartName: Line := "TOOL_CALL_START"
  const ToolCallArgsName: Line := "TOOL_CALL_ARGS"
  const ToolCallEndName: Line := "TOOL_CALL_END"
  const ToolCallResultName: Line := "TOOL_CALL_RESULT"
  const StateSnapshotName: Line := "STATE_SNAPSHOT"
  const StateDeltaName: Line := "STATE_DELTA"
  const AgentSpawnedName: Line := "AGENT_SPAWNED"
  const AgentStatusChangedName: Line := "AGENT_STATUS_CHANGED"
  const AgentProgressName: Line := "AGENT_PROGRESS"
  const AgentThinkingName: Line := "AGENT_THINKING"
  const RelayStationOpenedName: Line := "RELAY_STATION_OPENED"
  const RelayMessageSentName: Line := "RELAY_MESSAGE_SENT"
  const RelayStationClosedName: Line := "RELAY_STATION_CLOSED"
  const PlanGeneratedName: Line := "PLAN_GENERATED"
  const RoleEmergedName: Line := "ROLE_EMERGED"
  const InterventionRequestedName: Line := "INTERVENTION_REQUESTED"
  const InterventionAppliedName: Line := "INTERVENTION_APPLIED"
  const InterventionBroadcastName: Line := "INTERVENTION_BROADCAST"
  const SessionCreatedName: Line := "SESSION_CREATED"
  const SessionStateChangedName: Line := "SESSION_STATE_CHANGED"

  // ------------------------------------------------------------------ events

  /** The events of the protocol with the fields the core sets. Dictionary
      payloads that only travel to the front end (snapshots, plans, option
      lists) are kept as their JSON text. */
  datatype Event =
    | RunStarted(threadId: string, runId: string)
    | RunFinished(threadId: string, runId: string)
    | RunError(message: string, code: Option<string>)
    | TextMessageStart(messageId: string, role: string)
    | TextMessageContent(messageId: string, delta: string)
    | TextMessageEnd(messageId: string)
    | ToolCallStart(toolCallId: string, toolCallName: string, parentMessageId: Option<string>)
    | ToolCallArgs(toolCallId: string, argsDelta: string)
    | ToolCallEnd(toolCallId: string)
    | ToolCallResult(toolCallId: string, result: string)
    | StateSnapshot(snapshot: string)
    | StateDelta(patch: string)
    | AgentSpawned(agentId: string, agentName: string, roleName: string, roleDescription: string,
                   capabilities: seq<string>, taskSegment: string)
    | AgentStatusChanged(agentId: string, agentName: string, previousStatus: string, newStatus: string,
                         reason: Option<string>)
    | AgentProgress(agentId: string, agentName: string, progress: real, currentStep: string, iterations: int)
    | AgentThinking(agentId: string, agentName: string, thinking: string)
    | RelayStationOpened(stationId: string, stationName: string, phase: int, participants: seq<string>)
    | RelayMessageSent(stationId: string, relayMessageId: string, sourceAgentId: string, sourceAgentName: string,
                       targetAgentIds: seq<string>, relayType: string, content: string, importance: int,
                       metadata: MessageMeta, viewedBy: seq<string>, acknowledgedBy: seq<string>,
                       viewedTimestamps: map<string, int>)
    | RelayStationClosed(stationId: string, stationName: string, summary: string)
    | PlanGenerated(planId: string, originalTask: string, totalAgents: nat)
    | RoleEmerged(roleId: string, roleName: string)
    | InterventionRequested(requestId: string, requestAgentId: Option<string>, requestReason: string)
    | InterventionApplied(interventionId: string, interventionType: string, appliedTo: Option<string>, outcome: string)
    | InterventionBroadcastEvent(broadcastStationId: string, broadcastInterventionId: string, priority: int)
    | SessionCreated(sessionId: string)
    | SessionStateChanged(changedSessionId: string, changeType: string, changeSummary: map<string, string>)
  {
    /** The type each event class fixes for itself. */
    function Kind(): EventType {
      match this
      case RunStarted(_, _) => RUN_STARTED
      case RunFinished(_, _) => RUN_FINISHED
      case RunError(_, _) => RUN_ERROR
      case TextMessageStart(_, _) => TEXT_MESSAGE_START
      case TextMessageContent(_, _) => TEXT_MESSAGE_CONTENT
      case TextMessageEnd(_) => TEXT_MESSAGE_END
      case ToolCallStart(_, _, _) => TOOL_CALL_START
      case ToolCallArgs(_, _) => TOOL_CALL_ARGS
      case ToolCallEnd(_) => TOOL_CALL_END
      case ToolCallResult(_, _) => TOOL_CALL_RESULT
      case StateSnapshot(_) => STATE_SNAPSHOT
      case StateDelta(_) => STATE_DELTA
      case AgentSpawned(_, _, _, _, _, _) => AGENT_SPAWNED
      case AgentStatusChanged(_, _, _, _, _) => AGENT_STATUS_CHANGED
      case AgentProgress(_, _, _, _, _) => AGENT_PROGRESS
      case AgentThinking(_, _, _) => AGENT_THINKING
      case RelayStationOpened(_, _, _, _) => RELAY_STATION_OPENED
      case RelayMessageSent(_, _, _, _, _, _, _, _, _, _, _, _) => RELAY_MESSAGE_SENT
      case RelayStationClosed(_, _, _) => RELAY_STATION_CLOSED
      case PlanGenerated(_, _, _) => PLAN_GENERATED
      case RoleEmerged(_, _) => ROLE_EMERGED
      case InterventionRequested(_, _, _) => INTERVENTION_REQUESTED
      case InterventionApplied(_, _, _, _) => INTERVENTION_APPLIED
      case InterventionBroadcastEvent(_, _, _) => INTERVENTION_BROADCAST
      case SessionCreated(_) => SESSION_CREATED
      case SessionStateChanged(_, _, _) => SESSION_STATE_CHANGED
    }
  }

  /** `EventFactory.relay_message_sent`: metadata, viewers, acknowledgers
      and view times take their empty defaults. */
  function NewRelayMessageSent(stationId: string, messageId: string, sourceId: string, sourceName: string,
                               targets: seq<string>, relayType: string, content: string, importance: int): (e: Event)
    ensures e.Kind() == RELAY_MESSAGE_SENT
    ensures e.metadata == NoMeta && e.viewedBy == [] && e.acknowledgedBy == [] && e.viewedTimestamps == map[]
    ensures e.stationId == stationId && e.relayMessageId == messageId && e.targetAgentIds == targets
  {
    RelayMessageSent(stationId, messageId, sourceId, sourceName, targets, relayType, content, importance,
                     NoMeta, [], [], map[])
  }

  /** `SessionStateChangedEvent` without a summary: the summary is empty. */
  function NewSessionStateChanged(sessionId: string, changeType: string): (e: Event)
    ensures e.Kind() == SESSION_STATE_CHANGED && e.changeSummary == map[]
  {
    SessionStateChanged(sessionId, changeType, map[])
  }

  /** `EventFactory.run_error(message)`: no code. */
  function NewRunError(message: string): (e: Event)
    ensures e.Kind() == RUN_ERROR && e.code.None? && e.message == message
  {
    RunError(message, None)
  }

  /** `TextMessageStartEvent` defaults to the assistant role. */
  function NewTextMessageStart(messageId: string): (e: Event)
    ensures e.Kind() == TEXT_MESSAGE_START && e.role == "assistant"
  {
    TextMessageStart(messageId, "assistant")
  }

  /** `BaseEvent.to_sse`: a frame named by the event's type. */
  function ToSse(e: Event, json: Line): string {
    Frame(e.Kind().Value(), json)
  }

  /** A client reading the frame sees exactly one event, whose type is the
      event's wire type and whose data is the JSON text. */
  lemma ToSseRoundTrip(e: Event, json: Line)
    ensures Parse(ToSse(e, json)) == [Dispatched(e.Kind().Value(), json)]
  {
    FrameRoundTrip(e.Kind().Value(), json);
  }
}
