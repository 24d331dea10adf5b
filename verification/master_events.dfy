/** The event side of the master agent: the table converting a subagent's
    raw events into AG-UI events, the completion counting of the parallel
    phase, and the shape of an `execute_task` stream. The interleaving of
    the two queues is scheduling and is not modelled; each drain is
    modelled on the sequence of events it finds. */
module MasterEvents {
  import opened Util
  import opened CoreModels
  import opened Events
  import opened Subagent

  /** A subagent's raw event tagged with the agent's id and name. */
  datatype RawEvent = RawEvent(agentId: string, agentName: string, body: RawBody)

  /** `PRIORITY_EVENT_TYPES`: these go to the queue that is always drained first. */
  predicate IsPriority(b: RawBody) {
    TypeName(b) in {"status", "error", "result"}
  }

  /** The six raw types that reach the front end. */
  predicate IsForwarded(b: RawBody) {
    b.StatusBody? || b.ProgressBody? || b.ThinkingBody? || b.RelayBody?
    || b.ToolCallStartBody? || b.ToolCallResultBody?
  }

  /** `_convert_event`. A relay event takes the coordinator's open station,
      `""` when none is open. */
  function ConvertEvent(e: RawEvent, activeStation: Option<string>): (r: Option<Event>)
    ensures r.Some? <==> IsForwarded(e.body)
    ensures e.body.StatusBody? ==>
      r == Some(AgentStatusChanged(e.agentId, e.agentName, "running", e.body.status, None))
    ensures e.body.ProgressBody? ==>
      r == Some(AgentProgress(e.agentId, e.agentName, e.body.progress, e.body.step, e.body.iterations.GetOr(0)))
    ensures e.body.ThinkingBody? ==> r == Some(AgentThinking(e.agentId, e.agentName, e.body.delta))
    ensures e.body.RelayBody? ==>
      r.value.Kind() == RELAY_MESSAGE_SENT
      && r.value.stationId == (if Truthy(activeStation) then activeStation.value else "")
      && r.value.relayMessageId == e.body.message.id
    ensures e.body.ToolCallStartBody? ==>
      r == Some(ToolCallStart(e.body.toolCallId.GetOr(""), e.body.toolName.GetOr(""), Some(e.agentId)))
    ensures e.body.ToolCallResultBody? ==>
      r == Some(ToolCallResult(e.body.toolCallId.GetOr(""), e.body.resultJson))
  {
    match e.body
    case StatusBody(s) => Some(AgentStatusChanged(e.agentId, e.agentName, "running", s, None))
    case ProgressBody(p, step, it) => Some(AgentProgress(e.agentId, e.agentName, p, step, it.GetOr(0)))
    case ThinkingBody(d) => Some(AgentThinking(e.agentId, e.agentName, d))
    case RelayBody(msg) =>
      var station := if Truthy(activeStation) then activeStation.value else "";
      Some(RelayMessageSent(station, msg.id, msg.sourceAgentId, msg.sourceAgentName, msg.targetAgentIds,
                            msg.relayType.Value(), msg.content, msg.importance, msg.meta,
                            msg.viewedBy, msg.acknowledgedBy, msg.viewedTimestamps))
    case ToolCallStartBody(id, name) => Some(ToolCallStart(id.GetOr(""), name.GetOr(""), Some(e.agentId)))
    case ToolCallResultBody(id, json) => Some(ToolCallResult(id.GetOr(""), json))
    case _ => None
  }

  /** Converted agent events name the agent the raw event came from. */
  lemma ConvertedKeepsAgent(e: RawEvent, activeStation: Option<string>)
    requires e.body.StatusBody? || e.body.ProgressBody? || e.body.ThinkingBody?
    ensures ConvertEvent(e, activeStation).value.agentId == e.agentId
    ensures ConvertEvent(e, activeStation).value.agentName == e.agentName
  {
  }

  // ------------------------------------------------------ completion counting

  /** Whether draining this event advances `completed_count`. During the
      loop a completed or failed status and an error event count; in the
      final drain, after every task has finished, only statuses are read. */
  predicate CountsAsDone(b: RawBody, finalDrain: bool) {
    (b.StatusBody? && b.status in {Completed.Value(), Failed.Value()})
    || (b.ErrorBody? && !finalDrain)
  }

  /** Drain a run of priority events: how many count towards completion, and
      the AG-UI events forwarded, in order. */
  function DrainPriority(q: seq<RawEvent>, finalDrain: bool, activeStation: Option<string>): (r: (nat, seq<Event>))
    ensures r.0 <= |q| && |r.1| <= |q|
    decreases |q|
  {
    if |q| == 0 then (0, [])
    else
      var rest := DrainPriority(q[1..], finalDrain, activeStation);
      var c := ConvertEvent(q[0], activeStation);
      ((if CountsAsDone(q[0].body, finalDrain) then 1 else 0) + rest.0,
       (if c.Some? then [c.value] else []) + rest.1)
  }

  /** The count is the number of counting events and the forwarded events
      are the forwarded raw events' conversions, in order. */
  lemma {:induction false} DrainCounts(q: seq<RawEvent>, finalDrain: bool, activeStation: Option<string>)
    ensures DrainPriority(q, finalDrain, activeStation).0 == |Filter(q, (e: RawEvent) => CountsAsDone(e.body, finalDrain))|
    ensures |DrainPriority(q, finalDrain, activeStation).1| == |Filter(q, (e: RawEvent) => IsForwarded(e.body))|
    decreases |q|
  {
    if |q| > 0 {
      DrainCounts(q[1..], finalDrain, activeStation);
      FilterCons(q, (e: RawEvent) => CountsAsDone(e.body, finalDrain));
      FilterCons(q, (e: RawEvent) => IsForwarded(e.body));
    }
  }

  /** A cancelled (or paused) subagent never advances the count: a queue with
      no completed or failed status and no error leaves it unchanged. */
  lemma {:induction false} CancelledIsNotCounted(q: seq<RawEvent>, finalDrain: bool, activeStation: Option<string>)
    requires forall i :: 0 <= i < |q| ==> !q[i].body.ErrorBody?
    requires forall i :: 0 <= i < |q| ==> q[i].body.StatusBody? ==> q[i].body.status in {Cancelled.Value(), Paused.Value()}
    ensures DrainPriority(q, finalDrain, activeStation).0 == 0
    decreases |q|
  {
    if |q| > 0 {
      CancelledIsNotCounted(q[1..], finalDrain, activeStation);
    }
  }

  /** An error event is counted during the loop but never reaches the front
      end; the final drain does not count it at all. */
  lemma ErrorCountedNotForwarded(e: RawEvent, activeStation: Option<string>)
    requires e.body.ErrorBody?
    ensures IsPriority(e.body)
    ensures DrainPriority([e], false, activeStation) == (1, [])
    ensures DrainPriority([e], true, activeStation) == (0, [])
  {
    assert [e][1..] == [];
  }

  /** The final drain never counts more than a drain in the loop would. */
  lemma {:induction false} FinalDrainCountsLess(q: seq<RawEvent>, activeStation: Option<string>)
    ensures DrainPriority(q, true, activeStation).0 <= DrainPriority(q, false, activeStation).0
    ensures DrainPriority(q, true, activeStation).1 == DrainPriority(q, false, activeStation).1
    decreases |q|
  {
    if |q| > 0 {
      FinalDrainCountsLess(q[1..], activeStation);
    }
  }

  // ------------------------------------------------------------ task stream

  /** A subagent as announced in AGENT_SPAWNED. */
  datatype Spawn = Spawn(agentId: string, agentName: string, roleName: string, roleDescription: string,
                         capabilities: seq<string>, taskSegment: string)

  datatype StationView = StationView(id: string, name: string, phase: int, participants: seq<string>)

  /** What the stream reads from a generated plan. */
  datatype PlanView = PlanView(planId: string, originalTask: string, agents: seq<Spawn>, firstStation: Option<StationView>)

  /** The text of the progress messages; its wording is not modelled. */
  datatype Notes = Notes(planning: string, followupPlanning: string, planFailed: string, spawning: string,
                         spawnedLine: Spawn -> string, executing: string, integrating: string)

  function SpawnEvents(runId: string, notes: Notes, agents: seq<Spawn>): (r: seq<Event>)
    ensures |r| == 2 * |agents|
    decreases |agents|
  {
    if |agents| == 0 then []
    else
      var a := agents[0];
      [Announce(a), TextMessageContent("spawning-" + runId, notes.spawnedLine(a))]
      + SpawnEvents(runId, notes, agents[1..])
  }

  function Announce(a: Spawn): Event {
    AgentSpawned(a.agentId, a.agentName, a.roleName, a.roleDescription, a.capabilities, a.taskSegment)
  }

  /** Each planned agent is announced, in plan order, each announcement
      followed by one line of the spawning message. */
  lemma {:induction false} SpawnEventsAnnounce(runId: string, notes: Notes, agents: seq<Spawn>)
    ensures forall i :: 0 <= i < |agents| ==>
      SpawnEvents(runId, notes, agents)[2 * i] == Announce(agents[i])
      && SpawnEvents(runId, notes, agents)[2 * i + 1] == TextMessageContent("spawning-" + runId, notes.spawnedLine(agents[i]))
    ensures forall e :: e in SpawnEvents(runId, notes, agents) ==> e.AgentSpawned? || e.TextMessageContent?
    decreases |agents|
  {
    if |agents| > 0 {
      SpawnEventsAnnounce(runId, notes, agents[1..]);
      var r := SpawnEvents(runId, notes, agents);
      var tail := SpawnEvents(runId, notes, agents[1..]);
      assert r == [Announce(agents[0]), TextMessageContent("spawning-" + runId, notes.spawnedLine(agents[0]))] + tail;
      forall i | 1 <= i < |agents|
        ensures r[2 * i] == Announce(agents[i])
        ensures r[2 * i + 1] == TextMessageContent("spawning-" + runId, notes.spawnedLine(agents[i]))
      {
        assert r[2 * i] == tail[2 * (i - 1)];
        assert r[2 * i + 1] == tail[2 * (i - 1) + 1];
        assert agents[1..][i - 1] == agents[i];
      }
    }
  }

  /** The events after RUN_STARTED, up to the point where the run would
      finish: planning (with role emergence's own events), then, when a plan
      came out, the plan, the spawned agents, the executing notice, the first
      station's opening, the parallel phase and the integration. Without a
      plan the planning message is closed and nothing else happens. */
  function TaskBody(runId: string, notes: Notes, followup: bool, emerged: seq<Event>, plan: Option<PlanView>,
                    parallel: seq<Event>, integrated: seq<Event>): seq<Event>
  {
    var planning := "planning-" + runId;
    var head := [NewTextMessageStart(planning),
                 TextMessageContent(planning, if followup then notes.followupPlanning else notes.planning)]
                + emerged;
    match plan
    case None => head + [TextMessageContent(planning, notes.planFailed), TextMessageEnd(planning)]
    case Some(p) =>
      var spawning := "spawning-" + runId;
      var executing := "executing-" + runId;
      var integrating := "integrating-" + runId;
      head
      + [TextMessageEnd(planning), PlanGenerated(p.planId, p.originalTask, |p.agents|),
         NewTextMessageStart(spawning), TextMessageContent(spawning, notes.spawning)]
      + SpawnEvents(runId, notes, p.agents)
      + [TextMessageEnd(spawning),
         NewTextMessageStart(executing), TextMessageContent(executing, notes.executing), TextMessageEnd(executing)]
      + (match p.firstStation
         case Some(s) => [RelayStationOpened(s.id, s.name, s.phase, s.participants)]
         case None => [])
      + parallel
      + [NewTextMessageStart(integrating), TextMessageContent(integrating, notes.integrating)]
      + integrated
      + [TextMessageEnd(integrating)]
  }

  /** Where the run stopped: it ran to its end, or an exception was raised
      after `emitted` events of the body had been yielded. */
  datatype Ending = Ran | Raised(emitted: nat, message: string)

  /** `execute_task` as the client receives it. */
  function ExecuteTask(threadId: string, runId: string, notes: Notes, followup: bool, emerged: seq<Event>,
                       plan: Option<PlanView>, parallel: seq<Event>, integrated: seq<Event>, ending: Ending): (r: seq<Event>)
    ensures |r| >= 1 && r[0] == RunStarted(threadId, runId)
    ensures var body := TaskBody(runId, notes, followup, emerged, plan, parallel, integrated);
      ending.Ran? ==> |r| == 1 + |body| + (if plan.Some? then 1 else 0) && r[1..1 + |body|] == body
    ensures var body := TaskBody(runId, notes, followup, emerged, plan, parallel, integrated);
      ending.Raised? ==> |r| == 2 + Min(ending.emitted, |body|) && r[1..|r| - 1] == body[..|r| - 2]
    ensures ending.Ran? && plan.Some? ==> r[|r| - 1] == RunFinished(threadId, runId)
    ensures ending.Ran? && plan.None? ==> r[|r| - 1] == TextMessageEnd("planning-" + runId)
    ensures ending.Raised? ==> r[|r| - 1] == NewRunError(ending.message)
  {
    var body := TaskBody(runId, notes, followup, emerged, plan, parallel, integrated);
    [RunStarted(threadId, runId)]
    + match ending
      case Ran => body + (if plan.Some? then [RunFinished(threadId, runId)] else [])
      case Raised(k, msg) => Take(body, k) + [NewRunError(msg)]
  }

  /** Events that only `execute_task` itself emits. */
  predicate IsRunEvent(e: Event) {
    e.RunStarted? || e.RunFinished? || e.RunError?
  }

  /** Inner streams (role emergence, parallel phase, integration) carry no
      run lifecycle events. */
  predicate InnerOnly(s: seq<Event>) {
    forall e :: e in s ==> !IsRunEvent(e)
  }

  lemma TaskBodyInner(runId: string, notes: Notes, followup: bool, emerged: seq<Event>, plan: Option<PlanView>,
                      parallel: seq<Event>, integrated: seq<Event>)
    requires InnerOnly(emerged) && InnerOnly(parallel) && InnerOnly(integrated)
    ensures InnerOnly(TaskBody(runId, notes, followup, emerged, plan, parallel, integrated))
  {
    var planning := "planning-" + runId;
    var head := [NewTextMessageStart(planning),
                 TextMessageContent(planning, if followup then notes.followupPlanning else notes.planning)]
                + emerged;
    InnerConcat([NewTextMessageStart(planning),
                 TextMessageContent(planning, if followup then notes.followupPlanning else notes.planning)], emerged);
    match plan
    case None =>
      InnerConcat(head, [TextMessageContent(planning, notes.planFailed), TextMessageEnd(planning)]);
    case Some(p) =>
      var spawning := "spawning-" + runId;
      var executing := "executing-" + runId;
      var integrating := "integrating-" + runId;
      var a := head + [TextMessageEnd(planning), PlanGenerated(p.planId, p.originalTask, |p.agents|),
                       NewTextMessageStart(spawning), TextMessageContent(spawning, notes.spawning)];
      InnerConcat(head, [TextMessageEnd(planning), PlanGenerated(p.planId, p.originalTask, |p.agents|),
                         NewTextMessageStart(spawning), TextMessageContent(spawning, notes.spawning)]);
      SpawnEventsAnnounce(runId, notes, p.agents);
      var b := a + SpawnEvents(runId, notes, p.agents);
      InnerConcat(a, SpawnEvents(runId, notes, p.agents));
      var executingEvents := [TextMessageEnd(spawning), NewTextMessageStart(executing),
                              TextMessageContent(executing, notes.executing), TextMessageEnd(executing)];
      var c := b + executingEvents;
      InnerConcat(b, executingEvents);
      var openings := (match p.firstStation
                       case Some(st) => [RelayStationOpened(st.id, st.name, st.phase, st.participants)]
                       case None => []);
      var d := c + openings + parallel;
      InnerConcat(c, openings);
      InnerConcat(c + openings, parallel);
      var integratingEvents := [NewTextMessageStart(integrating), TextMessageContent(integrating, notes.integrating)];
      var e := d + integratingEvents + integrated;
      InnerConcat(d, integratingEvents);
      InnerConcat(d + integratingEvents, integrated);
      InnerConcat(e, [TextMessageEnd(integrating)]);
  }

  lemma InnerConcat(a: seq<Event>, b: seq<Event>)
    requires InnerOnly(a) && InnerOnly(b)
    ensures InnerOnly(a + b)
  {
  }

  /** Every `execute_task` stream starts with RUN_STARTED and ends in exactly
      one of three ways: RUN_FINISHED after a completed run with a plan,
      RUN_ERROR after an exception, or neither when role emergence produced
      no plan, in which case the stream stops at the end of the planning
      message. Nothing in between is a run lifecycle event. */
  lemma ExecuteTaskEndings(threadId: string, runId: string, notes: Notes, followup: bool, emerged: seq<Event>,
                           plan: Option<PlanView>, parallel: seq<Event>, integrated: seq<Event>, ending: Ending)
    requires InnerOnly(emerged) && InnerOnly(parallel) && InnerOnly(integrated)
    ensures var s := ExecuteTask(threadId, runId, notes, followup, emerged, plan, parallel, integrated, ending);
      && |s| >= 2
      && s[0] == RunStarted(threadId, runId)
      && (forall i :: 1 <= i < |s| - 1 ==> !IsRunEvent(s[i]))
      && (ending.Ran? && plan.Some? ==> s[|s| - 1] == RunFinished(threadId, runId))
      && (ending.Raised? ==> s[|s| - 1] == NewRunError(ending.message))
      && (ending.Ran? && plan.None? ==>
            !IsRunEvent(s[|s| - 1]) && s[|s| - 1] == TextMessageEnd("planning-" + runId))
  {
    var body := TaskBody(runId, notes, followup, emerged, plan, parallel, integrated);
    TaskBodyInner(runId, notes, followup, emerged, plan, parallel, integrated);
    var s := ExecuteTask(threadId, runId, notes, followup, emerged, plan, parallel, integrated, ending);
    match ending
    case Ran =>
      if plan.Some? {
        assert s == [RunStarted(threadId, runId)] + body + [RunFinished(threadId, runId)];
        forall i | 1 <= i < |s| - 1 ensures !IsRunEvent(s[i]) {
          assert s[i] == body[i - 1];
        }
      } else {
        assert s == [RunStarted(threadId, runId)] + body;
        forall i | 1 <= i < |s| ensures !IsRunEvent(s[i]) {
          assert s[i] == body[i - 1];
        }
      }
    case Raised(k, msg) =>
      var t := Take(body, k);
      assert s == [RunStarted(threadId, runId)] + t + [NewRunError(msg)];
      forall i | 1 <= i < |s| - 1 ensures !IsRunEvent(s[i]) {
        assert s[i] == t[i - 1] == body[i - 1];
      }
  }

  /** A run that completes with a plan announces the plan and every planned
      agent, and opens a relay station exactly when the plan has one: the
      inner streams cannot open one themselves. */
  lemma CompletedRunAnnouncesPlan(threadId: string, runId: string, notes: Notes, followup: bool, emerged: seq<Event>,
                                  p: PlanView, parallel: seq<Event>, integrated: seq<Event>)
    requires forall e :: e in emerged + parallel + integrated ==> !e.RelayStationOpened?
    ensures var s := ExecuteTask(threadId, runId, notes, followup, emerged, Some(p), parallel, integrated, Ran);
      && PlanGenerated(p.planId, p.originalTask, |p.agents|) in s
      && (forall i :: 0 <= i < |p.agents| ==> Announce(p.agents[i]) in s)
      && ((exists e :: e in s && e.RelayStationOpened?) <==> p.firstStation.Some?)
  {
    var s := ExecuteTask(threadId, runId, notes, followup, emerged, Some(p), parallel, integrated, Ran);
    var sp := SpawnEvents(runId, notes, p.agents);
    PlannedRunParts(threadId, runId, notes, followup, emerged, p, parallel, integrated);
    SpawnEventsAnnounce(runId, notes, p.agents);
    forall i | 0 <= i < |p.agents| ensures Announce(p.agents[i]) in s {
      assert sp[2 * i] in sp;
    }
    StationOnlyFromPlan(threadId, runId, notes, followup, emerged, p, parallel, integrated);
  }

  /** What a completed planned run contains. */
  lemma PlannedRunParts(threadId: string, runId: string, notes: Notes, followup: bool, emerged: seq<Event>,
                        p: PlanView, parallel: seq<Event>, integrated: seq<Event>)
    ensures var s := ExecuteTask(threadId, runId, notes, followup, emerged, Some(p), parallel, integrated, Ran);
      && PlanGenerated(p.planId, p.originalTask, |p.agents|) in s
      && (forall e :: e in SpawnEvents(runId, notes, p.agents) ==> e in s)
      && (p.firstStation.Some? ==> StationOpening(p.firstStation.value) in s)
  {
  }

  predicate OpensNoStation(s: seq<Event>) {
    forall e :: e in s ==> !e.RelayStationOpened?
  }

  /** Without a first station in the plan, a completed run whose inner
      streams open none opens none either. */
  lemma PlanWithoutStation(threadId: string, runId: string, notes: Notes, followup: bool, emerged: seq<Event>,
                           p: PlanView, parallel: seq<Event>, integrated: seq<Event>)
    requires p.firstStation.None?
    requires OpensNoStation(emerged) && OpensNoStation(parallel) && OpensNoStation(integrated)
    ensures OpensNoStation(ExecuteTask(threadId, runId, notes, followup, emerged, Some(p), parallel, integrated, Ran))
  {
    var planning, spawning := "planning-" + runId, "spawning-" + runId;
    var executing, integrating := "executing-" + runId, "integrating-" + runId;
    var head := [NewTextMessageStart(planning),
                 TextMessageContent(planning, if followup then notes.followupPlanning else notes.planning)];
    var planned := [TextMessageEnd(planning), PlanGenerated(p.planId, p.originalTask, |p.agents|),
                    NewTextMessageStart(spawning), TextMessageContent(spawning, notes.spawning)];
    var spawned := SpawnEvents(runId, notes, p.agents);
    var executed := [TextMessageEnd(spawning), NewTextMessageStart(executing),
                     TextMessageContent(executing, notes.executing), TextMessageEnd(executing)];
    var opening := [NewTextMessageStart(integrating), TextMessageContent(integrating, notes.integrating)];
    var body := TaskBody(runId, notes, followup, emerged, Some(p), parallel, integrated);
    assert body == head + emerged + planned + spawned + executed + [] + parallel + opening + integrated
                   + [TextMessageEnd(integrating)];
    assert OpensNoStation(spawned) by {
      SpawnEventsAnnounce(runId, notes, p.agents);
    }
    OpensNoStationConcat(head, emerged);
    OpensNoStationConcat(head + emerged, planned);
    OpensNoStationConcat(head + emerged + planned, spawned);
    OpensNoStationConcat(head + emerged + planned + spawned, executed);
    assert head + emerged + planned + spawned + executed + [] == head + emerged + planned + spawned + executed;
    OpensNoStationConcat(head + emerged + planned + spawned + executed, parallel);
    OpensNoStationConcat(head + emerged + planned + spawned + executed + parallel, opening);
    OpensNoStationConcat(head + emerged + planned + spawned + executed + parallel + opening, integrated);
    OpensNoStationConcat(head + emerged + planned + spawned + executed + parallel + opening + integrated,
                         [TextMessageEnd(integrating)]);
    assert ExecuteTask(threadId, runId, notes, followup, emerged, Some(p), parallel, integrated, Ran)
           == [RunStarted(threadId, runId)] + body + [RunFinished(threadId, runId)];
    OpensNoStationConcat([RunStarted(threadId, runId)], body);
    OpensNoStationConcat([RunStarted(threadId, runId)] + body, [RunFinished(threadId, runId)]);
  }

  lemma OpensNoStationConcat(a: seq<Event>, b: seq<Event>)
    requires OpensNoStation(a) && OpensNoStation(b)
    ensures OpensNoStation(a + b)
  {
  }

  function StationOpening(st: StationView): Event {
    RelayStationOpened(st.id, st.name, st.phase, st.participants)
  }

  lemma StationOnlyFromPlan(threadId: string, runId: string, notes: Notes, followup: bool, emerged: seq<Event>,
                            p: PlanView, parallel: seq<Event>, integrated: seq<Event>)
    requires forall e :: e in emerged + parallel + integrated ==> !e.RelayStationOpened?
    ensures var s := ExecuteTask(threadId, runId, notes, followup, emerged, Some(p), parallel, integrated, Ran);
      (exists e :: e in s && e.RelayStationOpened?) <==> p.firstStation.Some?
  {
    var s := ExecuteTask(threadId, runId, notes, followup, emerged, Some(p), parallel, integrated, Ran);
    if p.firstStation.Some? {
      PlannedRunParts(threadId, runId, notes, followup, emerged, p, parallel, integrated);
      assert StationOpening(p.firstStation.value) in s;
    } else {
      assert forall e :: e in emerged ==> e in emerged + parallel + integrated;
      assert forall e :: e in parallel ==> e in emerged + parallel + integrated;
      assert forall e :: e in integrated ==> e in emerged + parallel + integrated;
      PlanWithoutStation(threadId, runId, notes, followup, emerged, p, parallel, integrated);
    }
  }
}
