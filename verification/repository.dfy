/** The in-memory storage backend: one insertion-ordered table per record
    kind, with the same keys, cascades, filters, sorts and pages as the
    Python `MemoryRepository`. The clock `now` is an integer number of
    seconds passed in by the caller. */
module MemoryRepository {
  import opened Util
  import opened OrderedTable

  // ---------------------------------------------------------------- records

  datatype SessionRecord = SessionRecord(
    sessionId: string,
    task: string,
    status: string,
    provider: string,
    mode: string,
    userId: Option<string>,
    planJson: Option<string>,
    finalReport: Option<string>,
    error: Option<string>,
    createdAt: int,
    updatedAt: int,
    lastActiveAt: int)

  /** A session record with the dataclass defaults: status "active",
      provider "openai", mode "emergent", no owner, all timestamps `now`. */
  function NewSessionRecord(sessionId: string, now: int): (r: SessionRecord)
    ensures r.sessionId == sessionId && r.task == ""
    ensures r.status == "active" && r.provider == "openai" && r.mode == "emergent"
    ensures r.userId.None? && r.finalReport.None? && r.error.None?
    ensures r.createdAt == now && r.updatedAt == now && r.lastActiveAt == now
  {
    SessionRecord(sessionId, "", "active", "openai", "emergent", None, None, None, None, now, now, now)
  }

  datatype AgentRecord = AgentRecord(
    agentId: string, sessionId: string, name: string, status: string,
    progress: int, createdAt: int, updatedAt: int)

  datatype MessageRecord = MessageRecord(
    messageId: string, sessionId: string, role: string, content: string, timestamp: int)

  datatype StationRecord = StationRecord(
    stationId: string, sessionId: string, name: string, phase: int,
    isActive: bool, summary: Option<string>, createdAt: int)

  datatype RelayMessageRecord = RelayMessageRecord(
    messageId: string, stationId: string, sessionId: string, relayType: string,
    content: string, importance: int, timestamp: int)

  datatype InterventionRecord = InterventionRecord(
    interventionId: string, sessionId: string, interventionType: string,
    scope: string, priority: int, timestamp: int)

  datatype UserRecord = UserRecord(
    userId: string, username: string, passwordHash: string,
    displayName: string, createdAt: int, updatedAt: int)

  // ------------------------------------------------- attribute assignments

  /** One `key: value` pair of an `updates` dict for a session. There is a
      setter for every attribute the model's record carries, the identity
      and the timestamps included, since `setattr` assigns whatever
      attribute exists. `UnknownSessionField` stands for any other key. */
  datatype SessionUpdate =
    | SetSessionId(sessionId: string)
    | SetTask(task: string)
    | SetStatus(status: string)
    | SetProvider(provider: string)
    | SetMode(mode: string)
    | SetUserId(userId: Option<string>)
    | SetPlanJson(planJson: Option<string>)
    | SetFinalReport(finalReport: Option<string>)
    | SetError(error: Option<string>)
    | SetCreatedAt(createdAt: int)
    | SetUpdatedAt(updatedAt: int)
    | SetLastActiveAt(lastActiveAt: int)
    | UnknownSessionField(name: string)
  {
    /** The attribute name the pair carries. */
    function Name(): string {
      match this
      case SetSessionId(_) => "session_id"
      case SetTask(_) => "task"
      case SetStatus(_) => "status"
      case SetProvider(_) => "provider"
      case SetMode(_) => "mode"
      case SetUserId(_) => "user_id"
      case SetPlanJson(_) => "plan_json"
      case SetFinalReport(_) => "final_report"
      case SetError(_) => "error"
      case SetCreatedAt(_) => "created_at"
      case SetUpdatedAt(_) => "updated_at"
      case SetLastActiveAt(_) => "last_active_at"
      case UnknownSessionField(n) => n
    }
  }

  /** The attributes of the source's session record (`hasattr` is true). */
  predicate IsSessionAttribute(n: string) {
    n == "session_id" || n == "task" || n == "status" || n == "provider" || n == "model"
    || n == "mode" || n == "user_id" || n == "plan_json" || n == "final_report" || n == "error"
    || n == "created_at" || n == "updated_at" || n == "last_active_at" || n == "metadata_json"
  }

  /** `if hasattr(record, key): setattr(record, key, value)`. */
  function ApplySessionUpdate(r: SessionRecord, u: SessionUpdate): SessionRecord {
    match u
    case SetSessionId(v) => r.(sessionId := v)
    case SetTask(v) => r.(task := v)
    case SetStatus(v) => r.(status := v)
    case SetProvider(v) => r.(provider := v)
    case SetMode(v) => r.(mode := v)
    case SetUserId(v) => r.(userId := v)
    case SetPlanJson(v) => r.(planJson := v)
    case SetFinalReport(v) => r.(finalReport := v)
    case SetError(v) => r.(error := v)
    case SetCreatedAt(v) => r.(createdAt := v)
    case SetUpdatedAt(v) => r.(updatedAt := v)
    case SetLastActiveAt(v) => r.(lastActiveAt := v)
    case UnknownSessionField(_) => r
  }

  /** The value of one attribute, whatever its Python type. */
  datatype AttrValue =
    Text(text: string) | MaybeText(maybe: Option<string>) | Stamp(stamp: int) | Number(number: int) | Flag(flag: bool)

  /** `getattr(record, name)` for the attributes the model's record carries. */
  function SessionAttr(r: SessionRecord, name: string): Option<AttrValue> {
    if name == "session_id" then Some(Text(r.sessionId))
    else if name == "task" then Some(Text(r.task))
    else if name == "status" then Some(Text(r.status))
    else if name == "provider" then Some(Text(r.provider))
    else if name == "mode" then Some(Text(r.mode))
    else if name == "user_id" then Some(MaybeText(r.userId))
    else if name == "plan_json" then Some(MaybeText(r.planJson))
    else if name == "final_report" then Some(MaybeText(r.finalReport))
    else if name == "error" then Some(MaybeText(r.error))
    else if name == "created_at" then Some(Stamp(r.createdAt))
    else if name == "updated_at" then Some(Stamp(r.updatedAt))
    else if name == "last_active_at" then Some(Stamp(r.lastActiveAt))
    else None
  }

  /** The value a setter assigns. */
  function SetterValue(u: SessionUpdate): AttrValue {
    match u
    case SetSessionId(v) => Text(v)
    case SetTask(v) => Text(v)
    case SetStatus(v) => Text(v)
    case SetProvider(v) => Text(v)
    case SetMode(v) => Text(v)
    case SetUserId(v) => MaybeText(v)
    case SetPlanJson(v) => MaybeText(v)
    case SetFinalReport(v) => MaybeText(v)
    case SetError(v) => MaybeText(v)
    case SetCreatedAt(v) => Stamp(v)
    case SetUpdatedAt(v) => Stamp(v)
    case SetLastActiveAt(v) => Stamp(v)
    case UnknownSessionField(_) => Text("")
  }

  /** No pair of `ups` names attribute `name`. */
  predicate Untouched(ups: seq<SessionUpdate>, name: string) {
    forall i :: 0 <= i < |ups| ==> ups[i].Name() != name
  }

  /** No later pair names the attribute pair `i` names. */
  predicate LastSessionPair(ups: seq<SessionUpdate>, i: int)
    requires 0 <= i < |ups|
  {
    forall j :: i < j < |ups| ==> ups[j].Name() != ups[i].Name()
  }

  /** One assignment sets the attribute it names and leaves every other. */
  lemma SessionUpdateStep(r: SessionRecord, u: SessionUpdate, name: string)
    ensures u.Name() != name ==> SessionAttr(ApplySessionUpdate(r, u), name) == SessionAttr(r, name)
    ensures !u.UnknownSessionField? ==> SessionAttr(ApplySessionUpdate(r, u), u.Name()) == Some(SetterValue(u))
  {
  }

  /** The updates applied in dict order: every attribute no pair names keeps
      its value, and the last pair decides the attribute it names. */
  function ApplySessionUpdates(r: SessionRecord, ups: seq<SessionUpdate>): (o: SessionRecord)
    ensures forall name :: Untouched(ups, name) ==> SessionAttr(o, name) == SessionAttr(r, name)
    ensures |ups| > 0 && !ups[|ups| - 1].UnknownSessionField? ==>
      SessionAttr(o, ups[|ups| - 1].Name()) == Some(SetterValue(ups[|ups| - 1]))
    ensures forall i :: 0 <= i < |ups| && !ups[i].UnknownSessionField? && LastSessionPair(ups, i) ==>
      SessionAttr(o, ups[i].Name()) == Some(SetterValue(ups[i]))
  {
    if |ups| == 0 then r
    else
      var init := ups[..|ups| - 1];
      var p := ApplySessionUpdates(r, init);
      var u := ups[|ups| - 1];
      assert forall name :: Untouched(ups, name) ==> SessionAttr(ApplySessionUpdate(p, u), name) == SessionAttr(r, name) by {
        forall name | Untouched(ups, name)
          ensures SessionAttr(ApplySessionUpdate(p, u), name) == SessionAttr(r, name)
        {
          forall i | 0 <= i < |init| ensures init[i].Name() != name {
            assert init[i] == ups[i];
          }
          SessionUpdateStep(p, u, name);
        }
      }
      SessionUpdateStep(p, u, u.Name());
      LastSessionPairSnoc(ups, p);
      ApplySessionUpdate(p, u)
  }

  /** One more pair keeps "the last pair naming an attribute decides it". */
  lemma LastSessionPairSnoc(ups: seq<SessionUpdate>, p: SessionRecord)
    requires |ups| > 0
    requires var init := ups[..|ups| - 1];
      forall i :: 0 <= i < |init| && !init[i].UnknownSessionField? && LastSessionPair(init, i) ==>
        SessionAttr(p, init[i].Name()) == Some(SetterValue(init[i]))
    ensures var o := ApplySessionUpdate(p, ups[|ups| - 1]);
      forall i :: 0 <= i < |ups| && !ups[i].UnknownSessionField? && LastSessionPair(ups, i) ==>
        SessionAttr(o, ups[i].Name()) == Some(SetterValue(ups[i]))
  {
    var init, u := ups[..|ups| - 1], ups[|ups| - 1];
    forall i | 0 <= i < |ups| && !ups[i].UnknownSessionField? && LastSessionPair(ups, i)
      ensures SessionAttr(ApplySessionUpdate(p, u), ups[i].Name()) == Some(SetterValue(ups[i]))
    {
      if i == |ups| - 1 {
        SessionUpdateStep(p, u, u.Name());
      } else {
        assert init[i] == ups[i];
        forall j | i < j < |init| ensures init[j].Name() != init[i].Name() {
          assert init[j] == ups[j];
        }
        assert LastSessionPair(init, i);
        SessionUpdateStep(p, u, ups[i].Name());
      }
    }
  }

  /** Keys that name no attribute of the record change nothing. */
  lemma {:induction false} UnknownSessionUpdatesIgnored(r: SessionRecord, ups: seq<SessionUpdate>)
    requires forall i :: 0 <= i < |ups| ==> ups[i].UnknownSessionField? && !IsSessionAttribute(ups[i].name)
    ensures ApplySessionUpdates(r, ups) == r
  {
    if |ups| > 0 {
      UnknownSessionUpdatesIgnored(r, ups[..|ups| - 1]);
    }
  }

  /** Pairs for an agent, one setter per attribute of the model's record. */
  datatype AgentUpdate =
    | SetAgentId(agentId: string)
    | SetAgentSessionId(agentSessionId: string)
    | SetAgentName(agentName: string)
    | SetAgentStatus(agentStatus: string)
    | SetAgentProgress(agentProgress: int)
    | SetAgentCreatedAt(agentCreatedAt: int)
    | SetAgentUpdatedAt(agentUpdatedAt: int)
    | UnknownAgentField(agentField: string)
  {
    /** The attribute name the pair carries. */
    function Name(): string {
      match this
      case SetAgentId(_) => "agent_id"
      case SetAgentSessionId(_) => "session_id"
      case SetAgentName(_) => "name"
      case SetAgentStatus(_) => "status"
      case SetAgentProgress(_) => "progress"
      case SetAgentCreatedAt(_) => "created_at"
      case SetAgentUpdatedAt(_) => "updated_at"
      case UnknownAgentField(n) => n
    }
  }

  function ApplyAgentUpdate(r: AgentRecord, u: AgentUpdate): AgentRecord {
    match u
    case SetAgentId(v) => r.(agentId := v)
    case SetAgentSessionId(v) => r.(sessionId := v)
    case SetAgentName(v) => r.(name := v)
    case SetAgentStatus(v) => r.(status := v)
    case SetAgentProgress(v) => r.(progress := v)
    case SetAgentCreatedAt(v) => r.(createdAt := v)
    case SetAgentUpdatedAt(v) => r.(updatedAt := v)
    case UnknownAgentField(_) => r
  }

  /** `getattr(record, name)` for the attributes the model's agent carries. */
  function AgentAttr(r: AgentRecord, name: string): Option<AttrValue> {
    if name == "agent_id" then Some(Text(r.agentId))
    else if name == "session_id" then Some(Text(r.sessionId))
    else if name == "name" then Some(Text(r.name))
    else if name == "status" then Some(Text(r.status))
    else if name == "progress" then Some(Number(r.progress))
    else if name == "created_at" then Some(Stamp(r.createdAt))
    else if name == "updated_at" then Some(Stamp(r.updatedAt))
    else None
  }

  function AgentSetterValue(u: AgentUpdate): AttrValue {
    match u
    case SetAgentId(v) => Text(v)
    case SetAgentSessionId(v) => Text(v)
    case SetAgentName(v) => Text(v)
    case SetAgentStatus(v) => Text(v)
    case SetAgentProgress(v) => Number(v)
    case SetAgentCreatedAt(v) => Stamp(v)
    case SetAgentUpdatedAt(v) => Stamp(v)
    case UnknownAgentField(_) => Text("")
  }

  predicate AgentUntouched(ups: seq<AgentUpdate>, name: string) {
    forall i :: 0 <= i < |ups| ==> ups[i].Name() != name
  }

  /** No later pair names the attribute pair `i` names. */
  predicate LastAgentPair(ups: seq<AgentUpdate>, i: int)
    requires 0 <= i < |ups|
  {
    forall j :: i < j < |ups| ==> ups[j].Name() != ups[i].Name()
  }

  /** What `setattr` once per pair, in dict order, makes of `r`: every
      attribute no pair names keeps its value, and the last pair naming an
      attribute decides it. */
  ghost predicate AgentUpdated(r: AgentRecord, ups: seq<AgentUpdate>, o: AgentRecord) {
    && (forall name :: AgentUntouched(ups, name) ==> AgentAttr(o, name) == AgentAttr(r, name))
    && (forall i :: 0 <= i < |ups| && !ups[i].UnknownAgentField? && LastAgentPair(ups, i) ==>
          AgentAttr(o, ups[i].Name()) == Some(AgentSetterValue(ups[i])))
  }

  lemma AgentUpdateStep(r: AgentRecord, u: AgentUpdate, name: string)
    ensures u.Name() != name ==> AgentAttr(ApplyAgentUpdate(r, u), name) == AgentAttr(r, name)
    ensures !u.UnknownAgentField? ==> AgentAttr(ApplyAgentUpdate(r, u), u.Name()) == Some(AgentSetterValue(u))
  {
  }

  /** One more pair keeps the promise of `AgentUpdated`. */
  lemma AgentUpdatedSnoc(r: AgentRecord, ups: seq<AgentUpdate>, p: AgentRecord)
    requires |ups| > 0 && AgentUpdated(r, ups[..|ups| - 1], p)
    ensures AgentUpdated(r, ups, ApplyAgentUpdate(p, ups[|ups| - 1]))
  {
    var init, u := ups[..|ups| - 1], ups[|ups| - 1];
    var o := ApplyAgentUpdate(p, u);
    forall name | AgentUntouched(ups, name) ensures AgentAttr(o, name) == AgentAttr(r, name) {
      forall i | 0 <= i < |init| ensures init[i].Name() != name {
        assert init[i] == ups[i];
      }
      AgentUpdateStep(p, u, name);
    }
    forall i | 0 <= i < |ups| && !ups[i].UnknownAgentField? && LastAgentPair(ups, i)
      ensures AgentAttr(o, ups[i].Name()) == Some(AgentSetterValue(ups[i]))
    {
      if i == |ups| - 1 {
        AgentUpdateStep(p, u, u.Name());
      } else {
        assert init[i] == ups[i];
        forall j | i < j < |init| ensures init[j].Name() != init[i].Name() {
          assert init[j] == ups[j];
        }
        assert LastAgentPair(init, i);
        AgentUpdateStep(p, u, ups[i].Name());
      }
    }
  }

  /** One more pair keeps the per-setter frame of `ApplyAgentUpdates`. */
  lemma AgentFieldsSnoc(r: AgentRecord, ups: seq<AgentUpdate>, p: AgentRecord)
    requires |ups| > 0
    requires var init := ups[..|ups| - 1];
      && ((forall i :: 0 <= i < |init| ==> !init[i].SetAgentId?) ==> p.agentId == r.agentId)
      && ((forall i :: 0 <= i < |init| ==> !init[i].SetAgentSessionId?) ==> p.sessionId == r.sessionId)
      && ((forall i :: 0 <= i < |init| ==> !init[i].SetAgentStatus?) ==> p.status == r.status)
      && ((forall i :: 0 <= i < |init| ==> !init[i].SetAgentCreatedAt?) ==> p.createdAt == r.createdAt)
    ensures var o := ApplyAgentUpdate(p, ups[|ups| - 1]);
      && ((forall i :: 0 <= i < |ups| ==> !ups[i].SetAgentId?) ==> o.agentId == r.agentId)
      && ((forall i :: 0 <= i < |ups| ==> !ups[i].SetAgentSessionId?) ==> o.sessionId == r.sessionId)
      && ((forall i :: 0 <= i < |ups| ==> !ups[i].SetAgentStatus?) ==> o.status == r.status)
      && ((forall i :: 0 <= i < |ups| ==> !ups[i].SetAgentCreatedAt?) ==> o.createdAt == r.createdAt)
  {
    var init := ups[..|ups| - 1];
    assert forall i :: 0 <= i < |init| ==> init[i] == ups[i];
  }

  /** The agent updates in dict order: every attribute no pair names keeps
      its value, and the last pair naming an attribute decides it. */
  function ApplyAgentUpdates(r: AgentRecord, ups: seq<AgentUpdate>): (o: AgentRecord)
    ensures AgentUpdated(r, ups, o)
    ensures (forall i :: 0 <= i < |ups| ==> !ups[i].SetAgentId?) ==> o.agentId == r.agentId
    ensures (forall i :: 0 <= i < |ups| ==> !ups[i].SetAgentSessionId?) ==> o.sessionId == r.sessionId
    ensures (forall i :: 0 <= i < |ups| ==> !ups[i].SetAgentStatus?) ==> o.status == r.status
    ensures (forall i :: 0 <= i < |ups| ==> !ups[i].SetAgentCreatedAt?) ==> o.createdAt == r.createdAt
    ensures |ups| > 0 && ups[|ups| - 1].SetAgentStatus? ==> o.status == ups[|ups| - 1].agentStatus
    ensures |ups| > 0 && ups[|ups| - 1].SetAgentSessionId? ==> o.sessionId == ups[|ups| - 1].agentSessionId
  {
    if |ups| == 0 then r
    else
      var init := ups[..|ups| - 1];
      var p := ApplyAgentUpdates(r, init);
      AgentUpdatedSnoc(r, ups, p);
      AgentFieldsSnoc(r, ups, p);
      ApplyAgentUpdate(p, ups[|ups| - 1])
  }

  /** Pairs for a relay station, one setter per attribute of the model's record. */
  datatype StationUpdate =
    | SetStationId(newStationId: string)
    | SetStationSessionId(stationSessionId: string)
    | SetStationName(stationName: string)
    | SetStationPhase(stationPhase: int)
    | SetStationActive(active: bool)
    | SetStationSummary(stationSummary: Option<string>)
    | SetStationCreatedAt(stationCreatedAt: int)
    | UnknownStationField(stationField: string)
  {
    /** The attribute name the pair carries. */
    function Name(): string {
      match this
      case SetStationId(_) => "station_id"
      case SetStationSessionId(_) => "session_id"
      case SetStationName(_) => "name"
      case SetStationPhase(_) => "phase"
      case SetStationActive(_) => "is_active"
      case SetStationSummary(_) => "summary"
      case SetStationCreatedAt(_) => "created_at"
      case UnknownStationField(n) => n
    }
  }

  /** The attributes of the source's relay station record. */
  predicate IsStationAttribute(n: string) {
    n == "station_id" || n == "session_id" || n == "name" || n == "phase"
    || n == "participating_agents" || n == "is_active" || n == "summary"
    || n == "created_at" || n == "closed_at"
  }

  function ApplyStationUpdate(r: StationRecord, u: StationUpdate): StationRecord {
    match u
    case SetStationId(v) => r.(stationId := v)
    case SetStationSessionId(v) => r.(sessionId := v)
    case SetStationName(v) => r.(name := v)
    case SetStationPhase(v) => r.(phase := v)
    case SetStationActive(v) => r.(isActive := v)
    case SetStationSummary(v) => r.(summary := v)
    case SetStationCreatedAt(v) => r.(createdAt := v)
    case UnknownStationField(_) => r
  }

  /** `getattr(record, name)` for the attributes the model's station carries. */
  function StationAttr(r: StationRecord, name: string): Option<AttrValue> {
    if name == "station_id" then Some(Text(r.stationId))
    else if name == "session_id" then Some(Text(r.sessionId))
    else if name == "name" then Some(Text(r.name))
    else if name == "phase" then Some(Number(r.phase))
    else if name == "is_active" then Some(Flag(r.isActive))
    else if name == "summary" then Some(MaybeText(r.summary))
    else if name == "created_at" then Some(Stamp(r.createdAt))
    else None
  }

  function StationSetterValue(u: StationUpdate): AttrValue {
    match u
    case SetStationId(v) => Text(v)
    case SetStationSessionId(v) => Text(v)
    case SetStationName(v) => Text(v)
    case SetStationPhase(v) => Number(v)
    case SetStationActive(v) => Flag(v)
    case SetStationSummary(v) => MaybeText(v)
    case SetStationCreatedAt(v) => Stamp(v)
    case UnknownStationField(_) => Text("")
  }

  predicate StationUntouched(ups: seq<StationUpdate>, name: string) {
    forall i :: 0 <= i < |ups| ==> ups[i].Name() != name
  }

  predicate LastStationPair(ups: seq<StationUpdate>, i: int)
    requires 0 <= i < |ups|
  {
    forall j :: i < j < |ups| ==> ups[j].Name() != ups[i].Name()
  }

  /** As `AgentUpdated`, for a station. */
  ghost predicate StationUpdated(r: StationRecord, ups: seq<StationUpdate>, o: StationRecord) {
    && (forall name :: StationUntouched(ups, name) ==> StationAttr(o, name) == StationAttr(r, name))
    && (forall i :: 0 <= i < |ups| && !ups[i].UnknownStationField? && LastStationPair(ups, i) ==>
          StationAttr(o, ups[i].Name()) == Some(StationSetterValue(ups[i])))
  }

  lemma StationUpdateStep(r: StationRecord, u: StationUpdate, name: string)
    ensures u.Name() != name ==> StationAttr(ApplyStationUpdate(r, u), name) == StationAttr(r, name)
    ensures !u.UnknownStationField? ==> StationAttr(ApplyStationUpdate(r, u), u.Name()) == Some(StationSetterValue(u))
  {
  }

  lemma StationUpdatedSnoc(r: StationRecord, ups: seq<StationUpdate>, p: StationRecord)
    requires |ups| > 0 && StationUpdated(r, ups[..|ups| - 1], p)
    ensures StationUpdated(r, ups, ApplyStationUpdate(p, ups[|ups| - 1]))
  {
    var init, u := ups[..|ups| - 1], ups[|ups| - 1];
    var o := ApplyStationUpdate(p, u);
    forall name | StationUntouched(ups, name) ensures StationAttr(o, name) == StationAttr(r, name) {
      forall i | 0 <= i < |init| ensures init[i].Name() != name {
        assert init[i] == ups[i];
      }
      StationUpdateStep(p, u, name);
    }
    forall i | 0 <= i < |ups| && !ups[i].UnknownStationField? && LastStationPair(ups, i)
      ensures StationAttr(o, ups[i].Name()) == Some(StationSetterValue(ups[i]))
    {
      if i == |ups| - 1 {
        StationUpdateStep(p, u, u.Name());
      } else {
        assert init[i] == ups[i];
        forall j | i < j < |init| ensures init[j].Name() != init[i].Name() {
          assert init[j] == ups[j];
        }
        assert LastStationPair(init, i);
        StationUpdateStep(p, u, ups[i].Name());
      }
    }
  }

  /** One more pair keeps the per-setter frame of `ApplyStationUpdates`. */
  lemma StationFieldsSnoc(r: StationRecord, ups: seq<StationUpdate>, p: StationRecord)
    requires |ups| > 0
    requires var init := ups[..|ups| - 1];
      && ((forall i :: 0 <= i < |init| ==> !init[i].SetStationId?) ==> p.stationId == r.stationId)
      && ((forall i :: 0 <= i < |init| ==> !init[i].SetStationSessionId?) ==> p.sessionId == r.sessionId)
      && ((forall i :: 0 <= i < |init| ==> !init[i].SetStationActive?) ==> p.isActive == r.isActive)
      && ((forall i :: 0 <= i < |init| ==> !init[i].SetStationCreatedAt?) ==> p.createdAt == r.createdAt)
    ensures var o := ApplyStationUpdate(p, ups[|ups| - 1]);
      && ((forall i :: 0 <= i < |ups| ==> !ups[i].SetStationId?) ==> o.stationId == r.stationId)
      && ((forall i :: 0 <= i < |ups| ==> !ups[i].SetStationSessionId?) ==> o.sessionId == r.sessionId)
      && ((forall i :: 0 <= i < |ups| ==> !ups[i].SetStationActive?) ==> o.isActive == r.isActive)
      && ((forall i :: 0 <= i < |ups| ==> !ups[i].SetStationCreatedAt?) ==> o.createdAt == r.createdAt)
  {
    var init := ups[..|ups| - 1];
    assert forall i :: 0 <= i < |init| ==> init[i] == ups[i];
  }

  /** The station updates in dict order, with the same promise as for agents. */
  function ApplyStationUpdates(r: StationRecord, ups: seq<StationUpdate>): (o: StationRecord)
    ensures StationUpdated(r, ups, o)
    ensures (forall i :: 0 <= i < |ups| ==> !ups[i].SetStationId?) ==> o.stationId == r.stationId
    ensures (forall i :: 0 <= i < |ups| ==> !ups[i].SetStationSessionId?) ==> o.sessionId == r.sessionId
    ensures (forall i :: 0 <= i < |ups| ==> !ups[i].SetStationActive?) ==> o.isActive == r.isActive
    ensures (forall i :: 0 <= i < |ups| ==> !ups[i].SetStationCreatedAt?) ==> o.createdAt == r.createdAt
    ensures |ups| > 0 && ups[|ups| - 1].SetStationActive? ==> o.isActive == ups[|ups| - 1].active
  {
    if |ups| == 0 then r
    else
      var init := ups[..|ups| - 1];
      var p := ApplyStationUpdates(r, init);
      StationUpdatedSnoc(r, ups, p);
      StationFieldsSnoc(r, ups, p);
      ApplyStationUpdate(p, ups[|ups| - 1])
  }

  /** Pairs for a user. The first three name attributes the user record has
      but `update_user` refuses to assign. */
  datatype UserUpdate =
    | SetUserIdField(newUserId: string)
    | SetUsername(newUsername: string)
    | SetPasswordHash(newPasswordHash: string)
    | SetDisplayName(newDisplayName: string)
    | SetUserCreatedAt(userCreatedAt: int)
    | SetUserUpdatedAt(userUpdatedAt: int)
    | UnknownUserField(userField: string)
  {
    /** The attribute name the pair carries. */
    function Name(): string {
      match this
      case SetUserIdField(_) => "user_id"
      case SetUsername(_) => "username"
      case SetPasswordHash(_) => "password_hash"
      case SetDisplayName(_) => "display_name"
      case SetUserCreatedAt(_) => "created_at"
      case SetUserUpdatedAt(_) => "updated_at"
      case UnknownUserField(n) => n
    }

    /** A pair `update_user` assigns: a known attribute outside the three
        excluded keys. */
    predicate Assigned() {
      SetDisplayName? || SetUserCreatedAt? || SetUserUpdatedAt?
    }
  }

  function ApplyUserUpdate(r: UserRecord, u: UserUpdate): UserRecord {
    match u
    case SetDisplayName(v) => r.(displayName := v)
    case SetUserCreatedAt(v) => r.(createdAt := v)
    case SetUserUpdatedAt(v) => r.(updatedAt := v)
    case _ => r
  }

  /** `getattr(record, name)` for the attributes the model's user carries. */
  function UserAttr(r: UserRecord, name: string): Option<AttrValue> {
    if name == "user_id" then Some(Text(r.userId))
    else if name == "username" then Some(Text(r.username))
    else if name == "password_hash" then Some(Text(r.passwordHash))
    else if name == "display_name" then Some(Text(r.displayName))
    else if name == "created_at" then Some(Stamp(r.createdAt))
    else if name == "updated_at" then Some(Stamp(r.updatedAt))
    else None
  }

  function UserSetterValue(u: UserUpdate): AttrValue {
    match u
    case SetUserIdField(v) => Text(v)
    case SetUsername(v) => Text(v)
    case SetPasswordHash(v) => Text(v)
    case SetDisplayName(v) => Text(v)
    case SetUserCreatedAt(v) => Stamp(v)
    case SetUserUpdatedAt(v) => Stamp(v)
    case UnknownUserField(_) => Text("")
  }

  predicate UserUntouched(ups: seq<UserUpdate>, name: string) {
    forall i :: 0 <= i < |ups| ==> ups[i].Name() != name
  }

  predicate LastUserPair(ups: seq<UserUpdate>, i: int)
    requires 0 <= i < |ups|
  {
    forall j :: i < j < |ups| ==> ups[j].Name() != ups[i].Name()
  }

  /** As `AgentUpdated`, for a user, where only the assigned pairs decide. */
  ghost predicate UserUpdated(r: UserRecord, ups: seq<UserUpdate>, o: UserRecord) {
    && (forall name :: UserUntouched(ups, name) ==> UserAttr(o, name) == UserAttr(r, name))
    && (forall i :: 0 <= i < |ups| && ups[i].Assigned() && LastUserPair(ups, i) ==>
          UserAttr(o, ups[i].Name()) == Some(UserSetterValue(ups[i])))
  }

  lemma UserUpdateStep(r: UserRecord, u: UserUpdate, name: string)
    ensures u.Name() != name ==> UserAttr(ApplyUserUpdate(r, u), name) == UserAttr(r, name)
    ensures u.Assigned() ==> UserAttr(ApplyUserUpdate(r, u), u.Name()) == Some(UserSetterValue(u))
  {
  }

  lemma UserUpdatedSnoc(r: UserRecord, ups: seq<UserUpdate>, p: UserRecord)
    requires |ups| > 0 && UserUpdated(r, ups[..|ups| - 1], p)
    ensures UserUpdated(r, ups, ApplyUserUpdate(p, ups[|ups| - 1]))
  {
    var init, u := ups[..|ups| - 1], ups[|ups| - 1];
    var o := ApplyUserUpdate(p, u);
    forall name | UserUntouched(ups, name) ensures UserAttr(o, name) == UserAttr(r, name) {
      forall i | 0 <= i < |init| ensures init[i].Name() != name {
        assert init[i] == ups[i];
      }
      UserUpdateStep(p, u, name);
    }
    forall i | 0 <= i < |ups| && ups[i].Assigned() && LastUserPair(ups, i)
      ensures UserAttr(o, ups[i].Name()) == Some(UserSetterValue(ups[i]))
    {
      if i == |ups| - 1 {
        UserUpdateStep(p, u, u.Name());
      } else {
        assert init[i] == ups[i];
        forall j | i < j < |init| ensures init[j].Name() != init[i].Name() {
          assert init[j] == ups[j];
        }
        assert LastUserPair(init, i);
        UserUpdateStep(p, u, ups[i].Name());
      }
    }
  }

  /** One more pair keeps the per-setter frame of `ApplyUserUpdates`. */
  lemma UserFieldsSnoc(r: UserRecord, ups: seq<UserUpdate>, p: UserRecord)
    requires |ups| > 0
    requires p.userId == r.userId && p.username == r.username && p.passwordHash == r.passwordHash
    requires var init := ups[..|ups| - 1];
      && ((forall i :: 0 <= i < |init| ==> !init[i].SetUserCreatedAt?) ==> p.createdAt == r.createdAt)
      && ((forall i :: 0 <= i < |init| ==> !init[i].SetDisplayName?) ==> p.displayName == r.displayName)
    ensures var o := ApplyUserUpdate(p, ups[|ups| - 1]);
      && o.userId == r.userId && o.username == r.username && o.passwordHash == r.passwordHash
      && ((forall i :: 0 <= i < |ups| ==> !ups[i].SetUserCreatedAt?) ==> o.createdAt == r.createdAt)
      && ((forall i :: 0 <= i < |ups| ==> !ups[i].SetDisplayName?) ==> o.displayName == r.displayName)
  {
    var init := ups[..|ups| - 1];
    assert forall i :: 0 <= i < |init| ==> init[i] == ups[i];
  }

  /** The user updates in dict order, skipping the three excluded keys. */
  function ApplyUserUpdates(r: UserRecord, ups: seq<UserUpdate>): (o: UserRecord)
    ensures UserUpdated(r, ups, o)
    ensures o.userId == r.userId && o.username == r.username && o.passwordHash == r.passwordHash
    ensures (forall i :: 0 <= i < |ups| ==> !ups[i].SetUserCreatedAt?) ==> o.createdAt == r.createdAt
    ensures |ups| > 0 && ups[|ups| - 1].SetDisplayName? ==> o.displayName == ups[|ups| - 1].newDisplayName
    ensures |ups| > 0 && ups[|ups| - 1].SetUserCreatedAt? ==> o.createdAt == ups[|ups| - 1].userCreatedAt
    ensures (forall i :: 0 <= i < |ups| ==> !ups[i].SetDisplayName?) ==> o.displayName == r.displayName
  {
    if |ups| == 0 then r
    else
      var init := ups[..|ups| - 1];
      var p := ApplyUserUpdates(r, init);
      UserUpdatedSnoc(r, ups, p);
      UserFieldsSnoc(r, ups, p);
      ApplyUserUpdate(p, ups[|ups| - 1])
  }

  // ----------------------------------------------------------------- state

  datatype Repo = Repo(
    sessions: Table<SessionRecord>,
    agents: Table<AgentRecord>,
    messages: Table<MessageRecord>,
    stations: Table<StationRecord>,
    relayMessages: Table<RelayMessageRecord>,
    interventions: Table<InterventionRecord>,
    users: Table<UserRecord>,
    usersByName: map<string, string>)

  /** `f"{session_id}:{agent_id}"`, the composite key of agents and stations. */
  function CompositeKey(sessionId: string, id: string): string {
    sessionId + ":" + id
  }

  ghost predicate Valid(db: Repo) {
    OrderedTable.Valid(db.sessions) && OrderedTable.Valid(db.agents)
    && OrderedTable.Valid(db.messages) && OrderedTable.Valid(db.stations)
    && OrderedTable.Valid(db.relayMessages) && OrderedTable.Valid(db.interventions)
    && OrderedTable.Valid(db.users)
  }

  function EmptyRepo(): (db: Repo)
    ensures Valid(db)
    ensures db.sessions.rows == map[] && db.agents.rows == map[] && db.users.rows == map[]
    ensures db.messages.rows == map[] && db.stations.rows == map[]
            && db.relayMessages.rows == map[] && db.interventions.rows == map[]
    ensures db.usersByName == map[]
  {
    Repo(Empty(), Empty(), Empty(), Empty(), Empty(), Empty(), Empty(), map[])
  }

  // -------------------------------------------------------------- sessions

  function CreateSession(db: Repo, r: SessionRecord): (db': Repo)
    requires Valid(db)
    ensures Valid(db')
    ensures db'.sessions.rows == db.sessions.rows[r.sessionId := r]
    ensures db' == db.(sessions := db'.sessions)
  {
    db.(sessions := Put(db.sessions, r.sessionId, r))
  }

  function GetSession(db: Repo, sessionId: string): (r: Option<SessionRecord>)
    ensures r.Some? <==> sessionId in db.sessions.rows
    ensures r.Some? ==> r.value == db.sessions.rows[sessionId]
  {
    if sessionId in db.sessions.rows then Some(db.sessions.rows[sessionId]) else None
  }

  /** `create_session` followed by `get_session` gives the stored record back,
      and leaves every other session as it was. */
  lemma CreateThenGetSession(db: Repo, r: SessionRecord, other: string)
    requires Valid(db)
    ensures GetSession(CreateSession(db, r), r.sessionId) == Some(r)
    ensures other != r.sessionId ==> GetSession(CreateSession(db, r), other) == GetSession(db, other)
  {
  }

  /** Refreshing `updated_at` after the updates keeps their promise for
      every other attribute. */
  lemma SessionStamped(o: SessionRecord, ups: seq<SessionUpdate>, now: int)
    ensures var n := ApplySessionUpdates(o, ups).(updatedAt := now);
      && (forall name :: name != "updated_at" && Untouched(ups, name) ==> SessionAttr(n, name) == SessionAttr(o, name))
      && (forall i :: 0 <= i < |ups| && !ups[i].UnknownSessionField? && ups[i].Name() != "updated_at" && LastSessionPair(ups, i) ==>
            SessionAttr(n, ups[i].Name()) == Some(SetterValue(ups[i])))
  {
    var m := ApplySessionUpdates(o, ups);
    var n := m.(updatedAt := now);
    assert forall name :: name != "updated_at" ==> SessionAttr(n, name) == SessionAttr(m, name);
  }

  /** `update_session`: `None` and no change for an unknown id; otherwise the
      assignments are applied and `updated_at` becomes `now`. */
  function UpdateSession(db: Repo, sessionId: string, ups: seq<SessionUpdate>, now: int): (res: (Repo, Option<SessionRecord>))
    requires Valid(db)
    ensures Valid(res.0)
    ensures sessionId !in db.sessions.rows ==> res.1.None? && res.0 == db
    ensures sessionId in db.sessions.rows ==> res.1.Some?
    ensures res.1.Some? ==> var o := db.sessions.rows[sessionId]; var n := res.1.value;
      n.updatedAt == now
      && (forall name :: name != "updated_at" && Untouched(ups, name) ==> SessionAttr(n, name) == SessionAttr(o, name))
      && (forall i :: 0 <= i < |ups| && !ups[i].UnknownSessionField? && ups[i].Name() != "updated_at" && LastSessionPair(ups, i) ==>
            SessionAttr(n, ups[i].Name()) == Some(SetterValue(ups[i])))
      && res.0.sessions.rows == db.sessions.rows[sessionId := n]
      && res.0.sessions.keys == db.sessions.keys
      && res.0 == db.(sessions := res.0.sessions)
  {
    if sessionId !in db.sessions.rows then (db, None)
    else
      SessionStamped(db.sessions.rows[sessionId], ups, now);
      var n := ApplySessionUpdates(db.sessions.rows[sessionId], ups).(updatedAt := now);
      (db.(sessions := Put(db.sessions, sessionId, n)), Some(n))
  }

  /** `touch_session`: refreshes `last_active_at` of a known session. */
  function TouchSession(db: Repo, sessionId: string, now: int): (res: (Repo, bool))
    requires Valid(db)
    ensures Valid(res.0)
    ensures res.1 <==> sessionId in db.sessions.rows
    ensures !res.1 ==> res.0 == db
    ensures res.1 ==> res.0.sessions.rows == db.sessions.rows[sessionId := db.sessions.rows[sessionId].(lastActiveAt := now)]
  {
    if sessionId in db.sessions.rows then
      (db.(sessions := Put(db.sessions, sessionId, db.sessions.rows[sessionId].(lastActiveAt := now))), true)
    else (db, false)
  }

  /** The agent and station keys the prefix deletes remove: every key
      starting with `session_id + ":"`. */
  predicate KeyOfSession(sessionId: string, key: string) {
    StartsWith(key, sessionId + ":")
  }

  /** `delete_agents_by_session`, as written: deletes by key prefix and
      returns how many keys went. */
  function DeleteAgentsBySession(db: Repo, sessionId: string): (res: (Repo, nat))
    requires Valid(db)
    ensures Valid(res.0)
    ensures forall k :: k in res.0.agents.rows <==> k in db.agents.rows && !KeyOfSession(sessionId, k)
    ensures res.1 == |db.agents.keys| - |res.0.agents.keys|
    ensures forall k :: k in res.0.agents.rows ==> res.0.agents.rows[k] == db.agents.rows[k]
    ensures res.0 == db.(agents := res.0.agents)
  {
    var drop := (k: string, a: AgentRecord) => KeyOfSession(sessionId, k);
    (db.(agents := RemoveWhere(db.agents, drop)), CountWhereEntries(db.agents, drop))
  }

  /** The intended deletion: the agents whose own `session_id` field is the
      session, whatever characters the ids contain. */
  function DeleteAgentsOfSession(db: Repo, sessionId: string): (res: (Repo, nat))
    requires Valid(db)
    ensures Valid(res.0)
    ensures forall k :: k in res.0.agents.rows <==> k in db.agents.rows && db.agents.rows[k].sessionId != sessionId
    ensures res.1 == |db.agents.keys| - |res.0.agents.keys|
    ensures forall k :: k in res.0.agents.rows ==> res.0.agents.rows[k] == db.agents.rows[k]
    ensures res.0 == db.(agents := res.0.agents)
  {
    var drop := (k: string, a: AgentRecord) => a.sessionId == sessionId;
    (db.(agents := RemoveWhere(db.agents, drop)), CountWhereEntries(db.agents, drop))
  }

  /** The prefix rule removes another session's agent: with sessions "a" and
      "a:b", deleting the agents of "a" also deletes agent "x" of "a:b",
      because its key "a:b:x" starts with "a:". */
  lemma PrefixDeleteHitsOtherSession()
    ensures var a := AgentRecord("x", "a:b", "x", "pending", 0, 0, 0);
            var db := EmptyRepo().(agents := Put(Empty(), CompositeKey("a:b", "x"), a));
            Valid(db)
            && CompositeKey("a:b", "x") !in DeleteAgentsBySession(db, "a").0.agents.rows
            && CompositeKey("a:b", "x") in DeleteAgentsOfSession(db, "a").0.agents.rows
  {
    var a := AgentRecord("x", "a:b", "x", "pending", 0, 0, 0);
    var key := CompositeKey("a:b", "x");
    assert key == "a:b:x";
    assert key[..2] == "a:";
    assert KeyOfSession("a", key);
  }

  predicate ColonFree(s: string) {
    forall i :: 0 <= i < |s| ==> s[i] != ':'
  }

  /** When no session id contains ':' the prefix rule and the field rule
      select the same agents, so the correction changes nothing for
      well-formed ids. */
  lemma PrefixMatchesFieldWhenColonFree(sessionId: string, other: string, agentId: string)
    requires ColonFree(sessionId) && ColonFree(other)
    ensures KeyOfSession(sessionId, CompositeKey(other, agentId)) <==> other == sessionId
  {
    var key := CompositeKey(other, agentId);
    var p := sessionId + ":";
    if StartsWith(key, p) {
      assert key[..|p|] == p;
      assert forall i :: 0 <= i < |p| ==> key[i] == p[i];
      assert key[|other|] == ':' && p[|sessionId|] == ':';
      assert forall i :: 0 <= i < |other| ==> key[i] == other[i];
      assert forall i :: 0 <= i < |sessionId| ==> p[i] == sessionId[i];
      assert other == key[..|other|];
    }
  }

  function DeleteMessagesBySession(db: Repo, sessionId: string): (res: (Repo, nat))
    requires Valid(db)
    ensures Valid(res.0)
    ensures forall k :: k in res.0.messages.rows <==> k in db.messages.rows && db.messages.rows[k].sessionId != sessionId
    ensures res.1 == |db.messages.keys| - |res.0.messages.keys|
    ensures forall k :: k in res.0.messages.rows ==> res.0.messages.rows[k] == db.messages.rows[k]
    ensures res.0 == db.(messages := res.0.messages)
  {
    var drop := (k: string, m: MessageRecord) => m.sessionId == sessionId;
    (db.(messages := RemoveWhere(db.messages, drop)), CountWhereEntries(db.messages, drop))
  }

  /** `delete_session`, as written: False and no change for an unknown id;
      otherwise the session goes, agents and stations go by the key prefix
      `session_id + ":"`, and messages, relay messages and interventions go
      by their `session_id` field. Users are untouched. */
  function DeleteSession(db: Repo, sessionId: string): (res: (Repo, bool))
    requires Valid(db)
    ensures Valid(res.0)
    ensures res.1 <==> sessionId in db.sessions.rows
    ensures !res.1 ==> res.0 == db
    ensures res.1 ==> var n := res.0;
      n.sessions.rows == db.sessions.rows - {sessionId}
      && (forall k :: k in n.agents.rows <==> k in db.agents.rows && !KeyOfSession(sessionId, k))
      && (forall k :: k in n.messages.rows <==> k in db.messages.rows && db.messages.rows[k].sessionId != sessionId)
      && (forall k :: k in n.stations.rows <==> k in db.stations.rows && !KeyOfSession(sessionId, k))
      && (forall k :: k in n.relayMessages.rows <==> k in db.relayMessages.rows && db.relayMessages.rows[k].sessionId != sessionId)
      && (forall k :: k in n.interventions.rows <==> k in db.interventions.rows && db.interventions.rows[k].sessionId != sessionId)
      && n.users == db.users && n.usersByName == db.usersByName
    ensures res.1 ==> var n := res.0;
      && (forall k :: k in n.agents.rows ==> n.agents.rows[k] == db.agents.rows[k])
      && (forall k :: k in n.messages.rows ==> n.messages.rows[k] == db.messages.rows[k])
      && (forall k :: k in n.stations.rows ==> n.stations.rows[k] == db.stations.rows[k])
      && (forall k :: k in n.relayMessages.rows ==> n.relayMessages.rows[k] == db.relayMessages.rows[k])
      && (forall k :: k in n.interventions.rows ==> n.interventions.rows[k] == db.interventions.rows[k])
  {
    if sessionId !in db.sessions.rows then (db, false)
    else
      var db1 := db.(sessions := Remove(db.sessions, sessionId));
      var db2 := DeleteAgentsBySession(db1, sessionId).0;
      var db3 := DeleteMessagesBySession(db2, sessionId).0;
      var db4 := db3.(stations := RemoveWhere(db3.stations, (k: string, s: StationRecord) => KeyOfSession(sessionId, k)));
      (DeleteRelayOfSession(db4, sessionId), true)
  }

  /** The relay-message and intervention part of the cascade, shared by both
      versions of `delete_session`. */
  function DeleteRelayOfSession(db: Repo, sessionId: string): (n: Repo)
    requires Valid(db)
    ensures Valid(n)
    ensures forall k :: k in n.relayMessages.rows <==> k in db.relayMessages.rows && db.relayMessages.rows[k].sessionId != sessionId
    ensures forall k :: k in n.interventions.rows <==> k in db.interventions.rows && db.interventions.rows[k].sessionId != sessionId
    ensures forall k :: k in n.relayMessages.rows ==> n.relayMessages.rows[k] == db.relayMessages.rows[k]
    ensures forall k :: k in n.interventions.rows ==> n.interventions.rows[k] == db.interventions.rows[k]
    ensures n == db.(relayMessages := n.relayMessages, interventions := n.interventions)
  {
    var db5 := db.(relayMessages := RemoveWhere(db.relayMessages, (k: string, m: RelayMessageRecord) => m.sessionId == sessionId));
    db5.(interventions := RemoveWhere(db5.interventions, (k: string, i: InterventionRecord) => i.sessionId == sessionId))
  }

  /** The intended `delete_session`: agents and stations are selected by
      their own `session_id` field, like the other records, so another
      session's rows stay whatever characters the ids contain. */
  function DeleteSessionByField(db: Repo, sessionId: string): (res: (Repo, bool))
    requires Valid(db)
    ensures Valid(res.0)
    ensures res.1 <==> sessionId in db.sessions.rows
    ensures !res.1 ==> res.0 == db
    ensures res.1 ==> var n := res.0;
      n.sessions.rows == db.sessions.rows - {sessionId}
      && (forall k :: k in n.agents.rows <==> k in db.agents.rows && db.agents.rows[k].sessionId != sessionId)
      && (forall k :: k in n.messages.rows <==> k in db.messages.rows && db.messages.rows[k].sessionId != sessionId)
      && (forall k :: k in n.stations.rows <==> k in db.stations.rows && db.stations.rows[k].sessionId != sessionId)
      && (forall k :: k in n.relayMessages.rows <==> k in db.relayMessages.rows && db.relayMessages.rows[k].sessionId != sessionId)
      && (forall k :: k in n.interventions.rows <==> k in db.interventions.rows && db.interventions.rows[k].sessionId != sessionId)
      && n.users == db.users && n.usersByName == db.usersByName
    ensures res.1 ==> var n := res.0;
      && (forall k :: k in n.agents.rows ==> n.agents.rows[k] == db.agents.rows[k])
      && (forall k :: k in n.messages.rows ==> n.messages.rows[k] == db.messages.rows[k])
      && (forall k :: k in n.stations.rows ==> n.stations.rows[k] == db.stations.rows[k])
      && (forall k :: k in n.relayMessages.rows ==> n.relayMessages.rows[k] == db.relayMessages.rows[k])
      && (forall k :: k in n.interventions.rows ==> n.interventions.rows[k] == db.interventions.rows[k])
  {
    if sessionId !in db.sessions.rows then (db, false)
    else
      var db1 := db.(sessions := Remove(db.sessions, sessionId));
      var db2 := DeleteAgentsOfSession(db1, sessionId).0;
      var db3 := DeleteMessagesBySession(db2, sessionId).0;
      var db4 := db3.(stations := RemoveWhere(db3.stations, (k: string, s: StationRecord) => s.sessionId == sessionId));
      (DeleteRelayOfSession(db4, sessionId), true)
  }

  /** Deleting session "a" as written also deletes the agent and the station
      of session "a:b", whose keys "a:b:x" start with "a:"; the intended
      cascade keeps both. */
  lemma DeleteSessionHitsOtherSession()
    ensures var a := AgentRecord("x", "a:b", "x", "pending", 0, 0, 0);
            var st := StationRecord("x", "a:b", "x", 0, true, None, 0);
            var key := CompositeKey("a:b", "x");
            var db := EmptyRepo().(sessions := Put(Put(Empty(), "a", NewSessionRecord("a", 0)), "a:b", NewSessionRecord("a:b", 0)),
                                   agents := Put(Empty(), key, a), stations := Put(Empty(), key, st));
            Valid(db)
            && key !in DeleteSession(db, "a").0.agents.rows && key !in DeleteSession(db, "a").0.stations.rows
            && key in DeleteSessionByField(db, "a").0.agents.rows && key in DeleteSessionByField(db, "a").0.stations.rows
  {
    var key := CompositeKey("a:b", "x");
    assert key == "a:b:x";
    assert key[..2] == "a:";
    assert KeyOfSession("a", key);
  }

  // ------------------------------------------------------ session listing

  /** The stored rows of `t` passing `p`, in insertion order. */
  function Rows<V(==,!new)>(t: Table<V>, p: V -> bool): (rs: seq<V>)
    requires OrderedTable.Valid(t)
    ensures forall x :: x in rs <==> x in t.rows.Values && p(x)
    ensures |rs| <= |t.keys|
  {
    RowsMembership(t, p);
    Filter(Values(t), p)
  }

  lemma RowsMembership<V(!new)>(t: Table<V>, p: V -> bool)
    requires OrderedTable.Valid(t)
    ensures forall x :: x in Filter(Values(t), p) <==> x in t.rows.Values && p(x)
  {
    forall x ensures x in Filter(Values(t), p) <==> x in t.rows.Values && p(x) {
      FilterMembership(Values(t), p, x);
      StoredAreValues(t, x);
      ValuesAreStored(t, x);
    }
  }

  /** `getattr(r, order_by, r.created_at)` for the timestamp attributes. */
  function OrderKey(r: SessionRecord, orderBy: string): int {
    if orderBy == "updated_at" then r.updatedAt
    else if orderBy == "last_active_at" then r.lastActiveAt
    else r.createdAt
  }

  /** Sort rank: the key itself, or its negation for `reverse=True`. */
  function SessionRank(orderBy: string, desc: bool): SessionRecord -> int {
    (r: SessionRecord) => if desc then -OrderKey(r, orderBy) else OrderKey(r, orderBy)
  }

  /** A record passes the status filter (when one is given) and the owner
      filter (when one is given). Empty strings count as "not given". */
  predicate SessionMatches(r: SessionRecord, status: Option<string>, userId: Option<string>) {
    (Truthy(status) ==> r.status == status.value)
    && (Truthy(userId) ==> r.userId == userId)
  }

  function Matcher(status: Option<string>, userId: Option<string>): SessionRecord -> bool {
    (r: SessionRecord) => SessionMatches(r, status, userId)
  }

  /** The stored sessions passing both filters, in insertion order: a
      session is kept exactly when it is stored and matches. */
  function MatchingSessions(db: Repo, status: Option<string>, userId: Option<string>): (rs: seq<SessionRecord>)
    requires Valid(db)
    ensures forall r :: r in rs <==> r in db.sessions.rows.Values && SessionMatches(r, status, userId)
    ensures |rs| <= |db.sessions.keys|
  {
    Rows(db.sessions, Matcher(status, userId))
  }

  /** `list_sessions`: the window `[offset:offset+limit]` of all matching
      sessions stably sorted by the requested attribute, so its length is
      whatever of `limit` the matching sessions past `offset` can fill. */
  function ListSessions(db: Repo, status: Option<string>, userId: Option<string>,
                        limit: nat, offset: nat, orderBy: string, desc: bool): (page: seq<SessionRecord>)
    requires Valid(db)
    ensures SortedWindow(page, MatchingSessions(db, status, userId), SessionRank(orderBy, desc), offset, offset + limit)
    ensures var n := |MatchingSessions(db, status, userId)|;
      |page| == if offset >= n then 0 else Min(limit, n - offset)
  {
    var ms := MatchingSessions(db, status, userId);
    SortByRankWindow(ms, SessionRank(orderBy, desc), offset, offset + limit);
    Page(SortByRank(ms, SessionRank(orderBy, desc)), limit, offset)
  }

  /** A page at offset 0 large enough for every match lists every matching
      session exactly as often as it is stored. */
  lemma FullPageListsEveryMatch(db: Repo, status: Option<string>, userId: Option<string>,
                                limit: nat, orderBy: string, desc: bool)
    requires Valid(db)
    requires limit >= |MatchingSessions(db, status, userId)|
    ensures multiset(ListSessions(db, status, userId, limit, 0, orderBy, desc)) == multiset(MatchingSessions(db, status, userId))
  {
    var sorted := SortByRank(MatchingSessions(db, status, userId), SessionRank(orderBy, desc));
    assert Slice(sorted, 0, limit) == sorted;
  }

  /** A page holds only stored records that pass the filters. */
  lemma ListedSessionsMatch(db: Repo, status: Option<string>, userId: Option<string>,
                            limit: nat, offset: nat, orderBy: string, desc: bool)
    requires Valid(db)
    ensures StoredMatches(db, status, userId, ListSessions(db, status, userId, limit, offset, orderBy, desc))
  {
    var sorted := SortByRank(MatchingSessions(db, status, userId), SessionRank(orderBy, desc));
    PageMembers(db, status, userId, sorted, offset, offset + limit);
  }

  /** Every record listed is stored and passes the filters. */
  ghost predicate StoredMatches(db: Repo, status: Option<string>, userId: Option<string>, page: seq<SessionRecord>) {
    forall i :: 0 <= i < |page| ==> SessionMatches(page[i], status, userId) && page[i] in db.sessions.rows.Values
  }

  /** A page is in the requested order. */
  lemma ListedSessionsOrder(db: Repo, status: Option<string>, userId: Option<string>,
                            limit: nat, offset: nat, orderBy: string, desc: bool)
    requires Valid(db)
    ensures var page := ListSessions(db, status, userId, limit, offset, orderBy, desc);
      forall i, j :: 0 <= i < j < |page| ==>
        (if desc then OrderKey(page[i], orderBy) >= OrderKey(page[j], orderBy)
         else OrderKey(page[i], orderBy) <= OrderKey(page[j], orderBy))
  {
    var sorted := SortByRank(MatchingSessions(db, status, userId), SessionRank(orderBy, desc));
    PageOrder(sorted, orderBy, desc, offset, offset + limit);
  }

  lemma PageMembers(db: Repo, status: Option<string>, userId: Option<string>, sorted: seq<SessionRecord>, a: nat, b: nat)
    requires Valid(db)
    requires multiset(sorted) == multiset(MatchingSessions(db, status, userId))
    ensures StoredMatches(db, status, userId, Slice(sorted, a, b))
  {
    var ms := MatchingSessions(db, status, userId);
    var page := Slice(sorted, a, b);
    forall i | 0 <= i < |page|
      ensures SessionMatches(page[i], status, userId) && page[i] in db.sessions.rows.Values
    {
      var x := page[i];
      assert x in sorted;
      assert x in multiset(ms);
      FilterMembership(Values(db.sessions), Matcher(status, userId), x);
      ValuesAreStored(db.sessions, x);
    }
  }

  lemma PageOrder(sorted: seq<SessionRecord>, orderBy: string, desc: bool, a: nat, b: nat)
    requires SortedBy(sorted, SessionRank(orderBy, desc))
    ensures var page := Slice(sorted, a, b);
      forall i, j :: 0 <= i < j < |page| ==>
        (if desc then OrderKey(page[i], orderBy) >= OrderKey(page[j], orderBy)
         else OrderKey(page[i], orderBy) <= OrderKey(page[j], orderBy))
  {
    var rank := SessionRank(orderBy, desc);
    SliceOfSorted(sorted, rank, a, b);
    var page := Slice(sorted, a, b);
    assert forall i, j :: 0 <= i < j < |page| ==> rank(page[i]) <= rank(page[j]);
  }

  /** Consecutive pages concatenate: the page of `a` records at `offset`
      followed by the page of `b` at `offset + a` is the page of `a + b`. */
  lemma PagesConcatenate(db: Repo, status: Option<string>, userId: Option<string>,
                         a: nat, b: nat, offset: nat, orderBy: string, desc: bool)
    requires Valid(db)
    ensures ListSessions(db, status, userId, a, offset, orderBy, desc)
          + ListSessions(db, status, userId, b, offset + a, orderBy, desc)
         == ListSessions(db, status, userId, a + b, offset, orderBy, desc)
  {
    PageConcat(SortByRank(MatchingSessions(db, status, userId), SessionRank(orderBy, desc)), a, b, offset);
  }

  /** The page `[offset:offset+limit]` of a listing. */
  function Page<T>(s: seq<T>, limit: nat, offset: nat): seq<T> {
    Slice(s, offset, offset + limit)
  }

  lemma PageConcat<T>(s: seq<T>, a: nat, b: nat, offset: nat)
    ensures Page(s, a, offset) + Page(s, b, offset + a) == Page(s, a + b, offset)
  {
    SliceConcat(s, offset, offset + a, offset + a + b);
  }

  /** `count_sessions`, branch by branch as the source writes it. */
  function CountSessions(db: Repo, status: Option<string>, userId: Option<string>): (n: nat)
    requires Valid(db)
    ensures n == |MatchingSessions(db, status, userId)|
  {
    var vs := Values(db.sessions);
    if Truthy(status) && Truthy(userId) then
      var both := (r: SessionRecord) => r.status == status.GetOr("") && r.userId == userId;
      CountMatching(vs, status, userId, both);
      CountWhere(vs, both)
    else if Truthy(status) then
      var byStatus := (r: SessionRecord) => r.status == status.GetOr("");
      CountMatching(vs, status, userId, byStatus);
      CountWhere(vs, byStatus)
    else if Truthy(userId) then
      var byUser := (r: SessionRecord) => r.userId == userId;
      CountMatching(vs, status, userId, byUser);
      CountWhere(vs, byUser)
    else
      CountMatching(vs, status, userId, (r: SessionRecord) => true);
      CountAll(vs);
      |db.sessions.keys|
  }

  lemma CountMatching(vs: seq<SessionRecord>, status: Option<string>, userId: Option<string>, p: SessionRecord -> bool)
    requires forall x :: p(x) == SessionMatches(x, status, userId)
    ensures CountWhere(vs, p) == |Filter(vs, Matcher(status, userId))|
  {
    CountIsFilterLength(vs, Matcher(status, userId));
    CountSameWhereAgree(vs, Matcher(status, userId), p);
  }

  lemma CountSameWhereAgree<T>(s: seq<T>, p: T -> bool, q: T -> bool)
    requires forall x :: p(x) == q(x)
    ensures CountWhere(s, p) == CountWhere(s, q)
  {
    if |s| > 0 {
      CountSameWhereAgree(s[1..], p, q);
    }
  }

  lemma CountAll<T>(s: seq<T>)
    ensures CountWhere(s, (x: T) => true) == |s|
  {
    if |s| > 0 {
      CountAll(s[1..]);
    }
  }

  // ----------------------------------------------------------- expiry sweep

  /** A session the sweep expires: still active and idle since before the cutoff. */
  predicate IsStale(r: SessionRecord, cutoff: int) {
    r.status == "active" && r.lastActiveAt < cutoff
  }

  function Expire(r: SessionRecord, cutoff: int): SessionRecord {
    if IsStale(r, cutoff) then r.(status := "expired") else r
  }

  /** `cleanup_expired_sessions(timeout_minutes)`: every stale session becomes
      "expired"; the rest are unchanged; the result counts the changes. */
  function CleanupExpiredSessions(db: Repo, timeoutMinutes: int, now: int): (res: (Repo, nat))
    requires Valid(db)
    ensures Valid(res.0)
    ensures res.0.sessions.keys == db.sessions.keys
    ensures forall k :: k in db.sessions.rows ==> k in res.0.sessions.rows
    ensures forall k :: k in db.sessions.rows ==>
      var o := db.sessions.rows[k]; var n := res.0.sessions.rows[k];
      if IsStale(o, now - timeoutMinutes * 60) then n == o.(status := "expired") else n == o
    ensures res.1 == CountWhere(Values(db.sessions), (r: SessionRecord) => IsStale(r, now - timeoutMinutes * 60))
  {
    var cutoff := now - timeoutMinutes * 60;
    var rows := map k | k in db.sessions.rows :: Expire(db.sessions.rows[k], cutoff);
    (db.(sessions := Table(db.sessions.keys, rows)),
     CountWhere(Values(db.sessions), (r: SessionRecord) => IsStale(r, cutoff)))
  }

  lemma CountNone<T>(s: seq<T>, p: T -> bool)
    requires forall i :: 0 <= i < |s| ==> !p(s[i])
    ensures CountWhere(s, p) == 0
  {
    if |s| > 0 {
      CountNone(s[1..], p);
    }
  }

  /** A second sweep at the same clock finds nothing more to expire. */
  lemma CleanupIdempotent(db: Repo, timeoutMinutes: int, now: int)
    requires Valid(db)
    ensures var db' := CleanupExpiredSessions(db, timeoutMinutes, now).0;
      CleanupExpiredSessions(db', timeoutMinutes, now).1 == 0
  {
    var db' := CleanupExpiredSessions(db, timeoutMinutes, now).0;
    var vs := Values(db'.sessions);
    forall i | 0 <= i < |vs|
      ensures !IsStale(vs[i], now - timeoutMinutes * 60)
    {
      assert db'.sessions.keys[i] in db.sessions.rows;
    }
    CountNone(vs, (r: SessionRecord) => IsStale(r, now - timeoutMinutes * 60));
  }

  // ---------------------------------------------------------------- agents

  function CreateAgent(db: Repo, r: AgentRecord): (db': Repo)
    requires Valid(db)
    ensures Valid(db')
    ensures db'.agents.rows == db.agents.rows[CompositeKey(r.sessionId, r.agentId) := r]
    ensures db' == db.(agents := db'.agents)
  {
    db.(agents := Put(db.agents, CompositeKey(r.sessionId, r.agentId), r))
  }

  function GetAgent(db: Repo, agentId: string, sessionId: string): (r: Option<AgentRecord>)
    ensures r.Some? <==> CompositeKey(sessionId, agentId) in db.agents.rows
    ensures r.Some? ==> r.value == db.agents.rows[CompositeKey(sessionId, agentId)]
  {
    var key := CompositeKey(sessionId, agentId);
    if key in db.agents.rows then Some(db.agents.rows[key]) else None
  }

  lemma CreateThenGetAgent(db: Repo, r: AgentRecord)
    requires Valid(db)
    ensures GetAgent(CreateAgent(db, r), r.agentId, r.sessionId) == Some(r)
  {
  }

  /** Refreshing `updated_at` after the updates keeps their promise for
      every other attribute. */
  lemma AgentStamped(o: AgentRecord, ups: seq<AgentUpdate>, m: AgentRecord, now: int)
    requires AgentUpdated(o, ups, m)
    ensures var n := m.(updatedAt := now);
      && (forall name :: name != "updated_at" && AgentUntouched(ups, name) ==> AgentAttr(n, name) == AgentAttr(o, name))
      && (forall i :: 0 <= i < |ups| && !ups[i].UnknownAgentField? && ups[i].Name() != "updated_at" && LastAgentPair(ups, i) ==>
            AgentAttr(n, ups[i].Name()) == Some(AgentSetterValue(ups[i])))
  {
    var n := m.(updatedAt := now);
    assert forall name :: name != "updated_at" ==> AgentAttr(n, name) == AgentAttr(m, name);
  }

  function UpdateAgent(db: Repo, agentId: string, sessionId: string, ups: seq<AgentUpdate>, now: int): (res: (Repo, Option<AgentRecord>))
    requires Valid(db)
    ensures Valid(res.0)
    ensures CompositeKey(sessionId, agentId) !in db.agents.rows ==> res.1.None? && res.0 == db
    ensures CompositeKey(sessionId, agentId) in db.agents.rows ==> res.1.Some?
    ensures res.1.Some? ==> var o := db.agents.rows[CompositeKey(sessionId, agentId)]; var n := res.1.value;
      n.updatedAt == now
      && (forall name :: name != "updated_at" && AgentUntouched(ups, name) ==> AgentAttr(n, name) == AgentAttr(o, name))
      && (forall i :: 0 <= i < |ups| && !ups[i].UnknownAgentField? && ups[i].Name() != "updated_at" && LastAgentPair(ups, i) ==>
            AgentAttr(n, ups[i].Name()) == Some(AgentSetterValue(ups[i])))
      && ((forall i :: 0 <= i < |ups| ==> !ups[i].SetAgentId?) ==> n.agentId == o.agentId)
      && ((forall i :: 0 <= i < |ups| ==> !ups[i].SetAgentStatus?) ==> n.status == o.status)
      && res.0.agents.rows == db.agents.rows[CompositeKey(sessionId, agentId) := n]
      && res.0 == db.(agents := res.0.agents)
  {
    var key := CompositeKey(sessionId, agentId);
    if key !in db.agents.rows then (db, None)
    else
      AgentStamped(db.agents.rows[key], ups, ApplyAgentUpdates(db.agents.rows[key], ups), now);
      var n := ApplyAgentUpdates(db.agents.rows[key], ups).(updatedAt := now);
      (db.(agents := Put(db.agents, key, n)), Some(n))
  }

  function AgentCreated(a: AgentRecord): int { a.createdAt }

  /** The stored agents whose `session_id` field is the session. */
  function AgentsOfSession(db: Repo, sessionId: string): (rs: seq<AgentRecord>)
    requires Valid(db)
    ensures forall a :: a in rs <==> a in db.agents.rows.Values && a.sessionId == sessionId
  {
    Rows(db.agents, (a: AgentRecord) => a.sessionId == sessionId)
  }

  /** `list_agents_by_session`: every agent of the session, stably sorted by
      creation time. */
  function ListAgentsBySession(db: Repo, sessionId: string): (rs: seq<AgentRecord>)
    requires Valid(db)
    ensures StableSortOf(rs, AgentsOfSession(db, sessionId), AgentCreated)
    ensures forall a :: a in rs <==> a in db.agents.rows.Values && a.sessionId == sessionId
  {
    var ms := AgentsOfSession(db, sessionId);
    SortByRankIsStableSort(ms, AgentCreated);
    var rs := SortByRank(ms, AgentCreated);
    assert forall a :: a in rs <==> a in multiset(ms);
    rs
  }

  // -------------------------------------------------------------- messages

  function CreateMessage(db: Repo, r: MessageRecord): (db': Repo)
    requires Valid(db)
    ensures Valid(db')
    ensures db'.messages.rows == db.messages.rows[r.messageId := r]
    ensures db' == db.(messages := db'.messages)
  {
    db.(messages := Put(db.messages, r.messageId, r))
  }

  function MessageTime(m: MessageRecord): int { m.timestamp }

  /** The stored messages of the session. */
  function MessagesOfSession(db: Repo, sessionId: string): (rs: seq<MessageRecord>)
    requires Valid(db)
    ensures forall m :: m in rs <==> m in db.messages.rows.Values && m.sessionId == sessionId
  {
    Rows(db.messages, (m: MessageRecord) => m.sessionId == sessionId)
  }

  /** `get_messages_by_session`: the window `[offset:offset+limit]` of the
      session's messages stably sorted oldest first. */
  function GetMessagesBySession(db: Repo, sessionId: string, limit: nat, offset: nat): (rs: seq<MessageRecord>)
    requires Valid(db)
    ensures SortedWindow(rs, MessagesOfSession(db, sessionId), MessageTime, offset, offset + limit)
    ensures var n := |MessagesOfSession(db, sessionId)|;
      |rs| == if offset >= n then 0 else Min(limit, n - offset)
  {
    var ms := MessagesOfSession(db, sessionId);
    SortByRankWindow(ms, MessageTime, offset, offset + limit);
    Slice(SortByRank(ms, MessageTime), offset, offset + limit)
  }

  /** The page of a session's messages is in timestamp order. */
  lemma MessagesOldestFirst(db: Repo, sessionId: string, limit: nat, offset: nat)
    requires Valid(db)
    ensures var rs := GetMessagesBySession(db, sessionId, limit, offset);
      forall i, j :: 0 <= i < j < |rs| ==> rs[i].timestamp <= rs[j].timestamp
  {
    var ms := MessagesOfSession(db, sessionId);
    var rs := GetMessagesBySession(db, sessionId, limit, offset);
    SliceOfSorted(SortByRank(ms, MessageTime), MessageTime, offset, offset + limit);
    assert forall i, j :: 0 <= i < j < |rs| ==> MessageTime(rs[i]) <= MessageTime(rs[j]);
  }

  // ---------------------------------------------------------- relay stations

  function CreateStation(db: Repo, r: StationRecord): (db': Repo)
    requires Valid(db)
    ensures Valid(db')
    ensures db'.stations.rows == db.stations.rows[CompositeKey(r.sessionId, r.stationId) := r]
    ensures db' == db.(stations := db'.stations)
  {
    db.(stations := Put(db.stations, CompositeKey(r.sessionId, r.stationId), r))
  }

  function GetStation(db: Repo, stationId: string, sessionId: string): (r: Option<StationRecord>)
    ensures r.Some? <==> CompositeKey(sessionId, stationId) in db.stations.rows
    ensures r.Some? ==> r.value == db.stations.rows[CompositeKey(sessionId, stationId)]
  {
    var key := CompositeKey(sessionId, stationId);
    if key in db.stations.rows then Some(db.stations.rows[key]) else None
  }

  /** `update_station`: like the other updates, except that there is no
      `updated_at` to refresh. */
  function UpdateStation(db: Repo, stationId: string, sessionId: string, ups: seq<StationUpdate>): (res: (Repo, Option<StationRecord>))
    requires Valid(db)
    ensures Valid(res.0)
    ensures CompositeKey(sessionId, stationId) !in db.stations.rows ==> res.1.None? && res.0 == db
    ensures CompositeKey(sessionId, stationId) in db.stations.rows ==> res.1.Some?
    ensures res.1.Some? ==> var o := db.stations.rows[CompositeKey(sessionId, stationId)]; var n := res.1.value;
      StationUpdated(o, ups, n)
      && ((forall i :: 0 <= i < |ups| ==> !ups[i].SetStationCreatedAt?) ==> n.createdAt == o.createdAt)
      && ((forall i :: 0 <= i < |ups| ==> !ups[i].SetStationActive?) ==> n.isActive == o.isActive)
      && res.0.stations.rows == db.stations.rows[CompositeKey(sessionId, stationId) := n]
      && res.0 == db.(stations := res.0.stations)
  {
    var key := CompositeKey(sessionId, stationId);
    if key !in db.stations.rows then (db, None)
    else
      var n := ApplyStationUpdates(db.stations.rows[key], ups);
      (db.(stations := Put(db.stations, key, n)), Some(n))
  }

  lemma {:induction false} UnknownStationUpdatesIgnored(r: StationRecord, ups: seq<StationUpdate>)
    requires forall i :: 0 <= i < |ups| ==> ups[i].UnknownStationField? && !IsStationAttribute(ups[i].stationField)
    ensures ApplyStationUpdates(r, ups) == r
  {
    if |ups| > 0 {
      UnknownStationUpdatesIgnored(r, ups[..|ups| - 1]);
    }
  }

  function StationCreated(st: StationRecord): int { st.createdAt }

  /** The stored stations whose `session_id` field is the session. */
  function StationsOfSession(db: Repo, sessionId: string): (rs: seq<StationRecord>)
    requires Valid(db)
    ensures forall st :: st in rs <==> st in db.stations.rows.Values && st.sessionId == sessionId
  {
    Rows(db.stations, (st: StationRecord) => st.sessionId == sessionId)
  }

  /** `list_stations_by_session`: every station of the session, stably
      sorted by creation time. */
  function ListStationsBySession(db: Repo, sessionId: string): (rs: seq<StationRecord>)
    requires Valid(db)
    ensures StableSortOf(rs, StationsOfSession(db, sessionId), StationCreated)
    ensures forall st :: st in rs <==> st in db.stations.rows.Values && st.sessionId == sessionId
  {
    var ms := StationsOfSession(db, sessionId);
    SortByRankIsStableSort(ms, StationCreated);
    var rs := SortByRank(ms, StationCreated);
    assert forall st :: st in rs <==> st in multiset(ms);
    rs
  }

  // ---------------------------------------------------------- relay messages

  function CreateRelayMessage(db: Repo, r: RelayMessageRecord): (db': Repo)
    requires Valid(db)
    ensures Valid(db')
    ensures db'.relayMessages.rows == db.relayMessages.rows[r.messageId := r]
    ensures db' == db.(relayMessages := db'.relayMessages)
  {
    db.(relayMessages := Put(db.relayMessages, r.messageId, r))
  }

  function RelayTime(m: RelayMessageRecord): int { m.timestamp }

  function RelayNewestFirst(m: RelayMessageRecord): int { -m.timestamp }

  /** The stored relay messages of one station of the session. */
  function RelayOfStation(db: Repo, stationId: string, sessionId: string): (rs: seq<RelayMessageRecord>)
    requires Valid(db)
    ensures forall m :: m in rs <==> m in db.relayMessages.rows.Values && m.stationId == stationId && m.sessionId == sessionId
  {
    Rows(db.relayMessages, (m: RelayMessageRecord) => m.stationId == stationId && m.sessionId == sessionId)
  }

  /** The stored relay messages of the session. */
  function RelayOfSession(db: Repo, sessionId: string): (rs: seq<RelayMessageRecord>)
    requires Valid(db)
    ensures forall m :: m in rs <==> m in db.relayMessages.rows.Values && m.sessionId == sessionId
  {
    Rows(db.relayMessages, (m: RelayMessageRecord) => m.sessionId == sessionId)
  }

  /** `get_relay_messages_by_station`: the first `limit` of the station's
      messages stably sorted oldest first. */
  function GetRelayMessagesByStation(db: Repo, stationId: string, sessionId: string, limit: nat): (rs: seq<RelayMessageRecord>)
    requires Valid(db)
    ensures SortedWindow(rs, RelayOfStation(db, stationId, sessionId), RelayTime, 0, limit)
    ensures |rs| == Min(limit, |RelayOfStation(db, stationId, sessionId)|)
    ensures forall i, j :: 0 <= i < j < |rs| ==> rs[i].timestamp <= rs[j].timestamp
  {
    var ms := RelayOfStation(db, stationId, sessionId);
    SortByRankWindow(ms, RelayTime, 0, limit);
    var rs := Slice(SortByRank(ms, RelayTime), 0, limit);
    SliceOfSorted(SortByRank(ms, RelayTime), RelayTime, 0, limit);
    rs
  }

  /** `get_relay_messages_by_session`: the first `limit` of the session's
      messages stably sorted newest first (`reverse=True`). */
  function GetRelayMessagesBySession(db: Repo, sessionId: string, limit: nat): (rs: seq<RelayMessageRecord>)
    requires Valid(db)
    ensures SortedWindow(rs, RelayOfSession(db, sessionId), RelayNewestFirst, 0, limit)
    ensures |rs| == Min(limit, |RelayOfSession(db, sessionId)|)
  {
    var ms := RelayOfSession(db, sessionId);
    SortByRankWindow(ms, RelayNewestFirst, 0, limit);
    Slice(SortByRank(ms, RelayNewestFirst), 0, limit)
  }

  /** The session's relay messages come newest first. */
  lemma RelayOfSessionNewestFirst(db: Repo, sessionId: string, limit: nat)
    requires Valid(db)
    ensures var rs := GetRelayMessagesBySession(db, sessionId, limit);
      forall i, j :: 0 <= i < j < |rs| ==> rs[i].timestamp >= rs[j].timestamp
  {
    var ms := RelayOfSession(db, sessionId);
    var rs := GetRelayMessagesBySession(db, sessionId, limit);
    SliceOfSorted(SortByRank(ms, RelayNewestFirst), RelayNewestFirst, 0, limit);
    assert forall i, j :: 0 <= i < j < |rs| ==> RelayNewestFirst(rs[i]) <= RelayNewestFirst(rs[j]);
  }

  // ----------------------------------------------------------- interventions

  function CreateIntervention(db: Repo, r: InterventionRecord): (db': Repo)
    requires Valid(db)
    ensures Valid(db')
    ensures db'.interventions.rows == db.interventions.rows[r.interventionId := r]
    ensures db' == db.(interventions := db'.interventions)
  {
    db.(interventions := Put(db.interventions, r.interventionId, r))
  }

  function InterventionNewestFirst(m: InterventionRecord): int { -m.timestamp }

  /** The stored interventions of the session. */
  function InterventionsOfSession(db: Repo, sessionId: string): (rs: seq<InterventionRecord>)
    requires Valid(db)
    ensures forall m :: m in rs <==> m in db.interventions.rows.Values && m.sessionId == sessionId
  {
    Rows(db.interventions, (m: InterventionRecord) => m.sessionId == sessionId)
  }

  /** `get_interventions_by_session`: the first `limit` of the session's
      interventions stably sorted newest first. */
  function GetInterventionsBySession(db: Repo, sessionId: string, limit: nat): (rs: seq<InterventionRecord>)
    requires Valid(db)
    ensures SortedWindow(rs, InterventionsOfSession(db, sessionId), InterventionNewestFirst, 0, limit)
    ensures |rs| == Min(limit, |InterventionsOfSession(db, sessionId)|)
  {
    var ms := InterventionsOfSession(db, sessionId);
    SortByRankWindow(ms, InterventionNewestFirst, 0, limit);
    Slice(SortByRank(ms, InterventionNewestFirst), 0, limit)
  }

  /** The session's interventions come newest first. */
  lemma InterventionsNewestFirst(db: Repo, sessionId: string, limit: nat)
    requires Valid(db)
    ensures var rs := GetInterventionsBySession(db, sessionId, limit);
      forall i, j :: 0 <= i < j < |rs| ==> rs[i].timestamp >= rs[j].timestamp
  {
    var ms := InterventionsOfSession(db, sessionId);
    var rs := GetInterventionsBySession(db, sessionId, limit);
    SliceOfSorted(SortByRank(ms, InterventionNewestFirst), InterventionNewestFirst, 0, limit);
    assert forall i, j :: 0 <= i < j < |rs| ==> InterventionNewestFirst(rs[i]) <= InterventionNewestFirst(rs[j]);
  }

  // ------------------------------------------------------------------ users

  function CreateUser(db: Repo, r: UserRecord): (db': Repo)
    requires Valid(db)
    ensures Valid(db')
    ensures db'.users.rows == db.users.rows[r.userId := r]
    ensures db'.usersByName == db.usersByName[r.username := r.userId]
    ensures db' == db.(users := db'.users, usersByName := db'.usersByName)
  {
    db.(users := Put(db.users, r.userId, r), usersByName := db.usersByName[r.username := r.userId])
  }

  function GetUserById(db: Repo, userId: string): (r: Option<UserRecord>)
    ensures r.Some? <==> userId in db.users.rows
    ensures r.Some? ==> r.value == db.users.rows[userId]
  {
    if userId in db.users.rows then Some(db.users.rows[userId]) else None
  }

  /** `get_user_by_username`: the user the index names, found exactly when
      the index entry is a non-empty id of a stored user. */
  function GetUserByUsername(db: Repo, username: string): (r: Option<UserRecord>)
    ensures r.Some? <==> username in db.usersByName && db.usersByName[username] != ""
                         && db.usersByName[username] in db.users.rows
    ensures r.Some? ==> r.value == db.users.rows[db.usersByName[username]]
  {
    if username in db.usersByName && db.usersByName[username] != "" then
      GetUserById(db, db.usersByName[username])
    else None
  }

  /** A created user can be found again by name, unless its id is empty (the
      source tests the id's truthiness before looking it up). */
  lemma CreateThenFindByUsername(db: Repo, r: UserRecord)
    requires Valid(db)
    ensures GetUserByUsername(CreateUser(db, r), r.username) == (if r.userId == "" then None else Some(r))
  {
  }

  lemma UserStamped(o: UserRecord, ups: seq<UserUpdate>, m: UserRecord, now: int)
    requires UserUpdated(o, ups, m)
    ensures var n := m.(updatedAt := now);
      && (forall name :: name != "updated_at" && UserUntouched(ups, name) ==> UserAttr(n, name) == UserAttr(o, name))
      && (forall i :: 0 <= i < |ups| && ups[i].Assigned() && ups[i].Name() != "updated_at" && LastUserPair(ups, i) ==>
            UserAttr(n, ups[i].Name()) == Some(UserSetterValue(ups[i])))
  {
    var n := m.(updatedAt := now);
    assert forall name :: name != "updated_at" ==> UserAttr(n, name) == UserAttr(m, name);
  }

  /** `update_user`: never changes `user_id`, `username` or `password_hash`
      and refreshes `updated_at`. */
  function UpdateUser(db: Repo, userId: string, ups: seq<UserUpdate>, now: int): (res: (Repo, Option<UserRecord>))
    requires Valid(db)
    ensures Valid(res.0)
    ensures userId !in db.users.rows ==> res.1.None? && res.0 == db
    ensures userId in db.users.rows ==> res.1.Some?
    ensures res.1.Some? ==> var o := db.users.rows[userId]; var n := res.1.value;
      n.userId == o.userId && n.username == o.username && n.passwordHash == o.passwordHash
      && n.updatedAt == now && res.0.users.rows == db.users.rows[userId := n]
      && (forall name :: name != "updated_at" && UserUntouched(ups, name) ==> UserAttr(n, name) == UserAttr(o, name))
      && (forall i :: 0 <= i < |ups| && ups[i].Assigned() && ups[i].Name() != "updated_at" && LastUserPair(ups, i) ==>
            UserAttr(n, ups[i].Name()) == Some(UserSetterValue(ups[i])))
      && res.0.usersByName == db.usersByName
      && res.0 == db.(users := res.0.users)
  {
    if userId !in db.users.rows then (db, None)
    else
      UserStamped(db.users.rows[userId], ups, ApplyUserUpdates(db.users.rows[userId], ups), now);
      var n := ApplyUserUpdates(db.users.rows[userId], ups).(updatedAt := now);
      (db.(users := Put(db.users, userId, n)), Some(n))
  }
}
