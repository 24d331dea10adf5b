/** The HTTP API's request logic: the validation and routing of
    intervention requests, and the paging of the in-memory session list. */
module Routes {
  import opened Util
  import opened SessionManager
  import opened CoreModels

  // ----------------------------------------------------------- interventions

  /** A payload value as the routes read it. */
  datatype PayloadValue = Text(text: string) | Adjustments(entries: seq<Adjustment>) | Other

  datatype InterventionRequest = InterventionRequest(
    sessionId: string,
    agentId: Option<string>,
    agentIds: Option<seq<string>>,
    interventionType: string,
    payload: Option<map<string, PayloadValue>>,
    reason: string,
    priority: int,
    scope: string,
    broadcastToRelay: bool)

  /** What the endpoint asks the master agent to do. */
  datatype Action =
    | PauseAgent(agentId: string) | PauseAll
    | ResumeAgent(agentId: string) | ResumeAll
    | CancelAgent(agentId: string) | CancelAll
    | InjectAgent(agentId: string, information: PayloadValue)
    | InjectSelected(agentIds: seq<string>, information: PayloadValue)
    | InjectAll(information: PayloadValue, forceAction: bool)
    | AdjustAgent(agentId: string, adjustments: PayloadValue)
    | BroadcastMessage(message: PayloadValue)

  datatype Routed = SessionNotFound | BadRequest(detail: string) | Perform(scope: InterventionScope, action: Action)

  /** The scope map; anything else is SINGLE. */
  function ScopeOf(s: string): (scope: InterventionScope)
    ensures scope.Value() == s || (scope == Single && s !in {"single", "selected", "all", "broadcast"})
  {
    if s == "selected" then Selected
    else if s == "all" then All
    else if s == "broadcast" then Broadcast
    else Single
  }

  /** The intervention types the endpoint's type map accepts. */
  const TypeMapKeys: seq<string> := ["pause", "resume", "cancel", "inject", "adjust", "restart"]

  /** Python's `repr` of a list of plain strings. */
  function ListRepr(xs: seq<string>): string {
    "[" + Join(seq(|xs|, i requires 0 <= i < |xs| => "'" + xs[i] + "'"), ", ") + "]"
  }

  /** The value stored under `key` when the payload is present and has it. */
  function PayloadEntry(payload: Option<map<string, PayloadValue>>, key: string): Option<PayloadValue> {
    if payload.Some? && key in payload.value then Some(payload.value[key]) else None
  }

  /** `apply_intervention` up to the call into the master agent, checking
      the type against `accepted`. */
  function RouteWith(req: InterventionRequest, sessionExists: bool, accepted: seq<string>): (r: Routed)
    ensures !sessionExists <==> r == SessionNotFound
    ensures sessionExists && req.interventionType !in accepted ==>
              r == BadRequest("Unknown intervention type: " + req.interventionType + ". Valid types: "
                              + ListRepr(accepted))
    ensures r.Perform? ==> r.scope == ScopeOf(req.scope)
  {
    if !sessionExists then SessionNotFound
    else
      var scope := ScopeOf(req.scope);
      var t := req.interventionType;
      if t !in accepted then
        BadRequest("Unknown intervention type: " + t + ". Valid types: " + ListRepr(accepted))
      else if t == "pause" then
        Perform(scope, if Truthy(req.agentId) then PauseAgent(req.agentId.value) else PauseAll)
      else if t == "resume" then
        Perform(scope, if Truthy(req.agentId) then ResumeAgent(req.agentId.value) else ResumeAll)
      else if t == "cancel" then
        Perform(scope, if Truthy(req.agentId) then CancelAgent(req.agentId.value) else CancelAll)
      else if t == "inject" then
        match PayloadEntry(req.payload, "information")
        case None => BadRequest("payload.information required for inject")
        case Some(info) =>
          if Truthy(req.agentId) then Perform(scope, InjectAgent(req.agentId.value, info))
          else if req.agentIds.Some? && |req.agentIds.value| > 0 then
            Perform(scope, InjectSelected(req.agentIds.value, info))
          else Perform(scope, InjectAll(info, scope == All))
      else if t == "adjust" then
        match PayloadEntry(req.payload, "adjustments")
        case None => BadRequest("payload.adjustments required for adjust")
        case Some(adj) =>
          if !Truthy(req.agentId) then BadRequest("agent_id required for adjust")
          else Perform(scope, AdjustAgent(req.agentId.value, adj))
      else if t == "broadcast" then
        match PayloadEntry(req.payload, "message")
        case None => BadRequest("payload.message required for broadcast")
        case Some(msg) => Perform(scope, BroadcastMessage(msg))
      else BadRequest("Unknown intervention type: " + t)
  }

  /** `apply_intervention` as written. */
  function Route(req: InterventionRequest, sessionExists: bool): (r: Routed)
    ensures !sessionExists <==> r == SessionNotFound
  {
    RouteWith(req, sessionExists, TypeMapKeys)
  }

  /** The "broadcast" branch cannot run: the type map rejects "broadcast"
      before the branches are reached. */
  lemma BroadcastUnreachable(req: InterventionRequest, sessionExists: bool)
    ensures !(Route(req, sessionExists).Perform? && Route(req, sessionExists).action.BroadcastMessage?)
    ensures sessionExists && req.interventionType == "broadcast" ==> Route(req, sessionExists).BadRequest?
  {
  }

  /** "restart" passes the type map but has no branch, so it is refused too. */
  lemma RestartRefused(req: InterventionRequest)
    requires req.interventionType == "restart"
    ensures Route(req, true) == BadRequest("Unknown intervention type: restart")
  {
  }

  /** The type check as evidently intended: it accepts the branch names,
      "broadcast" among them. */
  const HandledTypes: seq<string> := TypeMapKeys + ["broadcast"]

  function RouteFixed(req: InterventionRequest, sessionExists: bool): (r: Routed)
    ensures !sessionExists <==> r == SessionNotFound
  {
    RouteWith(req, sessionExists, HandledTypes)
  }

  /** With the intended check a broadcast carrying a message is performed,
      and every type the map accepted is routed as before. */
  lemma FixedRoutesBroadcast(req: InterventionRequest)
    ensures req.interventionType == "broadcast" && PayloadEntry(req.payload, "message").Some? ==>
              RouteFixed(req, true) == Perform(ScopeOf(req.scope),
                                               BroadcastMessage(PayloadEntry(req.payload, "message").value))
    ensures req.interventionType in TypeMapKeys ==> RouteFixed(req, true) == Route(req, true)
  {
  }

  /** inject is refused exactly when the payload lacks `information`;
      adjust exactly when it lacks `adjustments` or names no agent. */
  lemma PayloadRequirements(req: InterventionRequest)
    ensures req.interventionType == "inject" ==>
              (Route(req, true).BadRequest? <==> PayloadEntry(req.payload, "information").None?)
    ensures req.interventionType == "adjust" ==>
              (Route(req, true).BadRequest? <==>
                 PayloadEntry(req.payload, "adjustments").None? || !Truthy(req.agentId))
  {
  }

  /** Injection without a target agent goes to every agent, forcing action
      only under scope "all"; a pause, resume or cancel without one applies
      to all agents. */
  lemma UntargetedActions(req: InterventionRequest)
    requires !Truthy(req.agentId)
    ensures req.interventionType == "pause" ==> Route(req, true).action == PauseAll
    ensures req.interventionType == "inject" && PayloadEntry(req.payload, "information").Some?
            && (req.agentIds.None? || req.agentIds.value == []) ==>
              Route(req, true).action == InjectAll(PayloadEntry(req.payload, "information").value, req.scope == "all")
  {
  }

  // ----------------------------------------------------------------- paging

  /** The status filter: everything when no status is given. */
  function StatusMatches(status: Option<string>): Listing -> bool {
    (l: Listing) => !Truthy(status) || l.status == status.value
  }

  /** `list_sessions` from memory: the caller's sessions, those with the
      status when one is given, counted before the page is cut out. */
  function ListPage(rows: seq<Listing>, status: Option<string>, limit: nat, offset: nat): (r: (seq<Listing>, nat))
    ensures r.1 == |Filter(rows, StatusMatches(status))|
    ensures |r.0| == if offset >= r.1 then 0 else Min(limit, r.1 - offset)
    ensures forall i :: 0 <= i < |r.0| ==> offset + i < r.1 && r.0[i] == Filter(rows, StatusMatches(status))[offset + i]
  {
    var matching := Filter(rows, StatusMatches(status));
    (Slice(matching, offset, offset + limit), |matching|)
  }

  /** Consecutive pages join up into the longer page. */
  lemma PagesJoin(rows: seq<Listing>, status: Option<string>, a: nat, b: nat, offset: nat)
    ensures ListPage(rows, status, a, offset).0 + ListPage(rows, status, b, offset + a).0
            == ListPage(rows, status, a + b, offset).0
  {
    SliceJoin(Filter(rows, StatusMatches(status)), offset, offset + a, offset + a + b);
  }
}
