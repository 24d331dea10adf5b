/** A subagent's own bookkeeping and decisions: its relay inbox and
    acknowledgement list, the cascade that decides whether it may complete
    with messages still pending, final-result extraction, the command line
    of a skill script, and the raw event stream of `run_stream`. The LLM is
    not modelled: each loop turn's response is an input, and so are the
    phrase lists the completion heuristics search for. */
module Subagent {
  import opened Util
  import opened CoreModels

  // ------------------------------------------------------------ raw events

  /** A raw event of `run_stream`, before the master tags it with the
      agent's id and name. Progress is a real percentage. */
  datatype RawBody =
    | StatusBody(status: string)
    | ProgressBody(progress: real, step: string, iterations: Option<int>)
    | ThinkingBody(delta: string)
    | RelayBody(message: RelayMessage)
    | ToolCallStartBody(toolCallId: Option<string>, toolName: Option<string>)
    /** `resultJson` is the `json.dumps` text the master builds from the
        event's fields. */
    | ToolCallResultBody(toolCallId: Option<string>, resultJson: string)
    | ErrorBody(error: string)
    | ResultBody(result: string)
    /** Any other type, e.g. `completion_blocked` or `relay_processed`. */
    | OtherBody(typeName: string)

  /** The `type` key of the raw event. */
  function TypeName(b: RawBody): string {
    match b
    case StatusBody(_) => "status"
    case ProgressBody(_, _, _) => "progress"
    case ThinkingBody(_) => "thinking"
    case RelayBody(_) => "relay"
    case ToolCallStartBody(_, _) => "tool_call_start"
    case ToolCallResultBody(_, _) => "tool_call_result"
    case ErrorBody(_) => "error"
    case ResultBody(_) => "result"
    case OtherBody(t) => t
  }

  // ----------------------------------------------------------------- inbox

  /** One entry of `_intervention_history`. */
  datatype InterventionRecord = InterventionRecord(messageId: string, kind: string, priority: int,
                                                   timestamp: int, preview: string)

  /** The relay side of a subagent: the inbox queue, the ids of interventions
      awaiting acknowledgement, the intervention history and the log of
      received messages. */
  datatype Inbox = Inbox(agentId: string, queue: seq<RelayMessage>, pendingAcks: seq<string>,
                         interventions: seq<InterventionRecord>, received: seq<RelayMessage>)

  function NewInbox(agentId: string): (b: Inbox)
    ensures b.agentId == agentId && b.queue == [] && b.pendingAcks == []
  {
    Inbox(agentId, [], [], [], [])
  }

  predicate IsIntervention(m: RelayMessage) {
    m.relayType == HumanInterventionType
  }

  /** `metadata.get("priority", 5)`. */
  function Priority(m: RelayMessage): int {
    m.meta.interventionPriority.GetOr(5)
  }

  /** `metadata.get("intervention_type", "unknown")`. */
  function KindOf(m: RelayMessage): string {
    m.meta.interventionType.GetOr("unknown")
  }

  /** `receive_relay_message`: the message is marked viewed by this agent,
      then queued and logged. */
  function ReceiveRelayMessage(b: Inbox, m: RelayMessage, now: int): (r: Inbox)
    ensures |r.queue| == |b.queue| + 1 && r.queue[..|b.queue|] == b.queue
    ensures var v := r.queue[|b.queue|]; v.id == m.id && b.agentId in v.viewedBy && v.content == m.content
    ensures r.received == b.received + [r.queue[|b.queue|]]
    ensures r.pendingAcks == b.pendingAcks && r.interventions == b.interventions && r.agentId == b.agentId
  {
    var v := MarkViewed(m, b.agentId, now);
    b.(queue := b.queue + [v], received := b.received + [v])
  }

  /** `receive_intervention`: mark viewed, log, remember the id when the
      message asks for acknowledgement, record the intervention (unknown
      kind, priority 5 and a 100-character preview by default), and queue
      the message; an ADJUST is queued with importance at least 0.9. */
  function ReceiveIntervention(b: Inbox, m: RelayMessage, now: int): (r: Inbox)
    ensures |r.queue| == |b.queue| + 1 && r.queue[..|b.queue|] == b.queue
    ensures var v := r.queue[|b.queue|]; v.id == m.id && b.agentId in v.viewedBy
    ensures m.meta.interventionType == Some(Adjust.Value()) ==> r.queue[|b.queue|].importance >= 90
    ensures m.meta.interventionType != Some(Adjust.Value()) ==> r.queue[|b.queue|].importance == m.importance
    ensures r.pendingAcks == b.pendingAcks + (if m.meta.requiresAcknowledgement then [m.id] else [])
    ensures |r.interventions| == |b.interventions| + 1
    ensures var h := r.interventions[|b.interventions|];
      h.messageId == m.id && h.kind == KindOf(m) && h.priority == Priority(m) && |h.preview| <= 100
    ensures r.agentId == b.agentId && |r.received| == |b.received| + 1
  {
    var v := MarkViewed(m, b.agentId, now);
    var acks := if v.meta.requiresAcknowledgement then b.pendingAcks + [v.id] else b.pendingAcks;
    var record := InterventionRecord(v.id, KindOf(v), Priority(v), now, Take(v.content, 100));
    var queued := if v.meta.interventionType.GetOr("") == Adjust.Value() then v.(importance := Max(v.importance, 90)) else v;
    b.(queue := b.queue + [queued], pendingAcks := acks, interventions := b.interventions + [record],
       received := b.received + [v])
  }

  /** `_process_relay_inbox`: empty the queue; interventions are handled
      first, most important first (a stable sort), then the other messages in
      arrival order. The prompts built for them are not modelled. */
  function ProcessInbox(b: Inbox): (r: (Inbox, seq<RelayMessage>))
    ensures r.0 == b.(queue := [])
    ensures |r.1| == |b.queue| && multiset(r.1) == multiset(b.queue)
    ensures var n := |Filter(b.queue, IsIntervention)|;
      && (forall i :: 0 <= i < |r.1| ==> (IsIntervention(r.1[i]) <==> i < n))
      && (forall i, j :: 0 <= i < j < n ==> r.1[i].importance >= r.1[j].importance)
      && r.1[n..] == Filter(b.queue, NotIntervention)
  {
    var urgent := SortByRank(Filter(b.queue, IsIntervention), NegImportance);
    var regular := Filter(b.queue, NotIntervention);
    FilterPartition(b.queue, IsIntervention, NotIntervention);
    MultisetMembers(urgent, Filter(b.queue, IsIntervention));
    (b.(queue := []), urgent + regular)
  }

  predicate NotIntervention(m: RelayMessage) {
    !IsIntervention(m)
  }

  function NegImportance(m: RelayMessage): int {
    -m.importance
  }

  /** A sequence and its complement filter together hold every element. */
  lemma {:induction false} FilterPartition<T>(s: seq<T>, p: T -> bool, q: T -> bool)
    requires forall x :: q(x) == !p(x)
    ensures multiset(Filter(s, p)) + multiset(Filter(s, q)) == multiset(s)
    decreases |s|
  {
    if |s| > 0 {
      var x := s[0];
      var rest := s[1..];
      calc {
        multiset(Filter(s, p)) + multiset(Filter(s, q));
        { FilterCons(s, p); FilterCons(s, q); }
        multiset(if p(x) then [x] else []) + multiset(Filter(rest, p))
          + (multiset(if q(x) then [x] else []) + multiset(Filter(rest, q)));
        multiset{x} + (multiset(Filter(rest, p)) + multiset(Filter(rest, q)));
        { FilterPartition(rest, p, q); }
        multiset{x} + multiset(rest);
        { assert s == [x] + rest; }
        multiset(s);
      }
    }
  }

  /** Elements of equal multisets satisfy the same predicates. */
  lemma MultisetMembers(a: seq<RelayMessage>, b: seq<RelayMessage>)
    requires multiset(a) == multiset(b)
    requires forall i :: 0 <= i < |b| ==> IsIntervention(b[i])
    ensures forall i :: 0 <= i < |a| ==> IsIntervention(a[i])
  {
    forall i | 0 <= i < |a| ensures IsIntervention(a[i]) {
      assert a[i] in multiset(a);
      assert a[i] in b;
    }
  }

  // ------------------------------------------------------- pending messages

  /** One entry of the summary's `interventions` list. */
  datatype PendingIntervention = PendingIntervention(kind: string, priority: int, preview: string)

  /** The dictionary `_check_pending_relay_messages` builds. */
  datatype PendingSummary = PendingSummary(
    totalCount: nat, interventionCount: nat, highPriorityCount: nat, unacknowledgedCount: nat,
    messageTypes: seq<string>, interventions: seq<PendingIntervention>, requiresResponse: bool)

  /** How much one message adds to `high_priority_count`: one for an
      intervention of priority at least 7, and one more for importance at
      least 0.8. */
  function HighWeight(m: RelayMessage): nat {
    (if IsIntervention(m) && Priority(m) >= 7 then 1 else 0) + (if m.importance >= 80 then 1 else 0)
  }

  /** The summary of the queued messages, `unacked` interventions still
      unacknowledged. */
  function Summarize(q: seq<RelayMessage>, unacked: nat): (r: PendingSummary)
    ensures r.totalCount == |q| && r.unacknowledgedCount == unacked
    ensures |r.messageTypes| == |q| && r.interventionCount == |r.interventions|
    decreases |q|
  {
    if |q| == 0 then PendingSummary(0, 0, 0, unacked, [], [], false)
    else
      var m := q[0];
      var rest := Summarize(q[1..], unacked);
      var entry := if IsIntervention(m) then [PendingIntervention(KindOf(m), Priority(m), Take(m.content, 100))] else [];
      PendingSummary(
        rest.totalCount + 1,
        rest.interventionCount + |entry|,
        rest.highPriorityCount + HighWeight(m),
        unacked,
        [m.relayType.Value()] + rest.messageTypes,
        entry + rest.interventions,
        rest.requiresResponse || (IsIntervention(m) && Priority(m) >= 7))
  }

  /** What the summary says about the queue: one type per message in queue
      order and one entry per intervention. */
  lemma {:induction false} SummarizeLists(q: seq<RelayMessage>, unacked: nat)
    ensures var r := Summarize(q, unacked);
      && (forall i :: 0 <= i < |q| ==> r.messageTypes[i] == q[i].relayType.Value())
      && r.interventionCount == |Filter(q, IsIntervention)|
    decreases |q|
  {
    if |q| > 0 {
      SummarizeLists(q[1..], unacked);
      FilterCons(q, IsIntervention);
      var r := Summarize(q, unacked);
      forall i | 1 <= i < |q| ensures r.messageTypes[i] == q[i].relayType.Value() {
        assert q[1..][i - 1] == q[i];
      }
    }
  }

  /** A response is required exactly when some queued intervention has
      priority 7 or more. */
  lemma {:induction false} SummarizeRequiresResponse(q: seq<RelayMessage>, unacked: nat)
    ensures Summarize(q, unacked).requiresResponse <==> exists i :: 0 <= i < |q| && IsIntervention(q[i]) && Priority(q[i]) >= 7
    decreases |q|
  {
    if |q| > 0 {
      SummarizeRequiresResponse(q[1..], unacked);
      var rest := Summarize(q[1..], unacked);
      if rest.requiresResponse {
        var j :| 0 <= j < |q[1..]| && IsIntervention(q[1..][j]) && Priority(q[1..][j]) >= 7;
        assert q[j + 1] == q[1..][j];
      }
      if exists i :: 0 <= i < |q| && IsIntervention(q[i]) && Priority(q[i]) >= 7 {
        var i :| 0 <= i < |q| && IsIntervention(q[i]) && Priority(q[i]) >= 7;
        if i > 0 {
          assert q[1..][i - 1] == q[i];
        }
      }
    }
  }

  /** The high-priority count is zero exactly when no queued message is
      urgent. */
  lemma {:induction false} SummarizeHighPriority(q: seq<RelayMessage>, unacked: nat)
    ensures Summarize(q, unacked).highPriorityCount == 0 <==> forall i :: 0 <= i < |q| ==> HighWeight(q[i]) == 0
    decreases |q|
  {
    if |q| > 0 {
      SummarizeHighPriority(q[1..], unacked);
      if Summarize(q, unacked).highPriorityCount == 0 {
        forall i | 0 <= i < |q| ensures HighWeight(q[i]) == 0 {
          if i > 0 {
            assert q[1..][i - 1] == q[i];
          }
        }
      }
      if forall i :: 0 <= i < |q| ==> HighWeight(q[i]) == 0 {
        forall i | 0 <= i < |q[1..]| ensures HighWeight(q[1..][i]) == 0 {
          assert q[1..][i] == q[i + 1];
        }
      }
    }
  }

  /** The queue is read by moving every message to a temporary queue and
      back again: the caller sees every pending message, and the inbox is
      left with the same messages in the same order. */
  method PeekInbox(queue: seq<RelayMessage>) returns (pending: seq<RelayMessage>, restored: seq<RelayMessage>)
    ensures pending == queue
    ensures restored == queue
  {
    var q := queue;
    var temp: seq<RelayMessage> := [];
    pending := [];
    while |q| > 0
      invariant pending + q == queue
      invariant temp == pending
      decreases |q|
    {
      pending := pending + [q[0]];
      temp := temp + [q[0]];
      q := q[1..];
    }
    restored := q;
    while |temp| > 0
      invariant restored + temp == queue
      decreases |temp|
    {
      restored := restored + [temp[0]];
      temp := temp[1..];
    }
  }

  /** `_check_pending_relay_messages`: something is pending when a message
      is queued or an intervention awaits acknowledgement. */
  function CheckPending(b: Inbox): (r: (bool, PendingSummary))
    ensures r.0 <==> |b.queue| > 0 || |b.pendingAcks| > 0
    ensures r.1.totalCount == |b.queue| && r.1.unacknowledgedCount == |b.pendingAcks|
  {
    var s := Summarize(b.queue, |b.pendingAcks|);
    (s.totalCount > 0 || s.unacknowledgedCount > 0, s)
  }

  /** One message can add two to `high_priority_count`: an intervention of
      priority 7 or more that is also of importance 0.8 or more. */
  lemma InterventionCountedTwice(m: RelayMessage)
    requires IsIntervention(m) && Priority(m) >= 7 && m.importance >= 80
    ensures Summarize([m], 0).highPriorityCount == 2
  {
    assert [m][1..] == [];
  }

  // ------------------------------------------------------------ completion

  /** The phrase lists the completion heuristics search the response for;
      their wording is not modelled. */
  datatype Phrases = Phrases(acknowledgements: seq<string>, conclusions: seq<string>)

  /** Intervention kinds that must be handled before completing. */
  predicate BlockingKind(k: string) {
    k == Inject.Value() || k == Adjust.Value()
  }

  /** The guards of `_can_complete_with_pending_messages` that no response
      can get past. */
  predicate SummaryBlocks(s: PendingSummary) {
    s.highPriorityCount > 0 || s.unacknowledgedCount > 0 || s.requiresResponse
    || exists i :: 0 <= i < |s.interventions| && BlockingKind(s.interventions[i].kind)
  }

  /** `_can_complete_with_pending_messages`: blocked by a high-priority
      message, an unacknowledged intervention, a required response or a
      pending inject/adjust; otherwise allowed when the response acknowledges
      the messages, or when there are no interventions, at most two messages
      and the response is longer than 500 characters. */
  function CanCompleteWithPending(response: string, s: PendingSummary, ph: Phrases): (r: bool)
    ensures SummaryBlocks(s) ==> !r
    ensures !SummaryBlocks(s) ==>
      (r <==> ContainsAny(response, ph.acknowledgements)
              || (s.interventionCount == 0 && s.totalCount <= 2 && |response| > 500))
  {
    if s.highPriorityCount > 0 then false
    else if s.unacknowledgedCount > 0 then false
    else if s.requiresResponse then false
    else if exists i :: 0 <= i < |s.interventions| && BlockingKind(s.interventions[i].kind) then false
    else if ContainsAny(response, ph.acknowledgements) then true
    else s.interventionCount == 0 && s.totalCount <= 2 && |response| > 500
  }

  const DoneMarkerZh: string := "[\U{4EFB}\U{52A1}\U{5B8C}\U{6210}]"
  const DoneMarkerEn: string := "[TASK_COMPLETE]"
  const BoldDoneMarker: string := "**\U{4EFB}\U{52A1}\U{5B8C}\U{6210}**"
  const HeadingDoneMarker: string := "## \U{4EFB}\U{52A1}\U{5B8C}\U{6210}"

  /** The explicit completion markers. */
  const StrictMarkers: seq<string> := [DoneMarkerZh, DoneMarkerEn, BoldDoneMarker, HeadingDoneMarker]

  /** Pending messages that stop the agent from completing. */
  predicate PendingBlocks(b: Inbox, response: string, ph: Phrases) {
    var p := CheckPending(b);
    p.0 && !CanCompleteWithPending(response, p.1, ph)
  }

  /** `_is_task_complete`: never while pending messages block; otherwise on
      an explicit marker, or from the third iteration on, on a conclusion
      phrase in a response longer than 800 characters. */
  function IsTaskComplete(b: Inbox, iterations: nat, response: string, ph: Phrases): (r: bool)
    ensures PendingBlocks(b, response, ph) ==> !r
    ensures !PendingBlocks(b, response, ph) ==>
      (r <==> ContainsAny(response, StrictMarkers)
              || (iterations >= 3 && ContainsAny(response, ph.conclusions) && |response| > 800))
  {
    var p := CheckPending(b);
    if p.0 && !CanCompleteWithPending(response, p.1, ph) then false
    else if ContainsAny(response, StrictMarkers) then true
    else iterations >= 3 && ContainsAny(response, ph.conclusions) && |response| > 800
  }

  /** A queued message of importance 0.8 or more, or an intervention of
      priority 7 or more, keeps the agent from completing whatever it
      answers. */
  lemma UrgentMessageBlocks(b: Inbox, k: nat, iterations: nat, response: string, ph: Phrases)
    requires k < |b.queue| && HighWeight(b.queue[k]) > 0
    ensures !IsTaskComplete(b, iterations, response, ph)
  {
    SummarizeHighPriority(b.queue, |b.pendingAcks|);
    var s := CheckPending(b).1;
    assert s.highPriorityCount > 0;
  }

  /** An intervention that asks for acknowledgement blocks the completion
      check from then on: nothing in the subagent removes an id from the
      pending acknowledgements, so no later response passes the check. */
  lemma AcknowledgementBlocksCompletion(b: Inbox, m: RelayMessage, now: int,
                                        iterations: nat, response: string, ph: Phrases)
    requires m.meta.requiresAcknowledgement
    ensures var r := ProcessInbox(ReceiveIntervention(b, m, now)).0;
      && |r.pendingAcks| > 0
      && !IsTaskComplete(r, iterations, response, ph)
      && !IsTaskComplete(ReceiveIntervention(b, m, now), iterations, response, ph)
  {
    var r := ProcessInbox(ReceiveIntervention(b, m, now)).0;
    PendingAckBlocks(r, iterations, response, ph);
    PendingAckBlocks(ReceiveIntervention(b, m, now), iterations, response, ph);
  }

  /** An id awaiting acknowledgement fails the completion check. */
  lemma PendingAckBlocks(b: Inbox, iterations: nat, response: string, ph: Phrases)
    requires |b.pendingAcks| > 0
    ensures !IsTaskComplete(b, iterations, response, ph)
  {
    assert CheckPending(b).1.unacknowledgedCount > 0;
  }

  /** The intended acknowledgement: a response carrying an acknowledgement
      phrase settles every intervention that awaits one, and any other
      response leaves them waiting. */
  function Acknowledge(b: Inbox, response: string, ph: Phrases): (r: Inbox)
    ensures ContainsAny(response, ph.acknowledgements) ==> r.pendingAcks == []
    ensures !ContainsAny(response, ph.acknowledgements) ==> r == b
    ensures r == b.(pendingAcks := r.pendingAcks)
  {
    if ContainsAny(response, ph.acknowledgements) then b.(pendingAcks := []) else b
  }

  /** With acknowledgement settled as intended, an intervention that asked
      for one stops blocking once a response acknowledges it: a response
      with a completion marker that failed the check before the
      acknowledgement passes it after. */
  lemma AcknowledgedCanComplete(b: Inbox, m: RelayMessage, now: int, ack: string,
                                iterations: nat, response: string, ph: Phrases)
    requires m.meta.requiresAcknowledgement && b.pendingAcks == []
    requires ContainsAny(ack, ph.acknowledgements) && ContainsAny(response, StrictMarkers)
    ensures var waiting := ProcessInbox(ReceiveIntervention(b, m, now)).0;
      && !IsTaskComplete(waiting, iterations, response, ph)
      && Acknowledge(waiting, ack, ph).pendingAcks == []
      && IsTaskComplete(Acknowledge(waiting, ack, ph), iterations, response, ph)
  {
    var waiting := ProcessInbox(ReceiveIntervention(b, m, now)).0;
    AcknowledgementBlocksCompletion(b, m, now, iterations, response, ph);
    var settled := Acknowledge(waiting, ack, ph);
    assert settled.queue == [] && settled.pendingAcks == [];
    assert !CheckPending(settled).0;
  }

  /** A pending inject or adjust blocks completion whatever the response. */
  lemma PendingInjectBlocks(b: Inbox, k: nat, iterations: nat, response: string, ph: Phrases)
    requires k < |b.queue| && IsIntervention(b.queue[k]) && BlockingKind(KindOf(b.queue[k]))
    ensures !IsTaskComplete(b, iterations, response, ph)
  {
    var s := CheckPending(b).1;
    var i := BlockingEntry(b.queue, |b.pendingAcks|, k);
    assert SummaryBlocks(s);
  }

  /** The summary lists the kind of every queued intervention. */
  lemma {:induction false} BlockingEntry(q: seq<RelayMessage>, unacked: nat, k: nat) returns (i: nat)
    requires k < |q| && IsIntervention(q[k])
    ensures i < |Summarize(q, unacked).interventions|
    ensures Summarize(q, unacked).interventions[i].kind == KindOf(q[k])
    decreases |q|
  {
    var rest := Summarize(q[1..], unacked);
    var entry := if IsIntervention(q[0]) then [PendingIntervention(KindOf(q[0]), Priority(q[0]), Take(q[0].content, 100))] else [];
    assert Summarize(q, unacked).interventions == entry + rest.interventions;
    if k == 0 {
      i := 0;
    } else {
      assert q[1..][k - 1] == q[k];
      var j := BlockingEntry(q[1..], unacked, k - 1);
      i := j + |entry|;
    }
  }

  /** Once `_is_task_complete` has said yes, the second pending check in
      the loop, made on the same state, never blocks: the
      `completion_blocked` branch cannot be taken. */
  lemma CompletionNeverBlocked(b: Inbox, iterations: nat, response: string, ph: Phrases)
    requires IsTaskComplete(b, iterations, response, ph)
    ensures !PendingBlocks(b, response, ph)
  {
  }

  /** `_extract_final_result`: from the first Chinese completion marker, or
      else from the first English one, stripped; otherwise the response as
      it is. */
  function ExtractFinalResult(response: string): (r: string)
    ensures IndexOf(response, DoneMarkerZh).Some? ==>
      r == Strip(response[IndexOf(response, DoneMarkerZh).value..])
    ensures IndexOf(response, DoneMarkerZh).None? && IndexOf(response, DoneMarkerEn).Some? ==>
      r == Strip(response[IndexOf(response, DoneMarkerEn).value..])
    ensures !Contains(response, DoneMarkerZh) && !Contains(response, DoneMarkerEn) ==> r == response
  {
    match IndexOf(response, DoneMarkerZh)
    case Some(i) => Strip(response[i..])
    case None =>
      match IndexOf(response, DoneMarkerEn)
      case Some(i) => Strip(response[i..])
      case None => response
  }

  /** Stripping a text that starts with a word whose first and last
      characters are not whitespace keeps that word at its head. */
  lemma {:induction false} StripKeepsHead(s: string, p: string)
    requires |p| > 0 && !IsSpace(p[0]) && !IsSpace(p[|p| - 1])
    requires StartsWith(s, p)
    ensures StartsWith(Strip(s), p)
  {
    assert s[0] == p[0];
    assert TrimLeft(s) == s;
    var t := TrimRight(s);
    assert s[|p| - 1] == p[|p| - 1];
    assert |t| >= |p|;
    assert t[..|p|] == s[..|p|];
  }

  /** The extracted result starts with the completion marker it was cut at,
      the Chinese one taking precedence. */
  lemma FinalResultStartsWithMarker(response: string)
    ensures Contains(response, DoneMarkerZh) ==> StartsWith(ExtractFinalResult(response), DoneMarkerZh)
    ensures !Contains(response, DoneMarkerZh) && Contains(response, DoneMarkerEn) ==>
      StartsWith(ExtractFinalResult(response), DoneMarkerEn)
  {
    match IndexOf(response, DoneMarkerZh)
    case Some(i) =>
      StripKeepsHead(response[i..], DoneMarkerZh);
    case None =>
      match IndexOf(response, DoneMarkerEn)
      case Some(i) =>
        StripKeepsHead(response[i..], DoneMarkerEn);
      case None =>
  }

  // ------------------------------------------------------ script arguments

  const WebSearchSkill: string := "web-search"

  /** `func_args.get("task", func_args.get("query", ""))`. */
  function Query(args: map<string, string>): string {
    if "task" in args then args["task"] else if "query" in args then args["query"] else ""
  }

  /** A flag and its value when the key is present. */
  function OptionalFlag(args: map<string, string>, key: string, flag: string): seq<string> {
    if key in args then [flag, args[key]] else []
  }

  /** `_build_script_args`: the command line a skill script receives. The
      argument values are taken as already rendered to text. */
  function BuildScriptArgs(skill: string, args: map<string, string>): (r: seq<string>)
    ensures |r| % 2 == 0
    ensures skill == WebSearchSkill ==>
      |r| >= 4 && r[..2] == ["--query", Query(args)] && r[|r| - 2..] == ["--format", "json"]
    ensures skill != WebSearchSkill ==> |r| <= 2
  {
    if skill == WebSearchSkill then
      ["--query", Query(args)]
      + (OptionalFlag(args, "max_results", "--max-results")
         + (OptionalFlag(args, "type", "--type")
            + (OptionalFlag(args, "region", "--region")
               + (OptionalFlag(args, "time_range", "--time-range")
                  + ["--format", "json"]))))
    else
      var task := if "task" in args then args["task"] else "";
      if task != "" then ["--task", task] else []
  }

  /** How a script reads its command line: flag/value pairs, a later
      occurrence of a flag overriding an earlier one. */
  function ParseFlags(argv: seq<string>): map<string, string>
    decreases |argv|
  {
    if |argv| < 2 then map[]
    else
      var later := ParseFlags(argv[2..]);
      if argv[0] in later then later else later[argv[0] := argv[1]]
  }

  lemma ParseFlagsPair(f: string, v: string, rest: seq<string>)
    ensures ParseFlags([f, v] + rest) == if f in ParseFlags(rest) then ParseFlags(rest) else ParseFlags(rest)[f := v]
  {
    assert ([f, v] + rest)[2..] == rest;
  }

  lemma ParseOptional(args: map<string, string>, key: string, flag: string, rest: seq<string>)
    requires flag !in ParseFlags(rest)
    ensures ParseFlags(OptionalFlag(args, key, flag) + rest)
         == if key in args then ParseFlags(rest)[flag := args[key]] else ParseFlags(rest)
  {
    if key in args {
      assert OptionalFlag(args, key, flag) == [flag, args[key]];
      ParseFlagsPair(flag, args[key], rest);
    } else {
      assert OptionalFlag(args, key, flag) + rest == rest;
    }
  }

  /** What the web-search script reads from its command line. */
  function WebSearchOptions(args: map<string, string>): map<string, string> {
    var m := map["--format" := "json"];
    var m := if "time_range" in args then m["--time-range" := args["time_range"]] else m;
    var m := if "region" in args then m["--region" := args["region"]] else m;
    var m := if "type" in args then m["--type" := args["type"]] else m;
    var m := if "max_results" in args then m["--max-results" := args["max_results"]] else m;
    m["--query" := Query(args)]
  }

  /** The region, time-range and format flags of a web-search command line. */
  lemma WebSearchLastFlags(args: map<string, string>) returns (t3: seq<string>, m2: map<string, string>)
    ensures t3 == OptionalFlag(args, "region", "--region")
                  + (OptionalFlag(args, "time_range", "--time-range") + ["--format", "json"])
    ensures ParseFlags(t3) == m2 && m2.Keys <= {"--format", "--time-range", "--region"}
    ensures m2 == var m := map["--format" := "json"];
                  var m := if "time_range" in args then m["--time-range" := args["time_range"]] else m;
                  if "region" in args then m["--region" := args["region"]] else m
  {
    var tail: seq<string> := ["--format", "json"];
    ParseFlagsPair("--format", "json", []);
    var m0 := map["--format" := "json"];
    assert ParseFlags(tail) == m0;
    var t4 := OptionalFlag(args, "time_range", "--time-range") + tail;
    ParseOptional(args, "time_range", "--time-range", tail);
    var m1 := if "time_range" in args then m0["--time-range" := args["time_range"]] else m0;
    assert ParseFlags(t4) == m1 && m1.Keys <= {"--format", "--time-range"};
    t3 := OptionalFlag(args, "region", "--region") + t4;
    ParseOptional(args, "region", "--region", t4);
    m2 := if "region" in args then m1["--region" := args["region"]] else m1;
  }

  /** The flags a web-search command line can carry after the query. */
  lemma WebSearchTail(args: map<string, string>) returns (t1: seq<string>)
    ensures BuildScriptArgs(WebSearchSkill, args) == ["--query", Query(args)] + t1
    ensures "--query" !in ParseFlags(t1)
    ensures ParseFlags(t1)["--query" := Query(args)] == WebSearchOptions(args)
  {
    var t3, m2 := WebSearchLastFlags(args);
    var t2 := OptionalFlag(args, "type", "--type") + t3;
    ParseOptional(args, "type", "--type", t3);
    var m3 := if "type" in args then m2["--type" := args["type"]] else m2;
    assert ParseFlags(t2) == m3 && m3.Keys <= {"--format", "--time-range", "--region", "--type"};
    t1 := OptionalFlag(args, "max_results", "--max-results") + t2;
    ParseOptional(args, "max_results", "--max-results", t2);
    var m4 := if "max_results" in args then m3["--max-results" := args["max_results"]] else m3;
    assert ParseFlags(t1) == m4 && m4.Keys <= {"--format", "--time-range", "--region", "--type", "--max-results"};
    assert "--query" !in m4;
  }

  /** The command line round-trips: the web-search script reads back the
      query, each optional setting exactly when the caller gave it, and JSON
      output; any other script reads the task when one was given. */
  lemma ScriptArgsRoundTrip(skill: string, args: map<string, string>)
    ensures skill == WebSearchSkill ==> ParseFlags(BuildScriptArgs(skill, args)) == WebSearchOptions(args)
    ensures skill != WebSearchSkill ==>
      ParseFlags(BuildScriptArgs(skill, args))
        == if "task" in args && args["task"] != "" then map["--task" := args["task"]] else map[]
  {
    if skill == WebSearchSkill {
      var t1 := WebSearchTail(args);
      ParseFlagsPair("--query", Query(args), t1);
    } else if "task" in args && args["task"] != "" {
      ParseFlagsPair("--task", args["task"], []);
      assert BuildScriptArgs(skill, args) == ["--task", args["task"]] + [];
    }
  }

  // ------------------------------------------------------------- the loop

  /** `min(95, iteration / max_iterations * 100)`. */
  function LoopProgress(iteration: nat, maxIterations: nat): (p: real)
    requires 1 <= iteration <= maxIterations
    ensures 0.0 < p <= 95.0
  {
    var ratio := (iteration as real / maxIterations as real) * 100.0;
    if ratio < 95.0 then ratio else 95.0
  }

  /** Progress never goes down from one iteration to the next, and the last
      iteration reports 95. */
  lemma ProgressMonotone(i: nat, j: nat, maxIterations: nat)
    requires 1 <= i <= j <= maxIterations
    ensures LoopProgress(i, maxIterations) <= LoopProgress(j, maxIterations)
    ensures LoopProgress(maxIterations, maxIterations) == 95.0
  {
    var m := maxIterations as real;
    assert i as real / m <= j as real / m;
    assert maxIterations as real / m == 1.0;
  }

  /** `"迭代 {iteration}/{max_iterations}"`. */
  function StepText(iteration: nat, maxIterations: nat): string {
    "\U{8FED}\U{4EE3} " + NatToString(iteration) + "/" + NatToString(maxIterations)
  }

  /** What happens at the top of one pass of the loop. */
  datatype Turn =
    /** `_paused` is set: a PAUSED status, no iteration used. */
    | PausedTurn
    /** `cancel()` was called: the loop condition fails. */
    | CancelFlag
    /** The task was cancelled (`CancelledError`). */
    | Interrupted
    /** An exception escaped. */
    | Raised(error: string)
    /** An iteration: the inbox messages it processed, the thinking and tool
        events it streamed, the final response, the inbox when completion
        is checked, and the relay message the trigger produced, if any. */
    | Work(processed: seq<RelayMessage>, streamed: seq<RawBody>, response: string, inbox: Inbox,
           relay: Option<RelayMessage>)

  /** What one pass yields: its events, the final status if the run ends
      here, and whether it used an iteration. */
  datatype Pass = Pass(events: seq<RawBody>, stop: Option<AgentStatus>, used: nat)

  /** The run so far: the raw events, the final status once the run has
      ended, and the iterations used. */
  datatype Run = Run(events: seq<RawBody>, final: Option<AgentStatus>, iterations: nat)

  /** The events a turn may stream itself are thinking and tool calls. */
  predicate StreamedOnlyTurn(t: Turn) {
    t.Work? ==> forall e :: e in t.streamed ==> e.ThinkingBody? || e.ToolCallStartBody? || e.ToolCallResultBody?
  }

  predicate StreamedOnly(turns: seq<Turn>) {
    forall k :: 0 <= k < |turns| ==> StreamedOnlyTurn(turns[k])
  }

  /** How a finished run's events end. */
  predicate EndsAs(events: seq<RawBody>, final: AgentStatus) {
    && |events| > 0
    && (final.Completed? || final.Cancelled? || final.Failed?)
    && (final.Completed? ==>
          events[|events| - 1] == StatusBody(Completed.Value())
          || (|events| >= 2 && events[|events| - 2] == StatusBody(Completed.Value()) && events[|events| - 1].ResultBody?))
    && (final.Cancelled? ==> events[|events| - 1] == StatusBody(Cancelled.Value()))
    && (final.Failed? ==> events[|events| - 1].ErrorBody?)
  }

  /** No blocked-completion event, and every progress reported lies in
      (0, 95]. */
  predicate Clean(events: seq<RawBody>) {
    forall e :: e in events ==> e != OtherBody("completion_blocked") && (e.ProgressBody? ==> 0.0 < e.progress <= 95.0)
  }

  /** The completion check and the result extraction the loop uses; the
      loop's lemmas hold for any, and `run_stream` uses `IsTaskComplete` and
      `ExtractFinalResult`. */
  datatype Checks = Checks(complete: (Inbox, nat, string) -> bool, extract: string -> string)

  function SubagentChecks(ph: Phrases): Checks {
    Checks((b: Inbox, i: nat, response: string) => IsTaskComplete(b, i, response, ph), ExtractFinalResult)
  }

  /** One pass of `run_stream`'s loop, as iteration `i` when it works. A
      completing iteration yields COMPLETED and the extracted result; an
      iteration that does not complete yields the trigger's relay message,
      if any. The source re-checks the pending messages after a completion
      and yields `completion_blocked` when they block; on the same state
      that check cannot block (`CompletionNeverBlocked`), so the branch is
      not part of the model. */
  function TurnPass(t: Turn, i: nat, maxIterations: nat, ck: Checks): (o: Pass)
    requires 1 <= i <= maxIterations
    ensures o.used == (if t.Work? then 1 else 0)
    ensures t.PausedTurn? ==> o == Pass([StatusBody(Paused.Value())], None, 0)
    ensures o.stop.Some? ==> EndsAs(o.events, o.stop.value)
    ensures t.Work? ==> (o.stop.Some? <==> ck.complete(t.inbox, i, t.response))
    ensures !t.Work? && !t.PausedTurn? ==> o.stop.Some?
    ensures StreamedOnlyTurn(t) ==> Clean(o.events)
  {
    match t
    case PausedTurn => Pass([StatusBody(Paused.Value())], None, 0)
    case CancelFlag => Pass([StatusBody(Completed.Value())], Some(Completed), 0)
    case Interrupted => Pass([StatusBody(Cancelled.Value())], Some(Cancelled), 0)
    case Raised(e) => Pass([ErrorBody(e)], Some(Failed), 0)
    case Work(processed, streamed, response, inbox, relay) =>
      var pre := (if |processed| > 0 then [OtherBody("relay_processed")] else [])
                 + [ProgressBody(LoopProgress(i, maxIterations), StepText(i, maxIterations), Some(i))]
                 + streamed;
      if ck.complete(inbox, i, response) then
        var events := pre + [StatusBody(Completed.Value()), ResultBody(ck.extract(response))];
        assert events[|events| - 2] == StatusBody(Completed.Value());
        Pass(events, Some(Completed), 1)
      else
        Pass(pre + match relay case Some(m) => [RelayBody(m)] case None => [], None, 1)
  }

  /** The body of `run_stream`'s loop from iteration `it` on: the loop stops
      when the iterations run out (and the run then ends COMPLETED), when a
      pass ends it, or when the turns given run out (the run has not ended). */
  function RunLoop(turns: seq<Turn>, it: nat, maxIterations: nat, ck: Checks): (r: Run)
    requires it <= maxIterations
    ensures it <= r.iterations <= maxIterations
    ensures r.iterations <= it + |turns|
    decreases |turns|
  {
    if it >= maxIterations then Run([StatusBody(Completed.Value())], Some(Completed), it)
    else if |turns| == 0 then Run([], None, it)
    else
      var o := TurnPass(turns[0], it + 1, maxIterations, ck);
      if o.stop.Some? then Run(o.events, o.stop, it + o.used)
      else
        var rest := RunLoop(turns[1..], it + o.used, maxIterations, ck);
        rest.(events := o.events + rest.events)
  }

  /** `run_stream`: a RUNNING status, then the loop. */
  function RunStream(turns: seq<Turn>, maxIterations: nat, ph: Phrases): (r: Run)
    ensures |r.events| >= 1 && r.events[0] == StatusBody(Running.Value())
    ensures r.iterations <= maxIterations && r.iterations <= |turns|
  {
    var loop := RunLoop(turns, 0, maxIterations, SubagentChecks(ph));
    loop.(events := [StatusBody(Running.Value())] + loop.events)
  }

  lemma CleanConcat(a: seq<RawBody>, b: seq<RawBody>)
    requires Clean(a) && Clean(b)
    ensures Clean(a + b)
  {
  }

  lemma EndsAsAfter(a: seq<RawBody>, b: seq<RawBody>, f: AgentStatus)
    requires EndsAs(b, f)
    ensures EndsAs(a + b, f)
  {
    var s := a + b;
    assert s[|s| - 1] == b[|b| - 1];
    if |b| >= 2 {
      assert s[|s| - 2] == b[|b| - 2];
    }
  }

  lemma StreamedOnlyTail(turns: seq<Turn>)
    requires |turns| > 0 && StreamedOnly(turns)
    ensures StreamedOnly(turns[1..])
  {
    forall k | 0 <= k < |turns[1..]| ensures StreamedOnlyTurn(turns[1..][k]) {
      assert turns[1..][k] == turns[k + 1];
    }
  }

  /** What `RunLoopEnds` states about a run of the loop. */
  predicate LoopOutcome(r: Run, it: nat, maxIterations: nat) {
    && it <= r.iterations <= maxIterations
    && (r.final.Some? ==> EndsAs(r.events, r.final.value))
    && Clean(r.events)
  }

  /** The loop ends within its iteration budget; when it has ended, its
      last events say how; it never reports a blocked completion; and every
      progress it reports is above 0 and at most 95. */
  lemma {:induction false} RunLoopEnds(turns: seq<Turn>, it: nat, maxIterations: nat, ck: Checks)
    requires it <= maxIterations
    requires StreamedOnly(turns)
    ensures LoopOutcome(RunLoop(turns, it, maxIterations, ck), it, maxIterations)
    decreases |turns|
  {
    if it < maxIterations && |turns| > 0 {
      assert StreamedOnlyTurn(turns[0]);
      var o := TurnPass(turns[0], it + 1, maxIterations, ck);
      if o.stop.None? {
        StreamedOnlyTail(turns);
        RunLoopEnds(turns[1..], it + o.used, maxIterations, ck);
        ContinuedOutcome(turns, it, maxIterations, ck);
      } else {
        StoppedOutcome(turns, it, maxIterations, ck);
      }
    } else {
      FinalOutcome(turns, it, maxIterations, ck);
    }
  }

  /** A pass that ends the loop decides its outcome. */
  lemma StoppedOutcome(turns: seq<Turn>, it: nat, maxIterations: nat, ck: Checks)
    requires it < maxIterations && |turns| > 0 && StreamedOnlyTurn(turns[0])
    requires TurnPass(turns[0], it + 1, maxIterations, ck).stop.Some?
    ensures LoopOutcome(RunLoop(turns, it, maxIterations, ck), it, maxIterations)
  {
    var o := TurnPass(turns[0], it + 1, maxIterations, ck);
    assert RunLoop(turns, it, maxIterations, ck) == Run(o.events, o.stop, it + o.used);
  }

  /** Out of iterations or of turns. */
  lemma FinalOutcome(turns: seq<Turn>, it: nat, maxIterations: nat, ck: Checks)
    requires it <= maxIterations && (it == maxIterations || |turns| == 0)
    ensures LoopOutcome(RunLoop(turns, it, maxIterations, ck), it, maxIterations)
  {
  }

  /** A pass that does not end the loop keeps the outcome of the rest. */
  lemma ContinuedOutcome(turns: seq<Turn>, it: nat, maxIterations: nat, ck: Checks)
    requires it < maxIterations && |turns| > 0
    requires var o := TurnPass(turns[0], it + 1, maxIterations, ck);
      o.stop.None? && Clean(o.events) && LoopOutcome(RunLoop(turns[1..], it + o.used, maxIterations, ck), it + o.used, maxIterations)
    ensures LoopOutcome(RunLoop(turns, it, maxIterations, ck), it, maxIterations)
  {
    var o := TurnPass(turns[0], it + 1, maxIterations, ck);
    var rest := RunLoop(turns[1..], it + o.used, maxIterations, ck);
    assert RunLoop(turns, it, maxIterations, ck) == rest.(events := o.events + rest.events);
    CleanConcat(o.events, rest.events);
    if rest.final.Some? {
      EndsAsAfter(o.events, rest.events, rest.final.value);
    }
  }

  /** `run_stream` starts with a RUNNING status and, once it has ended, has
      ended COMPLETED (also when cancelled through the flag or out of
      iterations), CANCELLED, or FAILED with an error event; it never
      reports a blocked completion, and every progress lies in (0, 95]. */
  lemma RunStreamEnds(turns: seq<Turn>, maxIterations: nat, ph: Phrases)
    requires StreamedOnly(turns)
    ensures var r := RunStream(turns, maxIterations, ph);
      && r.events[0] == StatusBody(Running.Value())
      && r.iterations <= maxIterations
      && (r.final.Some? ==> EndsAs(r.events, r.final.value))
      && Clean(r.events)
  {
    RunLoopEnds(turns, 0, maxIterations, SubagentChecks(ph));
    var loop := RunLoop(turns, 0, maxIterations, SubagentChecks(ph));
    var head := [StatusBody(Running.Value())];
    CleanConcat(head, loop.events);
    if loop.final.Some? {
      EndsAsAfter(head, loop.events, loop.final.value);
    }
  }

  /** While an intervention awaits acknowledgement at every completion
      check, the loop runs its whole budget: it ends COMPLETED only through
      the fallback after the last iteration, and no final result is ever
      extracted. */
  lemma PendingAckRunsOutBudget(turns: seq<Turn>, it: nat, maxIterations: nat, ph: Phrases)
    requires it <= maxIterations && |turns| >= maxIterations - it
    requires forall k :: 0 <= k < |turns| ==> AwaitingAck(turns[k])
    ensures BudgetOutcome(RunLoop(turns, it, maxIterations, SubagentChecks(ph)), maxIterations)
  {
    var ck := SubagentChecks(ph);
    forall b: Inbox, i: nat, response: string | |b.pendingAcks| > 0
      ensures !ck.complete(b, i, response)
    {
      PendingAckBlocks(b, i, response, ph);
    }
    BlockedRunsOutBudget(turns, it, maxIterations, ck);
  }

  /** A completion check that an awaited acknowledgement always fails. */
  ghost predicate AcksBlock(ck: Checks) {
    forall b: Inbox, i: nat, response: string :: |b.pendingAcks| > 0 ==> !ck.complete(b, i, response)
  }

  lemma {:induction false} BlockedRunsOutBudget(turns: seq<Turn>, it: nat, maxIterations: nat, ck: Checks)
    requires it <= maxIterations && |turns| >= maxIterations - it
    requires forall k :: 0 <= k < |turns| ==> AwaitingAck(turns[k])
    requires AcksBlock(ck)
    ensures BudgetOutcome(RunLoop(turns, it, maxIterations, ck), maxIterations)
    decreases |turns|
  {
    if it < maxIterations {
      AwaitingAckTail(turns);
      BlockedRunsOutBudget(turns[1..], it + 1, maxIterations, ck);
      AwaitingAckStep(turns, it, maxIterations, ck);
    } else {
      BudgetOutcomeBase(turns, it, maxIterations, ck);
    }
  }

  lemma AwaitingAckTail(turns: seq<Turn>)
    requires |turns| > 0 && forall k :: 0 <= k < |turns| ==> AwaitingAck(turns[k])
    ensures forall k :: 0 <= k < |turns[1..]| ==> AwaitingAck(turns[1..][k])
  {
    forall k | 0 <= k < |turns[1..]| ensures AwaitingAck(turns[1..][k]) {
      assert turns[1..][k] == turns[k + 1];
    }
  }

  /** What `PendingAckRunsOutBudget` states about a run of the loop. */
  predicate BudgetOutcome(r: Run, maxIterations: nat) {
    && r.final == Some(Completed) && r.iterations == maxIterations
    && |r.events| > 0 && r.events[|r.events| - 1] == StatusBody(Completed.Value())
    && forall e :: e in r.events ==> !e.ResultBody?
  }

  /** A pass that neither ends the loop nor yields a result keeps the
      outcome of the rest. */
  lemma BudgetOutcomeStep(turns: seq<Turn>, it: nat, maxIterations: nat, ck: Checks)
    requires it < maxIterations && |turns| > 0
    requires var o := TurnPass(turns[0], it + 1, maxIterations, ck);
      && o.stop.None? && o.used == 1 && (forall e :: e in o.events ==> !e.ResultBody?)
      && BudgetOutcome(RunLoop(turns[1..], it + 1, maxIterations, ck), maxIterations)
    ensures BudgetOutcome(RunLoop(turns, it, maxIterations, ck), maxIterations)
  {
    var o := TurnPass(turns[0], it + 1, maxIterations, ck);
    var rest := RunLoop(turns[1..], it + 1, maxIterations, ck);
    assert RunLoop(turns, it, maxIterations, ck) == rest.(events := o.events + rest.events);
    NoResultConcat(o.events, rest.events);
  }

  /** Appending keeps the last event and the absence of a result. */
  lemma NoResultConcat(a: seq<RawBody>, b: seq<RawBody>)
    requires |b| > 0 && (forall e :: e in a ==> !e.ResultBody?) && (forall e :: e in b ==> !e.ResultBody?)
    ensures (a + b)[|a + b| - 1] == b[|b| - 1]
    ensures forall e :: e in a + b ==> !e.ResultBody?
  {
  }

  /** An iteration awaiting acknowledgement keeps the outcome of the rest. */
  lemma AwaitingAckStep(turns: seq<Turn>, it: nat, maxIterations: nat, ck: Checks)
    requires it < maxIterations && |turns| > 0 && AwaitingAck(turns[0]) && AcksBlock(ck)
    requires BudgetOutcome(RunLoop(turns[1..], it + 1, maxIterations, ck), maxIterations)
    ensures BudgetOutcome(RunLoop(turns, it, maxIterations, ck), maxIterations)
  {
    AwaitingAckPass(turns[0], it + 1, maxIterations, ck);
    BudgetOutcomeStep(turns, it, maxIterations, ck);
  }

  /** Out of iterations: the fallback COMPLETED status. */
  lemma BudgetOutcomeBase(turns: seq<Turn>, it: nat, maxIterations: nat, ck: Checks)
    requires it == maxIterations
    ensures BudgetOutcome(RunLoop(turns, it, maxIterations, ck), maxIterations)
  {
  }

  /** An iteration whose completion check still sees an id awaiting
      acknowledgement, and which streams only thinking and tool events. */
  predicate AwaitingAck(t: Turn) {
    t.Work? && |t.inbox.pendingAcks| > 0 && StreamedOnlyTurn(t)
  }

  /** Such an iteration uses one iteration, does not end the loop and
      yields no result. */
  lemma AwaitingAckPass(t: Turn, i: nat, maxIterations: nat, ck: Checks)
    requires 1 <= i <= maxIterations && AwaitingAck(t) && AcksBlock(ck)
    ensures var o := TurnPass(t, i, maxIterations, ck);
      o.stop.None? && o.used == 1 && forall e :: e in o.events ==> !e.ResultBody?
  {
    assert !ck.complete(t.inbox, i, t.response);
  }

  /** Without pauses, a turn list as long as the iteration budget always
      brings the run to an end. */
  lemma {:induction false} RunLoopTerminates(turns: seq<Turn>, it: nat, maxIterations: nat, ck: Checks)
    requires it <= maxIterations
    requires |turns| >= maxIterations - it
    requires forall k :: 0 <= k < |turns| ==> !turns[k].PausedTurn?
    ensures RunLoop(turns, it, maxIterations, ck).final.Some?
    decreases |turns|
  {
    if it < maxIterations {
      var o := TurnPass(turns[0], it + 1, maxIterations, ck);
      if o.stop.None? {
        assert turns[0].Work?;
        RunLoopTerminates(turns[1..], it + 1, maxIterations, ck);
      }
    }
  }
}
