/** Session bookkeeping kept in memory by the session manager: the cached
    `SessionInfo` of each live session, which sessions currently own a
    master agent, and the per-session lists of event-stream subscribers.
    Agents are represented by an instance number and subscriber queues by
    a number; the clock is a parameter. Persistence to the repository runs
    in the background in the source and is not part of this model. */
module SessionManager {
  import opened Util
  import opened OrderedTable

  // ------------------------------------------------------------ SessionInfo

  /** One finished round of a session, as kept for follow-up questions. */
  datatype HistoryEntry = HistoryEntry(task: string, summary: string, roles: seq<string>, timestamp: int)

  /** A role configuration; only its optional `name` is read here. */
  datatype RoleConfig = RoleConfig(name: Option<string>)

  datatype SessionInfo = SessionInfo(
    sessionId: string,
    createdAt: int,
    lastActiveAt: int,
    provider: string,
    model: Option<string>,
    task: Option<string>,
    status: string,
    plan: Option<string>,
    finalReport: Option<string>,
    error: Option<string>,
    userId: Option<string>,
    mode: string,
    interventionSummary: Option<string>,
    taskHistory: Option<seq<HistoryEntry>>,
    previousRoles: Option<seq<RoleConfig>>)

  /** A `SessionInfo` with the dataclass defaults: active, emergent mode,
      provider "openai", nothing recorded yet. */
  function NewSessionInfo(id: string, userId: Option<string>, now: int): (s: SessionInfo)
    ensures s.sessionId == id && s.status == "active" && s.mode == "emergent"
    ensures s.finalReport.None? && s.taskHistory.None?
    ensures !HasHistory(s)
  {
    SessionInfo(id, now, now, "openai", None, None, "active", None, None, None, userId, "emergent", None, None, None)
  }

  /** The statuses after which a session may be asked a follow-up. */
  predicate IsFinished(status: string) {
    status == "completed" || status == "cancelled" || status == "failed" || status == "error"
  }

  /** `has_history`: a finished session qualifies for a follow-up; in
      direct mode always, in emergent mode only when a final report exists. */
  predicate HasHistory(s: SessionInfo) {
    IsFinished(s.status) && (s.mode == "direct" || s.finalReport.Some?)
  }

  // ---------------------------------------------------- follow-up context

  /** "## 历史任务记录" */
  const HistoryHeading: string := "## \U{5386}\U{53F2}\U{4EFB}\U{52A1}\U{8BB0}\U{5F55}"
  /** "### 第 " and " 轮": the round heading around its number. */
  const RoundPrefix: string := "### \U{7B2C} "
  const RoundSuffix: string := " \U{8F6E}"
  /** "- 任务: " */
  const TaskLabel: string := "- \U{4EFB}\U{52A1}: "
  /** "- 结论摘要: " */
  const SummaryLabel: string := "- \U{7ED3}\U{8BBA}\U{6458}\U{8981}: "
  /** "## 上一轮任务的最终报告" */
  const ReportHeading: string := "## \U{4E0A}\U{4E00}\U{8F6E}\U{4EFB}\U{52A1}\U{7684}\U{6700}\U{7EC8}\U{62A5}\U{544A}"
  /** "\n...(报告已截取前 1500 字符)": appended to a cut report. */
  const ReportCutNotice: string := "\n...(\U{62A5}\U{544A}\U{5DF2}\U{622A}\U{53D6}\U{524D} 1500 \U{5B57}\U{7B26})"
  /** "## 用户干预记录" */
  const InterventionHeading: string := "## \U{7528}\U{6237}\U{5E72}\U{9884}\U{8BB0}\U{5F55}"
  /** "\n...(上下文已截取)": appended to a cut context. */
  const ContextCutNotice: string := "\n...(\U{4E0A}\U{4E0B}\U{6587}\U{5DF2}\U{622A}\U{53D6})"
  /** "未知任务": the task recorded for a session that has none. */
  const UnknownTask: string := "\U{672A}\U{77E5}\U{4EFB}\U{52A1}"

  const SummaryLimit: nat := 500
  const ReportLimit: nat := 1500
  const HistoryKept: nat := 3
  const DefaultMaxChars: nat := 2500

  /** The summary line of a round: the label and at most 500 characters. */
  function SummaryLine(summary: string): (line: string)
    ensures |line| <= |SummaryLabel| + SummaryLimit
    ensures line == SummaryLabel + Take(summary, SummaryLimit)
  {
    SummaryLabel + Take(summary, SummaryLimit)
  }

  /** The lines describing rounds `entries`, numbered from `first`. A round
      with an empty summary has no summary line. */
  function RoundLines(entries: seq<HistoryEntry>, first: nat): (lines: seq<string>)
    ensures 2 * |entries| <= |lines| <= 3 * |entries|
    decreases |entries|
  {
    if |entries| == 0 then []
    else
      var e := entries[0];
      [RoundPrefix + NatToString(first) + RoundSuffix, TaskLabel + e.task]
      + (if e.summary != "" then [SummaryLine(e.summary)] else [])
      + RoundLines(entries[1..], first + 1)
  }

  /** The report excerpt: the first 1500 characters, with a notice when
      something was cut. */
  function ReportExcerpt(report: string): (x: string)
    ensures |report| <= ReportLimit ==> x == report
    ensures |report| > ReportLimit ==> x == report[..ReportLimit] + ReportCutNotice
    ensures |x| <= ReportLimit + |ReportCutNotice|
  {
    Take(report, ReportLimit) + (if |report| > ReportLimit then ReportCutNotice else "")
  }

  /** The context's lines: the last three rounds, the previous report and
      the intervention record, each block present only when non-empty. */
  function ContextLines(s: SessionInfo): seq<string> {
    var th := s.taskHistory.GetOr([]);
    (if |th| > 0 then [HistoryHeading] + RoundLines(Last(th, HistoryKept), 1) + [""] else [])
    + (if Truthy(s.finalReport) then [ReportHeading, ReportExcerpt(s.finalReport.value), ""] else [])
    + (if Truthy(s.interventionSummary) then [InterventionHeading, s.interventionSummary.value, ""] else [])
  }

  /** `build_followup_context(max_chars)`: the lines joined by newlines and,
      when longer than `max_chars`, cut to `max_chars` with a notice. */
  function BuildFollowupContext(s: SessionInfo, maxChars: nat): (ctx: string)
    ensures |ctx| <= maxChars + |ContextCutNotice|
    ensures |Join(ContextLines(s), "\n")| <= maxChars ==> ctx == Join(ContextLines(s), "\n")
    ensures |Join(ContextLines(s), "\n")| > maxChars ==>
      ctx == Join(ContextLines(s), "\n")[..maxChars] + ContextCutNotice
  {
    var full := Join(ContextLines(s), "\n");
    if |full| > maxChars then full[..maxChars] + ContextCutNotice else full
  }

  /** Rounds older than the last three never reach the context: cutting
      the history to its last three entries changes nothing. */
  lemma FollowupUsesLastThree(s: SessionInfo, maxChars: nat)
    requires s.taskHistory.Some?
    ensures BuildFollowupContext(s.(taskHistory := Some(Last(s.taskHistory.value, HistoryKept))), maxChars)
         == BuildFollowupContext(s, maxChars)
  {
    var th := s.taskHistory.value;
    var cut := Last(th, HistoryKept);
    assert Last(cut, HistoryKept) == cut;
    assert |cut| > 0 <==> |th| > 0;
    assert ContextLines(s.(taskHistory := Some(cut))) == ContextLines(s);
  }

  /** An empty session yields an empty context. */
  lemma EmptySessionHasEmptyContext(id: string, userId: Option<string>, now: int, maxChars: nat)
    ensures BuildFollowupContext(NewSessionInfo(id, userId, now), maxChars) == ""
  {
    assert ContextLines(NewSessionInfo(id, userId, now)) == [];
  }

  // ------------------------------------------------------------- the manager

  datatype Manager = Manager(
    sessions: Table<SessionInfo>,
    /** the master agent instance of each session that has one */
    agents: map<string, nat>,
    /** the subscriber queues of each session, in subscription order */
    subscribers: map<string, seq<nat>>)

  /** The entry `save_task_completion` appends. */
  function CompletionEntry(s: SessionInfo, finalReport: string, roles: Option<seq<RoleConfig>>, now: int): (e: HistoryEntry)
    ensures e.task == (if Truthy(s.task) then s.task.value else UnknownTask)
    ensures e.summary == Take(finalReport, SummaryLimit)
    ensures |e.roles| == |roles.GetOr([])|
  {
    var rs := roles.GetOr([]);
    HistoryEntry(if Truthy(s.task) then s.task.value else UnknownTask,
                 Take(finalReport, SummaryLimit),
                 seq(|rs|, i requires 0 <= i < |rs| => rs[i].name.GetOr("")),
                 now)
  }

  /** `save_task_completion`: nothing for an unknown session. Otherwise the
      report, the intervention summary and the roles are stored, the plan
      only when one is given, and one history entry is appended, keeping the
      three newest. */
  function SaveTaskCompletion(m: Manager, sessionId: string, finalReport: string, plan: Option<string>,
                              interventionSummary: Option<string>, roles: Option<seq<RoleConfig>>, now: int): (r: Manager)
    requires Valid(m.sessions)
    ensures Valid(r.sessions)
    ensures sessionId !in m.sessions.rows ==> r == m
    ensures sessionId in m.sessions.rows ==> sessionId in r.sessions.rows
    ensures sessionId in m.sessions.rows ==>
      var old_ := m.sessions.rows[sessionId];
      var new_ := r.sessions.rows[sessionId];
      var prior := old_.taskHistory.GetOr([]);
      && r.sessions.keys == m.sessions.keys
      && r.sessions.rows == m.sessions.rows[sessionId := new_]
      && new_.finalReport == Some(finalReport)
      && new_.plan == (if Truthy(plan) then plan else old_.plan)
      && new_.interventionSummary == interventionSummary
      && new_.previousRoles == roles
      && new_.taskHistory.Some?
      && new_.taskHistory.value == Last(prior + [CompletionEntry(old_, finalReport, roles, now)], HistoryKept)
      && new_.status == old_.status && new_.mode == old_.mode && new_.userId == old_.userId
    ensures r.agents == m.agents && r.subscribers == m.subscribers
  {
    if sessionId !in m.sessions.rows then m
    else
      var s := m.sessions.rows[sessionId];
      var prior := s.taskHistory.GetOr([]);
      var history := Last(prior + [CompletionEntry(s, finalReport, roles, now)], HistoryKept);
      var s1 := s.(finalReport := Some(finalReport),
                   plan := if Truthy(plan) then plan else s.plan,
                   interventionSummary := interventionSummary,
                   previousRoles := roles,
                   taskHistory := Some(history));
      m.(sessions := Put(m.sessions, sessionId, s1))
  }

  /** The history never holds more than three rounds, and the newest round
      is the one just saved. */
  lemma CompletionKeepsThreeNewest(m: Manager, sessionId: string, finalReport: string, plan: Option<string>,
                                   interventionSummary: Option<string>, roles: Option<seq<RoleConfig>>, now: int)
    requires Valid(m.sessions) && sessionId in m.sessions.rows
    ensures var s := SaveTaskCompletion(m, sessionId, finalReport, plan, interventionSummary, roles, now).sessions.rows[sessionId];
      var h := s.taskHistory.value;
      && 1 <= |h| <= HistoryKept
      && h[|h| - 1] == CompletionEntry(m.sessions.rows[sessionId], finalReport, roles, now)
      && h[|h| - 1].summary == Take(finalReport, SummaryLimit)
  {
  }

  /** Saving a completion on a finished session makes it eligible for a
      follow-up, in either mode. */
  lemma CompletionEnablesFollowup(m: Manager, sessionId: string, finalReport: string, plan: Option<string>,
                                  interventionSummary: Option<string>, roles: Option<seq<RoleConfig>>, now: int)
    requires Valid(m.sessions) && sessionId in m.sessions.rows
    requires IsFinished(m.sessions.rows[sessionId].status)
    ensures HasHistory(SaveTaskCompletion(m, sessionId, finalReport, plan, interventionSummary, roles, now).sessions.rows[sessionId])
  {
  }

  /** One row of `list_sessions`: the task is cut to 100 characters and
      `has_agent` says whether a master agent is installed. */
  datatype Listing = Listing(sessionId: string, task: Option<string>, status: string, mode: string,
                             hasAgent: bool, userId: Option<string>)

  function ListingOf(m: Manager, s: SessionInfo): (l: Listing)
    ensures l.sessionId == s.sessionId && l.userId == s.userId
    ensures l.task.Some? <==> Truthy(s.task)
    ensures l.task.Some? ==> |l.task.value| <= 100
  {
    Listing(s.sessionId, if Truthy(s.task) then Some(Take(s.task.value, 100)) else None,
            s.status, s.mode, s.sessionId in m.agents, s.userId)
  }

  /** The cached sessions owned by `userId`, in insertion order; exactly
      the stored sessions with that owner. */
  function Owned(m: Manager, userId: Option<string>): (r: seq<SessionInfo>)
    requires Valid(m.sessions)
    ensures forall s :: s in r <==> s in m.sessions.rows.Values && s.userId == userId
  {
    var r := Filter(Values(m.sessions), (s: SessionInfo) => s.userId == userId);
    FilterMembershipAll(Values(m.sessions), (s: SessionInfo) => s.userId == userId);
    ValuesListed(m.sessions);
    r
  }

  lemma ValuesListed<V>(t: Table<V>)
    requires Valid(t)
    ensures forall x :: x in Values(t) <==> x in t.rows.Values
  {
    forall x ensures x in Values(t) <==> x in t.rows.Values {
      ValuesAreStored(t, x);
      StoredAreValues(t, x);
    }
  }

  /** `list_sessions(user_id)`: nothing without a user; otherwise one row
      per cached session owned by that user, in insertion order. */
  function ListSessions(m: Manager, userId: Option<string>): (r: seq<Listing>)
    requires Valid(m.sessions)
    ensures !Truthy(userId) ==> r == []
    ensures forall i :: 0 <= i < |r| ==> r[i].userId == userId
    ensures Truthy(userId) ==> |r| == |Owned(m, userId)|
    ensures Truthy(userId) ==> forall s :: s in m.sessions.rows.Values && s.userId == userId ==>
      ListingOf(m, s) in r
  {
    if !Truthy(userId) then []
    else
      var owned := Owned(m, userId);
      var r := seq(|owned|, i requires 0 <= i < |owned| => ListingOf(m, owned[i]));
      assert forall s :: s in owned ==> ListingOf(m, s) in r by {
        forall s | s in owned ensures ListingOf(m, s) in r {
          var i :| 0 <= i < |owned| && owned[i] == s;
          assert r[i] == ListingOf(m, s);
        }
      }
      r
  }

  /** `close_session_sync`: `false` for an id known to neither map;
      otherwise the agent and the cached info are dropped. */
  function CloseSessionSync(m: Manager, sessionId: string): (r: (Manager, bool))
    requires Valid(m.sessions)
    ensures Valid(r.0.sessions)
    ensures r.1 <==> sessionId in m.sessions.rows || sessionId in m.agents
    ensures !r.1 ==> r.0 == m
    ensures r.0.sessions.rows == m.sessions.rows - {sessionId}
    ensures r.0.agents == m.agents - {sessionId}
    ensures r.0.subscribers == m.subscribers
  {
    if sessionId !in m.sessions.rows && sessionId !in m.agents then (m, false)
    else (m.(sessions := Remove(m.sessions, sessionId), agents := m.agents - {sessionId}), true)
  }

  /** `prepare_followup`: the cached info is kept, reactivated and touched,
      and a new agent instance replaces any old one, even for a session
      without cached info. */
  function PrepareFollowup(m: Manager, sessionId: string, instance: nat, now: int): (r: Manager)
    requires Valid(m.sessions)
    ensures Valid(r.sessions)
    ensures r.agents == m.agents[sessionId := instance]
    ensures forall k :: k in r.sessions.rows <==> k in m.sessions.rows
    ensures forall k :: k in m.sessions.rows && k != sessionId ==> r.sessions.rows[k] == m.sessions.rows[k]
    ensures sessionId in m.sessions.rows ==>
      r.sessions.rows[sessionId] == m.sessions.rows[sessionId].(status := "active", lastActiveAt := now)
    ensures r.subscribers == m.subscribers
  {
    var sessions := if sessionId in m.sessions.rows
      then Put(m.sessions, sessionId, m.sessions.rows[sessionId].(status := "active", lastActiveAt := now))
      else m.sessions;
    m.(sessions := sessions, agents := m.agents[sessionId := instance])
  }

  /** A follow-up keeps everything the previous round saved, but the
      reactivated session no longer counts as finished until it ends again. */
  lemma FollowupKeepsHistory(m: Manager, sessionId: string, instance: nat, now: int)
    requires Valid(m.sessions) && sessionId in m.sessions.rows
    ensures var s := PrepareFollowup(m, sessionId, instance, now).sessions.rows[sessionId];
      && s.taskHistory == m.sessions.rows[sessionId].taskHistory
      && s.finalReport == m.sessions.rows[sessionId].finalReport
      && !HasHistory(s)
  {
  }

  // ------------------------------------------------------------ subscribers

  /** `subscribe`: a fresh queue is appended to the session's list. */
  function Subscribe(m: Manager, sessionId: string, queue: nat): (r: Manager)
    ensures sessionId in r.subscribers
    ensures r.subscribers[sessionId] == Subscribers(m, sessionId) + [queue]
    ensures forall k :: k in m.subscribers && k != sessionId ==> k in r.subscribers && r.subscribers[k] == m.subscribers[k]
    ensures SubscriberCount(r, sessionId) == SubscriberCount(m, sessionId) + 1
    ensures r.sessions == m.sessions && r.agents == m.agents
  {
    m.(subscribers := m.subscribers[sessionId := Subscribers(m, sessionId) + [queue]])
  }

  /** `self._subscribers.get(session_id, [])`. */
  function Subscribers(m: Manager, sessionId: string): seq<nat> {
    if sessionId in m.subscribers then m.subscribers[sessionId] else []
  }

  /** `get_subscriber_count`. */
  function SubscriberCount(m: Manager, sessionId: string): (n: nat)
    ensures n == |Subscribers(m, sessionId)|
    ensures sessionId !in m.subscribers ==> n == 0
  {
    |Subscribers(m, sessionId)|
  }

  /** `unsubscribe`: removes the queue; a list left empty is deleted with
      its key; an absent queue or session is a no-op. */
  function Unsubscribe(m: Manager, sessionId: string, queue: nat): (r: Manager)
    ensures queue !in Subscribers(m, sessionId) ==> r == m
    ensures queue in Subscribers(m, sessionId) ==>
      && Subscribers(r, sessionId) == RemoveFirst(Subscribers(m, sessionId), queue)
      && (sessionId in r.subscribers <==> |Subscribers(r, sessionId)| > 0)
    ensures forall k :: k != sessionId ==> Subscribers(r, k) == Subscribers(m, k)
    ensures r.sessions == m.sessions && r.agents == m.agents
  {
    if sessionId in m.subscribers && queue in m.subscribers[sessionId] then
      var rest := RemoveFirst(m.subscribers[sessionId], queue);
      if |rest| == 0 then m.(subscribers := m.subscribers - {sessionId})
      else m.(subscribers := m.subscribers[sessionId := rest])
    else m
  }

  /** What happens when an event is offered to one queue: it is accepted,
      dropped because the queue is full, or the queue is broken. */
  datatype PutOutcome = Accepted | QueueFull | QueueBroken

  /** The sequential removal the source performs: `remove` each failed
      queue once, in order. */
  function RemoveEach(qs: seq<nat>, failed: seq<nat>): seq<nat>
    decreases |failed|
  {
    if |failed| == 0 then qs else RemoveEach(RemoveFirst(qs, failed[0]), failed[1..])
  }

  /** `broadcast_event`: 0 for a session without a subscriber list.
      Otherwise each queue is offered the event; the count of accepting
      queues is returned, full queues stay subscribed, and broken queues are
      removed (the list is kept even when it becomes empty). */
  function BroadcastEvent(m: Manager, sessionId: string, put: nat -> PutOutcome): (r: (Manager, nat))
    ensures sessionId !in m.subscribers ==> r == (m, 0)
    ensures r.1 <= SubscriberCount(m, sessionId)
    ensures sessionId in m.subscribers ==>
      && r.1 == CountWhere(m.subscribers[sessionId], q => put(q) == Accepted)
      && sessionId in r.0.subscribers
      && r.0.subscribers[sessionId] == Filter(m.subscribers[sessionId], q => put(q) != QueueBroken)
    ensures forall k :: k != sessionId ==> Subscribers(r.0, k) == Subscribers(m, k)
    ensures r.0.sessions == m.sessions && r.0.agents == m.agents
  {
    if sessionId !in m.subscribers then (m, 0)
    else
      var qs := m.subscribers[sessionId];
      var failed := Filter(qs, q => put(q) == QueueBroken);
      RemovingFailedKeepsRest(qs, (q: nat) => put(q) == QueueBroken, (q: nat) => put(q) != QueueBroken);
      (m.(subscribers := m.subscribers[sessionId := RemoveEach(qs, failed)]),
       CountWhere(qs, q => put(q) == Accepted))
  }

  /** Removing every broken queue one occurrence at a time leaves exactly
      the queues that are not broken, in their order. */
  lemma {:induction false} RemovingFailedKeepsRest(qs: seq<nat>, bad: nat -> bool, good: nat -> bool)
    requires forall q :: good(q) == !bad(q)
    ensures RemoveEach(qs, Filter(qs, bad)) == Filter(qs, good)
    decreases |qs|
  {
    if |qs| > 0 {
      RemovingFailedKeepsRest(qs[1..], bad, good);
      if bad(qs[0]) {
        RemoveBrokenHead(qs, bad, good);
      } else {
        KeepHealthyHead(qs, bad, good);
      }
    }
  }

  lemma RemoveBrokenHead(qs: seq<nat>, bad: nat -> bool, good: nat -> bool)
    requires |qs| > 0 && bad(qs[0]) && !good(qs[0])
    ensures RemoveEach(qs, Filter(qs, bad)) == RemoveEach(qs[1..], Filter(qs[1..], bad))
    ensures Filter(qs, good) == Filter(qs[1..], good)
  {
    FilterCons(qs, bad);
    FilterCons(qs, good);
    var all := Filter(qs, bad);
    assert all[0] == qs[0] && all[1..] == Filter(qs[1..], bad);
  }

  lemma KeepHealthyHead(qs: seq<nat>, bad: nat -> bool, good: nat -> bool)
    requires |qs| > 0 && !bad(qs[0]) && good(qs[0])
    ensures RemoveEach(qs, Filter(qs, bad)) == [qs[0]] + RemoveEach(qs[1..], Filter(qs[1..], bad))
    ensures Filter(qs, good) == [qs[0]] + Filter(qs[1..], good)
  {
    var failed := Filter(qs[1..], bad);
    assert Filter(qs, bad) == failed by {
      FilterCons(qs, bad);
    }
    FilterCons(qs, good);
    assert qs[0] !in failed by {
      FilterMembership(qs[1..], bad, qs[0]);
    }
    RemoveEachSkipsHead(qs, failed);
  }

  lemma {:induction false} RemoveEachSkipsHead(qs: seq<nat>, failed: seq<nat>)
    requires |qs| > 0 && qs[0] !in failed
    ensures RemoveEach(qs, failed) == [qs[0]] + RemoveEach(qs[1..], failed)
    decreases |failed|
  {
    if |failed| > 0 {
      var next := RemoveFirst(qs, failed[0]);
      assert next == [qs[0]] + RemoveFirst(qs[1..], failed[0]);
      assert next[0] == qs[0] && next[1..] == RemoveFirst(qs[1..], failed[0]);
      RemoveEachSkipsHead(next, failed[1..]);
    }
  }
}
