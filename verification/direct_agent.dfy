/** The direct-mode agent: one assistant that answers each task with the
    language model and may call the skills it holds as tools, without role
    emergence. The model's replies, the skills' outcomes, the generated
    identifiers and the JSON serialiser are inputs; the memory service is
    not modelled. */
module DirectAgent {
  import opened Util
  import opened CoreModels
  import opened Events
  import LlmProvider
  import SkillModels
  import SkillRegistry

  // ------------------------------------------------------------ script args

  /** A scalar of the model's JSON tool arguments. */
  datatype Scalar = TextValue(s: string) | IntValue(i: int) | BoolValue(b: bool) | NullValue

  /** Python truthiness. */
  predicate ScalarTruthy(v: Scalar) {
    match v
    case TextValue(s) => s != ""
    case IntValue(i) => i != 0
    case BoolValue(b) => b
    case NullValue => false
  }

  /** Python `str` of the value. */
  function ScalarText(v: Scalar): string {
    match v
    case TextValue(s) => s
    case IntValue(i) => IntToString(i)
    case BoolValue(b) => if b then "True" else "False"
    case NullValue => "None"
  }

  /** The decoded tool arguments: the `task` string when there is one, and
      the `options` dictionary (empty when it is absent or not a dictionary,
      which `_build_script_args` treats alike). */
  datatype FuncArgs = FuncArgs(task: Option<string>, options: map<string, Scalar>)

  function TaskOf(args: FuncArgs): string {
    args.task.GetOr("")
  }

  /** The value an option contributes: its text when it is truthy. */
  function OptionValue(options: map<string, Scalar>, key: string): (v: Option<string>)
    ensures v.Some? <==> key in options && ScalarTruthy(options[key])
    ensures v.Some? ==> v.value == ScalarText(options[key])
  {
    if key in options && ScalarTruthy(options[key]) then Some(ScalarText(options[key])) else None
  }

  /** A flag and its value, when the option is truthy. */
  function OptionFlag(options: map<string, Scalar>, key: string, flag: string): (r: seq<string>)
    ensures |r| == 0 || |r| == 2
  {
    match OptionValue(options, key)
    case Some(v) => [flag, v]
    case None => []
  }

  /** The web-search arguments before the default result count. */
  function SearchFlags(args: FuncArgs): (r: seq<string>)
    ensures |r| % 2 == 0 && |r| >= 2
  {
    ["--query", TaskOf(args)]
    + (OptionFlag(args.options, "type", "--type")
       + (OptionFlag(args.options, "max_results", "--max-results")
          + (OptionFlag(args.options, "region", "--region")
             + OptionFlag(args.options, "time_range", "--time-range"))))
  }

  const SearchSkill: string := "web-search"

  /** `_build_script_args`: the search script's flags for "web-search", eight
      results unless "--max-results" is already among the arguments; the
      bare task for any other skill, and nothing when the task is empty. */
  function BuildScriptArgs(skillName: string, args: FuncArgs): (r: Option<seq<string>>)
    ensures skillName == SearchSkill ==> r.Some? && |r.value| % 2 == 0 && |r.value| >= 2 && r.value[..2] == ["--query", TaskOf(args)]
    ensures skillName != SearchSkill ==> (r.Some? <==> TaskOf(args) != "")
    ensures skillName != SearchSkill && r.Some? ==> r.value == [TaskOf(args)]
  {
    if skillName == SearchSkill then
      var given := SearchFlags(args);
      Some(if "--max-results" in given then given else given + ["--max-results", "8"])
    else if TaskOf(args) != "" then Some([TaskOf(args)])
    else None
  }

  /** How the search script's parser reads a flag from flag/value pairs:
      the value after its last occurrence. */
  function ReadFlag(args: seq<string>, flag: string): Option<string>
    decreases |args|
  {
    if |args| < 2 then None
    else match ReadFlag(args[2..], flag)
      case Some(v) => Some(v)
      case None => if args[0] == flag then Some(args[1]) else None
  }

  /** The later of two readings: the second when it found the flag. */
  function Pick(earlier: Option<string>, later: Option<string>): Option<string> {
    if later.Some? then later else earlier
  }

  lemma {:induction false} ReadFlagConcat(a: seq<string>, b: seq<string>, flag: string)
    requires |a| % 2 == 0
    ensures ReadFlag(a + b, flag) == Pick(ReadFlag(a, flag), ReadFlag(b, flag))
    decreases |a|
  {
    if |a| >= 2 {
      assert (a + b)[2..] == a[2..] + b;
      ReadFlagConcat(a[2..], b, flag);
    } else {
      assert a + b == b;
    }
  }

  lemma ReadFlagPair(options: map<string, Scalar>, key: string, flag: string, wanted: string)
    ensures ReadFlag(OptionFlag(options, key, flag), wanted)
            == if flag == wanted then OptionValue(options, key) else None
  {
  }

  lemma ReadQuery(task: string, wanted: string)
    ensures ReadFlag(["--query", task], wanted) == if wanted == "--query" then Some(task) else None
  {
    assert ["--query", task][2..] == [];
  }

  /** A value shows among an option's arguments when the option is set and
      the value is its flag or its text. */
  lemma InOptionFlag(options: map<string, Scalar>, key: string, flag: string, x: string)
    ensures x in OptionFlag(options, key, flag) <==>
              OptionValue(options, key).Some? && (x == flag || x == OptionValue(options, key).value)
  {
  }

  /** What the parser reads from the search flags: the reading of the last
      part that carries the flag. */
  lemma SearchFlagsRead(args: FuncArgs, wanted: string)
    ensures ReadFlag(SearchFlags(args), wanted)
            == Pick(if wanted == "--query" then Some(TaskOf(args)) else None,
                    Pick(if wanted == "--type" then OptionValue(args.options, "type") else None,
                         Pick(if wanted == "--max-results" then OptionValue(args.options, "max_results") else None,
                              Pick(if wanted == "--region" then OptionValue(args.options, "region") else None,
                                   if wanted == "--time-range" then OptionValue(args.options, "time_range") else None))))
  {
    var o := args.options;
    var t := OptionFlag(o, "type", "--type");
    var m := OptionFlag(o, "max_results", "--max-results");
    var g := OptionFlag(o, "region", "--region");
    var tr := OptionFlag(o, "time_range", "--time-range");
    ReadFlagConcat(g, tr, wanted);
    ReadFlagConcat(m, g + tr, wanted);
    ReadFlagConcat(t, m + (g + tr), wanted);
    ReadFlagConcat(["--query", TaskOf(args)], t + (m + (g + tr)), wanted);
    ReadQuery(TaskOf(args), wanted);
    ReadFlagPair(o, "type", "--type", wanted);
    ReadFlagPair(o, "max_results", "--max-results", wanted);
    ReadFlagPair(o, "region", "--region", wanted);
    ReadFlagPair(o, "time_range", "--time-range", wanted);
  }

  /** An option value that happens to spell "--max-results". */
  predicate SpellsMaxResults(args: FuncArgs) {
    TaskOf(args) == "--max-results"
    || OptionValue(args.options, "type") == Some("--max-results")
    || OptionValue(args.options, "region") == Some("--max-results")
    || OptionValue(args.options, "time_range") == Some("--max-results")
  }

  /** The default count is appended exactly when no result count was given
      and no value spells its flag. */
  lemma DefaultCountAppended(args: FuncArgs)
    ensures "--max-results" in SearchFlags(args) <==>
              OptionValue(args.options, "max_results").Some? || SpellsMaxResults(args)
  {
    var o := args.options;
    InOptionFlag(o, "type", "--type", "--max-results");
    InOptionFlag(o, "max_results", "--max-results", "--max-results");
    InOptionFlag(o, "region", "--region", "--max-results");
    InOptionFlag(o, "time_range", "--time-range", "--max-results");
  }

  /** What the search script reads back from the arguments: the query is the
      task, each other flag is its truthy option, and the result count is
      the given one or else eight, unless some value spells the flag. */
  lemma SearchArgsRead(args: FuncArgs)
    ensures var r := BuildScriptArgs(SearchSkill, args).value;
      && ReadFlag(r, "--query") == Some(TaskOf(args))
      && ReadFlag(r, "--type") == OptionValue(args.options, "type")
      && ReadFlag(r, "--region") == OptionValue(args.options, "region")
      && ReadFlag(r, "--time-range") == OptionValue(args.options, "time_range")
      && ReadFlag(r, "--max-results") ==
           if OptionValue(args.options, "max_results").Some? then OptionValue(args.options, "max_results")
           else if SpellsMaxResults(args) then None
           else Some("8")
  {
    var given := SearchFlags(args);
    var tail: seq<string> := if "--max-results" in given then [] else ["--max-results", "8"];
    assert BuildScriptArgs(SearchSkill, args).value == given + tail;
    DefaultCountAppended(args);
    SearchFlagsRead(args, "--query");
    SearchFlagsRead(args, "--type");
    SearchFlagsRead(args, "--region");
    SearchFlagsRead(args, "--time-range");
    SearchFlagsRead(args, "--max-results");
    ReadFlagConcat(given, tail, "--query");
    ReadFlagConcat(given, tail, "--type");
    ReadFlagConcat(given, tail, "--region");
    ReadFlagConcat(given, tail, "--time-range");
    ReadFlagConcat(given, tail, "--max-results");
    assert ["--max-results", "8"][2..] == [];
  }

  // ------------------------------------------------------------- skill mode

  /** `_get_skill_mode`: "script" for a registered skill that has scripts. */
  function SkillMode(reg: SkillRegistry.Registry, name: string): (mode: string)
    ensures mode == "script" || mode == "prompt"
    ensures mode == "script" <==>
              SkillRegistry.Get(reg, name).Some? && |SkillModels.GetScripts(SkillRegistry.Get(reg, name).value)| > 0
  {
    match SkillRegistry.Get(reg, name)
    case Some(s) => if |SkillModels.GetScripts(s)| > 0 then "script" else "prompt"
    case None => "prompt"
  }

  /** `_get_skill_script`: the name of the skill's first script. */
  function SkillScript(reg: SkillRegistry.Registry, name: string): (script: Option<string>)
    ensures script.Some? ==> SkillRegistry.Get(reg, name).Some?
    ensures script.Some? ==> |SkillModels.GetScripts(SkillRegistry.Get(reg, name).value)| > 0
                             && script.value == SkillModels.GetScripts(SkillRegistry.Get(reg, name).value)[0].name
  {
    match SkillRegistry.Get(reg, name)
    case Some(s) => if |SkillModels.GetScripts(s)| > 0 then Some(SkillModels.GetScripts(s)[0].name) else None
    case None => None
  }

  /** A script is named exactly when the skill runs in script mode, and it
      is one of the skill's script resources. */
  lemma ModeMatchesScript(reg: SkillRegistry.Registry, name: string)
    ensures SkillScript(reg, name).Some? <==> SkillMode(reg, name) == "script"
    ensures SkillScript(reg, name).Some? ==>
              exists r :: r in SkillRegistry.Get(reg, name).value.resources && r.kind == SkillModels.Script
                          && r.name == SkillScript(reg, name).value
  {
    if SkillScript(reg, name).Some? {
      var s := SkillRegistry.Get(reg, name).value;
      var r := SkillModels.GetScripts(s)[0];
      SkillModels.ScriptsAreTheScriptResources(s, r);
    }
  }

  // ---------------------------------------------------------------- history

  const HistoryLimit: nat := 20
  const HistoryKept: nat := 16

  function UserTurn(task: string): LlmProvider.Message {
    LlmProvider.Plain("user", task)
  }

  function AssistantTurn(response: string): LlmProvider.Message {
    LlmProvider.Plain("assistant", response)
  }

  /** `h` is the end of `t`. */
  predicate IsSuffix<T(==)>(h: seq<T>, t: seq<T>) {
    |h| <= |t| && h == t[|t| - |h|..]
  }

  lemma SuffixExtends<T>(h: seq<T>, t: seq<T>, p: seq<T>)
    requires IsSuffix(h, t)
    ensures IsSuffix(h + p, t + p)
  {
    assert (t + p)[|t + p| - |h + p|..] == t[|t| - |h|..] + p;
  }

  lemma SuffixTransitive<T>(a: seq<T>, b: seq<T>, c: seq<T>)
    requires IsSuffix(a, b) && IsSuffix(b, c)
    ensures IsSuffix(a, c)
  {
    assert c[|c| - |a|..] == c[|c| - |b|..][|b| - |a|..];
  }

  lemma EvenAfterTurn(before: nat, after: nat)
    requires before % 2 == 0
    requires after == if before + 2 > HistoryLimit then HistoryKept else before + 2
    ensures after % 2 == 0
  {
  }

  /** A suffix of a suffix, extended alike, stays a suffix. */
  lemma SuffixStep<T>(h: seq<T>, h0: seq<T>, t0: seq<T>, p: seq<T>)
    requires IsSuffix(h0, t0) && IsSuffix(h, h0 + p)
    ensures IsSuffix(h, t0 + p)
  {
    SuffixExtends(h0, t0, p);
    SuffixTransitive(h, h0 + p, t0 + p);
  }

  /** The history update after a completed task: the exchange is appended
      and a history grown past twenty entries keeps its last sixteen. */
  function RecordTurn(history: seq<LlmProvider.Message>, task: string, response: string): (h: seq<LlmProvider.Message>)
    ensures |h| <= HistoryLimit
    ensures |h| == if |history| + 2 > HistoryLimit then HistoryKept else |history| + 2
    ensures IsSuffix(h, history + [UserTurn(task), AssistantTurn(response)])
  {
    var grown := history + [UserTurn(task), AssistantTurn(response)];
    if |grown| > HistoryLimit then grown[|grown| - HistoryKept..] else grown
  }

  /** One completed task: what was asked and what was answered. */
  datatype Exchange = Exchange(task: string, response: string)

  function Pair(e: Exchange): seq<LlmProvider.Message> {
    [UserTurn(e.task), AssistantTurn(e.response)]
  }

  /** Every exchange, oldest first, as history entries. */
  function Transcript(es: seq<Exchange>): (t: seq<LlmProvider.Message>)
    ensures |t| == 2 * |es|
    decreases |es|
  {
    if |es| == 0 then [] else Transcript(es[..|es| - 1]) + Pair(es[|es| - 1])
  }

  /** The history after a sequence of completed tasks. */
  function HistoryAfter(es: seq<Exchange>): seq<LlmProvider.Message>
    decreases |es|
  {
    if |es| == 0 then []
    else RecordTurn(HistoryAfter(es[..|es| - 1]), es[|es| - 1].task, es[|es| - 1].response)
  }

  /** The history is always the end of the full transcript, whole exchanges
      only, at most ten of them, and never fewer than the last eight (or all
      of them, when there were fewer); the newest exchange is its last pair. */
  lemma {:induction false} HistoryKeepsRecentTurns(es: seq<Exchange>)
    ensures var h := HistoryAfter(es);
      && |h| % 2 == 0
      && Min(2 * |es|, HistoryKept) <= |h| <= HistoryLimit
      && IsSuffix(h, Transcript(es))
    decreases |es|
  {
    if |es| > 0 {
      var init := es[..|es| - 1];
      var e := es[|es| - 1];
      HistoryKeepsRecentTurns(init);
      var h0 := HistoryAfter(init);
      assert HistoryAfter(es) == RecordTurn(h0, e.task, e.response);
      assert Transcript(es) == Transcript(init) + Pair(e);
      SuffixStep(HistoryAfter(es), h0, Transcript(init), Pair(e));
      EvenAfterTurn(|h0|, |HistoryAfter(es)|);
    }
  }

  // ---------------------------------------------------------------- a task

  /** What a skill execution ended with: the skill's result, or an exception
      raised while decoding the arguments or running the skill. */
  datatype Outcome =
    | Returned(success: bool, summary: Option<string>, result: Option<string>, error: Option<string>)
    | Threw(message: string)

  /** A tool call of a model reply together with how its execution ended. */
  datatype Executed = Executed(call: LlmProvider.ToolCall, outcome: Outcome)

  /** A non-streaming model reply in the tool loop: its text and its calls. */
  datatype Reply = Reply(content: string, calls: seq<Executed>)

  /** The dictionary reported as the tool result. */
  datatype Report = Report(agentId: string, agentName: string, skillName: string, success: bool,
                           summary: string, preview: string)

  const AgentName: string := "Assistant"
  const MaxToolRounds: nat := 5
  const PreviewLength: nat := 500
  /** "执行失败", "execution failed". */
  const FailureText: string := "\U{6267}\U{884C}\U{5931}\U{8D25}"
  /** "无结果", "no result". */
  const NoResultText: string := "\U{65E0}\U{7ED3}\U{679C}"
  /** "技能执行错误: ", "skill execution error: ". */
  const SkillErrorPrefix: string := "\U{6280}\U{80FD}\U{6267}\U{884C}\U{9519}\U{8BEF}: "
  /** A blank line, the cross mark and "错误: ", "error: ". */
  const RunErrorPrefix: string := "\n\n\U{274C} \U{9519}\U{8BEF}: "

  /** The tool's text: the result on success, else the error or a fixed
      failure text; "" stands for a missing result. */
  function ResultText(o: Outcome): string
    requires o.Returned?
  {
    if o.success then o.result.GetOr("")
    else if Truthy(o.error) then o.error.value
    else FailureText
  }

  function ReportOf(agentId: string, e: Executed): (r: Report)
    ensures r.agentId == agentId && r.skillName == e.call.name
    ensures r.success <==> e.outcome.Returned? && e.outcome.success
    ensures |r.preview| <= PreviewLength
  {
    match e.outcome
    case Returned(success, summary, _, _) =>
      Report(agentId, AgentName, e.call.name, success, summary.GetOr(""), Take(ResultText(e.outcome), PreviewLength))
    case Threw(m) => Report(agentId, AgentName, e.call.name, false, SkillErrorPrefix + m, "")
  }

  /** The events of one call: start, arguments, end and result. */
  function CallEvents(messageId: string, agentId: string, e: Executed, dumps: Report -> string): seq<Event> {
    [ToolCallStart(e.call.id, e.call.name, Some(messageId)), ToolCallArgs(e.call.id, e.call.arguments),
     ToolCallEnd(e.call.id), ToolCallResult(e.call.id, dumps(ReportOf(agentId, e)))]
  }

  function CallsEvents(messageId: string, agentId: string, calls: seq<Executed>, dumps: Report -> string): seq<Event>
    decreases |calls|
  {
    if |calls| == 0 then []
    else CallsEvents(messageId, agentId, calls[..|calls| - 1], dumps)
         + CallEvents(messageId, agentId, calls[|calls| - 1], dumps)
  }

  /** A round: the model's reasoning, when it said anything, then its calls. */
  function RoundEvents(messageId: string, agentId: string, r: Reply, dumps: Report -> string): seq<Event> {
    (if r.content != "" then [AgentThinking(agentId, AgentName, r.content)] else [])
    + CallsEvents(messageId, agentId, r.calls, dumps)
  }

  function RoundsEvents(messageId: string, agentId: string, rounds: seq<Reply>, dumps: Report -> string): seq<Event>
    decreases |rounds|
  {
    if |rounds| == 0 then []
    else RoundsEvents(messageId, agentId, rounds[..|rounds| - 1], dumps)
         + RoundEvents(messageId, agentId, rounds[|rounds| - 1], dumps)
  }

  /** The replies that call tools, from the first, stopping at the first
      that calls none. */
  function CallingPrefix(replies: seq<Reply>): (rs: seq<Reply>)
    ensures |rs| <= |replies| && rs == replies[..|rs|]
    ensures forall i :: 0 <= i < |rs| ==> |rs[i].calls| > 0
    ensures |rs| == |replies| || |replies[|rs|].calls| == 0
  {
    if |replies| == 0 || |replies[0].calls| == 0 then []
    else [replies[0]] + CallingPrefix(replies[1..])
  }

  /** The tool loop: nothing when no tools are offered, else at most five
      rounds, ending at the first reply without calls. */
  function ToolRounds(toolsOffered: bool, replies: seq<Reply>): (rs: seq<Reply>)
    ensures |rs| <= MaxToolRounds && |rs| <= |replies| && rs == replies[..|rs|]
    ensures !toolsOffered ==> rs == []
    ensures forall i :: 0 <= i < |rs| ==> |rs[i].calls| > 0
    ensures toolsOffered ==> |rs| == MaxToolRounds || |rs| == |replies| || |replies[|rs|].calls| == 0
  {
    if !toolsOffered then [] else CallingPrefix(Take(replies, MaxToolRounds))
  }

  /** The streamed answer, one content event per chunk. */
  function Deltas(messageId: string, chunks: seq<string>): (s: seq<Event>)
    ensures |s| == |chunks|
    ensures forall i :: 0 <= i < |s| ==> s[i] == TextMessageContent(messageId, chunks[i])
  {
    seq(|chunks|, i requires 0 <= i < |chunks| => TextMessageContent(messageId, chunks[i]))
  }

  function Concat(chunks: seq<string>): string
    decreases |chunks|
  {
    if |chunks| == 0 then "" else Concat(chunks[..|chunks| - 1]) + chunks[|chunks| - 1]
  }

  /** What `execute_task` yields between RUN_STARTED and its ending. */
  function Body(messageId: string, agentId: string, toolsOffered: bool, replies: seq<Reply>, chunks: seq<string>,
                dumps: Report -> string): seq<Event>
  {
    [NewTextMessageStart(messageId)]
    + (RoundsEvents(messageId, agentId, ToolRounds(toolsOffered, replies), dumps)
       + (Deltas(messageId, chunks) + [TextMessageEnd(messageId)]))
  }

  /** How the run ended: completed, or an exception after `emitted` events of
      the body. */
  datatype Ending = Ran | Raised(emitted: nat, message: string)

  /** One call of `execute_task`: the new task session's id, the run id, the
      model's tool-loop replies, the streamed chunks, and how it ended. */
  datatype Run = Run(taskSessionId: string, runId: string, replies: seq<Reply>, chunks: seq<string>, ending: Ending)

  /** The agent's state: its sessions and the conversation history. */
  datatype Agent = Agent(sessionId: string, agentId: string, sessions: map<string, TaskSession>,
                         history: seq<LlmProvider.Message>)

  /** A new agent, named after the first eight characters of its session. */
  function NewAgent(sessionId: string): (a: Agent)
    ensures a.agentId == "direct-" + Take(sessionId, 8)
    ensures a.sessions == map[] && a.history == []
  {
    Agent(sessionId, "direct-" + Take(sessionId, 8), map[], [])
  }

  /** The history stays within its bound. */
  predicate ValidAgent(a: Agent) {
    |a.history| <= HistoryLimit
  }

  function MessageId(runId: string): string {
    "direct-" + runId
  }

  /** The events of a run, as the client receives them. */
  function RunEvents(a: Agent, run: Run, toolsOffered: bool, dumps: Report -> string): (r: seq<Event>)
    ensures |r| >= 1 && r[0] == RunStarted(run.taskSessionId, run.runId)
    ensures var body := Body(MessageId(run.runId), a.agentId, toolsOffered, run.replies, run.chunks, dumps);
      run.ending.Ran? ==> |r| == |body| + 2 && r[1..|r| - 1] == body
    ensures var body := Body(MessageId(run.runId), a.agentId, toolsOffered, run.replies, run.chunks, dumps);
      run.ending.Raised? ==> |r| == 4 + Min(run.ending.emitted, |body|) && r[1..|r| - 3] == body[..|r| - 4]
  {
    var mid := MessageId(run.runId);
    var body := Body(mid, a.agentId, toolsOffered, run.replies, run.chunks, dumps);
    var part := match run.ending case Ran => body case Raised(k, _) => Take(body, k);
    var tail := match run.ending
      case Ran => [RunFinished(run.taskSessionId, run.runId)]
      case Raised(_, msg) => [TextMessageContent(mid, RunErrorPrefix + msg), TextMessageEnd(mid), NewRunError(msg)];
    Bracketed(RunStarted(run.taskSessionId, run.runId), part, tail);
    [RunStarted(run.taskSessionId, run.runId)] + part + tail
  }

  /** The agent after a run: the task session is recorded as completed with
      the streamed answer as its report, or as failed; only a completed run
      extends the history. */
  function AfterRun(a: Agent, task: string, run: Run): (b: Agent)
    ensures b.sessionId == a.sessionId && b.agentId == a.agentId
    ensures b.sessions.Keys == a.sessions.Keys + {run.taskSessionId}
    ensures ValidAgent(a) ==> ValidAgent(b)
    ensures b.sessions[run.taskSessionId].id == run.taskSessionId && b.sessions[run.taskSessionId].task == task
    ensures b.sessions[run.taskSessionId].status == if run.ending.Ran? then Completed else Failed
    ensures run.ending.Raised? ==> b.history == a.history && b.sessions[run.taskSessionId].finalReport.None?
  {
    match run.ending
    case Ran =>
      var answer := Concat(run.chunks);
      a.(sessions := a.sessions[run.taskSessionId := TaskSession(run.taskSessionId, task, Completed, Some(answer))],
         history := RecordTurn(a.history, task, answer))
    case Raised(_, _) =>
      a.(sessions := a.sessions[run.taskSessionId := TaskSession(run.taskSessionId, task, Failed, None)])
  }

  /** `execute_task`. */
  function ExecuteTask(a: Agent, task: string, run: Run, toolsOffered: bool, dumps: Report -> string): (r: (Agent, seq<Event>))
    ensures r.0 == AfterRun(a, task, run) && r.1 == RunEvents(a, run, toolsOffered, dumps)
  {
    (AfterRun(a, task, run), RunEvents(a, run, toolsOffered, dumps))
  }

  // --------------------------------------------------------- stream shape

  predicate IsRunEvent(e: Event) {
    e.RunStarted? || e.RunFinished? || e.RunError?
  }

  predicate NoRunEvents(s: seq<Event>) {
    forall i :: 0 <= i < |s| ==> !IsRunEvent(s[i])
  }

  lemma NoRunEventsConcat(a: seq<Event>, b: seq<Event>)
    requires NoRunEvents(a) && NoRunEvents(b)
    ensures NoRunEvents(a + b)
  {
    forall i | 0 <= i < |a + b| ensures !IsRunEvent((a + b)[i]) {
      if i >= |a| {
        assert (a + b)[i] == b[i - |a|];
      }
    }
  }

  lemma {:induction false} CallsEventsNoRun(messageId: string, agentId: string, calls: seq<Executed>, dumps: Report -> string)
    ensures NoRunEvents(CallsEvents(messageId, agentId, calls, dumps))
    decreases |calls|
  {
    if |calls| > 0 {
      CallsEventsNoRun(messageId, agentId, calls[..|calls| - 1], dumps);
      NoRunEventsConcat(CallsEvents(messageId, agentId, calls[..|calls| - 1], dumps),
                        CallEvents(messageId, agentId, calls[|calls| - 1], dumps));
    }
  }

  lemma {:induction false} RoundsEventsNoRun(messageId: string, agentId: string, rounds: seq<Reply>, dumps: Report -> string)
    ensures NoRunEvents(RoundsEvents(messageId, agentId, rounds, dumps))
    decreases |rounds|
  {
    if |rounds| > 0 {
      var r := rounds[|rounds| - 1];
      RoundsEventsNoRun(messageId, agentId, rounds[..|rounds| - 1], dumps);
      CallsEventsNoRun(messageId, agentId, r.calls, dumps);
      NoRunEventsConcat(if r.content != "" then [AgentThinking(agentId, AgentName, r.content)] else [],
                        CallsEvents(messageId, agentId, r.calls, dumps));
      NoRunEventsConcat(RoundsEvents(messageId, agentId, rounds[..|rounds| - 1], dumps),
                        RoundEvents(messageId, agentId, r, dumps));
    }
  }

  lemma BodyNoRun(messageId: string, agentId: string, toolsOffered: bool, replies: seq<Reply>, chunks: seq<string>,
                  dumps: Report -> string)
    ensures NoRunEvents(Body(messageId, agentId, toolsOffered, replies, chunks, dumps))
  {
    var rounds := RoundsEvents(messageId, agentId, ToolRounds(toolsOffered, replies), dumps);
    RoundsEventsNoRun(messageId, agentId, ToolRounds(toolsOffered, replies), dumps);
    NoRunEventsConcat(Deltas(messageId, chunks), [TextMessageEnd(messageId)]);
    NoRunEventsConcat(rounds, Deltas(messageId, chunks) + [TextMessageEnd(messageId)]);
    NoRunEventsConcat([NewTextMessageStart(messageId)], rounds + (Deltas(messageId, chunks) + [TextMessageEnd(messageId)]));
  }

  /** Every run starts with RUN_STARTED and the answer message's start, and
      ends by closing that message and then with RUN_FINISHED or, after an
      exception, RUN_ERROR; no other run event comes in between. */
  lemma RunShape(a: Agent, run: Run, toolsOffered: bool, dumps: Report -> string)
    ensures var s := RunEvents(a, run, toolsOffered, dumps);
      var mid := MessageId(run.runId);
      && |s| >= 3
      && s[0] == RunStarted(run.taskSessionId, run.runId)
      && (run.ending.Ran? ==> s[1] == TextMessageStart(mid, "assistant")
                              && s[|s| - 1] == RunFinished(run.taskSessionId, run.runId))
      && (run.ending.Raised? ==> s[|s| - 1] == NewRunError(run.ending.message))
      && s[|s| - 2] == TextMessageEnd(mid)
      && (forall i :: 1 <= i < |s| - 1 ==> !IsRunEvent(s[i]))
  {
    if run.ending.Ran? {
      RanShape(a, run, toolsOffered, dumps);
    } else {
      RaisedShape(a, run, toolsOffered, dumps);
    }
  }

  lemma RanShape(a: Agent, run: Run, toolsOffered: bool, dumps: Report -> string)
    requires run.ending.Ran?
    ensures var s := RunEvents(a, run, toolsOffered, dumps);
      var mid := MessageId(run.runId);
      && |s| >= 3
      && s[0] == RunStarted(run.taskSessionId, run.runId)
      && s[1] == TextMessageStart(mid, "assistant")
      && s[|s| - 1] == RunFinished(run.taskSessionId, run.runId)
      && s[|s| - 2] == TextMessageEnd(mid)
      && (forall i :: 1 <= i < |s| - 1 ==> !IsRunEvent(s[i]))
  {
    var mid := MessageId(run.runId);
    var body := Body(mid, a.agentId, toolsOffered, run.replies, run.chunks, dumps);
    BodyNoRun(mid, a.agentId, toolsOffered, run.replies, run.chunks, dumps);
    BodyEnds(mid, a.agentId, toolsOffered, run.replies, run.chunks, dumps);
    assert RunEvents(a, run, toolsOffered, dumps) == [RunStarted(run.taskSessionId, run.runId)] + body + [RunFinished(run.taskSessionId, run.runId)];
    FramedNoRun(RunStarted(run.taskSessionId, run.runId), body, RunFinished(run.taskSessionId, run.runId));
  }

  lemma RaisedShape(a: Agent, run: Run, toolsOffered: bool, dumps: Report -> string)
    requires run.ending.Raised?
    ensures var s := RunEvents(a, run, toolsOffered, dumps);
      var mid := MessageId(run.runId);
      && |s| >= 3
      && s[0] == RunStarted(run.taskSessionId, run.runId)
      && s[|s| - 1] == NewRunError(run.ending.message)
      && s[|s| - 2] == TextMessageEnd(mid)
      && (forall i :: 1 <= i < |s| - 1 ==> !IsRunEvent(s[i]))
  {
    var mid := MessageId(run.runId);
    var msg := run.ending.message;
    var body := Body(mid, a.agentId, toolsOffered, run.replies, run.chunks, dumps);
    BodyNoRun(mid, a.agentId, toolsOffered, run.replies, run.chunks, dumps);
    var t := Take(body, run.ending.emitted);
    var tail := [TextMessageContent(mid, RunErrorPrefix + msg), TextMessageEnd(mid)];
    RaisedEventsSplit(a, run, toolsOffered, dumps);
    assert NoRunEvents(t + tail) by {
      assert forall i :: 0 <= i < |t| ==> t[i] == body[i];
      NoRunEventsConcat(t, tail);
    }
    FramedNoRun(RunStarted(run.taskSessionId, run.runId), t + tail, NewRunError(msg));
    assert (t + tail)[|t + tail| - 1] == TextMessageEnd(mid);
  }

  /** A failed run's events: the start, the events before the failure with
      the error text and the message end, then the error. */
  lemma RaisedEventsSplit(a: Agent, run: Run, toolsOffered: bool, dumps: Report -> string)
    requires run.ending.Raised?
    ensures var mid := MessageId(run.runId);
      var body := Body(mid, a.agentId, toolsOffered, run.replies, run.chunks, dumps);
      var tail := [TextMessageContent(mid, RunErrorPrefix + run.ending.message), TextMessageEnd(mid)];
      RunEvents(a, run, toolsOffered, dumps)
      == [RunStarted(run.taskSessionId, run.runId)] + (Take(body, run.ending.emitted) + tail) + [NewRunError(run.ending.message)]
  {
    var mid := MessageId(run.runId);
    var body := Body(mid, a.agentId, toolsOffered, run.replies, run.chunks, dumps);
    var msg := run.ending.message;
    var part := Take(body, run.ending.emitted);
    var c, e, n := TextMessageContent(mid, RunErrorPrefix + msg), TextMessageEnd(mid), NewRunError(msg);
    assert [RunStarted(run.taskSessionId, run.runId)] + part + [c, e, n]
        == [RunStarted(run.taskSessionId, run.runId)] + (part + [c, e]) + [n];
  }

  lemma BodyEnds(messageId: string, agentId: string, toolsOffered: bool, replies: seq<Reply>, chunks: seq<string>,
                 dumps: Report -> string)
    ensures var body := Body(messageId, agentId, toolsOffered, replies, chunks, dumps);
            |body| >= 2 && body[0] == TextMessageStart(messageId, "assistant")
            && body[|body| - 1] == TextMessageEnd(messageId)
  {
  }

  /** A run's events between its first and last hold no run event. */
  lemma FramedNoRun(first: Event, s: seq<Event>, last: Event)
    requires NoRunEvents(s)
    ensures var f := [first] + s + [last];
            && |f| == |s| + 2 && f[0] == first && f[|f| - 1] == last
            && (forall i :: 1 <= i < |f| - 1 ==> f[i] == s[i - 1])
            && (forall i :: 1 <= i < |f| - 1 ==> !IsRunEvent(f[i]))
  {
    var f := [first] + s + [last];
    forall i | 1 <= i < |f| - 1 ensures f[i] == s[i - 1] && !IsRunEvent(f[i]) {
      assert f[i] == s[i - 1];
    }
  }

  /** An exception before the answer message was opened still closes it: the
      client sees content and an end for a message that never started. */
  lemma EarlyFailureClosesUnopenedMessage(a: Agent, run: Run, toolsOffered: bool, dumps: Report -> string)
    requires run.ending.Raised? && run.ending.emitted == 0
    ensures var mid := MessageId(run.runId);
      RunEvents(a, run, toolsOffered, dumps)
      == [RunStarted(run.taskSessionId, run.runId), TextMessageContent(mid, RunErrorPrefix + run.ending.message),
          TextMessageEnd(mid), NewRunError(run.ending.message)]
  {
  }

  // ------------------------------------------------------------ tool calls

  predicate IsToolEvent(e: Event) {
    e.ToolCallStart? || e.ToolCallArgs? || e.ToolCallEnd? || e.ToolCallResult?
  }

  predicate IsToolStart(e: Event) {
    e.ToolCallStart?
  }

  /** Every tool call start is followed by its arguments, its end and its
      result, all carrying the start's id. */
  predicate Grouped(s: seq<Event>) {
    forall i :: 0 <= i < |s| && s[i].ToolCallStart? ==>
      && i + 3 < |s|
      && s[i + 1].ToolCallArgs? && s[i + 1].toolCallId == s[i].toolCallId
      && s[i + 2] == ToolCallEnd(s[i].toolCallId)
      && s[i + 3].ToolCallResult? && s[i + 3].toolCallId == s[i].toolCallId
  }

  /** Tool events come four to a call. */
  predicate Quadruples(s: seq<Event>) {
    CountWhere(s, IsToolEvent) == 4 * CountWhere(s, IsToolStart)
  }

  lemma GroupedConcat(a: seq<Event>, b: seq<Event>)
    requires Grouped(a) && Grouped(b)
    ensures Grouped(a + b)
  {
    var s := a + b;
    forall i | 0 <= i < |s| && s[i].ToolCallStart?
      ensures i + 3 < |s|
      ensures s[i + 1].ToolCallArgs? && s[i + 1].toolCallId == s[i].toolCallId
      ensures s[i + 2] == ToolCallEnd(s[i].toolCallId)
      ensures s[i + 3].ToolCallResult? && s[i + 3].toolCallId == s[i].toolCallId
    {
      if i < |a| {
        assert s[i] == a[i];
        assert s[i + 1] == a[i + 1] && s[i + 2] == a[i + 2] && s[i + 3] == a[i + 3];
      } else {
        assert s[i] == b[i - |a|];
        assert s[i + 1] == b[i + 1 - |a|] && s[i + 2] == b[i + 2 - |a|] && s[i + 3] == b[i + 3 - |a|];
      }
    }
  }

  lemma QuadruplesConcat(a: seq<Event>, b: seq<Event>)
    requires Quadruples(a) && Quadruples(b)
    ensures Quadruples(a + b)
  {
    CountWhereConcat(a, b, IsToolEvent);
    CountWhereConcat(a, b, IsToolStart);
  }

  /** A sequence without tool events is trivially well formed. */
  lemma NoToolEvents(s: seq<Event>)
    requires forall i :: 0 <= i < |s| ==> !IsToolEvent(s[i])
    ensures Grouped(s) && Quadruples(s) && CountWhere(s, IsToolStart) == 0
  {
    CountWhereNone(s, IsToolEvent);
    CountWhereNone(s, IsToolStart);
  }

  /** Tool events grouped by call, `n` calls in all. */
  predicate ToolsPaired(s: seq<Event>, n: nat) {
    Grouped(s) && Quadruples(s) && CountWhere(s, IsToolStart) == n
  }

  lemma ToolsPairedConcat(a: seq<Event>, b: seq<Event>, m: nat, n: nat)
    requires ToolsPaired(a, m) && ToolsPaired(b, n)
    ensures ToolsPaired(a + b, m + n)
  {
    GroupedConcat(a, b);
    QuadruplesConcat(a, b);
    CountWhereConcat(a, b, IsToolStart);
  }

  /** One call's four events pair up. */
  lemma CallGrouped(messageId: string, agentId: string, c: Executed, dumps: Report -> string)
    ensures ToolsPaired(CallEvents(messageId, agentId, c, dumps), 1)
  {
    var last := CallEvents(messageId, agentId, c, dumps);
    CountWhereAll(last, IsToolEvent);
    CountWhereConcat(last[..1], last[1..], IsToolStart);
    CountWhereAll(last[..1], IsToolStart);
    CountWhereNone(last[1..], IsToolStart);
    assert last == last[..1] + last[1..];
  }

  lemma {:induction false} CallsEventsGrouped(messageId: string, agentId: string, calls: seq<Executed>, dumps: Report -> string)
    ensures var s := CallsEvents(messageId, agentId, calls, dumps);
      Grouped(s) && Quadruples(s) && CountWhere(s, IsToolStart) == |calls|
    decreases |calls|
  {
    if |calls| > 0 {
      var init := CallsEvents(messageId, agentId, calls[..|calls| - 1], dumps);
      var last := CallEvents(messageId, agentId, calls[|calls| - 1], dumps);
      CallsEventsGrouped(messageId, agentId, calls[..|calls| - 1], dumps);
      CallGrouped(messageId, agentId, calls[|calls| - 1], dumps);
      ToolsPairedConcat(init, last, |calls| - 1, 1);
    }
  }

  /** The number of calls of the rounds. */
  function TotalCalls(rounds: seq<Reply>): nat
    decreases |rounds|
  {
    if |rounds| == 0 then 0 else TotalCalls(rounds[..|rounds| - 1]) + |rounds[|rounds| - 1].calls|
  }

  lemma {:induction false} RoundsEventsGrouped(messageId: string, agentId: string, rounds: seq<Reply>, dumps: Report -> string)
    ensures var s := RoundsEvents(messageId, agentId, rounds, dumps);
      Grouped(s) && Quadruples(s) && CountWhere(s, IsToolStart) == TotalCalls(rounds)
    decreases |rounds|
  {
    if |rounds| > 0 {
      var r := rounds[|rounds| - 1];
      var init := rounds[..|rounds| - 1];
      RoundsEventsGrouped(messageId, agentId, init, dumps);
      RoundGrouped(messageId, agentId, r, dumps);
      ToolsPairedConcat(RoundsEvents(messageId, agentId, init, dumps), RoundEvents(messageId, agentId, r, dumps),
                        TotalCalls(init), |r.calls|);
    }
  }

  /** One round's events pair up its calls. */
  lemma RoundGrouped(messageId: string, agentId: string, r: Reply, dumps: Report -> string)
    ensures ToolsPaired(RoundEvents(messageId, agentId, r, dumps), |r.calls|)
  {
    var thinking: seq<Event> := if r.content != "" then [AgentThinking(agentId, AgentName, r.content)] else [];
    CallsEventsGrouped(messageId, agentId, r.calls, dumps);
    NoToolEvents(thinking);
    ToolsPairedConcat(thinking, CallsEvents(messageId, agentId, r.calls, dumps), 0, |r.calls|);
  }

  /** In a completed run every tool call shows as start, arguments, end and
      result with one id, nothing else is a tool event, and there is one
      start per call of the rounds the loop ran; without tools there are
      none. */
  lemma ToolCallEvents(a: Agent, run: Run, toolsOffered: bool, dumps: Report -> string)
    requires run.ending.Ran?
    ensures var s := RunEvents(a, run, toolsOffered, dumps);
      && Grouped(s) && Quadruples(s)
      && CountWhere(s, IsToolStart) == TotalCalls(ToolRounds(toolsOffered, run.replies))
      && (!toolsOffered ==> CountWhere(s, IsToolEvent) == 0)
  {
    var mid := MessageId(run.runId);
    var rs := ToolRounds(toolsOffered, run.replies);
    var rounds := RoundsEvents(mid, a.agentId, rs, dumps);
    var tail := Deltas(mid, run.chunks) + [TextMessageEnd(mid), RunFinished(run.taskSessionId, run.runId)];
    var head := [RunStarted(run.taskSessionId, run.runId), NewTextMessageStart(mid)];
    RanEvents(a, run, toolsOffered, dumps);
    assert RunEvents(a, run, toolsOffered, dumps) == (head + rounds) + tail;
    RoundsEventsGrouped(mid, a.agentId, rs, dumps);
    NoToolEvents(head);
    NoToolEvents(tail);
    ToolsPairedConcat(head, rounds, 0, TotalCalls(rs));
    ToolsPairedConcat(head + rounds, tail, TotalCalls(rs), 0);
  }

  // --------------------------------------------------------- the answer text

  /** The text a client assembles for a message from its content events. */
  function TextOf(s: seq<Event>, messageId: string): string
    decreases |s|
  {
    if |s| == 0 then ""
    else
      var e := s[|s| - 1];
      TextOf(s[..|s| - 1], messageId)
      + (if e.TextMessageContent? && e.messageId == messageId then e.delta else "")
  }

  lemma {:induction false} TextOfConcat(a: seq<Event>, b: seq<Event>, messageId: string)
    ensures TextOf(a + b, messageId) == TextOf(a, messageId) + TextOf(b, messageId)
    decreases |b|
  {
    if |b| > 0 {
      assert (a + b)[..|a + b| - 1] == a + b[..|b| - 1];
      TextOfConcat(a, b[..|b| - 1], messageId);
    } else {
      assert a + b == a;
    }
  }

  lemma {:induction false} DeltasText(messageId: string, chunks: seq<string>)
    ensures TextOf(Deltas(messageId, chunks), messageId) == Concat(chunks)
    decreases |chunks|
  {
    if |chunks| > 0 {
      DeltasText(messageId, chunks[..|chunks| - 1]);
      assert Deltas(messageId, chunks)[..|chunks| - 1] == Deltas(messageId, chunks[..|chunks| - 1]);
    }
  }

  /** Events other than content events add nothing to a message's text. */
  lemma {:induction false} TextOfNoContent(s: seq<Event>, messageId: string)
    requires forall i :: 0 <= i < |s| ==> !s[i].TextMessageContent?
    ensures TextOf(s, messageId) == ""
    decreases |s|
  {
    if |s| > 0 {
      TextOfNoContent(s[..|s| - 1], messageId);
    }
  }

  lemma {:induction false} CallsEventsNoContent(messageId: string, agentId: string, calls: seq<Executed>, dumps: Report -> string)
    ensures forall i :: 0 <= i < |CallsEvents(messageId, agentId, calls, dumps)| ==>
              IsToolEvent(CallsEvents(messageId, agentId, calls, dumps)[i])
    decreases |calls|
  {
    if |calls| > 0 {
      CallsEventsNoContent(messageId, agentId, calls[..|calls| - 1], dumps);
      var a := CallsEvents(messageId, agentId, calls[..|calls| - 1], dumps);
      var b := CallEvents(messageId, agentId, calls[|calls| - 1], dumps);
      forall i | 0 <= i < |a + b| ensures IsToolEvent((a + b)[i]) {
        if i >= |a| {
          assert (a + b)[i] == b[i - |a|];
        }
      }
    }
  }

  lemma {:induction false} RoundsEventsNoContent(messageId: string, agentId: string, rounds: seq<Reply>, dumps: Report -> string)
    ensures forall i :: 0 <= i < |RoundsEvents(messageId, agentId, rounds, dumps)| ==>
              !RoundsEvents(messageId, agentId, rounds, dumps)[i].TextMessageContent?
    decreases |rounds|
  {
    if |rounds| > 0 {
      var r := rounds[|rounds| - 1];
      RoundsEventsNoContent(messageId, agentId, rounds[..|rounds| - 1], dumps);
      CallsEventsNoContent(messageId, agentId, r.calls, dumps);
      var a := RoundsEvents(messageId, agentId, rounds[..|rounds| - 1], dumps);
      var t: seq<Event> := if r.content != "" then [AgentThinking(agentId, AgentName, r.content)] else [];
      var c := CallsEvents(messageId, agentId, r.calls, dumps);
      assert RoundsEvents(messageId, agentId, rounds, dumps) == a + (t + c);
      forall i | 0 <= i < |a + (t + c)| ensures !(a + (t + c))[i].TextMessageContent? {
        if i >= |a| + |t| {
          assert (a + (t + c))[i] == c[i - |a| - |t|];
        } else if i >= |a| {
          assert (a + (t + c))[i] == t[i - |a|];
        } else {
          assert (a + (t + c))[i] == a[i];
        }
      }
    }
  }

  /** A completed run's events, cut where the answer's content begins and
      ends. */
  lemma RanEvents(a: Agent, run: Run, toolsOffered: bool, dumps: Report -> string)
    requires run.ending.Ran?
    ensures var mid := MessageId(run.runId);
      RunEvents(a, run, toolsOffered, dumps)
      == ([RunStarted(run.taskSessionId, run.runId), NewTextMessageStart(mid)]
          + RoundsEvents(mid, a.agentId, ToolRounds(toolsOffered, run.replies), dumps))
         + Deltas(mid, run.chunks)
         + [TextMessageEnd(mid), RunFinished(run.taskSessionId, run.runId)]
  {
  }

  /** The answer message's text in a completed run is the streamed answer;
      the reasoning shown during the tool rounds is not part of it. */
  lemma RanText(a: Agent, run: Run, toolsOffered: bool, dumps: Report -> string)
    requires run.ending.Ran?
    ensures TextOf(RunEvents(a, run, toolsOffered, dumps), MessageId(run.runId)) == Concat(run.chunks)
  {
    var mid := MessageId(run.runId);
    var rounds := RoundsEvents(mid, a.agentId, ToolRounds(toolsOffered, run.replies), dumps);
    var start: seq<Event> := [RunStarted(run.taskSessionId, run.runId), NewTextMessageStart(mid)];
    var deltas := Deltas(mid, run.chunks);
    var tail: seq<Event> := [TextMessageEnd(mid), RunFinished(run.taskSessionId, run.runId)];
    RanEvents(a, run, toolsOffered, dumps);
    RoundsEventsNoContent(mid, a.agentId, ToolRounds(toolsOffered, run.replies), dumps);
    TextOfNoContent(rounds, mid);
    TextOfNoContent(start, mid);
    TextOfNoContent(tail, mid);
    TextOfConcat(start, rounds, mid);
    DeltasText(mid, run.chunks);
    TextOfConcat(start + rounds, deltas, mid);
    TextOfConcat(start + rounds + deltas, tail, mid);
  }

  /** The answer message's text as the client assembles it is what a
      completed run records as the session's report and as the assistant
      turn of the history. */
  lemma AnswerIsRecorded(a: Agent, task: string, run: Run, toolsOffered: bool, dumps: Report -> string)
    requires run.ending.Ran?
    ensures var b := AfterRun(a, task, run);
      var text := TextOf(RunEvents(a, run, toolsOffered, dumps), MessageId(run.runId));
      && b.sessions[run.taskSessionId].finalReport == Some(text)
      && b.history[|b.history| - 1] == AssistantTurn(text)
  {
    RanText(a, run, toolsOffered, dumps);
    var b := AfterRun(a, task, run);
    var grown := a.history + [UserTurn(task), AssistantTurn(Concat(run.chunks))];
    assert b.history == grown[|grown| - |b.history|..];
    assert b.history[|b.history| - 1] == grown[|grown| - 1];
  }

  /** A failed run's events, cut around the error text. */
  lemma RaisedEvents(a: Agent, run: Run, toolsOffered: bool, dumps: Report -> string)
    requires run.ending.Raised?
    ensures var mid := MessageId(run.runId);
      var msg := run.ending.message;
      RunEvents(a, run, toolsOffered, dumps)
      == ([RunStarted(run.taskSessionId, run.runId)]
          + Take(Body(mid, a.agentId, toolsOffered, run.replies, run.chunks, dumps), run.ending.emitted))
         + [TextMessageContent(mid, RunErrorPrefix + msg)]
         + [TextMessageEnd(mid), NewRunError(msg)]
  {
  }

  /** Content followed only by non-content events ends the message's text. */
  lemma TextEndsWithLastContent(head: seq<Event>, messageId: string, text: string, tail: seq<Event>)
    requires forall i :: 0 <= i < |tail| ==> !tail[i].TextMessageContent?
    ensures EndsWith(TextOf(head + [TextMessageContent(messageId, text)] + tail, messageId), text)
  {
    var error := [TextMessageContent(messageId, text)];
    TextOfConcat(head, error, messageId);
    TextOfConcat(head + error, tail, messageId);
    TextOfNoContent(tail, messageId);
    assert TextOf(error, messageId) == text by {
      assert error[..0] == [];
    }
    var t := TextOf(head, messageId) + text;
    assert t[|t| - |text|..] == text;
  }

  /** After an exception the answer message's text ends with the error. */
  lemma ErrorEndsAnswer(a: Agent, run: Run, toolsOffered: bool, dumps: Report -> string)
    requires run.ending.Raised?
    ensures EndsWith(TextOf(RunEvents(a, run, toolsOffered, dumps), MessageId(run.runId)), RunErrorPrefix + run.ending.message)
  {
    var mid := MessageId(run.runId);
    RaisedEvents(a, run, toolsOffered, dumps);
    TextEndsWithLastContent([RunStarted(run.taskSessionId, run.runId)]
                            + Take(Body(mid, a.agentId, toolsOffered, run.replies, run.chunks, dumps), run.ending.emitted),
                            mid, RunErrorPrefix + run.ending.message, [TextMessageEnd(mid), NewRunError(run.ending.message)]);
  }

  // ---------------------------------------------------------- session state

  /** The dictionary `get_session_state` returns; timestamps are left out. */
  datatype SessionState = SessionState(id: string, task: string, status: string, plan: Option<string>,
                                       subagents: map<string, string>, finalReport: Option<string>)

  /** `get_session_state`: `None` for an unknown id. */
  function GetSessionState(a: Agent, id: string): (r: Option<SessionState>)
    ensures r.None? <==> id !in a.sessions
    ensures r.Some? ==> r.value.id == a.sessions[id].id && r.value.status == a.sessions[id].status.Value()
    ensures r.Some? ==> r.value.task == a.sessions[id].task
    ensures r.Some? ==> r.value.plan.None? && r.value.subagents == map[]
    ensures r.Some? ==> r.value.finalReport == a.sessions[id].finalReport
  {
    if id !in a.sessions then None
    else
      var s := a.sessions[id];
      Some(SessionState(s.id, s.task, s.status.Value(), None, map[], s.finalReport))
  }

  /** The agent after a sequence of runs. */
  function AfterRuns(a: Agent, tasks: seq<string>, runs: seq<Run>): (b: Agent)
    requires |tasks| == |runs|
    decreases |runs|
  {
    if |runs| == 0 then a
    else AfterRun(AfterRuns(a, tasks[..|runs| - 1], runs[..|runs| - 1]), tasks[|runs| - 1], runs[|runs| - 1])
  }

  function RunIds(runs: seq<Run>): set<string> {
    set i | 0 <= i < |runs| :: runs[i].taskSessionId
  }

  lemma RunIdsSnoc(runs: seq<Run>)
    requires |runs| > 0
    ensures RunIds(runs) == RunIds(runs[..|runs| - 1]) + {runs[|runs| - 1].taskSessionId}
  {
    var k := |runs| - 1;
    forall id | id in RunIds(runs) ensures id in RunIds(runs[..k]) + {runs[k].taskSessionId} {
      var i :| 0 <= i < |runs| && runs[i].taskSessionId == id;
      if i < k {
        assert runs[..k][i].taskSessionId == id;
      }
    }
    forall id | id in RunIds(runs[..k]) ensures id in RunIds(runs) {
      var i :| 0 <= i < k && runs[..k][i].taskSessionId == id;
      assert runs[i].taskSessionId == id;
    }
  }

  /** Runs add exactly their own task sessions, each completed or failed,
      and keep the history within bounds. */
  lemma {:induction false} AfterRunsSessions(a: Agent, tasks: seq<string>, runs: seq<Run>)
    requires |tasks| == |runs| && ValidAgent(a)
    ensures var b := AfterRuns(a, tasks, runs);
      && ValidAgent(b)
      && b.sessions.Keys == a.sessions.Keys + RunIds(runs)
      && forall id :: id in b.sessions && id !in a.sessions ==> b.sessions[id].status in {Completed, Failed}
    decreases |runs|
  {
    if |runs| > 0 {
      var k := |runs| - 1;
      AfterRunsSessions(a, tasks[..k], runs[..k]);
      RunIdsSnoc(runs);
    }
  }

  /** A new agent knows the state of exactly the sessions its runs created,
      each reported completed or failed as its run ended. */
  lemma SessionStatesAfterRuns(sessionId: string, tasks: seq<string>, runs: seq<Run>, id: string)
    requires |tasks| == |runs|
    ensures var b := AfterRuns(NewAgent(sessionId), tasks, runs);
      && (GetSessionState(b, id).Some? <==> exists i :: 0 <= i < |runs| && runs[i].taskSessionId == id)
      && (GetSessionState(b, id).Some? ==> GetSessionState(b, id).value.status in {"completed", "failed"})
  {
    var b := AfterRuns(NewAgent(sessionId), tasks, runs);
    AfterRunsSessions(NewAgent(sessionId), tasks, runs);
    assert id in b.sessions <==> id in RunIds(runs);
    if id in b.sessions {
      EndedStatusValue(b.sessions[id].status);
    }
  }

  lemma EndedStatusValue(status: AgentStatus)
    requires status in {Completed, Failed}
    ensures status.Value() in {"completed", "failed"}
  {
  }

  /** `get_instance_info`'s turn count: the whole user/assistant pairs in
      the history, never more than ten. */
  function ConversationTurns(a: Agent): (n: nat)
    requires ValidAgent(a)
    ensures n <= HistoryLimit / 2
    ensures 2 * n <= |a.history| <= 2 * n + 1
  {
    |a.history| / 2
  }

  /** The turn count after `k` completed tasks, counted independently of
      the history: it grows by one per task up to ten; the eleventh task
      trims the history to eight turns, and from there it cycles through
      eight, nine and ten. */
  function TurnsAfter(k: nat): nat {
    if k <= HistoryLimit / 2 then k else HistoryKept / 2 + (k - 11) % 3
  }

  lemma {:induction false} HistoryLength(es: seq<Exchange>)
    ensures |HistoryAfter(es)| == 2 * TurnsAfter(|es|)
    decreases |es|
  {
    if |es| > 0 {
      var k := |es|;
      var init := es[..k - 1];
      HistoryLength(init);
      var h0 := HistoryAfter(init);
      assert HistoryAfter(es) == RecordTurn(h0, es[k - 1].task, es[k - 1].response);
      TurnsStep(k, |h0|, |HistoryAfter(es)|);
    }
  }

  /** One more task moves the turn count on by one step of `TurnsAfter`. */
  lemma TurnsStep(k: nat, before: nat, after: nat)
    requires k >= 1 && before == 2 * TurnsAfter(k - 1)
    requires after == if before + 2 > HistoryLimit then HistoryKept else before + 2
    ensures after == 2 * TurnsAfter(k)
  {
    if k >= 12 {
      assert TurnsAfter(k) == if TurnsAfter(k - 1) == 10 then 8 else TurnsAfter(k - 1) + 1 by {
        TurnsCycle(k);
      }
    }
  }

  lemma TurnsCycle(k: nat)
    requires k >= 12
    ensures TurnsAfter(k) == if TurnsAfter(k - 1) == 10 then 8 else TurnsAfter(k - 1) + 1
  {
  }

  /** An agent whose history is that of its completed tasks reports the
      number of turns those tasks leave: all of them up to ten, and then
      between eight and ten. */
  lemma TurnsOfCompletedTasks(a: Agent, es: seq<Exchange>)
    requires a.history == HistoryAfter(es)
    ensures ValidAgent(a)
    ensures ConversationTurns(a) == TurnsAfter(|es|)
    ensures |es| <= HistoryLimit / 2 ==> ConversationTurns(a) == |es|
    ensures |es| > HistoryLimit / 2 ==> HistoryKept / 2 <= ConversationTurns(a) <= HistoryLimit / 2
  {
    HistoryLength(es);
  }

  /** `cleanup`: sessions and history are dropped, so no state is known. */
  function Cleanup(a: Agent): (b: Agent)
    ensures forall id :: GetSessionState(b, id).None?
    ensures b.history == [] && b.agentId == a.agentId
  {
    a.(sessions := map[], history := [])
  }
}
