/** The skill data model: a skill's metadata (the front matter of its
    SKILL.md), its instruction, its resource files, and the result of one
    execution. Pydantic's field constraints become the `ValidMetadata`
    predicate and the `NewMetadata` constructor that checks it. */
module SkillModels {
  import opened Util

  datatype TriggerType = Always | OnDemand | AutoDetect

  datatype ResourceType = Reference | Script | Template | Example | Asset

  /** The metadata fields the backend reads. Dependencies, package lists and
      the icon are carried by the source but read by nothing modelled here. */
  datatype Metadata = Metadata(
    name: string,
    description: string,
    version: string,
    author: string,
    tags: seq<string>,
    priority: int,
    requiresOs: seq<string>,
    requiresBins: seq<string>,
    requiresEnvs: seq<string>,
    triggerType: TriggerType,
    triggerKeywords: seq<string>,
    displayName: Option<string>,
    category: Option<string>)

  const MaxNameLength := 64
  const MaxDescriptionLength := 1024

  /** A character the name pattern `[a-z0-9-]` admits. */
  predicate NameChar(c: char) {
    'a' <= c <= 'z' || '0' <= c <= '9' || c == '-'
  }

  /** The name pattern `^[a-z0-9-]+$` (anchored at both ends) and the
      64-character bound. */
  predicate ValidName(name: string) {
    0 < |name| <= MaxNameLength && forall i :: 0 <= i < |name| ==> NameChar(name[i])
  }

  predicate ValidMetadata(m: Metadata) {
    ValidName(m.name) && |m.description| <= MaxDescriptionLength
  }

  /** The constraints a metadata record can fail; validation reports all of them. */
  datatype MetadataIssue = BadName | DescriptionTooLong

  /** `SkillMetadata(name=..., description=...)`: every optional field takes
      its default, and construction fails when a constraint does not hold. */
  function NewMetadata(name: string, description: string): (r: Result<Metadata, set<MetadataIssue>>)
    ensures r.Ok? <==> ValidName(name) && |description| <= MaxDescriptionLength
    ensures r.Ok? ==> ValidMetadata(r.value) && r.value.name == name && r.value.description == description
    ensures r.Ok? ==> r.value.version == "1.0.0" && r.value.author == "system" && r.value.priority == 100
    ensures r.Ok? ==> r.value.triggerType == AutoDetect && r.value.tags == [] && r.value.triggerKeywords == []
    ensures r.Ok? ==> r.value.displayName == None && r.value.category == None
    ensures r.Err? ==> (BadName in r.error <==> !ValidName(name))
    ensures r.Err? ==> (DescriptionTooLong in r.error <==> |description| > MaxDescriptionLength)
  {
    var issues := (if ValidName(name) then {} else {BadName})
                + (if |description| <= MaxDescriptionLength then {} else {DescriptionTooLong});
    if issues == {} then
      Ok(Metadata(name, description, "1.0.0", "system", [], 100, [], [], [], AutoDetect, [], None, None))
    else
      assert BadName in issues || DescriptionTooLong in issues;
      Err(issues)
  }

  // ------------------------------------------------------------ display name

  /** Python `str.title()` on ASCII text, given whether the previous
      character was a letter: a letter after a non-letter is upper-cased and
      every other letter lower-cased. */
  function TitleFrom(s: string, afterLetter: bool): (r: string)
    ensures |r| == |s|
    decreases |s|
  {
    if |s| == 0 then []
    else
      var c := s[0];
      var head := if !IsAsciiLetter(c) then c else if afterLetter then LowerChar(c) else UpperChar(c);
      [head] + TitleFrom(s[1..], IsAsciiLetter(c))
  }

  function Title(s: string): (r: string)
    ensures |r| == |s|
  {
    TitleFrom(s, false)
  }

  /** Python `s.replace(a, b)` for single characters. */
  function ReplaceChar(s: string, a: char, b: char): (r: string)
    ensures |r| == |s|
    ensures forall i :: 0 <= i < |s| ==> r[i] == (if s[i] == a then b else s[i])
  {
    seq(|s|, i requires 0 <= i < |s| => if s[i] == a then b else s[i])
  }

  /** `SkillMetadata.display`: the display name when it is set and
      non-empty, otherwise the name with hyphens turned into spaces and
      title-cased. */
  function Display(m: Metadata): (r: string)
    ensures Truthy(m.displayName) ==> r == m.displayName.value
    ensures !Truthy(m.displayName) ==> |r| == |m.name|
  {
    if Truthy(m.displayName) then m.displayName.value
    else Title(ReplaceChar(m.name, '-', ' '))
  }

  /** Title-casing only changes the case of letters: each character of the
      result lower-cases to the lower-cased input character, and a letter
      that starts a word (at the front or after a non-letter) is upper-case. */
  lemma {:induction false} TitleChangesOnlyCase(s: string, afterLetter: bool)
    ensures forall i :: 0 <= i < |s| ==> LowerChar(TitleFrom(s, afterLetter)[i]) == LowerChar(s[i])
    ensures forall i :: 0 <= i < |s| && IsAsciiLetter(s[i]) && (if i == 0 then !afterLetter else !IsAsciiLetter(s[i - 1]))
              ==> TitleFrom(s, afterLetter)[i] == UpperChar(s[i])
    ensures forall i :: 0 < i < |s| && IsAsciiLetter(s[i]) && IsAsciiLetter(s[i - 1])
              ==> TitleFrom(s, afterLetter)[i] == LowerChar(s[i])
    decreases |s|
  {
    if |s| > 0 {
      var rest := s[1..];
      TitleChangesOnlyCase(rest, IsAsciiLetter(s[0]));
      var t := TitleFrom(s, afterLetter);
      assert t[1..] == TitleFrom(rest, IsAsciiLetter(s[0]));
      forall i | 0 < i < |s|
        ensures t[i] == TitleFrom(rest, IsAsciiLetter(s[0]))[i - 1] && rest[i - 1] == s[i]
      {
      }
    }
  }

  /** The derived display name of a valid name reads back as the name:
      lower-casing it and turning spaces back into hyphens recovers the
      name, and every word of it starts with a capital letter. */
  lemma DisplayRoundTrip(m: Metadata)
    requires ValidName(m.name) && !Truthy(m.displayName)
    ensures ReplaceChar(Lower(Display(m)), ' ', '-') == m.name
    ensures forall i :: 0 <= i < |m.name| && 'a' <= m.name[i] <= 'z' && (i == 0 || m.name[i - 1] == '-')
              ==> Display(m)[i] == UpperChar(m.name[i])
  {
    var spaced := ReplaceChar(m.name, '-', ' ');
    TitleChangesOnlyCase(spaced, false);
    var back := ReplaceChar(Lower(Display(m)), ' ', '-');
    forall i | 0 <= i < |m.name| ensures back[i] == m.name[i] {
      assert NameChar(m.name[i]);
    }
  }

  // ----------------------------------------------------------------- skills

  datatype Resource = Resource(name: string, path: string, kind: ResourceType, content: Option<string>)

  /** One step of the workflow: the `step` and `action` entries default to
      empty text and `sub_steps` to no sub-steps. */
  datatype WorkflowStep = WorkflowStep(step: string, action: string, subSteps: seq<string>)

  /** One example: its `type` entry (only "code" is distinguished), language and content. */
  datatype ExampleEntry = ExampleEntry(kind: Option<string>, language: string, content: string)

  datatype Instruction = Instruction(
    rawContent: string,
    workflow: seq<WorkflowStep>,
    guidelines: seq<string>,
    examples: seq<ExampleEntry>,
    safetyChecks: seq<string>,
    successCriteria: seq<string>)

  datatype Skill = Skill(metadata: Metadata, instruction: Instruction, resources: seq<Resource>,
                         skillPath: Option<string>)
  {
    function Name(): string { metadata.name }
    function Description(): string { metadata.description }
  }

  /** `Skill.get_resource`: the first resource with the name. */
  function GetResource(s: Skill, name: string): (r: Option<Resource>)
    ensures r.None? <==> forall i :: 0 <= i < |s.resources| ==> s.resources[i].name != name
    ensures r.Some? ==> exists i :: 0 <= i < |s.resources| && s.resources[i] == r.value
                                    && r.value.name == name
                                    && forall j :: 0 <= j < i ==> s.resources[j].name != name
  {
    FirstNamed(s.resources, name)
  }

  function FirstNamed(rs: seq<Resource>, name: string): (r: Option<Resource>)
    ensures r.None? <==> forall i :: 0 <= i < |rs| ==> rs[i].name != name
    ensures r.Some? ==> exists i :: 0 <= i < |rs| && rs[i] == r.value && r.value.name == name
                                    && forall j :: 0 <= j < i ==> rs[j].name != name
  {
    if |rs| == 0 then None
    else if rs[0].name == name then Some(rs[0])
    else
      var r := FirstNamed(rs[1..], name);
      if r.Some? then
        var k :| 0 <= k < |rs[1..]| && rs[1..][k] == r.value && r.value.name == name
                 && forall j :: 0 <= j < k ==> rs[1..][j].name != name;
        assert rs[k + 1] == r.value && forall j :: 0 <= j < k + 1 ==> rs[j].name != name;
        r
      else r
  }

  predicate IsScript(r: Resource) { r.kind == Script }

  /** `Skill.get_scripts`: the script resources in their original order. */
  function GetScripts(s: Skill): (r: seq<Resource>)
    ensures forall i :: 0 <= i < |r| ==> r[i].kind == Script
  {
    Filter(s.resources, IsScript)
  }

  /** A resource is among the scripts exactly when it is a script of the skill. */
  lemma ScriptsAreTheScriptResources(s: Skill, x: Resource)
    ensures x in GetScripts(s) <==> x in s.resources && x.kind == Script
  {
    FilterMembership(s.resources, IsScript, x);
  }

  /** Adding a resource extends the script list by that resource when it
      is a script and leaves it unchanged otherwise: scripts keep the
      order of the resource list. */
  lemma ScriptsFollowResourceOrder(s: Skill, x: Resource)
    ensures GetScripts(s.(resources := s.resources + [x]))
            == GetScripts(s) + (if x.kind == Script then [x] else [])
  {
    FilterConcat(s.resources, [x], IsScript);
  }

  /** The function-calling schema of a skill: every property is named, and
      the required properties are among them. */
  datatype ToolDefinition = ToolDefinition(name: string, description: string,
                                           properties: seq<string>, required: seq<string>)

  const ToolProperties: seq<string> := ["task", "context", "options"]

  /** `Skill.to_tool_definition`: a function tool named after the skill that
      takes a task plus optional context and options, and requires only the task. */
  function ToToolDefinition(s: Skill): (r: ToolDefinition)
    ensures r.name == s.Name() && r.description == s.Description()
    ensures r.required == ["task"]
    ensures forall p :: p in r.required ==> p in r.properties
    ensures Distinct(r.properties)
  {
    ToolDefinition(s.Name(), s.Description(), ToolProperties, ["task"])
  }

  // --------------------------------------------------------------- results

  /** The sections of a prompt injection, each introduced by a fixed heading. */
  datatype Section = Workflow | Guidelines | SafetyChecks | SuccessCriteria | Examples | References

  /** One line-group of a prompt injection. The fixed headings and bullet
      decorations are not modelled; the parts keep the structure and every
      piece of variable text. */
  datatype PromptPart =
    | TitlePart(display: string)
    | DescriptionPart(description: string)
    | Heading(section: Section)
    | StepPart(number: string, action: string)
    | SubStepPart(subStep: string)
    | BulletPart(bullet: string)
    | CodeExamplePart(language: string, code: string)
    | TextExamplePart(example: string)
    | ResourcePart(resourceName: string, content: string)

  /** The value a result carries. Prompt and hybrid results are structured;
      how Python's `str()` renders them is a parameter of `ToMessage`. */
  datatype Payload =
    | NoResult
    | TextResult(text: string)
    | PromptResult(parts: seq<PromptPart>)
    | HybridResult(promptParts: seq<PromptPart>, scriptOutput: Payload)

  /** The error codes results carry. */
  datatype ErrorCode =
    | SKILL_NOT_FOUND | SKILL_NOT_ASSIGNED | INVALID_MODE
    | SCRIPT_NOT_FOUND | SCRIPT_FILE_NOT_FOUND | SCRIPT_TIMEOUT | SCRIPT_ERROR | SCRIPT_EXECUTION_ERROR

  datatype ExecResult = ExecResult(
    skillName: string,
    success: bool,
    result: Payload,
    summary: string,
    error: Option<string>,
    errorCode: Option<ErrorCode>)

  /** A failed result with the given error text and code; `summary` is empty
      and `result` absent. */
  function Failure(skillName: string, error: string, code: ErrorCode): (r: ExecResult)
    ensures !r.success && r.error == Some(error) && r.errorCode == Some(code) && r.skillName == skillName
  {
    ExecResult(skillName, false, NoResult, "", Some(error), Some(code))
  }

  // The fixed text around `to_message`'s skill name.
  const MessageHead := "[\U{6280}\U{80FD} "
  const DoneTail := " \U{6267}\U{884C}\U{5B8C}\U{6210}]\n"
  const FailedTail := " \U{6267}\U{884C}\U{5931}\U{8D25}]\n\U{9519}\U{8BEF}: "

  /** Python's `str()` of a result, with the rendering of prompt and hybrid
      payloads given. */
  function ShowPayload(p: Payload, show: Payload -> string): string {
    match p
    case NoResult => "None"
    case TextResult(t) => t
    case _ => show(p)
  }

  /** Python's `str()` of an optional error text. */
  function ShowError(e: Option<string>): string {
    if e.Some? then e.value else "None"
  }

  /** `SkillExecutionResult.to_message`. */
  function ToMessage(r: ExecResult, show: Payload -> string): (m: string)
    ensures r.success && r.summary != "" ==> m == MessageHead + r.skillName + DoneTail + r.summary
    ensures r.success && r.summary == "" ==> m == MessageHead + r.skillName + DoneTail + ShowPayload(r.result, show)
    ensures !r.success ==> m == MessageHead + r.skillName + FailedTail + ShowError(r.error)
  {
    if r.success then
      MessageHead + r.skillName + DoneTail + (if r.summary != "" then r.summary else ShowPayload(r.result, show))
    else
      MessageHead + r.skillName + FailedTail + ShowError(r.error)
  }

  /** A message can be read back: it names the skill right after the head,
      and the success and failure messages differ, so a reader can tell
      which it got and recover the body that follows the header. */
  lemma MessageNamesOutcome(r: ExecResult, show: Payload -> string)
    ensures StartsWith(ToMessage(r, show), MessageHead + r.skillName)
    ensures r.success ==> StartsWith(ToMessage(r, show)[|MessageHead + r.skillName|..], DoneTail)
    ensures !r.success ==> StartsWith(ToMessage(r, show)[|MessageHead + r.skillName|..], FailedTail)
    ensures !r.success ==> ToMessage(r, show)[|MessageHead + r.skillName + FailedTail|..] == ShowError(r.error)
    ensures r.success && r.summary != "" ==> ToMessage(r, show)[|MessageHead + r.skillName + DoneTail|..] == r.summary
  {
    var m := ToMessage(r, show);
    var h := MessageHead + r.skillName;
    if r.success {
      var body := if r.summary != "" then r.summary else ShowPayload(r.result, show);
      assert m == h + (DoneTail + body);
      assert m[|h|..] == DoneTail + body;
      assert m == (h + DoneTail) + body;
    } else {
      assert m == h + (FailedTail + ShowError(r.error));
      assert m[|h|..] == FailedTail + ShowError(r.error);
      assert m == (h + FailedTail) + ShowError(r.error);
    }
    assert m[..|h|] == h;
  }
}
