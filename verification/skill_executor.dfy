/** Skill execution: the prompt injection a skill's instruction becomes,
    the dispatch of `SkillExecutor.execute` over its three modes with the
    execution history it keeps, and the per-agent skill set in front of it.
    Running a script is a subprocess; its outcome is a parameter, and only
    the lookup before it and the shaping of its result are modelled. */
module SkillExecutor {
  import opened Util
  import opened OrderedTable
  import opened SkillModels
  import opened SkillRegistry

  /** A keyword-argument value as far as the executor inspects it. */
  datatype Arg = Flag(flag: bool) | Text(text: string) | Items(items: seq<string>)

  predicate ArgTruthy(a: Arg) {
    match a
    case Flag(b) => b
    case Text(t) => t != ""
    case Items(xs) => |xs| > 0
  }

  type Kwargs = map<string, Arg>

  /** `kwargs.get(key, False)` read as a condition. */
  predicate Flagged(kwargs: Kwargs, key: string) {
    key in kwargs && ArgTruthy(kwargs[key])
  }

  // ------------------------------------------------------- prompt injection

  const MaxExamples := 3
  const MaxResourceChars := 2000
  /** The marker appended to a cut resource. */
  const TruncationMarker := "\n...[\U{5185}\U{5BB9}\U{5DF2}\U{622A}\U{65AD}]"

  /** A loaded resource as it enters the prompt: its first 2000 characters,
      followed by the marker when there were more. */
  function Truncate(content: string): (r: string)
    ensures |content| <= MaxResourceChars ==> r == content
    ensures |r| <= MaxResourceChars + |TruncationMarker|
    ensures StartsWith(r, Take(content, MaxResourceChars))
    ensures |content| > MaxResourceChars ==> EndsWith(r, TruncationMarker)
  {
    if |content| > MaxResourceChars then content[..MaxResourceChars] + TruncationMarker else content
  }

  /** The workflow lines: each step's number and action, followed by a line
      per sub-step, step by step. */
  function StepParts(steps: seq<WorkflowStep>): (ps: seq<PromptPart>)
    ensures |steps| > 0 ==> |ps| > 0 && ps[0] == StepPart(steps[0].step, steps[0].action)
    ensures forall i :: 0 <= i < |ps| ==> ps[i].StepPart? || ps[i].SubStepPart?
    ensures forall j :: 0 <= j < |steps| ==> StepPart(steps[j].step, steps[j].action) in ps
    ensures forall j, k :: 0 <= j < |steps| && 0 <= k < |steps[j].subSteps| ==> SubStepPart(steps[j].subSteps[k]) in ps
    decreases |steps|
  {
    if |steps| == 0 then []
    else
      var st := steps[0];
      var subs := seq(|st.subSteps|, i requires 0 <= i < |st.subSteps| => SubStepPart(st.subSteps[i]));
      var rest := StepParts(steps[1..]);
      assert forall j :: 1 <= j < |steps| ==> steps[j] == steps[1..][j - 1];
      assert forall k :: 0 <= k < |st.subSteps| ==> subs[k] == SubStepPart(st.subSteps[k]);
      [StepPart(st.step, st.action)] + subs + rest
  }

  /** One step's lines: its number and action, then one line per sub-step in order. */
  lemma StepPartsOfOne(st: WorkflowStep)
    ensures |StepParts([st])| == 1 + |st.subSteps|
    ensures StepParts([st])[0] == StepPart(st.step, st.action)
    ensures forall k :: 0 <= k < |st.subSteps| ==> StepParts([st])[1 + k] == SubStepPart(st.subSteps[k])
  {
    assert [st][1..] == [];
  }

  predicate IsStepPart(p: PromptPart) {
    p.StepPart?
  }

  /** The workflow of two step lists is the workflow of each in turn. */
  lemma {:induction false} StepPartsAppend(a: seq<WorkflowStep>, b: seq<WorkflowStep>)
    ensures StepParts(a + b) == StepParts(a) + StepParts(b)
    decreases |a|
  {
    if |a| == 0 {
      assert a + b == b;
    } else {
      assert (a + b)[0] == a[0];
      assert (a + b)[1..] == a[1..] + b;
      StepPartsAppend(a[1..], b);
    }
  }

  /** There is one numbered line per step. */
  lemma {:induction false} StepPartsCount(steps: seq<WorkflowStep>)
    ensures CountWhere(StepParts(steps), IsStepPart) == |steps|
    decreases |steps|
  {
    if |steps| > 0 {
      var st := steps[0];
      var subs := seq(|st.subSteps|, i requires 0 <= i < |st.subSteps| => SubStepPart(st.subSteps[i]));
      StepPartsCount(steps[1..]);
      assert StepParts(steps) == [StepPart(st.step, st.action)] + subs + StepParts(steps[1..]);
      CountWhereConcat([StepPart(st.step, st.action)] + subs, StepParts(steps[1..]), IsStepPart);
      CountWhereConcat([StepPart(st.step, st.action)], subs, IsStepPart);
      CountWhereNone(subs, IsStepPart);
      CountWhereAll([StepPart(st.step, st.action)], IsStepPart);
    }
  }

  function Bullets(items: seq<string>): (ps: seq<PromptPart>)
    ensures |ps| == |items|
    ensures forall i :: 0 <= i < |ps| ==> ps[i] == BulletPart(items[i])
  {
    seq(|items|, i requires 0 <= i < |items| => BulletPart(items[i]))
  }

  predicate IsExamplePart(p: PromptPart) {
    p.CodeExamplePart? || p.TextExamplePart?
  }

  /** An example renders as a fenced code block when its type is "code",
      and as a bullet of its content otherwise. */
  function ExamplePart(e: ExampleEntry): (p: PromptPart)
    ensures IsExamplePart(p)
  {
    if e.kind == Some("code") then CodeExamplePart(e.language, e.content) else TextExamplePart(e.content)
  }

  function ExampleParts(examples: seq<ExampleEntry>): (ps: seq<PromptPart>)
    ensures |ps| == Min(MaxExamples, |examples|)
    ensures forall i :: 0 <= i < |ps| ==> ps[i] == ExamplePart(examples[i])
  {
    var shown := Take(examples, MaxExamples);
    seq(|shown|, i requires 0 <= i < |shown| => ExamplePart(shown[i]))
  }

  /** The loaded resources in dictionary order, each cut to size. */
  function ResourceParts(loaded: Table<string>): (ps: seq<PromptPart>)
    requires Valid(loaded)
    ensures |ps| == |loaded.keys|
    ensures forall i :: 0 <= i < |ps| ==> ps[i] == ResourcePart(loaded.keys[i], Truncate(loaded.rows[loaded.keys[i]]))
  {
    seq(|loaded.keys|, i requires 0 <= i < |loaded.keys| && Valid(loaded) =>
      ResourcePart(loaded.keys[i], Truncate(loaded.rows[loaded.keys[i]])))
  }

  /** A section: its heading and body when the source's condition holds, else nothing. */
  function SectionParts(section: Section, present: bool, body: seq<PromptPart>): seq<PromptPart> {
    if present then [Heading(section)] + body else []
  }

  /** The instruction sections, in the order the source emits them. */
  function InstructionParts(ins: Instruction): seq<PromptPart> {
    SectionParts(Workflow, |ins.workflow| > 0, StepParts(ins.workflow))
    + SectionParts(Guidelines, |ins.guidelines| > 0, Bullets(ins.guidelines))
    + SectionParts(SafetyChecks, |ins.safetyChecks| > 0, Bullets(ins.safetyChecks))
    + SectionParts(SuccessCriteria, |ins.successCriteria| > 0, Bullets(ins.successCriteria))
    + SectionParts(Examples, |ins.examples| > 0, ExampleParts(ins.examples))
  }

  /** `generate_prompt_injection(skill_name, context, include_resources)`:
      nothing for an unknown skill; otherwise the title and description,
      the instruction sections, and the context's loaded resources when
      they are asked for and there are any. `loaded` is the context's
      resources (empty when there is no context). */
  function PromptInjection(reg: Registry, name: string, loaded: Table<string>, includeResources: bool)
    : (ps: seq<PromptPart>)
    requires Valid(loaded)
    ensures Get(reg, name).None? ==> ps == []
    ensures Get(reg, name).Some? ==> |ps| >= 2 && ps[0] == TitlePart(Display(reg.skills.rows[name].metadata))
                                     && ps[1] == DescriptionPart(reg.skills.rows[name].Description())
  {
    match Get(reg, name)
    case None => []
    case Some(s) =>
      [TitlePart(Display(s.metadata)), DescriptionPart(s.Description())]
      + InstructionParts(s.instruction)
      + SectionParts(References, includeResources && |loaded.keys| > 0, ResourceParts(loaded))
  }

  predicate IsResourcePart(p: PromptPart) {
    p.ResourcePart?
  }

  function CountExamples(ps: seq<PromptPart>): nat {
    CountWhere(ps, IsExamplePart)
  }

  function CountResources(ps: seq<PromptPart>): nat {
    CountWhere(ps, IsResourcePart)
  }

  lemma SectionCounts(section: Section, present: bool, body: seq<PromptPart>, p: PromptPart -> bool)
    requires !p(Heading(section))
    requires forall i :: 0 <= i < |body| ==> p(body[i])
    ensures CountWhere(SectionParts(section, present, body), p) == if present then |body| else 0
  {
    if present {
      CountWhereConcat([Heading(section)], body, p);
      CountWhereAll(body, p);
    }
  }

  /** A section whose entries are none of one kind counts none. */
  lemma SectionCountsNone(section: Section, present: bool, body: seq<PromptPart>, p: PromptPart -> bool)
    requires !p(Heading(section))
    requires forall i :: 0 <= i < |body| ==> !p(body[i])
    ensures CountWhere(SectionParts(section, present, body), p) == 0
  {
    if present {
      CountWhereConcat([Heading(section)], body, p);
      CountWhereNone(body, p);
    }
  }

  /** The workflow, guidelines, safety checks and success criteria. */
  function PlainSections(ins: Instruction): seq<PromptPart> {
    SectionParts(Workflow, |ins.workflow| > 0, StepParts(ins.workflow))
    + SectionParts(Guidelines, |ins.guidelines| > 0, Bullets(ins.guidelines))
    + SectionParts(SafetyChecks, |ins.safetyChecks| > 0, Bullets(ins.safetyChecks))
    + SectionParts(SuccessCriteria, |ins.successCriteria| > 0, Bullets(ins.successCriteria))
  }

  /** The sections before the examples hold neither examples nor resources. */
  lemma PlainSectionsCount(ins: Instruction, p: PromptPart -> bool)
    requires forall part: PromptPart :: p(part) ==> IsExamplePart(part) || IsResourcePart(part)
    ensures CountWhere(PlainSections(ins), p) == 0
  {
    var wf := SectionParts(Workflow, |ins.workflow| > 0, StepParts(ins.workflow));
    var gl := SectionParts(Guidelines, |ins.guidelines| > 0, Bullets(ins.guidelines));
    var sc := SectionParts(SafetyChecks, |ins.safetyChecks| > 0, Bullets(ins.safetyChecks));
    var su := SectionParts(SuccessCriteria, |ins.successCriteria| > 0, Bullets(ins.successCriteria));
    SectionCountsNone(Workflow, |ins.workflow| > 0, StepParts(ins.workflow), p);
    BulletSectionCountsNone(Guidelines, ins.guidelines, p);
    BulletSectionCountsNone(SafetyChecks, ins.safetyChecks, p);
    BulletSectionCountsNone(SuccessCriteria, ins.successCriteria, p);
    CountWhere3(wf, gl, sc, p);
    CountWhereConcat(wf + gl + sc, su, p);
  }

  lemma BulletSectionCountsNone(section: Section, items: seq<string>, p: PromptPart -> bool)
    requires forall part: PromptPart :: p(part) ==> IsExamplePart(part) || IsResourcePart(part)
    ensures CountWhere(SectionParts(section, |items| > 0, Bullets(items)), p) == 0
  {
    SectionCountsNone(section, |items| > 0, Bullets(items), p);
  }

  /** The instruction sections hold no resource entries and the first
      three examples. */
  lemma InstructionCounts(ins: Instruction)
    ensures CountExamples(InstructionParts(ins)) == Min(MaxExamples, |ins.examples|)
    ensures CountResources(InstructionParts(ins)) == 0
  {
    var ex := SectionParts(Examples, |ins.examples| > 0, ExampleParts(ins.examples));
    assert InstructionParts(ins) == PlainSections(ins) + ex;
    PlainSectionsCount(ins, IsExamplePart);
    PlainSectionsCount(ins, IsResourcePart);
    SectionCounts(Examples, |ins.examples| > 0, ExampleParts(ins.examples), IsExamplePart);
    SectionCountsNone(Examples, |ins.examples| > 0, ExampleParts(ins.examples), IsResourcePart);
    CountWhereConcat(PlainSections(ins), ex, IsExamplePart);
    CountWhereConcat(PlainSections(ins), ex, IsResourcePart);
  }

  /** The prompt of a known skill shows its first three examples, no more,
      and one resource entry per loaded resource exactly when resources
      are asked for. */
  lemma PromptBounds(reg: Registry, name: string, loaded: Table<string>, includeResources: bool)
    requires Valid(loaded) && name in reg.skills.rows
    ensures var ps := PromptInjection(reg, name, loaded, includeResources);
            CountExamples(ps) == Min(MaxExamples, |reg.skills.rows[name].instruction.examples|)
            && CountResources(ps) == (if includeResources then |loaded.keys| else 0)
  {
    PromptExampleCount(reg, name, loaded, includeResources);
    PromptResourceCount(reg, name, loaded, includeResources);
  }

  /** The three parts of a known skill's prompt. */
  function PromptHead(s: Skill): seq<PromptPart> {
    [TitlePart(Display(s.metadata)), DescriptionPart(s.Description())]
  }

  function ResourceSection(loaded: Table<string>, includeResources: bool): seq<PromptPart>
    requires Valid(loaded)
  {
    SectionParts(References, includeResources && |loaded.keys| > 0, ResourceParts(loaded))
  }

  /** Whether the source emits `section` for an instruction and a context
      holding `loaded`. */
  predicate SectionShown(ins: Instruction, section: Section, loaded: Table<string>, includeResources: bool) {
    match section
    case Workflow => |ins.workflow| > 0
    case Guidelines => |ins.guidelines| > 0
    case SafetyChecks => |ins.safetyChecks| > 0
    case SuccessCriteria => |ins.successCriteria| > 0
    case Examples => |ins.examples| > 0
    case References => includeResources && |loaded.keys| > 0
  }

  /** A section's heading appears exactly when it is that section and it is shown. */
  lemma HeadingInSection(shown: Section, present: bool, body: seq<PromptPart>, section: Section)
    requires forall i :: 0 <= i < |body| ==> !body[i].Heading?
    ensures Heading(section) in SectionParts(shown, present, body) <==> present && shown == section
  {
    if present {
      assert SectionParts(shown, present, body) == [Heading(shown)] + body;
    }
  }

  /** A known skill's prompt carries a section's heading exactly when the
      instruction has entries for it, or, for the references, when
      resources are asked for and some are loaded; an unknown skill's
      prompt is empty. */
  lemma PromptSections(reg: Registry, name: string, loaded: Table<string>, includeResources: bool, section: Section)
    requires Valid(loaded)
    ensures Heading(section) in PromptInjection(reg, name, loaded, includeResources)
            <==> name in reg.skills.rows
                 && SectionShown(reg.skills.rows[name].instruction, section, loaded, includeResources)
  {
    if name in reg.skills.rows {
      var s := reg.skills.rows[name];
      var head, body, rs := PromptHead(s), InstructionParts(s.instruction), ResourceSection(loaded, includeResources);
      PromptShape(reg, name, loaded, includeResources);
      InstructionHeadings(s.instruction, loaded, includeResources, section);
      HeadingInSection(References, includeResources && |loaded.keys| > 0, ResourceParts(loaded), section);
      assert Heading(section) !in head;
      assert Heading(section) in head + body + rs <==> Heading(section) in body || Heading(section) in rs;
    }
  }

  /** The instruction sections carry a heading exactly for the sections
      the instruction has entries for. */
  lemma InstructionHeadings(ins: Instruction, loaded: Table<string>, includeResources: bool, section: Section)
    ensures Heading(section) in InstructionParts(ins)
            <==> section != References && SectionShown(ins, section, loaded, includeResources)
  {
    var w := SectionParts(Workflow, |ins.workflow| > 0, StepParts(ins.workflow));
    var g := SectionParts(Guidelines, |ins.guidelines| > 0, Bullets(ins.guidelines));
    var c := SectionParts(SafetyChecks, |ins.safetyChecks| > 0, Bullets(ins.safetyChecks));
    var k := SectionParts(SuccessCriteria, |ins.successCriteria| > 0, Bullets(ins.successCriteria));
    var e := SectionParts(Examples, |ins.examples| > 0, ExampleParts(ins.examples));
    StepPartsHaveNoHeading(ins.workflow);
    BulletsHaveNoHeading(ins.guidelines);
    BulletsHaveNoHeading(ins.safetyChecks);
    BulletsHaveNoHeading(ins.successCriteria);
    ExamplePartsHaveNoHeading(ins.examples);
    HeadingInSection(Workflow, |ins.workflow| > 0, StepParts(ins.workflow), section);
    HeadingInSection(Guidelines, |ins.guidelines| > 0, Bullets(ins.guidelines), section);
    HeadingInSection(SafetyChecks, |ins.safetyChecks| > 0, Bullets(ins.safetyChecks), section);
    HeadingInSection(SuccessCriteria, |ins.successCriteria| > 0, Bullets(ins.successCriteria), section);
    HeadingInSection(Examples, |ins.examples| > 0, ExampleParts(ins.examples), section);
    var x := Heading(section);
    assert x in InstructionParts(ins) <==> x in w || x in g || x in c || x in k || x in e;
  }

  lemma StepPartsHaveNoHeading(steps: seq<WorkflowStep>)
    ensures forall i :: 0 <= i < |StepParts(steps)| ==> !StepParts(steps)[i].Heading?
  {
  }

  lemma ExamplePartsHaveNoHeading(examples: seq<ExampleEntry>)
    ensures forall i :: 0 <= i < |ExampleParts(examples)| ==> !ExampleParts(examples)[i].Heading?
  {
  }

  lemma BulletsHaveNoHeading(items: seq<string>)
    ensures forall i :: 0 <= i < |Bullets(items)| ==> !Bullets(items)[i].Heading?
  {
  }

  /** The prompt of a known skill split into its head, its instruction
      sections and its resource section. */
  lemma PromptShape(reg: Registry, name: string, loaded: Table<string>, includeResources: bool)
    requires Valid(loaded) && name in reg.skills.rows
    ensures PromptInjection(reg, name, loaded, includeResources)
            == PromptHead(reg.skills.rows[name]) + InstructionParts(reg.skills.rows[name].instruction)
               + ResourceSection(loaded, includeResources)
  {
  }

  lemma PromptExampleCount(reg: Registry, name: string, loaded: Table<string>, includeResources: bool)
    requires Valid(loaded) && name in reg.skills.rows
    ensures CountExamples(PromptInjection(reg, name, loaded, includeResources))
            == Min(MaxExamples, |reg.skills.rows[name].instruction.examples|)
  {
    var s := reg.skills.rows[name];
    var head := PromptHead(s);
    var body := InstructionParts(s.instruction);
    var rs := ResourceSection(loaded, includeResources);
    PromptShape(reg, name, loaded, includeResources);
    CountWhere3(head, body, rs, IsExamplePart);
    InstructionCounts(s.instruction);
    CountWhereNone(head, IsExamplePart);
    SectionCountsNone(References, includeResources && |loaded.keys| > 0, ResourceParts(loaded), IsExamplePart);
  }

  lemma PromptResourceCount(reg: Registry, name: string, loaded: Table<string>, includeResources: bool)
    requires Valid(loaded) && name in reg.skills.rows
    ensures CountResources(PromptInjection(reg, name, loaded, includeResources))
            == (if includeResources then |loaded.keys| else 0)
  {
    var s := reg.skills.rows[name];
    var head := PromptHead(s);
    var body := InstructionParts(s.instruction);
    var rs := ResourceSection(loaded, includeResources);
    PromptShape(reg, name, loaded, includeResources);
    CountWhere3(head, body, rs, IsResourcePart);
    InstructionCounts(s.instruction);
    CountWhereNone(head, IsResourcePart);
    SectionCounts(References, includeResources && |loaded.keys| > 0, ResourceParts(loaded), IsResourcePart);
  }

  /** Every resource entry of a prompt names a loaded resource and holds
      at most 2000 characters of its content plus the marker, starting
      with that content. */
  lemma ResourcesAreCut(reg: Registry, name: string, loaded: Table<string>, includeResources: bool)
    requires Valid(loaded)
    ensures forall part :: part in PromptInjection(reg, name, loaded, includeResources) && part.ResourcePart? ==>
              part.resourceName in loaded.rows
              && |part.content| <= MaxResourceChars + |TruncationMarker|
              && StartsWith(part.content, Take(loaded.rows[part.resourceName], MaxResourceChars))
  {
    if name in reg.skills.rows {
      var s := reg.skills.rows[name];
      var ins := s.instruction;
      PromptBounds(reg, name, loaded, includeResources);
      InstructionCounts(ins);
      var front := [TitlePart(Display(s.metadata)), DescriptionPart(s.Description())] + InstructionParts(ins);
      var rs := SectionParts(References, includeResources && |loaded.keys| > 0, ResourceParts(loaded));
      assert PromptInjection(reg, name, loaded, includeResources) == front + rs;
      CountWhereConcat([TitlePart(Display(s.metadata)), DescriptionPart(s.Description())], InstructionParts(ins),
                       IsResourcePart);
      CountWhereNone([TitlePart(Display(s.metadata)), DescriptionPart(s.Description())], IsResourcePart);
      forall part | part in front
        ensures !part.ResourcePart?
      {
        if part.ResourcePart? {
          CountPositive(front, IsResourcePart, part);
        }
      }
    }
  }

  /** An element that passes the test is counted. */
  lemma CountPositive<T>(s: seq<T>, p: T -> bool, x: T)
    requires x in s && p(x)
    ensures CountWhere(s, p) > 0
  {
    CountIsFilterLength(s, p);
    FilterMembership(s, p, x);
  }

  // ------------------------------------------------------------------ scripts

  /** The script `execute_script` runs: the first script resource whose
      path contains the name or whose name is the name. */
  function FindScript(scripts: seq<Resource>, scriptName: string): (r: Option<Resource>)
    ensures r.Some? ==> r.value in scripts && (Contains(r.value.path, scriptName) || r.value.name == scriptName)
    ensures r.None? <==> forall i :: 0 <= i < |scripts| ==>
                           !Contains(scripts[i].path, scriptName) && scripts[i].name != scriptName
  {
    if |scripts| == 0 then None
    else if Contains(scripts[0].path, scriptName) || scripts[0].name == scriptName then Some(scripts[0])
    else FindScript(scripts[1..], scriptName)
  }

  /** What happened once a script was found: the file was missing, the
      process was killed on the timeout, starting it raised, or it exited. */
  datatype ProcessOutcome =
    | FileMissing(scriptPath: string)
    | TimedOut(timeoutMessage: string)
    | Crashed(message: string)
    | Exited(returnCode: int, stdout: string, stderr: string)

  /** `execute_script`'s result, and whether it was added to the history,
      which happens only when the process exited. */
  datatype ScriptRun = ScriptRun(result: ExecResult, recorded: bool)

  const SkillOrPathMissing := "\U{6280}\U{80FD}\U{4E0D}\U{5B58}\U{5728}\U{6216}\U{8DEF}\U{5F84}\U{672A}\U{77E5}: "
  const ScriptMissing := "\U{811A}\U{672C}\U{4E0D}\U{5B58}\U{5728}: "
  const ScriptFileMissing := "\U{811A}\U{672C}\U{6587}\U{4EF6}\U{4E0D}\U{5B58}\U{5728}: "
  const ScriptHead := "\U{811A}\U{672C} "
  const ScriptSucceeded := " \U{6267}\U{884C}\U{6210}\U{529F}"
  const ScriptFailed := " \U{6267}\U{884C}\U{5931}\U{8D25}"

  /** `execute_script(skill_name, script_name)` with the process's outcome
      given; the output kept is cut to `maxOutput` characters. */
  function ExecuteScript(reg: Registry, name: string, scriptName: string, outcome: ProcessOutcome,
                         maxOutput: nat): (run: ScriptRun)
    ensures run.result.skillName == name
    ensures run.recorded <==>
              (name in reg.skills.rows && reg.skills.rows[name].skillPath.Some?
               && FindScript(GetScripts(reg.skills.rows[name]), scriptName).Some?
               && outcome.Exited?)
    ensures run.result.success ==> run.recorded && outcome.returnCode == 0
                                   && run.result.result == TextResult(Take(outcome.stdout, maxOutput))
    ensures !run.result.success ==> run.result.errorCode.Some?
  {
    match Get(reg, name)
    case None => ScriptRun(Failure(name, SkillOrPathMissing + name, SKILL_NOT_FOUND), false)
    case Some(s) =>
      if s.skillPath.None? then ScriptRun(Failure(name, SkillOrPathMissing + name, SKILL_NOT_FOUND), false)
      else if FindScript(GetScripts(s), scriptName).None? then
        ScriptRun(Failure(name, ScriptMissing + scriptName, SCRIPT_NOT_FOUND), false)
      else
        match outcome
        case FileMissing(path) => ScriptRun(Failure(name, ScriptFileMissing + path, SCRIPT_FILE_NOT_FOUND), false)
        case TimedOut(message) => ScriptRun(Failure(name, message, SCRIPT_TIMEOUT), false)
        case Crashed(message) => ScriptRun(Failure(name, message, SCRIPT_EXECUTION_ERROR), false)
        case Exited(code, out, err) =>
          var ok := code == 0;
          ScriptRun(ExecResult(name, ok,
                               if ok then TextResult(Take(out, maxOutput)) else NoResult,
                               ScriptHead + scriptName + (if ok then ScriptSucceeded else ScriptFailed),
                               if ok then None else Some(Take(err, maxOutput)),
                               if ok then None else Some(SCRIPT_ERROR)),
                    true)
  }

  // --------------------------------------------------------------- dispatch

  datatype Executor = Executor(history: seq<ExecResult>, maxOutput: nat)

  /** What a call of `execute` does: it returns a result with the executor
      it leaves behind, or raises a `TypeError` before anything happens. */
  datatype ExecOutcome = Returned(executor: Executor, result: ExecResult) | RaisedTypeError

  const SkillMissing := "\U{6280}\U{80FD}\U{4E0D}\U{5B58}\U{5728}: "
  const SkillHead := "\U{6280}\U{80FD} "
  const PromptReady := " \U{7684}\U{6307}\U{4EE4}\U{5DF2}\U{51C6}\U{5907}\U{5C31}\U{7EEA}"
  const HybridDone := " \U{6DF7}\U{5408}\U{6267}\U{884C}\U{5B8C}\U{6210}"
  const InvalidModePrefix := "\U{65E0}\U{6548}\U{7684}\U{6267}\U{884C}\U{6A21}\U{5F0F}\U{6216}\U{7F3A}\U{5C11}\U{53C2}\U{6570}: "

  /** The text a successful script left for the hybrid prompt. */
  function OutputText(p: Payload): string {
    if p.TextResult? then p.text else ""
  }

  /** The result of a mode once the skill is known and the context is
      prepared with `loaded` resources; and the script run when the mode
      ran one. */
  function Dispatch(ex: Executor, reg: Registry, name: string, s: Skill, mode: string, scriptName: Option<string>,
                    kwargs: Kwargs, loaded: Table<string>, outcome: ProcessOutcome)
    : (r: (ExecResult, Option<ScriptRun>))
    requires Valid(loaded) && name in reg.skills.rows && reg.skills.rows[name] == s
  {
    if mode == "prompt" then
      var parts := PromptInjection(reg, name, loaded, Flagged(kwargs, "include_resources"));
      (ExecResult(name, true, PromptResult(parts), SkillHead + Display(s.metadata) + PromptReady, None, None), None)
    else if (mode == "script" || mode == "hybrid") && Truthy(scriptName) then
      var run := ExecuteScript(reg, name, scriptName.value, outcome, ex.maxOutput);
      if mode == "script" || !run.result.success then (run.result, Some(run))
      else
        var withOutput := Put(loaded, "script_output", OutputText(run.result.result));
        var parts := PromptInjection(reg, name, withOutput, true);
        (ExecResult(name, true, HybridResult(parts, run.result.result), SkillHead + Display(s.metadata) + HybridDone,
                    None, None),
         Some(run))
    else
      (Failure(name, InvalidModePrefix + mode, INVALID_MODE), None)
  }

  /** The history after a dispatch: the script's own entry when it was
      recorded, then the result. */
  function Recorded(history: seq<ExecResult>, run: Option<ScriptRun>, result: ExecResult): seq<ExecResult> {
    history + (if run.Some? && run.value.recorded then [run.value.result] else []) + [result]
  }

  /** `execute(skill_name, task, agent_id, agent_name, mode, script_name,
      **kwargs)` as written. An unknown skill fails before anything is
      recorded. Passing `load_resources` raises: `execute` forwards it both
      by name and inside `**kwargs`, so the context preparation receives it
      twice. Otherwise the context has no loaded resources. */
  function Execute(ex: Executor, reg: Registry, name: string, mode: string, scriptName: Option<string>,
                   kwargs: Kwargs, outcome: ProcessOutcome): (o: ExecOutcome)
    ensures name !in reg.skills.rows ==> o == Returned(ex, Failure(name, SkillMissing + name, SKILL_NOT_FOUND))
    ensures name in reg.skills.rows && "load_resources" in kwargs ==> o.RaisedTypeError?
    ensures name in reg.skills.rows && "load_resources" !in kwargs ==> o.Returned? && o.executor.maxOutput == ex.maxOutput
  {
    match Get(reg, name)
    case None => Returned(ex, Failure(name, SkillMissing + name, SKILL_NOT_FOUND))
    case Some(s) =>
      if "load_resources" in kwargs then RaisedTypeError
      else
        var (result, run) := Dispatch(ex, reg, name, s, mode, scriptName, kwargs, Empty(), outcome);
        Returned(Executor(Recorded(ex.history, run, result), ex.maxOutput), result)
  }

  /** The modes of `execute`: prompt mode succeeds; script mode returns the
      script's result; hybrid mode succeeds when its script does and fails
      with the script's result otherwise; any other mode, or script and
      hybrid without a script name, fails with INVALID_MODE. */
  lemma ExecuteModes(ex: Executor, reg: Registry, name: string, mode: string, scriptName: Option<string>,
                     kwargs: Kwargs, outcome: ProcessOutcome)
    requires name in reg.skills.rows && "load_resources" !in kwargs
    ensures var o := Execute(ex, reg, name, mode, scriptName, kwargs, outcome);
            var run := ExecuteScript(reg, name, scriptName.GetOr(""), outcome, ex.maxOutput);
            o.Returned?
            && (mode == "prompt" ==> o.result.success && o.result.result.PromptResult?)
            && (mode == "script" && Truthy(scriptName) ==> o.result == run.result)
            && (mode == "hybrid" && Truthy(scriptName) ==>
                  (run.result.success ==> o.result.success && o.result.result.HybridResult?)
                  && (!run.result.success ==> o.result == run.result))
            && (mode != "prompt" && !((mode == "script" || mode == "hybrid") && Truthy(scriptName)) ==>
                  !o.result.success && o.result.errorCode == Some(INVALID_MODE))
  {
  }

  /** Every returned result of a known skill is appended to the history; a
      script that ran to completion is appended a second time, by the
      script runner, just before it. Nothing else changes the history. */
  lemma ExecuteRecords(ex: Executor, reg: Registry, name: string, mode: string, scriptName: Option<string>,
                       kwargs: Kwargs, outcome: ProcessOutcome)
    requires name in reg.skills.rows && "load_resources" !in kwargs
    ensures var o := Execute(ex, reg, name, mode, scriptName, kwargs, outcome);
            var run := ExecuteScript(reg, name, scriptName.GetOr(""), outcome, ex.maxOutput);
            var ranScript := (mode == "script" || mode == "hybrid") && Truthy(scriptName);
            o.Returned?
            && o.executor.history == ex.history + (if ranScript && run.recorded then [run.result] else []) + [o.result]
  {
  }

  /** In prompt mode the context never holds loaded resources, so the
      prompt has no resource entries even when `include_resources` is set. */
  lemma PromptModeShowsNoResources(ex: Executor, reg: Registry, name: string, scriptName: Option<string>,
                                   kwargs: Kwargs, outcome: ProcessOutcome)
    requires name in reg.skills.rows && "load_resources" !in kwargs
    ensures var o := Execute(ex, reg, name, "prompt", scriptName, kwargs, outcome);
            o.Returned? && o.result.result.PromptResult? && CountResources(o.result.result.parts) == 0
  {
    PromptBounds(reg, name, Empty(), Flagged(kwargs, "include_resources"));
  }

  /** A hybrid run whose script succeeded shows exactly one resource, the
      script's output cut to size. */
  lemma HybridShowsScriptOutput(ex: Executor, reg: Registry, name: string, scriptName: Option<string>,
                                kwargs: Kwargs, outcome: ProcessOutcome)
    requires name in reg.skills.rows && "load_resources" !in kwargs
    requires Truthy(scriptName) && ExecuteScript(reg, name, scriptName.value, outcome, ex.maxOutput).result.success
    ensures var o := Execute(ex, reg, name, "hybrid", scriptName, kwargs, outcome);
            var out := Take(outcome.stdout, ex.maxOutput);
            o.Returned? && o.result.result.HybridResult?
            && o.result.result.scriptOutput == TextResult(out)
            && CountResources(o.result.result.promptParts) == 1
            && ResourcePart("script_output", Truncate(out)) in o.result.result.promptParts
  {
    var withOutput := Put(Empty<string>(), "script_output", Take(outcome.stdout, ex.maxOutput));
    assert withOutput.keys == ["script_output"];
    PromptBounds(reg, name, withOutput, true);
    var s := reg.skills.rows[name];
    var parts := PromptInjection(reg, name, withOutput, true);
    var front := [TitlePart(Display(s.metadata)), DescriptionPart(s.Description())] + InstructionParts(s.instruction);
    assert parts == front + ([Heading(References)] + ResourceParts(withOutput));
    assert parts[|front| + 1] == ResourcePart("script_output", Truncate(Take(outcome.stdout, ex.maxOutput)));
  }

  /** Passing `load_resources` to `execute` for any known skill raises
      instead of loading the skill's resources. */
  lemma LoadResourcesRaises(ex: Executor, reg: Registry, name: string, mode: string, scriptName: Option<string>,
                            outcome: ProcessOutcome)
    requires name in reg.skills.rows
    ensures Execute(ex, reg, name, mode, scriptName, map["load_resources" := Flag(true)], outcome).RaisedTypeError?
  {
  }

  /** `execute` as evidently intended: `load_resources` is read once and, when
      set, the context holds the skill's loaded resources (`available`, as
      the registry reads them from disk). */
  function ExecuteLoading(ex: Executor, reg: Registry, name: string, mode: string, scriptName: Option<string>,
                          kwargs: Kwargs, available: Table<string>, outcome: ProcessOutcome): (o: ExecOutcome)
    requires Valid(available)
    ensures name !in reg.skills.rows ==> o == Returned(ex, Failure(name, SkillMissing + name, SKILL_NOT_FOUND))
    ensures name in reg.skills.rows ==> o.Returned?
    ensures "load_resources" !in kwargs ==> o == Execute(ex, reg, name, mode, scriptName, kwargs, outcome)
  {
    match Get(reg, name)
    case None => Returned(ex, Failure(name, SkillMissing + name, SKILL_NOT_FOUND))
    case Some(s) =>
      var loaded := if Flagged(kwargs, "load_resources") then available else Empty();
      var (result, run) := Dispatch(ex, reg, name, s, mode, scriptName, kwargs, loaded, outcome);
      Returned(Executor(Recorded(ex.history, run, result), ex.maxOutput), result)
  }

  /** With the intended reading, asking for resources in prompt mode shows
      every loaded resource. */
  lemma LoadingShowsResources(ex: Executor, reg: Registry, name: string, available: Table<string>,
                              outcome: ProcessOutcome)
    requires Valid(available) && name in reg.skills.rows
    ensures var kwargs := map["load_resources" := Flag(true), "include_resources" := Flag(true)];
            var o := ExecuteLoading(ex, reg, name, "prompt", None, kwargs, available, outcome);
            o.Returned? && o.result.result.PromptResult?
            && CountResources(o.result.result.parts) == |available.keys|
  {
    PromptBounds(reg, name, available, true);
  }

  // --------------------------------------------------------------- skill set

  /** An agent's skill set: the assigned names in assignment order and the
      per-skill configuration. */
  datatype SkillSet = SkillSet(agentId: string, agentName: string, names: seq<string>, configs: map<string, Kwargs>)

  /** A set built only through these operations lists each skill once. */
  predicate WellFormed(ss: SkillSet) {
    Distinct(ss.names)
  }

  function NewSkillSet(agentId: string, agentName: string): (r: SkillSet)
    ensures WellFormed(r) && r.names == [] && r.configs == map[]
  {
    SkillSet(agentId, agentName, [], map[])
  }

  /** `assign_skill(name, config)`: False, changing nothing, for a skill the
      registry lacks; otherwise the name is added once and a non-empty
      config replaces the stored one. */
  function AssignSkill(ss: SkillSet, reg: Registry, name: string, config: Kwargs): (r: (SkillSet, bool))
    requires WellFormed(ss)
    ensures WellFormed(r.0)
    ensures r.1 <==> Has(reg, name)
    ensures !r.1 ==> r.0 == ss
    ensures r.1 ==> name in r.0.names && forall n :: n in r.0.names <==> n in ss.names || n == name
    ensures r.1 ==> r.0.configs == (if |config| > 0 then ss.configs[name := config] else ss.configs)
  {
    if !Has(reg, name) then (ss, false)
    else
      var names := if name in ss.names then ss.names else ss.names + [name];
      assert Distinct(names);
      (ss.(names := names, configs := if |config| > 0 then ss.configs[name := config] else ss.configs), true)
  }

  /** `assign_skills(names)`: assign each in turn without a config. */
  function AssignSkills(ss: SkillSet, reg: Registry, names: seq<string>): (r: (SkillSet, nat))
    requires WellFormed(ss)
    ensures WellFormed(r.0)
    ensures r.1 <= |names|
    ensures forall n :: n in ss.names ==> n in r.0.names
    ensures forall n :: n in r.0.names ==> n in ss.names || n in names
    ensures r.0.configs == ss.configs && r.0.agentId == ss.agentId && r.0.agentName == ss.agentName
    decreases |names|
  {
    if |names| == 0 then (ss, 0)
    else
      var (first, ok) := AssignSkill(ss, reg, names[0], map[]);
      var (rest, count) := AssignSkills(first, reg, names[1..]);
      (rest, (if ok then 1 else 0) + count)
  }

  /** The count is the number of names the registry knows, repeats
      included, and afterwards every one of them is assigned. */
  lemma {:induction false} AssignSkillsCounts(ss: SkillSet, reg: Registry, names: seq<string>)
    requires WellFormed(ss)
    ensures AssignSkills(ss, reg, names).1 == CountWhere(names, (n: string) => Has(reg, n))
    ensures forall n :: n in AssignSkills(ss, reg, names).0.names <==>
                         n in ss.names || (n in names && Has(reg, n))
    decreases |names|
  {
    if |names| > 0 {
      var first := AssignSkill(ss, reg, names[0], map[]).0;
      AssignSkillsCounts(first, reg, names[1..]);
      assert forall n :: n in names <==> n == names[0] || n in names[1..];
    }
  }

  /** `remove_skill(name)`: True exactly when the skill was assigned, and
      then the name and its config are gone and the rest keep their order. */
  function RemoveSkill(ss: SkillSet, name: string): (r: (SkillSet, bool))
    requires WellFormed(ss)
    ensures WellFormed(r.0)
    ensures r.1 <==> name in ss.names
    ensures !r.1 ==> r.0 == ss
    ensures name !in r.0.names
    ensures r.1 ==> name !in r.0.configs && forall n :: n in r.0.names <==> n in ss.names && n != name
  {
    if name in ss.names then
      DistinctRemoveFirst(ss.names, name);
      (ss.(names := RemoveFirst(ss.names, name), configs := ss.configs - {name}), true)
    else (ss, false)
  }

  /** Assigning a new skill and removing it again gives back the names as
      they were. */
  lemma AssignThenRemove(ss: SkillSet, reg: Registry, name: string, config: Kwargs)
    requires WellFormed(ss) && Has(reg, name) && name !in ss.names
    ensures RemoveSkill(AssignSkill(ss, reg, name, config).0, name).0.names == ss.names
  {
    RemoveAppended(ss.names, name);
  }

  lemma {:induction false} RemoveAppended(s: seq<string>, x: string)
    requires x !in s
    ensures RemoveFirst(s + [x], x) == s
  {
    var t := s + [x];
    if |s| == 0 {
      assert t == [x] && t[1..] == [];
    } else {
      assert t[0] == s[0] && t[0] != x;
      assert t[1..] == s[1..] + [x];
      RemoveAppended(s[1..], x);
      assert RemoveFirst(t, x) == [s[0]] + RemoveFirst(t[1..], x);
      assert s == [s[0]] + s[1..];
    }
  }

  function HasSkill(ss: SkillSet, name: string): bool {
    name in ss.names
  }

  /** `list_skills()`: the assigned names. Values are immutable here, so
      the copy the source makes is the value itself. */
  function ListSkills(ss: SkillSet): seq<string> {
    ss.names
  }

  /** `get_skills()`: the registered skills among the assigned names, in order. */
  function GetSkills(ss: SkillSet, reg: Registry): seq<Skill> {
    GetByNames(reg, ss.names)
  }

  const NotAssignedMid := "' \U{672A}\U{5206}\U{914D}\U{6280}\U{80FD} '"

  /** Keywords `execute` takes itself; finding one in a merged config is a
      second value for it. */
  const ExecuteParameters: set<string> := {"skill_name", "task", "agent_id", "agent_name", "mode"}

  /** The call arguments `execute_skill` forwards: the stored config
      overridden by the call's own keywords. */
  function Merged(ss: SkillSet, name: string, kwargs: Kwargs): (m: Kwargs)
    ensures m.Keys == (if name in ss.configs then ss.configs[name].Keys else {}) + kwargs.Keys
    ensures forall k :: k in kwargs ==> m[k] == kwargs[k]
    ensures forall k :: k in m && k !in kwargs ==> m[k] == ss.configs[name][k]
  {
    (if name in ss.configs then ss.configs[name] else map[]) + kwargs
  }

  /** `execute_skill(name, task, mode, **kwargs)`: an unassigned skill
      fails with SKILL_NOT_ASSIGNED and the executor is not called;
      otherwise the merged keywords are forwarded, `script_name` binding
      the script name. */
  function ExecuteSkill(ss: SkillSet, ex: Executor, reg: Registry, name: string, mode: string, kwargs: Kwargs,
                        outcome: ProcessOutcome): (o: ExecOutcome)
    ensures !HasSkill(ss, name) ==>
              o == Returned(ex, Failure(name, "Agent '" + ss.agentName + NotAssignedMid + name + "'", SKILL_NOT_ASSIGNED))
    ensures HasSkill(ss, name) && Merged(ss, name, kwargs).Keys * ExecuteParameters != {} ==> o.RaisedTypeError?
    ensures HasSkill(ss, name) && Merged(ss, name, kwargs).Keys * ExecuteParameters == {} ==>
              (name !in reg.skills.rows ==> o == Returned(ex, Failure(name, SkillMissing + name, SKILL_NOT_FOUND)))
              && (name in reg.skills.rows && "load_resources" in Merged(ss, name, kwargs) ==> o.RaisedTypeError?)
              && (name in reg.skills.rows && "load_resources" !in Merged(ss, name, kwargs) ==>
                    o.Returned? && o.executor.maxOutput == ex.maxOutput
                    && |o.executor.history| > |ex.history|
                    && o.executor.history[..|ex.history|] == ex.history
                    && o.executor.history[|o.executor.history| - 1] == o.result)
  {
    if !HasSkill(ss, name) then
      Returned(ex, Failure(name, "Agent '" + ss.agentName + NotAssignedMid + name + "'", SKILL_NOT_ASSIGNED))
    else
      var merged := Merged(ss, name, kwargs);
      if merged.Keys * ExecuteParameters != {} then RaisedTypeError
      else
        var scriptName := if "script_name" in merged && merged["script_name"].Text? then Some(merged["script_name"].text)
                          else None;
        var forwarded := merged - {"script_name", "script_args"};
        ForwardedKeepsLoadResources(merged);
        ExecuteRecordsAny(ex, reg, name, mode, scriptName, forwarded, outcome);
        Execute(ex, reg, name, mode, scriptName, forwarded, outcome)
  }

  /** Dropping the script keywords keeps `load_resources` as it was. */
  lemma ForwardedKeepsLoadResources(merged: Kwargs)
    ensures "load_resources" in merged - {"script_name", "script_args"} <==> "load_resources" in merged
  {
  }

  /** A returned result of a known skill ends the history, after the old entries. */
  lemma ExecuteRecordsAny(ex: Executor, reg: Registry, name: string, mode: string, scriptName: Option<string>,
                          kwargs: Kwargs, outcome: ProcessOutcome)
    ensures var o := Execute(ex, reg, name, mode, scriptName, kwargs, outcome);
            name in reg.skills.rows && "load_resources" !in kwargs ==>
              o.Returned? && |o.executor.history| > |ex.history|
              && o.executor.history[..|ex.history|] == ex.history
              && o.executor.history[|o.executor.history| - 1] == o.result
  {
    if name in reg.skills.rows && "load_resources" !in kwargs {
      ExecuteRecords(ex, reg, name, mode, scriptName, kwargs, outcome);
    }
  }

  /** A call keyword wins over the stored config: a script name given with
      the call is the one run, whatever the config says. */
  lemma CallOverridesConfig(ss: SkillSet, ex: Executor, reg: Registry, name: string, kwargs: Kwargs,
                            outcome: ProcessOutcome, script: string)
    requires HasSkill(ss, name) && name in reg.skills.rows
    requires kwargs.Keys * ExecuteParameters == {} && "script_name" in kwargs && kwargs["script_name"] == Text(script)
    requires name in ss.configs ==> ss.configs[name].Keys * ExecuteParameters == {}
                                    && "load_resources" !in ss.configs[name]
    requires "load_resources" !in kwargs && script != ""
    ensures var o := ExecuteSkill(ss, ex, reg, name, "script", kwargs, outcome);
            o.Returned? && o.result == ExecuteScript(reg, name, script, outcome, ex.maxOutput).result
  {
    var merged := Merged(ss, name, kwargs);
    assert merged["script_name"] == Text(script);
    ExecuteModes(ex, reg, name, "script", Some(script), merged - {"script_name", "script_args"}, outcome);
  }
}
