/** Role emergence: turning a language model's answer into a task plan.
    The answer is free text; a JSON object is cut out of it (a fenced block,
    or the first brace-balanced block), decoded, and turned into at most
    five roles, one subagent configuration per role, and the relay stations
    of the plan's phases. The model's records are validated field by field
    when they are built, so a value of the wrong JSON type fails the parse
    as a whole. Decoding itself is a library call: the parse takes the
    decoded value as an input. */
module RoleEmergence {
  import opened Util

  // ---------------------------------------------------------- JSON values

  /** A decoded JSON value. Numbers are integers here. */
  datatype Json =
    | JNull
    | JBool(b: bool)
    | JNumber(n: int)
    | JString(s: string)
    | JArray(items: seq<Json>)
    | JObject(fields: map<string, Json>)

  /** Python truthiness of a decoded value. */
  predicate JsonTruthy(j: Json) {
    match j
    case JNull => false
    case JBool(b) => b
    case JNumber(n) => n != 0
    case JString(s) => s != ""
    case JArray(items) => |items| > 0
    case JObject(fields) => |fields| > 0
  }

  // ------------------------------------------------------ extracting JSON

  const JsonFence: string := "```json"
  const Fence: string := "```"

  /** The block of a fence search `opener \s*(.*?)\s* fence`: the text after
      the first `opener` up to the next fence, stripped. A fence after the
      first opener exists whenever any later opener does, so the leftmost
      match always starts at the first opener. */
  function FencedBlock(text: string, opener: string): Option<string> {
    match IndexOf(text, opener)
    case None => None
    case Some(p) =>
      match IndexFrom(text, Fence, p + |opener|)
      case None => None
      case Some(q) => Some(Strip(text[p + |opener|..q]))
  }

  /** The fenced block is found exactly when the opener occurs with a fence
      after its first occurrence, and it is the stripped text between them. */
  lemma FencedBlockFirst(text: string, opener: string)
    ensures FencedBlock(text, opener).None? <==> forall p: nat, q: nat :: !FencedAt(text, opener, p, q)
    ensures forall p: nat, q: nat :: FencedAt(text, opener, p, q)
              ==> FencedBlock(text, opener) == Some(Strip(text[p + |opener|..q]))
  {
    match IndexOf(text, opener)
    case None =>
      Missing(text, opener, 0);
      NoOpener(text, opener);
    case Some(p) =>
      var k := p + |opener|;
      Found(text, opener, 0);
      match IndexFrom(text, Fence, k)
      case None =>
        Missing(text, Fence, k);
        NoFenceAfter(text, opener, p, k);
      case Some(q) =>
        Found(text, Fence, k);
        assert FencedAt(text, opener, p, q);
        var r := FencedBlock(text, opener);
        assert r == Some(Strip(text[k..q]));
        forall p': nat, q': nat | FencedAt(text, opener, p', q')
          ensures r == Some(Strip(text[p' + |opener|..q']))
        {
          FirstAtUnique(text, opener, 0, p, p');
          FirstAtUnique(text, Fence, k, q, q');
        }
  }

  /** `str.find` from `k` that finds `pat` answers with its first place. */
  lemma Found(s: string, pat: string, k: nat)
    requires k <= |s| && IndexFrom(s, pat, k).Some?
    ensures FirstAt(s, pat, k, IndexFrom(s, pat, k).value)
  {
  }

  /** `str.find` from `k` that answers -1: `pat` has no first place. */
  lemma Missing(s: string, pat: string, k: nat)
    requires k <= |s| && IndexFrom(s, pat, k).None?
    ensures forall q: nat :: !FirstAt(s, pat, k, q)
  {
  }

  lemma FirstAtUnique(s: string, pat: string, k: nat, p: nat, p': nat)
    requires FirstAt(s, pat, k, p) && FirstAt(s, pat, k, p')
    ensures p == p'
  {
  }

  /** Without a fence after the first opener there is no fenced block. */
  lemma NoFenceAfter(text: string, opener: string, p: nat, k: nat)
    requires FirstAt(text, opener, 0, p) && k == p + |opener|
    requires forall q: nat :: !FirstAt(text, Fence, k, q)
    ensures forall p': nat, q': nat :: !FencedAt(text, opener, p', q')
  {
    forall p': nat, q': nat | FencedAt(text, opener, p', q')
      ensures false
    {
      FirstAtUnique(text, opener, 0, p, p');
      assert FirstAt(text, Fence, k, q');
    }
  }

  lemma NoOpener(text: string, opener: string)
    requires forall q: nat :: !FirstAt(text, opener, 0, q)
    ensures forall p': nat, q': nat :: !FencedAt(text, opener, p', q')
  {
  }

  /** `p` is where `pat` first occurs in `s` at or after `k`. */
  predicate FirstAt(s: string, pat: string, k: nat, p: nat) {
    k <= p <= |s| && StartsWith(s[p..], pat) && forall j :: k <= j < p ==> !StartsWith(s[j..], pat)
  }

  /** The first `opener` of `text` is at `p`, and the first fence after it at `q`. */
  predicate FencedAt(text: string, opener: string, p: nat, q: nat) {
    FirstAt(text, opener, 0, p) && FirstAt(text, Fence, p + |opener|, q)
  }

  /** Nesting depth after the first `k` characters: each '{' opens and each
      '}' closes a level. Braces inside JSON strings are not told apart. */
  function Depth(s: string, k: nat): int
    requires k <= |s|
  {
    if k == 0 then 0
    else Depth(s, k - 1) + (if s[k - 1] == '{' then 1 else if s[k - 1] == '}' then -1 else 0)
  }

  /** An opening brace at level zero. */
  predicate OpensAtTop(s: string, j: nat) {
    j < |s| && s[j] == '{' && Depth(s, j) == 0
  }

  /** A closing brace that brings the level back to zero. */
  predicate ClosesAtTop(s: string, i: nat) {
    i < |s| && s[i] == '}' && Depth(s, i + 1) == 0
  }

  /** Some '{' at level zero is followed by a '}' back at level zero. */
  predicate HasTopBlock(text: string) {
    exists j, i :: 0 <= j < i < |text| && OpensAtTop(text, j) && ClosesAtTop(text, i)
  }

  /** The block the brace scan stops at: `e` is the first '}' that closes
      back to level zero after some '{' opened at level zero, and `s` is
      where that '{' opened. */
  predicate FirstTopBlock(text: string, s: nat, e: nat) {
    && s < e < |text| && OpensAtTop(text, s) && ClosesAtTop(text, e)
    && forall j, i :: 0 <= j < i < e && OpensAtTop(text, j) ==> !ClosesAtTop(text, i)
  }

  /** A block whose first brace is matched by its last character: the level
      stays positive inside and is zero at the end. */
  predicate Matched(b: string) {
    && |b| >= 2 && b[0] == '{' && b[|b| - 1] == '}'
    && Depth(b, |b|) == 0
    && forall k :: 0 < k < |b| ==> Depth(b, k) > 0
  }

  /** The depth inside a slice is the depth of the whole text, counted from
      the slice's start. */
  lemma {:induction false} DepthOfSlice(s: string, a: nat, b: nat, k: nat)
    requires a <= b <= |s| && k <= b - a
    ensures Depth(s[a..b], k) == Depth(s, a + k) - Depth(s, a)
  {
    if k > 0 {
      DepthOfSlice(s, a, b, k - 1);
      assert s[a..b][k - 1] == s[a + k - 1];
    }
  }

  /** The brace scan: remember where a '{' at level zero opened, and return
      the block up to the first '}' that closes back to level zero. The
      level may go negative on a stray '}' and then no block opens until it
      is back at zero. */
  method ScanBraces(text: string) returns (r: Option<string>)
    ensures r.None? ==> !HasTopBlock(text)
    ensures r.Some? ==> Matched(r.value)
    ensures r.Some? ==> exists s: nat, e: nat :: FirstTopBlock(text, s, e) && r.value == text[s..e + 1]
  {
    var count := 0;
    var start := -1;
    var i := 0;
    while i < |text|
      invariant 0 <= i <= |text|
      invariant count == Depth(text, i)
      invariant -1 <= start < i
      invariant start == -1 ==> count <= 0 && forall j :: 0 <= j < i ==> !OpensAtTop(text, j)
      invariant start >= 0 ==> OpensAtTop(text, start) && forall k :: start < k <= i ==> Depth(text, k) > 0
      invariant forall j, i' :: 0 <= j < i' < i && OpensAtTop(text, j) ==> !ClosesAtTop(text, i')
    {
      if text[i] == '{' {
        if count == 0 {
          start := i;
        }
        count := count + 1;
      } else if text[i] == '}' {
        count := count - 1;
        if count == 0 && start != -1 {
          assert ClosesAtTop(text, i);
          var b := text[start..i + 1];
          forall k | 0 <= k <= |b| ensures Depth(b, k) == Depth(text, start + k) {
            DepthOfSlice(text, start, i + 1, k);
          }
          r := Some(b);
          assert FirstTopBlock(text, start, i) && r.value == text[start..i + 1];
          return;
        }
      }
      i := i + 1;
    }
    r := None;
  }

  lemma SliceIsContained(text: string, a: nat, b: nat)
    requires a <= b <= |text|
    ensures Contains(text, text[a..b])
  {
    assert text[a..][..b - a] == text[a..b];
  }

  /** The stripped text, when it starts with '{' and ends with '}'. */
  function ObjectLike(text: string): (r: string)
    ensures r == "" || (StartsWith(r, "{") && EndsWith(r, "}"))
    ensures r != "" <==> StartsWith(Strip(text), "{") && EndsWith(Strip(text), "}")
    ensures r != "" ==> r == Strip(text)
  {
    var stripped := Strip(text);
    if StartsWith(stripped, "{") && EndsWith(stripped, "}") then stripped else ""
  }

  /** The last two steps of `_extract_json`: the brace scan's block, else
      the stripped text when it looks like an object. */
  method BlockOrObjectLike(text: string) returns (r: string)
    ensures HasTopBlock(text) ==> Matched(r) && Contains(text, r)
    ensures HasTopBlock(text) ==> exists s: nat, e: nat :: FirstTopBlock(text, s, e) && r == text[s..e + 1]
    ensures !HasTopBlock(text) ==> r == ObjectLike(text)
  {
    var block := ScanBraces(text);
    if block.Some? {
      ghost var s: nat, e: nat :| FirstTopBlock(text, s, e) && block.value == text[s..e + 1];
      SliceIsContained(text, s, e + 1);
      assert HasTopBlock(text);
      return block.value;
    }
    return ObjectLike(text);
  }

  /** `_extract_json`: nothing for blank text; else a non-empty ```json
      block; else a plain fenced block that starts with '{'; else the brace
      scan's block; else the stripped text when it looks like an object. */
  method ExtractJson(text: string) returns (r: string)
    ensures IsBlank(text) ==> r == ""
    ensures !IsBlank(text) && FencedBlock(text, JsonFence).Some? && FencedBlock(text, JsonFence).value != "" ==>
      r == FencedBlock(text, JsonFence).value
    ensures !IsBlank(text) && !(FencedBlock(text, JsonFence).Some? && FencedBlock(text, JsonFence).value != "") ==>
      if FencedBlock(text, Fence).Some? && StartsWith(FencedBlock(text, Fence).value, "{") then
        r == FencedBlock(text, Fence).value
      else if HasTopBlock(text) then
        Matched(r) && Contains(text, r) && exists s: nat, e: nat :: FirstTopBlock(text, s, e) && r == text[s..e + 1]
      else
        r == ObjectLike(text)
  {
    StripEmptyIffBlank(text);
    if Strip(text) == "" {
      return "";
    }
    var tagged := FencedBlock(text, JsonFence);
    if tagged.Some? && tagged.value != "" {
      return tagged.value;
    }
    var plain := FencedBlock(text, Fence);
    if plain.Some? && StartsWith(plain.value, "{") {
      return plain.value;
    }
    r := BlockOrObjectLike(text);
  }

  // ------------------------------------------------------------ the plan

  /** A text field that is either given in the answer or a fixed default
      wording (a template around the role's name, or a placeholder). */
  datatype Wording = Given(text: string) | DefaultWording

  /** Characters the default system prompt adds around the role's name. */
  const DefaultPromptExtra := 15

  datatype SkillAssignment = SkillAssignment(skillName: string, displayName: string, reason: string)

  datatype Methodology = Methodology(approach: string, steps: seq<string>, tools: seq<string>,
                                     successCriteria: seq<string>, qualityMetrics: seq<string>)

  datatype EmergentRole = EmergentRole(
    name: string, description: string, capabilities: seq<string>, focusAreas: seq<string>,
    expertiseLevel: string, workObjective: Wording, deliverables: seq<string>,
    methodology: Option<Methodology>, skills: seq<SkillAssignment>, systemPrompt: Wording,
    relayTriggers: seq<string>, emergenceReasoning: string)

  datatype SubagentConfig = SubagentConfig(role: EmergentRole, taskSegment: Wording, priority: int, relayEnabled: bool)

  /** A relay station of the plan: inactive, without participants, named
      after its phase (or the default station's fixed name). */
  datatype PlanStation = PlanStation(phase: int, isDefault: bool)

  datatype TaskPlan = TaskPlan(
    originalTask: string, analysis: Wording, roles: seq<EmergentRole>, configs: seq<SubagentConfig>,
    stations: seq<PlanStation>, estimatedDuration: int, phases: seq<map<string, Json>>)

  /** Why a parse fails. Every failure is an exception to the caller. */
  datatype PlanError =
    | NoJson
    | Undecodable
    | NotAnObject
    | NoRoles
    /** A truthy `roles` that is not a list. */
    | RolesNotAList
    /** A role that is not an object, has no name, has a field of the
        wrong type, or whose name or description cannot be lower-cased. */
    | BadRole(index: nat)
    /** A phase, analysis or duration of the wrong type. */
    | BadPlanField

  const MaxRoles := 5
  const DefaultDuration := 300

  /** The default phase list: phase 1, with its fixed name. */
  const DefaultPhases: seq<map<string, Json>> :=
    [map["phase_number" := JNumber(1), "name" := JString("\U{6267}\U{884C}\U{9636}\U{6BB5}")]]

  /** `o.get(key, default)` for a field that must be a string. */
  function TextField(o: map<string, Json>, key: string, default: string): (r: Option<string>)
    ensures key !in o ==> r == Some(default)
    ensures key in o ==> (r.Some? <==> o[key].JString?)
    ensures key in o && r.Some? ==> o[key] == JString(r.value)
  {
    if key !in o then Some(default)
    else if o[key].JString? then Some(o[key].s)
    else None
  }

  /** A string field whose default is a fixed wording. */
  function WordingField(o: map<string, Json>, key: string): (r: Option<Wording>)
    ensures key !in o ==> r == Some(DefaultWording)
    ensures key in o ==> (r.Some? <==> o[key].JString?)
    ensures key in o && r.Some? ==> r.value.Given? && o[key] == JString(r.value.text)
  {
    if key !in o then Some(DefaultWording)
    else if o[key].JString? then Some(Given(o[key].s))
    else None
  }

  predicate AllStrings(items: seq<Json>) {
    forall i :: 0 <= i < |items| ==> items[i].JString?
  }

  function Strings(items: seq<Json>): (r: seq<string>)
    requires AllStrings(items)
    ensures |r| == |items|
    ensures forall i :: 0 <= i < |items| ==> r[i] == items[i].s
  {
    seq(|items|, i requires 0 <= i < |items| => items[i].s)
  }

  /** `o.get(key, [])` for a field that must be a list of strings. */
  function TextListField(o: map<string, Json>, key: string): (r: Option<seq<string>>)
    ensures key !in o ==> r == Some([])
    ensures key in o ==> (r.Some? <==> o[key].JArray? && AllStrings(o[key].items))
    ensures key in o && r.Some? ==>
              |r.value| == |o[key].items| && forall i :: 0 <= i < |r.value| ==> o[key].items[i] == JString(r.value[i])
  {
    if key !in o then Some([])
    else if o[key].JArray? && AllStrings(o[key].items) then Some(Strings(o[key].items))
    else None
  }

  /** The methodology of a role: only an object counts; its fields take
      empty defaults. */
  function ParseMethodology(o: map<string, Json>): (r: Option<Option<Methodology>>)
    ensures ("methodology" !in o || !o["methodology"].JObject?) ==> r == Some(None)
    ensures "methodology" in o && o["methodology"].JObject? ==>
              var m := o["methodology"].fields;
              (r.Some? <==> TextField(m, "approach", "").Some? && TextListField(m, "steps").Some?
                            && TextListField(m, "tools_and_frameworks").Some?
                            && TextListField(m, "success_criteria").Some? && TextListField(m, "quality_metrics").Some?)
              && (r.Some? ==> r.value.Some?
                              && TextField(m, "approach", "") == Some(r.value.value.approach)
                              && TextListField(m, "steps") == Some(r.value.value.steps)
                              && TextListField(m, "tools_and_frameworks") == Some(r.value.value.tools)
                              && TextListField(m, "success_criteria") == Some(r.value.value.successCriteria)
                              && TextListField(m, "quality_metrics") == Some(r.value.value.qualityMetrics))
  {
    if "methodology" !in o || !o["methodology"].JObject? then Some(None)
    else
      var m := o["methodology"].fields;
      match (TextField(m, "approach", ""), TextListField(m, "steps"), TextListField(m, "tools_and_frameworks"),
             TextListField(m, "success_criteria"), TextListField(m, "quality_metrics"))
      case (Some(a), Some(st), Some(t), Some(sc), Some(q)) => Some(Some(Methodology(a, st, t, sc, q)))
      case _ => None
  }

  /** One entry of `assigned_skills`: only objects with a `skill_name`
      count; the display name defaults to the skill name. */
  predicate IsSkillEntry(j: Json) {
    j.JObject? && "skill_name" in j.fields
  }

  function ParseSkill(j: Json): (r: Option<SkillAssignment>)
    requires IsSkillEntry(j)
    ensures r.Some? <==> j.fields["skill_name"].JString?
                         && TextField(j.fields, "skill_display_name", "").Some? && TextField(j.fields, "reason", "").Some?
    ensures r.Some? ==> j.fields["skill_name"] == JString(r.value.skillName)
                        && TextField(j.fields, "skill_display_name", r.value.skillName) == Some(r.value.displayName)
                        && TextField(j.fields, "reason", "") == Some(r.value.reason)
  {
    var o := j.fields;
    if !o["skill_name"].JString? then None
    else
      var name := o["skill_name"].s;
      match (TextField(o, "skill_display_name", name), TextField(o, "reason", ""))
      case (Some(d), Some(why)) => Some(SkillAssignment(name, d, why))
      case _ => None
  }

  /** The skill entries of a list in order; `None` when one of them has a
      field of the wrong type. */
  function ParseSkills(items: seq<Json>): (r: Option<seq<SkillAssignment>>)
    ensures r.Some? ==> |r.value| == |Filter(items, IsSkillEntry)|
    ensures r.Some? ==> forall i :: 0 <= i < |r.value| ==> ParseSkill(Filter(items, IsSkillEntry)[i]) == Some(r.value[i])
  {
    if |items| == 0 then Some([])
    else
      var rest := ParseSkills(items[1..]);
      FilterCons(items, IsSkillEntry);
      assert forall i :: 1 <= i < |items| ==> items[i] == items[1..][i - 1];
      if !IsSkillEntry(items[0]) then rest
      else
        match (ParseSkill(items[0]), rest)
        case (Some(s), Some(t)) => Some([s] + t)
        case _ => None
  }

  /** The list parses exactly when every skill entry in it does. */
  lemma {:induction false} ParseSkillsOkIff(items: seq<Json>)
    ensures ParseSkills(items).Some? <==> forall i :: 0 <= i < |items| && IsSkillEntry(items[i]) ==> ParseSkill(items[i]).Some?
    decreases |items|
  {
    if |items| > 0 {
      ParseSkillsOkIff(items[1..]);
      assert forall i :: 1 <= i < |items| ==> items[i] == items[1..][i - 1];
    }
  }

  /** The assigned skills of a role; a non-list value is ignored. */
  function AssignedSkills(o: map<string, Json>): Option<seq<SkillAssignment>> {
    if "assigned_skills" in o && o["assigned_skills"].JArray? then ParseSkills(o["assigned_skills"].items)
    else Some([])
  }

  // --------------------------------------------------- default skills

  /** One row of the keyword table: any keyword occurring in the lower-cased
      name and description assigns the skill. */
  datatype SkillRule = SkillRule(keywords: seq<string>, skill: SkillAssignment)

  /** The keyword table and the wording of the fallback assignment. */
  datatype SkillTable = SkillTable(rules: seq<SkillRule>, fallbackDisplay: string, fallbackReason: string)

  const FallbackSkillName := "reasoning"

  function Fallback(table: SkillTable): SkillAssignment {
    SkillAssignment(FallbackSkillName, table.fallbackDisplay, table.fallbackReason)
  }

  /** The skills of the rules whose keywords occur in `combined`, in table order. */
  function MatchedSkills(rules: seq<SkillRule>, combined: string): (r: seq<SkillAssignment>)
    ensures |r| <= |rules|
  {
    if |rules| == 0 then []
    else
      var rest := MatchedSkills(rules[1..], combined);
      if ContainsAny(combined, rules[0].keywords) then [rules[0].skill] + rest else rest
  }

  /** Every skill suggested comes from a matching rule, every matching
      rule's skill is suggested, and nothing is suggested exactly when no
      rule matches. */
  lemma {:induction false} MatchedSkillsExact(rules: seq<SkillRule>, combined: string)
    ensures var r := MatchedSkills(rules, combined);
      && (forall s :: s in r ==> exists rule :: rule in rules && ContainsAny(combined, rule.keywords) && rule.skill == s)
      && (forall rule :: rule in rules && ContainsAny(combined, rule.keywords) ==> rule.skill in r)
      && (|r| == 0 <==> forall rule :: rule in rules ==> !ContainsAny(combined, rule.keywords))
    decreases |rules|
  {
    if |rules| > 0 {
      MatchedSkillsExact(rules[1..], combined);
      assert forall rule :: rule in rules[1..] ==> rule in rules;
      assert forall rule :: rule in rules ==> rule == rules[0] || rule in rules[1..];
    }
  }

  /** One rule contributes its skill exactly when it matches. */
  lemma MatchedSkillsOne(rule: SkillRule, combined: string)
    ensures MatchedSkills([rule], combined) == if ContainsAny(combined, rule.keywords) then [rule.skill] else []
  {
    assert [rule][1..] == [];
  }

  /** The table is read top to bottom: the skills of two tables in a row are
      the skills of each in turn. */
  lemma {:induction false} MatchedSkillsAppend(a: seq<SkillRule>, b: seq<SkillRule>, combined: string)
    ensures MatchedSkills(a + b, combined) == MatchedSkills(a, combined) + MatchedSkills(b, combined)
    decreases |a|
  {
    if |a| == 0 {
      assert a + b == b;
    } else {
      MatchedSkillsAppend(a[1..], b, combined);
      MatchedSkillsAppendStep(a, b, combined);
    }
  }

  lemma MatchedSkillsAppendStep(a: seq<SkillRule>, b: seq<SkillRule>, combined: string)
    requires |a| > 0
    requires MatchedSkills(a[1..] + b, combined) == MatchedSkills(a[1..], combined) + MatchedSkills(b, combined)
    ensures MatchedSkills(a + b, combined) == MatchedSkills(a, combined) + MatchedSkills(b, combined)
  {
    var head: seq<SkillAssignment> := if ContainsAny(combined, a[0].keywords) then [a[0].skill] else [];
    calc {
      MatchedSkills(a + b, combined);
    == { assert (a + b)[0] == a[0];
         assert (a + b)[1..] == a[1..] + b;
         MatchedSkillsCons(a + b, combined); }
      head + MatchedSkills(a[1..] + b, combined);
    ==
      head + (MatchedSkills(a[1..], combined) + MatchedSkills(b, combined));
    == { Associative(head, MatchedSkills(a[1..], combined), MatchedSkills(b, combined)); }
      head + MatchedSkills(a[1..], combined) + MatchedSkills(b, combined);
    == { MatchedSkillsCons(a, combined); }
      MatchedSkills(a, combined) + MatchedSkills(b, combined);
    }
  }

  /** The first rule contributes its skill ahead of the rest's. */
  lemma MatchedSkillsCons(rules: seq<SkillRule>, combined: string)
    requires |rules| > 0
    ensures MatchedSkills(rules, combined)
            == (if ContainsAny(combined, rules[0].keywords) then [rules[0].skill] else [])
               + MatchedSkills(rules[1..], combined)
  {
  }

  /** `_suggest_default_skills`: the skills of every matching rule, in table
      order, and the reasoning skill when none matches. */
  function SuggestDefaultSkills(name: string, description: string, table: SkillTable): (r: seq<SkillAssignment>)
    ensures |r| >= 1
    ensures (forall rule :: rule in table.rules ==> !ContainsAny(Lower(name) + " " + Lower(description), rule.keywords))
            ==> r == [Fallback(table)]
    ensures (exists rule :: rule in table.rules && ContainsAny(Lower(name) + " " + Lower(description), rule.keywords))
            ==> forall s :: s in r ==> exists rule :: rule in table.rules && ContainsAny(Lower(name) + " " + Lower(description), rule.keywords) && rule.skill == s
    ensures forall rule :: rule in table.rules && ContainsAny(Lower(name) + " " + Lower(description), rule.keywords)
              ==> rule.skill in r
  {
    var matched := MatchedSkills(table.rules, Lower(name) + " " + Lower(description));
    MatchedSkillsExact(table.rules, Lower(name) + " " + Lower(description));
    if |matched| == 0 then [Fallback(table)] else matched
  }

  // ------------------------------------------------------ parsing roles

  /** The description of a role object: given, or the role's name. */
  function DescriptionOf(o: map<string, Json>): Json
    requires "name" in o
  {
    if "description" in o then o["description"] else o["name"]
  }

  /** Every field of a parsed role is read from the role object `o` with
      its default, and the skills are the listed ones or, when none are
      listed, the suggested ones. */
  predicate RoleFieldsFrom(o: map<string, Json>, c: SubagentConfig, table: SkillTable) {
    var role := c.role;
    && TextListField(o, "capabilities") == Some(role.capabilities)
    && TextListField(o, "focus_areas") == Some(role.focusAreas)
    && TextField(o, "expertise_level", "expert") == Some(role.expertiseLevel)
    && WordingField(o, "work_objective") == Some(role.workObjective)
    && TextListField(o, "deliverables") == Some(role.deliverables)
    && ParseMethodology(o) == Some(role.methodology)
    && WordingField(o, "system_prompt") == Some(role.systemPrompt)
    && TextListField(o, "relay_triggers") == Some(role.relayTriggers)
    && TextField(o, "emergence_reasoning", "") == Some(role.emergenceReasoning)
    && WordingField(o, "task_segment") == Some(c.taskSegment)
    && AssignedSkills(o).Some?
    && (AssignedSkills(o).value != [] ==> role.skills == AssignedSkills(o).value)
    && (AssignedSkills(o).value == [] ==> role.skills == SuggestDefaultSkills(role.name, role.description, table))
  }

  /** One role of the answer and its subagent configuration. */
  function ParseRole(index: nat, j: Json, table: SkillTable): (r: Result<SubagentConfig, PlanError>)
    ensures r.Ok? <==> RoleAcceptable(j)
    ensures r.Err? ==> r.error == BadRole(index)
    ensures r.Ok? ==> r.value.role.name == j.fields["name"].s && r.value.priority == 5 && r.value.relayEnabled
    ensures r.Ok? ==> JString(r.value.role.description) == DescriptionOf(j.fields)
    ensures r.Ok? ==> |r.value.role.skills| >= 1
    ensures r.Ok? ==> RoleFieldsFrom(j.fields, r.value, table)
  {
    if !j.JObject? || "name" !in j.fields || !j.fields["name"].JString? || !DescriptionOf(j.fields).JString? then
      Err(BadRole(index))
    else
      var o := j.fields;
      var name := o["name"].s;
      var desc := DescriptionOf(o).s;
      match (AssignedSkills(o), ParseMethodology(o), RoleTexts(o))
      case (Some(given), Some(approach), Some(texts)) =>
        var skills := if |given| > 0 then given else SuggestDefaultSkills(name, desc, table);
        var role := EmergentRole(name, desc, texts.capabilities, texts.focusAreas, texts.expertiseLevel,
                                 texts.workObjective, texts.deliverables, approach, skills, texts.systemPrompt,
                                 texts.relayTriggers, texts.emergenceReasoning);
        Ok(SubagentConfig(role, texts.taskSegment, 5, true))
      case _ => Err(BadRole(index))
  }

  /** The remaining fields of a role, each with its default. */
  datatype RoleTextFields = RoleTextFields(
    capabilities: seq<string>, focusAreas: seq<string>, expertiseLevel: string, workObjective: Wording,
    deliverables: seq<string>, systemPrompt: Wording, relayTriggers: seq<string>, emergenceReasoning: string,
    taskSegment: Wording)

  function RoleTexts(o: map<string, Json>): Option<RoleTextFields> {
    match (TextListField(o, "capabilities"), TextListField(o, "focus_areas"), TextField(o, "expertise_level", "expert"),
           WordingField(o, "work_objective"), TextListField(o, "deliverables"), WordingField(o, "system_prompt"))
    case (Some(c), Some(f), Some(e), Some(w), Some(d), Some(p)) =>
      (match (TextListField(o, "relay_triggers"), TextField(o, "emergence_reasoning", ""), WordingField(o, "task_segment"))
       case (Some(t), Some(er), Some(ts)) => Some(RoleTextFields(c, f, e, w, d, p, t, er, ts))
       case _ => None)
    case _ => None
  }

  /** A role the parse accepts: an object with a string name, a string
      description (or none), and fields of the declared types. */
  predicate RoleAcceptable(j: Json) {
    && j.JObject? && "name" in j.fields && j.fields["name"].JString? && DescriptionOf(j.fields).JString?
    && AssignedSkills(j.fields).Some? && ParseMethodology(j.fields).Some? && RoleTexts(j.fields).Some?
  }

  /** The roles in order; the first role that fails ends the parse. */
  function ParseRoles(items: seq<Json>, first: nat, table: SkillTable): (r: Result<seq<SubagentConfig>, PlanError>)
    ensures r.Ok? ==> |r.value| == |items|
    ensures r.Ok? ==> forall i :: 0 <= i < |items| ==> ParsedAs(first + i, items[i], table, r.value[i])
    decreases |items|
  {
    if |items| == 0 then Ok([])
    else
      match ParseRole(first, items[0], table)
      case Err(e) => Err(e)
      case Ok(c) =>
        match ParseRoles(items[1..], first + 1, table)
        case Err(e) => Err(e)
        case Ok(cs) =>
          ParsedPrepend(items, first, table, c, cs);
          Ok([c] + cs)
  }

  /** Role `index` parses to `c`. */
  predicate ParsedAs(index: nat, item: Json, table: SkillTable, c: SubagentConfig) {
    ParseRole(index, item, table) == Ok(c)
  }

  lemma ParsedPrepend(items: seq<Json>, first: nat, table: SkillTable, c: SubagentConfig, cs: seq<SubagentConfig>)
    requires |items| > 0 && |cs| == |items| - 1
    requires ParseRole(first, items[0], table) == Ok(c)
    requires forall i :: 0 <= i < |items[1..]| ==> ParsedAs(first + 1 + i, items[1..][i], table, cs[i])
    ensures forall i :: 0 <= i < |items| ==> ParsedAs(first + i, items[i], table, ([c] + cs)[i])
  {
    forall i | 0 <= i < |items|
      ensures ParsedAs(first + i, items[i], table, ([c] + cs)[i])
    {
      if i > 0 {
        assert items[1..][i - 1] == items[i] && ([c] + cs)[i] == cs[i - 1];
        assert ParsedAs(first + 1 + (i - 1), items[1..][i - 1], table, cs[i - 1]);
      }
    }
  }

  /** Every one of the roles is acceptable. */
  lemma {:induction false} ParseRolesOkIff(items: seq<Json>, first: nat, table: SkillTable)
    ensures ParseRoles(items, first, table).Ok? <==> forall i :: 0 <= i < |items| ==> RoleAcceptable(items[i])
    decreases |items|
  {
    if |items| > 0 {
      ParseRolesOkIff(items[1..], first + 1, table);
      assert forall i :: 1 <= i < |items| ==> items[1..][i - 1] == items[i];
    }
  }

  // ----------------------------------------------------- phases and stations

  /** The `phases` value of the answer, `[]` when absent. */
  function PhasesOf(o: map<string, Json>): Json {
    if "phases" in o then o["phases"] else JArray([])
  }

  /** Phases given as a list of objects. */
  predicate PhasesGiven(p: Json) {
    p.JArray? && forall i :: 0 <= i < |p.items| ==> p.items[i].JObject?
  }

  function PhaseFields(p: Json): (r: seq<map<string, Json>>)
    requires PhasesGiven(p)
    ensures |r| == |p.items|
    ensures forall i :: 0 <= i < |r| ==> p.items[i] == JObject(r[i])
  {
    seq(|p.items|, i requires 0 <= i < |p.items| => p.items[i].fields)
  }

  /** The phase list the plan keeps, `None` when it is of the wrong type.
      A falsy value gives the default phase; otherwise every item must be
      an object. */
  function PhaseList(o: map<string, Json>): (r: Option<seq<map<string, Json>>>)
    ensures r.Some? ==> |r.value| >= 1
    ensures !JsonTruthy(PhasesOf(o)) ==> r == Some(DefaultPhases)
    ensures JsonTruthy(PhasesOf(o)) ==> (r.Some? <==> PhasesGiven(PhasesOf(o)))
    ensures JsonTruthy(PhasesOf(o)) && r.Some? ==>
              |r.value| == |PhasesOf(o).items| && forall i :: 0 <= i < |r.value| ==> PhasesOf(o).items[i] == JObject(r.value[i])
  {
    var p := PhasesOf(o);
    if !JsonTruthy(p) then Some(DefaultPhases)
    else if PhasesGiven(p) then Some(PhaseFields(p))
    else None
  }

  /** `phase.get("phase_number", 1)`. */
  function PhaseNumber(phase: map<string, Json>): Json {
    if "phase_number" in phase then phase["phase_number"] else JNumber(1)
  }

  /** One station per given phase, numbered by its `phase_number` (default
      1); `None` when a phase number is not an integer. */
  function PhaseStations(phases: seq<map<string, Json>>): (r: Option<seq<PlanStation>>)
    ensures r.Some? <==> forall i :: 0 <= i < |phases| ==> PhaseNumber(phases[i]).JNumber?
    ensures r.Some? ==> |r.value| == |phases|
    ensures r.Some? ==> forall i :: 0 <= i < |phases| ==> r.value[i] == PlanStation(PhaseNumber(phases[i]).n, false)
    decreases |phases|
  {
    if |phases| == 0 then Some([])
    else
      var rest := PhaseStations(phases[1..]);
      assert forall i :: 1 <= i < |phases| ==> phases[i] == phases[1..][i - 1];
      match (PhaseNumber(phases[0]), rest)
      case (JNumber(n), Some(more)) => Some([PlanStation(n, false)] + more)
      case _ => None
  }

  /** The field maps of the objects among `items`, in order; the source
      makes a station only for a phase that is an object. */
  function ObjectFields(items: seq<Json>): (r: seq<map<string, Json>>)
    ensures |r| <= |items|
    ensures (forall i :: 0 <= i < |items| ==> items[i].JObject?) ==>
              |r| == |items| && forall i :: 0 <= i < |r| ==> items[i] == JObject(r[i])
    ensures forall m :: m in r <==> JObject(m) in items
    decreases |items|
  {
    if |items| == 0 then []
    else
      var rest := ObjectFields(items[1..]);
      assert forall i :: 1 <= i < |items| ==> items[i] == items[1..][i - 1];
      assert forall x :: x in items <==> x == items[0] || x in items[1..];
      (if items[0].JObject? then [items[0].fields] else []) + rest
  }

  /** The stations of the plan: one per phase object of a truthy phase
      list, otherwise one default station of phase 1. Iterating a string or
      an object yields no phase objects; iterating a number or `true` raises. */
  function PlanStations(o: map<string, Json>): (r: Option<seq<PlanStation>>)
    ensures r.Some? ==> |r.value| >= 1
    ensures !JsonTruthy(PhasesOf(o)) || PhasesOf(o).JString? || PhasesOf(o).JObject? ==> r == Some([PlanStation(1, true)])
    ensures JsonTruthy(PhasesOf(o)) && (PhasesOf(o).JNumber? || PhasesOf(o).JBool?) ==> r.None?
    ensures JsonTruthy(PhasesOf(o)) && PhasesOf(o).JArray? ==>
              var given := ObjectFields(PhasesOf(o).items);
              (|given| == 0 ==> r == Some([PlanStation(1, true)]))
              && (|given| > 0 ==>
                    (r.Some? <==> forall i :: 0 <= i < |given| ==> PhaseNumber(given[i]).JNumber?)
                    && (r.Some? ==> |r.value| == |given|
                                    && forall i :: 0 <= i < |given| ==> r.value[i] == PlanStation(PhaseNumber(given[i]).n, false)))
  {
    var p := PhasesOf(o);
    if !JsonTruthy(p) || p.JString? || p.JObject? then Some([PlanStation(1, true)])
    else if !p.JArray? then None
    else
      var given := ObjectFields(p.items);
      if |given| == 0 then Some([PlanStation(1, true)]) else PhaseStations(given)
  }

  // --------------------------------------------------------- the parse

  /** The role of each configuration. */
  function RolesOf(configs: seq<SubagentConfig>): (r: seq<EmergentRole>)
    ensures |r| == |configs| && forall i :: 0 <= i < |configs| ==> r[i] == configs[i].role
  {
    seq(|configs|, i requires 0 <= i < |configs| => configs[i].role)
  }

  /** The plan around its parsed roles: stations, analysis, phases and the
      duration estimate, each of which may have the wrong type. */
  function BuildPlan(task: string, o: map<string, Json>, configs: seq<SubagentConfig>): (r: Result<TaskPlan, PlanError>)
    ensures r.Err? ==> r.error == BadPlanField
    ensures r.Ok? ==> && r.value.originalTask == task && r.value.configs == configs && r.value.roles == RolesOf(configs)
                      && |r.value.stations| >= 1 && |r.value.phases| >= 1
                      && PlanStations(o) == Some(r.value.stations) && PhaseList(o) == Some(r.value.phases)
  {
    match (PlanStations(o), WordingField(o, "analysis"), PhaseList(o))
    case (Some(stations), Some(analysis), Some(phases)) =>
      var duration := if "estimated_duration_seconds" in o then o["estimated_duration_seconds"] else JNumber(DefaultDuration);
      if !duration.JNumber? then Err(BadPlanField)
      else Ok(TaskPlan(task, analysis, RolesOf(configs), configs, stations, duration.n, phases))
    case _ => Err(BadPlanField)
  }

  /** `_parse_response`: `extracted` is what `ExtractJson` returned and
      `decoded` its decoding (`None` when decoding raises). */
  function ParseResponse(task: string, extracted: string, decoded: Option<Json>, table: SkillTable): (r: Result<TaskPlan, PlanError>)
    ensures extracted == "" ==> r == Err(NoJson)
    ensures extracted != "" && decoded.None? ==> r == Err(Undecodable)
    ensures extracted != "" && decoded.Some? && !decoded.value.JObject? ==> r == Err(NotAnObject)
    ensures extracted != "" && decoded.Some? && decoded.value.JObject? ==>
              var o := decoded.value.fields;
              && (("roles" !in o || !JsonTruthy(o["roles"])) ==> r == Err(NoRoles))
              && ("roles" in o && JsonTruthy(o["roles"]) && !o["roles"].JArray? ==> r == Err(RolesNotAList))
    ensures r.Ok? ==> 1 <= |r.value.roles| <= MaxRoles && |r.value.configs| == |r.value.roles|
    ensures r.Ok? ==> forall i :: 0 <= i < |r.value.roles| ==>
      r.value.configs[i].role == r.value.roles[i] && r.value.configs[i].priority == 5 && r.value.configs[i].relayEnabled
    ensures r.Ok? ==> |r.value.stations| >= 1 && |r.value.phases| >= 1
    ensures r.Ok? ==> r.value.originalTask == task
  {
    if extracted == "" then Err(NoJson)
    else if decoded.None? then Err(Undecodable)
    else if !decoded.value.JObject? then Err(NotAnObject)
    else
      var o := decoded.value.fields;
      var roles := if "roles" in o then o["roles"] else JArray([]);
      if !JsonTruthy(roles) then Err(NoRoles)
      else if !roles.JArray? then Err(RolesNotAList)
      else
        match ParseRoles(Take(roles.items, MaxRoles), 0, table)
        case Err(e) => Err(e)
        case Ok(configs) => BuildPlan(task, o, configs)
  }

  /** The roles of a parsed plan are the first five roles of the answer,
      in order, each named as in the answer. */
  lemma PlanKeepsFirstRoles(task: string, extracted: string, decoded: Option<Json>, table: SkillTable)
    requires ParseResponse(task, extracted, decoded, table).Ok?
    ensures var plan := ParseResponse(task, extracted, decoded, table).value;
      var items := decoded.value.fields["roles"].items;
      && |plan.roles| == Min(MaxRoles, |items|)
      && forall i :: 0 <= i < |plan.roles| ==> plan.roles[i].name == items[i].fields["name"].s
  {
    var o := decoded.value.fields;
    var items := Take(o["roles"].items, MaxRoles);
    var configs := ParseRoles(items, 0, table).value;
    forall i | 0 <= i < |configs| ensures configs[i].role.name == items[i].fields["name"].s {
      assert ParsedAs(0 + i, items[i], table, configs[i]);
    }
  }

  /** Every role of the first five must be acceptable: one bad role fails
      the whole plan, and a role past the fifth is never looked at. */
  lemma RolesDecideParse(task: string, extracted: string, decoded: Option<Json>, table: SkillTable)
    requires extracted != "" && decoded.Some? && decoded.value.JObject?
    requires "roles" in decoded.value.fields && decoded.value.fields["roles"].JArray?
    requires |decoded.value.fields["roles"].items| > 0
    ensures var items := Take(decoded.value.fields["roles"].items, MaxRoles);
      (exists i :: 0 <= i < |items| && !RoleAcceptable(items[i])) ==>
        ParseResponse(task, extracted, decoded, table).Err? && ParseResponse(task, extracted, decoded, table).error.BadRole?
  {
    var items := Take(decoded.value.fields["roles"].items, MaxRoles);
    ParseRolesOkIff(items, 0, table);
    if exists i :: 0 <= i < |items| && !RoleAcceptable(items[i]) {
      BadRoleIsReported(items, 0, table);
    }
  }

  /** The error of a failing role list names a role. */
  lemma {:induction false} BadRoleIsReported(items: seq<Json>, first: nat, table: SkillTable)
    requires ParseRoles(items, first, table).Err?
    ensures ParseRoles(items, first, table).error.BadRole?
    decreases |items|
  {
    if ParseRole(first, items[0], table).Ok? {
      BadRoleIsReported(items[1..], first + 1, table);
    }
  }

  /** Without phases in the answer the plan has the default phase and one
      default station; with phases it has one station per phase. */
  lemma StationsFollowPhases(task: string, extracted: string, decoded: Option<Json>, table: SkillTable)
    requires ParseResponse(task, extracted, decoded, table).Ok?
    ensures var p := PhasesOf(decoded.value.fields);
      var plan := ParseResponse(task, extracted, decoded, table).value;
      && (!JsonTruthy(p) ==> plan.stations == [PlanStation(1, true)] && plan.phases == DefaultPhases)
      && (JsonTruthy(p) ==> |plan.stations| == |plan.phases| && forall i :: 0 <= i < |plan.stations| ==> !plan.stations[i].isDefault)
  {
    var o := decoded.value.fields;
    assert PhaseList(o).Some? && PlanStations(o).Some?;
  }

  // -------------------------------------------------------- validation

  datatype Issue = TooFewRoles | TooManyRoles(count: nat) | RepeatedCapability(capability: string) | ShortPrompt(roleName: string)

  datatype Validation = Validation(valid: bool, issues: seq<Issue>, roleCount: nat, totalCapabilities: nat)

  const MinPromptLength := 100

  /** Every capability of every role, in order. */
  function AllCapabilities(roles: seq<EmergentRole>): seq<string> {
    if |roles| == 0 then [] else roles[0].capabilities + AllCapabilities(roles[1..])
  }

  /** The length of a role's system prompt; the default wraps the name. */
  function PromptLength(r: EmergentRole): nat {
    match r.systemPrompt
    case Given(t) => |t|
    case DefaultWording => |r.name| + DefaultPromptExtra
  }

  /** One issue per capability already seen earlier in the list. */
  function RepeatIssues(caps: seq<string>): (r: seq<Issue>)
    ensures |r| <= |caps|
    ensures forall i :: 0 <= i < |r| ==> r[i].RepeatedCapability? && r[i].capability in caps
  {
    if |caps| == 0 then []
    else
      var last := caps[|caps| - 1];
      RepeatIssues(caps[..|caps| - 1]) + (if last in caps[..|caps| - 1] then [RepeatedCapability(last)] else [])
  }

  function PromptIssues(roles: seq<EmergentRole>): (r: seq<Issue>)
    ensures |r| <= |roles|
  {
    if |roles| == 0 then []
    else
      var rest := PromptIssues(roles[1..]);
      (if PromptLength(roles[0]) < MinPromptLength then [ShortPrompt(roles[0].name)] else []) + rest
  }

  /** One short-prompt issue for each role whose prompt is too short, and
      nothing else. */
  lemma PromptIssuesExact(roles: seq<EmergentRole>)
    ensures var r := PromptIssues(roles);
      && (forall i :: 0 <= i < |r| ==> r[i].ShortPrompt?)
      && (|r| == 0 <==> forall i :: 0 <= i < |roles| ==> PromptLength(roles[i]) >= MinPromptLength)
      && (forall i :: 0 <= i < |roles| && PromptLength(roles[i]) < MinPromptLength ==> ShortPrompt(roles[i].name) in r)
      && (forall k :: 0 <= k < |r| ==>
            exists i :: 0 <= i < |roles| && PromptLength(roles[i]) < MinPromptLength && r[k] == ShortPrompt(roles[i].name))
  {
    var r := PromptIssues(roles);
    PromptIssuesSound(roles);
    PromptIssuesComplete(roles);
    if |r| > 0 {
      assert ShortFrom(roles, r[0]);
    }
    forall k | 0 <= k < |r|
      ensures exists i :: 0 <= i < |roles| && PromptLength(roles[i]) < MinPromptLength && r[k] == ShortPrompt(roles[i].name)
    {
      assert ShortFrom(roles, r[k]);
      var i: nat :| ShortAt(roles, i, r[k]);
    }
  }

  /** `issue` reports the short prompt of role `i`. */
  predicate ShortAt(roles: seq<EmergentRole>, i: nat, issue: Issue) {
    i < |roles| && PromptLength(roles[i]) < MinPromptLength && issue == ShortPrompt(roles[i].name)
  }

  /** `issue` reports the short prompt of some role. */
  ghost predicate ShortFrom(roles: seq<EmergentRole>, issue: Issue) {
    exists i: nat :: ShortAt(roles, i, issue)
  }

  lemma {:induction false} PromptIssuesSound(roles: seq<EmergentRole>)
    ensures forall k :: 0 <= k < |PromptIssues(roles)| ==> ShortFrom(roles, PromptIssues(roles)[k])
    decreases |roles|
  {
    if |roles| > 0 {
      var r, rest := PromptIssues(roles), PromptIssues(roles[1..]);
      PromptIssuesSound(roles[1..]);

      var head: seq<Issue> := if PromptLength(roles[0]) < MinPromptLength then [ShortPrompt(roles[0].name)] else [];
      assert r == head + rest;
      forall k | 0 <= k < |r|
        ensures ShortFrom(roles, r[k])
      {
        if k < |head| {
          assert ShortAt(roles, 0, r[k]);
        } else {
          assert r[k] == rest[k - |head|] && ShortFrom(roles[1..], rest[k - |head|]);
          var i: nat :| ShortAt(roles[1..], i, rest[k - |head|]);
          assert roles[1..][i] == roles[i + 1];
          assert ShortAt(roles, i + 1, r[k]);
        }
      }
    }
  }

  lemma {:induction false} PromptIssuesComplete(roles: seq<EmergentRole>)
    ensures forall i :: 0 <= i < |roles| && PromptLength(roles[i]) < MinPromptLength
              ==> ShortPrompt(roles[i].name) in PromptIssues(roles)
    decreases |roles|
  {
    if |roles| > 0 {
      PromptIssuesComplete(roles[1..]);
      assert forall i :: 1 <= i < |roles| ==> roles[1..][i - 1] == roles[i];
    }
  }

  /** The capability at position `i` already occurs before it. */
  predicate RepeatedAt(caps: seq<string>, i: nat) {
    i < |caps| && caps[i] in caps[..i]
  }

  /** One issue for each capability that occurs earlier in the list, and
      only for those. */
  lemma {:induction false} RepeatIssuesExact(caps: seq<string>)
    ensures forall i: nat :: RepeatedAt(caps, i) ==> RepeatedCapability(caps[i]) in RepeatIssues(caps)
    ensures forall k :: 0 <= k < |RepeatIssues(caps)| ==>
              exists i: nat :: RepeatedAt(caps, i) && RepeatIssues(caps)[k] == RepeatedCapability(caps[i])
    decreases |caps|
  {
    if |caps| > 0 {
      var init := caps[..|caps| - 1];
      var last := caps[|caps| - 1];
      RepeatIssuesExact(init);
      assert forall i: nat :: i < |init| ==> init[i] == caps[i] && init[..i] == caps[..i];
      assert forall i: nat :: RepeatedAt(init, i) <==> i < |init| && RepeatedAt(caps, i);
      var tail: seq<Issue> := if last in init then [RepeatedCapability(last)] else [];
      assert RepeatIssues(caps) == RepeatIssues(init) + tail;
      forall i: nat | RepeatedAt(caps, i)
        ensures RepeatedCapability(caps[i]) in RepeatIssues(caps)
      {
        if i < |init| {
          assert RepeatedAt(init, i);
        } else {
          assert i == |caps| - 1;
        }
      }
      forall k | 0 <= k < |RepeatIssues(caps)|
        ensures exists i: nat :: RepeatedAt(caps, i) && RepeatIssues(caps)[k] == RepeatedCapability(caps[i])
      {
        if k < |RepeatIssues(init)| {
          assert RepeatIssues(caps)[k] == RepeatIssues(init)[k];
          var i: nat :| RepeatedAt(init, i) && RepeatIssues(init)[k] == RepeatedCapability(init[i]);
          assert RepeatedAt(caps, i);
        } else {
          assert RepeatedAt(caps, |caps| - 1);
          assert RepeatIssues(caps)[k] == RepeatedCapability(caps[|caps| - 1]);
        }
      }
    } else {
      assert |RepeatIssues(caps)| == 0;
    }
  }

  /** `RoleEmergenceValidator.validate_roles`. */
  function ValidateRoles(roles: seq<EmergentRole>): (v: Validation)
    ensures v.valid <==> |v.issues| == 0
    ensures v.roleCount == |roles| && v.totalCapabilities == |AllCapabilities(roles)|
    ensures |roles| < 2 ==> TooFewRoles in v.issues
    ensures |roles| > MaxRoles ==> TooManyRoles(|roles|) in v.issues
  {
    var caps := AllCapabilities(roles);
    var issues := (if |roles| < 2 then [TooFewRoles] else [])
                  + (if |roles| > MaxRoles then [TooManyRoles(|roles|)] else [])
                  + RepeatIssues(caps) + PromptIssues(roles);
    Validation(|issues| == 0, issues, |roles|, |caps|)
  }

  /** No repeat issue exactly when no capability occurs twice. */
  lemma {:induction false} RepeatIssuesIffRepeated(caps: seq<string>)
    ensures RepeatIssues(caps) == [] <==> Distinct(caps)
    decreases |caps|
  {
    if |caps| > 0 {
      var init := caps[..|caps| - 1];
      var last := caps[|caps| - 1];
      RepeatIssuesIffRepeated(init);
      if Distinct(caps) {
        assert forall i, j :: 0 <= i < j < |init| ==> init[i] == caps[i] && init[j] == caps[j];
      }
    }
  }

  /** The roster is valid exactly when it has two to five roles, no
      capability is shared or repeated, and every system prompt is at least
      100 characters long. */
  lemma ValidIff(roles: seq<EmergentRole>)
    ensures ValidateRoles(roles).valid <==>
      && 2 <= |roles| <= MaxRoles
      && Distinct(AllCapabilities(roles))
      && forall i :: 0 <= i < |roles| ==> PromptLength(roles[i]) >= MinPromptLength
  {
    RepeatIssuesIffRepeated(AllCapabilities(roles));
    PromptIssuesExact(roles);
  }

  /** The capability total is the sum of the roles' list lengths. */
  function CapabilitySum(roles: seq<EmergentRole>): nat {
    if |roles| == 0 then 0 else |roles[0].capabilities| + CapabilitySum(roles[1..])
  }

  lemma {:induction false} TotalCapabilitiesIsSum(roles: seq<EmergentRole>)
    ensures ValidateRoles(roles).totalCapabilities == CapabilitySum(roles)
    decreases |roles|
  {
    if |roles| > 0 {
      TotalCapabilitiesIsSum(roles[1..]);
    }
  }
}
