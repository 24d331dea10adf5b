/** The skills runtime: the budget read from the environment, which
    registered skills an agent run may use (gating and ranking), and the
    per-session snapshot that caches that choice. The environment, the
    host's operating system and binaries, and the clock are parameters. */
module SkillsRuntime {
  import opened Util
  import opened OrderedTable
  import opened SkillModels
  import opened SkillRegistry

  // ------------------------------------------------------------------ budget

  datatype Config = Config(maxToolsPerRun: int, maxToolRounds: int, toolDetectTimeoutSec: int,
                           skillExecTimeoutSec: int, maxTotalToolTimeSec: int, snapshotTtlSec: int,
                           strictGating: bool)

  const Defaults := Config(12, 4, 60, 45, 180, 300, false)

  type Env = map<string, string>

  predicate IsDigit(c: char) { '0' <= c <= '9' }

  /** The digits of Python's integer literal syntax as `int()` accepts
      them: at least one digit, single underscores only between digits. */
  predicate DigitGroup(s: string) {
    |s| > 0 && IsDigit(s[0]) && IsDigit(s[|s| - 1])
    && (forall i :: 0 <= i < |s| ==> IsDigit(s[i]) || s[i] == '_')
    && (forall i :: 0 <= i < |s| - 1 ==> !(s[i] == '_' && s[i + 1] == '_'))
  }

  /** The value of the digits, underscores skipped. */
  function DigitValue(s: string): (n: nat)
    decreases |s|
  {
    if |s| == 0 then 0
    else if IsDigit(s[|s| - 1]) then DigitValue(s[..|s| - 1]) * 10 + (s[|s| - 1] as int - '0' as int)
    else DigitValue(s[..|s| - 1])
  }

  /** Python `int(raw)` on a string, `None` where it raises `ValueError`:
      surrounding whitespace, an optional sign, then decimal digits. */
  function ParseInt(raw: string): (r: Option<int>)
    ensures r.Some? ==> Strip(raw) != ""
  {
    var t := Strip(raw);
    var negative := |t| > 0 && t[0] == '-';
    var body := if |t| > 0 && (t[0] == '-' || t[0] == '+') then t[1..] else t;
    var v: int := DigitValue(body);
    if DigitGroup(body) then Some(if negative then -v else v) else None
  }

  lemma {:induction false} NatToStringValue(n: nat)
    ensures DigitValue(NatToString(n)) == n
  {
    var s := NatToString(n);
    if n >= 10 {
      NatToStringValue(n / 10);
      assert s[..|s| - 1] == NatToString(n / 10);
    }
  }

  lemma StripUnpadded(s: string)
    requires |s| > 0 && !IsSpace(s[0]) && !IsSpace(s[|s| - 1])
    ensures Strip(s) == s
  {
    assert TrimLeft(s) == s;
  }

  lemma NatToStringDigits(n: nat)
    ensures DigitGroup(NatToString(n)) && DigitValue(NatToString(n)) == n
  {
    NatToStringValue(n);
  }

  /** Plain digits parse to their value. */
  lemma ParseDigits(t: string, n: nat)
    requires DigitGroup(t) && DigitValue(t) == n
    ensures ParseInt(t) == Some(n)
  {
    StripUnpadded(t);
    assert t[0] != '-' && t[0] != '+';
  }

  /** Digits after a minus sign parse to the negated value. */
  lemma ParseNegatedDigits(t: string, n: nat)
    requires DigitGroup(t) && DigitValue(t) == n
    ensures ParseInt("-" + t) == Some(-(n as int))
  {
    var m := "-" + t;
    assert m[|m| - 1] == t[|t| - 1];
    StripUnpadded(m);
    assert m[0] == '-' && m[1..] == t;
  }

  /** `int(str(n))` gives back `n`, and `int("-" + str(n))` gives `-n`. */
  lemma ParseIntRoundTrip(n: nat)
    ensures ParseInt(NatToString(n)) == Some(n)
    ensures ParseInt("-" + NatToString(n)) == Some(-(n as int))
  {
    ParsePositive(n);
    ParseNegative(n);
  }

  lemma ParsePositive(n: nat)
    ensures ParseInt(NatToString(n)) == Some(n)
  {
    NatToStringDigits(n);
    ParseDigits(NatToString(n), n);
  }

  lemma ParseNegative(n: nat)
    ensures ParseInt("-" + NatToString(n)) == Some(-(n as int))
  {
    NatToStringDigits(n);
    ParseNegatedDigits(NatToString(n), n);
  }

  /** `_int(key, default)`. */
  function EnvInt(env: Env, key: string, default: int): (r: int)
    ensures key !in env ==> r == default
    ensures key in env && ParseInt(env[key]).None? ==> r == default
    ensures key in env && ParseInt(env[key]).Some? ==> r == ParseInt(env[key]).value
  {
    if key !in env then default else ParseInt(env[key]).GetOr(default)
  }

  const TrueWords: set<string> := {"1", "true", "yes", "on"}

  /** `_bool(key, default)`. */
  function EnvBool(env: Env, key: string, default: bool): (r: bool)
    ensures key !in env ==> r == default
    ensures key in env ==> (r <==> Lower(Strip(env[key])) in TrueWords)
  {
    if key !in env then default else Lower(Strip(env[key])) in TrueWords
  }

  /** The floors `from_env` puts under each limit. */
  predicate WithinFloors(c: Config) {
    c.maxToolsPerRun >= 1 && c.maxToolRounds >= 1 && c.toolDetectTimeoutSec >= 10
    && c.skillExecTimeoutSec >= 5 && c.maxTotalToolTimeSec >= 15 && c.snapshotTtlSec >= 10
  }

  /** `SkillsRuntimeConfig.from_env()`. */
  function FromEnv(env: Env): (c: Config)
    ensures WithinFloors(c)
    ensures (forall k :: k in env ==> ParseInt(env[k]).None?) && "SKILLS_STRICT_GATING" !in env ==> c == Defaults
  {
    Config(Max(1, EnvInt(env, "SKILLS_MAX_TOOLS_PER_RUN", 12)),
           Max(1, EnvInt(env, "SKILLS_MAX_TOOL_ROUNDS", 4)),
           Max(10, EnvInt(env, "SKILLS_TOOL_DETECT_TIMEOUT_SEC", 60)),
           Max(5, EnvInt(env, "SKILLS_SKILL_EXEC_TIMEOUT_SEC", 45)),
           Max(15, EnvInt(env, "SKILLS_MAX_TOTAL_TOOL_TIME_SEC", 180)),
           Max(10, EnvInt(env, "SKILLS_SNAPSHOT_TTL_SEC", 300)),
           EnvBool(env, "SKILLS_STRICT_GATING", false))
  }

  /** The environment spells out a configuration: each limit as its
      decimal digits and the gating flag as "true" or "false". */
  predicate Spells(env: Env, c: Config)
    requires WithinFloors(c)
  {
    && "SKILLS_MAX_TOOLS_PER_RUN" in env && env["SKILLS_MAX_TOOLS_PER_RUN"] == NatToString(c.maxToolsPerRun)
    && "SKILLS_MAX_TOOL_ROUNDS" in env && env["SKILLS_MAX_TOOL_ROUNDS"] == NatToString(c.maxToolRounds)
    && "SKILLS_TOOL_DETECT_TIMEOUT_SEC" in env
    && env["SKILLS_TOOL_DETECT_TIMEOUT_SEC"] == NatToString(c.toolDetectTimeoutSec)
    && "SKILLS_SKILL_EXEC_TIMEOUT_SEC" in env
    && env["SKILLS_SKILL_EXEC_TIMEOUT_SEC"] == NatToString(c.skillExecTimeoutSec)
    && "SKILLS_MAX_TOTAL_TOOL_TIME_SEC" in env
    && env["SKILLS_MAX_TOTAL_TOOL_TIME_SEC"] == NatToString(c.maxTotalToolTimeSec)
    && "SKILLS_SNAPSHOT_TTL_SEC" in env && env["SKILLS_SNAPSHOT_TTL_SEC"] == NatToString(c.snapshotTtlSec)
    && "SKILLS_STRICT_GATING" in env && env["SKILLS_STRICT_GATING"] == (if c.strictGating then "true" else "false")
  }

  /** Every configuration within the floors, and so every one `from_env`
      can produce, is read back from an environment that spells it out. */
  lemma FromEnvRoundTrip(env: Env, c: Config)
    requires WithinFloors(c) && Spells(env, c)
    ensures FromEnv(env) == c
  {
    EnvIntReads(env, "SKILLS_MAX_TOOLS_PER_RUN", c.maxToolsPerRun, 12);
    EnvIntReads(env, "SKILLS_MAX_TOOL_ROUNDS", c.maxToolRounds, 4);
    EnvIntReads(env, "SKILLS_TOOL_DETECT_TIMEOUT_SEC", c.toolDetectTimeoutSec, 60);
    EnvIntReads(env, "SKILLS_SKILL_EXEC_TIMEOUT_SEC", c.skillExecTimeoutSec, 45);
    EnvIntReads(env, "SKILLS_MAX_TOTAL_TOOL_TIME_SEC", c.maxTotalToolTimeSec, 180);
    EnvIntReads(env, "SKILLS_SNAPSHOT_TTL_SEC", c.snapshotTtlSec, 300);
    EnvBoolReads(env, "SKILLS_STRICT_GATING", c.strictGating);
  }

  lemma EnvBoolReads(env: Env, key: string, b: bool)
    requires key in env && env[key] == (if b then "true" else "false")
    ensures EnvBool(env, key, false) == b
  {
    StripUnpadded(env[key]);
    assert Lower(env[key]) == env[key];
    if !b {
      assert |env[key]| == 5;
    }
  }

  lemma EnvIntReads(env: Env, key: string, n: nat, default: int)
    requires key in env && env[key] == NatToString(n)
    ensures EnvInt(env, key, default) == n
  {
    ParseIntRoundTrip(n);
  }

  /** A value `int()` rejects leaves the default in place. */
  lemma UnparsableFallsBack(env: Env)
    requires "SKILLS_MAX_TOOLS_PER_RUN" in env && ParseInt(env["SKILLS_MAX_TOOLS_PER_RUN"]).None?
    ensures FromEnv(env).maxToolsPerRun == 12
  {
  }

  // ----------------------------------------------------------------- gating

  /** What `_is_skill_eligible` asks of the host: its operating system as
      `platform.system()` names it, the binaries `shutil.which` finds, and
      the environment. */
  datatype Host = Host(os: string, binaries: set<string>, env: Env)

  /** The required systems, trimmed and lower-cased, blanks dropped. */
  function OsNames(m: Metadata): (r: set<string>)
    ensures forall o :: o in r <==> exists x :: x in m.requiresOs && Strip(x) != "" && o == Lower(Strip(x))
  {
    set x | x in m.requiresOs && Strip(x) != "" :: Lower(Strip(x))
  }

  predicate OsAllowed(m: Metadata, host: Host) {
    |m.requiresOs| == 0 || Lower(host.os) in OsNames(m)
  }

  function MissingBins(m: Metadata, host: Host): seq<string> {
    Filter(m.requiresBins, (b: string) => b != "" && b !in host.binaries)
  }

  function MissingEnvs(m: Metadata, host: Host): seq<string> {
    Filter(m.requiresEnvs, (k: string) => k != "" && (k !in host.env || host.env[k] == ""))
  }

  /** `_is_skill_eligible(skill)`'s verdict. */
  predicate Eligible(c: Config, host: Host, m: Metadata) {
    OsAllowed(m, host)
    && (!c.strictGating || (|MissingBins(m, host)| == 0 && |MissingEnvs(m, host)| == 0))
  }

  /** Strict gating accepts a skill exactly when its system is allowed,
      every named binary is found and every named variable is set to
      something; soft gating looks at the system alone. */
  lemma GatingLevels(c: Config, host: Host, m: Metadata)
    ensures !c.strictGating ==> (Eligible(c, host, m) <==> OsAllowed(m, host))
    ensures c.strictGating ==>
              (Eligible(c, host, m) <==>
                 OsAllowed(m, host)
                 && (forall b :: b in m.requiresBins && b != "" ==> b in host.binaries)
                 && (forall k :: k in m.requiresEnvs && k != "" ==> k in host.env && host.env[k] != ""))
  {
    FilterMembershipAll(m.requiresBins, (b: string) => b != "" && b !in host.binaries);
    FilterMembershipAll(m.requiresEnvs, (k: string) => k != "" && (k !in host.env || host.env[k] == ""));
    if |MissingBins(m, host)| > 0 {
      assert MissingBins(m, host)[0] in MissingBins(m, host);
    }
    if |MissingEnvs(m, host)| > 0 {
      assert MissingEnvs(m, host)[0] in MissingEnvs(m, host);
    }
  }

  /** A system list of blanks only allows no system at all. */
  lemma BlankSystemsExcludeAll(c: Config, host: Host, m: Metadata)
    requires |m.requiresOs| > 0 && forall x :: x in m.requiresOs ==> Strip(x) == ""
    ensures !Eligible(c, host, m)
  {
  }

  // ---------------------------------------------------------------- ranking

  /** Python's `<=` on strings: code point by code point, a prefix first. */
  predicate StrLe(a: string, b: string)
    decreases |a|
  {
    |a| == 0 || (|b| > 0 && (a[0] < b[0] || (a[0] == b[0] && StrLe(a[1..], b[1..]))))
  }

  lemma {:induction false} StrLeTotal(a: string, b: string)
    ensures StrLe(a, b) || StrLe(b, a)
    decreases |a|
  {
    if |a| > 0 && |b| > 0 && a[0] == b[0] {
      StrLeTotal(a[1..], b[1..]);
    }
  }

  lemma {:induction false} StrLeTrans(a: string, b: string, c: string)
    requires StrLe(a, b) && StrLe(b, c)
    ensures StrLe(a, c)
    decreases |a|
  {
    if |a| > 0 && a[0] == b[0] && b[0] == c[0] {
      StrLeTrans(a[1..], b[1..], c[1..]);
    }
  }

  /** A candidate as `_resolve_runtime_skill_names` collects it. */
  datatype Entry = Entry(score: int, name: string)

  /** The order of the `(score, name)` tuples. */
  predicate EntryLe(x: Entry, y: Entry) {
    x.score < y.score || (x.score == y.score && StrLe(x.name, y.name))
  }

  lemma EntryLeTotal(x: Entry, y: Entry)
    ensures EntryLe(x, y) || EntryLe(y, x)
  {
    StrLeTotal(x.name, y.name);
  }

  lemma EntryLeTrans(x: Entry, y: Entry, z: Entry)
    requires EntryLe(x, y) && EntryLe(y, z)
    ensures EntryLe(x, z)
  {
    if x.score == y.score == z.score {
      StrLeTrans(x.name, y.name, z.name);
    }
  }

  predicate Sorted(s: seq<Entry>) {
    forall i, j :: 0 <= i < j < |s| ==> EntryLe(s[i], s[j])
  }

  /** Place `e` before the first entry it does not follow. */
  function Insert(s: seq<Entry>, e: Entry): (r: seq<Entry>)
    requires Sorted(s)
    ensures multiset(r) == multiset(s) + multiset{e}
    ensures Sorted(r)
  {
    if |s| == 0 then [e]
    else if EntryLe(e, s[0]) then
      forall j | 0 <= j < |s|
        ensures EntryLe(e, s[j])
      {
        if j > 0 {
          EntryLeTrans(e, s[0], s[j]);
        }
      }
      [e] + s
    else
      var rest := Insert(s[1..], e);
      assert s == [s[0]] + s[1..];
      HeadPrecedes(s, e, rest);
      [s[0]] + rest
  }

  /** The head of a sorted sequence precedes everything of its tail with
      an entry added that does not precede the head. */
  lemma HeadPrecedes(s: seq<Entry>, e: Entry, rest: seq<Entry>)
    requires Sorted(s) && |s| > 0 && !EntryLe(e, s[0])
    requires multiset(rest) == multiset(s[1..]) + multiset{e}
    ensures forall j :: 0 <= j < |rest| ==> EntryLe(s[0], rest[j])
  {
    forall j | 0 <= j < |rest|
      ensures EntryLe(s[0], rest[j])
    {
      assert rest[j] in multiset(rest);
      if rest[j] == e {
        EntryLeTotal(e, s[0]);
      } else {
        assert rest[j] in multiset(s[1..]);
        var k :| 0 <= k < |s[1..]| && s[1..][k] == rest[j];
        assert s[k + 1] == rest[j];
      }
    }
  }

  /** Python's `sort` on the `(score, name)` tuples. */
  function SortEntries(s: seq<Entry>): (r: seq<Entry>)
    ensures multiset(r) == multiset(s)
    ensures Sorted(r)
  {
    if |s| == 0 then []
    else
      assert s == s[..|s| - 1] + [s[|s| - 1]];
      Insert(SortEntries(s[..|s| - 1]), s[|s| - 1])
  }

  /** Whether a keyword of the skill occurs in the lower-cased task; blank
      keywords never match, and nothing matches an empty task. */
  predicate KeywordHit(m: Metadata, taskLower: string) {
    taskLower != "" && exists kw :: kw in m.triggerKeywords && kw != "" && Contains(taskLower, Lower(kw))
  }

  /** A skill's rank: its priority, 20 better when a keyword hits. */
  function RuntimeScore(m: Metadata, taskLower: string): (score: int)
    ensures score == m.priority || score == m.priority - 20
    ensures score < m.priority <==> KeywordHit(m, taskLower)
  {
    if KeywordHit(m, taskLower) then m.priority - 20 else m.priority
  }

  /** The eligible skills in registry order, each with its rank. */
  function Scored(skills: seq<Skill>, c: Config, host: Host, taskLower: string): seq<Entry>
    decreases |skills|
  {
    if |skills| == 0 then []
    else
      var s := skills[0];
      var rest := Scored(skills[1..], c, host, taskLower);
      if Eligible(c, host, s.metadata) then [Entry(RuntimeScore(s.metadata, taskLower), s.Name())] + rest else rest
  }

  /** Every entry comes from an eligible skill. */
  lemma {:induction false} ScoredIsEligible(skills: seq<Skill>, c: Config, host: Host, taskLower: string, e: Entry)
    requires e in Scored(skills, c, host, taskLower)
    ensures exists s :: s in skills && Eligible(c, host, s.metadata)
                        && e == Entry(RuntimeScore(s.metadata, taskLower), s.Name())
    decreases |skills|
  {
    var s := skills[0];
    var rest := Scored(skills[1..], c, host, taskLower);
    if Eligible(c, host, s.metadata) && e == Entry(RuntimeScore(s.metadata, taskLower), s.Name()) {
    } else {
      assert e in rest;
      ScoredIsEligible(skills[1..], c, host, taskLower, e);
      var x :| x in skills[1..] && Eligible(c, host, x.metadata)
               && e == Entry(RuntimeScore(x.metadata, taskLower), x.Name());
      assert x in skills;
    }
  }

  lemma {:induction false} ScoredCoversEligible(skills: seq<Skill>, c: Config, host: Host, taskLower: string, s: Skill)
    requires s in skills && Eligible(c, host, s.metadata)
    ensures Entry(RuntimeScore(s.metadata, taskLower), s.Name()) in Scored(skills, c, host, taskLower)
    decreases |skills|
  {
    var e := Entry(RuntimeScore(s.metadata, taskLower), s.Name());
    var rest := Scored(skills[1..], c, host, taskLower);
    if skills[0] == s {
      assert Scored(skills, c, host, taskLower) == [e] + rest;
    } else {
      assert s in skills[1..];
      ScoredCoversEligible(skills[1..], c, host, taskLower, s);
      assert e in rest;
      if Eligible(c, host, skills[0].metadata) {
        assert Scored(skills, c, host, taskLower)[1..] == rest;
      } else {
        assert Scored(skills, c, host, taskLower) == rest;
      }
    }
  }

  function Names(es: seq<Entry>): (ns: seq<string>)
    ensures |ns| == |es| && forall i :: 0 <= i < |es| ==> ns[i] == es[i].name
  {
    seq(|es|, i requires 0 <= i < |es| => es[i].name)
  }

  /** All eligible skills of the registry in selection order. */
  function Ranking(reg: Registry, c: Config, host: Host, task: string): (es: seq<Entry>)
    requires Valid(reg.skills)
    ensures Sorted(es)
    ensures multiset(es) == multiset(Scored(Values(reg.skills), c, host, Lower(task)))
  {
    SortEntries(Scored(Values(reg.skills), c, host, Lower(task)))
  }

  /** The ranking holds an entry exactly for each eligible registered skill. */
  lemma RankingIsEligible(reg: Registry, c: Config, host: Host, task: string, e: Entry)
    requires Valid(reg.skills)
    ensures e in Ranking(reg, c, host, task) <==>
              exists s :: s in Values(reg.skills) && Eligible(c, host, s.metadata)
                          && e == Entry(RuntimeScore(s.metadata, Lower(task)), s.Name())
  {
    var scored := Scored(Values(reg.skills), c, host, Lower(task));
    assert e in Ranking(reg, c, host, task) <==> e in multiset(scored);
    if e in scored {
      ScoredIsEligible(Values(reg.skills), c, host, Lower(task), e);
    }
    if s :| s in Values(reg.skills) && Eligible(c, host, s.metadata)
            && e == Entry(RuntimeScore(s.metadata, Lower(task)), s.Name()) {
      ScoredCoversEligible(Values(reg.skills), c, host, Lower(task), s);
    }
  }

  /** Some eligible registered skill carries the name. */
  predicate EligibleName(reg: Registry, c: Config, host: Host, name: string)
    requires Valid(reg.skills)
  {
    exists s :: s in Values(reg.skills) && Eligible(c, host, s.metadata) && s.Name() == name
  }

  lemma NamesAreEligible(reg: Registry, c: Config, host: Host, task: string, names: seq<string>)
    requires Valid(reg.skills)
    requires names == Names(Prefix(Ranking(reg, c, host, task), c.maxToolsPerRun))
    ensures forall i :: 0 <= i < |names| ==> EligibleName(reg, c, host, names[i])
  {
    var es := Ranking(reg, c, host, task);
    forall i | 0 <= i < |names|
      ensures EligibleName(reg, c, host, names[i])
    {
      assert names[i] == es[i].name && es[i] in es;
      RankingIsEligible(reg, c, host, task, es[i]);
    }
  }

  /** `_resolve_runtime_skill_names(task)`: the names of the first
      `max_tools_per_run` ranked skills. */
  function SelectNames(reg: Registry, c: Config, host: Host, task: string): (names: seq<string>)
    requires Valid(reg.skills)
    ensures c.maxToolsPerRun >= 0 ==> |names| <= c.maxToolsPerRun
    ensures forall i :: 0 <= i < |names| ==> EligibleName(reg, c, host, names[i])
  {
    var es := Ranking(reg, c, host, task);
    var names := Names(Prefix(es, c.maxToolsPerRun));
    NamesAreEligible(reg, c, host, task, names);
    names
  }

  /** The selection is the ranking's head: its names in ascending
      `(score, name)` order, and every eligible skill left out ranks at or
      after every chosen one. */
  lemma SelectionIsHeadOfRanking(reg: Registry, c: Config, host: Host, task: string)
    requires Valid(reg.skills)
    ensures var es := Ranking(reg, c, host, task);
            var names := SelectNames(reg, c, host, task);
            |names| <= |es|
            && (forall i :: 0 <= i < |names| ==> names[i] == es[i].name)
            && (forall i, j :: 0 <= i < j < |names| ==> EntryLe(es[i], es[j]))
            && (forall i, j :: 0 <= i < |names| <= j < |es| ==> EntryLe(es[i], es[j]))
  {
    var es := Ranking(reg, c, host, task);
    var chosen := Prefix(es, c.maxToolsPerRun);
    assert SelectNames(reg, c, host, task) == Names(chosen);
    forall i | 0 <= i < |chosen|
      ensures chosen[i] == es[i]
    {
    }
  }

  // --------------------------------------------------------------- snapshots

  datatype Snapshot = Snapshot(names: seq<string>, createdAt: int, registryUpdatedAt: int)

  datatype Manager = Manager(registry: Registry, config: Config, host: Host, snapshots: map<string, Snapshot>)

  /** `clear_session_snapshot(session_id)`. */
  function ClearSnapshot(m: Manager, sessionId: string): (r: Manager)
    ensures sessionId !in r.snapshots
    ensures forall k :: k != sessionId ==> (k in r.snapshots <==> k in m.snapshots)
    ensures forall k :: k in r.snapshots ==> r.snapshots[k] == m.snapshots[k]
    ensures r.registry == m.registry && r.config == m.config && r.host == m.host
  {
    m.(snapshots := m.snapshots - {sessionId})
  }

  lemma ClearSnapshotIdempotent(m: Manager, sessionId: string)
    ensures ClearSnapshot(ClearSnapshot(m, sessionId), sessionId) == ClearSnapshot(m, sessionId)
  {
  }

  /** What `resolve_skills_for_session` does as written: its first step
      asks the registry for `get_last_update_timestamp()`, a method the
      registry does not have, so every call raises `AttributeError`. */
  datatype Resolution = Resolved(manager: Manager, names: seq<string>) | RaisedAttributeError

  function ResolveAsWritten(m: Manager, sessionId: string, task: string, forceRefresh: bool, now: int)
    : (r: Resolution)
    ensures !r.Resolved?
  {
    RaisedAttributeError
  }

  /** Whether the stored snapshot may be served. */
  predicate Fresh(m: Manager, sessionId: string, forceRefresh: bool, now: int) {
    !forceRefresh && sessionId in m.snapshots
    && now - m.snapshots[sessionId].createdAt <= m.config.snapshotTtlSec
    && m.snapshots[sessionId].registryUpdatedAt >= m.registry.lastUpdate
  }

  /** `resolve_skills_for_session` reading the registry's last update time
      from the registry itself. */
  function Resolve(m: Manager, sessionId: string, task: string, forceRefresh: bool, now: int): (r: Resolution)
    requires Valid(m.registry.skills)
    ensures r.Resolved?
    ensures Fresh(m, sessionId, forceRefresh, now) ==> r == Resolved(m, m.snapshots[sessionId].names)
    ensures !Fresh(m, sessionId, forceRefresh, now) ==>
              r.names == SelectNames(m.registry, m.config, m.host, task)
              && r.manager == m.(snapshots := m.snapshots[sessionId := Snapshot(r.names, now, m.registry.lastUpdate)])
  {
    if Fresh(m, sessionId, forceRefresh, now) then Resolved(m, m.snapshots[sessionId].names)
    else
      var selected := SelectNames(m.registry, m.config, m.host, task);
      Resolved(m.(snapshots := m.snapshots[sessionId := Snapshot(selected, now, m.registry.lastUpdate)]), selected)
  }

  /** Once a selection is computed, asking again within the time-to-live,
      with the registry untouched, gives the same names without
      recomputing them. */
  lemma ResolveIsCached(m: Manager, sessionId: string, task: string, task2: string, forceRefresh: bool,
                        now: int, later: int)
    requires Valid(m.registry.skills) && !Fresh(m, sessionId, forceRefresh, now)
    requires now <= later <= now + m.config.snapshotTtlSec
    ensures var first := Resolve(m, sessionId, task, forceRefresh, now);
            var second := Resolve(first.manager, sessionId, task2, false, later);
            second.names == first.names && second.manager == first.manager
  {
  }

  /** A registration after the snapshot was taken forces a fresh selection. */
  lemma RegisterInvalidates(m: Manager, sessionId: string, task: string, s: Skill, now: int, later: int)
    requires Inv(m.registry) && sessionId in m.snapshots
    requires later > m.snapshots[sessionId].registryUpdatedAt
    ensures var m2 := m.(registry := SkillRegistry.Register(m.registry, s, later));
            Valid(m2.registry.skills) && !Fresh(m2, sessionId, false, now)
            && Resolve(m2, sessionId, task, false, now).names == SelectNames(m2.registry, m2.config, m2.host, task)
  {
    RegisterKeepsInv(m.registry, s, later);
  }

  /** `clear()` on the registry keeps its update time, so a fresh
      snapshot taken before it is still served afterwards, naming skills
      the registry no longer has. */
  lemma ClearKeepsSnapshot(m: Manager, sessionId: string, task: string, now: int)
    requires Valid(m.registry.skills) && Fresh(m, sessionId, false, now)
    ensures var m2 := m.(registry := SkillRegistry.Clear(m.registry));
            Resolve(m2, sessionId, task, false, now).names == m.snapshots[sessionId].names
  {
  }
}
