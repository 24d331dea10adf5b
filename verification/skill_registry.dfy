/** The skill registry: skills keyed by name in registration order, plus
    three secondary indexes from a category, a tag or a lower-cased trigger
    keyword to the names of the skills that carry it. `Inv` states that
    every index reflects the skills exactly; registering and unregistering
    keep it, and the index-driven queries agree with a direct scan of the
    skills. The registry's clock is a parameter. */
module SkillRegistry {
  import opened Util
  import opened OrderedTable
  import opened SkillModels

  type Index = map<string, set<string>>

  datatype Registry = Registry(skills: Table<Skill>, categories: Index, tags: Index, triggers: Index,
                               lastUpdate: int)

  /** A fresh registry at time `now`. */
  function NewRegistry(now: int): (r: Registry)
    ensures Inv(r) && r.skills.rows == map[] && r.lastUpdate == now
  {
    Registry(Empty(), map[], map[], map[], now)
  }

  // ---------------------------------------------------------------- indexes

  /** The category index key of a skill: its category when that is set and non-empty. */
  function CategoryKeys(s: Skill): set<string> {
    if Truthy(s.metadata.category) then {s.metadata.category.value} else {}
  }

  function TagKeys(s: Skill): set<string> {
    set t | t in s.metadata.tags
  }

  function TriggerKeys(s: Skill): set<string> {
    set k | k in s.metadata.triggerKeywords :: Lower(k)
  }

  /** `idx` lists, under each key, exactly the names of the skills whose
      keys include it. A key may remain with no names. */
  ghost predicate Reflects(idx: Index, skills: map<string, Skill>, keysOf: Skill -> set<string>) {
    (forall k, n :: k in idx && n in idx[k] ==> n in skills && k in keysOf(skills[n]))
    && (forall n, k :: n in skills && k in keysOf(skills[n]) ==> k in idx && n in idx[k])
  }

  ghost predicate Inv(r: Registry) {
    Valid(r.skills)
    && (forall n :: n in r.skills.rows ==> r.skills.rows[n].Name() == n)
    && Reflects(r.categories, r.skills.rows, CategoryKeys)
    && Reflects(r.tags, r.skills.rows, TagKeys)
    && Reflects(r.triggers, r.skills.rows, TriggerKeys)
  }

  /** `_update_indexes` for one index: add `name` under each of `keys`,
      creating missing keys. */
  function AddKeys(idx: Index, keys: set<string>, name: string): (r: Index)
    ensures r.Keys == idx.Keys + keys
    ensures forall k :: k in r ==> r[k] == (if k in idx then idx[k] else {}) + (if k in keys then {name} else {})
  {
    map k | k in idx.Keys + keys :: (if k in idx then idx[k] else {}) + (if k in keys then {name} else {})
  }

  /** `_remove_from_indexes` for one index: discard `name` under each of
      `keys`; keys are never deleted. */
  function DropKeys(idx: Index, keys: set<string>, name: string): (r: Index)
    ensures r.Keys == idx.Keys
    ensures forall k :: k in r ==> r[k] == (if k in keys then idx[k] - {name} else idx[k])
  {
    map k | k in idx :: if k in keys then idx[k] - {name} else idx[k]
  }

  /** One index after `skills[name] = s`: the old skill's entries are
      discarded first when the name was taken. */
  function ReindexPut(idx: Index, skills: map<string, Skill>, keysOf: Skill -> set<string>,
                      name: string, s: Skill): Index
  {
    AddKeys(if name in skills then DropKeys(idx, keysOf(skills[name]), name) else idx, keysOf(s), name)
  }

  lemma ReindexPutReflects(idx: Index, skills: map<string, Skill>, keysOf: Skill -> set<string>,
                           name: string, s: Skill)
    requires Reflects(idx, skills, keysOf)
    ensures Reflects(ReindexPut(idx, skills, keysOf, name, s), skills[name := s], keysOf)
  {
    var mid := if name in skills then DropKeys(idx, keysOf(skills[name]), name) else idx;
    assert forall k :: k in mid ==> name !in mid[k];
    var r := ReindexPut(idx, skills, keysOf, name, s);
    var after := skills[name := s];
    forall k, n | k in r && n in r[k] ensures n in after && k in keysOf(after[n]) {
      if n != name {
        assert k in mid && n in mid[k];
      }
    }
    forall n, k | n in after && k in keysOf(after[n]) ensures k in r && n in r[k] {
      if n != name {
        assert k in idx && n in idx[k];
      }
    }
  }

  lemma DropKeysReflects(idx: Index, skills: map<string, Skill>, keysOf: Skill -> set<string>, name: string)
    requires Reflects(idx, skills, keysOf) && name in skills
    ensures Reflects(DropKeys(idx, keysOf(skills[name]), name), skills - {name}, keysOf)
  {
  }

  // -------------------------------------------------------- register/unregister

  /** `register(skill)` at time `now`. The source catches any exception and
      returns False, but nothing in the body can raise, so it returns True. */
  function Register(r: Registry, s: Skill, now: int): (r': Registry)
    requires Inv(r)
    ensures r'.skills.rows == r.skills.rows[s.Name() := s]
    ensures s.Name() in r.skills.rows ==> r'.skills.keys == r.skills.keys
    ensures s.Name() !in r.skills.rows ==> r'.skills.keys == r.skills.keys + [s.Name()]
    ensures r'.lastUpdate == now
  {
    var name := s.Name();
    var rows := r.skills.rows;
    Registry(Put(r.skills, name, s),
             ReindexPut(r.categories, rows, CategoryKeys, name, s),
             ReindexPut(r.tags, rows, TagKeys, name, s),
             ReindexPut(r.triggers, rows, TriggerKeys, name, s),
             now)
  }

  /** Registering keeps every index exact, and the skill is then found
      under its name. */
  lemma RegisterKeepsInv(r: Registry, s: Skill, now: int)
    requires Inv(r)
    ensures Inv(Register(r, s, now))
    ensures Get(Register(r, s, now), s.Name()) == Some(s) && Has(Register(r, s, now), s.Name())
  {
    var rows := r.skills.rows;
    ReindexPutReflects(r.categories, rows, CategoryKeys, s.Name(), s);
    ReindexPutReflects(r.tags, rows, TagKeys, s.Name(), s);
    ReindexPutReflects(r.triggers, rows, TriggerKeys, s.Name(), s);
  }

  /** `unregister(name)`: False for an unknown name; otherwise the skill
      and all its index entries go and the clock is recorded. */
  function Unregister(r: Registry, name: string, now: int): (res: (Registry, bool))
    requires Inv(r)
    ensures res.1 <==> name in r.skills.rows
    ensures !res.1 ==> res.0 == r
    ensures res.1 ==> res.0.skills.rows == r.skills.rows - {name} && res.0.lastUpdate == now
  {
    if name !in r.skills.rows then (r, false)
    else
      var gone := r.skills.rows[name];
      (Registry(Remove(r.skills, name),
                DropKeys(r.categories, CategoryKeys(gone), name),
                DropKeys(r.tags, TagKeys(gone), name),
                DropKeys(r.triggers, TriggerKeys(gone), name),
                now),
       true)
  }

  /** Unregistering keeps every index exact, so no index names the removed skill. */
  lemma UnregisterKeepsInv(r: Registry, name: string, now: int)
    requires Inv(r)
    ensures Inv(Unregister(r, name, now).0)
    ensures var r' := Unregister(r, name, now).0;
            forall k :: (k in r'.categories ==> name !in r'.categories[k])
                     && (k in r'.tags ==> name !in r'.tags[k])
                     && (k in r'.triggers ==> name !in r'.triggers[k])
  {
    if name in r.skills.rows {
      var rows := r.skills.rows;
      DropKeysReflects(r.categories, rows, CategoryKeys, name);
      DropKeysReflects(r.tags, rows, TagKeys, name);
      DropKeysReflects(r.triggers, rows, TriggerKeys, name);
    }
  }

  /** `clear()`: no skills and empty indexes. The source leaves the
      last-update time as it was. */
  function Clear(r: Registry): (r': Registry)
    ensures Inv(r') && r'.skills.rows == map[] && r'.skills.keys == []
    ensures r'.categories == map[] && r'.tags == map[] && r'.triggers == map[]
    ensures r'.lastUpdate == r.lastUpdate
  {
    Registry(Empty(), map[], map[], map[], r.lastUpdate)
  }

  // ----------------------------------------------------------------- lookups

  function Get(r: Registry, name: string): (s: Option<Skill>)
    ensures s.Some? <==> name in r.skills.rows
    ensures s.Some? ==> s.value == r.skills.rows[name]
  {
    if name in r.skills.rows then Some(r.skills.rows[name]) else None
  }

  predicate Has(r: Registry, name: string) {
    name in r.skills.rows
  }

  function Count(r: Registry): nat {
    |r.skills.rows|
  }

  function ListNames(r: Registry): seq<string> {
    r.skills.keys
  }

  lemma {:induction false} DistinctCardinality(s: seq<string>)
    requires Distinct(s)
    ensures |set x | x in s| == |s|
  {
    if |s| > 0 {
      var t := s[1..];
      assert Distinct(t);
      DistinctCardinality(t);
      assert s[0] !in t;
      assert (set x | x in s) == (set x | x in t) + {s[0]};
    }
  }

  /** `count()` is the length of `list_names()`. */
  lemma CountIsListLength(r: Registry)
    requires Inv(r)
    ensures Count(r) == |ListNames(r)|
  {
    DistinctCardinality(r.skills.keys);
    assert r.skills.rows.Keys == set x | x in r.skills.keys;
  }

  /** `get_by_names(names)`: the registered skills among `names`, in the
      order the names are given. */
  function GetByNames(r: Registry, names: seq<string>): (res: seq<Skill>)
    ensures |res| <= |names|
    ensures forall i :: 0 <= i < |res| ==> res[i] in r.skills.rows.Values
    decreases |names|
  {
    if |names| == 0 then []
    else
      var last := names[|names| - 1];
      GetByNames(r, names[..|names| - 1]) + (if last in r.skills.rows then [r.skills.rows[last]] else [])
  }

  /** Looking up more names appends the skills of the registered ones, so
      the input order is kept and unknown names are dropped. */
  lemma GetByNamesAppend(r: Registry, names: seq<string>, more: seq<string>)
    ensures GetByNames(r, names + more) == GetByNames(r, names) + GetByNames(r, more)
    decreases |more|
  {
    if |more| == 0 {
      assert names + more == names;
    } else {
      assert (names + more)[..|names + more| - 1] == names + more[..|more| - 1];
      GetByNamesAppend(r, names, more[..|more| - 1]);
    }
  }

  /** A skill is returned exactly when one of the names registers it. */
  lemma {:induction false} GetByNamesMembership(r: Registry, names: seq<string>, s: Skill)
    ensures s in GetByNames(r, names) <==> exists n :: n in names && n in r.skills.rows && r.skills.rows[n] == s
    decreases |names|
  {
    if |names| > 0 {
      var init := names[..|names| - 1];
      GetByNamesMembership(r, init, s);
      assert names == init + [names[|names| - 1]];
    }
  }

  /** `get_by_category`/`get_by_tag`: the registered skills listed under
      `key`. The source returns them in set order; the model returns the set. */
  function ByIndex(r: Registry, idx: Index, key: string): set<Skill> {
    if key in idx then set n | n in idx[key] && n in r.skills.rows :: r.skills.rows[n] else {}
  }

  /** `get_by_category(category)`: only registered skills, and under the
      invariant exactly the registered skills whose category is `category`. */
  function GetByCategory(r: Registry, category: string): (res: set<Skill>)
    ensures res <= r.skills.rows.Values
    ensures Inv(r) ==> res == set s | s in r.skills.rows.Values && category in CategoryKeys(s)
  {
    CategoryIndexMatchesScan(r, category);
    ByIndex(r, r.categories, category)
  }

  /** `get_by_tag(tag)`: only registered skills, and under the invariant
      exactly the registered skills that carry `tag`. */
  function GetByTag(r: Registry, tag: string): (res: set<Skill>)
    ensures res <= r.skills.rows.Values
    ensures Inv(r) ==> res == set s | s in r.skills.rows.Values && tag in s.metadata.tags
  {
    TagIndexMatchesScan(r, tag);
    ByIndex(r, r.tags, tag)
  }

  /** The category index agrees with a scan of the registered skills. */
  lemma CategoryIndexMatchesScan(r: Registry, key: string)
    ensures ByIndex(r, r.categories, key) <= r.skills.rows.Values
    ensures Inv(r) ==> ByIndex(r, r.categories, key) == set s | s in r.skills.rows.Values && key in CategoryKeys(s)
  {
    var rows := r.skills.rows;
    if Inv(r) {
      forall s | s in rows.Values && key in CategoryKeys(s) ensures s in ByIndex(r, r.categories, key) {
        var n :| n in rows && rows[n] == s;
      }
    }
  }

  /** The tag index agrees with a scan of the registered skills. */
  lemma TagIndexMatchesScan(r: Registry, key: string)
    ensures ByIndex(r, r.tags, key) <= r.skills.rows.Values
    ensures Inv(r) ==> ByIndex(r, r.tags, key) == set s | s in r.skills.rows.Values && key in s.metadata.tags
  {
    var rows := r.skills.rows;
    if Inv(r) {
      forall s | s in rows.Values && key in s.metadata.tags ensures s in ByIndex(r, r.tags, key) {
        var n :| n in rows && rows[n] == s;
        assert key in TagKeys(s);
      }
    }
  }

  /** `get_tool_definitions(names)`: for a non-empty `names`, the tool
      definitions of the registered skills among them, in the order named;
      otherwise the definition of every registered skill, in registration order. */
  function GetToolDefinitions(r: Registry, names: seq<string>): (defs: seq<ToolDefinition>)
    requires Valid(r.skills)
    ensures |names| > 0 ==> |defs| == |GetByNames(r, names)|
                            && forall i :: 0 <= i < |defs| ==> defs[i] == ToToolDefinition(GetByNames(r, names)[i])
    ensures |names| == 0 ==> |defs| == |r.skills.keys|
                             && forall i :: 0 <= i < |defs| ==> defs[i] == ToToolDefinition(r.skills.rows[r.skills.keys[i]])
    ensures forall i :: 0 <= i < |defs| ==> defs[i].required == ["task"]
  {
    var skills := if |names| > 0 then GetByNames(r, names) else Values(r.skills);
    seq(|skills|, i requires 0 <= i < |skills| => ToToolDefinition(skills[i]))
  }

  /** For a non-empty list of names, a definition is returned exactly when
      one of the names registers a skill it is the definition of. */
  lemma ToolDefinitionsOfNames(r: Registry, names: seq<string>, d: ToolDefinition)
    requires Valid(r.skills) && |names| > 0
    ensures d in GetToolDefinitions(r, names)
            <==> exists n :: n in names && n in r.skills.rows && d == ToToolDefinition(r.skills.rows[n])
  {
    var defs := GetToolDefinitions(r, names);
    var skills := GetByNames(r, names);
    if d in defs {
      var i :| 0 <= i < |defs| && defs[i] == d;
      GetByNamesMembership(r, names, skills[i]);
    }
    if exists n :: n in names && n in r.skills.rows && d == ToToolDefinition(r.skills.rows[n]) {
      var n :| n in names && n in r.skills.rows && d == ToToolDefinition(r.skills.rows[n]);
      GetByNamesMembership(r, names, r.skills.rows[n]);
      var i :| 0 <= i < |skills| && skills[i] == r.skills.rows[n];
      assert defs[i] == d;
    }
  }

  // ------------------------------------------------------------------ search

  /** `name` is in the union of the tag index's sets for `tags`. */
  predicate InTagUnion(idx: Index, tags: seq<string>, name: string) {
    exists t :: t in tags && t in idx && name in idx[t]
  }

  /** The free-text test of `search`: the lower-cased query occurs in the
      lower-cased name, description, display name or one of the tags. */
  predicate QueryMatches(s: Skill, q: string) {
    var ql := Lower(q);
    Contains(Lower(s.Name()), ql) || Contains(Lower(s.Description()), ql)
    || Contains(Lower(Display(s.metadata)), ql)
    || exists t :: t in s.metadata.tags && Contains(Lower(t), ql)
  }

  // Each stage of `search` as the source runs it; a stage whose argument is
  // `None` or empty is skipped, which is filtering by a test every skill passes.

  predicate CategoryStage(r: Registry, category: Option<string>, s: Skill) {
    Truthy(category) ==> category.value in r.categories && s.Name() in r.categories[category.value]
  }

  predicate TagStage(r: Registry, tags: seq<string>, s: Skill) {
    |tags| > 0 ==> InTagUnion(r.tags, tags, s.Name())
  }

  predicate TypeStage(triggerType: Option<TriggerType>, s: Skill) {
    triggerType.Some? ==> s.metadata.triggerType == triggerType.value
  }

  predicate QueryStage(query: Option<string>, s: Skill) {
    Truthy(query) ==> QueryMatches(s, query.value)
  }

  // The stages as filter tests, so that one term names each.

  function CategoryTest(r: Registry, category: Option<string>): Skill -> bool {
    (s: Skill) => CategoryStage(r, category, s)
  }

  function TagTest(r: Registry, tags: seq<string>): Skill -> bool {
    (s: Skill) => TagStage(r, tags, s)
  }

  function TypeTest(triggerType: Option<TriggerType>): Skill -> bool {
    (s: Skill) => TypeStage(triggerType, s)
  }

  function QueryTest(query: Option<string>): Skill -> bool {
    (s: Skill) => QueryStage(query, s)
  }

  /** `search(query, category, tags, trigger_type)`: the registered skills
      in registration order, narrowed by the category index, then by the
      tag index, then by trigger type, then by the free-text query. A `None`
      tag list is the empty list. */
  function Search(r: Registry, query: Option<string>, category: Option<string>, tags: seq<string>,
                  triggerType: Option<TriggerType>): (res: seq<Skill>)
    requires Valid(r.skills)
    ensures |res| <= |r.skills.keys|
    ensures forall i :: 0 <= i < |res| ==>
              res[i] in r.skills.rows.Values
              && CategoryStage(r, category, res[i]) && TagStage(r, tags, res[i])
              && TypeStage(triggerType, res[i]) && QueryStage(query, res[i])
  {
    var all := Values(r.skills);
    var res := Filter(Filter(Filter(Filter(all, CategoryTest(r, category)), TagTest(r, tags)),
                             TypeTest(triggerType)), QueryTest(query));
    forall i | 0 <= i < |res|
      ensures res[i] in r.skills.rows.Values
      ensures CategoryStage(r, category, res[i]) && TagStage(r, tags, res[i])
      ensures TypeStage(triggerType, res[i]) && QueryStage(query, res[i])
    {
      FilterFourSound(all, CategoryTest(r, category), TagTest(r, tags), TypeTest(triggerType), QueryTest(query), res[i]);
      ValuesAreStored(r.skills, res[i]);
    }
    res
  }

  /** The search conditions, stated on the skill's own fields. */
  predicate SearchMatch(s: Skill, query: Option<string>, category: Option<string>, tags: seq<string>,
                        triggerType: Option<TriggerType>)
  {
    (Truthy(category) ==> s.metadata.category == category)
    && (|tags| > 0 ==> exists t :: t in tags && t in s.metadata.tags)
    && (triggerType.Some? ==> s.metadata.triggerType == triggerType.value)
    && (Truthy(query) ==> QueryMatches(s, query.value))
  }

  function SearchTest(query: Option<string>, category: Option<string>, tags: seq<string>,
                      triggerType: Option<TriggerType>): Skill -> bool
  {
    (s: Skill) => SearchMatch(s, query, category, tags, triggerType)
  }

  /** For a registered skill, passing every index-driven stage is meeting
      every condition on its own fields. */
  lemma StagesMatchFields(r: Registry, s: Skill, query: Option<string>, category: Option<string>,
                          tags: seq<string>, triggerType: Option<TriggerType>)
    requires Inv(r) && s.Name() in r.skills.rows && r.skills.rows[s.Name()] == s
    ensures Both(Both(Both(CategoryTest(r, category), TagTest(r, tags)), TypeTest(triggerType)), QueryTest(query))(s)
            == SearchTest(query, category, tags, triggerType)(s)
  {
    CategoryStageMatches(r, s, category);
    TagStageMatches(r, s, tags);
  }

  lemma CategoryStageMatches(r: Registry, s: Skill, category: Option<string>)
    requires Inv(r) && s.Name() in r.skills.rows && r.skills.rows[s.Name()] == s
    ensures CategoryStage(r, category, s) <==> (Truthy(category) ==> s.metadata.category == category)
  {
    if Truthy(category) {
      assert CategoryStage(r, category, s) <==> category.value in CategoryKeys(s);
    }
  }

  lemma TagStageMatches(r: Registry, s: Skill, tags: seq<string>)
    requires Inv(r) && s.Name() in r.skills.rows && r.skills.rows[s.Name()] == s
    ensures TagStage(r, tags, s) <==> (|tags| > 0 ==> exists t :: t in tags && t in s.metadata.tags)
  {
    var n := s.Name();
    if |tags| > 0 {
      if TagStage(r, tags, s) {
        var t :| t in tags && t in r.tags && n in r.tags[t];
        assert t in TagKeys(s);
      }
      if exists t :: t in tags && t in s.metadata.tags {
        var t :| t in tags && t in s.metadata.tags;
        assert t in TagKeys(s);
        assert t in r.tags && n in r.tags[t];
      }
    }
  }

  /** The filters are conjunctive, and the tag filter admits a skill that
      carries any one of the tags: the search is exactly the registered
      skills, in registration order, that satisfy every condition. */
  lemma SearchIsConjunctive(r: Registry, query: Option<string>, category: Option<string>, tags: seq<string>,
                            triggerType: Option<TriggerType>)
    requires Inv(r)
    ensures Search(r, query, category, tags, triggerType)
            == Filter(Values(r.skills), SearchTest(query, category, tags, triggerType))
  {
    var all := Values(r.skills);
    var pc := CategoryTest(r, category);
    var pt := TagTest(r, tags);
    var py := TypeTest(triggerType);
    var pq := QueryTest(query);
    FilterFour(all, pc, pt, py, pq);
    var spec := SearchTest(query, category, tags, triggerType);
    var conj := Both(Both(Both(pc, pt), py), pq);
    forall i | 0 <= i < |all| ensures conj(all[i]) == spec(all[i]) {
      var n := r.skills.keys[i];
      assert n in r.skills.rows && all[i] == r.skills.rows[n] && all[i].Name() == n;
      StagesMatchFields(r, all[i], query, category, tags, triggerType);
    }
    FilterCongruent(all, conj, spec);
  }

  // ------------------------------------------------------------ intent match

  /** Python `s.split()`: the maximal runs of non-whitespace characters. */
  function Words(s: string): (ws: seq<string>)
    ensures forall i :: 0 <= i < |ws| ==> IsWord(ws[i])
    ensures |ws| == 0 <==> forall i :: 0 <= i < |s| ==> IsSpace(s[i])
    decreases |s|
  {
    if |s| == 0 then []
    else if IsSpace(s[0]) then
      var rest := Words(s[1..]);
      assert forall i :: 1 <= i < |s| ==> s[i] == s[1..][i - 1];
      rest
    else
      var n := WordLength(s);
      [s[..n]] + Words(s[n..])
  }

  /** A token of `split()`: non-empty, with no whitespace in it. */
  predicate IsWord(w: string) {
    |w| > 0 && forall j :: 0 <= j < |w| ==> !IsSpace(w[j])
  }

  /** The length of the run of non-whitespace characters `s` starts with. */
  function WordLength(s: string): (n: nat)
    ensures n <= |s|
    ensures |s| > 0 && !IsSpace(s[0]) ==> n > 0
    ensures forall i :: 0 <= i < n ==> !IsSpace(s[i])
    ensures n < |s| ==> IsSpace(s[n])
  {
    if |s| == 0 || IsSpace(s[0]) then 0 else 1 + WordLength(s[1..])
  }

  lemma {:induction false} WordLengthOfWord(w: string, t: string)
    requires forall i :: 0 <= i < |w| ==> !IsSpace(w[i])
    requires |t| == 0 || IsSpace(t[0])
    ensures WordLength(w + t) == |w|
    decreases |w|
  {
    if |w| == 0 {
      assert w + t == t;
    } else {
      assert (w + t)[1..] == w[1..] + t;
      WordLengthOfWord(w[1..], t);
    }
  }

  /** A word followed by nothing or by whitespace is split off whole. */
  lemma WordsOfWord(w: string, t: string)
    requires IsWord(w)
    requires |t| == 0 || IsSpace(t[0])
    ensures Words(w + t) == [w] + Words(t)
  {
    WordLengthOfWord(w, t);
    assert (w + t)[..|w|] == w;
    assert (w + t)[|w|..] == t;
  }

  /** Splitting words joined by single spaces gives the words back. */
  lemma {:induction false} WordsOfJoin(ws: seq<string>)
    requires forall i :: 0 <= i < |ws| ==> IsWord(ws[i])
    ensures Words(Join(ws, " ")) == ws
    decreases |ws|
  {
    if |ws| == 1 {
      WordsOfWord(ws[0], "");
      assert ws[0] + "" == ws[0];
    } else if |ws| > 1 {
      var rest := Join(ws[1..], " ");
      WordsOfJoin(ws[1..]);
      WordsAfterSpace(rest);
      WordsOfWord(ws[0], " " + rest);
      JoinCons(ws, " ");
      assert ws == [ws[0]] + ws[1..];
    }
  }

  /** A leading space splits off no word. */
  lemma WordsAfterSpace(t: string)
    ensures Words(" " + t) == Words(t)
  {
    assert (" " + t)[1..] == t;
  }

  function WordSet(s: string): set<string> {
    set w | w in Words(s)
  }

  /** `len(a & b) / max(len(b), 1)`. */
  function Overlap(a: set<string>, b: set<string>): (r: real)
    ensures 0.0 <= r <= 1.0
    ensures a * b == {} ==> r == 0.0
    ensures b != {} && b <= a ==> r == 1.0
  {
    assert b <= a ==> a * b == b;
    SubsetCardinality(a * b, b);
    (|a * b| as real) / (Max(|b|, 1) as real)
  }

  lemma SubsetCardinality(x: set<string>, y: set<string>)
    requires x <= y
    ensures |x| <= |y|
  {
    assert y == x + (y - x);
  }

  /** How many of `tags` occur, lower-cased, in `text`; a repeated tag counts each time. */
  function TagHits(tags: seq<string>, text: string): (n: nat)
    ensures n <= |tags|
    ensures n == 0 <==> forall i :: 0 <= i < |tags| ==> !Contains(text, Lower(tags[i]))
  {
    if |tags| == 0 then 0
    else (if Contains(text, Lower(tags[0])) then 1 else 0) + TagHits(tags[1..], text)
  }

  /** A lower-cased trigger keyword occurs in the lower-cased input. */
  predicate KeywordHit(s: Skill, input: string) {
    exists k :: k in s.metadata.triggerKeywords && Contains(Lower(input), Lower(k))
  }

  /** The words of the skill's name with hyphens read as spaces; not lower-cased. */
  function NameWords(s: Skill): set<string> {
    WordSet(ReplaceChar(s.Name(), '-', ' '))
  }

  /** The intent score of a skill for an input: 0.5 once if a lower-cased
      trigger keyword occurs in the lower-cased input, 0.3 times the share
      of name words among the input words, 0.2 times the share of
      description words, and 0.1 per tag that occurs. Scores are exact reals.
      The contract bounds each part: a keyword hit alone reaches 0.5, and
      without one the score stays under 0.5 plus the tags' share; a name all
      of whose words are typed reaches 0.3. */
  function Score(s: Skill, input: string): (r: real)
    ensures r >= 0.0
    ensures r <= 1.0 + 0.1 * (|s.metadata.tags| as real)
    ensures KeywordHit(s, input) ==> r >= 0.5
    ensures !KeywordHit(s, input) ==> r <= 0.5 + 0.1 * (|s.metadata.tags| as real)
    ensures NameWords(s) != {} && NameWords(s) <= WordSet(Lower(input)) ==> r >= 0.3
    ensures (forall i :: 0 <= i < |s.metadata.tags| ==> !Contains(Lower(input), Lower(s.metadata.tags[i])))
            ==> r <= 1.0
  {
    var lowered := Lower(input);
    var inputWords := WordSet(lowered);
    var keyword := if KeywordHit(s, input) then 0.5 else 0.0;
    keyword
    + Overlap(inputWords, NameWords(s)) * 0.3
    + Overlap(inputWords, WordSet(Lower(s.Description()))) * 0.2
    + (TagHits(s.metadata.tags, lowered) as real) * 0.1
  }

  function ScoreFor(input: string): Skill -> real {
    (s: Skill) => Score(s, input)
  }

  datatype Match = Match(skill: Skill, score: real)

  predicate NonIncreasing(ms: seq<Match>) {
    forall i, j :: 0 <= i < j < |ms| ==> ms[i].score >= ms[j].score
  }

  /** Insert `m` after every entry scoring at least as much, so a later
      entry never overtakes an equal earlier one. */
  function InsertByScore(ms: seq<Match>, m: Match): (r: seq<Match>)
    requires NonIncreasing(ms)
    ensures |r| == |ms| + 1
    ensures r[0] == (if |ms| == 0 || ms[0].score < m.score then m else ms[0])
    ensures NonIncreasing(r)
    ensures multiset(r) == multiset(ms) + multiset{m}
  {
    if |ms| == 0 then [m]
    else if ms[0].score >= m.score then
      var rest := InsertByScore(ms[1..], m);
      assert ms == [ms[0]] + ms[1..];
      assert ms[0].score >= rest[0].score;
      [ms[0]] + rest
    else
      assert ms == [ms[0]] + ms[1..];
      [m] + ms
  }

  /** `list.sort(key=score, reverse=True)`, which is stable. */
  function SortByScore(ms: seq<Match>): (r: seq<Match>)
    ensures NonIncreasing(r)
    ensures multiset(r) == multiset(ms)
  {
    if |ms| == 0 then []
    else
      assert ms == ms[..|ms| - 1] + [ms[|ms| - 1]];
      InsertByScore(SortByScore(ms[..|ms| - 1]), ms[|ms| - 1])
  }

  /** The skills, in the given order, whose score reaches `minScore`, each
      paired with its score. */
  function Candidates(skills: seq<Skill>, score: Skill -> real, minScore: real): (ms: seq<Match>)
    ensures |ms| <= |skills|
    ensures forall i :: 0 <= i < |ms| ==> ms[i].score >= minScore && ms[i].score == score(ms[i].skill)
    ensures forall i :: 0 <= i < |ms| ==> ms[i].skill in skills
    ensures forall i :: 0 <= i < |skills| && score(skills[i]) >= minScore ==> Match(skills[i], score(skills[i])) in ms
    decreases |skills|
  {
    if |skills| == 0 then []
    else
      var head := if score(skills[0]) >= minScore then [Match(skills[0], score(skills[0]))] else [];
      var rest := Candidates(skills[1..], score, minScore);
      assert forall i :: 1 <= i < |skills| ==> skills[i] == skills[1..][i - 1];
      head + rest
  }

  /** Every registered skill that reaches `minScore`, with its score, best
      first; equal scores keep registration order. */
  function Ranked(r: Registry, input: string, minScore: real): (ms: seq<Match>)
    requires Valid(r.skills)
    ensures NonIncreasing(ms)
    ensures |ms| <= |r.skills.keys|
    ensures forall i :: 0 <= i < |ms| ==>
              ms[i].score >= minScore && ms[i].score == Score(ms[i].skill, input) && ms[i].skill in Values(r.skills)
    ensures forall s :: s in r.skills.rows.Values && Score(s, input) >= minScore ==> Match(s, Score(s, input)) in ms
  {
    var all := Values(r.skills);
    var cands := Candidates(all, ScoreFor(input), minScore);
    var sorted := SortByScore(cands);
    assert |sorted| == |multiset(sorted)| == |cands|;
    forall i | 0 <= i < |sorted|
      ensures sorted[i].score >= minScore && sorted[i].score == Score(sorted[i].skill, input)
      ensures sorted[i].skill in Values(r.skills)
    {
      assert sorted[i] in multiset(sorted);
      var j :| 0 <= j < |cands| && cands[j] == sorted[i];
    }
    forall s | s in r.skills.rows.Values && Score(s, input) >= minScore
      ensures Match(s, Score(s, input)) in sorted
    {
      var n :| n in r.skills.rows && r.skills.rows[n] == s;
      var i :| 0 <= i < |r.skills.keys| && r.skills.keys[i] == n;
      assert all[i] == s && ScoreFor(input)(s) == Score(s, input);
      assert Match(s, Score(s, input)) in multiset(cands);
    }
    sorted
  }

  /** `match_intent(user_input, top_k, min_score)`: the first `top_k`
      ranked matches. */
  function MatchIntent(r: Registry, input: string, topK: int, minScore: real): (res: seq<Match>)
    requires Valid(r.skills)
    ensures var ranked := Ranked(r, input, minScore);
            |res| == (if topK >= 0 then Min(topK, |ranked|) else Max(0, |ranked| + topK))
            && forall i :: 0 <= i < |res| ==> res[i] == ranked[i]
    ensures NonIncreasing(res)
    ensures forall i :: 0 <= i < |res| ==>
              res[i].score >= minScore && res[i].score == Score(res[i].skill, input) && res[i].skill in Values(r.skills)
  {
    var ranked := Ranked(r, input, minScore);
    var res := Prefix(ranked, topK);
    forall i | 0 <= i < |res|
      ensures res[i] == ranked[i]
    {
    }
    res
  }

  /** Nothing left out of the answer beats what is in it: every ranked
      match that is not returned scores no higher than every returned one. */
  lemma MatchIntentIsTop(r: Registry, input: string, topK: int, minScore: real)
    requires Valid(r.skills)
    ensures var ranked := Ranked(r, input, minScore);
            var res := MatchIntent(r, input, topK, minScore);
            |res| <= |ranked|
            && (forall i, j :: 0 <= i < |res| <= j < |ranked| ==> res[i].score >= ranked[j].score)
  {
    var ranked := Ranked(r, input, minScore);
    var res := MatchIntent(r, input, topK, minScore);
    HeadOutscoresRest(ranked, res);
  }

  lemma HeadOutscoresRest(ranked: seq<Match>, res: seq<Match>)
    requires NonIncreasing(ranked)
    requires |res| <= |ranked| && forall i :: 0 <= i < |res| ==> res[i] == ranked[i]
    ensures forall i, j :: 0 <= i < |res| <= j < |ranked| ==> res[i].score >= ranked[j].score
  {
  }

  /** When `top_k` is at least the number of registered skills, every
      registered skill reaching `min_score` is returned with its score. */
  lemma MatchIntentKeepsEveryMatch(r: Registry, input: string, topK: int, minScore: real)
    requires Valid(r.skills) && topK >= |r.skills.keys|
    ensures forall s :: s in r.skills.rows.Values && Score(s, input) >= minScore
              ==> Match(s, Score(s, input)) in MatchIntent(r, input, topK, minScore)
  {
    var ranked := Ranked(r, input, minScore);
    assert MatchIntent(r, input, topK, minScore) == ranked;
  }
}
