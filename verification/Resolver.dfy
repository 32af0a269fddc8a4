/** Resolving one agent selection against the class and model catalogs, and the offer built from them. */
module Resolver {
  import opened Core
  import Tables

  datatype Level = Low | Medium | High | XHigh | Max

  function LevelRank(l: Level): nat {
    match l
    case Low => 10
    case Medium => 20
    case High => 30
    case XHigh => 40
    case Max => 50
  }

  datatype Model = Model(id: string, family: string, rank: nat, levels: seq<Level>, capabilities: set<string>)

  datatype Class = Class(
    id: string, defaultLifecycle: string, lifecycles: seq<string>, families: seq<string>, least: Level, most: Level,
    scopes: set<string>, modelIds: seq<string>)

  datatype Catalog = Catalog(classes: seq<Class>, models: seq<Model>, available: set<string>)

  /** A requested level: one of the five, or some other word. */
  datatype Asked = Known(level: Level) | Other(text: string)

  datatype Request = Request(
    scope: string, complexity: string, class': Option<string>, lifecycle: Option<string>, model: Option<string>,
    reasoning: Option<Asked>, capabilities: set<string>)

  datatype Choice = Choice(class': string, lifecycle: string, model: string, reasoning: Level)
  datatype Decision = Decision(choice: Choice, reasons: seq<string>, fallback: bool)

  const Retired: set<string> := {"gpt-5.3-codex-spark", "spark"}
  const Leadership: set<string> := {"goettin", "gottbiene", "koenigin", "teamleiterin"}
  const FallbackCodes: set<string> := {
    "requested_class_unavailable", "requested_lifecycle_outside_class", "requested_model_unknown",
    "requested_model_outside_class", "requested_model_unavailable", "requested_model_capability_mismatch",
    "requested_model_below_task_minimum", "requested_reasoning_unsupported", "requested_reasoning_outside_limits",
    "default_model_unavailable"}

  function Canonical(lifecycle: string): string {
    if lifecycle == "invocation" then "ephemeral" else lifecycle
  }

  function LifecycleRank(lifecycle: string): nat {
    if lifecycle == "ephemeral" then 10
    else if lifecycle == "binding" then 20
    else if lifecycle == "persistent" then 30
    else 100
  }

  predicate Allowed(m: Model, c: Class) {
    m.family in c.families && (c.modelIds == [] || m.id in c.modelIds)
  }

  predicate Supports(m: Model, q: Request) {
    q.capabilities <= m.capabilities
  }

  predicate Current(m: Model) {
    m.id !in Retired && m.family != "spark"
  }

  /** `_allowed_reasoning_levels`. */
  predicate LevelAllowed(c: Class, lifecycle: string, l: Level) {
    var least := if lifecycle == "persistent" && LevelRank(c.least) < LevelRank(XHigh) then LevelRank(XHigh) else LevelRank(c.least);
    least <= LevelRank(l) <= LevelRank(c.most)
  }

  function Levels(m: Model, c: Class, lifecycle: string): seq<Level> {
    Tables.Keep(m.levels, l => LevelAllowed(c, lifecycle, l))
  }

  predicate TupleOk(c: Class, m: Model, lifecycle: string, l: Level) {
    lifecycle in c.lifecycles && Allowed(m, c) && l in Levels(m, c, lifecycle)
  }

  // ---- choosing the class ----

  /** The last entry of an id, as a dictionary built from the list has it. */
  function ClassOf(classes: seq<Class>, id: string): Option<Class> {
    if classes == [] then None
    else if classes[|classes| - 1].id == id then Some(classes[|classes| - 1])
    else ClassOf(classes[..|classes| - 1], id)
  }

  function ModelOf(models: seq<Model>, id: string): Option<Model> {
    if models == [] then None
    else if models[|models| - 1].id == id then Some(models[|models| - 1])
    else ModelOf(models[..|models| - 1], id)
  }

  /** The order of the automatic choice: the preferred class, then lifecycle, limits and name. */
  predicate Better(a: Class, b: Class, preferred: string) {
    var pa, pb := a.id != preferred, b.id != preferred;
    if pa != pb then pb
    else if LifecycleRank(a.defaultLifecycle) != LifecycleRank(b.defaultLifecycle) then
      LifecycleRank(a.defaultLifecycle) < LifecycleRank(b.defaultLifecycle)
    else if a.least != b.least then LevelRank(a.least) < LevelRank(b.least)
    else if a.most != b.most then LevelRank(a.most) < LevelRank(b.most)
    else Tables.Less(a.id, b.id)
  }

  function Best(classes: seq<Class>, preferred: string): Class
    requires classes != []
  {
    var n := |classes| - 1;
    if n == 0 then classes[0]
    else
      var before := Best(classes[..n], preferred);
      if Better(classes[n], before, preferred) then classes[n] else before
  }

  function SelectClass(q: Request, classes: seq<Class>): Result<(Class, seq<string>)> {
    var named := if q.class'.Some? then ClassOf(classes, q.class'.value) else None;
    if named.Some? then Ok((named.value, []))
    else
      var reasons := if q.class'.Some? then ["requested_class_unavailable"] else [];
      var candidates := Tables.Keep(classes, (c: Class) => c.id !in Leadership && (q.scope in c.scopes || q.scope == "unknown"));
      if candidates == [] then Err("no_compatible_class")
      else
        var preferred := if q.complexity == "medium" || q.complexity == "complex" then "spezialistin" else "arbeitsbiene";
        Ok((Best(candidates, preferred), reasons + ["class_auto_selected"]))
  }

  // ---- choosing the model ----

  function RankOf(models: seq<Model>, family: string): nat {
    if models == [] then 0
    else if models[|models| - 1].family == family then models[|models| - 1].rank
    else RankOf(models[..|models| - 1], family)
  }

  /** The lowest rank among the listed models, 0 if there is none. */
  function LowestRank(models: seq<Model>): nat {
    if models == [] then 0
    else if |models| == 1 then models[0].rank
    else
      var before := LowestRank(models[..|models| - 1]);
      if models[|models| - 1].rank < before then models[|models| - 1].rank else before
  }

  function MinimumFamily(c: Class): string {
    if |c.families| == 1 then c.families[0] else "luna"
  }

  /** The rank a model of the class needs; `models` are the current ones. */
  function MinimumRank(c: Class, models: seq<Model>): nat {
    if c.modelIds != [] then LowestRank(Tables.Keep(models, (m: Model) => m.id in c.modelIds)) else RankOf(models, MinimumFamily(c))
  }

  /** The first of the models with the lowest rank, as a stable sort puts it first. */
  function First(models: seq<Model>): Model
    requires models != []
  {
    var n := |models| - 1;
    if n == 0 then models[0]
    else
      var before := First(models[..n]);
      if models[n].rank < before.rank then models[n] else before
  }

  datatype Screened = Screened(model: Option<Model>, reasons: seq<string>)

  /** Why a named model is not used, for a class that is not explicit leadership. */
  function Screen(q: Request, k: Catalog, c: Class, models: seq<Model>): Screened {
    var named := if q.model.Some? then ModelOf(models, q.model.value) else None;
    if q.model.Some? && named.None? then Screened(None, ["requested_model_unknown"])
    else if named.None? then Screened(None, [])
    else if !Allowed(named.value, c) then Screened(None, ["requested_model_outside_class"])
    else if named.value.id !in k.available then Screened(None, ["requested_model_unavailable"])
    else if !Supports(named.value, q) then Screened(None, ["requested_model_capability_mismatch"])
    else Screened(named, [])
  }

  predicate Usable(m: Model, k: Catalog, c: Class, q: Request) {
    Allowed(m, c) && m.id in k.available && Supports(m, q)
  }

  function SelectModel(q: Request, k: Catalog, c: Class, models: seq<Model>, named: Option<Model>): Result<(Model, seq<string>)> {
    var least := MinimumRank(c, models);
    if named.Some? && named.value.rank >= least then Ok((named.value, []))
    else
      var candidates := Tables.Keep(models, (m: Model) => Usable(m, k, c, q) && m.rank >= least);
      var below := if named.Some? then ["requested_model_below_task_minimum"] else [];
      if candidates == [] then (if c.modelIds != [] then Err("required_model_unavailable") else Err("no_compatible_model"))
      else
        var m := First(candidates);
        var defaulted :=
          if q.model.Some? then [] else ["model_defaulted"] + if m.family != MinimumFamily(c) then ["default_model_unavailable"] else [];
        Ok((m, below + defaulted))
  }

  // ---- choosing the level ----

  function DefaultLevel(lifecycle: string): Level {
    if lifecycle == "persistent" then XHigh else if lifecycle == "binding" then High else Medium
  }

  function Distance(a: Level, b: Level): nat {
    if LevelRank(a) >= LevelRank(b) then LevelRank(a) - LevelRank(b) else LevelRank(b) - LevelRank(a)
  }

  predicate Nearer(a: Level, b: Level, target: Level) {
    Distance(a, target) < Distance(b, target) || (Distance(a, target) == Distance(b, target) && LevelRank(a) < LevelRank(b))
  }

  function Nearest(levels: seq<Level>, target: Level): Level
    requires levels != []
  {
    var n := |levels| - 1;
    if n == 0 then levels[0]
    else
      var before := Nearest(levels[..n], target);
      if Nearer(levels[n], before, target) then levels[n] else before
  }

  function SelectLevel(q: Request, c: Class, m: Model, lifecycle: string): Result<(Level, seq<string>)> {
    var levels := Levels(m, c, lifecycle);
    if c.least == c.most then
      if c.least !in levels then
        Err(if c.modelIds != [] then "required_model_effort_unavailable" else "no_compatible_reasoning_level")
      else
        Ok((c.least, if q.reasoning.Some? && q.reasoning.value != Known(c.least) then ["requested_reasoning_outside_limits"] else []))
    else if levels == [] then Err("no_compatible_reasoning_level")
    else
      var asked := if q.reasoning.None? then Known(DefaultLevel(lifecycle)) else q.reasoning.value;
      var target := if asked.Known? then asked.level else DefaultLevel(lifecycle);
      var l := Nearest(levels, target);
      Ok((l, (if q.reasoning.None? then ["reasoning_defaulted"] else [])
             + (if asked.Other? then ["requested_reasoning_unsupported"] else [])
             + (if l != target then ["requested_reasoning_outside_limits"] else [])))
  }

  // ---- the whole resolution ----

  predicate Falls(reasons: seq<string>) {
    exists i :: 0 <= i < |reasons| && reasons[i] in FallbackCodes
  }

  /** The lifecycle of the request in the class, with its reasons. */
  function SelectLifecycle(q: Request, c: Class): (string, seq<string>) {
    if q.lifecycle.None? then (c.defaultLifecycle, ["lifecycle_defaulted"])
    else
      var name := Canonical(q.lifecycle.value);
      var alias := if name != q.lifecycle.value then ["lifecycle_alias_normalized"] else [];
      if name in c.lifecycles then (name, alias) else (c.defaultLifecycle, alias + ["requested_lifecycle_outside_class"])
  }

  /** A leadership class asked for by name takes its tuple exactly or not at all. */
  predicate LeadershipRefused(q: Request, k: Catalog, c: Class, models: seq<Model>) {
    var named := if q.model.Some? then ModelOf(models, q.model.value) else None;
    || |c.lifecycles| != 1
    || c.defaultLifecycle != "persistent"
    || (q.lifecycle.Some? && Canonical(q.lifecycle.value) != c.defaultLifecycle)
    || (q.model.Some? && (named.None? || !Usable(named.value, k, c, q)))
  }

  function Resolve(q: Request, k: Catalog): Result<Decision> {
    if q.model.Some? && (q.model.value in Retired || exists m :: m in k.models && m.id == q.model.value && m.family == "spark")
    then Err("retired_model_unavailable")
    else
      var models := Tables.Keep(k.models, (m: Model) => Current(m));
      var chosen := SelectClass(q, k.classes);
      if chosen.Err? then Err(chosen.code)
      else
        var c := chosen.value.0;
        var lead := q.class' == Some(c.id) && c.id in Leadership;
        if lead && LeadershipRefused(q, k, c, models) then Err("leadership_explicit_tuple_required")
        else
          var (lifecycle, lifecycleReasons) := SelectLifecycle(q, c);
          var screened := Screen(q, k, c, models);
          var model := SelectModel(q, k, c, models, screened.model);
          if model.Err? then Err(model.code)
          else
            var m := model.value.0;
            if lead && q.reasoning.Some? && !(q.reasoning.value.Known? && TupleOk(c, m, lifecycle, q.reasoning.value.level))
            then Err("leadership_explicit_tuple_required")
            else
              var level := SelectLevel(q, c, m, lifecycle);
              if level.Err? then Err(level.code)
              else if !TupleOk(c, m, lifecycle, level.value.0) then Err("invalid_canonical_agent_tuple")
              else
                var reasons := chosen.value.1 + lifecycleReasons + screened.reasons + model.value.1 + level.value.1;
                Ok(Decision(Choice(c.id, lifecycle, m.id, level.value.0), Dedup(reasons), Falls(reasons)))
  }

  // ---- the offer ----

  function ByRank(s: seq<Model>, m: Model): seq<Model> {
    if s == [] || s[|s| - 1].rank <= m.rank then s + [m] else ByRank(s[..|s| - 1], m) + [s[|s| - 1]]
  }

  /** `sorted(models, key=rank)`. */
  function Ranked(models: seq<Model>): seq<Model> {
    if models == [] then [] else ByRank(Ranked(models[..|models| - 1]), models[|models| - 1])
  }

  function Compatible(k: Catalog, c: Class): seq<Model> {
    Tables.Keep(Ranked(k.models), (m: Model) => m.id in k.available && Current(m) && Allowed(m, c))
  }

  function LevelChoices(c: Class, lifecycle: string, m: Model, levels: seq<Level>): seq<Choice> {
    seq(|levels|, i requires 0 <= i < |levels| => Choice(c.id, lifecycle, m.id, levels[i]))
  }

  function ModelChoices(c: Class, lifecycle: string, models: seq<Model>): Result<seq<Choice>> {
    if models == [] then Ok([])
    else
      var n := |models| - 1;
      var before := ModelChoices(c, lifecycle, models[..n]);
      if before.Err? then before
      else
        var levels := Levels(models[n], c, lifecycle);
        if c.least == c.most && levels == [] && c.modelIds != [] then Err("required_model_effort_unavailable")
        else Ok(before.value + LevelChoices(c, lifecycle, models[n], levels))
  }

  function LifecycleChoices(c: Class, lifecycles: seq<string>, models: seq<Model>): Result<seq<Choice>> {
    if lifecycles == [] then Ok([])
    else
      var n := |lifecycles| - 1;
      var before := LifecycleChoices(c, lifecycles[..n], models);
      if before.Err? then before
      else
        var more := ModelChoices(c, lifecycles[n], models);
        if more.Err? then more else Ok(before.value + more.value)
  }

  function ClassChoices(k: Catalog, classes: seq<Class>): Result<seq<Choice>> {
    if classes == [] then Ok([])
    else
      var n := |classes| - 1;
      var before := ClassChoices(k, classes[..n]);
      if before.Err? then before
      else
        var models := Compatible(k, classes[n]);
        if classes[n].modelIds != [] && models == [] then Err("required_model_unavailable")
        else
          var more := LifecycleChoices(classes[n], classes[n].lifecycles, models);
          if more.Err? then more else Ok(before.value + more.value)
  }

  function ClassKey(c: Class): string { c.id }

  /** `build_selection_offer`: its options. */
  function Offer(k: Catalog): Result<seq<Choice>> {
    ClassChoices(k, Tables.SortBy(ClassKey, k.classes))
  }
}
