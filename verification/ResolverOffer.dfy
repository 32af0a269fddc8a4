/** The decision is always on offer, and what is on offer can be had. */
module ResolverOffer {
  import opened Core
  import Tables
  import opened Resolver

  // ---- what the offer contains ----

  lemma LevelMembers(m: Model, c: Class, lifecycle: string)
    ensures forall l :: l in Levels(m, c, lifecycle) <==> l in m.levels && LevelAllowed(c, lifecycle, l)
  {
    Tables.KeepMembers(m.levels, l => LevelAllowed(c, lifecycle, l));
  }

  lemma {:induction false} ByRankMembers(s: seq<Model>, m: Model)
    ensures forall x :: x in ByRank(s, m) <==> x in s || x == m
  {
    if s != [] && s[|s| - 1].rank > m.rank {
      ByRankMembers(s[..|s| - 1], m);
      assert s == s[..|s| - 1] + [s[|s| - 1]];
    }
  }

  lemma {:induction false} RankedMembers(s: seq<Model>)
    ensures forall x :: x in Ranked(s) <==> x in s
  {
    if s != [] {
      RankedMembers(s[..|s| - 1]);
      ByRankMembers(Ranked(s[..|s| - 1]), s[|s| - 1]);
      assert s == s[..|s| - 1] + [s[|s| - 1]];
    }
  }

  lemma CompatibleMembers(k: Catalog, c: Class)
    ensures forall m :: m in Compatible(k, c) <==> m in k.models && m.id in k.available && Current(m) && Allowed(m, c)
  {
    RankedMembers(k.models);
    Tables.KeepMembers(Ranked(k.models), (m: Model) => m.id in k.available && Current(m) && Allowed(m, c));
  }

  predicate FromModel(c: Class, lifecycle: string, m: Model, ch: Choice) {
    ch.class' == c.id && ch.lifecycle == lifecycle && ch.model == m.id && ch.reasoning in Levels(m, c, lifecycle)
  }

  lemma LevelChoicesMembers(c: Class, lifecycle: string, m: Model, ch: Choice)
    ensures ch in LevelChoices(c, lifecycle, m, Levels(m, c, lifecycle)) <==> FromModel(c, lifecycle, m, ch)
  {
    var levels := Levels(m, c, lifecycle);
    if FromModel(c, lifecycle, m, ch) {
      var i :| 0 <= i < |levels| && levels[i] == ch.reasoning;
      assert LevelChoices(c, lifecycle, m, levels)[i] == ch;
    }
  }

  lemma {:induction false} ModelChoicesMembers(c: Class, lifecycle: string, models: seq<Model>, ch: Choice)
    requires ModelChoices(c, lifecycle, models).Ok?
    ensures ch in ModelChoices(c, lifecycle, models).value <==> exists m :: m in models && FromModel(c, lifecycle, m, ch)
  {
    hide FromModel, Levels, LevelChoices;
    if models != [] {
      var n := |models| - 1;
      ModelChoicesMembers(c, lifecycle, models[..n], ch);
      LevelChoicesMembers(c, lifecycle, models[n], ch);
      assert models == models[..n] + [models[n]];
    }
  }

  predicate FromClass(c: Class, models: seq<Model>, ch: Choice) {
    ch.lifecycle in c.lifecycles && exists m :: m in models && FromModel(c, ch.lifecycle, m, ch)
  }

  lemma {:induction false} LifecycleChoicesMembers(c: Class, lifecycles: seq<string>, models: seq<Model>, ch: Choice)
    requires LifecycleChoices(c, lifecycles, models).Ok?
    ensures ch in LifecycleChoices(c, lifecycles, models).value <==>
            ch.lifecycle in lifecycles && exists m :: m in models && FromModel(c, ch.lifecycle, m, ch)
  {
    hide ModelChoices;
    if lifecycles != [] {
      var n := |lifecycles| - 1;
      LifecycleChoicesMembers(c, lifecycles[..n], models, ch);
      ModelChoicesMembers(c, lifecycles[n], models, ch);
      assert lifecycles == lifecycles[..n] + [lifecycles[n]];
    }
  }

  lemma {:induction false} ClassChoicesMembers(k: Catalog, classes: seq<Class>, ch: Choice)
    requires ClassChoices(k, classes).Ok?
    ensures ch in ClassChoices(k, classes).value <==> exists c :: c in classes && FromClass(c, Compatible(k, c), ch)
  {
    hide Compatible, LifecycleChoices;
    if classes != [] {
      var n := |classes| - 1;
      ClassChoicesMembers(k, classes[..n], ch);
      LifecycleChoicesMembers(classes[n], classes[n].lifecycles, Compatible(k, classes[n]), ch);
      assert classes == classes[..n] + [classes[n]];
    }
  }

  /** A class and a model of the catalogs that make up a choice. */
  predicate Makes(k: Catalog, c: Class, m: Model, ch: Choice) {
    && c in k.classes && m in k.models && m.id in k.available && Current(m)
    && TupleOk(c, m, ch.lifecycle, ch.reasoning)
    && ch.class' == c.id && ch.model == m.id
  }

  /** The options are exactly the valid tuples of available, current models. */
  lemma OfferMembers(k: Catalog, ch: Choice)
    requires Offer(k).Ok?
    ensures ch in Offer(k).value <==> exists c, m :: Makes(k, c, m, ch)
  {
    var classes := Tables.SortBy(ClassKey, k.classes);
    Tables.SortMembers(ClassKey, k.classes);
    ClassChoicesMembers(k, classes, ch);
    hide Compatible, ClassChoices, Levels;
    if c :| c in classes && FromClass(c, Compatible(k, c), ch) {
      CompatibleMembers(k, c);
      var m :| m in Compatible(k, c) && FromModel(c, ch.lifecycle, m, ch);
      assert Makes(k, c, m, ch);
    }
    if c, m :| Makes(k, c, m, ch) {
      CompatibleMembers(k, c);
      assert FromModel(c, ch.lifecycle, m, ch);
      assert c in classes && FromClass(c, Compatible(k, c), ch);
    }
  }

  // ---- the decision is on offer ----

  lemma {:induction false} ClassOfMember(classes: seq<Class>, id: string)
    ensures ClassOf(classes, id).Some? ==> ClassOf(classes, id).value in classes && ClassOf(classes, id).value.id == id
    ensures ClassOf(classes, id).None? ==> forall c :: c in classes ==> c.id != id
  {
    if classes != [] {
      ClassOfMember(classes[..|classes| - 1], id);
      assert classes == classes[..|classes| - 1] + [classes[|classes| - 1]];
    }
  }

  lemma {:induction false} ModelOfMember(models: seq<Model>, id: string)
    ensures ModelOf(models, id).Some? ==> ModelOf(models, id).value in models && ModelOf(models, id).value.id == id
    ensures ModelOf(models, id).None? ==> forall m :: m in models ==> m.id != id
  {
    if models != [] {
      ModelOfMember(models[..|models| - 1], id);
      assert models == models[..|models| - 1] + [models[|models| - 1]];
    }
  }

  lemma {:induction false} BestMember(classes: seq<Class>, preferred: string)
    requires classes != []
    ensures Best(classes, preferred) in classes
  {
    if |classes| > 1 {
      BestMember(classes[..|classes| - 1], preferred);
    }
  }

  lemma {:induction false} FirstMember(models: seq<Model>)
    requires models != []
    ensures First(models) in models && forall m :: m in models ==> First(models).rank <= m.rank
  {
    if |models| > 1 {
      FirstMember(models[..|models| - 1]);
      assert models == models[..|models| - 1] + [models[|models| - 1]];
    }
  }

  lemma SelectClassMember(q: Request, classes: seq<Class>)
    requires SelectClass(q, classes).Ok?
    ensures SelectClass(q, classes).value.0 in classes
  {
    hide Best;
    if q.class'.Some? {
      ClassOfMember(classes, q.class'.value);
    }
    var p := (c: Class) => c.id !in Leadership && (q.scope in c.scopes || q.scope == "unknown");
    Tables.KeepMembers(classes, p);
    if Tables.Keep(classes, p) != [] {
      BestMember(Tables.Keep(classes, p), if q.complexity == "medium" || q.complexity == "complex" then "spezialistin" else "arbeitsbiene");
    }
  }

  lemma SelectModelMember(q: Request, k: Catalog, c: Class, models: seq<Model>)
    requires SelectModel(q, k, c, models, Screen(q, k, c, models).model).Ok?
    ensures var m := SelectModel(q, k, c, models, Screen(q, k, c, models).model).value.0; m in models && Usable(m, k, c, q)
  {
    hide MinimumRank, First;
    if q.model.Some? {
      ModelOfMember(models, q.model.value);
    }
    var least := MinimumRank(c, models);
    var p := (m: Model) => Usable(m, k, c, q) && m.rank >= least;
    Tables.KeepMembers(models, p);
    if Tables.Keep(models, p) != [] {
      FirstMember(Tables.Keep(models, p));
    }
  }

  /** Whenever resolution and offer both succeed on the same catalogs, the decision is one of the options. */
  lemma DecisionIsOffered(q: Request, k: Catalog)
    ensures Resolve(q, k).Ok? && Offer(k).Ok? ==> Resolve(q, k).value.choice in Offer(k).value
  {
    hide Resolve, Offer;
    if Resolve(q, k).Ok? && Offer(k).Ok? {
      DecisionMade(q, k);
    }
  }

  lemma DecisionMade(q: Request, k: Catalog)
    requires Resolve(q, k).Ok? && Offer(k).Ok?
    ensures Resolve(q, k).value.choice in Offer(k).value
  {
    hide SelectClass, SelectModel, Screen, SelectLevel, SelectLifecycle, LeadershipRefused, Offer, TupleOk, Dedup, Falls;
    var p := (m: Model) => Current(m);
    var models := Tables.Keep(k.models, p);
    Tables.KeepMembers(k.models, p);
    var c := SelectClass(q, k.classes).value.0;
    SelectClassMember(q, k.classes);
    SelectModelMember(q, k, c, models);
    var m := SelectModel(q, k, c, models, Screen(q, k, c, models).model).value.0;
    assert Makes(k, c, m, Resolve(q, k).value.choice);
    OfferMembers(k, Resolve(q, k).value.choice);
  }

  // ---- what is on offer can be had ----

  predicate UniqueIds(k: Catalog) {
    && (forall a, b :: a in k.classes && b in k.classes && a.id == b.id ==> a == b)
    && (forall a, b :: a in k.models && b in k.models && a.id == b.id ==> a == b)
  }

  /** The request for exactly one choice, with no required capability. */
  function Ask(ch: Choice, scope: string, complexity: string): Request {
    Request(scope, complexity, Some(ch.class'), Some(ch.lifecycle), Some(ch.model), Some(Known(ch.reasoning)), {})
  }

  lemma SameRankSameLevel(a: Level, b: Level)
    requires LevelRank(a) == LevelRank(b)
    ensures a == b
  {
  }

  lemma {:induction false} NearestExact(levels: seq<Level>, target: Level)
    requires target in levels
    ensures Nearest(levels, target) == target
  {
    var n := |levels| - 1;
    if n > 0 {
      if target in levels[..n] {
        NearestExact(levels[..n], target);
      } else {
        assert levels == levels[..n] + [levels[n]];
        assert levels[n] == target;
        var before := Nearest(levels[..n], target);
        if Distance(before, target) == 0 {
          SameRankSameLevel(before, target);
        }
      }
    }
  }

  /** An allowed level is taken as asked, without a reason. */
  lemma LevelTaken(q: Request, c: Class, m: Model, lifecycle: string, l: Level)
    requires q.reasoning == Some(Known(l)) && l in Levels(m, c, lifecycle)
    ensures SelectLevel(q, c, m, lifecycle) == Ok((l, []))
  {
    LevelMembers(m, c, lifecycle);
    if c.least == c.most {
      SameRankSameLevel(l, c.least);
    } else {
      NearestExact(Levels(m, c, lifecycle), l);
      var none: seq<string> := [];
      assert none + none + none == none;
    }
  }

  lemma ClassTaken(q: Request, k: Catalog, c: Class)
    requires UniqueIds(k) && c in k.classes && q.class' == Some(c.id)
    ensures SelectClass(q, k.classes) == Ok((c, []))
  {
    hide Best, Tables.Keep;
    ClassOfMember(k.classes, c.id);
  }

  lemma ModelNamed(q: Request, k: Catalog, c: Class, m: Model, models: seq<Model>)
    requires UniqueIds(k) && m in models && (forall x :: x in models ==> x in k.models)
    requires q.model == Some(m.id) && Usable(m, k, c, q)
    ensures Screen(q, k, c, models) == Screened(Some(m), [])
  {
    ModelOfMember(models, m.id);
  }

  lemma NotRetired(q: Request, k: Catalog, m: Model)
    requires UniqueIds(k) && m in k.models && Current(m) && q.model == Some(m.id)
    ensures !(q.model.value in Retired || exists x :: x in k.models && x.id == q.model.value && x.family == "spark")
  {
  }

  /** What a leadership class asked for by name demands of its own policy and of the lifecycle. */
  predicate LeadershipFits(c: Class, lifecycle: string) {
    |c.lifecycles| == 1 && c.defaultLifecycle == "persistent" && lifecycle == c.defaultLifecycle
  }

  /** A request that names a class, a model and a level it can have, in a lifecycle of the class. */
  ghost predicate Exact(q: Request, k: Catalog, c: Class, m: Model, ch: Choice, models: seq<Model>) {
    && models == Tables.Keep(k.models, (x: Model) => Current(x))
    && !(m.id in Retired || exists x :: x in k.models && x.id == m.id && x.family == "spark")
    && ch.class' == c.id && ch.model == m.id
    && q.class' == Some(c.id) && q.lifecycle == Some(ch.lifecycle) && q.model == Some(m.id) && q.reasoning == Some(Known(ch.reasoning))
    && SelectClass(q, k.classes) == Ok((c, []))
    && Screen(q, k, c, models) == Screened(Some(m), [])
    && SelectLevel(q, c, m, ch.lifecycle) == Ok((ch.reasoning, []))
    && TupleOk(c, m, ch.lifecycle, ch.reasoning)
    && ModelOf(models, m.id) == Some(m) && Usable(m, k, c, q)
  }

  lemma LeadershipExactly(q: Request, k: Catalog, c: Class, m: Model, ch: Choice, models: seq<Model>)
    requires Exact(q, k, c, m, ch, models)
    ensures LeadershipRefused(q, k, c, models) <==> !LeadershipFits(c, Canonical(ch.lifecycle))
  {
    hide SelectClass, Screen, SelectLevel, TupleOk, Tables.Keep, ModelOf, Usable;
  }

  lemma {:induction false} DedupNonempty(s: seq<string>)
    requires s != []
    ensures Dedup(s) != []
  {
    var n := |s| - 1;
    if s[n] in s[..n] {
      DedupNonempty(s[..n]);
    }
  }

  /** A lifecycle that is only an alias is normalised, with a reason. */
  lemma AliasLeavesReason(q: Request, k: Catalog, c: Class)
    requires SelectClass(q, k.classes) == Ok((c, [])) && q.lifecycle.Some? && Canonical(q.lifecycle.value) != q.lifecycle.value
    ensures Resolve(q, k).Ok? ==> Resolve(q, k).value.reasons != []
  {
    hide SelectClass, Screen, SelectModel, SelectLevel, TupleOk, LeadershipRefused, Tables.Keep, Falls, Dedup;
    if Resolve(q, k).Ok? {
      var models := Tables.Keep(k.models, (m: Model) => Current(m));
      var (lifecycle, alias) := SelectLifecycle(q, c);
      var screened := Screen(q, k, c, models);
      var model := SelectModel(q, k, c, models, screened.model).value;
      var level := SelectLevel(q, c, model.0, lifecycle).value;
      var none: seq<string> := [];
      assert |alias| > 0;
      DedupNonempty(none + alias + screened.reasons + model.1 + level.1);
    }
  }

  /** With the class, the model, the lifecycle and the level taken as asked, only the model's rank is left to decide. */
  lemma ResolvesTo(q: Request, k: Catalog, c: Class, m: Model, ch: Choice, models: seq<Model>)
    requires Exact(q, k, c, m, ch, models) && Canonical(ch.lifecycle) == ch.lifecycle
    requires !(c.id in Leadership && LeadershipRefused(q, k, c, models))
    ensures Resolve(q, k) == Ok(Decision(ch, [], false)) <==> m.rank >= MinimumRank(c, models)
  {
    hide SelectClass, Screen, SelectLevel, MinimumRank, LeadershipRefused, First, Levels;
    var none: seq<string> := [];
    assert SelectLifecycle(q, c) == (ch.lifecycle, none);
    hide SelectLifecycle, TupleOk;
    if m.rank >= MinimumRank(c, models) {
      assert SelectModel(q, k, c, models, Some(m)) == Ok((m, none));
      assert none + none + none + none + none == none;
    } else {
      BelowFallsBack(q, k, c, models, m);
      if Resolve(q, k).Ok? {
        var chosen := SelectModel(q, k, c, models, Some(m)).value;
        var level := SelectLevel(q, c, chosen.0, ch.lifecycle).value;
        FallsInside(none + none + none, chosen.1, level.1);
      }
    }
  }

  lemma BelowFallsBack(q: Request, k: Catalog, c: Class, models: seq<Model>, m: Model)
    requires m.rank < MinimumRank(c, models)
    ensures var r := SelectModel(q, k, c, models, Some(m));
            r.Ok? ==> |r.value.1| > 0 && r.value.1[0] == "requested_model_below_task_minimum"
  {
    hide MinimumRank, First;
  }

  lemma FallsInside(before: seq<string>, reasons: seq<string>, after: seq<string>)
    requires |reasons| > 0 && reasons[0] in FallbackCodes
    ensures Falls(before + reasons + after)
  {
    assert (before + reasons + after)[|before|] == reasons[0];
  }

  /** What an offered tuple needs to be had. */
  predicate Obtainable(k: Catalog, c: Class, m: Model, ch: Choice) {
    && m.rank >= MinimumRank(c, Tables.Keep(k.models, (x: Model) => Current(x)))
    && Canonical(ch.lifecycle) == ch.lifecycle
    && (c.id in Leadership ==> LeadershipFits(c, ch.lifecycle))
  }

  /**
   * Requesting an offered tuple returns exactly it, with no reason and no fallback, if and only if its
   * model reaches the minimum rank of the class, its lifecycle is no alias, and a leadership class has
   * the one persistent lifecycle.
   */
  lemma OfferedCanBeHad(k: Catalog, c: Class, m: Model, ch: Choice, scope: string, complexity: string)
    requires Offer(k).Ok? && ch in Offer(k).value && Makes(k, c, m, ch) && UniqueIds(k)
    ensures Resolve(Ask(ch, scope, complexity), k) == Ok(Decision(ch, [], false)) <==> Obtainable(k, c, m, ch)
  {
    hide Offer, Resolve, SelectLevel, MinimumRank, SelectClass, Screen, LeadershipRefused, Levels;
    var q := Ask(ch, scope, complexity);
    var models := Tables.Keep(k.models, (x: Model) => Current(x));
    Tables.KeepMembers(k.models, (x: Model) => Current(x));
    ClassTaken(q, k, c);
    ModelNamed(q, k, c, m, models);
    ModelOfMember(models, m.id);
    NotRetired(q, k, m);
    LevelTaken(q, c, m, ch.lifecycle, ch.reasoning);
    assert Exact(q, k, c, m, ch, models);
    LeadershipExactly(q, k, c, m, ch, models);
    if c.id in Leadership && LeadershipRefused(q, k, c, models) {
      RefusedFails(q, k, c);
    } else if Canonical(ch.lifecycle) != ch.lifecycle {
      AliasLeavesReason(q, k, c);
    } else {
      ResolvesTo(q, k, c, m, ch, models);
    }
  }

  lemma RefusedFails(q: Request, k: Catalog, c: Class)
    requires SelectClass(q, k.classes) == Ok((c, [])) && q.class' == Some(c.id) && c.id in Leadership
    requires LeadershipRefused(q, k, c, Tables.Keep(k.models, (x: Model) => Current(x)))
    ensures Resolve(q, k).Err?
  {
    hide SelectClass, LeadershipRefused, Screen, SelectModel, SelectLevel;
  }

  // ---- an offered tuple that cannot be had ----

  lemma {:induction false} ModelsOpen(c: Class, lifecycle: string, models: seq<Model>)
    requires c.modelIds == []
    ensures ModelChoices(c, lifecycle, models).Ok?
  {
    hide Levels;
    if models != [] {
      ModelsOpen(c, lifecycle, models[..|models| - 1]);
    }
  }

  lemma {:induction false} LifecyclesOpen(c: Class, lifecycles: seq<string>, models: seq<Model>)
    requires c.modelIds == []
    ensures LifecycleChoices(c, lifecycles, models).Ok?
  {
    hide ModelChoices;
    if lifecycles != [] {
      LifecyclesOpen(c, lifecycles[..|lifecycles| - 1], models);
      ModelsOpen(c, lifecycles[|lifecycles| - 1], models);
    }
  }

  lemma {:induction false} ClassesOpen(k: Catalog, classes: seq<Class>)
    requires forall c :: c in classes ==> c.modelIds == []
    ensures ClassChoices(k, classes).Ok?
  {
    hide LifecycleChoices, Compatible;
    if classes != [] {
      var n := |classes| - 1;
      ClassesOpen(k, classes[..n]);
      LifecyclesOpen(classes[n], classes[n].lifecycles, Compatible(k, classes[n]));
    }
  }

  /** Classes that require no particular model always have an offer. */
  lemma OpenOffer(k: Catalog)
    requires forall c :: c in k.classes ==> c.modelIds == []
    ensures Offer(k).Ok?
  {
    Tables.SortMembers(ClassKey, k.classes);
    ClassesOpen(k, Tables.SortBy(ClassKey, k.classes));
  }

  const Worker := Class("worker", "binding", ["binding"], ["luna", "sol"], Low, Max, {"read"}, [])
  const Large := Model("large", "luna", 5, [High], {})
  const Small := Model("small", "sol", 1, [High], {})
  const TwoModels := Catalog([Worker], [Large, Small], {"large", "small"})
  const SmallChoice := Choice("worker", "binding", "small", High)

  lemma TwoModelsCurrent()
    ensures Tables.Keep(TwoModels.models, (x: Model) => Current(x)) == [Large, Small]
    ensures MinimumRank(Worker, [Large, Small]) == 5
  {
    var p := (x: Model) => Current(x);
    assert [Large, Small][..1] == [Large] && [Large][..0] == [];
    assert Tables.Keep([Large], p) == [Large];
    assert RankOf([Large], "luna") == 5;
    assert RankOf([Large, Small], "luna") == 5;
  }

  /** The small model is offered, and asking for it gives something else, because it is below the class minimum. */
  lemma OfferedBelowMinimum(scope: string, complexity: string)
    ensures Offer(TwoModels).Ok? && SmallChoice in Offer(TwoModels).value
    ensures Resolve(Ask(SmallChoice, scope, complexity), TwoModels) != Ok(Decision(SmallChoice, [], false))
  {
    hide Offer, Resolve, Levels, MinimumRank;
    var k := TwoModels;
    OpenOffer(k);
    LevelMembers(Small, Worker, "binding");
    assert Makes(k, Worker, Small, SmallChoice);
    OfferMembers(k, SmallChoice);
    TwoModelsCurrent();
    OfferedCanBeHad(k, Worker, Small, SmallChoice, scope, complexity);
  }
}
