/** The fallback flag of a decision says exactly whether something asked for, or a default, was missed. */
module ResolverFallback {
  import opened Core
  import Tables
  import opened Resolver
  import opened ResolverOffer

  lemma FallsAppend(a: seq<string>, b: seq<string>)
    ensures Falls(a + b) <==> Falls(a) || Falls(b)
  {
    if i :| 0 <= i < |a| && a[i] in FallbackCodes {
      assert (a + b)[i] == a[i];
    }
    if i :| 0 <= i < |b| && b[i] in FallbackCodes {
      assert (a + b)[|a| + i] == b[i];
    }
  }

  lemma FallsOne(code: string)
    ensures Falls([code]) <==> code in FallbackCodes
    ensures !Falls([])
  {
    assert [code][0] == code;
  }

  lemma ClassFalls(q: Request, k: Catalog)
    requires SelectClass(q, k.classes).Ok?
    ensures var (c, reasons) := SelectClass(q, k.classes).value;
            Falls(reasons) <==> q.class'.Some? && c.id != q.class'.value
  {
    hide Best;
    FallsOne("requested_class_unavailable");
    FallsOne("class_auto_selected");
    FallsAppend(["requested_class_unavailable"], ["class_auto_selected"]);
    FallsAppend([], ["class_auto_selected"]);
    if q.class'.Some? {
      ClassOfMember(k.classes, q.class'.value);
    }
    SelectClassMember(q, k.classes);
  }

  lemma LifecycleFalls(q: Request, c: Class)
    requires SelectLifecycle(q, c).0 in c.lifecycles
    ensures Falls(SelectLifecycle(q, c).1) <==> q.lifecycle.Some? && SelectLifecycle(q, c).0 != Canonical(q.lifecycle.value)
  {
    FallsOne("lifecycle_defaulted");
    FallsOne("lifecycle_alias_normalized");
    FallsOne("requested_lifecycle_outside_class");
    FallsAppend(["lifecycle_alias_normalized"], ["requested_lifecycle_outside_class"]);
    FallsAppend([], ["requested_lifecycle_outside_class"]);
  }

  /** Either nothing is said against the named model, or it is named and one of the model codes is given. */
  lemma ScreenFalls(q: Request, k: Catalog, c: Class, models: seq<Model>)
    ensures var x := Screen(q, k, c, models);
            && (Falls(x.reasons) <==> q.model.Some? && x.model.None?)
            && (x.model.Some? ==> x.reasons == [] && q.model.Some? && x.model == ModelOf(models, q.model.value))
            && (x.model.None? && q.model.Some? ==> ModelOf(models, q.model.value).None? || !Usable(ModelOf(models, q.model.value).value, k, c, q))
  {
    FallsOne("requested_model_unknown");
    FallsOne("requested_model_outside_class");
    FallsOne("requested_model_unavailable");
    FallsOne("requested_model_capability_mismatch");
  }

  lemma ModelOthers(q: Request, k: Catalog, c: Class, models: seq<Model>, named: Option<Model>, m: Model, reasons: seq<string>)
    requires SelectModel(q, k, c, models, named) == Ok((m, reasons)) && (named.Some? ==> q.model.Some?)
    ensures Falls(reasons) <==> (named.Some? && named.value.rank < MinimumRank(c, models)) || (q.model.None? && m.family != MinimumFamily(c))
    ensures named.Some? && named.value.rank >= MinimumRank(c, models) ==> m == named.value
    ensures named.None? || named.value.rank < MinimumRank(c, models) ==> m in models && Usable(m, k, c, q) && m.rank >= MinimumRank(c, models)
  {
    hide MinimumRank, First;
    var least := MinimumRank(c, models);
    var fits := (x: Model) => Usable(x, k, c, q) && x.rank >= least;
    Tables.KeepMembers(models, fits);
    if Tables.Keep(models, fits) != [] {
      FirstMember(Tables.Keep(models, fits));
    }
    var below, family := ["requested_model_below_task_minimum"], ["default_model_unavailable"];
    FallsOne("requested_model_below_task_minimum");
    FallsOne("default_model_unavailable");
    FallsOne("model_defaulted");
    FallsAppend(["model_defaulted"], family);
    FallsAppend(["model_defaulted"], []);
    FallsAppend(below, []);
    FallsAppend([], ["model_defaulted"] + family);
    FallsAppend([], ["model_defaulted"] + []);
    FallsAppend([], []);
  }

  lemma ModelFalls(q: Request, k: Catalog, c: Class)
    requires UniqueIds(k)
    ensures var models := Tables.Keep(k.models, (x: Model) => Current(x));
            var x := Screen(q, k, c, models);
            var r := SelectModel(q, k, c, models, x.model);
            r.Ok? ==> (Falls(x.reasons + r.value.1) <==>
                       (q.model.Some? && r.value.0.id != q.model.value) || (q.model.None? && r.value.0.family != MinimumFamily(c)))
  {
    hide Screen, SelectModel, MinimumRank, Falls, MinimumFamily;
    var models := Tables.Keep(k.models, (x: Model) => Current(x));
    Tables.KeepMembers(k.models, (x: Model) => Current(x));
    ScreenFalls(q, k, c, models);
    if q.model.Some? {
      ModelOfMember(models, q.model.value);
    }
    var x := Screen(q, k, c, models);
    var r := SelectModel(q, k, c, models, x.model);
    if r.Ok? {
      ModelOthers(q, k, c, models, x.model, r.value.0, r.value.1);
      FallsAppend(x.reasons, r.value.1);
    }
  }

  /** The level was fixed by the class, asked for, or that of the lifecycle; and it was not had. */
  ghost predicate LevelMissed(q: Request, c: Class, lifecycle: string, l: Level) {
    match q.reasoning
    case Some(asked) => asked != Known(l)
    case None => c.least != c.most && l != if lifecycle == "persistent" then XHigh else if lifecycle == "binding" then High else Medium
  }

  lemma LevelFalls(q: Request, c: Class, m: Model, lifecycle: string)
    requires SelectLevel(q, c, m, lifecycle).Ok?
    ensures var (l, reasons) := SelectLevel(q, c, m, lifecycle).value; Falls(reasons) <==> LevelMissed(q, c, lifecycle, l)
  {
    hide Nearest, Levels;
    var d, u, o := ["reasoning_defaulted"], ["requested_reasoning_unsupported"], ["requested_reasoning_outside_limits"];
    FallsOne("reasoning_defaulted");
    FallsOne("requested_reasoning_unsupported");
    FallsOne("requested_reasoning_outside_limits");
    FallsAppend(d, []);
    FallsAppend(d + [], o);
    FallsAppend(d + [], []);
    FallsAppend([], u);
    FallsAppend([] + u, o);
    FallsAppend([] + u, []);
    FallsAppend([], []);
    FallsAppend([] + [], o);
    FallsAppend([] + [], []);
  }

  ghost predicate Missed(q: Request, c: Class, m: Model, ch: Choice) {
    || (q.class'.Some? && ch.class' != q.class'.value)
    || (q.lifecycle.Some? && ch.lifecycle != Canonical(q.lifecycle.value))
    || (q.model.Some? && ch.model != q.model.value)
    || (q.model.None? && m.family != if |c.families| == 1 then c.families[0] else "luna")
    || LevelMissed(q, c, ch.lifecycle, ch.reasoning)
  }

  /**
   * A decision is flagged as a fallback if and only if the class, lifecycle, model or level asked for is
   * not the one taken, or the default family or the default level of the lifecycle could not be had.
   */
  lemma FallbackExactly(q: Request, k: Catalog)
    requires Resolve(q, k).Ok? && UniqueIds(k)
    ensures var d := Resolve(q, k).value;
            exists c: Class, m: Model :: && c in k.classes && m in k.models && d.choice.class' == c.id && d.choice.model == m.id
                                         && (d.fallback <==> Missed(q, c, m, d.choice))
  {
    hide SelectClass, SelectModel, SelectLevel, Screen, Levels, LeadershipRefused, Falls, LevelMissed, SelectLifecycle;
    var models := Tables.Keep(k.models, (x: Model) => Current(x));
    var (c, a) := SelectClass(q, k.classes).value;
    var (lifecycle, b) := SelectLifecycle(q, c);
    var x := Screen(q, k, c, models);
    var (m, e) := SelectModel(q, k, c, models, x.model).value;
    var (l, f) := SelectLevel(q, c, m, lifecycle).value;
    assert Resolve(q, k).value == Decision(Choice(c.id, lifecycle, m.id, l), Dedup(a + b + x.reasons + e + f), Falls(a + b + x.reasons + e + f));
    ClassFalls(q, k);
    LifecycleFalls(q, c);
    ModelFalls(q, k, c);
    LevelFalls(q, c, m, lifecycle);
    FallsAppend(a, b);
    FallsAppend(a + b, x.reasons + e);
    assert a + b + (x.reasons + e) == a + b + x.reasons + e;
    FallsAppend(a + b + x.reasons + e, f);
    Members(q, k, c, models, x);
    assert Resolve(q, k).value.fallback <==> Missed(q, c, m, Choice(c.id, lifecycle, m.id, l));
  }

  lemma Members(q: Request, k: Catalog, c: Class, models: seq<Model>, x: Screened)
    requires SelectClass(q, k.classes).Ok? && c == SelectClass(q, k.classes).value.0
    requires models == Tables.Keep(k.models, (x: Model) => Current(x)) && x == Screen(q, k, c, models)
    requires SelectModel(q, k, c, models, x.model).Ok?
    ensures c in k.classes && SelectModel(q, k, c, models, x.model).value.0 in k.models
  {
    hide SelectClass;
    SelectClassMember(q, k.classes);
    SelectModelMember(q, k, c, models);
    Tables.KeepMembers(k.models, (x: Model) => Current(x));
  }

  // ---- refusals ----

  /** A request is refused as retired exactly if it names one of the retired models or one of the retired family. */
  lemma RetiredExactly(q: Request, k: Catalog)
    ensures Resolve(q, k) == Err("retired_model_unavailable") <==>
            q.model.Some? && (q.model.value in {"gpt-5.3-codex-spark", "spark"} || exists m :: m in k.models && m.id == q.model.value && m.family == "spark")
  {
    hide LeadershipRefused, Screen, SelectLifecycle, Falls, Levels, First, Best, Nearest, MinimumRank, TupleOk;
  }

  /**
   * A leadership class asked for by name is had only with its one lifecycle, persistent, at exactly the
   * level asked for, and with exactly the model asked for unless that is below the class minimum.
   */
  lemma LeadershipTakesExactly(q: Request, k: Catalog)
    requires UniqueIds(k) && Resolve(q, k).Ok? && q.class'.Some? && q.class'.value in {"goettin", "gottbiene", "koenigin", "teamleiterin"}
    requires exists c :: c in k.classes && c.id == q.class'.value
    ensures var ch := Resolve(q, k).value.choice;
            && ch.class' == q.class'.value && ch.lifecycle == "persistent"
            && (q.lifecycle.Some? ==> Canonical(q.lifecycle.value) == "persistent")
            && (q.reasoning.Some? ==> q.reasoning.value == Known(ch.reasoning))
            && (q.model.Some? ==> ch.model == q.model.value ||
                                  forall c, m :: c in k.classes && c.id == ch.class' && m in k.models && m.id == q.model.value
                                    ==> m.rank < MinimumRank(c, Tables.Keep(k.models, (x: Model) => Current(x))))
  {
    hide SelectLevel, Levels, Falls, MinimumRank, Screen, SelectModel, SelectClass;
    var c :| c in k.classes && c.id == q.class'.value;
    ClassTaken(q, k, c);
    var models := Tables.Keep(k.models, (x: Model) => Current(x));
    Tables.KeepMembers(k.models, (x: Model) => Current(x));
    var x := Screen(q, k, c, models);
    ScreenFalls(q, k, c, models);
    var (m, reasons) := SelectModel(q, k, c, models, x.model).value;
    ModelOthers(q, k, c, models, x.model, m, reasons);
    if q.model.Some? {
      ModelOfMember(models, q.model.value);
    }
    var lifecycle := SelectLifecycle(q, c).0;
    if q.reasoning.Some? {
      LevelTaken(q, c, m, lifecycle, q.reasoning.value.level);
    }
  }
}
