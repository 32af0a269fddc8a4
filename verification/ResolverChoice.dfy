/** What the resolver picks where the request leaves something open: the best class, model and level there is. */
module ResolverChoice {
  import opened Core
  import Tables
  import opened Resolver
  import opened ResolverOffer

  // ---- the class ----

  /** Classes the automatic choice considers. */
  ghost predicate Eligible(q: Request, classes: seq<Class>, c: Class) {
    c in classes && c.id !in {"goettin", "gottbiene", "koenigin", "teamleiterin"} && (q.scope == "unknown" || q.scope in c.scopes)
  }

  ghost function Favourite(q: Request): string {
    if q.complexity in {"medium", "complex"} then "spezialistin" else "arbeitsbiene"
  }

  /** The shorter-lived class first, then the lower limits, then the smaller name. */
  ghost predicate Modest(a: Class, b: Class) {
    var (la, lb) := (LifecycleRank(a.defaultLifecycle), LifecycleRank(b.defaultLifecycle));
    var (sa, sb) := (LevelRank(a.least), LevelRank(b.least));
    var (ta, tb) := (LevelRank(a.most), LevelRank(b.most));
    la < lb || (la == lb && (sa < sb || (sa == sb && (ta < tb || (ta == tb && !Tables.Less(b.id, a.id))))))
  }

  /** At least as good: the preferred class before any other, otherwise the more modest. */
  ghost predicate AsGood(a: Class, b: Class, preferred: string) {
    if a.id == preferred && b.id != preferred then true
    else if a.id != preferred && b.id == preferred then false
    else Modest(a, b)
  }

  lemma BetterIsNotAsGood(a: Class, b: Class, preferred: string)
    ensures Better(b, a, preferred) <==> !AsGood(a, b, preferred)
  {
  }

  lemma NamesTransitive(a: string, b: string, c: string)
    requires !Tables.Less(b, a) && !Tables.Less(c, b)
    ensures !Tables.Less(c, a)
  {
    Tables.LessTotal(a, b);
    Tables.LessTotal(b, c);
    Tables.LessTotal(a, c);
    if a != b && b != c {
      Tables.LessTrans(a, b, c);
    }
  }

  lemma ModestTransitive(a: Class, b: Class, c: Class)
    requires Modest(a, b) && Modest(b, c)
    ensures Modest(a, c)
  {
    hide Tables.Less, LevelRank, LifecycleRank;
    if !Tables.Less(b.id, a.id) && !Tables.Less(c.id, b.id) {
      NamesTransitive(a.id, b.id, c.id);
    }
  }

  lemma ModestTotal(a: Class, b: Class)
    ensures Modest(a, b) || Modest(b, a)
  {
    hide LevelRank, LifecycleRank;
    Tables.LessTotal(a.id, b.id);
  }

  lemma AsGoodTransitive(a: Class, b: Class, c: Class, preferred: string)
    requires AsGood(a, b, preferred) && AsGood(b, c, preferred)
    ensures AsGood(a, c, preferred)
  {
    hide Modest;
    if Modest(a, b) && Modest(b, c) {
      ModestTransitive(a, b, c);
    }
  }

  lemma AsGoodTotal(a: Class, b: Class, preferred: string)
    ensures AsGood(a, b, preferred) || AsGood(b, a, preferred)
  {
    hide Modest;
    ModestTotal(a, b);
  }

  lemma {:induction false} BestIsBest(classes: seq<Class>, preferred: string)
    requires classes != []
    ensures Best(classes, preferred) in classes
    ensures forall c :: c in classes ==> AsGood(Best(classes, preferred), c, preferred)
  {
    hide AsGood, Better;
    var n := |classes| - 1;
    var best := Best(classes, preferred);
    BestMember(classes, preferred);
    AsGoodTotal(best, best, preferred);
    if n > 0 {
      var before := Best(classes[..n], preferred);
      BestIsBest(classes[..n], preferred);
      BetterIsNotAsGood(before, classes[n], preferred);
      AsGoodTotal(before, classes[n], preferred);
      forall c | c in classes ensures AsGood(best, c, preferred) {
        assert c in classes[..n] || c == classes[n];
        if c in classes[..n] && best == classes[n] && AsGood(best, before, preferred) {
          AsGoodTransitive(best, before, c, preferred);
        }
      }
    }
  }

  /** The class of a decision: the one asked for if the catalog has it, otherwise the best eligible one. */
  ghost predicate ClassChosen(q: Request, classes: seq<Class>, c: Class) {
    if q.class'.Some? && exists x :: x in classes && x.id == q.class'.value
    then c in classes && c.id == q.class'.value
    else Eligible(q, classes, c) && forall x :: Eligible(q, classes, x) ==> AsGood(c, x, Favourite(q))
  }

  /** A class is found exactly if it is named or some class is eligible; the automatic one is the favourite whenever that is eligible. */
  lemma ClassIsBest(q: Request, classes: seq<Class>)
    ensures SelectClass(q, classes).Ok? <==>
            (q.class'.Some? && exists x :: x in classes && x.id == q.class'.value) || exists x :: Eligible(q, classes, x)
    ensures SelectClass(q, classes).Ok? ==> ClassChosen(q, classes, SelectClass(q, classes).value.0)
  {
    hide AsGood, Best;
    if q.class'.Some? {
      ClassOfMember(classes, q.class'.value);
    }
    var fits := (c: Class) => c.id !in Leadership && (q.scope in c.scopes || q.scope == "unknown");
    var candidates := Tables.Keep(classes, fits);
    Tables.KeepMembers(classes, fits);
    assert forall c :: Eligible(q, classes, c) <==> c in candidates;
    if candidates != [] {
      BestIsBest(candidates, Favourite(q));
      assert candidates[0] in candidates;
    }
  }

  lemma FavouriteWins(q: Request, classes: seq<Class>, c: Class)
    requires ClassChosen(q, classes, c) && (q.class'.None? || forall x :: x in classes ==> x.id != q.class'.value)
    requires exists x :: Eligible(q, classes, x) && x.id == Favourite(q)
    ensures c.id == Favourite(q)
  {
  }

  // ---- the model ----

  /** No model has a lower rank than the one at i, and none before it has the same. */
  ghost predicate Leads(models: seq<Model>, i: nat) {
    i < |models| && forall j :: 0 <= j < |models| ==> models[i].rank <= models[j].rank && (j < i ==> models[i].rank < models[j].rank)
  }

  lemma LeadsLonger(models: seq<Model>, m: Model, i: nat)
    requires Leads(models, i)
    ensures if m.rank < models[i].rank then Leads(models + [m], |models|) else Leads(models + [m], i)
  {
  }

  lemma LeadsAlone(models: seq<Model>)
    requires |models| == 1
    ensures Leads(models, 0)
  {
  }

  lemma {:induction false} FirstIsLowest(models: seq<Model>) returns (i: nat)
    requires models != []
    ensures Leads(models, i) && i < |models| && First(models) == models[i]
  {
    hide Leads;
    var n := |models| - 1;
    if n == 0 {
      i := 0;
      LeadsAlone(models);
    } else {
      i := FirstIsLowest(models[..n]);
      LeadsLonger(models[..n], models[n], i);
      assert models == models[..n] + [models[n]];
      if models[n].rank < models[i].rank {
        i := n;
      }
    }
  }

  lemma {:induction false} LowestRankIsLowest(models: seq<Model>)
    requires models != []
    ensures exists m :: m in models && m.rank == LowestRank(models)
    ensures forall m :: m in models ==> LowestRank(models) <= m.rank
  {
    if |models| > 1 {
      LowestRankIsLowest(models[..|models| - 1]);
    }
    assert models[|models| - 1] in models;
  }

  lemma {:induction false} RankOfLast(models: seq<Model>, family: string, i: nat)
    requires i < |models| && models[i].family == family && forall j :: i < j < |models| ==> models[j].family != family
    ensures RankOf(models, family) == models[i].rank
    decreases |models|
  {
    if i < |models| - 1 {
      RankOfLast(models[..|models| - 1], family, i);
    }
  }

  /**
   * The rank a class asks for: the lowest among the models it requires by name, or that of its one family,
   * and of the default family if it has several, as the last model listed of that family has it.
   */
  lemma MinimumExactly(c: Class, models: seq<Model>)
    ensures c.modelIds != [] ==>
              && (forall m :: m in models && m.id in c.modelIds ==> MinimumRank(c, models) <= m.rank)
              && ((exists m :: m in models && m.id in c.modelIds) ==> exists m :: m in models && m.id in c.modelIds && m.rank == MinimumRank(c, models))
    ensures c.modelIds == [] ==>
              var family := if |c.families| == 1 then c.families[0] else "luna";
              forall i :: 0 <= i < |models| && models[i].family == family && (forall j :: i < j < |models| ==> models[j].family != family)
                ==> MinimumRank(c, models) == models[i].rank
  {
    hide LowestRank, RankOf;
    var family := MinimumFamily(c);
    forall i: nat | i < |models| && models[i].family == family && (forall j :: i < j < |models| ==> models[j].family != family)
      ensures RankOf(models, family) == models[i].rank
    {
      RankOfLast(models, family, i);
    }
    var listed := Tables.Keep(models, (m: Model) => m.id in c.modelIds);
    Tables.KeepMembers(models, (m: Model) => m.id in c.modelIds);
    if listed != [] {
      LowestRankIsLowest(listed);
    }
  }

  /** The model of a decision: a usable named one of sufficient rank, otherwise a usable one of sufficient rank and the lowest such. */
  ghost predicate ModelChosen(q: Request, k: Catalog, c: Class, least: nat, m: Model) {
    && m in k.models && Current(m) && Usable(m, k, c, q) && m.rank >= least
    && (q.model == Some(m.id)
        || forall x :: x in k.models && Current(x) && Usable(x, k, c, q) && x.rank >= least ==> m.rank <= x.rank)
  }

  lemma ModelIsBest(q: Request, k: Catalog, c: Class)
    ensures var models := Tables.Keep(k.models, (m: Model) => Current(m));
            var r := SelectModel(q, k, c, models, Screen(q, k, c, models).model);
            && (r.Ok? ==> ModelChosen(q, k, c, MinimumRank(c, models), r.value.0))
            && (r.Ok? <==> exists m :: m in k.models && Current(m) && Usable(m, k, c, q) && m.rank >= MinimumRank(c, models))
  {
    hide MinimumRank, First, ModelOf;
    var models := Tables.Keep(k.models, (m: Model) => Current(m));
    Tables.KeepMembers(k.models, (m: Model) => Current(m));
    if q.model.Some? {
      ModelOfMember(models, q.model.value);
    }
    var least := MinimumRank(c, models);
    var fits := (m: Model) => Usable(m, k, c, q) && m.rank >= least;
    var candidates := Tables.Keep(models, fits);
    Tables.KeepMembers(models, fits);
    if candidates != [] {
      FirstMember(candidates);
      assert candidates[0] in candidates;
    }
  }

  // ---- the level ----

  ghost function Gap(a: Level, b: Level): int {
    if LevelRank(a) < LevelRank(b) then LevelRank(b) - LevelRank(a) else LevelRank(a) - LevelRank(b)
  }

  lemma {:induction false} NearestIsNearest(levels: seq<Level>, target: Level)
    requires levels != []
    ensures Nearest(levels, target) in levels
    ensures forall l :: l in levels ==>
              var x := Nearest(levels, target); Gap(x, target) < Gap(l, target) || (Gap(x, target) == Gap(l, target) && LevelRank(x) <= LevelRank(l))
  {
    hide LevelRank;
    if |levels| > 1 {
      NearestIsNearest(levels[..|levels| - 1], target);
      assert levels == levels[..|levels| - 1] + [levels[|levels| - 1]];
    }
  }

  /** The level the request means: the one asked for, or that of the lifecycle. */
  ghost function Meant(q: Request, lifecycle: string): Level {
    match q.reasoning
    case Some(Known(l)) => l
    case _ => if lifecycle == "persistent" then XHigh else if lifecycle == "binding" then High else Medium
  }

  /** Among the allowed levels none is nearer to the one meant, and of two equally near ones the lower is taken. */
  ghost predicate LevelChosen(q: Request, c: Class, m: Model, lifecycle: string, l: Level) {
    && l in m.levels && LevelAllowed(c, lifecycle, l)
    && forall x :: x in m.levels && LevelAllowed(c, lifecycle, x) ==>
         Gap(l, Meant(q, lifecycle)) < Gap(x, Meant(q, lifecycle))
         || (Gap(l, Meant(q, lifecycle)) == Gap(x, Meant(q, lifecycle)) && LevelRank(l) <= LevelRank(x))
  }

  lemma LevelIsNearest(q: Request, c: Class, m: Model, lifecycle: string)
    ensures SelectLevel(q, c, m, lifecycle).Ok? ==> LevelChosen(q, c, m, lifecycle, SelectLevel(q, c, m, lifecycle).value.0)
    ensures SelectLevel(q, c, m, lifecycle).Ok? <==> exists x :: x in m.levels && LevelAllowed(c, lifecycle, x)
  {
    hide Levels, Nearest;
    LevelMembers(m, c, lifecycle);
    var levels := Levels(m, c, lifecycle);
    if levels != [] {
      NearestIsNearest(levels, Meant(q, lifecycle));
      assert levels[0] in levels;
    }
    if c.least == c.most {
      forall x | LevelAllowed(c, lifecycle, x) ensures x == c.least {
        SameRankSameLevel(x, c.least);
      }
    }
  }

  // ---- the decision ----

  /** Every decision names the class, model and level chosen so, under a lifecycle of the class. */
  lemma DecisionIsBest(q: Request, k: Catalog)
    requires Resolve(q, k).Ok?
    ensures var ch := Resolve(q, k).value.choice;
            exists c: Class, m: Model :: && ch.class' == c.id && ch.model == m.id && ch.lifecycle in c.lifecycles
                           && (q.lifecycle.Some? && Canonical(q.lifecycle.value) in c.lifecycles ==> ch.lifecycle == Canonical(q.lifecycle.value))
                           && ClassChosen(q, k.classes, c)
                           && ModelChosen(q, k, c, MinimumRank(c, Tables.Keep(k.models, (x: Model) => Current(x))), m)
                           && LevelChosen(q, c, m, ch.lifecycle, ch.reasoning)
  {
    hide SelectClass, SelectModel, SelectLevel, Screen, MinimumRank, Levels, ClassChosen, ModelChosen, LevelChosen, LeadershipRefused;
    var models := Tables.Keep(k.models, (x: Model) => Current(x));
    ClassIsBest(q, k.classes);
    var c := SelectClass(q, k.classes).value.0;
    ModelIsBest(q, k, c);
    var m := SelectModel(q, k, c, models, Screen(q, k, c, models).model).value.0;
    LevelIsNearest(q, c, m, SelectLifecycle(q, c).0);
  }
}
