/** The offer as it is filled, in nested loops that stop at the first error. */
module ResolverLoops {
  import opened Core
  import Tables
  import opened Resolver

  lemma {:induction false} ModelErrorStays(c: Class, lifecycle: string, models: seq<Model>, n: nat)
    requires n <= |models| && ModelChoices(c, lifecycle, models[..n]).Err?
    ensures ModelChoices(c, lifecycle, models) == ModelChoices(c, lifecycle, models[..n])
    decreases |models| - n
  {
    hide Levels;
    if n == |models| {
      assert models[..n] == models;
    } else {
      assert models[..n + 1][..n] == models[..n];
      ModelErrorStays(c, lifecycle, models, n + 1);
    }
  }

  lemma {:induction false} LifecycleErrorStays(c: Class, lifecycles: seq<string>, models: seq<Model>, n: nat)
    requires n <= |lifecycles| && LifecycleChoices(c, lifecycles[..n], models).Err?
    ensures LifecycleChoices(c, lifecycles, models) == LifecycleChoices(c, lifecycles[..n], models)
    decreases |lifecycles| - n
  {
    hide ModelChoices;
    if n == |lifecycles| {
      assert lifecycles[..n] == lifecycles;
    } else {
      assert lifecycles[..n + 1][..n] == lifecycles[..n];
      LifecycleErrorStays(c, lifecycles, models, n + 1);
    }
  }

  lemma {:induction false} ClassErrorStays(k: Catalog, classes: seq<Class>, n: nat)
    requires n <= |classes| && ClassChoices(k, classes[..n]).Err?
    ensures ClassChoices(k, classes) == ClassChoices(k, classes[..n])
    decreases |classes| - n
  {
    hide LifecycleChoices, Compatible;
    if n == |classes| {
      assert classes[..n] == classes;
    } else {
      assert classes[..n + 1][..n] == classes[..n];
      ClassErrorStays(k, classes, n + 1);
    }
  }

  /** The loop over the models of one class and lifecycle, with the loop over levels inside. */
  method OfferModels(c: Class, lifecycle: string, models: seq<Model>) returns (result: Result<seq<Choice>>)
    ensures result == ModelChoices(c, lifecycle, models)
  {
    hide Levels;
    var options: seq<Choice> := [];
    for i := 0 to |models|
      invariant ModelChoices(c, lifecycle, models[..i]) == Ok(options)
    {
      assert models[..i + 1][..i] == models[..i];
      var allowed := Levels(models[i], c, lifecycle);
      if c.least == c.most && allowed == [] {
        if c.modelIds != [] {
          ModelErrorStays(c, lifecycle, models, i + 1);
          return Err("required_model_effort_unavailable");
        }
      }
      ghost var before := options;
      for j := 0 to |allowed|
        invariant options == before + LevelChoices(c, lifecycle, models[i], allowed[..j])
      {
        options := options + [Choice(c.id, lifecycle, models[i].id, allowed[j])];
      }
      assert allowed[..|allowed|] == allowed;
    }
    assert models[..|models|] == models;
    return Ok(options);
  }

  method OfferClass(c: Class, models: seq<Model>) returns (result: Result<seq<Choice>>)
    ensures result == LifecycleChoices(c, c.lifecycles, models)
  {
    hide ModelChoices;
    var options: seq<Choice> := [];
    for i := 0 to |c.lifecycles|
      invariant LifecycleChoices(c, c.lifecycles[..i], models) == Ok(options)
    {
      assert c.lifecycles[..i + 1][..i] == c.lifecycles[..i];
      var more := OfferModels(c, c.lifecycles[i], models);
      if more.Err? {
        LifecycleErrorStays(c, c.lifecycles, models, i + 1);
        return more;
      }
      options := options + more.value;
    }
    assert c.lifecycles[..|c.lifecycles|] == c.lifecycles;
    return Ok(options);
  }

  /** `build_selection_offer`. */
  method BuildSelectionOffer(k: Catalog) returns (result: Result<seq<Choice>>)
    ensures result == Offer(k)
  {
    hide LifecycleChoices, Compatible;
    var classes := Tables.SortBy(ClassKey, k.classes);
    var options: seq<Choice> := [];
    for i := 0 to |classes|
      invariant ClassChoices(k, classes[..i]) == Ok(options)
    {
      assert classes[..i + 1][..i] == classes[..i];
      var compatible := Compatible(k, classes[i]);
      if classes[i].modelIds != [] && compatible == [] {
        ClassErrorStays(k, classes, i + 1);
        return Err("required_model_unavailable");
      }
      var more := OfferClass(classes[i], compatible);
      if more.Err? {
        ClassErrorStays(k, classes, i + 1);
        return more;
      }
      options := options + more.value;
    }
    assert classes[..|classes|] == classes;
    return Ok(options);
  }
}
