/** What a worker's events say a run has used: totals, and the same broken down by model. */
module ResultUsage {
  import opened Sequences

  datatype Event = ModelTurn(model: string, prompt: int, completion: int, cost: real) | OtherEvent

  datatype Totals = Totals(prompt: int, completion: int, cost: real)

  datatype Usage = Usage(tokens: nat, cost: real, calls: nat)

  const NAME_LIMIT: nat := 255
  const NOTHING := Usage(0, 0.0, 0)

  function Positive(n: int): nat {
    if n < 0 then 0 else n
  }

  function PositiveCost(c: real): real {
    if c < 0.0 then 0.0 else c
  }

  function ModelOf(e: Event): string
    requires e.ModelTurn?
  {
    Take(e.model, NAME_LIMIT)
  }

  /** What one turn adds to its model's usage. */
  function Share(e: Event): Usage
    requires e.ModelTurn?
  {
    Usage(Positive(e.prompt) + Positive(e.completion), PositiveCost(e.cost), 1)
  }

  function Plus(a: Usage, b: Usage): Usage {
    Usage(a.tokens + b.tokens, a.cost + b.cost, a.calls + b.calls)
  }

  /** The usage of one model over the events. */
  function UsedBy(events: seq<Event>, model: string): Usage {
    if events == [] then NOTHING
    else
      var last := events[|events| - 1];
      var before := UsedBy(events[..|events| - 1], model);
      if last.ModelTurn? && ModelOf(last) == model then Plus(before, Share(last)) else before
  }

  /** The usage of several models, one after another. */
  function UsedByAll(events: seq<Event>, models: seq<string>): Usage {
    if models == [] then NOTHING
    else Plus(UsedByAll(events, models[..|models| - 1]), UsedBy(events, models[|models| - 1]))
  }

  /** The model of every turn. */
  function ModelsOf(events: seq<Event>): seq<string> {
    if events == [] then []
    else
      var last := events[|events| - 1];
      ModelsOf(events[..|events| - 1]) + if last.ModelTurn? then [ModelOf(last)] else []
  }

  /** The usage of all turns together, whatever their model. */
  function Spent(events: seq<Event>): Usage {
    if events == [] then NOTHING
    else
      var last := events[|events| - 1];
      var before := Spent(events[..|events| - 1]);
      if last.ModelTurn? then Plus(before, Share(last)) else before
  }

  /** Each model of the turns so far, in the order they first appear, with its usage. */
  ghost predicate BrokenDown(events: seq<Event>, models: seq<string>, breakdown: map<string, Usage>) {
    && models == FirstOccurrences(ModelsOf(events))
    && breakdown.Keys == Elems(models)
    && forall m :: m in breakdown ==> breakdown[m] == UsedBy(events, m)
  }

  function PromptTokens(events: seq<Event>): nat {
    if events == [] then 0
    else
      var last := events[|events| - 1];
      PromptTokens(events[..|events| - 1]) + if last.ModelTurn? then Positive(last.prompt) else 0
  }

  function CompletionTokens(events: seq<Event>): nat {
    if events == [] then 0
    else
      var last := events[|events| - 1];
      CompletionTokens(events[..|events| - 1]) + if last.ModelTurn? then Positive(last.completion) else 0
  }

  /** The totals are those of all turns, negative counts and costs taken for nothing. */
  predicate Totalled(events: seq<Event>, totals: Totals) {
    && totals.prompt == PromptTokens(events) && totals.completion == CompletionTokens(events)
    && totals.cost == Spent(events).cost
  }

  /** Prompt and completion tokens together are what the models used. */
  lemma {:induction false} TokensAddUp(events: seq<Event>)
    ensures PromptTokens(events) + CompletionTokens(events) == Spent(events).tokens
  {
    if |events| > 0 {
      TokensAddUp(events[..|events| - 1]);
    }
  }

  method Accumulate(events: seq<Event>)
    returns (totals: Totals, models: seq<string>, breakdown: map<string, Usage>, hasModelUsage: bool)
    ensures Totalled(events, totals) && BrokenDown(events, models, breakdown)
    ensures hasModelUsage <==> |models| > 0
  {
    ghost var done := events[..0];
    totals, models, breakdown := Zero(done);
    hasModelUsage := false;
    for i := 0 to |events|
      invariant done == events[..i]
      invariant Totalled(done, totals) && BrokenDown(done, models, breakdown)
      invariant hasModelUsage <==> |models| > 0
    {
      TotalsNext(done, events[i], totals);
      totals, models, breakdown := AddTurn(events[i], totals, models, breakdown, done);
      if events[i].ModelTurn? {
        hasModelUsage := true;
      }
      PrefixSnoc(events, i);
      done := done + [events[i]];
    }
    WholePrefix(events);
  }

  lemma PrefixSnoc<T>(s: seq<T>, i: nat)
    requires i < |s|
    ensures s[..i + 1] == s[..i] + [s[i]]
  {
  }

  lemma WholePrefix<T>(s: seq<T>)
    ensures s[..|s|] == s
  {
  }

  /** One event; only a model's turn counts. */
  method AddTurn(e: Event, totals: Totals, models: seq<string>, breakdown: map<string, Usage>, ghost events: seq<Event>)
    returns (totals': Totals, models': seq<string>, breakdown': map<string, Usage>)
    requires BrokenDown(events, models, breakdown)
    ensures totals' == if e.ModelTurn? then More(totals, e) else totals
    ensures BrokenDown(events + [e], models', breakdown')
    ensures |models'| > 0 <==> |models| > 0 || e.ModelTurn?
  {
    totals', models', breakdown' := totals, models, breakdown;
    ModelsNext(events, e);
    UsedNext(events, e);
    if e.ModelTurn? {
      var model := ModelOf(e);
      totals' := More(totals, e);
      NextModel(ModelsOf(events), model);
      UnusedModel(events, model);
      Snoc(models, model);
      if model !in breakdown' {
        models' := models + [model];
        breakdown' := breakdown'[model := NOTHING];
      }
      breakdown' := breakdown'[model := Plus(breakdown'[model], Share(e))];
    } else {
      assert ModelsOf(events) + [] == ModelsOf(events);
    }
  }

  method Zero(ghost events: seq<Event>) returns (totals: Totals, models: seq<string>, breakdown: map<string, Usage>)
    requires |events| == 0
    ensures Totalled(events, totals) && BrokenDown(events, models, breakdown) && |models| == 0
  {
    return Totals(0, 0, 0.0), [], map[];
  }

  function More(totals: Totals, e: Event): Totals
    requires e.ModelTurn?
  {
    Totals(totals.prompt + Positive(e.prompt), totals.completion + Positive(e.completion),
           totals.cost + PositiveCost(e.cost))
  }

  lemma TotalsNext(events: seq<Event>, e: Event, totals: Totals)
    requires Totalled(events, totals)
    ensures Totalled(events + [e], if e.ModelTurn? then More(totals, e) else totals)
  {
    assert (events + [e])[..|events|] == events;
  }

  lemma ModelsNext(events: seq<Event>, e: Event)
    ensures ModelsOf(events + [e]) == ModelsOf(events) + if e.ModelTurn? then [ModelOf(e)] else []
  {
    assert (events + [e])[..|events|] == events;
  }

  function WithTurn(used: Usage, e: Event, model: string): Usage {
    if e.ModelTurn? && ModelOf(e) == model then Plus(used, Share(e)) else used
  }

  lemma UsedNext(events: seq<Event>, e: Event)
    ensures forall m :: UsedBy(events + [e], m) == WithTurn(UsedBy(events, m), e, m)
  {
    assert (events + [e])[..|events|] == events;
  }

  lemma NextModel(models: seq<string>, model: string)
    ensures FirstOccurrences(models + [model])
         == FirstOccurrences(models) + if model in Elems(FirstOccurrences(models)) then [] else [model]
  {
    FirstOccurrencesAre(models);
    assert (models + [model])[..|models|] == models;
    assert model in models <==> model in Elems(models);
  }

  lemma {:induction false} UnusedModel(events: seq<Event>, model: string)
    ensures model !in Elems(FirstOccurrences(ModelsOf(events))) ==> UsedBy(events, model) == NOTHING
  {
    FirstOccurrencesAre(ModelsOf(events));
    if events != [] {
      var front, last := events[..|events| - 1], events[|events| - 1];
      FirstOccurrencesAre(ModelsOf(front));
      UnusedModel(front, model);
      if last.ModelTurn? {
        Snoc(ModelsOf(front), ModelOf(last));
      }
    }
  }

  // ---- what one turn adds ------------------------------------------------------------------

  /** One more turn adds its tokens and cost where positive, and one call, to the totals and to its model. */
  lemma {:induction false} TurnAdds(events: seq<Event>, e: Event, model: string)
    ensures var asked := if e.ModelTurn? && e.prompt > 0 then e.prompt else 0;
      var added := asked + if e.ModelTurn? && e.completion > 0 then e.completion else 0;
      var paid := if e.ModelTurn? && e.cost > 0.0 then e.cost else 0.0;
      var mine := e.ModelTurn? && model == if |e.model| > 255 then e.model[..255] else e.model;
      && PromptTokens(events + [e]) == PromptTokens(events) + asked
      && Spent(events + [e]) ==
           Usage(Spent(events).tokens + added, Spent(events).cost + paid,
                 Spent(events).calls + if e.ModelTurn? then 1 else 0)
      && UsedBy(events + [e], model) ==
           if mine then Usage(UsedBy(events, model).tokens + added, UsedBy(events, model).cost + paid,
                              UsedBy(events, model).calls + 1)
           else UsedBy(events, model)
  {
    assert (events + [e])[..|events|] == events;
  }

  // ---- nothing is lost in the breakdown ----------------------------------------------------

  /** One more turn adds its share to the models it is among, once. */
  lemma {:induction false} OneMoreTurn(events: seq<Event>, e: Event, models: seq<string>)
    requires Distinct(models)
    ensures UsedByAll(events + [e], models)
      == if e.ModelTurn? && ModelOf(e) in models
         then Plus(UsedByAll(events, models), Share(e)) else UsedByAll(events, models)
  {
    assert (events + [e])[..|events|] == events;
    if models != [] {
      var front, last := models[..|models| - 1], models[|models| - 1];
      assert models == front + [last];
      Snoc(front, last);
      OneMoreTurn(events, e, front);
    }
  }

  lemma {:induction false} BreakdownAddsUp(events: seq<Event>, models: seq<string>)
    requires Distinct(models) && Elems(ModelsOf(events)) <= Elems(models)
    ensures UsedByAll(events, models) == Spent(events)
  {
    if |events| == 0 {
      NothingUsed(events, models);
    } else {
      var front, last := events[..|events| - 1], events[|events| - 1];
      assert events == front + [last];
      if last.ModelTurn? {
        Snoc(ModelsOf(front), ModelOf(last));
        assert ModelOf(last) in Elems(models);
      }
      BreakdownAddsUp(front, models);
      OneMoreTurn(front, last, models);
    }
  }

  lemma NothingAdds(used: Usage)
    ensures Plus(used, NOTHING) == used
  {
  }

  lemma NoTurns(events: seq<Event>, model: string)
    requires |events| == 0
    ensures UsedBy(events, model) == NOTHING
  {
  }

  lemma {:induction false} NothingUsed(events: seq<Event>, models: seq<string>)
    requires |events| == 0
    ensures UsedByAll(events, models) == NOTHING
  {
    if models != [] {
      var front, last := models[..|models| - 1], models[|models| - 1];
      NothingUsed(events, front);
      NoTurns(events, last);
      NothingAdds(UsedByAll(events, front));
    }
  }

  /** The models of the breakdown, added up, come to the totals: no turn is lost and none is counted twice. */
  lemma {:induction false} Conservation(events: seq<Event>)
    ensures UsedByAll(events, FirstOccurrences(ModelsOf(events))) == Spent(events)
    ensures Spent(events).calls == |ModelsOf(events)|
    ensures PromptTokens(events) + CompletionTokens(events) == Spent(events).tokens
  {
    TokensAddUp(events);
    FirstOccurrencesAre(ModelsOf(events));
    BreakdownAddsUp(events, FirstOccurrences(ModelsOf(events)));
    OneCallPerTurn(events);
  }

  lemma {:induction false} OneCallPerTurn(events: seq<Event>)
    ensures Spent(events).calls == |ModelsOf(events)|
  {
    if events != [] {
      OneCallPerTurn(events[..|events| - 1]);
    }
  }
}
