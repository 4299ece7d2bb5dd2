/**
 * Composing plugins: each is applied once everything it injects has been provided, in passes over those still waiting.
 */
module PluginTree {
  import opened Results
  import opened Sequences

  datatype Plugin = Plugin(name: string, inject: seq<string>, keys: seq<string>)

  datatype PluginError = DuplicateName | AlreadyProvided(key: string) | Unresolved

  predicate Enabled(p: Plugin, services: set<string>) {
    forall key :: key in p.inject ==> key in services
  }

  function Provided(order: seq<Plugin>): set<string> {
    if order == [] then {} else Provided(order[..|order| - 1]) + Elems(order[|order| - 1].keys)
  }

  /**
   * Applied in this order, every plugin finds its injects among the initial services and what earlier plugins provide.
   */
  ghost predicate Feasible(initial: set<string>, order: seq<Plugin>) {
    forall i :: 0 <= i < |order| ==> Enabled(order[i], initial + Provided(order[..i]))
  }

  /** No key is provided twice, within a plugin, between plugins, or over the initial services. */
  ghost predicate Exclusive(initial: set<string>, pending: seq<Plugin>) {
    && (forall p :: p in pending ==> Distinct(p.keys) && Elems(p.keys) !! initial)
    && (forall p, q :: p in pending && q in pending && p != q ==> Elems(p.keys) !! Elems(q.keys))
  }

  /** Every pending plugin is applied, blocked or still to be looked at, each as often as it is pending. */
  ghost predicate Split(pending: seq<Plugin>, applied: seq<Plugin>, blocked: seq<Plugin>, rest: seq<Plugin>) {
    multiset(applied) + multiset(blocked) + multiset(rest) == multiset(pending)
  }

  lemma SplitStep(pending: seq<Plugin>, applied: seq<Plugin>, blocked: seq<Plugin>, rest: seq<Plugin>)
    requires Split(pending, applied, blocked, rest) && rest != []
    ensures Split(pending, applied + [rest[0]], blocked, rest[1..])
    ensures Split(pending, applied, blocked + [rest[0]], rest[1..])
  {
    assert rest == [rest[0]] + rest[1..];
  }

  ghost predicate NoneEnabled(waiting: seq<Plugin>, services: set<string>) {
    forall p :: p in waiting ==> !Enabled(p, services)
  }

  function Names(plugins: seq<Plugin>): (names: seq<string>)
    ensures |names| == |plugins|
    ensures forall i :: 0 <= i < |plugins| ==> names[i] == plugins[i].name
  {
    seq(|plugins|, i requires 0 <= i < |plugins| => plugins[i].name)
  }

  /** Where resolution stops: a feasible order of some of the plugins, each once, with no other one enabled. */
  ghost predicate Stopped(initial: set<string>, pending: seq<Plugin>, order: seq<Plugin>) {
    && Feasible(initial, order)
    && multiset(order) <= multiset(pending)
    && forall p :: p in pending && p !in order ==> !Enabled(p, initial + Provided(order))
  }

  ghost predicate Solvable(initial: set<string>, pending: seq<Plugin>) {
    exists order :: Feasible(initial, order) && multiset(order) == multiset(pending)
  }

  lemma ProvidedSnoc(order: seq<Plugin>, p: Plugin)
    ensures Provided(order + [p]) == Provided(order) + Elems(p.keys)
  {
    assert (order + [p])[..|order|] == order;
  }

  lemma {:induction false} ProvidedBy(order: seq<Plugin>)
    ensures forall key :: key in Provided(order) <==> exists p :: p in order && key in p.keys
  {
    if order != [] {
      ProvidedBy(order[..|order| - 1]);
      assert order == order[..|order| - 1] + [order[|order| - 1]];
    }
  }

  lemma ProvidedMonotone(a: seq<Plugin>, b: seq<Plugin>)
    requires forall p :: p in a ==> p in b
    ensures Provided(a) <= Provided(b)
  {
    ProvidedBy(a);
    ProvidedBy(b);
  }

  // ---- what stopping means -----------------------------------------------------------------

  /** Nothing applicable is missed: any feasible order over the same plugins stays within what was applied. */
  lemma {:induction false} StoppedIsMaximal(
    initial: set<string>, pending: seq<Plugin>, order: seq<Plugin>, other: seq<Plugin>)
    requires Stopped(initial, pending, order)
    requires Feasible(initial, other) && forall p :: p in other ==> p in pending
    ensures forall p :: p in other ==> p in order
    decreases |other|
  {
    if other != [] {
      var front, last := other[..|other| - 1], other[|other| - 1];
      assert forall i :: 0 <= i < |front| ==> front[..i] == other[..i];
      StoppedIsMaximal(initial, pending, order, front);
      ProvidedMonotone(front, order);
      assert other == front + [last] && last in other;
      assert Enabled(last, initial + Provided(other[..|front|]));
      assert Enabled(last, initial + Provided(order));
    }
  }

  /** What gets applied does not depend on the order the plugins are given in. */
  lemma {:induction false} AppliedSetIsOrderFree(
    initial: set<string>, pending: seq<Plugin>, shuffled: seq<Plugin>, order: seq<Plugin>, other: seq<Plugin>)
    requires forall p :: p in pending <==> p in shuffled
    requires Stopped(initial, pending, order) && Stopped(initial, shuffled, other)
    ensures Elems(order) == Elems(other)
  {
    InPending(pending, order);
    InPending(shuffled, other);
    StoppedIsMaximal(initial, pending, order, other);
    StoppedIsMaximal(initial, shuffled, other, order);
  }

  lemma InPending(pending: seq<Plugin>, order: seq<Plugin>)
    requires multiset(order) <= multiset(pending)
    ensures forall p :: p in order ==> p in pending
  {
    forall p | p in order ensures p in pending {
      assert multiset(order)[p] > 0;
    }
  }

  /** Resolution applies everything exactly when some order satisfies every inject. */
  lemma {:induction false} StoppedCompleteIffSolvable(initial: set<string>, pending: seq<Plugin>, order: seq<Plugin>)
    requires Distinct(Names(pending)) && Stopped(initial, pending, order)
    ensures multiset(order) == multiset(pending) <==> Solvable(initial, pending)
  {
    if Solvable(initial, pending) {
      var other :| Feasible(initial, other) && multiset(other) == multiset(pending);
      InPending(pending, other);
      InPending(other, pending);
      StoppedIsMaximal(initial, pending, order, other);
      OnceEach(pending);
      forall p ensures multiset(order)[p] == multiset(pending)[p] {
        if p in pending {
          assert p in other && p in order;
          assert multiset(order)[p] >= 1;
        }
      }
    }
  }

  lemma {:induction false} OnceEach(pending: seq<Plugin>)
    requires Distinct(Names(pending))
    ensures forall p :: multiset(pending)[p] <= 1
  {
    if pending != [] {
      var front, last := pending[..|pending| - 1], pending[|pending| - 1];
      assert pending == front + [last];
      assert Names(pending) == Names(front) + [last.name];
      Snoc(Names(front), last.name);
      OnceEach(front);
      forall i | 0 <= i < |front| ensures front[i] != last {
        assert Names(front)[i] != last.name;
      }
    }
  }

  // ---- the host ----------------------------------------------------------------------------

  class PluginHost {
    var services: set<string>
    var plugins: seq<Plugin>

    constructor ()
      ensures services == {} && plugins == []
    {
      services, plugins := {}, [];
    }

    /** A plugin's `apply`: provides its keys one by one and raises at the first that is already there. */
    method Apply(p: Plugin) returns (error: Option<PluginError>)
      modifies this`services
      ensures error.None? <==> Distinct(p.keys) && Elems(p.keys) !! old(services)
      ensures error.None? ==> services == old(services) + Elems(p.keys)
      ensures error.Some? ==> error.value.AlreadyProvided? && error.value.key in p.keys
    {
      for k := 0 to |p.keys|
        invariant services == old(services) + Elems(p.keys[..k])
        invariant Distinct(p.keys[..k]) && Elems(p.keys[..k]) !! old(services)
      {
        var key := p.keys[k];
        assert p.keys[..k + 1] == p.keys[..k] + [key];
        Snoc(p.keys[..k], key);
        if key in services {
          Clash(p.keys, k, old(services));
          return Some(AlreadyProvided(key));
        }
        services := services + {key};
      }
      assert p.keys[..|p.keys|] == p.keys;
      error := None;
    }

    /** The host has applied `order` on top of what it started from. */
    ghost predicate Applied(initial: set<string>, before: seq<Plugin>, order: seq<Plugin>)
      reads this
    {
      services == initial + Provided(order) && plugins == before + order && Feasible(initial, order)
    }

    /** Applies one enabled plugin and records it. */
    method Take(p: Plugin, ghost initial: set<string>, ghost before: seq<Plugin>, ghost order: seq<Plugin>)
      returns (error: Option<PluginError>)
      requires Applied(initial, before, order) && Enabled(p, services)
      modifies this
      ensures error.None? ==> Applied(initial, before, order + [p])
      ensures error.Some? ==>
        error.value.AlreadyProvided? && !(Distinct(p.keys) && Elems(p.keys) !! initial + Provided(order))
    {
      error := Apply(p);
      if error.None? {
        ProvidedSnoc(order, p);
        FeasibleSnoc(initial, order, p);
        plugins := plugins + [p];
      }
    }

    ghost predicate Passing(pending: seq<Plugin>, initial: set<string>, before: seq<Plugin>, rest: seq<Plugin>,
                            looked: nat, now: seq<Plugin>, blocked: seq<Plugin>, progress: bool)
      reads this
    {
      && Applied(initial, before, now) && Split(pending, now, blocked, rest)
      && (if progress then |blocked| < looked else |blocked| == looked && NoneEnabled(blocked, services))
    }

    /** Looks at the next waiting plugin: applies it if its injects are there, keeps it waiting otherwise. */
    method Look(ghost pending: seq<Plugin>, ghost initial: set<string>, ghost before: seq<Plugin>, rest: seq<Plugin>,
                ghost looked: nat, ghost now: seq<Plugin>, waiting: seq<Plugin>, moved: bool)
      returns (blocked: seq<Plugin>, progress: bool, error: Option<PluginError>, ghost then_: seq<Plugin>)
      requires Distinct(Names(pending)) && rest != []
      requires Passing(pending, initial, before, rest, looked, now, waiting, moved)
      modifies this
      ensures error.None? ==> Passing(pending, initial, before, rest[1..], looked + 1, then_, blocked, progress)
      ensures error.Some? ==> error.value.AlreadyProvided? && !Exclusive(initial, pending)
    {
      blocked, progress, error, then_ := waiting, moved, None, now;
      SplitStep(pending, now, waiting, rest);
      if forall key :: key in rest[0].inject ==> key in services {
        Newcomer(initial, pending, now, waiting, rest);
        error := Take(rest[0], initial, before, now);
        then_, progress := now + [rest[0]], true;
      } else {
        blocked := waiting + [rest[0]];
      }
    }

    /** One pass over the waiting plugins. */
    method Pass(waiting: seq<Plugin>, ghost pending: seq<Plugin>, ghost initial: set<string>,
                ghost before: seq<Plugin>, ghost order: seq<Plugin>)
      returns (blocked: seq<Plugin>, progress: bool, error: Option<PluginError>, ghost now: seq<Plugin>)
      requires Distinct(Names(pending)) && Split(pending, order, [], waiting) && Applied(initial, before, order)
      modifies this
      ensures error.None? ==> Passing(pending, initial, before, [], |waiting|, now, blocked, progress)
      ensures error.Some? ==> error.value.AlreadyProvided? && !Exclusive(initial, pending)
    {
      blocked, progress, error, now := [], false, None, order;
      var rest := waiting;
      while rest != []
        invariant error.None?
        invariant Passing(pending, initial, before, rest, |waiting| - |rest|, now, blocked, progress)
        decreases |rest|
      {
        blocked, progress, error, now :=
          Look(pending, initial, before, rest, |waiting| - |rest|, now, blocked, progress);
        if error.Some? {
          return;
        }
        rest := rest[1..];
      }
    }

    /** Applies the plugins in passes until none is left or a pass makes no progress. */
    method ApplyTree(pending: seq<Plugin>) returns (error: Option<PluginError>, ghost order: seq<Plugin>)
      modifies this
      ensures error == Some(DuplicateName) <==> !Distinct(Names(pending))
      ensures error == Some(DuplicateName) ==> services == old(services) && plugins == old(plugins)
      ensures error.None? || error == Some(Unresolved) ==>
        Applied(old(services), old(plugins), order) && Stopped(old(services), pending, order)
      ensures error.None? ==> multiset(order) == multiset(pending)
      ensures error == Some(Unresolved) ==> multiset(order) < multiset(pending)
      ensures error.Some? && error.value.AlreadyProvided? ==> !Exclusive(old(services), pending)
      ensures Distinct(Names(pending)) && Exclusive(old(services), pending) ==>
        (error.None? <==> Solvable(old(services), pending))
    {
      order := [];
      DistinctByCount(Names(pending));
      if |Elems(Names(pending))| != |Names(pending)| {
        return Some(DuplicateName), [];
      }
      var remaining := pending;
      assert plugins == old(plugins) + [] && services == old(services) + Provided([]);
      while remaining != []
        invariant Applied(old(services), old(plugins), order)
        invariant Split(pending, order, [], remaining)
        decreases |remaining|
      {
        var blocked, progress, failure, now := Pass(remaining, pending, old(services), old(plugins), order);
        if failure.Some? {
          return failure, order;
        }
        order := now;
        remaining := blocked;
        if !progress {
          StuckMeansStopped(old(services), pending, order, remaining);
          return Some(Unresolved), order;
        }
      }
      assert multiset(remaining) == multiset{};
      AllAppliedMeansStopped(old(services), pending, order);
      error := None;
    }
  }

  lemma FeasibleSnoc(initial: set<string>, order: seq<Plugin>, p: Plugin)
    requires Feasible(initial, order) && Enabled(p, initial + Provided(order))
    ensures Feasible(initial, order + [p])
  {
    var all := order + [p];
    forall i | 0 <= i < |all| ensures Enabled(all[i], initial + Provided(all[..i])) {
      assert all[..i] == order[..i];
    }
  }

  /** With exclusive keys, a plugin still waiting provides nothing that is already there. */
  lemma Newcomer(
    initial: set<string>, pending: seq<Plugin>, order: seq<Plugin>, blocked: seq<Plugin>, rest: seq<Plugin>)
    requires Distinct(Names(pending)) && Split(pending, order, blocked, rest) && rest != []
    ensures Exclusive(initial, pending) ==> Distinct(rest[0].keys) && Elems(rest[0].keys) !! initial + Provided(order)
  {
    var p := rest[0];
    assert multiset(rest)[p] >= 1;
    assert multiset(pending)[p] == (multiset(order) + multiset(blocked) + multiset(rest))[p];
    OnceEach(pending);
    assert multiset(order)[p] == 0;
    if Exclusive(initial, pending) {
      ProvidedBy(order);
      forall q | q in order ensures q != p && q in pending {
        assert multiset(order)[q] >= 1;
        assert multiset(pending)[q] == (multiset(order) + multiset(blocked) + multiset(rest))[q];
      }
    }
  }

  lemma StuckMeansStopped(initial: set<string>, pending: seq<Plugin>, order: seq<Plugin>, remaining: seq<Plugin>)
    requires Distinct(Names(pending)) && remaining != []
    requires Feasible(initial, order) && multiset(order) + multiset(remaining) == multiset(pending)
    requires NoneEnabled(remaining, initial + Provided(order))
    ensures Stopped(initial, pending, order) && multiset(order) < multiset(pending)
    ensures !Solvable(initial, pending)
  {
    forall p | p in pending && p !in order ensures !Enabled(p, initial + Provided(order)) {
      assert multiset(remaining)[p] == multiset(pending)[p] >= 1;
    }
    assert multiset(remaining)[remaining[0]] >= 1;
    StoppedCompleteIffSolvable(initial, pending, order);
  }

  lemma AllAppliedMeansStopped(initial: set<string>, pending: seq<Plugin>, order: seq<Plugin>)
    requires Feasible(initial, order) && multiset(order) == multiset(pending)
    ensures Stopped(initial, pending, order) && Solvable(initial, pending)
  {
    InPending(order, pending);
  }

  lemma Clash(keys: seq<string>, k: nat, initial: set<string>)
    requires k < |keys| && keys[k] in initial + Elems(keys[..k])
    ensures !(Distinct(keys) && Elems(keys) !! initial)
  {
    if keys[k] in initial {
      assert keys[k] in Elems(keys);
    } else {
      var i :| 0 <= i < k && keys[..k][i] == keys[k];
      assert keys[i] == keys[k];
    }
  }
}
