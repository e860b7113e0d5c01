/** The plant (simulator/Plant.java): the list of its components, lazily
    cached views of that list by kind, the list of failed components, and the
    count of time steps used. */
module Plants {
  import opened Wrappers

  /** The kind of a plant component: a closed set of tags in place of the
      source's run-time type tests. */
  datatype Kind = Reactor | Condenser | Valve | Pipe | Other

  /** A plant component, reduced to its identity and its kind: two values
      are the same component exactly when they are equal. */
  datatype Component = Component(id: nat, kind: Kind)

  /** A repair under way; only the component being repaired is modelled. */
  datatype Repair = Repair(component: Component)

  predicate NoDuplicates(s: seq<Component>)
  {
    forall i, j :: 0 <= i < j < |s| ==> s[i] != s[j]
  }

  /** The components of one kind, in list order. */
  function OfKind(cs: seq<Component>, k: Kind): (r: seq<Component>)
    ensures |r| <= |cs|
    ensures forall c :: c in r <==> c in cs && c.kind == k
    decreases |cs|
  {
    if cs == [] then []
    else
      var init := cs[..|cs| - 1];
      assert cs == init + [cs[|cs| - 1]];
      OfKind(init, k) + (if cs[|cs| - 1].kind == k then [cs[|cs| - 1]] else [])
  }

  /** Selecting by kind commutes with concatenation, so the selected
      components keep the order they have in the list. */
  lemma {:induction false} OfKindConcat(a: seq<Component>, b: seq<Component>, k: Kind)
    ensures OfKind(a + b, k) == OfKind(a, k) + OfKind(b, k)
    decreases |b|
  {
    if b == [] {
      assert a + b == a;
    } else {
      var init, last := b[..|b| - 1], b[|b| - 1];
      var tail := if last.kind == k then [last] else [];
      assert (a + b)[..|a + b| - 1] == a + init && (a + b)[|a + b| - 1] == last;
      assert OfKind(a + b, k) == OfKind(a + init, k) + tail;
      assert OfKind(b, k) == OfKind(init, k) + tail;
      OfKindConcat(a, init, k);
    }
  }

  /** The first component of a kind in list order, if there is one. */
  function FirstOfKind(cs: seq<Component>, k: Kind): (r: Option<Component>)
    ensures r.None? <==> forall i :: 0 <= i < |cs| ==> cs[i].kind != k
    ensures r.Some? ==> exists i :: 0 <= i < |cs| && cs[i] == r.value && r.value.kind == k &&
                                    forall j :: 0 <= j < i ==> cs[j].kind != k
    decreases |cs|
  {
    if cs == [] then None
    else if cs[0].kind == k then Some(cs[0])
    else
      var r := FirstOfKind(cs[1..], k);
      assert forall i :: 0 < i < |cs| ==> cs[i] == cs[1..][i - 1];
      r
  }

  /** The failed-components list after `addFailedComponent(c)`: c is added at
      the end unless it is already there. */
  function WithFailed(failed: seq<Component>, c: Component): (r: seq<Component>)
    ensures c in r
    ensures |r| >= |failed| && r[..|failed|] == failed
    ensures c in failed ==> r == failed
    ensures forall x :: x in r <==> x in failed || x == c
    ensures NoDuplicates(failed) ==> NoDuplicates(r)
  {
    if c in failed then failed else failed + [c]
  }

  /** Adding a component that has already been added changes nothing. */
  lemma AddFailedIdempotent(failed: seq<Component>, c: Component)
    ensures WithFailed(WithFailed(failed, c), c) == WithFailed(failed, c)
  {
  }

  /** The step count after a series of `updateTimeStepsUsed` calls: it never
      decreases, and calls with no positive amount leave it as it was. */
  function StepsAfter(steps: int, amounts: seq<int>): (r: int)
    ensures r >= steps
    ensures (forall i :: 0 <= i < |amounts| ==> amounts[i] <= 0) ==> r == steps
    ensures (forall i :: 0 <= i < |amounts| ==> amounts[i] >= 0) ==> r == steps + Sum(amounts)
    decreases |amounts|
  {
    if amounts == [] then steps
    else
      assert forall i :: 0 < i < |amounts| ==> amounts[i] == amounts[1..][i - 1];
      StepsAfter(steps + (if amounts[0] > 0 then amounts[0] else 0), amounts[1..])
  }

  function Sum(amounts: seq<int>): (total: int)
    decreases |amounts|
  {
    if amounts == [] then 0 else amounts[0] + Sum(amounts[1..])
  }

  class Plant {
    var operatorName: string
    var timeStepsUsed: int
    var score: int
    var isPaused: bool
    var beingRepaired: seq<Repair>
    var plantComponents: seq<Component>
    var failedComponents: seq<Component>
    /** The cached views; None stands for the source's null (not computed). */
    var reactor: Option<Component>
    var condenser: Option<Component>
    var valves: Option<seq<Component>>
    var connectorPipes: Option<seq<Component>>

    /** The failed list has no duplicates, the step count is not negative,
        and each cached view holds components of its own kind (though not
        necessarily those of the current list: the caches are never
        invalidated). */
    ghost predicate Valid()
      reads this
    {
      && timeStepsUsed >= 0
      && NoDuplicates(failedComponents)
      && (reactor.Some? ==> reactor.value.kind == Reactor)
      && (condenser.Some? ==> condenser.value.kind == Condenser)
      && (valves.Some? ==> forall c :: c in valves.value ==> c.kind == Valve)
      && (connectorPipes.Some? ==> forall c :: c in connectorPipes.value ==> c.kind == Pipe)
    }

    /** A new game: nothing used, nothing scored, no components, nothing
        failed or under repair, and no view computed yet. */
    constructor (operatorName: string)
      ensures Valid()
      ensures this.operatorName == operatorName
      ensures timeStepsUsed == 0 && score == 0 && !isPaused
      ensures beingRepaired == [] && plantComponents == [] && failedComponents == []
      ensures reactor == None && condenser == None && valves == None && connectorPipes == None
    {
      this.operatorName := operatorName;
      timeStepsUsed := 0;
      score := 0;
      beingRepaired := [];
      isPaused := false;
      plantComponents := [];
      failedComponents := [];
      reactor := None;
      condenser := None;
      valves := None;
      connectorPipes := None;
    }

    /** The scan shared by `getReactor` and `getCondenser`: the first
        component of a kind, in list order. */
    method FindFirst(k: Kind) returns (r: Option<Component>)
      ensures r == FirstOfKind(plantComponents, k)
    {
      var i := 0;
      while i < |plantComponents|
        invariant 0 <= i <= |plantComponents|
        invariant FirstOfKind(plantComponents[i..], k) == FirstOfKind(plantComponents, k)
      {
        var pc := plantComponents[i];
        if pc.kind == k {
          return Some(pc);
        }
        assert plantComponents[i..][1..] == plantComponents[i + 1..];
        i := i + 1;
      }
      return None;
    }

    /** The scan shared by `getValves` and `getConnectorPipes`: every
        component of a kind, in list order. */
    method CollectAll(k: Kind) returns (r: seq<Component>)
      ensures r == OfKind(plantComponents, k)
    {
      r := [];
      var i := 0;
      while i < |plantComponents|
        invariant 0 <= i <= |plantComponents|
        invariant r == OfKind(plantComponents[..i], k)
      {
        var pc := plantComponents[i];
        assert plantComponents[..i + 1][..i] == plantComponents[..i];
        if pc.kind == k {
          r := r + [pc];
        }
        i := i + 1;
      }
      assert plantComponents[..i] == plantComponents;
    }

    /** Returns the cached reactor if there is one; otherwise scans the list
        and caches what it finds. Finding none caches nothing, so the next
        call scans again. */
    method GetReactor() returns (r: Option<Component>)
      requires Valid()
      modifies this`reactor
      ensures Valid()
      ensures old(reactor).Some? ==> r == old(reactor)
      ensures old(reactor).None? ==> r == FirstOfKind(plantComponents, Reactor)
      ensures reactor == r
    {
      if reactor.Some? {
        return reactor;
      }
      r := FindFirst(Reactor);
      reactor := r;
    }

    /** As `GetReactor`, for the condenser. */
    method GetCondenser() returns (r: Option<Component>)
      requires Valid()
      modifies this`condenser
      ensures Valid()
      ensures old(condenser).Some? ==> r == old(condenser)
      ensures old(condenser).None? ==> r == FirstOfKind(plantComponents, Condenser)
      ensures condenser == r
    {
      if condenser.Some? {
        return condenser;
      }
      r := FindFirst(Condenser);
      condenser := r;
    }

    /** Returns the cached valves if they were ever computed; otherwise
        collects them and caches the result, even when it is empty. */
    method GetValves() returns (r: seq<Component>)
      requires Valid()
      modifies this`valves
      ensures Valid()
      ensures old(valves).Some? ==> r == old(valves).value
      ensures old(valves).None? ==> r == OfKind(plantComponents, Valve)
      ensures valves == Some(r)
    {
      if valves.Some? {
        return valves.value;
      }
      r := CollectAll(Valve);
      valves := Some(r);
    }

    /** As `GetValves`, for the connector pipes. */
    method GetConnectorPipes() returns (r: seq<Component>)
      requires Valid()
      modifies this`connectorPipes
      ensures Valid()
      ensures old(connectorPipes).Some? ==> r == old(connectorPipes).value
      ensures old(connectorPipes).None? ==> r == OfKind(plantComponents, Pipe)
      ensures connectorPipes == Some(r)
    {
      if connectorPipes.Some? {
        return connectorPipes.value;
      }
      r := CollectAll(Pipe);
      connectorPipes := Some(r);
    }

    /** Replaces the component list; the cached views are left as they were. */
    method SetPlantComponents(components: seq<Component>)
      requires Valid()
      modifies this`plantComponents
      ensures Valid()
      ensures plantComponents == components
    {
      plantComponents := components;
    }

    /** Adds a positive amount to the step count; any other amount is
        ignored. */
    method UpdateTimeStepsUsed(n: int)
      requires Valid()
      modifies this`timeStepsUsed
      ensures Valid()
      ensures timeStepsUsed == StepsAfter(old(timeStepsUsed), [n])
      ensures timeStepsUsed >= old(timeStepsUsed)
    {
      if n > 0 {
        timeStepsUsed := timeStepsUsed + n;
      }
    }

    /** Appends a component to the failed list unless it is already there. */
    method AddFailedComponent(failedComponent: Component)
      requires Valid()
      modifies this`failedComponents
      ensures Valid()
      ensures failedComponents == WithFailed(old(failedComponents), failedComponent)
    {
      if failedComponent !in failedComponents {
        failedComponents := failedComponents + [failedComponent];
      }
    }
  }

  /** The views go stale. Asked before there is a reactor, the plant finds
      none and remembers nothing; asked for valves, it remembers the empty
      list. Once components are set it finds the reactor, and after the list
      is replaced it still answers with that reactor and with no valves,
      although the current list holds another reactor and a valve. */
  method StaleViews() returns (missing: Option<Component>, found: Option<Component>,
                               stale: Option<Component>, current: Option<Component>,
                               staleValves: seq<Component>)
    ensures missing == None
    ensures found == Some(Component(1, Reactor))
    ensures stale == found && current == Some(Component(3, Reactor))
    ensures staleValves == []
  {
    var plant := new Plant("operator");
    missing := plant.GetReactor();
    var noValves := plant.GetValves();
    plant.SetPlantComponents([Component(0, Pipe), Component(1, Reactor)]);
    found := plant.GetReactor();
    plant.SetPlantComponents([Component(2, Valve), Component(3, Reactor)]);
    stale := plant.GetReactor();
    staleValves := plant.GetValves();
    current := FirstOfKind(plant.plantComponents, Reactor);
  }
}
