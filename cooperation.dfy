/**
 * What `HelperAgent.act` (python/version2.py:38-138) guarantees: on a grid
 * that `update` has just rebuilt, an act keeps agents and uncarried fruit on
 * distinct cells, so the `update` after it succeeds; and each branch of the
 * act does what the source's comments promise.
 */
module Cooperation {
  import opened Wrappers
  import opened Fruits
  import opened Neighborhoods
  import opened Agents
  import opened Worlds
  import opened Foraging
  import opened Signals
  import opened Helping

  /** Changing agent `h` without moving it keeps things separate. */
  lemma Restyle(agents: seq<Agent>, fruits: seq<Fruit>, h: nat, c: Agent)
    requires Separate(agents, fruits) && h < |agents| && AgentPos(c) == AgentPos(agents[h])
    ensures Separate(agents[h := c], fruits)
  {
    assert NoAgentAt(agents, AgentPos(agents[h]), h) && NoFruitAt(fruits, AgentPos(agents[h]), -1);
    PlaceAgent(agents, fruits, h, c);
  }

  /** The step to the chosen empty neighbour keeps things separate. */
  lemma MovedSeparate(w: World, i: nat, d: Draws)
    requires WellFormed(w) && i < |w.agents| && EmptyMeansFree(w) && Separate(w.agents, w.fruits)
    requires EmptyAround(w, i) != []
    ensures Separate(w.agents[i := Moved(w, i, d)], w.fruits)
    ensures AgentPos(Moved(w, i, d)) != AgentPos(w.agents[i])
  {
    assert Pick(EmptyAround(w, i), d.move) in EmptyAround(w, i);
    StepToEmpty(w, i, Moved(w, i, d));
  }

  lemma HeavyReleaseSeparate(sc: Scene, i: nat, b: Agent, d: Draws)
    requires Ready(sc, i, d) && Successor(sc.world, i, b) && b.fruit.Some? && b.helper.Some?
    requires b.fruit.value < |sc.world.fruits| && b.helper.value < |sc.world.agents| && b.helper.value != i
    requires Separate(sc.world.agents, sc.world.fruits) && Separate(sc.world.agents[i := b], sc.world.fruits)
    requires AgentPos(b) != AgentPos(sc.world.agents[i])
    ensures Separate(HeavyRelease(sc, i, b, d).world.agents, HeavyRelease(sc, i, b, d).world.fruits)
  {
    var w := sc.world;
    var k, h := b.fruit.value, b.helper.value;
    var b' := b.(color := FreeColour, fruit := None);
    assert w.agents[i := b][i] == b;
    assert NoAgentAt(w.agents[i := b], AgentPos(b), i) && NoFruitAt(w.fruits, AgentPos(b), -1);
    PlaceAgent(w.agents[i := b], w.fruits, i, b');
    assert w.agents[i := b][i := b'] == w.agents[i := b'];
    var p := AgentPos(w.agents[i]);
    DropOnVacated(w.agents[i := b'], w.fruits, i, k, p, w.agents);
    var fruits' := w.fruits[k := w.fruits[k].(x := p.0, y := p.1, isCarried := false)];
    Restyle(w.agents[i := b'], fruits', h, w.agents[h].(isHelping := false, color := FreeColour));
  }

  lemma HeavyKeepSeparate(sc: Scene, i: nat, b: Agent, d: Draws)
    requires Ready(sc, i, d) && Successor(sc.world, i, b) && b.fruit == sc.world.agents[i].fruit && b.helper.Some?
    requires b.helper.value < |sc.world.agents| && b.helper.value != i
    requires Separate(sc.world.agents, sc.world.fruits) && Separate(sc.world.agents[i := b], sc.world.fruits)
    requires AgentPos(b) != AgentPos(sc.world.agents[i])
    ensures Separate(HeavyKeep(sc, i, b, d).world.agents, HeavyKeep(sc, i, b, d).world.fruits)
  {
    var w := sc.world;
    var h := b.helper.value;
    var p := AgentPos(w.agents[i]);
    var agents1 := w.agents[i := b];
    assert NoAgentAt(w.agents, p, i) && NoFruitAt(w.fruits, p, -1);
    assert NoAgentAt(agents1, p, h);
    PlaceAgent(agents1, w.fruits, h, w.agents[h].(x := p.0, y := p.1));
  }

  lemma CarriesSeparate(sc: Scene, i: nat, d: Draws)
    requires Ready(sc, i, d) && EmptyAround(sc.world, i) != [] && sc.world.agents[i].fruit.Some?
    requires EmptyMeansFree(sc.world) && Separate(sc.world.agents, sc.world.fruits)
    ensures Separate(HelperCarries(sc, i, d).world.agents, HelperCarries(sc, i, d).world.fruits)
  {
    var w := sc.world;
    var a := w.agents[i];
    var b := Moved(w, i, d);
    var k := a.fruit.value;
    assert AgentFits(a, w.n, |w.agents|, |w.fruits|);
    MovedSeparate(w, i, d);
    if w.fruits[k].key == HeavyKey {
      assert LinkSound(w, i);
      if WillRelease(b.memory, w.fruits[k].key, d.release) {
        HeavyReleaseSeparate(sc, i, b, d);
      } else {
        HeavyKeepSeparate(sc, i, b, d);
      }
    } else {
      CarrierSettlesSeparate(w, i, b, d);
    }
  }

  /** The carrier moving onto the fruit and its partner changing colour keep things separate. */
  lemma CoupleSeparate(agents: seq<Agent>, fruits: seq<Fruit>, i: nat, b: Agent, k: nat, j: nat)
    requires Separate(agents, fruits) && i < |agents| && j < |agents| && i != j
    requires k < |fruits| && !fruits[k].isCarried
    ensures var f := fruits[k];
      Separate(agents[i := b.(x := f.x, y := f.y, color := f.color, fruit := Some(k), helper := Some(j))]
                     [j := agents[j].(isHelping := true, color := f.color)],
               fruits[k := f.(isCarried := true)])
  {
    var f := fruits[k];
    var c := b.(helper := Some(j));
    TakeKeepsSeparate(agents, fruits, i, k, c);
    var agents1 := agents[i := c.(x := f.x, y := f.y, color := f.color, fruit := Some(k))];
    assert agents1[j] == agents[j];
    Restyle(agents1, fruits[k := f.(isCarried := true)], j, agents[j].(isHelping := true, color := f.color));
  }

  lemma HeavyPickUpSeparate(sc: Scene, i: nat, b: Agent, k: nat, d: Draws)
    requires Ready(sc, i, d) && Successor(sc.world, i, b) && b.fruit == sc.world.agents[i].fruit
    requires k < |sc.world.fruits| && !sc.world.fruits[k].isCarried
    requires Separate(sc.world.agents, sc.world.fruits)
    ensures Separate(HeavyPickUp(sc, i, b, k, d).world.agents, HeavyPickUp(sc, i, b, k, d).world.fruits)
  {
    var w := sc.world;
    var a := w.agents[i];
    var f := w.fruits[k];
    match FirstHelper(w, AroundFruit(w, k), i)
    case Some(j) =>
      CoupleSeparate(w.agents, w.fruits, i, b, k, j);
    case None =>
      Restyle(w.agents, w.fruits, i, b.(x := a.x, y := a.y));
  }

  lemma WanderSeparate(sc: Scene, i: nat, d: Draws)
    requires Ready(sc, i, d) && EmptyAround(sc.world, i) != []
    requires EmptyMeansFree(sc.world) && Separate(sc.world.agents, sc.world.fruits)
    ensures var b := Moved(sc.world, i, d);
      Separate(Wander(sc, i, b, d).world.agents, Wander(sc, i, b, d).world.fruits)
  {
    var w := sc.world;
    var a := w.agents[i];
    var b := Moved(w, i, d);
    var t := SignalTurn(sc, i, b, d);
    if FollowSignal(sc.signal, w.grid, w.n, AgentPos(a), d.shuffle).None? {
      assert Pick(EmptyAround(w, i), d.move) in EmptyAround(w, i);
      NeighborsOnSquareGrid(a.x, a.y, 1, w.n);
    }
    StepToEmpty(w, i, t);
  }

  lemma TakesSeparate(sc: Scene, i: nat, d: Draws)
    requires Ready(sc, i, d) && EmptyAround(sc.world, i) != [] && sc.world.agents[i].fruit.None?
    requires FirstTrue(HelperVotes(Moved(sc.world, i, d).memory, sc.world.fruits, FruitAround(sc.world, i), d.carry)).Some?
    requires Separate(sc.world.agents, sc.world.fruits)
    ensures Separate(HelperChooses(sc, i, d).world.agents, HelperChooses(sc, i, d).world.fruits)
  {
    var w := sc.world;
    var b := Moved(w, i, d);
    var near := FruitAround(w, i);
    var k := near[FirstTrue(HelperVotes(b.memory, w.fruits, near, d.carry)).value];
    assert NearFruit(w.fruits[k], w.agents[i].x, w.agents[i].y);
    if w.fruits[k].key == HeavyKey {
      HeavyPickUpSeparate(sc, i, b, k, d);
    } else {
      TakeKeepsSeparate(w.agents, w.fruits, i, k, b);
    }
  }

  lemma ChoosesSeparate(sc: Scene, i: nat, d: Draws)
    requires Ready(sc, i, d) && EmptyAround(sc.world, i) != [] && sc.world.agents[i].fruit.None?
    requires EmptyMeansFree(sc.world) && Separate(sc.world.agents, sc.world.fruits)
    ensures Separate(HelperChooses(sc, i, d).world.agents, HelperChooses(sc, i, d).world.fruits)
  {
    var w := sc.world;
    if FirstTrue(HelperVotes(Moved(w, i, d).memory, w.fruits, FruitAround(w, i), d.carry)).Some? {
      TakesSeparate(sc, i, d);
    } else {
      WanderSeparate(sc, i, d);
    }
  }

  /** One helper act keeps everything on distinct cells when every `Empty` cell is free. */
  lemma HelperStepKeepsFree(sc: Scene, i: nat, d: Draws)
    requires Ready(sc, i, d) && EmptyMeansFree(sc.world) && Separate(sc.world.agents, sc.world.fruits)
    ensures Separate(HelperStep(sc, i, d).world.agents, HelperStep(sc, i, d).world.fruits)
  {
    var w := sc.world;
    if w.agents[i].isHelping {
    } else if EmptyAround(w, i) == [] {
      Restyle(w.agents, w.fruits, i, w.agents[i].(memory := ActMemory(w, i, d)));
    } else if w.agents[i].fruit.Some? {
      CarriesSeparate(sc, i, d);
    } else {
      ChoosesSeparate(sc, i, d);
    }
  }

  /**
   * Starting from a grid `update` has just rebuilt, with everything on
   * distinct cells, one helper act keeps everything on distinct cells:
   * the `update` that follows it (python/version2.py:224) succeeds.
   */
  lemma HelperStepSeparate(sc: Scene, i: nat, d: Draws)
    requires Ready(sc, i, d) && Consistent(sc.world) && Separate(sc.world.agents, sc.world.fruits)
    ensures Separate(HelperStep(sc, i, d).world.agents, HelperStep(sc, i, d).world.fruits)
  {
    ConsistentEmptyMeansFree(sc.world);
    HelperStepKeepsFree(sc, i, d);
  }

  /** The signal grid after a helper act: unchanged, or one release around the helper's own cell. */
  predicate SignalFromOwnCell(sc: Scene, i: nat, signal: Field)
    requires SceneFits(sc) && i < |sc.world.agents|
  {
    signal == sc.signal || signal == Released(sc.signal, sc.world.n, AgentPos(sc.world.agents[i]))
  }

  lemma HeavyPickUpSignal(sc: Scene, i: nat, b: Agent, k: nat, d: Draws)
    requires Ready(sc, i, d) && Successor(sc.world, i, b) && b.fruit == sc.world.agents[i].fruit
    requires k < |sc.world.fruits|
    ensures SignalFromOwnCell(sc, i, HeavyPickUp(sc, i, b, k, d).signal)
  {
  }

  lemma ChoosesSignal(sc: Scene, i: nat, d: Draws)
    requires Ready(sc, i, d) && EmptyAround(sc.world, i) != [] && sc.world.agents[i].fruit.None?
    ensures SignalFromOwnCell(sc, i, HelperChooses(sc, i, d).signal)
  {
    var w := sc.world;
    var b := Moved(w, i, d);
    var near := FruitAround(w, i);
    var r := FirstTrue(HelperVotes(b.memory, w.fruits, near, d.carry));
    if r.Some? && w.fruits[near[r.value]].key == HeavyKey {
      HeavyPickUpSignal(sc, i, b, near[r.value], d);
    }
  }

  lemma CarriesSignal(sc: Scene, i: nat, d: Draws)
    requires Ready(sc, i, d) && EmptyAround(sc.world, i) != [] && sc.world.agents[i].fruit.Some?
    ensures HelperCarries(sc, i, d).signal == sc.signal
  {
    var w := sc.world;
    var a := w.agents[i];
    var b := Moved(w, i, d);
    var k := a.fruit.value;
    assert AgentFits(a, w.n, |w.agents|, |w.fruits|);
    if w.fruits[k].key == HeavyKey {
      assert LinkSound(w, i);
      if WillRelease(b.memory, w.fruits[k].key, d.release) {
        assert HelperCarries(sc, i, d) == HeavyRelease(sc, i, b, d);
      } else {
        assert HelperCarries(sc, i, d) == HeavyKeep(sc, i, b, d);
      }
    }
  }

  lemma StepSignal(sc: Scene, i: nat, d: Draws)
    requires Ready(sc, i, d)
    ensures SignalFromOwnCell(sc, i, HelperStep(sc, i, d).signal)
  {
    var w := sc.world;
    if w.agents[i].isHelping {
    } else if EmptyAround(w, i) == [] {
      assert HelperStep(sc, i, d) == Blocked(sc, i, d);
    } else if w.agents[i].fruit.None? {
      assert HelperStep(sc, i, d) == HelperChooses(sc, i, d);
      ChoosesSignal(sc, i, d);
    } else {
      assert HelperStep(sc, i, d) == HelperCarries(sc, i, d);
      CarriesSignal(sc, i, d);
    }
  }

  /**
   * A helper act changes the signal grid at most by one `release_signals`
   * around the cell the helper stood on before the act
   * (python/version2.py:61, 116-117); in particular it keeps signals in [0, 1].
   */
  lemma HelperStepSignal(sc: Scene, i: nat, d: Draws)
    requires Ready(sc, i, d)
    ensures SignalFromOwnCell(sc, i, HelperStep(sc, i, d).signal)
    ensures InUnit(sc.signal) ==> InUnit(HelperStep(sc, i, d).signal)
  {
    StepSignal(sc, i, d);
    if InUnit(sc.signal) {
      ReleaseSaturates(sc.signal, sc.world.n, AgentPos(sc.world.agents[i]));
    }
  }
}
