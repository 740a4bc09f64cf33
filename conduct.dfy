/**
 * What each branch of `HelperAgent.act` (python/version2.py:38-138) does to
 * the acting helper, its partner, the fruit and the signal grid.
 */
module Conduct {
  import opened Wrappers
  import opened Fruits
  import opened Neighborhoods
  import opened Agents
  import opened Worlds
  import opened Foraging
  import opened Signals
  import opened Helping

  /** Some uncarried `'C'` fruit next to agent `i` passes the helper's `will_carry`. */
  predicate WantsHeavy(w: World, i: nat, d: Draws)
    requires WellFormed(w) && i < |w.agents| && Enough(w, d)
  {
    var near, mem := FruitAround(w, i), ActMemory(w, i, d);
    exists t :: 0 <= t < |near| && w.fruits[near[t]].key == HeavyKey && HelperWillCarry(mem, HeavyKey, d.carry[near[t]])
  }

  /**
   * A blocked helper (python/version2.py:53-62) only remembers; the signal
   * grid changes exactly when it wanted an adjacent heavy fruit, and then by
   * a release around the helper's cell.
   */
  lemma BlockedHelperSignals(sc: Scene, i: nat, d: Draws)
    requires Ready(sc, i, d) && !sc.world.agents[i].isHelping && EmptyAround(sc.world, i) == []
    ensures var w, sc' := sc.world, HelperStep(sc, i, d);
      sc'.world.agents == w.agents[i := w.agents[i].(memory := ActMemory(w, i, d))] &&
      sc'.world.fruits == w.fruits
    ensures var w, sc' := sc.world, HelperStep(sc, i, d);
      sc'.signal == if WantsHeavy(w, i, d) then Released(sc.signal, w.n, AgentPos(w.agents[i])) else sc.signal
  {
    assert HelperStep(sc, i, d) == Blocked(sc, i, d);
    BlockedSignal(sc, i, d);
  }

  lemma BlockedSignal(sc: Scene, i: nat, d: Draws)
    requires Ready(sc, i, d) && EmptyAround(sc.world, i) == []
    ensures var w := sc.world;
      Blocked(sc, i, d).signal == if WantsHeavy(w, i, d) then Released(sc.signal, w.n, AgentPos(w.agents[i])) else sc.signal
  {
    var w := sc.world;
    var near, mem := FruitAround(w, i), ActMemory(w, i, d);
    var v := HeavyVotes(mem, w.fruits, near, d.carry);
    var released := Released(sc.signal, w.n, AgentPos(w.agents[i]));
    assert Blocked(sc, i, d).signal == if FirstTrue(v).Some? then released else sc.signal;
    HeavyVoteFound(mem, w.fruits, near, d.carry);
  }

  /** Some heavy-fruit vote is yes exactly when one neighbouring heavy fruit passes `will_carry`. */
  lemma HeavyVoteFound(memory: seq<Obs>, fruits: seq<Fruit>, near: seq<nat>, carry: seq<real>)
    requires IndicesBelow(near, |fruits|) && |carry| >= |fruits|
    ensures FirstTrue(HeavyVotes(memory, fruits, near, carry)).Some? <==>
      exists t :: 0 <= t < |near| && fruits[near[t]].key == HeavyKey && HelperWillCarry(memory, HeavyKey, carry[near[t]])
  {
    var v := HeavyVotes(memory, fruits, near, carry);
    if exists t :: 0 <= t < |near| && fruits[near[t]].key == HeavyKey && HelperWillCarry(memory, HeavyKey, carry[near[t]]) {
      var t :| 0 <= t < |near| && fruits[near[t]].key == HeavyKey && HelperWillCarry(memory, HeavyKey, carry[near[t]]);
      assert v[t];
    }
  }

  /** A helper that is not blocked and carries light fruit acts exactly as a forager would. */
  lemma LightCarrierForages(sc: Scene, i: nat, d: Draws)
    requires Ready(sc, i, d) && !sc.world.agents[i].isHelping && EmptyAround(sc.world, i) != []
    requires var a := sc.world.agents[i];
      a.fruit.Some? && a.fruit.value < |sc.world.fruits| && sc.world.fruits[a.fruit.value].key != HeavyKey
    ensures HelperStep(sc, i, d) == Scene(ForagerStep(sc.world, i, d), sc.signal)
  {
    var w := sc.world;
    assert HelperStep(sc, i, d) == HelperCarries(sc, i, d);
    assert ForagerStep(w, i, d) == CarrierSettles(w, i, Moved(w, i, d), d);
  }

  /**
   * A blocked helper leaves the world as a blocked forager does; only the
   * signal grid can differ.
   */
  lemma BlockedHelperForages(sc: Scene, i: nat, d: Draws)
    requires Ready(sc, i, d) && !sc.world.agents[i].isHelping && EmptyAround(sc.world, i) == []
    ensures HelperStep(sc, i, d).world == ForagerStep(sc.world, i, d)
  {
    assert HelperStep(sc, i, d) == Blocked(sc, i, d);
  }

  /**
   * A heavy-fruit carrier that steps and passes `will_release`
   * (python/version2.py:70-79) puts the fruit down on the cell it left, and
   * both it and its helper are freed and recoloured; the helper does not move.
   */
  lemma HeavyCarrierReleases(sc: Scene, i: nat, d: Draws)
    requires Ready(sc, i, d) && !sc.world.agents[i].isHelping && EmptyAround(sc.world, i) != []
    requires var a := sc.world.agents[i];
      a.fruit.Some? && a.fruit.value < |sc.world.fruits| && sc.world.fruits[a.fruit.value].key == HeavyKey
    requires WillRelease(ActMemory(sc.world, i, d), HeavyKey, d.release)
    ensures var a := sc.world.agents[i]; a.helper.Some? && a.helper.value < |sc.world.agents| && a.helper.value != i
    ensures var w, sc' := sc.world, HelperStep(sc, i, d);
      var a, k := w.agents[i], w.agents[i].fruit.value;
      var a', h := sc'.world.agents[i], a.helper.value;
      AgentPos(a') == Pick(EmptyAround(w, i), d.move) && AgentPos(a') != AgentPos(a) &&
      a'.fruit.None? && a'.color == FreeColour && a'.memory == ActMemory(w, i, d) &&
      sc'.world.fruits == w.fruits[k := w.fruits[k].(x := a.x, y := a.y, isCarried := false)] &&
      !sc'.world.agents[h].isHelping && sc'.world.agents[h].color == FreeColour &&
      AgentPos(sc'.world.agents[h]) == AgentPos(w.agents[h]) &&
      sc'.signal == sc.signal
  {
    var w := sc.world;
    var a := w.agents[i];
    assert AgentFits(a, w.n, |w.agents|, |w.fruits|);
    assert LinkSound(w, i);
    PickedNeighbour(w, i, d);
    assert HelperStep(sc, i, d) == HelperCarries(sc, i, d);
    assert HelperCarries(sc, i, d) == HeavyRelease(sc, i, Moved(w, i, d), d);
  }

  /**
   * A heavy-fruit carrier that steps and keeps its fruit
   * (python/version2.py:80-83) drags its helper onto the cell it left, so the
   * two stay next to each other.
   */
  lemma HeavyCarrierKeeps(sc: Scene, i: nat, d: Draws)
    requires Ready(sc, i, d) && !sc.world.agents[i].isHelping && EmptyAround(sc.world, i) != []
    requires var a := sc.world.agents[i];
      a.fruit.Some? && a.fruit.value < |sc.world.fruits| && sc.world.fruits[a.fruit.value].key == HeavyKey
    requires !WillRelease(ActMemory(sc.world, i, d), HeavyKey, d.release)
    ensures var a := sc.world.agents[i]; a.helper.Some? && a.helper.value < |sc.world.agents| && a.helper.value != i
    ensures var w, sc' := sc.world, HelperStep(sc, i, d);
      var a := w.agents[i];
      var a', h := sc'.world.agents[i], a.helper.value;
      a' == Moved(w, i, d) && a'.fruit == a.fruit &&
      sc'.world.agents[h] == w.agents[h].(x := a.x, y := a.y) &&
      Chebyshev(AgentPos(sc'.world.agents[h]), AgentPos(a')) <= 1 &&
      AgentPos(sc'.world.agents[h]) != AgentPos(a') &&
      sc'.world.fruits == w.fruits && sc'.signal == sc.signal
  {
    var w := sc.world;
    var a := w.agents[i];
    assert AgentFits(a, w.n, |w.agents|, |w.fruits|);
    assert LinkSound(w, i);
    PickedNeighbour(w, i, d);
    CarrierKeepsHeavy(sc, i, d);
    KeepFollows(sc, i, Moved(w, i, d), d);
  }

  lemma KeepFollows(sc: Scene, i: nat, b: Agent, d: Draws)
    requires Ready(sc, i, d) && Successor(sc.world, i, b) && b.fruit == sc.world.agents[i].fruit && b.helper.Some?
    requires b.helper.value < |sc.world.agents| && b.helper.value != i
    requires var p := AgentPos(sc.world.agents[i]); AgentPos(b) != p && Chebyshev(AgentPos(b), p) <= 1
    ensures var w, sc' := sc.world, HeavyKeep(sc, i, b, d);
      var a, h := w.agents[i], b.helper.value;
      sc'.world.agents[i] == b && sc'.world.agents[h] == w.agents[h].(x := a.x, y := a.y) &&
      Chebyshev(AgentPos(sc'.world.agents[h]), AgentPos(b)) <= 1 &&
      AgentPos(sc'.world.agents[h]) != AgentPos(b) &&
      sc'.world.fruits == w.fruits && sc'.signal == sc.signal
  {
  }

  lemma CarrierKeepsHeavy(sc: Scene, i: nat, d: Draws)
    requires Ready(sc, i, d) && !sc.world.agents[i].isHelping && EmptyAround(sc.world, i) != []
    requires var a := sc.world.agents[i];
      a.fruit.Some? && a.fruit.value < |sc.world.fruits| && sc.world.fruits[a.fruit.value].key == HeavyKey
    requires !WillRelease(ActMemory(sc.world, i, d), HeavyKey, d.release)
    requires var a := sc.world.agents[i]; a.helper.Some? && a.helper.value < |sc.world.agents| && a.helper.value != i
    ensures HelperStep(sc, i, d) == HeavyKeep(sc, i, Moved(sc.world, i, d), d)
  {
    assert HelperStep(sc, i, d) == HelperCarries(sc, i, d);
  }

  /** Agent `j` is a helper other than agent `i` standing next to fruit `k`. */
  predicate HelperNear(w: World, k: nat, i: nat, j: nat)
    requires WellFormed(w) && k < |w.fruits|
  {
    j < |w.agents| && j != i && w.agents[j].role == Helper &&
    AgentPos(w.agents[j]) in Neighbors(w.fruits[k].x, w.fruits[k].y, 1, w.n, w.n)
  }

  /** The grid shows every agent on its own cell, and each agent cell names the agent standing there. */
  predicate AgentsShown(w: World)
    requires WellFormed(w)
  {
    (forall j :: 0 <= j < |w.agents| ==> w.grid[w.agents[j].y][w.agents[j].x] == AgentCell(j)) &&
    (forall y, x :: 0 <= y < w.n && 0 <= x < w.n && w.grid[y][x].AgentCell? ==>
      w.grid[y][x].index < |w.agents| && AgentPos(w.agents[w.grid[y][x].index]) == (x, y))
  }

  /** A grid `update` has just rebuilt, with everything on distinct cells, shows the agents. */
  lemma UpdatedShowsAgents(w: World)
    requires WellFormed(w) && Consistent(w) && Separate(w.agents, w.fruits)
    ensures AgentsShown(w)
  {
    CellsOfSeparate(w);
    forall y, x | 0 <= y < w.n && 0 <= x < w.n && w.grid[y][x].AgentCell?
      ensures w.grid[y][x].index < |w.agents| && AgentPos(w.agents[w.grid[y][x].index]) == (x, y)
    {
      AgentCellNamesAgent(w, (x, y), w.grid[y][x].index);
    }
  }

  /**
   * On a grid that shows the agents, the helper search of
   * python/version2.py:101-113 finds a partner exactly when some other
   * helper stands next to the fruit, and the partner it finds is one.
   */
  lemma FirstHelperFinds(w: World, k: nat, i: nat)
    requires WellFormed(w) && AgentsShown(w) && k < |w.fruits|
    ensures var r := FirstHelper(w, AroundFruit(w, k), i);
      (r.Some? ==> HelperNear(w, k, i, r.value)) &&
      (r.None? <==> forall j: nat :: !HelperNear(w, k, i, j))
  {
    if FirstHelper(w, AroundFruit(w, k), i).Some? {
      FoundHelperIsNear(w, k, i);
    } else {
      NoHelperFound(w, k, i);
    }
  }

  lemma FoundHelperIsNear(w: World, k: nat, i: nat)
    requires WellFormed(w) && AgentsShown(w) && k < |w.fruits|
    requires FirstHelper(w, AroundFruit(w, k), i).Some?
    ensures HelperNear(w, k, i, FirstHelper(w, AroundFruit(w, k), i).value)
  {
    var cells := AroundFruit(w, k);
    var j := FirstHelper(w, cells, i).value;
    var u :| 0 <= u < |cells| && HelperCell(w, cells[u], i) && w.grid[cells[u].1][cells[u].0] == AgentCell(j);
    assert AgentPos(w.agents[j]) == cells[u];
  }

  lemma NoHelperFound(w: World, k: nat, i: nat)
    requires WellFormed(w) && AgentsShown(w) && k < |w.fruits|
    requires FirstHelper(w, AroundFruit(w, k), i).None?
    ensures forall j: nat :: !HelperNear(w, k, i, j)
  {
  }

  /**
   * A heavy pick-up with another helper next to the fruit
   * (python/version2.py:99-113): some such helper is recruited; it is marked
   * helping and both take the fruit's colour; the carrier stands on the
   * fruit, which is carried, and the partner stays next to it.
   */
  lemma HeavyPickUpCouples(sc: Scene, i: nat, b: Agent, k: nat, d: Draws)
    requires Ready(sc, i, d) && Successor(sc.world, i, b) && b.fruit == sc.world.agents[i].fruit
    requires k < |sc.world.fruits| && AgentsShown(sc.world)
    requires exists j: nat :: HelperNear(sc.world, k, i, j)
    ensures var w, sc', f := sc.world, HeavyPickUp(sc, i, b, k, d), sc.world.fruits[k];
      exists j: nat :: HelperNear(w, k, i, j) &&
        sc'.world.agents[i] == b.(x := f.x, y := f.y, color := f.color, fruit := Some(k), helper := Some(j)) &&
        sc'.world.agents[j] == w.agents[j].(isHelping := true, color := f.color) &&
        Chebyshev(AgentPos(sc'.world.agents[j]), AgentPos(sc'.world.agents[i])) <= 1 &&
        sc'.world.fruits == w.fruits[k := f.(isCarried := true)] && sc'.signal == sc.signal
  {
    var w := sc.world;
    FirstHelperFinds(w, k, i);
    var j := FirstHelper(w, AroundFruit(w, k), i).value;
    var sc' := Couple(sc, i, b, k, j);
    assert HeavyPickUp(sc, i, b, k, d) == sc';
    CoupleReadBack(w, sc'.world, i, b, k, j);
  }

  /** The carrier and the partner a coupled pick-up wrote, read back, next to each other. */
  lemma CoupleReadBack(w: World, w': World, i: nat, b: Agent, k: nat, j: nat)
    requires WellFormed(w) && i < |w.agents| && k < |w.fruits| && HelperNear(w, k, i, j)
    requires var f := w.fruits[k];
      w'.agents == w.agents[i := b.(x := f.x, y := f.y, color := f.color, fruit := Some(k), helper := Some(j))]
                           [j := w.agents[j].(isHelping := true, color := f.color)]
    ensures var f := w.fruits[k];
      w'.agents[i] == b.(x := f.x, y := f.y, color := f.color, fruit := Some(k), helper := Some(j)) &&
      w'.agents[j] == w.agents[j].(isHelping := true, color := f.color) &&
      Chebyshev(AgentPos(w'.agents[j]), AgentPos(w'.agents[i])) <= 1
  {
    var f := w.fruits[k];
    assert AgentPos(w'.agents[j]) == AgentPos(w.agents[j]);
    assert AgentPos(w'.agents[i]) == (f.x, f.y);
  }

  /**
   * A heavy pick-up with no other helper next to the fruit
   * (python/version2.py:115-117): the carrier goes back to its old cell,
   * nothing is carried and signals spread from there.
   */
  lemma HeavyPickUpAlone(sc: Scene, i: nat, b: Agent, k: nat, d: Draws)
    requires Ready(sc, i, d) && Successor(sc.world, i, b) && b.fruit == sc.world.agents[i].fruit
    requires k < |sc.world.fruits| && AgentsShown(sc.world)
    requires forall j: nat :: !HelperNear(sc.world, k, i, j)
    ensures var w, sc' := sc.world, HeavyPickUp(sc, i, b, k, d);
      sc'.world.agents == w.agents[i := b.(x := w.agents[i].x, y := w.agents[i].y)] &&
      sc'.world.fruits == w.fruits && sc'.signal == Released(sc.signal, w.n, AgentPos(w.agents[i]))
  {
    FirstHelperFinds(sc.world, k, i);
  }

  /**
   * A free helper that steps settles on the first neighbouring fruit, in
   * list order, that passes its `will_carry`; when that fruit is heavy it
   * tries to pick it up with a partner (python/version2.py:91-99).
   */
  lemma HelperChoosesHeavy(sc: Scene, i: nat, d: Draws, t: nat)
    requires Ready(sc, i, d) && !sc.world.agents[i].isHelping && EmptyAround(sc.world, i) != []
    requires sc.world.agents[i].fruit.None? && FirstAccepted(Votes(sc.world, i, d), t)
    requires sc.world.fruits[FruitAround(sc.world, i)[t]].key == HeavyKey
    ensures HelperStep(sc, i, d) == HeavyPickUp(sc, i, Moved(sc.world, i, d), FruitAround(sc.world, i)[t], d)
  {
    FirstTrueIsFirstAccepted(Votes(sc.world, i, d), t);
    assert HelperStep(sc, i, d) == HelperChooses(sc, i, d);
  }

  /**
   * A free helper whose first accepted neighbouring fruit is light takes it
   * as a forager does (python/version2.py:119-123): it stands on the fruit,
   * carries it and wears its colour.
   */
  lemma HelperTakesLight(sc: Scene, i: nat, d: Draws, t: nat)
    requires Ready(sc, i, d) && !sc.world.agents[i].isHelping && EmptyAround(sc.world, i) != []
    requires sc.world.agents[i].fruit.None? && FirstAccepted(Votes(sc.world, i, d), t)
    requires sc.world.fruits[FruitAround(sc.world, i)[t]].key != HeavyKey
    ensures var w, sc' := sc.world, HelperStep(sc, i, d);
      var k := FruitAround(w, i)[t];
      var f := w.fruits[k];
      sc'.world.agents == w.agents[i := Moved(w, i, d).(x := f.x, y := f.y, color := f.color, fruit := Some(k))] &&
      sc'.world.fruits == w.fruits[k := f.(isCarried := true)] && sc'.signal == sc.signal
  {
    FirstTrueIsFirstAccepted(Votes(sc.world, i, d), t);
    assert HelperStep(sc, i, d) == HelperChooses(sc, i, d);
  }

  /**
   * `p` is where signal following from `origin` ends: when some empty
   * neighbour of `origin` carries a positive signal, such a neighbour whose
   * signal is at least every empty neighbour's; otherwise `stepped`.
   */
  predicate FollowsStrongest(grid: Grid, sig: Field, n: nat, origin: Coord, stepped: Coord, p: Coord)
    requires Shaped(grid, n, n) && Shaped(sig, n, n)
  {
    var cells := Neighbors(origin.0, origin.1, 1, n, n);
    if exists q :: q in cells && grid[q.1][q.0] == Empty && sig[q.1][q.0] > 0.0 then
      p in cells && grid[p.1][p.0] == Empty && sig[p.1][p.0] > 0.0 &&
      forall q :: q in cells && grid[q.1][q.0] == Empty ==> sig[q.1][q.0] <= sig[p.1][p.0]
    else
      p == stepped
  }

  lemma SignalTurnFollows(sc: Scene, i: nat, b: Agent, d: Draws)
    requires Ready(sc, i, d) && Successor(sc.world, i, b)
    ensures var w := sc.world;
      FollowsStrongest(w.grid, sc.signal, w.n, AgentPos(w.agents[i]), AgentPos(b), AgentPos(SignalTurn(sc, i, b, d)))
  {
    var w := sc.world;
  }

  /**
   * A free helper that accepts no fruit follows the signal
   * (python/version2.py:124-138): when some empty neighbour of its old cell
   * carries a positive signal it ends on such a neighbour, one whose signal
   * is at least every empty neighbour's; otherwise it stays on the empty
   * cell it stepped to. Only its position and memory change.
   */
  lemma HelperFollowsSignal(sc: Scene, i: nat, d: Draws)
    requires Ready(sc, i, d) && !sc.world.agents[i].isHelping && EmptyAround(sc.world, i) != []
    requires sc.world.agents[i].fruit.None? && forall t :: 0 <= t < |Votes(sc.world, i, d)| ==> !Votes(sc.world, i, d)[t]
    ensures var w, sc' := sc.world, HelperStep(sc, i, d);
      var a, a' := w.agents[i], sc'.world.agents[i];
      sc'.world.agents == w.agents[i := a'] && a' == a.(x := a'.x, y := a'.y, memory := ActMemory(w, i, d)) &&
      sc'.world.fruits == w.fruits && sc'.signal == sc.signal &&
      FollowsStrongest(w.grid, sc.signal, w.n, AgentPos(a), Pick(EmptyAround(w, i), d.move), AgentPos(a'))
  {
    var w := sc.world;
    var b := Moved(w, i, d);
    assert FirstTrue(Votes(w, i, d)).None?;
    assert HelperStep(sc, i, d) == HelperChooses(sc, i, d);
    assert HelperChooses(sc, i, d) == Wander(sc, i, b, d);
    SignalTurnFollows(sc, i, b, d);
  }
}
