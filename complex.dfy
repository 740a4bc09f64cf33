/**
 * The `ComplexEnvironment` class of python/version2.py:144-192 and the
 * helper act of python/version2.py:38-138, run in place: the environment
 * of python/environment.py (as `base`) plus the signal grid. Every method
 * is proved to leave the state its pure counterpart in `Helping`,
 * `Signals` and `Ticks` describes.
 */
module ComplexEnvironments {
  import opened Wrappers
  import opened Fruits
  import opened Neighborhoods
  import opened Agents
  import opened Worlds
  import opened Foraging
  import opened Signals
  import opened Helping
  import opened Ticks
  import opened Environments

  /** The first heavy fruit a blocked helper would carry: the loop of python/version2.py:55-59. */
  method FirstHeavy(memory: seq<Obs>, fruits: seq<Fruit>, near: seq<nat>, carry: seq<real>) returns (r: Option<nat>)
    requires |memory| <= MemoryLength && IndicesBelow(near, |fruits|) && |carry| >= |fruits|
    ensures r == FirstTrue(HeavyVotes(memory, fruits, near, carry))
  {
    ghost var v := HeavyVotes(memory, fruits, near, carry);
    var t := 0;
    while t < |near|
      invariant 0 <= t <= |near|
      invariant forall u :: 0 <= u < t ==> !v[u]
    {
      var key := fruits[near[t]].key;
      if key == HeavyKey {
        var b := DecideHelperCarry(memory, key, carry[near[t]]);
        if b {
          FirstTrueIsFirstAccepted(v, t);
          return Some(t);
        }
      }
      t := t + 1;
    }
    return None;
  }

  /** The first fruit a free helper would carry: the loop of python/version2.py:93-97. */
  method FirstHelperCarried(memory: seq<Obs>, fruits: seq<Fruit>, near: seq<nat>, carry: seq<real>) returns (r: Option<nat>)
    requires |memory| <= MemoryLength && IndicesBelow(near, |fruits|) && |carry| >= |fruits|
    ensures r == FirstTrue(HelperVotes(memory, fruits, near, carry))
  {
    ghost var v := HelperVotes(memory, fruits, near, carry);
    var t := 0;
    while t < |near|
      invariant 0 <= t <= |near|
      invariant forall u :: 0 <= u < t ==> !v[u]
    {
      var b := DecideHelperCarry(memory, fruits[near[t]].key, carry[near[t]]);
      if b {
        FirstTrueIsFirstAccepted(v, t);
        return Some(t);
      }
      t := t + 1;
    }
    return None;
  }

  /**
   * The scan of python/version2.py:129-136: from the strongest spot down,
   * while the intensity is positive, the first spot on an empty cell.
   */
  method ScanSignals(grid: Grid, sorted: seq<Spot>) returns (r: Option<Coord>)
    requires SpotsOn(grid, sorted)
    ensures r == ScanFrom(grid, sorted, 1)
  {
    var i := 1;
    while i < |sorted| + 1 && sorted[|sorted| - i].v > 0.0
      invariant 1 <= i <= |sorted| + 1
      invariant ScanFrom(grid, sorted, i) == ScanFrom(grid, sorted, 1)
      decreases |sorted| + 1 - i
    {
      var q := sorted[|sorted| - i].p;
      if grid[q.1][q.0] == Empty {
        return Some(q);
      }
      i := i + 1;
    }
    return None;
  }

  /** `random.choice(['A', 'B', 'C'])` given its draw: each of the three keys, by the draw modulo 3. */
  function ComplexKey(choice: nat): (key: string)
    ensures key in {"A", "B", "C"}
    ensures key == "A" <==> choice % 3 == 0
    ensures key == "B" <==> choice % 3 == 1
    ensures key == "C" <==> choice % 3 == 2
  {
    ["A", "B", "C"][choice % 3]
  }

  /** The first `number` keys python/version2.py:186 chooses, one per choice draw. */
  function ComplexKeys(number: nat, choices: seq<nat>): (keys: seq<string>)
    requires |choices| >= number
    ensures |keys| == number && forall t :: 0 <= t < number ==> keys[t] == ComplexKey(choices[t])
  {
    seq(number, t requires 0 <= t < number => ComplexKey(choices[t]))
  }

  /** The search of python/version2.py:101-102: the first of `cells` holding a helper other than agent `i`. */
  method FindHelper(w: World, cells: seq<Coord>, i: nat) returns (r: Option<nat>)
    requires WellFormed(w) && forall p :: p in cells ==> OnGrid(p, w.n, w.n)
    ensures r == FirstHelper(w, cells, i)
  {
    var k := 0;
    assert cells[0..] == cells;
    while k < |cells|
      invariant 0 <= k <= |cells|
      invariant forall p :: p in cells[k..] ==> p in cells
      invariant FirstHelper(w, cells[k..], i) == FirstHelper(w, cells, i)
    {
      var p := cells[k];
      assert p in cells;
      var c := w.grid[p.1][p.0];
      assert cells[k..][1..] == cells[k + 1..];
      if c.AgentCell? && c.index < |w.agents| && c.index != i && w.agents[c.index].role == Helper {
        return Some(c.index);
      }
      k := k + 1;
    }
    return None;
  }

  /**
   * The signal lookup of python/version2.py:125-136 around `origin`: the
   * neighbours with their intensities, shuffled, sorted by intensity and
   * scanned from the strongest. It is reached only with an empty
   * neighbour, so the assertion of python/version2.py:126 holds.
   */
  method SignalTarget(sig: Field, grid: Grid, n: nat, origin: Coord, draws: seq<nat>) returns (target: Option<Coord>)
    requires Shaped(sig, n, n) && Shaped(grid, n, n) && |draws| >= 8
    requires EmptyNeighbors(grid, n, origin.0, origin.1) != []
    ensures target == FollowSignal(sig, grid, n, origin, draws)
  {
    var cells := Neighbors(origin.0, origin.1, 1, n, n);
    NeighborsOnSquareGrid(origin.0, origin.1, 1, n);
    var spots := Spots(sig, cells);
    assert 1 <= |spots| <= 8 by {
      var e := EmptyNeighbors(grid, n, origin.0, origin.1);
      assert e[0] in e;
    }
    var sorted := SortBySignal(Shuffled(spots, draws));
    SortedOn(grid, sig, cells, spots, draws);
    target := ScanSignals(grid, sorted);
  }

  /** `Blocked` spelled out: the new memory, and a release exactly when the heavy-fruit loop found one. */
  lemma BlockedParts(sc: Scene, i: nat, d: Draws)
    requires Ready(sc, i, d) && EmptyAround(sc.world, i) == []
    ensures var w, mem := sc.world, ActMemory(sc.world, i, d);
      Blocked(sc, i, d).world == w.(agents := w.agents[i := w.agents[i].(memory := mem)]) &&
      Blocked(sc, i, d).signal ==
        if FirstTrue(HeavyVotes(mem, w.fruits, FruitAround(w, i), d.carry)).Some?
        then Released(sc.signal, w.n, AgentPos(w.agents[i])) else sc.signal
  {
  }

  /** `HelperCarries` spelled out branch by branch. */
  lemma CarriesParts(sc: Scene, i: nat, d: Draws)
    requires Ready(sc, i, d) && EmptyAround(sc.world, i) != [] && sc.world.agents[i].fruit.Some?
    ensures var w := sc.world; w.agents[i].fruit.value < |w.fruits|
    ensures var w, b, k := sc.world, Moved(sc.world, i, d), sc.world.agents[i].fruit.value;
      w.fruits[k].key != HeavyKey ==> HelperCarries(sc, i, d) == Scene(CarrierSettles(w, i, b, d), sc.signal)
    ensures var w, b, k := sc.world, Moved(sc.world, i, d), sc.world.agents[i].fruit.value;
      w.fruits[k].key == HeavyKey ==>
        b.helper.Some? && b.helper.value < |w.agents| && b.helper.value != i &&
        HelperCarries(sc, i, d) ==
          if WillRelease(b.memory, HeavyKey, d.release) then HeavyRelease(sc, i, b, d) else HeavyKeep(sc, i, b, d)
  {
    var w := sc.world;
    assert AgentFits(w.agents[i], w.n, |w.agents|, |w.fruits|);
    if w.fruits[w.agents[i].fruit.value].key == HeavyKey {
      assert LinkSound(w, i);
    }
  }

  /** `HelperChooses` spelled out branch by branch. */
  lemma ChoosesParts(sc: Scene, i: nat, d: Draws)
    requires Ready(sc, i, d) && EmptyAround(sc.world, i) != [] && sc.world.agents[i].fruit.None?
    ensures var w, b, near := sc.world, Moved(sc.world, i, d), FruitAround(sc.world, i);
      var c := FirstTrue(HelperVotes(b.memory, w.fruits, near, d.carry));
      HelperChooses(sc, i, d) ==
        if c.None? then Wander(sc, i, b, d)
        else if w.fruits[near[c.value]].key == HeavyKey then HeavyPickUp(sc, i, b, near[c.value], d)
        else Scene(PickUp(w, i, b, near[c.value]), sc.signal)
  {
  }

  /** `HelperChooses` when the chosen fruit is light. */
  lemma ChoosesLight(sc: Scene, i: nat, d: Draws, t: nat)
    requires Ready(sc, i, d) && EmptyAround(sc.world, i) != [] && sc.world.agents[i].fruit.None?
    requires FirstTrue(HelperVotes(Moved(sc.world, i, d).memory, sc.world.fruits, FruitAround(sc.world, i), d.carry)) == Some(t)
    requires t < |FruitAround(sc.world, i)| && sc.world.fruits[FruitAround(sc.world, i)[t]].key != HeavyKey
    ensures HelperChooses(sc, i, d) == Scene(PickUp(sc.world, i, Moved(sc.world, i, d), FruitAround(sc.world, i)[t]), sc.signal)
  {
  }

  class ComplexEnvironment {
    const base: Environment
    var signal: Field

    /** The environment and its signal grid as a value. */
    function State(): Scene
      reads this, base
    {
      Scene(base.State(), signal)
    }

    /** A new environment of `n` rows and `m` columns with a zero signal grid (python/version2.py:147-151). */
    constructor(n: nat, m: nat)
      ensures fresh(base)
      ensures State() == Scene(World(n, m, Blank(n, m), [], []), Zeros(n, m))
    {
      base := new Environment(n, m);
      signal := Zeros(n, m);
    }

    /** `decay_signals` (python/version2.py:153-156): every intensity drops by 0.1, not below 0. */
    method DecaySignals()
      requires Shaped(signal, base.n, base.m)
      modifies this
      ensures signal == Decayed(old(signal))
    {
      ghost var s0 := signal;
      var i := 0;
      while i < base.n
        invariant 0 <= i <= base.n && Shaped(signal, base.n, base.m)
        invariant forall y :: 0 <= y < i ==> signal[y] == Decayed(s0)[y]
        invariant forall y :: i <= y < base.n ==> signal[y] == s0[y]
      {
        var j := 0;
        label row:
        while j < base.m
          invariant 0 <= j <= base.m && Shaped(signal, base.n, base.m)
          invariant forall y :: 0 <= y < base.n && y != i ==> signal[y] == old@row(signal)[y]
          invariant forall x :: 0 <= x < j ==> signal[i][x] == Fade(s0[i][x])
          invariant forall x :: j <= x < base.m ==> signal[i][x] == s0[i][x]
        {
          signal := signal[i := signal[i][j := Fade(signal[i][j])]];
          j := j + 1;
        }
        assert signal[i] == Decayed(s0)[i];
        i := i + 1;
      }
    }

    /** `add_signal` (python/version2.py:191-192): raise one cell, capped at 1. */
    method AddSignal(x: int, y: int, intensity: real)
      requires 0 <= y < |signal| && 0 <= x < |signal[y]|
      modifies this
      ensures signal == Added(old(signal), (x, y), intensity)
    {
      signal := signal[y := signal[y][x := Boost(signal[y][x], intensity)]];
    }

    /**
     * `release_signals` (python/version2.py:33-36) from the cell `c`:
     * `add_signal` on every cell one to three steps away, in the order of
     * `get_neighbors`, with intensity 1, 2/3 or 1/3 by distance.
     */
    method ReleaseSignals(c: Coord)
      requires Shaped(signal, base.n, base.n)
      modifies this
      ensures signal == Released(old(signal), base.n, c)
    {
      var cells := Neighbors(c.0, c.1, DiffusionDistance, base.n, base.n);
      assert InRings(signal, cells, c);
      DepositAll(cells, c);
    }

    /** `add_signal` at each of `cells` in turn, with the intensity of its distance from `c`. */
    method DepositAll(cells: seq<Coord>, c: Coord)
      requires Shaped(signal, base.n, base.n) && InRings(signal, cells, c)
      modifies this
      ensures signal == Deposit(old(signal), cells, c)
    {
      assert cells[0..] == cells;
      ghost var goal := Deposit(signal, cells, c);
      var k := 0;
      while k < |cells|
        invariant 0 <= k <= |cells| && Shaped(signal, base.n, base.n)
        invariant InRings(signal, cells[k..], c)
        invariant Deposit(signal, cells[k..], c) == goal
      {
        var p := cells[k];
        DepositStep(signal, cells[k..], c);
        assert cells[k..][0] == p && cells[k..][1..] == cells[k + 1..];
        AddSignal(p.0, p.1, Intensity(Chebyshev(p, c)));
        k := k + 1;
      }
    }

    /**
     * `HelperAgent.act` (python/version2.py:38-138) for agent `i`: nothing
     * while it is helping; otherwise it acts blocked, as a carrier or as a
     * free helper, leaving the scene `HelperStep` describes.
     */
    method HelperAct(i: nat, d: Draws)
      requires Ready(State(), i, d)
      modifies this, base
      ensures State() == HelperStep(old(State()), i, d)
    {
      var a := base.agents[i];
      if a.isHelping {
        return;
      }
      assert AgentFits(a, base.n, |base.agents|, |base.fruits|);
      var empty := EmptyNeighbors(base.grid, base.n, a.x, a.y);
      assert empty == EmptyAround(State().world, i);
      if |empty| == 0 {
        ActBlocked(i, d);
        BlockedParts(old(State()), i, d);
      } else if a.fruit.Some? {
        ActCarrying(i, d);
      } else {
        ActFree(i, d);
      }
    }

    /**
     * python/version2.py:53-62: a helper with no empty neighbour only
     * remembers, and releases signals where it stands if it would carry a
     * heavy fruit next to it.
     */
    method ActBlocked(i: nat, d: Draws)
      requires WellFormed(base.State()) && Shaped(signal, base.n, base.n)
      requires i < |base.agents| && Enough(base.State(), d)
      modifies this, base
      ensures base.n == old(base.n) && base.m == old(base.m)
      ensures base.grid == old(base.grid) && base.fruits == old(base.fruits)
      ensures base.agents == old(base.agents)[i := old(base.agents)[i].(memory := ActMemory(old(base.State()), i, d))]
      ensures signal ==
        if FirstTrue(HeavyVotes(ActMemory(old(base.State()), i, d), old(base.fruits), FruitAround(old(base.State()), i), d.carry)).Some?
        then Released(old(signal), base.n, AgentPos(old(base.agents)[i])) else old(signal)
    {
      ghost var w := base.State();
      var a := base.agents[i];
      var memory := base.Notice(i, d);
      assert AgentFits(a, base.n, |base.agents|, |base.fruits|);
      var near := FruitNeighbors(base.fruits, a.x, a.y);
      assert near == FruitAround(w, i);
      var heavy := FirstHeavy(memory, base.fruits, near, d.carry);
      base.agents := base.agents[i := a.(memory := memory)];
      if heavy.Some? {
        ReleaseSignals(AgentPos(a));
      }
    }

    /**
     * python/version2.py:64-89: a carrying helper steps to a random empty
     * neighbour; with heavy fruit it releases fruit and helper or drags the
     * helper along, with light fruit it acts like a forager.
     */
    method ActCarrying(i: nat, d: Draws)
      requires Ready(State(), i, d) && EmptyAround(State().world, i) != [] && base.agents[i].fruit.Some?
      modifies base
      ensures State() == HelperCarries(old(State()), i, d)
    {
      var a := base.agents[i];
      assert AgentFits(a, base.n, |base.agents|, |base.fruits|);
      if base.fruits[a.fruit.value].key == HeavyKey {
        CarryHeavy(i, d);
      } else {
        ghost var sc := State();
        CarryLight(i, d);
        CarriesParts(sc, i, d);
      }
    }

    /** python/version2.py:84-89: a carrier of light fruit behaves as a plain `Agent` carrier. */
    method CarryLight(i: nat, d: Draws)
      requires Ready(State(), i, d) && EmptyAround(State().world, i) != [] && base.agents[i].fruit.Some?
      modifies base
      ensures State() == Scene(CarrierSettles(old(State().world), i, Moved(old(State().world), i, d), d), signal)
    {
      var b := base.Stepped(i, d);
      base.CarrierSettle(i, b, d);
    }

    /** python/version2.py:68-83: a carrier of heavy fruit releases it or keeps it, with its helper. */
    method CarryHeavy(i: nat, d: Draws)
      requires Ready(State(), i, d) && EmptyAround(State().world, i) != [] && base.agents[i].fruit.Some?
      requires base.agents[i].fruit.value < |base.fruits| && base.fruits[base.agents[i].fruit.value].key == HeavyKey
      modifies base
      ensures State() == HelperCarries(old(State()), i, d)
    {
      CarriesParts(State(), i, d);
      var b := base.Stepped(i, d);
      var release := DecideRelease(b.memory, HeavyKey, d.release);
      if release {
        HeavyReleaseAct(i, b, d);
      } else {
        HeavyKeepAct(i, b, d);
      }
    }

    /**
     * python/version2.py:71-79: the carrier puts the heavy fruit down on the
     * cell it left; carrier and helper are free and recoloured.
     */
    method HeavyReleaseAct(i: nat, b: Agent, d: Draws)
      requires Ready(State(), i, d) && Successor(State().world, i, b) && b.fruit.Some? && b.helper.Some?
      requires b.fruit.value < |base.fruits| && b.helper.value < |base.agents| && b.helper.value != i
      modifies base
      ensures State() == HeavyRelease(old(State()), i, b, d)
    {
      var a := base.agents[i];
      var k, h := b.fruit.value, b.helper.value;
      base.fruits := base.fruits[k := base.fruits[k].(x := a.x, y := a.y, isCarried := false)];
      base.agents := base.agents[i := b.(color := FreeColour, fruit := None)];
      base.agents := base.agents[h := base.agents[h].(isHelping := false, color := FreeColour)];
    }

    /** python/version2.py:80-83: the carrier keeps the heavy fruit and its helper moves to the cell it left. */
    method HeavyKeepAct(i: nat, b: Agent, d: Draws)
      requires Ready(State(), i, d) && Successor(State().world, i, b) && b.fruit == base.agents[i].fruit && b.helper.Some?
      requires b.helper.value < |base.agents| && b.helper.value != i
      modifies base
      ensures State() == HeavyKeep(old(State()), i, b, d)
    {
      var a := base.agents[i];
      var h := b.helper.value;
      base.agents := base.agents[i := b];
      base.agents := base.agents[h := base.agents[h].(x := a.x, y := a.y)];
    }

    /**
     * python/version2.py:90-138: a free helper steps, then takes the first
     * fruit next to its old cell that passes `will_carry` (heavy fruit needs
     * a helper next to it), or follows the signal.
     */
    method ActFree(i: nat, d: Draws)
      requires Ready(State(), i, d) && EmptyAround(State().world, i) != [] && base.agents[i].fruit.None?
      modifies this, base
      ensures State() == HelperChooses(old(State()), i, d)
    {
      var a := base.agents[i];
      assert AgentFits(a, base.n, |base.agents|, |base.fruits|);
      var b := base.Stepped(i, d);
      var near := FruitNeighbors(base.fruits, a.x, a.y);
      assert near == FruitAround(State().world, i);
      var chosen := FirstHelperCarried(b.memory, base.fruits, near, d.carry);
      if chosen.Some? {
        FreePick(i, b, chosen.value, d);
      } else {
        FreeWander(i, b, d);
      }
    }

    /** python/version2.py:97-121: the free helper `b` (agent `i` stepped) takes the `t`-th fruit next to it. */
    method FreePick(i: nat, b: Agent, t: nat, d: Draws)
      requires Ready(State(), i, d) && EmptyAround(State().world, i) != [] && base.agents[i].fruit.None?
      requires b == Moved(State().world, i, d)
      requires FirstTrue(HelperVotes(b.memory, base.fruits, FruitAround(State().world, i), d.carry)) == Some(t)
      modifies this, base
      ensures State() == HelperChooses(old(State()), i, d)
    {
      var a := base.agents[i];
      assert AgentFits(a, base.n, |base.agents|, |base.fruits|);
      var near := FruitNeighbors(base.fruits, a.x, a.y);
      assert near == FruitAround(State().world, i);
      if base.fruits[near[t]].key == HeavyKey {
        PickHeavy(i, b, t, d);
      } else {
        ghost var sc := State();
        ChoosesLight(sc, i, d, t);
        PickLight(i, b, near[t]);
      }
    }

    /** python/version2.py:99-117: the chosen fruit is heavy. */
    method PickHeavy(i: nat, b: Agent, t: nat, d: Draws)
      requires Ready(State(), i, d) && EmptyAround(State().world, i) != [] && base.agents[i].fruit.None?
      requires b == Moved(State().world, i, d)
      requires FirstTrue(HelperVotes(b.memory, base.fruits, FruitAround(State().world, i), d.carry)) == Some(t)
      requires t < |FruitAround(State().world, i)| && base.fruits[FruitAround(State().world, i)[t]].key == HeavyKey
      modifies this, base
      ensures State() == HelperChooses(old(State()), i, d)
    {
      ChoosesParts(State(), i, d);
      HeavyPickUpAct(i, b, FruitAround(State().world, i)[t], d);
    }

    /** python/version2.py:118-121: the chosen fruit `k` is light; the helper `b` takes it alone. */
    method PickLight(i: nat, b: Agent, k: nat)
      requires SceneFits(State()) && i < |base.agents| && Successor(base.State(), i, b) && k < |base.fruits|
      modifies base
      ensures State() == Scene(PickUp(old(State().world), i, b, k), old(signal))
    {
      base.TakeFruit(i, b, k);
    }

    /** python/version2.py:124-138: the free helper `b` (agent `i` stepped) took no fruit and follows the signal. */
    method FreeWander(i: nat, b: Agent, d: Draws)
      requires Ready(State(), i, d) && EmptyAround(State().world, i) != [] && base.agents[i].fruit.None?
      requires b == Moved(State().world, i, d)
      requires FirstTrue(HelperVotes(b.memory, base.fruits, FruitAround(State().world, i), d.carry)).None?
      modifies base
      ensures State() == HelperChooses(old(State()), i, d)
    {
      ChoosesParts(State(), i, d);
      FollowSignals(i, b, d);
    }

    /**
     * python/version2.py:99-117: for a chosen heavy fruit, recruit the first
     * helper next to it; without one, step back and release signals.
     */
    method HeavyPickUpAct(i: nat, b: Agent, k: nat, d: Draws)
      requires Ready(State(), i, d) && Successor(State().world, i, b) && b.fruit == base.agents[i].fruit
      requires k < |base.fruits|
      modifies this, base
      ensures State() == HeavyPickUp(old(State()), i, b, k, d)
    {
      var f := base.fruits[k];
      var cells := Neighbors(f.x, f.y, 1, base.n, base.n);
      assert cells == AroundFruit(State().world, k);
      var helper := FindHelper(base.State(), cells, i);
      if helper.Some? {
        CoupleAct(i, b, k, helper.value);
      } else {
        StayBack(i, b);
      }
    }

    /** python/version2.py:104-113: carrier `i` takes fruit `k` with partner `j`. */
    method CoupleAct(i: nat, b: Agent, k: nat, j: nat)
      requires SceneFits(State()) && i < |base.agents| && Coupled(State().world) && Successor(State().world, i, b)
      requires k < |base.fruits| && j < |base.agents| && j != i
      modifies base
      ensures State() == Couple(old(State()), i, b, k, j)
    {
      var f := base.fruits[k];
      base.agents := base.agents[i := b.(x := f.x, y := f.y, color := f.color, fruit := Some(k), helper := Some(j))];
      base.agents := base.agents[j := base.agents[j].(isHelping := true, color := f.color)];
      base.fruits := base.fruits[k := f.(isCarried := true)];
    }

    /** python/version2.py:115-117: agent `i` goes back to its cell as `b` and releases signals there. */
    method StayBack(i: nat, b: Agent)
      requires SceneFits(State()) && i < |base.agents|
      modifies this, base
      ensures base.agents == old(base.agents)[i := b.(x := old(base.agents[i]).x, y := old(base.agents[i]).y)]
      ensures base.n == old(base.n) && base.m == old(base.m) && base.grid == old(base.grid) && base.fruits == old(base.fruits)
      ensures signal == Released(old(signal), base.n, AgentPos(old(base.agents[i])))
    {
      var a := base.agents[i];
      base.agents := base.agents[i := b.(x := a.x, y := a.y)];
      ReleaseSignals(AgentPos(a));
    }

    /**
     * python/version2.py:124-138: a free helper that accepted no fruit reads
     * the signal of the neighbours of its old cell, shuffles and sorts them,
     * and moves to the strongest positive one on an empty cell, if any.
     */
    method FollowSignals(i: nat, b: Agent, d: Draws)
      requires Ready(State(), i, d) && Successor(State().world, i, b) && b.fruit == base.agents[i].fruit
      requires EmptyAround(State().world, i) != []
      modifies base
      ensures State() == Wander(old(State()), i, b, d)
    {
      var a := base.agents[i];
      assert AgentFits(a, base.n, |base.agents|, |base.fruits|);
      var target := SignalTarget(signal, base.grid, base.n, AgentPos(a), d.shuffle);
      var turned := b;
      if target.Some? {
        turned := b.(x := target.value.0, y := target.value.1);
      }
      base.agents := base.agents[i := turned];
    }

    /** `initialise_agents` (python/version2.py:176-181): as in the base class, but the agents are helpers. */
    method InitialiseAgents(number: nat, r: nat, picks: seq<Coord>) returns (placed: seq<Coord>)
      requires Shaped(base.grid, base.n, base.m)
      requires |picks| >= Times(number, r + 1) && forall t :: 0 <= t < |picks| ==> OnGrid(picks[t], base.n, base.m)
      modifies base
      ensures base.n == old(base.n) && base.m == old(base.m) && base.fruits == old(base.fruits)
      ensures |placed| <= number && forall t :: 0 <= t < |placed| ==> placed[t] in picks
      ensures base.agents == old(base.agents) + Spawned(Helper, placed)
      ensures Scattered(old(base.grid), base.grid, base.n, base.m, placed, seq(number, t => Marker))
      ensures var o := Generated(old(base.grid), base.n, base.m, number, r, picks, seq(number, t => Marker));
        base.grid == o.grid && placed == o.placed
      ensures EmptyMeansFree(old(base.State())) && Separate(old(base.agents), old(base.fruits)) ==>
        EmptyMeansFree(base.State()) && Separate(base.agents, base.fruits)
    {
      placed := base.InitialiseAgents(Helper, number, r, picks);
    }

    /**
     * `initialise_fruits` (python/version2.py:183-189): the key of each fruit
     * is `random.choice(['A', 'B', 'C'])`, here the t-th choice draw taken
     * modulo 3.
     */
    method InitialiseFruits(number: nat, choices: seq<nat>, r: nat, picks: seq<Coord>) returns (placed: seq<Coord>)
      requires Shaped(base.grid, base.n, base.m) && |choices| >= number
      requires |picks| >= Times(number, r + 1) && forall t :: 0 <= t < |picks| ==> OnGrid(picks[t], base.n, base.m)
      modifies base
      ensures base.n == old(base.n) && base.m == old(base.m) && base.agents == old(base.agents)
      ensures |placed| <= number && forall t :: 0 <= t < |placed| ==> placed[t] in picks
      ensures |base.fruits| == |old(base.fruits)| + |placed| && base.fruits[..|old(base.fruits)|] == old(base.fruits)
      ensures base.fruits == old(base.fruits) + Sown(placed, ComplexKeys(number, choices))
      ensures forall t :: 0 <= t < |placed| ==>
        base.fruits[|old(base.fruits)| + t] == NewFruit(placed[t].0, placed[t].1, ComplexKey(choices[t]))
      ensures Scattered(old(base.grid), base.grid, base.n, base.m, placed, KeyMarks(number, ComplexKeys(number, choices)))
      ensures var o := Generated(old(base.grid), base.n, base.m, number, r, picks, KeyMarks(number, ComplexKeys(number, choices)));
        base.grid == o.grid && placed == o.placed
      ensures EmptyMeansFree(old(base.State())) && Separate(old(base.agents), old(base.fruits)) ==>
        EmptyMeansFree(base.State()) && Separate(base.agents, base.fruits)
    {
      placed := base.ScatterFruits(number, ComplexKeys(number, choices), r, picks);
    }

    /** One `agent.act()` followed by `env.update()` (python/version2.py:222-224); the update cannot fail. */
    method ActThenUpdate(i: nat, d: Draws)
      requires Settled(State()) && i < |base.agents| && Enough(base.State(), d) && |d.shuffle| >= 8
      modifies this, base
      ensures State() == ActAndUpdate(old(State()), i, d)
    {
      ghost var sc := State();
      StepSettles(sc, i, d);
      ghost var s1 := HelperStep(sc, i, d);
      assert ActAndUpdate(sc, i, d) == Scene(Rebuilt(s1.world), s1.signal);
      HelperAct(i, d);
      Refresh();
    }

    /** `update` (python/environment.py:46-60) on a world where nothing shares a cell: the grid is rebuilt. */
    method Refresh()
      requires WellFormed(base.State()) && Separate(base.agents, base.fruits)
      modifies base
      ensures State() == Scene(Rebuilt(old(base.State())), old(signal))
    {
      var ok := base.Update();
      assert ok;
    }

    /** `decay_signals` on a settled environment: the scene the tick starts its acts from. */
    method Decay()
      requires Settled(State())
      modifies this
      ensures State() == DecayScene(old(State()))
    {
      DecaySignals();
    }

    /** Act `k` of a schedule heading for `goal`, and the update after it. */
    method ActNext(order: seq<nat>, ds: seq<Draws>, k: nat, ghost goal: Scene)
      requires k < |order| && Settled(State()) && Scheduled(base.State(), order, ds)
      requires Acts(State(), order, ds, k) == goal
      modifies this, base
      ensures Settled(State()) && Scheduled(base.State(), order, ds)
      ensures Acts(State(), order, ds, k + 1) == goal
    {
      ghost var before := base.State();
      ActThenUpdate(order[k], ds[k]);
      ScheduleKept(before, base.State(), order, ds);
    }

    /**
     * One iteration of the animation loop (python/version2.py:219-224): decay
     * the signals, then let the agents act one by one in the order the
     * shuffle gave, rebuilding the grid after each act. `order` stands for
     * the shuffled agent list.
     */
    method Tick(order: seq<nat>, ds: seq<Draws>)
      requires Settled(State()) && Permutation(order, |base.agents|) && Scheduled(base.State(), order, ds)
      modifies this, base
      ensures State() == Ticked(old(State()), order, ds)
    {
      Decay();
      ActInOrder(order, ds);
    }

    /** The inner loop of a tick: each agent of `order` acts, then the grid is rebuilt. */
    method ActInOrder(order: seq<nat>, ds: seq<Draws>)
      requires Settled(State()) && Scheduled(base.State(), order, ds)
      modifies this, base
      ensures State() == Acts(old(State()), order, ds, 0)
    {
      ghost var goal := Acts(State(), order, ds, 0);
      var k := 0;
      while k < |order|
        invariant k <= |order|
        invariant Settled(State()) && Scheduled(base.State(), order, ds)
        invariant Acts(State(), order, ds, k) == goal
      {
        ActNext(order, ds, k, goal);
        k := k + 1;
      }
    }
  }

  /** New helpers on fresh cells of the grid fit it, holding no fruit and having no partner. */
  lemma SpawnedFit(g: Grid, placed: seq<Coord>, n: nat, fruitCount: nat)
    requires FreshCells(g, n, n, placed)
    ensures var s := Spawned(Helper, placed);
      forall j :: 0 <= j < |s| ==>
        AgentFits(s[j], n, |s|, fruitCount) && s[j].role == Helper && s[j].fruit == None && s[j].helper == None
  {
  }

  /** New fruits on fresh cells of the grid, with the keys `random.choice` draws, fit it. */
  lemma SownFit(g: Grid, placed: seq<Coord>, number: nat, choices: seq<nat>, n: nat)
    requires FreshCells(g, n, n, placed) && |placed| <= number <= |choices|
    ensures var s := Sown(placed, ComplexKeys(number, choices)); forall j :: 0 <= j < |s| ==> FruitFits(s[j], n)
  {
  }

  /**
   * The first part of the set-up of `main` (python/version2.py:210-211): a
   * `size` by `size` environment with `helperCount` helpers scattered over
   * it, each on a fresh cell, and no fruit.
   */
  method NewWithHelpers(size: nat, helperCount: nat, r: nat, picks: seq<Coord>)
    returns (env: ComplexEnvironment, helpers: seq<Coord>)
    requires |picks| >= Times(helperCount, r + 1) && forall t :: 0 <= t < |picks| ==> OnGrid(picks[t], size, size)
    ensures fresh(env) && fresh(env.base)
    ensures env.base.n == size && env.base.m == size && Shaped(env.base.grid, size, size) && env.signal == Zeros(size, size)
    ensures helpers == Generated(Blank(size, size), size, size, helperCount, r, picks, seq(helperCount, t => Marker)).placed
    ensures env.base.grid == Generated(Blank(size, size), size, size, helperCount, r, picks, seq(helperCount, t => Marker)).grid
    ensures |helpers| <= helperCount && FreshCells(Blank(size, size), size, size, helpers)
    ensures env.base.agents == Spawned(Helper, helpers) && env.base.fruits == []
    ensures EmptyMeansFree(env.base.State()) && Separate(env.base.agents, env.base.fruits)
  {
    env := new ComplexEnvironment(size, size);
    assert EmptyMeansFree(env.base.State()) && Separate([], []);
    helpers := env.InitialiseAgents(helperCount, r, picks);
  }

  /**
   * The second part of the set-up of `main` (python/version2.py:212):
   * `fruitCount` fruits scattered over fresh cells of the environment.
   */
  method AddFruits(env: ComplexEnvironment, fruitCount: nat, r: nat, picks: seq<Coord>, choices: seq<nat>) returns (fruits: seq<Coord>)
    requires env.base.n == env.base.m && Shaped(env.base.grid, env.base.n, env.base.m) && env.base.fruits == [] && |choices| >= fruitCount
    requires |picks| >= Times(fruitCount, r + 1) && forall t :: 0 <= t < |picks| ==> OnGrid(picks[t], env.base.n, env.base.m)
    requires EmptyMeansFree(env.base.State()) && Separate(env.base.agents, env.base.fruits)
    modifies env.base
    ensures env.base.n == old(env.base.n) && env.base.m == old(env.base.m) && env.base.agents == old(env.base.agents)
    ensures Shaped(env.base.grid, env.base.n, env.base.m)
    ensures fruits == Generated(old(env.base.grid), env.base.n, env.base.m, fruitCount, r, picks, KeyMarks(fruitCount, ComplexKeys(fruitCount, choices))).placed
    ensures |fruits| <= fruitCount && env.base.fruits == Sown(fruits, ComplexKeys(fruitCount, choices))
    ensures forall j :: 0 <= j < |env.base.fruits| ==> FruitFits(env.base.fruits[j], env.base.n)
    ensures EmptyMeansFree(env.base.State()) && Separate(env.base.agents, env.base.fruits)
  {
    ghost var g := env.base.grid;
    fruits := env.InitialiseFruits(fruitCount, choices, r, picks);
    SownFit(g, fruits, fruitCount, choices, env.base.n);
  }

  /**
   * The set-up of `main` (python/version2.py:210-213): a `size` by `size`
   * environment, `helperCount` helpers and then `fruitCount` fruits
   * scattered over it with `r` retries each, then one `update`. The update
   * passes, and the state it leaves is settled, as every tick requires.
   */
  method SetUp(size: nat, helperCount: nat, fruitCount: nat, r: nat,
               helperPicks: seq<Coord>, fruitPicks: seq<Coord>, choices: seq<nat>)
    returns (env: ComplexEnvironment, helpers: seq<Coord>, fruits: seq<Coord>)
    requires |helperPicks| >= Times(helperCount, r + 1) && forall t :: 0 <= t < |helperPicks| ==> OnGrid(helperPicks[t], size, size)
    requires |fruitPicks| >= Times(fruitCount, r + 1) && forall t :: 0 <= t < |fruitPicks| ==> OnGrid(fruitPicks[t], size, size)
    requires |choices| >= fruitCount
    ensures fresh(env) && fresh(env.base)
    ensures Settled(env.State()) && env.signal == Zeros(size, size)
    ensures env.base.n == size && env.base.m == size
    ensures helpers == Generated(Blank(size, size), size, size, helperCount, r, helperPicks, seq(helperCount, t => Marker)).placed
    ensures env.base.agents == Spawned(Helper, helpers) && |helpers| <= helperCount
    ensures fruits == Generated(Generated(Blank(size, size), size, size, helperCount, r, helperPicks, seq(helperCount, t => Marker)).grid,
      size, size, fruitCount, r, fruitPicks, KeyMarks(fruitCount, ComplexKeys(fruitCount, choices))).placed
    ensures |fruits| <= fruitCount && env.base.fruits == Sown(fruits, ComplexKeys(fruitCount, choices))
  {
    env, helpers := NewWithHelpers(size, helperCount, r, helperPicks);
    fruits := AddFruits(env, fruitCount, r, fruitPicks, choices);
    ghost var w := env.base.State();
    SpawnedFit(Blank(size, size), helpers, size, |w.fruits|);
    SetUpSettles(w, env.signal);
    env.Refresh();
  }
}
