/**
 * `HelperAgent.act` (python/version2.py:38-138) as a function from the
 * scene before the act (world and signal grid) to the scene after it. The
 * randomness is again a `Draws` value; `shuffle` holds the draws of
 * `random.shuffle` in the signal scan.
 */
module Helping {
  import opened Wrappers
  import opened Fruits
  import opened Neighborhoods
  import opened Agents
  import opened Worlds
  import opened Foraging
  import opened Signals

  const HeavyKey: string := "C"
  const SkipHeavyRate: real := 0.1

  /** The pick-up rate of a helper: the base rate, times `1 - skip_heavy_rate` for the heavy key. */
  function HelperCarryRate(memory: seq<Obs>, key: string): (p: real)
    ensures 0.0 < p <= 1.0
    ensures key != HeavyKey ==> p == CarryRate(Frequency(memory, key))
    ensures key == HeavyKey ==> p == CarryRate(Frequency(memory, key)) * (1.0 - SkipHeavyRate)
    ensures key == HeavyKey ==> p < CarryRate(Frequency(memory, key))
  {
    var rate := CarryRate(Frequency(memory, key));
    if key == HeavyKey then rate * (1.0 - SkipHeavyRate) else rate
  }

  /** `HelperAgent.will_carry(key)` given its draw. */
  predicate HelperWillCarry(memory: seq<Obs>, key: string, draw: real)
  {
    draw < HelperCarryRate(memory, key)
  }

  /** `HelperAgent.will_carry` (python/version2.py:25-31), with its draw passed in. */
  method DecideHelperCarry(memory: seq<Obs>, key: string, draw: real) returns (b: bool)
    requires |memory| <= MemoryLength
    ensures b <==> HelperWillCarry(memory, key, draw)
  {
    var f := GetFrequency(memory, key);
    var rate := CarryRate(f);
    if key == HeavyKey {
      b := draw < rate * (1.0 - SkipHeavyRate);
    } else {
      b := draw < rate;
    }
  }

  /**
   * A helper decides like a forager on light fruit; on heavy fruit it
   * accepts only draws a forager would accept too.
   */
  lemma HelperCarryAgainstForager(memory: seq<Obs>, key: string, draw: real)
    ensures key != HeavyKey ==> (HelperWillCarry(memory, key, draw) <==> WillCarry(memory, key, draw))
    ensures key == HeavyKey && HelperWillCarry(memory, key, draw) ==> WillCarry(memory, key, draw)
    ensures key == HeavyKey ==> exists e: real :: !HelperWillCarry(memory, key, e) && WillCarry(memory, key, e)
  {
    if key == HeavyKey {
      var e := HelperCarryRate(memory, key);
      assert !HelperWillCarry(memory, key, e) && WillCarry(memory, key, e);
    }
  }

  /** The world and the signal grid of a `ComplexEnvironment`. */
  datatype Scene = Scene(world: World, signal: Field)

  predicate SceneFits(sc: Scene)
  {
    WellFormed(sc.world) && Shaped(sc.signal, sc.world.n, sc.world.n)
  }

  /**
   * The helper links are sound: no agent is its own helper, and a helper
   * that carries heavy fruit has a helper (the assertion of
   * python/version2.py:82).
   */
  predicate LinkSound(w: World, t: nat)
    requires t < |w.agents|
  {
    var a := w.agents[t];
    (a.helper.Some? ==> a.helper.value != t) &&
    (a.role == Helper && a.fruit.Some? && a.fruit.value < |w.fruits| && w.fruits[a.fruit.value].key == HeavyKey ==>
      a.helper.Some?)
  }

  predicate Coupled(w: World)
  {
    forall t :: 0 <= t < |w.agents| ==> LinkSound(w, t)
  }

  /** What a helper act needs: a fitting scene, sound links, and enough draws. */
  predicate Ready(sc: Scene, i: nat, d: Draws)
  {
    SceneFits(sc) && i < |sc.world.agents| && sc.world.agents[i].role == Helper &&
    Enough(sc.world, d) && |d.shuffle| >= 8 && Coupled(sc.world)
  }

  /** What a helper act leaves alone: the grid, the lengths, every role, every fruit's key and colour. */
  predicate RoleFrame(w: World, w': World)
  {
    w'.n == w.n && w'.m == w.m && w'.grid == w.grid &&
    |w'.agents| == |w.agents| && |w'.fruits| == |w.fruits| &&
    (forall j :: 0 <= j < |w.agents| ==> w'.agents[j].role == w.agents[j].role) &&
    (forall k :: 0 <= k < |w.fruits| ==> w'.fruits[k].key == w.fruits[k].key && w'.fruits[k].color == w.fruits[k].color)
  }

  /**
   * An act of agent `i` that keeps every other agent and leaves agent `i`
   * with no fruit, its old fruit, or light fruit keeps the links sound.
   */
  lemma KeepLinks(w: World, i: nat, w': World)
    requires WellFormed(w) && i < |w.agents| && Coupled(w) && ActFrame(w, i, w')
    requires var b := w'.agents[i];
      b.fruit.None? || b.fruit == w.agents[i].fruit ||
      (b.fruit.value < |w.fruits| && w.fruits[b.fruit.value].key != HeavyKey)
    ensures Coupled(w') && RoleFrame(w, w')
  {
    forall t | 0 <= t < |w'.agents| ensures LinkSound(w', t) {
      assert LinkSound(w, t);
    }
  }

  /** The votes of `will_carry` for the heavy fruit only (python/version2.py:55-58). */
  function HeavyVotes(memory: seq<Obs>, fruits: seq<Fruit>, near: seq<nat>, carry: seq<real>): (v: seq<bool>)
    requires IndicesBelow(near, |fruits|) && |carry| >= |fruits|
    ensures |v| == |near|
    ensures forall t :: 0 <= t < |near| ==>
      v[t] == (fruits[near[t]].key == HeavyKey && HelperWillCarry(memory, fruits[near[t]].key, carry[near[t]]))
  {
    seq(|near|, t requires 0 <= t < |near| =>
      fruits[near[t]].key == HeavyKey && HelperWillCarry(memory, fruits[near[t]].key, carry[near[t]]))
  }

  /** The votes of `HelperAgent.will_carry` for each neighbouring fruit (python/version2.py:93-96). */
  function HelperVotes(memory: seq<Obs>, fruits: seq<Fruit>, near: seq<nat>, carry: seq<real>): (v: seq<bool>)
    requires IndicesBelow(near, |fruits|) && |carry| >= |fruits|
    ensures |v| == |near|
    ensures forall t :: 0 <= t < |near| ==> v[t] == HelperWillCarry(memory, fruits[near[t]].key, carry[near[t]])
  {
    seq(|near|, t requires 0 <= t < |near| => HelperWillCarry(memory, fruits[near[t]].key, carry[near[t]]))
  }

  /**
   * The votes of the helper's `will_carry` on the fruit next to agent `i`, after it
   * remembered: `HelperVotes` on the memory of its act.
   */
  function Votes(w: World, i: nat, d: Draws): (v: seq<bool>)
    requires WellFormed(w) && i < |w.agents| && Enough(w, d)
    ensures |v| == |FruitAround(w, i)|
    ensures forall t :: 0 <= t < |v| ==>
      v[t] == HelperWillCarry(ActMemory(w, i, d), w.fruits[FruitAround(w, i)[t]].key, d.carry[FruitAround(w, i)[t]])
  {
    HelperVotes(ActMemory(w, i, d), w.fruits, FruitAround(w, i), d.carry)
  }

  /** The cell `p` holds a helper other than agent `i` (python/version2.py:102). */
  predicate HelperCell(w: World, p: Coord, i: nat)
    requires WellFormed(w) && OnGrid(p, w.n, w.n)
  {
    var c := w.grid[p.1][p.0];
    c.AgentCell? && c.index < |w.agents| && c.index != i && w.agents[c.index].role == Helper
  }

  /** The first cell of `cells` holding a helper other than agent `i`: the loop of python/version2.py:101-113. */
  function FirstHelper(w: World, cells: seq<Coord>, i: nat): (r: Option<nat>)
    requires WellFormed(w) && forall p :: p in cells ==> OnGrid(p, w.n, w.n)
    ensures r.Some? ==>
      exists k :: 0 <= k < |cells| && HelperCell(w, cells[k], i) &&
        w.grid[cells[k].1][cells[k].0] == AgentCell(r.value) &&
        forall u :: 0 <= u < k ==> !HelperCell(w, cells[u], i)
    ensures r.Some? ==> r.value < |w.agents| && r.value != i && w.agents[r.value].role == Helper
    ensures r.None? ==> forall k :: 0 <= k < |cells| ==> !HelperCell(w, cells[k], i)
    decreases |cells|
  {
    if cells == [] then None
    else
      var p := cells[0];
      assert forall q :: q in cells[1..] ==> q in cells;
      if HelperCell(w, p, i) then Some(w.grid[p.1][p.0].index)
      else
        var r := FirstHelper(w, cells[1..], i);
        assert forall k :: 0 <= k < |cells| - 1 ==> cells[1..][k] == cells[k + 1];
        r
  }

  /** A blocked helper (python/version2.py:53-62) remembers, stays, and signals if it wanted heavy fruit. */
  function Blocked(sc: Scene, i: nat, d: Draws): (sc': Scene)
    requires Ready(sc, i, d) && EmptyAround(sc.world, i) == []
    ensures SceneFits(sc') && ActFrame(sc.world, i, sc'.world) && Coupled(sc'.world) && RoleFrame(sc.world, sc'.world)
    ensures sc'.world == SetAgent(sc.world, i, sc.world.agents[i].(memory := ActMemory(sc.world, i, d)))
  {
    var w := sc.world;
    var a := w.agents[i];
    assert AgentFits(a, w.n, |w.agents|, |w.fruits|);
    var mem := ActMemory(w, i, d);
    var w' := SetAgent(w, i, a.(memory := mem));
    KeepLinks(w, i, w');
    var heavy := FirstTrue(HeavyVotes(mem, w.fruits, FruitAround(w, i), d.carry));
    Scene(w', if heavy.Some? then Released(sc.signal, w.n, AgentPos(a)) else sc.signal)
  }

  /** A heavy-fruit carrier that releases (python/version2.py:71-79): fruit, carrier and helper are let go. */
  function HeavyRelease(sc: Scene, i: nat, b: Agent, d: Draws): (sc': Scene)
    requires Ready(sc, i, d) && Successor(sc.world, i, b) && b.fruit.Some? && b.helper.Some?
    requires b.fruit.value < |sc.world.fruits| && b.helper.value < |sc.world.agents| && b.helper.value != i
    ensures SceneFits(sc') && RoleFrame(sc.world, sc'.world) && Coupled(sc'.world)
    ensures var w, w', k, h := sc.world, sc'.world, b.fruit.value, b.helper.value;
      w'.agents == w.agents[i := b.(color := FreeColour, fruit := None)][h := w.agents[h].(isHelping := false, color := FreeColour)] &&
      w'.fruits == w.fruits[k := w.fruits[k].(x := w.agents[i].x, y := w.agents[i].y, isCarried := false)] &&
      sc'.signal == sc.signal
  {
    var w := sc.world;
    var k, h := b.fruit.value, b.helper.value;
    assert AgentFits(w.agents[i], w.n, |w.agents|, |w.fruits|);
    var w1 := Release(w, i, b, k, AgentPos(w.agents[i]));
    KeepLinks(w, i, w1);
    assert AgentFits(w1.agents[h], w.n, |w.agents|, |w.fruits|);
    var w' := w1.(agents := w1.agents[h := w1.agents[h].(isHelping := false, color := FreeColour)]);
    assert forall t :: 0 <= t < |w'.agents| ==> LinkSound(w1, t) && (t != h ==> w'.agents[t] == w1.agents[t]);
    assert forall t :: 0 <= t < |w'.agents| ==> LinkSound(w', t);
    Scene(w', sc.signal)
  }

  /** A heavy-fruit carrier that keeps its fruit (python/version2.py:80-83): the helper follows to the old cell. */
  function HeavyKeep(sc: Scene, i: nat, b: Agent, d: Draws): (sc': Scene)
    requires Ready(sc, i, d) && Successor(sc.world, i, b) && b.fruit == sc.world.agents[i].fruit && b.helper.Some?
    requires b.helper.value < |sc.world.agents| && b.helper.value != i
    ensures SceneFits(sc') && RoleFrame(sc.world, sc'.world) && Coupled(sc'.world)
    ensures var w, w', h := sc.world, sc'.world, b.helper.value;
      w'.agents == w.agents[i := b][h := w.agents[h].(x := w.agents[i].x, y := w.agents[i].y)] &&
      w'.fruits == w.fruits && sc'.signal == sc.signal
  {
    var w := sc.world;
    var h := b.helper.value;
    assert AgentFits(w.agents[i], w.n, |w.agents|, |w.fruits|);
    var w1 := SetAgent(w, i, b);
    KeepLinks(w, i, w1);
    assert AgentFits(w1.agents[h], w.n, |w.agents|, |w.fruits|);
    var w' := w1.(agents := w1.agents[h := w1.agents[h].(x := w.agents[i].x, y := w.agents[i].y)]);
    assert forall t :: 0 <= t < |w'.agents| ==> LinkSound(w1, t) && (t != h ==> w'.agents[t] == w1.agents[t]);
    assert forall t :: 0 <= t < |w'.agents| ==> LinkSound(w', t);
    Scene(w', sc.signal)
  }

  /**
   * The first helper next to the fruit is recruited (python/version2.py:104-111):
   * the carrier steps onto the fruit and takes it, both take its colour and
   * the helper is marked as helping.
   */
  function Couple(sc: Scene, i: nat, b: Agent, k: nat, j: nat): (sc': Scene)
    requires SceneFits(sc) && i < |sc.world.agents| && Coupled(sc.world) && Successor(sc.world, i, b)
    requires k < |sc.world.fruits| && j < |sc.world.agents| && j != i
    ensures SceneFits(sc') && RoleFrame(sc.world, sc'.world) && Coupled(sc'.world)
    ensures var w, w', f := sc.world, sc'.world, sc.world.fruits[k];
      w'.agents == w.agents[i := b.(x := f.x, y := f.y, color := f.color, fruit := Some(k), helper := Some(j))]
                          [j := w.agents[j].(isHelping := true, color := f.color)] &&
      w'.fruits == w.fruits[k := f.(isCarried := true)] && sc'.signal == sc.signal
  {
    var w := sc.world;
    var f := w.fruits[k];
    var agents1 := w.agents[i := b.(x := f.x, y := f.y, color := f.color, fruit := Some(k), helper := Some(j))];
    var w' := w.(agents := agents1[j := w.agents[j].(isHelping := true, color := f.color)],
                 fruits := w.fruits[k := f.(isCarried := true)]);
    CoupleSound(w, w', i, b, k, j);
    Scene(w', sc.signal)
  }

  /** The world after a coupled pick-up is well formed, keeps roles and keeps links sound. */
  lemma CoupleSound(w: World, w': World, i: nat, b: Agent, k: nat, j: nat)
    requires WellFormed(w) && i < |w.agents| && Coupled(w) && Successor(w, i, b)
    requires k < |w.fruits| && j < |w.agents| && j != i
    requires var f := w.fruits[k];
      w' == w.(agents := w.agents[i := b.(x := f.x, y := f.y, color := f.color, fruit := Some(k), helper := Some(j))]
                                  [j := w.agents[j].(isHelping := true, color := f.color)],
               fruits := w.fruits[k := f.(isCarried := true)])
    ensures WellFormed(w') && RoleFrame(w, w') && Coupled(w')
  {
    var f := w.fruits[k];
    assert FruitFits(f, w.n);
    assert AgentFits(w.agents[j], w.n, |w.agents|, |w.fruits|);
    assert forall t :: 0 <= t < |w'.agents| && t != i && t != j ==> w'.agents[t] == w.agents[t] && LinkSound(w, t);
    assert LinkSound(w, j);
    assert forall t :: 0 <= t < |w'.agents| ==> LinkSound(w', t);
  }

  /** The radius-1 neighbours of fruit `k`, where a helper is looked for. */
  function AroundFruit(w: World, k: nat): (cells: seq<Coord>)
    requires WellFormed(w) && k < |w.fruits|
    ensures forall p :: p in cells ==> OnGrid(p, w.n, w.n)
    ensures cells == Neighbors(w.fruits[k].x, w.fruits[k].y, 1, w.n, w.n)
  {
    NeighborsOnSquareGrid(w.fruits[k].x, w.fruits[k].y, 1, w.n);
    Neighbors(w.fruits[k].x, w.fruits[k].y, 1, w.n, w.n)
  }

  /**
   * Agent `i` (stepped, now `b`) chose heavy fruit `k` (python/version2.py:99-117):
   * with a helper next to the fruit the two are coupled; otherwise the agent
   * goes back to its old cell and releases signals there.
   */
  function HeavyPickUp(sc: Scene, i: nat, b: Agent, k: nat, d: Draws): (sc': Scene)
    requires Ready(sc, i, d) && Successor(sc.world, i, b) && b.fruit == sc.world.agents[i].fruit
    requires k < |sc.world.fruits|
    ensures SceneFits(sc') && RoleFrame(sc.world, sc'.world) && Coupled(sc'.world)
  {
    var w := sc.world;
    var a := w.agents[i];
    match FirstHelper(w, AroundFruit(w, k), i)
    case Some(j) => Couple(sc, i, b, k, j)
    case None =>
      assert AgentFits(a, w.n, |w.agents|, |w.fruits|);
      var w' := SetAgent(w, i, b.(x := a.x, y := a.y));
      KeepLinks(w, i, w');
      Scene(w', Released(sc.signal, w.n, AgentPos(a)))
  }

  /**
   * Agent `i` (stepped, now `b`) accepted no fruit (python/version2.py:124-138):
   * it turns to the strongest signal next to its old cell, if any.
   */
  function Wander(sc: Scene, i: nat, b: Agent, d: Draws): (sc': Scene)
    requires Ready(sc, i, d) && Successor(sc.world, i, b) && b.fruit == sc.world.agents[i].fruit
    ensures SceneFits(sc') && ActFrame(sc.world, i, sc'.world) && Coupled(sc'.world) && RoleFrame(sc.world, sc'.world)
    ensures sc'.world == SetAgent(sc.world, i, SignalTurn(sc, i, b, d)) && sc'.signal == sc.signal
  {
    var w' := SetAgent(sc.world, i, SignalTurn(sc, i, b, d));
    KeepLinks(sc.world, i, w');
    Scene(w', sc.signal)
  }

  /** Agent `b` moved to the signal `FollowSignal` finds next to agent `i`'s old cell, if there is one. */
  function SignalTurn(sc: Scene, i: nat, b: Agent, d: Draws): (b': Agent)
    requires Ready(sc, i, d) && Successor(sc.world, i, b)
    ensures Successor(sc.world, i, b') && b' == b.(x := b'.x, y := b'.y)
    ensures var w := sc.world; var target := FollowSignal(sc.signal, w.grid, w.n, AgentPos(w.agents[i]), d.shuffle);
      AgentPos(b') == if target.Some? then target.value else AgentPos(b)
  {
    var w := sc.world;
    var a := w.agents[i];
    var target := FollowSignal(sc.signal, w.grid, w.n, AgentPos(a), d.shuffle);
    NeighborsOnSquareGrid(a.x, a.y, 1, w.n);
    if target.Some? then b.(x := target.value.0, y := target.value.1) else b
  }

  /** A free helper that stepped (python/version2.py:91-138): heavy or light pick-up, or signal following. */
  function HelperChooses(sc: Scene, i: nat, d: Draws): (sc': Scene)
    requires Ready(sc, i, d) && EmptyAround(sc.world, i) != [] && sc.world.agents[i].fruit.None?
    ensures SceneFits(sc') && RoleFrame(sc.world, sc'.world) && Coupled(sc'.world)
  {
    var w := sc.world;
    var b := Moved(w, i, d);
    var near := FruitAround(w, i);
    match FirstTrue(HelperVotes(b.memory, w.fruits, near, d.carry))
    case Some(t) =>
      var k := near[t];
      if w.fruits[k].key == HeavyKey then HeavyPickUp(sc, i, b, k, d)
      else
        var w' := PickUp(w, i, b, k);
        KeepLinks(w, i, w');
        Scene(w', sc.signal)
    case None => Wander(sc, i, b, d)
  }

  /** A helper carrying fruit that stepped (python/version2.py:68-89). */
  function HelperCarries(sc: Scene, i: nat, d: Draws): (sc': Scene)
    requires Ready(sc, i, d) && EmptyAround(sc.world, i) != [] && sc.world.agents[i].fruit.Some?
    ensures SceneFits(sc') && RoleFrame(sc.world, sc'.world) && Coupled(sc'.world)
  {
    var w := sc.world;
    var a := w.agents[i];
    var b := Moved(w, i, d);
    var k := a.fruit.value;
    assert AgentFits(a, w.n, |w.agents|, |w.fruits|);
    if w.fruits[k].key == HeavyKey then
      assert LinkSound(w, i);
      if WillRelease(b.memory, w.fruits[k].key, d.release) then HeavyRelease(sc, i, b, d)
      else HeavyKeep(sc, i, b, d)
    else
      var w' := CarrierSettles(w, i, b, d);
      KeepLinks(w, i, w');
      Scene(w', sc.signal)
  }

  /**
   * One `HelperAgent.act` of agent `i`: nothing while it is helping;
   * otherwise observe and remember, then act blocked, as a carrier, or as
   * a free agent.
   */
  function HelperStep(sc: Scene, i: nat, d: Draws): (sc': Scene)
    requires Ready(sc, i, d)
    ensures SceneFits(sc') && RoleFrame(sc.world, sc'.world) && Coupled(sc'.world)
    ensures sc.world.agents[i].isHelping ==> sc' == sc
  {
    if sc.world.agents[i].isHelping then sc
    else if EmptyAround(sc.world, i) == [] then Blocked(sc, i, d)
    else if sc.world.agents[i].fruit.Some? then HelperCarries(sc, i, d)
    else HelperChooses(sc, i, d)
  }
}
