/**
 * `Agent.act` (python/agent.py:37-73) as a function from the world before
 * the act to the world after it. The random numbers the act consumes are
 * passed in as a `Draws` value.
 */
module Foraging {
  import opened Wrappers
  import opened Fruits
  import opened Neighborhoods
  import opened Agents
  import opened Worlds

  /**
   * The randomness of one act. `random.choice(s)` is `s[k % |s|]` for the
   * given `k`; `carry[k]` is the `random.random()` that `will_carry` draws
   * for fruit `k`; `release` is the draw of `will_release`; `shuffle` holds
   * the `randbelow` results `random.shuffle` draws (used by helpers only).
   */
  datatype Draws = Draws(observe: nat, move: nat, carry: seq<real>, release: real, shuffle: seq<nat>)

  /** `random.choice(s)` given the drawn number `k`. */
  function Pick<T>(s: seq<T>, k: nat): (r: T)
    requires |s| > 0
    ensures r in s
  {
    s[k % |s|]
  }

  predicate IndicesBelow(s: seq<nat>, bound: nat)
  {
    forall t :: 0 <= t < |s| ==> s[t] < bound
  }

  /** The fruit next to an agent are fruit of the list. */
  lemma FruitNeighborsBelow(fruits: seq<Fruit>, x: int, y: int)
    ensures IndicesBelow(FruitNeighbors(fruits, x, y), |fruits|)
  {
    var s := FruitNeighbors(fruits, x, y);
    forall t | 0 <= t < |s| ensures s[t] < |fruits| {
      assert s[t] in s;
    }
  }

  /** The key the agent notes in its memory: that of a fruit next to it, or `0`. */
  function Observe(fruits: seq<Fruit>, near: seq<nat>, k: nat): (o: Obs)
    requires IndicesBelow(near, |fruits|)
    ensures near == [] ==> o == NoFruit
    ensures near != [] ==> exists t :: 0 <= t < |near| && o == Saw(fruits[near[t]].key)
  {
    if near == [] then NoFruit else Saw(fruits[Pick(near, k)].key)
  }

  /** The outcome of `will_carry` for each fruit of `near`, in order. */
  function CarryVotes(memory: seq<Obs>, fruits: seq<Fruit>, near: seq<nat>, carry: seq<real>): (v: seq<bool>)
    requires IndicesBelow(near, |fruits|) && |carry| >= |fruits|
    ensures |v| == |near|
    ensures forall t :: 0 <= t < |near| ==> v[t] == WillCarry(memory, fruits[near[t]].key, carry[near[t]])
  {
    seq(|near|, t requires 0 <= t < |near| => WillCarry(memory, fruits[near[t]].key, carry[near[t]]))
  }

  /** The position of the first `true`, as the `for ... break` loops find it. */
  function FirstTrue(v: seq<bool>): (r: Option<nat>)
    ensures r.Some? ==> r.value < |v| && v[r.value] && forall t :: 0 <= t < r.value ==> !v[t]
    ensures r.None? <==> forall t :: 0 <= t < |v| ==> !v[t]
  {
    if v == [] then None
    else if v[0] then Some(0)
    else
      match FirstTrue(v[1..])
      case Some(t) => Some(t + 1)
      case None => None
  }

  /**
   * What an act of agent `i` leaves alone: the grid, every other agent, the
   * role and helper links of agent `i`, and the key and colour of every fruit.
   */
  predicate ActFrame(w: World, i: nat, w': World)
    requires i < |w.agents|
  {
    w'.n == w.n && w'.m == w.m && w'.grid == w.grid &&
    |w'.agents| == |w.agents| && |w'.fruits| == |w.fruits| &&
    (forall j :: 0 <= j < |w.agents| && j != i ==> w'.agents[j] == w.agents[j]) &&
    w'.agents[i].role == w.agents[i].role && w'.agents[i].isHelping == w.agents[i].isHelping &&
    w'.agents[i].helper == w.agents[i].helper &&
    (forall k :: 0 <= k < |w.fruits| ==> w'.fruits[k].key == w.fruits[k].key && w'.fruits[k].color == w.fruits[k].color)
  }

  /** `b` may replace agent `i`: it fits and keeps the agent's role and helper links. */
  predicate Successor(w: World, i: nat, b: Agent)
    requires i < |w.agents|
  {
    AgentFits(b, w.n, |w.agents|, |w.fruits|) && b.role == w.agents[i].role &&
    b.isHelping == w.agents[i].isHelping && b.helper == w.agents[i].helper
  }

  /** Agent `i` becomes `b`; nothing else changes. */
  function SetAgent(w: World, i: nat, b: Agent): (w': World)
    requires WellFormed(w) && i < |w.agents| && Successor(w, i, b)
    ensures WellFormed(w') && ActFrame(w, i, w')
  {
    w.(agents := w.agents[i := b])
  }

  /** The release of python/agent.py:58-61: fruit `k` is put down on `p`, the agent is free again. */
  function Release(w: World, i: nat, b: Agent, k: nat, p: Coord): (w': World)
    requires WellFormed(w) && i < |w.agents| && Successor(w, i, b)
    requires k < |w.fruits| && OnGrid(p, w.n, w.n)
    ensures WellFormed(w') && ActFrame(w, i, w')
  {
    assert FruitFits(w.fruits[k], w.n);
    w.(agents := w.agents[i := b.(color := FreeColour, fruit := None)],
       fruits := w.fruits[k := w.fruits[k].(x := p.0, y := p.1, isCarried := false)])
  }

  /** The pick-up of python/agent.py:70-73: the agent steps onto fruit `k` and takes it. */
  function PickUp(w: World, i: nat, b: Agent, k: nat): (w': World)
    requires WellFormed(w) && i < |w.agents| && Successor(w, i, b) && k < |w.fruits|
    ensures WellFormed(w') && ActFrame(w, i, w')
  {
    var f := w.fruits[k];
    assert FruitFits(f, w.n);
    w.(agents := w.agents[i := b.(x := f.x, y := f.y, color := f.color, fruit := Some(k))],
       fruits := w.fruits[k := f.(isCarried := true)])
  }

  /** The draws an act needs: one `will_carry` draw per fruit. */
  predicate Enough(w: World, d: Draws)
  {
    |d.carry| >= |w.fruits|
  }

  /** The uncarried fruit next to agent `i`, in list order. */
  function FruitAround(w: World, i: nat): (s: seq<nat>)
    requires i < |w.agents|
    ensures IndicesBelow(s, |w.fruits|)
    ensures forall t :: 0 <= t < |s| ==> NearFruit(w.fruits[s[t]], w.agents[i].x, w.agents[i].y)
  {
    FruitNeighborsBelow(w.fruits, w.agents[i].x, w.agents[i].y);
    var s := FruitNeighbors(w.fruits, w.agents[i].x, w.agents[i].y);
    assert forall t :: 0 <= t < |s| ==> s[t] in s;
    s
  }

  /** The memory an act leaves: the old one updated with what the agent observed. */
  function ActMemory(w: World, i: nat, d: Draws): (mem: seq<Obs>)
    requires WellFormed(w) && i < |w.agents|
    ensures |mem| <= MemoryLength
  {
    Remember(w.agents[i].memory, Observe(w.fruits, FruitAround(w, i), d.observe))
  }

  /** The empty cells next to agent `i`, each of which lies on the grid. */
  function EmptyAround(w: World, i: nat): (s: seq<Coord>)
    requires WellFormed(w) && i < |w.agents|
    ensures forall p :: p in s ==>
      OnGrid(p, w.n, w.n) && w.grid[p.1][p.0] == Empty &&
      p != AgentPos(w.agents[i]) && Chebyshev(p, AgentPos(w.agents[i])) <= 1
  {
    EmptyNeighbors(w.grid, w.n, w.agents[i].x, w.agents[i].y)
  }

  /**
   * A carrier that has stepped (agent `i` is now `b`) releases its fruit onto
   * the cell it left, or keeps it (python/agent.py:56-61).
   */
  function CarrierSettles(w: World, i: nat, b: Agent, d: Draws): (w': World)
    requires WellFormed(w) && i < |w.agents| && Successor(w, i, b) && b.fruit.Some?
    ensures WellFormed(w') && ActFrame(w, i, w')
    ensures AgentPos(w'.agents[i]) == AgentPos(b) && w'.agents[i].memory == b.memory
  {
    var k := b.fruit.value;
    assert AgentFits(w.agents[i], w.n, |w.agents|, |w.fruits|);
    if WillRelease(b.memory, w.fruits[k].key, d.release) then
      Release(w, i, b, k, AgentPos(w.agents[i]))
    else
      SetAgent(w, i, b)
  }

  /**
   * A free agent that has stepped (agent `i` is now `b`) takes the first
   * fruit next to its old cell that passes `will_carry`, if any
   * (python/agent.py:62-73).
   */
  function FreeSettles(w: World, i: nat, b: Agent, d: Draws): (w': World)
    requires WellFormed(w) && i < |w.agents| && Successor(w, i, b) && Enough(w, d)
    ensures WellFormed(w') && ActFrame(w, i, w')
    ensures w'.agents[i].memory == b.memory
  {
    var near := FruitAround(w, i);
    match FirstTrue(CarryVotes(b.memory, w.fruits, near, d.carry))
    case Some(t) => PickUp(w, i, b, near[t])
    case None => SetAgent(w, i, b)
  }

  /** Agent `i` after observing and stepping to the empty neighbour cell the draw picks. */
  function Moved(w: World, i: nat, d: Draws): (b: Agent)
    requires WellFormed(w) && i < |w.agents| && EmptyAround(w, i) != []
    ensures Successor(w, i, b) && b.fruit == w.agents[i].fruit && b.memory == ActMemory(w, i, d)
    ensures AgentPos(b) == Pick(EmptyAround(w, i), d.move)
  {
    var a := w.agents[i];
    assert AgentFits(a, w.n, |w.agents|, |w.fruits|);
    var dest := Pick(EmptyAround(w, i), d.move);
    assert dest in EmptyAround(w, i);
    a.(x := dest.0, y := dest.1, memory := ActMemory(w, i, d))
  }

  /**
   * One `act` of agent `i`: observe, remember, and if some neighbour cell is
   * empty, step there and then either release the carried fruit or pick up
   * the first neighbouring fruit that passes `will_carry`.
   */
  function ForagerStep(w: World, i: nat, d: Draws): (w': World)
    requires WellFormed(w) && i < |w.agents| && Enough(w, d)
    ensures WellFormed(w') && ActFrame(w, i, w')
  {
    var a := w.agents[i];
    assert AgentFits(a, w.n, |w.agents|, |w.fruits|);
    if EmptyAround(w, i) == [] then
      SetAgent(w, i, a.(memory := ActMemory(w, i, d)))
    else if a.fruit.Some? then
      CarrierSettles(w, i, Moved(w, i, d), d)
    else
      FreeSettles(w, i, Moved(w, i, d), d)
  }

  /** `v[t]` is the first `true` of `v`: the fruit the `for ... break` loop settles on. */
  predicate FirstAccepted(v: seq<bool>, t: nat)
  {
    t < |v| && v[t] && forall u :: 0 <= u < t ==> !v[u]
  }

  lemma FirstTrueIsFirstAccepted(v: seq<bool>, t: nat)
    requires FirstAccepted(v, t)
    ensures FirstTrue(v) == Some(t)
  {
    var r := FirstTrue(v);
    assert !(r.value < t) && !(t < r.value);
  }

  /** An act leaves agent `i` with the memory `ActMemory` describes. */
  lemma StepMemory(w: World, i: nat, d: Draws)
    requires WellFormed(w) && i < |w.agents| && Enough(w, d)
    ensures ForagerStep(w, i, d).agents[i].memory == ActMemory(w, i, d)
  {
  }

  /**
   * The memory after an act is the old one updated with `0` when no fruit is
   * near, or with the key of one of the neighbouring fruits.
   */
  lemma ForagerRemembers(w: World, i: nat, d: Draws)
    requires WellFormed(w) && i < |w.agents| && Enough(w, d)
    ensures var near := FruitAround(w, i);
      exists o: Obs :: ForagerStep(w, i, d).agents[i].memory == Remember(w.agents[i].memory, o) &&
        (near == [] ==> o == NoFruit) &&
        (near != [] ==> exists t :: 0 <= t < |near| && o == Saw(w.fruits[near[t]].key))
  {
    StepMemory(w, i, d);
    var o := Observe(w.fruits, FruitAround(w, i), d.observe);
    assert ActMemory(w, i, d) == Remember(w.agents[i].memory, o);
  }

  /** Without an empty neighbour the agent only remembers: nothing moves, nothing is carried or dropped. */
  lemma ForagerBlocked(w: World, i: nat, d: Draws)
    requires WellFormed(w) && i < |w.agents| && Enough(w, d)
    requires EmptyAround(w, i) == []
    ensures ForagerStep(w, i, d).agents[i] == w.agents[i].(memory := ActMemory(w, i, d))
    ensures ForagerStep(w, i, d).fruits == w.fruits
  {
  }

  /**
   * With an empty neighbour the agent ends one king move away from where it
   * stood: on the empty cell it chose, or on the fruit it picked up.
   */
  lemma ForagerMovesOneStep(w: World, i: nat, d: Draws)
    requires WellFormed(w) && i < |w.agents| && Enough(w, d)
    requires Separate(w.agents, w.fruits)
    requires EmptyAround(w, i) != []
    ensures var a, a' := w.agents[i], ForagerStep(w, i, d).agents[i];
      AgentPos(a') != AgentPos(a) && Chebyshev(AgentPos(a'), AgentPos(a)) <= 1
  {
    if w.agents[i].fruit.None? {
      FreeMovesOneStep(w, i, d);
    } else {
      CarrierMovesOneStep(w, i, d);
    }
  }

  lemma FreeMovesOneStep(w: World, i: nat, d: Draws)
    requires WellFormed(w) && i < |w.agents| && Enough(w, d)
    requires Separate(w.agents, w.fruits)
    requires EmptyAround(w, i) != [] && w.agents[i].fruit.None?
    ensures var a, a' := w.agents[i], ForagerStep(w, i, d).agents[i];
      AgentPos(a') != AgentPos(a) && Chebyshev(AgentPos(a'), AgentPos(a)) <= 1
  {
    PickedNeighbour(w, i, d);
    var moved := Moved(w, i, d);
    assert ForagerStep(w, i, d) == FreeSettles(w, i, moved, d);
    FreeSettlesStaysNear(w, i, moved, d);
  }

  lemma CarrierMovesOneStep(w: World, i: nat, d: Draws)
    requires WellFormed(w) && i < |w.agents| && Enough(w, d)
    requires EmptyAround(w, i) != [] && w.agents[i].fruit.Some?
    ensures var a, a' := w.agents[i], ForagerStep(w, i, d).agents[i];
      AgentPos(a') != AgentPos(a) && Chebyshev(AgentPos(a'), AgentPos(a)) <= 1
  {
    PickedNeighbour(w, i, d);
    assert ForagerStep(w, i, d) == CarrierSettles(w, i, Moved(w, i, d), d);
  }

  /** The empty cell an agent steps to is one king move from where it stood. */
  lemma PickedNeighbour(w: World, i: nat, d: Draws)
    requires WellFormed(w) && i < |w.agents|
    requires EmptyAround(w, i) != []
    ensures var dest, p := Pick(EmptyAround(w, i), d.move), AgentPos(w.agents[i]);
      dest != p && Chebyshev(dest, p) <= 1
  {
    assert Pick(EmptyAround(w, i), d.move) in EmptyAround(w, i);
  }

  /** After stepping, a free agent stays put or moves onto a fruit next to its old cell. */
  lemma FreeSettlesStaysNear(w: World, i: nat, b: Agent, d: Draws)
    requires WellFormed(w) && i < |w.agents| && Successor(w, i, b) && Enough(w, d)
    requires Separate(w.agents, w.fruits)
    ensures var p, q := AgentPos(FreeSettles(w, i, b, d).agents[i]), AgentPos(w.agents[i]);
      p == AgentPos(b) || (p != q && Chebyshev(p, q) <= 1)
  {
    var a := w.agents[i];
    var near := FruitAround(w, i);
    var v := CarryVotes(b.memory, w.fruits, near, d.carry);
    var r := FirstTrue(v);
    if r.Some? {
      var f := w.fruits[near[r.value]];
      assert NearFruit(f, a.x, a.y);
      assert NoFruitAt(w.fruits, AgentPos(a), -1);
      assert AgentPos(FreeSettles(w, i, b, d).agents[i]) == FruitPos(f);
    }
  }

  /**
   * A carrier that steps and passes `will_release` puts its fruit down on the
   * cell it left and becomes free; one that does not keeps its fruit, whose
   * record is untouched.
   */
  lemma ForagerReleases(w: World, i: nat, d: Draws, k: nat)
    requires WellFormed(w) && i < |w.agents| && Enough(w, d)
    requires EmptyAround(w, i) != []
    requires w.agents[i].fruit == Some(k)
    ensures var a, w' := w.agents[i], ForagerStep(w, i, d);
      if WillRelease(ActMemory(w, i, d), w.fruits[k].key, d.release) then
        w'.fruits == w.fruits[k := w.fruits[k].(x := a.x, y := a.y, isCarried := false)] &&
        w'.agents[i].fruit == None && w'.agents[i].color == FreeColour
      else
        w'.fruits == w.fruits && w'.agents[i].fruit == Some(k) && w'.agents[i].color == a.color
  {
  }

  /**
   * A free agent that steps picks up the first neighbouring fruit (in list
   * order) that passes `will_carry`: it stands on that fruit, carries it and
   * wears its colour. If none passes it carries nothing and no fruit changes.
   */
  lemma ForagerPicksUp(w: World, i: nat, d: Draws)
    requires WellFormed(w) && i < |w.agents| && Enough(w, d)
    requires EmptyAround(w, i) != []
    requires w.agents[i].fruit == None
    ensures var w', near := ForagerStep(w, i, d), FruitAround(w, i);
      var v := CarryVotes(ActMemory(w, i, d), w.fruits, near, d.carry);
      (forall t :: 0 <= t < |v| ==> !v[t]) ==> w'.fruits == w.fruits && w'.agents[i].fruit == None
    ensures var w', near := ForagerStep(w, i, d), FruitAround(w, i);
      var v := CarryVotes(ActMemory(w, i, d), w.fruits, near, d.carry);
      forall t: nat :: FirstAccepted(v, t) ==>
        var k := near[t];
        w'.agents[i].fruit == Some(k) && AgentPos(w'.agents[i]) == FruitPos(w.fruits[k]) &&
        w'.agents[i].color == w.fruits[k].color && w'.fruits == w.fruits[k := w.fruits[k].(isCarried := true)]
  {
    var moved := Moved(w, i, d);
    assert ForagerStep(w, i, d) == FreeSettles(w, i, moved, d);
    FreeSettlesPicks(w, i, moved, d);
  }

  lemma FreeSettlesPicks(w: World, i: nat, b: Agent, d: Draws)
    requires WellFormed(w) && i < |w.agents| && Successor(w, i, b) && Enough(w, d)
    ensures var w', near := FreeSettles(w, i, b, d), FruitAround(w, i);
      var v := CarryVotes(b.memory, w.fruits, near, d.carry);
      (forall t :: 0 <= t < |v| ==> !v[t]) ==> w'.fruits == w.fruits && w'.agents[i].fruit == b.fruit
    ensures var w', near := FreeSettles(w, i, b, d), FruitAround(w, i);
      var v := CarryVotes(b.memory, w.fruits, near, d.carry);
      forall t: nat :: FirstAccepted(v, t) ==>
        var k := near[t];
        w'.agents[i] == b.(x := w.fruits[k].x, y := w.fruits[k].y, color := w.fruits[k].color, fruit := Some(k)) &&
        w'.fruits == w.fruits[k := w.fruits[k].(isCarried := true)]
  {
    var near := FruitAround(w, i);
    var v := CarryVotes(b.memory, w.fruits, near, d.carry);
    forall t: nat | FirstAccepted(v, t) ensures FirstTrue(v) == Some(t) {
      FirstTrueIsFirstAccepted(v, t);
    }
  }

  /**
   * An act keeps the world separate when the grid it reads is up to date:
   * the agent only steps onto empty cells or onto the fruit it takes, and a
   * released fruit lands on the cell the agent has just left.
   */
  lemma ForagerStepSeparate(w: World, i: nat, d: Draws)
    requires WellFormed(w) && i < |w.agents| && Enough(w, d)
    requires Consistent(w) && Separate(w.agents, w.fruits)
    ensures Separate(ForagerStep(w, i, d).agents, ForagerStep(w, i, d).fruits)
  {
    if EmptyAround(w, i) == [] {
      BlockedStepSeparate(w, i, d);
    } else {
      ConsistentEmptyMeansFree(w);
      if w.agents[i].fruit.Some? {
        CarrierStepSeparate(w, i, d);
      } else {
        FreeStepSeparate(w, i, d);
      }
    }
  }

  lemma BlockedStepSeparate(w: World, i: nat, d: Draws)
    requires WellFormed(w) && i < |w.agents| && Enough(w, d)
    requires Separate(w.agents, w.fruits) && EmptyAround(w, i) == []
    ensures Separate(ForagerStep(w, i, d).agents, ForagerStep(w, i, d).fruits)
  {
    var b := w.agents[i].(memory := ActMemory(w, i, d));
    assert ForagerStep(w, i, d) == SetAgent(w, i, b);
    PlaceAgent(w.agents, w.fruits, i, b);
  }

  lemma CarrierStepSeparate(w: World, i: nat, d: Draws)
    requires WellFormed(w) && i < |w.agents| && Enough(w, d)
    requires EmptyMeansFree(w) && Separate(w.agents, w.fruits)
    requires EmptyAround(w, i) != [] && w.agents[i].fruit.Some?
    ensures Separate(ForagerStep(w, i, d).agents, ForagerStep(w, i, d).fruits)
  {
    var moved := Moved(w, i, d);
    assert Pick(EmptyAround(w, i), d.move) in EmptyAround(w, i);
    StepToEmpty(w, i, moved);
    assert ForagerStep(w, i, d) == CarrierSettles(w, i, moved, d);
    CarrierSettlesSeparate(w, i, moved, d);
  }

  lemma FreeStepSeparate(w: World, i: nat, d: Draws)
    requires WellFormed(w) && i < |w.agents| && Enough(w, d)
    requires EmptyMeansFree(w) && Separate(w.agents, w.fruits)
    requires EmptyAround(w, i) != [] && w.agents[i].fruit.None?
    ensures Separate(ForagerStep(w, i, d).agents, ForagerStep(w, i, d).fruits)
  {
    var moved := Moved(w, i, d);
    assert Pick(EmptyAround(w, i), d.move) in EmptyAround(w, i);
    StepToEmpty(w, i, moved);
    assert ForagerStep(w, i, d) == FreeSettles(w, i, moved, d);
    FreeSettlesSeparate(w, i, moved, d);
  }

  /** Agent `i` stepping onto a cell the up-to-date grid shows empty keeps things separate. */
  lemma StepToEmpty(w: World, i: nat, b: Agent)
    requires WellFormed(w) && i < |w.agents| && EmptyMeansFree(w) && Separate(w.agents, w.fruits)
    requires OnGrid(AgentPos(b), w.n, w.m) && w.grid[b.y][b.x] == Empty
    ensures Separate(w.agents[i := b], w.fruits)
  {
    PlaceAgent(w.agents, w.fruits, i, b);
  }

  lemma CarrierSettlesSeparate(w: World, i: nat, b: Agent, d: Draws)
    requires WellFormed(w) && i < |w.agents| && Successor(w, i, b) && b.fruit.Some?
    requires Separate(w.agents, w.fruits) && Separate(w.agents[i := b], w.fruits)
    requires AgentPos(b) != AgentPos(w.agents[i])
    ensures Separate(CarrierSettles(w, i, b, d).agents, CarrierSettles(w, i, b, d).fruits)
  {
    var k := b.fruit.value;
    if WillRelease(b.memory, w.fruits[k].key, d.release) {
      var b' := b.(color := FreeColour, fruit := None);
      assert w.agents[i := b][i] == b;
      assert NoAgentAt(w.agents[i := b], AgentPos(b), i) && NoFruitAt(w.fruits, AgentPos(b), -1);
      PlaceAgent(w.agents[i := b], w.fruits, i, b');
      assert w.agents[i := b][i := b'] == w.agents[i := b'];
      DropOnVacated(w.agents[i := b'], w.fruits, i, k, AgentPos(w.agents[i]), w.agents);
    }
  }

  lemma FreeSettlesSeparate(w: World, i: nat, b: Agent, d: Draws)
    requires WellFormed(w) && i < |w.agents| && Successor(w, i, b) && Enough(w, d)
    requires Separate(w.agents, w.fruits) && Separate(w.agents[i := b], w.fruits)
    ensures Separate(FreeSettles(w, i, b, d).agents, FreeSettles(w, i, b, d).fruits)
  {
    var near := FruitAround(w, i);
    var r := FirstTrue(CarryVotes(b.memory, w.fruits, near, d.carry));
    if r.Some? {
      TakeKeepsSeparate(w.agents, w.fruits, i, near[r.value], b);
    }
  }

  /**
   * Dropping fruit `k` on the cell `p` that agent `i` has just left (in
   * `before`, the agents as they stood) keeps things separate.
   */
  lemma DropOnVacated(agents: seq<Agent>, fruits: seq<Fruit>, i: nat, k: nat, p: Coord, before: seq<Agent>)
    requires Separate(agents, fruits) && Separate(before, fruits)
    requires i < |agents| == |before| && k < |fruits|
    requires AgentPos(before[i]) == p && AgentPos(agents[i]) != p
    requires forall j :: 0 <= j < |agents| && j != i ==> agents[j] == before[j]
    ensures Separate(agents, fruits[k := fruits[k].(x := p.0, y := p.1, isCarried := false)])
  {
    assert NoAgentAt(before, p, i);
    assert NoAgentAt(agents, p, -1);
    assert NoFruitAt(fruits, p, -1);
    PlaceFruit(agents, fruits, k, fruits[k].(x := p.0, y := p.1, isCarried := false));
  }

  /** Agent `i` stepping onto uncarried fruit `k` and taking it keeps things separate. */
  lemma TakeKeepsSeparate(agents: seq<Agent>, fruits: seq<Fruit>, i: nat, k: nat, b: Agent)
    requires Separate(agents, fruits) && i < |agents| && k < |fruits| && !fruits[k].isCarried
    ensures var f := fruits[k];
      Separate(agents[i := b.(x := f.x, y := f.y, color := f.color, fruit := Some(k))],
               fruits[k := f.(isCarried := true)])
  {
    var f := fruits[k];
    var fruits' := fruits[k := f.(isCarried := true)];
    PlaceFruit(agents, fruits, k, f.(isCarried := true));
    assert NoAgentAt(agents, FruitPos(f), i) by {
      forall j | 0 <= j < |agents| ensures AgentPos(agents[j]) != FruitPos(f) {
        assert NoFruitAt(fruits, AgentPos(agents[j]), -1);
      }
    }
    assert NoFruitAt(fruits, FruitPos(f), k);
    assert NoFruitAt(fruits', FruitPos(f), -1);
    PlaceAgent(agents, fruits', i, b.(x := f.x, y := f.y, color := f.color, fruit := Some(k)));
  }
}
