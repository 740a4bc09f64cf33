/**
 * One tick of the cooperative simulation (python/version2.py:220-224):
 * decay every signal once, then let each agent act in the shuffled order,
 * rebuilding the occupancy grid after every act.
 */
module Ticks {
  import opened Wrappers
  import opened Neighborhoods
  import opened Agents
  import opened Worlds
  import opened Foraging
  import opened Signals
  import opened Helping
  import opened Cooperation

  /** The grid `update` rebuilds (python/environment.py:46-60) when its assertions hold. */
  function Rebuilt(w: World): (w': World)
    requires WellFormed(w)
    ensures WellFormed(w') && Consistent(w')
    ensures w'.n == w.n && w'.m == w.m && w'.agents == w.agents && w'.fruits == w.fruits
  {
    w.(grid := Occupancy(w.n, w.m, w.agents, w.fruits))
  }

  /** Every agent of a `ComplexEnvironment` is a `HelperAgent` (python/version2.py:176-181). */
  predicate AllHelpers(w: World)
  {
    forall j :: 0 <= j < |w.agents| ==> w.agents[j].role == Helper
  }

  /**
   * The state between two acts: a fitting scene whose grid `update` has
   * just rebuilt, with everything on distinct cells, sound helper links and
   * signals in [0, 1].
   */
  predicate Settled(sc: Scene)
  {
    SceneFits(sc) && Consistent(sc.world) && Separate(sc.world.agents, sc.world.fruits) &&
    Coupled(sc.world) && AllHelpers(sc.world) && InUnit(sc.signal)
  }

  /** `order` lists agent indices, and each act gets the draws it needs. */
  predicate Scheduled(w: World, order: seq<nat>, ds: seq<Draws>)
  {
    |ds| == |order| &&
    forall k :: 0 <= k < |order| ==> order[k] < |w.agents| && Enough(w, ds[k]) && |ds[k].shuffle| >= 8
  }

  /** `order` is a permutation of the agent indices: what `random.shuffle(env.agents)` produces. */
  predicate Permutation(order: seq<nat>, count: nat)
  {
    |order| == count && (forall k :: 0 <= k < |order| ==> order[k] < count) &&
    forall k, l :: 0 <= k < l < |order| ==> order[k] != order[l]
  }

  /** One act followed by `update`. */
  function ActAndUpdate(sc: Scene, i: nat, d: Draws): (sc': Scene)
    requires Settled(sc) && i < |sc.world.agents| && Enough(sc.world, d) && |d.shuffle| >= 8
    ensures Settled(sc') && |sc'.world.agents| == |sc.world.agents| && |sc'.world.fruits| == |sc.world.fruits|
  {
    StepSettles(sc, i, d);
    var s1 := HelperStep(sc, i, d);
    Scene(Rebuilt(s1.world), s1.signal)
  }

  lemma StepSettles(sc: Scene, i: nat, d: Draws)
    requires Settled(sc) && i < |sc.world.agents| && Enough(sc.world, d) && |d.shuffle| >= 8
    ensures Ready(sc, i, d)
    ensures var s1 := HelperStep(sc, i, d);
      Settled(Scene(Rebuilt(s1.world), s1.signal)) &&
      |s1.world.agents| == |sc.world.agents| && |s1.world.fruits| == |sc.world.fruits|
  {
    assert Ready(sc, i, d);
    var s1 := HelperStep(sc, i, d);
    HelperStepSeparate(sc, i, d);
    HelperStepSignal(sc, i, d);
    var w' := Rebuilt(s1.world);
    assert AllHelpers(w') by {
      forall j | 0 <= j < |w'.agents| ensures w'.agents[j].role == Helper {
        assert s1.world.agents[j].role == sc.world.agents[j].role;
      }
    }
    assert Coupled(w') by {
      forall t | 0 <= t < |w'.agents| ensures LinkSound(w', t) {
        assert LinkSound(s1.world, t);
      }
    }
  }

  /**
   * The acts of the agents listed in `order` from position `k` on, each
   * followed by `update`, none of which fails.
   */
  function Acts(sc: Scene, order: seq<nat>, ds: seq<Draws>, k: nat): (sc': Scene)
    requires Settled(sc) && Scheduled(sc.world, order, ds) && k <= |order|
    ensures Settled(sc') && |sc'.world.agents| == |sc.world.agents| && |sc'.world.fruits| == |sc.world.fruits|
    decreases |order| - k
  {
    if k == |order| then sc
    else
      var s1 := ActAndUpdate(sc, order[k], ds[k]);
      ScheduleKept(sc.world, s1.world, order, ds);
      Acts(s1, order, ds, k + 1)
  }

  /** A schedule fits every world with as many agents and fruits. */
  lemma ScheduleKept(w: World, w': World, order: seq<nat>, ds: seq<Draws>)
    requires Scheduled(w, order, ds)
    requires |w'.agents| == |w.agents| && |w'.fruits| == |w.fruits|
    ensures Scheduled(w', order, ds)
  {
  }

  /** The signal grid after the decay that opens a tick. */
  function DecayScene(sc: Scene): (sc': Scene)
    requires Settled(sc)
    ensures Settled(sc') && sc'.world == sc.world
    ensures forall y, x :: 0 <= y < sc.world.n && 0 <= x < sc.world.n ==>
      sc'.signal[y][x] == Fade(sc.signal[y][x])
  {
    DecayKeepsUnit(sc.signal);
    Scene(sc.world, Decayed(sc.signal))
  }

  /** A whole tick. */
  function Ticked(sc: Scene, order: seq<nat>, ds: seq<Draws>): (sc': Scene)
    requires Settled(sc) && Permutation(order, |sc.world.agents|) && Scheduled(sc.world, order, ds)
    ensures Settled(sc') && |sc'.world.agents| == |sc.world.agents| && |sc'.world.fruits| == |sc.world.fruits|
  {
    Acts(DecayScene(sc), order, ds, 0)
  }

  /**
   * The state the driver's set-up leaves (python/version2.py:210-213):
   * helpers that hold no fruit and have no partner, everything on distinct
   * cells, and a signal grid in [0, 1]. The `update` that ends the set-up
   * rebuilds the grid, and from then on the world is settled.
   */
  lemma SetUpSettles(w: World, s: Field)
    requires WellFormed(w) && Separate(w.agents, w.fruits) && Shaped(s, w.n, w.n) && InUnit(s)
    requires forall j :: 0 <= j < |w.agents| ==>
      w.agents[j].role == Helper && w.agents[j].fruit == None && w.agents[j].helper == None
    ensures Settled(Scene(Rebuilt(w), s))
  {
    var w' := Rebuilt(w);
    forall t | 0 <= t < |w'.agents| ensures LinkSound(w', t) {
      assert w'.agents[t] == w.agents[t];
    }
  }
}
