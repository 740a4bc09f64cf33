/**
 * The release colour of `HelperAgent.act` (python/version2.py:74, 79, 87).
 * The code reads `Agent.color`, an attribute the class `Agent` does not
 * define: `color` is only ever set on instances (python/agent.py:14), so
 * every release raises `AttributeError`. The rest of the model uses the
 * evidently intended colour, the one each agent starts with.
 */
module Findings {
  import opened Wrappers
  import opened Neighborhoods
  import opened Agents
  import opened Worlds
  import opened Foraging
  import opened Helping

  /** A value bound on a class object. */
  datatype ClassValue = Number(r: real) | Count(c: int) | Flag(b: bool)

  /**
   * The attributes bound on the class `Agent` itself once a helper exists:
   * those of its body (python/agent.py:4-6) and `is_helping`, which every
   * `HelperAgent.__init__` sets on the class (python/version2.py:23).
   */
  const AgentClass: map<string, ClassValue> :=
    map["k_plus" := Number(0.1), "k_minus" := Number(0.3), "memory_length" := Count(100), "error_rate" := Number(0.0),
        "is_helping" := Flag(false)]

  /** `Agent.<name>`: the class attribute, or `None` where Python raises `AttributeError`. */
  function ClassAttribute(name: string): (r: Option<ClassValue>)
    ensures r.Some? <==> name in AgentClass
    ensures r.Some? ==> r.value == AgentClass[name]
  {
    if name in AgentClass then Some(AgentClass[name]) else None
  }

  /** The colour a release assigns as written: `Agent.color`, when it is an integer; `None` for the exception. */
  function ReleaseColourAsWritten(): (r: Option<int>)
    ensures r.Some? ==> ClassAttribute("color") == Some(Count(r.value))
  {
    match ClassAttribute("color")
    case Some(Count(c)) => Some(c)
    case _ => None
  }

  /** As written, every release of a helper fails: `Agent` has no class attribute `color`. */
  lemma ReleaseAsWrittenRaises()
    ensures ClassAttribute("color") == None && ReleaseColourAsWritten() == None
  {
    assert "color" !in AgentClass.Keys by {
      assert AgentClass.Keys == {"k_plus", "k_minus", "memory_length", "error_rate", "is_helping"};
    }
  }

  /**
   * Whether helper `i`'s act takes a release branch: it is not helping, it
   * can step, it carries fruit, and `will_release` passes on its new memory
   * (python/version2.py:71-79 for heavy fruit, 85-89 for light fruit).
   */
  predicate StepReleases(sc: Scene, i: nat, d: Draws)
    requires Ready(sc, i, d)
  {
    var w, a := sc.world, sc.world.agents[i];
    !a.isHelping && EmptyAround(w, i) != [] && a.fruit.Some? && a.fruit.value < |w.fruits| &&
    WillRelease(ActMemory(w, i, d), w.fruits[a.fruit.value].key, d.release)
  }

  /**
   * `HelperAgent.act` as written: `None` where it raises `AttributeError`
   * at its first read of `Agent.color`, which is on every release branch;
   * every other act is the corrected one. The release branch reads the
   * colour through `ReleaseColourAsWritten`; its `Some` arm cannot be
   * reached, since `ReleaseAsWrittenRaises` shows the class binds no `color`.
   */
  function HelperStepAsWritten(sc: Scene, i: nat, d: Draws): (r: Option<Scene>)
    requires Ready(sc, i, d)
    ensures r.None? <==> StepReleases(sc, i, d)
    ensures r.Some? ==> r.value == HelperStep(sc, i, d)
  {
    var w, a := sc.world, sc.world.agents[i];
    if a.isHelping || EmptyAround(w, i) == [] || a.fruit.None? then Some(HelperStep(sc, i, d))
    else
      var b := Moved(w, i, d);
      assert AgentFits(a, w.n, |w.agents|, |w.fruits|);
      if WillRelease(b.memory, w.fruits[a.fruit.value].key, d.release) then
        ReleaseAsWrittenRaises();
        match ReleaseColourAsWritten()
        case Some(_) => assert false; None
        case None => None
      else Some(HelperStep(sc, i, d))
  }

  /** The intended release colour: the one every agent is created with (python/agent.py:14). */
  function ReleaseColour(): (c: int)
    ensures forall role, x, y :: NewAgent(role, x, y).color == c
  {
    FreeColour
  }

  /**
   * Corrected, the release of a heavy fruit (python/version2.py:70-79) gives
   * the carrier and its helper back the colour they were created with.
   */
  lemma HeavyReleaseRecolours(sc: Scene, i: nat, b: Agent, d: Draws)
    requires Ready(sc, i, d) && Successor(sc.world, i, b) && b.fruit.Some? && b.helper.Some?
    requires b.fruit.value < |sc.world.fruits| && b.helper.value < |sc.world.agents| && b.helper.value != i
    ensures var agents' := HeavyRelease(sc, i, b, d).world.agents;
      agents'[i].color == ReleaseColour() && agents'[b.helper.value].color == ReleaseColour() &&
      !agents'[b.helper.value].isHelping && agents'[i].fruit.None?
  {
    var agents' := HeavyRelease(sc, i, b, d).world.agents;
    assert agents'[i] == b.(color := FreeColour, fruit := None);
  }

  /**
   * Corrected, the release of a light fruit (python/version2.py:85-89) is
   * the base agent's release (python/agent.py:57-61), which restores the
   * creation colour.
   */
  lemma LightReleaseRecolours(w: World, i: nat, b: Agent, k: nat, p: Coord)
    requires WellFormed(w) && i < |w.agents| && Successor(w, i, b)
    requires k < |w.fruits| && OnGrid(p, w.n, w.n)
    ensures Release(w, i, b, k, p).agents[i].color == ReleaseColour()
    ensures Release(w, i, b, k, p).agents[i].fruit.None?
  {
  }
}
