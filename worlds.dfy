/**
 * The state shared by every agent of python/environment.py: the grid, the
 * agent list and the fruit list, with the occupancy grid that `update`
 * rebuilds (python/environment.py:46-60) and the two invariants that keep
 * `update`'s assertions true: no two things share a cell (`Separate`) and
 * the grid shows exactly where everything is (`Consistent`).
 */
module Worlds {
  import opened Wrappers
  import opened Fruits
  import opened Neighborhoods
  import opened Agents

  datatype World = World(n: nat, m: nat, grid: Grid, agents: seq<Agent>, fruits: seq<Fruit>)

  function AgentPos(a: Agent): Coord
  {
    (a.x, a.y)
  }

  function FruitPos(f: Fruit): Coord
  {
    (f.x, f.y)
  }

  /** An agent stands on the (square) grid and its references are in range. */
  predicate AgentFits(a: Agent, n: nat, agentCount: nat, fruitCount: nat)
  {
    OnGrid(AgentPos(a), n, n) && |a.memory| <= MemoryLength &&
    (a.fruit.Some? ==> a.fruit.value < fruitCount) &&
    (a.helper.Some? ==> a.helper.value < agentCount)
  }

  /** A fruit lies on the grid and has a non-empty (hence truthy) key. */
  predicate FruitFits(f: Fruit, n: nat)
  {
    OnGrid(FruitPos(f), n, n) && f.key != ""
  }

  /**
   * The environment is square (the neighbour test bounds x by n and y by m,
   * so only a square grid keeps `grid[y][x]` in range), the grid has its
   * shape and every agent and fruit fits.
   */
  predicate WellFormed(w: World)
  {
    w.n == w.m && Shaped(w.grid, w.n, w.m) &&
    (forall i :: 0 <= i < |w.agents| ==> AgentFits(w.agents[i], w.n, |w.agents|, |w.fruits|)) &&
    (forall j :: 0 <= j < |w.fruits| ==> FruitFits(w.fruits[j], w.n))
  }

  /** No agent other than number `except` stands on `p`. */
  predicate NoAgentAt(agents: seq<Agent>, p: Coord, except: int)
  {
    forall i :: 0 <= i < |agents| && i != except ==> AgentPos(agents[i]) != p
  }

  /** No uncarried fruit other than number `except` lies on `p`. */
  predicate NoFruitAt(fruits: seq<Fruit>, p: Coord, except: int)
  {
    forall j :: 0 <= j < |fruits| && j != except && !fruits[j].isCarried ==> FruitPos(fruits[j]) != p
  }

  /**
   * No two agents share a cell, no two uncarried fruits share a cell and no
   * agent stands on an uncarried fruit: exactly what the assertions of
   * `update_agent` and `update_fruit` demand.
   */
  predicate Separate(agents: seq<Agent>, fruits: seq<Fruit>)
  {
    (forall i :: 0 <= i < |agents| ==>
      NoAgentAt(agents, AgentPos(agents[i]), i) && NoFruitAt(fruits, AgentPos(agents[i]), -1)) &&
    (forall j :: 0 <= j < |fruits| && !fruits[j].isCarried ==> NoFruitAt(fruits, FruitPos(fruits[j]), j))
  }

  /** The first agent on `p`. */
  function FindAgent(agents: seq<Agent>, p: Coord): (r: Option<nat>)
    ensures r.Some? ==> r.value < |agents| && AgentPos(agents[r.value]) == p && NoAgentAt(agents[..r.value], p, -1)
    ensures r.None? <==> NoAgentAt(agents, p, -1)
  {
    if agents == [] then None
    else
      var last := |agents| - 1;
      var r := FindAgent(agents[..last], p);
      assert forall i :: 0 <= i < last ==> agents[..last][i] == agents[i];
      if r.Some? then
        assert agents[..last][..r.value] == agents[..r.value];
        r
      else if AgentPos(agents[last]) == p then Some(last)
      else None
  }

  /** The first uncarried fruit on `p`. */
  function FindFruit(fruits: seq<Fruit>, p: Coord): (r: Option<nat>)
    ensures r.Some? ==> r.value < |fruits| && !fruits[r.value].isCarried && FruitPos(fruits[r.value]) == p
    ensures r.None? <==> NoFruitAt(fruits, p, -1)
  {
    if fruits == [] then None
    else
      var last := |fruits| - 1;
      var r := FindFruit(fruits[..last], p);
      assert forall j :: 0 <= j < last ==> fruits[..last][j] == fruits[j];
      if r.Some? then r
      else if !fruits[last].isCarried && FruitPos(fruits[last]) == p then Some(last)
      else None
  }

  /**
   * What `update` writes into the cell `p`: the first agent standing there,
   * else the key of an uncarried fruit lying there, else `0`.
   */
  function CellFor(agents: seq<Agent>, fruits: seq<Fruit>, p: Coord): (c: Cell)
    ensures c.AgentCell? ==> c.index < |agents| && AgentPos(agents[c.index]) == p && NoAgentAt(agents[..c.index], p, -1)
    ensures c.FruitKey? ==>
      NoAgentAt(agents, p, -1) &&
      exists j :: 0 <= j < |fruits| && !fruits[j].isCarried && FruitPos(fruits[j]) == p && fruits[j].key == c.key
    ensures c == Empty <==> NoAgentAt(agents, p, -1) && NoFruitAt(fruits, p, -1)
  {
    match FindAgent(agents, p)
    case Some(i) => AgentCell(i)
    case None =>
      match FindFruit(fruits, p)
      case Some(j) => FruitKey(fruits[j].key)
      case None => Empty
  }

  /** The grid `update` builds: every agent, then every uncarried fruit, on a blank grid. */
  function Occupancy(n: nat, m: nat, agents: seq<Agent>, fruits: seq<Fruit>): (g: Grid)
    ensures Shaped(g, n, m)
  {
    seq(n, y => seq(m, x => CellFor(agents, fruits, (x, y))))
  }

  /** A fresh grid of zeros (python/environment.py:16, 47). */
  function Blank(n: nat, m: nat): (g: Grid)
    ensures Shaped(g, n, m)
    ensures forall y, x :: 0 <= y < n && 0 <= x < m ==> g[y][x] == Empty
  {
    seq(n, y => seq(m, x => Empty))
  }

  /** The grid shows what `update` would write. */
  predicate Consistent(w: World)
  {
    w.grid == Occupancy(w.n, w.m, w.agents, w.fruits)
  }

  /** On a consistent grid an empty cell is one that no agent and no uncarried fruit occupies. */
  lemma EmptyCell(w: World, p: Coord)
    requires Consistent(w) && OnGrid(p, w.n, w.m)
    ensures w.grid[p.1][p.0] == Empty <==> NoAgentAt(w.agents, p, -1) && NoFruitAt(w.fruits, p, -1)
  {
  }

  /** Every cell the grid shows as `0` is free of agents and of uncarried fruit. */
  predicate EmptyMeansFree(w: World)
  {
    forall y, x :: 0 <= y < |w.grid| && 0 <= x < |w.grid[y]| && w.grid[y][x] == Empty ==>
      NoAgentAt(w.agents, (x, y), -1) && NoFruitAt(w.fruits, (x, y), -1)
  }

  lemma ConsistentEmptyMeansFree(w: World)
    requires Consistent(w)
    ensures EmptyMeansFree(w)
  {
    forall y, x | 0 <= y < |w.grid| && 0 <= x < |w.grid[y]| && w.grid[y][x] == Empty
      ensures NoAgentAt(w.agents, (x, y), -1) && NoFruitAt(w.fruits, (x, y), -1)
    {
      EmptyCell(w, (x, y));
    }
  }

  /** On a consistent grid a cell naming agent `j` is where agent `j` stands. */
  lemma AgentCellNamesAgent(w: World, p: Coord, j: nat)
    requires Consistent(w) && OnGrid(p, w.n, w.m)
    requires w.grid[p.1][p.0] == AgentCell(j)
    ensures j < |w.agents| && AgentPos(w.agents[j]) == p
  {
  }

  /** With `Separate`, each agent's cell names that agent and each uncarried fruit's cell holds its key. */
  lemma CellsOfSeparate(w: World)
    requires WellFormed(w) && Consistent(w) && Separate(w.agents, w.fruits)
    ensures forall i :: 0 <= i < |w.agents| ==> w.grid[w.agents[i].y][w.agents[i].x] == AgentCell(i)
    ensures forall j :: 0 <= j < |w.fruits| && !w.fruits[j].isCarried ==>
      w.grid[w.fruits[j].y][w.fruits[j].x] == FruitKey(w.fruits[j].key)
  {
    forall i | 0 <= i < |w.agents|
      ensures w.grid[w.agents[i].y][w.agents[i].x] == AgentCell(i)
    {
      assert AgentFits(w.agents[i], w.n, |w.agents|, |w.fruits|);
      var r := FindAgent(w.agents, AgentPos(w.agents[i]));
      assert NoAgentAt(w.agents, AgentPos(w.agents[i]), i);
      assert r == Some(i);
    }
    forall j | 0 <= j < |w.fruits| && !w.fruits[j].isCarried
      ensures w.grid[w.fruits[j].y][w.fruits[j].x] == FruitKey(w.fruits[j].key)
    {
      assert FruitFits(w.fruits[j], w.n);
      var p := FruitPos(w.fruits[j]);
      assert NoAgentAt(w.agents, p, -1) by {
        forall i | 0 <= i < |w.agents| ensures AgentPos(w.agents[i]) != p {
          assert NoFruitAt(w.fruits, AgentPos(w.agents[i]), -1);
        }
      }
      var r := FindFruit(w.fruits, p);
      assert NoFruitAt(w.fruits, p, j);
      assert r == Some(j);
    }
  }

  /**
   * Putting agent `i` (with whatever new fields) on a cell that no other
   * agent and no uncarried fruit occupies keeps things separate.
   */
  lemma PlaceAgent(agents: seq<Agent>, fruits: seq<Fruit>, i: nat, b: Agent)
    requires Separate(agents, fruits) && i < |agents|
    requires NoAgentAt(agents, AgentPos(b), i) && NoFruitAt(fruits, AgentPos(b), -1)
    ensures Separate(agents[i := b], fruits)
  {
    var agents' := agents[i := b];
    forall k | 0 <= k < |agents'|
      ensures NoAgentAt(agents', AgentPos(agents'[k]), k) && NoFruitAt(fruits, AgentPos(agents'[k]), -1)
    {
      if k != i {
        assert NoAgentAt(agents, AgentPos(agents[k]), k);
        assert AgentPos(agents[k]) != AgentPos(b);
      }
    }
  }

  /**
   * Replacing fruit `k` keeps things separate when the new fruit is carried,
   * or lies on a cell free of agents and of other uncarried fruit.
   */
  lemma PlaceFruit(agents: seq<Agent>, fruits: seq<Fruit>, k: nat, g: Fruit)
    requires Separate(agents, fruits) && k < |fruits|
    requires !g.isCarried ==> NoAgentAt(agents, FruitPos(g), -1) && NoFruitAt(fruits, FruitPos(g), k)
    ensures Separate(agents, fruits[k := g])
  {
    var fruits' := fruits[k := g];
    forall i | 0 <= i < |agents|
      ensures NoFruitAt(fruits', AgentPos(agents[i]), -1)
    {
      assert NoFruitAt(fruits, AgentPos(agents[i]), -1);
    }
    forall j | 0 <= j < |fruits'| && !fruits'[j].isCarried
      ensures NoFruitAt(fruits', FruitPos(fruits'[j]), j)
    {
      if j != k {
        assert NoFruitAt(fruits, FruitPos(fruits[j]), j);
      }
    }
  }

  /** The cell `p` of a shaped grid, written as `grid[y][x] := c`. */
  function Put(grid: Grid, p: Coord, c: Cell): (g: Grid)
    requires 0 <= p.1 < |grid| && 0 <= p.0 < |grid[p.1]|
    ensures |g| == |grid| && forall y :: 0 <= y < |g| ==> |g[y]| == |grid[y]|
    ensures g[p.1][p.0] == c
    ensures forall y, x :: 0 <= y < |g| && 0 <= x < |g[y]| && (x, y) != p ==> g[y][x] == grid[y][x]
  {
    grid[p.1 := grid[p.1][p.0 := c]]
  }

  /** Two grids of one shape that agree cell by cell are equal. */
  lemma SameGrid(a: Grid, b: Grid, n: nat, m: nat)
    requires Shaped(a, n, m) && Shaped(b, n, m)
    requires forall y, x :: 0 <= y < n && 0 <= x < m ==> a[y][x] == b[y][x]
    ensures a == b
  {
    forall y | 0 <= y < n ensures a[y] == b[y] {
    }
  }
}
