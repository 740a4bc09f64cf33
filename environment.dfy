/**
 * The `Environment` class of python/environment.py: the grid, the agent
 * list and the fruit list as fields that its methods update in place.
 * Agents and fruits are values in those lists, named by their index; the
 * grid holds an agent's index where the source holds the agent object.
 */
module Environments {
  import opened Wrappers
  import opened Fruits
  import opened Neighborhoods
  import opened Agents
  import opened Worlds
  import opened Foraging

  /** A fresh grid, before anything is drawn on it, shows nothing. */
  lemma OccupancyOfNothing(n: nat, m: nat)
    ensures Occupancy(n, m, [], []) == Blank(n, m)
  {
    SameGrid(Occupancy(n, m, [], []), Blank(n, m), n, m);
  }

  lemma FindAgentExtended(agents: seq<Agent>, j: nat, p: Coord)
    requires j < |agents|
    ensures FindAgent(agents[..j + 1], p) ==
      if FindAgent(agents[..j], p).Some? then FindAgent(agents[..j], p)
      else if AgentPos(agents[j]) == p then Some(j) else None
  {
    assert agents[..j + 1][..j] == agents[..j];
  }

  lemma FindFruitExtended(fruits: seq<Fruit>, k: nat, p: Coord)
    requires k < |fruits|
    ensures FindFruit(fruits[..k + 1], p) ==
      if FindFruit(fruits[..k], p).Some? then FindFruit(fruits[..k], p)
      else if !fruits[k].isCarried && FruitPos(fruits[k]) == p then Some(k) else None
  {
    assert fruits[..k + 1][..k] == fruits[..k];
  }

  /** `update_agent` on a free cell: the grid now also shows agent `j`. */
  lemma ShowAgent(n: nat, m: nat, agents: seq<Agent>, j: nat)
    requires j < |agents| && 0 <= agents[j].y < n && 0 <= agents[j].x < m
    requires Separate(agents[..j], []) && NoAgentAt(agents[..j], AgentPos(agents[j]), -1)
    ensures Put(Occupancy(n, m, agents[..j], []), AgentPos(agents[j]), AgentCell(j)) == Occupancy(n, m, agents[..j + 1], [])
    ensures Separate(agents[..j + 1], [])
  {
    var p := AgentPos(agents[j]);
    var g := Put(Occupancy(n, m, agents[..j], []), p, AgentCell(j));
    forall y, x | 0 <= y < n && 0 <= x < m ensures g[y][x] == Occupancy(n, m, agents[..j + 1], [])[y][x] {
      FindAgentExtended(agents, j, (x, y));
    }
    SameGrid(g, Occupancy(n, m, agents[..j + 1], []), n, m);
    AgentsStaySeparate(agents, j);
  }

  lemma AgentsStaySeparate(agents: seq<Agent>, j: nat)
    requires j < |agents|
    requires Separate(agents[..j], []) && NoAgentAt(agents[..j], AgentPos(agents[j]), -1)
    ensures Separate(agents[..j + 1], [])
  {
    var s := agents[..j + 1];
    forall i | 0 <= i < |s| ensures NoAgentAt(s, AgentPos(s[i]), i) {
      if i < j {
        assert s[i] == agents[..j][i];
        assert NoAgentAt(agents[..j], AgentPos(s[i]), i);
      }
    }
  }

  /** On the grid of the first `j` agents, a cell is empty exactly when none of them stands on it. */
  lemma AgentCellEmpty(n: nat, m: nat, agents: seq<Agent>, j: nat, p: Coord)
    requires j <= |agents| && 0 <= p.1 < n && 0 <= p.0 < m
    ensures Occupancy(n, m, agents[..j], [])[p.1][p.0] == Empty <==> NoAgentAt(agents[..j], p, -1)
  {
  }

  /** `update_agent` on a taken cell: two agents share it. */
  lemma AgentClash(agents: seq<Agent>, fruits: seq<Fruit>, j: nat)
    requires j < |agents| && !NoAgentAt(agents[..j], AgentPos(agents[j]), -1)
    ensures !Separate(agents, fruits)
  {
    var i :| 0 <= i < j && AgentPos(agents[..j][i]) == AgentPos(agents[j]);
    assert !NoAgentAt(agents, AgentPos(agents[i]), i);
  }

  /** `update_fruit` on a carried fruit: it shows nowhere. */
  lemma HideCarriedFruit(n: nat, m: nat, agents: seq<Agent>, fruits: seq<Fruit>, k: nat)
    requires k < |fruits| && fruits[k].isCarried
    ensures Occupancy(n, m, agents, fruits[..k]) == Occupancy(n, m, agents, fruits[..k + 1])
  {
    var before, after := Occupancy(n, m, agents, fruits[..k]), Occupancy(n, m, agents, fruits[..k + 1]);
    forall y, x | 0 <= y < n && 0 <= x < m ensures before[y][x] == after[y][x] {
      FindFruitExtended(fruits, k, (x, y));
    }
    SameGrid(before, after, n, m);
  }

  /** `update_fruit` on an uncarried fruit on a free cell: the grid now also shows its key. */
  lemma ShowFruit(n: nat, m: nat, agents: seq<Agent>, fruits: seq<Fruit>, k: nat)
    requires k < |fruits| && 0 <= fruits[k].y < n && 0 <= fruits[k].x < m && !fruits[k].isCarried
    requires NoAgentAt(agents, FruitPos(fruits[k]), -1) && NoFruitAt(fruits[..k], FruitPos(fruits[k]), -1)
    ensures Put(Occupancy(n, m, agents, fruits[..k]), FruitPos(fruits[k]), FruitKey(fruits[k].key)) ==
      Occupancy(n, m, agents, fruits[..k + 1])
  {
    var p := FruitPos(fruits[k]);
    var g, after := Put(Occupancy(n, m, agents, fruits[..k]), p, FruitKey(fruits[k].key)), Occupancy(n, m, agents, fruits[..k + 1]);
    forall y, x | 0 <= y < n && 0 <= x < m ensures g[y][x] == after[y][x] {
      FruitCellExtended(agents, fruits, k, (x, y));
    }
    SameGrid(g, after, n, m);
  }

  lemma FruitCellExtended(agents: seq<Agent>, fruits: seq<Fruit>, k: nat, q: Coord)
    requires k < |fruits| && !fruits[k].isCarried
    requires NoAgentAt(agents, FruitPos(fruits[k]), -1) && NoFruitAt(fruits[..k], FruitPos(fruits[k]), -1)
    ensures CellFor(agents, fruits[..k + 1], q) ==
      if q == FruitPos(fruits[k]) then FruitKey(fruits[k].key) else CellFor(agents, fruits[..k], q)
  {
    FindFruitExtended(fruits, k, q);
    assert fruits[..k + 1][k] == fruits[k];
  }

  lemma FruitsStaySeparate(agents: seq<Agent>, fruits: seq<Fruit>, k: nat)
    requires k < |fruits| && Separate(agents, fruits[..k])
    requires !fruits[k].isCarried ==>
      NoAgentAt(agents, FruitPos(fruits[k]), -1) && NoFruitAt(fruits[..k], FruitPos(fruits[k]), -1)
    ensures Separate(agents, fruits[..k + 1])
  {
    var s := fruits[..k + 1];
    forall i | 0 <= i < |agents| ensures NoFruitAt(s, AgentPos(agents[i]), -1) {
      assert NoFruitAt(fruits[..k], AgentPos(agents[i]), -1);
    }
    forall j, l | 0 <= j < |s| && 0 <= l < |s| && l != j && !s[j].isCarried && !s[l].isCarried
      ensures FruitPos(s[l]) != FruitPos(s[j])
    {
      if j < k && l < k {
        assert s[j] == fruits[..k][j] && s[l] == fruits[..k][l];
        assert NoFruitAt(fruits[..k], FruitPos(fruits[..k][j]), j);
      } else if j == k {
        assert s[l] == fruits[..k][l];
      } else {
        assert s[j] == fruits[..k][j];
      }
    }
  }

  /** `update_fruit` on a taken cell: the fruit shares it with an agent or with another fruit. */
  lemma FruitClash(agents: seq<Agent>, fruits: seq<Fruit>, k: nat)
    requires k < |fruits| && !fruits[k].isCarried
    requires !NoAgentAt(agents, FruitPos(fruits[k]), -1) || !NoFruitAt(fruits[..k], FruitPos(fruits[k]), -1)
    ensures !Separate(agents, fruits)
  {
    var p := FruitPos(fruits[k]);
    if !NoAgentAt(agents, p, -1) {
      var i :| 0 <= i < |agents| && AgentPos(agents[i]) == p;
      assert !NoFruitAt(fruits, AgentPos(agents[i]), -1);
    } else {
      var j :| 0 <= j < k && !fruits[..k][j].isCarried && FruitPos(fruits[..k][j]) == p;
      assert !NoFruitAt(fruits, FruitPos(fruits[k]), k);
    }
  }

  /** `placed` lists distinct cells of the n-by-m grid `g`, each of them empty on `g`. */
  predicate FreshCells(g: Grid, n: nat, m: nat, placed: seq<Coord>)
  {
    Shaped(g, n, m) &&
    (forall t :: 0 <= t < |placed| ==> OnGrid(placed[t], n, m) && g[placed[t].1][placed[t].0] == Empty) &&
    forall s, t :: 0 <= s < t < |placed| ==> placed[s] != placed[t]
  }

  /**
   * `g` is `g0` with the t-th cell of `placed` marked `marks[t]` (never `0`),
   * where every placed cell was a fresh, empty cell of `g0`.
   */
  predicate Scattered(g0: Grid, g: Grid, n: nat, m: nat, placed: seq<Coord>, marks: seq<Cell>)
  {
    FreshCells(g0, n, m, placed) && Shaped(g, n, m) && |marks| >= |placed| &&
    (forall t :: 0 <= t < |placed| ==> marks[t] != Empty && g[placed[t].1][placed[t].0] == marks[t]) &&
    forall y, x :: 0 <= y < n && 0 <= x < m && (x, y) !in placed ==> g[y][x] == g0[y][x]
  }

  /** Nothing is placed on a grid left as it was. */
  lemma ScatteredNothing(g: Grid, n: nat, m: nat, marks: seq<Cell>)
    requires Shaped(g, n, m)
    ensures Scattered(g, g, n, m, [], marks)
  {
  }

  /** One more item on a cell that is still empty. */
  lemma ScatterOne(g0: Grid, g: Grid, n: nat, m: nat, placed: seq<Coord>, marks: seq<Cell>, p: Coord)
    requires Scattered(g0, g, n, m, placed, marks) && |marks| > |placed| && marks[|placed|] != Empty
    requires OnGrid(p, n, m) && g[p.1][p.0] == Empty
    ensures Scattered(g0, Put(g, p, marks[|placed|]), n, m, placed + [p], marks)
  {
    var g', placed' := Put(g, p, marks[|placed|]), placed + [p];
    assert p !in placed by {
      forall t | 0 <= t < |placed| ensures placed[t] != p {
        assert g[placed[t].1][placed[t].0] == marks[t];
      }
    }
    assert g0[p.1][p.0] == Empty;
    forall t | 0 <= t < |placed'|
      ensures marks[t] != Empty && g'[placed'[t].1][placed'[t].0] == marks[t]
    {
      if t < |placed| {
        assert placed'[t] == placed[t] && placed[t] != p;
      }
    }
    forall y, x | 0 <= y < n && 0 <= x < m && (x, y) !in placed'
      ensures g'[y][x] == g0[y][x]
    {
      assert (x, y) !in placed;
    }
  }

  /** The agents `initialise_agents` appends, one per placed cell, in placement order. */
  function Spawned(role: Role, placed: seq<Coord>): (s: seq<Agent>)
    ensures |s| == |placed|
    ensures forall t :: 0 <= t < |placed| ==> s[t] == NewAgent(role, placed[t].0, placed[t].1)
  {
    seq(|placed|, t requires 0 <= t < |placed| => NewAgent(role, placed[t].0, placed[t].1))
  }

  /** The fruits `initialise_fruits` appends: the t-th placed cell gets the t-th key. */
  function Sown(placed: seq<Coord>, keys: seq<string>): (s: seq<Fruit>)
    requires |keys| >= |placed|
    ensures |s| == |placed|
    ensures forall t :: 0 <= t < |placed| ==> s[t] == NewFruit(placed[t].0, placed[t].1, keys[t])
  {
    seq(|placed|, t requires 0 <= t < |placed| => NewFruit(placed[t].0, placed[t].1, keys[t]))
  }

  /** The key python/environment.py:40 draws: `'A'` exactly when the draw is below `pA`. */
  function BaseKey(draw: real, pA: real): (key: string)
    ensures key == "A" <==> draw < pA
    ensures key == "B" <==> !(draw < pA)
  {
    if draw < pA then "A" else "B"
  }

  /** The first `number` keys drawn by python/environment.py:40, one per draw. */
  function BaseKeys(number: nat, draws: seq<real>, pA: real): (keys: seq<string>)
    requires |draws| >= number
    ensures |keys| == number && forall t :: 0 <= t < number ==> keys[t] == BaseKey(draws[t], pA)
  {
    seq(number, t requires 0 <= t < number => BaseKey(draws[t], pA))
  }

  /** The cells the first `number` fruits mark: each with its own key. */
  function KeyMarks(number: nat, keys: seq<string>): (c: seq<Cell>)
    requires |keys| >= number
    ensures |c| == number && forall t :: 0 <= t < number ==> c[t] == FruitKey(keys[t])
  {
    seq(number, t requires 0 <= t < number => FruitKey(keys[t]))
  }

  /** A placed cell was empty, so on a grid where empty means free no agent or fruit stood there. */
  lemma PlacedWasFree(w: World, g: Grid, placed: seq<Coord>, marks: seq<Cell>, t: nat)
    requires Scattered(w.grid, g, w.n, w.m, placed, marks) && EmptyMeansFree(w) && t < |placed|
    ensures NoAgentAt(w.agents, placed[t], -1) && NoFruitAt(w.fruits, placed[t], -1)
  {
    assert w.grid[placed[t].1][placed[t].0] == Empty;
  }

  /** A cell still empty after scattering is no placed cell, and was empty before. */
  lemma StillEmpty(g0: Grid, g: Grid, n: nat, m: nat, placed: seq<Coord>, marks: seq<Cell>, p: Coord)
    requires Scattered(g0, g, n, m, placed, marks) && OnGrid(p, n, m) && g[p.1][p.0] == Empty
    ensures p !in placed && g0[p.1][p.0] == Empty
  {
  }

  /**
   * Agents scattered onto empty cells of a grid on which empty means free
   * stand apart from each other and from everything already there, and the
   * marked grid still shows every occupied cell as taken.
   */
  lemma ScatteredAgentsSeparate(w: World, g: Grid, placed: seq<Coord>, marks: seq<Cell>, role: Role)
    requires Scattered(w.grid, g, w.n, w.m, placed, marks)
    requires EmptyMeansFree(w) && Separate(w.agents, w.fruits)
    ensures var w' := w.(grid := g, agents := w.agents + Spawned(role, placed));
      Separate(w'.agents, w'.fruits) && EmptyMeansFree(w')
  {
    var agents' := w.agents + Spawned(role, placed);
    var base := |w.agents|;
    forall i | 0 <= i < |agents'|
      ensures NoAgentAt(agents', AgentPos(agents'[i]), i) && NoFruitAt(w.fruits, AgentPos(agents'[i]), -1)
    {
      forall j | 0 <= j < |agents'| && j != i ensures AgentPos(agents'[j]) != AgentPos(agents'[i]) {
        if i < base && j < base {
          assert NoAgentAt(w.agents, AgentPos(w.agents[i]), i);
        } else if i < base {
          PlacedWasFree(w, g, placed, marks, j - base);
        } else if j < base {
          PlacedWasFree(w, g, placed, marks, i - base);
        }
      }
      if i >= base {
        PlacedWasFree(w, g, placed, marks, i - base);
      }
    }
    var w' := w.(grid := g, agents := agents');
    forall y, x | 0 <= y < |g| && 0 <= x < |g[y]| && g[y][x] == Empty
      ensures NoAgentAt(agents', (x, y), -1) && NoFruitAt(w.fruits, (x, y), -1)
    {
      StillEmpty(w.grid, g, w.n, w.m, placed, marks, (x, y));
      forall j | 0 <= j < |agents'| ensures AgentPos(agents'[j]) != (x, y) {
        if j >= base {
          assert AgentPos(agents'[j]) == placed[j - base];
        }
      }
    }
  }

  /** The same for uncarried fruits scattered onto empty cells. */
  lemma ScatteredFruitsSeparate(w: World, g: Grid, placed: seq<Coord>, marks: seq<Cell>, keys: seq<string>)
    requires Scattered(w.grid, g, w.n, w.m, placed, marks) && |keys| >= |placed|
    requires EmptyMeansFree(w) && Separate(w.agents, w.fruits)
    ensures var w' := w.(grid := g, fruits := w.fruits + Sown(placed, keys));
      Separate(w'.agents, w'.fruits) && EmptyMeansFree(w')
  {
    var fruits' := w.fruits + Sown(placed, keys);
    var base := |w.fruits|;
    forall i | 0 <= i < |w.agents|
      ensures NoAgentAt(w.agents, AgentPos(w.agents[i]), i) && NoFruitAt(fruits', AgentPos(w.agents[i]), -1)
    {
      forall k | 0 <= k < |fruits'| && !fruits'[k].isCarried ensures FruitPos(fruits'[k]) != AgentPos(w.agents[i]) {
        if k < base {
          assert NoFruitAt(w.fruits, AgentPos(w.agents[i]), -1);
        } else {
          PlacedWasFree(w, g, placed, marks, k - base);
        }
      }
    }
    forall k | 0 <= k < |fruits'| && !fruits'[k].isCarried
      ensures NoFruitAt(fruits', FruitPos(fruits'[k]), k)
    {
      forall l | 0 <= l < |fruits'| && l != k && !fruits'[l].isCarried ensures FruitPos(fruits'[l]) != FruitPos(fruits'[k]) {
        if k < base && l < base {
          assert NoFruitAt(w.fruits, FruitPos(w.fruits[k]), k);
        } else if k < base {
          PlacedWasFree(w, g, placed, marks, l - base);
        } else if l < base {
          PlacedWasFree(w, g, placed, marks, k - base);
        }
      }
    }
    var w' := w.(grid := g, fruits := fruits');
    forall y, x | 0 <= y < |g| && 0 <= x < |g[y]| && g[y][x] == Empty
      ensures NoAgentAt(w.agents, (x, y), -1) && NoFruitAt(fruits', (x, y), -1)
    {
      StillEmpty(w.grid, g, w.n, w.m, placed, marks, (x, y));
      forall k | 0 <= k < |fruits'| && !fruits'[k].isCarried ensures FruitPos(fruits'[k]) != (x, y) {
        if k >= base {
          assert FruitPos(fruits'[k]) == placed[k - base];
        }
      }
    }
  }

  /** What rounds of `generate_item` leave: the grid, the cells placed so far in order, and the picks consumed. */
  datatype Outcome = Outcome(grid: Grid, placed: seq<Coord>, used: nat)

  /**
   * One round's draws (python/environment.py:22-27) on grid `g`: the cell
   * drawn from `picks[start]` on, drawn again while it is taken at most `r`
   * more times, with the number of picks consumed up to and including it.
   * A round stops early only on an empty cell.
   */
  function Draw(g: Grid, n: nat, m: nat, start: nat, r: nat, picks: seq<Coord>): (d: (Coord, nat))
    requires Shaped(g, n, m) && start + r < |picks| && forall t :: 0 <= t < |picks| ==> OnGrid(picks[t], n, m)
    ensures start < d.1 <= start + r + 1 && d.0 == picks[d.1 - 1] && OnGrid(d.0, n, m)
    ensures forall t :: start <= t < d.1 - 1 ==> OnGrid(picks[t], n, m) && g[picks[t].1][picks[t].0] != Empty
    ensures d.1 < start + r + 1 ==> g[d.0.1][d.0.0] == Empty
    decreases r
  {
    var p := picks[start];
    assert OnGrid(p, n, m);
    if r == 0 || g[p.1][p.0] == Empty then (p, start + 1)
    else Draw(g, n, m, start + 1, r - 1, picks)
  }

  /**
   * One round of `generate_item` (python/environment.py:22-29) after outcome
   * `o`: draw a cell as `Draw` says and, when it is empty, place the next
   * item there, marked with the next of `marks`; a round whose last draw is
   * taken places nothing.
   */
  function Round(o: Outcome, n: nat, m: nat, r: nat, picks: seq<Coord>, marks: seq<Cell>): (res: Outcome)
    requires Shaped(o.grid, n, m) && o.used + r < |picks| && |o.placed| < |marks|
    requires forall t :: 0 <= t < |picks| ==> OnGrid(picks[t], n, m)
    ensures Shaped(res.grid, n, m) && o.used < res.used <= o.used + r + 1
    ensures var p := picks[res.used - 1];
      OnGrid(p, n, m) &&
      if o.grid[p.1][p.0] == Empty
      then res.placed == o.placed + [p] && res.grid == Put(o.grid, p, marks[|o.placed|])
      else res.placed == o.placed && res.grid == o.grid
  {
    var d := Draw(o.grid, n, m, o.used, r, picks);
    var p := d.0;
    if o.grid[p.1][p.0] == Empty
    then Outcome(Put(o.grid, p, marks[|o.placed|]), o.placed + [p], d.1)
    else Outcome(o.grid, o.placed, d.1)
  }

  /**
   * The first `rounds` rounds of `generate_item` on grid `g`, from the first
   * pick and with nothing placed: the outcome of each round is `Round` of
   * the outcome of the rounds before it.
   */
  function Generated(g: Grid, n: nat, m: nat, rounds: nat, r: nat, picks: seq<Coord>, marks: seq<Cell>): (res: Outcome)
    requires Shaped(g, n, m) && Times(rounds, r + 1) <= |picks| && rounds <= |marks|
    requires forall t :: 0 <= t < |picks| ==> OnGrid(picks[t], n, m)
    ensures Shaped(res.grid, n, m) && |res.placed| <= rounds && rounds <= res.used <= Times(rounds, r + 1)
    decreases rounds
  {
    if rounds == 0 then Outcome(g, [], 0)
    else Round(Generated(g, n, m, rounds - 1, r, picks, marks), n, m, r, picks, marks)
  }

  /** One round keeps what `GeneratedScatters` promises. */
  lemma RoundScatter(g0: Grid, o: Outcome, n: nat, m: nat, r: nat, picks: seq<Coord>, marks: seq<Cell>)
    requires Shaped(o.grid, n, m) && o.used + r < |picks| && |o.placed| < |marks|
    requires forall t :: 0 <= t < |picks| ==> OnGrid(picks[t], n, m)
    requires forall t :: 0 <= t < |marks| ==> marks[t] != Empty
    requires Scattered(g0, o.grid, n, m, o.placed, marks)
    ensures var res := Round(o, n, m, r, picks, marks); Scattered(g0, res.grid, n, m, res.placed, marks)
  {
    var res := Round(o, n, m, r, picks, marks);
    var p := picks[res.used - 1];
    if o.grid[p.1][p.0] == Empty {
      ScatterOne(g0, o.grid, n, m, o.placed, marks, p);
    }
  }

  /** Every placed cell is one of the first `used` picks. */
  predicate FromPicks(placed: seq<Coord>, picks: seq<Coord>, used: nat)
    requires used <= |picks|
  {
    forall t :: 0 <= t < |placed| ==> placed[t] in picks[..used]
  }

  /** One round keeps every placed cell among the picks consumed. */
  lemma RoundFromPicks(o: Outcome, n: nat, m: nat, r: nat, picks: seq<Coord>, marks: seq<Cell>)
    requires Shaped(o.grid, n, m) && o.used + r < |picks| && |o.placed| < |marks|
    requires forall t :: 0 <= t < |picks| ==> OnGrid(picks[t], n, m)
    requires FromPicks(o.placed, picks, o.used)
    ensures var res := Round(o, n, m, r, picks, marks); FromPicks(res.placed, picks, res.used)
  {
    var res := Round(o, n, m, r, picks, marks);
    forall t | 0 <= t < |res.placed| ensures res.placed[t] in picks[..res.used] {
      if t < |o.placed| {
        assert o.placed[t] in picks[..o.used];
        var j :| 0 <= j < o.used && picks[..o.used][j] == o.placed[t];
        assert picks[..res.used][j] == picks[j];
      } else {
        assert picks[..res.used][res.used - 1] == picks[res.used - 1];
      }
    }
  }

  /** One more round extends the rounds played so far, and the picks and marks it needs are there. */
  lemma GeneratedStep(g: Grid, n: nat, m: nat, rounds: nat, desired: nat, r: nat, picks: seq<Coord>, marks: seq<Cell>)
    requires Shaped(g, n, m) && rounds < desired && Times(desired, r + 1) <= |picks| && desired <= |marks|
    requires forall t :: 0 <= t < |picks| ==> OnGrid(picks[t], n, m)
    ensures Times(rounds + 1, r + 1) <= |picks|
    ensures var o := Generated(g, n, m, rounds, r, picks, marks);
      o.used + r < |picks| && |o.placed| < |marks| &&
      Generated(g, n, m, rounds + 1, r, picks, marks) == Round(o, n, m, r, picks, marks)
  {
    TimesGrows(rounds + 1, desired, r + 1);
    assert Times(rounds + 1, r + 1) == Times(rounds, r + 1) + r + 1;
  }

  /**
   * `generate_item` places items only on distinct cells that were empty,
   * each marked with its mark, each one of the picks it consumed, and leaves
   * every other cell as it was.
   */
  lemma {:induction false} GeneratedScatters(g: Grid, n: nat, m: nat, rounds: nat, r: nat, picks: seq<Coord>, marks: seq<Cell>)
    requires Shaped(g, n, m) && Times(rounds, r + 1) <= |picks| && rounds <= |marks|
    requires forall t :: 0 <= t < |picks| ==> OnGrid(picks[t], n, m)
    requires forall t :: 0 <= t < |marks| ==> marks[t] != Empty
    ensures var o := Generated(g, n, m, rounds, r, picks, marks); Scattered(g, o.grid, n, m, o.placed, marks)
    decreases rounds
  {
    if rounds == 0 {
      ScatteredNothing(g, n, m, marks);
    } else {
      var before := Generated(g, n, m, rounds - 1, r, picks, marks);
      assert before.used + r < |picks| by {
        assert Times(rounds, r + 1) == Times(rounds - 1, r + 1) + r + 1;
      }
      GeneratedScatters(g, n, m, rounds - 1, r, picks, marks);
      RoundScatter(g, before, n, m, r, picks, marks);
    }
  }

  /** The rounds take every cell they place from the picks they consumed. */
  lemma {:induction false} GeneratedFromPicks(g: Grid, n: nat, m: nat, rounds: nat, r: nat, picks: seq<Coord>, marks: seq<Cell>)
    requires Shaped(g, n, m) && Times(rounds, r + 1) <= |picks| && rounds <= |marks|
    requires forall t :: 0 <= t < |picks| ==> OnGrid(picks[t], n, m)
    ensures var o := Generated(g, n, m, rounds, r, picks, marks); o.used <= |picks| && FromPicks(o.placed, picks, o.used)
    decreases rounds
  {
    if rounds > 0 {
      var before := Generated(g, n, m, rounds - 1, r, picks, marks);
      assert before.used + r < |picks| by {
        assert Times(rounds, r + 1) == Times(rounds - 1, r + 1) + r + 1;
      }
      GeneratedFromPicks(g, n, m, rounds - 1, r, picks, marks);
      RoundFromPicks(before, n, m, r, picks, marks);
    }
  }

  /**
   * The `for f in fruit_neighbors: if will_carry(f.key): break` loop of
   * python/agent.py:62-67: the position in `near` of the first fruit that
   * passes `will_carry`, if any.
   */
  method FirstCarried(memory: seq<Obs>, fruits: seq<Fruit>, near: seq<nat>, carry: seq<real>) returns (r: Option<nat>)
    requires |memory| <= MemoryLength && IndicesBelow(near, |fruits|) && |carry| >= |fruits|
    ensures r == FirstTrue(CarryVotes(memory, fruits, near, carry))
  {
    ghost var v := CarryVotes(memory, fruits, near, carry);
    var t := 0;
    while t < |near|
      invariant 0 <= t <= |near|
      invariant forall u :: 0 <= u < t ==> !v[u]
    {
      var b := DecideCarry(memory, fruits[near[t]].key, carry[near[t]]);
      if b {
        FirstTrueIsFirstAccepted(v, t);
        return Some(t);
      }
      t := t + 1;
    }
    return None;
  }

  class Environment {
    var n: nat
    var m: nat
    var grid: Grid
    var agents: seq<Agent>
    var fruits: seq<Fruit>

    /** The environment as a value. */
    function State(): World
      reads this
    {
      World(n, m, grid, agents, fruits)
    }

    /** A new environment of `n` rows and `m` columns, empty (python/environment.py:11-18). */
    constructor(n: nat, m: nat)
      ensures State() == World(n, m, Blank(n, m), [], [])
    {
      this.n := n;
      this.m := m;
      grid := Blank(n, m);
      agents := [];
      fruits := [];
    }

    /**
     * `generate_item` (python/environment.py:20-29): `desired` rounds, each
     * drawing a cell and redrawing up to `r` times while it is taken; a round
     * whose last cell is empty places the next item there, marking the cell
     * with the next of `marks`. `picks` are the drawn `(x, y)` pairs in
     * order, and `used` says how many the rounds consumed.
     */
    method GenerateItem(desired: nat, r: nat, picks: seq<Coord>, marks: seq<Cell>) returns (placed: seq<Coord>, used: nat)
      requires Shaped(grid, n, m)
      requires |picks| >= Times(desired, r + 1) && forall t :: 0 <= t < |picks| ==> OnGrid(picks[t], n, m)
      requires |marks| >= desired && forall t :: 0 <= t < |marks| ==> marks[t] != Empty
      modifies this
      ensures n == old(n) && m == old(m) && agents == old(agents) && fruits == old(fruits)
      ensures |placed| <= desired && desired <= used <= Times(desired, r + 1)
      ensures forall t :: 0 <= t < |placed| ==> placed[t] in picks[..used]
      ensures Scattered(old(grid), grid, n, m, placed, marks)
      ensures Outcome(grid, placed, used) == Generated(old(grid), n, m, desired, r, picks, marks)
    {
      placed, used := PlayRounds(desired, r, picks, marks);
      GeneratedScatters(old(grid), n, m, desired, r, picks, marks);
      GeneratedFromPicks(old(grid), n, m, desired, r, picks, marks);
    }

    /** The loop of `generate_item` (python/environment.py:21-29): `desired` rounds, one after the other. */
    method PlayRounds(desired: nat, r: nat, picks: seq<Coord>, marks: seq<Cell>) returns (placed: seq<Coord>, used: nat)
      requires Shaped(grid, n, m)
      requires |picks| >= Times(desired, r + 1) && forall t :: 0 <= t < |picks| ==> OnGrid(picks[t], n, m)
      requires |marks| >= desired
      modifies this
      ensures n == old(n) && m == old(m) && agents == old(agents) && fruits == old(fruits)
      ensures Outcome(grid, placed, used) == Generated(old(grid), n, m, desired, r, picks, marks)
    {
      placed, used := [], 0;
      ghost var g0, rows, cols := grid, n, m;
      var round := 0;
      while round < desired
        invariant 0 <= round <= desired && Times(round, r + 1) <= |picks|
        invariant n == rows && m == cols && agents == old(agents) && fruits == old(fruits)
        invariant Outcome(grid, placed, used) == Generated(g0, rows, cols, round, r, picks, marks)
      {
        GeneratedStep(g0, rows, cols, round, desired, r, picks, marks);
        placed, used := PlayRound(r, picks, marks, placed, used);
        round := round + 1;
      }
    }

    /**
     * One round of `generate_item` (python/environment.py:22-29) after
     * `placed` items and `used` picks: the round `Round` describes, on the
     * grid in place.
     */
    method PlayRound(r: nat, picks: seq<Coord>, marks: seq<Cell>, placed: seq<Coord>, used: nat) returns (placed': seq<Coord>, used': nat)
      requires Shaped(grid, n, m) && used + r < |picks| && |placed| < |marks|
      requires forall t :: 0 <= t < |picks| ==> OnGrid(picks[t], n, m)
      modifies this
      ensures n == old(n) && m == old(m) && agents == old(agents) && fruits == old(fruits)
      ensures Outcome(grid, placed', used') == Round(Outcome(old(grid), placed, used), n, m, r, picks, marks)
    {
      var p;
      p, used' := DrawCell(used, r, picks);
      placed' := placed;
      if grid[p.1][p.0] == Empty {
        grid := Put(grid, p, marks[|placed|]);
        placed' := placed + [p];
      }
    }

    /**
     * One round of `generate_item` (python/environment.py:22-27): draw a cell
     * from `picks[start]` on, and draw again while it is taken, at most `r`
     * more times. `used` counts the picks consumed.
     */
    method DrawCell(start: nat, r: nat, picks: seq<Coord>) returns (p: Coord, used: nat)
      requires Shaped(grid, n, m) && start + r < |picks| && forall t :: 0 <= t < |picks| ==> OnGrid(picks[t], n, m)
      ensures (p, used) == Draw(grid, n, m, start, r, picks)
    {
      p := picks[start];
      used := start + 1;
      var tries := 0;
      while tries < r && grid[p.1][p.0] != Empty
        invariant 0 <= tries <= r && used == start + 1 + tries
        invariant p == picks[used - 1]
        invariant Draw(grid, n, m, used - 1, r - tries, picks) == Draw(grid, n, m, start, r, picks)
      {
        p := picks[used];
        used := used + 1;
        tries := tries + 1;
      }
    }

    /**
     * `initialise_agents` (python/environment.py:31-36): scatter up to
     * `number` new agents of the given role over empty cells, marking each
     * cell `'X'`. Scattered onto a grid on which every empty cell is free,
     * the agents stand apart from each other and from what was there.
     */
    method InitialiseAgents(role: Role, number: nat, r: nat, picks: seq<Coord>) returns (placed: seq<Coord>)
      requires Shaped(grid, n, m)
      requires |picks| >= Times(number, r + 1) && forall t :: 0 <= t < |picks| ==> OnGrid(picks[t], n, m)
      modifies this
      ensures n == old(n) && m == old(m) && fruits == old(fruits)
      ensures |placed| <= number && forall t :: 0 <= t < |placed| ==> placed[t] in picks
      ensures agents == old(agents) + Spawned(role, placed)
      ensures Scattered(old(grid), grid, n, m, placed, seq(number, t => Marker))
      ensures var o := Generated(old(grid), n, m, number, r, picks, seq(number, t => Marker));
        grid == o.grid && placed == o.placed
      ensures EmptyMeansFree(old(State())) && Separate(old(agents), old(fruits)) ==>
        EmptyMeansFree(State()) && Separate(agents, fruits)
    {
      var used;
      ghost var w := State();
      placed, used := GenerateItem(number, r, picks, seq(number, t => Marker));
      agents := agents + Spawned(role, placed);
      if EmptyMeansFree(w) && Separate(w.agents, w.fruits) {
        ScatteredAgentsSeparate(w, grid, placed, seq(number, t => Marker), role);
      }
    }

    /**
     * `initialise_fruits` (python/environment.py:38-44): scatter up to
     * `number` fruits; the t-th fruit placed is an `'A'` when the t-th key
     * draw is below `pA` and a `'B'` otherwise.
     */
    method InitialiseFruits(number: nat, pA: real, keyDraws: seq<real>, r: nat, picks: seq<Coord>) returns (placed: seq<Coord>)
      requires Shaped(grid, n, m) && |keyDraws| >= number
      requires |picks| >= Times(number, r + 1) && forall t :: 0 <= t < |picks| ==> OnGrid(picks[t], n, m)
      modifies this
      ensures n == old(n) && m == old(m) && agents == old(agents)
      ensures |placed| <= number && forall t :: 0 <= t < |placed| ==> placed[t] in picks
      ensures |fruits| == |old(fruits)| + |placed| && fruits[..|old(fruits)|] == old(fruits)
      ensures fruits == old(fruits) + Sown(placed, BaseKeys(number, keyDraws, pA))
      ensures forall t :: 0 <= t < |placed| ==>
        fruits[|old(fruits)| + t] == NewFruit(placed[t].0, placed[t].1, BaseKey(keyDraws[t], pA))
      ensures Scattered(old(grid), grid, n, m, placed, KeyMarks(number, BaseKeys(number, keyDraws, pA)))
      ensures var o := Generated(old(grid), n, m, number, r, picks, KeyMarks(number, BaseKeys(number, keyDraws, pA)));
        grid == o.grid && placed == o.placed
      ensures EmptyMeansFree(old(State())) && Separate(old(agents), old(fruits)) ==>
        EmptyMeansFree(State()) && Separate(agents, fruits)
    {
      placed := ScatterFruits(number, BaseKeys(number, keyDraws, pA), r, picks);
    }

    /**
     * The body shared by both `initialise_fruits` (python/environment.py:38-44,
     * python/version2.py:183-189): scatter up to `number` fruits over empty
     * cells; the t-th fruit placed gets the key `keys[t]` and marks its cell
     * with it.
     */
    method ScatterFruits(number: nat, keys: seq<string>, r: nat, picks: seq<Coord>) returns (placed: seq<Coord>)
      requires Shaped(grid, n, m) && |keys| >= number && forall t :: 0 <= t < |keys| ==> keys[t] != ""
      requires |picks| >= Times(number, r + 1) && forall t :: 0 <= t < |picks| ==> OnGrid(picks[t], n, m)
      modifies this
      ensures n == old(n) && m == old(m) && agents == old(agents)
      ensures |placed| <= number && forall t :: 0 <= t < |placed| ==> placed[t] in picks
      ensures fruits == old(fruits) + Sown(placed, keys)
      ensures Scattered(old(grid), grid, n, m, placed, KeyMarks(number, keys))
      ensures var o := Generated(old(grid), n, m, number, r, picks, KeyMarks(number, keys));
        grid == o.grid && placed == o.placed
      ensures EmptyMeansFree(old(State())) && Separate(old(agents), old(fruits)) ==>
        EmptyMeansFree(State()) && Separate(agents, fruits)
    {
      var used;
      ghost var w := State();
      var marks := KeyMarks(number, keys);
      placed, used := GenerateItem(number, r, picks, marks);
      fruits := fruits + Sown(placed, keys);
      if EmptyMeansFree(w) && Separate(w.agents, w.fruits) {
        ScatteredFruitsSeparate(w, grid, placed, marks, keys);
      }
    }

    /**
     * `Agent.act` (python/agent.py:37-73) for agent `i`, updating the agent
     * and the fruit it releases or picks up in place; the outcome is the
     * step `ForagerStep` describes.
     */
    method Act(i: nat, d: Draws)
      requires WellFormed(State()) && i < |agents| && Enough(State(), d)
      modifies this
      ensures State() == ForagerStep(old(State()), i, d)
    {
      ghost var w := State();
      var a := agents[i];
      assert AgentFits(a, n, |agents|, |fruits|);
      var empty := EmptyNeighbors(grid, n, a.x, a.y);
      if |empty| == 0 {
        var memory := Notice(i, d);
        agents := agents[i := a.(memory := memory)];
        return;
      }
      var b := Stepped(i, d);
      if a.fruit.Some? {
        CarrierSettle(i, b, d);
      } else {
        FreeSettle(i, b, d);
      }
    }

    /**
     * python/agent.py:38-47: agent `i` notes the key of a random fruit next
     * to it, or `0`, dropping its oldest entries while its memory is full.
     */
    method Notice(i: nat, d: Draws) returns (memory: seq<Obs>)
      requires WellFormed(State()) && i < |agents|
      ensures memory == ActMemory(State(), i, d)
    {
      var a := agents[i];
      assert AgentFits(a, n, |agents|, |fruits|);
      var near := FruitNeighbors(fruits, a.x, a.y);
      assert near == FruitAround(State(), i);
      var o := NoFruit;
      if |near| > 0 {
        o := Saw(fruits[Pick(near, d.observe)].key);
      }
      memory := UpdateMemory(a.memory, o);
    }

    /**
     * python/agent.py:38-53 for an agent with an empty neighbour: agent `i`
     * as it is once it has noticed, remembered and stepped to the empty
     * neighbour the draw picks.
     */
    method Stepped(i: nat, d: Draws) returns (b: Agent)
      requires WellFormed(State()) && i < |agents| && EmptyAround(State(), i) != []
      ensures b == Moved(State(), i, d)
    {
      var a := agents[i];
      assert AgentFits(a, n, |agents|, |fruits|);
      var memory := Notice(i, d);
      var empty := EmptyNeighbors(grid, n, a.x, a.y);
      var dest := Pick(empty, d.move);
      b := a.(x := dest.0, y := dest.1, memory := memory);
    }

    /**
     * python/agent.py:56-61: the stepped carrier (agent `i`, about to become
     * `b`) puts its fruit down on the cell it left when `will_release`
     * passes, and keeps it otherwise.
     */
    method CarrierSettle(i: nat, b: Agent, d: Draws)
      requires WellFormed(State()) && i < |agents| && Successor(State(), i, b) && b.fruit.Some?
      modifies this
      ensures State() == CarrierSettles(old(State()), i, b, d)
    {
      var k := b.fruit.value;
      var a := agents[i];
      var release := DecideRelease(b.memory, fruits[k].key, d.release);
      if release {
        fruits := fruits[k := fruits[k].(x := a.x, y := a.y, isCarried := false)];
        agents := agents[i := b.(color := FreeColour, fruit := None)];
      } else {
        agents := agents[i := b];
      }
    }

    /**
     * python/agent.py:62-73: the stepped free agent (agent `i`, about to
     * become `b`) takes the first fruit next to its old cell that passes
     * `will_carry`, stepping onto it and wearing its colour.
     */
    method FreeSettle(i: nat, b: Agent, d: Draws)
      requires WellFormed(State()) && i < |agents| && Successor(State(), i, b) && Enough(State(), d)
      modifies this
      ensures State() == FreeSettles(old(State()), i, b, d)
    {
      var a := agents[i];
      var near := FruitNeighbors(fruits, a.x, a.y);
      assert near == FruitAround(State(), i);
      var chosen := FirstCarried(b.memory, fruits, near, d.carry);
      if chosen.Some? {
        TakeFruit(i, b, near[chosen.value]);
      } else {
        agents := agents[i := b];
      }
    }

    /**
     * python/agent.py:66-71: the free agent `b` steps onto fruit `k`, wears
     * its colour and carries it; the fruit is marked as carried.
     */
    method TakeFruit(i: nat, b: Agent, k: nat)
      requires WellFormed(State()) && i < |agents| && Successor(State(), i, b) && k < |fruits|
      modifies this
      ensures State() == PickUp(old(State()), i, b, k)
    {
      var f := fruits[k];
      agents := agents[i := b.(x := f.x, y := f.y, color := f.color, fruit := Some(k))];
      fruits := fruits[k := f.(isCarried := true)];
    }

    /**
     * `update` (python/environment.py:46-60): rebuild the grid from the
     * agents, then from the uncarried fruits, asserting before each write
     * that the cell is still empty. It succeeds exactly when no two of them
     * share a cell, and then the grid is the occupancy of the lists.
     */
    method Update() returns (ok: bool)
      requires WellFormed(State())
      modifies this
      ensures n == old(n) && m == old(m) && agents == old(agents) && fruits == old(fruits)
      ensures ok <==> Separate(agents, fruits)
      ensures ok ==> grid == Occupancy(n, m, agents, fruits)
    {
      ok := UpdateAgents();
      if !ok {
        return false;
      }
      ok := UpdateFruits();
    }

    /** The first loop of `update`: a blank grid, then `update_agent` for each agent in turn. */
    method UpdateAgents() returns (ok: bool)
      requires WellFormed(State())
      modifies this
      ensures n == old(n) && m == old(m) && agents == old(agents) && fruits == old(fruits)
      ensures ok <==> Separate(agents, [])
      ensures ok ==> grid == Occupancy(n, m, agents, [])
      ensures !ok ==> !Separate(agents, fruits)
    {
      grid := Blank(n, m);
      OccupancyOfNothing(n, m);
      var j := 0;
      while j < |agents|
        invariant 0 <= j <= |agents|
        invariant n == old(n) && m == old(m) && agents == old(agents) && fruits == old(fruits)
        invariant grid == Occupancy(n, m, agents[..j], [])
        invariant Separate(agents[..j], [])
      {
        ok := UpdateAgent(j);
        if !ok {
          return false;
        }
        j := j + 1;
      }
      assert agents[..j] == agents;
      return true;
    }

    /** The second loop of `update`: `update_fruit` for each fruit in turn, on the grid of the agents. */
    method UpdateFruits() returns (ok: bool)
      requires WellFormed(State()) && Separate(agents, []) && grid == Occupancy(n, m, agents, [])
      modifies this
      ensures n == old(n) && m == old(m) && agents == old(agents) && fruits == old(fruits)
      ensures ok <==> Separate(agents, fruits)
      ensures ok ==> grid == Occupancy(n, m, agents, fruits)
    {
      assert fruits[..0] == [];
      var k := 0;
      while k < |fruits|
        invariant 0 <= k <= |fruits|
        invariant n == old(n) && m == old(m) && agents == old(agents) && fruits == old(fruits)
        invariant grid == Occupancy(n, m, agents, fruits[..k])
        invariant Separate(agents, fruits[..k])
      {
        ok := UpdateFruit(k);
        if !ok {
          return false;
        }
        k := k + 1;
      }
      assert fruits[..k] == fruits;
      return true;
    }

    /**
     * `update_agent` (python/environment.py:53-55) for agent `j`, on the grid
     * of the agents before it: it fails on a taken cell, which another agent
     * holds; otherwise the grid also shows agent `j`.
     */
    method UpdateAgent(j: nat) returns (ok: bool)
      requires WellFormed(State()) && j < |agents|
      requires grid == Occupancy(n, m, agents[..j], []) && Separate(agents[..j], [])
      modifies this
      ensures n == old(n) && m == old(m) && agents == old(agents) && fruits == old(fruits)
      ensures ok ==> grid == Occupancy(n, m, agents[..j + 1], []) && Separate(agents[..j + 1], [])
      ensures !ok ==> !Separate(agents, fruits) && !Separate(agents, [])
    {
      var p := AgentPos(agents[j]);
      assert AgentFits(agents[j], n, |agents|, |fruits|);
      AgentCellEmpty(n, m, agents, j, p);
      if grid[p.1][p.0] != Empty {
        AgentClash(agents, fruits, j);
        AgentClash(agents, [], j);
        return false;
      }
      PlaceAgent(j);
      return true;
    }

    /** The write of python/environment.py:55: agent `j` appears on its free cell. */
    method PlaceAgent(j: nat)
      requires WellFormed(State()) && j < |agents|
      requires grid == Occupancy(n, m, agents[..j], []) && Separate(agents[..j], [])
      requires NoAgentAt(agents[..j], AgentPos(agents[j]), -1)
      modifies this
      ensures n == old(n) && m == old(m) && agents == old(agents) && fruits == old(fruits)
      ensures grid == Occupancy(n, m, agents[..j + 1], []) && Separate(agents[..j + 1], [])
    {
      assert AgentFits(agents[j], n, |agents|, |fruits|);
      ShowAgent(n, m, agents, j);
      grid := Put(grid, AgentPos(agents[j]), AgentCell(j));
    }

    /**
     * `update_fruit` (python/environment.py:57-60) for fruit `k`, on the grid
     * of the agents and the fruits before it: a carried fruit is skipped; an
     * uncarried one fails on a taken cell and otherwise shows its key.
     */
    method UpdateFruit(k: nat) returns (ok: bool)
      requires WellFormed(State()) && k < |fruits|
      requires grid == Occupancy(n, m, agents, fruits[..k]) && Separate(agents, fruits[..k])
      modifies this
      ensures n == old(n) && m == old(m) && agents == old(agents) && fruits == old(fruits)
      ensures ok ==> grid == Occupancy(n, m, agents, fruits[..k + 1]) && Separate(agents, fruits[..k + 1])
      ensures !ok ==> !Separate(agents, fruits)
    {
      var p := FruitPos(fruits[k]);
      assert FruitFits(fruits[k], n);
      if fruits[k].isCarried {
        HideCarriedFruit(n, m, agents, fruits, k);
      } else {
        if grid[p.1][p.0] != Empty {
          FruitClash(agents, fruits, k);
          return false;
        }
        ShowFruit(n, m, agents, fruits, k);
        grid := Put(grid, p, FruitKey(fruits[k].key));
      }
      FruitsStaySeparate(agents, fruits, k);
      return true;
    }
  }
}
