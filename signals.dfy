/**
 * The signal layer of `ComplexEnvironment` (python/version2.py:144-192):
 * a grid of intensities that decays by 0.1 per tick, is raised (capped at 1)
 * by `add_signal`, is deposited in three rings by `release_signals`, and
 * is followed uphill by an agent that found nothing to carry
 * (python/version2.py:124-138).
 */
module Signals {
  import opened Wrappers
  import opened Neighborhoods

  /** `signal_grid[y][x]`, one intensity per cell. */
  type Field = seq<seq<real>>

  const DecayRate: real := 0.1
  const DiffusionDistance: nat := 3

  /** Every intensity lies in [0, 1]. */
  predicate InUnit(s: Field)
  {
    forall y, x :: 0 <= y < |s| && 0 <= x < |s[y]| ==> 0.0 <= s[y][x] <= 1.0
  }

  /** Every intensity lies in [0, c]. */
  predicate AtMost(s: Field, c: real)
  {
    forall y, x :: 0 <= y < |s| && 0 <= x < |s[y]| ==> 0.0 <= s[y][x] <= c
  }

  /** Every intensity is 0. */
  predicate Quiet(s: Field)
  {
    forall y, x :: 0 <= y < |s| && 0 <= x < |s[y]| ==> s[y][x] == 0.0
  }

  /** The signal grid the constructor builds: `n` rows of `m` zeros. */
  function Zeros(n: nat, m: nat): (s: Field)
    ensures Shaped(s, n, m) && Quiet(s) && InUnit(s)
  {
    seq(n, y => seq(m, x => 0.0))
  }

  /** `max(0, v - decay_rate)`. */
  function Fade(v: real): (r: real)
    ensures r >= 0.0 && r >= v - DecayRate
    ensures r == 0.0 || r == v - DecayRate
  {
    if v - DecayRate > 0.0 then v - DecayRate else 0.0
  }

  /** `min(1, v + intensity)`. */
  function Boost(v: real, intensity: real): (r: real)
    ensures r <= 1.0 && r <= v + intensity
    ensures r == 1.0 || r == v + intensity
  {
    if v + intensity < 1.0 then v + intensity else 1.0
  }

  /** The grid after `decay_signals`: every cell faded, the shape kept. */
  function Decayed(s: Field): (d: Field)
    ensures |d| == |s| && forall y :: 0 <= y < |s| ==> |d[y]| == |s[y]|
    ensures forall y, x :: 0 <= y < |s| && 0 <= x < |s[y]| ==> d[y][x] == Fade(s[y][x])
  {
    seq(|s|, y requires 0 <= y < |s| => seq(|s[y]|, x requires 0 <= x < |s[y]| => Fade(s[y][x])))
  }

  /** `k` ticks of decay and nothing else. */
  function DecayedTimes(s: Field, k: nat): (d: Field)
    ensures |d| == |s| && forall y :: 0 <= y < |s| ==> |d[y]| == |s[y]|
  {
    if k == 0 then s else Decayed(DecayedTimes(s, k - 1))
  }

  /** Decay keeps intensities in [0, 1]. */
  lemma DecayKeepsUnit(s: Field)
    requires InUnit(s)
    ensures InUnit(Decayed(s))
  {
  }

  /** Decay lowers every bound by `decay_rate`, down to 0. */
  lemma DecayLowers(s: Field, c: real)
    requires AtMost(s, c) && c >= DecayRate
    ensures AtMost(Decayed(s), c - DecayRate)
  {
  }

  lemma {:induction false} DecayedTimesBound(s: Field, k: nat)
    requires InUnit(s) && k <= 10
    ensures AtMost(DecayedTimes(s, k), 1.0 - (k as real) * DecayRate)
  {
    if k > 0 {
      DecayedTimesBound(s, k - 1);
      DecayLowers(DecayedTimes(s, k - 1), 1.0 - ((k - 1) as real) * DecayRate);
    }
  }

  /** With no new deposit, any signal has died out after ten ticks. */
  lemma SignalsFadeOut(s: Field)
    requires InUnit(s)
    ensures Quiet(DecayedTimes(s, 10))
  {
    DecayedTimesBound(s, 10);
  }

  /** `add_signal(x, y, intensity)` on the cell `p`. */
  function Added(s: Field, p: Coord, intensity: real): (s': Field)
    requires 0 <= p.1 < |s| && 0 <= p.0 < |s[p.1]|
    ensures |s'| == |s| && forall y :: 0 <= y < |s| ==> |s'[y]| == |s[y]|
    ensures s'[p.1][p.0] == Boost(s[p.1][p.0], intensity)
    ensures forall y, x :: 0 <= y < |s| && 0 <= x < |s[y]| && (x, y) != p ==> s'[y][x] == s[y][x]
  {
    s[p.1 := s[p.1][p.0 := Boost(s[p.1][p.0], intensity)]]
  }

  /** A non-negative deposit on a grid in [0, 1] keeps it in [0, 1]. */
  lemma AddKeepsUnit(s: Field, p: Coord, intensity: real)
    requires 0 <= p.1 < |s| && 0 <= p.0 < |s[p.1]|
    requires InUnit(s) && intensity >= 0.0
    ensures InUnit(Added(s, p, intensity))
  {
  }

  /** The intensity deposited at Chebyshev distance `d`: `1 - (d - 1) / diffusion_distance`. */
  function Intensity(d: nat): (v: real)
    requires 1 <= d <= DiffusionDistance
    ensures 0.0 < v <= 1.0
    ensures d == 1 ==> v == 1.0
    ensures d == 2 ==> v == 2.0 / 3.0
    ensures d == 3 ==> v == 1.0 / 3.0
  {
    1.0 - ((d - 1) as real) / (DiffusionDistance as real)
  }

  /** Each cell of `cells` lies on the grid and is 1 to 3 steps from `c`. */
  predicate InRings(s: Field, cells: seq<Coord>, c: Coord)
  {
    forall p :: p in cells ==> 0 <= p.1 < |s| && 0 <= p.0 < |s[p.1]| && 1 <= Chebyshev(p, c) <= DiffusionDistance
  }

  /** `add_signal` at each of `cells` in turn, with the intensity of its distance from `c`. */
  function Deposit(s: Field, cells: seq<Coord>, c: Coord): (s': Field)
    requires InRings(s, cells, c)
    ensures |s'| == |s| && forall y :: 0 <= y < |s| ==> |s'[y]| == |s[y]|
    decreases |cells|
  {
    if cells == [] then s
    else
      var p := cells[0];
      var s1 := Added(s, p, Intensity(Chebyshev(p, c)));
      assert forall q :: q in cells[1..] ==> q in cells;
      Deposit(s1, cells[1..], c)
  }

  /** The first deposit of a list, and the rest of the list still in rings of the raised field. */
  lemma DepositStep(s: Field, cells: seq<Coord>, c: Coord)
    requires InRings(s, cells, c) && cells != []
    ensures 0 <= cells[0].1 < |s| && 0 <= cells[0].0 < |s[cells[0].1]| && 1 <= Chebyshev(cells[0], c) <= DiffusionDistance
    ensures var s1 := Added(s, cells[0], Intensity(Chebyshev(cells[0], c)));
      InRings(s1, cells[1..], c) && Deposit(s, cells, c) == Deposit(s1, cells[1..], c)
  {
    assert cells[0] in cells;
    assert forall q :: q in cells[1..] ==> q in cells;
  }

  /**
   * Depositing along a list without repeats raises each listed cell once,
   * by the intensity of its distance, and leaves every other cell alone.
   */
  lemma {:induction false} DepositEffect(s: Field, cells: seq<Coord>, c: Coord)
    requires InRings(s, cells, c)
    requires forall i, j :: 0 <= i < j < |cells| ==> cells[i] != cells[j]
    ensures forall y, x :: 0 <= y < |s| && 0 <= x < |s[y]| ==>
      Deposit(s, cells, c)[y][x] ==
        if (x, y) in cells then Boost(s[y][x], Intensity(Chebyshev((x, y), c))) else s[y][x]
    decreases |cells|
  {
    if cells != [] {
      var p := cells[0];
      var s1 := Added(s, p, Intensity(Chebyshev(p, c)));
      var rest := cells[1..];
      assert forall q :: q in rest ==> q in cells;
      assert p !in rest by {
        forall j | 0 <= j < |rest| ensures rest[j] != p {
          assert rest[j] == cells[j + 1];
        }
      }
      DepositEffect(s1, rest, c);
      assert Deposit(s, cells, c) == Deposit(s1, rest, c);
      forall y, x | 0 <= y < |s| && 0 <= x < |s[y]|
        ensures Deposit(s, cells, c)[y][x] ==
          if (x, y) in cells then Boost(s[y][x], Intensity(Chebyshev((x, y), c))) else s[y][x]
      {
        assert (x, y) in cells <==> (x, y) == p || (x, y) in rest;
      }
    }
  }

  /** `release_signals` from the cell `c` of an `n` by `n` grid. */
  function Released(s: Field, n: nat, c: Coord): (s': Field)
    requires Shaped(s, n, n)
    ensures Shaped(s', n, n)
  {
    var cells := Neighbors(c.0, c.1, DiffusionDistance, n, n);
    assert InRings(s, cells, c);
    Deposit(s, cells, c)
  }

  /**
   * After a release every cell of the grid one to three steps from `c` has
   * been raised once by 1, 2/3 or 1/3 (capped at 1); `c` itself and every
   * farther cell is unchanged.
   */
  lemma ReleaseRings(s: Field, n: nat, c: Coord)
    requires Shaped(s, n, n)
    ensures forall y, x :: 0 <= y < n && 0 <= x < n ==>
      Released(s, n, c)[y][x] ==
        if 1 <= Chebyshev((x, y), c) <= DiffusionDistance
        then Boost(s[y][x], Intensity(Chebyshev((x, y), c)))
        else s[y][x]
  {
    var cells := Neighbors(c.0, c.1, DiffusionDistance, n, n);
    assert InRings(s, cells, c);
    DepositEffect(s, cells, c);
    forall y, x | 0 <= y < n && 0 <= x < n
      ensures (x, y) in cells <==> 1 <= Chebyshev((x, y), c) <= DiffusionDistance
    {
      assert (x, y) == c <==> Chebyshev((x, y), c) == 0;
    }
  }

  /**
   * On a grid in [0, 1] a release leaves the first ring at full intensity,
   * the second at least 2/3, the third at least 1/3, and the grid in [0, 1].
   */
  lemma ReleaseSaturates(s: Field, n: nat, c: Coord)
    requires Shaped(s, n, n) && InUnit(s)
    ensures InUnit(Released(s, n, c))
    ensures forall y, x :: 0 <= y < n && 0 <= x < n ==>
      var d, v := Chebyshev((x, y), c), Released(s, n, c)[y][x];
      (d == 1 ==> v == 1.0) && (d == 2 ==> v >= 2.0 / 3.0) && (d == 3 ==> v >= 1.0 / 3.0)
  {
    ReleaseRings(s, n, c);
    var r := Released(s, n, c);
    forall y, x | 0 <= y < n && 0 <= x < n
      ensures 0.0 <= r[y][x] <= 1.0
      ensures var d := Chebyshev((x, y), c);
        (d == 1 ==> r[y][x] == 1.0) && (d == 2 ==> r[y][x] >= 2.0 / 3.0) && (d == 3 ==> r[y][x] >= 1.0 / 3.0)
    {
      var d := Chebyshev((x, y), c);
      if 1 <= d <= DiffusionDistance {
        assert r[y][x] == Boost(s[y][x], Intensity(d));
      }
    }
  }

  /** A signal neighbour `(x, y, signal_grid[y][x])`. */
  datatype Spot = Spot(p: Coord, v: real)

  /** The spots of `cells`, read off the signal grid. */
  function Spots(s: Field, cells: seq<Coord>): (r: seq<Spot>)
    requires forall p :: p in cells ==> 0 <= p.1 < |s| && 0 <= p.0 < |s[p.1]|
    ensures |r| == |cells|
    ensures forall k :: 0 <= k < |r| ==> r[k] == Spot(cells[k], s[cells[k].1][cells[k].0])
  {
    seq(|cells|, k requires 0 <= k < |cells| => Spot(cells[k], s[cells[k].1][cells[k].0]))
  }

  /** `x[i], x[j] = x[j], x[i]`. */
  function Swap<T>(s: seq<T>, i: nat, j: nat): (r: seq<T>)
    requires i < |s| && j < |s|
    ensures |r| == |s| && r[i] == s[j] && r[j] == s[i]
    ensures forall k :: 0 <= k < |s| && k != i && k != j ==> r[k] == s[k]
  {
    s[i := s[j]][j := s[i]]
  }

  lemma SwapPermutes<T>(s: seq<T>, i: nat, j: nat)
    requires i < |s| && j < |s|
    ensures multiset(Swap(s, i, j)) == multiset(s)
  {
  }

  /**
   * The Fisher-Yates passes of `random.shuffle` for `i` from `top` down to
   * 1: swap `x[i]` with `x[j]`, `j` the next draw taken modulo `i + 1`.
   */
  function ShuffleDown<T>(s: seq<T>, top: nat, draws: seq<nat>): (r: seq<T>)
    requires top < |s| && |draws| >= top
    ensures |r| == |s|
    decreases top
  {
    if top == 0 then s
    else
      var j := draws[0] % (top + 1);
      ShuffleDown(Swap(s, top, j), top - 1, draws[1..])
  }

  /** `random.shuffle(x)` with its draws given: whatever the draws, it only reorders. */
  function Shuffled<T>(s: seq<T>, draws: seq<nat>): (r: seq<T>)
    requires |draws| + 1 >= |s|
    ensures |r| == |s| && multiset(r) == multiset(s)
  {
    if s == [] then s
    else
      ShuffleDownPermutes(s, |s| - 1, draws);
      ShuffleDown(s, |s| - 1, draws)
  }

  lemma {:induction false} ShuffleDownPermutes<T>(s: seq<T>, top: nat, draws: seq<nat>)
    requires top < |s| && |draws| >= top
    ensures multiset(ShuffleDown(s, top, draws)) == multiset(s)
    decreases top
  {
    if top > 0 {
      var j := draws[0] % (top + 1);
      var s1 := Swap(s, top, j);
      SwapPermutes(s, top, j);
      ShuffleDownPermutes(s1, top - 1, draws[1..]);
    }
  }

  /** Intensities ascend along `s`. */
  predicate SortedBySignal(s: seq<Spot>)
  {
    forall i, j :: 0 <= i < j < |s| ==> s[i].v <= s[j].v
  }

  /** Put `x` after every spot of `s` whose intensity is at most its own (a stable insertion). */
  function Insert(s: seq<Spot>, x: Spot): (r: seq<Spot>)
    requires SortedBySignal(s)
    ensures SortedBySignal(r) && multiset(r) == multiset(s) + multiset{x}
    ensures |r| == |s| + 1 && forall k :: 0 <= k < |r| ==> r[k] == x || r[k] in s
    decreases |s|
  {
    if s == [] || s[|s| - 1].v <= x.v then
      s + [x]
    else
      var init, last := s[..|s| - 1], s[|s| - 1];
      SplitLast(s);
      var t := Insert(init, x);
      assert forall k :: 0 <= k < |t| ==> t[k].v <= last.v;
      t + [last]
  }

  /** A non-empty list is its front followed by its last element. */
  lemma SplitLast<T>(s: seq<T>)
    requires s != []
    ensures multiset(s) == multiset(s[..|s| - 1]) + multiset{s[|s| - 1]}
    ensures forall k :: 0 <= k < |s| - 1 ==> s[..|s| - 1][k] == s[k]
  {
    assert s == s[..|s| - 1] + [s[|s| - 1]];
  }

  /** `list.sort(key=lambda signal: signal[2])`: ascending by intensity, ties kept in order. */
  function SortBySignal(s: seq<Spot>): (r: seq<Spot>)
    ensures SortedBySignal(r) && multiset(r) == multiset(s)
    decreases |s|
  {
    if s == [] then []
    else
      SplitLast(s);
      Insert(SortBySignal(s[..|s| - 1]), s[|s| - 1])
  }

  /** The spots of `s` whose intensity is exactly `v`, in their order in `s`. */
  function WithSignal(s: seq<Spot>, v: real): (r: seq<Spot>)
    ensures |r| <= |s| && forall k :: 0 <= k < |r| ==> r[k].v == v && r[k] in s
    decreases |s|
  {
    if s == [] then []
    else WithSignal(s[..|s| - 1], v) + (if s[|s| - 1].v == v then [s[|s| - 1]] else [])
  }

  /** Filtering a list with one more spot at its end. */
  lemma WithSignalSnoc(s: seq<Spot>, x: Spot, v: real)
    ensures WithSignal(s + [x], v) == WithSignal(s, v) + (if x.v == v then [x] else [])
  {
    assert (s + [x])[..|s|] == s;
  }

  /** Inserting `x` puts it after every spot of its own intensity and moves no other spot past another. */
  lemma {:induction false} InsertStable(s: seq<Spot>, x: Spot, v: real)
    requires SortedBySignal(s)
    ensures WithSignal(Insert(s, x), v) == WithSignal(s, v) + (if x.v == v then [x] else [])
    decreases |s|
  {
    if s == [] || s[|s| - 1].v <= x.v {
      WithSignalSnoc(s, x, v);
    } else {
      var init, last := s[..|s| - 1], s[|s| - 1];
      assert s == init + [last];
      var t := Insert(init, x);
      assert Insert(s, x) == t + [last];
      InsertStable(init, x, v);
      WithSignalSnoc(t, last, v);
      WithSignalSnoc(init, last, v);
    }
  }

  /**
   * The sort is stable: for every intensity, the spots of that intensity
   * come out in the order they went in, so ties keep their shuffled order.
   */
  lemma {:induction false} SortStable(s: seq<Spot>, v: real)
    ensures WithSignal(SortBySignal(s), v) == WithSignal(s, v)
    decreases |s|
  {
    if s != [] {
      var init, last := s[..|s| - 1], s[|s| - 1];
      assert s == init + [last];
      SortStable(init, v);
      InsertStable(SortBySignal(init), last, v);
      WithSignalSnoc(init, last, v);
    }
  }

  /** The look-up of python/version2.py:133 is in range for every spot. */
  predicate SpotsOn(grid: Grid, s: seq<Spot>)
  {
    forall k :: 0 <= k < |s| ==> 0 <= s[k].p.1 < |grid| && 0 <= s[k].p.0 < |grid[s[k].p.1]|
  }

  /**
   * The scan of python/version2.py:129-136 from `s[-i]` on: while the
   * intensity is positive, stop at the first spot whose grid cell is empty.
   */
  function ScanFrom(grid: Grid, s: seq<Spot>, i: nat): (r: Option<Coord>)
    requires SpotsOn(grid, s) && 1 <= i
    ensures r.Some? ==> FreeAndPositive(grid, s, |s| - i, r.value)
    decreases |s| + 1 - i
  {
    if i < |s| + 1 && s[|s| - i].v > 0.0 then
      var q := s[|s| - i].p;
      if grid[q.1][q.0] == Empty then Some(q) else ScanFrom(grid, s, i + 1)
    else None
  }

  /** Some spot of `s` up to index `j` lies on `p`, an empty cell, with a positive intensity. */
  predicate FreeAndPositive(grid: Grid, s: seq<Spot>, j: int, p: Coord)
    requires SpotsOn(grid, s)
  {
    exists k :: 0 <= k <= j && k < |s| && s[k].p == p && s[k].v > 0.0 && grid[s[k].p.1][s[k].p.0] == Empty
  }

  /**
   * Some spot of `s` up to index `j` lies on `p`, an empty cell, with a
   * positive intensity at least that of every empty spot up to `j`.
   */
  predicate StrongestFrom(grid: Grid, s: seq<Spot>, j: int, p: Coord)
    requires SpotsOn(grid, s)
  {
    exists k :: 0 <= k <= j && k < |s| && s[k].p == p && s[k].v > 0.0 &&
      grid[s[k].p.1][s[k].p.0] == Empty && EmptyAtMost(grid, s, j, s[k].v)
  }

  /** Every spot of `s` up to index `j` that lies on an empty cell has intensity at most `v`. */
  predicate EmptyAtMost(grid: Grid, s: seq<Spot>, j: int, v: real)
    requires SpotsOn(grid, s)
  {
    forall t :: 0 <= t <= j && t < |s| && grid[s[t].p.1][s[t].p.0] == Empty ==> s[t].v <= v
  }

  /**
   * What the scan from `s[-i]` finds: a spot with positive intensity on an
   * empty cell, at least as strong as every empty spot from `s[-i]` down;
   * or, when it finds nothing, no empty spot there has positive intensity.
   */
  lemma {:induction false} ScanFromFinds(grid: Grid, s: seq<Spot>, i: nat)
    requires SpotsOn(grid, s) && SortedBySignal(s) && 1 <= i <= |s| + 1
    ensures var r := ScanFrom(grid, s, i);
      (r.Some? ==> StrongestFrom(grid, s, |s| - i, r.value)) &&
      (r.None? ==> EmptyAtMost(grid, s, |s| - i, 0.0))
    decreases |s| + 1 - i
  {
    var j := |s| - i;
    if i == |s| + 1 {
    } else if s[j].v <= 0.0 {
      assert EmptyAtMost(grid, s, j, 0.0);
    } else if grid[s[j].p.1][s[j].p.0] == Empty {
      assert EmptyAtMost(grid, s, j, s[j].v);
      assert StrongestFrom(grid, s, j, s[j].p);
    } else {
      ScanFromFinds(grid, s, i + 1);
      assert ScanFrom(grid, s, i) == ScanFrom(grid, s, i + 1);
      SkipOccupied(grid, s, j, ScanFrom(grid, s, i + 1));
    }
  }

  /** An occupied spot at index `j` changes nothing the scan below it found. */
  lemma SkipOccupied(grid: Grid, s: seq<Spot>, j: nat, r: Option<Coord>)
    requires SpotsOn(grid, s) && j < |s| && grid[s[j].p.1][s[j].p.0] != Empty
    requires r.Some? ==> StrongestFrom(grid, s, j - 1, r.value)
    requires r.None? ==> EmptyAtMost(grid, s, j - 1, 0.0)
    ensures r.Some? ==> StrongestFrom(grid, s, j, r.value)
    ensures r.None? ==> EmptyAtMost(grid, s, j, 0.0)
  {
    if r.Some? {
      var k :| 0 <= k <= j - 1 && k < |s| && s[k].p == r.value && s[k].v > 0.0 &&
        grid[s[k].p.1][s[k].p.0] == Empty && EmptyAtMost(grid, s, j - 1, s[k].v);
      assert EmptyAtMost(grid, s, j, s[k].v);
    }
  }

  /**
   * The cell the agent turns to in python/version2.py:125-138: the
   * neighbours of `origin` with their intensities, shuffled, sorted, scanned
   * from the strongest. The signal followed is on an empty neighbour,
   * positive, and at least as strong as every other empty neighbour; when no
   * empty neighbour carries a positive signal there is none.
   */
  function FollowSignal(sig: Field, grid: Grid, n: nat, origin: Coord, draws: seq<nat>): (r: Option<Coord>)
    requires Shaped(sig, n, n) && Shaped(grid, n, n) && |draws| >= 8
    ensures var cells := Neighbors(origin.0, origin.1, 1, n, n);
      (r.Some? ==>
        r.value in cells && grid[r.value.1][r.value.0] == Empty && sig[r.value.1][r.value.0] > 0.0 &&
        forall q :: q in cells && grid[q.1][q.0] == Empty ==> sig[q.1][q.0] <= sig[r.value.1][r.value.0]) &&
      (r.None? ==> forall q :: q in cells && grid[q.1][q.0] == Empty ==> sig[q.1][q.0] <= 0.0)
  {
    var cells := Neighbors(origin.0, origin.1, 1, n, n);
    var spots := Spots(sig, cells);
    var sorted := SortBySignal(Shuffled(spots, draws));
    SortedOn(grid, sig, cells, spots, draws);
    ScanOfPermutation(grid, spots, sorted);
    SpotsOfCells(sig, grid, cells, spots, ScanFrom(grid, sorted, 1));
    ScanFrom(grid, sorted, 1)
  }

  lemma SortedOn(grid: Grid, sig: Field, cells: seq<Coord>, spots: seq<Spot>, draws: seq<nat>)
    requires forall p :: p in cells ==> OnGrid(p, |grid|, |grid|) && 0 <= p.1 < |sig| && 0 <= p.0 < |sig[p.1]|
    requires Shaped(grid, |grid|, |grid|) && |cells| <= 8 && |draws| >= 8
    requires spots == Spots(sig, cells)
    ensures SpotsOn(grid, SortBySignal(Shuffled(spots, draws)))
    ensures forall k :: 0 <= k < |spots| ==> spots[k] in multiset(SortBySignal(Shuffled(spots, draws)))
  {
    var sorted := SortBySignal(Shuffled(spots, draws));
    assert multiset(sorted) == multiset(spots);
    forall k | 0 <= k < |sorted|
      ensures 0 <= sorted[k].p.1 < |grid| && 0 <= sorted[k].p.0 < |grid[sorted[k].p.1]|
    {
      assert sorted[k] in multiset(spots);
      var t :| 0 <= t < |spots| && spots[t] == sorted[k];
      assert cells[t] in cells;
    }
  }

  /** `spots[k]` is on an empty cell and at least as strong as every spot of `spots` on an empty cell. */
  predicate StrongestEmpty(grid: Grid, spots: seq<Spot>, k: nat)
    requires SpotsOn(grid, spots)
  {
    k < |spots| && grid[spots[k].p.1][spots[k].p.0] == Empty &&
    forall t :: 0 <= t < |spots| && grid[spots[t].p.1][spots[t].p.0] == Empty ==> spots[t].v <= spots[k].v
  }

  /** Scanning any sorted reordering of `spots` finds a strongest empty spot, if a positive one exists. */
  lemma ScanOfPermutation(grid: Grid, spots: seq<Spot>, sorted: seq<Spot>)
    requires SpotsOn(grid, spots) && SpotsOn(grid, sorted) && SortedBySignal(sorted)
    requires multiset(sorted) == multiset(spots)
    ensures var r := ScanFrom(grid, sorted, 1);
      (r.Some? ==> exists k: nat :: StrongestEmpty(grid, spots, k) && spots[k].p == r.value && spots[k].v > 0.0) &&
      (r.None? ==> forall t :: 0 <= t < |spots| && grid[spots[t].p.1][spots[t].p.0] == Empty ==> spots[t].v <= 0.0)
  {
    ScanFromFinds(grid, sorted, 1);
    var r := ScanFrom(grid, sorted, 1);
    forall t | 0 <= t < |spots|
      ensures exists u :: 0 <= u < |sorted| && sorted[u] == spots[t]
    {
      assert spots[t] in multiset(sorted);
    }
    if r.Some? {
      var k :| 0 <= k <= |sorted| - 1 && k < |sorted| && sorted[k].p == r.value && sorted[k].v > 0.0 &&
        grid[sorted[k].p.1][sorted[k].p.0] == Empty && EmptyAtMost(grid, sorted, |sorted| - 1, sorted[k].v);
      assert sorted[k] in multiset(spots);
      var t :| 0 <= t < |spots| && spots[t] == sorted[k];
      assert StrongestEmpty(grid, spots, t);
    }
  }

  /** What `ScanOfPermutation` says about the spots, said about the cells and the signal grid. */
  lemma SpotsOfCells(sig: Field, grid: Grid, cells: seq<Coord>, spots: seq<Spot>, r: Option<Coord>)
    requires forall p :: p in cells ==> 0 <= p.1 < |sig| && 0 <= p.0 < |sig[p.1]|
    requires spots == Spots(sig, cells) && SpotsOn(grid, spots)
    requires r.Some? ==> exists k: nat :: StrongestEmpty(grid, spots, k) && spots[k].p == r.value && spots[k].v > 0.0
    requires r.None? ==> forall t :: 0 <= t < |spots| && grid[spots[t].p.1][spots[t].p.0] == Empty ==> spots[t].v <= 0.0
    ensures r.Some? ==>
      r.value in cells && grid[r.value.1][r.value.0] == Empty && sig[r.value.1][r.value.0] > 0.0 &&
      forall q :: q in cells && grid[q.1][q.0] == Empty ==> sig[q.1][q.0] <= sig[r.value.1][r.value.0]
    ensures r.None? ==> forall q :: q in cells && grid[q.1][q.0] == Empty ==> sig[q.1][q.0] <= 0.0
  {
    forall q | q in cells ensures exists t :: 0 <= t < |cells| && cells[t] == q && spots[t] == Spot(q, sig[q.1][q.0]) {
    }
    if r.Some? {
      var k: nat :| StrongestEmpty(grid, spots, k) && spots[k].p == r.value && spots[k].v > 0.0;
      assert cells[k] in cells;
    }
  }
}
