/**
 * The query half of `Environment` (python/environment.py:76-90): the
 * occupancy cell type, radius-r Chebyshev neighbours, empty neighbours and
 * uncarried fruit next to a cell. All three are generators in the source;
 * here they are sequence-valued functions that keep the generators' order.
 */
module Neighborhoods {
  import opened Fruits

  /** A grid coordinate `(x, y)`; the grid itself is indexed `grid[y][x]`. */
  type Coord = (int, int)

  /**
   * What a cell of the occupancy grid holds: `0` (empty), the placement
   * marker `'X'` written while agents are scattered, an agent (by its index
   * in the agent list) or the key of an uncarried fruit.
   */
  datatype Cell = Empty | Marker | AgentCell(index: nat) | FruitKey(key: string)

  type Grid = seq<seq<Cell>>

  /** `grid` has `n` rows of `m` cells each. */
  predicate Shaped<T>(grid: seq<seq<T>>, n: int, m: int)
  {
    |grid| == n && forall y :: 0 <= y < |grid| ==> |grid[y]| == m
  }

  /** `p` lies on a grid with `n` rows (indexed by y) and `m` columns (indexed by x). */
  predicate OnGrid(p: Coord, n: int, m: int)
  {
    0 <= p.0 < m && 0 <= p.1 < n
  }

  function Abs(k: int): nat
  {
    if k < 0 then -k else k
  }

  /** Chebyshev (king-move) distance. */
  function Chebyshev(p: Coord, q: Coord): nat
  {
    var dx, dy := Abs(p.0 - q.0), Abs(p.1 - q.1);
    if dx < dy then dy else dx
  }

  /** Scan order of the generator: `dx` outer, `dy` inner, both ascending. */
  predicate Before(p: Coord, q: Coord)
  {
    p.0 < q.0 || (p.0 == q.0 && p.1 < q.1)
  }

  predicate Ascending(s: seq<Coord>)
  {
    forall i, j :: 0 <= i < j < |s| ==> Before(s[i], s[j])
  }

  /**
   * The bound test of python/environment.py:79, taken literally: `x + dx` is
   * bounded by `n` and `y + dy` by `m`.
   */
  predicate Admitted(x: int, y: int, n: int, m: int, dx: int, dy: int)
  {
    (dx != 0 || dy != 0) && 0 <= x + dx < n && 0 <= y + dy < m
  }

  /** The inner loop over `dy` from `dy` to `r`, for one fixed `dx`. */
  function Column(x: int, y: int, r: nat, n: int, m: int, dx: int, dy: int): (s: seq<Coord>)
    decreases r + 1 - dy
    ensures forall p :: p in s <==>
      p.0 == x + dx && y + dy <= p.1 <= y + r && Admitted(x, y, n, m, dx, p.1 - y)
    ensures forall i, j :: 0 <= i < j < |s| ==> s[i].1 < s[j].1
    ensures |s| <= if dy > r then 0 else r + 1 - dy
    ensures dx == 0 && dy <= 0 ==> |s| <= r - dy
  {
    if dy > r then []
    else
      var rest := Column(x, y, r, n, m, dx, dy + 1);
      var head := if Admitted(x, y, n, m, dx, dy) then [(x + dx, y + dy)] else [];
      assert forall j :: 0 <= j < |rest| ==> rest[j] in rest;
      var s := head + rest;
      assert forall j :: |head| <= j < |s| ==> s[j] == rest[j - |head|];
      s
  }

  /** The outer loop over `dx` from `dx` to `r`. */
  function Columns(x: int, y: int, r: nat, n: int, m: int, dx: int): (s: seq<Coord>)
    requires dx >= -(r as int)
    decreases r + 1 - dx
    ensures forall p :: p in s <==>
      x + dx <= p.0 <= x + r && y - r <= p.1 <= y + r && Admitted(x, y, n, m, p.0 - x, p.1 - y)
    ensures Ascending(s)
    ensures dx <= r + 1 ==> |s| <= Times(r + 1 - dx, 2 * r + 1) - (if dx <= 0 then 1 else 0)
  {
    if dx > r then []
    else
      var col := Column(x, y, r, n, m, dx, -(r as int));
      var rest := Columns(x, y, r, n, m, dx + 1);
      assert Ascending(col) by {
        forall i, j | 0 <= i < j < |col| ensures Before(col[i], col[j]) {
          assert col[i] in col && col[j] in col;
        }
      }
      AscendingConcat(col, rest);
      ColumnsCount(r, dx, |col|, |rest|);
      col + rest
  }

  /** Two ascending lists, all of the first before all of the second, concatenate ascending. */
  lemma AscendingConcat(a: seq<Coord>, b: seq<Coord>)
    requires Ascending(a) && Ascending(b)
    requires forall p, q :: p in a && q in b ==> Before(p, q)
    ensures Ascending(a + b)
  {
    var s := a + b;
    forall i, j | 0 <= i < j < |s| ensures Before(s[i], s[j]) {
      if j < |a| {
        assert s[i] == a[i] && s[j] == a[j];
      } else if i < |a| {
        assert s[i] == a[i] && s[i] in a;
        assert s[j] == b[j - |a|] && s[j] in b;
      } else {
        assert s[i] == b[i - |a|] && s[j] == b[j - |a|];
      }
    }
  }

  lemma ColumnsCount(r: nat, dx: int, c: nat, rest: nat)
    requires -(r as int) <= dx <= r
    requires c <= 2 * r + 1 && (dx == 0 ==> c <= 2 * r)
    requires rest <= Times(r - dx, 2 * r + 1) - (if dx + 1 <= 0 then 1 else 0)
    ensures c + rest <= Times(r + 1 - dx, 2 * r + 1) - (if dx <= 0 then 1 else 0)
  {
    assert Times(r + 1 - dx, 2 * r + 1) == Times(r - dx, 2 * r + 1) + 2 * r + 1;
  }

  /**
   * `a * b`, counted `b` at a time. Bounds are stated with it so that the
   * arithmetic they bring into every proof stays linear.
   */
  function Times(a: nat, b: nat): nat
  {
    if a == 0 then 0 else Times(a - 1, b) + b
  }

  /** A product grows with its first factor. */
  lemma {:induction false} TimesGrows(a: nat, a': nat, b: nat)
    requires a <= a'
    ensures Times(a, b) <= Times(a', b)
    decreases a' - a
  {
    if a < a' {
      TimesGrows(a + 1, a', b);
    }
  }

  /** `Times` is multiplication. */
  lemma {:induction false} TimesIsMultiplication(a: nat, b: nat)
    ensures Times(a, b) == a * b
  {
    if a > 0 {
      TimesIsMultiplication(a - 1, b);
    }
  }

  /**
   * `get_neighbors(x, y, r)` on an `n` by `m` environment: the in-bounds
   * cells within Chebyshev distance `r`, never the centre, in scan order
   * (hence without duplicates), at most (2r+1)^2 - 1 of them.
   */
  function Neighbors(x: int, y: int, r: nat, n: int, m: int): (s: seq<Coord>)
    ensures forall p :: p in s <==>
      p != (x, y) && Chebyshev(p, (x, y)) <= r && 0 <= p.0 < n && 0 <= p.1 < m
    ensures Ascending(s)
    ensures forall i, j :: 0 <= i < j < |s| ==> s[i] != s[j]
    ensures |s| <= Times(2 * r + 1, 2 * r + 1) - 1
    ensures r == 1 ==> |s| <= 8
  {
    assert Times(3, 3) == 9;
    Columns(x, y, r, n, m, -(r as int))
  }

  /** On a square grid every neighbour can index `grid[y][x]`. */
  lemma NeighborsOnSquareGrid(x: int, y: int, r: nat, n: int)
    ensures forall p :: p in Neighbors(x, y, r, n, n) ==> OnGrid(p, n, n)
  {
  }

  /** The cells of `cells` whose grid cell is empty, in the order of `cells`. */
  function EmptyAmong(grid: Grid, cells: seq<Coord>): (s: seq<Coord>)
    requires forall p :: p in cells ==> 0 <= p.1 < |grid| && 0 <= p.0 < |grid[p.1]|
    ensures forall p :: p in s <==> p in cells && grid[p.1][p.0] == Empty
    ensures Ascending(cells) ==> Ascending(s)
  {
    if cells == [] then []
    else
      var rest := EmptyAmong(grid, cells[1..]);
      assert forall p :: p in cells[1..] ==> p in cells;
      var head := if grid[cells[0].1][cells[0].0] == Empty then [cells[0]] else [];
      AscendingCons(cells, head, rest);
      head + rest
  }

  /** Keeping or dropping the head of an ascending list keeps it ascending. */
  lemma AscendingCons(cells: seq<Coord>, head: seq<Coord>, rest: seq<Coord>)
    requires cells != [] && (head == [] || head == [cells[0]])
    requires forall p :: p in rest ==> p in cells[1..]
    requires Ascending(cells[1..]) ==> Ascending(rest)
    ensures Ascending(cells) ==> Ascending(head + rest)
  {
    if Ascending(cells) {
      assert Ascending(cells[1..]);
      forall p | p in rest ensures Before(cells[0], p) {
        var k :| 0 <= k < |cells[1..]| && cells[1..][k] == p;
        assert cells[k + 1] == p;
      }
      var s := head + rest;
      forall i, j | 0 <= i < j < |s| ensures Before(s[i], s[j]) {
        if i < |head| {
          assert s[j] == rest[j - |head|] && s[j] in rest;
        } else {
          assert s[i] == rest[i - |head|] && s[j] == rest[j - |head|];
        }
      }
    }
  }

  /**
   * `get_empty_neighbors(x, y)`: the radius-1 neighbours whose cell is `0`,
   * in neighbour order. The grid is square so that the lookup stays in range.
   */
  function EmptyNeighbors(grid: Grid, n: int, x: int, y: int): (s: seq<Coord>)
    requires Shaped(grid, n, n)
    ensures forall p :: p in s <==> p in Neighbors(x, y, 1, n, n) && grid[p.1][p.0] == Empty
    ensures Ascending(s)
  {
    EmptyAmong(grid, Neighbors(x, y, 1, n, n))
  }

  /** The fruit test of python/environment.py:89. */
  predicate NearFruit(f: Fruit, x: int, y: int)
  {
    !f.isCarried && Abs(f.x - x) <= 1 && Abs(f.y - y) <= 1
  }

  /** Indices `from..` of the fruit list that pass `NearFruit`, ascending. */
  function FruitsNear(fruits: seq<Fruit>, x: int, y: int, from: nat): (s: seq<nat>)
    decreases |fruits| - from
    ensures forall k :: k in s <==> from <= k < |fruits| && NearFruit(fruits[k], x, y)
    ensures forall i, j :: 0 <= i < j < |s| ==> s[i] < s[j]
  {
    if from >= |fruits| then []
    else
      var rest := FruitsNear(fruits, x, y, from + 1);
      var s := (if NearFruit(fruits[from], x, y) then [from] else []) + rest;
      assert forall j :: |s| - |rest| <= j < |s| ==> s[j] == rest[j - (|s| - |rest|)] && s[j] in rest;
      s
  }

  /**
   * `get_fruit_neighbors(x, y)`: exactly the uncarried fruit within one step
   * in each axis, as indices into the fruit list, in list order.
   */
  function FruitNeighbors(fruits: seq<Fruit>, x: int, y: int): (s: seq<nat>)
    ensures forall k: nat :: k in s <==> k < |fruits| && NearFruit(fruits[k], x, y)
    ensures forall i, j :: 0 <= i < j < |s| ==> s[i] < s[j]
  {
    FruitsNear(fruits, x, y, 0)
  }
}
