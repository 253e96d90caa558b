/**
 * Challenge construction: enumerate the grid cells in row-major order, shuffle
 * them in place, shuffle the three kinds, and pair the first three cells with
 * the kinds, numbering them 1, 2, 3. Drawing the shapes on the image and
 * encoding it as PNG are not modelled.
 */
module Placement {
  import opened Captcha

  /** The `k`-th cell of the grid in row-major order. */
  function CellAt(k: nat): Cell {
    Cell(k / Cols, k % Cols)
  }

  predicate Distinct<T(==)>(s: seq<T>) {
    forall i, j :: 0 <= i < j < |s| ==> s[i] != s[j]
  }

  /** Every cell of the enumeration lies on the grid. */
  lemma CellAtInGrid(k: nat)
    requires k < Rows * Cols
    ensures InGrid(CellAt(k))
  {
  }

  /** Different indices of the enumeration are different cells. */
  lemma CellAtInjective(k: nat, m: nat)
    requires CellAt(k) == CellAt(m)
    ensures k == m
  {
    assert k == Cols * (k / Cols) + k % Cols;
    assert m == Cols * (m / Cols) + m % Cols;
  }

  lemma CellAtRowCol(i: nat, j: nat)
    requires j < Cols
    ensures CellAt(i * Cols + j) == Cell(i, j)
  {
  }

  /** The nested loops that append `[i, j]` for every row `i` and column `j`. */
  method EnumerateGrid() returns (positions: seq<Cell>)
    ensures |positions| == Rows * Cols
    ensures forall k :: 0 <= k < |positions| ==> positions[k] == CellAt(k)
  {
    positions := [];
    var i := 0;
    while i < Rows
      invariant 0 <= i <= Rows
      invariant |positions| == i * Cols
      invariant forall k :: 0 <= k < |positions| ==> positions[k] == CellAt(k)
    {
      var j := 0;
      while j < Cols
        invariant 0 <= j <= Cols
        invariant |positions| == i * Cols + j
        invariant forall k :: 0 <= k < |positions| ==> positions[k] == CellAt(k)
      {
        CellAtRowCol(i, j);
        positions := positions + [Cell(i, j)];
        j := j + 1;
      }
      i := i + 1;
    }
  }

  /** The enumeration lists 24 distinct cells, all on the grid. */
  lemma GridCellsDistinctInGrid(positions: seq<Cell>)
    requires |positions| == Rows * Cols
    requires forall k :: 0 <= k < |positions| ==> positions[k] == CellAt(k)
    ensures Distinct(positions)
    ensures forall k :: 0 <= k < |positions| ==> InGrid(positions[k])
  {
  }

  /**
   * The Fisher-Yates shuffle `rand.Shuffle` performs: for `i` from the last
   * index down to 1 it swaps `a[i]` with `a[j]` for a random `j` in `0..i`.
   * The random draw is a nondeterministic choice, so every outcome of the
   * source's shuffle is an outcome of this method.
   */
  method Shuffle<T>(a: array<T>)
    modifies a
    ensures multiset(a[..]) == old(multiset(a[..]))
  {
    var i := a.Length - 1;
    while i > 0
      invariant i < a.Length
      invariant multiset(a[..]) == old(multiset(a[..]))
    {
      var j :| 0 <= j <= i;
      a[i], a[j] := a[j], a[i];
      i := i - 1;
    }
  }

  lemma TwoOccurrences<T>(t: seq<T>, i: nat, j: nat)
    requires i < j < |t| && t[i] == t[j]
    ensures multiset(t)[t[i]] >= 2
  {
    assert t == t[..j] + [t[j]] + t[j + 1..];
    assert t[i] in t[..j];
  }

  lemma {:induction false} OccursAtMostOnce<T>(s: seq<T>, x: T)
    requires Distinct(s)
    ensures multiset(s)[x] <= 1
  {
    if |s| > 0 {
      var p, y := s[..|s| - 1], s[|s| - 1];
      assert s == p + [y];
      OccursAtMostOnce(p, x);
    }
  }

  /** Rearranging a sequence of distinct elements leaves them distinct. */
  lemma PermutationPreservesDistinct<T>(s: seq<T>, t: seq<T>)
    requires multiset(s) == multiset(t)
    requires Distinct(s)
    ensures Distinct(t)
  {
    forall i, j | 0 <= i < j < |t| ensures t[i] != t[j] {
      if t[i] == t[j] {
        TwoOccurrences(t, i, j);
        OccursAtMostOnce(s, t[i]);
      }
    }
  }

  /**
   * The loop that builds the shapes and their names: shape `i` takes the `i`-th
   * shuffled kind, the `i`-th shuffled cell and the position `i + 1`.
   */
  method PlaceShapes(positions: array<Cell>, shapeTypes: array<ShapeType>)
    returns (shapes: seq<Shape>, names: seq<string>)
    requires positions.Length >= ShapeCount && shapeTypes.Length >= ShapeCount
    ensures |shapes| == ShapeCount
    ensures forall i :: 0 <= i < ShapeCount ==>
      shapes[i] == Shape(shapeTypes[i], positions[i].row, positions[i].col, i + 1)
    ensures names == KindNames(Kinds(shapes))
  {
    var placed := new Shape[ShapeCount];
    var sequence := new string[ShapeCount];
    for i := 0 to ShapeCount
      invariant forall k :: 0 <= k < i ==>
        placed[k] == Shape(shapeTypes[k], positions[k].row, positions[k].col, k + 1)
      invariant forall k :: 0 <= k < i ==> sequence[k] == KindName(shapeTypes[k])
    {
      var pos := positions[i];
      placed[i] := Shape(shapeTypes[i], pos.row, pos.col, i + 1);
      sequence[i] := KindName(shapeTypes[i]);
    }
    shapes, names := placed[..], sequence[..];
  }

  /**
   * Builds a fresh challenge. Whatever the shuffles choose, the result is
   * well formed: three distinct cells on the grid, three distinct kinds,
   * positions 1, 2, 3 and the label naming the kinds in order.
   */
  method CreateChallenge() returns (c: CaptchaData)
    ensures WellFormed(c)
  {
    var grid := EnumerateGrid();
    var positions := new Cell[|grid|](k requires 0 <= k < |grid| => grid[k]);
    assert positions[..] == grid;
    Shuffle(positions);

    var shapeTypes := new ShapeType[][Circle, Square, Triangle];
    assert Distinct(shapeTypes[..]);
    ghost var kindsBefore := shapeTypes[..];
    Shuffle(shapeTypes);

    var shapes, names := PlaceShapes(positions, shapeTypes);
    c := CaptchaData(shapes, Join(names, Separator));

    GridCellsDistinctInGrid(grid);
    PermutationPreservesDistinct(grid, positions[..]);
    PermutationPreservesDistinct(kindsBefore, shapeTypes[..]);
    forall i | 0 <= i < ShapeCount ensures InGrid(CellOf(shapes[i])) {
      assert positions[..][i] in multiset(grid);
      assert CellOf(shapes[i]) == positions[..][i];
    }
    forall i, j | 0 <= i < j < ShapeCount
      ensures CellOf(shapes[i]) != CellOf(shapes[j]) && shapes[i].kind != shapes[j].kind
    {
      assert positions[..][i] != positions[..][j];
      assert shapeTypes[..][i] != shapeTypes[..][j];
    }
  }
}
