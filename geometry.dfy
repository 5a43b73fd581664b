/**
 * Rectangular blocks on the integer grid.
 *
 * A block of size (width, height) placed with its top-left corner at (x, y)
 * covers the unit cells [x, x + width) x [y, y + height); y grows downward.
 * The optimizer does not check the signs of sizes, so they are plain ints here
 * and the lemmas state which signs they need.
 */
module Geometry {

  /** A block's footprint, the `(width, height)` pair of the optimizer's input. */
  datatype Block = Block(width: int, height: int)

  /** A top-left corner. */
  datatype Pos = Pos(x: int, y: int)

  /** The placement area, the `grid_size` pair. */
  datatype Grid = Grid(width: int, height: int)

  function Abs(n: int): nat
  {
    if n < 0 then -n else n
  }

  function Max(a: int, b: int): int
  {
    if a < b then b else a
  }

  function Min(a: int, b: int): int
  {
    if a < b then a else b
  }

  predicate HasPositiveSize(b: Block)
  {
    b.width > 0 && b.height > 0
  }

  predicate HasNonNegativeSize(b: Block)
  {
    b.width >= 0 && b.height >= 0
  }

  /** The domains of a block's position variables: `0 <= x <= W - w` and `0 <= y <= H - h`. */
  predicate FitsIn(b: Block, p: Pos, g: Grid)
  {
    0 <= p.x <= g.width - b.width && 0 <= p.y <= g.height - b.height
  }

  // The four separations reified for a pair (i, j): `left`, `right`, `above`, `below`.

  predicate IsLeftOf(b1: Block, p1: Pos, b2: Block, p2: Pos)
  {
    p1.x + b1.width <= p2.x
  }

  predicate IsRightOf(b1: Block, p1: Pos, b2: Block, p2: Pos)
  {
    p2.x + b2.width <= p1.x
  }

  predicate IsAbove(b1: Block, p1: Pos, b2: Block, p2: Pos)
  {
    p1.y + b1.height <= p2.y
  }

  predicate IsBelow(b1: Block, p1: Pos, b2: Block, p2: Pos)
  {
    p2.y + b2.height <= p1.y
  }

  /** The disjunction the optimizer posts for a pair: at least one separation holds. */
  predicate Separated(b1: Block, p1: Pos, b2: Block, p2: Pos)
  {
    IsLeftOf(b1, p1, b2, p2) || IsRightOf(b1, p1, b2, p2) ||
    IsAbove(b1, p1, b2, p2) || IsBelow(b1, p1, b2, p2)
  }

  /** Swapping the pair turns `left` into `right` and `above` into `below`, so posting only i < j loses nothing. */
  lemma SeparationsSwap(b1: Block, p1: Pos, b2: Block, p2: Pos)
    ensures IsLeftOf(b1, p1, b2, p2) <==> IsRightOf(b2, p2, b1, p1)
    ensures IsAbove(b1, p1, b2, p2) <==> IsBelow(b2, p2, b1, p1)
    ensures Separated(b1, p1, b2, p2) <==> Separated(b2, p2, b1, p1)
  {
  }

  /** Block `b` at `p` covers the unit cell whose top-left corner is (cx, cy). */
  predicate Covers(b: Block, p: Pos, cx: int, cy: int)
  {
    p.x <= cx < p.x + b.width && p.y <= cy < p.y + b.height
  }

  /** Length of the intersection of [a, a + la) and [b, b + lb). */
  function Overlap(a: int, la: int, b: int, lb: int): nat
  {
    var lo := Max(a, b);
    var hi := Min(a + la, b + lb);
    if lo < hi then hi - lo else 0
  }

  /** Area of the intersection of the two placed rectangles. */
  function IntersectionArea(b1: Block, p1: Pos, b2: Block, p2: Pos): nat
  {
    Overlap(p1.x, b1.width, p2.x, b2.width) * Overlap(p1.y, b1.height, p2.y, b2.height)
  }

  /** For positive lengths, two intervals are disjoint exactly when one ends before the other starts. */
  lemma OverlapZero(a: int, la: int, b: int, lb: int)
    requires la > 0 && lb > 0
    ensures Overlap(a, la, b, lb) == 0 <==> (a + la <= b || b + lb <= a)
  {
  }

  lemma ProductZero(m: nat, n: nat)
    ensures m * n == 0 <==> (m == 0 || n == 0)
  {
    if m != 0 && n != 0 {
      assert m * n >= n by {
        assert m * n == (m - 1) * n + n;
      }
    }
  }

  /** For blocks of positive size, the four-way disjunction holds iff the rectangles intersect in zero area. */
  lemma SeparatedIffZeroArea(b1: Block, p1: Pos, b2: Block, p2: Pos)
    requires HasPositiveSize(b1) && HasPositiveSize(b2)
    ensures Separated(b1, p1, b2, p2) <==> IntersectionArea(b1, p1, b2, p2) == 0
  {
    OverlapZero(p1.x, b1.width, p2.x, b2.width);
    OverlapZero(p1.y, b1.height, p2.y, b2.height);
    ProductZero(Overlap(p1.x, b1.width, p2.x, b2.width), Overlap(p1.y, b1.height, p2.y, b2.height));
  }

  /** For blocks of positive size, the four-way disjunction holds iff no grid cell is covered by both. */
  lemma SeparatedIffNoSharedCell(b1: Block, p1: Pos, b2: Block, p2: Pos)
    requires HasPositiveSize(b1) && HasPositiveSize(b2)
    ensures Separated(b1, p1, b2, p2) <==>
              !exists cx, cy :: Covers(b1, p1, cx, cy) && Covers(b2, p2, cx, cy)
  {
    if !Separated(b1, p1, b2, p2) {
      var cx, cy := Max(p1.x, p2.x), Max(p1.y, p2.y);
      assert Covers(b1, p1, cx, cy) && Covers(b2, p2, cx, cy);
    }
  }

  /** Floored centre, `x + w // 2`; Dafny's `/` by 2 rounds down for either sign, as `//` does. */
  function CentreX(b: Block, p: Pos): int
  {
    p.x + b.width / 2
  }

  function CentreY(b: Block, p: Pos): int
  {
    p.y + b.height / 2
  }

  /** A block of non-negative size inside the grid has its centre in [0, W] x [0, H]. */
  lemma CentreWithinGrid(b: Block, p: Pos, g: Grid)
    requires HasNonNegativeSize(b) && FitsIn(b, p, g)
    ensures 0 <= CentreX(b, p) <= g.width && 0 <= CentreY(b, p) <= g.height
  {
  }

  /** A block of positive size covers its own centre cell, so inside the grid the centre is in [0, W - 1] x [0, H - 1]. */
  lemma CentreCovered(b: Block, p: Pos, g: Grid)
    requires HasPositiveSize(b)
    ensures Covers(b, p, CentreX(b, p), CentreY(b, p))
    ensures FitsIn(b, p, g) ==> 0 <= CentreX(b, p) < g.width && 0 <= CentreY(b, p) < g.height
  {
  }

  /** `c` moved into [0, hi]. */
  function Clamp(c: int, hi: int): int
  {
    if c < 0 then 0 else if c > hi then hi else c
  }

  /** Clamping into the same interval never moves two points further apart. */
  lemma ClampContracts(a: int, b: int, hi: int)
    requires hi >= 0
    ensures 0 <= Clamp(a, hi) <= hi
    ensures Abs(Clamp(a, hi) - Clamp(b, hi)) <= Abs(a - b)
  {
  }

  /**
   * The block moved so that its floored centre is clamped into [0, W] x [0, H].
   * Inside the grid only a block with a negative width or height has its centre
   * outside that box, so every other block stays where it is.
   */
  function Pull(b: Block, p: Pos, g: Grid): Pos
  {
    Pos(p.x + (Clamp(CentreX(b, p), g.width) - CentreX(b, p)),
        p.y + (Clamp(CentreY(b, p), g.height) - CentreY(b, p)))
  }

  /** A pulled block stays inside the grid, and its centre is the clamped centre. */
  lemma PullFits(b: Block, p: Pos, g: Grid)
    requires FitsIn(b, p, g) && g.width >= 0 && g.height >= 0
    ensures FitsIn(b, Pull(b, p, g), g)
    ensures CentreX(b, Pull(b, p, g)) == Clamp(CentreX(b, p), g.width)
    ensures CentreY(b, Pull(b, p, g)) == Clamp(CentreY(b, p), g.height)
  {
  }

  /**
   * Pulling keeps two in-grid blocks apart: a block that moves ends up wholly
   * left of, right of, above or below everything inside the grid.
   */
  lemma PullSeparated(b1: Block, p1: Pos, b2: Block, p2: Pos, g: Grid)
    requires FitsIn(b1, p1, g) && FitsIn(b2, p2, g) && g.width >= 0 && g.height >= 0
    requires Separated(b1, p1, b2, p2)
    ensures Separated(b1, Pull(b1, p1, g), b2, Pull(b2, p2, g))
  {
  }
}
