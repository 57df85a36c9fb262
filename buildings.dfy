/** A building of the playing field: its centre column, its height and its width,
    and the footprint test a projectile sample is checked against. */
module Buildings {

  /** Width of a building whose constructor is not given one. */
  const DefaultWidth: int := 30

  /** A building; `hits` is the list the constructor starts empty and nothing fills. */
  datatype Building = Building(xPosition: int, height: int, width: int, hits: seq<(int, int)>)

  function Abs(n: int): nat { if n < 0 then -n else n }

  /** The constructor: the three attributes as given, the width defaulting to 30, no hits. */
  function New(xPosition: int, height: int, width: int := DefaultWidth): (b: Building)
    ensures b.xPosition == xPosition && b.height == height && b.width == width
    ensures b.hits == []
  {
    Building(xPosition, height, width, [])
  }

  /** Leftmost and rightmost column of the footprint (floor division of the width). */
  function LeftEdge(b: Building): int { b.xPosition - b.width / 2 }
  function RightEdge(b: Building): int { b.xPosition + b.width / 2 }

  /** The footprint test: both horizontal edges inclusive, strictly below the roof,
      no lower bound on y. Stated without the division: twice the horizontal
      distance from the centre is at most the width. */
  function IsHit(b: Building, x: int, y: int): (hit: bool)
    ensures hit <==> 2 * Abs(x - b.xPosition) <= b.width && y < b.height
  {
    b.xPosition - b.width / 2 <= x <= b.xPosition + b.width / 2 && b.height > y
  }

  /** The columns of the footprint, left to right. */
  function Columns(b: Building): (cs: seq<int>)
    requires b.width >= 0
    ensures |cs| == RightEdge(b) - LeftEdge(b) + 1
    ensures forall i :: 0 <= i < |cs| ==> cs[i] == LeftEdge(b) + i
  {
    seq(RightEdge(b) - LeftEdge(b) + 1, i => LeftEdge(b) + i)
  }

  /** Below the roof, a sample is inside exactly when its column is one of `Columns`. */
  lemma ColumnsAreFootprint(b: Building, x: int, y: int)
    requires b.width >= 0 && y < b.height
    ensures IsHit(b, x, y) <==> x in Columns(b)
  {
    var cs := Columns(b);
    if IsHit(b, x, y) {
      assert cs[x - LeftEdge(b)] == x;
    }
  }

  /** Both horizontal edges belong to the footprint; the columns just outside do not. */
  lemma EdgesInclusive(b: Building, y: int)
    requires b.width >= 0 && y < b.height
    ensures IsHit(b, LeftEdge(b), y) && IsHit(b, RightEdge(b), y)
    ensures !IsHit(b, LeftEdge(b) - 1, y) && !IsHit(b, RightEdge(b) + 1, y)
  {
  }

  /** A building of default width covers the 31 columns from 15 left to 15 right of its centre. */
  lemma DefaultFootprint(xPosition: int, height: int, x: int, y: int)
    ensures |Columns(New(xPosition, height))| == 31
    ensures IsHit(New(xPosition, height), x, y) <==>
              xPosition - 15 <= x <= xPosition + 15 && y < height
  {
  }

  /** Widths 2k and 2k+1 give the same footprint, because the width is halved by floor division. */
  lemma OddWidthSameFootprint(xPosition: int, height: int, k: nat, x: int, y: int)
    ensures IsHit(New(xPosition, height, 2 * k), x, y) == IsHit(New(xPosition, height, 2 * k + 1), x, y)
  {
  }

  /** There is no floor: a sample inside stays inside at every lower y, negative ones included. */
  lemma NoLowerBound(b: Building, x: int, y: int, y': int)
    requires IsHit(b, x, y) && y' <= y
    ensures IsHit(b, x, y')
  {
  }
}
