/** The workgroup grid of the dispatch: (Screen.width + 31) / 32 by
    (Screen.height + 15) / 16 by 1, in C#'s integer division. */
module Grid {

  /** The kernel's local workgroup extents. */
  const GroupWidth: int := 32
  const GroupHeight: int := 16

  /** C# integer division: the quotient is truncated toward zero. */
  function CsDiv(a: int, b: int): (q: int)
    requires b > 0
    ensures a >= 0 ==> q * b <= a < q * b + b
    ensures a < 0 ==> q * b - b < a <= q * b
  {
    if a >= 0 then a / b else -((-a) / b)
  }

  /** Number of workgroups along one axis: (extent + tile - 1) / tile. */
  function Groups(extent: int, tile: int): int
    requires tile > 0
  {
    CsDiv(extent + tile - 1, tile)
  }

  datatype DispatchSize = DispatchSize(x: int, y: int, z: int)

  function DispatchGrid(width: int, height: int): DispatchSize
  {
    DispatchSize(Groups(width, GroupWidth), Groups(height, GroupHeight), 1)
  }

  /** The groups along one axis cover the whole extent, for any extent. */
  lemma GroupsCover(extent: int, tile: int)
    requires tile > 0
    ensures Groups(extent, tile) * tile >= extent
  {
    var q := Groups(extent, tile);
    assert q == CsDiv(extent + tile - 1, tile);
  }

  /** For a non-negative extent the grid is the ceiling of extent / tile:
      it covers the extent, with no spare group, and it is never negative. */
  lemma GroupsIsCeiling(extent: int, tile: int)
    requires tile > 0 && extent >= 0
    ensures Groups(extent, tile) >= 0
    ensures Groups(extent, tile) * tile >= extent
    ensures (Groups(extent, tile) - 1) * tile < extent || extent == 0
    ensures extent == 0 ==> Groups(extent, tile) == 0
  {
    var q := Groups(extent, tile);
    assert q * tile <= extent + tile - 1 < q * tile + tile;
    assert (q - 1) * tile == q * tile - tile;
    if extent == 0 {
      if q >= 1 {
        assert q * tile >= tile by { MulMonotone(q, tile); }
      }
    }
  }

  lemma MulMonotone(q: int, tile: int)
    requires q >= 1 && tile > 0
    ensures q * tile >= tile
  {
  }

  /** No smaller group count covers the extent. */
  lemma GroupsIsLeast(extent: int, tile: int, g: int)
    requires tile > 0 && extent >= 0
    requires g * tile >= extent
    ensures Groups(extent, tile) <= g
  {
    var q := Groups(extent, tile);
    GroupsIsCeiling(extent, tile);
    if extent > 0 && q > g {
      assert (q - 1) * tile >= g * tile by { MulLe(g, q - 1, tile); }
    }
  }

  lemma MulLe(a: int, b: int, tile: int)
    requires a <= b && tile > 0
    ensures a * tile <= b * tile
  {
  }

  /** Every pixel of a width x height image lies in some workgroup of the grid. */
  lemma PixelCovered(width: int, height: int, px: int, py: int)
    requires 0 <= px < width && 0 <= py < height
    ensures px / GroupWidth < DispatchGrid(width, height).x
    ensures py / GroupHeight < DispatchGrid(width, height).y
    ensures DispatchGrid(width, height).z == 1
  {
    GroupsIsCeiling(width, GroupWidth);
    GroupsIsCeiling(height, GroupHeight);
  }

  lemma Grid800x600()
    ensures DispatchGrid(800, 600) == DispatchSize(25, 38, 1)
  {
  }

  lemma Grid64x64()
    ensures DispatchGrid(64, 64) == DispatchSize(2, 4, 1)
  {
  }
}
