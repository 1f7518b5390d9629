/** The contact sheet: independently drawn tiles, one row per level, mounted with gaps. */
module Sheet {
  import opened Wrappers

  datatype Rgb = Rgb(r: bv8, g: bv8, b: bv8)

  const GAP: nat := 4
  const MOUNT := Rgb(70, 70, 78)

  datatype Tile = Tile(width: nat, height: nat, at: (nat, nat) -> Rgb)

  // Where the i-th tile of a row or column starts, and how long the sheet is for `count` of them.
  function Origin(i: nat, size: nat): nat {
    GAP + i * (size + GAP)
  }

  function Extent(count: nat, size: nat): nat {
    count * size + (count + 1) * GAP
  }

  // The tile a position falls in, and how far into it; none in the gaps.
  function Slot(p: nat, size: nat, count: nat): Option<(nat, nat)> {
    if count == 0 || p < GAP then None
    else if p < GAP + size then Some((0, p - GAP))
    else if p < GAP + size + GAP then None
    else
      match Slot(p - (size + GAP), size, count - 1)
      case Some((i, offset)) => Some((i + 1, offset))
      case None => None
  }

  lemma NextOrigin(i: nat, size: nat)
    ensures Origin(i + 1, size) == Origin(i, size) + size + GAP
    ensures Origin(0, size) == GAP
  {
    assert (i + 1) * (size + GAP) == i * (size + GAP) + size + GAP;
  }

  /**
   A position falls in a tile exactly when it lies between that tile's start and end: so no two
   tiles overlap, and each place in a tile has a position of its own.
   */
  lemma {:induction false} SlotIff(p: nat, size: nat, count: nat, i: nat, offset: nat)
    ensures Slot(p, size, count) == Some((i, offset)) <==>
            i < count && offset < size && p == Origin(i, size) + offset
    decreases count
  {
    if count > 0 {
      NextOrigin(0, size);
      if i > 0 {
        NextOrigin(i - 1, size);
        LaterOrigin(i, size);
        if p >= GAP + size + GAP {
          SlotIff(p - (size + GAP), size, count - 1, i - 1, offset);
        }
      } else if p >= GAP + size + GAP {
        assert Slot(p, size, count) != Some((0, offset));
      }
    }
  }

  lemma {:induction false} LaterOrigin(i: nat, size: nat)
    requires i > 0
    ensures Origin(i, size) >= GAP + size + GAP
  {
    NextOrigin(i - 1, size);
    if i > 1 {
      LaterOrigin(i - 1, size);
    } else {
      NextOrigin(0, size);
    }
  }

  /**
   A tile of the size the sheet was made for never reaches past the sheet's edge: four pixels before
   the first, between any two and after the last.
   */
  lemma {:induction false} TilesFit(i: nat, offset: nat, size: nat, count: nat)
    requires i < count && offset < size
    ensures Origin(i, size) + offset + GAP < Extent(count, size)
    ensures Origin(0, size) == 4 && Origin(i + 1, size) == Origin(i, size) + size + 4
    ensures Extent(count, size) == Origin(count - 1, size) + size + 4
  {
    assert Extent(count, size) == count * (size + GAP) + GAP;
    assert (i + 1) * (size + GAP) <= count * (size + GAP);
    NextOrigin(i, size);
  }

  /**
   Copy a tile pixel by pixel, skipping what would fall outside: inside its rectangle the sheet
   shows the tile, elsewhere what it showed before.
   */
  method CopyTile(sheet: array2<Rgb>, tile: Tile, ox: nat, oy: nat)
    modifies sheet
    ensures forall x, y :: 0 <= x < sheet.Length0 && 0 <= y < sheet.Length1 ==>
              sheet[x, y] == if ox <= x < ox + tile.width && oy <= y < oy + tile.height
                             then tile.at(x - ox, y - oy) else old(sheet[x, y])
  {
    for y := 0 to tile.height
      invariant forall u, v :: 0 <= u < sheet.Length0 && 0 <= v < sheet.Length1 ==>
                  sheet[u, v] == if ox <= u < ox + tile.width && oy <= v < oy + y
                                 then tile.at(u - ox, v - oy) else old(sheet[u, v])
    {
      for x := 0 to tile.width
        invariant forall u, v :: 0 <= u < sheet.Length0 && 0 <= v < sheet.Length1 ==>
                    sheet[u, v] == if (ox <= u < ox + tile.width && oy <= v < oy + y)
                                      || (ox <= u < ox + x && v == oy + y)
                                   then tile.at(u - ox, v - oy) else old(sheet[u, v])
      {
        if ox + x < sheet.Length0 && oy + y < sheet.Length1 {
          sheet[ox + x, oy + y] := tile.at(x, y);
        }
      }
    }
  }

  // The sheet's colour at a position once the tiles before (row, column) have been copied, whatever
  // their sizes: a later tile covers an earlier one, and what falls outside the sheet is lost.
  function Painted(tiles: seq<seq<Tile>>, width: nat, height: nat, draws: nat, x: nat, y: nat,
                   row: nat, column: nat): Rgb
    requires forall r :: 0 <= r < |tiles| ==> |tiles[r]| == draws
    requires row <= |tiles| && column <= draws && (column > 0 ==> row < |tiles|)
    decreases row, column
  {
    if column > 0 then
      var (tile, ox, oy) := (tiles[row][column - 1], Origin(column - 1, width), Origin(row, height));
      if ox <= x < ox + tile.width && oy <= y < oy + tile.height then tile.at(x - ox, y - oy)
      else Painted(tiles, width, height, draws, x, y, row, column - 1)
    else if row > 0 then Painted(tiles, width, height, draws, x, y, row - 1, draws)
    else MOUNT
  }

  // The same for tiles of the size asked for, told from the position alone.
  function Shown(tiles: seq<seq<Tile>>, width: nat, height: nat, draws: nat, x: nat, y: nat,
                 row: nat, column: nat): Rgb
    requires forall r :: 0 <= r < |tiles| ==> |tiles[r]| == draws
  {
    match (Slot(x, width, draws), Slot(y, height, |tiles|))
    case (Some((c, dx)), Some((r, dy))) =>
      if r < |tiles| && c < draws && (r < row || (r == row && c < column)) then tiles[r][c].at(dx, dy) else MOUNT
    case _ => MOUNT
  }

  // One more tile: the colours change inside its rectangle and nowhere else.
  lemma ShownOneMore(tiles: seq<seq<Tile>>, width: nat, height: nat, draws: nat, x: nat, y: nat,
                     row: nat, column: nat)
    requires forall r :: 0 <= r < |tiles| ==> |tiles[r]| == draws
    requires row < |tiles| && column < draws
    ensures var ox, oy := Origin(column, width), Origin(row, height);
            Shown(tiles, width, height, draws, x, y, row, column + 1)
            == if ox <= x < ox + width && oy <= y < oy + height then tiles[row][column].at(x - ox, y - oy)
               else Shown(tiles, width, height, draws, x, y, row, column)
  {
    hide Origin;
    InSlotIff(x, width, draws, column);
    InSlotIff(y, height, |tiles|, row);
  }

  lemma InSlotIff(p: nat, size: nat, count: nat, i: nat)
    requires i < count
    ensures var s := Slot(p, size, count);
            (s.Some? && s.value.0 == i <==> Origin(i, size) <= p < Origin(i, size) + size)
            && (s.Some? && s.value.0 == i ==> s.value.1 == p - Origin(i, size))
  {
    var s := Slot(p, size, count);
    if s.Some? {
      SlotIff(p, size, count, s.value.0, s.value.1);
    }
    if Origin(i, size) <= p {
      SlotIff(p, size, count, i, p - Origin(i, size));
    }
  }

  lemma RowDone(tiles: seq<seq<Tile>>, width: nat, height: nat, draws: nat, x: nat, y: nat, row: nat)
    requires forall r :: 0 <= r < |tiles| ==> |tiles[r]| == draws
    ensures Shown(tiles, width, height, draws, x, y, row, draws)
            == Shown(tiles, width, height, draws, x, y, row + 1, 0)
  {
  }

  /**
   The finished sheet, for tiles of any sizes: the last tile to cover a position shows there, and
   the mount where none does. `tiles` holds what was drawn for each level.
   */
  method Render(tiles: seq<seq<Tile>>, width: nat, height: nat, draws: nat) returns (sheet: array2<Rgb>)
    requires forall r :: 0 <= r < |tiles| ==> |tiles[r]| == draws
    ensures sheet.Length0 == Extent(draws, width) && sheet.Length1 == Extent(|tiles|, height)
    ensures forall x, y :: 0 <= x < sheet.Length0 && 0 <= y < sheet.Length1 ==>
              sheet[x, y] == Painted(tiles, width, height, draws, x, y, |tiles|, 0)
  {
    hide Origin;
    sheet := new Rgb[Extent(draws, width), Extent(|tiles|, height)]((_, _) => MOUNT);
    for row := 0 to |tiles|
      invariant forall x, y :: 0 <= x < sheet.Length0 && 0 <= y < sheet.Length1 ==>
                  sheet[x, y] == Painted(tiles, width, height, draws, x, y, row, 0)
    {
      for column := 0 to draws
        invariant forall x, y :: 0 <= x < sheet.Length0 && 0 <= y < sheet.Length1 ==>
                    sheet[x, y] == Painted(tiles, width, height, draws, x, y, row, column)
      {
        CopyTile(sheet, tiles[row][column], Origin(column, width), Origin(row, height));
      }
    }
  }

  ghost predicate AllOfSize(tiles: seq<seq<Tile>>, width: nat, height: nat, draws: nat)
    requires forall r :: 0 <= r < |tiles| ==> |tiles[r]| == draws
  {
    forall r, c :: 0 <= r < |tiles| && 0 <= c < draws ==>
      tiles[r][c].width == width && tiles[r][c].height == height
  }

  /** When every tile has the size asked for, each position shows the one tile it belongs to. */
  lemma {:induction false} PaintedAsShown(tiles: seq<seq<Tile>>, width: nat, height: nat, draws: nat, x: nat, y: nat,
                                          row: nat, column: nat)
    requires forall r :: 0 <= r < |tiles| ==> |tiles[r]| == draws
    requires row <= |tiles| && column <= draws && (column > 0 ==> row < |tiles|)
    requires AllOfSize(tiles, width, height, draws)
    ensures Painted(tiles, width, height, draws, x, y, row, column)
            == Shown(tiles, width, height, draws, x, y, row, column)
    decreases row, column
  {
    hide Shown, Origin;
    if column > 0 {
      PaintedAsShown(tiles, width, height, draws, x, y, row, column - 1);
      ShownOneMore(tiles, width, height, draws, x, y, row, column - 1);
    } else if row > 0 {
      PaintedAsShown(tiles, width, height, draws, x, y, row - 1, draws);
      RowDone(tiles, width, height, draws, x, y, row - 1);
    } else {
      NothingShown(tiles, width, height, draws, x, y);
    }
  }

  lemma NothingShown(tiles: seq<seq<Tile>>, width: nat, height: nat, draws: nat, x: nat, y: nat)
    requires forall r :: 0 <= r < |tiles| ==> |tiles[r]| == draws
    ensures Shown(tiles, width, height, draws, x, y, 0, 0) == MOUNT
  {
  }

  /**
   What the finished sheet shows when every tile has the size asked for: at each tile's place its
   own pixel, and the mount's colour at every position no tile covers.
   */
  lemma SheetShows(tiles: seq<seq<Tile>>, width: nat, height: nat, draws: nat, x: nat, y: nat)
    requires forall r :: 0 <= r < |tiles| ==> |tiles[r]| == draws
    requires AllOfSize(tiles, width, height, draws)
    ensures var colour := Painted(tiles, width, height, draws, x, y, |tiles|, 0);
            && (forall r: nat, c: nat, dx: nat, dy: nat ::
                  r < |tiles| && c < draws && Covers(width, height, r, c, dx, dy, x, y) ==>
                    colour == tiles[r][c].at(dx, dy))
            && ((forall r: nat, c: nat, dx: nat, dy: nat ::
                   r < |tiles| && c < draws ==> !Covers(width, height, r, c, dx, dy, x, y)) ==>
                  colour == Rgb(70, 70, 78))
  {
    hide Origin, Painted;
    PaintedAsShown(tiles, width, height, draws, x, y, |tiles|, 0);
    var s, t := Slot(x, width, draws), Slot(y, height, |tiles|);
    if s.Some? && t.Some? {
      SlotIff(x, width, draws, s.value.0, s.value.1);
      SlotIff(y, height, |tiles|, t.value.0, t.value.1);
      assert Covers(width, height, t.value.0, s.value.0, s.value.1, t.value.1, x, y);
    }
    forall r: nat, c: nat, dx: nat, dy: nat | r < |tiles| && c < draws && Covers(width, height, r, c, dx, dy, x, y)
      ensures Painted(tiles, width, height, draws, x, y, |tiles|, 0) == tiles[r][c].at(dx, dy)
    {
      SlotIff(x, width, draws, c, dx);
      SlotIff(y, height, |tiles|, r, dy);
    }
  }

  // Pixel (dx, dy) of the tile at row `r`, column `c` belongs at (x, y).
  ghost predicate Covers(width: nat, height: nat, r: nat, c: nat, dx: nat, dy: nat, x: nat, y: nat) {
    dx < width && dy < height && x == Origin(c, width) + dx && y == Origin(r, height) + dy
  }
}
