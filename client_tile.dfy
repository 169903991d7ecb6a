/** One reel tile on the client: which symbol images it paints on its
    texture, in which order and where, and which animation it runs with
    which delay. Meshes, materials and the canvas transform are rendering
    and are not modelled; the texture is the list of draw commands issued
    since it was last cleared. */
module ClientTile {
  import opened SharedUtils

  /** Number of slot images (`Object.keys(this.tileImages).length`). */
  const SLOT_COUNT: int := 6

  /** Where an image is drawn on the texture. */
  datatype TileTransform = TileTransform(posX: int, posY: int, width: int, height: int, margin: int)

  /** `tileCenterPosition`: where the centre image goes. */
  const TILE_CENTER_POSITION: TileTransform := TileTransform(-160, 350, 300, 70, 170)

  datatype Animation = StandByAnimation | WheelAnimation

  /** One `drawTileToCanvas` call: image `slot<slot>` drawn at `transform`. */
  datatype TileDraw = TileDraw(slot: int, transform: TileTransform)

  /** Tile types a tile can be drawn for: any missing cell (`null`) and
      every code from -1 up. For a code below -1 the centre image index is
      negative, so the first draw is given no image and throws; were it to
      carry on, the strip walk would never return to that index. */
  predicate ValidType(t: Cell)
  {
    t.Missing? || t.code >= -1
  }

  /** The slot image drawn in the centre: the one after the tile's type,
      wrapping to 0 past the last slot. A missing cell arrives as `null`,
      and `null + 1` is 1. */
  function NextTileImageIndex(t: Cell): (next: int)
    ensures ValidType(t) ==> 0 <= next < SLOT_COUNT
    ensures t.Symbol? && t.code >= SLOT_COUNT - 1 ==> next == 0
    ensures t.Symbol? && -1 <= t.code < SLOT_COUNT - 1 ==> next == t.code + 1
    ensures t.Missing? ==> next == 1
  {
    var n := if t.Symbol? then t.code + 1 else 1;
    if n <= SLOT_COUNT - 1 then n else 0
  }

  /** The two highest symbol codes (5 and 6) get the same centre image. */
  lemma LastTwoSymbolsShareCentre()
    ensures NextTileImageIndex(Symbol(TILE_EEVEE)) == NextTileImageIndex(Symbol(TILE_BALL)) == 0
  {
  }

  /** The slot drawn k places behind `next`: one step down per place,
      wrapping from 0 to the last slot. */
  function BackSlot(next: int, k: int): int
  {
    (next - k) % SLOT_COUNT
  }

  /** Where the k-th image behind the centre goes: k margins above it, same
      x, size and margin. */
  function BackTransform(centre: TileTransform, k: int): TileTransform
  {
    centre.(posY := centre.posY - centre.margin * k)
  }

  /** The complete texture for a centre slot: the centre image first, then
      the other SLOT_COUNT - 1 images walking back from it. */
  function StripDraws(next: int, centre: TileTransform): (draws: seq<TileDraw>)
    ensures |draws| == SLOT_COUNT && draws[0] == TileDraw(next, centre)
    ensures forall k :: 1 <= k < SLOT_COUNT ==>
              draws[k] == TileDraw(BackSlot(next, k), BackTransform(centre, k))
  {
    [TileDraw(next, centre)]
      + seq(SLOT_COUNT - 1, j requires 0 <= j < SLOT_COUNT - 1 =>
              TileDraw(BackSlot(next, j + 1), BackTransform(centre, j + 1)))
  }

  /** Walking back k places from a slot returns to it only after a full turn. */
  lemma BackSlotReturns(next: int, k: int)
    requires 0 <= next < SLOT_COUNT && 1 <= k <= SLOT_COUNT
    ensures 0 <= BackSlot(next, k) < SLOT_COUNT
    ensures BackSlot(next, k) == next <==> k == SLOT_COUNT
    ensures BackSlot(next, k) == if next - k >= 0 then next - k else next - k + SLOT_COUNT
  {
  }

  /** Where slot s stands in the strip centred on `next`: as many places
      behind the centre as it is below it, cyclically. */
  function PositionOf(next: int, s: int): int
  {
    (next - s) % SLOT_COUNT
  }

  /** The strip shows every slot exactly once: the centre is `next`, the
      five images behind it are the other slots, pairwise different, slot s
      at PositionOf(next, s), the k-th image k margins above the centre. */
  lemma StripIsPermutation(next: int, centre: TileTransform)
    requires 0 <= next < SLOT_COUNT
    ensures var draws := StripDraws(next, centre);
            && (forall k :: 1 <= k < SLOT_COUNT ==> 0 <= draws[k].slot < SLOT_COUNT && draws[k].slot != next)
            && (forall i, j :: 0 <= i < j < SLOT_COUNT ==> draws[i].slot != draws[j].slot)
            && (forall s :: 0 <= s < SLOT_COUNT ==> 0 <= PositionOf(next, s) < SLOT_COUNT && draws[PositionOf(next, s)].slot == s)
            && (forall k :: 0 <= k < SLOT_COUNT ==> draws[k].transform.posY == centre.posY - centre.margin * k)
  {
    var draws := StripDraws(next, centre);
    forall k | 0 <= k < SLOT_COUNT
      ensures draws[k].slot == if next - k >= 0 then next - k else next - k + SLOT_COUNT
    {
      if k > 0 {
        BackSlotReturns(next, k);
      }
    }
    forall s | 0 <= s < SLOT_COUNT
      ensures PositionOf(next, s) == if next - s >= 0 then next - s else next - s + SLOT_COUNT
    {
      BackSlotReturns(s, if next - s >= 0 then SLOT_COUNT else next - s + SLOT_COUNT);
    }
  }

  /** One step of the strip walk: at k = 0 the walk starts one slot back
      from the centre; for 1 <= k < SLOT_COUNT the slot k places back is not
      the centre, the draw made there extends the first k draws of the
      strip, and the next slot is one further back (wrapping to the last
      slot); at k = SLOT_COUNT the walk is back at the centre and the
      strip is complete. */
  lemma StripStep(next: int, centre: TileTransform, k: int)
    requires 0 <= next < SLOT_COUNT && 0 <= k <= SLOT_COUNT
    ensures k == 0 ==> StripDraws(next, centre)[..1] == [TileDraw(next, centre)]
    ensures 1 <= k < SLOT_COUNT ==>
              var i := if next - k >= 0 then next - k else next - k + SLOT_COUNT;
              && i != next
              && StripDraws(next, centre)[..k + 1]
                 == StripDraws(next, centre)[..k] + [TileDraw(i, BackTransform(centre, k))]
    ensures k == SLOT_COUNT ==> StripDraws(next, centre)[..k] == StripDraws(next, centre)
    ensures k == SLOT_COUNT ==> (if next - k >= 0 then next - k else next - k + SLOT_COUNT) == next
  {
    var strip := StripDraws(next, centre);
    if k == 0 {
      BackSlotReturns(next, 1);
    } else if k < SLOT_COUNT {
      BackSlotReturns(next, k);
      BackSlotReturns(next, k + 1);
      assert strip[..k + 1] == strip[..k] + [strip[k]];
    } else {
      BackSlotReturns(next, k);
    }
  }

  class Tile {
    const tileType: Cell
    const row: nat
    const column: nat
    const standBy: bool
    const tileCenterPosition: TileTransform
    const currentAnimation: Animation
    const currentAnimationDelay: int
    const currentAnimationLength: int
    /** Draw commands on the texture since it was last cleared. */
    var canvas: seq<TileDraw>
    /** The mesh has been disposed by `destroy`. */
    var disposed: bool

    /** A tile of the given type at (row, column); a stand-by tile runs the
        long stand-by animation after 200 ms, a rolling tile the short
        wheel animation after 200 ms per column. The texture is painted. */
    constructor (tileType: Cell, row: nat, column: nat, standBy: bool)
      requires ValidType(tileType)
      ensures this.tileType == tileType && this.row == row && this.column == column && this.standBy == standBy
      ensures tileCenterPosition == TILE_CENTER_POSITION
      ensures currentAnimation == StandByAnimation <==> standBy
      ensures currentAnimationDelay == if standBy then 200 else column * 200
      ensures currentAnimationLength == if standBy then 180 else 90
      ensures canvas == StripDraws(NextTileImageIndex(tileType), TILE_CENTER_POSITION)
      ensures !disposed
    {
      this.tileType := tileType;
      this.row := row;
      this.column := column;
      this.standBy := standBy;
      tileCenterPosition := TILE_CENTER_POSITION;
      currentAnimation := if standBy then StandByAnimation else WheelAnimation;
      currentAnimationDelay := if standBy then 200 else column * 200;
      currentAnimationLength := if standBy then 180 else 90;
      canvas := [];
      disposed := false;
      new;
      DrawAllTilesToCanvas();
    }

    /** Paint the strip: clear, draw the centre image, then walk back one
        slot at a time until the walk is back at the centre slot. */
    method DrawAllTilesToCanvas()
      requires ValidType(tileType)
      modifies this`canvas
      ensures canvas == StripDraws(NextTileImageIndex(tileType), tileCenterPosition)
    {
      ClearCanvas();
      var next := NextTileImageIndex(tileType);
      var centre := tileCenterPosition;
      ghost var strip := StripDraws(next, centre);
      DrawTileToCanvas(next, centre);
      var i := if next - 1 >= 0 then next - 1 else SLOT_COUNT - 1;
      var countMultiplier := 1;
      StripStep(next, centre, 0);
      while i != next
        invariant 1 <= countMultiplier <= SLOT_COUNT
        invariant i == if next - countMultiplier >= 0 then next - countMultiplier else next - countMultiplier + SLOT_COUNT
        invariant canvas == strip[..countMultiplier]
        decreases SLOT_COUNT - countMultiplier
      {
        StripStep(next, centre, countMultiplier);
        var transform := TileTransform(
          centre.posX,
          centre.posY - centre.margin * countMultiplier,
          centre.width,
          centre.height,
          centre.margin);
        assert transform == BackTransform(centre, countMultiplier);
        DrawTileToCanvas(i, transform);
        i := if i - 1 >= 0 then i - 1 else SLOT_COUNT - 1;
        countMultiplier := countMultiplier + 1;
      }
      StripStep(next, centre, countMultiplier);
    }

    /** Wipe the texture. */
    method ClearCanvas()
      modifies this`canvas
      ensures canvas == []
    {
      canvas := [];
    }

    /** Draw image `slot<slot>` at the given place. */
    method DrawTileToCanvas(slot: int, transform: TileTransform)
      modifies this`canvas
      ensures canvas == old(canvas) + [TileDraw(slot, transform)]
    {
      canvas := canvas + [TileDraw(slot, transform)];
    }

    /** Dispose of the mesh. */
    method Destroy()
      modifies this`disposed
      ensures disposed
    {
      disposed := true;
    }
  }
}
