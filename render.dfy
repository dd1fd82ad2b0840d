/**
 * The stamp placement of `renderStampCard` (index.js:309-338): the template is
 * drawn first, then one stamp glyph per filled slot, in slot order. The image
 * is modelled as the template name plus the list of stamp rectangles drawn on
 * it; decoding, compositing and PNG encoding are not modelled.
 */
module Render {
  import opened Wrappers
  import opened Cards

  /** One stamp drawn: its top-left corner and its size. Corners are real
      because `w / 2` is a half pixel for odd sizes (135 / 2 = 67.5). */
  datatype Rect = Rect(x: real, y: real, w: int, h: int)

  /** What `canvas.toBuffer` encodes: the template and the stamps drawn over it. */
  datatype CardImage = CardImage(template: string, stamps: seq<Rect>)

  datatype RenderError = UnknownCardId(id: CardId)

  /** The mutable canvas: a background template and the stamps drawn on it so far. */
  class Canvas {
    const background: string
    var layers: seq<Rect>

    constructor (template: string)
      ensures background == template && layers == []
    {
      background := template;
      layers := [];
    }

    /** `ctx.drawImage(stamp, x, y, w, h)`: one more stamp on top. */
    method DrawStamp(r: Rect)
      modifies this
      ensures layers == old(layers) + [r]
    {
      layers := layers + [r];
    }

    /** `canvas.toBuffer("image/png")`, abstracted to what was drawn. */
    function Snapshot(): (img: CardImage)
      reads this
      ensures img.template == background && img.stamps == layers
    {
      CardImage(background, layers)
    }
  }

  /** The rectangle of a stamp in slot `s`: centred on the slot, moved by the nudge. */
  function StampRect(s: Slot, st: Style): (r: Rect)
    ensures r.w == st.w && r.h == st.h
    ensures r.x + (r.w as real) / 2.0 == (s.cx + st.dx) as real
    ensures r.y + (r.h as real) / 2.0 == (s.cy + st.dy) as real
  {
    Rect(s.cx as real - (st.w as real) / 2.0 + st.dx as real,
         s.cy as real - (st.h as real) / 2.0 + st.dy as real,
         st.w, st.h)
  }

  /** `Math.min(stampCount, positions.length)`; the loop draws nothing when it is negative. */
  function Filled(stampCount: int, slots: nat): (n: nat)
    ensures n <= slots && n <= if stampCount < 0 then 0 else stampCount
    ensures n == slots || n == stampCount || (stampCount < 0 && n == 0)
  {
    if stampCount <= 0 then 0 else if stampCount < slots then stampCount else slots
  }

  /** The stamps a card with `stampCount` stamps shows: the first Filled slots, in order. */
  function Placement(id: CardId, stampCount: int): seq<Rect> {
    var positions := PositionsFor(id);
    var style := StyleFor(id);
    seq(Filled(stampCount, |positions|), i requires 0 <= i < Filled(stampCount, |positions|) =>
      StampRect(positions[i], style))
  }

  /** The image `renderStampCard` encodes for a known card. */
  function Rendered(id: CardId, stampCount: int): CardImage
    requires IsCard(id)
  {
    CardImage(StampCards[id].template, Placement(id, stampCount))
  }

  /**
   * `renderStampCard`: throws on an unknown card id; otherwise draws the
   * template and then stamp i at slot i for every i below the filled count.
   */
  method RenderStampCard(id: CardId, stampCount: int) returns (r: Result<CardImage, RenderError>)
    ensures !IsCard(id) ==> r == Err(UnknownCardId(id))
    ensures IsCard(id) ==> r.Ok? && r.value.template == StampCards[id].template
    ensures IsCard(id) ==> r.value.stamps == Placement(id, stampCount)
  {
    if id !in StampCards {
      return Err(UnknownCardId(id));
    }
    var card := StampCards[id];
    var canvas := new Canvas(card.template);
    var positions := PositionsFor(id);
    var style := StyleFor(id);
    var filled := if stampCount < |positions| then stampCount else |positions|;
    var i := 0;
    while i < filled
      invariant 0 <= i <= Filled(stampCount, |positions|)
      invariant canvas.background == card.template
      invariant canvas.layers == Placement(id, i)
    {
      var slot := positions[i];
      canvas.DrawStamp(StampRect(slot, style));
      PlacementExtends(id, i);
      i := i + 1;
    }
    assert i == Filled(stampCount, |positions|);
    return Ok(canvas.Snapshot());
  }

  /** Drawing one more stamp appends the rectangle of the next slot. */
  lemma PlacementExtends(id: CardId, n: nat)
    requires n < |PositionsFor(id)|
    ensures Placement(id, n + 1) == Placement(id, n) + [StampRect(PositionsFor(id)[n], StyleFor(id))]
  {
    var a, b := Placement(id, n + 1), Placement(id, n) + [StampRect(PositionsFor(id)[n], StyleFor(id))];
    assert |a| == |b|;
    forall i | 0 <= i < |a| ensures a[i] == b[i] { }
  }

  /** Exactly min(count, slots) stamps are drawn, none for a count of zero or less. */
  lemma PlacementCount(id: CardId, stampCount: int)
    ensures stampCount <= 0 ==> Placement(id, stampCount) == []
    ensures 0 <= stampCount <= |PositionsFor(id)| ==> |Placement(id, stampCount)| == stampCount
    ensures stampCount >= |PositionsFor(id)| ==> |Placement(id, stampCount)| == |PositionsFor(id)|
  {
  }

  /** Stamp i sits on slot i, sized and nudged by the card's style. */
  lemma PlacementAt(id: CardId, stampCount: int, i: nat)
    requires i < |Placement(id, stampCount)|
    ensures i < stampCount && i < |PositionsFor(id)|
    ensures Placement(id, stampCount)[i] == StampRect(PositionsFor(id)[i], StyleFor(id))
  {
  }

  /**
   * Slots fill in one fixed order: the stamps of a smaller count are a prefix
   * of the stamps of a larger one, and counts past the last slot change nothing.
   */
  lemma PlacementMonotone(id: CardId, c1: int, c2: int)
    requires c1 <= c2
    ensures Placement(id, c1) <= Placement(id, c2)
    ensures c1 >= |PositionsFor(id)| ==> Placement(id, c1) == Placement(id, c2)
  {
    var p1, p2 := Placement(id, c1), Placement(id, c2);
    assert |p1| <= |p2|;
    assert p1 == p2[..|p1|] by {
      forall i | 0 <= i < |p1| ensures p1[i] == p2[i] {
        PlacementAt(id, c1, i);
        PlacementAt(id, c2, i);
      }
    }
  }

  /** Rendering a card depends on the count only through the number of filled slots. */
  lemma RenderDeterministic(id: CardId, c: int, c': int)
    requires IsCard(id)
    requires Filled(c, |PositionsFor(id)|) == Filled(c', |PositionsFor(id)|)
    ensures Rendered(id, c) == Rendered(id, c')
  {
  }

  /** A count past the goal (11 stamps on a ten-slot card) fills all ten slots and no more. */
  lemma ElevenFillsTen(id: CardId)
    requires IsCard(id)
    ensures |Rendered(id, 11).stamps| == 10
    ensures Rendered(id, 11) == Rendered(id, 10)
  {
    TablesCoverCatalogue(id);
    PlacementMonotone(id, 10, 11);
  }

  /** The pink card with five stamps: glyphs of 128 px centred on slots 0 to 4, none elsewhere. */
  lemma PinkFive()
    ensures Rendered("pink", 5).template == "TBP Pink Stamp Card.png"
    ensures Rendered("pink", 5).stamps == [
      Rect(64.0, 156.0, 128, 128), Rect(209.0, 156.0, 128, 128), Rect(374.0, 156.0, 128, 128),
      Rect(539.0, 156.0, 128, 128), Rect(701.0, 156.0, 128, 128)]
  {
  }

  /** The tbp card's 135 px glyph lands on half pixels. */
  lemma TbpHalfPixel()
    ensures Rendered("tbp", 1).stamps == [Rect(97.5, 146.5, 135, 135)]
  {
  }
}
