/**
 * The card catalogue: the six card designs, the ordered stamp slots of each
 * template and the size and nudge of the stamp glyph drawn on it
 * (index.js, STAMP_CARDS, POSITIONS_BY_CARD, STAMP_STYLE_BY_CARD).
 * All three tables are constants keyed by the card id string, as in the
 * source; a card id read back from the store may be any string.
 */
module Cards {

  type CardId = string

  /** One entry of STAMP_CARDS: display name and template file name. */
  datatype Card = Card(name: string, template: string)

  /** The centre of one stamp slot on a template, in pixels. */
  datatype Slot = Slot(cx: int, cy: int)

  /** Glyph width and height and the nudge added to each stamp's corner. */
  datatype Style = Style(w: int, h: int, dx: int, dy: int)

  /** The card used when a member has never chosen one. */
  const DefaultCardId: CardId := "og"

  /** The style used when a card has no entry in the style table. */
  const DefaultStyle: Style := Style(90, 90, 0, 0)

  const StampCards: map<CardId, Card> := map[
    "og" := Card("TBP OG", "TBP OG Stamp Card.png"),
    "pink" := Card("TBP Pink", "TBP Pink Stamp Card.png"),
    "black" := Card("TBP Black", "TBP Black Stamp Card.png"),
    "beige" := Card("TBP Beige", "TBP Beige Stamp Card.png"),
    "marbled" := Card("TBP Marbled", "TBP Marbled Stamp Card.png"),
    "tbp" := Card("TBP Stamp Card", "TBP Stamp Card.png")
  ]

  /** Ten slots laid out as two rows of five, given by the two rows' x and y values. */
  function TwoRows(xs1: seq<int>, y1: int, xs2: seq<int>, y2: int): (r: seq<Slot>)
    requires |xs1| == 5 && |xs2| == 5
    ensures |r| == 10
    ensures forall i :: 0 <= i < 5 ==> r[i] == Slot(xs1[i], y1) && r[i + 5] == Slot(xs2[i], y2)
  {
    seq(5, i requires 0 <= i < 5 => Slot(xs1[i], y1)) + seq(5, i requires 0 <= i < 5 => Slot(xs2[i], y2))
  }

  const PositionsByCard: map<CardId, seq<Slot>> := map[
    "og" := TwoRows([240, 345, 450, 555, 660], 210, [240, 345, 450, 555, 660], 314),
    "pink" := TwoRows([128, 273, 438, 603, 765], 220, [128, 273, 438, 603, 765], 355),
    "black" := TwoRows([125, 285, 447, 608, 770], 220, [125, 285, 447, 608, 770], 355),
    "beige" := TwoRows([124, 273, 443, 613, 777], 230, [124, 273, 443, 613, 777], 372),
    "marbled" := TwoRows([131, 286, 447, 607, 767], 226, [132, 288, 447, 607, 767], 365),
    "tbp" := TwoRows([165, 305, 447, 587, 729], 214, [165, 305, 447, 587, 729], 363)
  ]

  const StyleByCard: map<CardId, Style> := map[
    "og" := Style(90, 90, 0, 0),
    "pink" := Style(128, 128, 0, 0),
    "black" := Style(130, 130, 0, 0),
    "beige" := Style(130, 130, 0, 0),
    "marbled" := Style(130, 130, 0, 0),
    "tbp" := Style(135, 135, 0, 0)
  ]

  /** `STAMP_CARDS[cardId]` is truthy: the id names a card of the catalogue. */
  predicate IsCard(id: CardId) {
    id in StampCards
  }

  /** `STAMP_CARDS[id]?.name || "Unknown Card"`, as the leaderboard prints it. */
  function CardNameOr(id: CardId): (r: string)
    ensures IsCard(id) ==> r == StampCards[id].name
    ensures !IsCard(id) ==> r == "Unknown Card"
  {
    if id in StampCards then StampCards[id].name else "Unknown Card"
  }

  /** `POSITIONS_BY_CARD[id] || POSITIONS_BY_CARD.og`. */
  function PositionsFor(id: CardId): (r: seq<Slot>)
    ensures id in PositionsByCard ==> r == PositionsByCard[id]
    ensures id !in PositionsByCard ==> r == PositionsByCard[DefaultCardId]
  {
    if id in PositionsByCard then PositionsByCard[id] else PositionsByCard[DefaultCardId]
  }

  /** `STAMP_STYLE_BY_CARD[id] || { w: 90, h: 90, dx: 0, dy: 0 }`. */
  function StyleFor(id: CardId): (r: Style)
    ensures id in StyleByCard ==> r == StyleByCard[id]
    ensures id !in StyleByCard ==> r == DefaultStyle
  {
    if id in StyleByCard then StyleByCard[id] else DefaultStyle
  }

  /** The catalogue's cards are exactly the six designs, and the empty id is none of them. */
  lemma CatalogueIds()
    ensures StampCards.Keys == {"og", "pink", "black", "beige", "marbled", "tbp"}
    ensures IsCard(DefaultCardId) && !IsCard("")
  {
  }

  /**
   * Every card of the catalogue has its own entry in both tables, so neither
   * fallback is ever taken for a card id that passed the catalogue check, and
   * every card has ten slots (the default goal).
   */
  lemma TablesCoverCatalogue(id: CardId)
    requires IsCard(id)
    ensures id in PositionsByCard && id in StyleByCard
    ensures |PositionsFor(id)| == 10
  {
  }

  /** Every glyph is a positive square with no nudge. */
  lemma StylesAreSquare(id: CardId)
    ensures StyleFor(id).w == StyleFor(id).h > 0
    ensures StyleFor(id).dx == 0 && StyleFor(id).dy == 0
  {
  }
}
