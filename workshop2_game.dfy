/** Workshop2 game.py: standard and high-definition games with their
    reviews. A game's attributes are fixed at construction except the
    list of reviews, which add_review extends in place. */
module Workshop2Game {
  import opened Basics

  datatype GameKind = Standard | HighDefinition

  /** The factor HighDefinitionGame applies to the price it is given. */
  const HighDefinitionMarkup: real := 1.10

  /** The price a new game stores for the price supplied to its constructor. */
  function StoredPrice(kind: GameKind, supplied: real): (r: real)
    ensures kind == Standard ==> r == supplied
    ensures kind == HighDefinition ==> r - supplied == supplied / 10.0
  {
    match kind
    case Standard => supplied
    case HighDefinition => supplied * 1.10
  }

  /** The dictionary to_dict returns, one field per key, in the key order of the source. */
  datatype GameRecord = GameRecord(
    gameId: string, title: string, category: string, price: real,
    storytellingCreator: string, graphicsCreator: string, year: int,
    reviews: seq<Review>)

  class Game {
    const kind: GameKind
    const gameId: string
    const title: string
    const category: string
    const price: real
    const storytellingCreator: string
    const graphicsCreator: string
    const year: int
    var reviews: seq<Review>

    /** StandardGame(...): every argument stored as given, no reviews. */
    constructor StandardGame(gameId: string, title: string, category: string, price: real,
                             storytellingCreator: string, graphicsCreator: string, year: int)
      ensures kind == Standard && this.price == price
      ensures this.gameId == gameId && this.title == title && this.category == category
      ensures this.storytellingCreator == storytellingCreator && this.graphicsCreator == graphicsCreator
      ensures this.year == year && reviews == []
    {
      this.kind := Standard;
      this.gameId, this.title, this.category := gameId, title, category;
      this.price := StoredPrice(Standard, price);
      this.storytellingCreator, this.graphicsCreator, this.year := storytellingCreator, graphicsCreator, year;
      this.reviews := [];
    }

    /** HighDefinitionGame(...): the price stored is 10% above the one
        supplied; every other argument stored as given, no reviews. */
    constructor HighDefinitionGame(gameId: string, title: string, category: string, price: real,
                                   storytellingCreator: string, graphicsCreator: string, year: int)
      ensures kind == HighDefinition && this.price == price * HighDefinitionMarkup
      ensures this.gameId == gameId && this.title == title && this.category == category
      ensures this.storytellingCreator == storytellingCreator && this.graphicsCreator == graphicsCreator
      ensures this.year == year && reviews == []
    {
      this.kind := HighDefinition;
      this.gameId, this.title, this.category := gameId, title, category;
      this.price := StoredPrice(HighDefinition, price);
      this.storytellingCreator, this.graphicsCreator, this.year := storytellingCreator, graphicsCreator, year;
      this.reviews := [];
    }

    /** add_review: one review at the end; no check that the user exists. */
    method AddReview(userId: string, review: string)
      modifies this
      ensures reviews == old(reviews) + [Review(userId, review)]
    {
      reviews := reviews + [Review(userId, review)];
    }

    /** to_dict: the same eight keys for both kinds, holding the stored
        values; for a high-definition game the price is the marked-up one. */
    function ToDict(): (r: GameRecord)
      reads this
      ensures r.gameId == gameId && r.title == title && r.category == category
      ensures r.price == price && r.year == year && r.reviews == reviews
      ensures r.storytellingCreator == storytellingCreator && r.graphicsCreator == graphicsCreator
    {
      GameRecord(gameId, title, category, price, storytellingCreator, graphicsCreator, year, reviews)
    }
  }

  /** A high-definition game given 50 stores 55; a standard one keeps what it is given. */
  lemma HighDefinitionPriceExample()
    ensures StoredPrice(HighDefinition, 50.0) == 55.0
    ensures StoredPrice(Standard, 20.0) == 20.0
  {
  }
}
