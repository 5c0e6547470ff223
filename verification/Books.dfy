/** One public order book with its archive position and continuity marks. */
module Books {
  import opened Envelopes
  import opened VisibleDepth

  datatype Book = Book(
    captureId: string, connectionId: string, ordinal: int, market: string, monotonicNs: int, wallNs: Option<int>,
    asks: seq<Level>, bids: seq<Level>,
    gap: Option<string>,        // the archive's gap reason when a gap precedes this book
    regression: bool)           // the archive's monotonic-regression mark

  ghost predicate ValidBook(b: Book) {
    && b.asks != [] && b.bids != []
    && ValidLevels(Buy, b.asks) && ValidLevels(Sell, b.bids)
    && b.bids[0].price < b.asks[0].price
    && b.ordinal >= 1 && b.monotonicNs >= 0
  }

  /** The side of the book a taker order trades against. */
  function LevelsFor(b: Book, side: Side): seq<Level> {
    if side.Buy? then b.asks else b.bids
  }
}
