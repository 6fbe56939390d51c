/** First in, first out. */
module Queues {

  /** If those who have gone and those still there are, in order, those who
      came, this stays so when some leave at the front and some join at the
      end. */
  lemma Shift<T>(gone: seq<T>, q: seq<T>, came: seq<T>, leaves: seq<T>, q': seq<T>, joins: seq<T>)
    requires gone + q == came && leaves + q' == q + joins
    ensures (gone + leaves) + q' == came + joins
  {
    assert (gone + leaves) + q' == gone + (leaves + q');
    assert gone + (q + joins) == (gone + q) + joins;
  }
}
