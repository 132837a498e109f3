/** Playing cards: the four suits, the thirteen ranks in their declared order,
    a card as a (suit, rank) pair, and the ten hand categories with their scores. */
module Cards {

  datatype Suit = Spades | Hearts | Diamonds | Clubs

  /** Declared from lowest to highest; the declaration order is the order used
      for straights, and the Ace only ever counts high. */
  datatype Rank = Two | Three | Four | Five | Six | Seven | Eight | Nine | Ten
                | Jack | Queen | King | Ace

  datatype Card = Card(suit: Suit, rank: Rank)

  /** Hand categories, weakest first. */
  datatype HandRank = HighCard | OnePair | TwoPair | ThreeOfAKind | Straight
                    | Flush | FullHouse | FourOfAKind | StraightFlush | RoyalFlush
  {
    /** The category's fixed score: its position in the declaration order plus one. */
    function Score(): (s: int)
      ensures s == HandRankOrdinal(this) + 1
      ensures 1 <= s <= 10
    {
      match this
      case HighCard => 1
      case OnePair => 2
      case TwoPair => 3
      case ThreeOfAKind => 4
      case Straight => 5
      case Flush => 6
      case FullHouse => 7
      case FourOfAKind => 8
      case StraightFlush => 9
      case RoyalFlush => 10
    }
  }

  /** Position of a suit in the declaration order (what Suit.values() lists). */
  function SuitOrdinal(s: Suit): (i: nat)
    ensures i < 4
  {
    match s
    case Spades => 0
    case Hearts => 1
    case Diamonds => 2
    case Clubs => 3
  }

  function SuitAt(i: nat): (s: Suit)
    requires i < 4
    ensures SuitOrdinal(s) == i
  {
    if i == 0 then Spades else if i == 1 then Hearts else if i == 2 then Diamonds else Clubs
  }

  /** Position of a rank in the declaration order Two..Ace. */
  function RankOrdinal(r: Rank): (i: nat)
    ensures i < 13
  {
    match r
    case Two => 0
    case Three => 1
    case Four => 2
    case Five => 3
    case Six => 4
    case Seven => 5
    case Eight => 6
    case Nine => 7
    case Ten => 8
    case Jack => 9
    case Queen => 10
    case King => 11
    case Ace => 12
  }

  /** The rank at position i of Rank.values(). */
  function RankAt(i: nat): (r: Rank)
    requires i < 13
    ensures RankOrdinal(r) == i
  {
    if i == 0 then Two else if i == 1 then Three else if i == 2 then Four
    else if i == 3 then Five else if i == 4 then Six else if i == 5 then Seven
    else if i == 6 then Eight else if i == 7 then Nine else if i == 8 then Ten
    else if i == 9 then Jack else if i == 10 then Queen else if i == 11 then King
    else Ace
  }

  function HandRankOrdinal(h: HandRank): (i: nat)
    ensures i < 10
  {
    match h
    case HighCard => 0
    case OnePair => 1
    case TwoPair => 2
    case ThreeOfAKind => 3
    case Straight => 4
    case Flush => 5
    case FullHouse => 6
    case FourOfAKind => 7
    case StraightFlush => 8
    case RoyalFlush => 9
  }

  /** The ordinals are a bijection onto 0..3 and 0..12 respectively. */
  lemma OrdinalsInvert(s: Suit, r: Rank)
    ensures SuitAt(SuitOrdinal(s)) == s
    ensures RankAt(RankOrdinal(r)) == r
  {
  }

  /** A stronger category always carries a strictly larger score, and two
      categories with the same score are the same category. */
  lemma ScoreOrdersCategories(h1: HandRank, h2: HandRank)
    ensures HandRankOrdinal(h1) < HandRankOrdinal(h2) <==> h1.Score() < h2.Score()
    ensures h1.Score() == h2.Score() ==> h1 == h2
  {
  }

  /** Position of a card in a freshly generated deck: suit-major, then rank. */
  function CardIndex(c: Card): (i: nat)
    ensures i < 52
  {
    13 * SuitOrdinal(c.suit) + RankOrdinal(c.rank)
  }

  /** The card at position i of a freshly generated deck. */
  function CardAt(i: nat): (c: Card)
    requires i < 52
    ensures CardIndex(c) == i
  {
    Card(SuitAt(i / 13), RankAt(i % 13))
  }

  /** CardIndex is one-to-one, so a deck laid out by it holds each card once. */
  lemma CardIndexInjective(c1: Card, c2: Card)
    requires CardIndex(c1) == CardIndex(c2)
    ensures c1 == c2
  {
    OrdinalsInvert(c1.suit, c1.rank);
    OrdinalsInvert(c2.suit, c2.rank);
  }
}
