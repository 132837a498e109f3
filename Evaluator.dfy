/** The hand classifier: rank and suit counting, the straight scan over the
    declared rank order, the pair count, and the fixed priority chain from
    royal flush down to high card. */
module HandEvaluator {
  import opened Cards

  // ---------------------------------------------------------------------
  // Counting
  // ---------------------------------------------------------------------

  /** Number of cards of the hand that satisfy p. */
  function CountWhere(hand: seq<Card>, p: Card -> bool): (n: nat)
    ensures n <= |hand|
    ensures n > 0 <==> exists i :: 0 <= i < |hand| && p(hand[i])
    decreases |hand|
  {
    if |hand| == 0 then 0
    else
      var init := hand[..|hand| - 1];
      assert forall i :: 0 <= i < |init| ==> init[i] == hand[i];
      CountWhere(init, p) + (if p(hand[|hand| - 1]) then 1 else 0)
  }

  function OfRank(r: Rank): Card -> bool
  {
    (c: Card) => c.rank == r
  }

  function OfSuit(s: Suit): Card -> bool
  {
    (c: Card) => c.suit == s
  }

  /** How many cards of the hand have rank r (an absent key counts 0). */
  function RankCount(hand: seq<Card>, r: Rank): nat
  {
    CountWhere(hand, OfRank(r))
  }

  /** How many cards of the hand have suit s. */
  function SuitCount(hand: seq<Card>, s: Suit): nat
  {
    CountWhere(hand, OfSuit(s))
  }

  /** The ranks that occur in the hand: the key set of the rank counter. */
  function RanksIn(hand: seq<Card>): set<Rank>
  {
    set c | c in hand :: c.rank
  }

  lemma RanksInCounted(hand: seq<Card>, r: Rank)
    ensures r in RanksIn(hand) <==> RankCount(hand, r) > 0
  {
    if RankCount(hand, r) > 0 {
      var i :| 0 <= i < |hand| && hand[i].rank == r;
      assert hand[i] in hand;
    }
  }

  // ---------------------------------------------------------------------
  // The specification of the classifier
  // ---------------------------------------------------------------------

  /** Some suit occurs exactly five times. */
  ghost predicate IsFlush(hand: seq<Card>)
  {
    exists s :: SuitCount(hand, s) == 5
  }

  /** Some rank occurs exactly k times. */
  ghost predicate HasRankCount(hand: seq<Card>, k: nat)
  {
    exists r :: RankCount(hand, r) == k
  }

  /** The five ranks from position i of the declared order on are all present. */
  ghost predicate RunFrom(present: set<Rank>, i: nat)
    requires i <= 8
  {
    forall j :: i <= j < i + 5 ==> RankAt(j) in present
  }

  /** Five ranks consecutive in the order Two..Ace are present; there is no
      wrap-around, so Ace-Two-Three-Four-Five is not a run. */
  ghost predicate IsStraight(present: set<Rank>)
  {
    exists i: nat :: i <= 8 && RunFrom(present, i)
  }

  /** Number of distinct ranks that occur exactly twice. */
  ghost function PairCount(hand: seq<Card>): nat
  {
    |set r | r in RanksIn(hand) && RankCount(hand, r) == 2|
  }

  /** The priority order of Player.evaluateHandRank: the first test that
      holds names the category. */
  function Category(flush: bool, royalRanks: bool, straight: bool, four: bool, three: bool,
                    two: bool, pairs: nat): (r: HandRank)
    ensures r == RoyalFlush <==> flush && royalRanks
    ensures flush && straight ==> HandRankOrdinal(r) >= HandRankOrdinal(StraightFlush)
    ensures four ==> HandRankOrdinal(r) >= HandRankOrdinal(FourOfAKind)
    ensures three && two ==> HandRankOrdinal(r) >= HandRankOrdinal(FullHouse)
    ensures flush ==> HandRankOrdinal(r) >= HandRankOrdinal(Flush)
    ensures straight ==> HandRankOrdinal(r) >= HandRankOrdinal(Straight)
    ensures three ==> HandRankOrdinal(r) >= HandRankOrdinal(ThreeOfAKind)
    ensures pairs == 2 ==> HandRankOrdinal(r) >= HandRankOrdinal(TwoPair)
    ensures pairs == 1 ==> HandRankOrdinal(r) >= HandRankOrdinal(OnePair)
    ensures r == HighCard <==> !flush && !straight && !four && !three && pairs != 1 && pairs != 2
    // and each category is named only when its own test holds
    ensures r == StraightFlush ==> flush && straight
    ensures r == FourOfAKind ==> four
    ensures r == FullHouse ==> three && two
    ensures r == Flush ==> flush
    ensures r == Straight ==> straight
    ensures r == ThreeOfAKind ==> three
    ensures r == TwoPair ==> pairs == 2
    ensures r == OnePair ==> pairs == 1
  {
    if flush && royalRanks then RoyalFlush
    else if flush && straight then StraightFlush
    else if four then FourOfAKind
    else if three && two then FullHouse
    else if flush then Flush
    else if straight then Straight
    else if three then ThreeOfAKind
    else if pairs == 2 then TwoPair
    else if pairs == 1 then OnePair
    else HighCard
  }

  /** The category of a hand: the priority order applied to the hand's own
      suit and rank counts. The result is the strongest category whose test
      holds on the hand. */
  ghost function Classify(hand: seq<Card>): (r: HandRank)
    ensures r == RoyalFlush <==> IsFlush(hand) && {Ten, Jack, Queen, King, Ace} <= RanksIn(hand)
    ensures IsFlush(hand) && IsStraight(RanksIn(hand)) ==> HandRankOrdinal(r) >= HandRankOrdinal(StraightFlush)
    ensures HasRankCount(hand, 4) ==> HandRankOrdinal(r) >= HandRankOrdinal(FourOfAKind)
    ensures HasRankCount(hand, 3) && HasRankCount(hand, 2) ==> HandRankOrdinal(r) >= HandRankOrdinal(FullHouse)
    ensures IsFlush(hand) ==> HandRankOrdinal(r) >= HandRankOrdinal(Flush)
    ensures IsStraight(RanksIn(hand)) ==> HandRankOrdinal(r) >= HandRankOrdinal(Straight)
    ensures HasRankCount(hand, 3) ==> HandRankOrdinal(r) >= HandRankOrdinal(ThreeOfAKind)
    ensures PairCount(hand) == 2 ==> HandRankOrdinal(r) >= HandRankOrdinal(TwoPair)
    ensures PairCount(hand) == 1 ==> HandRankOrdinal(r) >= HandRankOrdinal(OnePair)
    ensures r == StraightFlush ==> IsFlush(hand) && IsStraight(RanksIn(hand))
    ensures r == FourOfAKind ==> HasRankCount(hand, 4)
    ensures r == FullHouse ==> HasRankCount(hand, 3) && HasRankCount(hand, 2)
    ensures r == Flush ==> IsFlush(hand)
    ensures r == Straight ==> IsStraight(RanksIn(hand))
    ensures r == ThreeOfAKind ==> HasRankCount(hand, 3)
    ensures r == TwoPair ==> PairCount(hand) == 2
    ensures r == OnePair ==> PairCount(hand) == 1
    ensures r == HighCard <==> !IsFlush(hand) && !IsStraight(RanksIn(hand)) && !HasRankCount(hand, 4) &&
                               !HasRankCount(hand, 3) && PairCount(hand) != 1 && PairCount(hand) != 2
  {
    var ranks := RanksIn(hand);
    Category(IsFlush(hand), {Ten, Jack, Queen, King, Ace} <= ranks, IsStraight(ranks),
             HasRankCount(hand, 4), HasRankCount(hand, 3), HasRankCount(hand, 2), PairCount(hand))
  }

  // ---------------------------------------------------------------------
  // The classifier as the source runs it: counters filled in a loop
  // ---------------------------------------------------------------------

  /** Map.getOrDefault. */
  function GetOrDefault<K, V>(m: map<K, V>, k: K, default: V): (v: V)
    ensures k in m ==> v == m[k]
    ensures k !in m ==> v == default
  {
    if k in m then m[k] else default
  }

  /** The rank counter m holds, for every rank present in hand, its count,
      and no key for an absent rank. */
  ghost predicate RanksCounted(m: map<Rank, nat>, hand: seq<Card>)
  {
    forall r :: (r in m <==> RankCount(hand, r) > 0) && (r in m ==> m[r] == RankCount(hand, r))
  }

  ghost predicate SuitsCounted(m: map<Suit, nat>, hand: seq<Card>)
  {
    forall s :: (s in m <==> SuitCount(hand, s) > 0) && (s in m ==> m[s] == SuitCount(hand, s))
  }

  /** The rank counter's keys are the ranks present, and its values answer
      "some rank occurs k times" and "which ranks occur twice". */
  lemma RankCounterAnswers(rankCounts: map<Rank, nat>, hand: seq<Card>)
    requires RanksCounted(rankCounts, hand)
    ensures rankCounts.Keys == RanksIn(hand)
    ensures forall k :: k > 0 ==> ((k in rankCounts.Values) == HasRankCount(hand, k))
    ensures (set r | r in rankCounts && rankCounts[r] == 2) == (set r | r in RanksIn(hand) && RankCount(hand, r) == 2)
  {
    forall r ensures r in rankCounts <==> r in RanksIn(hand) {
      RanksInCounted(hand, r);
    }
    forall k | k > 0 && HasRankCount(hand, k) ensures k in rankCounts.Values {
      var r :| RankCount(hand, r) == k;
      assert rankCounts[r] == k;
    }
  }

  /** The suit counter holds the value 5 exactly when the hand is a flush. */
  lemma SuitCounterAnswers(suitCounts: map<Suit, nat>, hand: seq<Card>)
    requires SuitsCounted(suitCounts, hand)
    ensures (5 in suitCounts.Values) == IsFlush(hand)
  {
    if IsFlush(hand) {
      var s :| SuitCount(hand, s) == 5;
      assert suitCounts[s] == 5;
    }
  }

  /** Bumping the counter of card's rank counts one more card. */
  lemma RankCountStep(m: map<Rank, nat>, hand: seq<Card>, card: Card)
    requires RanksCounted(m, hand)
    ensures RanksCounted(m[card.rank := GetOrDefault(m, card.rank, 0) + 1], hand + [card])
  {
    assert (hand + [card])[..|hand|] == hand;
  }

  /** Bumping the counter of card's suit counts one more card. */
  lemma SuitCountStep(m: map<Suit, nat>, hand: seq<Card>, card: Card)
    requires SuitsCounted(m, hand)
    ensures SuitsCounted(m[card.suit := GetOrDefault(m, card.suit, 0) + 1], hand + [card])
  {
    assert (hand + [card])[..|hand|] == hand;
  }

  /** The counting loop of Player.evaluateHandRank: one pass over the hand
      that bumps the rank counter and the suit counter of every card. */
  method CountCards(hand: seq<Card>) returns (rankCounts: map<Rank, nat>, suitCounts: map<Suit, nat>)
    ensures RanksCounted(rankCounts, hand) && SuitsCounted(suitCounts, hand)
  {
    rankCounts, suitCounts := map[], map[];
    for i := 0 to |hand|
      invariant RanksCounted(rankCounts, hand[..i])
      invariant SuitsCounted(suitCounts, hand[..i])
    {
      var rank, suit := hand[i].rank, hand[i].suit;
      RankCountStep(rankCounts, hand[..i], hand[i]);
      SuitCountStep(suitCounts, hand[..i], hand[i]);
      assert hand[..i + 1] == hand[..i] + [hand[i]];
      rankCounts := rankCounts[rank := GetOrDefault(rankCounts, rank, 0) + 1];
      suitCounts := suitCounts[suit := GetOrDefault(suitCounts, suit, 0) + 1];
    }
    assert hand[..|hand|] == hand;
  }

  /** The first half of Player.evaluateHandRank: count ranks and suits,
      then answer every test the priority chain asks from the counters.
      hasStraight and getPairCount only read the counter, so asking each
      once gives the answer the chain sees. */
  method HandTests(hand: seq<Card>) returns (flush: bool, royalRanks: bool, straight: bool,
                                             four: bool, three: bool, two: bool, pairs: nat)
    ensures flush == IsFlush(hand)
    ensures royalRanks == ({Ten, Jack, Queen, King, Ace} <= RanksIn(hand))
    ensures straight == IsStraight(RanksIn(hand))
    ensures four == HasRankCount(hand, 4) && three == HasRankCount(hand, 3) && two == HasRankCount(hand, 2)
    ensures pairs == PairCount(hand)
  {
    var rankCounts, suitCounts := CountCards(hand);
    RankCounterAnswers(rankCounts, hand);
    SuitCounterAnswers(suitCounts, hand);
    flush := 5 in suitCounts.Values;
    royalRanks := Ten in rankCounts && Jack in rankCounts && Queen in rankCounts
                  && King in rankCounts && Ace in rankCounts;
    straight := HasStraight(rankCounts);
    four, three, two := 4 in rankCounts.Values, 3 in rankCounts.Values, 2 in rankCounts.Values;
    pairs := CountPairs(rankCounts);
  }

  /** Player.evaluateHandRank: the tests, then the priority chain. */
  method EvaluateHandRank(hand: seq<Card>) returns (hr: HandRank)
    ensures hr == Classify(hand)
  {
    var flush, royalRanks, straight, four, three, two, pairs := HandTests(hand);
    // The source returns at the first test that holds.
    if flush && royalRanks {
      hr := RoyalFlush;
    } else if flush && straight {
      hr := StraightFlush;
    } else if four {
      hr := FourOfAKind;
    } else if three && two {
      hr := FullHouse;
    } else if flush {
      hr := Flush;
    } else if straight {
      hr := Straight;
    } else if three {
      hr := ThreeOfAKind;
    } else if pairs == 2 {
      hr := TwoPair;
    } else if pairs == 1 {
      hr := OnePair;
    } else {
      hr := HighCard;
    }
  }

  /** Player.hasStraight: walks Rank.values() in order with a counter of
      consecutive present ranks that resets on every absent rank. */
  method HasStraight(rankCounts: map<Rank, nat>) returns (b: bool)
    ensures b == IsStraight(rankCounts.Keys)
  {
    ghost var present := rankCounts.Keys;
    var straightCount := 0;
    for k := 0 to 13
      invariant 0 <= straightCount <= k && straightCount < 5
      invariant forall j :: k - straightCount <= j < k ==> RankAt(j) in present
      invariant straightCount < k ==> RankAt(k - 1 - straightCount) !in present
      invariant forall i: nat :: i + 5 <= k ==> !RunFrom(present, i)
    {
      if RankAt(k) in rankCounts {
        straightCount := straightCount + 1;
      } else {
        straightCount := 0;
      }
      if straightCount == 5 {
        assert RunFrom(present, k - 4);
        return true;
      }
      if k >= 4 {
        assert RankAt(k - straightCount) !in present;
        assert !RunFrom(present, k - 4);
      }
    }
    return false;
  }

  /** Player.getPairCount: counts the counter's values equal to two, visiting
      the keys in no particular order. */
  method CountPairs(rankCounts: map<Rank, nat>) returns (n: nat)
    ensures n == |set r | r in rankCounts && rankCounts[r] == 2|
  {
    n := 0;
    var rest := rankCounts.Keys;
    while rest != {}
      invariant rest <= rankCounts.Keys
      invariant n == |set r | r in rankCounts && r !in rest && rankCounts[r] == 2|
      decreases |rest|
    {
      var r :| r in rest;
      ghost var before := set x | x in rankCounts && x !in rest && rankCounts[x] == 2;
      if rankCounts[r] == 2 {
        n := n + 1;
      }
      rest := rest - {r};
      ghost var after := set x | x in rankCounts && x !in rest && rankCounts[x] == 2;
      assert after == if rankCounts[r] == 2 then before + {r} else before;
    }
    assert (set r | r in rankCounts && r !in rest && rankCounts[r] == 2)
        == (set r | r in rankCounts && rankCounts[r] == 2);
  }

  // ---------------------------------------------------------------------
  // Properties of the classification
  // ---------------------------------------------------------------------

  lemma {:induction false} CountWhereConcat(a: seq<Card>, b: seq<Card>, p: Card -> bool)
    ensures CountWhere(a + b, p) == CountWhere(a, p) + CountWhere(b, p)
    decreases |b|
  {
    if |b| == 0 {
      assert a + b == a;
    } else {
      var n := |b| - 1;
      assert (a + b)[..|a + b| - 1] == a + b[..n];
      CountWhereConcat(a, b[..n], p);
    }
  }

  /** A count over the hand depends only on which cards it holds, not on their order. */
  lemma {:induction false} CountWherePermutation(h1: seq<Card>, h2: seq<Card>, p: Card -> bool)
    requires multiset(h1) == multiset(h2)
    ensures CountWhere(h1, p) == CountWhere(h2, p)
    decreases |h1|
  {
    if |h1| == 0 {
      assert |h2| == |multiset(h2)| == 0;
    } else {
      var n := |h1| - 1;
      var x := h1[n];
      assert h1 == h1[..n] + [x];
      assert x in multiset(h2);
      var j :| 0 <= j < |h2| && h2[j] == x;
      var rest := h2[..j] + h2[j + 1..];
      assert h2 == h2[..j] + [x] + h2[j + 1..];
      assert multiset(h2) == multiset(h2[..j]) + multiset{x} + multiset(h2[j + 1..]);
      assert multiset(rest) == multiset(h2[..j]) + multiset(h2[j + 1..]);
      assert multiset(h1) == multiset(h1[..n]) + multiset{x};
      assert multiset(rest) == multiset(h2) - multiset{x};
      assert multiset(h1[..n]) == multiset(h1) - multiset{x};
      CountWherePermutation(h1[..n], rest, p);
      CountWhereConcat(h2[..j] + [x], h2[j + 1..], p);
      CountWhereConcat(h2[..j], [x], p);
      CountWhereConcat(h2[..j], h2[j + 1..], p);
    }
  }

  /** Order independence: reordering the hand never changes its category. */
  lemma ClassifyIgnoresOrder(h1: seq<Card>, h2: seq<Card>)
    requires multiset(h1) == multiset(h2)
    ensures Classify(h1) == Classify(h2)
  {
    forall r ensures RankCount(h1, r) == RankCount(h2, r) {
      CountWherePermutation(h1, h2, OfRank(r));
    }
    forall s ensures SuitCount(h1, s) == SuitCount(h2, s) {
      CountWherePermutation(h1, h2, OfSuit(s));
    }
    forall r ensures r in RanksIn(h1) <==> r in RanksIn(h2) {
      RanksInCounted(h1, r);
      RanksInCounted(h2, r);
    }
    assert RanksIn(h1) == RanksIn(h2);
    assert IsFlush(h1) == IsFlush(h2);
    assert forall k :: HasRankCount(h1, k) == HasRankCount(h2, k);
    assert (set r | r in RanksIn(h1) && RankCount(h1, r) == 2) == (set r | r in RanksIn(h2) && RankCount(h2, r) == 2);
    assert PairCount(h1) == PairCount(h2);
    var ranks := RanksIn(h2);
    assert Classify(h1) == Category(IsFlush(h2), {Ten, Jack, Queen, King, Ace} <= ranks, IsStraight(ranks),
                                    HasRankCount(h2, 4), HasRankCount(h2, 3), HasRankCount(h2, 2), PairCount(h2));
  }

  lemma {:induction false} RanksInBound(hand: seq<Card>)
    ensures |RanksIn(hand)| <= |hand|
  {
    if |hand| > 0 {
      var n := |hand| - 1;
      assert hand == hand[..n] + [hand[n]];
      assert RanksIn(hand) == RanksIn(hand[..n]) + {hand[n].rank};
      RanksInBound(hand[..n]);
    }
  }

  /** Two cards of the same rank leave fewer distinct ranks than cards. */
  lemma DuplicateRankShrinks(hand: seq<Card>, i: nat, j: nat)
    requires i < j < |hand|
    ensures hand[i].rank == hand[j].rank ==> |RanksIn(hand)| < |hand|
  {
    if hand[i].rank == hand[j].rank {
      var rest := hand[..j] + hand[j + 1..];
      assert hand[i] == rest[i];
      assert hand == hand[..j] + [hand[j]] + hand[j + 1..];
      assert RanksIn(hand) <= RanksIn(rest);
      assert RanksIn(rest) <= RanksIn(hand);
      assert RanksIn(hand) == RanksIn(rest);
      RanksInBound(rest);
    }
  }

  /** On exactly five cards a straight leaves no room for a pair: its ranks are distinct. */
  lemma StraightOnFiveIsDistinct(hand: seq<Card>)
    requires |hand| == 5 && IsStraight(RanksIn(hand))
    ensures forall i, j :: 0 <= i < j < 5 ==> hand[i].rank != hand[j].rank
  {
    StraightNeedsFiveRanks(RanksIn(hand));
    forall i, j | 0 <= i < j < 5 ensures hand[i].rank != hand[j].rank {
      DuplicateRankShrinks(hand, i, j);
    }
  }

  /** Without the scan wrapping round, every run of five holds a Six or a Ten. */
  lemma StraightHoldsSixOrTen(present: set<Rank>)
    ensures IsStraight(present) ==> Six in present || Ten in present
  {
    if IsStraight(present) {
      var i: nat :| i <= 8 && RunFrom(present, i);
      if i <= 4 {
        assert RankAt(4) == Six;
      } else {
        assert RankAt(8) == Ten;
      }
    }
  }

  /** Ace-Two-Three-Four-Five is not a straight. */
  lemma WheelIsNotStraight(present: set<Rank>)
    requires present == {Ace, Two, Three, Four, Five}
    ensures !IsStraight(present)
  {
    StraightHoldsSixOrTen(present);
  }

  /** A straight needs five distinct ranks. */
  lemma StraightNeedsFiveRanks(present: set<Rank>)
    ensures IsStraight(present) ==> |present| >= 5
  {
    if IsStraight(present) {
      var k: nat :| k <= 8 && RunFrom(present, k);
      var window := {RankAt(k), RankAt(k + 1), RankAt(k + 2), RankAt(k + 3), RankAt(k + 4)};
      assert |window| == 5;
      assert present == window + (present - window);
    }
  }

  /** The royal-flush test is the straight flush from Ten up, tested first. */
  lemma RoyalFlushIsTopStraightFlush(hand: seq<Card>)
    ensures Classify(hand) == RoyalFlush <==> IsFlush(hand) && RunFrom(RanksIn(hand), 8)
  {
    var ranks := RanksIn(hand);
    assert RankAt(8) == Ten && RankAt(9) == Jack && RankAt(10) == Queen;
    assert RankAt(11) == King && RankAt(12) == Ace;
    if RunFrom(ranks, 8) {
      assert RankAt(8) in ranks && RankAt(9) in ranks && RankAt(10) in ranks;
      assert RankAt(11) in ranks && RankAt(12) in ranks;
    }
    assert RunFrom(ranks, 8) <==> {Ten, Jack, Queen, King, Ace} <= ranks;
  }

  /** A count reaches the hand's length exactly when every card passes. */
  lemma {:induction false} CountWhereAll(hand: seq<Card>, p: Card -> bool)
    ensures CountWhere(hand, p) == |hand| <==> forall i :: 0 <= i < |hand| ==> p(hand[i])
    decreases |hand|
  {
    if |hand| > 0 {
      var init := hand[..|hand| - 1];
      CountWhereAll(init, p);
      assert forall i :: 0 <= i < |init| ==> init[i] == hand[i];
    }
  }

  /** Five cards are a flush exactly when they all share the first card's suit. */
  lemma FlushIsOneSuit(hand: seq<Card>)
    requires |hand| == 5
    ensures IsFlush(hand) <==> forall i :: 0 <= i < 5 ==> hand[i].suit == hand[0].suit
  {
    CountWhereAll(hand, OfSuit(hand[0].suit));
    assert (forall i :: 0 <= i < 5 ==> hand[i].suit == hand[0].suit) ==> SuitCount(hand, hand[0].suit) == 5;
    if IsFlush(hand) {
      var s :| SuitCount(hand, s) == 5;
      CountWhereAll(hand, OfSuit(s));
    }
  }

  /** When no two cards share a rank, every rank is counted at most once. */
  lemma {:induction false} DistinctRanksCountOnce(hand: seq<Card>)
    requires forall i, j :: 0 <= i < j < |hand| ==> hand[i].rank != hand[j].rank
    ensures forall r :: RankCount(hand, r) <= 1
    decreases |hand|
  {
    if |hand| > 0 {
      var n := |hand| - 1;
      var init := hand[..n];
      assert forall i :: 0 <= i < n ==> init[i] == hand[i];
      DistinctRanksCountOnce(init);
      forall r ensures RankCount(hand, r) <= 1 {
        assert RankCount(hand, r) == RankCount(init, r) + (if OfRank(r)(hand[n]) then 1 else 0);
        if hand[n].rank == r {
          assert forall i :: 0 <= i < n ==> hand[i].rank != hand[n].rank;
          assert forall i :: 0 <= i < n ==> !OfRank(r)(init[i]);
          assert RankCount(init, r) == 0;
        }
      }
    }
  }

  /** A count over five cards, one card at a time. */
  lemma FiveCardCount(hand: seq<Card>, p: Card -> bool)
    requires |hand| == 5
    ensures CountWhere(hand, p) == (if p(hand[0]) then 1 else 0) + (if p(hand[1]) then 1 else 0)
              + (if p(hand[2]) then 1 else 0) + (if p(hand[3]) then 1 else 0) + (if p(hand[4]) then 1 else 0)
  {
    assert hand[..4][..3] == hand[..3];
    assert hand[..3][..2] == hand[..2];
    assert hand[..2][..1] == hand[..1];
    assert hand[..1][..0] == [];
  }

  /** PairCount counts exactly the ranks that occur twice. */
  lemma PairCountIs(hand: seq<Card>, pairs: set<Rank>)
    requires forall r :: r in pairs <==> RankCount(hand, r) == 2
    ensures PairCount(hand) == |pairs|
  {
    forall r ensures r in RanksIn(hand) <==> RankCount(hand, r) > 0 {
      RanksInCounted(hand, r);
    }
    assert (set r | r in RanksIn(hand) && RankCount(hand, r) == 2) == pairs;
  }

  /** Ten to Ace of spades is a royal flush (score 10). */
  lemma RoyalFlushExample(hand: seq<Card>)
    requires hand == [Card(Spades, Ten), Card(Spades, Jack), Card(Spades, Queen),
                        Card(Spades, King), Card(Spades, Ace)]
    ensures Classify(hand) == RoyalFlush
  {
    FlushIsOneSuit(hand);
    assert IsFlush(hand);
    assert hand[0] in hand && hand[1] in hand && hand[2] in hand && hand[3] in hand && hand[4] in hand;
    assert {Ten, Jack, Queen, King, Ace} <= RanksIn(hand);
  }

  /** Two to Six of clubs is a straight flush (score 9), not a plain flush. */
  lemma StraightFlushExample(hand: seq<Card>)
    requires hand == [Card(Clubs, Two), Card(Clubs, Three), Card(Clubs, Four),
                        Card(Clubs, Five), Card(Clubs, Six)]
    ensures Classify(hand) == StraightFlush
  {
    FlushIsOneSuit(hand);
    assert hand[0] in hand && hand[1] in hand && hand[2] in hand && hand[3] in hand && hand[4] in hand;
    assert IsFlush(hand);
    assert RunFrom(RanksIn(hand), 0);
    assert IsStraight(RanksIn(hand));
    assert Ten !in RanksIn(hand);
  }

  /** Three twos and two fives are a full house (score 7). */
  lemma FullHouseExample(hand: seq<Card>)
    requires hand == [Card(Spades, Two), Card(Hearts, Two), Card(Diamonds, Two),
                        Card(Clubs, Five), Card(Spades, Five)]
    ensures Classify(hand) == FullHouse
  {
    FlushIsOneSuit(hand);
    assert hand[0].suit != hand[1].suit;
    forall r ensures RankCount(hand, r) == (if r == Two then 3 else if r == Five then 2 else 0) {
      if r == Two || r == Five {
        FiveCardCount(hand, OfRank(r));
      } else {
        RanksInCounted(hand, r);
      }
    }
    assert !IsFlush(hand);
    assert !HasRankCount(hand, 4);
    assert RankCount(hand, Two) == 3 && RankCount(hand, Five) == 2;
    assert HasRankCount(hand, 3) && HasRankCount(hand, 2);
  }

  /** The rank counts of the two-pair hand below. */
  lemma TwoPairCounts(hand: seq<Card>)
    requires hand == [Card(Spades, Two), Card(Hearts, Two), Card(Diamonds, Five),
                        Card(Clubs, Five), Card(Spades, Nine)]
    ensures forall r :: RankCount(hand, r) == (if r == Two || r == Five then 2 else if r == Nine then 1 else 0)
    ensures RanksIn(hand) == {Two, Five, Nine}
  {
    forall r ensures RankCount(hand, r) == (if r == Two || r == Five then 2 else if r == Nine then 1 else 0) {
      if r == Two || r == Five || r == Nine {
        FiveCardCount(hand, OfRank(r));
      } else {
        RanksInCounted(hand, r);
      }
    }
  }

  /** Any five cards of two suits at least, holding two ranks twice and a
      third rank once, are two pair. */
  lemma TwoPairShape(hand: seq<Card>, p1: Rank, p2: Rank, kicker: Rank)
    requires |hand| == 5 && exists i :: 0 <= i < 5 && hand[i].suit != hand[0].suit
    requires p1 != p2 && kicker != p1 && kicker != p2
    requires forall r :: RankCount(hand, r) == (if r == p1 || r == p2 then 2 else if r == kicker then 1 else 0)
    requires RanksIn(hand) == {p1, p2, kicker}
    ensures Classify(hand) == TwoPair
  {
    FlushIsOneSuit(hand);
    assert !IsFlush(hand);
    assert !HasRankCount(hand, 4) && !HasRankCount(hand, 3);
    assert HasRankCount(hand, 2) by { assert RankCount(hand, p1) == 2; }
    StraightNeedsFiveRanks(RanksIn(hand));
    assert |{p1, p2, kicker}| == 3;
    assert !IsStraight(RanksIn(hand));
    PairCountIs(hand, {p1, p2});
    assert |{p1, p2}| == 2;
  }

  /** Two twos, two fives and a nine are two pair (score 3). */
  lemma TwoPairExample(hand: seq<Card>)
    requires hand == [Card(Spades, Two), Card(Hearts, Two), Card(Diamonds, Five),
                        Card(Clubs, Five), Card(Spades, Nine)]
    ensures Classify(hand) == TwoPair
  {
    TwoPairCounts(hand);
    assert hand[1].suit != hand[0].suit;
    TwoPairShape(hand, Two, Five, Nine);
  }

  /** No pair, no flush and no run of five: high card (score 1). */
  lemma HighCardExample(hand: seq<Card>)
    requires hand == [Card(Spades, Two), Card(Hearts, Five), Card(Diamonds, Nine),
                        Card(Clubs, Jack), Card(Spades, King)]
    ensures Classify(hand) == HighCard
  {
    FlushIsOneSuit(hand);
    assert hand[0].suit != hand[1].suit;
    DistinctRanksCountOnce(hand);
    assert Six !in RanksIn(hand) && Ten !in RanksIn(hand);
    StraightHoldsSixOrTen(RanksIn(hand));
    assert !IsFlush(hand);
    assert !HasRankCount(hand, 4) && !HasRankCount(hand, 3);
    assert !IsStraight(RanksIn(hand));
    PairCountIs(hand, {});
  }

  /** Four nines and a two are four of a kind (score 8). */
  lemma FourOfAKindExample(hand: seq<Card>)
    requires hand == [Card(Spades, Nine), Card(Hearts, Nine), Card(Diamonds, Nine),
                        Card(Clubs, Nine), Card(Spades, Two)]
    ensures Classify(hand) == FourOfAKind
  {
    FlushIsOneSuit(hand);
    assert hand[0].suit != hand[1].suit;
    FiveCardCount(hand, OfRank(Nine));
    assert RankCount(hand, Nine) == 4;
    assert !IsFlush(hand) && HasRankCount(hand, 4);
  }

  /** Five hearts of no run and no pair are a flush (score 6): the flush
      test comes before the straight and pair tests. */
  lemma FlushExample(hand: seq<Card>)
    requires hand == [Card(Hearts, Two), Card(Hearts, Five), Card(Hearts, Nine),
                        Card(Hearts, Jack), Card(Hearts, King)]
    ensures Classify(hand) == Flush
  {
    FlushIsOneSuit(hand);
    assert IsFlush(hand);
    assert Six !in RanksIn(hand) && Ten !in RanksIn(hand);
    StraightHoldsSixOrTen(RanksIn(hand));
    DistinctRanksCountOnce(hand);
    assert !HasRankCount(hand, 4) && !HasRankCount(hand, 3);
  }

  /** Five cards of two suits at least that hold a run of five are a
      straight: on five cards a straight leaves no room for a pair. */
  lemma StraightShape(hand: seq<Card>)
    requires |hand| == 5 && exists i :: 0 <= i < 5 && hand[i].suit != hand[0].suit
    requires IsStraight(RanksIn(hand))
    ensures Classify(hand) == Straight
  {
    FlushIsOneSuit(hand);
    assert !IsFlush(hand);
    StraightOnFiveIsDistinct(hand);
    DistinctRanksCountOnce(hand);
    assert !HasRankCount(hand, 4) && !HasRankCount(hand, 3);
  }

  /** Five to Nine of mixed suits is a straight (score 5). */
  lemma StraightExample(hand: seq<Card>)
    requires hand == [Card(Spades, Five), Card(Hearts, Six), Card(Diamonds, Seven),
                        Card(Clubs, Eight), Card(Spades, Nine)]
    ensures Classify(hand) == Straight
  {
    assert hand[0] in hand && hand[1] in hand && hand[2] in hand && hand[3] in hand && hand[4] in hand;
    assert RunFrom(RanksIn(hand), 3);
    assert hand[1].suit != hand[0].suit;
    StraightShape(hand);
  }

  /** Any five cards of two suits at least, holding one rank three times and
      two other ranks once each, are three of a kind. */
  lemma ThreeOfAKindShape(hand: seq<Card>, t: Rank, k1: Rank, k2: Rank)
    requires |hand| == 5 && exists i :: 0 <= i < 5 && hand[i].suit != hand[0].suit
    requires t != k1 && t != k2 && k1 != k2
    requires forall r :: RankCount(hand, r) == (if r == t then 3 else if r == k1 || r == k2 then 1 else 0)
    requires RanksIn(hand) == {t, k1, k2}
    ensures Classify(hand) == ThreeOfAKind
  {
    FlushIsOneSuit(hand);
    assert !IsFlush(hand);
    assert !HasRankCount(hand, 4) && !HasRankCount(hand, 2);
    assert HasRankCount(hand, 3) by { assert RankCount(hand, t) == 3; }
    StraightNeedsFiveRanks(RanksIn(hand));
    assert |{t, k1, k2}| == 3;
    assert !IsStraight(RanksIn(hand));
  }

  /** The rank counts of the three-of-a-kind hand below. */
  lemma ThreeOfAKindCounts(hand: seq<Card>)
    requires hand == [Card(Spades, Seven), Card(Hearts, Seven), Card(Diamonds, Seven),
                        Card(Clubs, King), Card(Spades, Two)]
    ensures forall r :: RankCount(hand, r) == (if r == Seven then 3 else if r == King || r == Two then 1 else 0)
    ensures RanksIn(hand) == {Seven, King, Two}
  {
    forall r ensures RankCount(hand, r) == (if r == Seven then 3 else if r == King || r == Two then 1 else 0) {
      if r == Seven || r == King || r == Two {
        FiveCardCount(hand, OfRank(r));
      } else {
        RanksInCounted(hand, r);
      }
    }
  }

  /** Three sevens, a king and a two are three of a kind (score 4), not a full house. */
  lemma ThreeOfAKindExample(hand: seq<Card>)
    requires hand == [Card(Spades, Seven), Card(Hearts, Seven), Card(Diamonds, Seven),
                        Card(Clubs, King), Card(Spades, Two)]
    ensures Classify(hand) == ThreeOfAKind
  {
    ThreeOfAKindCounts(hand);
    assert hand[1].suit != hand[0].suit;
    ThreeOfAKindShape(hand, Seven, King, Two);
  }

  /** Any five cards of two suits at least, holding one rank twice and three
      other ranks once each, are one pair. */
  lemma OnePairShape(hand: seq<Card>, p: Rank, k1: Rank, k2: Rank, k3: Rank)
    requires |hand| == 5 && exists i :: 0 <= i < 5 && hand[i].suit != hand[0].suit
    requires p != k1 && p != k2 && p != k3 && k1 != k2 && k1 != k3 && k2 != k3
    requires forall r :: RankCount(hand, r) == (if r == p then 2 else if r == k1 || r == k2 || r == k3 then 1 else 0)
    requires RanksIn(hand) == {p, k1, k2, k3}
    ensures Classify(hand) == OnePair
  {
    FlushIsOneSuit(hand);
    assert !IsFlush(hand);
    assert !HasRankCount(hand, 4) && !HasRankCount(hand, 3);
    StraightNeedsFiveRanks(RanksIn(hand));
    assert |{p, k1, k2, k3}| == 4;
    assert !IsStraight(RanksIn(hand));
    PairCountIs(hand, {p});
  }

  /** The rank counts of the one-pair hand below. */
  lemma OnePairCounts(hand: seq<Card>)
    requires hand == [Card(Spades, Three), Card(Hearts, Three), Card(Diamonds, Eight),
                        Card(Clubs, Jack), Card(Spades, Ace)]
    ensures forall r :: RankCount(hand, r) ==
              (if r == Three then 2 else if r == Eight || r == Jack || r == Ace then 1 else 0)
    ensures RanksIn(hand) == {Three, Eight, Jack, Ace}
  {
    forall r ensures RankCount(hand, r) ==
                       (if r == Three then 2 else if r == Eight || r == Jack || r == Ace then 1 else 0) {
      if r == Three || r == Eight || r == Jack || r == Ace {
        FiveCardCount(hand, OfRank(r));
      } else {
        RanksInCounted(hand, r);
      }
    }
  }

  /** Two threes, an eight, a jack and an ace are one pair (score 2). */
  lemma OnePairExample(hand: seq<Card>)
    requires hand == [Card(Spades, Three), Card(Hearts, Three), Card(Diamonds, Eight),
                        Card(Clubs, Jack), Card(Spades, Ace)]
    ensures Classify(hand) == OnePair
  {
    OnePairCounts(hand);
    assert hand[1].suit != hand[0].suit;
    OnePairShape(hand, Three, Eight, Jack, Ace);
  }
}
