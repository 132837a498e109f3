# Five-card draw poker, modelled in Dafny

This project models the engine of a text-mode five-card draw poker game
(`Pokers.java`). It covers:

- the cards and the ten hand categories, with their fixed scores 1..10;
- the hand classifier. It counts every rank and suit in maps, scans for a
  straight in the declared rank order and counts pairs. Then it runs the
  priority chain from royal flush down to high card;
- the in-place card replacement of a player;
- scoring;
- the round controller, which goes through these steps:
  1. build a fresh 52-card deck;
  2. shuffle it and deal from its front;
  3. evaluate every hand;
  4. run the draw step, where replacements also come off the deck front;
  5. evaluate every hand again;
  6. pick the winner in one pass.

Module layout:

- `Cards` (Cards.dfy): suits, ranks, cards, categories and their scores. It
  also gives the position of a card in a fresh deck.
- `HandEvaluator` (Evaluator.dfy) specifies the category as the ghost function
  `Classify`. It applies the priority chain (`Category`) to rank and suit counts
  (`RankCount`, `SuitCount`). The methods `CountCards`, `HasStraight` and
  `CountPairs` keep the source's loops over the hand and the counter maps.
  `HandTests` asks the chain's tests from those counters, and
  `EvaluateHandRank` runs the chain itself. All five are proved against that
  specification.
- `Players` (Player.dfy): the `Player` class with its `hand`, `handRank` and
  `score` fields. `Replaced` is the value-level meaning of `replaceCards`.
- `Game` (Game.dfy) describes the deal and the draw as functions of the deck:
  `DealtHands`, `DealRest`, `DrawnHands` and `DrawTotal`. Its `PokerGame`
  class has `players` and `deck` fields, and methods proved against those
  functions.

Some behaviour of the code is worth spelling out, because a casual reading
suggests otherwise:

- **No ace-low straight.** The straight scan follows the declared order
  Two..Ace and does not wrap around, so Ace-Two-Three-Four-Five is not a
  straight (`WheelIsNotStraight`).
- **Partial replacement.** `replaceCards` keeps the writes it made before the
  first out-of-range index. The model follows that code, not an
  all-or-nothing reading.
- **Short hands.** A player can receive fewer than five cards when the deck
  runs short, and the model covers such hands.
- **Royal flush test.** The code only checks that Ten, Jack, Queen, King and
  Ace are among the hand's ranks, and the model follows the code. On five
  cards this is the same as "the rank set is exactly those five".
- **The tie-break never fires.** A player's score is its category's score, so
  the equal-score tie-break in `determineWinner` cannot change the winner. The
  winner is the first-registered player with the highest score
  (`Game.PokerGame.DetermineWinner`).

## Model

| member | source | states |
|---|---|---|
| Cards.HandRank.Score | Pokers.java:56-75 | a category's score is its position in the declaration order plus one, so it lies in 1..10 |
| Cards.ScoreOrdersCategories | Pokers.java:57-59 | a later category has a strictly larger score; equal scores mean the same category |
| Cards.SuitOrdinal | Pokers.java:5-6 | a suit's position in `Suit.values()` is below 4 |
| Cards.SuitAt | Pokers.java:5-6 | the suit at a position has that ordinal |
| Cards.RankOrdinal | Pokers.java:19-21 | a rank's position in `Rank.values()` is below 13 |
| Cards.RankAt | Pokers.java:19-21 | the rank at a position has that ordinal |
| Cards.HandRankOrdinal | Pokers.java:56-59 | a category's declaration position is below 10 |
| Cards.OrdinalsInvert | Pokers.java:5-21 | the suit and rank ordinals are bijections with their position functions |
| Cards.CardIndex | Pokers.java:281-290 | a card's suit-major position in a fresh deck lies in 0..51 |
| Cards.CardAt | Pokers.java:281-290 | the card at position i of a fresh deck has index i |
| Cards.CardIndexInjective | Pokers.java:281-290 | distinct cards have distinct deck positions |
| HandEvaluator.CountWhere | Pokers.java:138-144 | a count is at most the hand size, and it is positive iff some card qualifies |
| HandEvaluator.RanksInCounted | Pokers.java:138-144 | a rank is a key of the rank counter iff its count is positive |
| HandEvaluator.Category | Pokers.java:146-194 | the priority chain, first match wins: royal flush exactly when flush and the Ten-to-Ace ranks hold; each test that holds (flush with straight, four, three with two, flush, straight, three, two pairs, one pair) guarantees at least its category, and each category is named only when its own test holds, so the result is the strongest category whose test holds; high card exactly when none holds |
| HandEvaluator.Classify | Pokers.java:131-195 | the category of a hand from its own counts is the strongest category whose test holds on the hand: royal flush exactly on a flush holding Ten to Ace; every test that holds is a lower bound; every category returned has its test true; high card exactly when no test holds |
| HandEvaluator.GetOrDefault | Pokers.java:142-143 | `getOrDefault`: the stored value for a present key, the default for an absent one |
| HandEvaluator.RankCountStep | Pokers.java:142 | bumping a card's rank entry keeps the rank map equal to the counts of the longer hand |
| HandEvaluator.SuitCountStep | Pokers.java:143 | bumping a card's suit entry keeps the suit map equal to the counts of the longer hand |
| HandEvaluator.CountCards | Pokers.java:132-144 | after the loop, every rank and suit maps to its number of cards, and absent ones have no key |
| HandEvaluator.RankCounterAnswers | Pokers.java:147-149 | the rank map's keys are the ranks present; `containsValue(k)` holds iff some rank occurs k times; its count-2 keys are the paired ranks |
| HandEvaluator.SuitCounterAnswers | Pokers.java:154 | `suitCounts.containsValue(5)` holds iff the hand is a flush |
| HandEvaluator.HandTests | Pokers.java:132-189 | each test the chain asks (flush, royal ranks, straight, counts 4/3/2, pair count) equals its specification on the hand |
| HandEvaluator.EvaluateHandRank | Pokers.java:131-195 | the returned category is `Classify(hand)`: the first test of the priority chain that holds |
| HandEvaluator.HasStraight | Pokers.java:198-211 | true iff five ranks consecutive in the declared order are all keys of the counter |
| HandEvaluator.CountPairs | Pokers.java:214-222 | the result is the number of ranks whose count is exactly 2 |
| HandEvaluator.CountWhereConcat | Pokers.java:138-144 | the count over two joined hands is the sum of the two counts |
| HandEvaluator.CountWherePermutation | Pokers.java:138-144 | a count depends only on the multiset of cards |
| HandEvaluator.ClassifyIgnoresOrder | Pokers.java:131-195 | two hands with the same cards in any order get the same category |
| HandEvaluator.RanksInBound | Pokers.java:138-144 | a hand has no more distinct ranks than cards |
| HandEvaluator.DuplicateRankShrinks | Pokers.java:138-144 | two cards of the same rank leave fewer distinct ranks than cards |
| HandEvaluator.StraightNeedsFiveRanks | Pokers.java:198-211 | a straight needs at least five distinct ranks |
| HandEvaluator.StraightOnFiveIsDistinct | Pokers.java:198-211 | on exactly five cards, a straight has five pairwise different ranks |
| HandEvaluator.StraightHoldsSixOrTen | Pokers.java:198-211 | without wrap-around, every run of five contains a Six or a Ten |
| HandEvaluator.WheelIsNotStraight | Pokers.java:198-211 | Ace, Two, Three, Four, Five is not a straight |
| HandEvaluator.RoyalFlushIsTopStraightFlush | Pokers.java:146-156 | a hand is a royal flush iff it is a flush that holds the run from Ten to Ace |
| HandEvaluator.CountWhereAll | Pokers.java:138-144 | a count equals the hand size iff every card qualifies |
| HandEvaluator.FlushIsOneSuit | Pokers.java:169-171 | a five-card hand is a flush iff all five cards share a suit |
| HandEvaluator.DistinctRanksCountOnce | Pokers.java:138-144 | in a hand of pairwise different ranks, every rank count is at most 1 |
| HandEvaluator.FiveCardCount | Pokers.java:138-144 | a count over five cards is the sum of five 0/1 terms |
| HandEvaluator.PairCountIs | Pokers.java:214-222 | when a set holds exactly the ranks that occur twice, the pair count is its size |
| HandEvaluator.RoyalFlushExample | Pokers.java:147-150 | Ten to Ace of Spades is a royal flush |
| HandEvaluator.StraightFlushExample | Pokers.java:154-156 | Two to Six of Clubs is a straight flush, not a royal flush |
| HandEvaluator.FullHouseExample | Pokers.java:164-166 | three Twos and two Fives are a full house |
| HandEvaluator.TwoPairCounts | Pokers.java:138-144 | the counts of two Twos, two Fives and a Nine |
| HandEvaluator.TwoPairShape | Pokers.java:184-186 | any hand of two suits or more, with two ranks twice and one rank once, is two pair |
| HandEvaluator.TwoPairExample | Pokers.java:184-186 | two Twos, two Fives and a Nine are two pair |
| HandEvaluator.FourOfAKindExample | Pokers.java:159-161 | four Nines and a Two are four of a kind |
| HandEvaluator.FlushExample | Pokers.java:169-171 | Two, Five, Nine, Jack, King of Hearts is a flush: the flush test comes before the straight and pair tests |
| HandEvaluator.StraightShape | Pokers.java:174-176 | any five cards of two suits or more that hold a run of five are a straight, since no pair fits beside the run |
| HandEvaluator.StraightExample | Pokers.java:174-176 | Five to Nine of mixed suits is a straight |
| HandEvaluator.ThreeOfAKindShape | Pokers.java:179-181 | any hand of two suits or more, with one rank three times and two other ranks once, is three of a kind and not a full house |
| HandEvaluator.ThreeOfAKindCounts | Pokers.java:138-144 | the counts of three Sevens, a King and a Two |
| HandEvaluator.ThreeOfAKindExample | Pokers.java:179-181 | three Sevens, a King and a Two are three of a kind |
| HandEvaluator.OnePairShape | Pokers.java:189-191 | any hand of two suits or more, with one rank twice and three other ranks once, is one pair |
| HandEvaluator.OnePairCounts | Pokers.java:138-144 | the counts of two Threes, an Eight, a Jack and an Ace |
| HandEvaluator.OnePairExample | Pokers.java:189-191 | two Threes, an Eight, a Jack and an Ace are one pair |
| HandEvaluator.HighCardExample | Pokers.java:193-194 | Two, Five, Nine, Jack, King of mixed suits is a high card |
| Players.FirstOutOfRange | Pokers.java:115-122 | every index before the result is a position in the hand, and the index at the result is not |
| Players.Overwrite | Pokers.java:115-118 | writing cards by index keeps the hand's length |
| Players.Replaced | Pokers.java:109-124 | a replacement never changes the hand's length |
| Players.ReplacedPromises | Pokers.java:109-124 | on a length mismatch the hand is unchanged; a position that no index before the first out-of-range one names keeps its card, however the later indices name it; a write made before that point, and not overwritten before it, lands in place |
| Players.OverwriteUntouched | Pokers.java:115-118 | a position no index names keeps its card |
| Players.OverwriteLastWins | Pokers.java:115-118 | for a repeated index, the last write wins |
| Players.OverwriteCards | Pokers.java:115-118 | every resulting card was in the hand or among the new cards; new cards unknown to the hand create no duplicate |
| Players.Player.constructor | Pokers.java:84-87 | a new player has its name, an empty hand, no category and score 0 |
| Players.Player.SetHand | Pokers.java:105-107 | the hand becomes the given cards; category and score are untouched |
| Players.Player.ReplaceCards | Pokers.java:109-124 | the hand becomes `Replaced(...)`; `ok` is false exactly on a length mismatch or an out-of-range index; category and score are untouched |
| Players.Player.CalculateScore | Pokers.java:126-129 | the category stored is `Classify(hand)`, the score is that category's score, and the hand is unchanged |
| Game.GenerateDeck | Pokers.java:281-290 | 52 cards, the card at position i being the i-th (suit, rank) pair in suit-major order |
| Game.FullDeckHoldsEveryCardOnce | Pokers.java:281-290 | a generated deck holds every card, each exactly once |
| Game.DistinctOccursOnce | Pokers.java:292-294 | in a deck without repeats every card occurs at most once |
| Game.RepeatOccursTwice | Pokers.java:292-294 | a card at two positions occurs at least twice |
| Game.PermutationKeepsDistinct | Pokers.java:292-294 | shuffling a deck without repeats leaves it without repeats |
| Game.SlicesDisjoint | Pokers.java:296-307 | in a deck without repeats, two disjoint stretches share no card |
| Game.DealtUpTo | Pokers.java:299-304 | the first p players take min(5p, deck size) cards |
| Game.DealtHand | Pokers.java:299-304 | each dealt hand has at most 5 cards; exactly 5 while the deck lasts; none once it is empty |
| Game.DealtHands | Pokers.java:296-307 | one hand per player, each of at most 5 cards and of exactly 5 while the deck lasts |
| Game.DealRest | Pokers.java:296-307 | the deck after the deal: 5 cards fewer per player while it lasts, empty once it runs out |
| Game.DealtHandsAreFront | Pokers.java:296-307 | the dealt hands, joined in registration order, are the front of the deck |
| Game.DealSplitsDeck | Pokers.java:296-307 | the dealt hands followed by the remaining deck are the whole deck, so no card is lost or duplicated |
| Game.DealIsDisjoint | Pokers.java:296-307 | from a deck without repeats, no card lands twice in a hand, in two hands, or in both a hand and the deck |
| Game.DrawCount | Pokers.java:265-270 | defined by the source's `0 < size <= 5` test on the discard list; the draw takes at most 5 cards, and either none or one per index |
| Game.DrawTotal | Pokers.java:247-277 | the draw step takes at most 5 cards per player |
| Game.DrawnHands | Pokers.java:247-277 | the draw step yields one hand per player |
| Game.DrawnHand | Pokers.java:265-272 | one player's hand after the draw keeps its length, and a refused discard list leaves it as it was |
| Game.DrawnHandsStep | Pokers.java:250-276 | the draw from player p on is player p's draw followed by the draw from p+1 on, over the rest of the deck |
| Game.DrawnHandCards | Pokers.java:265-272 | one player's draw keeps the hand free of repeats, and brings in only cards taken from the deck |
| Game.CutDisjoint | Pokers.java:266-270 | cutting a deck without repeats gives two disjoint parts without repeats |
| Game.PrependKeepsDisjoint | Pokers.java:250-276 | a new hand that shares no card with the others or the deck keeps the round without repeats |
| Game.DrawIsDisjoint | Pokers.java:247-277 | the draw keeps hands and deck free of shared cards, and every card held afterwards was the player's or came off the deck |
| Game.RoundIsDisjoint | Pokers.java:239-245 | a round dealt and drawn from a shuffle of a deck without repeats never shows a card twice |
| Game.PokerGame.constructor | Pokers.java:230-233 | a new game has no players and a full, generated deck |
| Game.PokerGame.AddPlayer | Pokers.java:235-237 | the player is appended to the registration order and the deck is untouched; registration stays duplicate-free iff the player was not yet registered |
| Game.PokerGame.ShuffleDeck | Pokers.java:292-294 | the deck becomes the given permutation of itself |
| Game.PokerGame.TakeFront | Pokers.java:301-304 | removes min(n, deck size) cards from the deck front and returns them in order |
| Game.PokerGame.DealCards | Pokers.java:296-307 | after shuffling, the players' hands are `DealtHands` of the shuffled deck and the deck is `DealRest`; categories and scores are untouched |
| Game.PokerGame.EvaluateHands | Pokers.java:309-318 | every player ends up scored for the current hand, and no hand changes |
| Game.PokerGame.DrawFor | Pokers.java:265-275 | the deck loses exactly `DrawCount(indices)` front cards, even when the player refuses them; the hand becomes `DrawnHand` of those cards |
| Game.PokerGame.DrawAt | Pokers.java:250-275 | on one player's turn, only that player's hand changes, to `DrawnHand` of the cards taken off the deck front; no category or score changes |
| Game.PokerGame.ReplaceCards | Pokers.java:247-277 | the hands become `DrawnHands(old hands, old deck, discards)` and the deck loses exactly `DrawTotal(discards)` front cards; categories and scores are untouched |
| Game.PokerGame.DetermineWinner | Pokers.java:320-337 | the winner is a player with the highest score; once every player is scored, all earlier players score strictly less, so the first player with the highest score wins |
| Game.PokerGame.StartGame | Pokers.java:239-245 | the final hands and deck are the deal then the draw of the shuffled deck; from a deck without repeats no card is shown twice; every player is scored for the final hand; the winner is the first player with the highest score |

## Left out

- Console input and output are not modelled: the prompts, the hand and
  category listings, and the winner announcement.
- The read-and-parse of each discard line (`Scanner.nextLine`, `split`,
  `Integer.parseInt`) is not modelled. The draw step receives each player's
  discard positions already parsed and converted to 0-based; an empty line is
  the empty list.
- `Collections.shuffle` is random and is not modelled. `DealCards` and
  `StartGame` take the shuffled deck as an input that must be a permutation of
  the current deck.
- The display names of suits, ranks and categories, and `Card.toString`, are
  presentation only and are left out.
- The `main` loop that builds games and asks whether to play again is not
  modelled; `StartGame` is one round.
- Game.PokerGame.ReplaceCards: requires that the deck holds every card the
  draw step takes. The source removes from an empty deck without a guard
  and fails there, and that failure is not modelled. `DrawFor` and
  `StartGame` carry the same precondition.
- Game.PokerGame.DetermineWinner: requires at least one player. With no
  players the source's `players.get(0)` throws, a state a player count of 0
  reaches, and that crash is not modelled. `StartGame` carries the same
  precondition.
- Game.PokerGame.DealCards: requires that no `Player` object is registered
  twice. The same holds for `EvaluateHands`, `ReplaceCards` and `StartGame`.
  With aliased players, a later write to the shared hand overwrites the
  earlier one, and the model does not describe that outcome. `AddPlayer`
  states exactly when registration stays duplicate-free.
- HandEvaluator.HandTests: asks `hasStraight` and `getPairCount` once each
  instead of at every test that uses them. Both only read the counter, so
  the chain sees the same answers.
- Players.Player.ReplaceCards: the two printed refusals are modelled as the
  boolean `ok` rather than as text.
