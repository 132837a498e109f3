/** One round of five-card draw: a fresh deck, the deal, the evaluation, the
    draw of replacements from the deck front, the second evaluation and the
    choice of the winner. */
module Game {
  import opened Cards
  import opened Players
  import HandEvaluator

  // ---------------------------------------------------------------------
  // The deck
  // ---------------------------------------------------------------------

  /** PokerGame.generateDeck: for each suit in order, each rank in order. */
  method GenerateDeck() returns (deck: seq<Card>)
    ensures |deck| == 52
    ensures forall i :: 0 <= i < |deck| ==> CardIndex(deck[i]) == i
  {
    deck := [];
    for s := 0 to 4
      invariant |deck| == 13 * s
      invariant forall i :: 0 <= i < |deck| ==> CardIndex(deck[i]) == i
    {
      for r := 0 to 13
        invariant |deck| == 13 * s + r
        invariant forall i :: 0 <= i < |deck| ==> CardIndex(deck[i]) == i
      {
        deck := deck + [Card(SuitAt(s), RankAt(r))];
      }
    }
  }

  /** 52 cards, the card at position i being the i-th (suit, rank) pair in suit-major order. */
  ghost predicate IsFullDeck(deck: seq<Card>)
  {
    |deck| == 52 && forall i :: 0 <= i < |deck| ==> CardIndex(deck[i]) == i
  }

  /** A full deck holds every card exactly once. */
  lemma FullDeckHoldsEveryCardOnce(deck: seq<Card>)
    requires IsFullDeck(deck)
    ensures Distinct(deck)
    ensures forall c :: c in deck
  {
    forall c ensures c in deck {
      CardIndexInjective(deck[CardIndex(c)], c);
    }
  }

  lemma {:induction false} DistinctOccursOnce(s: seq<Card>, x: Card)
    requires Distinct(s)
    ensures multiset(s)[x] <= 1
  {
    if |s| > 0 {
      var n := |s| - 1;
      assert s == s[..n] + [s[n]];
      assert forall i :: 0 <= i < n ==> s[..n][i] == s[i];
      DistinctOccursOnce(s[..n], x);
    }
  }

  lemma RepeatOccursTwice(s: seq<Card>, i: nat, j: nat)
    requires i < j < |s|
    ensures s[i] == s[j] ==> multiset(s)[s[i]] >= 2
  {
    assert s == s[..j] + [s[j]] + s[j + 1..];
    assert s[..j][i] == s[i];
  }

  /** A shuffle, being a permutation, keeps a deck free of duplicates. */
  lemma PermutationKeepsDistinct(a: seq<Card>, b: seq<Card>)
    requires multiset(a) == multiset(b) && Distinct(a)
    ensures Distinct(b)
  {
    forall i, j | 0 <= i < j < |b| ensures b[i] != b[j] {
      RepeatOccursTwice(b, i, j);
      DistinctOccursOnce(a, b[i]);
    }
  }

  /** Cards taken from disjoint stretches of a deck without duplicates are different cards. */
  lemma SlicesDisjoint(s: seq<Card>, a: nat, b: nat, c: nat, d: nat)
    requires Distinct(s) && a <= b <= c <= d <= |s|
    ensures forall x :: x in s[a..b] ==> x !in s[c..d] && x in s
    ensures Distinct(s[a..b])
  {
    forall x | x in s[a..b] ensures x !in s[c..d] && x in s {
      var i :| a <= i < b && s[i] == x;
      assert forall j :: c <= j < d ==> s[j] != x;
      assert forall k :: 0 <= k < d - c ==> s[c..d][k] == s[c + k];
    }
  }

  // ---------------------------------------------------------------------
  // The deal and the draw, as functions of the deck
  // ---------------------------------------------------------------------

  /** How many cards the first p players take from a deck of n cards. */
  function DealtUpTo(p: nat, n: nat): (k: nat)
    ensures k <= n && k <= 5 * p
    ensures k == 5 * p || k == n
  {
    if 5 * p <= n then 5 * p else n
  }

  /** The hand of player p: the next min(5, remaining) cards of the deck. */
  function DealtHand(deck: seq<Card>, p: nat): (h: seq<Card>)
    ensures |h| <= 5
    ensures 5 * (p + 1) <= |deck| ==> |h| == 5
    ensures 5 * p >= |deck| ==> h == []
  {
    deck[DealtUpTo(p, |deck|)..DealtUpTo(p + 1, |deck|)]
  }

  /** The hands of count players dealt from the front of deck, in registration order. */
  function DealtHands(deck: seq<Card>, count: nat): (hands: seq<seq<Card>>)
    ensures |hands| == count
    ensures forall p :: 0 <= p < count ==> |hands[p]| <= 5
    ensures forall p :: 0 <= p < count && 5 * (p + 1) <= |deck| ==> |hands[p]| == 5
  {
    seq(count, p requires 0 <= p < count => DealtHand(deck, p))
  }

  /** What is left of the deck after dealing to count players. */
  function DealRest(deck: seq<Card>, count: nat): (rest: seq<Card>)
    ensures 5 * count <= |deck| ==> |rest| == |deck| - 5 * count
    ensures 5 * count >= |deck| ==> rest == []
  {
    deck[DealtUpTo(count, |deck|)..]
  }

  function Flatten(hands: seq<seq<Card>>): seq<Card>
  {
    if |hands| == 0 then [] else Flatten(hands[..|hands| - 1]) + hands[|hands| - 1]
  }

  /** The dealt hands, in registration order, are the front of the deck. */
  lemma {:induction false} DealtHandsAreFront(deck: seq<Card>, count: nat)
    ensures Flatten(DealtHands(deck, count)) == deck[..DealtUpTo(count, |deck|)]
  {
    if count > 0 {
      DealtHandsAreFront(deck, count - 1);
      var hands, prev := DealtHands(deck, count), DealtHands(deck, count - 1);
      var a, b := DealtUpTo(count - 1, |deck|), DealtUpTo(count, |deck|);
      assert hands[..count - 1] == prev;
      assert deck[..b] == deck[..a] + deck[a..b];
    }
  }

  /** The dealt hands followed by the rest of the deck are the deck itself:
      no card is lost or duplicated by the deal. */
  lemma DealSplitsDeck(deck: seq<Card>, count: nat)
    ensures Flatten(DealtHands(deck, count)) + DealRest(deck, count) == deck
  {
    DealtHandsAreFront(deck, count);
    assert deck[..DealtUpTo(count, |deck|)] + deck[DealtUpTo(count, |deck|)..] == deck;
  }

  /** The round invariant: no card sits twice in a hand or in the deck, in
      two hands, or in a hand and the deck. */
  ghost predicate RoundDisjoint(hands: seq<seq<Card>>, deck: seq<Card>)
  {
    && Distinct(deck)
    && (forall p :: 0 <= p < |hands| ==> Distinct(hands[p]))
    && (forall p, q, c :: 0 <= p < q < |hands| && c in hands[p] ==> c !in hands[q])
    && (forall p, c :: 0 <= p < |hands| && c in hands[p] ==> c !in deck)
  }

  /** Dealing from a deck without duplicates gives disjoint hands and leaves
      none of their cards in the deck. */
  lemma DealIsDisjoint(deck: seq<Card>, count: nat)
    requires Distinct(deck)
    ensures RoundDisjoint(DealtHands(deck, count), DealRest(deck, count))
  {
    var n := |deck|;
    var hands := DealtHands(deck, count);
    forall p | 0 <= p < count ensures Distinct(hands[p]) && forall c :: c in hands[p] ==> c !in DealRest(deck, count) {
      SlicesDisjoint(deck, DealtUpTo(p, n), DealtUpTo(p + 1, n), DealtUpTo(count, n), n);
    }
    forall p, q | 0 <= p < q < count ensures forall c :: c in hands[p] ==> c !in hands[q] {
      SlicesDisjoint(deck, DealtUpTo(p, n), DealtUpTo(p + 1, n), DealtUpTo(q, n), DealtUpTo(q + 1, n));
    }
    SlicesDisjoint(deck, DealtUpTo(count, n), n, n, n);
    assert DealRest(deck, count) == deck[DealtUpTo(count, n)..n];
  }

  /** How many cards the draw step takes from the deck for one discard list:
      all of them for one to five indices, none otherwise. */
  function DrawCount(indices: seq<int>): (k: nat)
    ensures k <= 5
    ensures k == 0 || k == |indices|
  {
    if 0 < |indices| <= 5 then |indices| else 0
  }

  /** How many cards the draw step takes from the deck for all the players. */
  function DrawTotal(discards: seq<seq<int>>): (k: nat)
    ensures k <= 5 * |discards|
  {
    if |discards| == 0 then 0 else DrawCount(discards[0]) + DrawTotal(discards[1..])
  }

  /** One player's hand after the draw, drawn being the DrawCount(indices)
      cards taken off the deck for that player: Player.replaceCards with them,
      or the old hand when the discard list is refused. */
  function DrawnHand(hand: seq<Card>, indices: seq<int>, drawn: seq<Card>): (r: seq<Card>)
    ensures |r| == |hand|
    ensures DrawCount(indices) == 0 ==> r == hand
  {
    if DrawCount(indices) == 0 then hand else Replaced(hand, indices, drawn)
  }

  /** The players' hands after the draw step for the players from here on:
      each player in turn takes its cards off the deck front, so what is
      left of the deck afterwards is deck[DrawTotal(discards)..]. */
  function DrawnHands(hands: seq<seq<Card>>, deck: seq<Card>, discards: seq<seq<int>>): (r: seq<seq<Card>>)
    requires |hands| == |discards| && DrawTotal(discards) <= |deck|
    ensures |r| == |hands|
    decreases |hands|
  {
    if |hands| == 0 then []
    else
      var k := DrawCount(discards[0]);
      [DrawnHand(hands[0], discards[0], deck[..k])] + DrawnHands(hands[1..], deck[k..], discards[1..])
  }

  /** One unfolding of the draw step on its first player. */
  lemma DrawnHandsUnfold(hands: seq<seq<Card>>, deck: seq<Card>, discards: seq<seq<int>>)
    requires |hands| == |discards| && 0 < |hands|
    requires DrawTotal(discards) <= |deck|
    ensures DrawTotal(discards) == DrawCount(discards[0]) + DrawTotal(discards[1..])
    ensures DrawnHands(hands, deck, discards)[0] == DrawnHand(hands[0], discards[0], deck[..DrawCount(discards[0])])
    ensures DrawnHands(hands, deck, discards)[1..] ==
              DrawnHands(hands[1..], deck[DrawCount(discards[0])..], discards[1..])
  {
  }

  /** The draw step from player p on is player p's draw followed by the
      draw step from player p + 1 on, on what is left of the deck. */
  lemma DrawnHandsStep(hands: seq<seq<Card>>, deck: seq<Card>, discards: seq<seq<int>>, p: nat)
    requires |hands| == |discards| && p < |hands|
    requires DrawTotal(discards[p..]) <= |deck|
    ensures DrawTotal(discards[p..]) == DrawCount(discards[p]) + DrawTotal(discards[p + 1..])
    ensures DrawnHands(hands[p..], deck, discards[p..])[0] ==
              DrawnHand(hands[p], discards[p], deck[..DrawCount(discards[p])])
    ensures DrawnHands(hands[p..], deck, discards[p..])[1..] ==
              DrawnHands(hands[p + 1..], deck[DrawCount(discards[p])..], discards[p + 1..])
    ensures deck[DrawTotal(discards[p..])..] ==
              deck[DrawCount(discards[p])..][DrawTotal(discards[p + 1..])..]
  {
    var hs, ds := hands[p..], discards[p..];
    assert hs[0] == hands[p] && ds[0] == discards[p];
    assert hs[1..] == hands[p + 1..] && ds[1..] == discards[p + 1..];
    DrawnHandsUnfold(hs, deck, ds);
  }

  /** One player's draw keeps the hand free of duplicates and brings in no
      card but the ones taken from the deck. */
  lemma DrawnHandCards(hand: seq<Card>, indices: seq<int>, drawn: seq<Card>)
    requires |drawn| == DrawCount(indices)
    requires Distinct(hand) && Distinct(drawn)
    requires forall c :: c in hand ==> c !in drawn
    ensures Distinct(DrawnHand(hand, indices, drawn))
    ensures forall c :: c in DrawnHand(hand, indices, drawn) ==> c in hand || c in drawn
  {
    if DrawCount(indices) > 0 {
      var k := FirstOutOfRange(indices, |hand|);
      var all := hand + drawn[..k];
      forall i, j | 0 <= i < j < |all| ensures all[i] != all[j] {
        if j < |hand| {
          assert all[i] == hand[i] && all[j] == hand[j];
        } else if i < |hand| {
          assert all[i] == hand[i] && all[j] == drawn[j - |hand|];
          assert drawn[j - |hand|] in drawn;
        } else {
          assert all[i] == drawn[i - |hand|] && all[j] == drawn[j - |hand|];
        }
      }
      OverwriteCards(hand, indices[..k], drawn[..k]);
      assert forall c :: c in drawn[..k] ==> c in drawn;
    }
  }

  /** A deck without duplicates, cut in two, gives two disjoint parts
      without duplicates. */
  lemma CutDisjoint(deck: seq<Card>, k: nat)
    requires Distinct(deck) && k <= |deck|
    ensures Distinct(deck[..k]) && Distinct(deck[k..])
    ensures forall c :: c in deck[..k] ==> c !in deck[k..] && c in deck
    ensures forall c :: c in deck[k..] ==> c in deck
  {
    SlicesDisjoint(deck, 0, k, k, |deck|);
    SlicesDisjoint(deck, k, |deck|, |deck|, |deck|);
    assert deck[..k] == deck[0..k] && deck[k..] == deck[k..|deck|];
  }

  /** A hand without duplicates that shares no card with the other hands or
      the deck can join them without breaking the round invariant. */
  lemma PrependKeepsDisjoint(h0: seq<Card>, hands: seq<seq<Card>>, deck: seq<Card>)
    requires RoundDisjoint(hands, deck) && Distinct(h0)
    requires forall q, c :: 0 <= q < |hands| && c in h0 ==> c !in hands[q]
    requires forall c :: c in h0 ==> c !in deck
    ensures RoundDisjoint([h0] + hands, deck)
  {
    var all := [h0] + hands;
    assert forall q :: 0 < q < |all| ==> all[q] == hands[q - 1];
  }

  /** The draw step keeps the round invariant, and every card a player holds
      after it was that player's card or came off the deck: replacements come
      off the front of the deck, and discarded or wasted cards leave play. */
  lemma {:induction false} DrawIsDisjoint(hands: seq<seq<Card>>, deck: seq<Card>, discards: seq<seq<int>>)
    requires |hands| == |discards| && DrawTotal(discards) <= |deck|
    requires RoundDisjoint(hands, deck)
    ensures RoundDisjoint(DrawnHands(hands, deck, discards), deck[DrawTotal(discards)..])
    ensures forall p, c :: 0 <= p < |hands| && c in DrawnHands(hands, deck, discards)[p] ==>
              c in hands[p] || c in deck
    decreases |hands|
  {
    if |hands| > 0 {
      var k := DrawCount(discards[0]);
      var r := DrawnHands(hands, deck, discards);
      var rest := DrawnHands(hands[1..], deck[k..], discards[1..]);
      var h0 := DrawnHand(hands[0], discards[0], deck[..k]);
      var left := deck[DrawTotal(discards)..];
      var t := DrawTotal(discards[1..]);
      assert r == [h0] + rest;
      assert left == deck[k..][t..];
      CutDisjoint(deck, k);
      DrawnHandCards(hands[0], discards[0], deck[..k]);
      assert RoundDisjoint(hands[1..], deck[k..]);
      DrawIsDisjoint(hands[1..], deck[k..], discards[1..]);
      assert forall q :: 0 <= q < |rest| ==> hands[1..][q] == hands[q + 1];
      assert forall c :: c in left ==> c in deck[k..];
      forall q, c | 0 <= q < |rest| && c in h0 ensures c !in rest[q] {
        if c in hands[0] {
          assert c !in hands[q + 1] && c !in deck;
        } else {
          assert c in deck[..k] && c in deck;
          assert c !in hands[q + 1];
        }
        assert c !in deck[k..];
      }
      forall c | c in h0 ensures c !in left {
        if c in hands[0] {
          assert c !in deck;
        }
      }
      PrependKeepsDisjoint(h0, rest, left);
      forall q, c | 0 < q < |hands| && c in r[q] ensures c in hands[q] || c in deck {
        assert r[q] == rest[q - 1];
      }
    }
  }

  /** Finishing position p of a sequence that is done up to p. */
  lemma AdvanceDone(done: seq<seq<Card>>, todo: seq<seq<Card>>, p: nat)
    requires |done| == |todo| && p < |todo|
    ensures (done[..p] + todo[p..])[p] == todo[p]
    ensures (done[..p] + todo[p..])[p := done[p]] == done[..p + 1] + todo[p + 1..]
  {
    var moved, target := (done[..p] + todo[p..])[p := done[p]], done[..p + 1] + todo[p + 1..];
    assert forall i :: 0 <= i < |moved| ==> moved[i] == target[i];
  }

  /** A round dealt and drawn from a shuffle of a deck without repeats never
      shows a card twice: no hand repeats a card, no two hands share one, and
      none of them is left in the deck. */
  lemma RoundIsDisjoint(deck: seq<Card>, shuffled: seq<Card>, count: nat, discards: seq<seq<int>>,
                        hands: seq<seq<Card>>, left: seq<Card>)
    requires Distinct(deck) && multiset(shuffled) == multiset(deck)
    requires |discards| == count
    requires DrawTotal(discards) <= |DealRest(shuffled, count)|
    requires hands == DrawnHands(DealtHands(shuffled, count), DealRest(shuffled, count), discards)
    requires left == DealRest(shuffled, count)[DrawTotal(discards)..]
    ensures RoundDisjoint(hands, left)
  {
    PermutationKeepsDistinct(deck, shuffled);
    DealIsDisjoint(shuffled, count);
    DrawIsDisjoint(DealtHands(shuffled, count), DealRest(shuffled, count), discards);
  }

  // ---------------------------------------------------------------------
  // The round controller
  // ---------------------------------------------------------------------

  class PokerGame {
    var players: seq<Player>
    var deck: seq<Card>

    /** No Player object is registered twice. */
    ghost predicate DistinctPlayers()
      reads this`players
    {
      forall i, j :: 0 <= i < j < |players| ==> players[i] != players[j]
    }

    /** The players' hands, in registration order. */
    ghost function Hands(): seq<seq<Card>>
      reads this`players, players
    {
      var ps := players;
      seq(|ps|, i requires 0 <= i < |ps| reads ps => ps[i].hand)
    }

    /** The players' recorded categories and scores, in registration order. */
    ghost function Marks(): seq<(Option<HandRank>, int)>
      reads this`players, players
    {
      var ps := players;
      seq(|ps|, i requires 0 <= i < |ps| reads ps => (ps[i].handRank, ps[i].score))
    }

    constructor()
      ensures players == [] && IsFullDeck(deck)
    {
      var generated := GenerateDeck();
      players := [];
      deck := generated;
    }

    /** PokerGame.addPlayer: registration order is the order of the deal,
        the draw and the winner scan. */
    method AddPlayer(player: Player)
      modifies this
      ensures players == old(players) + [player] && deck == old(deck)
      ensures DistinctPlayers() <==> old(DistinctPlayers()) && player !in old(players)
    {
      ghost var before := players;
      players := players + [player];
      assert forall i :: 0 <= i < |before| ==> players[i] == before[i] && before[i] in before;
      if player in before {
        var i :| 0 <= i < |before| && before[i] == player;
        assert players[i] == players[|before|];
      }
    }

    /** Collections.shuffle: the deck becomes the given permutation of itself. */
    method ShuffleDeck(shuffled: seq<Card>)
      requires multiset(shuffled) == multiset(deck)
      modifies this
      ensures deck == shuffled && players == old(players)
    {
      deck := shuffled;
    }

    /** Removes the first n cards of the deck, or all of them when fewer
        are left, and returns them in deck order. */
    method TakeFront(n: nat) returns (taken: seq<Card>)
      modifies this`deck
      ensures taken + deck == old(deck)
      ensures |taken| == if n <= |old(deck)| then n else |old(deck)|
    {
      taken := [];
      var i := 0;
      while i < n && deck != []
        invariant 0 <= i <= n && i <= |old(deck)|
        invariant taken == old(deck)[..i] && deck == old(deck)[i..]
      {
        assert old(deck)[..i + 1] == old(deck)[..i] + [deck[0]];
        taken := taken + [deck[0]];
        deck := deck[1..];
        i := i + 1;
      }
      assert old(deck)[..i] + old(deck)[i..] == old(deck);
    }

    /** PokerGame.dealCards: shuffle, then give every player in registration
        order the next min(5, remaining) cards off the deck front. */
    method DealCards(shuffled: seq<Card>)
      requires DistinctPlayers() && multiset(shuffled) == multiset(deck)
      modifies this, players
      ensures players == old(players)
      ensures Hands() == DealtHands(shuffled, |players|)
      ensures deck == DealRest(shuffled, |players|)
      ensures Marks() == old(Marks())
    {
      ghost var marks0 := Marks();
      ShuffleDeck(shuffled);
      ghost var n := |shuffled|;
      ghost var dealt := DealtHands(shuffled, |players|);
      for p := 0 to |players|
        invariant players == old(players)
        invariant deck == shuffled[DealtUpTo(p, n)..]
        invariant forall i :: 0 <= i < |players| ==>
                    && (i < p ==> players[i].hand == dealt[i])
                    && players[i].handRank == old(players[i].handRank) && players[i].score == old(players[i].score)
      {
        ghost var before := deck;
        var hand := TakeFront(5);
        assert hand == before[..|hand|] == dealt[p];
        players[p].SetHand(hand);
      }
      ghost var now, marks := Hands(), Marks();
      assert forall i :: 0 <= i < |players| ==> now[i] == players[i].hand && marks[i] == marks0[i];
      assert now == dealt;
    }

    /** PokerGame.evaluateHands: calculateScore on every player. */
    method EvaluateHands()
      requires DistinctPlayers()
      modifies players
      ensures players == old(players) && deck == old(deck)
      ensures Hands() == old(Hands())
      ensures forall i :: 0 <= i < |players| ==> players[i].Scored()
    {
      for p := 0 to |players|
        invariant forall i :: 0 <= i < |players| ==>
                    players[i].hand == old(players[i].hand) && (i < p ==> players[i].Scored())
      {
        players[p].CalculateScore();
      }
      assert Hands() == old(Hands());
    }

    /** One player's turn of the draw step: one to five indices take that
        many cards off the deck front and hand them to Player.replaceCards;
        anything else leaves the player and the deck alone. */
    method DrawFor(player: Player, indices: seq<int>)
      requires DrawCount(indices) <= |deck|
      modifies this`deck, player
      ensures deck == old(deck)[DrawCount(indices)..]
      ensures player.hand == DrawnHand(old(player.hand), indices, old(deck)[..DrawCount(indices)])
      ensures player.handRank == old(player.handRank) && player.score == old(player.score)
    {
      if 0 < |indices| <= 5 {
        var newCards := TakeFront(|indices|);
        assert newCards == old(deck)[..|indices|];
        var _ := player.ReplaceCards(indices, newCards);
      }
    }

    /** The turn of the player at position p, as the draw loop sees it: that
        player's hand is drawn, no other hand changes, and no category or
        score changes. */
    method DrawAt(p: nat, indices: seq<int>)
      requires DistinctPlayers() && p < |players|
      requires DrawCount(indices) <= |deck|
      modifies this`deck, players[p]
      ensures deck == old(deck)[DrawCount(indices)..]
      ensures Hands() == old(Hands())[p := DrawnHand(old(Hands())[p], indices, old(deck)[..DrawCount(indices)])]
      ensures Marks() == old(Marks())
    {
      ghost var hands0, marks0 := Hands(), Marks();
      ghost var drawn := DrawnHand(hands0[p], indices, deck[..DrawCount(indices)]);
      assert forall i :: 0 <= i < |players| && i != p ==> players[i] != players[p];
      DrawFor(players[p], indices);
      ghost var hands, marks := Hands(), Marks();
      assert forall i :: 0 <= i < |players| ==> hands[i] == hands0[p := drawn][i] && marks[i] == marks0[i];
    }

    /** The draw step of PokerGame.replaceCards, given each player's already
        parsed 0-based discard list: one to five indices take that many cards
        off the deck front and hand them to Player.replaceCards; anything else
        leaves the player alone. */
    method ReplaceCards(discards: seq<seq<int>>)
      requires DistinctPlayers() && |discards| == |players|
      requires DrawTotal(discards) <= |deck|
      modifies this, players
      ensures players == old(players)
      ensures Hands() == DrawnHands(old(Hands()), old(deck), discards)
      ensures deck == old(deck)[DrawTotal(discards)..]
      ensures Marks() == old(Marks())
    {
      ghost var hands0 := Hands();
      ghost var final := DrawnHands(hands0, deck, discards);
      ghost var left := deck[DrawTotal(discards)..];
      assert hands0[0..] == hands0 && discards[0..] == discards;
      assert Hands() == final[..0] + hands0[0..];
      for p := 0 to |players|
        invariant players == old(players)
        invariant DrawTotal(discards[p..]) <= |deck|
        invariant left == deck[DrawTotal(discards[p..])..]
        invariant DrawnHands(hands0[p..], deck, discards[p..]) == final[p..]
        invariant Hands() == final[..p] + hands0[p..]
        invariant Marks() == old(Marks())
      {
        DrawnHandsStep(hands0, deck, discards, p);
        assert final[p..][1..] == final[p + 1..] && final[p..][0] == final[p];
        AdvanceDone(final, hands0, p);
        DrawAt(p, discards[p]);
      }
      assert final[..|players|] + hands0[|players|..] == final;
    }

    /** PokerGame.determineWinner: one pass that keeps the first player and
        replaces the winner by a later player with a strictly higher score, or
        with an equal score and a strictly higher category score. */
    method DetermineWinner() returns (winner: Player, w: nat)
      requires |players| > 0
      requires forall i :: 0 <= i < |players| ==> players[i].handRank.Some?
      ensures w < |players| && winner == players[w]
      ensures forall i :: 0 <= i < |players| ==> players[i].score <= winner.score
      ensures (forall i :: 0 <= i < |players| ==> players[i].Evaluated()) ==>
                forall i :: 0 <= i < w ==> players[i].score < winner.score
    {
      winner, w := players[0], 0;
      for i := 1 to |players|
        invariant w < i && winner == players[w]
        invariant forall j :: 0 <= j < i ==> players[j].score <= winner.score
        invariant (forall j :: 0 <= j < |players| ==> players[j].Evaluated()) ==>
                    forall j :: 0 <= j < w ==> players[j].score < winner.score
      {
        var current := players[i];
        if current.score > winner.score {
          winner, w := current, i;
        } else if current.score == winner.score {
          if current.handRank.value.Score() > winner.handRank.value.Score() {
            winner, w := current, i;
          }
        }
      }
    }

    /** PokerGame.startGame: deal, evaluate, draw, evaluate, pick the winner. */
    method StartGame(shuffled: seq<Card>, discards: seq<seq<int>>) returns (winner: Player, w: nat)
      requires DistinctPlayers() && |players| > 0
      requires multiset(shuffled) == multiset(deck)
      requires |discards| == |players|
      requires DrawTotal(discards) <= |DealRest(shuffled, |players|)|
      modifies this, players
      ensures players == old(players)
      ensures Hands() == DrawnHands(DealtHands(shuffled, |players|), DealRest(shuffled, |players|), discards)
      ensures deck == DealRest(shuffled, |players|)[DrawTotal(discards)..]
      ensures Distinct(old(deck)) ==> RoundDisjoint(Hands(), deck)
      ensures forall i :: 0 <= i < |players| ==> players[i].Scored()
      ensures w < |players| && winner == players[w]
      ensures forall i :: 0 <= i < |players| ==> players[i].score <= winner.score
      ensures forall i :: 0 <= i < w ==> players[i].score < winner.score
    {
      ghost var deck0 := deck;
      DealCards(shuffled);
      EvaluateHands();
      ghost var dealt := Hands();
      ghost var rest := deck;
      ReplaceCards(discards);
      EvaluateHands();
      if Distinct(deck0) {
        RoundIsDisjoint(deck0, shuffled, |players|, discards, Hands(), deck);
      }
      winner, w := DetermineWinner();
    }
  }
}
