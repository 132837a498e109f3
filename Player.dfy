/** A player: a name, a hand that is replaced at the deal and patched at the
    draw, and the category and score recorded by the last evaluation. */
module Players {
  import opened Cards
  import HandEvaluator

  datatype Option<T> = None | Some(value: T)

  /** No card occurs twice. */
  ghost predicate Distinct(s: seq<Card>)
  {
    forall i, j :: 0 <= i < j < |s| ==> s[i] != s[j]
  }

  // ---------------------------------------------------------------------
  // What Player.replaceCards does to a hand
  // ---------------------------------------------------------------------

  /** The position of the first index that is not a position of a hand of
      the given size, or |indices| when every index is one. */
  function FirstOutOfRange(indices: seq<int>, size: nat): (k: nat)
    ensures k <= |indices|
    ensures forall j :: 0 <= j < k ==> 0 <= indices[j] < size
    ensures k < |indices| ==> !(0 <= indices[k] < size)
  {
    if |indices| == 0 then 0
    else if 0 <= indices[0] < size then 1 + FirstOutOfRange(indices[1..], size)
    else 0
  }

  /** The hand after writing cards[i] at position indices[i], for i in order. */
  function Overwrite(hand: seq<Card>, indices: seq<int>, cards: seq<Card>): (r: seq<Card>)
    requires |indices| == |cards|
    requires forall j :: 0 <= j < |indices| ==> 0 <= indices[j] < |hand|
    ensures |r| == |hand|
  {
    if |indices| == 0 then hand
    else
      var n := |indices| - 1;
      Overwrite(hand, indices[..n], cards[..n])[indices[n] := cards[n]]
  }

  /** The hand after Player.replaceCards(indices, newCards): untouched when
      the lengths differ; otherwise the writes before the first out-of-range
      index, which stay in place when the loop gives up there. */
  function Replaced(hand: seq<Card>, indices: seq<int>, newCards: seq<Card>): (r: seq<Card>)
    ensures |r| == |hand|
  {
    if |indices| != |newCards| then hand
    else
      var k := FirstOutOfRange(indices, |hand|);
      Overwrite(hand, indices[..k], newCards[..k])
  }

  /** A position that no index names keeps its card. */
  lemma {:induction false} OverwriteUntouched(hand: seq<Card>, indices: seq<int>, cards: seq<Card>, p: int)
    requires |indices| == |cards|
    requires forall j :: 0 <= j < |indices| ==> 0 <= indices[j] < |hand|
    requires 0 <= p < |hand| && p !in indices
    ensures Overwrite(hand, indices, cards)[p] == hand[p]
  {
    if |indices| > 0 {
      var n := |indices| - 1;
      assert indices[n] in indices;
      assert forall x :: x in indices[..n] ==> x in indices;
      OverwriteUntouched(hand, indices[..n], cards[..n], p);
    }
  }

  /** The last write to a position wins. */
  lemma {:induction false} OverwriteLastWins(hand: seq<Card>, indices: seq<int>, cards: seq<Card>, i: nat)
    requires |indices| == |cards|
    requires forall j :: 0 <= j < |indices| ==> 0 <= indices[j] < |hand|
    requires i < |indices|
    requires forall j :: i < j < |indices| ==> indices[j] != indices[i]
    ensures Overwrite(hand, indices, cards)[indices[i]] == cards[i]
  {
    var n := |indices| - 1;
    if i < n {
      OverwriteLastWins(hand, indices[..n], cards[..n], i);
    }
  }

  /** Every card of the result comes from the hand or from the new cards,
      and writing cards that are new to the hand never makes a duplicate. */
  lemma {:induction false} OverwriteCards(hand: seq<Card>, indices: seq<int>, cards: seq<Card>)
    requires |indices| == |cards|
    requires forall j :: 0 <= j < |indices| ==> 0 <= indices[j] < |hand|
    ensures forall c :: c in Overwrite(hand, indices, cards) ==> c in hand || c in cards
    ensures Distinct(hand + cards) ==> Distinct(Overwrite(hand, indices, cards))
  {
    if |indices| == 0 {
      assert hand + cards == hand;
    } else {
      var n := |indices| - 1;
      var prev := Overwrite(hand, indices[..n], cards[..n]);
      OverwriteCards(hand, indices[..n], cards[..n]);
      assert forall c :: c in cards[..n] ==> c in cards;
      if Distinct(hand + cards) {
        var all := hand + cards;
        assert hand + cards[..n] == all[..|hand| + n];
        assert cards[n] == all[|hand| + n];
        assert forall i :: 0 <= i < |hand| ==> hand[i] == all[i];
        assert forall i :: 0 <= i < n ==> cards[..n][i] == all[|hand| + i];
        assert cards[n] !in hand && cards[n] !in cards[..n];
        assert cards[n] !in prev;
      }
    }
  }

  /** What Player.replaceCards promises, stated on Replaced itself: a length
      mismatch changes nothing; the writes stop at the first out-of-range
      index, so a position that no earlier index names keeps its card; and a
      write made before that point, and not overwritten before it, lands in
      place. */
  lemma ReplacedPromises(hand: seq<Card>, indices: seq<int>, newCards: seq<Card>)
    ensures |indices| != |newCards| ==> Replaced(hand, indices, newCards) == hand
    ensures |indices| == |newCards| ==>
              forall p :: 0 <= p < |hand| && p !in indices[..FirstOutOfRange(indices, |hand|)] ==>
                Replaced(hand, indices, newCards)[p] == hand[p]
    ensures |indices| == |newCards| ==>
              forall i :: 0 <= i < FirstOutOfRange(indices, |hand|) &&
                          (forall j :: i < j < FirstOutOfRange(indices, |hand|) ==> indices[j] != indices[i]) ==>
                Replaced(hand, indices, newCards)[indices[i]] == newCards[i]
  {
    if |indices| == |newCards| {
      var k := FirstOutOfRange(indices, |hand|);
      var done, cards := indices[..k], newCards[..k];
      var r := Overwrite(hand, done, cards);
      assert Replaced(hand, indices, newCards) == r;
      forall p | 0 <= p < |hand| && p !in done ensures r[p] == hand[p] {
        OverwriteUntouched(hand, done, cards, p);
      }
      forall i | 0 <= i < k && (forall j :: i < j < k ==> indices[j] != indices[i])
        ensures r[indices[i]] == newCards[i]
      {
        assert forall j :: i < j < |done| ==> done[j] != done[i];
        OverwriteLastWins(hand, done, cards, i);
      }
    }
  }

  // ---------------------------------------------------------------------
  // The player
  // ---------------------------------------------------------------------

  class Player {
    const name: string
    var hand: seq<Card>
    /** The last evaluated category; None until calculateScore first runs. */
    var handRank: Option<HandRank>
    var score: int

    /** A category has been recorded and the score is that category's score. */
    ghost predicate Evaluated()
      reads this
    {
      handRank.Some? && score == handRank.value.Score()
    }

    /** handRank and score as calculateScore leaves them, for the current hand. */
    ghost predicate Scored()
      reads this
    {
      Evaluated() && handRank.value == HandEvaluator.Classify(hand)
    }

    constructor(name: string)
      ensures this.name == name && hand == [] && handRank == None && score == 0
    {
      this.name := name;
      hand := [];
      handRank := None;
      score := 0;
    }

    method SetHand(cards: seq<Card>)
      modifies this
      ensures hand == cards && handRank == old(handRank) && score == old(score)
    {
      hand := cards;
    }

    /** Player.replaceCards. ok is false exactly when the source prints one of
        its two refusals (length mismatch, index out of range). */
    method ReplaceCards(indices: seq<int>, newCards: seq<Card>) returns (ok: bool)
      modifies this
      ensures hand == Replaced(old(hand), indices, newCards)
      ensures ok <==> |indices| == |newCards| && FirstOutOfRange(indices, |old(hand)|) == |indices|
      ensures handRank == old(handRank) && score == old(score)
    {
      if |indices| != |newCards| {
        return false;
      }
      ghost var k := FirstOutOfRange(indices, |hand|);
      for i := 0 to |indices|
        invariant i <= k
        invariant hand == Overwrite(old(hand), indices[..i], newCards[..i])
        invariant handRank == old(handRank) && score == old(score)
      {
        var index := indices[i];
        if 0 <= index < |hand| {
          assert indices[..i + 1][..i] == indices[..i] && newCards[..i + 1][..i] == newCards[..i];
          hand := hand[index := newCards[i]];
        } else {
          return false;
        }
      }
      assert indices[..|indices|] == indices;
      return true;
    }

    /** Player.calculateScore: evaluate the hand and store category and score. */
    method CalculateScore()
      modifies this
      ensures Scored()
      ensures hand == old(hand)
    {
      var hr := HandEvaluator.EvaluateHandRank(hand);
      handRank := Some(hr);
      score := hr.Score();
    }
  }
}
