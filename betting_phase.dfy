/** The betting screen (src/components/BettingPhase.tsx): clamping a bet, the running
    total, and the block on a total that equals the hand size. */
module BettingPhase {
  import opened Common

  /** A bet pulled into 0 .. cards: below 0 becomes 0, above the hand size becomes the
      hand size (BettingPhase.tsx:29). */
  function Clamp(value: int, cards: int): (r: int)
    ensures 0 <= r
    ensures 0 <= cards ==> r <= cards
    ensures 0 <= value <= cards ==> r == value
    ensures value < 0 ==> r == 0
    ensures 0 <= cards < value ==> r == cards
  {
    var low := if cards < value then cards else value;
    if 0 > low then 0 else low
  }

  /** `handleBetChange(i, value)`: a copy of the bets with slot i set to the clamped value;
      with no hand size yet it changes nothing. */
  function HandleBetChange(bets: seq<int>, cards: Option<int>, i: nat, value: int): (r: seq<int>)
    requires i < |bets|
    ensures cards.None? ==> r == bets
    ensures |r| == |bets|
    ensures forall j :: 0 <= j < |r| && j != i ==> r[j] == bets[j]
    ensures cards.Some? ==> r[i] == Clamp(value, cards.value)
    ensures cards.Some? && cards.value >= 0 ==> 0 <= r[i] <= cards.value
  {
    match cards
    case None => bets
    case Some(c) => bets[i := Clamp(value, c)]
  }

  /** `totalBets`: the sum of every player's bet. Seen from any one seat, it is that
      seat's bet plus the bets of everyone else. */
  function TotalBets(bets: seq<int>): (t: int)
    ensures bets == [] ==> t == 0
    ensures forall k {:trigger Without(bets, k)} :: 0 <= k < |bets| ==>
              t == bets[k] + Sum(Without(bets, k))
  {
    forall k | 0 <= k < |bets|
      ensures Sum(bets) == bets[k] + Sum(Without(bets, k))
    {
      SplitAt(bets, k);
    }
    Sum(bets)
  }

  /** The sum of a sequence is the entry at k plus the sum of the entries around it. */
  lemma SplitAt(bets: seq<int>, k: nat)
    requires k < |bets|
    ensures Sum(bets) == bets[k] + Sum(bets[..k] + bets[k + 1..])
  {
    Reassemble(bets, k);
    SumAround(bets[..k], bets[k], bets[k + 1..]);
  }

  /** A sequence is its part before k, its entry at k and its part after k. */
  lemma Reassemble(s: seq<int>, k: nat)
    requires k < |s|
    ensures s == s[..k] + [s[k]] + s[k + 1..]
  {
  }

  /** Summing a list built around one entry adds that entry to the sum of the rest. */
  lemma SumAround(front: seq<int>, x: int, back: seq<int>)
    ensures Sum(front + [x] + back) == x + Sum(front + back)
  {
    SumConcat(front + [x], back);
    SumAppend(front, x);
    SumConcat(front, back);
  }

  /** `dealerInvalid`: the total of all bets equals the hand size. A null hand size never
      blocks, and when the block is on, every seat's bet is exactly the one that brings
      the others' bets up to the hand size. */
  predicate DealerInvalid(bets: seq<int>, cards: Option<int>)
    ensures cards.None? ==> !DealerInvalid(bets, cards)
    ensures DealerInvalid(bets, cards) ==>
              forall k {:trigger Without(bets, k)} :: 0 <= k < |bets| ==>
                bets[k] == cards.value - Sum(Without(bets, k))
  {
    cards == Some(TotalBets(bets))
  }

  /** Whoever the dealer is, exactly one bet of the dealer's blocks the round: the one
      that makes the total equal the hand size, i.e. the hand size minus the others' bets.
      The check looks only at the total, so the same holds for any seat. */
  lemma DealerMayNotBalance(bets: seq<int>, dealer: nat, v: int, cards: int)
    requires dealer < |bets|
    ensures DealerInvalid(bets[dealer := v], Some(cards)) <==>
            v == cards - TotalBets(Without(bets, dealer))
  {
    var s := bets[dealer := v];
    assert Without(s, dealer) == Without(bets, dealer);
    assert TotalBets(s) == v + Sum(Without(s, dealer));
  }
}
