/** The seating order both round screens list players in (src/components/BettingPhase.tsx
    and src/components/ResultsPhase.tsx build it with the same expression): every
    non-dealer in index order, then the dealer. */
module Seating {
  import opened Common

  /** The players without the dealer, in seat order, followed by the dealer
      (BettingPhase.tsx:35-38, ResultsPhase.tsx:34-37). */
  function OrderedPlayers<T>(players: seq<T>, dealer: nat): (r: seq<T>)
    requires dealer < |players|
    ensures |r| == |players|
    ensures r[|r| - 1] == players[dealer]
    ensures r[..|r| - 1] == players[..dealer] + players[dealer + 1..]
    ensures multiset(r) == multiset(players)
  {
    var r := Without(players, dealer) + [players[dealer]];
    assert players == players[..dealer] + [players[dealer]] + players[dealer + 1..];
    assert r == players[..dealer] + players[dealer + 1..] + [players[dealer]];
    r
  }

  /** The row in which player i is listed: its own index before the dealer, one less after
      the dealer, the last row for the dealer. */
  function SeatOf(i: nat, dealer: nat, count: nat): (s: nat)
    requires i < count && dealer < count
    ensures s < count
  {
    if i == dealer then count - 1 else if i < dealer then i else i - 1
  }

  /** Every player is listed exactly once: player i sits in row SeatOf(i), and no two
      players share a row. */
  lemma SeatsArePlayers<T>(players: seq<T>, dealer: nat, i: nat, j: nat)
    requires dealer < |players| && i < |players| && j < |players|
    ensures OrderedPlayers(players, dealer)[SeatOf(i, dealer, |players|)] == players[i]
    ensures i != j ==> SeatOf(i, dealer, |players|) != SeatOf(j, dealer, |players|)
  {
    var r := OrderedPlayers(players, dealer);
    var n := |players|;
    if i != dealer {
      var s := SeatOf(i, dealer, n);
      assert r[s] == r[..n - 1][s];
      if i < dealer {
        assert (players[..dealer] + players[dealer + 1..])[s] == players[..dealer][s];
      } else {
        assert (players[..dealer] + players[dealer + 1..])[s] == players[dealer + 1..][s - dealer];
      }
    }
  }
}
