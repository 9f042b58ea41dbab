/** The scoring and progression rules of one round, as written in src/App.tsx: the
    per-player score entry, the per-cycle "rounds without zero" tracker, the all-in and
    perfect-cycle bonuses, and the hand-size tables. The stateful App lives in module App. */
module Round {
  import opened Common

  /** A seat at the table. `roundsWithoutZero` is a sparse JavaScript array indexed by
      dealer cycle; a map from cycle to count has the same missing-entry behaviour. */
  datatype Player = Player(id: nat, name: string, scores: seq<int>, roundsWithoutZero: map<nat, nat>)

  /** Which bonus an alert announces; the display text is not modelled. */
  datatype AlertKind = AllInBet | PerfectRound | PerfectRoundAsDealer

  /** One bonus notification: the player's index, the bonus kind and the points shown. */
  datatype BonusAlert = BonusAlert(player: nat, kind: AlertKind, points: int)

  /** The fixed game shape chosen by `startGame`. */
  datatype Config = Config(initialCards: nat, totalRounds: nat)

  // ---------------------------------------------------------------------------
  // Hand-size tables

  /** `getAmountOfCards()`: the hand size of a full dealer cycle for a player count,
      undefined for any count the game does not support. */
  function AmountOfCards(count: int): (r: Option<nat>)
    ensures r.Some? <==> 4 <= count <= 6
    ensures r.Some? ==> r.value + count == 12
  {
    if count == 4 then Some(8)
    else if count == 5 then Some(7)
    else if count == 6 then Some(6)
    else None
  }

  /** The table inside `startGame`: hand size and number of rounds, or the thrown error. */
  function StartConfig(count: int): (r: Option<Config>)
    ensures r.Some? <==> 4 <= count <= 6
    ensures r.Some? ==> Some(r.value.initialCards) == AmountOfCards(count)
    ensures r.Some? ==> r.value.totalRounds == count * r.value.initialCards
  {
    if count == 4 then Some(Config(8, 32))
    else if count == 5 then Some(Config(7, 35))
    else if count == 6 then Some(Config(6, 36))
    else None
  }

  // ---------------------------------------------------------------------------
  // One player's round

  /** `if (results[i])`: only a stored `true` counts as a hit; `false` and `null` do not. */
  predicate Hit(result: Option<bool>)
  {
    result == Some(true)
  }

  /** The points the first pass awards: 0 for a miss, bet + 10 for a hit, and
      cards + bet + 10 for a hit that bet the whole hand. With a bet of 0 or more, an
      entry is 0 exactly on a miss, and the all-in bonus doubles the bet. */
  function RoundPoints(bet: int, hit: bool, cards: int): (r: int)
    ensures !hit ==> r == 0
    ensures bet >= 0 ==> (r != 0 <==> hit)
    ensures hit && cards >= 0 ==> r >= bet + 10
    ensures hit && bet == cards ==> r == 2 * bet + 10
    ensures hit && bet != cards ==> r == bet + 10
  {
    if !hit then 0
    else if bet == cards then cards + bet + 10
    else bet + 10
  }

  /** The tracker update of the first pass, for the current dealer cycle. */
  function Track(tracker: map<nat, nat>, cycle: nat, hit: bool): (r: map<nat, nat>)
    ensures cycle in r
    ensures r[cycle] == Get(tracker, cycle) + (if hit then 1 else 0)
    ensures forall c :: c != cycle ==> (c in r <==> c in tracker)
    ensures forall c :: c in tracker && c != cycle ==> r[c] == tracker[c]
  {
    tracker[cycle := Get(tracker, cycle) + (if hit then 1 else 0)]
  }

  /** What the first pass does to one player: a new score entry and the tracker update. */
  function ScorePlayer(p: Player, bet: int, hit: bool, cards: int, cycle: nat): Player
  {
    p.(scores := p.scores + [RoundPoints(bet, hit, cards)],
       roundsWithoutZero := Track(p.roundsWithoutZero, cycle, hit))
  }

  /** The first pass over every player. */
  function ScoredPlayers(players: seq<Player>, bets: seq<int>, results: seq<Option<bool>>,
                         cards: int, cycle: nat): seq<Player>
    requires |bets| == |players| && |results| == |players|
  {
    seq(|players|, i requires 0 <= i < |players| =>
      ScorePlayer(players[i], bets[i], Hit(results[i]), cards, cycle))
  }

  /** The all-in alerts the first pass pushes for players 0 .. k-1, in seat order. */
  function AllInAlerts(bets: seq<int>, results: seq<Option<bool>>, cards: int, k: nat): seq<BonusAlert>
    requires k <= |bets| && k <= |results|
  {
    if k == 0 then []
    else
      var i := k - 1;
      AllInAlerts(bets, results, cards, i) +
      (if Hit(results[i]) && bets[i] == cards
       then [BonusAlert(i, AllInBet, cards + bets[i] + 10)] else [])
  }

  /** A player earned the perfect-cycle bonus: the tracker of the ending cycle equals the
      cycle length (a missing tracker reads as 0; an undefined cycle length matches nothing). */
  predicate Perfect(p: Player, cycle: nat, roundsInCycle: Option<nat>)
  {
    roundsInCycle == Some(Get(p.roundsWithoutZero, cycle))
  }

  /** The bonus of a perfect cycle: 20 for the dealer, 10 for everyone else. */
  function PerfectPoints(isDealer: bool): int
  {
    if isDealer then 20 else 10
  }

  /** The second pass on one player: the bonus is added onto the entry just appended.
      Nothing else of the player changes, and the total grows by exactly the bonus. */
  function PerfectBonus(p: Player, isDealer: bool, cycle: nat, roundsInCycle: Option<nat>): (r: Player)
    requires |p.scores| > 0
    ensures r.id == p.id && r.name == p.name && r.roundsWithoutZero == p.roundsWithoutZero
    ensures |r.scores| == |p.scores|
    ensures r.scores[..|p.scores| - 1] == p.scores[..|p.scores| - 1]
    ensures Sum(r.scores) ==
            Sum(p.scores) + (if Perfect(p, cycle, roundsInCycle) then PerfectPoints(isDealer) else 0)
  {
    if Perfect(p, cycle, roundsInCycle) then
      var last := |p.scores| - 1;
      SumUpdate(p.scores, last, p.scores[last] + PerfectPoints(isDealer));
      p.(scores := p.scores[last := p.scores[last] + PerfectPoints(isDealer)])
    else p
  }

  /** The second pass over every player. */
  function BonusedPlayers(players: seq<Player>, dealer: nat, cycle: nat, roundsInCycle: Option<nat>): seq<Player>
    requires forall i :: 0 <= i < |players| ==> |players[i].scores| > 0
  {
    seq(|players|, i requires 0 <= i < |players| =>
      PerfectBonus(players[i], i == dealer, cycle, roundsInCycle))
  }

  /** The perfect-cycle alerts the second pass pushes for players 0 .. k-1, in seat order. */
  function PerfectAlerts(players: seq<Player>, dealer: nat, cycle: nat, roundsInCycle: Option<nat>, k: nat): seq<BonusAlert>
    requires k <= |players|
  {
    if k == 0 then []
    else
      var i := k - 1;
      PerfectAlerts(players, dealer, cycle, roundsInCycle, i) +
      (if Perfect(players[i], cycle, roundsInCycle)
       then [BonusAlert(i, if i == dealer then PerfectRoundAsDealer else PerfectRound,
                        PerfectPoints(i == dealer))]
       else [])
  }

  /** The players after a confirmed round: the first pass, then, when the hand size would
      fall to 0, the perfect-cycle pass with the cycle length of `getAmountOfCards()`. */
  function RoundPlayers(players: seq<Player>, bets: seq<int>, results: seq<Option<bool>>,
                        cards: int, dealer: nat, cycle: nat): seq<Player>
    requires |bets| == |players| && |results| == |players|
  {
    var scored := ScoredPlayers(players, bets, results, cards, cycle);
    if cards - 1 == 0 then BonusedPlayers(scored, dealer, cycle, AmountOfCards(|players|))
    else scored
  }

  /** The alerts of a confirmed round: all-in alerts first, then perfect-cycle alerts. */
  function RoundAlerts(players: seq<Player>, bets: seq<int>, results: seq<Option<bool>>,
                       cards: int, dealer: nat, cycle: nat): seq<BonusAlert>
    requires |bets| == |players| && |results| == |players|
  {
    var scored := ScoredPlayers(players, bets, results, cards, cycle);
    AllInAlerts(bets, results, cards, |players|) +
    (if cards - 1 == 0 then PerfectAlerts(scored, dealer, cycle, AmountOfCards(|players|), |players|) else [])
  }

  // ---------------------------------------------------------------------------
  // What a round does to the score sheet

  /** Every player gets exactly one new entry; identity, name and all earlier entries stay. */
  /** A round keeps every player's id, name and earlier entries, and appends exactly one
      entry to each player's scores. */
  lemma RoundAppendsOneScore(players: seq<Player>, bets: seq<int>, results: seq<Option<bool>>,
                             cards: int, dealer: nat, cycle: nat, i: nat)
    requires |bets| == |players| && |results| == |players| && i < |players|
    ensures |RoundPlayers(players, bets, results, cards, dealer, cycle)| == |players|
    ensures RoundPlayers(players, bets, results, cards, dealer, cycle)[i].id == players[i].id
    ensures RoundPlayers(players, bets, results, cards, dealer, cycle)[i].name == players[i].name
    ensures |RoundPlayers(players, bets, results, cards, dealer, cycle)[i].scores| == |players[i].scores| + 1
    ensures RoundPlayers(players, bets, results, cards, dealer, cycle)[i].scores[..|players[i].scores|] == players[i].scores
  {
    assert (players[i].scores + [RoundPoints(bets[i], Hit(results[i]), cards)])[..|players[i].scores|] == players[i].scores;
  }

  /** The value of a player's new entry: the round points, plus the perfect-cycle bonus
      when the hand size falls to 0 and the player's tracker for this cycle, after this
      round's update, equals the cycle length. */
  lemma RoundEntry(players: seq<Player>, bets: seq<int>, results: seq<Option<bool>>,
                   cards: int, dealer: nat, cycle: nat, i: nat)
    requires |bets| == |players| && |results| == |players| && i < |players|
    ensures var q := RoundPlayers(players, bets, results, cards, dealer, cycle)[i];
      var hit := Hit(results[i]);
      var tracked := Get(players[i].roundsWithoutZero, cycle) + (if hit then 1 else 0);
      var perfect := cards == 1 && AmountOfCards(|players|) == Some(tracked);
      |q.scores| == |players[i].scores| + 1 &&
      q.scores[|players[i].scores|] ==
        (if !hit then 0 else if bets[i] == cards then cards + bets[i] + 10 else bets[i] + 10) +
        (if perfect then (if i == dealer then 20 else 10) else 0)
  {
  }

  /** The tracker after a round: the current cycle's count is created if missing and
      grows by one exactly on a hit; the counts of other cycles are untouched. */
  lemma RoundTracker(players: seq<Player>, bets: seq<int>, results: seq<Option<bool>>,
                     cards: int, dealer: nat, cycle: nat, i: nat)
    requires |bets| == |players| && |results| == |players| && i < |players|
    ensures var t := RoundPlayers(players, bets, results, cards, dealer, cycle)[i].roundsWithoutZero;
      var old_t := players[i].roundsWithoutZero;
      cycle in t &&
      t[cycle] == Get(old_t, cycle) + (if Hit(results[i]) then 1 else 0) &&
      (forall c :: c != cycle ==> (c in t <==> c in old_t)) &&
      (forall c :: c in old_t && c != cycle ==> t[c] == old_t[c])
  {
    var scored := ScoredPlayers(players, bets, results, cards, cycle);
    assert scored[i].roundsWithoutZero == Track(players[i].roundsWithoutZero, cycle, Hit(results[i]));
  }

  /** The all-in alerts name exactly the players who hit a bet of the whole hand, each with
      the points of that entry. */
  lemma {:induction false} AllInAlertFor(bets: seq<int>, results: seq<Option<bool>>, cards: int, k: nat, a: BonusAlert)
    requires k <= |bets| && k <= |results|
    ensures a in AllInAlerts(bets, results, cards, k) <==>
      a.kind == AllInBet && a.player < k && Hit(results[a.player]) &&
      bets[a.player] == cards && a.points == cards + bets[a.player] + 10
  {
    if k > 0 {
      AllInAlertFor(bets, results, cards, k - 1, a);
    }
  }

  /** The perfect-cycle alerts name exactly the perfect players; the dealer's says so and
      carries 20 points, everyone else's carries 10. */
  lemma {:induction false} PerfectAlertFor(players: seq<Player>, dealer: nat, cycle: nat,
                                           roundsInCycle: Option<nat>, k: nat, a: BonusAlert)
    requires k <= |players|
    ensures a in PerfectAlerts(players, dealer, cycle, roundsInCycle, k) <==>
      a.player < k && Perfect(players[a.player], cycle, roundsInCycle) &&
      a.kind == (if a.player == dealer then PerfectRoundAsDealer else PerfectRound) &&
      a.points == (if a.player == dealer then 20 else 10)
  {
    if k > 0 {
      PerfectAlertFor(players, dealer, cycle, roundsInCycle, k - 1, a);
    }
  }

  // ---------------------------------------------------------------------------
  // What the tracker means

  /** How many of the entries in `s` are not zero. */
  function NonZeroCount(s: seq<int>): (r: nat)
    ensures r <= |s|
  {
    if s == [] then 0
    else NonZeroCount(s[..|s| - 1]) + (if s[|s| - 1] != 0 then 1 else 0)
  }

  /** Every entry is counted exactly when no entry is zero. */
  lemma {:induction false} FullCountIffNoZero(s: seq<int>)
    ensures NonZeroCount(s) == |s| <==> forall j :: 0 <= j < |s| ==> s[j] != 0
  {
    if s != [] {
      var front := s[..|s| - 1];
      FullCountIffNoZero(front);
      assert forall j :: 0 <= j < |front| ==> front[j] == s[j];
    }
  }

  /** The tracker of the current cycle counts the non-zero entries among the `played`
      rounds of this cycle, and no tracker belongs to a later cycle or exceeds the cycle
      length. */
  ghost predicate TrackerInv(p: Player, cycle: nat, played: nat, init: nat)
  {
    played <= |p.scores| &&
    Get(p.roundsWithoutZero, cycle) == NonZeroCount(p.scores[|p.scores| - played..]) &&
    forall c :: c in p.roundsWithoutZero ==> c <= cycle && p.roundsWithoutZero[c] <= init
  }

  /** With non-negative bets an entry is zero exactly on a miss, so the first pass keeps
      the tracker equal to the number of non-zero rounds of the cycle. */
  lemma ScoreKeepsTracker(p: Player, bet: int, hit: bool, cards: nat, cycle: nat, played: nat, init: nat)
    requires TrackerInv(p, cycle, played, init) && played < init && bet >= 0
    ensures TrackerInv(ScorePlayer(p, bet, hit, cards, cycle), cycle, played + 1, init)
  {
    EntryKeepsTracker(p, RoundPoints(bet, hit, cards), hit, cycle, played, init);
  }

  /** Appending an entry that is non-zero exactly on a hit, with the matching tracker
      update, keeps the tracker invariant for one more round. */
  lemma EntryKeepsTracker(p: Player, pts: int, hit: bool, cycle: nat, played: nat, init: nat)
    requires TrackerInv(p, cycle, played, init) && played < init && (pts != 0 <==> hit)
    ensures TrackerInv(p.(scores := p.scores + [pts], roundsWithoutZero := Track(p.roundsWithoutZero, cycle, hit)),
                       cycle, played + 1, init)
  {
    WindowAppend(p.scores, pts, played);
    TrackBound(p.roundsWithoutZero, cycle, hit, init);
  }

  /** Counting one more round in the current cycle, whose count is below the cycle length,
      keeps every tracker at or before the current cycle and within the cycle length. */
  lemma TrackBound(tracker: map<nat, nat>, cycle: nat, hit: bool, init: nat)
    requires forall c :: c in tracker ==> c <= cycle && tracker[c] <= init
    requires Get(tracker, cycle) < init
    ensures forall c :: c in Track(tracker, cycle, hit) ==> c <= cycle && Track(tracker, cycle, hit)[c] <= init
  {
  }

  /** Widening the window of the last `played` entries by one appended entry counts one
      more non-zero round exactly when that entry is not 0. */
  lemma WindowAppend(s: seq<int>, x: int, played: nat)
    requires played <= |s|
    ensures NonZeroCount((s + [x])[|s + [x]| - (played + 1)..]) ==
            NonZeroCount(s[|s| - played..]) + (if x != 0 then 1 else 0)
  {
    SliceAppend(s, x, |s| - played);
    NonZeroCountAppend(s[|s| - played..], x);
  }

  /** A suffix of a list with one more element is the old suffix with that element. */
  lemma SliceAppend(s: seq<int>, x: int, k: nat)
    requires k <= |s|
    ensures (s + [x])[k..] == s[k..] + [x]
  {
  }

  /** Appending an entry counts one more non-zero round exactly when the entry is not 0. */
  lemma NonZeroCountAppend(s: seq<int>, x: int)
    ensures NonZeroCount(s + [x]) == NonZeroCount(s) + (if x != 0 then 1 else 0)
  {
    assert (s + [x])[..|s|] == s;
  }

  /** At the end of a cycle the perfect-cycle pass starts the next cycle with a fresh
      tracker: nothing has been counted for it yet. */
  lemma CycleEndKeepsTracker(p: Player, isDealer: bool, cycle: nat, init: nat)
    requires TrackerInv(p, cycle, init, init) && |p.scores| > 0
    ensures TrackerInv(PerfectBonus(p, isDealer, cycle, Some(init)), cycle + 1, 0, init)
  {
    var q := PerfectBonus(p, isDealer, cycle, Some(init));
    assert q.roundsWithoutZero == p.roundsWithoutZero;
    assert cycle + 1 !in q.roundsWithoutZero;
    assert q.scores[|q.scores| - 0..] == [];
  }

  /** On the last round of a cycle the perfect-cycle bonus goes to a player exactly when
      none of that player's entries in the cycle (this round's included) is zero. */
  lemma PerfectIffNoZeroInCycle(p: Player, bet: int, hit: bool, cycle: nat, init: nat)
    requires init >= 1 && TrackerInv(p, cycle, init - 1, init) && bet >= 0
    ensures var q := ScorePlayer(p, bet, hit, 1, cycle);
      Perfect(q, cycle, Some(init)) <==>
      forall j :: |q.scores| - init <= j < |q.scores| ==> q.scores[j] != 0
  {
    ScoreKeepsTracker(p, bet, hit, 1, cycle, init - 1, init);
    var q := ScorePlayer(p, bet, hit, 1, cycle);
    var window := q.scores[|q.scores| - init..];
    FullCountIffNoZero(window);
    assert forall j :: |q.scores| - init <= j < |q.scores| ==> q.scores[j] == window[j - (|q.scores| - init)];
  }

  // ---------------------------------------------------------------------------
  // The round schedule

  /** A cycle that ends with rounds still to come leaves a next dealer to deal. */
  lemma CycleFitsSchedule(count: nat, init: nat, cycle: nat, round: nat)
    requires init >= 1 && round == (cycle + 1) * init && round + 1 <= count * init
    ensures cycle + 1 < count
  {
  }

  /** The game ends on the last round of the last player's dealer cycle: if the schedule
      relation holds and the round number reaches count * init, the hand size is 1 and
      the cycle is the last one. */
  lemma LastRoundClosesCycle(count: nat, init: nat, cycle: nat, cards: nat, round: nat)
    requires 1 <= cards <= init && cycle < count
    requires round - 1 == cycle * init + (init - cards) && round == count * init
    ensures cards == 1 && cycle == count - 1
  {
    var later := count - cycle - 1;
    assert count * init == cycle * init + init + later * init;
    assert later * init == 1 - cards;
    assert later * init >= 0;
    assert cards == 1;
    assert later * init == 0;
  }
}
