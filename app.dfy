/** The App component of src/App.tsx as a state machine: one field per piece of React
    state, one method per handler that changes it. The screens' own rules live in modules
    BettingPhase, ResultsPhase, Seating, Scoreboard and FinalScoreboard. */
module App {
  import opened Common
  import opened Round
  import BettingPhase
  import ResultsPhase

  /** The screen the App shows. */
  datatype Phase = Setup | Betting | Results | Finished

  class Game {
    var players: seq<Player>
    var phase: Phase
    var bets: seq<int>
    var results: seq<Option<bool>>
    var dealerIndex: nat
    /** The hand size of the current round; 0 stands for the `null` before `startGame`. */
    var cards: nat
    var round: nat
    var maxRounds: nat
    var bonusAlerts: seq<BonusAlert>
    var currentDealerCycle: nat

    /** The state of a started game; see GameInv. */
    ghost predicate Valid()
      reads this
    {
      GameInv(players, phase, bets, results, dealerIndex, cards, round, maxRounds, currentDealerCycle)
    }

    /** The initial React state, before a player count is chosen. */
    constructor ()
      ensures players == [] && phase == Setup && bets == [] && results == []
      ensures dealerIndex == 0 && cards == 0 && round == 1 && maxRounds == 0
      ensures bonusAlerts == [] && currentDealerCycle == 0
    {
      players := [];
      phase := Setup;
      bets := [];
      results := [];
      dealerIndex := 0;
      cards := 0;
      round := 1;
      maxRounds := 0;
      bonusAlerts := [];
      currentDealerCycle := 0;
    }

    /** `startGame(count)`: seats `count` fresh players and resets the round state; any
        count other than 4, 5 or 6 throws before anything is written. */
    method StartGame(count: int) returns (ok: bool)
      modifies this
      ensures ok <==> 4 <= count <= 6
      ensures !ok ==> unchanged(this)
      ensures ok ==> Valid() && phase == Setup && |players| == count
      ensures ok ==> forall i :: 0 <= i < count ==> players[i] == Player(i, "", [], map[])
      ensures ok ==> Some(cards) == AmountOfCards(count) && maxRounds == count * cards
      ensures ok ==> dealerIndex == 0 && round == 1 && currentDealerCycle == 0 && bonusAlerts == []
      ensures bets == old(bets) && results == old(results)
    {
      var config := StartConfig(count);
      if config.None? {
        ok := false;
        return;
      }
      players := FreshPlayers(count);
      phase := Setup;
      cards := config.value.initialCards;
      dealerIndex := 0;
      round := 1;
      maxRounds := config.value.totalRounds;
      bonusAlerts := [];
      currentDealerCycle := 0;
      ok := true;
      StartKeepsInv(count, bets, results);
    }

    /** `confirmNames()`: opens the first betting round with every bet 0 and every result
        preset to a miss. */
    method ConfirmNames()
      requires Valid() && phase == Setup
      modifies this`phase, this`bets, this`results
      ensures Valid() && phase == Betting
      ensures bets == Zeros(|players|)
      ensures results == Misses(|players|)
    {
      phase := Betting;
      bets := Zeros(|players|);
      results := Misses(|players|);
    }

    /** A bet button on the betting screen: `handleBetChange(i, value)` with the App's
        hand size, stored through `setBets`. */
    method ChangeBet(i: nat, value: int)
      requires Valid() && phase == Betting && i < |players|
      modifies this`bets
      ensures Valid()
      ensures bets == BettingPhase.HandleBetChange(old(bets), Some(cards), i, value)
    {
      bets := BettingPhase.HandleBetChange(bets, Some(cards), i, value);
    }

    /** The "Place Bets" button: disabled while the bets add up to the hand size,
        otherwise it moves on to the results screen. */
    method PlaceBets() returns (moved: bool)
      requires Valid() && phase == Betting
      modifies this`phase
      ensures Valid()
      ensures moved <==> BettingPhase.TotalBets(bets) != cards
      ensures phase == (if moved then Results else Betting)
    {
      moved := !BettingPhase.DealerInvalid(bets, Some(cards));
      if moved {
        phase := Results;
      }
    }

    /** A hit or miss button on the results screen: `setPlayerResult(i, value)` stored
        through `setResults`. */
    method SetResult(i: nat, value: bool)
      requires Valid() && phase == Results && i < |players|
      modifies this`results
      ensures Valid()
      ensures results == ResultsPhase.SetPlayerResult(old(results), i, value)
    {
      results := ResultsPhase.SetPlayerResult(results, i, value);
    }

    /** Whether the results screen lets the round be confirmed. In the App it always does,
        because every result starts out as a miss and is only ever overwritten. */
    method ConfirmEnabled() returns (enabled: bool)
      requires Valid() && phase == Results
      ensures enabled == ResultsPhase.AllResultsSelected(results)
      ensures enabled
    {
      enabled := ResultsPhase.AllResultsSelected(results);
    }

    /** `confirmResults()`: scores the round, awards the bonuses, and either deals the next
        round or finishes the game. */
    method ConfirmResults()
      requires Valid() && phase == Results
      modifies this
      ensures Valid()
      ensures players == RoundPlayers(old(players), old(bets), old(results), old(cards),
                                      old(dealerIndex), old(currentDealerCycle))
      ensures bonusAlerts == RoundAlerts(old(players), old(bets), old(results), old(cards),
                                         old(dealerIndex), old(currentDealerCycle))
      ensures maxRounds == old(maxRounds)
      ensures old(round) + 1 > old(maxRounds) ==>
        phase == Finished && round == old(round) && dealerIndex == old(dealerIndex) &&
        cards == old(cards) && currentDealerCycle == old(currentDealerCycle) &&
        bets == old(bets) && results == old(results)
      ensures old(round) + 1 <= old(maxRounds) ==>
        phase == Betting && round == old(round) + 1 &&
        bets == Zeros(|players|) && results == Misses(|players|)
      ensures old(round) + 1 <= old(maxRounds) && old(cards) == 1 ==>
        dealerIndex == NextDealer(old(dealerIndex), |players|) &&
        currentDealerCycle == old(currentDealerCycle) + 1 &&
        Some(cards) == AmountOfCards(|players|)
      ensures old(round) + 1 <= old(maxRounds) && old(cards) != 1 ==>
        dealerIndex == old(dealerIndex) && currentDealerCycle == old(currentDealerCycle) &&
        cards == old(cards) - 1
      ensures phase == Finished ==> old(cards) == 1 && old(dealerIndex) == |players| - 1
    {
      var newPlayers, newBonusAlerts, nextCards, nextDealer, nextDealerCycle :=
        ScoreRound(players, bets, results, cards, dealerIndex, currentDealerCycle);
      assert |newPlayers| == |players|;
      var nextRound := round + 1;
      if nextRound > maxRounds {
        FinishKeepsInv(players, bets, results, dealerIndex, cards, round, maxRounds,
                       currentDealerCycle, newPlayers);
        Finish(newPlayers, newBonusAlerts);
      } else {
        NextRoundKeepsInv(players, bets, results, dealerIndex, cards, round, maxRounds,
                          currentDealerCycle, nextDealer, nextCards, nextDealerCycle, newPlayers);
        DealNext(newPlayers, newBonusAlerts, nextDealer, nextCards, nextRound, nextDealerCycle);
      }
    }

    /** The `nextRound > maxRounds` branch of `confirmResults`: only the players, the
        alerts and the phase are written. */
    method Finish(newPlayers: seq<Player>, newBonusAlerts: seq<BonusAlert>)
      requires GameInv(newPlayers, Finished, bets, results, dealerIndex, cards, round, maxRounds,
                       currentDealerCycle)
      modifies this`players, this`bonusAlerts, this`phase
      ensures Valid()
      ensures players == newPlayers && bonusAlerts == newBonusAlerts && phase == Finished
    {
      phase := Finished;
      players := newPlayers;
      bonusAlerts := newBonusAlerts;
    }

    /** The other branch of `confirmResults`: the next round's dealer, hand size, round
        number and cycle, with bets reset to 0 and results to a miss. */
    method DealNext(newPlayers: seq<Player>, newBonusAlerts: seq<BonusAlert>,
                    nextDealer: nat, nextCards: nat, nextRound: nat, nextDealerCycle: nat)
      requires GameInv(newPlayers, Betting, Zeros(|newPlayers|), Misses(|newPlayers|),
                       nextDealer, nextCards, nextRound, maxRounds, nextDealerCycle)
      modifies this`players, this`phase, this`bets, this`results, this`dealerIndex,
               this`cards, this`round, this`bonusAlerts, this`currentDealerCycle
      ensures Valid()
      ensures players == newPlayers && phase == Betting
      ensures bets == Zeros(|newPlayers|) && results == Misses(|newPlayers|)
      ensures dealerIndex == nextDealer && cards == nextCards && round == nextRound
      ensures bonusAlerts == newBonusAlerts && currentDealerCycle == nextDealerCycle
    {
      players := newPlayers;
      phase := Betting;
      bets := Zeros(|newPlayers|);
      results := Misses(|newPlayers|);
      dealerIndex := nextDealer;
      cards := nextCards;
      round := nextRound;
      bonusAlerts := newBonusAlerts;
      currentDealerCycle := nextDealerCycle;
    }

    /** `dismissAlert(index)`: removes the alert at `index`, keeping the others in order;
        an index that names no alert removes nothing. */
    method DismissAlert(index: int)
      modifies this`bonusAlerts
      ensures 0 <= index < |old(bonusAlerts)| ==>
        bonusAlerts == old(bonusAlerts)[..index] + old(bonusAlerts)[index + 1..]
      ensures !(0 <= index < |old(bonusAlerts)|) ==> bonusAlerts == old(bonusAlerts)
    {
      bonusAlerts := Without(bonusAlerts, index);
    }
  }

  /** A bet of 0 for each of `count` players: the bets a new betting round starts from
      (App.tsx:71, 162). */
  function Zeros(count: nat): (s: seq<int>)
    ensures |s| == count && forall i :: 0 <= i < count ==> s[i] == 0
  {
    seq(count, _ => 0)
  }

  /** A stored miss for each of `count` players: every result is preset to a miss
      (App.tsx:72, 163). */
  function Misses(count: nat): (s: seq<Option<bool>>)
    ensures |s| == count && forall i :: 0 <= i < count ==> s[i] == Some(false)
  {
    seq(count, _ => Some(false))
  }

  /** The seat after the dealer's, wrapping from the last seat to the first
      (App.tsx:145). */
  function NextDealer(dealer: nat, count: nat): (r: nat)
    requires count > 0
    ensures r < count
    ensures dealer + 1 < count ==> r == dealer + 1
    ensures dealer + 1 == count ==> r == 0
  {
    (dealer + 1) % count
  }

  /** The hand size of a full dealer cycle for a supported player count. */
  function CycleLength(count: nat): (init: nat)
    requires 4 <= count <= 6
    ensures Some(init) == AmountOfCards(count) && init >= 1
  {
    AmountOfCards(count).value
  }

  /** The round schedule: the hand size stays in 1 .. the cycle length and the dealer is a
      player; the rounds completed so far are the full cycles of the earlier dealers plus
      the rounds already played in this cycle, and the dealer of cycle c is player c. */
  ghost predicate ScheduleInv(count: nat, dealer: nat, cards: nat, round: nat, maxRounds: nat, cycle: nat)
  {
    4 <= count <= 6 &&
    var init := CycleLength(count);
    maxRounds == count * init &&
    1 <= cards <= init &&
    1 <= round <= maxRounds &&
    dealer == cycle < count &&
    round - 1 == cycle * init + (init - cards)
  }

  /** The score sheet: players are seated by id, and every player has one score per
      completed round; while the game runs, the tracker of the current cycle counts the
      player's non-zero entries in it. */
  ghost predicate SheetInv(players: seq<Player>, finished: bool, cards: nat, round: nat, cycle: nat)
    requires 4 <= |players| <= 6
  {
    var init := CycleLength(|players|);
    forall i :: 0 <= i < |players| ==>
      players[i].id == i &&
      (finished ==> |players[i].scores| == round) &&
      (!finished ==> |players[i].scores| == round - 1 &&
                     init - cards >= 0 &&
                     TrackerInv(players[i], cycle, init - cards, init))
  }

  /** The round screens' inputs: one bet in 0 .. cards and one set result per player. */
  ghost predicate InputsInv(count: nat, bets: seq<int>, results: seq<Option<bool>>, cards: nat)
  {
    |bets| == count && |results| == count &&
    (forall i :: 0 <= i < count ==> 0 <= bets[i] <= cards) &&
    (forall i :: 0 <= i < count ==> results[i].Some?)
  }

  /** The state of a started game. */
  ghost predicate GameInv(players: seq<Player>, phase: Phase, bets: seq<int>, results: seq<Option<bool>>,
                          dealer: nat, cards: nat, round: nat, maxRounds: nat, cycle: nat)
  {
    ScheduleInv(|players|, dealer, cards, round, maxRounds, cycle) &&
    SheetInv(players, phase == Finished, cards, round, cycle) &&
    (phase == Finished ==> round == maxRounds) &&
    ((phase == Betting || phase == Results) ==> InputsInv(|players|, bets, results, cards))
  }

  /** The players `startGame` seats: ids 0 .. count-1, no name, no scores, no trackers. */
  function FreshPlayers(count: nat): (ps: seq<Player>)
    ensures |ps| == count
    ensures forall i :: 0 <= i < count ==> ps[i] == Player(i, "", [], map[])
  {
    seq(count, i requires 0 <= i < count => Player(i, "", [], map[]))
  }

  /** A freshly started game is valid: round 1 of dealer 0's cycle with a full hand and
      empty sheets. */
  lemma StartKeepsInv(count: nat, bets: seq<int>, results: seq<Option<bool>>)
    requires 4 <= count <= 6
    ensures var init := CycleLength(count);
      GameInv(FreshPlayers(count), Setup, bets, results, 0, init, 1, count * init, 0)
  {
    var init := CycleLength(count);
    var ps := FreshPlayers(count);
    forall i | 0 <= i < count
      ensures TrackerInv(ps[i], 0, 0, init)
    {
      assert ps[i].scores[|ps[i].scores| - 0..] == [];
    }
  }

  /** Confirming the last round finishes a valid game; that round always closes the last
      player's dealer cycle. */
  lemma FinishKeepsInv(players: seq<Player>, bets: seq<int>, results: seq<Option<bool>>,
                       dealer: nat, cards: nat, round: nat, maxRounds: nat, cycle: nat,
                       next: seq<Player>)
    requires GameInv(players, Results, bets, results, dealer, cards, round, maxRounds, cycle)
    requires round + 1 > maxRounds
    requires next == RoundPlayers(players, bets, results, cards, dealer, cycle)
    ensures GameInv(next, Finished, bets, results, dealer, cards, round, maxRounds, cycle)
    ensures cards == 1 && dealer == |players| - 1
  {
    var n := |players|;
    var init := CycleLength(n);
    forall i | 0 <= i < n
      ensures |next| == n && next[i].id == i && |next[i].scores| == round
    {
      RoundAppendsOneScore(players, bets, results, cards, dealer, cycle, i);
    }
    LastRoundClosesCycle(n, init, cycle, cards, round);
  }

  /** The schedule part of dealing the next round. */
  lemma NextScheduleKeepsInv(count: nat, dealer: nat, cards: nat, round: nat, maxRounds: nat, cycle: nat,
                             nextDealer: nat, nextCards: nat, nextCycle: nat)
    requires ScheduleInv(count, dealer, cards, round, maxRounds, cycle)
    requires round + 1 <= maxRounds
    requires cards == 1 ==> nextDealer == NextDealer(dealer, count) && nextCycle == cycle + 1 &&
                            Some(nextCards) == AmountOfCards(count)
    requires cards != 1 ==> nextDealer == dealer && nextCycle == cycle && nextCards == cards - 1
    ensures ScheduleInv(count, nextDealer, nextCards, round + 1, maxRounds, nextCycle)
  {
    var init := CycleLength(count);
    if cards == 1 {
      assert round == (cycle + 1) * init;
      CycleFitsSchedule(count, init, cycle, round);
    }
  }

  /** Confirming any earlier round deals a valid next round: the hand size counts down,
      or, at the end of a cycle, resets while the dealer moves on to the next player. */
  lemma NextRoundKeepsInv(players: seq<Player>, bets: seq<int>, results: seq<Option<bool>>,
                          dealer: nat, cards: nat, round: nat, maxRounds: nat, cycle: nat,
                          nextDealer: nat, nextCards: nat, nextCycle: nat, next: seq<Player>)
    requires GameInv(players, Results, bets, results, dealer, cards, round, maxRounds, cycle)
    requires round + 1 <= maxRounds
    requires next == RoundPlayers(players, bets, results, cards, dealer, cycle)
    requires cards == 1 ==> nextDealer == NextDealer(dealer, |players|) && nextCycle == cycle + 1 &&
                            Some(nextCards) == AmountOfCards(|players|)
    requires cards != 1 ==> nextDealer == dealer && nextCycle == cycle && nextCards == cards - 1
    ensures GameInv(next, Betting, Zeros(|players|), Misses(|players|),
                    nextDealer, nextCards, round + 1, maxRounds, nextCycle)
  {
    var n := |players|;
    var init := CycleLength(n);
    NextScheduleKeepsInv(n, dealer, cards, round, maxRounds, cycle, nextDealer, nextCards, nextCycle);
    RoundKeepsRows(players, bets, results, cards, dealer, cycle, init, nextCards, nextCycle, round);
    NextSheetKeepsInv(next, nextCards, round + 1, nextCycle);
    assert InputsInv(n, Zeros(n), Misses(n), nextCards);
  }

  /** Every player's row across a round: ids stay, one entry is added, and each tracker
      counts the non-zero entries of the next round's cycle. */
  lemma RoundKeepsRows(players: seq<Player>, bets: seq<int>, results: seq<Option<bool>>,
                       cards: nat, dealer: nat, cycle: nat, init: nat,
                       nextCards: nat, nextCycle: nat, round: nat)
    requires |bets| == |players| && |results| == |players|
    requires 1 <= cards <= init && Some(init) == AmountOfCards(|players|)
    requires cards == 1 ==> nextCycle == cycle + 1 && nextCards == init
    requires cards != 1 ==> nextCycle == cycle && nextCards == cards - 1
    requires forall i :: 0 <= i < |players| ==>
      players[i].id == i && |players[i].scores| == round - 1 && 0 <= bets[i] &&
      TrackerInv(players[i], cycle, init - cards, init)
    ensures var next := RoundPlayers(players, bets, results, cards, dealer, cycle);
      |next| == |players| &&
      forall i :: 0 <= i < |players| ==>
        next[i].id == i && |next[i].scores| == round &&
        TrackerInv(next[i], nextCycle, init - nextCards, init)
  {
    var next := RoundPlayers(players, bets, results, cards, dealer, cycle);
    RoundAppendsOneScore(players, bets, results, cards, dealer, cycle, 0);
    forall i | 0 <= i < |players|
      ensures next[i].id == i && |next[i].scores| == round
      ensures TrackerInv(next[i], nextCycle, init - nextCards, init)
    {
      PlayerKeepsTracker(players, bets, results, cards, dealer, cycle, init, nextCards, nextCycle, i);
    }
  }

  /** The sheet invariant of the next round, from what each player's row looks like. */
  lemma NextSheetKeepsInv(next: seq<Player>, nextCards: nat, nextRound: nat, nextCycle: nat)
    requires 4 <= |next| <= 6 && nextCards <= CycleLength(|next|)
    requires forall i :: 0 <= i < |next| ==>
      next[i].id == i && |next[i].scores| == nextRound - 1 &&
      TrackerInv(next[i], nextCycle, CycleLength(|next|) - nextCards, CycleLength(|next|))
    ensures SheetInv(next, false, nextCards, nextRound, nextCycle)
  {
  }

  /** The scoring half of `confirmResults`, before any state is written: both passes over
      the players, then the local `nextCards`, `nextDealer` and `nextDealerCycle`. When the
      hand size would fall to 0 the dealer moves on, the cycle advances and the hand size
      resets; otherwise the hand size drops by one. */
  method ScoreRound(players: seq<Player>, bets: seq<int>, results: seq<Option<bool>>,
                    cards: nat, dealerIndex: nat, currentDealerCycle: nat)
    returns (newPlayers: seq<Player>, newBonusAlerts: seq<BonusAlert>,
             nextCards: nat, nextDealer: nat, nextDealerCycle: nat)
    requires 4 <= |players| <= 6 && |bets| == |players| && |results| == |players|
    requires 1 <= cards
    ensures newPlayers == RoundPlayers(players, bets, results, cards, dealerIndex, currentDealerCycle)
    ensures newBonusAlerts == RoundAlerts(players, bets, results, cards, dealerIndex, currentDealerCycle)
    ensures cards == 1 ==> nextDealer == NextDealer(dealerIndex, |players|) &&
                           nextDealerCycle == currentDealerCycle + 1 &&
                           Some(nextCards) == AmountOfCards(|players|)
    ensures cards != 1 ==> nextDealer == dealerIndex && nextDealerCycle == currentDealerCycle &&
                           nextCards == cards - 1
  {
    var n := |players|;
    var cycle := currentDealerCycle;
    newPlayers, newBonusAlerts := ScorePass(players, bets, results, cards, cycle);

    var next: int := cards - 1;
    nextDealer := dealerIndex;
    nextDealerCycle := currentDealerCycle;
    var dealerCycleEnding := next == 0;

    if dealerCycleEnding {
      var roundsInThisCycle := AmountOfCards(n);
      var perfectAlerts;
      newPlayers, perfectAlerts := PerfectPass(newPlayers, dealerIndex, cycle, roundsInThisCycle);
      newBonusAlerts := newBonusAlerts + perfectAlerts;
      nextDealer := NextDealer(dealerIndex, n);
      nextDealerCycle := nextDealerCycle + 1;
      if n == 4 { next := 8; }
      if n == 5 { next := 7; }
      if n == 6 { next := 6; }
    }
    nextCards := next;
  }

  /** The first `forEach` of `confirmResults`: each player gets this round's entry, the
      tracker of the current cycle is created or advanced, and an all-in hit pushes an
      alert. */
  method ScorePass(players: seq<Player>, bets: seq<int>, results: seq<Option<bool>>,
                   cards: int, cycle: nat) returns (newPlayers: seq<Player>, alerts: seq<BonusAlert>)
    requires |bets| == |players| && |results| == |players|
    ensures newPlayers == ScoredPlayers(players, bets, results, cards, cycle)
    ensures alerts == AllInAlerts(bets, results, cards, |players|)
  {
    var n := |players|;
    ghost var scored := ScoredPlayers(players, bets, results, cards, cycle);
    newPlayers := players;
    alerts := [];
    var i := 0;
    while i < n
      invariant 0 <= i <= n && |newPlayers| == n
      invariant forall j :: 0 <= j < i ==> newPlayers[j] == scored[j]
      invariant forall j :: i <= j < n ==> newPlayers[j] == players[j]
      invariant alerts == AllInAlerts(bets, results, cards, i)
    {
      var p, alert := ScoreOne(newPlayers[i], i, bets[i], results[i], cards, cycle);
      assert AllInAlerts(bets, results, cards, i + 1) == AllInAlerts(bets, results, cards, i) + alert;
      newPlayers := newPlayers[i := p];
      alerts := alerts + alert;
      i := i + 1;
    }
  }

  /** The body of the first `forEach` for player i: the entry (bet + 10 on a hit, the
      all-in amount on a hit of the whole hand, 0 otherwise), the tracker set to 0 when
      it is missing or 0 and then counted up on a hit, and the all-in alert if any. */
  method ScoreOne(p: Player, i: nat, bet: int, result: Option<bool>, cards: int, cycle: nat)
    returns (q: Player, alert: seq<BonusAlert>)
    ensures q == ScorePlayer(p, bet, Hit(result), cards, cycle)
    ensures alert == if Hit(result) && bet == cards then [BonusAlert(i, AllInBet, cards + bet + 10)] else []
  {
    q := p;
    alert := [];
    var points := 0;
    if result == Some(true) {
      points := bet + 10;
      if !(cycle in q.roundsWithoutZero && q.roundsWithoutZero[cycle] != 0) {
        q := q.(roundsWithoutZero := q.roundsWithoutZero[cycle := 0]);
      }
      q := q.(roundsWithoutZero := q.roundsWithoutZero[cycle := q.roundsWithoutZero[cycle] + 1]);
      if bet == cards {
        var bonus := cards + bet + 10;
        points := bonus;
        alert := [BonusAlert(i, AllInBet, bonus)];
      }
    } else {
      if !(cycle in q.roundsWithoutZero && q.roundsWithoutZero[cycle] != 0) {
        q := q.(roundsWithoutZero := q.roundsWithoutZero[cycle := 0]);
      }
    }
    q := q.(scores := q.scores + [points]);
  }

  /** The second `forEach` of `confirmResults`, run when the hand size would fall to 0:
      a player whose tracker equals the cycle length gets 20 (dealer) or 10 added onto the
      entry just appended, and an alert. */
  method PerfectPass(players: seq<Player>, dealer: nat, cycle: nat, roundsInThisCycle: Option<nat>)
    returns (newPlayers: seq<Player>, alerts: seq<BonusAlert>)
    requires forall i :: 0 <= i < |players| ==> |players[i].scores| > 0
    ensures newPlayers == BonusedPlayers(players, dealer, cycle, roundsInThisCycle)
    ensures alerts == PerfectAlerts(players, dealer, cycle, roundsInThisCycle, |players|)
  {
    var n := |players|;
    ghost var bonused := BonusedPlayers(players, dealer, cycle, roundsInThisCycle);
    newPlayers := players;
    alerts := [];
    var k := 0;
    while k < n
      invariant 0 <= k <= n && |newPlayers| == n
      invariant forall j :: 0 <= j < k ==> newPlayers[j] == bonused[j]
      invariant forall j :: k <= j < n ==> newPlayers[j] == players[j]
      invariant alerts == PerfectAlerts(players, dealer, cycle, roundsInThisCycle, k)
    {
      var p := newPlayers[k];
      var roundsWithoutZero := Get(p.roundsWithoutZero, cycle);
      if Some(roundsWithoutZero) == roundsInThisCycle {
        var bonus := if k == dealer then 20 else 10;
        var last := |p.scores| - 1;
        p := p.(scores := p.scores[last := p.scores[last] + bonus]);
        newPlayers := newPlayers[k := p];
        alerts := alerts +
          [BonusAlert(k, if k == dealer then PerfectRoundAsDealer else PerfectRound, bonus)];
      }
      k := k + 1;
    }
  }

  /** One player's part of the sheet invariant across a round: the id stays, one entry is
      added, and the tracker counts the non-zero entries of the next round's cycle, which
      starts afresh after a cycle's last round. */
  lemma PlayerKeepsTracker(players: seq<Player>, bets: seq<int>, results: seq<Option<bool>>,
                           cards: nat, dealer: nat, cycle: nat, init: nat,
                           nextCards: nat, nextCycle: nat, i: nat)
    requires |bets| == |players| && |results| == |players| && i < |players|
    requires 1 <= cards <= init && Some(init) == AmountOfCards(|players|)
    requires 0 <= bets[i] && TrackerInv(players[i], cycle, init - cards, init)
    requires cards == 1 ==> nextCycle == cycle + 1 && nextCards == init
    requires cards != 1 ==> nextCycle == cycle && nextCards == cards - 1
    ensures var q := RoundPlayers(players, bets, results, cards, dealer, cycle)[i];
      q.id == players[i].id && |q.scores| == |players[i].scores| + 1 &&
      TrackerInv(q, nextCycle, init - nextCards, init)
  {
    var scored := ScoredPlayers(players, bets, results, cards, cycle);
    ScoreKeepsTracker(players[i], bets[i], Hit(results[i]), cards, cycle, init - cards, init);
    if cards == 1 {
      CycleEndKeepsTracker(scored[i], i == dealer, cycle, init);
    }
  }
}
