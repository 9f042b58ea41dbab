# Strurliwurli score tracker — a Dafny model

Strurliwurli Zähler keeps score for a trick-taking card game played by 4, 5 or 6 players.
The game is dealt in dealer cycles. Player 0 deals first. Each cycle starts with a full hand
(8, 7 or 6 cards, so that hand size plus player count is 12) and the hand shrinks by one card
per round. When the hand would reach 0 cards, the deal passes to the next player and the hand
is reset. The game has `count × hand size` rounds, so every player deals exactly one cycle.

In every round each player bets a number of tricks between 0 and the hand size. The dealer
bets last and may not make the bets add up to the hand size. After the round each bet is
marked as hit or missed, and the scores are updated as follows:

- a hit scores bet + 10;
- a hit on a bet of the whole hand scores hand + bet + 10 and raises an all-in alert;
- a miss scores 0;
- on the last round of a cycle, a player who hit in every round of that cycle gets +10
  (+20 for the dealer), added onto that round's entry, and the bonus raises an alert.

After the last round the final scoreboard totals the sheet, marks every player at the
maximum total, and announces the first of them as the winner. During the game a scoreboard
lists the players in descending order of total, keeping ties in seating order.

The model is split into these modules:

- `App` (app.dfy) is the application state: class `App.Game` has one field per piece of
  React state and one method per handler. The handler `confirmResults` is imperative in the
  source. It is modelled as `App.ScoreRound`, which calls `App.ScorePass` and
  `App.PerfectPass`. These methods use loops, mirror the two `forEach` passes, and are
  proved against the pure specification in `Round`.
- `Round` (round.dfy) holds the data model and the pure meaning of one round:
  - `Player`, the alerts, and `AmountOfCards`;
  - the per-player scoring, the perfect-cycle bonus and the alerts they raise;
  - the per-cycle tracker invariant, which is what makes the perfect bonus mean "no zero
    entry in this cycle";
  - the schedule lemmas.
- `BettingPhase`, `ResultsPhase` and `Seating` are the rules of the two round screens and
  their dealer-last seating order.
- `FinalScoreboard` and `Scoreboard` are the two score tables.
- `Common` holds `Option`, `Sum`, the sparse-counter lookup `Get`, and filter-by-index
  `Without`.

A player's `roundsWithoutZero` is a sparse JavaScript array indexed by dealer cycle. It is
modelled as a `map<nat, nat>`, and a missing entry reads as 0, as `|| 0` does. A result that
is `null`, `true` or `false` is an `Option<bool>`. The hand size `cards` is a `nat`, and
before `startGame` it is 0 in place of `null`.

`App.Game.Valid` is the invariant of a started game. It combines three parts:

- the schedule: `round - 1 == cycle × hand + (hand − cards)`, the dealer is the cycle's
  number, and `maxRounds == count × hand`;
- the sheet: players are seated by id, there is one entry per completed round, and the
  tracker of the current cycle equals the number of non-zero entries in it;
- the inputs: bets lie in 0..cards and every result is set.

Every handler preserves it. `ConfirmResults` also proves that the game can finish only on
the last round of the last player's cycle, when the hand size is 1.

## Model

| member | source | states |
|---|---|---|
| Round.AmountOfCards | src/App.tsx:172-176 | A hand size exists exactly for 4, 5 and 6 players, and then hand size + player count = 12 (8, 7, 6); otherwise it is undefined |
| Round.StartConfig | src/App.tsx:36-50 | Only 4, 5 or 6 players start a game. The initial hand agrees with getAmountOfCards and the total rounds are players × hand size (32, 35, 36) |
| Round.Track | src/App.tsx:83-108 | The current cycle's counter is created if missing and grows by one exactly on a hit; every other cycle's counter is untouched |
| Round.RoundPoints | src/App.tsx:80-102 | A miss scores 0, and with a bet of 0 or more an entry is 0 exactly on a miss. A hit scores at least bet + 10 and, when the bet is the whole hand, 2 × bet + 10 |
| Round.RoundAppendsOneScore | src/App.tsx:79-112 | A round keeps every player's id, name and earlier scores, and appends exactly one entry |
| Round.RoundEntry | src/App.tsx:80-131 | The new entry is 0 on a miss, bet+10 on a hit, or hand+bet+10 on an all-in hit. On the cycle's last round, a player whose updated counter equals the cycle length gets +10 (+20 for the dealer) stacked onto that same entry |
| Round.RoundTracker | src/App.tsx:83-108 | After the two passes, each player's tracker differs from before only in the current cycle, which counts one more exactly on a hit |
| Round.AllInAlertFor | src/App.tsx:93-102 | An alert is raised in the first pass exactly for each player who hit a bet equal to the hand size, carrying that entry's points |
| Round.PerfectAlertFor | src/App.tsx:125-142 | An alert is raised in the perfect-cycle pass exactly for each player whose counter equals the cycle length: the dealer kind with 20 points, otherwise 10 points |
| Round.NonZeroCount | src/App.tsx:12 | The number of rounds without 0 points is at most the number of rounds |
| Round.FullCountIffNoZero | src/App.tsx:12 | The number of rounds without 0 points equals the number of rounds exactly when no entry is 0 |
| Round.ScoreKeepsTracker | src/App.tsx:80-111 | If a cycle's counter equals the non-zero entries among its rounds so far, scoring one more round (bet ≥ 0) keeps that true |
| Round.CycleEndKeepsTracker | src/App.tsx:119-146 | After a complete cycle and its bonus, the tracker invariant holds for the next cycle with zero rounds played |
| Round.PerfectBonus | src/App.tsx:127-131 | Only the entry just appended changes: the player's id, name, trackers, length and earlier entries stay, and the total grows by exactly the bonus (20 for the dealer, 10 otherwise) when the counter equals the cycle length, by nothing otherwise |
| Round.PerfectIffNoZeroInCycle | src/App.tsx:119-131 | On the cycle's last round, the perfect bonus applies exactly when none of the player's entries in this cycle, this round included, is 0 |
| Round.CycleFitsSchedule | src/App.tsx:144-166 | When a cycle ends and another round remains, the next dealer cycle still belongs to a seated player |
| Round.LastRoundClosesCycle | src/App.tsx:114-158 | The last round of the schedule is played with one card by the last player's cycle |
| App.Game.constructor | src/App.tsx:24-33 | The initial state: no players, setup phase, empty bets, results and alerts, dealer 0, no cards, round 1, 0 rounds, cycle 0 |
| App.Game.StartGame | src/App.tsx:35-67 | It accepts exactly 4, 5 or 6 players; otherwise it throws and changes nothing. On success it seats players 0..n−1 with empty names, sheets and trackers, sets the hand and the total rounds, resets dealer, round, cycle and alerts, leaves bets and results alone, and establishes the game invariant |
| App.Game.ConfirmNames | src/App.tsx:69-73 | Moves to betting with every bet 0 and every result preset to a miss, and keeps the invariant |
| App.Game.ChangeBet | src/components/BettingPhase.tsx:27-33 | Bets become handleBetChange of the old bets with the current hand size, and the game invariant (bets in 0..cards) is kept |
| App.Game.PlaceBets | src/components/BettingPhase.tsx:97-99 | The game moves to the results screen exactly when the bets do not add up to the hand size |
| App.Game.SetResult | src/components/ResultsPhase.tsx:26-30 | Results become setPlayerResult of the old results; the invariant is kept |
| App.Game.ConfirmEnabled | src/components/ResultsPhase.tsx:81-83 | The confirm button is enabled exactly when all results are selected, and in a valid game it always is |
| App.Game.ConfirmResults | src/App.tsx:75-170 | The new players and alerts are the round's pure result. If the next round exceeds maxRounds, only players, alerts and phase change. Otherwise it resets bets and results, increments round, and either keeps the dealer with one card fewer or, when the hand hits 0, advances dealer and cycle and resets the hand. The invariant is kept, and finishing happens only on the last dealer's one-card round |
| App.Game.Finish | src/App.tsx:155-158 | The finishing branch writes exactly the players, the alerts and the phase, and leaves a valid finished game |
| App.Game.DealNext | src/App.tsx:159-169 | The next-round branch writes the players, a betting phase, zeroed bets, results preset to a miss, the next dealer, hand, round, alerts and cycle, and leaves a valid game |
| App.Game.DismissAlert | src/App.tsx:178-180 | Removes exactly the alert at the index, keeping order; an index out of range leaves the alerts unchanged |
| App.ScoreRound | src/App.tsx:76-152 | The imperative round computes the pure round's players and alerts, and the next dealer, cycle and hand size as the source's branches do |
| App.ScorePass | src/App.tsx:79-112 | The first forEach loop produces each player scored and tracked, plus the all-in alerts in seating order |
| App.ScoreOne | src/App.tsx:80-111 | One player's step of the first pass equals the pure per-player scoring, and it raises an all-in alert exactly on a hit of the whole hand |
| App.PerfectPass | src/App.tsx:121-142 | The second forEach loop adds the perfect-cycle bonus onto each qualifying player's last entry and produces the perfect alerts in seating order |
| App.NextDealer | src/App.tsx:145 | The next dealer is a seated player: the next index, wrapping to 0 after the last |
| App.StartKeepsInv | src/App.tsx:52-66 | A freshly started game satisfies the game invariant: round 1 of dealer 0's cycle with a full hand and an empty sheet for each player |
| App.FinishKeepsInv | src/App.tsx:154-158 | Finishing after the last round gives a valid finished sheet with one entry per round, and that round had one card and the last dealer |
| App.NextScheduleKeepsInv | src/App.tsx:144-166 | The next round's dealer, cycle and hand size satisfy the schedule invariant |
| App.NextRoundKeepsInv | src/App.tsx:114-168 | Moving to the next round keeps the whole game invariant, including every player's tracker |
| App.RoundKeepsRows | src/App.tsx:79-146 | Across a round every player keeps its id and gains one entry, and every tracker counts the non-zero entries of the next round's cycle, starting afresh after a cycle's last round |
| App.PlayerKeepsTracker | src/App.tsx:79-146 | The same for one player: given the tracker invariant before the round, it holds for the next round's cycle and hand size |
| App.NextSheetKeepsInv | src/App.tsx:160-168 | Rows seated by id, with one entry per completed round and trackers matching the next round, make a valid score sheet for that round |
| BettingPhase.Clamp | src/components/BettingPhase.tsx:29 | A bet is clamped into 0..cards: the value itself when in range, 0 below, the hand size above; never negative |
| BettingPhase.HandleBetChange | src/components/BettingPhase.tsx:27-33 | Without a hand size nothing changes. Otherwise only bet i changes, to the clamped value |
| BettingPhase.TotalBets | src/components/BettingPhase.tsx:24 | No bets total 0, and from any seat the total is that seat's bet plus everyone else's |
| BettingPhase.DealerInvalid | src/components/BettingPhase.tsx:25 | A null hand size never blocks; when the block is on, each seat's bet is exactly the hand size minus the others' bets |
| BettingPhase.DealerMayNotBalance | src/components/BettingPhase.tsx:24-25 | The dealer's bet is invalid exactly when it equals the hand size minus the other players' bets |
| ResultsPhase.SetPlayerResult | src/components/ResultsPhase.tsx:26-30 | Only result i changes, to the chosen value |
| ResultsPhase.AllResultsSelected | src/components/ResultsPhase.tsx:32 | True exactly when no result is null |
| Seating.OrderedPlayers | src/components/BettingPhase.tsx:35-38 | The dealer is listed last, after the others in seating order; it is a permutation of the players |
| Seating.SeatsArePlayers | src/components/ResultsPhase.tsx:34-37 | Each player appears at exactly one position of the ordered list, and different players have different positions |
| FinalScoreboard.Totals | src/components/FinalScoreboard.tsx:8 | One total per player, the sum of that player's scores |
| FinalScoreboard.MaxOf | src/components/FinalScoreboard.tsx:9 | Math.max of a non-empty list is an element and bounds every element |
| FinalScoreboard.MaxScore | src/components/FinalScoreboard.tsx:9 | The maximum total, or 0 when there are no players |
| FinalScoreboard.Winner | src/components/FinalScoreboard.tsx:10 | A winner exists exactly when there are players; it is marked as a winner and no earlier player is |
| FinalScoreboard.IsWinner | src/components/FinalScoreboard.tsx:46-47 | A row marked as a winner has a total no other player exceeds |
| FinalScoreboard.MarkedExactlyTheLeaders | src/components/FinalScoreboard.tsx:45-54 | A row is crowned exactly when no player has a higher total, so every player tied at the top is crowned, not only the announced winner |
| FinalScoreboard.BannerAsWrittenIsOffByOne | src/components/FinalScoreboard.tsx:19 | As written, an unnamed winner with id 0 is announced as "Player 0" while that player's own row reads "Player 1" |
| FinalScoreboard.BannerLabelAsWritten | src/components/FinalScoreboard.tsx:19 | As written, a named winner is shown by name and no winner as "Player 1", but an unnamed winner is shown by its raw id |
| FinalScoreboard.BannerLabel | src/components/FinalScoreboard.tsx:19 | The corrected banner names the winner exactly as the winner's row does |
| FinalScoreboard.Announcement | src/components/FinalScoreboard.tsx:17-23 | The corrected banner (see Findings) and the final score: the first leader's own row label with the maximum total; with no players, "Player 1" and a score of 0 |
| Scoreboard.InsertPermutes | src/components/Scoreboard.tsx:9-13 | Inserting one player into the sorted list adds exactly that player and keeps all others |
| Scoreboard.InsertKeepsDescending | src/components/Scoreboard.tsx:9-13 | Inserting a player into a list in descending order of total keeps it in descending order |
| Scoreboard.InsertIsStable | src/components/Scoreboard.tsx:9-13 | Inserting a player puts it in front of every entry with the same total, so ties keep their input order |
| Scoreboard.SortByTotal | src/components/Scoreboard.tsx:9-13 | The sorted copy is a permutation of the players in descending order of total |
| Scoreboard.SortIsStable | src/components/Scoreboard.tsx:9-13 | The sort is stable: players with equal totals keep their relative order |
| Scoreboard.Standings | src/components/Scoreboard.tsx:19-29 | Row i is the i-th player of the sorted copy paired with that player's total, so totals never increase down the rows |
| Common.Without | src/App.tsx:179 | Filtering out index k removes exactly the element at k, in order; an index out of range removes nothing |

## Left out

- Rendering: JSX, CSS classes, headings and the alert popups are not modelled. The "Play
  again" button's `window.location.reload()` (src/components/FinalScoreboard.tsx:79) is a
  browser call and is not modelled either.
- src/components/PlayerSetup.tsx (name entry) and src/types/types.ts are not part of this
  model. Names are therefore only carried through, never edited.
- The alerts' display text and the `Player N` fallbacks for unnamed players are not
  modelled. An alert keeps the player's index, its kind (all-in, perfect, perfect as
  dealer) and its points. The banner fallback is the exception (see Findings).
- FinalScoreboard.Announcement: models the banner as evidently intended, not as written.
  For an unnamed winner it gives the winner's own row label `Player ${id + 1}`, while the
  expression at src/components/FinalScoreboard.tsx:19 shows `Player ${id}`. The as-written
  label is FinalScoreboard.BannerLabelAsWritten, and FinalScoreboard.BannerAsWrittenIsOffByOne
  states the difference.
- React's asynchronous state updates and re-renders are not modelled: each handler commits
  its new state at once.
- Aliasing through the shallow copy in `confirmResults` is not modelled. That copy mutates the
  old player objects' `roundsWithoutZero` and `scores` in place (App.tsx:88-91,
  105-107 and 111, 131). Both branches then store the new player
  list, so nothing observes the difference, and the model replaces player values instead.
- Sorting a copied list is modelled as a pure function, so the untouched original list is
  immediate.
- The `cards ?? 1` and `cards ?? 0` fallbacks for a `null` hand size are not modelled,
  because no round screen runs before `startGame`.
- App.ScoreRound: requires 4..6 players and a hand of at least one card, which is what every
  reachable call has. It does not model the `NaN` that `% players.length` gives with no
  players.
- BettingPhase.HandleBetChange: requires an index inside the bet list, because the screen
  only passes seated players' ids. A JavaScript write past the end of the array is not
  modelled.
- ResultsPhase.SetPlayerResult: requires an index inside the result list, for the same
  reason.
- Bets and scores are unbounded integers. JavaScript numbers are floating point, but every
  value here is a small integer.
- The dealer rule: the game's rule restricts only the dealer, who bets last and may not make
  the total equal the hand size. The code disables the button whenever the total of all bets
  equals the hand size, whoever changed a bet last. The model follows the code
  (`BettingPhase.DealerInvalid`, `App.Game.PlaceBets`).

## Findings

| source | as written | input that shows it | evidently intended | confidence | as-written member | corrected member |
|---|---|---|---|---|---|---|
| src/components/FinalScoreboard.tsx:19 | `` `Player ${winner?.id ?? 0 + 1}` `` parses as `winner?.id ?? (0 + 1)`, so it shows the raw id | an unnamed winner with id 0: the banner says "Player 0" but the winner's row (line 53) says "Player 1" | `(winner?.id ?? 0) + 1`, naming the winner as the row does | high; not executed | FinalScoreboard.BannerAsWrittenIsOffByOne | FinalScoreboard.BannerLabel |
