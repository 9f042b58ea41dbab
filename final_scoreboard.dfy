/** The final results screen (src/components/FinalScoreboard.tsx): each player's total,
    the highest total, the announced winner and the rows marked as winners. */
module FinalScoreboard {
  import opened Common
  import opened Round

  /** `totals`: every player's score total, in seat order. */
  function Totals(players: seq<Player>): (t: seq<int>)
    ensures |t| == |players|
    ensures forall i :: 0 <= i < |t| ==> t[i] == Sum(players[i].scores)
  {
    if players == [] then [] else [Sum(players[0].scores)] + Totals(players[1..])
  }

  /** The largest entry of a non-empty list (`Math.max(...totals)`, FinalScoreboard.tsx:9). */
  function MaxOf(s: seq<int>): (m: int)
    requires |s| > 0
    ensures forall i :: 0 <= i < |s| ==> s[i] <= m
    ensures exists i :: 0 <= i < |s| && s[i] == m
  {
    if |s| == 1 then s[0]
    else
      var rest := MaxOf(s[1..]);
      assert forall i :: 1 <= i < |s| ==> s[i] == s[1..][i - 1];
      if s[0] >= rest then s[0] else rest
  }

  /** `maxScore`: the highest total, or 0 when there are no players. */
  function MaxScore(totals: seq<int>): (m: int)
    ensures |totals| == 0 ==> m == 0
    ensures forall i :: 0 <= i < |totals| ==> totals[i] <= m
    ensures |totals| > 0 ==> exists i :: 0 <= i < |totals| && totals[i] == m
  {
    if |totals| > 0 then MaxOf(totals) else 0
  }

  /** The first index at or after `from` whose total is `target`, if any. */
  function FindFirst(totals: seq<int>, target: int, from: nat): (r: Option<nat>)
    requires from <= |totals|
    ensures r.Some? ==> from <= r.value < |totals| && totals[r.value] == target
    ensures r.Some? ==> forall j :: from <= j < r.value ==> totals[j] != target
    ensures r.None? ==> forall j :: from <= j < |totals| ==> totals[j] != target
    decreases |totals| - from
  {
    if from == |totals| then None
    else if totals[from] == target then Some(from)
    else FindFirst(totals, target, from + 1)
  }

  /** `isWinner` of row i: its total equals `maxScore`. A marked row has the top total;
      MarkedExactlyTheLeaders gives the converse. */
  predicate IsWinner(players: seq<Player>, i: nat)
    requires i < |players|
    ensures IsWinner(players, i) ==>
              forall j :: 0 <= j < |players| ==> Sum(players[j].scores) <= Sum(players[i].scores)
  {
    var totals := Totals(players);
    totals[i] == MaxScore(totals)
  }

  /** `winner`: `players.find((_, i) => totals[i] === maxScore)`, as the index of the
      player found. Some player is found whenever there is one, and it is the first row
      marked as a winner. */
  function Winner(players: seq<Player>): (r: Option<nat>)
    ensures r.Some? <==> |players| > 0
    ensures r.Some? ==> r.value < |players| && IsWinner(players, r.value)
    ensures r.Some? ==> forall j :: 0 <= j < r.value ==> !IsWinner(players, j)
  {
    var totals := Totals(players);
    FindFirst(totals, MaxScore(totals), 0)
  }

  /** A row is marked exactly when no player has a higher total, so every player tied at
      the top is marked, not only the announced winner. */
  lemma MarkedExactlyTheLeaders(players: seq<Player>, i: nat)
    requires i < |players|
    ensures IsWinner(players, i) <==>
            forall j :: 0 <= j < |players| ==> Sum(players[j].scores) <= Sum(players[i].scores)
  {
    var totals := Totals(players);
    var m := MaxScore(totals);
    if forall j :: 0 <= j < |players| ==> Sum(players[j].scores) <= Sum(players[i].scores) {
      var k :| 0 <= k < |totals| && totals[k] == m;
      assert totals[k] <= totals[i];
    }
  }

  /** How the screens name a player: the entered name, or a "Player N" number. */
  datatype Label = Named(name: string) | Numbered(number: int)

  /** A table row's label: the name, or `Player ${p.id + 1}`. */
  function RowLabel(p: Player): Label
  {
    if p.name != "" then Named(p.name) else Numbered(p.id + 1)
  }

  /** The banner's label as written, `winner?.name || \`Player ${winner?.id ?? 0 + 1}\``:
      `0 + 1` is evaluated before `??`, so an unnamed winner is shown by its id. A named
      winner and the no-winner case still come out as intended. */
  function BannerLabelAsWritten(winner: Option<Player>): (l: Label)
    ensures winner.Some? && winner.value.name != "" ==> l == RowLabel(winner.value)
    ensures winner.Some? && winner.value.name == "" ==> l.Numbered? && l.number == winner.value.id
    ensures winner.None? ==> l == Numbered(1)
  {
    match winner
    case Some(p) => if p.name != "" then Named(p.name) else Numbered(p.id)
    case None => Numbered(1)
  }

  /** For every unnamed winner the banner as written shows a number one lower than the
      winner's own table row, e.g. "Player 0" for the player listed as "Player 1". */
  lemma BannerAsWrittenIsOffByOne(p: Player)
    requires p.name == ""
    ensures BannerLabelAsWritten(Some(p)).number == RowLabel(p).number - 1
    ensures BannerLabelAsWritten(Some(p)) != RowLabel(p)
  {
  }

  /** The banner's label as evidently intended, `(winner?.id ?? 0) + 1`: the winner is
      announced under the label of its own table row. */
  function BannerLabel(winner: Option<Player>): (l: Label)
    ensures winner.Some? ==> l == RowLabel(winner.value)
    ensures winner.None? ==> l == Numbered(1)
  {
    match winner
    case Some(p) => if p.name != "" then Named(p.name) else Numbered(p.id + 1)
    case None => Numbered(0 + 1)
  }

  /** The banner as evidently intended: the winner's label, taken from the corrected
      BannerLabel rather than the expression as written (see BannerAsWrittenIsOffByOne),
      and the final score. With no players there is no winner, and the banner falls back
      to "Player 1" with a score of 0. */
  function Announcement(players: seq<Player>): (a: (Label, int))
    ensures |players| == 0 ==> a == (Numbered(1), 0)
    ensures |players| > 0 ==> a.0 == RowLabel(players[Winner(players).value])
    ensures forall j :: 0 <= j < |players| ==> Sum(players[j].scores) <= a.1
    ensures |players| > 0 ==> exists j :: 0 <= j < |players| && Sum(players[j].scores) == a.1
  {
    var totals := Totals(players);
    var w := Winner(players);
    var winner := if w.Some? then Some(players[w.value]) else None;
    (BannerLabel(winner), MaxScore(totals))
  }
}
