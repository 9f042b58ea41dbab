/** The running standings (src/components/Scoreboard.tsx): a copy of the players sorted by
    total, highest first, by a stable sort, each shown with its total. */
module Scoreboard {
  import opened Common
  import opened Round

  /** A player's total: `p.scores.reduce((acc, val) => acc + val, 0)`. */
  function Total(p: Player): int
  {
    Sum(p.scores)
  }

  /** Totals never increase from one entry to the next. */
  ghost predicate Descending(s: seq<Player>)
  {
    forall i, j :: 0 <= i < j < |s| ==> Total(s[i]) >= Total(s[j])
  }

  /** Places p in front of the first entry whose total is not higher than p's. */
  function Insert(p: Player, sorted: seq<Player>): (r: seq<Player>)
    ensures |r| == |sorted| + 1
    ensures r[0] == p || (sorted != [] && r[0] == sorted[0])
  {
    if sorted == [] || Total(p) >= Total(sorted[0]) then [p] + sorted
    else
      assert sorted == [sorted[0]] + sorted[1..];
      [sorted[0]] + Insert(p, sorted[1..])
  }

  /** Inserting adds p and keeps every other entry. */
  lemma {:induction false} InsertPermutes(p: Player, sorted: seq<Player>)
    ensures multiset(Insert(p, sorted)) == multiset(sorted) + multiset{p}
  {
    if sorted != [] && Total(p) < Total(sorted[0]) {
      InsertPermutes(p, sorted[1..]);
      assert sorted == [sorted[0]] + sorted[1..];
    }
  }

  /** Inserting into a list sorted by total keeps it sorted. */
  lemma {:induction false} InsertKeepsDescending(p: Player, sorted: seq<Player>)
    requires Descending(sorted)
    ensures Descending(Insert(p, sorted))
  {
    if sorted != [] && Total(p) < Total(sorted[0]) {
      var rest := Insert(p, sorted[1..]);
      InsertKeepsDescending(p, sorted[1..]);
      var r := [sorted[0]] + rest;
      forall i, j | 0 <= i < j < |r|
        ensures Total(r[i]) >= Total(r[j])
      {
        if i == 0 {
          assert Total(sorted[0]) >= Total(rest[0]);
          assert r[j] == rest[j - 1];
        } else {
          assert r[i] == rest[i - 1] && r[j] == rest[j - 1];
        }
      }
    }
  }

  /** A copy of the players ordered by total, highest first, players with equal totals
      keeping their seat order (Scoreboard.tsx:9-13; `Array.prototype.sort` is stable). */
  function SortByTotal(players: seq<Player>): (r: seq<Player>)
    ensures |r| == |players|
    ensures multiset(r) == multiset(players)
    ensures Descending(r)
  {
    if players == [] then []
    else
      assert players == [players[0]] + players[1..];
      var rest := SortByTotal(players[1..]);
      InsertKeepsDescending(players[0], rest);
      InsertPermutes(players[0], rest);
      Insert(players[0], rest)
  }

  /** The players whose total is k, in the order they appear. */
  function WithTotal(s: seq<Player>, k: int): seq<Player>
  {
    if s == [] then [] else (if Total(s[0]) == k then [s[0]] else []) + WithTotal(s[1..], k)
  }

  /** Filtering by total a list with one more player in front keeps that player in front
      exactly when its total matches. */
  lemma {:induction false} WithTotalCons(p: Player, s: seq<Player>, k: int)
    ensures WithTotal([p] + s, k) == (if Total(p) == k then [p] else []) + WithTotal(s, k)
  {
    assert ([p] + s)[1..] == s;
  }

  /** Inserting keeps the relative order of players with the same total: p lands in
      front of every entry that ties with it. */
  lemma {:induction false} InsertIsStable(p: Player, sorted: seq<Player>, k: int)
    ensures WithTotal(Insert(p, sorted), k) == WithTotal([p] + sorted, k)
  {
    if sorted == [] || Total(p) >= Total(sorted[0]) {
    } else {
      var q := sorted[0];
      var rest := sorted[1..];
      assert sorted == [q] + rest;
      InsertIsStable(p, rest, k);
      WithTotalCons(q, Insert(p, rest), k);
      WithTotalCons(p, rest, k);
      WithTotalCons(p, sorted, k);
      WithTotalCons(q, rest, k);
    }
  }

  /** The sort is stable: for every total, the players with that total appear in the
      sorted copy in the same order as in the input. */
  lemma {:induction false} SortIsStable(players: seq<Player>, k: int)
    ensures WithTotal(SortByTotal(players), k) == WithTotal(players, k)
  {
    if players != [] {
      var p := players[0];
      var rest := players[1..];
      assert players == [p] + rest;
      SortIsStable(rest, k);
      InsertIsStable(p, SortByTotal(rest), k);
      WithTotalCons(p, SortByTotal(rest), k);
      WithTotalCons(p, rest, k);
    }
  }

  /** The rows the standings show: each player of the sorted copy with its total. Row i
      is the i-th player of SortByTotal, which holds exactly the input players; the totals
      column is the sum of that row's scores and never increases. */
  function Standings(players: seq<Player>): (rows: seq<(Player, int)>)
    ensures |rows| == |players|
    ensures forall i :: 0 <= i < |rows| ==> rows[i].0 == SortByTotal(players)[i]
    ensures forall i :: 0 <= i < |rows| ==> rows[i].1 == Sum(rows[i].0.scores)
    ensures forall i, j :: 0 <= i < j < |rows| ==> rows[i].1 >= rows[j].1
  {
    var sorted := SortByTotal(players);
    seq(|sorted|, i requires 0 <= i < |sorted| => (sorted[i], Total(sorted[i])))
  }
}
