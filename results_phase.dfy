/** The results screen (src/components/ResultsPhase.tsx): recording a hit or a miss and
    the check that every player has one. */
module ResultsPhase {
  import opened Common

  /** `setPlayerResult(i, value)`: a copy of the results with slot i set to the choice. */
  function SetPlayerResult(results: seq<Option<bool>>, i: nat, value: bool): (r: seq<Option<bool>>)
    requires i < |results|
    ensures |r| == |results|
    ensures r[i] == Some(value)
    ensures forall j :: 0 <= j < |r| && j != i ==> r[j] == results[j]
  {
    results[i := Some(value)]
  }

  /** Every player's result has been chosen, none is still null (ResultsPhase.tsx:32); the
      confirm button is disabled exactly when this is false. */
  function AllResultsSelected(results: seq<Option<bool>>): (r: bool)
    ensures r <==> forall j :: 0 <= j < |results| ==> results[j].Some?
  {
    if results == [] then true
    else results[0].Some? && AllResultsSelected(results[1..])
  }
}
