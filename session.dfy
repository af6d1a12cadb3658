/** The tie-breaker's session state (src/App.jsx:35-37, 151-202): the team
    list and the recorded coin toss, the edits that change them, and the
    analysis recomputed from them after every change. */
module CupSession {
  import opened Wrappers
  import opened Teams
  import opened Resolver
  import opened ResolverProperties
  import StatsImport

  const MinTeams: nat := 2
  const MaxTeams: nat := 5

  /** A recorded coin toss names a team still tied after stage 3 of the
      current teams. */
  ghost predicate CoinIsLive(teams: seq<Team>, coin: Option<nat>) {
    coin.Some? ==>
      var a := Resolve(teams, None);
      a.Some? && |a.value.step3.survivors| >= 2 && coin.value in a.value.step3.survivors
  }

  /** `teams.filter((_, i) => i !== index)`: the list without the team at
      `index`, the others in their order; unchanged when no team has that
      index. */
  function RemoveAt(teams: seq<Team>, index: nat): (r: seq<Team>)
    ensures index < |teams| ==> |r| == |teams| - 1
    ensures index < |teams| ==> forall i | 0 <= i < |r| :: r[i] == teams[if i < index then i else i + 1]
    ensures index >= |teams| ==> r == teams
  {
    if index < |teams| then teams[..index] + teams[index + 1..] else teams
  }

  /** In a session state the recorded coin, if any, is the winner: the stale
      record (no winner, empty reason, step 0) never shows. */
  lemma LiveCoinWins(teams: seq<Team>, coin: Option<nat>)
    requires CoinIsLive(teams, coin)
    ensures Resolve(teams, coin).Some? ==> Resolve(teams, coin).value.winningStep != 0
    ensures coin.Some? ==>
              && Resolve(teams, coin).Some?
              && Resolve(teams, coin).value.winner == coin
              && Resolve(teams, coin).value.reason == VirtualCoinToss
  {
    if Resolve(teams, coin).Some? {
      CoinOnlyDecidesFinalTie(teams, coin, None);
      WinnerByFirstDecisiveStage(teams, coin);
    }
    if coin.Some? {
      RecordedCoinWins(teams, coin.value);
    }
  }

  class Session {
    var teams: seq<Team>
    var coinWinnerIndex: Option<nat>

    /** Two to five teams, and a coin record only for a live stage-3 tie. */
    ghost predicate Valid()
      reads this
    {
      && MinTeams <= |teams| <= MaxTeams
      && CoinIsLive(teams, coinWinnerIndex)
    }

    /** The analysis on screen, recomputed from the current state. */
    function CurrentAnalysis(): Option<Analysis>
      reads this
    {
      Resolve(teams, coinWinnerIndex)
    }

    /** The initial state without saved data: two blank teams, no coin. */
    constructor ()
      ensures Valid()
      ensures teams == DefaultTeams() && coinWinnerIndex.None?
      ensures CurrentAnalysis().None?
    {
      teams := DefaultTeams();
      coinWinnerIndex := None;
    }

    /** `handleReset`: two blank teams, no coin record, no analysis. */
    method Reset()
      modifies this
      ensures Valid()
      ensures teams == DefaultTeams() && coinWinnerIndex.None?
      ensures CurrentAnalysis().None?
    {
      teams := DefaultTeams();
      coinWinnerIndex := None;
    }

    /** `updateTeam(index, field, value)`: only that field of that team
        changes, and the coin record is cleared. */
    method UpdateTeam(index: nat, e: Edit)
      requires Valid() && index < |teams|
      modifies this
      ensures Valid()
      ensures teams == old(teams)[index := ApplyEdit(old(teams)[index], e)]
      ensures coinWinnerIndex.None?
    {
      var newTeams := teams;
      newTeams := newTeams[index := ApplyEdit(newTeams[index], e)];
      coinWinnerIndex := None;
      teams := newTeams;
    }

    /** `addTeam`: below five teams, append a blank "Team n" and clear the
        coin record; at five teams, nothing happens. */
    method AddTeam()
      requires Valid()
      modifies this
      ensures Valid()
      ensures old(|teams|) < MaxTeams ==>
                teams == old(teams) + [BlankTeam(old(|teams|) + 1)] && coinWinnerIndex.None?
      ensures old(|teams|) >= MaxTeams ==>
                teams == old(teams) && coinWinnerIndex == old(coinWinnerIndex)
    {
      if |teams| < MaxTeams {
        teams := teams + [BlankTeam(|teams| + 1)];
        coinWinnerIndex := None;
      }
    }

    /** `removeTeam(index)`: above two teams, drop the team at `index` and
        clear the coin record; at two teams, nothing happens. */
    method RemoveTeam(index: nat)
      requires Valid()
      modifies this
      ensures Valid()
      ensures old(|teams|) > MinTeams ==>
                teams == RemoveAt(old(teams), index) && coinWinnerIndex.None?
      ensures old(|teams|) <= MinTeams ==>
                teams == old(teams) && coinWinnerIndex == old(coinWinnerIndex)
    {
      if |teams| > MinTeams {
        var newTeams := RemoveAt(teams, index);
        teams := newTeams;
        coinWinnerIndex := None;
      }
    }

    /** `handleCoinToss`: with an analysis whose stage 3 leaves two or more
        teams tied, record one of them, chosen at random; otherwise do
        nothing. The recorded team then wins by virtual coin toss. */
    method CoinToss()
      requires Valid()
      modifies this`coinWinnerIndex
      ensures Valid()
      ensures old(CurrentAnalysis()).None? || |old(CurrentAnalysis()).value.step3.survivors| < 2 ==>
                coinWinnerIndex == old(coinWinnerIndex)
      ensures old(CurrentAnalysis()).Some? && |old(CurrentAnalysis()).value.step3.survivors| >= 2 ==>
                && coinWinnerIndex.Some?
                && coinWinnerIndex.value in old(CurrentAnalysis()).value.step3.survivors
                && CurrentAnalysis().value.winner == coinWinnerIndex
                && CurrentAnalysis().value.reason == VirtualCoinToss
                && CurrentAnalysis().value.winningStep == 4
    {
      var analysis := CurrentAnalysis();
      if analysis.None? {
        return;
      }
      var candidates := analysis.value.step3.survivors;
      if |candidates| < 2 {
        return;
      }
      var randomIndex :| 0 <= randomIndex < |candidates|;
      var winnerOriginalIndex := candidates[randomIndex];
      CoinOnlyDecidesFinalTie(teams, coinWinnerIndex, None);
      RecordedCoinWins(teams, winnerOriginalIndex);
      coinWinnerIndex := Some(winnerOriginalIndex);
    }

    /** The successful end of `fetchFPLData`: every fetched team is rewritten
        from its data and the coin record is cleared. */
    method ImportStats(results: seq<StatsImport.TeamResult>, live: seq<StatsImport.LiveElement>,
                       playerName: int -> string, formatValue: int -> string)
      requires Valid() && StatsImport.IndicesInRange(teams, results)
      modifies this
      ensures Valid()
      ensures teams == StatsImport.ImportAll(old(teams), results, live, playerName, formatValue)
      ensures coinWinnerIndex.None?
    {
      coinWinnerIndex := None;
      var newTeams := StatsImport.ImportResults(teams, results, live, playerName, formatValue);
      teams := newTeams;
    }
  }
}
