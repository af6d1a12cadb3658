/** The per-team part of `fetchFPLData` (src/App.jsx:245-306): turning one
    entry's gameweek picks, the gameweek's live player stats and the manager's
    details into the team's score, goals, conceded and breakdown lists. The
    network calls that produce these records are not modelled; their decoded
    results are the inputs here. */
module StatsImport {
  import opened Wrappers
  import opened Teams

  /** One squad pick: the player's element id and squad position (1-11 start,
      12-15 bench). */
  datatype Pick = Pick(element: int, position: int)

  /** An automatic substitution made by the game: `element_in` replaced
      `element_out`. */
  datatype AutoSub = AutoSub(elementIn: int, elementOut: int)

  datatype EntryHistory = EntryHistory(points: int, eventTransfersCost: int, value: int)

  /** The decoded picks response for one entry and gameweek. `activeChip` is
      `None` when no chip was played. */
  datatype PicksData = PicksData(
    activeChip: Option<string>,
    picks: seq<Pick>,
    automaticSubs: seq<AutoSub>,
    entryHistory: EntryHistory)

  /** The decoded entry details: the manager's name. */
  datatype Details = Details(playerFirstName: string, playerLastName: string)

  datatype PlayerStats = PlayerStats(goalsScored: int, goalsConceded: int)

  /** One element of the gameweek's live data. */
  datatype LiveElement = LiveElement(id: int, stats: PlayerStats)

  /** One fetched team: its index in the team list and its two responses. */
  datatype TeamResult = TeamResult(index: nat, picksData: PicksData, detailsData: Details)

  const BenchBoost: string := "bboost"
  const LastStarter: int := 11

  // ---- Choosing the active picks ----

  /** `sub` is `s` with some entries dropped: what is left keeps its order. */
  ghost predicate OrderedSublist(sub: seq<Pick>, s: seq<Pick>)
    decreases |s|
  {
    if |sub| == 0 then true
    else if |s| == 0 then false
    else (sub[0] == s[0] && OrderedSublist(sub[1..], s[1..])) || OrderedSublist(sub, s[1..])
  }

  /** `picks.filter(p => p.position <= 11)`. */
  function Starters(picks: seq<Pick>): (r: seq<Pick>)
    ensures forall p :: p in r <==> p in picks && p.position <= LastStarter
  {
    if |picks| == 0 then []
    else if picks[0].position <= LastStarter then [picks[0]] + Starters(picks[1..])
    else Starters(picks[1..])
  }

  /** `picks.filter(p => p.position > 11)`. */
  function Bench(picks: seq<Pick>): (r: seq<Pick>)
    ensures forall p :: p in r <==> p in picks && p.position > LastStarter
  {
    if |picks| == 0 then []
    else if picks[0].position > LastStarter then [picks[0]] + Bench(picks[1..])
    else Bench(picks[1..])
  }

  /** `picks.filter(p => p.element !== element)`, keeping the order. */
  function Without(picks: seq<Pick>, element: int): (r: seq<Pick>)
    ensures forall p :: p in r <==> p in picks && p.element != element
  {
    if |picks| == 0 then []
    else if picks[0].element != element then [picks[0]] + Without(picks[1..], element)
    else Without(picks[1..], element)
  }

  /** The three filters keep the picks they keep in their squad order. */
  lemma {:induction false} FiltersKeepOrder(picks: seq<Pick>, element: int)
    ensures OrderedSublist(Starters(picks), picks)
    ensures OrderedSublist(Bench(picks), picks)
    ensures OrderedSublist(Without(picks, element), picks)
  {
    if |picks| > 0 {
      FiltersKeepOrder(picks[1..], element);
    }
  }

  /** `picks.find(p => p.element === element)`: the first pick of that element. */
  function FindPick(picks: seq<Pick>, element: int): (r: Option<Pick>)
    ensures r.None? <==> forall k :: 0 <= k < |picks| ==> picks[k].element != element
    ensures r.Some? ==> exists k :: 0 <= k < |picks| && picks[k] == r.value && r.value.element == element
                          && forall j :: 0 <= j < k ==> picks[j].element != element
  {
    if |picks| == 0 then None
    else if picks[0].element == element then Some(picks[0])
    else
      FindPick(picks[1..], element)
  }

  /** One automatic substitution: drop `element_out` from the starters, then
      append `element_in` if it is on the bench. */
  function ApplySub(starters: seq<Pick>, bench: seq<Pick>, sub: AutoSub): (r: seq<Pick>)
    ensures forall p :: p in r <==>
              (p in starters && p.element != sub.elementOut) ||
              (FindPick(bench, sub.elementIn).Some? && p == FindPick(bench, sub.elementIn).value)
    ensures forall p | p in r :: p in starters || p in bench
    ensures forall p | p in r :: p.element == sub.elementOut ==> p.element == sub.elementIn
    ensures FindPick(bench, sub.elementIn).Some? ==>
              |r| > 0 && r[|r| - 1] == FindPick(bench, sub.elementIn).value
    ensures FindPick(bench, sub.elementIn).None? ==> r == Without(starters, sub.elementOut)
  {
    var kept := Without(starters, sub.elementOut);
    match FindPick(bench, sub.elementIn)
    case Some(playerIn) => kept + [playerIn]
    case None => kept
  }

  /** No substitution after the `k`-th takes `element` off. */
  predicate NotTakenOffAfter(subs: seq<AutoSub>, k: int, element: int) {
    forall j :: k < j < |subs| && 0 <= j ==> subs[j].elementOut != element
  }

  /** The starters after the automatic substitutions, applied in order. */
  function ApplySubs(starters: seq<Pick>, bench: seq<Pick>, subs: seq<AutoSub>): seq<Pick> {
    if |subs| == 0 then starters
    else ApplySub(ApplySubs(starters, bench, subs[..|subs| - 1]), bench, subs[|subs| - 1])
  }

  /** The picks whose stats count: every pick under Bench Boost, otherwise the
      starting eleven with the automatic substitutions applied. */
  function ActivePicksOf(pd: PicksData): seq<Pick> {
    if pd.activeChip == Some(BenchBoost) then pd.picks
    else ApplySubs(Starters(pd.picks), Bench(pd.picks), pd.automaticSubs)
  }

  /** The `activePicks` computation, with its substitution loop. */
  method ActivePicks(pd: PicksData) returns (active: seq<Pick>)
    ensures active == ActivePicksOf(pd)
  {
    if pd.activeChip == Some(BenchBoost) {
      active := pd.picks;
    } else {
      var starters := Starters(pd.picks);
      var bench := Bench(pd.picks);
      var i := 0;
      while i < |pd.automaticSubs|
        invariant 0 <= i <= |pd.automaticSubs|
        invariant starters == ApplySubs(Starters(pd.picks), bench, pd.automaticSubs[..i])
      {
        var sub := pd.automaticSubs[i];
        starters := Without(starters, sub.elementOut);
        var playerIn := FindPick(bench, sub.elementIn);
        if playerIn.Some? {
          starters := starters + [playerIn.value];
        }
        assert pd.automaticSubs[..i + 1][..i] == pd.automaticSubs[..i];
        i := i + 1;
      }
      assert pd.automaticSubs[..i] == pd.automaticSubs;
      active := starters;
    }
  }

  /** Every active pick is one of the entry's own picks; without Bench Boost it
      is a starter or a bench player brought on by a substitution. */
  lemma {:induction false} SubsOnlyUseSquad(starters: seq<Pick>, bench: seq<Pick>, subs: seq<AutoSub>)
    ensures forall p | p in ApplySubs(starters, bench, subs) :: p in starters || p in bench
  {
    if |subs| > 0 {
      SubsOnlyUseSquad(starters, bench, subs[..|subs| - 1]);
    }
  }

  /** Active picks come from the squad; under Bench Boost they are all of it;
      with no automatic substitution they are exactly the starting eleven. */
  lemma ActivePicksFromSquad(pd: PicksData)
    ensures forall p | p in ActivePicksOf(pd) :: p in pd.picks
    ensures pd.activeChip == Some(BenchBoost) ==> ActivePicksOf(pd) == pd.picks
    ensures pd.activeChip != Some(BenchBoost) && pd.automaticSubs == [] ==>
              forall p :: p in ActivePicksOf(pd) <==> p in pd.picks && p.position <= LastStarter
  {
    SubsOnlyUseSquad(Starters(pd.picks), Bench(pd.picks), pd.automaticSubs);
  }

  /** Substitutions only touch what they name: a starter no substitution takes
      off stays, and so does a bench player brought on and not taken off by a
      later substitution. */
  lemma {:induction false} SubsKeepUntouched(starters: seq<Pick>, bench: seq<Pick>, subs: seq<AutoSub>)
    ensures forall p | p in starters && NotTakenOffAfter(subs, -1, p.element) :: p in ApplySubs(starters, bench, subs)
    ensures forall k | 0 <= k < |subs| && FindPick(bench, subs[k].elementIn).Some? &&
                       NotTakenOffAfter(subs, k, subs[k].elementIn) ::
              FindPick(bench, subs[k].elementIn).value in ApplySubs(starters, bench, subs)
  {
    if |subs| > 0 {
      var prefix := subs[..|subs| - 1];
      SubsKeepUntouched(starters, bench, prefix);
      forall k, e | -1 <= k < |subs| - 1 && NotTakenOffAfter(subs, k, e) ensures NotTakenOffAfter(prefix, k, e) {
        forall j | k < j < |prefix| && 0 <= j ensures prefix[j].elementOut != e {
          assert prefix[j] == subs[j];
        }
      }
    }
  }

  /** Without Bench Boost, a starter never taken off is active, and so is a
      bench player brought on and not taken off again. */
  lemma ActivePicksKeepUntouched(pd: PicksData)
    requires pd.activeChip != Some(BenchBoost)
    ensures forall p | p in pd.picks && p.position <= LastStarter && NotTakenOffAfter(pd.automaticSubs, -1, p.element) ::
              p in ActivePicksOf(pd)
    ensures forall k | 0 <= k < |pd.automaticSubs| && FindPick(Bench(pd.picks), pd.automaticSubs[k].elementIn).Some? &&
                       NotTakenOffAfter(pd.automaticSubs, k, pd.automaticSubs[k].elementIn) ::
              FindPick(Bench(pd.picks), pd.automaticSubs[k].elementIn).value in ActivePicksOf(pd)
  {
    SubsKeepUntouched(Starters(pd.picks), Bench(pd.picks), pd.automaticSubs);
  }

  /** After its substitution the player taken off is no longer active, unless
      the same element also came on. */
  lemma LastSubTakesOff(pd: PicksData)
    requires pd.activeChip != Some(BenchBoost) && |pd.automaticSubs| > 0
    ensures var sub := pd.automaticSubs[|pd.automaticSubs| - 1];
      forall p | p in ActivePicksOf(pd) :: p.element == sub.elementOut ==> p.element == sub.elementIn
  {
  }

  // ---- Summing the live stats ----

  /** The two counted statistics. */
  datatype Measure = GoalsScored | GoalsConceded

  function Count(st: PlayerStats, m: Measure): int {
    match m
    case GoalsScored => st.goalsScored
    case GoalsConceded => st.goalsConceded
  }

  /** `liveData.elements.find(el => el.id === element)?.stats`. */
  function StatsOf(live: seq<LiveElement>, element: int): (r: Option<PlayerStats>)
    ensures r.None? <==> forall k :: 0 <= k < |live| ==> live[k].id != element
    ensures r.Some? ==> exists k :: 0 <= k < |live| && live[k].id == element && live[k].stats == r.value
                          && forall j :: 0 <= j < k ==> live[j].id != element
  {
    if |live| == 0 then None
    else if live[0].id == element then Some(live[0].stats)
    else
      StatsOf(live[1..], element)
  }

  /** The measure summed over the active picks that have live stats. */
  function Total(active: seq<Pick>, live: seq<LiveElement>, m: Measure): int {
    if |active| == 0 then 0
    else
      var last := match StatsOf(live, active[|active| - 1].element)
        case Some(st) => Count(st, m)
        case None => 0;
      Total(active[..|active| - 1], live, m) + last
  }

  /** The scorer (or conceder) list: one entry per active pick with live stats
      and a positive count, in pick order. */
  function Breakdown(active: seq<Pick>, live: seq<LiveElement>, playerName: int -> string, m: Measure): (r: seq<Contribution>)
    ensures forall e | e in r :: e.count > 0
    ensures |r| <= |active|
  {
    if |active| == 0 then []
    else
      var pick := active[|active| - 1];
      var prev := Breakdown(active[..|active| - 1], live, playerName, m);
      match StatsOf(live, pick.element)
      case Some(st) =>
        if Count(st, m) > 0 then prev + [Contribution(playerName(pick.element), Count(st, m))] else prev
      case None => prev
  }

  function SumCounts(entries: seq<Contribution>): int {
    if |entries| == 0 then 0 else SumCounts(entries[..|entries| - 1]) + entries[|entries| - 1].count
  }

  /** Every live count is non-negative (goals and goals conceded are). */
  ghost predicate CountsNonNegative(live: seq<LiveElement>) {
    forall k :: 0 <= k < |live| ==> live[k].stats.goalsScored >= 0 && live[k].stats.goalsConceded >= 0
  }

  /** The active pick has live stats with a positive count of the measure. */
  predicate Contributes(pick: Pick, live: seq<LiveElement>, m: Measure) {
    StatsOf(live, pick.element).Some? && Count(StatsOf(live, pick.element).value, m) > 0
  }

  /** The scorer (or conceder) entry for a contributing pick. */
  function EntryOf(pick: Pick, live: seq<LiveElement>, playerName: int -> string, m: Measure): Contribution
    requires Contributes(pick, live, m)
  {
    Contribution(playerName(pick.element), Count(StatsOf(live, pick.element).value, m))
  }

  /** The breakdown lists the named entry of every contributing active pick,
      and nothing else. */
  lemma {:induction false} BreakdownEntries(active: seq<Pick>, live: seq<LiveElement>, playerName: int -> string, m: Measure)
    ensures forall k | 0 <= k < |active| && Contributes(active[k], live, m) ::
              EntryOf(active[k], live, playerName, m) in Breakdown(active, live, playerName, m)
    ensures forall e | e in Breakdown(active, live, playerName, m) ::
              exists k :: 0 <= k < |active| && Contributes(active[k], live, m) && e == EntryOf(active[k], live, playerName, m)
  {
    if |active| > 0 {
      var n := |active| - 1;
      var prefix := active[..n];
      BreakdownEntries(prefix, live, playerName, m);
      var prev := Breakdown(prefix, live, playerName, m);
      var r := Breakdown(active, live, playerName, m);
      var pick := active[n];
      assert r == (if Contributes(pick, live, m) then prev + [EntryOf(pick, live, playerName, m)] else prev);
      forall k | 0 <= k < |active| && Contributes(active[k], live, m)
        ensures EntryOf(active[k], live, playerName, m) in r
      {
        if k < n {
          assert prefix[k] == active[k];
        }
      }
      forall e | e in r
        ensures exists k :: 0 <= k < |active| && Contributes(active[k], live, m) && e == EntryOf(active[k], live, playerName, m)
      {
        if e in prev {
          var k :| 0 <= k < |prefix| && Contributes(prefix[k], live, m) && e == EntryOf(prefix[k], live, playerName, m);
          assert prefix[k] == active[k];
        } else {
          assert Contributes(active[n], live, m) && e == EntryOf(active[n], live, playerName, m);
        }
      }
    }
  }

  /** With non-negative live counts, the breakdown list accounts for the whole
      total: the entries it drops are exactly the zero counts. */
  lemma {:induction false} BreakdownAddsUpToTotal(active: seq<Pick>, live: seq<LiveElement>, playerName: int -> string, m: Measure)
    requires CountsNonNegative(live)
    ensures SumCounts(Breakdown(active, live, playerName, m)) == Total(active, live, m)
  {
    if |active| > 0 {
      var prefix := active[..|active| - 1];
      BreakdownAddsUpToTotal(prefix, live, playerName, m);
      var prev := Breakdown(prefix, live, playerName, m);
      match StatsOf(live, active[|active| - 1].element)
      case Some(st) =>
        if Count(st, m) > 0 {
          var e := Contribution(playerName(active[|active| - 1].element), Count(st, m));
          assert (prev + [e])[..|prev + [e]| - 1] == prev;
        }
      case None =>
    }
  }

  /** The total is never negative when the live counts are not, and it is 0
      when no active pick has live stats. */
  lemma {:induction false} TotalBounds(active: seq<Pick>, live: seq<LiveElement>, m: Measure)
    ensures CountsNonNegative(live) ==> Total(active, live, m) >= 0
    ensures (forall k | 0 <= k < |active| :: StatsOf(live, active[k].element).None?) ==> Total(active, live, m) == 0
  {
    if |active| > 0 {
      var prefix := active[..|active| - 1];
      TotalBounds(prefix, live, m);
      assert forall k | 0 <= k < |prefix| :: prefix[k] == active[k];
    }
  }

  /** The `activePicks.forEach` loop: accumulate the goals and goals conceded
      and collect the scorers and conceders. */
  method TeamStats(active: seq<Pick>, live: seq<LiveElement>, playerName: int -> string)
    returns (goals: int, conceded: int, scorers: seq<Contribution>, conceders: seq<Contribution>)
    ensures goals == Total(active, live, GoalsScored)
    ensures conceded == Total(active, live, GoalsConceded)
    ensures scorers == Breakdown(active, live, playerName, GoalsScored)
    ensures conceders == Breakdown(active, live, playerName, GoalsConceded)
  {
    goals, conceded, scorers, conceders := 0, 0, [], [];
    var i := 0;
    while i < |active|
      invariant 0 <= i <= |active|
      invariant goals == Total(active[..i], live, GoalsScored)
      invariant conceded == Total(active[..i], live, GoalsConceded)
      invariant scorers == Breakdown(active[..i], live, playerName, GoalsScored)
      invariant conceders == Breakdown(active[..i], live, playerName, GoalsConceded)
    {
      var pick := active[i];
      assert active[..i + 1][..i] == active[..i] && active[..i + 1][i] == pick;
      var playerStats := StatsOf(live, pick.element);
      if playerStats.Some? {
        var st := playerStats.value;
        goals := goals + st.goalsScored;
        conceded := conceded + st.goalsConceded;
        if st.goalsScored > 0 {
          scorers := scorers + [Contribution(playerName(pick.element), st.goalsScored)];
        }
        if st.goalsConceded > 0 {
          conceders := conceders + [Contribution(playerName(pick.element), st.goalsConceded)];
        }
      }
      i := i + 1;
    }
    assert active[..i] == active;
  }

  // ---- Writing the team ----

  /** `formattedValue`: empty when the raw value is 0, otherwise the formatted
      figure, which `formatValue` supplies. */
  function ValueText(raw: int, formatValue: int -> string): string {
    if raw != 0 then formatValue(raw) else ""
  }

  /** A raw value of 0 (falsy in the source) gives empty text; any other raw
      value gives its formatted figure. */
  lemma ValueTextOfRaw(raw: int, formatValue: int -> string)
    ensures raw == 0 ==> ValueText(raw, formatValue) == ""
    ensures raw != 0 ==> ValueText(raw, formatValue) == formatValue(raw)
  {
  }

  /** `{ ...team, name, score, goals, conceded, value, scorers, conceders }`:
      the team record with its fetched fields replaced, its id kept. */
  function Rewritten(t: Team, dd: Details, totalPoints: int, goals: int, conceded: int, value: string,
                     scorers: seq<Contribution>, conceders: seq<Contribution>): Team {
    t.(name := dd.playerFirstName + " " + dd.playerLastName,
       score := Some(totalPoints),
       goals := Some(goals),
       conceded := Some(conceded),
       value := value,
       scorers := scorers,
       conceders := conceders)
  }

  /** The team as `newTeams[index]` is rewritten from its fetched data. */
  function ImportedTeam(t: Team, pd: PicksData, dd: Details, live: seq<LiveElement>,
                        playerName: int -> string, formatValue: int -> string): (r: Team)
    ensures r.id == t.id
    ensures r.score == Some(pd.entryHistory.points - pd.entryHistory.eventTransfersCost)
    ensures r.goals.Some? && r.conceded.Some?
    ensures forall e | e in r.scorers :: e.count > 0
    ensures forall e | e in r.conceders :: e.count > 0
  {
    var active := ActivePicksOf(pd);
    Rewritten(t, dd, pd.entryHistory.points - pd.entryHistory.eventTransfersCost,
              Total(active, live, GoalsScored), Total(active, live, GoalsConceded),
              ValueText(pd.entryHistory.value, formatValue),
              Breakdown(active, live, playerName, GoalsScored), Breakdown(active, live, playerName, GoalsConceded))
  }

  /** Every field of the imported team: the manager's name, the gameweek score
      net of transfer cost, the goals and conceded totals over the active
      picks, the value text, and the two breakdown lists; only the id stays. */
  lemma ImportedTeamFields(t: Team, pd: PicksData, dd: Details, live: seq<LiveElement>,
                           playerName: int -> string, formatValue: int -> string)
    ensures var (r, active) := (ImportedTeam(t, pd, dd, live, playerName, formatValue), ActivePicksOf(pd));
      && r.id == t.id
      && r.name == dd.playerFirstName + " " + dd.playerLastName
      && r.score == Some(pd.entryHistory.points - pd.entryHistory.eventTransfersCost)
      && r.goals == Some(Total(active, live, GoalsScored))
      && r.conceded == Some(Total(active, live, GoalsConceded))
      && r.value == ValueText(pd.entryHistory.value, formatValue)
      && (pd.entryHistory.value == 0 ==> r.value == "")
      && r.scorers == Breakdown(active, live, playerName, GoalsScored)
      && r.conceders == Breakdown(active, live, playerName, GoalsConceded)
  {
  }

  /** One pass of `results.forEach`: compute and write one team. */
  method ImportTeam(t: Team, pd: PicksData, dd: Details, live: seq<LiveElement>,
                    playerName: int -> string, formatValue: int -> string) returns (r: Team)
    ensures r == ImportedTeam(t, pd, dd, live, playerName, formatValue)
  {
    var active := ActivePicks(pd);
    var goals, conceded, scorers, conceders := TeamStats(active, live, playerName);
    var rawPoints := pd.entryHistory.points;
    var transferCost := pd.entryHistory.eventTransfersCost;
    var totalPoints := rawPoints - transferCost;
    var formattedValue := ValueText(pd.entryHistory.value, formatValue);
    assert active == ActivePicksOf(pd);
    r := Rewritten(t, dd, totalPoints, goals, conceded, formattedValue, scorers, conceders);
  }

  /** Every result names a team of the list. */
  predicate IndicesInRange(teams: seq<Team>, results: seq<TeamResult>) {
    forall k :: 0 <= k < |results| ==> results[k].index < |teams|
  }

  /** `newTeams` after the results have been written in order. */
  function ImportAll(teams: seq<Team>, results: seq<TeamResult>, live: seq<LiveElement>,
                     playerName: int -> string, formatValue: int -> string): (r: seq<Team>)
    requires IndicesInRange(teams, results)
    ensures |r| == |teams|
    ensures forall i | 0 <= i < |teams| && (forall k :: 0 <= k < |results| ==> results[k].index != i) ::
              r[i] == teams[i]
  {
    if |results| == 0 then teams
    else
      var res := results[|results| - 1];
      var prev := ImportAll(teams, results[..|results| - 1], live, playerName, formatValue);
      prev[res.index := ImportedTeam(prev[res.index], res.picksData, res.detailsData, live, playerName, formatValue)]
  }

  /** The last result written: its team becomes the import of its old self,
      provided no earlier result named it, and every other team is as the
      earlier results left it. */
  lemma ImportAllLastWrite(teams: seq<Team>, results: seq<TeamResult>, live: seq<LiveElement>,
                           playerName: int -> string, formatValue: int -> string)
    requires IndicesInRange(teams, results) && |results| > 0
    requires forall k :: 0 <= k < |results| - 1 ==> results[k].index != results[|results| - 1].index
    ensures var (all, prev, last) := (ImportAll(teams, results, live, playerName, formatValue),
                                      ImportAll(teams, results[..|results| - 1], live, playerName, formatValue),
                                      results[|results| - 1]);
      && all[last.index] == ImportedTeam(teams[last.index], last.picksData, last.detailsData, live, playerName, formatValue)
      && forall i | 0 <= i < |teams| && i != last.index :: all[i] == prev[i]
  {
    var n := |results| - 1;
    var prefix := results[..n];
    var last := results[n];
    forall k | 0 <= k < |prefix| ensures prefix[k].index != last.index {
      assert prefix[k] == results[k];
    }
  }

  /** Results for distinct teams: each listed team is the import of its old
      self. */
  lemma {:induction false} ImportAllWritesEachTeam(teams: seq<Team>, results: seq<TeamResult>, live: seq<LiveElement>,
                                                   playerName: int -> string, formatValue: int -> string)
    requires IndicesInRange(teams, results)
    requires forall j, k :: 0 <= j < k < |results| ==> results[j].index != results[k].index
    ensures forall k | 0 <= k < |results| ::
              ImportAll(teams, results, live, playerName, formatValue)[results[k].index]
                == ImportedTeam(teams[results[k].index], results[k].picksData, results[k].detailsData,
                                live, playerName, formatValue)
  {
    if |results| > 0 {
      var n := |results| - 1;
      var prefix := results[..n];
      ImportAllWritesEachTeam(teams, prefix, live, playerName, formatValue);
      ImportAllLastWrite(teams, results, live, playerName, formatValue);
      var prev := ImportAll(teams, prefix, live, playerName, formatValue);
      var all := ImportAll(teams, results, live, playerName, formatValue);
      forall k | 0 <= k < n
        ensures all[results[k].index]
                  == ImportedTeam(teams[results[k].index], results[k].picksData, results[k].detailsData,
                                  live, playerName, formatValue)
      {
        assert prefix[k] == results[k];
        assert all[results[k].index] == prev[results[k].index];
      }
    }
  }

  /** The `results.forEach` loop over a copy of the team list. */
  method ImportResults(teams: seq<Team>, results: seq<TeamResult>, live: seq<LiveElement>,
                       playerName: int -> string, formatValue: int -> string) returns (newTeams: seq<Team>)
    requires IndicesInRange(teams, results)
    ensures newTeams == ImportAll(teams, results, live, playerName, formatValue)
  {
    newTeams := teams;
    var i := 0;
    while i < |results|
      invariant 0 <= i <= |results|
      invariant newTeams == ImportAll(teams, results[..i], live, playerName, formatValue)
    {
      var res := results[i];
      assert results[..i + 1][..i] == results[..i] && results[..i + 1][i] == res;
      var team := ImportTeam(newTeams[res.index], res.picksData, res.detailsData, live, playerName, formatValue);
      newTeams := newTeams[res.index := team];
      i := i + 1;
    }
    assert results[..i] == results;
  }
}
