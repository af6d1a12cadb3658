# Cup tie-breaker resolver, modelled in Dafny

A model of the core of `fpl-tie-breaker`, a browser tool that settles a tied
Fantasy Premier League cup match between two to five teams. All of the core
lives in `src/App.jsx`. It has three parts:

- **The resolver** (`calculateWinner`). Stage 1 keeps the teams with the highest
  gameweek score. Stage 2 keeps those of them with the most goals scored.
  Stage 3 keeps those of them with the fewest goals conceded. The first stage
  left with one team names the winner. A tie that survives all three stages is
  settled by a recorded virtual coin toss.
- **The session state** around it: the team list and the recorded coin toss,
  changed by `updateTeam`, `addTeam`, `removeTeam`, `handleReset` and
  `handleCoinToss`. The analysis is recomputed from that state after every change.
- **The stats import** inside `fetchFPLData`. From an entry's picks, the
  gameweek's live player stats and the manager's details, it computes the
  team's score, goals, conceded and its scorer and conceder lists.

Files:

- `wrappers.dfy`: `Option`.
- `teams.dfy` (module `Teams`): the team record, blank teams, and field edits.
- `resolver.dfy` (module `Resolver`): `calculateWinner` as pure functions over
  `seq<Team>`. `Resolve` returns `None` where the source sets the analysis to `null`.
- `resolver_properties.dfy` (module `ResolverProperties`): what the resolver
  promises, as lemmas, plus worked examples.
- `stats_import.dfy` (module `StatsImport`): the import's `forEach` loops as
  methods. Each method is proved against a specification function.
- `session.dfy` (module `CupSession`): class `Session`. Its `teams` and
  `coinWinnerIndex` fields are changed in place by its methods.

Modelling choices:

- The score, goals and conceded fields are `Option<int>`. `None` is the empty
  input text `''`. `Some(v)` is any other content, with `v` the value that
  `Number(text) || 0` gives it. So non-numeric text is `Some(0)`: it is not
  empty, and it counts as 0.
- Teams are identified by their index in the list (`originalIndex`). The
  analysis's `winner` is that index, not a copy of the team record.
- The random choice in `handleCoinToss` is a nondeterministic pick (`:|`)
  among the stage-3 survivors.
- `Session.Valid()` requires 2 to 5 teams. It also requires that a recorded coin
  names a team still tied after stage 3 of the current teams. Every edit
  clears the record, so each method keeps this.

Quirks of the code the model keeps:

- The stage-1 reason is `Higher Gameweek Score`.
- The dead-heat reason is `Dead Heat - Coin Toss Required`, with an ASCII hyphen.
- When a stage has a single survivor from the previous stage, that survivor is
  carried over and the stage's best value is 0 (App.jsx:88, 96).
- A recorded coin that is not a stage-3 survivor gives no winner, an empty
  reason and winning step 0 (App.jsx:102-104, 119-126; `StaleCoinExample`).
  In the model's session states this never shows (`CupSession.LiveCoinWins`).
  That relies on two things. Every edit clears the record. Both the coin toss
  and the stats import complete in one step. In the browser neither does: see
  "## Left out".

## Model

| member | source | states |
|---|---|---|
| `Teams.ApplyEdit` | fpl-tie-breaker/fpl-tie-breaker/src/App.jsx:182-184 | the edited team carries the new content in the edited field and agrees with the old team on every other field |
| `Teams.EditIsDetermined` | fpl-tie-breaker/fpl-tie-breaker/src/App.jsx:184 | any team that carries the edit and otherwise agrees with the old team is the edited team, so the contract above pins the edit down |
| `Teams.BlankTeam` | fpl-tie-breaker/fpl-tie-breaker/src/App.jsx:191 | a new team is named "Team n" and has an empty id, value and numeric fields, and no scorers or conceders |
| `Teams.DefaultTeams` | fpl-tie-breaker/fpl-tie-breaker/src/App.jsx:166-169 | the default list is exactly the blank "Team 1" and "Team 2" |
| `Teams.Coerce` | fpl-tie-breaker/fpl-tie-breaker/src/App.jsx:71-73 | an empty field counts as 0, and an entered number counts as itself |
| `Resolver.Key` | fpl-tie-breaker/fpl-tie-breaker/src/App.jsx:71-73 | a team's compared value for a stage is 0 when that stage's field (score, goals or conceded) is empty, and the entered number otherwise |
| `Resolver.HasInputs` | fpl-tie-breaker/fpl-tie-breaker/src/App.jsx:76 | holds if and only if some team in the list has a non-empty score field; then the list is not empty |
| `Resolver.Indices` | fpl-tie-breaker/fpl-tie-breaker/src/App.jsx:68-70 | the original indices are 0 .. n-1, in ascending order, and nothing else |
| `Resolver.MaxKey` | fpl-tie-breaker/fpl-tie-breaker/src/App.jsx:83 | the result is at least every listed team's value, and some listed team reaches it (`Math.max`) |
| `Resolver.MinKey` | fpl-tie-breaker/fpl-tie-breaker/src/App.jsx:98 | the result is at most every listed team's value, and some listed team reaches it (`Math.min`) |
| `Resolver.Keep` | fpl-tie-breaker/fpl-tie-breaker/src/App.jsx:84 | an index is kept if and only if it is listed and its value equals the best; an ascending list stays ascending |
| `Resolver.ScoreStage` | fpl-tie-breaker/fpl-tie-breaker/src/App.jsx:82-84 | stage 1 is non-empty and ascending, its best value is the maximum score, and its survivors are exactly the teams that reach it |
| `Resolver.NextStage` | fpl-tie-breaker/fpl-tie-breaker/src/App.jsx:86-100 | with one previous survivor the list is carried over with best value 0; otherwise the best value is the max of goals (or the min of conceded) over the previous survivors, and the survivors are exactly those that reach it |
| `Resolver.Decide` | fpl-tie-breaker/fpl-tie-breaker/src/App.jsx:102-131 | the winning step is 1, 2 or 3 exactly when that is the first stage with a single survivor; it is 0 exactly when three stages tie and the coin names no stage-3 survivor; there is no winner exactly at step 0 or in a dead heat; a winner is always a survivor |
| `Resolver.Resolve` | fpl-tie-breaker/fpl-tie-breaker/src/App.jsx:76-80 | there is no analysis if and only if every team's score field is empty |
| `ResolverProperties.ScoreStageIsMaximum` | fpl-tie-breaker/fpl-tie-breaker/src/App.jsx:83-84 | stage 1's best value is the maximum coerced score over all teams, and it keeps exactly the teams with that score |
| `ResolverProperties.Step1IsMaximumScore` | fpl-tie-breaker/fpl-tie-breaker/src/App.jsx:68-84 | in every analysis, stage 1 is non-empty and ascending, and holds exactly the teams with the maximum score, which it reports |
| `ResolverProperties.Step2IsMostGoals` | fpl-tie-breaker/fpl-tie-breaker/src/App.jsx:86-92 | stage 2 carries a single stage-1 survivor over with best value 0; otherwise it keeps exactly the stage-1 survivors with the most goals and reports that maximum |
| `ResolverProperties.Step3IsFewestConceded` | fpl-tie-breaker/fpl-tie-breaker/src/App.jsx:94-100 | stage 3 carries a single stage-2 survivor over with best value 0; otherwise it keeps exactly the stage-2 survivors with the fewest conceded and reports that minimum |
| `ResolverProperties.StagesNest` | fpl-tie-breaker/fpl-tie-breaker/src/App.jsx:83-100 | the stage-3 survivors are a subset of the stage-2 survivors, which are a subset of stage 1's; all three lists are non-empty, ascending and valid team indices; a single survivor stays single |
| `ResolverProperties.WinnerByFirstDecisiveStage` | fpl-tie-breaker/fpl-tie-breaker/src/App.jsx:102-131 | the first stage with one survivor gives the winner, reason and step (1, 2 or 3); after three tied stages: no coin gives a dead heat at step 4, a surviving coin wins by virtual coin toss at step 4, and a stale coin gives no winner, reason '' and step 0 |
| `ResolverProperties.WinnerSurvivesEveryStage` | fpl-tie-breaker/fpl-tie-breaker/src/App.jsx:107-126 | any winner is a member of all three survivor lists |
| `ResolverProperties.CoinOnlyDecidesFinalTie` | fpl-tie-breaker/fpl-tie-breaker/src/App.jsx:119-131 | the coin record never changes the three stages, and with a single stage-3 survivor it does not change the verdict either |
| `ResolverProperties.RecordedCoinWins` | fpl-tie-breaker/fpl-tie-breaker/src/App.jsx:120-129 | when stage 3 is tied and no coin is recorded there is no winner; recording a stage-3 survivor makes it the winner by virtual coin toss at step 4, on every recomputation |
| `ResolverProperties.MaxKeyAgrees` | fpl-tie-breaker/fpl-tie-breaker/src/App.jsx:83 | the maximum depends only on the compared values of the listed teams |
| `ResolverProperties.KeepAgrees` | fpl-tie-breaker/fpl-tie-breaker/src/App.jsx:84 | the filter depends only on the compared values of the listed teams |
| `ResolverProperties.ScoreStageAgrees` | fpl-tie-breaker/fpl-tie-breaker/src/App.jsx:82-84 | stage 1 depends only on the teams' score fields |
| `ResolverProperties.ScoreDecidesAlone` | fpl-tie-breaker/fpl-tie-breaker/src/App.jsx:107-110 | a unique top score wins with 'Higher Gameweek Score' at step 1, whatever the goals, the conceded values and the coin record are |
| `ResolverProperties.DeadHeatExample` | fpl-tie-breaker/fpl-tie-breaker/src/App.jsx:127-129 | two teams level on all three statistics ahead of a third give a dead heat between the two, with no winner |
| `ResolverProperties.StaleCoinExample` | fpl-tie-breaker/fpl-tie-breaker/src/App.jsx:120-126 | with the same teams, a coin recorded for the eliminated third team gives no winner, reason '' and step 0 |
| `ResolverProperties.HigherScoreExample` | fpl-tie-breaker/fpl-tie-breaker/src/App.jsx:107-110 | a higher score wins at step 1, stages 2 and 3 carry it over with best value 0, and an empty score field counts as 0 |
| `StatsImport.Starters` | fpl-tie-breaker/fpl-tie-breaker/src/App.jsx:252 | keeps exactly the picks in positions 1-11 |
| `StatsImport.Bench` | fpl-tie-breaker/fpl-tie-breaker/src/App.jsx:253 | keeps exactly the picks in positions above 11 |
| `StatsImport.Without` | fpl-tie-breaker/fpl-tie-breaker/src/App.jsx:257 | keeps exactly the picks of other elements |
| `StatsImport.FiltersKeepOrder` | fpl-tie-breaker/fpl-tie-breaker/src/App.jsx:252-257 | the starters, the bench and the starters without an element each keep their picks in squad order |
| `StatsImport.FindPick` | fpl-tie-breaker/fpl-tie-breaker/src/App.jsx:258 | finds nothing if and only if no pick has the element; otherwise it returns the first pick of that element |
| `StatsImport.ApplySub` | fpl-tie-breaker/fpl-tie-breaker/src/App.jsx:256-260 | after one substitution, a pick is present if and only if it is a starter of another element than the one taken off, or the first bench pick of the element brought on; that bench pick comes last; with no such bench pick the result is the starters without the outgoing element |
| `StatsImport.SubsKeepUntouched` | fpl-tie-breaker/fpl-tie-breaker/src/App.jsx:255-261 | over a sequence of substitutions, a starter that no substitution takes off stays, and so does a bench player brought on and not taken off by a later one |
| `StatsImport.ActivePicks` | fpl-tie-breaker/fpl-tie-breaker/src/App.jsx:246-263 | the loop computes the active picks: all picks under Bench Boost, otherwise the starters with the automatic subs applied in order |
| `StatsImport.SubsOnlyUseSquad` | fpl-tie-breaker/fpl-tie-breaker/src/App.jsx:255-261 | any sequence of substitutions only uses starters and bench picks |
| `StatsImport.ActivePicksFromSquad` | fpl-tie-breaker/fpl-tie-breaker/src/App.jsx:246-263 | active picks are always the entry's own picks; under Bench Boost they are all the picks; with no automatic subs they are exactly the picks in positions 1-11 |
| `StatsImport.ActivePicksKeepUntouched` | fpl-tie-breaker/fpl-tie-breaker/src/App.jsx:249-263 | without Bench Boost, every starter never taken off is active, and every bench player brought on and not taken off again is active |
| `StatsImport.LastSubTakesOff` | fpl-tie-breaker/fpl-tie-breaker/src/App.jsx:256-259 | the player taken off by the last automatic sub is not active, unless the same element came on |
| `StatsImport.StatsOf` | fpl-tie-breaker/fpl-tie-breaker/src/App.jsx:271 | finds stats if and only if some live element has that id, and then they are the stats of the first element with that id |
| `StatsImport.Breakdown` | fpl-tie-breaker/fpl-tie-breaker/src/App.jsx:279-284 | every scorer or conceder entry has a count above 0, and there are at most as many entries as active picks |
| `StatsImport.BreakdownEntries` | fpl-tie-breaker/fpl-tie-breaker/src/App.jsx:270-284 | the scorer (or conceder) list holds the named entry, with its count, of every active pick that has live stats and a positive count, and no other entry |
| `StatsImport.BreakdownAddsUpToTotal` | fpl-tie-breaker/fpl-tie-breaker/src/App.jsx:275-285 | with non-negative live counts, the entries' counts add up to the team's goals (or conceded) total |
| `StatsImport.TeamStats` | fpl-tie-breaker/fpl-tie-breaker/src/App.jsx:265-286 | the loop sums goals and conceded over the active picks that have live stats, and lists the scorers and conceders |
| `StatsImport.TotalBounds` | fpl-tie-breaker/fpl-tie-breaker/src/App.jsx:265-277 | the goals (or conceded) total is never negative when the live counts are not, and it is 0 when no active pick has live stats |
| `StatsImport.ValueTextOfRaw` | fpl-tie-breaker/fpl-tie-breaker/src/App.jsx:292-294 | a raw value of 0 gives empty text; any other raw value gives its formatted figure |
| `StatsImport.ImportedTeam` | fpl-tie-breaker/fpl-tie-breaker/src/App.jsx:288-305 | the imported team keeps its id, has score = points - event_transfers_cost, has goals and conceded set, and lists only positive counts |
| `StatsImport.ImportedTeamFields` | fpl-tie-breaker/fpl-tie-breaker/src/App.jsx:288-305 | the imported team has the manager's full name, score = points - event_transfers_cost, the goals and conceded totals over the active picks, the value text (empty for a raw value of 0), and the scorer and conceder breakdowns; only its id is kept |
| `StatsImport.ImportTeam` | fpl-tie-breaker/fpl-tie-breaker/src/App.jsx:245-305 | one pass of the results loop produces the imported team |
| `StatsImport.ImportAll` | fpl-tie-breaker/fpl-tie-breaker/src/App.jsx:243-306 | the team list keeps its length, and teams without a result are unchanged |
| `StatsImport.ImportAllWritesEachTeam` | fpl-tie-breaker/fpl-tie-breaker/src/App.jsx:296-305 | when the results are for distinct teams, each of those teams becomes the import of its old self |
| `StatsImport.ImportResults` | fpl-tie-breaker/fpl-tie-breaker/src/App.jsx:243-306 | the loop writes every result into the copied list, in order |
| `CupSession.RemoveAt` | fpl-tie-breaker/fpl-tie-breaker/src/App.jsx:198 | removes the team at the index and keeps the others in order; an index with no team changes nothing |
| `CupSession.LiveCoinWins` | fpl-tie-breaker/fpl-tie-breaker/src/App.jsx:120-126 | in a session state, a recorded coin is always the winner by virtual coin toss, and winning step 0 never occurs |
| `CupSession.Session.constructor` | fpl-tie-breaker/fpl-tie-breaker/src/App.jsx:22-25 | a session without saved data starts with the two default teams, no coin record and no analysis |
| `CupSession.Session.Reset` | fpl-tie-breaker/fpl-tie-breaker/src/App.jsx:165-173 | reset leaves exactly the two default teams, no coin record and no analysis |
| `CupSession.Session.UpdateTeam` | fpl-tie-breaker/fpl-tie-breaker/src/App.jsx:182-187 | only the edited team changes; the length and all other teams stay; the coin record is cleared |
| `CupSession.Session.AddTeam` | fpl-tie-breaker/fpl-tie-breaker/src/App.jsx:189-194 | below five teams, a blank "Team n+1" is appended and the coin record is cleared; at five teams nothing changes |
| `CupSession.Session.RemoveTeam` | fpl-tie-breaker/fpl-tie-breaker/src/App.jsx:196-202 | above two teams, the team is removed, the others keep their order, and the coin record is cleared; at two teams nothing changes |
| `CupSession.Session.CoinToss` | fpl-tie-breaker/fpl-tie-breaker/src/App.jsx:151-163 | does nothing without an analysis or with fewer than two stage-3 survivors; otherwise records one of the stage-3 survivors, which then wins by virtual coin toss at step 4 |
| `CupSession.Session.ImportStats` | fpl-tie-breaker/fpl-tie-breaker/src/App.jsx:217-308 | every fetched team is rewritten from its data, the coin record is cleared, and 2 to 5 teams remain |

## Left out

- Saving to and loading from `localStorage` (App.jsx:6-33, 43-48, 176-179). This is browser persistence.
- The gameweek field and the error and analysis state that `handleReset` also clears (App.jsx:171-174). In the model the analysis is always recomputed from the state.
- The `fetch` calls through the CORS proxy, the `Promise.all` fan-out, the pre-fetch check for a gameweek and two team ids, the error messages and the loading flag (App.jsx:50-64, 207-241, 308-315). These are network I/O. Their decoded results are the inputs of `StatsImport`.
- The 1500 ms `setTimeout` and the `isFlipping` flag around the coin toss (App.jsx:156-162). In the model the toss completes atomically. So the race where an edit lands during the delay, and a stale coin index is then recorded, is not modelled.
- `Session.ImportStats` completes in one step. In the source it does not. `fetchFPLData` clears the coin record (App.jsx:217) before it awaits the network (App.jsx:223, 241). It then writes the teams (App.jsx:308) without clearing the record again. The coin-toss button stays enabled while data loads. So a toss made during a fetch records an index for the old teams, and the import keeps it. If the new stats eliminate that team, the analysis shows no winner, reason '' and step 0. Edits made during the fetch are also overwritten, because the import writes into a copy of the `teams` it captured when the fetch started (App.jsx:243). Neither interleaving is modelled.
- The distribution of `Math.random`. It is a nondeterministic choice here.
- `Number(text) || 0` on arbitrary text, including fractions, exponents and NaN (App.jsx:71-73). The numeric fields are integers, and unset means 0.
- The team value formatting `(rawValue / 10).toFixed(1)` (App.jsx:293-294). This is floating point. `formatValue` is a parameter. Only the empty result for a raw value of 0 is modelled.
- The player-name lookup in the static player data (App.jsx:272-273). Names come from the `playerName` parameter.
- Live elements without a `stats` object. Every live element here carries stats.
- All JSX rendering (App.jsx:318-758), including the `!coinWinnerIndex` guard on the coin-toss button, which treats index 0 as unset.
- `vite.config.js`. It is build configuration.
- `Session.UpdateTeam`: requires an index of an existing team, as every team card passes. Writing past the end of a JavaScript array is not modelled.
