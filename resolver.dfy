/** `calculateWinner` (src/App.jsx:67-141): the four-stage cup tie-break.
    Stage 1 keeps the teams with the highest gameweek score, stage 2 the ones
    among those with the most goals scored, stage 3 the ones among those with
    the fewest goals conceded; a recorded virtual coin toss decides a tie that
    survives all three. Teams are identified by their index in the team list. */
module Resolver {
  import opened Wrappers
  import opened Teams

  /** The statistic a stage compares. */
  datatype Criterion = ScoreNum | GoalsNum | ConcededNum

  /** The field a criterion reads. */
  function Entry(t: Team, c: Criterion): Option<int> {
    match c
    case ScoreNum => t.score
    case GoalsNum => t.goals
    case ConcededNum => t.conceded
  }

  /** A team's coerced value for a criterion (`scoreNum`, `goalsNum`,
      `concededNum`): 0 when the field is empty, else the entered number. */
  function Key(t: Team, c: Criterion): (k: int)
    ensures Entry(t, c).None? ==> k == 0
    ensures Entry(t, c).Some? ==> k == Entry(t, c).value
  {
    Coerce(Entry(t, c))
  }

  /** Team indices listed in strictly ascending order. */
  ghost predicate Ascending(ids: seq<nat>) {
    forall i, j :: 0 <= i < j < |ids| ==> ids[i] < ids[j]
  }

  /** Every index names a team of `teams`. */
  predicate InRange(teams: seq<Team>, ids: seq<nat>) {
    forall k :: 0 <= k < |ids| ==> ids[k] < |teams|
  }

  /** `v` is the largest value of `c` among the listed teams, and is reached. */
  ghost predicate IsMaxOver(teams: seq<Team>, ids: seq<nat>, c: Criterion, v: int)
    requires InRange(teams, ids)
  {
    && (forall k :: 0 <= k < |ids| ==> Key(teams[ids[k]], c) <= v)
    && (exists k :: 0 <= k < |ids| && Key(teams[ids[k]], c) == v)
  }

  /** `v` is the smallest value of `c` among the listed teams, and is reached. */
  ghost predicate IsMinOver(teams: seq<Team>, ids: seq<nat>, c: Criterion, v: int)
    requires InRange(teams, ids)
  {
    && (forall k :: 0 <= k < |ids| ==> v <= Key(teams[ids[k]], c))
    && (exists k :: 0 <= k < |ids| && Key(teams[ids[k]], c) == v)
  }

  /** `survivors` holds exactly the listed teams whose value of `c` is `v`:
      a tie at a stage is never broken by position. */
  ghost predicate ExactlyThoseAt(teams: seq<Team>, ids: seq<nat>, c: Criterion, v: int, survivors: seq<nat>)
    requires InRange(teams, ids)
  {
    forall x: nat :: x in survivors <==> x in ids && Key(teams[x], c) == v
  }

  /** The indices 0 .. n-1, in order: every team's `originalIndex`. */
  function Indices(n: nat): (ids: seq<nat>)
    ensures |ids| == n
    ensures forall i :: 0 <= i < n ==> ids[i] == i
    ensures forall x: nat :: x in ids <==> x < n
    ensures Ascending(ids)
  {
    if n == 0 then [] else Indices(n - 1) + [n - 1]
  }

  /** `Math.max` of the criterion over the listed teams. */
  function MaxKey(teams: seq<Team>, ids: seq<nat>, c: Criterion): (m: int)
    requires |ids| > 0 && InRange(teams, ids)
    ensures IsMaxOver(teams, ids, c, m)
  {
    var k := Key(teams[ids[0]], c);
    if |ids| == 1 then k
    else
      var rest := MaxKey(teams, ids[1..], c);
      if k >= rest then k else rest
  }

  /** `Math.min` of the criterion over the listed teams. */
  function MinKey(teams: seq<Team>, ids: seq<nat>, c: Criterion): (m: int)
    requires |ids| > 0 && InRange(teams, ids)
    ensures IsMinOver(teams, ids, c, m)
  {
    var k := Key(teams[ids[0]], c);
    if |ids| == 1 then k
    else
      var rest := MinKey(teams, ids[1..], c);
      if k <= rest then k else rest
  }

  /** `filter(t => value === best)`: the listed teams whose criterion equals
      `best`, in the order they were listed. */
  function Keep(teams: seq<Team>, ids: seq<nat>, c: Criterion, best: int): (kept: seq<nat>)
    requires InRange(teams, ids)
    ensures forall x: nat :: x in kept <==> x in ids && Key(teams[x], c) == best
    ensures InRange(teams, kept) && |kept| <= |ids|
    ensures Ascending(ids) ==> Ascending(kept)
  {
    if |ids| == 0 then []
    else
      var rest := Keep(teams, ids[1..], c, best);
      if Key(teams[ids[0]], c) == best then
        assert Ascending(ids) ==> Ascending(ids[1..]) && forall k :: 0 <= k < |rest| ==> ids[0] < rest[k] by {
          if Ascending(ids) {
            forall k | 0 <= k < |rest| ensures ids[0] < rest[k] {
              assert rest[k] in ids[1..];
            }
          }
        }
        [ids[0]] + rest
      else
        rest
  }

  /** One stage's report: `{ survivors, bestValue }`. */
  datatype Stage = Stage(survivors: seq<nat>, bestValue: int)

  /** The verdict `setAnalysis` receives. `winner` is the index of the winning
      team; `winningStep` is 0 when no stage decided. */
  datatype Analysis = Analysis(
    step1: Stage,
    step2: Stage,
    step3: Stage,
    winner: Option<nat>,
    reason: string,
    winningStep: nat)

  const HigherScore: string := "Higher Gameweek Score"
  const MoreGoals: string := "More Goals Scored"
  const FewerConceded: string := "Fewer Goals Conceded"
  const DeadHeat: string := "Dead Heat - Coin Toss Required"
  const VirtualCoinToss: string := "Virtual Coin Toss"

  /** Some team's score field is not the empty text (`hasInputs`). */
  function HasInputs(teams: seq<Team>): (b: bool)
    ensures b <==> exists t :: t in teams && t.score.Some?
    ensures b ==> |teams| > 0
  {
    exists i | 0 <= i < |teams| :: teams[i].score.Some?
  }

  /** Stage 1: the teams with the maximum score, and that maximum. */
  function ScoreStage(teams: seq<Team>): (st: Stage)
    requires |teams| > 0
    ensures |st.survivors| > 0 && InRange(teams, st.survivors) && Ascending(st.survivors)
    ensures IsMaxOver(teams, Indices(|teams|), ScoreNum, st.bestValue)
    ensures ExactlyThoseAt(teams, Indices(|teams|), ScoreNum, st.bestValue, st.survivors)
  {
    var all := Indices(|teams|);
    var maxScore := MaxKey(teams, all, ScoreNum);
    var s1 := Keep(teams, all, ScoreNum, maxScore);
    var k :| 0 <= k < |all| && Key(teams[all[k]], ScoreNum) == maxScore;
    assert all[k] in s1;
    Stage(s1, maxScore)
  }

  /** Stages 2 and 3: with more than one survivor of `prev`, keep those with the
      best value of `c` (most goals, fewest conceded); otherwise carry `prev`
      over unchanged with a best value of 0. */
  function NextStage(teams: seq<Team>, prev: seq<nat>, c: Criterion): (st: Stage)
    requires |prev| > 0 && InRange(teams, prev)
    ensures |st.survivors| > 0 && InRange(teams, st.survivors)
    ensures forall x | x in st.survivors :: x in prev
    ensures Ascending(prev) ==> Ascending(st.survivors)
    ensures |prev| == 1 ==> st == Stage(prev, 0)
    ensures |prev| > 1 ==> ExactlyThoseAt(teams, prev, c, st.bestValue, st.survivors)
    ensures |prev| > 1 && c == ConcededNum ==> IsMinOver(teams, prev, c, st.bestValue)
    ensures |prev| > 1 && c != ConcededNum ==> IsMaxOver(teams, prev, c, st.bestValue)
  {
    if |prev| > 1 then
      var best := if c == ConcededNum then MinKey(teams, prev, c) else MaxKey(teams, prev, c);
      var kept := Keep(teams, prev, c, best);
      var k :| 0 <= k < |prev| && Key(teams[prev[k]], c) == best;
      assert prev[k] in kept;
      Stage(kept, best)
    else
      Stage(prev, 0)
  }

  /** `finalWinner`, `winReason` and `winningStep`. */
  datatype Verdict = Verdict(winner: Option<nat>, reason: string, winningStep: nat)

  /** The winner, reason and winning step from the three survivor lists and
      the recorded coin toss: the step is the first stage left with a single
      survivor, 4 after three tied stages, and 0 only for a coin record that
      names no stage-3 survivor; a winner always comes from a survivor list. */
  function Decide(s1: seq<nat>, s2: seq<nat>, s3: seq<nat>, coin: Option<nat>): (v: Verdict)
    requires |s1| > 0 && |s2| > 0 && |s3| > 0
    ensures v.winningStep == 1 <==> |s1| == 1
    ensures v.winningStep == 2 <==> |s1| > 1 && |s2| == 1
    ensures v.winningStep == 3 <==> |s1| > 1 && |s2| > 1 && |s3| == 1
    ensures v.winningStep == 0 <==> |s1| > 1 && |s2| > 1 && |s3| > 1 && coin.Some? && coin.value !in s3
    ensures v.winner.None? <==> v.winningStep == 0 || v.reason == DeadHeat
    ensures v.winner.Some? ==> v.winner.value in s1 || v.winner.value in s2 || v.winner.value in s3
  {
    if |s1| == 1 then Verdict(Some(s1[0]), HigherScore, 1)
    else if |s2| == 1 then Verdict(Some(s2[0]), MoreGoals, 2)
    else if |s3| == 1 then Verdict(Some(s3[0]), FewerConceded, 3)
    else
      match coin
      case None => Verdict(None, DeadHeat, 4)
      case Some(c) => if c in s3 then Verdict(Some(c), VirtualCoinToss, 4) else Verdict(None, "", 0)
  }

  /** `calculateWinner` with the teams and the recorded coin toss as inputs:
      no analysis at all when every score field is empty. */
  function Resolve(teams: seq<Team>, coin: Option<nat>): (r: Option<Analysis>)
    ensures r.None? <==> forall i | 0 <= i < |teams| :: teams[i].score.None?
  {
    if !HasInputs(teams) then None
    else
      var st1 := ScoreStage(teams);
      var st2 := NextStage(teams, st1.survivors, GoalsNum);
      var st3 := NextStage(teams, st2.survivors, ConcededNum);
      var v := Decide(st1.survivors, st2.survivors, st3.survivors, coin);
      Some(Analysis(st1, st2, st3, v.winner, v.reason, v.winningStep))
  }
}
