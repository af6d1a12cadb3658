/** What `calculateWinner` (src/App.jsx:67-141) promises, proved of Resolve. */
module ResolverProperties {
  import opened Wrappers
  import opened Teams
  import opened Resolver

  /** Stage 1 over a team list: the maximum coerced score, and exactly the
      teams that reach it. */
  lemma {:induction false} ScoreStageIsMaximum(teams: seq<Team>)
    requires |teams| > 0
    ensures var st := ScoreStage(teams);
      && (forall i | 0 <= i < |teams| :: Key(teams[i], ScoreNum) <= st.bestValue)
      && (exists i | 0 <= i < |teams| :: Key(teams[i], ScoreNum) == st.bestValue)
      && (forall x: nat :: x in st.survivors <==> x < |teams| && Key(teams[x], ScoreNum) == st.bestValue)
  {
    var st := ScoreStage(teams);
    var all := Indices(|teams|);
    forall i | 0 <= i < |teams| ensures Key(teams[i], ScoreNum) <= st.bestValue {
      assert all[i] == i;
    }
    var k :| 0 <= k < |all| && Key(teams[all[k]], ScoreNum) == st.bestValue;
    assert all[k] == k;
  }

  /** Stage 1 keeps exactly the teams whose coerced score is the maximum over
      all teams, in index order, and reports that maximum. */
  lemma Step1IsMaximumScore(teams: seq<Team>, coin: Option<nat>)
    requires HasInputs(teams)
    ensures var st := Resolve(teams, coin).value.step1;
      && |st.survivors| > 0
      && Ascending(st.survivors)
      && (forall i | 0 <= i < |teams| :: Key(teams[i], ScoreNum) <= st.bestValue)
      && (exists i | 0 <= i < |teams| :: Key(teams[i], ScoreNum) == st.bestValue)
      && (forall x: nat :: x in st.survivors <==> x < |teams| && Key(teams[x], ScoreNum) == st.bestValue)
  {
    assert Resolve(teams, coin).value.step1 == ScoreStage(teams);
    ScoreStageIsMaximum(teams);
  }

  /** Stage 2: a single stage-1 survivor is carried over with best value 0;
      otherwise the survivors are exactly the stage-1 survivors with the most
      goals, and that maximum is reported. */
  lemma Step2IsMostGoals(teams: seq<Team>, coin: Option<nat>)
    requires HasInputs(teams)
    ensures var a := Resolve(teams, coin).value;
      var s1 := a.step1.survivors;
      && InRange(teams, s1)
      && (|s1| == 1 ==> a.step2 == Stage(s1, 0))
      && (|s1| > 1 ==>
            && IsMaxOver(teams, s1, GoalsNum, a.step2.bestValue)
            && ExactlyThoseAt(teams, s1, GoalsNum, a.step2.bestValue, a.step2.survivors))
  {
    var a := Resolve(teams, coin).value;
    assert a.step2 == NextStage(teams, a.step1.survivors, GoalsNum);
  }

  /** Stage 3: a single stage-2 survivor is carried over with best value 0;
      otherwise the survivors are exactly the stage-2 survivors with the fewest
      goals conceded, and that minimum is reported. */
  lemma Step3IsFewestConceded(teams: seq<Team>, coin: Option<nat>)
    requires HasInputs(teams)
    ensures var a := Resolve(teams, coin).value;
      var s2 := a.step2.survivors;
      && InRange(teams, s2)
      && (|s2| == 1 ==> a.step3 == Stage(s2, 0))
      && (|s2| > 1 ==>
            && IsMinOver(teams, s2, ConcededNum, a.step3.bestValue)
            && ExactlyThoseAt(teams, s2, ConcededNum, a.step3.bestValue, a.step3.survivors))
  {
    var a := Resolve(teams, coin).value;
    assert a.step3 == NextStage(teams, a.step2.survivors, ConcededNum);
  }

  /** The stages nest: every stage-3 survivor survived stage 2, every stage-2
      survivor survived stage 1, every list is non-empty and in index order,
      and a stage with one survivor leaves the later stages with that one. */
  lemma StagesNest(teams: seq<Team>, coin: Option<nat>)
    requires HasInputs(teams)
    ensures var a := Resolve(teams, coin).value;
      var (s1, s2, s3) := (a.step1.survivors, a.step2.survivors, a.step3.survivors);
      && |s1| > 0 && |s2| > 0 && |s3| > 0
      && Ascending(s1) && Ascending(s2) && Ascending(s3)
      && (forall x | x in s3 :: x in s2)
      && (forall x | x in s2 :: x in s1)
      && (forall x | x in s1 :: x < |teams|)
      && (|s1| == 1 ==> s2 == s1)
      && (|s2| == 1 ==> s3 == s2)
  {
    var a := Resolve(teams, coin).value;
    assert InRange(teams, a.step1.survivors);
  }

  /** The winner comes from the first stage left with a single survivor; after
      three tied stages the recorded coin toss decides, if it names a stage-3
      survivor. */
  lemma WinnerByFirstDecisiveStage(teams: seq<Team>, coin: Option<nat>)
    requires HasInputs(teams)
    ensures var a := Resolve(teams, coin).value;
      var (s1, s2, s3) := (a.step1.survivors, a.step2.survivors, a.step3.survivors);
      && (|s1| == 1 ==>
            a.winner == Some(s1[0]) && a.reason == HigherScore && a.winningStep == 1)
      && (|s1| > 1 && |s2| == 1 ==>
            a.winner == Some(s2[0]) && a.reason == MoreGoals && a.winningStep == 2)
      && (|s2| > 1 && |s3| == 1 ==>
            a.winner == Some(s3[0]) && a.reason == FewerConceded && a.winningStep == 3)
      && (|s3| > 1 && coin.None? ==>
            a.winner.None? && a.reason == DeadHeat && a.winningStep == 4)
      && (|s3| > 1 && coin.Some? && coin.value in s3 ==>
            a.winner == coin && a.reason == VirtualCoinToss && a.winningStep == 4)
      && (|s3| > 1 && coin.Some? && coin.value !in s3 ==>
            a.winner.None? && a.reason == "" && a.winningStep == 0)
  {
    StagesNest(teams, coin);
  }

  /** Any winner survived all three stages. */
  lemma WinnerSurvivesEveryStage(teams: seq<Team>, coin: Option<nat>)
    requires HasInputs(teams)
    ensures var a := Resolve(teams, coin).value;
      a.winner.Some? ==>
        && a.winner.value in a.step1.survivors
        && a.winner.value in a.step2.survivors
        && a.winner.value in a.step3.survivors
  {
    var a := Resolve(teams, coin).value;
    var (s1, s2, s3) := (a.step1.survivors, a.step2.survivors, a.step3.survivors);
    StagesNest(teams, coin);
    WinnerByFirstDecisiveStage(teams, coin);
    if a.winner.Some? {
      var w := a.winner.value;
      if |s1| == 1 {
        assert w == s1[0] && s3 == s2 == s1;
      } else if |s2| == 1 {
        assert w == s2[0] && s3 == s2;
      } else if |s3| == 1 {
        assert w == s3[0];
      } else {
        assert w in s3;
      }
    }
  }

  /** The coin record never changes the stages; it only decides a tie that
      survives all three, and a record naming a stage-3 survivor always
      yields that winner, however often the analysis is recomputed. */
  lemma CoinOnlyDecidesFinalTie(teams: seq<Team>, coin: Option<nat>, other: Option<nat>)
    requires HasInputs(teams)
    ensures Resolve(teams, other).Some?
    ensures var (a, b) := (Resolve(teams, coin).value, Resolve(teams, other).value);
      && a.step1 == b.step1 && a.step2 == b.step2 && a.step3 == b.step3
      && (|a.step3.survivors| == 1 ==>
            a.winner == b.winner && a.reason == b.reason && a.winningStep == b.winningStep)
  {
    StagesNest(teams, coin);
  }

  /** A tied stage-3 stays tied until a coin is recorded: with no coin record
      there is never a winner, and recording a stage-3 survivor makes it the
      winner by virtual coin toss. */
  lemma RecordedCoinWins(teams: seq<Team>, c: nat)
    requires Resolve(teams, None).Some?
    requires |Resolve(teams, None).value.step3.survivors| >= 2
    requires c in Resolve(teams, None).value.step3.survivors
    ensures Resolve(teams, None).value.winner.None?
    ensures Resolve(teams, Some(c)).value.winner == Some(c)
    ensures Resolve(teams, Some(c)).value.reason == VirtualCoinToss
    ensures Resolve(teams, Some(c)).value.winningStep == 4
  {
    StagesNest(teams, None);
    CoinOnlyDecidesFinalTie(teams, None, Some(c));
  }

  /** MaxKey depends only on the compared values of the listed teams. */
  lemma {:induction false} MaxKeyAgrees(teams: seq<Team>, other: seq<Team>, ids: seq<nat>, c: Criterion)
    requires |ids| > 0 && InRange(teams, ids) && InRange(other, ids)
    requires forall k :: 0 <= k < |ids| ==> Key(teams[ids[k]], c) == Key(other[ids[k]], c)
    ensures MaxKey(teams, ids, c) == MaxKey(other, ids, c)
  {
    if |ids| > 1 {
      MaxKeyAgrees(teams, other, ids[1..], c);
    }
  }

  /** Keep depends only on the compared values of the listed teams. */
  lemma {:induction false} KeepAgrees(teams: seq<Team>, other: seq<Team>, ids: seq<nat>, c: Criterion, best: int)
    requires InRange(teams, ids) && InRange(other, ids)
    requires forall k :: 0 <= k < |ids| ==> Key(teams[ids[k]], c) == Key(other[ids[k]], c)
    ensures Keep(teams, ids, c, best) == Keep(other, ids, c, best)
  {
    if |ids| > 0 {
      KeepAgrees(teams, other, ids[1..], c, best);
    }
  }

  /** Stage 1 depends only on the teams' score fields. */
  lemma ScoreStageAgrees(teams: seq<Team>, other: seq<Team>)
    requires |teams| == |other| > 0
    requires forall i | 0 <= i < |teams| :: teams[i].score == other[i].score
    ensures ScoreStage(teams) == ScoreStage(other)
  {
    var all := Indices(|teams|);
    assert forall k :: 0 <= k < |all| ==> Key(teams[all[k]], ScoreNum) == Key(other[all[k]], ScoreNum);
    MaxKeyAgrees(teams, other, all, ScoreNum);
    KeepAgrees(teams, other, all, ScoreNum, MaxKey(teams, all, ScoreNum));
  }

  /** A unique top score decides the tie whatever the goals scored and
      conceded are, and whatever coin is recorded. */
  lemma ScoreDecidesAlone(teams: seq<Team>, other: seq<Team>, coin: Option<nat>, otherCoin: Option<nat>)
    requires |teams| == |other|
    requires forall i | 0 <= i < |teams| :: teams[i].score == other[i].score
    requires HasInputs(teams)
    requires |ScoreStage(teams).survivors| == 1
    ensures Resolve(teams, coin).Some? && Resolve(other, otherCoin).Some?
    ensures var (a, b) := (Resolve(teams, coin).value, Resolve(other, otherCoin).value);
      && b.step1 == a.step1
      && b.winner == a.winner && b.reason == HigherScore && b.winningStep == 1
  {
    ScoreStageAgrees(teams, other);
    assert HasInputs(other) by {
      var i :| 0 <= i < |teams| && teams[i].score.Some?;
      assert other[i].score.Some?;
    }
    var st := ScoreStage(other);
    var a := Resolve(teams, coin).value;
    var b := Resolve(other, otherCoin).value;
    assert a.step1 == st && b.step1 == st;
    assert Verdict(a.winner, a.reason, a.winningStep)
             == Decide(st.survivors, a.step2.survivors, a.step3.survivors, coin);
    assert Verdict(b.winner, b.reason, b.winningStep)
             == Decide(st.survivors, b.step2.survivors, b.step3.survivors, otherCoin);
  }

  function Entered(score: int, goals: int, conceded: int): Team {
    Team("", "", Some(score), Some(goals), Some(conceded), "", [], [])
  }

  /** Two teams level on all three statistics, ahead of a third. */
  function LevelPair(): seq<Team> {
    [Entered(50, 2, 1), Entered(50, 2, 1), Entered(45, 3, 0)]
  }

  lemma LevelPairTopScore()
    ensures Indices(3) == [0, 1, 2]
    ensures MaxKey(LevelPair(), [0, 1, 2], ScoreNum) == 50
  {
    assert [0, 1, 2][1..] == [1, 2] && [1, 2][1..] == [2];
  }

  lemma LevelPairKeepsTopTwo()
    ensures Keep(LevelPair(), [0, 1, 2], ScoreNum, 50) == [0, 1]
  {
    assert [0, 1, 2][1..] == [1, 2] && [1, 2][1..] == [2];
  }

  lemma LevelPairMostGoals()
    ensures MaxKey(LevelPair(), [0, 1], GoalsNum) == 2
    ensures Keep(LevelPair(), [0, 1], GoalsNum, 2) == [0, 1]
  {
    assert [0, 1][1..] == [1];
  }

  lemma LevelPairFewestConceded()
    ensures MinKey(LevelPair(), [0, 1], ConcededNum) == 1
    ensures Keep(LevelPair(), [0, 1], ConcededNum, 1) == [0, 1]
  {
    assert [0, 1][1..] == [1];
  }

  lemma LevelPairStage1()
    ensures ScoreStage(LevelPair()) == Stage([0, 1], 50)
  {
    LevelPairTopScore();
    LevelPairKeepsTopTwo();
  }

  lemma LevelPairStages()
    ensures ScoreStage(LevelPair()) == Stage([0, 1], 50)
    ensures NextStage(LevelPair(), [0, 1], GoalsNum) == Stage([0, 1], 2)
    ensures NextStage(LevelPair(), [0, 1], ConcededNum) == Stage([0, 1], 1)
  {
    LevelPairStage1();
    LevelPairMostGoals();
    LevelPairFewestConceded();
  }

  /** The level pair is a dead heat between teams 0 and 1. */
  lemma DeadHeatExample()
    ensures Resolve(LevelPair(), None)
              == Some(Analysis(Stage([0, 1], 50), Stage([0, 1], 2), Stage([0, 1], 1), None, DeadHeat, 4))
  {
    assert LevelPair()[0].score.Some?;
    LevelPairStages();
  }

  /** A coin recorded for team 2, eliminated at stage 1, gives no winner, an
      empty reason and step 0 rather than a dead heat. */
  lemma StaleCoinExample()
    ensures Resolve(LevelPair(), Some(2))
              == Some(Analysis(Stage([0, 1], 50), Stage([0, 1], 2), Stage([0, 1], 1), None, "", 0))
  {
    assert LevelPair()[0].score.Some?;
    LevelPairStages();
    assert 2 !in [0, 1];
  }

  function Runaway(): seq<Team> {
    [Entered(60, 0, 4), Team("", "", None, Some(5), Some(0), "", [], [])]
  }

  lemma RunawayStage1()
    ensures Indices(2) == [0, 1]
    ensures MaxKey(Runaway(), [0, 1], ScoreNum) == 60
    ensures Keep(Runaway(), [0, 1], ScoreNum, 60) == [0]
  {
    assert [0, 1][1..] == [1];
  }

  /** A higher score wins at stage 1; the later stages carry the single
      survivor over with best value 0. An empty score field counts as 0. */
  lemma HigherScoreExample()
    ensures Resolve(Runaway(), None)
              == Some(Analysis(Stage([0], 60), Stage([0], 0), Stage([0], 0), Some(0), HigherScore, 1))
  {
    assert Runaway()[0].score.Some?;
    RunawayStage1();
  }
}
