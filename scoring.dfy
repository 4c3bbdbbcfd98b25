// The per-robot scoring rule of the DECODE board-game simulator: a robot earns
// points for leaving its starting line and for how far it returned to base.

module Scoring {

  /** Points for the Leave achievement. */
  const LeavePoints: nat := 3
  /** Points for a partial base return. */
  const BasePartialPoints: nat := 5
  /** Points for a full base return. */
  const BaseFullPoints: nat := 10
  /** Combined total from which the Movement Ranking Point is earned. */
  const MovementRpThreshold: nat := 16

  /** The three base-return choices offered by the selector. */
  datatype BaseLevel = None | Partial | Full

  /** The value the selector stores in a base cell for each choice. */
  function Label(level: BaseLevel): (s: string)
    ensures s in {"none", "partial", "full"}
  {
    match level
    case None => "none"
    case Partial => "partial"
    case Full => "full"
  }

  /** How a stored base value is scored: only the exact strings "partial" and
      "full" earn points, every other value is worth as much as "none". */
  function LevelOf(base: string): (level: BaseLevel)
    ensures level == Partial <==> base == "partial"
    ensures level == Full <==> base == "full"
  {
    if base == "partial" then Partial
    else if base == "full" then Full
    else None
  }

  /** Position of a level on the ladder none -> partial -> full. */
  function Rank(level: BaseLevel): nat
  {
    match level
    case None => 0
    case Partial => 1
    case Full => 2
  }

  /** Points the Leave flag contributes. */
  function LeaveBonus(leave: bool): nat
  {
    if leave then LeavePoints else 0
  }

  /** Points a base level contributes. */
  function BasePoints(level: BaseLevel): nat
  {
    match level
    case None => 0
    case Partial => BasePartialPoints
    case Full => BaseFullPoints
  }

  /** Reference definition of one robot's score: the Leave bonus plus the
      points of the single base level its base value stands for. */
  function TeamScore(leave: bool, base: string): (r: nat)
    ensures r <= LeavePoints + BaseFullPoints
  {
    LeaveBonus(leave) + BasePoints(LevelOf(base))
  }

  /** The scoring routine as the component runs it: start from zero and add
      each achievement's points in turn. */
  method ScoreTeam(leave: bool, base: string) returns (score: nat)
    ensures score == TeamScore(leave, base)
  {
    score := 0;
    if leave {
      score := score + LeavePoints;
    }
    if base == "partial" {
      score := score + BasePartialPoints;
    }
    if base == "full" {
      score := score + BaseFullPoints;
    }
  }

  /** Selector values and levels correspond one to one. */
  lemma LabelRoundTrip(level: BaseLevel)
    ensures LevelOf(Label(level)) == level
  {
  }

  /** A robot scores nothing exactly when it has not left and its base value
      earns no points. */
  lemma ZeroScoreExactly(leave: bool, base: string)
    ensures TeamScore(leave, base) == 0 <==> !leave && LevelOf(base) == None
    ensures TeamScore(false, "none") == 0
  {
  }

  /** Leave adds exactly its points, whatever the base value. */
  lemma LeaveAddsExactly(base: string)
    ensures TeamScore(true, base) == TeamScore(false, base) + LeavePoints
  {
  }

  /** The base value adds exactly 5 for "partial", 10 for "full" and nothing
      for any other value, whatever the Leave flag. */
  lemma BaseAddsExactly(leave: bool, base: string)
    ensures TeamScore(leave, base) == LeaveBonus(leave) +
      (if base == "partial" then BasePartialPoints
       else if base == "full" then BaseFullPoints
       else 0)
  {
  }

  lemma ScoreBounds(leave: bool, base: string)
    ensures 0 <= TeamScore(leave, base) <= 13
    ensures TeamScore(leave, base) == 13 <==> leave && base == "full"
  {
  }

  /** Setting Leave never lowers the score. */
  lemma LeaveNeverLowers(leave: bool, base: string)
    ensures TeamScore(leave, base) <= TeamScore(true, base)
  {
  }

  /** Raising the base level along none -> partial -> full never lowers the
      score, and a strict raise strictly increases it. */
  lemma RaiseNeverLowers(leave: bool, lo: BaseLevel, hi: BaseLevel)
    requires Rank(lo) <= Rank(hi)
    ensures TeamScore(leave, Label(lo)) <= TeamScore(leave, Label(hi))
    ensures Rank(lo) < Rank(hi) ==> TeamScore(leave, Label(lo)) < TeamScore(leave, Label(hi))
  {
  }

  /** A score determines the Leave flag and the base level that produced it. */
  lemma ScoreDeterminesInputs(l1: bool, b1: string, l2: bool, b2: string)
    requires TeamScore(l1, b1) == TeamScore(l2, b2)
    ensures l1 == l2 && LevelOf(b1) == LevelOf(b2)
  {
  }

  /** The scores a robot can reach are exactly 0, 3, 5, 8, 10 and 13. */
  lemma AttainableScores(v: int)
    ensures (exists leave: bool, base: string :: TeamScore(leave, base) == v)
        <==> v in {0, 3, 5, 8, 10, 13}
  {
    if v in {0, 3, 5, 8, 10, 13} {
      var leave := v in {3, 8, 13};
      var base := if v in {5, 8} then "partial" else if v in {10, 13} then "full" else "none";
      assert TeamScore(leave, base) == v;
    }
  }

  /** The Movement Ranking Point rule on a total. */
  function EarnsRp(total: int): bool
  {
    total >= MovementRpThreshold
  }

  /** Earning the Ranking Point is monotone in the total. */
  lemma EarnsRpMonotone(t1: int, t2: int)
    requires t1 <= t2
    ensures EarnsRp(t1) ==> EarnsRp(t2)
  {
  }

  /** 16 is the least total that earns the Ranking Point. */
  lemma RpThresholdExact()
    ensures EarnsRp(16) && !EarnsRp(15)
  {
  }
}
