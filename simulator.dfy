// The simulator component's state: one Leave checkbox and one base-return
// selector per alliance robot, the scores derived from them, and the setter
// calls the checkboxes and selectors make.

module Simulator {
  import opened Scoring

  datatype Alliance = Red | Blue

  /** A change handler call: a checkbox toggled or a selector changed, with the
      new value it hands to the setter. */
  datatype Event =
    | LeaveChanged(alliance: Alliance, checked: bool)
    | BaseChanged(alliance: Alliance, value: string)

  /** The values of the four state cells at one moment. */
  datatype Cells = Cells(redLeave: bool, redBase: string, blueLeave: bool, blueBase: string)
  {
    function Leave(a: Alliance): bool
    {
      if a == Red then redLeave else blueLeave
    }

    function Base(a: Alliance): string
    {
      if a == Red then redBase else blueBase
    }

    /** The alliance robot's score, from its own two cells. */
    function Score(a: Alliance): nat
    {
      TeamScore(Leave(a), Base(a))
    }

    /** Red's and Blue's scores together. */
    function Total(): nat
    {
      Score(Red) + Score(Blue)
    }

    /** The Movement Ranking Point, taken from the combined total. */
    function GotRp(): bool
    {
      EarnsRp(Total())
    }

    /** The cells after one setter call: the addressed cell takes the new
        value, the other three keep theirs. */
    function Apply(e: Event): (r: Cells)
      ensures forall a: Alliance ::
        r.Leave(a) == (if e.LeaveChanged? && e.alliance == a then e.checked else Leave(a))
      ensures forall a: Alliance ::
        r.Base(a) == (if e.BaseChanged? && e.alliance == a then e.value else Base(a))
    {
      match e
      case LeaveChanged(Red, v) => this.(redLeave := v)
      case LeaveChanged(Blue, v) => this.(blueLeave := v)
      case BaseChanged(Red, v) => this.(redBase := v)
      case BaseChanged(Blue, v) => this.(blueBase := v)
    }
  }

  /** Both robots start with Leave unchecked and base "none". */
  function Initial(): Cells
  {
    Cells(false, "none", false, "none")
  }

  /** The cells after a sequence of handler calls, first call first. */
  function Replay(c: Cells, events: seq<Event>): Cells
    decreases |events|
  {
    if events == [] then c else Replay(c.Apply(events[0]), events[1..])
  }

  /** The calls of a sequence that belong to alliance a, in order. */
  function EventsOf(events: seq<Event>, a: Alliance): (r: seq<Event>)
    ensures |r| <= |events|
    ensures forall i :: 0 <= i < |r| ==> r[i].alliance == a
  {
    if events == [] then []
    else if events[0].alliance == a then [events[0]] + EventsOf(events[1..], a)
    else EventsOf(events[1..], a)
  }

  predicate AgreeOn(c1: Cells, c2: Cells, a: Alliance)
  {
    c1.Leave(a) == c2.Leave(a) && c1.Base(a) == c2.Base(a)
  }

  /** Initially nobody scores and the Ranking Point is not earned. */
  lemma InitialScores()
    ensures Initial().Score(Red) == 0 && Initial().Score(Blue) == 0
    ensures Initial().Total() == 0 && !Initial().GotRp()
  {
  }

  /** An alliance's score depends on its own two cells only. */
  lemma ScoreOwnCellsOnly(c1: Cells, c2: Cells, a: Alliance)
    requires AgreeOn(c1, c2, a)
    ensures c1.Score(a) == c2.Score(a)
  {
  }

  /** The combined total never exceeds twice a robot's maximum. */
  lemma TotalBounds(c: Cells)
    ensures 0 <= c.Total() <= 26
  {
  }

  /** The Ranking Point is taken from the combined total, so neither robot
      can earn it alone: when it is earned, each robot has scored. */
  lemma RpNeedsBothRobots(c: Cells)
    ensures c.GotRp() ==> c.Score(Red) >= LeavePoints && c.Score(Blue) >= LeavePoints
  {
  }

  /** Applied to one alliance's own score, the threshold rule would never
      award the Ranking Point: one robot scores at most 13. */
  lemma PerAllianceRpNeverEarned(c: Cells, a: Alliance)
    ensures !EarnsRp(c.Score(a))
  {
  }

  /** The Ranking Point in terms of the two robots' scores. */
  lemma RpCharacterization(c: Cells)
    ensures c.GotRp() <==>
      (c.Score(Red) >= 8 && c.Score(Blue) >= 8) ||
      (c.Score(Red) == 13 && c.Score(Blue) >= 3) ||
      (c.Score(Blue) == 13 && c.Score(Red) >= 3)
  {
  }

  /** Red with Leave and a full return and Blue with Leave alone reach exactly
      16 and earn the Ranking Point; dropping Red to a partial return loses it. */
  lemma ThresholdScenario()
    ensures Cells(true, "full", true, "none").Score(Red) == 13
    ensures Cells(true, "full", true, "none").Score(Blue) == 3
    ensures Cells(true, "full", true, "none").Total() == 16
    ensures Cells(true, "full", true, "none").GotRp()
    ensures Cells(true, "partial", true, "none").Total() == 11
    ensures !Cells(true, "partial", true, "none").GotRp()
  {
  }

  /** Calling the same setter twice with the same value is the same as once. */
  lemma ApplyIdempotent(c: Cells, e: Event)
    ensures c.Apply(e).Apply(e) == c.Apply(e)
  {
  }

  /** A setter call never changes the other alliance's cells or score. */
  lemma ApplyKeepsOtherAlliance(c: Cells, e: Event, a: Alliance)
    requires e.alliance != a
    ensures AgreeOn(c.Apply(e), c, a)
    ensures c.Apply(e).Score(a) == c.Score(a)
  {
  }

  lemma {:induction false} ReplayAppend(c: Cells, xs: seq<Event>, ys: seq<Event>)
    ensures Replay(c, xs + ys) == Replay(Replay(c, xs), ys)
    decreases |xs|
  {
    if xs == [] {
      assert xs + ys == ys;
    } else {
      assert (xs + ys)[1..] == xs[1..] + ys;
      ReplayAppend(c.Apply(xs[0]), xs[1..], ys);
    }
  }

  /** The last setter call for a cell decides its value. */
  lemma LastCallWins(c: Cells, events: seq<Event>, e: Event)
    ensures Replay(c, events + [e]) == Replay(c, events).Apply(e)
    ensures Replay(c, events + [e, e]) == Replay(c, events + [e])
  {
    ReplayAppend(c, events, [e]);
    ReplayAppend(c, events, [e, e]);
    assert Replay(Replay(c, events), [e]) == Replay(c, events).Apply(e);
    assert Replay(Replay(c, events), [e, e]) == Replay(c, events).Apply(e).Apply(e);
  }

  /** Cells that agree on alliance a still agree on it after any calls. */
  lemma {:induction false} ReplayKeepsAgreement(c1: Cells, c2: Cells, events: seq<Event>, a: Alliance)
    requires AgreeOn(c1, c2, a)
    ensures AgreeOn(Replay(c1, events), Replay(c2, events), a)
    decreases |events|
  {
    if events != [] {
      ReplayKeepsAgreement(c1.Apply(events[0]), c2.Apply(events[0]), events[1..], a);
    }
  }

  /** Alliance independence over a whole session: an alliance's cells, and so
      its score, come out the same when the other alliance's calls are left out. */
  lemma {:induction false} OtherAllianceIrrelevant(c: Cells, events: seq<Event>, a: Alliance)
    ensures AgreeOn(Replay(c, events), Replay(c, EventsOf(events, a)), a)
    ensures Replay(c, events).Score(a) == Replay(c, EventsOf(events, a)).Score(a)
    decreases |events|
  {
    if events != [] {
      var e, rest := events[0], events[1..];
      OtherAllianceIrrelevant(c.Apply(e), rest, a);
      if e.alliance == a {
        assert ([e] + EventsOf(rest, a))[1..] == EventsOf(rest, a);
      } else {
        ReplayKeepsAgreement(c.Apply(e), c, EventsOf(rest, a), a);
      }
    }
  }

  /** The live component: four state cells, each replaced by its own setter. */
  class Match {
    var redLeave: bool
    var redBase: string
    var blueLeave: bool
    var blueBase: string

    function Snapshot(): Cells
      reads this
    {
      Cells(redLeave, redBase, blueLeave, blueBase)
    }

    constructor ()
      ensures Snapshot() == Initial()
    {
      redLeave, redBase := false, "none";
      blueLeave, blueBase := false, "none";
    }

    method SetRedLeave(checked: bool)
      modifies this
      ensures redLeave == checked
      ensures redBase == old(redBase) && blueLeave == old(blueLeave) && blueBase == old(blueBase)
      ensures Snapshot() == old(Snapshot()).Apply(LeaveChanged(Red, checked))
    {
      redLeave := checked;
    }

    method SetRedBase(value: string)
      modifies this
      ensures redBase == value
      ensures redLeave == old(redLeave) && blueLeave == old(blueLeave) && blueBase == old(blueBase)
      ensures Snapshot() == old(Snapshot()).Apply(BaseChanged(Red, value))
    {
      redBase := value;
    }

    method SetBlueLeave(checked: bool)
      modifies this
      ensures blueLeave == checked
      ensures redLeave == old(redLeave) && redBase == old(redBase) && blueBase == old(blueBase)
      ensures Snapshot() == old(Snapshot()).Apply(LeaveChanged(Blue, checked))
    {
      blueLeave := checked;
    }

    method SetBlueBase(value: string)
      modifies this
      ensures blueBase == value
      ensures redLeave == old(redLeave) && redBase == old(redBase) && blueLeave == old(blueLeave)
      ensures Snapshot() == old(Snapshot()).Apply(BaseChanged(Blue, value))
    {
      blueBase := value;
    }

    /** The values a render shows: each robot's score from the scoring
        routine, their sum, and the Ranking Point flag on that sum. */
    method Render() returns (redScore: nat, blueScore: nat, totalScore: nat, gotRp: bool)
      ensures redScore == TeamScore(redLeave, redBase)
      ensures blueScore == TeamScore(blueLeave, blueBase)
      ensures totalScore == Snapshot().Total() == redScore + blueScore
      ensures gotRp == Snapshot().GotRp()
      ensures gotRp <==> totalScore >= MovementRpThreshold
    {
      redScore := ScoreTeam(redLeave, redBase);
      blueScore := ScoreTeam(blueLeave, blueBase);
      totalScore := redScore + blueScore;
      gotRp := totalScore >= MovementRpThreshold;
    }
  }

  /** A client: the threshold scenario played through the setters. */
  method ScenarioSession() returns (totalBefore: nat, before: bool, totalAfter: nat, after: bool)
    ensures totalBefore == 16 && before
    ensures totalAfter == 11 && !after
  {
    var m := new Match();
    m.SetRedLeave(true);
    m.SetRedBase("full");
    m.SetBlueLeave(true);
    ThresholdScenario();
    var _, _, total, rp := m.Render();
    totalBefore, before := total, rp;
    m.SetRedBase("partial");
    var _, _, total2, rp2 := m.Render();
    totalAfter, after := total2, rp2;
  }
}
