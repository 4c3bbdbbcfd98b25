# DECODE board-game simulator: scoring model

This project models the scoring core of the FTC DECODE board-game simulator, a
one-page React component (`app.js`). Each alliance has one robot. Each robot
has two inputs: a Leave checkbox and a Base Return selector with the values
`"none"`, `"partial"` and `"full"`. A robot earns 3 points for Leave, 5 for a
partial return or 10 for a full return. The component shows Red's score,
Blue's score, their total, and whether the Movement Ranking Point (RP) is
earned. The RP needs a total of at least 16.

- `scoring.dfy`, module `Scoring`: the four constants, the `BaseLevel` choices
  and their selector values, the reference scoring function `TeamScore`, and
  `ScoreTeam`. `ScoreTeam` is the component's step-by-step routine: it starts
  at zero and adds points with `+=`. It is proved equal to `TeamScore`. The
  lemmas state the scoring rule's properties.
- `simulator.dfy`, module `Simulator`:
  - `Cells` is the value of the four state cells. It carries the derived
    scores, the total and the RP flag.
  - `Event` is one change-handler call, a checkbox toggle or a selector change.
    `Cells.Apply` is its effect on the cells. `Replay` applies a sequence of
    calls in order, so a whole session can be stated as one value.
  - `Match` is the live component. It is a class with the four cells as
    fields, one setter method per cell, and `Render`, which computes the
    displayed values as the component body does.

The RP flag is computed from the **combined** total of both robots
(app.js:24-25), not from each alliance's own score. `RpNeedsBothRobots` and
`RpCharacterization` spell out what the combined rule means. A per-alliance
reading, with each alliance's own score compared against 16, would never award
the RP, because one robot scores at most 13 (`PerAllianceRpNeverEarned`).

A base cell holds a string, because the selector hands its `value` to the
setter. The setters accept any string. Scoring tests for `"partial"` and
`"full"` with strict equality, so every other string scores like `"none"`.
`LevelOf` states this classification.

## Model

| member | source | states |
|---|---|---|
| `Scoring.Label` | app.js:49-51 | each base-return choice is stored as one of the selector values `"none"`, `"partial"`, `"full"` |
| `Scoring.LevelOf` | app.js:17-18 | a stored base value counts as a partial return exactly when it equals `"partial"`, and as a full return exactly when it equals `"full"` |
| `Scoring.LeaveBonus` | app.js:9-16 | the Leave flag's contribution: 3 when set, 0 otherwise; its effect on the score is stated by `LeaveAddsExactly` and `LeaveNeverLowers` |
| `Scoring.BasePoints` | app.js:10-18 | a base level's contribution: 0, 5 or 10; its effect on the score is stated by `BaseAddsExactly` and `RaiseNeverLowers` |
| `Scoring.TeamScore` | app.js:14-20 | a robot's score (Leave points plus the points of its base level) never exceeds 3 + 10 |
| `Scoring.ScoreTeam` | app.js:14-20 | the imperative routine (start at 0, add 3 if Leave, add 5 if `"partial"`, add 10 if `"full"`) returns exactly the reference score |
| `Scoring.LabelRoundTrip` | app.js:49-51 | reading a selector value back as a base level gives back the chosen level |
| `Scoring.ZeroScoreExactly` | app.js:14-20 | a robot scores 0 if and only if Leave is unset and its base value earns nothing; Leave unset with `"none"` scores 0 |
| `Scoring.LeaveAddsExactly` | app.js:9-16 | setting Leave adds exactly 3 points, whatever the base value |
| `Scoring.BaseAddsExactly` | app.js:10-18 | the base value adds exactly 5 for `"partial"`, 10 for `"full"` and 0 for any other string, whatever the Leave flag |
| `Scoring.ScoreBounds` | app.js:9-20 | a robot's score lies in [0, 13], and it is 13 exactly when Leave is set and the base is `"full"` |
| `Scoring.LeaveNeverLowers` | app.js:16 | setting Leave never lowers a robot's score |
| `Scoring.RaiseNeverLowers` | app.js:17-18 | raising the base level along none, partial, full never lowers the score, and a strict raise strictly increases it |
| `Scoring.ScoreDeterminesInputs` | app.js:9-20 | two robots with equal scores have the same Leave flag and the same base level |
| `Scoring.AttainableScores` | app.js:9-20 | the reachable robot scores are exactly 0, 3, 5, 8, 10 and 13 (both directions) |
| `Scoring.EarnsRp` | app.js:25 | the RP rule on a total (at least 16); its properties are stated by `EarnsRpMonotone` and `RpThresholdExact` |
| `Scoring.EarnsRpMonotone` | app.js:25 | the RP rule is monotone in the total: a larger total never loses the RP |
| `Scoring.RpThresholdExact` | app.js:12 | 16 is the least total that earns the RP: 16 earns it and 15 does not |
| `Simulator.Cells.Score` | app.js:22-23 | `redScore` and `blueScore`: the robot's score from its own Leave and base cells; dependence on those cells only is stated by `ScoreOwnCellsOnly` |
| `Simulator.Cells.Total` | app.js:24 | `totalScore`: the sum of the two robots' scores; its bounds are stated by `TotalBounds` |
| `Simulator.Cells.GotRp` | app.js:25 | `gotRP`: the RP rule applied to the combined total; its meaning is stated by `RpNeedsBothRobots` and `RpCharacterization` |
| `Simulator.Initial` | app.js:4-7 | the `useState` defaults: Leave unchecked and base `"none"` for both robots; their scores are stated by `InitialScores` |
| `Simulator.Cells.Apply` | app.js:4-7 | a setter call sets the addressed cell to the new value and leaves the other three cells unchanged |
| `Simulator.InitialScores` | app.js:4-7 | in the initial state (no Leave, base `"none"` for both) both scores and the total are 0 and the RP is not earned |
| `Simulator.ScoreOwnCellsOnly` | app.js:22-23 | an alliance's score depends only on that alliance's own Leave and base cells |
| `Simulator.TotalBounds` | app.js:24 | the combined total lies in [0, 26] |
| `Simulator.RpNeedsBothRobots` | app.js:24-25 | when the RP is earned on the combined total, each robot has scored at least 3 |
| `Simulator.PerAllianceRpNeverEarned` | app.js:22-25 | no single robot's score reaches the threshold of 16 |
| `Simulator.RpCharacterization` | app.js:22-25 | the RP is earned exactly when both robots score at least 8, or one scores 13 and the other at least 3 |
| `Simulator.ThresholdScenario` | app.js:12-25 | Red with Leave and `"full"` (13) and Blue with Leave and `"none"` (3) total 16 and earn the RP; with Red on `"partial"` the total is 11 and the RP is lost |
| `Simulator.ApplyIdempotent` | app.js:38 | calling a setter twice with the same value has the same effect as calling it once |
| `Simulator.ApplyKeepsOtherAlliance` | app.js:38-73 | a setter call leaves the other alliance's cells and score unchanged |
| `Simulator.ReplayAppend` | app.js:38-73 | replaying two runs of handler calls one after the other equals replaying them concatenated |
| `Simulator.LastCallWins` | app.js:38-73 | after a session, the state is the previous state with the last call applied; repeating that last call changes nothing |
| `Simulator.ReplayKeepsAgreement` | app.js:38-73 | two states that agree on an alliance's cells still agree on them after any sequence of calls |
| `Simulator.OtherAllianceIrrelevant` | app.js:22-23 | over any session, an alliance's cells and score are the same as when the other alliance's calls are left out |
| `Simulator.Match.constructor` | app.js:4-7 | a new component starts with Leave unchecked and base `"none"` for both robots |
| `Simulator.Match.SetRedLeave` | app.js:38 | replaces `redLeave` only |
| `Simulator.Match.SetRedBase` | app.js:47 | replaces `redBase` only |
| `Simulator.Match.SetBlueLeave` | app.js:64 | replaces `blueLeave` only |
| `Simulator.Match.SetBlueBase` | app.js:73 | replaces `blueBase` only |
| `Simulator.Match.Render` | app.js:22-25 | the displayed scores are each robot's reference score, the total is their sum, and the RP flag holds exactly when the total is at least 16 |
| `Simulator.ScenarioSession` | app.js:38-73 | the threshold scenario, played through the setters, first totals 16 and earns the RP, then totals 11 and loses it when Red drops to a partial return |

## Left out

- JSX markup, CSS classes and the conditional styling of the RP text (app.js:27-95): presentation only.
- The `ReactDOM.createRoot` / `render` bootstrap (app.js:99-100): DOM I/O.
- Event objects (`e.target.checked`, `e.target.value`): the model takes the value handed to each setter as a parameter.
- React's `useState` internals and re-render scheduling: the cells are plain fields, and `Render` reads them after each update.
- Grid geometry, robot positions, match phases, timers and shareable rule sets: none of these appear in `app.js`, which is the whole of this model, so there is nothing of them to model.
