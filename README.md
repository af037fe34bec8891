# RunnerJS: the runner game and its score service

RunnerJS is a browser endless-runner. A square player jumps over obstacles
that scroll in from the right. The score goes up every fourth frame, and the
level, scroll speed and obstacle size follow the score. When the run ends,
the player can save the score under a name. A small HTTP service stores the
scores in a JSON file. The browser keeps a second list in local storage under
`runner_local_scores` and falls back to it whenever the service cannot be
reached.

This Dafny project models the following:

- **`Runner`** (`runner.dfy`): one frame of the game (`updatePhysics`),
  `resetState`, `spawnObstacle`, `jump`, the frame loop and the input handlers.
  The pure function `Tick` says what a frame does to the game state
  `RunState`. The class `Game` holds the mutable `state` and `highscore`. Its
  methods work step by step and in the same order as the game code: gravity,
  the backward splice loop and the collision loop. Each method is proved to
  produce exactly what `Tick`, `Jumped` or `Initial` describes. Lemmas about
  `Tick` prove the following:
  - the player's motion and the ground clamp;
  - the scoring cadence;
  - leveling and speed;
  - collision;
  - obstacle scrolling;
  - an invariant that holds over any run: the score is always the frame count
    over four, and score, level and high score never decrease.
- **`Scores`** (`scores.dfy`): score records, JSON values, and the sort both
  sides use (`sort((a, b) => b.score - a.score)`). The sort is modelled as a
  stable insertion sort. It is proved to be a permutation, ordered and
  stable. `TopScores` is the sort followed by `slice(0, n)`.
- **`Text`** (`text.dfy`): `String.prototype.trim` over ECMAScript white space
  and line terminators, and `slice(0, n)`.
- **`ScoreService`** (`score_service.dfy`): the server's `readScores`,
  `GET /scores` and `POST /scores`. Validation and normalisation are the pure
  function `Validate`. The scores file is a `ScoreStore` object whose content
  is `None` when the file is missing or unreadable.
- **`ScoreClient`** (`score_client.dfy`): the browser's
  `fetchScoresFromServer` and `saveScoreToServer` with their local-storage
  fallback. The HTTP response is an input.
- **`Leaderboard`** (`leaderboard.dfy`): the save button (the payload, the
  save call, and the page's own push onto the local list) and the merge that
  `showLeaderboard` displays.

Inputs that the program takes from its environment become parameters:
- the three `Math.random()` draws of a frame (`Draws`: the spawn test, then
  the obstacle's height and width, each in [0, 1));
- the canvas size `W` by `H`;
- the clock's ISO string `now`;
- the outcome of each `fetch`.

Positions and velocities are exact reals, and `Math.floor` is `.Floor`.

Three points where a natural reading of the game differs from its code; the
model follows the code:
- One might expect gravity to be added to the velocity before the player
  moves. In the code, the player's position moves by the old velocity first,
  and only then is gravity added (Game.js lines 74-75).
- One might expect the scroll speed to be `6 + floor(1.5 * level)` at every
  level. Until the first level change it is the start value 6, although the
  formula gives 7 at level 1. The invariant therefore uses `SpeedAt`, which
  is 6 at level 1.
- One might expect a malformed local list to be read as empty. The browser
  does not guard `JSON.parse` of it, so the handler throws instead.

Two behaviours are modelled as they are and proved as lemmas:
- A failed save stores the payload twice: once in the fallback, and once more
  by the page's own push. See `Leaderboard.SaveKeepsPayload`.
- A failed fetch makes the leaderboard count every local record twice,
  because the fetch's fallback already is the local list. See
  `Leaderboard.FailedFetchCountsLocalTwice`.

## Model

| member | source | states |
|---|---|---|
| Text.TrimStart | server.js:51 | the result is a suffix of the input, everything dropped is white space, and it does not start with white space |
| Text.TrimEnd | server.js:51 | the result is a prefix of the input, everything dropped is white space, and it does not end with white space |
| Text.Trim | server.js:51 | `trim()` returns a contiguous piece of the input with only white space before and after it and none at either of its own ends; it is empty exactly when the input is all white space |
| Text.TrimmedEmpty | server.js:44 | `name.trim().length === 0` holds exactly when the name is all white space |
| Text.TrimmedInfix | server.js:51 | what `trim` keeps is the piece left after dropping the leading and then the trailing white space |
| Text.Truncate | server.js:51 | `slice(0, n)` is the prefix of length min(length, n) |
| Scores.InsertByScore | server.js:59 | one insertion step of the sort adds exactly the new record, so the result is a permutation of the input plus that record |
| Scores.InsertKeepsSorted | server.js:59 | inserting into a list ordered by descending score keeps it ordered |
| Scores.SortByScore | server.js:59 | the sort by `b.score - a.score` returns a permutation of its input ordered by non-increasing score |
| Scores.SortIsStable | server.js:32 | records with equal scores keep their relative order, as `Array.prototype.sort` must |
| Scores.Take | server.js:33 | `slice(0, n)` is the first n records, or all of them when there are fewer |
| Scores.TakeIsPrefix | Game.js:205 | slicing a list keeps exactly min(length, n) records, drawn from the list, and keeps a sorted list sorted |
| Scores.TakeOfSorted | server.js:32-33 | after sorting, no record past the slice scores above one kept |
| Scores.TopScores | server.js:32-33 | sort then `slice(0, n)`: exactly min(length, n) records, ordered, all drawn from the input, all of them when the input is short enough, and no omitted record scores above a kept one |
| Runner.LevelFor | Game.js:100 | level l covers exactly the scores from 400·(l − 1) to just below 400·l, so the level is at least 1 for every score reached |
| Runner.SpeedFor | Game.js:103 | the speed set on a level change is 6 plus the floor of 1.5·level |
| Runner.SpeedAt | Game.js:101-103 | the speed a run has at a level: the start value 6 (set by `resetState`) at level 1, the level formula from level 2 on, since the speed is only recomputed when the level changes |
| Runner.SpeedGrowsWithLevel | Game.js:99-104 | the scroll speed strictly increases with the level, including the jump from the start speed 6 |
| Runner.SpawnProbability | Game.js:69 | the spawn chance is at least 0.025 from level 1 and is capped at 0.18, which it reaches at level 32 |
| Runner.SpawnProbabilityGrows | Game.js:68-69 | the spawn chance never falls as the level rises |
| Runner.FloorOfDraw | Game.js:59-60 | `Math.floor(Math.random() * n)` lies between 0 and n - 1 |
| Runner.NewObstacle | Game.js:57-63 | a new obstacle enters at `W + 10`, stands on the ground line, is 20 to 39 + 3·level high and 18 to 37 + level wide |
| Runner.Spawned | Game.js:68-70 | the spawn test: one new obstacle is appended when the spawn draw is below the spawn chance |
| Runner.Scrolled | Game.js:83-86 | scrolling never adds obstacles |
| Runner.ScrolledAppend | Game.js:83-86 | each obstacle scrolls on its own: the survivors keep their order |
| Runner.ScrolledMembers | Game.js:83-86 | an obstacle survives a frame exactly when, moved left by the speed, its trailing edge is not more than 50 pixels past the left edge, and its other fields do not change |
| Runner.Overlaps | Game.js:90 | the bounding-box test between the player at height y and one obstacle |
| Runner.HitsAny | Game.js:89-94 | some obstacle of the list overlaps the player |
| Runner.GroundedCollision | Game.js:89-94 | a grounded player and a grounded obstacle collide exactly when they overlap horizontally |
| Runner.Initial | Game.js:43-52 | the state `resetState()` sets, with the high score kept |
| Runner.Jumped | Game.js:144-148 | `jump()`: a grounded player gets velocity −13 and leaves the ground; otherwise the state is unchanged |
| Runner.Fall | Game.js:73-80 | the player's part of a frame: move by the old velocity, then add gravity, then clamp to the ground line and stop |
| Runner.Scoring | Game.js:96-113 | the end of a frame: a point on every fourth frame, the level recomputed, the speed set when the level changed, the high score raised |
| Runner.Advance | Game.js:66-94 | a frame up to the scoring (frame count, spawn, player, scroll, collision) counts the frame and leaves score, level, speed and high score as they were |
| Runner.Tick | Game.js:65-114 | `updatePhysics()` as a function of the state and the frame's draws, stage by stage in the code's order: frame count, spawn, player, scroll, collision, score |
| Runner.InitialIsValid | Game.js:43-52 | the state after `resetState()` meets the run invariant |
| Runner.TickPlayerMotion | Game.js:73-80 | the player moves by its old velocity and then gains gravity, unless that step reaches the ground line; then it is put on the ground line, stopped and grounded. It never ends below the ground |
| Runner.ScoringStep | Game.js:96-113 | the scoring stage: a point when the frame count is a multiple of four, the level from the score, the speed changed only with the level, the high score never lowered and at least the score |
| Runner.TickScoring | Game.js:96-113 | each frame counts once; the score rises by one on every fourth frame; the level is `1 + floor(score / 400)`; the speed changes only with the level; the high score never falls and keeps up with the score |
| Runner.TickCollision | Game.js:88-94 | a frame ends the run exactly when a surviving obstacle overlaps the player's moved box, and it never restarts a run |
| Runner.TickObstacles | Game.js:68-86 | the spawn test appends at most one new obstacle at the end, then every obstacle scrolls at the old speed |
| Runner.TickKeepsValid | Game.js:65-114 | a frame preserves the run invariant: score is frames over four, level follows score, speed follows level, and a grounded player rests on the ground |
| Runner.JumpThenTick | Game.js:144-148 | a jump from the ground lifts the player by 13 in the next frame and leaves it rising at 13 - 0.8 |
| Runner.Step | Game.js:134-162 | one input while running: a press jumps, a frame ticks; both are ignored once the run is over |
| Runner.Play | Game.js:134-162 | a run as a sequence of inputs, applied in order |
| Runner.StepKeepsInvariants | Game.js:134-162 | one input (a jump press or a frame) keeps the invariant, never lowers score, level or high score, and changes nothing once the run is over |
| Runner.PlayKeepsInvariants | Game.js:134-162 | over any sequence of inputs the invariant holds, score, level and high score never fall, and a finished run stays as it is |
| Runner.Player.constructor | Game.js:33 | the player starts at height 200, at rest, not grounded |
| Runner.Game.constructor | Game.js:28-41 | the initial state literal, with the stored high score, meets the run invariant |
| Runner.Game.Reset | Game.js:43-55 | `resetState()` restores the initial state, keeps the high score and re-establishes the invariant |
| Runner.Game.SpawnObstacle | Game.js:57-63 | `spawnObstacle()` appends exactly `NewObstacle` and changes nothing else |
| Runner.Game.SpawnTest | Game.js:69-70 | the spawn test appends `NewObstacle` exactly when the draw is below the spawn chance |
| Runner.Game.ScrollObstacles | Game.js:82-86 | the backward loop with `splice` leaves exactly the scrolled survivors in their order |
| Runner.Game.CheckCollisions | Game.js:88-94 | the collision loop clears `running` exactly when some obstacle overlaps the player |
| Runner.Game.MovePlayer | Game.js:72-80 | the player update of a frame is `Fall` |
| Runner.Game.UpdateScore | Game.js:96-113 | the score, level, speed and high-score update of a frame is `Scoring` |
| Runner.Game.UpdatePhysics | Game.js:65-114 | `updatePhysics()` turns the state into `Tick` of the old state and keeps the run invariant |
| Runner.Game.Jump | Game.js:144-148 | a grounded player gets velocity -13 and leaves the ground; otherwise nothing changes; the run invariant is kept |
| Runner.Game.Frame | Game.js:134-142 | `loop()` runs a frame while the run is going and reports game over otherwise, keeping the run invariant |
| Runner.Game.Restart | Game.js:171-174 | `restart()` is a reset followed by the first frame of the new run, which meets the run invariant |
| Runner.Game.OnPointerDown | Game.js:160-162 | a pointer press jumps only while running, keeping the run invariant |
| Runner.Game.OnKeyDown | Game.js:150-158 | Space jumps while running, Enter restarts only a finished run, other keys do nothing; the run invariant is kept |
| ScoreService.BadName | server.js:44 | the name test of POST: falsy, not a string, or blank after trimming |
| ScoreService.BadScore | server.js:47 | the score test of POST: not a number, not finite, or negative |
| ScoreService.BadNameMeansBlank | server.js:44 | a name is rejected exactly when it is not a string or is all white space |
| ScoreService.NormalName | server.js:51 | a stored name is the first 40 characters of the trimmed name, or all of it when shorter; it has 1 to 40 characters and does not start with white space |
| ScoreService.NormalScore | server.js:52 | the stored score is the whole number at or just below the submitted score, never negative |
| ScoreService.NormalLevel | server.js:53 | a numeric level is rounded down, an infinite one stays infinite, anything else becomes 1 |
| ScoreService.NormalDate | server.js:54 | the given date when it is truthy, otherwise the clock's ISO string |
| ScoreService.Validate | server.js:42-55 | a body is accepted exactly when the name is a non-blank string and the score a finite number of at least 0; the name is checked first; an accepted entry is the normalised name, score, level and date |
| ScoreService.BobIsNormalised | server.js:44-55 | the body `"  Bob  "` with score 12.9 and no level or date is stored as `"Bob"`, 12, level 1, dated now |
| ScoreService.ScoreStore.ReadScores | server.js:13-23 | `readScores()` returns the stored list, or `[]` after writing `[]` when there was none |
| ScoreService.ScoreStore.GetScores | server.js:29-38 | `GET /scores` answers the top 100 of the stored list by score |
| ScoreService.ScoreStore.PostScores | server.js:40-61 | a rejected body gets a 400 with the error `Validate` gives and leaves the file alone; an accepted entry is appended and the file holds the list sorted by score |
| ScoreService.AcceptedPostKeepsAll | server.js:56-60 | after an accepted POST the file holds exactly the old records and the new entry, ordered by score |
| ScoreService.PostTwiceThenGet | server.js:29-61 | posting 50 and then 90 to a fresh store makes GET list 90 before 50 |
| ScoreClient.FetchScoresFromServer | Api.js:3-14 | the server's array when it answered with one, `[]` for any other answer, and the local list when the request failed |
| ScoreClient.FallbackList | Api.js:26-30 | the local list after a failed save holds the old records plus the payload, ordered by score |
| ScoreClient.SaveScoreToServer | Api.js:16-33 | on success, the server's answer with local storage untouched; on failure, `{fallback: true}` and the payload stored locally |
| Leaderboard.PlayerName | Game.js:179 | the name sent is "Anon" for an empty field and otherwise the first 20 characters of the trimmed field (all of it when shorter); it does not start with white space and is empty exactly when the field held only white space |
| Leaderboard.TrimAnon | Game.js:179 | the default name "Anon" is unchanged by `trim` |
| Leaderboard.Payload | Game.js:180 | the payload of a finished run: the name sent, the run's score and level, and the clock's ISO string |
| Leaderboard.BlankNameIsRejected | Game.js:179-183 | a name field of only white space sends an empty name, which the service rejects as an invalid name |
| Leaderboard.LocalAfterSave | Game.js:183-187 | the local list after the save button: the API's fallback list when the request failed, otherwise the stored list, with the payload pushed |
| Leaderboard.SaveKeepsPayload | Game.js:178-187 | after saving, the payload is last in the local list; nothing else is added or lost; after a failed request it is there twice |
| Leaderboard.SaveScore | Game.js:178-187 | the save button sends `Payload` and leaves the local list `LocalAfterSave` |
| Leaderboard.Board | Game.js:200-205 | the board shows 10 records, or all of them when fewer were merged, ordered, all from the fetched and local lists, and no hidden record scores above a shown one |
| Leaderboard.LocalNotHidden | Game.js:200-205 | a local record is never hidden while a lower-scored record is shown |
| Leaderboard.FailedFetchCountsLocalTwice | Game.js:198-205 | when the fetch fails, a short local list appears twice on the board |
| Leaderboard.ShowLeaderboard | Game.js:193-205 | `showLeaderboard()` shows `Board` of the fetch result and the local list |

## Left out

- Drawing, the DOM (HUD text, panels, the list items and their date formatting) and `requestAnimationFrame` scheduling are not modelled. `loop()` is one call of `Game.Frame`.
- The restart button can start a second frame loop while one is still running. Concurrency and async interleavings are not modelled.
- The high score is not written to local storage with `runner_highscore`. Reading it at start-up with `parseInt` is replaced by a given integer, so a `NaN` high score is not modelled.
- Positions and velocities are exact reals. Floating-point rounding (for example of repeated `+= 0.8`) is not modelled.
- File-system and HTTP I/O are not modelled, and neither are the HTTP 500 paths of the service (a write failure, or a file that parses to something other than an array). The file is `None` when it is missing, unreadable or malformed, and `readScores` then writes `[]`.
- Records whose `score` is not a number (possible in a hand-edited file) are not modelled. In JavaScript they make the comparator return `NaN`.
- A malformed `runner_local_scores` entry makes `JSON.parse` throw in the browser. This is not modelled; the stored list is either absent or a list of records.
- `JSON.stringify` turns an infinite level into `null` when the service writes the file. The model keeps it as `NonFinite`.
- `slice` counts UTF-16 code units. The model counts characters.
- `Runner.Scrolled`: its own contract only bounds the length. What it keeps is stated by `Runner.ScrolledMembers` and `Runner.ScrolledAppend`.
