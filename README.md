# OpenPlayground browser toys: the logic under the page

This project models, in Dafny, the sequential logic of five small browser programs of the
OpenPlayground collection, with the page, the canvas and the browser APIs stripped away:

- **Mistake Runner** (`projects/mistakerunner/game.js`) is a three-lane runner whose opponent
  learns from the player's mistakes. The three global records become three classes:
  `GameState` (the run), `LearningModel` (the heuristic tracker, which survives restarts) and
  `EventState` (the "unpredictability" injector). The handlers that mutate them (lane change,
  `analyzeMistake`, `updateAIOnMistake`, `checkCollisions`, `checkUnpredictableEvents`,
  `gameLoop`, `startGame`, `restartGame`) become methods with `modifies` clauses. The
  decision rules (`selectAdaptiveLane`, `selectAdaptiveType`, `getAdaptiveSpawnInterval`,
  `getRandomEventThreshold`, the y-overlap test, the obstacle advance) are functions in module
  `RunnerRules`. Modules: `RunnerRules` (runner_rules.dfy) and `MistakeRunner` (runner_game.dfy).
  What a mistake does to the learning fields is one function, `AfterMistake`. It is the
  counting of `analyzeMistake` (`Counted`) followed by the three rules of `updateAIOnMistake`
  (`Adapted`), over the `Learning` value that `LearningModel.Snapshot` reads off the object.
- **Emoji Invaders** (`projects/emoji-invaders/script.js`) is a canvas shooter. The
  `EmojiInvaders` class becomes the class `EmojiInvaders.Game`, with the same fields. Its
  parts are modelled as follows:
  - the per-frame `update`: its reverse loops with `splice` over bullets, enemies and
    power-ups are methods with loop invariants, each proved against a function over sequences
    (`Flown`, `After`, `Landed`, `Collected`);
  - the rectangle test, the level grid, shooting and the state machine;
  - the top-3 high-score table.
- **Daily Question** (`projects/Daily_Ques_App/script.js`): the 15 questions, the base-31 hash
  of the date key and the one-slot `localStorage` cache, as an `Option<Saved>` field of class
  `DailyQuestion.Store`.
- **Time Zone Compare** (`projects/TimeZone_Compare/script.js`): the end-exclusive hour range,
  the modulo-24 conversion with JavaScript's truncating `%` and `Math.round`, the 24-cell
  overlap timeline with wrap-around ranges, zone labels, the difference text and the swap.
- **Random Name Picker** (`projects/RandomNamePicker/script.js`): the line parsing
  (`split('\n')`, `trim`, drop blanks), the `isShuffling` guard, the 20-tick shuffle and the
  newest-first history of at most 10 winners, in class `NamePicker.Picker`.

Modelling conventions:
- Every `Math.random()` draw is a `real` parameter `r` with `0 <= r < 1`, and properties hold
  for all draws.
- `Date.now()` is an `int` parameter `now`. A UTC offset is an `int` parameter of minutes.
  The date key is a `string` parameter.
- Timers (`setTimeout`, `setInterval`, `requestAnimationFrame`) become explicit method calls,
  such as `ShuffleTick`, `EndTrackShake`, `ShieldExpired`, `GameLoop` and `Update`.
- Positions, speeds, cooldowns and averages are `real`.

## Model

| member | source | states |
|---|---|---|
| RunnerRules.SumZero | projects/mistakerunner/game.js:389-394 | The preference total is 0 exactly when every lane's preference count is 0. |
| RunnerRules.ArgMax | projects/mistakerunner/game.js:430-434 | `indexOf(Math.max(...))` is the first index whose value is at least every other value and strictly above every earlier one. |
| RunnerRules.ArgMin | projects/mistakerunner/game.js:561 | `indexOf(Math.min(...))` is the first index of a smallest value. |
| RunnerRules.ArgMaxIsFirstMax | projects/mistakerunner/game.js:533 | An index is the first maximum if and only if it is the one `ArgMax` returns, so the argmax rules break ties toward the lowest lane. |
| RunnerRules.ArgMinIsFirstMin | projects/mistakerunner/game.js:561 | An index is the first minimum if and only if it is the one `ArgMin` returns. |
| RunnerRules.Confidence | projects/mistakerunner/game.js:341 | The confidence lies in [0, 1]; it is 1 exactly from 20 mistakes on, and below 20 it is mistakes / 20. |
| RunnerRules.SelectAdaptiveLane | projects/mistakerunner/game.js:387-435 | The lane is always 0..2. With no preference data, or a draw above the confidence, it is floor(score/100) mod 3. The predicted lane wins when set and the confidence is above 0.3. Failing that, the held lane wins when it has been held for more than 30 ticks and the confidence is above 0.2. In the last two rules the lane maximises the rule's score (0.7 per preference plus 2 per unit of collision rate, or the collision rate alone), with ties going to the lowest index. |
| RunnerRules.NoPreferencesSpreadsByScore | projects/mistakerunner/game.js:389-396 | With all preferences 0 the lane is floor(score/100) mod 3, whatever the draw and the rest of the model. |
| RunnerRules.SelectAdaptiveType | projects/mistakerunner/game.js:437-451 | Up to 5 mistakes the obstacle is high iff score mod 7 < 4. After more than 5 mistakes it is high iff the draw exceeds 0.5. |
| RunnerRules.TypeCycleIsPeriodic | projects/mistakerunner/game.js:450 | Up to 5 mistakes the obstacle shape is periodic in the score with period 7 and ignores the draw. |
| RunnerRules.SpawnInterval | projects/mistakerunner/game.js:336-349 | The interval equals max(800 - 100 speed, 400) while there are at most 5 mistakes. It is never below 320 and never above that base value. |
| RunnerRules.EventThreshold | projects/mistakerunner/game.js:605-608 | The next event threshold lies in [8000, 15000) ms. |
| RunnerRules.HitWindow | projects/mistakerunner/game.js:472-489 | A hit means the same lane and an obstacle top in the open window (500 - height, 550). That window is (450, 550) for a high obstacle and (468, 550) for a low one. |
| RunnerRules.AdvanceMembers | projects/mistakerunner/game.js:453-466 | An obstacle survives the advance iff it is an input obstacle moved down by dy whose new y is at most 700. |
| RunnerRules.AdvanceAppend | projects/mistakerunner/game.js:453-466 | The advance distributes over concatenation, so survivors keep their spawn order. |
| RunnerRules.AdvanceBounds | projects/mistakerunner/game.js:453-466 | The advance never adds obstacles, leaves none past y = 700 and keeps every lane in 0..2. |
| MistakeRunner.GameState.constructor | projects/mistakerunner/game.js:5-13 | The initial run state: not running, score 0, speed 1, centre lane, no obstacles, last obstacle y = -200. |
| MistakeRunner.LearningModel.constructor | projects/mistakerunner/game.js:27-43 | The initial learning model: zero counters and lane arrays, hold record {1, 0}, no predicted lane (-1), no recent obstacles. |
| MistakeRunner.EventState.constructor | projects/mistakerunner/game.js:16-24 | The initial event injector: no surge, no shake, zero clock and threshold. |
| MistakeRunner.SwitchCount | projects/mistakerunner/game.js:104-115 | A change under 200 ms after the previous one lowers `delayedSwitches` by one, floored at 0. A slower change raises it by exactly one, through either branch of the last-moment check. It is never negative. |
| MistakeRunner.Hold | projects/mistakerunner/game.js:326-329 | The hold ends up in the current lane. Its time grows by one if the lane is the same and restarts at 0 in a new lane. |
| MistakeRunner.ChangeLane | projects/mistakerunner/game.js:97-156 | The shared arrow-key and swipe code path (swipes at game.js:187-230). When running and not at the edge, the lane moves by exactly one and stays in 0..2; only the destination lane's preference grows, by one; `delayedSwitches` follows `SwitchCount`; the hold restarts at {newLane, 0} when the lane differs. Otherwise nothing changes. |
| MistakeRunner.RollingAverageAsWrittenDrifts | projects/mistakerunner/game.js:508-509 | With a full window the average as written leaves [0, 1]: from 1.0 with 10 samples it becomes 1.1. |
| MistakeRunner.RollingAverage | projects/mistakerunner/game.js:508-512 | The corrected rolling mistake average agrees with the source while the window fills. It stays in [0, 1] when it starts there, and stays 1 once every sample is a 1. |
| MistakeRunner.DecayedCollisions | projects/mistakerunner/game.js:518-525 | The lane's collision weight grows by exactly 1 while its window fills. Once the window is full, one is first taken off (floored at 0), so the weight never exceeds max(old, 1). |
| MistakeRunner.Boost | projects/mistakerunner/game.js:554 | The targeting weight min(5, 2 + mistakes/10) lies in [2, 5]. |
| MistakeRunner.LearnPreferred | projects/mistakerunner/game.js:533-547 | The predicted lane becomes the held lane exactly when the hold time exceeds 30 and that lane is the first most-preferred lane; otherwise it stays. |
| MistakeRunner.BoostCollisions | projects/mistakerunner/game.js:536-556 | Only the struck lane's weight can change. It grows by `Boost` exactly when that lane is the first lane with the highest normalised collision rate. |
| MistakeRunner.PushLeastUsed | projects/mistakerunner/game.js:558-565 | With more than 2 slow changes, the first least-used lane gains exactly one preference and nothing else changes. Otherwise nothing changes. |
| MistakeRunner.CountMistake | projects/mistakerunner/game.js:506-526 | The total grows by exactly 1. The struck lane's rolling sum grows by exactly 1 and is never decayed. The sample counts grow but are capped at 10, and only the struck lane's collision weight changes. |
| MistakeRunner.AnalyzeMistake | projects/mistakerunner/game.js:506-569 | `analyzeMistake` followed by `updateAIOnMistake`. The learning fields become exactly `AfterMistake` of the old ones, read with the old hold record and slow-switch count, and the hold time ends at 0 in the same lane. |
| MistakeRunner.UpdateAIOnMistake | projects/mistakerunner/game.js:531-569 | Applies the three learning rules (`LearnPreferred`, `BoostCollisions`, `PushLeastUsed`) to the old state and resets the hold time to 0. |
| MistakeRunner.AfterMistakeFacts | projects/mistakerunner/game.js:506-569 | What one mistake does to the learning fields. The total grows by one and the sample count by one up to 10. An average in [0, 1] stays there. Only the struck lane's rolling sum (by exactly 1), sample count (capped at 10) and collision weight change, and that weight ends at least 1. No preference decreases. The predicted lane is kept, or becomes a lane held for more than 30 ticks. |
| MistakeRunner.NextLane | projects/mistakerunner/game.js:354 | The spawn lane chosen for the current state is in 0..2. |
| MistakeRunner.KeepNewest | projects/mistakerunner/game.js:380-382 | After a push, the shift keeps the newest records, dropping only the oldest, so at most 10 remain. |
| MistakeRunner.SpawnAdaptiveObstacle | projects/mistakerunner/game.js:352-385 | Exactly one obstacle is appended at y = -100, with the selected lane and shape. It is recorded among the recent obstacles (capped at 10), and the last obstacle y becomes -100. |
| MistakeRunner.UpdateObstacles | projects/mistakerunner/game.js:453-466 | The reverse splicing loop leaves exactly `Advance(old obstacles, 3 speed)`: every obstacle moves down by 3 speed and those past 700 are removed, the rest in spawn order. |
| MistakeRunner.FirstHit | projects/mistakerunner/game.js:476-503 | Returns -1 iff no obstacle hits the player's lane; otherwise the first obstacle, in spawn order, that hits. |
| MistakeRunner.EndGame | projects/mistakerunner/game.js:591-592 | The run stops. |
| MistakeRunner.CheckCollisions | projects/mistakerunner/game.js:468-504 | The obstacles, speed, spawn clock, lane and score never change. With no hit in the player's lane, the run and the learning model are unchanged. With a hit the run stops, and the learning fields become exactly `AfterMistake` of the old ones for the player's lane, read with the old hold record and slow-switch count. The hold time restarts at 0, and no preference decreases. |
| MistakeRunner.TriggerSpeedSurge | projects/mistakerunner/game.js:632-634 | The surge is on and ends 2000 ms from now. |
| MistakeRunner.TriggerTrackShake | projects/mistakerunner/game.js:639-640 | The shake is on. |
| MistakeRunner.EndTrackShake | projects/mistakerunner/game.js:645-648 | The 800 ms timer's callback turns the shake off. |
| MistakeRunner.CheckUnpredictableEvents | projects/mistakerunner/game.js:610-630 | An event fires only from score 300 on, once more than the threshold has passed. Then a draw above 0.5 starts a surge (unless one is active) and any other draw starts a shake (unless one is active). The event clock and a fresh threshold are set whenever an event is due; otherwise nothing changes. |
| MistakeRunner.TickSpeed | projects/mistakerunner/game.js:293-303 | The speed is 1 + score/500, times 1.5 during a surge, and never below 1. |
| MistakeRunner.TickEvents | projects/mistakerunner/game.js:289-305 | The event gate fires as in `CheckUnpredictableEvents`: a due event sets the clock to now and draws a fresh threshold. A draw above 0.5 starts a surge ending at now + 2000 unless one is active; any other draw starts a shake. A surge then stays on only if this tick started it or its end time has not been reached. Otherwise the end time is kept. The speed is `TickSpeed` of the surge that remains. |
| MistakeRunner.NextObstacle | projects/mistakerunner/game.js:352-360 | The obstacle a spawn adds: lane in 0..2, y = -100, shape from `SelectAdaptiveType`. |
| MistakeRunner.TickSpawn | projects/mistakerunner/game.js:308-312 | Once more than the adaptive interval has passed since the last spawn, exactly one obstacle is added and the spawn clock restarts at now; otherwise nothing changes. |
| MistakeRunner.GameLoop | projects/mistakerunner/game.js:284-334 | A tick after the run ended changes nothing. While running, the tick does all of the following. The event state (clock, threshold, shake, surge and its end time) follows `TickEvents`. The speed is set from the old score. At most one spawn happens, recorded among the recent obstacles. The obstacles equal `Advance` of old plus spawned. The score grows by one, and the lane and lane-change data are untouched. The run stops iff an obstacle hits the player's lane. Then the learning fields become exactly `AfterMistake` for that lane, and the hold restarts in it at time 1 or 0. Otherwise the learning fields are unchanged and the hold moves on by `Hold`. No preference decreases. |
| MistakeRunner.RunningTick | projects/mistakerunner/game.js:287-331 | The same tick as `GameLoop` for a running game, with every field it changes stated against the old state. |
| MistakeRunner.TickMove | projects/mistakerunner/game.js:287-315 | Events and speed as in `TickEvents`, at most one spawn as in `TickSpawn`, then the advance. The run, score, lane, learning fields, hold record and lane-change data are unchanged. |
| MistakeRunner.TickFinish | projects/mistakerunner/game.js:318-329 | The collision check, then the score (one more) and the hold record. Obstacles, speed, spawn clock and lane are unchanged. With no hit the run and learning fields are unchanged and the hold moves on by `Hold`. With a hit the run stops, the learning fields become `AfterMistake`, and exactly one mistake is counted. |
| MistakeRunner.ResetRun | projects/mistakerunner/game.js:256-271 | The reset part of `startGame`: running, score 0, speed 1, centre lane, no obstacles, spawn and event clocks at now, fresh threshold, no surge or shake. |
| MistakeRunner.StartGame | projects/mistakerunner/game.js:256-276 | Reset followed by the first tick: running, score 1, speed 1, centre lane, no obstacles, clocks at now. Every learning-model field is unchanged except the hold record, which the first tick moves on. |
| MistakeRunner.RestartGame | projects/mistakerunner/game.js:278-282 | The obstacles are cleared, then the game starts as in `StartGame`: running, score 1, speed 1, centre lane, no obstacles. The spawn and event clocks are at now, with a fresh event threshold and no surge or shake. Every learning-model field carries over unchanged except the hold record, which the first tick moves on. |
| EmojiInvaders.CollideSymmetric | projects/emoji-invaders/script.js:483-488 | Rectangle collision is symmetric, and rectangles that only share an edge do not collide. |
| EmojiInvaders.KindOf | projects/emoji-invaders/script.js:309 | A draw r picks focus iff 3r < 1 and motivation iff 3r >= 2, so shield is picked otherwise. |
| EmojiInvaders.GridEnemy | projects/emoji-invaders/script.js:215-226 | The enemy at (row, col) has type `enemyTypes[min(row, 3)]` with that type's health. It sits at (60 col + 50, 60 row + 50) and its speed is the type's speed times 1 + 0.2 (level - 1). |
| EmojiInvaders.GridShape | projects/emoji-invaders/script.js:206-229 | A level's grid holds (4 + min(level-1, 3)) (8 + min(level-1, 4)) enemies, row by row; the enemy at row cols + col is the `GridEnemy` of that cell (the predicate `LaidOut`). |
| EmojiInvaders.Flown | projects/emoji-invaders/script.js:352-360 | The bullet step never adds bullets and removes every bullet above the top of the canvas. |
| EmojiInvaders.FlownMembers | projects/emoji-invaders/script.js:352-360 | A bullet survives the step iff it is some bullet moved up by its speed whose new y is at least 0. |
| EmojiInvaders.LastHitIndex | projects/emoji-invaders/script.js:392-414 | The inner reverse loop stops at the last bullet that hits the enemy, or at -1 when none does. |
| EmojiInvaders.Fire | projects/emoji-invaders/script.js:460-481 | At most one life is lost, and none under the shield. The existing bullets keep their places, and at most the enemy's own shot is appended. The shot is dropped exactly when it starts on the player; a dropped shot costs a life unless the player is shielded. A kept shot never costs a life. |
| EmojiInvaders.MoveStage | projects/emoji-invaders/script.js:370-376 | The enemy moves by speed times direction, and shouldDrop is raised iff it now touches an edge. The enemies before and after index i, the bullets, the power-ups, the lives and the score are unchanged. |
| EmojiInvaders.FireStage | projects/emoji-invaders/script.js:378-381 | The shot changes only bullets and lives, and never adds a life. |
| EmojiInvaders.HitStage | projects/emoji-invaders/script.js:383-414 | The bottom and bullet checks leave the enemies not yet visited (indices below i) unchanged. They never add enemies or lives, add at most one power-up, and never lower the score. |
| EmojiInvaders.HitStageKeepsVisited | projects/emoji-invaders/script.js:383-414 | The enemies already visited (indices above i) stay, in order, as the tail of the list, whether enemy i is removed, damaged or left alone. |
| EmojiInvaders.Step | projects/emoji-invaders/script.js:366-415 | One iteration of the enemy loop keeps the unvisited prefix and raises shouldDrop exactly on an edge touch. Lives do not grow and the score does not fall. |
| EmojiInvaders.After | projects/emoji-invaders/script.js:366-415 | The reverse loop's state after visiting indices down to i leaves the lower indices as they were. |
| EmojiInvaders.SweepFacts | projects/emoji-invaders/script.js:363-415 | The whole enemy sweep never adds enemies or lives, never lowers the score, and adds at most one power-up per enemy. shouldDrop holds iff some enemy, moved one step, touches an edge. |
| EmojiInvaders.Landed | projects/emoji-invaders/script.js:433-449 | No power-up left after the loop touches the player or lies below the canvas, and none is added. |
| EmojiInvaders.PowerUpStep | projects/emoji-invaders/script.js:435-448 | One visit of the reverse power-up loop extends the landed suffix by one index, and collects exactly what `Collected` adds for that power-up. |
| EmojiInvaders.CollectedByKind | projects/emoji-invaders/script.js:270-304 | The collected effects add up by kind: 100 points per motivation; rapid fire with a fresh 10 s timer once any focus is collected; the shield once any shield is collected. |
| EmojiInvaders.LandedAndCaught | projects/emoji-invaders/script.js:433-449 | Every power-up is kept, collected or dropped, never two of these. |
| EmojiInvaders.Dropped | projects/emoji-invaders/script.js:426-431 | After an edge touch every enemy is exactly 20 pixels lower and otherwise unchanged. |
| EmojiInvaders.Clamp | projects/emoji-invaders/script.js:346-349 | The player's x ends in [0, width - 50] (for a canvas at least 50 wide). It is unchanged when already inside and set to the right bound when beyond it. |
| EmojiInvaders.InsertStableSorted | projects/emoji-invaders/script.js:755-756 | Inserting the player's entry is a permutation of the list plus the entry, and keeps a descending list descending. |
| EmojiInvaders.InsertStablePermutes | projects/emoji-invaders/script.js:755-756 | The stable insertion holds exactly the list's entries plus the new one, as a multiset. |
| EmojiInvaders.InsertStableDescending | projects/emoji-invaders/script.js:755-756 | The stable insertion keeps a descending list descending. |
| EmojiInvaders.InsertIntoBase | projects/emoji-invaders/script.js:754-757 | Where the stable sort places a score above 750 among the three base entries. |
| EmojiInvaders.InsertBeforeLast | projects/emoji-invaders/script.js:755-756 | An entry scoring above a list's last entry is sorted in before that entry, exactly as into the list without it. |
| EmojiInvaders.TopThree | projects/emoji-invaders/script.js:754-757 | For a score above the third base entry, the first three entries after the sort are in descending order. They hold the player's entry, and otherwise exactly the two best base entries. |
| EmojiInvaders.HighScoreTable | projects/emoji-invaders/script.js:747-758 | Always exactly 3 entries in descending order. The player's entry is present iff the score exceeds 750. Otherwise the base table is unchanged; above 750 the table is the top two base entries plus the player's, as a multiset. |
| EmojiInvaders.Game.constructor | projects/emoji-invaders/script.js:7-42 | The constructor and `init`: start screen, score 0, 3 lives, level 1, player centred and unshielded, no bullets or power-ups, the level-1 grid at speed 1, direction right. |
| EmojiInvaders.Game.CreateEnemies | projects/emoji-invaders/script.js:206-229 | The nested loops push exactly the level's grid (`Grid(level)`), and the enemy speed becomes 1 + 0.2 (level - 1). |
| EmojiInvaders.Game.HandleTouch | projects/emoji-invaders/script.js:128-138 | While playing, the player is centred on the touch and clamped to the canvas; otherwise nothing moves. |
| EmojiInvaders.Game.StartGame | projects/emoji-invaders/script.js:140-157 | Playing, score 0, 3 lives, level 1, player centred and unshielded, bullets and power-ups emptied, the level-1 grid rebuilt. |
| EmojiInvaders.Game.TogglePause | projects/emoji-invaders/script.js:162-172 | Playing and paused swap; start and game over stay. |
| EmojiInvaders.Game.ResumeGame | projects/emoji-invaders/script.js:174-177 | The phase becomes playing. |
| EmojiInvaders.Game.Shoot | projects/emoji-invaders/script.js:234-267 | While the cooldown runs, nothing changes. Otherwise one bullet is appended from the player's centre (three under rapid fire, at the given offsets), and the cooldown restarts at 15, or 7.5 under rapid fire. |
| EmojiInvaders.Game.EndGame | projects/emoji-invaders/script.js:734-742 | Game over, with the high-score table of the final score. |
| EmojiInvaders.Game.ShieldExpired | projects/emoji-invaders/script.js:291-293 | The shield's 8 s timer callback removes the shield. |
| EmojiInvaders.Game.TickTimers | projects/emoji-invaders/script.js:328-335 | The cooldown counts down by one while positive. The rapid-fire timer runs down 16 ms, and rapid fire ends exactly when the timer crosses 0 this frame. |
| EmojiInvaders.Game.MovePlayer | projects/emoji-invaders/script.js:337-349 | The player moves 7 pixels per pressed direction and is then clamped to the canvas. |
| EmojiInvaders.Game.MoveBullets | projects/emoji-invaders/script.js:352-360 | The reverse splicing loop leaves exactly `Flown(old bullets)`. |
| EmojiInvaders.Game.LastHit | projects/emoji-invaders/script.js:392-395 | The reverse scan returns `LastHitIndex`. |
| EmojiInvaders.Game.EnemiesShoot | projects/emoji-invaders/script.js:460-481 | Bullets and lives become those of `Fire`. |
| EmojiInvaders.Game.MoveEnemy | projects/emoji-invaders/script.js:370-376 | The sweep state becomes `MoveStage` of the old one. |
| EmojiInvaders.Game.MaybeShoot | projects/emoji-invaders/script.js:378-381 | The sweep state becomes `FireStage` of the old one. |
| EmojiInvaders.Game.HitEnemy | projects/emoji-invaders/script.js:383-414 | The sweep state becomes `HitStage` of the old one. |
| EmojiInvaders.Game.StrikeEnemy | projects/emoji-invaders/script.js:395-412 | A bullet striking the enemy: the sweep state becomes `Struck` of the old one. The bullet is used up and the enemy loses one health. At none left the enemy leaves, its points are scored and, on the power-up draw, a power-up of the drawn kind appears where it was. |
| EmojiInvaders.Game.SweepEnemies | projects/emoji-invaders/script.js:363-415 | The reverse splicing loop over the enemies leaves exactly `After(old sweep, 0, ...)`; its shouldDrop is that of the sweep. |
| EmojiInvaders.Game.DropEnemies | projects/emoji-invaders/script.js:426-431 | The enemies become `Dropped(old enemies)`. |
| EmojiInvaders.Game.ApplyPowerUp | projects/emoji-invaders/script.js:277-304 | The boosts become the kind's `Effect` on the old ones. |
| EmojiInvaders.Game.VisitPowerUp | projects/emoji-invaders/script.js:435-448 | The power-up falls 2 pixels. Then it is collected (its effect applies), dropped below the canvas, or kept in place at its new height. |
| EmojiInvaders.Game.MovePowerUps | projects/emoji-invaders/script.js:433-449 | The reverse splicing loop leaves `Landed(old power-ups)`, with the boosts after `Collected` of the old power-ups. |
| EmojiInvaders.Game.FrameStart | projects/emoji-invaders/script.js:328-360 | The timers, the move of the player and the bullet step, composed. |
| EmojiInvaders.Game.FrameEnemies | projects/emoji-invaders/script.js:363-431 | After the enemy sweep, a board that was empty at the start moves to the next level with its grid. An edge touch negates the direction and drops every enemy by 20. |
| EmojiInvaders.Game.FrameEnd | projects/emoji-invaders/script.js:433-457 | The power-up step, then game over (with its high-score table) exactly when no life is left. |
| EmojiInvaders.Game.FrameRest | projects/emoji-invaders/script.js:363-457 | The enemy part and the end of a frame, composed. |
| EmojiInvaders.Game.PlayFrame | projects/emoji-invaders/script.js:326-457 | A whole playing frame, stated against the functions above: player, cooldown, level, direction flip and drop, bullets, lives, power-ups, boosts, phase and high scores. |
| EmojiInvaders.Game.Update | projects/emoji-invaders/script.js:325-458 | Outside the playing phase nothing changes. While playing, the frame is `PlayFrame` and the phase stays playing unless no life is left. |
| DailyQuestion.QuestionsNonEmpty | projects/Daily_Ques_App/script.js:5-21 | There are 15 questions and none is empty. |
| DailyQuestion.DailyHash | projects/Daily_Ques_App/script.js:42-45 | The hash stays in [0, 100000) after every character. |
| DailyQuestion.DailyHashIsBase31 | projects/Daily_Ques_App/script.js:42-45 | The hash with a reduction after every step equals the key read as a base-31 number, reduced once. |
| DailyQuestion.DailyIndex | projects/Daily_Ques_App/script.js:41-47 | The index lies in 0..14, depends on the key alone, is 0 for the empty key, and equals Base31(key) mod 100000 mod 15. |
| DailyQuestion.GetDailyIndex | projects/Daily_Ques_App/script.js:41-47 | The loop computes `DailyIndex(key)`, holding the invariant that the hash is that of the prefix read so far, in [0, 100000). |
| DailyQuestion.Load | projects/Daily_Ques_App/script.js:50-67 | A record for today with a non-empty question is returned as stored and left unchanged. Otherwise the question is the day's question, and exactly that record is stored for today. Either way a non-empty question for today is left stored. |
| DailyQuestion.LoadIdempotent | projects/Daily_Ques_App/script.js:54-66 | Loading twice on the same day shows the same question and leaves the same record. |
| DailyQuestion.LoadOnNewDay | projects/Daily_Ques_App/script.js:54-59 | Whatever was stored for another day, the new day's load shows that day's own hashed question. |
| DailyQuestion.ShuffleIndex | projects/Daily_Ques_App/script.js:72 | floor(15 r) lies in 0..14. |
| DailyQuestion.Store.constructor | projects/Daily_Ques_App/script.js:52 | The slot starts with the stored record, if any. |
| DailyQuestion.Store.LoadDailyQuestion | projects/Daily_Ques_App/script.js:50-67 | The question shown and the record left are exactly `Load(old record, today)`. |
| DailyQuestion.Store.ShuffleTodayQuestion | projects/Daily_Ques_App/script.js:70-81 | The shuffled question floor(15 r) is stored for today, and the render that follows shows exactly it. |
| TimeZoneCompare.JsRem | projects/TimeZone_Compare/script.js:116 | JavaScript's truncating `%` differs from the dividend by a multiple of the divisor and has magnitude below the divisor. It agrees with the Euclidean remainder for a non-negative dividend and is never positive for a negative one. |
| TimeZoneCompare.JsRound | projects/TimeZone_Compare/script.js:113 | `Math.round` is within half of its argument, with halves going up. |
| TimeZoneCompare.RoundedHours | projects/TimeZone_Compare/script.js:113 | For a whole number d of minutes, Math.round(d / 60) = floor((d + 30) / 60). |
| TimeZoneCompare.HourShift | projects/TimeZone_Compare/script.js:113 | The hour shift is floor((toOff - fromOff + 30) / 60). |
| TimeZoneCompare.ConvertHour | projects/TimeZone_Compare/script.js:102-118 | For any integer hour and offsets the result lies in 0..23, and it equals (hour + shift) mod 24. |
| TimeZoneCompare.WholeHourShift | projects/TimeZone_Compare/script.js:113 | Offsets a whole number k of hours apart shift by k one way and by -k back. |
| TimeZoneCompare.ConvertRoundTrip | projects/TimeZone_Compare/script.js:102-118 | For zones a whole number of hours apart, converting an hour of the day there and back returns it. |
| TimeZoneCompare.DefaultPairRoundTrip | projects/TimeZone_Compare/script.js:113-117 | For the default pair at India's +330 and New York's -240 minutes, the shifts are -9 one way and +10 back, because `Math.round` sends both -9.5 and 9.5 upward. So an hour taken there and back comes back one hour later, (h + 1) mod 24. |
| TimeZoneCompare.EqualEndpointsMarkAll | projects/TimeZone_Compare/script.js:136-141 | Equal converted endpoints mark all 24 hours as B-work. |
| TimeZoneCompare.BWorkHours | projects/TimeZone_Compare/script.js:136-141 | B works end - start of the 24 hours when start < end, and 24 - start + end hours otherwise (the wrap-around). |
| TimeZoneCompare.Label | projects/TimeZone_Compare/script.js:143-145 | Each cell gets exactly one label: overlap iff both work, A iff only A works, B iff only B works, none otherwise. |
| TimeZoneCompare.SameZoneTimeline | projects/TimeZone_Compare/script.js:129-145 | For two zones at the same offset and a plain range, an hour is an overlap exactly when it is a working hour, and unmarked otherwise. |
| TimeZoneCompare.BuildTimeline | projects/TimeZone_Compare/script.js:120-150 | Exactly 24 cells, cell h being the classification of hour h. |
| TimeZoneCompare.BeforeSeparator | projects/TimeZone_Compare/script.js:154 | `split(" - ")[0]` is the prefix before the first " - ", or the whole name when there is none. |
| TimeZoneCompare.BeforeFirstSeparator | projects/TimeZone_Compare/script.js:154 | When the first " - " starts at k, the label is the first k characters. |
| TimeZoneCompare.FindZone | projects/TimeZone_Compare/script.js:153 | `find` returns the first zone with the identifier, or reports that none has it. |
| TimeZoneCompare.ZoneLabel | projects/TimeZone_Compare/script.js:152-155 | The label is the text before " - " of the first listed zone with that identifier, and the identifier itself for an unlisted one. |
| TimeZoneCompare.IndiaLabel | projects/TimeZone_Compare/script.js:19 | The label of Asia/Kolkata is "India (IST)". |
| TimeZoneCompare.NewYorkLabel | projects/TimeZone_Compare/script.js:23 | The label of America/New_York is "New York (ET)". |
| TimeZoneCompare.Difference | projects/TimeZone_Compare/script.js:157-163 | The difference in hours times 60 is offB - offA. |
| TimeZoneCompare.DiffTextOf | projects/TimeZone_Compare/script.js:181-187 | The text is "same" iff the difference is 0, "ahead" iff it is positive and "behind" iff it is negative. The hours shown are the absolute difference. |
| TimeZoneCompare.DiffTextSwapped | projects/TimeZone_Compare/script.js:181-187 | Swapping the zones turns "ahead" into "behind" by the same hours and back, and keeps "same". |
| TimeZoneCompare.Selection.constructor | projects/TimeZone_Compare/script.js:44-45 | The default selection is Asia/Kolkata for A and America/New_York for B. |
| TimeZoneCompare.Selection.Swap | projects/TimeZone_Compare/script.js:201-206 | The two selected zones change places. |
| NamePicker.Lines | projects/RandomNamePicker/script.js:19 | `split('\n')` always yields at least one piece. |
| NamePicker.JoinLines | projects/RandomNamePicker/script.js:19 | Joining the pieces with line breaks restores the text. |
| NamePicker.LinesHaveNoBreak | projects/RandomNamePicker/script.js:19 | No piece contains a line break. |
| NamePicker.SplitJoin | projects/RandomNamePicker/script.js:19 | Splitting lines joined with breaks (none containing one) gives them back. |
| NamePicker.TrimStart | projects/RandomNamePicker/script.js:20 | The leading white space removed is exactly a maximal white-space prefix. |
| NamePicker.TrimEnd | projects/RandomNamePicker/script.js:20 | The trailing white space removed is exactly a maximal white-space suffix. |
| NamePicker.Trim | projects/RandomNamePicker/script.js:20 | `trim()` leaves no white space at either end and never lengthens the string. |
| NamePicker.TrimTrimmed | projects/RandomNamePicker/script.js:20 | A string with no white space at its ends is its own trim. |
| NamePicker.TrimIdempotent | projects/RandomNamePicker/script.js:20 | Trimming twice is trimming once. |
| NamePicker.NonBlank | projects/RandomNamePicker/script.js:20-21 | Trimming and dropping blanks never adds lines. |
| NamePicker.NonBlankClean | projects/RandomNamePicker/script.js:20-21 | Every kept name is non-empty and trimmed. |
| NamePicker.NonBlankMembers | projects/RandomNamePicker/script.js:20-21 | A name is kept iff it is non-empty and the trim of some line. |
| NamePicker.KeptIsLine | projects/RandomNamePicker/script.js:20-21 | A kept name is non-empty and is the trim of a line, whose index the lemma returns. |
| NamePicker.LineIsKept | projects/RandomNamePicker/script.js:20-21 | The non-empty trim of any line is kept. |
| NamePicker.NonBlankKeepsNames | projects/RandomNamePicker/script.js:20-21 | Lines that are already clean names are kept, all of them, in order. |
| NamePicker.ParsedNamesAreClean | projects/RandomNamePicker/script.js:18-21 | No parsed name is empty or has white space at either end. |
| NamePicker.ParseNamesMembers | projects/RandomNamePicker/script.js:18-21 | A name is parsed iff it is non-empty and the trim of one of the text's lines. |
| NamePicker.ParseJoinedNames | projects/RandomNamePicker/script.js:18-21 | Clean names written one per line parse back to the same list in the same order. |
| NamePicker.PickIndex | projects/RandomNamePicker/script.js:62 | floor(r n) is a valid index, for every draw r in [0, 1). |
| NamePicker.AddedToHistory | projects/RandomNamePicker/script.js:96-101 | The new name is first and the old entries follow in order. The list grows by one until it holds 10, after which the oldest entry drops. |
| NamePicker.HistoryIsLastTen | projects/RandomNamePicker/script.js:82-101 | From an empty list, the history is the last ten winners (or fewer), newest first. |
| NamePicker.Picker.constructor | projects/RandomNamePicker/script.js:13 | Not shuffling, empty history. |
| NamePicker.Picker.Pick | projects/RandomNamePicker/script.js:15-29 | While shuffling, a click is ignored and nothing changes. With no names parsed, nothing starts and `isShuffling` stays false. Otherwise a shuffle starts over exactly the parsed names, with the display and history untouched. |
| NamePicker.Picker.StartShuffling | projects/RandomNamePicker/script.js:44-54 | The flag is set and a fresh tick count starts over the given names. |
| NamePicker.Picker.ShuffleTick | projects/RandomNamePicker/script.js:55-64 | Each tick shows names[floor(r n)], and the shuffle ends exactly on the 20th tick. The winner names[floor(w n)] is always one of the names; the flag is then cleared and the winner is added to the history. |
| NamePicker.Picker.ShowWinner | projects/RandomNamePicker/script.js:68-80 | The flag is cleared, the winner is shown and added to the history, which stays at most 10 long. |
| NamePicker.Picker.AddToHistory | projects/RandomNamePicker/script.js:82-102 | The history becomes `AddedToHistory(old history, name)`. |

## Left out

- MistakeRunner.CountMistake, MistakeRunner.AnalyzeMistake, MistakeRunner.CheckCollisions, MistakeRunner.TickFinish, MistakeRunner.RunningTick and MistakeRunner.GameLoop: these update `mistakeRollingAverage` with the corrected `RollingAverage`, not the source's expression, which drifts once the window is full (see Findings). No other state reads this field.
- MistakeRunner.ChangeLane: one `now` stands for the two `Date.now()` calls of a lane change.
- MistakeRunner.StartGame, MistakeRunner.RestartGame, MistakeRunner.ResetRun, MistakeRunner.GameLoop, MistakeRunner.RunningTick, MistakeRunner.TickMove and MistakeRunner.SpawnAdaptiveObstacle: one `now` stands for each handler's separate `Date.now()` calls (game.js:263, 267, 287 and 377-378), so the spawn clock, the event clock, the tick time and a recorded obstacle's spawn time are equal within one call.
- MistakeRunner.ChangeLane: the raw input is left out. This covers the key dispatch (`handleKeyPress`'s switch), the touch start and move handlers and the swipe threshold test (game.js:163-187). A swipe or key press is a `Direction` argument.
- `checkLastMomentSwitchInLane` (game.js:236-254): both branches that call it count a slow change, so its result has no effect on state.
- Runner display and commentary: `checkNearMisses`, `showMessage`, `hideMessage`, `getRandomMessage`, `aiMessages`, `updateAdaptationUI` and `updatePlayerPosition` are left out. So are the obstacle DOM elements and the `messageQueue` and `activeMessage` fields. `currentLaneDuration` is never read and is not a field.
- `cancelAnimationFrame` and `requestAnimationFrame`: a tick is one `GameLoop` call. The 800 ms shake timer is `EndTrackShake`.
- Emoji Invaders drawing and page: the `draw*` methods, `updateUI`, `showPowerUp`, `updatePowerUpDisplay`, `showMotivation`, the motivational quotes, `toggleSound` and `showHelp`. `activePowerUps` is only ever emptied and is not a field.
- Emoji Invaders input: the key map is left out; held left and right keys are booleans of `Update`. The space, `p` and Enter dispatch in `setupEventListeners` (script.js:89-106) is left out. Space calls `Shoot` only while the phase is playing (script.js:94), and `Shoot` itself has no phase guard. `p` calls `TogglePause` in any phase. Enter calls `StartGame` only from the start phase (script.js:103). `restartGame` is `StartGame`.
- EmojiInvaders.Game.Update: `gameLoop` with `requestAnimationFrame` is one `Update` call per frame. The shield's 8 s timeout is the `ShieldExpired` call.
- EmojiInvaders.Game.Update: every enemy receives its three draws (shot, power-up chance, power-up type) up front, given as `ds`. The source draws them as the loop goes; every draw is arbitrary, so this covers the same runs.
- EmojiInvaders.Game.Update: the canvas width and height are fixed constructor arguments.
- Daily question dates: `getTodayKey` and `formatDate` (`toISOString`, `toLocaleDateString`) are left out; the date key is a string parameter.
- DailyQuestion.Store: `localStorage` and `JSON` are modelled by the parsed record as an `Option<Saved>`. A malformed stored text, which makes `JSON.parse` throw, and records whose fields are not strings are not modelled.
- DailyQuestion.DailyHash: `charCodeAt` reads UTF-16 code units, while the model reads the Unicode code point of each character. The two agree on the ASCII date keys the page produces.
- Time Zone pages: `Intl.DateTimeFormat`, `formatTimeInTZ`, `formatDateInTZ` and `getOffsetMinutes` are left out. Offsets are integer-minute parameters.
- TimeZoneCompare.BuildTimeline: one offset per zone is used for the whole render, where the source samples the offset at a moment built per converted hour. Around a daylight-saving change the source can therefore use two different offsets within one render.
- TimeZoneCompare.ConvertHour: hours are integers. The `workHours.value.split("-").map(Number)` parse, which can yield `NaN`, is not modelled.
- Time Zone display: the "approx" text of `render` (lines 192-196) is two `ConvertHour` calls formatted for display. `fillZones` builds the option lists; only its default selection is modelled.
- NamePicker.Picker.ShuffleTick: the 100 ms `setInterval` is one explicit call per tick, and `clearInterval` is the end of the ticks.
- Name picker page: the clear and reset buttons only change the page (the text box is the `input` parameter of `Pick`). The confetti and the time text of a history entry are left out.
- Floating point: speeds, positions, cooldowns, averages and differences are exact reals. IEEE-754 rounding and the `toFixed` display are not reproduced.

## Findings

| source | as written | input that shows it | evidently intended | confidence | as-written member | corrected member |
|---|---|---|---|---|---|---|
| projects/mistakerunner/game.js:508-509 | The rolling mistake average is (avg * n + 1) / min(10, n + 1). Once the window is full (n = 10), this divides eleven samples' worth by 10 and adds 0.1 on every mistake. | average 1.0 with 10 samples becomes 1.1, and grows without bound after that | a rolling mean of at most 10 samples that stays in [0, 1]: (avg * 9 + 1) / 10 once the window is full | not executed | MistakeRunner.RollingAverageAsWrittenDrifts | MistakeRunner.RollingAverage |
