# Bozo token game: the gameplay state machine

A model of the gameplay core of the browser game in `js/main.js`. The
player ("Bozo") collects falling tokens. Every collection is worth 10
points. Every 8th collection evolves Bozo to the next of its four textures,
raising the player's speed by 50 and the token speed by 20. The 24th
collection ends the game with "Mission Accomplished!" and the whole seconds
played. Play starts after a countdown of "3", "2", "1", "Go!".

The project has four modules:

- `GameRules` (`rules.dfy`) holds the pure rules.
  - The constants.
  - `Progress`, the counters a collection changes.
  - `Collect`, one collection, split into the reward (`Rewarded`) and the
    two independent checks (`Checked`: the evolution first, then the end).
  - `Run(n)`, the counters after `n` collections from the start.
  - `ProgressAfter(n)`, a closed form of the same counters.
  - The notices a collection shows (`Announcements`).
  - `Consistent`, the invariant that ties the counters and the notices to
    a run of collections.
- `Countdown` (`countdown.dfy`) holds the four scheduled calls of the
  countdown. It gives the label they leave on screen, and the label of each
  second as an independent reference (`LabelAt`).
- `Controls` (`controls.dfy`) turns the cursor keys into the player's
  velocity for one frame.
- `GameScene` (`game.dfy`) holds the class `Game`. Its fields are the
  script's module-level variables (`score`, `totalTokens`,
  `evolutionStage`, `tokenSpeed`, `isPlaying`, `gameEnded`, `startTime`)
  plus the following:
  - the player's stored speed and velocity;
  - the falling tokens;
  - the spawner event;
  - the countdown label;
  - the notices shown;
  - the engine clock.

  Each engine callback is a method that updates these fields in place. The
  methods keep the invariant `Valid()`, which says that:
  - the counters equal `Run(totalTokens)`, so `score == 10 * totalTokens`
    and the stage is at most 3;
  - one "Bozo Evolved!" notice was shown per stage reached, and one victory
    notice once the game ended;
  - exactly the countdown calls due by the clock have run, and the label
    is the one they set;
  - the spawner runs exactly from the start to the end.

Engine time is an integer number of milliseconds. The engine's clock, its
random numbers and its collision reports become method parameters: `now`,
the spawn position `x`, the index of the token touched, the keys held and
ground contact.

The model follows the code as written, also where it departs from the intended design:

- `collectToken` has no phase guard. A token still falling after the end
  can be collected, and the score keeps rising. The stage, the speeds and
  the end flag do not change, which `GameRules.NothingEvolvesAfterTheEnd`
  states.
- `evolveBozo` is declared twice with the same body (`js/main.js:190` and
  `js/main.js:332`), and one copy is modelled.

## Model

| member | source | states |
|---|---|---|
| GameRules.FinalTokenCountIsLastThreshold | js/main.js:184 | The end count 24 is the threshold 8 times the last stage index 3 |
| GameRules.StageFor | js/main.js:179-181 | The stage after n collections is at most 3, its threshold 8*s has been reached, and below the last stage the next threshold has not |
| GameRules.Collect | js/main.js:171-187 | One collection adds 10 to the score and 1 to the count, raises the stage by at most one and only below the last stage, never lowers a speed, and keeps the end flag once set |
| GameRules.Run | js/main.js:171-187 | After n collections from the start the count is n, the score is 10 times the count, the stage is between 0 and 3, and both speeds are at least their initial values |
| GameRules.Rewarded | js/main.js:174-175 | The first half of a collection adds 10 to the score and 1 to the count and leaves the stage, the speeds and the end flag alone |
| GameRules.EvolvesOn | js/main.js:179 | The evolution check fires only on a count that is a multiple of 8, and only when a next texture exists |
| GameRules.EndsOn | js/main.js:184 | The end check fires only on a positive count that is also an evolution threshold |
| GameRules.Checked | js/main.js:178-186 | The two checks leave the score and count alone, raise the stage by one and the speeds by 50 and 20 exactly when the evolution check fires, and set the end flag when the end check fires or it was already set |
| GameRules.Announcements | js/main.js:179-186 | A collection shows one notice per check that fires, the evolution notice first and the victory notice, with its seconds, last |
| GameRules.CollectFollowsClosedForm | js/main.js:174-203 | One collection applied to the closed form after n collections gives the closed form after n + 1 |
| GameRules.RunMatchesClosedForm | js/main.js:171-187 | Collecting n tokens one by one gives the closed form: score 10n, stage min(n / 8, 3), speeds 200 + 50 * stage and 150 + 20 * stage, ended iff n >= 24 |
| GameRules.EvolvesExactlyAtThresholds | js/main.js:179-181 | The evolution check fires on a collection exactly when it brings the count to a multiple of 8 no greater than 24 |
| GameRules.EndsExactlyOnce | js/main.js:184-186 | The end check fires exactly on the 24th collection, and the end flag is set exactly from then on |
| GameRules.NothingEvolvesAfterTheEnd | js/main.js:171-187 | Once the game has ended, neither check fires again; a further collection still adds 10 to the score but leaves the stage and both speeds unchanged |
| GameRules.NeverDecreases | js/main.js:175-203 | More collections never give a lower count, stage, player speed or token speed, and never clear the end flag |
| GameRules.Milestones | js/main.js:191-203 | After 8, 16 and 24 collections: stage 1, 2 and 3 with player speed 250, 300 and 350, token speed 170, 190 and 210; the game has ended only after 24 |
| GameRules.ElapsedSeconds | js/main.js:226 | The shown time is the whole seconds between the start and now, rounded down, and is non-negative once now is not before the start |
| GameRules.ElapsedNeverGoesBack | js/main.js:144 | A later frame never shows fewer seconds |
| GameRules.AnnouncementCounts | js/main.js:179-186 | A collection shows one evolution notice exactly when it evolves and one victory notice exactly when it ends the game |
| GameRules.StartIsConsistent | js/main.js:27-40 | The initial counters with no notices satisfy the invariant |
| GameRules.CollectKeepsConsistent | js/main.js:171-187 | A collection, with its notices appended, keeps the counters equal to the run of collections from the start, one evolution notice per stage, one victory notice iff ended, and no negative time shown |
| GameRules.LastCollectionEvolvesThenEnds | js/main.js:179-186 | The 24th collection shows the evolution notice first and the victory notice second |
| Countdown.ScheduleConstants | js/main.js:295-314 | Four calls are scheduled, and the one that starts the game is the last, at 4000 ms |
| Countdown.LabelAfterCalls | js/main.js:286-310 | The label is "3" exactly before any call ran, then the text each call sets ("2", "1", "Go!"), and is destroyed exactly once all four calls ran |
| Countdown.CallsDue | js/main.js:295-314 | At most four scheduled calls are ever due |
| Countdown.CallsDueAreThoseWhoseDelayPassed | js/main.js:295-314 | A scheduled call is due exactly when its delay has passed |
| Countdown.LabelAt | js/main.js:286-314 | The label reads "3" exactly during the first second, "2" exactly during the second, "1" exactly during the third, "Go!" exactly during the fourth, and is gone exactly from 4000 ms on |
| Countdown.ScheduleShowsLabelAt | js/main.js:286-314 | Running the calls due at any moment leaves on screen the label of that moment |
| Countdown.CallsDueMonotone | js/main.js:295-314 | A call once due stays due |
| Controls.EffectiveSpeed | js/main.js:125 | A non-zero stored speed is used as is, a zero one is replaced by the default 200, and the speed used is never zero |
| Controls.HorizontalVelocity | js/main.js:127-137 | The horizontal velocity is minus the speed iff left is down, plus the speed iff right but not left is down, zero with neither |
| Controls.FacingLeft | js/main.js:127-137 | The sprite is mirrored iff left was the key that moved it, and keeps its facing when no horizontal key is down |
| Controls.VerticalVelocity | js/main.js:139-141 | The vertical velocity changes only to -330, and does so exactly when up is down and the body touches the ground |
| Controls.LeftBeatsRight | js/main.js:127-131 | With both horizontal keys down the player moves left |
| GameScene.Game.constructor | js/main.js:27-40 | The scene starts with the invariant, the initial counters, the countdown phase, no tokens or notices, no spawner, the label "3", the player at rest and unflipped, and the timer at 0 |
| GameScene.Game.StartGame | js/main.js:318-329 | Starting sets the playing flag, records the current time as the start, and starts the looping spawner with period 800 |
| GameScene.Game.RunScheduledCall | js/main.js:295-314 | The next countdown call advances the label to the next text; the fourth destroys it and starts play, and the earlier ones leave the play state alone |
| GameScene.Game.AdvanceCountdown | js/main.js:295-314 | After the clock reaches now, exactly the calls due have run, the label is that of the current second, play has started iff 4000 ms have passed, the start time is set once, and the phase never goes back |
| GameScene.Game.CountdownCaughtUp | js/main.js:295-314 | In every valid state exactly the countdown calls due by the clock have run, so no frame sees a stale label |
| GameScene.Game.Steer | js/main.js:124-145 | In play the velocity follows the keys at the stored speed or the default 200, the facing follows the key that moved the player, a jump needs ground contact, and the timer shows the whole seconds since the start |
| GameScene.Game.Update | js/main.js:121-146 | Every frame first runs the countdown calls that became due, so the label is that of the current second and play has started iff 4000 ms have passed; the start time and the spawner are set only by the frame that starts play and kept afterwards; outside play nothing else changes; in play the velocity and facing follow the keys with left first, a jump needs ground contact, and the timer shows the whole non-negative seconds since the start; the invariant is kept |
| GameScene.Game.SpawnTick | js/main.js:149-167 | While the spawner runs, one token carrying the current token speed is added at the end of the falling tokens; otherwise nothing changes |
| GameScene.Game.TokenLanded | js/main.js:96-99 | A token touching the ground is removed and the others keep their order; the invariant is kept |
| GameScene.Game.Evolve | js/main.js:190-216 | An evolution adds 1 to the stage, 50 to the player speed and 20 to the token speed, shows the evolution notice, and changes no other field |
| GameScene.Game.EndGame | js/main.js:219-237 | The end sets the end flag, removes the spawner and shows the victory notice with the whole seconds since the start |
| GameScene.Game.CheckMilestones | js/main.js:178-186 | The two checks turn the counters into Checked of them, append the notices in order and remove the spawner exactly when the end fires |
| GameScene.Game.TakeToken | js/main.js:172-175 | The touched token goes, the others keep their order, and the score and count go up by 10 and 1 |
| GameScene.Game.CollectToken | js/main.js:171-187 | A collection changes the counters exactly as Collect, removes the touched token, appends the notices of the checks in order, removes the spawner exactly when the game ends, never moves the phase back, and keeps the invariant |

## Left out

- Rendering is not modelled. This covers sprites, textures and scale, text objects and their positions, the camera, the ground graphics, the logo, and the text of the score and the notices. These are engine calls without game logic.
- Notices are logged, not timed: the evolution notice's removal after 2000 ms is not modelled.
- The share button and the logo link are browser I/O and are not modelled. They cover building the tweet URL and opening windows.
- Physics is not modelled. This covers gravity, world bounds, collision detection and the motion of bodies. Collection and landing are method calls that receive the index of the token touched. The vertical velocity is the one the game sets; gravity does not act on it.
- The spawn position and launch angle come from the engine's random numbers. The position is a parameter, and the angle's sine and cosine are left out because they are floating-point trigonometry. A token records only its position and the token speed it launched with.
- The engine's timer queue is not modelled. The countdown's calls run when `AdvanceCountdown` brings the clock past their delays, which every frame does before its own work. The spawner records only its 800 ms period; each firing is a call to `SpawnTick`.
- Engine time is whole milliseconds; fractional timestamps are not modelled.
- Controls.EffectiveSpeed: models the `|| 200` fallback only for a stored speed of zero, because the stored speed is always a number in the model.
- GameScene.Game.Update: does not model the physics step; it states only what the frame sets.
- GameScene.Game.Evolve: requires a stage below the last one. At the last stage the source would raise the stage to 4 and then fail on the missing texture, but its only caller checks the stage first.
- GameScene.Game.EndGame: requires a started spawner. Before the start the source would fail on the undefined spawner, but its only caller reaches it only through a collected token, and tokens exist only after the start.
- The countdown label is one of its four texts or destroyed, not a general string.
- The preamble text "Are you ready to bozofy the world?" is not modelled; it is destroyed together with the label.
