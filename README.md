# Number counting game: quiz controller and unicorn state, in Dafny

This project models the core of a browser arithmetic game for children. The
game shows a number `n`. The player types the next three numbers into three
fields. A 3D unicorn then reacts with a happy or a sad animation, and the score
board (score, streak, best streak) is updated. Two parts of the game are
modelled:

- **The quiz controller** (`NumberGame` in `js/main.js`). Its pure parts are
  functions in module `Quiz`: the expected answers, the three-way judgement of
  the fields, the hint text and the drawing of a number. Module `JsNumbers`
  holds JavaScript's `%` and the decimal text of an integer. The object itself
  is class `Game.NumberGame`. Its fields are the current number, the score
  board, the three answer fields (an `array<Option<int>>`, where `None` is a
  field that `parseInt` reads as NaN) and the set of fields drawn in red. Each
  method changes them as the source does. A ghost history of judged rounds,
  together with the functions of module `Rounds`, gives the board its meaning:
  - the score is 30 points per correct round;
  - the streak is the run of correct rounds since the last miss;
  - the best streak is the longest such run (lemma
    `Rounds.BestIsLongestRun`).

  `Game.NumberGame.Valid` ties the board to that history. Every method keeps
  `Valid`, so the best streak is always at least the streak and never
  decreases.
- **The unicorn** (`Unicorn` in `js/Unicorn.js`). Class `Character.Unicorn`
  has these fields:
  - the `isAnimating` and `isWalking` flags;
  - whether the asset has loaded;
  - the walking direction (always -1 or 1);
  - the facing (`FaceRight` for rotation 0, `FaceLeft` for pi);
  - the x and z positions, as `real`.

  Its invariant also says the following. The facing always matches the
  direction. Exactly one of walking and reacting holds. Outside the patrol
  range, the unicorn is always headed back in.

Timers are not modelled. Each piece of work the source defers is a method of
its own, which the environment calls when the timer fires:

| deferred work | method |
|---|---|
| the advance after a correct answer | `AdvanceToNextSequence` |
| the clearing after a miss | `ClearInputs` |
| a reaction's `onComplete` handler | `FinishReaction` |

No order is imposed among these calls, because the source cancels none of its
timers. Random draws are a parameter `u` with `0 <= u < 1`, which stands for
`Math.random()`. The frame time `dt` is a parameter. `NumberGame.EnterAnswer`
stands for the browser putting the player's typing into a field. Three methods
are worked examples:

- `Game.ExampleFromNineteen` and `Game.ExampleMissAtTwentyTwo` play a game that
  starts at 19. The answer 20, 21, 22 is correct, and the game advances to 22.
  The answer 1, 2, 3 is then a miss, with all fields wrong. The sad reaction is
  refused because the happy one is still running.
- `Game.ExampleEnterInThirdField` shows the finding below.

A submission is rejected as soon as any one field is empty
(`values.some(isNaN)`, js/main.js:235), not only when all three are.

## Model

| member | source | states |
|---|---|---|
| `Quiz.AnyMissing` | js/main.js:235 | true exactly when some field holds no number |
| `Quiz.AllMatch` | js/main.js:248 | true exactly when every field holds its expected value |
| `Quiz.MismatchesFrom` | js/main.js:254-256 | lists exactly the positions whose field differs from the expected value, in increasing order |
| `Quiz.Judge` | js/main.js:224-267 | MissingInput exactly when some field is empty; Correct exactly when field i holds n+i+1 for i = 0, 1, 2; otherwise Incorrect, with every field filled and a non-empty list holding exactly the wrong positions |
| `Quiz.NextThreeAreCorrect` | js/main.js:241-248 | the three numbers after n, typed in field order, are judged correct |
| `Quiz.HintFor` | js/main.js:208-215 | exactly one of three hints: the tens hint when JavaScript's n % 10 is 9, the fresh-start hint when it is 0, otherwise the hint listing n+1, n+2, n+3 |
| `Quiz.HintFollowsLastDigit` | js/main.js:209-211 | the tens hint is given exactly for non-negative numbers whose displayed last digit is 9; the fresh-start hint exactly for numbers whose last digit is 0 |
| `Quiz.ShowHint` | js/main.js:205-217 | the hint text's first letter tells which of the three branches produced it |
| `Quiz.ShowHintInjective` | js/main.js:210-214 | two numbers with the same hint text are equal: the text names its number exactly |
| `Quiz.DrawNumber` | js/main.js:388 | floor(u * 89) + 11 lies in [11, 99] for every draw u in [0, 1) |
| `Quiz.DrawPreimage` | js/main.js:11 | each n is drawn exactly for u in [(n-11)/89, (n-10)/89): the 89 outcomes have equal-width intervals |
| `JsNumbers.JsRemainder10` | js/main.js:209 | JavaScript's a % 10: smaller than 10 in size, zero or of the sign of a, differing from a by a multiple of 10, equal to Dafny's remainder for a >= 0 |
| `JsNumbers.Decimal` | js/main.js:210 | the text of `${n}`: a minus sign exactly for negative n, then digits, ending in the last digit of the magnitude |
| `JsNumbers.DecimalInjective` | js/main.js:214 | different integers have different decimal texts |
| `Rounds.Wins` | js/main.js:279 | the number of correct rounds is at most the number of rounds |
| `Rounds.Streak` | js/main.js:271 | the streak is the length of the trailing run of correct rounds: those rounds are correct, and the round before them (if any) is a miss |
| `Rounds.Best` | js/main.js:272-275 | the best streak is at least the current streak and at most the number of rounds |
| `Rounds.BestIsLongestRun` | js/main.js:271-275 | the best streak equals the length of the longest run of correct rounds in the history |
| `Rounds.Record` | js/main.js:271-279 | a correct round adds one win, adds one to the streak and makes the best streak max(old best, new streak); a miss zeroes the streak and keeps the wins and the best streak |
| `Character.Unicorn.constructor` | js/Unicorn.js:11-17 | a fresh unicorn is not reacting, is walking, has direction 1 and faces right, and its asset has not loaded |
| `Character.Unicorn.LoadModel` | js/Unicorn.js:44-45 | after the asset loads, the model stands at the left bound, facing right, walking right |
| `Character.Unicorn.UpdateWalking` | js/Unicorn.js:142-157 | does nothing before the load or while not walking; otherwise x grows by 1.2 * dt * direction, and the unicorn turns left at or past the right bound, turns right at or past the left bound, and otherwise keeps its direction and facing; for dt >= 0 it moves back inward from a bound and ends at most one stride past a bound |
| `Character.Unicorn.PlayHappyAnimation` | js/Unicorn.js:259-262 | no field changes while a reaction runs or before the load; otherwise, isAnimating becomes true and isWalking false; the direction, facing and position are kept either way |
| `Character.Unicorn.PlaySadAnimation` | js/Unicorn.js:349-352 | the same guard and flags as the happy reaction |
| `Character.Unicorn.FinishReaction` | js/Unicorn.js:270-286 | both reactions' onComplete handlers (also js/Unicorn.js:359-368): isAnimating becomes false and isWalking true; the facing becomes FaceLeft if the direction is negative, else FaceRight; z becomes 0; the direction is unchanged, and the facing is the one the reaction started with |
| `Game.NumberGame.constructor` | js/main.js:11-19 | a drawn number in [11, 99], score, streak and best streak 0, empty fields |
| `Game.NumberGame.ClearInputs` | js/main.js:348-355 | every field empty and no field red; the number and board unchanged (this is also the step deferred after a miss, js/main.js:326-329) |
| `Game.NumberGame.ClearActiveInput` | js/main.js:153-160 | Escape empties the focused field and removes its red style, and nothing else |
| `Game.NumberGame.Highlight` | js/main.js:258-263 | the red fields become the old ones plus exactly the listed positions |
| `Game.NumberGame.RecordWin` | js/main.js:270-279 | a correct round on the board: the streak grows by 1, the best streak becomes max(old best, new streak), the score grows by 30; the invariant tying the board to the history of rounds is kept |
| `Game.NumberGame.RecordMiss` | js/main.js:313-315 | a miss on the board: the streak becomes 0, score and best streak are kept; the invariant tying the board to the history of rounds is kept |
| `Game.NumberGame.HandleCorrectSequence` | js/main.js:269-292 | streak + 1, score + 30, best streak = max(old best, new streak), a happy reaction requested, fields cleared, number unchanged until the advance |
| `Game.NumberGame.AdvanceToNextSequence` | js/main.js:295-310 | the deferred step after a correct answer: current number + 3 and all fields empty; board unchanged |
| `Game.NumberGame.HandleIncorrectSequence` | js/main.js:313-329 | streak becomes 0 whatever it was; score, best streak, number and fields unchanged; a sad reaction requested |
| `Game.NumberGame.CheckAnswers` | js/main.js:224-267 | returns Judge of the fields and the current number; on MissingInput nothing changes (game, fields, unicorn); on Correct the correct-round effects; on Incorrect the miss effects, with exactly the wrong fields added to the red ones |
| `Game.NumberGame.RefreshNumber` | js/main.js:386-393 | the new number is the draw, in [11, 99]; all fields empty; score, streak and best streak unchanged |
| `Game.NumberGame.CheckAnswersTwice` | js/main.js:144-187 | the check run twice in a row: after a correct answer the second run finds the fields empty, so the round is scored once and the second verdict is MissingInput; after a miss the same fields are found wrong again, the history records two misses, and score, best streak, number and fields are kept; with an empty field nothing changes |
| `Game.NumberGame.CheckAgain` | js/main.js:224-267 | a check run on what the previous check left: MissingInput after a correct answer, the previous verdict otherwise; after a miss it records one more miss and leaves the character as it was, since the sad reaction is already running or was refused |
| `Game.NumberGame.PressEnter` | js/main.js:144-188 | Enter as written: in the third field the check runs twice (Correct then MissingInput after a correct answer, the same Incorrect verdict twice after a miss); elsewhere one check runs, with the effects of `CheckAnswers`; an empty field changes nothing; the best streak never drops and the history only grows |
| `Game.NumberGame.PressEnterOnce` | js/main.js:178-187 | Enter handled once: the first two fields change nothing; the third field or no field gives exactly one verdict, namely Judge of the fields, with its effects (nothing on MissingInput, the correct-round effects on Correct, the miss effects and the red fields on Incorrect); the best streak never drops |

## Left out

- Scene, renderer, camera, lights, ground and resize handling (js/main.js:8-10, 31-66, 111-130): library plumbing with no state of the game.
- The reaction timelines' keyframes, easings and durations, and the bobbing walk (js/Unicorn.js:82-140, 295-346, 376-437). The model keeps the entry guard and the completion effects. The timeline's last tweens bring x back to where it was, so x is unchanged across a reaction. The intermediate positions and rotations are not modelled.
- Rainbow tube, particle clouds and their per-frame drift (js/Unicorn.js:159-257, 449-459; js/main.js:68-109, 372-381): floating-point geometry and `Math.random` decoration.
- Asset loading and the animation mixer (js/Unicorn.js:27-68): asynchronous I/O. Only its success is modelled (`LoadModel`). A failed load leaves `modelLoaded` false.
- `Unicorn.update`, `startWalking` and `createBobbingAnimation` (js/Unicorn.js:70-80, 440-460): apart from `updateWalking`, they only drive the mixer and animations.
- js/SoundManager.js: Web Audio tone playback, with no game state.
- vite.config.js: build configuration.
- `showMessage`, colours, focus movement, the debug console and `log` (js/main.js:332-346, 395-417): display only. `PressEnter` reports verdicts in place of messages.
- Auto-advance after two typed characters (js/main.js:190-199): focus handling. Its call of `checkAnswers` from the third field is the same check that `CheckAnswers` models.
- The timers themselves and the five-second expiry of the hint message (js/main.js:219-221): deferred work is an explicit method call instead.
- `parseInt` on the field text: each field is an `Option<int>`.
- The `targetNumbers` and `isAnimating` fields of `NumberGame` (js/main.js:12, 14): never read or written after construction.
- JavaScript numbers are doubles. The model uses unbounded integers, and `Decimal` does not produce the exponent form used for magnitudes of 1e21 and beyond. The game's numbers stay far below both limits.
- `Character.Unicorn.UpdateWalking`: `real` arithmetic stands for floating point, so rounding of x is not modelled.

## Findings

| source | as written | input that shows it | evidently intended | confidence | as-written member | corrected member |
|---|---|---|---|---|---|---|
| js/main.js:144-149, 178-187 | Each field's keydown listener handles Enter, and the event then bubbles to the document's keydown listener, which handles Enter again by calling `checkAnswers`. In the third field both listeners check. After a correct answer, the first check clears the fields, so the second check reports "Please fill in all numbers!" in place of the success message. In the first two fields, Enter also submits instead of only moving the focus. | n = 19; the fields hold 20, 21, 22; Enter is pressed in the third field. The verdicts are [Correct, MissingInput]: the round is scored, and the message left on screen asks for the missing numbers (`Game.ExampleEnterInThirdField`). | One Enter press, one handling: the field's listener when a field has focus, the document's otherwise. The verdict is then [Correct] (`Game.ExampleEnterOnceInThirdField`). | medium; not executed | `Game.NumberGame.PressEnter` | `Game.NumberGame.PressEnterOnce` |
