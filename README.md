# Flappy Bird core, modelled in Dafny

`script.js` is a browser Flappy Bird clone. Besides drawing, it holds a small
simulation: a bird falling under gravity and lifted by a flap, pipes spawned
every 100 frames and moving left, a collision test, a frame-based score, and
a leaderboard plus per-player best scores kept in the browser's key-value
storage. This project models that simulation and proves what it guarantees.

- `world.dfy` (module `World`): the field's size, the game constants, and
  the `Bird` and `Pipe` records.
- `leaderboard.dfy` (module `Leaderboard`): the stored leaderboard as a
  `map<string, int>`. It covers the upsert `saveScoreToLeaderboard` and the
  top-n view `getTopLeaderboard`. The view is a stable insertion sort by
  descending score, cut after `n` rows. These are pure functions with lemmas.
- `obstacles.dfy` (module `Obstacles`): functions that specify one call of
  `updatePipes`: spawn, shift, filter. Lemmas cover the spawn rule, the
  movement, the order of the list and the pipe invariant.
- `collision.dfy` (module `Collision`): the `checkCollision` test as a
  predicate. A lemma shows it equals a second, geometric definition: the bird
  left the field, or its box overlaps a drawn pipe segment.
- `flappy.dfy` (module `Flappy`): the page's global variables as the fields
  of class `Game`. Three more fields stand in for the browser storage:
  `leaderboard` ("flappyLeaderboard"), `highscores` (the `<name>_highscore`
  keys) and `savedUsername` ("flappyUsername"). The methods cover `resetGame`,
  `gameOver`, `updatePipes` (shift in place, then filter), `checkCollision`,
  `flap`, the keydown and mousedown handlers, and the simulation step of
  `update`. Each method's postcondition gives the new state in terms of the
  old one. The object invariant `Valid()` says: well-formed pipes in
  left-to-right order, `score == floor(frame / 15)`, the wing sprite index
  below 3, a name of at most 10 characters, and, once the name is entered,
  the shown best score equal to the stored one. The constructor and
  `ResetGame` establish it, and every other method keeps it, except the two
  loops `ShiftPipes` and `DropPipesOffScreen`. Those are specified by the pipe
  functions alone, and `UpdatePipes`, which runs them, keeps the invariant.

Details of the code a reader might not expect:
- A flap sets the velocity to the lift value. The next frame then adds
  gravity as usual, so the velocity after a flapped frame is `lift + gravity`,
  not `lift`.
- A pipe is kept while `x + width > 0`. So it is dropped as soon as
  `x + width <= 0`, not only once `x + width < 0`.
- `gameOver` has no guard against a second call. `checkCollision` calls it
  once per pipe hit and once more when out of bounds. The model keeps every
  call and proves that the extra calls change nothing.
- After a run ends inside a frame, that frame still advances `frame` and
  recomputes `score`. The `score` field can then be one higher than the score
  just recorded (`Flappy.Game.Tick` states both values).
- `saveScoreToLeaderboard` also overwrites a stored score of 0, because
  `!leaderboard[name]` is true for 0. For the non-negative scores the game
  produces, the result is still the maximum.

## Model

| member | source | states |
|---|---|---|
| `Leaderboard.SaveScore` | script.js:28-34 | the saved name's entry becomes the old entry's maximum with the new score (the score itself if the name was absent), for every score >= 0; every other name keeps its entry; no name disappears |
| `Leaderboard.SaveScoreIdempotent` | script.js:28-34 | saving the same name and score twice leaves the same board as saving it once |
| `Leaderboard.Entries` | script.js:38 | `Object.entries`: as many rows as stored names; every stored `(name, score)` pair is a row, every row is a stored pair, no name appears twice, and the rows follow the enumeration order |
| `Leaderboard.Insert` | script.js:39 | one insertion step of the sort adds exactly the inserted entry (multiset) |
| `Leaderboard.InsertSorted` | script.js:39 | inserting into a list sorted by descending score keeps it sorted |
| `Leaderboard.SortByScore` | script.js:39 | the sort returns a permutation of its input, sorted by non-increasing score |
| `Leaderboard.InsertStable` | script.js:39 | insertion keeps the rows of each score in order, the inserted row ahead of its equals |
| `Leaderboard.SortStable` | script.js:39 | the sort is stable: for every score, the rows with that score keep their original order |
| `Leaderboard.TopLeaderboard` | script.js:36-41 | returns exactly min(n, number of players) rows, sorted by non-increasing score; each row is a stored (name, score) pair; every pair left out scores no higher than every row returned; the rows are drawn from the stored pairs without repetition (multiset inclusion) |
| `Leaderboard.SortedPrefix` | script.js:39-40 | a prefix of a sorted permutation of the entries holds only stored pairs, and no omitted pair outscores a kept one |
| `Leaderboard.TopLeaderboardStable` | script.js:36-41 | among the rows returned, players with equal scores appear in the stored enumeration order |
| `Obstacles.NewPipe` | script.js:108-111 | a spawned pipe starts at the right edge, 50 wide, with its upper segment exactly the random height drawn; for a height in [0, 320) its two segments leave a 150-pixel gap in the 640-pixel field |
| `Obstacles.KeepOnScreen` | script.js:114 | the filter keeps exactly the pipes whose right edge is still right of x = 0 |
| `Obstacles.KeepOnScreenInOrder` | script.js:114 | the filtered list is a subsequence of the input: survivors keep their relative order |
| `Obstacles.KeepOnScreenLeftToRight` | script.js:114 | filtering a list ordered left to right leaves it ordered left to right |
| `Obstacles.AdvancedSpawns` | script.js:107-114 | one call appends exactly one pipe, as the last one, iff `frame % 100 == 0`; the new pipe is never dropped on its first frame |
| `Obstacles.AdvancedMovesLeft` | script.js:113-114 | every remaining pipe is an old or new pipe moved left by exactly 2.5 with width, top and bottom unchanged; survivors keep their order; a moved pipe is dropped iff it is off screen |
| `Obstacles.AdvancedValid` | script.js:107-114 | one call keeps the pipe list valid: well-formed pipes, all on screen, all left of the right edge, strictly left to right in list order |
| `Collision.CollidesIffOverlap` | script.js:116-122 | for a bird of positive height, the test ends the run iff the bird is out of bounds or its box overlaps the upper or lower drawn segment of some pipe |
| `Flappy.EditName` | script.js:155-156 | a one-character key is appended exactly when the name is shorter than 10 characters; Backspace drops the last character (an empty name stays empty); a one-character key on a 10-character name and any other key leave the name as it is; typing never makes the name longer than 10 |
| `Flappy.ScoreMonotone` | script.js:193-194 | `floor(frame / 15)` never decreases as the frame counter grows |
| `Flappy.Game.constructor` | script.js:14-25 | the page's initial globals: bird at its start, no pipes, counters at zero, not started, popup shown, empty name |
| `Flappy.Game.ResetGame` | script.js:123-133 | bird back at y = 300 with velocity 0, no pipes, frame, score and sprite index 0, started and unpaused, best score loaded from the player's stored key (0 if absent) |
| `Flappy.Game.GameOver` | script.js:134-144 | records the score on the leaderboard; the best score becomes max(best, score), and the player's key is written only when the score beats the best; the run ends unpaused |
| `Flappy.Game.UpdatePipes` | script.js:107-115 | the spawn, the in-place shift and the filter leave exactly the list of the spawn-shift-filter specification, and the object invariant (valid pipes in screen order) is kept |
| `Flappy.Game.ShiftPipes` | script.js:113 | the loop moves every pipe left by 2.5, in place, and changes nothing else about it |
| `Flappy.Game.DropPipesOffScreen` | script.js:114 | the loop keeps exactly the on-screen pipes, in order |
| `Flappy.Game.CheckCollision` | script.js:116-122 | the run is finalised, exactly as by one `gameOver`, iff the bird hits some pipe or leaves the field; otherwise nothing changes |
| `Flappy.Game.Flap` | script.js:147-150 | a running unpaused bird gets the lift velocity; otherwise a finished run restarts only when the name is non-empty; in every other case nothing changes |
| `Flappy.Game.KeyDown` | script.js:153-166 | in the popup, keys edit the name, and Enter with a non-empty name stores it, closes the popup and restarts; afterwards Space flaps and P toggles the pause; nothing else changes |
| `Flappy.Game.MouseDown` | script.js:169-177 | a click on the restart button of a finished run restarts it, and every click then flaps |
| `Flappy.Game.Fall` | script.js:187-188 | the velocity grows by exactly the gravity, then the height grows by the new velocity; the object invariant is kept |
| `Flappy.Game.CountFrame` | script.js:193-196 | the frame counter grows by one, the score becomes floor(frame / 15) and does not decrease, and the sprite index cycles through 0, 1, 2 every 5 frames |
| `Flappy.Game.Tick` | script.js:184-197 | while running and unpaused, one frame moves the bird, advances the pipes and counters, and ends the run (recording the pre-increment score) iff the moved bird collides; otherwise bird, pipes, frame and score are unchanged |

## Left out

- Drawing is not modelled: background, bird, pipes, score, game-over screen, leaderboard, username popup and pause overlay (script.js:44-104, 199-211). It is presentation only.
- Image loading, the `onload` start-up chain that restores the stored username (script.js:5-8, 218-225), and `requestAnimationFrame` scheduling are not modelled. The constructor gives the page's state before that chain runs.
- Event registration and DOM event objects are left out. The handlers take the key, the key code or the click position as parameters. The touchstart handler (script.js:178) only calls `flap`, which is `Flappy.Game.Flap`.
- `alert` (script.js:139) is UI only and is left out.
- `localStorage` and the JSON encoding are replaced by map and string fields. Malformed stored JSON is not modelled: `JSON.parse` would throw and the code does not handle it.
- `Math.random()` (script.js:109) becomes the parameter `top`, constrained to [0, 320).
- Positions, velocities and the constants 0.6, 2.5 and -10 are exact reals. IEEE-754 rounding is not modelled; the logic depends only on the arithmetic relations.
- The best score read back from storage is a string in the source (script.js:132). Here it is an integer, which is how the comparisons in `gameOver` use it.
- Leaderboard.TopLeaderboard: the order in which `Object.entries` lists the stored names is the parameter `order`, any duplicate-free listing of the names. JavaScript's rule that integer-like keys come first, then the rest in insertion order, is not modelled. `n` is a natural number; the source only ever calls with the default 5.
- Flappy.EditName: string lengths count Unicode scalar values, not UTF-16 code units. A key outside the Basic Multilingual Plane has length 2 in JavaScript and 1 here.
- Flappy.Game.UpdatePipes: pipes are records in a sequence, not shared objects. No aliasing is lost, because each pipe object is referenced only from the `pipes` array.
- Leaderboard.SaveScore: the maximum property is stated for scores >= 0 only, the only scores the game produces. For a negative score over a stored 0, the source stores the negative score.
- Leaderboard.SaveScore: the stored leaderboard is a JavaScript object, so a name such as `toString`, `valueOf` or `__proto__` reads a member every object inherits. For such a name the guard of script.js:30 is false (the inherited value is truthy and `score >` it compares with NaN), so the source never stores that player's score and the player never appears in the top-n view. The model treats every name as an ordinary key and stores the score.
