# Flappy-bird game state, modelled in Dafny

A model of the simulation inside `game.js`, a canvas "flappy bird" game: every
frame the bird falls under constant gravity; when the spawn rule fires (the
canvas has outgrown the last spawn point by more than the spacing, or no pipe
is left) a pair of pipes, and sometimes a gold coin in the gap, spawns at the
right edge; pipes and golds scroll two units left and are pruned once off screen or, for golds, once collected, and a collision pass ends the game on a
boundary or pipe hit, picks up golds (+1 gold, +5 score) and scores passed
pipes (+1 per ceiling segment, raising the high score). The play/pause,
restart and jump handlers are state transitions on the same record.

The game's global variables are one immutable `Game` record (`entities.dfy`);
every stage is a pure function over it:

- `physics.dfy` — the bird's integration step and its closed form.
- `spawn.dfy` — the spawn rule and `createPipe`.
- `world.dfy` — `updatePipes` / `updateGolds`, built on a generic
  move-then-filter in `seqs.dfy`.
- `collisions.dfy` — `checkCollisions` and the state part of `gameOver`.
- `game.dfy` — one frame of `gameLoop`, the handlers, and runs of arbitrary
  action sequences with their invariants.

Inputs the program gets from its host are parameters: the canvas size
(`Canvas`, re-read every frame), the two `Math.random()` draws of a spawn
(`heightRoll` for the gap height, `goldRoll` for the 30% gold chance, both fed
to the source's own formulas), the stored high score at start-up, and the key
code of a keydown. Coordinates are exact `real`s.

The model follows the code, including these quirks:

- Pipes and golds both move by the literal `2`; the declared `pipeSpeed = 1.5`
  is never read, and there are no separate speed settings.
- The high score is raised only in the scoring pass. A gold pickup can leave
  the score above the high score until the next passed pipe
  (`Game.GoldPickupLeavesHighScoreBehind`), so the stored value is not always
  the highest score reached.
- `checkCollisions` keeps running after `gameOver()`: golds and passes are
  still counted in the frame that ends the game.
- Resuming from pause, starting from the menu and restarting each run one frame
  at once, because the handlers call `gameLoop()` themselves.
- At an unchanged canvas width the spacing test never fires again once a pair
  has spawned, because `lastPipe` is then the canvas width. The next pair
  comes only after the pipe list has emptied (`Spawn.SpawnWaitsForEmpty`). So
  one pair is on screen at a time, and each new pair starts about W + 50 units
  behind the previous one rather than `pipeSpacing` behind it.
- The bottom segment has no `passed` field in the source. It is modelled as a
  flag that starts false, which behaves the same: it gets flagged, and on a
  canvas at least 50 tall its `y` is positive, so it never scores. On a shorter
  canvas the random height can put it at `y = 0` (height 0 and roll 0.8, for
  one), and then it scores like a ceiling segment, in the code and in the model.

## Model

| member | source | states |
|---|---|---|
| `Entities.Initial` | game.js:12-32 | at load the game is not playing or paused, has no pipes or golds, zero score and gold, and the stored high score |
| `Physics.FallForClosedForm` | game.js:49-50 | after n frames without a jump, velocity has grown by n·gravity and height by n·v0 + gravity·n(n+1)/2 |
| `Spawn.GapTopInRange` | game.js:78-80 | on a canvas at least gap + 2·minHeight tall, a roll in [0,1) puts the top pipe's height in [minHeight, H − gap − minHeight] |
| `Spawn.CreatePipe` | game.js:77-108 | appends exactly two segments at x = canvas width, width 50, unflagged; the top one hangs from the ceiling and the bottom one reaches the floor, exactly one gap apart, so the heights sum to H − gap; below a 0.3 roll one uncollected gold is appended at x = canvas width + 25, the middle of the pipe's width, and at the middle of the gap, otherwise the golds are unchanged; `lastPipe` becomes the canvas width; nothing else changes |
| `Spawn.SpawnWaitsForEmpty` | game.js:53-55 | when `lastPipe` equals the canvas width, a spawn is due exactly when the pipe list is empty |
| `Spawn.CreatePipeKeepsPairs` | game.js:82-95 | on a canvas with room for both minimum pipes, a spawn keeps the pipe list a sequence of (ceiling segment, lower segment) pairs in one column |
| `Seqs.StepAndKeep` | game.js:111-114 | the move-then-test filter returns exactly as many elements as there are moved inputs passing the test, in input order, each one a moved input that passes the test, and every moved input that passes the test is kept |
| `World.UpdatePipes` | game.js:110-115 | survivors keep their relative order, are moved pipes, are all still on screen (x + width > 0), every pipe still on screen after the move survives, and their number is exactly the number of moved pipes on screen |
| `World.UpdateGolds` | game.js:117-122 | survivors keep their relative order, are moved golds, none is collected and all are on screen, every uncollected gold still on screen after the move survives, and their number is exactly the number of moved golds kept |
| `World.UpdatePipesShiftsByTwo` | game.js:112 | each surviving pipe is an input pipe moved left by exactly 2 |
| `World.UpdateGoldsShiftsByTwo` | game.js:119 | each surviving gold is an input gold moved left by exactly 2 |
| `World.UpdatePipesKeepsPairs` | game.js:110-115 | the two segments of a pair scroll and are pruned together, so the list stays a sequence of pairs |
| `Collisions.OverlapsIffSharedPoint` | game.js:150-153 | for a pipe of positive size the four edge tests hold exactly when the bird's open square and the pipe's open rectangle share a point |
| `Collisions.NearIffWithinReach` | game.js:161 | comparing squared distances agrees with comparing the Euclidean distance with the sum of the radii |
| `Collisions.CollectGolds` | game.js:159-168 | keeps the golds' positions; exactly the uncollected golds within reach become collected; the pickup count equals the number of flags that flipped |
| `Collisions.CollectGoldsIdempotent` | game.js:160-162 | a second pickup pass at the same spot changes nothing and picks nothing: a collected gold never triggers again |
| `Collisions.ScorePasses` | game.js:171-184 | exactly the unflagged pipes behind the bird get flagged; the score rises by exactly the number of newly flagged ceiling segments; the high score becomes max(high score, score) if a point was scored and is otherwise unchanged |
| `Collisions.ScorePassesIdempotent` | game.js:172-173 | a second scoring pass flags nothing and changes neither score nor high score: a flag flips at most once |
| `Collisions.MarkPassedKeepsPairs` | game.js:171-175 | both segments of a pair are flagged in the same frame, so the list stays a sequence of pairs |
| `Collisions.CheckCollisions` | game.js:142-190 | playing afterwards iff playing before and the bird is inside the canvas and touches no pipe (repeated hits give the same result); the gold and scoring passes run regardless; gold rises by the number of golds picked, score by 5 per gold plus 1 per newly passed ceiling segment; the high score follows the score only if a pipe was scored; bird, pause flag and spawn tracker are untouched |
| `Collisions.CollisionExamples` | game.js:150-153 | the bird at (50,150) hits a 50×100 pipe at (45,100) and misses the same pipe at (200,100) |
| `Game.Tick` | game.js:43-68 | a no-op when paused or not playing; otherwise velocity grows by gravity and the height by the new velocity, the spawn tracker is set to the canvas width when a spawn is due and is otherwise unchanged, the game stays on iff the new bird touches neither boundary nor any pipe, with no spawn due neither list grows, with a spawn due the last two pipes are the new pair at x = W − 2 (the top one at y = 0, the bottom one a gap below it, heights summing to H − gap), at most two pipes and one gold are added, every gold still listed as collected was picked in this frame, and score, gold and high score never fall |
| `Game.SpawnedPairScrolls` | game.js:53-58 | in a frame that spawns, the world update returns the scrolled old pipes followed by the new pair moved two units left |
| `Seqs.StepAndKeepAppend` | game.js:110-115 | moving and filtering a concatenation gives the two parts moved and filtered one after the other |
| `Game.Jump` | game.js:233-238 | while running the velocity becomes exactly the jump impulse and nothing else changes; otherwise nothing changes |
| `Game.KeyDown` | game.js:227-231 | Space and Enter act as a jump, every other key changes nothing |
| `Game.JumpThenTick` | game.js:229 | a jump followed by a frame gives velocity jump + gravity whatever the velocity was |
| `Game.Reset` | game.js:192-201 | the bird is at half the canvas height at rest, pipes and golds are empty, score and spawn tracker are 0, and gold, high score and the session flags carry over |
| `Game.Start` | game.js:218-221 | the state change of starting a round leaves the game running and reset |
| `Game.Restart` | game.js:218-224 | restart leaves the game unpaused with a non-negative score and never lowers gold or the high score |
| `Game.RestartFirstFrame` | game.js:218-224 | on a canvas at least 62 wide and 1 tall, restart's first frame leaves the game running with score 0, exactly one pair, the tracker at the canvas width, the bird one frame into its fall, and gold and high score carried over |
| `Game.PlayPause` | game.js:204-216 | during a round the pause flag toggles; from the menu the game ends unpaused with a non-negative score; gold and high score never fall |
| `Game.PauseFreezes` | game.js:211-213 | pausing a running game only raises the pause flag, and later frames change nothing |
| `Game.ResumeRunsOneFrame` | game.js:211-214 | resuming clears the pause flag and runs exactly one frame |
| `Game.PlayFromMenuIsRestart` | game.js:204-209 | from the menu the play button does what restart does |
| `Game.NextSpawnWaitsForEmpty` | game.js:107 | after a frame that spawned, an unchanged canvas width spawns again only when the pipe list is empty |
| `Game.GoldPickupLeavesHighScoreBehind` | game.js:159-181 | a frame that only picks up a gold leaves score 5, gold 1 and high score 0 |
| `Game.StepInvariants` | game.js:204-238 | every action keeps the game from being paused without a round and never lowers the high score or the gold count |
| `Game.RunInvariants` | game.js:177-181 | over any sequence of frames and inputs the high score and the gold count never decrease |
| `Game.TickKeepsPairs` | game.js:53-60 | a frame on a roomy canvas keeps the pipe list a sequence of pairs |
| `Game.StepKeepsPairs` | game.js:204-238 | every action with real random draws on a roomy canvas keeps the pipe list a sequence of pairs |
| `Game.PlayPauseKeepsPairs` | game.js:204-216 | the play/pause button on a roomy canvas keeps the pipe list a sequence of pairs, in all three branches |
| `Game.RunKeepsPairs` | game.js:171-175 | over any run with such frames the pipe list stays a sequence of pairs, so each pair scores through its ceiling segment alone |

## Left out

- Drawing: `clearRect`, `drawBird`, `drawPipes`, `drawGolds` and every other canvas call, which only render the state.
- The page plumbing: DOM lookups, `textContent` updates, showing and hiding the menu, button labels.
- Browser storage: the stored high score is a start-up parameter of `Entities.Initial`. The write-through on every new high score is not modelled, and neither is the string-versus-number coercion of the stored value.
- Frame scheduling: `requestAnimationFrame` is not modelled; any frame is an `Animate` action. A frame that is not running is a no-op, which is how pausing and game over stop the loop. The model therefore allows every interleaving of frames and inputs, including the extra frames a second scheduling chain causes after restarting a running game.
- `resizeCanvas` and the resize listener: the canvas size is a parameter of every frame and handler.
- `Math.random`: its draws are parameters. The lemmas that need them assume draws in [0,1). The 30% chance is the comparison `goldRoll < 0.3`; probabilities are not modelled.
- Floating point: `real` is exact, so the rounding of 0.2 and of the gap centre in IEEE doubles is not modelled.
- The degenerate spawn range on a canvas shorter than gap + 2·minHeight is modelled as the source computes it. Only the range lemma and the pairing lemmas assume a tall enough canvas.
