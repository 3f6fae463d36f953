# Catch the fly: game-state model

A Dafny model of the game logic of the "catch the fly" browser game
(`src/app/game/page.tsx`). The player presses start and flies appear on the
board. The player taps them one by one while a timer runs. When the board is
empty the game is complete, and the time is sent to a ranking service.

- `flies.dfy`, module `Flies`: a fly (`id`, `x`, `y`), the difficulty table
  `GAME_CONFIG`, spawning a batch of flies (`generateFlies`), and catching a
  fly (`catchFly`, a filter on the board list). These are functions, with
  lemmas about catching: idempotence, order, commuting, emptying, and catching
  a whole board one fly at a time.
- `motion.dfy`, module `Motion`: one animation frame. `MoveAxis` moves one
  coordinate and bounces it off the walls at 0 and 80. `StepFly` moves one fly
  and may give it a new random heading. Class `Animator` holds the state of one
  run of the animation effect: the `flyDirections` array, indexed by board
  position, and the `lastTime` reading. `Animate` runs one frame over the
  board with a `while` loop that updates that array in place.
- `session.dfy`, module `Session`: class `Game` holds the page's state
  (`isPlaying`, `gameComplete`, `time`, `flies`) and a log of the saves
  issued. Its methods are the start button, one timer tick, a tap on a fly,
  an animation frame and the completion effect. Every method keeps
  `Game.Valid()`. Valid says the page is in one of three phases: idle, playing
  or complete. Flies are on the board only while playing; they stay inside
  the field and have distinct ids. At most one save is issued, and only on
  completion.

Randomness and clocks are parameters. Each `Math.random()` draw is a real
in `[0,1)` supplied by the caller: the spawn draws, the heading draws, and one
`Jitter` (chance, new dx draw, new dy draw) per fly per frame.
`performance.now()` and the frame timestamp are real parameters. Time is kept
as a whole number of tenths of a second, which is what the timer adds and
what `toFixed(1)` keeps.

Points of the code's behaviour that the model follows closely:
- Starting a game never clears `gameComplete`, and the start button is shown
  only while neither playing nor complete (page.tsx:173). So there is no
  second game on a page, and no "submission sent" flag exists. That at most
  one save is issued follows from the flags.
- Headings are not kept per fly id. `flyDirections` is indexed by board
  position, and it is drawn afresh each time the effect re-runs, which
  happens on every render: `GAME_CONFIG` is a new object on each render and
  is one of the effect's dependencies. `Animator` therefore takes its headings
  as input and is built by the caller for each run of the effect.
- Elapsed time comes from a 100 ms interval that adds 0.1 per tick, not from
  frame deltas.
- A difficulty key outside the table is possible through the URL. Then
  `startGame` sets `isPlaying` and `time` and fails while spawning, so the
  board stays empty and the next completion check ends the game at once.
  `StartGame` models this.

## Model

| member | source | states |
|---|---|---|
| `Flies.ConfigFor` | src/app/game/page.tsx:22-26 | exactly the keys easy, medium and hard are configured; each gives a positive fly count and speed |
| `Flies.DifficultyTable` | src/app/game/page.tsx:22-26 | easy gives (5, 0.7), medium (8, 1), hard (12, 1.5); a harder level has more and faster flies |
| `Flies.SpawnFlies` | src/app/game/page.tsx:43-51 | exactly `count` flies with ids 0..count-1 (so the ids are distinct); fly i sits at 80 times its two draws; draws in [0,1) put every fly in [0,80) on both axes |
| `Flies.CatchFly` | src/app/game/page.tsx:54-56 | the survivors are exactly the flies whose id differs; an absent id leaves the board unchanged; distinct ids stay distinct |
| `Flies.CatchFlyIdempotent` | src/app/game/page.tsx:54-56 | catching an id twice gives the same board as catching it once |
| `Flies.CatchFlyConcat` | src/app/game/page.tsx:55 | catching filters each part of the board separately, so the survivors keep their order |
| `Flies.CatchFlyCommutes` | src/app/game/page.tsx:55 | two catches give the same board in either order |
| `Flies.CatchFlyEmpties` | src/app/game/page.tsx:55 | a catch empties the board exactly when every fly on it has the caught id |
| `Flies.CatchPresent` | src/app/game/page.tsx:54-56 | with distinct ids, catching the fly at position i removes that fly only, and the board shrinks by one |
| `Flies.CatchInBoardOrder` | src/app/game/page.tsx:54-56 | catching the first k flies in turn leaves the rest of the board; the board is empty exactly after the last catch |
| `Motion.RandomHeading` | src/app/game/page.tsx:76-79 | a heading component drawn from [0,1) lies in [-0.025, 0.025) and is negative exactly for draws below 0.5 |
| `Motion.Clamp` | src/app/game/page.tsx:95 | the result lies in [0,80]; values already there are kept; values below or above go to 0 or 80 |
| `Motion.MoveAxis` | src/app/game/page.tsx:89-100 | the new coordinate is the clamp into [0,80] of the old one plus heading times elapsed time times speed; it ends at a wall exactly when that raw value is at most 0 or at least 80, and the heading is negated exactly then |
| `Motion.BounceTurnsInward` | src/app/game/page.tsx:93-100 | for a fly in the field and a frame forward in time, a bounce at 0 leaves a heading of at least 0 and a bounce at 80 one of at most 0 |
| `Motion.FrameRateIndependence` | src/app/game/page.tsx:84-90 | a fact of the per-axis rule under one heading: away from the walls, a move of a+b ms gives the same position and heading as a move of a ms then one of b ms (in the game, consecutive frames get fresh headings) |
| `Motion.StepFly` | src/app/game/page.tsx:87-112 | a fly keeps its id and ends in the field; each coordinate becomes the clamp of its old value plus heading times elapsed time times speed, and reaches a wall exactly when that raw value is at most 0 or at least 80; a chance draw below 0.01 replaces both heading components with fresh draws, otherwise a component is negated exactly when its axis ends at a wall |
| `Motion.Animator.constructor` | src/app/game/page.tsx:70-79 | one fresh heading per fly on the board, drawn from its pair of draws; `lastTime` is the clock at set-up |
| `Motion.Animator.Animate` | src/app/game/page.tsx:84-116 | with more than 16 ms elapsed, every fly and its heading are stepped with the heading at its board position, and `lastTime` becomes the frame time; otherwise nothing changes and `lastTime` stays; the board keeps its length and ids in order |
| `Session.Game.constructor` | src/app/game/page.tsx:14-17 | the page starts idle: not playing, not complete, time 0, no flies, no saves |
| `Session.Game.StartGame` | src/app/game/page.tsx:36-40 | the start button is shown only while idle (page.tsx:173); a press then starts play with time 0 and the difficulty's spawned flies (none for an unknown key); a press at any other time changes nothing |
| `Session.Game.Tick` | src/app/game/page.tsx:59-67 | the time grows by one tenth exactly when playing and not complete |
| `Session.Game.CatchFly` | src/app/game/page.tsx:54-56 | the board becomes the catch of the old board; the game invariant is kept |
| `Session.Game.Frame` | src/app/game/page.tsx:81-87 | a frame while playing moves the flies, keeping the board's length and ids and the flies in the field; otherwise nothing changes |
| `Session.Game.CheckCompletion` | src/app/game/page.tsx:136-147 | playing with an empty board completes the game and stops play, with the time frozen; the time is saved exactly when username and difficulty are both given; otherwise nothing changes |
| `Session.CompleteIsFinal` | src/app/game/page.tsx:173-180 | an example: after completion a start press, tick, tap, animation frame and completion check leave the game complete with the time, the saves and the empty board unchanged |
| `Session.CatchAllInOrder` | src/app/game/page.tsx:136-147 | tapping every fly in board order, with the completion check after each tap, completes the game on the last tap and no earlier one, with one save of the time on the clock when both parameters are given |

## Left out

- Rendering, Tailwind classes, the redirect home when a URL parameter is missing (page.tsx:150-153) and the `Suspense` wrapper: these are presentation and navigation.
- Scheduling: `requestAnimationFrame`, `setInterval`, effect clean-up and the order in which React re-runs effects. One frame, one tick, one tap and one completion check are each one atomic method call. Building a new `Animator` whenever the effect re-runs is left to the caller.
- The ranking service (`src/apis/ranking.ts`), `fetchRankings`, the `rankings` list and the `isLoading` flag: these are HTTP I/O. A save is recorded as an entry in `Game.saves`, and its outcome is not modelled.
- The home page form (`src/app/page.tsx`) is not part of this model.
- Floating point: the rounding error of adding 0.1 per tick and `toFixed(1)`. The time is an exact count of tenths, and positions and headings are exact reals.
- JavaScript property lookup on `GAME_CONFIG` with a key inherited from `Object` (such as `toString`). That lookup gives an empty board, not an error, and the model reaches the same empty board through `ConfigFor` returning `None`.
- Session.Game.Frame: states only that the board keeps its length and ids and stays in the field; the new positions are stated by `Motion.Animator.Animate`, which it calls.
