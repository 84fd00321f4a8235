# Sugoroku and shooter cores, modelled in Dafny

The repository holds two small browser games. This project models the parts of
both that hold game logic, and proves properties of that model.

- **The board game (sugoroku).** Two players take turns rolling a die and walking a
  30-square board from START (square 0) to GOAL (square 29). Pass GOAL and you stop
  on it. Squares carry events: advance, retreat, skip a turn, roll again, swap
  places, or nothing.
  - The event registry (`src/config/eventRegistry.js`) is a keyed table of events.
    It supports validated registration, partial update, removal and a reset to the
    twelve built-in events.
  - The board configuration (`src/config/boardConfig.js`) is the table that maps
    each square to an event id. It also builds the per-square records.
  - The game state (`src/gameState.js`) is the turn machine: `rollDice`,
    `applyEvent`, `dismissEvent`, `resetGame`.
  - The view code (`src/app.js`) holds two computations. One is the snake-shaped
    order in which `renderBoard` lays the squares out on a 5-column grid. The other
    is the dot pattern `renderDice` draws.
- **The vertical shooter** (`Shooting/src/game.js`). The `Game` object runs a
  `start | playing | gameover` phase machine. Each frame its `update`:
  - moves the player and auto-fires;
  - moves bullets and enemies;
  - counts down the combo timer;
  - runs the bullet-versus-enemy pass, with combo scoring;
  - runs the enemy-versus-player pass;
  - compacts the entity arrays.

Modules follow the source files:

| module | file | source |
|---|---|---|
| `Optional` | `common.dfy` | stands for `null` and for a thrown `Error` |
| `Seqs` | `common.dfy` | `Array.prototype.map` and `filter` |
| `Registry` | `registry.dfy` | the event registry |
| `Board` | `board.dfy` | the board configuration |
| `Sugoroku` | `sugoroku.dfy` | the game state |
| `BoardView` | `boardview.dfy` | the layout and the die face of the view |
| `Shooter` | `shooter.dfy` | the shooter's `Game` |

Code that changes state is modelled as classes with `modifies` frames:
- `Registry.EventRegistry`, `Board.BoardConfig` and `Sugoroku.GameState` hold the
  fields those modules update in place.
- `Shooter.Game` works the same way. Each of its methods is proved equal to a
  function on the value `World`: `Update` equals `Tick`, `BulletPass` equals
  `BulletPassFrom`, and so on. The game's properties are then lemmas about those
  functions.
- The layout loop of `renderBoard` becomes the method `OrderSquares`. It slices
  arrays and reverses them in place (`Slice`, `ReverseInPlace`). It is proved equal
  to the function `Snake`, and `Snake` is proved to be a permutation of the board.

The model follows the code, not the comments. One comment in `renderBoard` does not
match the code:
- The comment says the layout runs "from the bottom up" and counts rows from the
  bottom.
- The code computes `rowFromBottom = rows - 1 - row`. That is zero for the row drawn
  first, which is the top row of the grid.
- So on the 30-square board, row 0 (squares 0 to 4) is drawn last and reversed.
  START ends up in the bottom-right cell.

`StartCorner` proves this: the first cell drawn is square 25 and the last is
square 0.

`Math.ceil(squares.length / cols)` is modelled on integers. `Rows` is defined by
repeated subtraction. `RowsIsCeiling` proves it equal to `(n + cols - 1) / cols`,
which is what `RowCount` computes.

## Model

| member | source | states |
|---|---|---|
| Seqs.MapAllAppend | Shooting/src/game.js:139-143 | mapping a concatenation is concatenating the mapped parts: updating the enemies after the spawned ones are appended updates the old enemies and the new ones alike |
| Seqs.Filter | Shooting/src/game.js:136 | no longer than its input; every element it keeps satisfies the predicate and was in the input |
| Seqs.FilterKeepsOrder | Shooting/src/game.js:136 | the result has exactly one entry per kept element, and the kept element at index `i` sits at its rank among the kept elements (order is preserved) |
| Seqs.FilterAppend | Shooting/src/game.js:136 | filtering a concatenation is concatenating the filtered parts |
| Seqs.FilterAllKept | Shooting/src/game.js:209 | filtering an array whose elements are all kept returns it unchanged |
| Seqs.FilterIdempotent | Shooting/src/game.js:209 | filtering twice is filtering once |
| Registry.DefaultIdsNonEmpty | src/config/eventRegistry.js:21-34 | no built-in id is the empty string |
| Registry.DefaultIdsDistinct | src/config/eventRegistry.js:21-34 | the twelve built-in ids are pairwise different |
| Registry.TableOf | src/config/eventRegistry.js:37-39 | the keys of the table built by successive `set` are exactly the ids of the registered events |
| Registry.TableOfLookup | src/config/eventRegistry.js:37-39 | with pairwise different ids, every registered event is stored under its own id |
| Registry.DefaultTableContents | src/config/eventRegistry.js:21-39 | after loading the defaults the table has exactly the built-in ids as keys, twelve of them, each mapped to its event |
| Registry.DistinctListingSize | src/config/eventRegistry.js:58-60 | a repetition-free key listing has as many entries as the table has keys |
| Registry.Merge | src/config/eventRegistry.js:83 | `{ ...existing, ...updates }`: each field comes from the update when present, from the stored event otherwise; its properties are the three lemmas below |
| Registry.MergeNoChange | src/config/eventRegistry.js:83 | an update object with no field gives back the stored event |
| Registry.MergeIdempotent | src/config/eventRegistry.js:83 | applying the same update twice is applying it once |
| Registry.MergeKeepsKeyed | src/config/eventRegistry.js:78-84 | storing the merge under the old key keeps every event's id equal to its key exactly when the update leaves `id` absent or repeats it; an update with another `id` breaks that |
| Registry.PutKeepsKeyed | src/config/eventRegistry.js:70 | storing an event under its own id keeps every event's id equal to its key |
| Registry.TableOfKeyed | src/config/eventRegistry.js:37-39 | the table built by registering events one after another stores each under its own id |
| Registry.Without | src/config/eventRegistry.js:91 | the key listing after `delete` holds exactly the other keys |
| Registry.WithoutAbsent | src/config/eventRegistry.js:90-92 | deleting an unlisted key leaves the listing unchanged |
| Registry.WithoutDistinct | src/config/eventRegistry.js:90-92 | deleting a key keeps the listing free of repetitions |
| Registry.EventRegistry.constructor | src/config/eventRegistry.js:18-39 | a new registry holds the default table, with keys in built-in order |
| Registry.EventRegistry.Put | src/config/eventRegistry.js:70 | `Map.set`: the table maps the id to the event; a new key goes last in insertion order, a known key keeps its place |
| Registry.EventRegistry.LoadDefaults | src/config/eventRegistry.js:37-39 | loading the built-in events into an empty registry gives the default table and order |
| Registry.EventRegistry.LoadAll | src/config/eventRegistry.js:37-39 | the registration loop: after it the table is the one built by successive `set` and the order lists the ids as registered |
| Registry.EventRegistry.GetEvent | src/config/eventRegistry.js:49-52 | returns an event exactly when the id is registered, and then the stored one |
| Registry.EventRegistry.GetAllEvents | src/config/eventRegistry.js:58-60 | one entry per registered event, in insertion order, each the stored event; every registered id is listed |
| Registry.EventRegistry.RegisterEvent | src/config/eventRegistry.js:66-71 | fails, changing nothing, when id, name or type is empty; otherwise stores the event under its id (adding or overwriting), a new id going last in the order and a known id keeping its place; the table stays keyed by id |
| Registry.EventRegistry.UpdateEvent | src/config/eventRegistry.js:78-84 | fails, changing nothing, for an unknown id; otherwise replaces the stored event by the merge, keeping the order; a table keyed by id stays so exactly when the update leaves `id` absent or repeats it |
| Registry.EventRegistry.RemoveEvent | src/config/eventRegistry.js:90-92 | the id is gone, every other id looks up as before, and an unknown id changes nothing |
| Registry.EventRegistry.Reset | src/config/eventRegistry.js:97-102 | from any state, the registry holds exactly the twelve defaults again, each under its own id |
| Board.DefaultSquareEvents | src/config/boardConfig.js:12-43 | thirty entries, square `k` holding the id the source assigns to it |
| Board.DefaultSquareIds | src/config/boardConfig.js:10-43 | START and GOAL have no event; every other square has one of the built-in ids |
| Board.DefaultSquaresRegistered | src/config/boardConfig.js:12-43 | every square between START and GOAL has a non-empty id that the default registry knows |
| Board.Decimal | src/config/boardConfig.js:93 | the text of a number is non-empty and made of decimal digits |
| Board.DecimalRoundTrip | src/config/boardConfig.js:93 | reading back the decimal text of `n` gives `n` |
| Board.LabelsDistinct | src/config/boardConfig.js:90-93 | different squares get different labels |
| Board.BoardConfig.constructor | src/config/boardConfig.js:12-43 | the table starts as the default assignment |
| Board.BoardConfig.GetEventId | src/config/boardConfig.js:56-58 | an id is returned exactly when the index is on the board and its entry is a non-empty string, and then it is that entry |
| Board.BoardConfig.GetSquareEvent | src/config/boardConfig.js:65-69 | no event without an id; with one it is the registry's lookup, so any event returned is the registered event of the square's id |
| Board.BoardConfig.SetSquareEvent | src/config/boardConfig.js:76-81 | fails, changing nothing, outside 0..29; otherwise changes that one entry and nothing else |
| Board.BoardConfig.GetAllSquares | src/config/boardConfig.js:87-104 | thirty records in board order, each with its index, raw id, looked-up event, start and goal flags and label |
| Board.InitialSquareEvents | src/config/boardConfig.js:65-69 | on the initial board and registry, a square has an event exactly when it lies strictly between START and GOAL |
| Sugoroku.Next | src/gameState.js:86 | the next player is the other one of the two |
| Sugoroku.NextAlternates | src/gameState.js:205 | passing the turn twice gives it back |
| Sugoroku.Landing | src/gameState.js:114-118 | a forward move ends on GOAL exactly when it reaches or passes it, and otherwise at `pos + steps` |
| Sugoroku.Retreated | src/gameState.js:180-181 | a backward move ends on START exactly when it reaches or passes it, and otherwise at `pos - steps` |
| Sugoroku.LandingOnBoard | src/gameState.js:114-126 | a roll from a square before GOAL lands strictly further on and still on the board |
| Sugoroku.Steps | src/gameState.js:121-125 | the squares of the walk are `from + 1` up to `to`, one per step |
| Sugoroku.StepsIncreasing | src/gameState.js:121-125 | the walk starts next to the start square, ends on the target and strictly increases |
| Sugoroku.NegativeAdvanceLeavesBoard | src/gameState.js:164-168 | an ADVANCE event with effect -3 moves a piece from square 1 to square -2, off the board |
| Sugoroku.GameState.constructor | src/gameState.js:10-22 | the initial record: both pieces on START, player 1 to move, waiting |
| Sugoroku.GameState.RollDice | src/gameState.js:67-153 | ignored unless waiting and not over; a player marked to skip loses the turn without moving and the mark is cleared; otherwise the die value is recorded, the piece walks square by square to its landing square, and the result is a game over on GOAL, a shown event, or the next player's turn; pieces stay on the board |
| Sugoroku.GameState.Walk | src/gameState.js:120-126 | the piece is moved to each square after its own up to the target, in order, and ends on the target (or stays put if the target is not ahead) |
| Sugoroku.GameState.Arrive | src/gameState.js:129-152 | on GOAL the mover wins and the game is over; on a square with an event it is shown and the turn is kept; otherwise the turn passes |
| Sugoroku.GameState.ApplyEvent | src/gameState.js:158-208 | the new positions and skip flags for each event type, with clamping at GOAL and START; a win on GOAL ends the game; otherwise the event is cleared, play waits, and the turn passes except after a bonus; non-negative effects keep pieces on the board |
| Sugoroku.GameState.DismissEvent | src/gameState.js:213-219 | changes nothing unless an event is shown; otherwise the shown event is applied to the current player: the same new positions and skip flags per event type as `ApplyEvent`, die value and rolling flag kept, a win on GOAL ends the game with index and event kept, otherwise the event is cleared, play waits, and the turn passes except after a bonus |
| Sugoroku.GameState.ResetGame | src/gameState.js:224-237 | both pieces on START without a pending skip, player 1 to move, no die value, winner or event, waiting |
| BoardView.RowsCover | src/app.js:65 | the rows cover the board and the last one is not empty |
| BoardView.RowsIsCeiling | src/app.js:65 | the row count equals the ceiling of `n / cols` |
| BoardView.RowCount | src/app.js:65 | computes the row count with integer ceiling division |
| BoardView.RowBounds | src/app.js:69-70 | row `r` starts at `r * cols` inside the board, ends at `min(r * cols + cols, n)`, and the last row ends the board |
| BoardView.RowOf | src/app.js:69-71 | the row is the slice of the board from its start to its end |
| BoardView.ReversedAt | src/app.js:76 | element `k` of the reversed row is element `len - 1 - k` of the row |
| BoardView.ReversedPermutes | src/app.js:76 | reversing keeps the same elements |
| BoardView.ReverseInPlace | src/app.js:76 | `Array.prototype.reverse`: the array afterwards is the reverse of the array before |
| BoardView.Slice | src/app.js:71 | a fresh array holding the slice |
| BoardView.OrientedRow | src/app.js:69-77 | one pass of the loop: the row sliced out, reversed exactly when `rows - 1 - row` is odd |
| BoardView.Chunks | src/app.js:65-71 | one row per row of the board |
| BoardView.ChunkIs | src/app.js:68-71 | entry `r` of the rows is the slice for row `r` |
| BoardView.ChunksCover | src/app.js:68-71 | the rows, in board order, put back together are the board |
| BoardView.LayoutPermutes | src/app.js:74-78 | laying out rows, each possibly reversed, keeps the elements of those rows |
| BoardView.OrderSquares | src/app.js:64-79 | the ordering loop computes the snake layout |
| BoardView.SnakePermutes | src/app.js:64-79 | the layout shows every square exactly once: it has the board's length and is a permutation of it |
| BoardView.SnakeRows | src/app.js:68-78 | the layout is the rows above row `r`, then row `r` reversed exactly when `rows - 1 - r` is odd, then the rows below; the rows above fill the first `n - RowEnd(r)` places |
| BoardView.FirstDrawn | src/app.js:68-78 | the first square drawn is the first square of the last row |
| BoardView.LastDrawn | src/app.js:68-78 | the last square drawn is square 0 when row 0 is reversed, otherwise the last square of row 0 |
| BoardView.SixRows | src/app.js:65 | thirty squares in five columns make six rows; the last starts at square 25 and row 0 is reversed |
| BoardView.StartCorner | src/app.js:64-79 | on the 30-square board the first cell drawn is square 25 and the last cell is START |
| BoardView.DiceDots | src/app.js:121-128 | a dot list exists exactly for the values 1 to 6 |
| BoardView.DiceDotsShape | src/app.js:121-128 | each face lists as many distinct cells as its value, all inside the 3 by 3 grid |
| BoardView.RenderDice | src/app.js:140-153 | a falsy value draws the placeholder; otherwise a 3 by 3 grid with a dot exactly at the listed cells (none for a value without a list) |
| BoardView.FaceIs | src/app.js:148-153 | the grid drawn is the one that marks exactly the value's cells |
| BoardView.DiceFaceDots | src/app.js:145-153 | a value from 1 to 6 draws exactly that many dots; any other non-zero value draws an empty grid |
| Shooter.CollisionIsSharedInterior | Shooting/src/game.js:218-220 | for rectangles of positive size, `checkCollision` holds exactly when they share an interior point |
| Shooter.CollisionSymmetric | Shooting/src/game.js:218-220 | the test does not depend on the order of the rectangles |
| Shooter.TouchingIsNoCollision | Shooting/src/game.js:218-220 | rectangles that only share an edge do not collide |
| Shooter.Burst | Shooting/src/game.js:170-175 | `n` particles, each a fresh live one at the given point and colour |
| Shooter.FirstTarget | Shooting/src/game.js:154-178 | the first alive overlapping enemy from index `j` on, with none before it; none only when no such enemy exists |
| Shooter.FirstTargetIsFirst | Shooting/src/game.js:154-178 | an alive overlapping enemy with no such enemy before it is the one the bullet strikes |
| Shooter.Struck | Shooting/src/game.js:160-176 | a strike keeps the array lengths, the player, the phase and the high score |
| Shooter.StrikeEffects | Shooting/src/game.js:160-176 | a strike spends the bullet and stores the hit enemy; a kill adds one to the combo, reopens the window, does not lower the score and adds 18 particles; otherwise combo, timer, score and particles are unchanged |
| Shooter.KillScoring | Shooting/src/game.js:162-176 | a kill adds the enemy's score times a multiplier between 1 and 10, and appends exactly 18 particles after the existing ones |
| Shooter.BulletPassFrom | Shooting/src/game.js:152-180 | the bullet pass keeps the array lengths, the player, the phase and the high score |
| Shooter.BulletPassKeepsScoring | Shooting/src/game.js:152-180 | the bullet pass keeps score and combo non-negative and the timer within the window, with no combo once it is closed |
| Shooter.Collided | Shooting/src/game.js:189-204 | a collision keeps the enemy count and the bullets, and there is still a player |
| Shooter.CollisionEffects | Shooting/src/game.js:189-204 | the enemy is dead whatever `hit()` reports; a counted hit breaks the combo, adds exactly 20 particles and ends the round exactly when no life is left; an ignored hit changes neither combo, particles nor phase |
| Shooter.PlayerPassFrom | Shooting/src/game.js:183-206 | the player pass keeps the enemy count and the bullets |
| Shooter.PlayerPassOnlyKills | Shooting/src/game.js:183-206 | the player pass leaves each enemy as it was or marks it dead, and leaves the ones already passed untouched |
| Shooter.PlayerPassKeepsScoring | Shooting/src/game.js:183-206 | the player pass keeps the scoring invariant |
| Shooter.Prepared | Shooting/src/game.js:127-143 | after the moves of a playing frame there is still a player |
| Shooter.Tick | Shooting/src/game.js:120-216 | a frame keeps a playing round's player |
| Shooter.Run | Shooting/src/game.js:114-118 | a run of frames keeps a playing round's player |
| Shooter.IdleTick | Shooting/src/game.js:122-124 | outside a playing round a frame moves the stars and nothing else |
| Shooter.IdleRun | Shooting/src/game.js:114-124 | before a round or after it ends, any number of frames change only the stars |
| Shooter.TickKeepsScoring | Shooting/src/game.js:120-216 | every frame keeps the scoring invariant |
| Shooter.TickCompacts | Shooting/src/game.js:209-213 | after a playing frame the enemy and particle arrays hold only live entities |
| Shooter.DecayedTimer | Shooting/src/game.js:146-149 | the timer counts down to zero and no further; the combo breaks exactly when it drops from one to zero; nothing else changes |
| Shooter.ComboExpires | Shooting/src/game.js:146-149 | without new kills a combo is gone after at most as many frames as the timer shows (at most 90) |
| Shooter.ExpiryBeforeCollisions | Shooting/src/game.js:146-167 | the timer runs before the collision passes, so a kill on the frame the window closes starts a new combo of one |
| Shooter.EndedHiScore | Shooting/src/game.js:101-106 | `gameOver` sets the phase and keeps the larger of score and high score, changing it exactly when the score beat it; a second call changes nothing |
| Shooter.StartedFresh | Shooting/src/game.js:80-88 | `start` begins a playing round with zero score and combo, empty arrays and the old high score, so an ended round's score survives the restart |
| Shooter.ComboShownFromSecondKill | Shooting/src/game.js:256-261 | the combo counter is shown exactly from the second consecutive kill |
| Shooter.Game.constructor | Shooting/src/game.js:17-34 | a new game waits on the start screen with the stored high score, no player, empty arrays and 80 stars |
| Shooter.Game.Start | Shooting/src/game.js:80-99 | the new state is `start` applied to the old one with the new player |
| Shooter.Game.GameOver | Shooting/src/game.js:101-110 | the new state is `gameOver` applied to the old one |
| Shooter.Game.Spray | Shooting/src/game.js:170-175 | the particle loop appends exactly the burst |
| Shooter.Game.FindTarget | Shooting/src/game.js:154-179 | the inner scan returns the first alive enemy the bullet overlaps |
| Shooter.Game.Strike | Shooting/src/game.js:160-177 | the new state is the strike of bullet `i` on enemy `j` |
| Shooter.Game.BulletPass | Shooting/src/game.js:152-180 | the loop's new state is the bullet pass from the first bullet |
| Shooter.Game.Collide | Shooting/src/game.js:189-204 | the new state is the collision of enemy `j` with the player |
| Shooter.Game.PlayerPass | Shooting/src/game.js:183-206 | the loop's new state is the player pass from the first enemy |
| Shooter.Game.Prepare | Shooting/src/game.js:127-143 | the new state is the moves of a playing frame |
| Shooter.Game.Decay | Shooting/src/game.js:146-149 | the new state is one step of the combo timer |
| Shooter.Game.Sweep | Shooting/src/game.js:209-213 | the new state is the end-of-frame compaction |
| Shooter.Game.Update | Shooting/src/game.js:120-216 | the new state is one frame of the value model |

## Left out

- Browser I/O is not modelled: the DOM, the canvas drawing (`draw`, `resize`, `updateUI` text), `requestAnimationFrame`, `localStorage` and the event listeners. The stored high score is a constructor parameter, and saving it is not modelled.
- Randomness is an input only where it enters through `rollDice`, the star constructor and the spawner. `Math.random` in `rollDice` becomes the `dice` parameter (1 to 6). The star constructor becomes the `makeStar` parameter. The spawner's yield becomes `Frame.spawned`.
- The random state drawn inside the entity classes is dropped. The model leaves out each particle's random angle, speed, `decay` and size, an enemy's random `wobblePhase`, and the random x a star takes when it wraps to the top. A `Particle` holds only its position, colour and `alive` flag, so all particles of one burst are equal values: in the model they move and fade together and vanish on the same frame, where in the source they fade one by one.
- The entity classes and the spawner (`entities.js`, `spawner.js`) are not part of this model. Their behaviour enters each frame as the functions in `Shooter.Hooks`: movement, `canShoot`, `shoot`, `hit`. So the model proves nothing about how far entities move or when they die off screen.
- Coordinates are `real`. JavaScript's floating-point rounding is not modelled. Scores and counters are unbounded integers, because JavaScript numbers only lose precision beyond 2^53.
- The change listeners (`subscribe`, `notify`) and `getSnapshot` are left out. They only copy and broadcast the state.
- The registry and the board configuration are module-level singletons in the source. Here they are objects passed to the operations that use them.
- An event's `description` and `icon` are display text and are not modelled. The same goes for a player's name and colour and the skip notice's description.
- Sugoroku.GameState.RollDice: the `await` pauses are dropped, so each call is one synchronous transition. The ten random faces shown during the roll animation are not recorded; only the final value is. The skip branch's one-and-a-half-second display of the notice collapses into the final state. During that display the source has `phase` set to `'event'` with a `skip_turn` notice, so a click on OK would run `applyEvent`, mark the same player to skip again and pass the turn, after which the timeout passes it a second time; that race is not modelled either.
- Sugoroku.GameState.RollDice: the event branch stops with the event shown. The automatic `applyEvent` that the source runs after its delay is the separate transition `ApplyEvent`, the same transition `DismissEvent` makes. The race between that delayed call and a user's dismissal is not modelled.
- Sugoroku.GameState.ApplyEvent: the source's `player` argument is taken to be the current player, because both callers pass `players[currentPlayerIndex]`.
- Sugoroku.GameState.ApplyEvent: pieces are shown to stay on the board only for non-negative effect values. `registerEvent` does not check the value, and `NegativeAdvanceLeavesBoard` shows a piece leaving the board.
- The `isRolling` CSS class toggled by `renderDice` is not modelled.
- Objects are values. The source mutates entity objects in place, which the model expresses by replacing the array element. The registry stores and returns shallow copies (`{ ...event }`), so the nested `effect` object is shared between the built-in list, the stored event and every copy handed out by `getEvent` and `getAllEvents`.
- The shared `effect` object is not modelled: an event is a value here, and `effect` is its number. In the source a caller that changes `getEvent(id).effect.value` changes the stored event and the built-in list, after which `reset` no longer restores the original value.
- Shooter.KillScoring: the multiplier is stated as lying between 1 and 10. `Killed` defines it exactly as `min(combo, 10)`.
- The particles' own motion and fading are not modelled. `stepParticle` in `Hooks` is one function of the visible particle, so it cannot give the particles of one burst different paths or lifetimes.
