# Adventure game keystroke model

A Dafny model of the core of a small terminal adventure game written in Rust.
A player walks over a sparse board of tiles. Every key press goes through one
step:

- a pending game-over message ends the game, and any other pending message is dismissed;
- 'q' shows the quest's text and 'r' resets the quest;
- every other key is handed to the movement step. An arrow key moves the player one
  cell unless a `Barrier` is in the way. The 77 x 21 viewport follows the player. The
  landing cell is classified as water, a sign or anything else;
- after the movement step one quest event is built from the cell under the player
  and given to the quest. A `Complete` answer sets the "YOU WIN!" message.

Modules, one per source file:

- `Blocks` (`block.dfy`): the `Block` tile type, its derived equality and its display text.
- `Coordinates` (`coordinate.dfy`): positions and the four unit offsets.
- `Players` (`player.dfy`): the `Player` class with its in-place `MoveBy`.
- `GameQuests` (`game_quest.dfy`): quest events and the three predefined quest trees.
- `Game` (`game.dfy`): the key step, in two forms:
  - pure functions `AfterPendingCheck`, `AfterMove` and `AfterEvent` over a `Session` value;
  - the `MyGame` class, whose `GameMove` and `OnEvent` methods update fields step by step,
    with the early returns of src/game.rs, and are proved equal to those functions.

  Lemmas about the functions state what one keystroke does. `Run` folds `AfterEvent`
  over a sequence of events, and further lemmas state what any run of events does.

The quest library (`AtomicQuest`, `InOrderQuest`, `ChoiceQuest`) belongs to a crate
outside this repository, so its behaviour is a parameter. `QuestEngine<S>` bundles
four total functions over an abstract progress state `S`: build from a tree,
register an event, reset and display. Nothing is assumed about them.

Four behaviours of the code are easy to misread, and the model follows the code in each:

- One might expect a move stopped by a barrier to produce no quest event. The code
  still builds and registers one for the cell the player stands on, and so it does for
  every non-arrow key other than 'q' and 'r' (src/game.rs:221-238).
  `StationaryKeyStillRegisters` states this.
- The win message is set every time the quest answers `Complete`, not only the
  first time (src/game.rs:241-248).
- Ending the game on a pending game-over message does not stop the rest of
  `on_event`: the key is still handled (src/game.rs:196-202).
- The shown src/player.rs has no submersion streak or drowning threshold. A move ends
  by calling one of two player hooks. `move_out_of_water()` gets no access to the game.
  `move_in_water(game)` gets the whole game (src/game.rs:71), and its body is not shown,
  so any drowning rule would live there. The model records which hook was called, and
  it gives the in-water hook's effect on the message as a parameter, `WaterHook`.

## Model

| member | source | states |
|---|---|---|
| `Blocks.SameBlock` | src/block.rs:2-13 | the derived equality holds exactly for the same variant with equal payload, i.e. it is structural equality |
| `Blocks.Display` | src/block.rs:15-26 | the display text is never empty, and it is "Other block" exactly for Barrier, Sign and Object |
| `Blocks.DisplayIsVariantName` | src/block.rs:17-24 | Grass, Sand, Rock, Cinderblock and Water, and only they, display as their variant name; Flowerbush displays as "Flowers" |
| `Blocks.DisplayNotInjective` | src/block.rs:24 | Barrier, every Sign and every Object share the text "Other block" although they are distinct blocks |
| `Coordinates.UpOffset` | src/coordinate.rs:9-11 | the up offset is a unit step with x = 0 and y negative |
| `Coordinates.DownOffset` | src/coordinate.rs:13-15 | the down offset is a unit step with x = 0 and y positive |
| `Coordinates.LeftOffset` | src/coordinate.rs:17-19 | the left offset is a unit step with x negative and y = 0 |
| `Coordinates.RightOffset` | src/coordinate.rs:21-23 | the right offset is a unit step with x positive and y = 0 |
| `Coordinates.OffsetsAreOpposite` | src/coordinate.rs:9-23 | down is the component-wise negation of up, right that of left |
| `Coordinates.OffsetsAreDistinct` | src/coordinate.rs:9-23 | the four offsets are pairwise different |
| `Coordinates.UnitStepIsManhattanOne` | src/coordinate.rs:9-23 | the unit-step test is exactly abs(x) + abs(y) = 1 |
| `Coordinates.UnitStepMovesOneCell` | src/coordinate.rs:9-23 | adding a unit step always changes a position, by Manhattan distance 1 |
| `Players.Player.constructor` | src/player.rs:14-20 | a new player stands at (3, 3) with icon U+2657 |
| `Players.Player.Default` | src/player.rs:8-12 | the default player is a fresh player at (3, 3) with icon U+2657 |
| `Players.Player.MoveBy` | src/player.rs:24-27 | the new position is `Add` of the old position and the offset (x' = x + dx, y' = y + dy); the icon is unchanged |
| `Players.Player.GetPosition` | src/player.rs:29-34 | returns a coordinate equal to the position, reading only |
| `Players.Player.GetX` | src/player.rs:36-38 | equals the x of `GetPosition`, reading only |
| `Players.Player.GetY` | src/player.rs:40-42 | equals the y of `GetPosition`, reading only |
| `Players.MoveByComposes` | src/player.rs:24-27 | moving by a then by b (two `MoveBy` steps, each an `Add`) lands where one move by (a.x + b.x, a.y + b.y) lands |
| `Players.MoveByUndone` | src/player.rs:24-27 | moving by d and then by -d restores the position |
| `GameQuests.GameQuestEvent.GetType` | src/game_quest.rs:16-18 | returns the stored event type: rebuilding the event from the stored block and this type gives the event back |
| `GameQuests.GameQuestEvent.GetBlock` | src/game_quest.rs:20-22 | returns the stored block: rebuilding the event from this block and the stored type gives the event back |
| `GameQuests.GetQuest` | src/game_quest.rs:40-79 | every tree has leaves with threshold >= 1 and cycles >= 1 and a choice count within its child count (Q3: 2 of 3); every leaf expects Collect exactly when its block is an Object |
| `GameQuests.LeafCollectsExactlyObjects` | src/game_quest.rs:42-74 | in a tree where Collect goes with Object, each leaf is atomic and expects Collect exactly for an Object block |
| `Game.GetQuestByString` | src/game.rs:15-21 | "q1" gives Q1's tree, "q2" Q2's, and every other string Q3's; each in both directions, and it never fails |
| `Game.KeyOffset` | src/game.rs:44-50 | exactly the four arrow keys give an offset, each a unit step: Up gives the up offset, Down the down offset, Left the left offset, Right the right offset |
| `Game.CurrentBlock` | src/game.rs:117-119 | a block is found exactly when the cell is a key of the board, and it is the block stored there |
| `Game.NextBlockIsBarrier` | src/game.rs:173-182 | true exactly when the cell at position + offset is on the board and holds Barrier; an empty target cell is never a barrier |
| `Game.InViewport` | src/game.rs:163-170 | true exactly when the position's offset from the viewport origin lies in [0, 77) x [0, 21) |
| `Game.Landing` | src/game.rs:57-80 | a committed move lands on position + offset, the viewport stays or shifts by the offset, exactly one hook is appended, and quest, events and ended are untouched |
| `Game.AfterMove` | src/game.rs:42-81 | the movement step either leaves the session exactly as it was or moves the player by the key's offset, and never touches quest, events or ended |
| `Game.AfterPendingCheck` | src/game.rs:196-202 | the message check keeps position, viewport, quest, hooks and events, either keeps or clears the message, and never un-ends the game |
| `Game.AfterEvent` | src/game.rs:193-252 | one event appends at most one quest event and at most one hook to the earlier logs, and never un-ends the game |
| `Game.EventFor` | src/game.rs:226-238 | the event type is Collect iff the cell holds an Object; a mapped cell's block is reported as is; an empty cell is a Walk on Barrier |
| `Game.RejectedMoveIsNoOp` | src/game.rs:44-55 | a non-arrow key, or an arrow whose target cell holds Barrier, changes neither position, viewport, message, hooks nor anything else |
| `Game.CommittedMoveIsOneStep` | src/game.rs:57-80 | otherwise the position becomes old position + offset (mapped or absent target), exactly one hook runs (in-water iff the landing block is Water), on Water the message is what the in-water hook makes of it, a Sign shows its text, elsewhere the message is kept, and quest, events and ended are untouched |
| `Game.ViewportFollowsPlayer` | src/game.rs:60-67 | after a committed move the viewport shifted by the offset iff the new position is outside the old window, and is unchanged iff it is inside |
| `Game.MoveKeepsPlayerVisible` | src/game.rs:163-170 | a player inside [vx, vx+77) x [vy, vy+21) before a movement step is inside the window after it |
| `Game.PendingMessageHandling` | src/game.rs:196-202 | a pending "You are drowned." or "YOU WIN!" sets ended and stays; any other pending message is cleared; position, viewport and quest are untouched |
| `Game.EventFromLandingCell` | src/game.rs:204-242 | every key other than 'q' and 'r' appends exactly one event, built from the cell under the player after the move; other events append none |
| `Game.StationaryKeyStillRegisters` | src/game.rs:221-242 | a non-arrow key or a barrier-rejected arrow leaves position and viewport alone but still registers the event for the cell the player stands on |
| `Game.QuestKeysDoNotMove` | src/game.rs:207-218 | 'q' sets the message to the quest's display text and 'r' resets the quest; neither moves the player, calls a hook or registers an event |
| `Game.CompletionAnnouncesWin` | src/game.rs:240-248 | whenever the quest answers Complete the message becomes "YOU WIN!", otherwise it is what the move left |
| `Game.ArrowStepReportsLanding` | src/game.rs:221-238 | an arrow key whose target cell is not a barrier moves the player by its offset and registers the event for the landing cell, whatever message was pending |
| `Game.QuestLeavesAreProducible` | src/game_quest.rs:42-74 | each leaf of each predefined quest waits for exactly the event that landing on its block produces |
| `Game.SandThenObjectScenario` | src/game.rs:221-238 | from (3, 3), right onto Sand then down onto Object('y') registers a Sand Walk then a 'y' Collect |
| `Game.EventStep` | src/game.rs:193-252 | one event moves the player at most one cell, keeps a visible player visible and never un-ends the game |
| `Game.EndedIsTerminal` | src/game.rs:196-199 | once ended, the game stays ended through any run of events |
| `Game.RunKeepsPlayerVisible` | src/game.rs:60-67 | a player inside the window at the start of any run of events is inside it at the end |
| `Game.RunDistanceBounded` | src/game.rs:42-81 | after n events the player is at most n cells (Manhattan) from the start |
| `Game.RunRegistersOnePerKey` | src/game.rs:204-249 | a run appends exactly one event per key other than 'q' and 'r', after the earlier events |
| `Game.MyGame.constructor` | src/game.rs:31-39 | a new game has a fresh default player, the quest built from the selector's tree, no message, not ended |
| `Game.MyGame.GameMove` | src/game.rs:42-81 | the new state is exactly `AfterMove` of the old state, and the icon is unchanged |
| `Game.MyGame.OnEvent` | src/game.rs:193-252 | the new state is exactly `AfterEvent` of the old state, and the icon is unchanged |

## Left out

- Loading the board from a RON file (src/map.rs) is I/O. The board is an immutable `map` given to the constructor, so the I/O error path of `MyGame::new` is not modelled.
- src/main.rs, the terminal run loop, is not part of this model.
- Screen drawing is not modelled: `init_map`, `init_player`, `remove_player_from_screen`, `add_player_to_screen`, colours, `on_start` and the empty `on_tick`. Of `move_player`, only the `move_by` call is kept. The terminal window is reduced to the viewport origin, the pending message and an ended flag.
- Quest-node behaviour is a parameter. `register_event`, `reset` and the display of the atomic, in-order and choice quests come from a library outside this repository. The model assumes no counter or index semantics.
- `move_in_water` and `move_out_of_water` are not part of this model: they are not defined in the shown src/player.rs. The model records which one a move calls. `move_out_of_water()` gets no game, so the model lets it change nothing the model tracks.
- `Game.Landing`: the in-water hook is a `WaterHook` parameter that maps the hook history and the message to a new message. It does not model other changes `move_in_water(game)` could make to the game (ending it, moving the viewport), nor a dependence on player state other than the hook history. `Game.CommittedMoveIsOneStep` and `Game.AfterEvent` inherit this.
- Positions and the viewport are `i32` in the source. The model uses unbounded `int`, so overflow at the edge of the `i32` range is not modelled.
- Key codes other than the four arrows and characters are collapsed into one `OtherKey`. Terminal events that are not plain key presses are collapsed into `NotSimple`. src/game.rs treats each group uniformly.
- `Game.MyGame.constructor` takes the initial viewport origin as a parameter, which `MyGame::new` does not have: in the Rust code the viewport belongs to the terminal window, which starts it at its own default.
- The `CoordinateController` trait is not modelled as a trait: its four methods are members of `Player`.
