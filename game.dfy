/**
 * One keystroke of the game (src/game.rs): key dispatch, barrier check, the
 * move, the viewport that follows the player, the landing classification, the
 * quest event built from the cell under the player and the message state machine.
 *
 * The terminal window of the Rust code is reduced to three plain values: the
 * viewport origin, the pending message and whether the game has been ended.
 * The two water hooks of the player and the events handed to the quest are
 * recorded in logs so that what one keystroke does to them can be stated; the
 * in-water hook reads its log to decide its effect on the message.
 */
module Game {
  import opened Wrappers
  import opened Blocks
  import opened Coordinates
  import opened Players
  import opened GameQuests

  /** Width and height of the visible window, in cells. */
  const ViewportWidth: int := 77
  const ViewportHeight: int := 21

  /** The message texts that end the game on the next event. */
  const DrownedText: string := "You are drowned."
  const WinText: string := "YOU WIN!"

  /** The board: a sparse map from (x, y) to the block there; absent cells hold nothing. */
  type Board = map<(int, int), Block>

  /** The keys the game tells apart; `OtherKey` stands for every key not listed. */
  datatype KeyCode = Up | Down | Left | Right | Char(c: char) | OtherKey

  /** A terminal event: a plain key press, or anything else (modified keys, resizes, ...). */
  datatype GameEvent = Just(key: KeyCode) | NotSimple

  /** A message box: an optional title and a text. */
  datatype Message = Message(title: Option<string>, text: string)

  /** The two player hooks a committed move ends with. */
  datatype Hook = InWater | OutOfWater

  /**
   * What `move_in_water` does to the message: given every hook call so far (the
   * current one last) and the message before the call, the message after it. Its
   * body is not in src/player.rs, so it is a parameter; this is where a drowning
   * rule and its "You are drowned." text would live.
   */
  type WaterHook = (seq<Hook>, Option<Message>) -> Option<Message>

  /** Everything one keystroke can read or change. */
  datatype Session<S> = Session(
    position: Coordinate,
    viewport: Coordinate,
    message: Option<Message>,
    ended: bool,
    quest: S,
    hooks: seq<Hook>,
    events: seq<GameQuestEvent>)

  /** `get_quest_by_string`: "q1" and "q2" name their quests, anything else falls back to Q3. */
  function GetQuestByString(quest: string): (t: QuestTree)
    ensures t == GetQuest(Q1) <==> quest == "q1"
    ensures t == GetQuest(Q2) <==> quest == "q2"
    ensures t == GetQuest(Q3) <==> quest != "q1" && quest != "q2"
  {
    match quest
    case "q1" => GetQuest(Q1)
    case "q2" => GetQuest(Q2)
    case _ => GetQuest(Q3)
  }

  /** The movement an arrow key asks for; no movement for any other key. */
  function KeyOffset(key: KeyCode): (d: Option<Coordinate>)
    ensures d.Some? <==> key.Up? || key.Down? || key.Left? || key.Right?
    ensures d.Some? ==> IsUnitStep(d.value)
    ensures key.Up? ==> d == Some(UpOffset())
    ensures key.Down? ==> d == Some(DownOffset())
    ensures key.Left? ==> d == Some(LeftOffset())
    ensures key.Right? ==> d == Some(RightOffset())
  {
    match key
    case Up => Some(UpOffset())
    case Down => Some(DownOffset())
    case Left => Some(LeftOffset())
    case Right => Some(RightOffset())
    case _ => None
  }

  /** `get_current_block`: the block stored at a cell, if any. */
  function CurrentBlock(board: Board, c: Coordinate): (b: Option<Block>)
    ensures b.Some? <==> (c.x, c.y) in board
    ensures b.Some? ==> board[(c.x, c.y)] == b.value
  {
    if (c.x, c.y) in board then Some(board[(c.x, c.y)]) else None
  }

  /** `check_next_block_barrier`: the cell one offset away holds a `Barrier`. */
  predicate NextBlockIsBarrier(board: Board, position: Coordinate, offset: Coordinate)
    ensures NextBlockIsBarrier(board, position, offset) <==>
      var target := (position.x + offset.x, position.y + offset.y);
      target in board && board[target] == Barrier
  {
    CurrentBlock(board, Add(position, offset)) == Some(Barrier)
  }

  /** `check_if_in_viewport`: the position lies in [vx, vx + 77) x [vy, vy + 21). */
  predicate InViewport(viewport: Coordinate, position: Coordinate)
    ensures InViewport(viewport, position) <==>
      && 0 <= position.x - viewport.x < ViewportWidth
      && 0 <= position.y - viewport.y < ViewportHeight
  {
    && viewport.x <= position.x < viewport.x + ViewportWidth
    && viewport.y <= position.y < viewport.y + ViewportHeight
  }

  /**
   * The quest event for the cell under the player: `Collect` on an object,
   * `Walk` elsewhere, and an empty cell reported as a walk on `Barrier`.
   */
  function EventFor(cell: Option<Block>): (e: GameQuestEvent)
    ensures e.eventType == Collect <==> cell.Some? && cell.value.Object?
    ensures cell.Some? ==> e.block == cell.value
    ensures cell.None? ==> e == GameQuestEvent(Barrier, Walk)
  {
    var block := if cell.Some? then cell.value else Barrier;
    if block.Object? then GameQuestEvent(block, Collect) else GameQuestEvent(block, Walk)
  }

  /** A committed move by `offset`: step, let the viewport follow, classify the landing cell. */
  function Landing<S>(board: Board, inWater: WaterHook, s: Session<S>, offset: Coordinate): (r: Session<S>)
    ensures r.position == Add(s.position, offset)
    ensures r.viewport == s.viewport || r.viewport == Add(s.viewport, offset)
    ensures s.hooks <= r.hooks && |r.hooks| == |s.hooks| + 1
    ensures r.quest == s.quest && r.events == s.events && r.ended == s.ended
  {
    var position := Add(s.position, offset);
    var viewport := if InViewport(s.viewport, position) then s.viewport else Add(s.viewport, offset);
    var moved := s.(position := position, viewport := viewport);
    match CurrentBlock(board, position)
    case Some(Water) => moved.(hooks := s.hooks + [InWater], message := inWater(s.hooks + [InWater], s.message))
    case Some(Sign(text)) =>
      moved.(message := Some(Message(Some("Message"), text)), hooks := s.hooks + [OutOfWater])
    case _ => moved.(hooks := s.hooks + [OutOfWater])
  }

  /** `game_move`: non-arrow keys and moves onto a barrier change nothing. */
  function AfterMove<S>(board: Board, inWater: WaterHook, s: Session<S>, key: KeyCode): (r: Session<S>)
    ensures r.position == s.position || (KeyOffset(key).Some? && r.position == Add(s.position, KeyOffset(key).value))
    ensures r.position == s.position ==> r == s
    ensures r.quest == s.quest && r.events == s.events && r.ended == s.ended
  {
    match KeyOffset(key)
    case None => s
    case Some(offset) =>
      if NextBlockIsBarrier(board, s.position, offset) then s else Landing(board, inWater, s, offset)
  }

  /** The start of `on_event`: a pending game-over message ends the game, any other is dismissed. */
  function AfterPendingCheck<S>(s: Session<S>): (r: Session<S>)
    ensures r.position == s.position && r.viewport == s.viewport && r.quest == s.quest
    ensures r.hooks == s.hooks && r.events == s.events
    ensures r.message == s.message || r.message.None?
    ensures s.ended ==> r.ended
  {
    match s.message
    case None => s
    case Some(m) =>
      if m.text == DrownedText || m.text == WinText then s.(ended := true) else s.(message := None)
  }

  /** Whether an event goes through the move-and-register branch of `on_event`. */
  predicate RegistersEvent(event: GameEvent)
  {
    event.Just? && event.key != Char('q') && event.key != Char('r')
  }

  /** `on_event`: the whole effect of one terminal event. */
  function AfterEvent<S>(engine: QuestEngine<S>, board: Board, inWater: WaterHook, s: Session<S>, event: GameEvent): (r: Session<S>)
    ensures s.ended ==> r.ended
    ensures s.events <= r.events && |r.events| <= |s.events| + 1
    ensures s.hooks <= r.hooks && |r.hooks| <= |s.hooks| + 1
  {
    var checked := AfterPendingCheck(s);
    match event
    case NotSimple => checked
    case Just(key) =>
      if key == Char('q') then
        checked.(message := Some(Message(Some("Quest"), engine.display(checked.quest))))
      else if key == Char('r') then
        checked.(quest := engine.reset(checked.quest))
      else
        var moved := AfterMove(board, inWater, checked, key);
        var e := EventFor(CurrentBlock(board, moved.position));
        var outcome := engine.register(moved.quest, e);
        var registered := moved.(quest := outcome.0, events := moved.events + [e]);
        if outcome.1 == Complete then
          registered.(message := Some(Message(Some("Quest"), WinText)))
        else
          registered
  }

  /** A run of terminal events, one after the other. */
  function Run<S>(engine: QuestEngine<S>, board: Board, inWater: WaterHook, s: Session<S>, events: seq<GameEvent>): Session<S>
    decreases |events|
  {
    if events == [] then s else Run(engine, board, inWater, AfterEvent(engine, board, inWater, s, events[0]), events[1..])
  }

  /** How many events of a run go through the move-and-register branch. */
  function RegisteringCount(events: seq<GameEvent>): nat
  {
    if events == [] then 0
    else (if RegistersEvent(events[0]) then 1 else 0) + RegisteringCount(events[1..])
  }

  // ---------------------------------------------------------------------------
  // One movement step

  /** A non-arrow key, or an arrow towards a barrier, leaves everything as it was. */
  lemma RejectedMoveIsNoOp<S>(board: Board, inWater: WaterHook, s: Session<S>, key: KeyCode)
    requires KeyOffset(key).None? || NextBlockIsBarrier(board, s.position, KeyOffset(key).value)
    ensures AfterMove(board, inWater, s, key) == s
  {
  }

  /**
   * A committed move advances by exactly the key's unit offset, whether the target
   * cell is mapped or empty, calls exactly one water hook (the in-water one exactly
   * when landing on water), leaves the message to that hook on water, shows a
   * sign's text, keeps the message elsewhere, and touches nothing else.
   */
  lemma CommittedMoveIsOneStep<S>(board: Board, inWater: WaterHook, s: Session<S>, key: KeyCode)
    requires KeyOffset(key).Some? && !NextBlockIsBarrier(board, s.position, KeyOffset(key).value)
    ensures var r := AfterMove(board, inWater, s, key);
      && r.position == Add(s.position, KeyOffset(key).value)
      && Distance(r.position, s.position) == 1
      && r.hooks == s.hooks + [if CurrentBlock(board, r.position) == Some(Water) then InWater else OutOfWater]
      && r.message == (match CurrentBlock(board, r.position)
                       case Some(Water) => inWater(s.hooks + [InWater], s.message)
                       case Some(Sign(text)) => Some(Message(Some("Message"), text))
                       case _ => s.message)
      && r.ended == s.ended && r.quest == s.quest && r.events == s.events
  {
    UnitStepMovesOneCell(s.position, KeyOffset(key).value);
  }

  /**
   * After a committed move the viewport has shifted by exactly the offset iff the
   * new position lies outside the old window, and is unchanged otherwise.
   */
  lemma ViewportFollowsPlayer<S>(board: Board, inWater: WaterHook, s: Session<S>, key: KeyCode)
    requires KeyOffset(key).Some? && !NextBlockIsBarrier(board, s.position, KeyOffset(key).value)
    ensures var r := AfterMove(board, inWater, s, key);
      && (r.viewport == Add(s.viewport, KeyOffset(key).value) <==> !InViewport(s.viewport, r.position))
      && (r.viewport == s.viewport <==> InViewport(s.viewport, r.position))
  {
    UnitStepMovesOneCell(s.viewport, KeyOffset(key).value);
  }

  /** A player inside the window before a keystroke's move is inside it afterwards. */
  lemma MoveKeepsPlayerVisible<S>(board: Board, inWater: WaterHook, s: Session<S>, key: KeyCode)
    requires InViewport(s.viewport, s.position)
    ensures var r := AfterMove(board, inWater, s, key); InViewport(r.viewport, r.position)
  {
  }

  // ---------------------------------------------------------------------------
  // One terminal event

  /**
   * At the start of every event a pending "You are drowned." or "YOU WIN!" ends the
   * game and stays on screen; any other pending message is dismissed.
   */
  lemma PendingMessageHandling<S>(s: Session<S>)
    ensures var r := AfterPendingCheck(s);
      && r.position == s.position && r.viewport == s.viewport && r.quest == s.quest
      && (r.ended <==> s.ended || (s.message.Some? && s.message.value.text in {DrownedText, WinText}))
      && r.message == (if r.ended && !s.ended then s.message
                       else if s.message.Some? && s.message.value.text in {DrownedText, WinText} then s.message
                       else None)
  {
  }

  /**
   * Every key but 'q' and 'r' registers exactly one event, built from the cell under
   * the player after the move: also for non-arrow keys and for moves a barrier stopped.
   */
  lemma EventFromLandingCell<S>(engine: QuestEngine<S>, board: Board, inWater: WaterHook, s: Session<S>, event: GameEvent)
    ensures var r := AfterEvent(engine, board, inWater, s, event);
      && (RegistersEvent(event) ==>
            r.events == s.events + [EventFor(CurrentBlock(board, r.position))])
      && (!RegistersEvent(event) ==> r.events == s.events)
  {
  }

  /** A key that does not move the player still reports the cell the player stands on. */
  lemma StationaryKeyStillRegisters<S>(engine: QuestEngine<S>, board: Board, inWater: WaterHook, s: Session<S>, key: KeyCode)
    requires key != Char('q') && key != Char('r')
    requires KeyOffset(key).None? || NextBlockIsBarrier(board, s.position, KeyOffset(key).value)
    ensures var r := AfterEvent(engine, board, inWater, s, Just(key));
      && r.position == s.position && r.viewport == s.viewport
      && r.events == s.events + [EventFor(CurrentBlock(board, s.position))]
      && r.quest == engine.register(s.quest, EventFor(CurrentBlock(board, s.position))).0
  {
    RejectedMoveIsNoOp(board, inWater, AfterPendingCheck(s), key);
  }

  /** 'q' shows the quest's text and 'r' resets the quest; neither moves nor registers. */
  lemma QuestKeysDoNotMove<S>(engine: QuestEngine<S>, board: Board, inWater: WaterHook, s: Session<S>)
    ensures var r := AfterEvent(engine, board, inWater, s, Just(Char('q')));
      && r.position == s.position && r.viewport == s.viewport && r.events == s.events
      && r.hooks == s.hooks && r.quest == s.quest
      && r.message == Some(Message(Some("Quest"), engine.display(s.quest)))
    ensures var r := AfterEvent(engine, board, inWater, s, Just(Char('r')));
      && r.position == s.position && r.viewport == s.viewport && r.events == s.events
      && r.hooks == s.hooks && r.quest == engine.reset(s.quest)
  {
  }

  /** Whenever the quest reports `Complete`, the message becomes "YOU WIN!", however often. */
  lemma CompletionAnnouncesWin<S>(engine: QuestEngine<S>, board: Board, inWater: WaterHook, s: Session<S>, key: KeyCode)
    requires key != Char('q') && key != Char('r')
    ensures var moved := AfterMove(board, inWater, AfterPendingCheck(s), key);
      var outcome := engine.register(moved.quest, EventFor(CurrentBlock(board, moved.position)));
      var r := AfterEvent(engine, board, inWater, s, Just(key));
      && r.quest == outcome.0
      && (outcome.1 == Complete ==> r.message == Some(Message(Some("Quest"), WinText)))
      && (outcome.1 != Complete ==> r.message == moved.message)
  {
  }

  /** One event moves the player by at most one cell and keeps a visible player visible. */
  lemma EventStep<S>(engine: QuestEngine<S>, board: Board, inWater: WaterHook, s: Session<S>, event: GameEvent)
    ensures var r := AfterEvent(engine, board, inWater, s, event);
      && Distance(r.position, s.position) <= 1
      && (InViewport(s.viewport, s.position) ==> InViewport(r.viewport, r.position))
      && (s.ended ==> r.ended)
  {
    var checked := AfterPendingCheck(s);
    if event.Just? && RegistersEvent(event) {
      var offset := KeyOffset(event.key);
      if offset.Some? && !NextBlockIsBarrier(board, checked.position, offset.value) {
        CommittedMoveIsOneStep(board, inWater, checked, event.key);
      }
      if InViewport(checked.viewport, checked.position) {
        MoveKeepsPlayerVisible(board, inWater, checked, event.key);
      }
    }
  }

  /** An arrow key whose target is not a barrier moves the player and reports the landing cell. */
  lemma ArrowStepReportsLanding<S>(engine: QuestEngine<S>, board: Board, inWater: WaterHook, s: Session<S>, key: KeyCode)
    requires KeyOffset(key).Some? && !NextBlockIsBarrier(board, s.position, KeyOffset(key).value)
    ensures var r := AfterEvent(engine, board, inWater, s, Just(key));
      && r.position == Add(s.position, KeyOffset(key).value)
      && r.events == s.events + [EventFor(CurrentBlock(board, r.position))]
  {
    var checked := AfterPendingCheck(s);
    CommittedMoveIsOneStep(board, inWater, checked, key);
    EventFromLandingCell(engine, board, inWater, s, Just(key));
  }

  /**
   * Every leaf of every predefined quest waits for exactly the event that landing on
   * its target block produces, so no leaf waits for an event the game never builds.
   */
  lemma QuestLeavesAreProducible(q: GameQuest, leaf: QuestTree)
    requires LeafOf(leaf, GetQuest(q))
    ensures leaf.Atomic?
    ensures EventFor(Some(leaf.block)) == GameQuestEvent(leaf.block, leaf.eventType)
  {
    LeafCollectsExactlyObjects(leaf, GetQuest(q));
  }

  /**
   * From (3, 3) on a board with sand at (4, 3) and the object 'y' at (4, 4), moving
   * right reports a walk on sand and then moving down reports collecting 'y'.
   */
  lemma SandThenObjectScenario<S>(engine: QuestEngine<S>, inWater: WaterHook, quest: S)
    ensures var board := map[(3, 3) := Grass, (4, 3) := Sand, (4, 4) := Object('y')];
      var start := Session(StartPosition, Coordinate(0, 0), None, false, quest, [], []);
      var r := Run(engine, board, inWater, start, [Just(Right), Just(Down)]);
      && r.position == Coordinate(4, 4)
      && r.events == [GameQuestEvent(Sand, Walk), GameQuestEvent(Object('y'), Collect)]
  {
    var board := map[(3, 3) := Grass, (4, 3) := Sand, (4, 4) := Object('y')];
    var start := Session(StartPosition, Coordinate(0, 0), None, false, quest, [], []);
    assert !NextBlockIsBarrier(board, start.position, RightOffset());
    ArrowStepReportsLanding(engine, board, inWater, start, Right);
    var first := AfterEvent(engine, board, inWater, start, Just(Right));
    assert first.position == Coordinate(4, 3);
    assert CurrentBlock(board, first.position) == Some(Sand);
    assert first.events == [GameQuestEvent(Sand, Walk)];
    assert !NextBlockIsBarrier(board, first.position, DownOffset());
    ArrowStepReportsLanding(engine, board, inWater, first, Down);
    var second := AfterEvent(engine, board, inWater, first, Just(Down));
    assert second.position == Coordinate(4, 4);
    assert CurrentBlock(board, second.position) == Some(Object('y'));
    assert second.events == [GameQuestEvent(Sand, Walk), GameQuestEvent(Object('y'), Collect)];
    assert [Just(Right), Just(Down)][1..] == [Just(Down)];
    assert Run(engine, board, inWater, start, [Just(Right), Just(Down)]) == Run(engine, board, inWater, first, [Just(Down)]);
    assert Run(engine, board, inWater, first, [Just(Down)]) == Run(engine, board, inWater, second, []);
  }

  // ---------------------------------------------------------------------------
  // Runs of events

  /** Once ended, a game stays ended for any further events. */
  lemma {:induction false} EndedIsTerminal<S>(engine: QuestEngine<S>, board: Board, inWater: WaterHook, s: Session<S>, events: seq<GameEvent>)
    requires s.ended
    ensures Run(engine, board, inWater, s, events).ended
    decreases |events|
  {
    if events != [] {
      EventStep(engine, board, inWater, s, events[0]);
      EndedIsTerminal(engine, board, inWater, AfterEvent(engine, board, inWater, s, events[0]), events[1..]);
    }
  }

  /** A player that starts inside the window is inside it after any run of events. */
  lemma {:induction false} RunKeepsPlayerVisible<S>(engine: QuestEngine<S>, board: Board, inWater: WaterHook, s: Session<S>, events: seq<GameEvent>)
    requires InViewport(s.viewport, s.position)
    ensures var r := Run(engine, board, inWater, s, events); InViewport(r.viewport, r.position)
    decreases |events|
  {
    if events != [] {
      EventStep(engine, board, inWater, s, events[0]);
      RunKeepsPlayerVisible(engine, board, inWater, AfterEvent(engine, board, inWater, s, events[0]), events[1..]);
    }
  }

  /** A run of n events ends at most n cells (Manhattan) from where it started. */
  lemma {:induction false} RunDistanceBounded<S>(engine: QuestEngine<S>, board: Board, inWater: WaterHook, s: Session<S>, events: seq<GameEvent>)
    ensures Distance(Run(engine, board, inWater, s, events).position, s.position) <= |events|
    decreases |events|
  {
    if events != [] {
      var next := AfterEvent(engine, board, inWater, s, events[0]);
      EventStep(engine, board, inWater, s, events[0]);
      RunDistanceBounded(engine, board, inWater, next, events[1..]);
    }
  }

  /**
   * A run registers exactly one quest event per key other than 'q' and 'r', appended
   * after the events registered before it.
   */
  lemma {:induction false} RunRegistersOnePerKey<S>(engine: QuestEngine<S>, board: Board, inWater: WaterHook, s: Session<S>, events: seq<GameEvent>)
    ensures var r := Run(engine, board, inWater, s, events);
      && |r.events| == |s.events| + RegisteringCount(events)
      && s.events <= r.events
    decreases |events|
  {
    if events != [] {
      var next := AfterEvent(engine, board, inWater, s, events[0]);
      EventFromLandingCell(engine, board, inWater, s, events[0]);
      RunRegistersOnePerKey(engine, board, inWater, next, events[1..]);
    }
  }

  // ---------------------------------------------------------------------------
  // The game object

  /** The game: the player, the board, the quest and what the terminal shows. */
  class MyGame<S> {
    const player: Player
    const board: Board
    const engine: QuestEngine<S>
    const inWater: WaterHook
    var quest: S
    var viewport: Coordinate
    var message: Option<Message>
    var ended: bool
    var hooks: seq<Hook>
    ghost var events: seq<GameQuestEvent>

    /** The state one keystroke reads and writes. */
    ghost function State(): Session<S>
      reads this, player
    {
      Session(player.position, viewport, message, ended, quest, hooks, events)
    }

    /**
     * `MyGame::new` with the board already loaded: a default player and the quest
     * chosen by the selector string; the window starts at `viewport`.
     */
    constructor (board: Board, questKey: string, engine: QuestEngine<S>, inWater: WaterHook, viewport: Coordinate)
      ensures this.board == board && this.engine == engine && this.inWater == inWater && fresh(player)
      ensures player.icon == PlayerIcon
      ensures State() == Session(StartPosition, viewport, None, false, engine.build(GetQuestByString(questKey)), [], [])
    {
      player := new Player();
      this.board := board;
      this.engine := engine;
      this.inWater := inWater;
      quest := engine.build(GetQuestByString(questKey));
      this.viewport := viewport;
      message := None;
      ended := false;
      hooks := [];
      events := [];
    }

    /** `game_move`: one arrow key's movement, with the early returns of src/game.rs. */
    method GameMove(key: KeyCode)
      modifies this, player
      ensures State() == AfterMove(board, inWater, old(State()), key)
      ensures player.icon == old(player.icon)
    {
      ghost var before := State();
      var movement: Coordinate;
      match key {
        case Up => movement := UpOffset();
        case Down => movement := DownOffset();
        case Left => movement := LeftOffset();
        case Right => movement := RightOffset();
        case _ =>
          assert AfterMove(board, inWater, before, key) == before;
          return;
      }
      assert KeyOffset(key) == Some(movement);

      if NextBlockIsBarrier(board, player.GetPosition(), movement) {
        assert AfterMove(board, inWater, before, key) == before;
        return;
      }

      player.MoveBy(movement);

      if !InViewport(viewport, player.GetPosition()) {
        var location := viewport;
        location := location.(x := location.x + movement.x);
        location := location.(y := location.y + movement.y);
        viewport := location;
      }
      ghost var landed := Landing(board, inWater, before, movement);
      assert AfterMove(board, inWater, before, key) == landed;
      assert player.position == landed.position && viewport == landed.viewport;

      match CurrentBlock(board, player.GetPosition()) {
        case Some(Water) =>
          hooks := hooks + [InWater];
          message := inWater(hooks, message);
        case Some(Sign(text)) =>
          message := Some(Message(Some("Message"), text));
          hooks := hooks + [OutOfWater];
        case _ =>
          hooks := hooks + [OutOfWater];
      }
    }

    /** `on_event`: the message check, then 'q', 'r' or a move followed by one quest event. */
    method OnEvent(event: GameEvent)
      modifies this, player
      ensures State() == AfterEvent(engine, board, inWater, old(State()), event)
      ensures player.icon == old(player.icon)
    {
      if message.Some? {
        var text := message.value.text;
        if text == DrownedText || text == WinText {
          ended := true;
        } else {
          message := None;
        }
      }

      if event.Just? {
        var key := event.key;
        if key == Char('q') {
          message := Some(Message(Some("Quest"), engine.display(quest)));
        } else if key == Char('r') {
          quest := engine.reset(quest);
        } else {
          GameMove(key);
          var e := EventFor(CurrentBlock(board, player.GetPosition()));
          var outcome := engine.register(quest, e);
          quest := outcome.0;
          events := events + [e];
          if outcome.1 == Complete {
            message := Some(Message(Some("Quest"), WinText));
          }
        }
      }
    }
  }
}
