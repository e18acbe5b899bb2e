/** Quest events and the three predefined quest trees (src/game_quest.rs). */
module GameQuests {
  import opened Blocks

  /** The kind of a quest event, as the quest library defines it. */
  datatype EventType = Walk | Collect

  /** What a quest reports after taking in an event, as the quest library defines it. */
  datatype QuestStatus = InProgress | Complete

  /** The event handed to the quest: the block the player is on and what happened there. */
  datatype GameQuestEvent = GameQuestEvent(block: Block, eventType: EventType)
  {
    function GetType(): (t: EventType)
      ensures GameQuestEvent(block, t) == this
    {
      eventType
    }

    function GetBlock(): (b: Block)
      ensures GameQuestEvent(b, eventType) == this
    {
      block
    }
  }

  /**
   * The shape of a quest as it is built: a leaf counting matching events
   * (`threshold` events per cycle, `cycles` cycles), an ordered sequence of
   * sub-quests, or a choice needing `required` of its sub-quests.
   */
  datatype QuestTree =
    | Atomic(block: Block, eventType: EventType, threshold: nat, cycles: nat)
    | InOrder(children: seq<QuestTree>)
    | Choice(children: seq<QuestTree>, required: nat)

  /**
   * The quest library's behaviour over its own progress state `S`: building the
   * initial state of a tree, taking in one event, resetting, and the text shown
   * for the quest. Its internals are not part of this model.
   */
  datatype QuestEngine<!S> = QuestEngine(
    build: QuestTree -> S,
    register: (S, GameQuestEvent) -> (S, QuestStatus),
    reset: S -> S,
    display: S -> string)

  /** The predefined quests. */
  datatype GameQuest = Q1 | Q2 | Q3

  /** Every leaf counts at least one event per cycle and at least one cycle; every choice can be met. */
  predicate WellFormed(t: QuestTree)
  {
    match t
    case Atomic(_, _, threshold, cycles) => threshold >= 1 && cycles >= 1
    case InOrder(cs) => forall i :: 0 <= i < |cs| ==> WellFormed(cs[i])
    case Choice(cs, required) => required <= |cs| && forall i :: 0 <= i < |cs| ==> WellFormed(cs[i])
  }

  /** Every leaf waits for `Collect` exactly when its target block is an `Object`. */
  predicate CollectsExactlyObjects(t: QuestTree)
  {
    match t
    case Atomic(block, eventType, _, _) => eventType == Collect <==> block.Object?
    case InOrder(cs) => forall i :: 0 <= i < |cs| ==> CollectsExactlyObjects(cs[i])
    case Choice(cs, _) => forall i :: 0 <= i < |cs| ==> CollectsExactlyObjects(cs[i])
  }

  /** `leaf` is one of the atomic quests of `t`. */
  predicate LeafOf(leaf: QuestTree, t: QuestTree)
  {
    match t
    case Atomic(_, _, _, _) => leaf == t
    case InOrder(cs) => exists i :: 0 <= i < |cs| && LeafOf(leaf, cs[i])
    case Choice(cs, _) => exists i :: 0 <= i < |cs| && LeafOf(leaf, cs[i])
  }

  /** A tree in which every leaf collects exactly objects passes that on to each of its leaves. */
  lemma {:induction false} LeafCollectsExactlyObjects(leaf: QuestTree, t: QuestTree)
    requires CollectsExactlyObjects(t) && LeafOf(leaf, t)
    ensures leaf.Atomic? && (leaf.eventType == Collect <==> leaf.block.Object?)
  {
    match t
    case Atomic(_, _, _, _) =>
    case InOrder(cs) =>
      var i :| 0 <= i < |cs| && LeafOf(leaf, cs[i]);
      LeafCollectsExactlyObjects(leaf, cs[i]);
    case Choice(cs, _) =>
      var i :| 0 <= i < |cs| && LeafOf(leaf, cs[i]);
      LeafCollectsExactlyObjects(leaf, cs[i]);
  }

  /**
   * `get_guest`: the tree of each predefined quest.
   * Q1: walk on sand 5 times.
   * Q2: walk on sand 5 times, then collect 3 objects 'y'.
   * Q3: any 2 of: sand 5 times then object 'x' once; object 'y' once then grass once;
   *     water 9 times, 3 times over.
   */
  function GetQuest(q: GameQuest): (t: QuestTree)
    ensures WellFormed(t)
    ensures CollectsExactlyObjects(t)
  {
    match q
    case Q1 => Atomic(Sand, Walk, 5, 1)
    case Q2 => InOrder([
        Atomic(Sand, Walk, 5, 1),
        Atomic(Object('y'), Collect, 3, 1)
      ])
    case Q3 => Choice([
        InOrder([Atomic(Sand, Walk, 5, 1), Atomic(Object('x'), Collect, 1, 1)]),
        InOrder([Atomic(Object('y'), Collect, 1, 1), Atomic(Grass, Walk, 1, 1)]),
        Atomic(Water, Walk, 9, 3)
      ], 2)
  }
}
