/** The player avatar and its position arithmetic (src/player.rs). */
module Players {
  import opened Coordinates

  /** Where every new player starts. */
  const StartPosition: Coordinate := Coordinate(3, 3)

  /** The white chess bishop, U+2657, drawn for the player. */
  const PlayerIcon: char := '\U{2657}'

  class Player {
    var icon: char
    var position: Coordinate

    /** `Player::new`. */
    constructor ()
      ensures icon == PlayerIcon && position == StartPosition
    {
      icon := PlayerIcon;
      position := StartPosition;
    }

    /** `Player::default`, which delegates to `new`. */
    static method Default() returns (p: Player)
      ensures fresh(p)
      ensures p.icon == PlayerIcon && p.position == StartPosition
    {
      p := new Player();
    }

    /** Adds the offset to the position component by component; the icon is untouched. */
    method MoveBy(offset: Coordinate)
      modifies this
      ensures position == Add(old(position), offset)
      ensures icon == old(icon)
    {
      position := position.(x := position.x + offset.x);
      position := position.(y := position.y + offset.y);
    }

    /** A copy of the current position. */
    function GetPosition(): (c: Coordinate)
      reads this
      ensures c.x == position.x && c.y == position.y
    {
      Coordinate(position.x, position.y)
    }

    function GetX(): (x: int)
      reads this
      ensures x == GetPosition().x
    {
      position.x
    }

    function GetY(): (y: int)
      reads this
      ensures y == GetPosition().y
    {
      position.y
    }
  }

  /** Two moves land where one move by the summed offset lands. */
  lemma MoveByComposes(p: Coordinate, a: Coordinate, b: Coordinate)
    ensures Add(Add(p, a), b) == Add(p, Coordinate(a.x + b.x, a.y + b.y))
  {
  }

  /** Moving by an offset and then by its negation restores the position. */
  lemma MoveByUndone(p: Coordinate, d: Coordinate)
    ensures Add(Add(p, d), Negate(d)) == p
  {
  }
}
