/** The side a page belongs to, with the rotation constants of that side. */
module PageDirection {

  /** The hinge point of a rotation; only the two edges the book uses. */
  datatype UnitPoint = Leading | Trailing

  /** Angle of a page turned all the way over, in degrees. */
  const MaxAngle: real := 180.0
  /** Resting tilt of a top page, in degrees. */
  const InitialPageAngle: real := 10.0

  datatype PageDirectionType = Left | Right {

    predicate IsLeft() {
      this == Left
    }

    /** The other side of the spread. */
    function Mirror(): PageDirectionType {
      match this
      case Left => Right
      case Right => Left
    }

    /** +1 for the left page, -1 for the right one: the sign of its angles. */
    function Sign(): real {
      match this
      case Left => 1.0
      case Right => -1.0
    }

    function DefaultAngle(): real {
      match this
      case Left => InitialPageAngle
      case Right => -InitialPageAngle
    }

    function MoveMaxAngle(): real {
      match this
      case Left => MaxAngle - DefaultAngle() * 2.0
      case Right => -MaxAngle + -DefaultAngle() * 2.0
    }

    /** The edge the page rotates about: the spine of the book. */
    function Anchor(): UnitPoint {
      match this
      case Left => Trailing
      case Right => Leading
    }
  }

  /** The constants of the two sides, and `isLeft`. */
  lemma DirectionConstants()
    ensures Left.DefaultAngle() == 10.0 && Right.DefaultAngle() == -10.0
    ensures Left.MoveMaxAngle() == 160.0 && Right.MoveMaxAngle() == -160.0
    ensures Left.Anchor() == Trailing && Right.Anchor() == Leading
    ensures Left.IsLeft() && !Right.IsLeft()
  {
  }

  /** The right page's constants are the left page's, negated; both hinge on the spine. */
  lemma DirectionMirrored(d: PageDirectionType)
    ensures d.Mirror().DefaultAngle() == -d.DefaultAngle()
    ensures d.Mirror().MoveMaxAngle() == -d.MoveMaxAngle()
    ensures d.Mirror().Anchor() != d.Anchor()
    ensures d.Mirror().IsLeft() != d.IsLeft()
    ensures d.DefaultAngle() == d.Sign() * InitialPageAngle
  {
  }

  /**
   * A full turn starts at the resting tilt and ends short of flat by the same
   * tilt: default + move == sign * (MaxAngle - InitialPageAngle).
   */
  lemma FullTurnAngle(d: PageDirectionType)
    ensures d.DefaultAngle() + d.MoveMaxAngle() == d.Sign() * (MaxAngle - InitialPageAngle)
    ensures d.MoveMaxAngle() == d.Sign() * (MaxAngle - 2.0 * InitialPageAngle)
  {
  }
}
