/**
 * The robot's four facings and the two fixed rotation tables `moveBot` uses
 * for LEFT and RIGHT (src/index.ts:241-273), together with the unit step each
 * facing points along and the textual names the script and the log use.
 */
module Compass {
  import opened Results

  datatype Direction = North | East | South | West

  /** The LEFT table: a quarter turn counter-clockwise. */
  function TurnLeft(d: Direction): Direction {
    match d
    case North => West
    case East => North
    case South => East
    case West => South
  }

  /** The RIGHT table: a quarter turn clockwise. */
  function TurnRight(d: Direction): Direction {
    match d
    case North => East
    case East => South
    case South => West
    case West => North
  }

  /** Position of a facing on the clockwise compass, starting at NORTH; an
      independent reference for the two tables. */
  function Ordinal(d: Direction): (k: int)
    ensures 0 <= k < 4
  {
    match d
    case North => 0
    case East => 1
    case South => 2
    case West => 3
  }

  /** RIGHT adds one quarter turn modulo four, LEFT takes one away. */
  lemma TurnsFollowTheCompass(d: Direction)
    ensures Ordinal(TurnRight(d)) == (Ordinal(d) + 1) % 4
    ensures Ordinal(TurnLeft(d)) == (Ordinal(d) + 3) % 4
  {
  }

  /** LEFT and RIGHT undo each other. */
  lemma TurnsAreInverse(d: Direction)
    ensures TurnLeft(TurnRight(d)) == d
    ensures TurnRight(TurnLeft(d)) == d
  {
  }

  /** Four quarter turns either way come back to the start, and no fewer do:
      the rotations form a cycle of order four. */
  lemma FourTurnsAreIdentity(d: Direction)
    ensures TurnLeft(TurnLeft(TurnLeft(TurnLeft(d)))) == d
    ensures TurnRight(TurnRight(TurnRight(TurnRight(d)))) == d
    ensures TurnLeft(d) != d && TurnLeft(TurnLeft(d)) != d && TurnLeft(TurnLeft(TurnLeft(d))) != d
  {
  }

  /** The x-component of one step in facing `d`: EAST is +x, WEST is -x. */
  function DeltaX(d: Direction): int {
    match d
    case East => 1
    case West => -1
    case _ => 0
  }

  /** The y-component of one step in facing `d`: NORTH is +y, SOUTH is -y. */
  function DeltaY(d: Direction): int {
    match d
    case North => 1
    case South => -1
    case _ => 0
  }

  /** Each facing points along exactly one axis, by exactly one unit, and a
      half turn points the opposite way. */
  lemma StepIsUnit(d: Direction)
    ensures (DeltaX(d) == 0) != (DeltaY(d) == 0)
    ensures -1 <= DeltaX(d) <= 1 && -1 <= DeltaY(d) <= 1
    ensures DeltaX(TurnLeft(TurnLeft(d))) == -DeltaX(d)
    ensures DeltaY(TurnLeft(TurnLeft(d))) == -DeltaY(d)
  {
  }

  /** The spelling of a facing, as the Direction enum gives it. */
  function Name(d: Direction): string {
    match d
    case North => "NORTH"
    case East => "EAST"
    case South => "SOUTH"
    case West => "WEST"
  }

  /** Reads a facing from its exact, upper-case name; anything else is `None`. */
  function ParseDirection(s: string): (r: Option<Direction>)
    ensures forall d :: r == Some(d) <==> s == Name(d)
  {
    if s == "NORTH" then Some(North)
    else if s == "EAST" then Some(East)
    else if s == "SOUTH" then Some(South)
    else if s == "WEST" then Some(West)
    else None
  }

  /** A name never contains a space or a comma, and is never empty. */
  lemma NameIsOneToken(d: Direction)
    ensures Name(d) != ""
    ensures ' ' !in Name(d) && ',' !in Name(d)
  {
  }
}
