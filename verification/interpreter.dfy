/**
 * The robot's state machine: `updateRobot` (src/index.ts:188-218) applying one
 * command to the robot's location and the instruction log, and `moveBot`
 * (src/index.ts:219-274) stepping or turning the robot.
 *
 * The source keeps the location and the log in two process-wide variables
 * (src/index.ts:17-18); here they are one immutable `State` passed in and
 * returned. The location starts undefined, so it is an `Option`.
 */
module Interpreter {
  import opened Results
  import opened Text
  import opened Compass
  import opened Grid

  /** The Command enum: the six words a user can choose or a script can say. */
  datatype Keyword = Place | Move | Left | Right | Report | Exit

  function KeywordName(k: Keyword): string {
    match k
    case Place => "PLACE"
    case Move => "MOVE"
    case Left => "LEFT"
    case Right => "RIGHT"
    case Report => "REPORT"
    case Exit => "EXIT"
  }

  /** Reads a keyword from its exact name; anything else is `None`. */
  function ParseKeyword(s: string): (r: Option<Keyword>)
    ensures forall k :: r == Some(k) <==> s == KeywordName(k)
  {
    if s == "PLACE" then Some(Place)
    else if s == "MOVE" then Some(Move)
    else if s == "LEFT" then Some(Left)
    else if s == "RIGHT" then Some(Right)
    else if s == "REPORT" then Some(Report)
    else if s == "EXIT" then Some(Exit)
    else None
  }

  /** What `updateRobot` is handed: placement answers (x, y and a facing) or
      a bare instruction. `Do(Place)` is the menu choice that only opens the
      placement prompts. */
  datatype Cmd = PlaceAt(x: int, y: int, facing: Direction) | Do(keyword: Keyword)

  /** The robot's location; `facing` is the source's `z`. */
  datatype Robot = Robot(x: int, y: int, facing: Direction)

  /** The robot's location, undefined until the first placement, and the
      instruction log `currentInstructions`. */
  datatype State = State(robot: Option<Robot>, log: seq<string>)

  const Initial: State := State(None, [])

  /** The commands that read the robot's location. */
  predicate NeedsRobot(c: Cmd) {
    c == Do(Move) || c == Do(Left) || c == Do(Right)
  }

  /** The commands `updateRobot` records in the log. */
  predicate Logged(c: Cmd) {
    c.PlaceAt? || NeedsRobot(c)
  }

  /** The log entry of a command: "PLACE x y FACING" or the keyword itself. */
  function CmdText(c: Cmd): string {
    match c
    case PlaceAt(x, y, d) =>
      KeywordName(Place) + " " + IntToString(x) + " " + IntToString(y) + " " + Name(d)
    case Do(k) => KeywordName(k)
  }

  /** The log entries a command adds: its own text once, or nothing. */
  function Entry(c: Cmd): seq<string> {
    if Logged(c) then [CmdText(c)] else []
  }

  predicate OnTable(r: Robot) {
    OnGrid(r.x, r.y)
  }

  /** The cell one step ahead of the robot, whether or not it is on the table. */
  function Ahead(r: Robot): Robot {
    Robot(r.x + DeltaX(r.facing), r.y + DeltaY(r.facing), r.facing)
  }

  /** MOVE: one step in the facing direction, unless the robot stands on the
      edge it faces. The facing never changes; a robot on the table stays on
      it, and it stays put exactly when the step ahead would leave the table.
      Only the faced edge is tested, so a robot off the table still steps
      whenever that one step does not cross it, whatever the other
      coordinate is. */
  function Advance(r: Robot): (r': Robot)
    ensures r'.facing == r.facing
    ensures r' == r || r' == Ahead(r)
    ensures OnTable(r) ==> OnTable(r')
    ensures OnTable(r) ==> (r' == Ahead(r) <==> OnTable(Ahead(r)))
    ensures r' == Ahead(r) <==>
      && (r.facing == North ==> Ahead(r).y <= MapY - 1)
      && (r.facing == East ==> Ahead(r).x <= MapX - 1)
      && (r.facing == South ==> Ahead(r).y >= 0)
      && (r.facing == West ==> Ahead(r).x >= 0)
  {
    match r.facing
    case North => if r.y < MapY - 1 then r.(y := r.y + 1) else r
    case East => if r.x < MapX - 1 then r.(x := r.x + 1) else r
    case South => if r.y > 0 then r.(y := r.y - 1) else r
    case West => if r.x > 0 then r.(x := r.x - 1) else r
  }

  /** Facing outward on an edge, MOVE leaves the robot where it is. */
  lemma EdgeIsANoOp(r: Robot)
    requires OnTable(r)
    requires r.facing == North ==> r.y == MapY - 1
    requires r.facing == East ==> r.x == MapX - 1
    requires r.facing == South ==> r.y == 0
    requires r.facing == West ==> r.x == 0
    ensures Advance(r) == r
  {
  }

  /** The corner cases: a robot in the south-west corner facing south, or in
      the north-east corner facing north, does not move. */
  lemma CornersHold()
    ensures Advance(Robot(0, 0, South)) == Robot(0, 0, South)
    ensures Advance(Robot(4, 4, North)) == Robot(4, 4, North)
    ensures Advance(Robot(0, 0, North)) == Robot(0, 1, North)
  {
    EdgeIsANoOp(Robot(0, 0, South));
    EdgeIsANoOp(Robot(4, 4, North));
  }

  /** A robot off the table, as `PLACE 9 9 SOUTH` in a script leaves it, still
      moves: facing south it only checks y > 0 and steps to (9, 8). */
  lemma OffTableRobotStillMoves()
    ensures !OnTable(Robot(9, 9, South))
    ensures Advance(Robot(9, 9, South)) == Robot(9, 8, South)
  {
  }

  /** The outcome of `updateRobot`: the new state, or the failure of reading
      the location before any placement. The source records the command in
      the log before it reads the location, so the failure carries the log
      with that entry. */
  datatype StepResult = Stepped(state: State) | NotPlaced(log: seq<string>) {
    function Log(): seq<string> {
      if Stepped? then state.log else log
    }
  }

  /** `updateRobot`: a placement replaces the location and is logged;
      MOVE, LEFT and RIGHT are logged and then change the location; every
      other instruction leaves both untouched. */
  function Step(s: State, c: Cmd): (r: StepResult)
    ensures r.NotPlaced? <==> s.robot.None? && NeedsRobot(c)
    ensures r.Log() == s.log + Entry(c)
    ensures !Logged(c) ==> r == Stepped(s)
    ensures r.Stepped? && Logged(c) ==> r.state.robot.Some?
    ensures r.Stepped? && c.PlaceAt? ==> r.state.robot.value == Robot(c.x, c.y, c.facing)
    ensures r.Stepped? && c == Do(Move) ==> r.state.robot.value == Advance(s.robot.value)
    ensures r.Stepped? && (c == Do(Left) || c == Do(Right)) ==>
      && r.state.robot.value.x == s.robot.value.x
      && r.state.robot.value.y == s.robot.value.y
      && r.state.robot.value.facing ==
         (if c == Do(Left) then TurnLeft(s.robot.value.facing) else TurnRight(s.robot.value.facing))
  {
    match c
    case PlaceAt(x, y, d) => Stepped(State(Some(Robot(x, y, d)), s.log + [CmdText(c)]))
    case Do(k) =>
      if !NeedsRobot(c) then Stepped(s)
      else
        var log := s.log + [CmdText(c)];
        match s.robot
        case None => NotPlaced(log)
        case Some(r) =>
          var r' :=
            if k == Move then Advance(r)
            else if k == Left then r.(facing := TurnLeft(r.facing))
            else r.(facing := TurnRight(r.facing));
          Stepped(State(Some(r'), log))
  }

  /** The invariant the table's edges protect: a robot on the table stays on
      it under every command except a placement off the table. A script can
      make one (`PLACE 9 9 NORTH`). So can the interactive prompts as the
      source writes them, since they check `parseFloat`'s reading of the text
      while `parseInt`'s is stored ("0x9" becomes 9). */
  lemma StepKeepsRobotOnTable(s: State, c: Cmd)
    requires s.robot.Some? ==> OnTable(s.robot.value)
    requires c.PlaceAt? ==> OnGrid(c.x, c.y)
    ensures Step(s, c).Stepped? && Step(s, c).state.robot.Some? ==> OnTable(Step(s, c).state.robot.value)
  {
  }

  /** A placement followed by REPORT shows exactly the placed location, and
      the log holds exactly the placement's text after what came before. */
  lemma PlaceThenReport(s: State, x: int, y: int, d: Direction)
    ensures Step(s, PlaceAt(x, y, d)).Stepped?
    ensures var s' := Step(s, PlaceAt(x, y, d)).state;
      && Step(s', Do(Report)) == Stepped(s')
      && s'.robot == Some(Robot(x, y, d))
      && s'.log == s.log + ["PLACE " + IntToString(x) + " " + IntToString(y) + " " + Name(d)]
  {
    assert KeywordName(Place) + " " == "PLACE ";
  }
}
