/**
 * The session controller: `askQuestions` (src/index.ts:103-141) hands each
 * set of answers to `updateRobot` and then decides which question to ask
 * next. The prompt library itself is not modelled; an answer is what it
 * hands back, and it only hands back what the current question offers (a
 * menu choice from the listed choices, coordinates its validators accept).
 * The placement prompts are modelled with the corrected validator, which
 * reads a coordinate exactly as `updateRobot` stores it.
 */
module Session {
  import opened Results
  import opened Text
  import opened Compass
  import opened Grid
  import opened Interpreter
  import opened Script
  import JavaScriptNumbers

  datatype PlayStyle = Manual | Scripted

  /** The question the program is waiting on, or how it ended. */
  datatype Prompt =
    | AskStyle             // startInterface: manual or scripted play
    | AskFirstInstruction  // firstQuestionInterface: PLACE or EXIT only
    | AskPlacement         // placementInterface: x, y and facing
    | AskInstruction       // instructionInterface and reportInterface: any keyword
    | Exited               // EXIT was chosen; exit code 0
    | ScriptFailed         // followScript's catch: unreadable file, or a command before any placement
    | Crashed              // an interactive MOVE, LEFT or RIGHT read the unplaced robot
    | OutsideModel         // a script placement whose location the model cannot represent

  /** One set of answers from the prompt library. For scripted play the answer
      carries the script file's text, or `None` when it cannot be read. */
  datatype Answer =
    | ChooseStyle(style: PlayStyle, script: Option<string>)
    | Choose(keyword: Keyword)
    | PlaceAnswers(x: string, y: string, facing: Direction)

  datatype Session = Session(prompt: Prompt, state: State)

  /** `startInterface`: the style question, no robot, an empty log. */
  const Start: Session := Session(AskStyle, Initial)

  /** The answers a question can produce. */
  predicate Offered(p: Prompt, a: Answer) {
    match p
    case AskStyle => a.ChooseStyle?
    case AskFirstInstruction => a == Choose(Place) || a == Choose(Exit)
    case AskInstruction => a.Choose?
    case AskPlacement => a.PlaceAnswers? && ValidateX(a.x).Accepted? && ValidateY(a.y).Accepted?
    case _ => false
  }

  /** `askQuestions`' callback: apply the answers, then pick the next question.
      A placement's log entry is built from the text the user typed, and its
      location is on the table; only MOVE, LEFT or RIGHT chosen while no robot
      is placed crashes; PLACE, REPORT and EXIT choices change neither the
      location nor the log. */
  function Respond(s: Session, a: Answer): (s': Session)
    requires Offered(s.prompt, a)
    ensures s'.prompt == Crashed <==> a.Choose? && s.state.robot.None? && NeedsRobot(Do(a.keyword))
    ensures a.PlaceAnswers? ==>
      && s'.prompt == AskInstruction
      && s'.state.robot.Some?
      && OnTable(s'.state.robot.value)
      && s'.state.robot.value.facing == a.facing
      && IntToString(s'.state.robot.value.x) == a.x
      && IntToString(s'.state.robot.value.y) == a.y
      && s'.state.log == s.state.log + ["PLACE " + a.x + " " + a.y + " " + Name(a.facing)]
    ensures a.Choose? && !NeedsRobot(Do(a.keyword)) ==> s'.state == s.state
    ensures a == Choose(Place) ==> s'.prompt == AskPlacement
    ensures a == Choose(Exit) ==> s'.prompt == Exited
    ensures a.Choose? && s'.prompt != Crashed ==> s'.state == Step(s.state, Do(a.keyword)).state
    ensures a.Choose? && a.keyword != Place && a.keyword != Exit && s'.prompt != Crashed ==> s'.prompt == AskInstruction
    ensures a.ChooseStyle? && a.style == Manual ==> s' == Session(AskFirstInstruction, s.state)
    ensures a == ChooseStyle(Scripted, None) ==> s' == Session(ScriptFailed, s.state)
    ensures a.ChooseStyle? && a.style == Scripted && a.script.Some? ==>
      var o := RunScript(s.state, a.script.value);
      && (o.Completed? <==> s'.prompt == AskInstruction)
      && (o.Aborted? <==> s'.prompt == ScriptFailed)
      && (o.Unmodelled? <==> s'.prompt == OutsideModel)
      && s'.state == o.state
  {
    match a
    case ChooseStyle(Manual, _) => Session(AskFirstInstruction, s.state)
    case ChooseStyle(Scripted, None) => Session(ScriptFailed, s.state)
    case ChooseStyle(Scripted, Some(text)) =>
      (match RunScript(s.state, text)
       case Completed(st) => Session(AskInstruction, st)
       case Aborted(st) => Session(ScriptFailed, st)
       case Unmodelled(st, _) => Session(OutsideModel, st))
    case Choose(k) =>
      (match Step(s.state, Do(k))
       case NotPlaced(log) => Session(Crashed, State(s.state.robot, log))
       case Stepped(st) =>
         var next := if k == Place then AskPlacement else if k == Exit then Exited else AskInstruction;
         Session(next, st))
    case PlaceAnswers(xs, ys, d) =>
      var x, y := ParseInt(xs).value, ParseInt(ys).value;
      ParseIntCanonical(xs);
      ParseIntCanonical(ys);
      assert KeywordName(Place) + " " == "PLACE ";
      Session(AskInstruction, Step(s.state, PlaceAt(x, y, d)).state)
  }

  /** A placement stores what `parseInt` reads from the typed text, as
      `updateRobot` does: on the spellings the prompts accept, the model's
      reading and `parseInt`'s agree. */
  lemma PlacementStoresParseInt(s: Session, a: Answer)
    requires Offered(s.prompt, a) && a.PlaceAnswers?
    ensures Some(Respond(s, a).state.robot.value.x) == JavaScriptNumbers.ParseInt(a.x)
    ensures Some(Respond(s, a).state.robot.value.y) == JavaScriptNumbers.ParseInt(a.y)
  {
    JavaScriptNumbers.CanonicalReadsAlike(a.x);
    JavaScriptNumbers.CanonicalReadsAlike(a.y);
    ParseIntIff(a.x, Respond(s, a).state.robot.value.x);
    ParseIntIff(a.y, Respond(s, a).state.robot.value.y);
  }

  /** What manual play maintains: any placed robot is on the table, the
      instruction menu is only shown once a robot is placed, and nothing has
      failed. */
  predicate Healthy(s: Session) {
    && (s.state.robot.Some? ==> OnTable(s.state.robot.value))
    && (s.prompt == AskInstruction ==> s.state.robot.Some?)
    && s.prompt != Crashed && s.prompt != ScriptFailed && s.prompt != OutsideModel
  }

  predicate IsManual(a: Answer) {
    !(a.ChooseStyle? && a.style == Scripted)
  }

  /** Every manual answer keeps a healthy session healthy: the first menu
      offers only PLACE and EXIT, and the placement prompts accept only
      spellings of on-table cells. This rests on the prompts reading the text
      the way it is stored (`Grid.ValidateCoordinate`); the source's prompts
      read it with `parseFloat` and let "0x9" through
      (`Grid.HexAnswerPassesAsWritten`). */
  lemma ManualAnswerKeepsHealthy(s: Session, a: Answer)
    requires Healthy(s) && Offered(s.prompt, a) && IsManual(a)
    ensures Healthy(Respond(s, a))
  {
    if a.Choose? {
      StepKeepsRobotOnTable(s.state, Do(a.keyword));
    }
  }

  /** A whole session: the answers in order, each applied to the question it
      answers. An answer the current question does not offer cannot come
      from the prompt library and is passed over. */
  function Replay(s: Session, answers: seq<Answer>): Session
    decreases |answers|
  {
    if |answers| == 0 then s
    else
      var s' := if Offered(s.prompt, answers[0]) then Respond(s, answers[0]) else s;
      Replay(s', answers[1..])
  }

  /** An offered answer is applied and the rest of the session follows. */
  lemma ReplayOffered(s: Session, a: Answer, rest: seq<Answer>)
    requires Offered(s.prompt, a)
    ensures Replay(s, [a] + rest) == Replay(Respond(s, a), rest)
  {
    assert ([a] + rest)[0] == a && ([a] + rest)[1..] == rest;
  }

  /** With the corrected validators, manual play never crashes and never puts
      the robot off the table. */
  lemma {:induction false} ManualPlayStaysHealthy(s: Session, answers: seq<Answer>)
    requires Healthy(s)
    requires forall i :: 0 <= i < |answers| ==> IsManual(answers[i])
    ensures Healthy(Replay(s, answers))
    decreases |answers|
  {
    if |answers| > 0 {
      if Offered(s.prompt, answers[0]) {
        ManualAnswerKeepsHealthy(s, answers[0]);
      }
      var s' := if Offered(s.prompt, answers[0]) then Respond(s, answers[0]) else s;
      ManualPlayStaysHealthy(s', answers[1..]);
    }
  }

  /** From the start, manual play never reaches the crash. */
  lemma ManualPlayNeverCrashes(answers: seq<Answer>)
    requires forall i :: 0 <= i < |answers| ==> IsManual(answers[i])
    ensures Replay(Start, answers).prompt != Crashed
  {
    ManualPlayStaysHealthy(Start, answers);
  }

  /** Scripted play can: a script that runs to its end without placing the
      robot still leads to the full instruction menu, where MOVE reads the
      unplaced robot. */
  lemma ScriptWithoutPlacementThenMoveCrashes(script: string)
    requires RunScript(Initial, script).Completed?
    requires RunScript(Initial, script).state.robot.None?
    ensures Replay(Start, [ChooseStyle(Scripted, Some(script)), Choose(Move)]).prompt == Crashed
  {
    var s1 := Respond(Start, ChooseStyle(Scripted, Some(script)));
    assert s1.prompt == AskInstruction && s1.state.robot.None?;
    ReplayOffered(Start, ChooseStyle(Scripted, Some(script)), [Choose(Move)]);
    ReplayOffered(s1, Choose(Move), []);
  }

  /** Such scripts exist: one REPORT runs to its end and places nothing. */
  lemma ReportScriptPlacesNothing(script: string)
    requires script == "REPORT"
    ensures RunScript(Initial, script) == Completed(Initial)
  {
    assert ParseKeyword(script) == Some(Report);
    InertInstructionScript(Initial, script);
  }

  /** Choosing PLACE, answering the placement prompts and choosing REPORT shows
      exactly the location that was entered. */
  lemma PlaceThenReportShowsPlacement(s: Session, xs: string, ys: string, d: Direction)
    requires s.prompt == AskInstruction || s.prompt == AskFirstInstruction
    requires ValidateX(xs).Accepted? && ValidateY(ys).Accepted?
    ensures var s' := Replay(s, [Choose(Place), PlaceAnswers(xs, ys, d), Choose(Report)]);
      && s'.prompt == AskInstruction
      && s'.state.robot == Some(Robot(ParseInt(xs).value, ParseInt(ys).value, d))
  {
    var s1 := Respond(s, Choose(Place));
    assert s1 == Session(AskPlacement, s.state);
    var s2 := Respond(s1, PlaceAnswers(xs, ys, d));
    IntToStringRoundTrip(s2.state.robot.value.x);
    IntToStringRoundTrip(s2.state.robot.value.y);
    assert s2.state.robot == Some(Robot(ParseInt(xs).value, ParseInt(ys).value, d));
    assert Respond(s2, Choose(Report)) == s2;
    ReplayOffered(s, Choose(Place), [PlaceAnswers(xs, ys, d), Choose(Report)]);
    ReplayOffered(s1, PlaceAnswers(xs, ys, d), [Choose(Report)]);
    ReplayOffered(s2, Choose(Report), []);
  }
}
