/**
 * Running a script (`followScript`, src/index.ts:277-311): the text is split
 * on `,` into chunks and each chunk on `" "` into tokens. A chunk whose first
 * token is PLACE hands tokens 1-3 to `updateRobot` as placement answers; any
 * other chunk hands token 0 as a bare instruction. The commands are applied
 * one at a time in file order, and nothing checks a placement's range.
 *
 * What `updateRobot` does with a chunk is read off its branches:
 * - a PLACE chunk with fewer than four tokens, or an empty fourth token, has
 *   no (truthy) facing answer and no instruction, so nothing happens;
 * - a first token that is not a keyword matches no branch: nothing happens;
 * - REPORT and EXIT are not acted on by `updateRobot`: nothing happens, and
 *   the script carries on;
 * - MOVE, LEFT or RIGHT before any placement throws after the log entry is
 *   pushed; the surrounding `catch` ends the script.
 * A PLACE chunk whose coordinates are not canonical decimal integers, or
 * whose facing is not a direction name, makes the source store `parseInt`'s
 * reading of the text (1 for `01`, 9 for `0x9`, NaN for `abc`) or an unknown
 * facing; the model does not represent such chunks and stops there instead.
 */
module Script {
  import opened Results
  import opened Text
  import opened Compass
  import opened Interpreter

  /** What one chunk amounts to. */
  datatype Chunk = Decoded(cmd: Cmd) | Ignored | Malformed

  /** How many leading tokens of its chunk a decoded command consists of. */
  function Arity(c: Cmd): nat {
    if c.PlaceAt? then 4 else 1
  }

  function Tokens(chunk: string): seq<string> {
    Split(chunk, ' ')
  }

  lemma JoinFourTokens(t: seq<string>)
    requires |t| >= 4
    ensures Join(t[..4], ' ') == t[0] + " " + t[1] + " " + t[2] + " " + t[3]
  {
    var u := t[..4];
    assert Join(u[3..], ' ') == t[3];
    assert Join(u[2..], ' ') == t[2] + " " + t[3] by {
      assert u[2..][1..] == u[3..];
    }
    assert Join(u[1..], ' ') == t[1] + " " + t[2] + " " + t[3] by {
      assert u[1..][1..] == u[2..];
    }
  }

  /** One chunk of a script. A decoded command is never the bare PLACE menu
      choice, only PLACE chunks can be malformed, and a decoded command's log
      entry is exactly the chunk's leading tokens rejoined with spaces, which
      is the text the source pushes onto the log. */
  function DecodeChunk(chunk: string): (c: Chunk)
    ensures c.Decoded? ==> c.cmd != Do(Place)
    ensures c.Decoded? ==>
      Arity(c.cmd) <= |Tokens(chunk)| && CmdText(c.cmd) == Join(Tokens(chunk)[..Arity(c.cmd)], ' ')
    ensures c.Malformed? ==> Tokens(chunk)[0] == KeywordName(Place)
    ensures Tokens(chunk)[0] != KeywordName(Place) ==> (c.Ignored? <==> ParseKeyword(Tokens(chunk)[0]).None?)
    ensures Tokens(chunk)[0] == KeywordName(Place) ==> (c.Ignored? <==> |Tokens(chunk)| < 4 || Tokens(chunk)[3] == "")
    ensures Tokens(chunk)[0] == KeywordName(Place) && |Tokens(chunk)| >= 4 && Tokens(chunk)[3] != "" ==>
      (c.Malformed? <==>
        ParseInt(Tokens(chunk)[1]).None? || ParseInt(Tokens(chunk)[2]).None? || ParseDirection(Tokens(chunk)[3]).None?)
  {
    var tokens := Tokens(chunk);
    if tokens[0] == KeywordName(Place) then
      if |tokens| < 4 || tokens[3] == "" then Ignored
      else
        match (ParseInt(tokens[1]), ParseInt(tokens[2]), ParseDirection(tokens[3]))
        case (Some(x), Some(y), Some(d)) =>
          ParseIntCanonical(tokens[1]);
          ParseIntCanonical(tokens[2]);
          JoinFourTokens(tokens);
          Decoded(PlaceAt(x, y, d))
        case _ => Malformed
    else
      match ParseKeyword(tokens[0])
      case Some(k) => Decoded(Do(k))
      case None => Ignored
  }

  /** The command sequence of a whole script, in file order, leaving out the
      chunks that do nothing; an error names the first malformed chunk. */
  function Decode(text: string): Result<seq<Cmd>, string> {
    DecodeChunks(Split(text, ','))
  }

  /** Chunk `i` is malformed and no earlier chunk is. */
  predicate FirstMalformed(chunks: seq<string>, i: int)
    requires 0 <= i < |chunks|
  {
    DecodeChunk(chunks[i]).Malformed? && forall j :: 0 <= j < i ==> !DecodeChunk(chunks[j]).Malformed?
  }

  function DecodeChunks(chunks: seq<string>): (r: Result<seq<Cmd>, string>)
    ensures r.Ok? ==> forall i :: 0 <= i < |r.value| ==> r.value[i] != Do(Place)
    ensures r.Err? ==> r.error in chunks && DecodeChunk(r.error).Malformed?
    ensures r.Ok? <==> forall i :: 0 <= i < |chunks| ==> !DecodeChunk(chunks[i]).Malformed?
    decreases |chunks|
  {
    if |chunks| == 0 then Ok([])
    else
      match DecodeChunk(chunks[0])
      case Malformed => Err(chunks[0])
      case Ignored => DecodeChunks(chunks[1..])
      case Decoded(c) =>
        match DecodeChunks(chunks[1..])
        case Ok(cs) => Ok([c] + cs)
        case Err(e) => Err(e)
  }

  /** A failed decoding names the first malformed chunk: the one at the
      index of the earliest malformed chunk. */
  lemma {:induction false} DecodeChunksNamesFirstMalformed(chunks: seq<string>)
    requires DecodeChunks(chunks).Err?
    ensures exists i :: 0 <= i < |chunks| && chunks[i] == DecodeChunks(chunks).error && FirstMalformed(chunks, i)
    decreases |chunks|
  {
    if DecodeChunk(chunks[0]).Malformed? {
      assert chunks[0] == DecodeChunks(chunks).error && FirstMalformed(chunks, 0);
    } else {
      var rest := chunks[1..];
      assert DecodeChunks(rest).Err? && DecodeChunks(rest).error == DecodeChunks(chunks).error;
      DecodeChunksNamesFirstMalformed(rest);
      var i :| 0 <= i < |rest| && rest[i] == DecodeChunks(rest).error && FirstMalformed(rest, i);
      assert forall j :: 1 <= j <= i ==> chunks[j] == rest[j - 1];
      assert FirstMalformed(chunks, i + 1);
    }
  }

  /** A script written from commands: their log texts joined with commas. */
  function Encode(cmds: seq<Cmd>): string {
    Join(Texts(cmds), ',')
  }

  function Texts(cmds: seq<Cmd>): (ts: seq<string>)
    ensures |ts| == |cmds|
    ensures forall i :: 0 <= i < |cmds| ==> ts[i] == CmdText(cmds[i])
    decreases |cmds|
  {
    if |cmds| == 0 then [] else [CmdText(cmds[0])] + Texts(cmds[1..])
  }

  /** How running a script ends: every chunk applied; stopped because a
      command needed the robot before it was placed (the state then holds
      that command's log entry); or stopped at a chunk the model cannot
      represent. */
  datatype Outcome = Completed(state: State) | Aborted(state: State) | Unmodelled(state: State, chunk: string)

  /** Applies decoded commands in order, stopping at the first failure. Once
      the robot is placed nothing can stop a run, and a run that stops leaves
      the robot unplaced. */
  function Run(s: State, cmds: seq<Cmd>): (o: Outcome)
    ensures !o.Unmodelled?
    ensures s.robot.Some? ==> o.Completed? && o.state.robot.Some?
    ensures o.Aborted? ==> o.state.robot.None?
    decreases |cmds|
  {
    if |cmds| == 0 then Completed(s)
    else
      match Step(s, cmds[0])
      case NotPlaced(log) => Aborted(State(s.robot, log))
      case Stepped(s') => Run(s', cmds[1..])
  }

  /** A completed run's log is the old log followed by one entry per logged
      command, in order: a blocked MOVE is logged, REPORT and EXIT are not. */
  lemma {:induction false} RunLogsEachCommand(s: State, cmds: seq<Cmd>)
    ensures Run(s, cmds).Completed? ==> Run(s, cmds).state.log == s.log + Entries(cmds)
    decreases |cmds|
  {
    if |cmds| > 0 {
      match Step(s, cmds[0])
      case NotPlaced(_) =>
      case Stepped(s') =>
        RunLogsEachCommand(s', cmds[1..]);
        assert s'.log == s.log + Entry(cmds[0]);
    }
  }

  /** The log entries a sequence of commands adds, in order. */
  function Entries(cmds: seq<Cmd>): seq<string>
    decreases |cmds|
  {
    if |cmds| == 0 then [] else Entry(cmds[0]) + Entries(cmds[1..])
  }

  /** `followScript`'s loop: the chunks of the text, one at a time. */
  function RunScript(s: State, text: string): Outcome {
    RunChunks(s, Split(text, ','))
  }

  function RunChunks(s: State, chunks: seq<string>): (o: Outcome)
    ensures o.Unmodelled? ==> o.chunk in chunks && DecodeChunk(o.chunk).Malformed?
    decreases |chunks|
  {
    if |chunks| == 0 then Completed(s)
    else
      match DecodeChunk(chunks[0])
      case Malformed => Unmodelled(s, chunks[0])
      case Ignored => RunChunks(s, chunks[1..])
      case Decoded(c) =>
        match Step(s, c)
        case NotPlaced(log) => Aborted(State(s.robot, log))
        case Stepped(s') => RunChunks(s', chunks[1..])
  }

  /** Going chunk by chunk is the same as decoding the whole script first and
      then applying the commands: the ignored chunks really do nothing. */
  lemma {:induction false} RunChunksIsRunOfDecoded(s: State, chunks: seq<string>)
    requires DecodeChunks(chunks).Ok?
    ensures RunChunks(s, chunks) == Run(s, DecodeChunks(chunks).value)
    decreases |chunks|
  {
    if |chunks| > 0 {
      match DecodeChunk(chunks[0])
      case Ignored =>
        RunChunksIsRunOfDecoded(s, chunks[1..]);
      case Decoded(c) =>
        var cs := DecodeChunks(chunks[1..]).value;
        assert ([c] + cs)[0] == c && ([c] + cs)[1..] == cs;
        match Step(s, c)
        case NotPlaced(_) =>
        case Stepped(s') =>
          RunChunksIsRunOfDecoded(s', chunks[1..]);
    }
  }

  /** A script with no malformed chunk runs exactly as its decoded commands do. */
  lemma RunScriptIsRunOfDecode(s: State, text: string)
    requires Decode(text).Ok?
    ensures RunScript(s, text) == Run(s, Decode(text).value)
  {
    RunChunksIsRunOfDecoded(s, Split(text, ','));
  }

  /** A placement's text splits into its four tokens and decodes back to it. */
  lemma DecodePlacementText(x: int, y: int, d: Direction)
    ensures DecodeChunk(CmdText(PlaceAt(x, y, d))) == Decoded(PlaceAt(x, y, d))
  {
    var text := CmdText(PlaceAt(x, y, d));
    var t := [KeywordName(Place), IntToString(x), IntToString(y), Name(d)];
    IntToStringIsOneToken(x);
    IntToStringIsOneToken(y);
    NameIsOneToken(d);
    JoinFourTokens(t);
    assert t[..4] == t;
    assert text == Join(t, ' ');
    SplitJoin(t, ' ');
    assert Tokens(text) == t;
    IntToStringRoundTrip(x);
    IntToStringRoundTrip(y);
    assert ParseDirection(Name(d)) == Some(d);
  }

  /** Every command's text is a chunk that decodes back to that command. */
  lemma DecodeChunkOfText(c: Cmd)
    requires c != Do(Place)
    ensures DecodeChunk(CmdText(c)) == Decoded(c)
  {
    match c
    case PlaceAt(x, y, d) =>
      DecodePlacementText(x, y, d);
    case Do(k) =>
      SplitWithoutSeparator(KeywordName(k), ' ');
  }

  lemma TextHasNoComma(c: Cmd)
    ensures ',' !in CmdText(c)
  {
    if c.PlaceAt? {
      IntToStringIsOneToken(c.x);
      IntToStringIsOneToken(c.y);
      NameIsOneToken(c.facing);
    }
  }

  lemma {:induction false} DecodeTexts(cmds: seq<Cmd>)
    requires forall i :: 0 <= i < |cmds| ==> cmds[i] != Do(Place)
    ensures DecodeChunks(Texts(cmds)) == Ok(cmds)
    decreases |cmds|
  {
    if |cmds| > 0 {
      DecodeChunkOfText(cmds[0]);
      DecodeTexts(cmds[1..]);
      assert Texts(cmds)[1..] == Texts(cmds[1..]);
      assert [cmds[0]] + cmds[1..] == cmds;
    }
  }

  /** Round trip: writing commands out as a script and decoding it gives the
      same commands back, for every sequence of script commands. */
  lemma DecodeEncode(cmds: seq<Cmd>)
    requires forall i :: 0 <= i < |cmds| ==> cmds[i] != Do(Place)
    ensures Decode(Encode(cmds)) == Ok(cmds)
  {
    if |cmds| == 0 {
      assert Encode(cmds) == "";
      assert Split("", ',') == [""];
      assert Tokens("") == [""];
    } else {
      forall i | 0 <= i < |cmds|
        ensures ',' !in Texts(cmds)[i]
      {
        TextHasNoComma(cmds[i]);
      }
      SplitJoin(Texts(cmds), ',');
      DecodeTexts(cmds);
    }
  }

  /** A script's PLACE is not range-checked: any coordinates, on the table or
      not, become the robot's location. */
  lemma ScriptPlacementSkipsBounds(s: State, x: int, y: int, d: Direction)
    ensures RunScript(s, CmdText(PlaceAt(x, y, d))) ==
      Completed(State(Some(Robot(x, y, d)), s.log + [CmdText(PlaceAt(x, y, d))]))
  {
    var cmds := [PlaceAt(x, y, d)];
    assert Encode(cmds) == CmdText(PlaceAt(x, y, d));
    DecodeEncode(cmds);
    RunScriptIsRunOfDecode(s, Encode(cmds));
  }

  /** With every placement on the table, a run keeps the robot on the table. */
  lemma {:induction false} RunKeepsRobotOnTable(s: State, cmds: seq<Cmd>)
    requires s.robot.Some? ==> OnTable(s.robot.value)
    requires forall i :: 0 <= i < |cmds| && cmds[i].PlaceAt? ==> Grid.OnGrid(cmds[i].x, cmds[i].y)
    ensures Run(s, cmds).Completed? && Run(s, cmds).state.robot.Some? ==>
      OnTable(Run(s, cmds).state.robot.value)
    decreases |cmds|
  {
    if |cmds| > 0 {
      StepKeepsRobotOnTable(s, cmds[0]);
      match Step(s, cmds[0])
      case NotPlaced(_) =>
      case Stepped(s') =>
        RunKeepsRobotOnTable(s', cmds[1..]);
    }
  }

  lemma ExamplePlacementText()
    ensures CmdText(PlaceAt(1, 2, East)) == "PLACE 1 2 EAST"
  {
    assert IntToString(1) == "1" && IntToString(2) == "2";
    assert KeywordName(Place) == "PLACE" && Name(East) == "EAST";
    assert CmdText(PlaceAt(1, 2, East)) == "PLACE" + " " + "1" + " " + "2" + " " + "EAST";
  }

  /** The commands of the worked example below, written out as a script. */
  lemma ExampleText()
    ensures Encode([PlaceAt(1, 2, East), Do(Move), Do(Left)]) == "PLACE 1 2 EAST,MOVE,LEFT"
  {
    var cmds := [PlaceAt(1, 2, East), Do(Move), Do(Left)];
    ExamplePlacementText();
    assert Texts(cmds) == ["PLACE 1 2 EAST", "MOVE", "LEFT"];
  }

  lemma ExampleRun()
    ensures Run(Initial, [PlaceAt(1, 2, East), Do(Move), Do(Left)]) ==
      Completed(State(Some(Robot(2, 2, North)), ["PLACE 1 2 EAST", "MOVE", "LEFT"]))
  {
    var cmds := [PlaceAt(1, 2, East), Do(Move), Do(Left)];
    ExamplePlacementText();
    var s1 := State(Some(Robot(1, 2, East)), ["PLACE 1 2 EAST"]);
    var s2 := State(Some(Robot(2, 2, East)), ["PLACE 1 2 EAST", "MOVE"]);
    var s3 := State(Some(Robot(2, 2, North)), ["PLACE 1 2 EAST", "MOVE", "LEFT"]);
    assert Step(Initial, cmds[0]) == Stepped(s1);
    assert Step(s1, cmds[1]) == Stepped(s2);
    assert Step(s2, cmds[2]) == Stepped(s3);
    assert cmds[1..][1..][1..] == [];
  }

  /** Running a script written from commands is running those commands. */
  lemma RunEncoded(s: State, cmds: seq<Cmd>)
    requires forall i :: 0 <= i < |cmds| ==> cmds[i] != Do(Place)
    ensures RunScript(s, Encode(cmds)) == Run(s, cmds)
  {
    DecodeEncode(cmds);
    RunScriptIsRunOfDecode(s, Encode(cmds));
  }

  /** The worked example: PLACE 1 2 EAST, MOVE, LEFT ends at (2, 2) facing
      NORTH, with the three commands logged in file order. */
  lemma ExampleScript(text: string)
    requires text == "PLACE 1 2 EAST,MOVE,LEFT"
    ensures RunScript(Initial, text) ==
      Completed(State(Some(Robot(2, 2, North)), ["PLACE 1 2 EAST", "MOVE", "LEFT"]))
  {
    var cmds := [PlaceAt(1, 2, East), Do(Move), Do(Left)];
    ExampleText();
    assert Encode(cmds) == text;
    RunEncoded(Initial, cmds);
    assert RunScript(Initial, text) == Run(Initial, cmds);
    ExampleRun();
  }

  /** A script that starts with MOVE, LEFT or RIGHT stops at once: that
      command is in the log, the robot is still unplaced, and nothing after it
      runs. */
  lemma FirstMoveBeforePlaceAborts(k: Keyword, rest: string)
    requires NeedsRobot(Do(k))
    ensures RunScript(Initial, KeywordName(k) + "," + rest) == Aborted(State(None, [KeywordName(k)]))
  {
    var word := KeywordName(k);
    assert word + "," + rest == word + [','] + rest;
    SplitAfterFirstPiece(word, rest, ',');
    FirstChunkNeedsRobot(k, [word] + Split(rest, ','));
  }

  lemma FirstChunkNeedsRobot(k: Keyword, chunks: seq<string>)
    requires NeedsRobot(Do(k))
    requires |chunks| > 0 && chunks[0] == KeywordName(k)
    ensures RunChunks(Initial, chunks) == Aborted(State(None, [KeywordName(k)]))
  {
    DecodeChunkOfText(Do(k));
    assert Step(Initial, Do(k)) == NotPlaced([KeywordName(k)]);
    RunStopsAtFirstFailure(Initial, chunks, Do(k));
  }

  /** A run whose first chunk decodes to a command that fails stops there. */
  lemma RunStopsAtFirstFailure(s: State, chunks: seq<string>, c: Cmd)
    requires |chunks| > 0 && DecodeChunk(chunks[0]) == Decoded(c) && Step(s, c).NotPlaced?
    ensures RunChunks(s, chunks) == Aborted(State(s.robot, Step(s, c).log))
  {
  }

  /** A PLACE chunk with only an x token is skipped without a trace; the
      source substitutes nothing for the missing y and facing, and reports
      nothing. */
  lemma ShortPlaceIsIgnored(s: State, x: string)
    requires ' ' !in x && ',' !in x
    ensures DecodeChunk("PLACE " + x) == Ignored
    ensures RunScript(s, "PLACE " + x) == Completed(s)
  {
    var chunk := "PLACE " + x;
    assert Join(["PLACE", x], ' ') == chunk;
    SplitJoin(["PLACE", x], ' ');
    assert ',' !in chunk;
    SplitWithoutSeparator(chunk, ',');
    assert DecodeChunk(chunk) == Ignored;
    assert RunChunks(s, [chunk]) == RunChunks(s, []) by {
      assert [chunk][1..] == [];
    }
  }

  /** A script holding one instruction that does not touch the robot (REPORT,
      EXIT, or an unknown word) leaves the state exactly as it was. */
  lemma InertInstructionScript(s: State, word: string)
    requires ' ' !in word && ',' !in word && word != KeywordName(Place)
    requires ParseKeyword(word).Some? ==> !NeedsRobot(Do(ParseKeyword(word).value))
    ensures RunScript(s, word) == Completed(s)
  {
    SplitWithoutSeparator(word, ',');
    SplitWithoutSeparator(word, ' ');
    assert RunChunks(s, [word]) == RunChunks(s, []) by {
      assert [word][1..] == [];
    }
  }
}
