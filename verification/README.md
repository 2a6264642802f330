# Toy robot state machine

A Dafny model of the toy-robot game in `src/index.ts`. A robot stands on a
5 × 5 table at a cell `(x, y)` and faces NORTH, EAST, SOUTH or WEST. It is
driven either through interactive prompts or by a script of comma-separated
commands (`PLACE 1 2 EAST,MOVE,LEFT`). The model covers:

- **the table and the placement prompts** (`Grid`): the constants `mapX = mapY = 5`,
  the on-table predicate, and the `validate` callbacks of the x and y
  prompts;
- **the facings** (`Compass`): the fixed LEFT and RIGHT tables of `moveBot`,
  the unit step of each facing, and the facing names;
- **the interpreter** (`Interpreter`): `updateRobot` and `moveBot`. They act
  on the robot's location and on the instruction log `currentInstructions`.
  The source keeps both in process-wide variables; the model passes one
  immutable `State` in and out. The location starts undefined, so it is an
  `Option<Robot>`;
- **scripts** (`Script`): the split-on-`,`-then-on-space decoder of
  `followScript`, applying commands in file order, an encoder, and
  their round trip;
- **the session** (`Session`): the next-question dispatch of `askQuestions`.
  This covers which menu is offered, which answers end the game, and which
  crash it.

`Results` holds `Option`/`Result`. `Text` holds JavaScript-style `split`
and `join`, and canonical decimal integers. `JavaScriptNumbers` holds
JavaScript's `parseInt` and `parseFloat` (sections 19.2.5 and 19.2.4 of
ECMA-262). The source validates a typed coordinate with one of them and
stores it with the other; see "## Findings".

### Behaviours of the code worth knowing

- **Script placements are not range-checked.** `PLACE 9 9 NORTH` in a
  script puts the robot at (9, 9) (`Script.ScriptPlacementSkipsBounds`).
  The interactive prompts do check the range, but of `parseFloat`'s reading.
  The stored coordinate is `parseInt`'s reading, so they can still let an
  off-table cell through (see "## Findings"). The on-table
  invariant is therefore stated with an explicit hypothesis that every
  placement is on the table (`Interpreter.StepKeepsRobotOnTable`,
  `Script.RunKeepsRobotOnTable`). `Grid.OnGrid` is the separate bounds
  predicate.
- **Short PLACE chunks are skipped silently.** They are not reported as
  errors. A PLACE chunk with fewer than four tokens, or with an empty fourth
  token, gives `updateRobot` no truthy facing and no instruction, so nothing
  happens (`Script.ShortPlaceIsIgnored`). Unknown keywords are skipped the
  same way. Matching is exact, so a chunk such as `LEFT\n` or ` MOVE`
  (leading space, empty first token) is skipped too.
- **REPORT and EXIT in a script do nothing.** `updateRobot` has no branch
  for them, and the script carries on after an EXIT.
- **A blocked MOVE is still logged.** MOVE, LEFT and RIGHT are pushed onto
  the log before `moveBot` runs. That includes a MOVE that the edge blocks.
- **MOVE, LEFT or RIGHT before any PLACE** dereferences the undefined
  location. The log entry has already been pushed at that point.
  - In a script, the `catch` around the loop ends the script, and no
    further question is asked (`Script.FirstMoveBeforePlaceAborts`;
    `Session.Prompt.ScriptFailed`).
  - Interactively, the first menu offers only PLACE and EXIT, so manual play
    never gets there (`Session.ManualPlayNeverCrashes`).
  - After a script that never placed the robot, the full menu is shown,
    and choosing MOVE crashes (`Session.ScriptWithoutPlacementThenMoveCrashes`).
- **The two MOVE guards differ for robots off the table.** `moveBot` only
  tests the edge the robot faces (`y < 4`, `x > 0`, …). On the table this is
  the same as "move unless the cell ahead is off the table"
  (`Interpreter.Advance`). An off-table robot may still be moved
  (`Interpreter.OffTableRobotStillMoves`). A script
  can produce one (`PLACE 9 9 NORTH`). So can the interactive prompts as
  written, through an answer that `parseFloat` reads as on the table and
  `parseInt` does not: "0x9" is stored as 9 and "-0x9" as -9 (see
  "## Findings").

## Model

| member | source | states |
|---|---|---|
| Text.Split | src/index.ts:283-287 | splitting always yields at least one piece, and no piece contains the separator |
| Text.JoinSplit | src/index.ts:283-287 | rejoining the pieces with the separator gives back the original text: splitting loses nothing |
| Text.SplitJoin | src/index.ts:284-286 | joining separator-free pieces and splitting again gives back exactly those pieces |
| Text.ParseIntIff | src/index.ts:201-205 | a text denotes the integer i exactly when it is i's decimal spelling, so the typed text and the stored coordinate determine each other |
| Text.IntToStringRoundTrip | src/index.ts:201-205 | every integer's decimal spelling reads back as that integer |
| Compass.TurnsFollowTheCompass | src/index.ts:241-273 | RIGHT adds one quarter turn and LEFT removes one, modulo four, on the clockwise order N, E, S, W |
| Compass.TurnsAreInverse | src/index.ts:241-273 | LEFT undoes RIGHT and RIGHT undoes LEFT, for every facing |
| Compass.FourTurnsAreIdentity | src/index.ts:241-273 | four LEFTs or four RIGHTs return to the start, and one, two or three LEFTs never do |
| Compass.StepIsUnit | src/index.ts:220-239 | each facing steps along exactly one axis by exactly one unit; a half turn steps the opposite way |
| Compass.ParseDirection | src/index.ts:91-96 | a text reads as facing d exactly when it is d's name |
| Grid.ValidateCoordinate | src/index.ts:55-67 | the corrected validator: accepted exactly when the text is the spelling of a number in [0, map-1]; a non-number gets "Please enter a number", an out-of-range number gets "Please enter a number between 0 and map-1" |
| Grid.ValidateCoordinateAsWritten | src/index.ts:55-67 | the validator as written: accepted exactly when `parseFloat` reads a finite number in [0, map-1]; "Please enter a number" exactly when it reads NaN; otherwise, infinities included, the range message |
| Grid.AsWrittenAgreesOnCanonical | src/index.ts:55-67 | on canonical decimal spellings the validator as written and the corrected one give the same verdict |
| Grid.HexSpellingIsNotANumber | src/index.ts:55-89 | the corrected validators reject every text starting with `0x` as not a number |
| Grid.HexAnswerPassesAsWritten | src/index.ts:201-205 | as written, both prompts accept `0x` followed by any hexadecimal digit of 5 or more ("0x9", "0xA", …), which `updateRobot` stores as that digit's value, off the table; the corrected validators reject these texts |
| Grid.BareHexPrefixPassesAsWritten | src/index.ts:201-205 | as written, both prompts accept "0x", alone or followed by a non-hexadecimal character, which `updateRobot` stores as NaN |
| Grid.NineInHexLeavesTheTable | src/index.ts:201-205 | the concrete case: "0x9" passes the x prompt as written and is stored as 9, off the table |
| JavaScriptNumbers.CanonicalReadsAlike | src/index.ts:201-205 | on the canonical spelling of an integer, `parseInt` and `parseFloat` both give that integer |
| Grid.PromptsAcceptExactlyTheCells | src/index.ts:55-89 | the corrected x and y validators together accept exactly the spellings of on-table cells |
| Grid.RangeMessageNamesLastIndex | src/index.ts:83-86 | the range message names 4, the last index of both axes |
| Interpreter.ParseKeyword | src/index.ts:208-212 | a text reads as keyword k exactly when it is k's name |
| Interpreter.Advance | src/index.ts:219-239 | MOVE keeps the facing and either stays or steps one cell ahead; it steps exactly when that step does not cross the edge the robot faces, whatever the other coordinate, so a robot off the table can still move; on the table it stays on the table, and it stays put exactly when the cell ahead is off the table |
| Interpreter.OffTableRobotStillMoves | src/index.ts:231-233 | a robot at (9, 9) facing SOUTH, off the table, moves to (9, 8), since only y > 0 is tested |
| Interpreter.EdgeIsANoOp | src/index.ts:224-236 | an on-table robot on the edge it faces does not move |
| Interpreter.CornersHold | src/index.ts:222-233 | (0,0,SOUTH) and (4,4,NORTH) stay put under MOVE, while (0,0,NORTH) moves to (0,1) |
| Interpreter.Step | src/index.ts:188-218 | only MOVE/LEFT/RIGHT on an unplaced robot fail; the log grows by exactly the command's own text for PLACE, MOVE, LEFT and RIGHT (a blocked MOVE too) and not at all otherwise; other commands change nothing; PLACE sets exactly (x, y, facing); turns keep the cell and turn by the tables; MOVE does what `Advance` does: step ahead exactly when the step does not cross the edge the robot faces |
| Interpreter.StepKeepsRobotOnTable | src/index.ts:188-239 | a robot on the table stays on it under every command, given that a placement is on the table |
| Interpreter.PlaceThenReport | src/index.ts:190-215 | after PLACE x y d the location is exactly (x, y, d), REPORT changes nothing, and the log ends in "PLACE x y d" |
| Script.DecodeChunk | src/index.ts:290-301 | a decoded chunk is never the bare PLACE menu choice; only PLACE chunks can be malformed; a command's log text is exactly the chunk's leading tokens rejoined with spaces, the text the source logs; a non-PLACE chunk is skipped exactly when its first token is no keyword, and a PLACE chunk exactly when it has fewer than four tokens or an empty fourth; a full PLACE chunk, extra tokens after the facing included, is decoded exactly when tokens 1-3 read as two integers and a facing |
| Script.DecodeChunks | src/index.ts:282-301 | decoding yields only script commands; it succeeds exactly when no chunk is malformed, and a failure names a malformed chunk of the script (the earliest one, by `Script.DecodeChunksNamesFirstMalformed`) |
| Script.DecodeChunksNamesFirstMalformed | src/index.ts:282-301 | a failed decoding names the earliest malformed chunk: every chunk before it is decodable or skipped |
| Script.Run | src/index.ts:290-304 | once the robot is placed a run always completes with the robot still placed; a run that stops early left the robot unplaced |
| Script.RunLogsEachCommand | src/index.ts:190-215 | a completed run's log is the old log followed by each logged command's entry, in order: a blocked MOVE is logged, REPORT and EXIT are not |
| Script.RunChunks | src/index.ts:290-304 | a run stops as unrepresentable only at a malformed chunk of the script |
| Script.RunChunksIsRunOfDecoded | src/index.ts:282-304 | running chunk by chunk equals decoding everything and then applying the commands; skipped chunks have no effect |
| Script.RunScriptIsRunOfDecode | src/index.ts:277-305 | a script without malformed chunks runs exactly as its decoded command sequence |
| Script.DecodeChunkOfText | src/index.ts:291-300 | every command's log text is a chunk that decodes back to that command |
| Script.DecodeEncode | src/index.ts:283-301 | writing any command sequence as a script and decoding it gives the same sequence back |
| Script.ScriptPlacementSkipsBounds | src/index.ts:291-297 | a script PLACE with any coordinates, on the table or not, becomes the robot's location |
| Script.RunKeepsRobotOnTable | src/index.ts:290-304 | if every placement in a run is on the table, the robot ends on the table |
| Script.ExampleScript | src/index.ts:283-304 | PLACE 1 2 EAST,MOVE,LEFT ends at (2, 2, NORTH) with the three commands logged in order |
| Script.FirstMoveBeforePlaceAborts | src/index.ts:290-310 | a script starting with MOVE, LEFT or RIGHT stops at once, with that command logged and the robot unplaced, whatever follows |
| Script.InertInstructionScript | src/index.ts:208-215 | a script of one REPORT, EXIT or unknown word leaves the state exactly as it was |
| Script.ShortPlaceIsIgnored | src/index.ts:291-297 | "PLACE x" with nothing after it is skipped and leaves the state unchanged |
| Session.Respond | src/index.ts:103-141 | a placement answer logs the typed text and lands on the table; the game crashes exactly when MOVE, LEFT or RIGHT is chosen with no robot; otherwise a menu choice does what `updateRobot` does, PLACE, REPORT and EXIT leaving the state alone; PLACE opens the placement prompts, EXIT ends the game, REPORT, and MOVE, LEFT or RIGHT that do not crash, return to the menu; manual play opens the first menu; a script that completes returns to the menu with the script's state, one that aborts or cannot be read fails |
| Session.PlacementStoresParseInt | src/index.ts:188-205 | a placement stores exactly `parseInt` of the typed x and y |
| Session.ManualAnswerKeepsHealthy | src/index.ts:39-50 | each manual answer keeps the session healthy: robot on the table, full menu only once placed, nothing failed |
| Session.ManualPlayStaysHealthy | src/index.ts:103-141 | any sequence of manual answers keeps a healthy session healthy |
| Session.ManualPlayNeverCrashes | src/index.ts:39-44 | manual play from the start never crashes, because the first menu offers only PLACE and EXIT |
| Session.ScriptWithoutPlacementThenMoveCrashes | src/index.ts:128-129 | any script that runs to its end without placing the robot reaches the full menu, where MOVE crashes |
| Session.ReportScriptPlacesNothing | src/index.ts:277-305 | the script "REPORT" is such a script: it completes and leaves the state as it was |
| Session.PlaceThenReportShowsPlacement | src/index.ts:109-114 | choosing PLACE, entering valid coordinates and choosing REPORT leaves exactly the entered location |

## Left out

- The prompt library: rendering, re-asking after a rejected answer, and the `IQuestion` option type (src/Models/IQuestion.ts). An answer is modelled as what the library hands back. `Session.Offered` states which answers each question can produce.
- Console output is not modelled: `console.clear`, the narration of `placementInterface`, `reportInterface`, `instructionInterface` and `scriptInterface`, and the text of the REPORT display. REPORT is modelled as leaving the state to be shown unchanged.
- Reading `command.txt` is not modelled. The script's text is a parameter, and an unreadable file is `None`, which leads to `ScriptFailed`. The exit code and the tutorial question are not modelled either.
- src/Enums is not part of this model. Its Command and Direction values are taken to be their own names (`"PLACE"`, `"NORTH"`, …).
- Grid.ValidateCoordinate: this is the corrected validator of "## Findings". It accepts only the canonical decimal spelling of an integer in range, which `parseInt` then stores unchanged (`Grid.AsWrittenAgreesOnCanonical`, `Session.PlacementStoresParseInt`). The source's validator (`Grid.ValidateCoordinateAsWritten`) also accepts other spellings: "2.5" and "01" (stored as 2 and 1), "+1", " 3", "4abc", and "0x9" (stored as 9, off the table).
- Grid.PromptsAcceptExactlyTheCells: is stated for the corrected validators. The source's prompts also accept texts that spell no cell, such as "2.5", "01", " 3" and "0x9" (`Grid.ValidateCoordinateAsWritten`).
- Session.Respond: placement answers are the ones the corrected validator accepts. Where the source's validator accepts "0x9" and `updateRobot` stores x = 9, the model does not go: it does not promise the source's behaviour on such answers.
- Session.ManualAnswerKeepsHealthy: holds for the corrected validator only. In the source, a manual placement of "0x9" passes the `parseFloat` check and puts the robot at x = 9, off the table (`Grid.HexAnswerPassesAsWritten`). A placement of "0x" stores NaN (`Grid.BareHexPrefixPassesAsWritten`).
- Session.ManualPlayStaysHealthy: holds for the corrected validator only, for the same reason. In the source, manual play can leave the table through a "0x9" answer.
- JavaScriptNumbers.ParseFloat: exact rational arithmetic; rounding to a 64-bit double is not modelled. So "4.00000000000000001" (4 after rounding, accepted by the source) and "-1e-400" (-0 after rounding, accepted) are out of range here. `parseInt`'s loss of precision beyond 2^53 is not modelled either.
- Script.DecodeChunk: a PLACE chunk whose coordinates are not canonical decimal integers, or whose facing is not a direction name, is `Malformed`. Running stops there with `Unmodelled`. The source instead stores `parseInt`'s reading of the text and carries on: 1 for `01`, 9 for `0x9`, NaN for `abc`. An unknown facing is stored as it is.
- The check `answers.zPlaceQuestion` (src/index.ts:123) is never true, because the answer key is `zPlace`. It leads to the same question as the final `else`, so the model does not tell the two apart.
- Concurrency and asynchrony: the promise chain of `askQuestions` is modelled as one synchronous step per set of answers.

## Findings

| source | as written | input that shows it | evidently intended | confidence | as-written member | corrected member |
|---|---|---|---|---|---|---|
| src/index.ts:201-205 | the x and y prompts (src/index.ts:55-89) check `parseFloat(value)` against [0, 4], while `updateRobot` stores `parseInt(value)` | "0x9" at the x prompt: `parseFloat` reads 0 and accepts it, then `parseInt` reads hexadecimal 9 and the robot stands at x = 9, off the table; "0x" stores NaN | the stored coordinate is the number the prompt checked, so a manual placement is always on the table (the comment at src/index.ts:200 says so) | not executed; high | Grid.HexAnswerPassesAsWritten | Grid.ValidateCoordinate |
