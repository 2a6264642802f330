/**
 * The table the robot stands on and the placement prompts' range check
 * (src/index.ts:15-16, 55-67, 73-89).
 */
module Grid {
  import opened Results
  import opened Text
  import JavaScriptNumbers

  /** Width and height of the table. `moveBot` writes the last index as the
      literal 4, which is `MapX - 1` and `MapY - 1`. */
  const MapX: int := 5
  const MapY: int := 5

  /** The cells of the table: both coordinates in `[0, map - 1]`. */
  predicate OnGrid(x: int, y: int) {
    0 <= x <= MapX - 1 && 0 <= y <= MapY - 1
  }

  /** What a prompt's `validate` callback answers: `true`, or a message
      that is shown and makes the prompt ask again. */
  datatype Verdict = Accepted | Rejected(message: string)

  const NotANumber: string := "Please enter a number"

  function OutOfRange(mapSize: int): string {
    "Please enter a number between 0 and " + IntToString(mapSize - 1)
  }

  /** The validator shared by the x and y prompts: the text must be a number,
      and the number must lie in `[0, mapSize - 1]`. */
  function ValidateCoordinate(value: string, mapSize: int): (v: Verdict)
    ensures v.Accepted? <==> ParseInt(value).Some? && 0 <= ParseInt(value).value <= mapSize - 1
    ensures ParseInt(value).None? ==> v == Rejected(NotANumber)
    ensures ParseInt(value).Some? && v.Rejected? ==> v.message == OutOfRange(mapSize)
  {
    match ParseInt(value)
    case None => Rejected(NotANumber)
    case Some(n) =>
      if n > mapSize - 1 || n < 0 then Rejected(OutOfRange(mapSize))
      else Accepted
  }

  /** The validator as the source writes it: the text is read with
      `parseFloat`; NaN is not a number, and any other reading outside
      `[0, mapSize - 1]`, an infinity included, is out of range. */
  function ValidateCoordinateAsWritten(value: string, mapSize: int): (v: Verdict)
    ensures v.Accepted? <==>
      && JavaScriptNumbers.ParseFloat(value).Finite?
      && 0.0 <= JavaScriptNumbers.ParseFloat(value).value <= (mapSize - 1) as real
    ensures v == Rejected(NotANumber) <==> JavaScriptNumbers.ParseFloat(value).NaN?
    ensures v.Rejected? && v != Rejected(NotANumber) ==> v.message == OutOfRange(mapSize)
  {
    match JavaScriptNumbers.ParseFloat(value)
    case NaN => Rejected(NotANumber)
    case Infinity(_) => Rejected(OutOfRange(mapSize))
    case Finite(x) =>
      if x > (mapSize - 1) as real || x < 0.0 then Rejected(OutOfRange(mapSize))
      else Accepted
  }

  /** On a canonical decimal spelling the validator as written and the
      model's validator give the same verdict. */
  lemma AsWrittenAgreesOnCanonical(value: string, mapSize: int)
    requires ParseInt(value).Some?
    ensures ValidateCoordinateAsWritten(value, mapSize) == ValidateCoordinate(value, mapSize)
  {
    JavaScriptNumbers.CanonicalReadsAlike(value);
  }

  /** `parseFloat` reads a text that starts with `0x` as 0, and the
      validator as written accepts 0 on any table. */
  lemma ReadAsZero(text: string)
    requires |text| >= 2 && text[..2] == "0x"
    ensures JavaScriptNumbers.ParseFloat(text) == JavaScriptNumbers.Finite(0.0)
    ensures forall mapSize :: mapSize >= 1 ==> ValidateCoordinateAsWritten(text, mapSize).Accepted?
  {
    assert text[0] == '0' && text[1] == 'x';
    assert JavaScriptNumbers.TrimStart(text) == text;
    assert JavaScriptNumbers.SignOf(text) == (false, text);
    assert !JavaScriptNumbers.StartsWithInfinity(text);
    var rest := text[1..];
    assert JavaScriptNumbers.DigitPrefix(rest) == "";
    assert JavaScriptNumbers.DigitPrefix(text) == "0";
    assert JavaScriptNumbers.Exponent(rest) == 0;
    assert DigitsValue("0" + "") == 0 by {
      assert "0" + "" == "0";
      assert "0"[..0] == "";
    }
    assert JavaScriptNumbers.UnsignedDecimal(text) == Some(0.0);
  }

  /** The model's validators reject every `0x` spelling as not a number. */
  lemma HexSpellingIsNotANumber(text: string)
    requires |text| >= 2 && text[..2] == "0x"
    ensures ParseInt(text).None?
    ensures ValidateX(text) == Rejected(NotANumber) && ValidateY(text) == Rejected(NotANumber)
  {
    assert text[0] == '0' && text[1] == 'x';
    assert !IsCanonicalNat(text);
  }

  /** As written, both prompts accept a `0x` followed by one hexadecimal
      digit of at least 5, such as "0x9": `parseFloat` stops at the `x` and
      reads 0. `updateRobot` then stores `parseInt`'s reading, which takes the
      `0x` as a hexadecimal prefix: 9 for "0x9", off the table. The model's
      validators reject the text. */
  lemma HexAnswerPassesAsWritten(text: string)
    requires |text| == 3 && text[..2] == "0x"
    requires JavaScriptNumbers.IsHexDigit(text[2]) && JavaScriptNumbers.HexDigitValue(text[2]) >= MapX
    ensures ValidateCoordinateAsWritten(text, MapX).Accepted?
    ensures ValidateCoordinateAsWritten(text, MapY).Accepted?
    ensures JavaScriptNumbers.ParseInt(text) == Some(JavaScriptNumbers.HexDigitValue(text[2]))
    ensures var v := JavaScriptNumbers.HexDigitValue(text[2]); !OnGrid(v, 0) && !OnGrid(0, v)
    ensures ValidateX(text) == Rejected(NotANumber) && ValidateY(text) == Rejected(NotANumber)
  {
    HexSpellingIsNotANumber(text);
    JavaScriptNumbers.HexPrefixedReading(text);
    assert text[2..] == [text[2]];
    JavaScriptNumbers.OneHexDigit(text[2]);
    ReadAsZero(text);
  }

  /** As written, both prompts accept "0x" as well (read as 0), and anything
      else after it that is not a hexadecimal digit; `parseInt` then gives
      NaN: the stored coordinate is not a number at all. */
  lemma BareHexPrefixPassesAsWritten(text: string)
    requires |text| >= 2 && text[..2] == "0x"
    requires |text| > 2 ==> !JavaScriptNumbers.IsHexDigit(text[2])
    ensures ValidateCoordinateAsWritten(text, MapX).Accepted?
    ensures ValidateCoordinateAsWritten(text, MapY).Accepted?
    ensures JavaScriptNumbers.ParseInt(text).None?
    ensures ValidateX(text) == Rejected(NotANumber) && ValidateY(text) == Rejected(NotANumber)
  {
    HexSpellingIsNotANumber(text);
    JavaScriptNumbers.HexPrefixedReading(text);
    assert JavaScriptNumbers.HexPrefix(text[2..]) == "";
    ReadAsZero(text);
  }

  /** The finding's input itself: "0x9" is stored as 9. */
  lemma NineInHexLeavesTheTable(text: string)
    requires text == "0x9"
    ensures ValidateCoordinateAsWritten(text, MapX).Accepted?
    ensures JavaScriptNumbers.ParseInt(text) == Some(9) && !OnGrid(9, 0)
  {
    assert text[..2] == "0x" && JavaScriptNumbers.HexDigitValue(text[2]) == 9;
    HexAnswerPassesAsWritten(text);
  }

  /** The corrected validator of `xPlaceQuestion`: it reads the text as it
      is stored. */
  function ValidateX(value: string): Verdict {
    ValidateCoordinate(value, MapX)
  }

  /** The corrected validator of `yPlaceQuestion`. */
  function ValidateY(value: string): Verdict {
    ValidateCoordinate(value, MapY)
  }

  /** With the corrected validators, the two prompts together accept exactly
      the spellings of the table's cells: nothing they let through lies off
      the table, and every cell can be entered. The prompts as written also
      let "0x9" through (`HexAnswerPassesAsWritten`). */
  lemma PromptsAcceptExactlyTheCells(xs: string, ys: string)
    ensures ValidateX(xs).Accepted? && ValidateY(ys).Accepted? <==>
      exists x, y :: OnGrid(x, y) && xs == IntToString(x) && ys == IntToString(y)
  {
    if ValidateX(xs).Accepted? && ValidateY(ys).Accepted? {
      var x, y := ParseInt(xs).value, ParseInt(ys).value;
      ParseIntCanonical(xs);
      ParseIntCanonical(ys);
      assert OnGrid(x, y) && xs == IntToString(x) && ys == IntToString(y);
    }
    if exists x, y :: OnGrid(x, y) && xs == IntToString(x) && ys == IntToString(y) {
      var x, y :| OnGrid(x, y) && xs == IntToString(x) && ys == IntToString(y);
      IntToStringRoundTrip(x);
      IntToStringRoundTrip(y);
    }
  }

  /** The rejection messages name the last valid index, "4" on this table. */
  lemma RangeMessageNamesLastIndex()
    ensures OutOfRange(MapX) == "Please enter a number between 0 and 4"
    ensures OutOfRange(MapY) == OutOfRange(MapX)
  {
    assert IntToString(4) == [DigitChar(4)];
  }
}
