/*
 * The line validator (validators.c). A line is split by strtok(" "); the first
 * token, upper-cased, selects three checks (data type, parameter count, range)
 * that are then applied to the following tokens. strtok's hidden position is
 * the explicit Cursor below, handed from one check to the next; the checks that
 * write `strValue` and `errorString` through pointers return them instead.
 */
module Validators {
  import opened Optional
  import opened StringOperations
  import opened CLibrary

  /** The data type check a command uses (CmdDataFunc). */
  datatype DataCheck = RealType | IntType | CharType

  /** The parameter count check a command uses (CmdParamFunc). */
  datatype ParamCheck = OneParameter | OnePatternParameter

  /** The range check a command uses (CmdRangeFunc). */
  datatype RangeCheck = DrawRange | MoveRange | RotateRange | FgRange | BgRange | PatternRange

  /** The three function pointers validateCommandName hands back. */
  datatype Checks = Checks(dataType: DataCheck, param: ParamCheck, range: RangeCheck)

  /** The command names and the checks each one selects, as a table. */
  const CommandTable: seq<(string, Checks)> := [
    ("DRAW", Checks(RealType, OneParameter, DrawRange)),
    ("MOVE", Checks(RealType, OneParameter, MoveRange)),
    ("ROTATE", Checks(RealType, OneParameter, RotateRange)),
    ("FG", Checks(IntType, OneParameter, FgRange)),
    ("BG", Checks(IntType, OneParameter, BgRange)),
    ("PATTERN", Checks(CharType, OnePatternParameter, PatternRange))
  ]

  /** The six command names. */
  const CommandNames: set<string> := {"DRAW", "MOVE", "ROTATE", "FG", "BG", "PATTERN"}

  function Lookup(table: seq<(string, Checks)>, name: string): (r: Option<Checks>)
    ensures r.Some? <==> exists k :: 0 <= k < |table| && table[k].0 == name
  {
    if table == [] then None
    else if table[0].0 == name then Some(table[0].1)
    else Lookup(table[1..], name)
  }

  /** The checks an (already upper-cased) name selects, if it is a command name. */
  function Dispatch(name: string): Option<Checks>
  {
    Lookup(CommandTable, name)
  }

  /** A name is recognised exactly when it is one of the six command names. */
  lemma DispatchRecognises(name: string)
    ensures Dispatch(name).Some? <==> name in CommandNames
  {
    if name in CommandNames {
      assert CommandTable[0].0 == "DRAW" && CommandTable[1].0 == "MOVE" && CommandTable[2].0 == "ROTATE";
      assert CommandTable[3].0 == "FG" && CommandTable[4].0 == "BG" && CommandTable[5].0 == "PATTERN";
    }
  }

  /** The pairing of checks: the real check goes with DRAW, MOVE and ROTATE, the
      integer check with FG and BG, and the character check with PATTERN, which
      alone uses the pattern parameter check; every name has its own range check. */
  lemma DispatchPairing(name: string)
    requires Dispatch(name).Some?
    ensures var c := Dispatch(name).value;
      (c.dataType == RealType <==> name in {"DRAW", "MOVE", "ROTATE"})
      && (c.dataType == IntType <==> name in {"FG", "BG"})
      && (c.dataType == CharType <==> c.param == OnePatternParameter)
      && (c.param == OnePatternParameter <==> name == "PATTERN")
      && (name == "DRAW" <==> c.range == DrawRange)
      && (name == "MOVE" <==> c.range == MoveRange)
      && (name == "ROTATE" <==> c.range == RotateRange)
      && (name == "FG" <==> c.range == FgRange)
      && (name == "BG" <==> c.range == BgRange)
  {
    DispatchRecognises(name);
  }

  /** The position of strtok in the token sequence of the line being checked. */
  datatype Cursor = Cursor(tokens: seq<string>, pos: nat)

  /** What the next strtok(NULL, " ") returns: NULL once the tokens are used up. */
  function TokenAt(c: Cursor): Option<string>
  {
    if c.pos < |c.tokens| then Some(c.tokens[c.pos]) else None
  }

  /** The cursor after one more strtok call. */
  function Advance(c: Cursor): Cursor
  {
    c.(pos := c.pos + 1)
  }

  /** The conversion's remainder is empty ('\0') or starts with a newline. */
  predicate RestOk(rest: string)
  {
    rest == [] || rest[0] == '\n'
  }

  /** Where strtod leaves the end pointer in t. */
  function RealRest(t: string): string
  {
    t[StrtodLength(t)..]
  }

  /** Where strtol leaves the end pointer in t. */
  function IntRest(t: string): string
  {
    t[StrtolLength(t)..]
  }

  /** validateReal's verdict on a token: strtod converted something and stopped at
      the end of the token or at its newline. */
  predicate RealTokenOk(t: string)
  {
    StrtodLength(t) > 0 && RestOk(RealRest(t))
  }

  /** validateInt's verdict on a token. */
  predicate IntTokenOk(t: string)
  {
    StrtolLength(t) > 0 && RestOk(IntRest(t))
  }

  /** validateChar's verdict on a token: its first character is printable (an
      empty string would show its terminating NUL, which is not). */
  predicate CharTokenOk(t: string)
  {
    |t| > 0 && IsPrint(t[0])
  }

  /** A real token is accepted exactly when it is whitespace, a real literal and
      then nothing or a newline. */
  lemma RealTokenOkIff(t: string)
    ensures RealTokenOk(t) <==>
      exists i, j :: 0 <= i <= j <= |t| && AllSpace(t[..i]) && IsRealLiteral(t[i..j]) && RestOk(t[j..])
  {
    if RealTokenOk(t) {
      StrtodSound(t);
      var i, j := Layout(t).space, StrtodLength(t);
      assert AllSpace(t[..i]) && IsRealLiteral(t[i..j]) && RestOk(t[j..]);
    }
    if exists i, j :: 0 <= i <= j <= |t| && AllSpace(t[..i]) && IsRealLiteral(t[i..j]) && RestOk(t[j..]) {
      var i, j :| 0 <= i <= j <= |t| && AllSpace(t[..i]) && IsRealLiteral(t[i..j]) && RestOk(t[j..]);
      assert j < |t| ==> t[j] == t[j..][0];
      StrtodComplete(t, i, j);
      LiteralNotEmpty(t, i, j);
    }
  }

  /** An integer token is accepted exactly when it is whitespace, an integer
      literal and then nothing or a newline. */
  lemma IntTokenOkIff(t: string)
    ensures IntTokenOk(t) <==>
      exists i, j :: 0 <= i <= j <= |t| && AllSpace(t[..i]) && IsIntLiteral(t[i..j]) && RestOk(t[j..])
  {
    if IntTokenOk(t) {
      StrtolSound(t);
      var i, j := Layout(t).space, StrtolLength(t);
      assert AllSpace(t[..i]) && IsIntLiteral(t[i..j]) && RestOk(t[j..]);
    }
    if exists i, j :: 0 <= i <= j <= |t| && AllSpace(t[..i]) && IsIntLiteral(t[i..j]) && RestOk(t[j..]) {
      var i, j :| 0 <= i <= j <= |t| && AllSpace(t[..i]) && IsIntLiteral(t[i..j]) && RestOk(t[j..]);
      assert j < |t| ==> t[j] == t[j..][0];
      StrtolComplete(t, i, j);
    }
  }

  /** A literal has at least one character, so a complete conversion consumed some. */
  lemma LiteralNotEmpty(t: string, i: nat, j: nat)
    requires i <= j <= |t| && IsRealLiteral(t[i..j])
    ensures i < j
  {
  }

  /** The remainder validateParameters inspects: strtod's or strtol's end pointer
      into the value token, and nothing usable when there was no value token or
      the data check does not convert. */
  function ErrorString(d: DataCheck, value: Option<string>): Option<string>
  {
    if value.None? then None
    else match d
      case RealType => Some(RealRest(value.value))
      case IntType => Some(IntRest(value.value))
      case CharType => None
  }

  /** Verdict of the data type check on the value token (a missing token fails). */
  predicate DataTypeOk(d: DataCheck, value: Option<string>)
  {
    value.Some? &&
    match d
      case RealType => RealTokenOk(value.value)
      case IntType => IntTokenOk(value.value)
      case CharType => CharTokenOk(value.value)
  }

  /** Verdict of the parameter check, given the value token and the token after it. */
  predicate ParamsOk(c: Checks, value: Option<string>, other: Option<string>)
  {
    match c.param
      case OneParameter =>
        var e := ErrorString(c.dataType, value);
        e.Some? && RestOk(e.value) && (other.None? || AllCtrl(other.value))
      case OnePatternParameter =>
        value.Some? && |value.value| == 2 && other.None?
  }

  /** validateCommandName: takes the first token of the line, upper-cases it and,
      when it is one of the six names, reports -1 and the checks it selects. */
  method ValidateCommandName(tempLine: string) returns (isValid: int, checks: Option<Checks>, cursor: Cursor)
    requires Tokens(tempLine) != []
    ensures cursor == Cursor(Tokens(tempLine), 1)
    ensures checks == Dispatch(Upper(Tokens(tempLine)[0]))
    ensures isValid == -1 <==> checks.Some?
    ensures isValid == 0 <==> checks.None?
  {
    isValid := 0;
    checks := None;
    var tokens := Tokens(tempLine);
    cursor := Cursor(tokens, 1);
    var command := UpperCaseCopy(tokens[0]);
    if command == "DRAW" {
      isValid := -1;
      checks := Some(Checks(RealType, OneParameter, DrawRange));
    } else if command == "MOVE" {
      isValid := -1;
      checks := Some(Checks(RealType, OneParameter, MoveRange));
    } else if command == "ROTATE" {
      isValid := -1;
      checks := Some(Checks(RealType, OneParameter, RotateRange));
    } else if command == "FG" {
      isValid := -1;
      checks := Some(Checks(IntType, OneParameter, FgRange));
    } else if command == "BG" {
      isValid := -1;
      checks := Some(Checks(IntType, OneParameter, BgRange));
    } else if command == "PATTERN" {
      isValid := -1;
      checks := Some(Checks(CharType, OnePatternParameter, PatternRange));
    }
    DispatchRecognises(command);
  }

  /** validateReal: takes the next token and runs strtod on it. The token passes
      when the end pointer has moved (the lengths differ) and points at '\n' or at
      the terminating NUL. */
  method ValidateReal(cursor: Cursor) returns (isValid: int, strValue: Option<string>, errorString: Option<string>, next: Cursor)
    ensures next == Advance(cursor) && strValue == TokenAt(cursor)
    ensures errorString == ErrorString(RealType, strValue)
    ensures isValid == -1 <==> DataTypeOk(RealType, strValue)
    ensures isValid == 0 <==> !DataTypeOk(RealType, strValue)
  {
    isValid := 0;
    errorString := None;
    strValue := TokenAt(cursor);
    next := Advance(cursor);
    if strValue.Some? {
      var t := strValue.value;
      var rest := t[Strtod(t).consumed..];
      errorString := Some(rest);
      if RestOk(rest) && |t| != |rest| && t != rest {
        isValid := -1;
      }
    }
  }

  /** validateInt: the same with strtol in base 10. */
  method ValidateInt(cursor: Cursor) returns (isValid: int, strValue: Option<string>, errorString: Option<string>, next: Cursor)
    ensures next == Advance(cursor) && strValue == TokenAt(cursor)
    ensures errorString == ErrorString(IntType, strValue)
    ensures isValid == -1 <==> DataTypeOk(IntType, strValue)
    ensures isValid == 0 <==> !DataTypeOk(IntType, strValue)
  {
    isValid := 0;
    errorString := None;
    strValue := TokenAt(cursor);
    next := Advance(cursor);
    if strValue.Some? {
      var t := strValue.value;
      var rest := t[Strtol(t).consumed..];
      errorString := Some(rest);
      if RestOk(rest) && |t| != |rest| && t != rest {
        isValid := -1;
      }
    }
  }

  /** validateChar: takes the next token and accepts it when its first character
      is printable. The C code dereferences a missing token; here that fails. */
  method ValidateChar(cursor: Cursor) returns (isValid: int, strValue: Option<string>, next: Cursor)
    ensures next == Advance(cursor) && strValue == TokenAt(cursor)
    ensures isValid == -1 <==> DataTypeOk(CharType, strValue)
    ensures isValid == 0 <==> !DataTypeOk(CharType, strValue)
  {
    isValid := 0;
    strValue := TokenAt(cursor);
    next := Advance(cursor);
    if strValue.Some? {
      var pattern := if |strValue.value| > 0 then strValue.value[0] else 0 as char;
      if IsPrint(pattern) {
        isValid := -1;
      }
    }
  }

  /** validateParameters: takes one more token; passes when the data check's end
      pointer is at '\n' or NUL and that token is absent or only control
      characters and spaces. */
  method ValidateParameters(strValue: Option<string>, errorString: Option<string>, cursor: Cursor)
    returns (isValid: int, next: Cursor)
    ensures next == Advance(cursor)
    ensures isValid == -1 <==>
      errorString.Some? && RestOk(errorString.value) && (TokenAt(cursor).None? || AllCtrl(TokenAt(cursor).value))
    ensures isValid == 0 || isValid == -1
  {
    isValid := 0;
    var otherParameters := TokenAt(cursor);
    next := Advance(cursor);
    if errorString.Some? && RestOk(errorString.value) {
      if otherParameters.None? {
        isValid := -1;
      } else {
        var isCtrl := StringIsCtrl(otherParameters.value);
        if isCtrl == -1 {
          isValid := -1;
        }
      }
    }
  }

  /** validatePatternParameters: takes one more token; passes when the value token
      is two characters long (the pattern and the newline) and nothing follows. */
  method ValidatePatternParameters(strValue: Option<string>, cursor: Cursor) returns (isValid: int, next: Cursor)
    ensures next == Advance(cursor)
    ensures isValid == -1 <==> strValue.Some? && |strValue.value| == 2 && TokenAt(cursor).None?
    ensures isValid == 0 || isValid == -1
  {
    isValid := 0;
    var otherParameters := TokenAt(cursor);
    next := Advance(cursor);
    if strValue.Some? && |strValue.value| == 2 && otherParameters.None? {
      isValid := -1;
    }
  }

  /** The six range checks: -1 when the value is in range. DRAW and MOVE take
      atof of the value in [0, 80], FG atoi in [0, 15], BG atoi in [0, 7], all
      bounds inclusive; ROTATE and PATTERN accept anything. */
  function ValidateRange(r: RangeCheck, strValue: string): (isValid: int)
    ensures isValid == 0 || isValid == -1
  {
    match r
      case DrawRange => if 0.0 <= Atof(strValue) <= 80.0 then -1 else 0
      case MoveRange => if 0.0 <= Atof(strValue) <= 80.0 then -1 else 0
      case RotateRange => -1
      case FgRange => if 0 <= Atoi(strValue) <= 15 then -1 else 0
      case BgRange => if 0 <= Atoi(strValue) <= 7 then -1 else 0
      case PatternRange => -1
  }
}
