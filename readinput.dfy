/*
 * The reading side of main() (readinput.c): the file-size test, the loop that
 * validates each line and stores the valid ones, the decision to draw, and
 * storeCommand. The lines are given as fgets returns them, each with its
 * newline; opening, seeking and reading the file are not part of this model.
 */
module ReadInput {
  import opened Optional
  import opened StringOperations
  import opened CLibrary
  import opened StructSet
  import opened LinkedLists
  import opened Validators
  import opened Draw

  /** Size of the line buffer handed to fgets (readinput.h). */
  const BUFFER_LENGTH: nat := 101
  /** A file of at most this many bytes counts as empty. */
  const MIN_FILE_DATA: int := 1
  /** Size of the buffer storeCommand allocates for a name, NUL included. */
  const MAX_CMD_NAME: nat := 11
  /** Size of the buffer storeCommand allocates for a value, NUL included. */
  const MAX_DIGITS: nat := 18

  /** The outcome of validating one line. */
  datatype Verdict =
    | Blank                                     // only control characters and spaces: skipped
    | Unrecognised                              // the first token is not a command name
    | BadFields(dataTypeOk: bool, paramsOk: bool) // a data type or parameter check failed
    | BadRange                                  // both passed, the range check failed
    | Accepted                                  // stored

  /** The lines main() reports an error for. */
  predicate Rejected(v: Verdict)
  {
    v.Unrecognised? || v.BadFields? || v.BadRange?
  }

  /** A line that is not blank has a first token for strtok to return. */
  lemma NotBlankHasToken(line: string)
    requires !AllCtrl(line)
    ensures Tokens(line) != []
  {
    var i :| 0 <= i < |line| && !IsBlankChar(line[i]);
    TokensNotEmpty(line, i);
  }

  /** The verdict on a line once its name token selected the checks `c`: the
      data type and parameter checks (both always run), then the range check. */
  function CheckFields(c: Checks, value: Option<string>, other: Option<string>): (v: Verdict)
    ensures v.BadFields? || v.BadRange? || v.Accepted?
    ensures !v.BadFields? ==> value.Some?
  {
    var dataOk := DataTypeOk(c.dataType, value);
    var paramsOk := ParamsOk(c, value, other);
    if !dataOk || !paramsOk then BadFields(dataOk, paramsOk)
    else if ValidateRange(c.range, value.value) == 0 then BadRange
    else Accepted
  }

  /** The verdict on the tokens of a line that is not blank: the name check,
      then the checks the name selects on the second and third tokens. */
  function Judge(toks: seq<string>): (v: Verdict)
    requires toks != []
    ensures v != Blank
    ensures v == Accepted ==> |toks| >= 2
  {
    match Dispatch(Upper(toks[0]))
    case None => Unrecognised
    case Some(c) => CheckFields(c, TokenAt(Cursor(toks, 1)), TokenAt(Cursor(toks, 2)))
  }

  /** The verdict on one line. */
  function Classify(line: string): (v: Verdict)
    ensures v == Blank <==> AllCtrl(line)
    ensures v == Accepted ==> |Tokens(line)| >= 2
  {
    if AllCtrl(line) then Blank
    else
      NotBlankHasToken(line);
      Judge(Tokens(line))
  }

  /** The body of main()'s read loop for one line: stringIsCtrl, then
      validateCommandName, the data type check, the parameter check and, when
      both pass, the range check. */
  method ValidateLine(line: string) returns (v: Verdict)
    ensures v == Classify(line)
  {
    var isCtrl := StringIsCtrl(line);
    if isCtrl != 0 {
      return Blank;
    }
    NotBlankHasToken(line);
    var foundCommand, checks, cursor := ValidateCommandName(line);
    if foundCommand == 0 {
      return Unrecognised;
    }
    var c := checks.value;
    var correctDataType: int;
    var strValue: Option<string>;
    var errorString: Option<string> := None;
    match c.dataType {
      case RealType =>
        correctDataType, strValue, errorString, cursor := ValidateReal(cursor);
      case IntType =>
        correctDataType, strValue, errorString, cursor := ValidateInt(cursor);
      case CharType =>
        correctDataType, strValue, cursor := ValidateChar(cursor);
    }
    var correctParameters: int;
    match c.param {
      case OneParameter =>
        correctParameters, cursor := ValidateParameters(strValue, errorString, cursor);
      case OnePatternParameter =>
        correctParameters, cursor := ValidatePatternParameters(strValue, cursor);
    }
    if correctParameters == 0 || correctDataType == 0 {
      return BadFields(correctDataType != 0, correctParameters != 0);
    }
    var correctRange := ValidateRange(c.range, strValue.value);
    if correctRange == 0 {
      return BadRange;
    }
    return Accepted;
  }

  /** The command storeCommand builds from a line: its first two tokens, as read. */
  function StoredCommand(line: string): Command
    requires |Tokens(line)| >= 2
  {
    Command(Tokens(line)[0], Tokens(line)[1])
  }

  /** The commands the read loop stores, in file order. */
  function ValidCommands(lines: seq<string>): seq<Command>
  {
    if lines == [] then []
    else
      var last := lines[|lines| - 1];
      ValidCommands(lines[..|lines| - 1]) + (if Classify(last) == Accepted then [StoredCommand(last)] else [])
  }

  /** The 1-based numbers of the lines main() reports an error for; blank lines
      are counted too. */
  function ErrorLines(lines: seq<string>): seq<nat>
  {
    if lines == [] then []
    else ErrorLines(lines[..|lines| - 1]) + (if Rejected(Classify(lines[|lines| - 1])) then [|lines|] else [])
  }

  /** Some line of the file is rejected. */
  predicate AnyRejected(lines: seq<string>)
  {
    exists i :: 0 <= i < |lines| && Rejected(Classify(lines[i]))
  }

  /** storeCommand: re-tokenises the line and appends (name, value) at the end of
      the list, whatever the lengths of the two tokens. */
  method StoreCommand(line: string, list: LinkedList<Command>)
    requires list.Valid() && |Tokens(line)| >= 2
    modifies list, list.Repr
    ensures list.Valid() && fresh(list.Repr - old(list.Repr))
    ensures list.Contents == old(list.Contents) + [StoredCommand(line)]
  {
    var tokens := Tokens(line);
    var cmdName := tokens[0];
    var cmdValue := tokens[1];
    list.InsertLast(Command(cmdName, cmdValue));
  }

  /** storeCommand as the C code has it: strcpy of each token into a buffer of
      MAX_CMD_NAME and of MAX_DIGITS characters. The copies are only defined
      when each token and its NUL fit, hence the second precondition. */
  method StoreCommandFixedBuffers(line: string, list: LinkedList<Command>)
    requires list.Valid() && |Tokens(line)| >= 2
    requires |Tokens(line)[0]| < MAX_CMD_NAME && |Tokens(line)[1]| < MAX_DIGITS
    modifies list, list.Repr
    ensures list.Valid() && fresh(list.Repr - old(list.Repr))
    ensures list.Contents == old(list.Contents) + [StoredCommand(line)]
  {
    var name := new char[MAX_CMD_NAME];
    var value := new char[MAX_DIGITS];
    var tokens := Tokens(line);
    var cmdName, cmdValue := tokens[0], tokens[1];
    Strcpy(name, cmdName);
    Strcpy(value, cmdValue);
    list.InsertLast(Command(name[..|cmdName|], value[..|cmdValue|]));
  }

  /** strcpy into a buffer that holds the string and its NUL. */
  method Strcpy(dest: array<char>, src: string)
    requires |src| < dest.Length
    modifies dest
    ensures dest[..|src|] == src && dest[|src|] == 0 as char
  {
    var i := 0;
    while i < |src|
      invariant 0 <= i <= |src|
      invariant dest[..i] == src[..i]
    {
      dest[i] := src[i];
      i := i + 1;
    }
    dest[i] := 0 as char;
  }

  /** main()'s read loop: counts every line, skips blank ones, sets isInvalid for
      each rejected line (it is never cleared) and stores each accepted one. */
  method ReadLines(lines: seq<string>) returns (list: LinkedList<Command>, lineNo: nat, cmdsRead: nat, isInvalid: int, errorLines: seq<nat>)
    ensures fresh(list) && list.Valid()
    ensures list.Contents == ValidCommands(lines)
    ensures lineNo == |lines| && cmdsRead == |ValidCommands(lines)|
    ensures isInvalid == -1 <==> AnyRejected(lines)
    ensures isInvalid == 0 <==> !AnyRejected(lines)
    ensures errorLines == ErrorLines(lines)
  {
    list := new LinkedList();
    lineNo, cmdsRead, isInvalid, errorLines := 0, 0, 0, [];
    while lineNo < |lines|
      invariant 0 <= lineNo <= |lines|
      invariant fresh(list) && list.Valid() && fresh(list.Repr)
      invariant list.Contents == ValidCommands(lines[..lineNo])
      invariant cmdsRead == |list.Contents|
      invariant isInvalid == if AnyRejected(lines[..lineNo]) then -1 else 0
      invariant errorLines == ErrorLines(lines[..lineNo])
    {
      var line := lines[lineNo];
      PrefixStep(lines, lineNo);
      lineNo := lineNo + 1;
      var v := ValidateLine(line);
      if Rejected(v) {
        isInvalid := -1;
        errorLines := errorLines + [lineNo];
      } else if v == Accepted {
        cmdsRead := cmdsRead + 1;
        StoreCommand(line, list);
      }
    }
    assert lines[..lineNo] == lines;
  }

  /** Reading one more line: what the loop has stored and reported so far grows
      by that line's contribution. */
  lemma PrefixStep(lines: seq<string>, n: nat)
    requires n < |lines|
    ensures ValidCommands(lines[..n + 1])
         == ValidCommands(lines[..n]) + (if Classify(lines[n]) == Accepted then [StoredCommand(lines[n])] else [])
    ensures ErrorLines(lines[..n + 1])
         == ErrorLines(lines[..n]) + (if Rejected(Classify(lines[n])) then [n + 1] else [])
    ensures AnyRejected(lines[..n + 1]) <==> AnyRejected(lines[..n]) || Rejected(Classify(lines[n]))
  {
    var p, q := lines[..n], lines[..n + 1];
    assert q[..n] == p && q[n] == lines[n];
    if AnyRejected(p) {
      var i :| 0 <= i < |p| && Rejected(Classify(p[i]));
      assert q[i] == p[i];
    }
    if AnyRejected(q) {
      var i :| 0 <= i < |q| && Rejected(Classify(q[i]));
      if i < n { assert p[i] == q[i]; }
    }
  }

  /** What draw() produced, when main() called it. */
  datatype Drawing =
    | NotDrawn
    | Drawn(drew: bool, effects: seq<Effect>, final: State)

  /** What main() reports for a file: "no data", or the number of valid
      commands, the error flag, the failing line numbers and the drawing. */
  datatype Report =
    | EmptyFile
    | Finished(cmdsRead: nat, isInvalid: int, errorLines: seq<nat>, drawing: Drawing)

  /** The report for a file of `fileSize` bytes whose lines are `lines`. */
  function Expected(fileSize: int, lines: seq<string>, env: Env): Report
  {
    if fileSize <= MIN_FILE_DATA then EmptyFile
    else
      var cmds := ValidCommands(lines);
      var invalid := AnyRejected(lines);
      Finished(|cmds|, if invalid then -1 else 0, ErrorLines(lines),
               if invalid then NotDrawn
               else Drawn(cmds != [], DrawEffects(cmds, env), Run(Initial(env.simple), cmds, env)))
  }

  /** main() after the argument check: the size test, the read loop and, when
      no line was rejected, draw(). */
  method ProcessFile(fileSize: int, lines: seq<string>, env: Env) returns (report: Report)
    ensures report == Expected(fileSize, lines, env)
  {
    if fileSize <= MIN_FILE_DATA {
      return EmptyFile;
    }
    var list, lineNo, cmdsRead, isInvalid, errorLines := ReadLines(lines);
    var drawing := NotDrawn;
    if isInvalid == 0 {
      var drew, effects, final := Draw.Draw(list, env);
      drawing := Drawn(drew, effects, final);
    }
    report := Finished(cmdsRead, isInvalid, errorLines, drawing);
  }
}
