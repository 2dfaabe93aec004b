# Turtle graphics interpreter: a Dafny model

The program reads a text file of turtle commands, one per line (`DRAW 10`,
`MOVE 5`, `ROTATE -90`, `FG 3`, `BG 0`, `PATTERN *`). It checks every line,
stores the valid ones in a linked list in file order and, when no line was
rejected, runs them against a graphics state and draws on the terminal.

This project models that core in Dafny and proves properties of the model.

- **Line validator** (`validators.c`, `stringoperations.c`, and the loop body
  of `main` in `readinput.c`):
  - `strtok(" ")` is the sequence of tokens it hands out. Its hidden position
    is an explicit `Cursor` passed from one check to the next.
  - `strtod` and `strtol` are prefix scanners that report how many characters
    they consumed, which is what their end pointer tells the caller.
  - The three function pointers chosen by `validateCommandName` are a `Checks`
    value.
  - The outcome of a line is a `Verdict`: blank, unrecognised, bad fields,
    bad range or accepted.
- **Command store** (`listoperations.c`, `storeCommand`): a class of heap
  nodes whose `next` pointers the inserts rewrite. Ghost sequences name the
  nodes and their contents.
- **Interpreter** (`draw.c`, `conversions.c`):
  - `GraphicsState` is a class whose fields every command updates in place.
  - `draw` runs the original do-while loop over the list nodes.
  - It is proved against `Run`/`Effects`, a fold of a pure `Step` function
    over the stored commands.
  - The terminal library calls (`clearScreen`, `setFgColour`, `setBgColour`,
    `line`, `penDown`) are recorded as a sequence of `Effect` values.
  - The compile-time `SIMPLE` switch is a boolean in `Env`.
  - cos and sin of degrees are a parameter `Trig`, since libm is not part of
    the model.

Modules: `StringOperations`, `Conversions`, `CLibrary` (strtok, strtod,
strtol, atof, atoi), `Optional`, `StructSet`, `LinkedLists`, `Validators`,
`Draw`, `ReadInput` (the read loop, storeCommand and the decision to draw)
and `FileProperties` (what a whole file leads to).

Where the repository's documentation and its code differ, the model follows
the code:

- A file counts as empty when it has at most `MIN_FILE_DATA` = 1 byte
  (`readinput.c:133`), not zero bytes.
- storeCommand's comment says commands are kept "in reverse order"
  (`readinput.c:242`). It calls `insertLast`, so the list is in file order
  (`FileProperties.AllAcceptedStoredInOrder`).
- A value-less `DRAW\n` is reported as an unknown command, not as a missing
  parameter. Its only token is `"DRAW\n"`, newline included
  (`FileProperties.DrawWithoutValue`).
- The parameter check only looks at the token right after the value, and
  only asks it to be made of control characters and spaces. `DRAW 5 \n` and
  `DRAW 5 \t 7\n` are accepted, while `PATTERN * \n` is refused
  (`FileProperties.DrawTrailingSpace`, `ExtraTokensIgnored`,
  `PatternTrailingSpace`).
- When the data type check and the parameter check both fail, both failures
  are reported for the line (`Verdict.BadFields` keeps both results).

## Model

| member | source | states |
|---|---|---|
| StringOperations.StringUpperCase | stringoperations.c:41-55 | the array afterwards is `Upper` of its old contents, rewritten in place by the for loop |
| StringOperations.UpperAt | stringoperations.c:45-54 | the length is kept; a character in 97..122 becomes that code minus 32 and every other character is unchanged |
| StringOperations.UpperLength | stringoperations.c:45-54 | upper-casing keeps the length |
| StringOperations.UpperHasNoLower | stringoperations.c:50-53 | afterwards no character in 'a'..'z' remains |
| StringOperations.UpperOfUpper | stringoperations.c:48-53 | a string without lower-case letters is left as it is |
| StringOperations.UpperIdempotent | stringoperations.c:48-53 | upper-casing twice is upper-casing once |
| StringOperations.UpperAppend | stringoperations.c:45-54 | upper-casing works character by character: it distributes over concatenation |
| StringOperations.UpperCaseCopy | validators.c:62-63 | the upper-cased copy of a token is `Upper` of it |
| StringOperations.CtrlCountBounds | stringoperations.c:93-105 | the count of control characters and spaces is at most the length, and equals it exactly when every character is one |
| StringOperations.StringIsCtrl | stringoperations.c:84-108 | -1 exactly when every character is a control character or a space (so for the empty string too), otherwise 0; the string is only read |
| Conversions.ZeroDistanceStays | conversions.c:42-50 | a step of distance 0 ends at its start |
| Conversions.StepsAdd | conversions.c:42-50 | two steps along one heading are one step of the summed distance |
| Conversions.StepBackReturns | conversions.c:42-50 | a step back by the same distance returns to the start |
| Conversions.RoundIsNearest | conversions.c:70-76 | round(x) is within 1/2 of x, and it is the only integer k with k - 1/2 <= x < k + 1/2 |
| Conversions.RoundTies | conversions.c:70-76 | ties go towards +infinity: round(2.5) = 3, round(-2.5) = -2 |
| Conversions.RoundShift | conversions.c:70-76 | whole numbers are kept and rounding commutes with integer shifts |
| Conversions.Fmod360Bounds | conversions.c:96 | fmod(x, 360) lies in [0, 360) for x >= 0 and in (-360, 0] for x < 0 |
| Conversions.NormalisedUnique | conversions.c:94-97 | the value in [0, 360) that differs from a by whole turns is unique |
| Conversions.DefineAngleIsNormalised | conversions.c:94-97 | defineAngle(a) is a reduced by whole turns into [0, 360), negative a included |
| Conversions.DefineAngleIdentity | conversions.c:94-97 | defineAngle is the identity on [0, 360) and is idempotent |
| Conversions.DefineAnglePeriodic | conversions.c:94-97 | adding or removing a whole turn does not change defineAngle |
| Conversions.DefineAngleExamples | conversions.c:94-97 | defineAngle(370) = 10, defineAngle(-10) = 350, defineAngle(720) = 0 |
| CLibrary.WordLength | readinput.c:273-274 | the length of the leading run of non-space characters: all before it are non-space, and a space or the end follows |
| CLibrary.Tokens | readinput.c:273-274 | every token strtok hands out is non-empty and contains no space |
| CLibrary.TokensOfWord | readinput.c:273-274 | a space-free word followed by a space or the end is handed out whole |
| CLibrary.TokensJoin | readinput.c:273-274 | the tokens of a + " " + b are those of a followed by those of b |
| CLibrary.TokensNotEmpty | validators.c:62 | a line with a non-space character yields a first token, so the first strtok call does not return NULL |
| CLibrary.StrtodSound | validators.c:153-156 | what strtod consumes is leading whitespace followed by a real literal |
| CLibrary.StrtodComplete | validators.c:153-156 | whitespace then a real literal, followed by neither a digit nor '.', is consumed exactly |
| CLibrary.StrtolSound | validators.c:200-224 | what strtol consumes is leading whitespace followed by an integer literal |
| CLibrary.StrtolComplete | validators.c:200-224 | whitespace then an integer literal, followed by a non-digit, is consumed exactly |
| CLibrary.ConvertDigits | validators.c:400-418 | strtod and strtol of a digit string followed by the end or a newline consume the digits and give their decimal value |
| CLibrary.ConvertNegativeDigits | validators.c:400-418 | the same with a leading minus sign gives the negated value |
| CLibrary.LeadingZeros | readinput.c:268-278 | leading zeros do not change the value of a digit string |
| Validators.Lookup | validators.c:55-110 | the table lookup finds checks exactly when the name is in the table |
| Validators.DispatchRecognises | validators.c:55-110 | a name is recognised exactly when it is one of DRAW, MOVE, ROTATE, FG, BG, PATTERN |
| Validators.DispatchPairing | validators.c:66-107 | real check for DRAW, MOVE, ROTATE; integer check for FG, BG; character check and pattern parameter check for PATTERN alone; one range check per name |
| Validators.ValidateCommandName | validators.c:55-110 | -1 with the checks of the upper-cased first token when it is a command name, 0 otherwise; the cursor is after the first token |
| Validators.RealTokenOkIff | validators.c:143-167 | the real check passes exactly when the token is whitespace, a real literal, then nothing or a newline |
| Validators.IntTokenOkIff | validators.c:200-224 | the integer check passes exactly when the token is whitespace, an integer literal, then nothing or a newline |
| Validators.ValidateReal | validators.c:143-167 | takes the next token; -1 exactly when it exists and strtod stopped after some characters at its newline or end; returns the end pointer's remainder |
| Validators.ValidateInt | validators.c:200-224 | the same with strtol in base 10 |
| Validators.ValidateChar | validators.c:248-270 | takes the next token; -1 exactly when it exists and its first character is printable |
| Validators.ValidateParameters | validators.c:303-333 | takes one more token; -1 exactly when the remainder is empty or starts with a newline and that token is absent or only control characters and spaces |
| Validators.ValidatePatternParameters | validators.c:356-376 | takes one more token; -1 exactly when the value token has length 2 and no token follows |
| Validators.ValidateRange | validators.c:400-598 | each range check answers -1 (in range) or 0 |
| LinkedLists.LinkedList.constructor | listoperations.c:37-49 | a list with a NULL head, holding nothing |
| LinkedLists.LinkedList.InsertFirst | listoperations.c:66-79 | the value becomes the first element and the old elements follow in their order |
| LinkedLists.LinkedList.InsertLast | listoperations.c:101-127 | walks to the node whose next is NULL and links the value there: it becomes the last element, the old ones keep their order |
| LinkedLists.LinkedList.IsEmpty | listoperations.c:146-157 | -1 exactly when nothing is stored (the head is NULL), otherwise 0 |
| Draw.RunSnoc | draw.c:126-189 | running one more command is one step from where the prefix stopped |
| Draw.RunAppend | draw.c:126-189 | running a + b is running a, then b from where a stopped; the calls of a + b are those of a, then those of b |
| Draw.StepShape | draw.c:139-179 | only ROTATE turns, only FG and BG recolour (and not under SIMPLE), and only DRAW calls line(), once |
| Draw.StepFrames | draw.c:139-179 | ROTATE changes only the heading; MOVE only the position; PATTERN only the pattern; an unknown name nothing |
| Draw.AngleStaysNormal | draw.c:350-355 | starting in [0, 360), the heading stays in [0, 360) after any commands |
| Draw.SimpleKeepsColours | draw.c:380-417 | under SIMPLE no command changes a colour, and the commands call nothing but line() |
| Draw.ColoursStayInRange | draw.c:380-417 | when every FG value is in [0, 15] and every BG value in [0, 7], the colours stay in those ranges |
| Draw.OneLinePerDraw | draw.c:139-148 | line() is called once per DRAW command and for nothing else |
| Draw.DrawEndsLikeMove | draw.c:259-277 | when the drawn line ends on whole coordinates, DRAW d ends where MOVE d does |
| Draw.DrawLine | draw.c:246-278 | records the old position, calls line() from the rounded start to the rounded end of a line of distance - 1, and leaves the position one unit past the rounded end |
| Draw.Move | draw.c:315-326 | records the old position and advances the position by the value along the heading; nothing else changes |
| Draw.Rotate | draw.c:350-355 | the heading becomes defineAngle(heading + value), in [0, 360); nothing else changes |
| Draw.ChangeFgColour | draw.c:380-386 | stores atoi of the value as the foreground and sets it, except under SIMPLE, where nothing changes |
| Draw.ChangeBgColour | draw.c:411-417 | the same for the background |
| Draw.SetPattern | draw.c:440-443 | the pattern becomes the value's first character; nothing else changes |
| Draw.RunCommand | draw.c:135-179 | the state change and the library calls of one command are those `Step` gives for its upper-cased name |
| Draw.Draw | draw.c:53-198 | an empty list draws nothing; otherwise every stored command runs once in list order from the initial state, between clearScreen (and the SIMPLE colours) and penDown |
| Draw.RunOne | draw.c:126-189 | a one-element list runs its single command |
| Draw.DecodeRotate | draw.c:136-161 | names are compared after upper-casing: "rotate" selects ROTATE |
| Draw.DrawTenExample | draw.c:246-278 | DRAW 10 from the origin at heading 0 draws from (0, 0) to (9, 0) and ends at (10, 0) |
| Draw.RotateExample | draw.c:350-355 | ROTATE 370 from heading 0 gives 10 and ROTATE -10 gives 350 |
| Draw.PatternExample | draw.c:440-443 | after PATTERN *, the next line is plotted with '*' |
| ReadInput.NotBlankHasToken | readinput.c:151-155 | a line that is not blank has a first token |
| ReadInput.CheckFields | readinput.c:166-197 | both field checks run; the range check decides only when both pass, and anything but a field failure had a value token |
| ReadInput.Judge | readinput.c:155-197 | an unknown name is rejected before any field check; an accepted line has at least two tokens |
| ReadInput.Classify | readinput.c:151-199 | a line is blank exactly when it is only control characters and spaces; an accepted line has a name and a value token |
| ReadInput.ValidateLine | readinput.c:151-199 | running stringIsCtrl, validateCommandName and the checks it selects gives the line's verdict |
| ReadInput.StoreCommand | readinput.c:260-282 | appends the line's first two tokens, as read, at the end of the list (corrected buffers) |
| ReadInput.StoreCommandFixedBuffers | readinput.c:268-278 | the code as written: the same append, defined only when the tokens fit 11 and 18 bytes with their NUL |
| ReadInput.Strcpy | readinput.c:277-278 | the buffer holds the string followed by a NUL |
| ReadInput.PrefixStep | readinput.c:142-202 | one more line adds its stored command, its error line number and its rejection to what came before |
| ReadInput.ReadLines | readinput.c:142-202 | the list holds the accepted lines' commands in file order; lineNo counts every line; isInvalid is -1 exactly when some line was rejected; the error lines are the rejected ones |
| ReadInput.ProcessFile | readinput.c:129-221 | a file of at most 1 byte is empty; otherwise the read loop runs, and draw runs exactly when no line was rejected |
| FileProperties.ValidCommandsAppend | readinput.c:142-202 | the commands stored from a + b are those from a, then those from b |
| FileProperties.AllAcceptedStoredInOrder | readinput.c:273-281 | when every line is accepted, command i is line i's name and value: file order, not reverse order |
| FileProperties.LinesPartition | readinput.c:142-199 | every line is stored, reported or skipped as blank, exactly one of these |
| FileProperties.ErrorLinesExact | readinput.c:144-188 | the reported numbers are exactly the 1-based numbers of the rejected lines, in increasing order |
| FileProperties.AnyRejectedIff | readinput.c:159-188 | isInvalid is set exactly when some line is reported |
| FileProperties.RejectedLineStopsDrawing | readinput.c:218-221 | one rejected line anywhere stops the drawing, and its number is reported |
| FileProperties.CleanFileIsDrawn | readinput.c:218-221 | without a rejected line, every stored command is drawn |
| FileProperties.DispatchMatchesDecode | draw.c:139-179 | the validator's names and the interpreter's strcmp chain agree |
| FileProperties.DispatchIgnoresCase | validators.c:62-66 | "dRaW" selects the checks of "DRAW" |
| FileProperties.AcceptedAdmissible | readinput.c:181-196 | an accepted line's command selects a draw branch, and its FG or BG value is in range |
| FileProperties.StoredAdmissible | readinput.c:181-196 | every stored command is admissible |
| FileProperties.DrawnColoursInRange | draw.c:380-417 | whatever the file, a drawing ends with the foreground in [0, 15] and the background in [0, 7] |
| FileProperties.NameFits | readinput.c:269 | an accepted name fits the 11-byte name buffer with its NUL |
| FileProperties.NewlineNameUnrecognised | validators.c:62-66 | a name token that keeps the line's newline is never a command name |
| FileProperties.DrawWithoutValue | validators.c:62-66 | "DRAW\n" is reported as an unknown command |
| FileProperties.PatternAccepted | validators.c:356-376 | "PATTERN c\n" with a printable, non-space c is accepted |
| FileProperties.PatternTrailingSpace | validators.c:356-376 | "PATTERN c \n" fails the parameter check: its value token has length 1 and a token follows |
| FileProperties.DrawTrailingSpace | validators.c:303-333 | "DRAW d t" with t only control characters (a newline, say) is accepted |
| FileProperties.ExtraTokensIgnored | validators.c:303-333 | only the token after the value is examined: whatever follows a control-only third token is ignored |
| FileProperties.FgLine | validators.c:510-528 | "FG d\n" is accepted exactly when the digits' value is at most 15, and otherwise fails the range check |
| FileProperties.FgBoundary | validators.c:510-528 | "FG 15\n" is accepted and "FG 16\n" fails the range check |
| FileProperties.RangeOfDigits | validators.c:400-569 | the range checks are inclusive: DRAW and MOVE 0..80, FG 0..15, BG 0..7; a negative value fails all four |
| FileProperties.ValueOverflow | readinput.c:268-278 | "DRAW " + 17 zeros + "5\n" is accepted although its value token does not fit the 18-byte buffer |

## Left out

- File and process handling in `main`: the argument count, fopen, fseek/ftell/rewind, ferror, fclose and the report printing. The file size and the lines are inputs of `ReadInput.ProcessFile`.
- fgets splits lines longer than 100 characters into several reads. The model takes the lines as they arrive, each with its newline.
- `graphics.log` and the DEBUG trace on stderr; `plotPoint`, which only prints.
- The terminal library (`clearScreen`, `setFgColour`, `setBgColour`, `line`, `penDown`) is not part of this model. Its calls are recorded as `Effect` values, with `line` carrying the rounded end points and the pattern.
- IEEE-754 doubles: positions and angles are mathematical reals, and cos and sin of degrees are a parameter (`Conversions.Trig`).
- The full grammars of strtod and strtol: exponents, hexadecimal, inf and nan are not modelled. The scanners accept leading whitespace, an optional sign, digits and, for strtod, one fraction.
- Overflow of atoi, of strtol and of the C int counters: integers are unbounded.
- malloc and free, freeList, and the handling of a failed malloc.
- A missing value token: the C code passes a stale or NULL errorString to validateParameters and dereferences NULL in validateChar. The model fails both the data type check and the parameter check.
- Characters above 127 and NUL inside a line: strings are sequences of characters, and `iscntrl`, `isprint` and `isspace` follow the C locale.
- draw upper-cases each stored name in place. The model compares the upper-cased copy (`StringOperations.UpperCaseCopy`), and the stored names are not read again before the list is freed.
- printf messages: only the verdict categories and the reported line numbers are kept.
- Validators.ValidateRange: its own contract only says -1 or 0. The inclusive bounds are stated for decimal values by `FileProperties.RangeOfDigits` and for whole lines by `FileProperties.FgLine`.
- The examples in `FileProperties` (`DrawTrailingSpace`, `ExtraTokensIgnored`, `PatternTrailingSpace`) write lines in nested concatenation form, such as `"DRAW" + " " + (d + " " + t)`. This is the same text as the flat literal.

## Findings

| source | as written | input that shows it | evidently intended | confidence | as-written member | corrected member |
|---|---|---|---|---|---|---|
| readinput.c:270-278, readinput.h:35 | storeCommand copies the value token with strcpy into a buffer of MAX_DIGITS = 18 bytes, but validation accepts values of any length up to the 100-character line | `DRAW 000000000000000005` plus a newline (value token of 19 characters) passes every check and overflows the buffer | store the whole value token, or have validation refuse tokens that do not fit | not executed | ReadInput.StoreCommandFixedBuffers, FileProperties.ValueOverflow | ReadInput.StoreCommand |
