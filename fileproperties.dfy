/*
 * What main()'s read loop guarantees about the commands it stores and the
 * lines it reports, and how the validators and the interpreter fit together.
 */
module FileProperties {
  import opened Optional
  import opened StringOperations
  import opened CLibrary
  import opened StructSet
  import opened Validators
  import opened Draw
  import opened ReadInput

  /** Lines stored from a + b are those stored from a, then those from b. */
  lemma {:induction false} ValidCommandsAppend(a: seq<string>, b: seq<string>)
    ensures ValidCommands(a + b) == ValidCommands(a) + ValidCommands(b)
    decreases |b|
  {
    if b == [] {
      assert a + b == a;
    } else {
      var b' := b[..|b| - 1];
      assert (a + b)[..|a + b| - 1] == a + b';
      assert (a + b)[|a + b| - 1] == b[|b| - 1];
      ValidCommandsAppend(a, b');
    }
  }

  /** When every line is valid, the list holds one command per line, in file order. */
  lemma {:induction false} AllAcceptedStoredInOrder(lines: seq<string>)
    requires forall i :: 0 <= i < |lines| ==> Classify(lines[i]) == Accepted
    ensures |ValidCommands(lines)| == |lines|
    ensures forall i :: 0 <= i < |lines| ==>
      |Tokens(lines[i])| >= 2 && ValidCommands(lines)[i] == StoredCommand(lines[i])
  {
    if lines != [] {
      var p, last := lines[..|lines| - 1], lines[|lines| - 1];
      forall i | 0 <= i < |p| ensures Classify(p[i]) == Accepted {
        assert p[i] == lines[i];
      }
      AllAcceptedStoredInOrder(p);
      assert Classify(last) == Accepted;
      var vp := ValidCommands(p);
      var vc := vp + [StoredCommand(last)];
      assert ValidCommands(lines) == vc;
      forall i | 0 <= i < |lines|
        ensures |Tokens(lines[i])| >= 2 && vc[i] == StoredCommand(lines[i])
      {
        if i < |p| {
          assert lines[i] == p[i];
          assert vc[i] == vp[i];
        }
      }
    }
  }

  /** The lines that are neither stored nor reported. */
  function BlankCount(lines: seq<string>): nat
  {
    if lines == [] then 0
    else BlankCount(lines[..|lines| - 1]) + (if Classify(lines[|lines| - 1]) == Blank then 1 else 0)
  }

  /** Every line is stored, reported or skipped as blank, and exactly one of these. */
  lemma {:induction false} LinesPartition(lines: seq<string>)
    ensures |ValidCommands(lines)| + |ErrorLines(lines)| + BlankCount(lines) == |lines|
  {
    if lines != [] {
      LinesPartition(lines[..|lines| - 1]);
    }
  }

  /** The reported line numbers are exactly the 1-based numbers of the rejected
      lines, in increasing order. */
  lemma {:induction false} ErrorLinesExact(lines: seq<string>)
    ensures forall n :: n in ErrorLines(lines) <==> 1 <= n <= |lines| && Rejected(Classify(lines[n - 1]))
    ensures forall i, j :: 0 <= i < j < |ErrorLines(lines)| ==> ErrorLines(lines)[i] < ErrorLines(lines)[j]
  {
    if lines != [] {
      var p := lines[..|lines| - 1];
      ErrorLinesExact(p);
      forall i | 0 <= i < |p| ensures lines[i] == p[i] { }
      var e := ErrorLines(p);
      forall i | 0 <= i < |e| ensures e[i] <= |p| { assert e[i] in e; }
    }
  }

  /** isInvalid is set exactly when some line is reported. */
  lemma AnyRejectedIff(lines: seq<string>)
    ensures AnyRejected(lines) <==> ErrorLines(lines) != []
  {
    ErrorLinesExact(lines);
    if AnyRejected(lines) {
      var i :| 0 <= i < |lines| && Rejected(Classify(lines[i]));
      assert i + 1 in ErrorLines(lines);
    }
    if ErrorLines(lines) != [] {
      var n := ErrorLines(lines)[0];
      assert n in ErrorLines(lines);
    }
  }

  /** One rejected line anywhere in a file of data stops the drawing, and its
      number is reported. */
  lemma RejectedLineStopsDrawing(fileSize: int, a: seq<string>, bad: string, b: seq<string>, env: Env)
    requires fileSize > MIN_FILE_DATA && Rejected(Classify(bad))
    ensures var r := Expected(fileSize, a + [bad] + b, env);
      r.Finished? && r.isInvalid == -1 && |a| + 1 in r.errorLines && r.drawing == NotDrawn
  {
    var lines := a + [bad] + b;
    assert lines[|a|] == bad;
    ErrorLinesExact(lines);
  }

  /** Without a rejected line, every stored command is drawn. */
  lemma CleanFileIsDrawn(fileSize: int, lines: seq<string>, env: Env)
    requires fileSize > MIN_FILE_DATA
    requires forall i :: 0 <= i < |lines| ==> !Rejected(Classify(lines[i]))
    ensures var r := Expected(fileSize, lines, env);
      r.Finished? && r.isInvalid == 0 && r.errorLines == []
      && r.drawing == Drawn(ValidCommands(lines) != [], DrawEffects(ValidCommands(lines), env),
                            Run(Initial(env.simple), ValidCommands(lines), env))
  {
    AnyRejectedIff(lines);
  }

  /** The validators' table and the interpreter's strcmp chain agree: a name is
      accepted exactly when draw() has a branch for it. */
  lemma DispatchMatchesDecode(name: string)
    ensures Dispatch(Upper(name)).Some? <==> Decode(name) != NoOp
  {
    DispatchRecognises(Upper(name));
  }

  /** A stored command's name selects a branch of draw(), and an FG or BG value
      is a colour number the range check admitted. */
  lemma AcceptedAdmissible(line: string)
    requires Classify(line) == Accepted
    ensures Admissible(StoredCommand(line)) && Decode(StoredCommand(line).name) != NoOp
  {
    NotBlankHasToken(line);
    var toks := Tokens(line);
    var u := Upper(toks[0]);
    DispatchMatchesDecode(toks[0]);
    DispatchPairing(u);
  }

  /** Every command in the list satisfies what draw() relies on. */
  lemma {:induction false} StoredAdmissible(lines: seq<string>)
    ensures forall k :: 0 <= k < |ValidCommands(lines)| ==>
      Admissible(ValidCommands(lines)[k]) && Decode(ValidCommands(lines)[k].name) != NoOp
  {
    if lines != [] {
      var last := lines[|lines| - 1];
      StoredAdmissible(lines[..|lines| - 1]);
      if Classify(last) == Accepted {
        AcceptedAdmissible(last);
      }
    }
  }

  /** Whatever the file, the drawing ends with colour numbers inside the ranges
      the FG and BG checks admit. */
  lemma DrawnColoursInRange(fileSize: int, lines: seq<string>, env: Env)
    requires Expected(fileSize, lines, env).Finished?
    requires Expected(fileSize, lines, env).drawing.Drawn?
    ensures var f := Expected(fileSize, lines, env).drawing.final;
      0 <= f.fgColour <= 15 && 0 <= f.bgColour <= 7
  {
    StoredAdmissible(lines);
    ColoursStayInRange(Initial(env.simple), ValidCommands(lines), env);
  }

  /** Every accepted name fits storeCommand's name buffer with its NUL. */
  lemma NameFits(line: string)
    requires Classify(line) == Accepted
    ensures |Tokens(line)[0]| < MAX_CMD_NAME
  {
    NotBlankHasToken(line);
    var t := Tokens(line)[0];
    DispatchRecognises(Upper(t));
    UpperLength(t);
  }

  /** Two tokens separated by a space. */
  lemma TwoTokens(a: string, b: string)
    requires |a| > 0 && NoSpace(a) && |b| > 0 && NoSpace(b)
    ensures Tokens(a + " " + b) == [a, b]
  {
    TokensJoin(a, b);
    TokensOfWord(a, []);
    TokensOfWord(b, []);
    assert a + [] == a && b + [] == b;
  }

  /** A line that starts with neither a space nor a control character is judged
      on its tokens. */
  lemma ClassifyTokens(line: string, toks: seq<string>)
    requires |line| > 0 && !IsBlankChar(line[0]) && Tokens(line) == toks
    ensures toks != [] && Classify(line) == Judge(toks)
  {
    NotBlankHasToken(line);
  }

  /** A line of a name and a value. */
  lemma JudgeTwo(a: string, b: string, c: Checks)
    requires Dispatch(Upper(a)) == Some(c)
    ensures Judge([a, b]) == CheckFields(c, Some(b), None)
  {
  }

  /** A line of a name, a value and more. */
  lemma JudgeMore(toks: seq<string>, c: Checks)
    requires |toks| >= 3 && Dispatch(Upper(toks[0])) == Some(c)
    ensures Judge(toks) == CheckFields(c, Some(toks[1]), Some(toks[2]))
  {
  }

  /** A name token that keeps the line's newline (a command with no value) is
      never a command name, so such a line is reported, not skipped. */
  lemma NewlineNameUnrecognised(toks: seq<string>, i: nat)
    requires toks != [] && i < |toks[0]| && toks[0][i] == '\n'
    ensures Judge(toks) == Unrecognised
  {
    var t := toks[0];
    UpperAt(t, i);
    UpperLength(t);
    DispatchRecognises(Upper(t));
  }

  /** "DRAW\n": the name is "DRAW\n", so the line is reported as unknown. */
  lemma DrawWithoutValue()
    ensures Classify("DRAW\n") == Unrecognised
  {
    var line := "DRAW\n";
    TokensOfWord(line, []);
    assert line + [] == line;
    ClassifyTokens(line, [line]);
    NewlineNameUnrecognised([line], 4);
  }

  lemma DispatchPattern()
    ensures Dispatch(Upper("PATTERN")) == Some(Checks(CharType, OnePatternParameter, PatternRange))
  {
    assert Upper("PATTERN") == "PATTERN";
  }

  lemma DispatchFg()
    ensures Dispatch(Upper("FG")) == Some(Checks(IntType, OneParameter, FgRange))
  {
    assert Upper("FG") == "FG";
  }

  lemma DispatchDraw()
    ensures Dispatch(Upper("DRAW")) == Some(Checks(RealType, OneParameter, DrawRange))
  {
    assert Upper("DRAW") == "DRAW";
  }

  /** The name is upper-cased before it is looked up, so its case does not matter. */
  lemma DispatchIgnoresCase()
    ensures Dispatch(Upper("dRaW")) == Dispatch(Upper("DRAW")) != None
  {
    assert Upper("dRaW") == "DRAW";
    DispatchDraw();
  }

  /** The pattern checks want the value token to be one printable character and
      the newline, and nothing after it. */
  lemma PatternFields(w: string, other: Option<string>)
    ensures CheckFields(Checks(CharType, OnePatternParameter, PatternRange), Some(w), other)
         == (if |w| > 0 && IsPrint(w[0]) && |w| == 2 && other.None? then Accepted
             else BadFields(|w| > 0 && IsPrint(w[0]), |w| == 2 && other.None?))
  {
  }

  lemma PatternGoodTokens(c: char)
    requires c != ' ' && c != '\n'
    ensures Tokens("PATTERN " + [c, '\n']) == ["PATTERN", [c, '\n']]
  {
    assert "PATTERN " + [c, '\n'] == "PATTERN" + " " + [c, '\n'];
    TwoTokens("PATTERN", [c, '\n']);
  }

  lemma PatternBadTokens(c: char)
    requires c != ' '
    ensures Tokens("PATTERN" + " " + ([c] + " " + "\n")) == ["PATTERN", [c], "\n"]
  {
    TokensOfWord("\n", []);
    assert "\n" + [] == "\n";
    TokenThen([c], "\n");
    TokenThen("PATTERN", [c] + " " + "\n");
    assert ["PATTERN"] + ([[c]] + ["\n"]) == ["PATTERN", [c], "\n"];
  }

  /** "PATTERN *\n" is accepted. */
  lemma PatternAccepted(c: char)
    requires IsPrint(c) && c != ' '
    ensures Classify("PATTERN " + [c, '\n']) == Accepted
  {
    var toks := ["PATTERN", [c, '\n']];
    PatternGoodTokens(c);
    ClassifyTokens("PATTERN " + [c, '\n'], toks);
    DispatchPattern();
    JudgeTwo("PATTERN", [c, '\n'], Checks(CharType, OnePatternParameter, PatternRange));
    PatternFields([c, '\n'], None);
  }

  /** "PATTERN * \n" leaves a space before the newline, so its value token "*"
      has one character and the parameter check fails. */
  lemma PatternTrailingSpace(c: char)
    requires IsPrint(c) && c != ' '
    ensures Classify("PATTERN" + " " + ([c] + " " + "\n")) == BadFields(true, false)
  {
    var toks := ["PATTERN", [c], "\n"];
    PatternBadTokens(c);
    ClassifyTokens("PATTERN" + " " + ([c] + " " + "\n"), toks);
    DispatchPattern();
    JudgeMore(toks, Checks(CharType, OnePatternParameter, PatternRange));
    PatternFields([c], Some("\n"));
  }

  /** The FG checks on a value token and nothing after it. */
  lemma FgFields(w: string)
    requires StrtolLength(w) > 0 && RestOk(IntRest(w))
    ensures CheckFields(Checks(IntType, OneParameter, FgRange), Some(w), None)
         == (if 0 <= Atoi(w) <= 15 then Accepted else BadRange)
  {
  }

  /** A digit string and the newline form one token. */
  lemma DigitsToken(d: string, r: string)
    requires AllDigits(d) && NoSpace(r)
    ensures NoSpace(d + r)
  {
    var w := d + r;
    forall i | 0 <= i < |w| ensures w[i] != ' ' {
      if i < |d| { assert w[i] == d[i] && IsDigit(d[i]); } else { assert w[i] == r[i - |d|]; }
    }
  }

  lemma FgTokens(d: string)
    requires |d| > 0 && AllDigits(d)
    ensures Tokens("FG " + d + "\n") == ["FG", d + "\n"]
  {
    assert "FG " + d + "\n" == "FG" + " " + (d + "\n");
    DigitsToken(d, "\n");
    TwoTokens("FG", d + "\n");
  }

  /** An FG line whose value is a number and its newline. */
  lemma FgLine(d: string)
    requires |d| > 0 && AllDigits(d)
    ensures Classify("FG " + d + "\n") == (if DigitsValue(d) <= 15 then Accepted else BadRange)
  {
    var w := d + "\n";
    FgTokens(d);
    ClassifyTokens("FG " + d + "\n", ["FG", w]);
    DispatchFg();
    JudgeTwo("FG", w, Checks(IntType, OneParameter, FgRange));
    ConvertDigits(d, "\n");
    assert w[|d|..] == "\n";
    FgFields(w);
  }

  lemma DigitsValue15()
    ensures DigitsValue("15") == 15 && DigitsValue("16") == 16
  {
    assert "15"[..1] == "1" && "16"[..1] == "1";
  }

  /** "FG 15\n" is accepted and "FG 16\n" fails the range check. */
  lemma FgBoundary()
    ensures Classify("FG 15\n") == Accepted
    ensures Classify("FG 16\n") == BadRange
  {
    DigitsValue15();
    FgLine("15");
    assert "FG " + "15" + "\n" == "FG 15\n";
    FgLine("16");
    assert "FG " + "16" + "\n" == "FG 16\n";
  }

  /** The DRAW checks on a value token whose conversion stops at its end, with
      a third token made of control characters or none. */
  lemma DrawFields(w: string, other: Option<string>)
    requires StrtodLength(w) == |w| > 0
    requires other.None? || AllCtrl(other.value)
    ensures CheckFields(Checks(RealType, OneParameter, DrawRange), Some(w), other)
         == (if 0.0 <= Atof(w) <= 80.0 then Accepted else BadRange)
  {
    assert w[|w|..] == [];
  }

  /** A token, a space, then the rest. */
  lemma TokenThen(a: string, b: string)
    requires |a| > 0 && NoSpace(a)
    ensures Tokens(a + " " + b) == [a] + Tokens(b)
  {
    TokensJoin(a, b);
    TokensOfWord(a, []);
    assert a + [] == a;
  }

  lemma ExtraTokens(d: string, t: string, rest: string)
    requires |d| > 0 && NoSpace(d) && |t| > 0 && NoSpace(t)
    ensures Tokens("DRAW" + " " + (d + " " + (t + " " + rest))) == ["DRAW", d, t] + Tokens(rest)
  {
    var r2 := d + " " + (t + " " + rest);
    ValueThen(d, t, rest);
    TokenThen("DRAW", r2);
    assert ["DRAW"] + ([d, t] + Tokens(rest)) == ["DRAW", d, t] + Tokens(rest);
  }

  lemma ValueThen(d: string, t: string, rest: string)
    requires |d| > 0 && NoSpace(d) && |t| > 0 && NoSpace(t)
    ensures Tokens(d + " " + (t + " " + rest)) == [d, t] + Tokens(rest)
  {
    TokenThen(t, rest);
    TokenThen(d, t + " " + rest);
    assert [d] + ([t] + Tokens(rest)) == [d, t] + Tokens(rest);
  }

  /** Only the token after the value is looked at: a DRAW line whose third
      token is made of control characters (a tab, say) is accepted whatever
      follows it, as in "DRAW 5 \t 7\n". */
  lemma ExtraTokensIgnored(d: string, t: string, rest: string)
    requires |d| > 0 && AllDigits(d) && DigitsValue(d) <= 80
    requires |t| > 0 && NoSpace(t) && AllCtrl(t)
    ensures Classify("DRAW" + " " + (d + " " + (t + " " + rest))) == Accepted
  {
    var line := "DRAW" + " " + (d + " " + (t + " " + rest));
    var toks := ["DRAW", d, t] + Tokens(rest);
    DigitsToken(d, []);
    assert d + [] == d;
    ExtraTokens(d, t, rest);
    ClassifyTokens(line, toks);
    JudgeDrawThird(toks);
  }

  /** "DRAW 5 \n": the space before the newline makes the newline (here any
      token t of control characters) a third token, which passes the parameter
      check, so the line is accepted, unlike "PATTERN * \n". */
  lemma DrawTrailingSpace(d: string, t: string)
    requires |d| > 0 && AllDigits(d) && DigitsValue(d) <= 80
    requires |t| > 0 && NoSpace(t) && AllCtrl(t)
    ensures Classify("DRAW" + " " + (d + " " + t)) == Accepted
  {
    var line := "DRAW" + " " + (d + " " + t);
    DigitsToken(d, []);
    assert d + [] == d;
    TrailingTokens(d, t);
    ClassifyTokens(line, ["DRAW", d, t]);
    JudgeDrawThird(["DRAW", d, t]);
  }

  lemma TrailingTokens(d: string, t: string)
    requires |d| > 0 && NoSpace(d) && |t| > 0 && NoSpace(t)
    ensures Tokens("DRAW" + " " + (d + " " + t)) == ["DRAW", d, t]
  {
    TokensOfWord(t, []);
    assert t + [] == t;
    TokenThen(d, t);
    TokenThen("DRAW", d + " " + t);
    assert ["DRAW"] + ([d] + [t]) == ["DRAW", d, t];
  }

  /** The verdict on DRAW tokens whose value is a digit string and whose third
      token is made of control characters. */
  lemma JudgeDrawThird(toks: seq<string>)
    requires |toks| >= 3 && toks[0] == "DRAW"
    requires |toks[1]| > 0 && AllDigits(toks[1]) && DigitsValue(toks[1]) <= 80
    requires AllCtrl(toks[2])
    ensures Judge(toks) == Accepted
  {
    var d := toks[1];
    DispatchDraw();
    JudgeMore(toks, Checks(RealType, OneParameter, DrawRange));
    ConvertDigits(d, []);
    assert d + [] == d;
    DrawFields(d, Some(toks[2]));
  }

  /** The range checks on a value written as decimal digits and a newline are
      inclusive: DRAW and MOVE accept 0..80, FG 0..15 and BG 0..7; a negative
      value is refused by all four. */
  lemma RangeOfDigits(d: string)
    requires |d| > 0 && AllDigits(d)
    ensures ValidateRange(DrawRange, d + "\n") == -1 <==> DigitsValue(d) <= 80
    ensures ValidateRange(MoveRange, d + "\n") == -1 <==> DigitsValue(d) <= 80
    ensures ValidateRange(FgRange, d + "\n") == -1 <==> DigitsValue(d) <= 15
    ensures ValidateRange(BgRange, d + "\n") == -1 <==> DigitsValue(d) <= 7
    ensures DigitsValue(d) > 0 ==>
      ValidateRange(DrawRange, "-" + d + "\n") == 0 && ValidateRange(MoveRange, "-" + d + "\n") == 0
      && ValidateRange(FgRange, "-" + d + "\n") == 0 && ValidateRange(BgRange, "-" + d + "\n") == 0
  {
    ConvertDigits(d, "\n");
    ConvertNegativeDigits(d, "\n");
  }

  /** n zero digits. */
  function Zeros(n: nat): (z: string)
    ensures |z| == n && forall i :: 0 <= i < n ==> z[i] == '0'
  {
    if n == 0 then [] else Zeros(n - 1) + "0"
  }

  /** The DRAW checks on a value token that converts up to its newline. */
  lemma DrawNewlineFields(w: string)
    requires 0 < StrtodLength(w) < |w| && w[StrtodLength(w)] == '\n'
    ensures CheckFields(Checks(RealType, OneParameter, DrawRange), Some(w), None)
         == (if 0.0 <= Atof(w) <= 80.0 then Accepted else BadRange)
  {
  }

  /** The validators accept a DRAW value of any length: seventeen leading zeros
      and a 5 make an accepted line whose value token, with its newline, is 19
      characters, more than storeCommand's MAX_DIGITS buffer holds. */
  lemma ValueOverflow()
    ensures var line := "DRAW " + Zeros(17) + "5\n";
      Classify(line) == Accepted && |Tokens(line)| == 2 && |Tokens(line)[1]| >= MAX_DIGITS
  {
    var z := Zeros(17);
    var d := z + "5";
    var w := d + "\n";
    assert AllDigits(d) by {
      forall i | 0 <= i < |d| ensures IsDigit(d[i]) {
        if i < |z| { assert d[i] == z[i]; }
      }
    }
    LeadingZeros(z, "5");
    assert DigitsValue("5") == 5;
    DigitsToken(d, "\n");
    var line := "DRAW " + z + "5\n";
    assert line == "DRAW" + " " + w;
    TwoTokens("DRAW", w);
    ClassifyTokens(line, ["DRAW", w]);
    DispatchDraw();
    JudgeTwo("DRAW", w, Checks(RealType, OneParameter, DrawRange));
    ConvertDigits(d, "\n");
    assert w[|d|] == '\n';
    DrawNewlineFields(w);
  }
}
