/*
 * The interpreter (draw.c): a graphics state, allocated and initialised by
 * draw(), is updated in place by each stored command in list order. What the
 * program does on the terminal is recorded as a sequence of effects: the calls
 * into the terminal library (clearScreen, setFgColour, setBgColour, line,
 * penDown) whose code is not part of this model.
 */
module Draw {
  import opened StringOperations
  import opened CLibrary
  import opened Conversions
  import opened StructSet
  import opened LinkedLists

  /** How the program was built and the trigonometry it calls: `simple` is the
      SIMPLE compile-time switch (black on white, colour commands ignored). */
  datatype Env = Env(simple: bool, trig: Trig)

  /** A call into the terminal library. Line carries the rounded end points and
      the pattern character line() plots with. */
  datatype Effect =
    | ClearScreen
    | SetFg(colour: int)
    | SetBg(colour: int)
    | Line(x0: int, y0: int, x1: int, y1: int, pattern: char)
    | PenDown

  /** The state before the first command: origin, angle 0, pattern '+', white on
      black, or black on white under SIMPLE. */
  function Initial(simple: bool): State
  {
    State(0.0, 0.0, 0.0, if simple then 0 else 7, if simple then 7 else 0, '+')
  }

  /** The result of one command: the new state and the library calls it made. */
  datatype Stepped = Stepped(state: State, effects: seq<Effect>)

  /** The first character of a value, or its terminating NUL when it is empty. */
  function FirstChar(value: string): char
  {
    if value == [] then 0 as char else value[0]
  }

  /** drawLine: the line covers distance - 1 units from the current position; the
      position then moves one more unit along the heading from the ROUNDED end. */
  function DrawLineSpec(s: State, value: string, trig: Trig): Stepped
  {
    var distance := Atof(value) - 1.0;
    var start := Point(s.x, s.y);
    var end := DefineCoordinates(start, s.angle, distance, trig);
    var rounded := Point(Round(end.x) as real, Round(end.y) as real);
    var final := DefineCoordinates(rounded, s.angle, 1.0, trig);
    Stepped(s.(x := final.x, y := final.y),
            [Line(Round(start.x), Round(start.y), Round(end.x), Round(end.y), s.pattern)])
  }

  /** move: the position advances by the value along the heading. */
  function MoveSpec(s: State, value: string, trig: Trig): State
  {
    var p := DefineCoordinates(Point(s.x, s.y), s.angle, Atof(value), trig);
    s.(x := p.x, y := p.y)
  }

  /** Which branch of draw()'s strcmp chain a name selects, once upper-cased. */
  datatype Op = DrawOp | MoveOp | RotateOp | FgOp | BgOp | PatternOp | NoOp

  function Decode(name: string): Op
  {
    var upper := Upper(name);
    if upper == "DRAW" then DrawOp
    else if upper == "MOVE" then MoveOp
    else if upper == "ROTATE" then RotateOp
    else if upper == "FG" then FgOp
    else if upper == "BG" then BgOp
    else if upper == "PATTERN" then PatternOp
    else NoOp
  }

  /** The state change and the library calls of one stored command, chosen by
      its upper-cased name; any other name does nothing. */
  function Step(s: State, cmd: Command, env: Env): Stepped
  {
    match Decode(cmd.name)
    case DrawOp => DrawLineSpec(s, cmd.value, env.trig)
    case MoveOp => Stepped(MoveSpec(s, cmd.value, env.trig), [])
    case RotateOp => Stepped(s.(angle := DefineAngle(s.angle + Atof(cmd.value))), [])
    case FgOp =>
      if env.simple then Stepped(s, []) else Stepped(s.(fgColour := Atoi(cmd.value)), [SetFg(Atoi(cmd.value))])
    case BgOp =>
      if env.simple then Stepped(s, []) else Stepped(s.(bgColour := Atoi(cmd.value)), [SetBg(Atoi(cmd.value))])
    case PatternOp => Stepped(s.(pattern := FirstChar(cmd.value)), [])
    case NoOp => Stepped(s, [])
  }

  /** Runs `step` over the commands in order from s, collecting the calls each
      one makes. */
  function Fold(step: (State, Command) -> Stepped, s: State, cmds: seq<Command>): Stepped
  {
    if cmds == [] then Stepped(s, [])
    else
      var r := Fold(step, s, cmds[..|cmds| - 1]);
      var t := step(r.state, cmds[|cmds| - 1]);
      Stepped(t.state, r.effects + t.effects)
  }

  function Stepper(env: Env): (State, Command) -> Stepped
  {
    (s: State, c: Command) => Step(s, c, env)
  }

  /** The state after running the commands in order from s. */
  function Run(s: State, cmds: seq<Command>, env: Env): State
  {
    Fold(Stepper(env), s, cmds).state
  }

  /** The library calls the commands make, in order. */
  function Effects(s: State, cmds: seq<Command>, env: Env): seq<Effect>
  {
    Fold(Stepper(env), s, cmds).effects
  }

  /** What draw() does around the commands: nothing but an error for an empty
      list; otherwise clear the screen, set the SIMPLE colours, run every command
      and put the pen down. */
  function DrawEffects(cmds: seq<Command>, env: Env): seq<Effect>
  {
    if cmds == [] then []
    else Prologue(env) + Effects(Initial(env.simple), cmds, env) + [PenDown]
  }

  function Prologue(env: Env): seq<Effect>
  {
    [ClearScreen] + (if env.simple then [SetFg(0), SetBg(7)] else [])
  }

  /** Running one more command of a sequence: a step from where the prefix stopped. */
  lemma RunSnoc(s: State, cmds: seq<Command>, k: nat, env: Env)
    requires k < |cmds|
    ensures Run(s, cmds[..k + 1], env) == Step(Run(s, cmds[..k], env), cmds[k], env).state
    ensures Effects(s, cmds[..k + 1], env)
         == Effects(s, cmds[..k], env) + Step(Run(s, cmds[..k], env), cmds[k], env).effects
  {
    assert cmds[..k + 1][..k] == cmds[..k];
  }

  /** Folding over a + b is folding over a, then over b from where a stopped. */
  lemma {:induction false} FoldAppend(step: (State, Command) -> Stepped, s: State, a: seq<Command>, b: seq<Command>)
    ensures var r := Fold(step, s, a); var t := Fold(step, r.state, b);
      Fold(step, s, a + b) == Stepped(t.state, r.effects + t.effects)
    decreases |b|
  {
    if b == [] {
      assert a + b == a;
    } else {
      var b' := b[..|b| - 1];
      assert (a + b)[..|a + b| - 1] == a + b';
      assert (a + b)[|a + b| - 1] == b[|b| - 1];
      FoldAppend(step, s, a, b');
    }
  }

  /** Running a + b is running a, then b from where a stopped; the calls of a + b
      are those of a followed by those of b. */
  lemma RunAppend(s: State, a: seq<Command>, b: seq<Command>, env: Env)
    ensures Run(s, a + b, env) == Run(Run(s, a, env), b, env)
    ensures Effects(s, a + b, env) == Effects(s, a, env) + Effects(Run(s, a, env), b, env)
  {
    FoldAppend(Stepper(env), s, a, b);
  }

  /** What one command does to the heading, the colours and the calls made:
      only ROTATE turns, only FG and BG (outside SIMPLE) recolour and make a
      colour call, and only DRAW calls line(), exactly once. */
  lemma StepShape(s: State, cmd: Command, env: Env)
    ensures var op := Decode(cmd.name); var t := Step(s, cmd, env).state;
      t.angle == (if op == RotateOp then DefineAngle(s.angle + Atof(cmd.value)) else s.angle)
      && t.fgColour == (if op == FgOp && !env.simple then Atoi(cmd.value) else s.fgColour)
      && t.bgColour == (if op == BgOp && !env.simple then Atoi(cmd.value) else s.bgColour)
    ensures var op := Decode(cmd.name); var e := Step(s, cmd, env).effects;
      (op == DrawOp ==> |e| == 1 && e[0].Line?)
      && (op != DrawOp ==> forall k :: 0 <= k < |e| ==> !e[k].Line?)
      && (env.simple ==> forall k :: 0 <= k < |e| ==> e[k].Line?)
  {
  }

  /** The heading stays in [0, 360): only ROTATE changes it, through defineAngle. */
  lemma {:induction false} AngleStaysNormal(s: State, cmds: seq<Command>, env: Env)
    requires 0.0 <= s.angle < 360.0
    ensures 0.0 <= Run(s, cmds, env).angle < 360.0
  {
    if cmds != [] {
      var p := Run(s, cmds[..|cmds| - 1], env);
      var c := cmds[|cmds| - 1];
      AngleStaysNormal(s, cmds[..|cmds| - 1], env);
      StepShape(p, c, env);
      DefineAngleIsNormalised(p.angle + Atof(c.value));
    }
  }

  /** Under SIMPLE the colours never change, and the commands call nothing but
      line(). */
  lemma {:induction false} SimpleKeepsColours(s: State, cmds: seq<Command>, env: Env)
    requires env.simple
    ensures Run(s, cmds, env).fgColour == s.fgColour && Run(s, cmds, env).bgColour == s.bgColour
    ensures forall k :: 0 <= k < |Effects(s, cmds, env)| ==> Effects(s, cmds, env)[k].Line?
  {
    if cmds != [] {
      var p := cmds[..|cmds| - 1];
      SimpleKeepsColours(s, p, env);
      StepShape(Run(s, p, env), cmds[|cmds| - 1], env);
      var r: seq<Effect>, e: seq<Effect> := Effects(s, p, env), Step(Run(s, p, env), cmds[|cmds| - 1], env).effects;
      assert Effects(s, cmds, env) == r + e;
      forall k | 0 <= k < |r + e| ensures (r + e)[k].Line? {
        if k < |r| {
          assert (r + e)[k] == r[k];
        } else {
          assert (r + e)[k] == e[k - |r|];
        }
      }
    }
  }

  /** A command is admissible when its value is in the range the validator
      demands of its name. */
  predicate Admissible(cmd: Command)
  {
    var op := Decode(cmd.name);
    (op == FgOp ==> 0 <= Atoi(cmd.value) <= 15)
    && (op == BgOp ==> 0 <= Atoi(cmd.value) <= 7)
  }

  /** Colours in range stay in range when every command is admissible: the
      foreground in [0, 15] and the background in [0, 7]. */
  lemma {:induction false} ColoursStayInRange(s: State, cmds: seq<Command>, env: Env)
    requires 0 <= s.fgColour <= 15 && 0 <= s.bgColour <= 7
    requires forall k :: 0 <= k < |cmds| ==> Admissible(cmds[k])
    ensures 0 <= Run(s, cmds, env).fgColour <= 15 && 0 <= Run(s, cmds, env).bgColour <= 7
  {
    if cmds != [] {
      var p := cmds[..|cmds| - 1];
      ColoursStayInRange(s, p, env);
      assert Admissible(cmds[|cmds| - 1]);
      StepShape(Run(s, p, env), cmds[|cmds| - 1], env);
    }
  }

  /** How many of the commands are DRAW commands. */
  function DrawCount(cmds: seq<Command>): nat
  {
    if cmds == [] then 0
    else DrawCount(cmds[..|cmds| - 1]) + (if Decode(cmds[|cmds| - 1].name) == DrawOp then 1 else 0)
  }

  /** How many of the calls are line() calls. */
  function LineCount(effects: seq<Effect>): nat
  {
    if effects == [] then 0
    else LineCount(effects[..|effects| - 1]) + (if effects[|effects| - 1].Line? then 1 else 0)
  }

  lemma {:induction false} LineCountAppend(a: seq<Effect>, b: seq<Effect>)
    ensures LineCount(a + b) == LineCount(a) + LineCount(b)
    decreases |b|
  {
    if b == [] {
      assert a + b == a;
    } else {
      assert (a + b)[..|a + b| - 1] == a + b[..|b| - 1];
      LineCountAppend(a, b[..|b| - 1]);
    }
  }

  lemma {:induction false} NoLines(e: seq<Effect>)
    requires forall k :: 0 <= k < |e| ==> !e[k].Line?
    ensures LineCount(e) == 0
  {
    if e != [] {
      NoLines(e[..|e| - 1]);
    }
  }

  /** line() is called once per DRAW command and for nothing else. */
  lemma {:induction false} OneLinePerDraw(s: State, cmds: seq<Command>, env: Env)
    ensures LineCount(Effects(s, cmds, env)) == DrawCount(cmds)
  {
    if cmds != [] {
      var p := cmds[..|cmds| - 1];
      var c := cmds[|cmds| - 1];
      OneLinePerDraw(s, p, env);
      var e := Step(Run(s, p, env), c, env).effects;
      StepShape(Run(s, p, env), c, env);
      LineCountAppend(Effects(s, p, env), e);
      if Decode(c.name) == DrawOp {
        assert e[..0] == [];
      } else {
        NoLines(e);
      }
    }
  }

  /** DRAW and MOVE differ only by where the drawn line's end is rounded: when
      that end lies on whole coordinates, DRAW d ends where MOVE d does. */
  lemma DrawEndsLikeMove(s: State, value: string, trig: Trig)
    requires var end := DefineCoordinates(Point(s.x, s.y), s.angle, Atof(value) - 1.0, trig);
      end.x == Round(end.x) as real && end.y == Round(end.y) as real
    ensures DrawLineSpec(s, value, trig).state == MoveSpec(s, value, trig)
  {
    StepsAdd(Point(s.x, s.y), s.angle, Atof(value) - 1.0, 1.0, trig);
  }

  /** ROTATE changes the heading only; MOVE the position only; PATTERN the
      pattern only, to the value's first character. */
  lemma StepFrames(s: State, cmd: Command, env: Env)
    ensures Upper(cmd.name) == "ROTATE" ==>
      Step(s, cmd, env) == Stepped(s.(angle := DefineAngle(s.angle + Atof(cmd.value))), [])
    ensures Upper(cmd.name) == "MOVE" ==>
      (var t := Step(s, cmd, env).state;
       t.angle == s.angle && t.fgColour == s.fgColour && t.bgColour == s.bgColour
       && t.pattern == s.pattern && Step(s, cmd, env).effects == [])
    ensures Upper(cmd.name) == "PATTERN" ==>
      Step(s, cmd, env).state == s.(pattern := FirstChar(cmd.value))
    ensures Upper(cmd.name) !in {"DRAW", "MOVE", "ROTATE", "FG", "BG", "PATTERN"} ==>
      Step(s, cmd, env) == Stepped(s, [])
  {
  }

  /** drawLine: records the old position in prevX/prevY, calls line() and leaves
      the position one unit past the rounded end of the line. */
  method DrawLine(cmd: Command, current: GraphicsState, trig: Trig) returns (prevX: real, prevY: real, call: Effect)
    modifies current
    ensures prevX == old(current.x) && prevY == old(current.y)
    ensures current.Snapshot() == DrawLineSpec(old(current.Snapshot()), cmd.value, trig).state
    ensures [call] == DrawLineSpec(old(current.Snapshot()), cmd.value, trig).effects
  {
    var distance := Atof(cmd.value);
    distance := distance - 1.0;
    prevX := current.x;
    prevY := current.y;
    var endDraw := DefineCoordinates(Point(prevX, prevY), current.angle, distance, trig);
    call := Line(Round(prevX), Round(prevY), Round(endDraw.x), Round(endDraw.y), current.pattern);
    endDraw := Point(Round(endDraw.x) as real, Round(endDraw.y) as real);
    var final := DefineCoordinates(endDraw, current.angle, 1.0, trig);
    current.x, current.y := final.x, final.y;
  }

  /** move: records the old position and advances the current one. */
  method Move(cmd: Command, current: GraphicsState, trig: Trig) returns (prevX: real, prevY: real)
    modifies current
    ensures prevX == old(current.x) && prevY == old(current.y)
    ensures current.Snapshot() == MoveSpec(old(current.Snapshot()), cmd.value, trig)
  {
    var distance := Atof(cmd.value);
    prevX := current.x;
    prevY := current.y;
    var p := DefineCoordinates(Point(prevX, prevY), current.angle, distance, trig);
    current.x, current.y := p.x, p.y;
  }

  /** rotate: adds the value to the heading and folds it into [0, 360). */
  method Rotate(cmd: Command, current: GraphicsState)
    modifies current
    ensures current.Snapshot() == old(current.Snapshot()).(angle := DefineAngle(old(current.angle) + Atof(cmd.value)))
    ensures 0.0 <= current.angle < 360.0
  {
    current.angle := current.angle + Atof(cmd.value);
    current.angle := DefineAngle(current.angle);
    DefineAngleIsNormalised(old(current.angle) + Atof(cmd.value));
  }

  /** changeFgColour: stores atoi of the value and sets it, unless built SIMPLE. */
  method ChangeFgColour(cmd: Command, current: GraphicsState, simple: bool) returns (effects: seq<Effect>)
    modifies current
    ensures simple ==> current.Snapshot() == old(current.Snapshot()) && effects == []
    ensures !simple ==>
      current.Snapshot() == old(current.Snapshot()).(fgColour := Atoi(cmd.value)) && effects == [SetFg(Atoi(cmd.value))]
  {
    effects := [];
    if !simple {
      current.fgColour := Atoi(cmd.value);
      effects := [SetFg(current.fgColour)];
    }
  }

  /** changeBgColour: stores atoi of the value and sets it, unless built SIMPLE. */
  method ChangeBgColour(cmd: Command, current: GraphicsState, simple: bool) returns (effects: seq<Effect>)
    modifies current
    ensures simple ==> current.Snapshot() == old(current.Snapshot()) && effects == []
    ensures !simple ==>
      current.Snapshot() == old(current.Snapshot()).(bgColour := Atoi(cmd.value)) && effects == [SetBg(Atoi(cmd.value))]
  {
    effects := [];
    if !simple {
      current.bgColour := Atoi(cmd.value);
      effects := [SetBg(current.bgColour)];
    }
  }

  /** setPattern: the pattern becomes the value's first character. */
  method SetPattern(cmd: Command, current: GraphicsState)
    modifies current
    ensures current.Snapshot() == old(current.Snapshot()).(pattern := FirstChar(cmd.value))
  {
    current.pattern := if cmd.value == [] then 0 as char else cmd.value[0];
  }

  /** One pass of draw()'s loop body: upper-case the name and dispatch on it. */
  method RunCommand(cmd: Command, current: GraphicsState, env: Env) returns (effects: seq<Effect>)
    modifies current
    ensures current.Snapshot() == Step(old(current.Snapshot()), cmd, env).state
    ensures effects == Step(old(current.Snapshot()), cmd, env).effects
  {
    effects := [];
    var name := UpperCaseCopy(cmd.name);
    ghost var s := current.Snapshot();
    if name == "DRAW" {
      assert Step(s, cmd, env) == DrawLineSpec(s, cmd.value, env.trig);
      var prevX, prevY, call := DrawLine(cmd, current, env.trig);
      effects := [call];
    } else if name == "MOVE" {
      assert Step(s, cmd, env) == Stepped(MoveSpec(s, cmd.value, env.trig), []);
      var prevX, prevY := Move(cmd, current, env.trig);
    } else if name == "ROTATE" {
      assert Decode(cmd.name) == RotateOp;
      Rotate(cmd, current);
    } else if name == "FG" {
      assert Decode(cmd.name) == FgOp;
      effects := ChangeFgColour(cmd, current, env.simple);
    } else if name == "BG" {
      assert Decode(cmd.name) == BgOp;
      effects := ChangeBgColour(cmd, current, env.simple);
    } else if name == "PATTERN" {
      assert Decode(cmd.name) == PatternOp;
      SetPattern(cmd, current);
    } else {
      assert Decode(cmd.name) == NoOp;
    }
  }

  /** draw: on an empty list nothing is drawn. Otherwise a do-while loop visits
      the nodes from the head, moving on to the next node only after the first
      pass, and stops after the node whose `next` is NULL: every stored command
      runs exactly once, in list order. */
  method Draw(list: LinkedList<Command>, env: Env) returns (drew: bool, effects: seq<Effect>, final: State)
    requires list.Valid()
    ensures drew <==> list.Contents != []
    ensures effects == DrawEffects(list.Contents, env)
    ensures final == Run(Initial(env.simple), list.Contents, env)
  {
    var current := new GraphicsState(Initial(env.simple));
    var currentNode := list.head;
    var initialRead := -1;
    effects := [];
    var isEmpty := list.IsEmpty();
    if isEmpty != 0 {
      drew := false;
      final := current.Snapshot();
      return;
    }
    drew := true;
    var calls := [];
    ghost var cmds := list.Contents;
    ghost var k := 0;
    var more := true;
    while more
      invariant list.Valid() && fresh(current) && cmds == list.Contents
      invariant 0 <= k < |list.Nodes| && currentNode == list.Nodes[k]
      invariant k < |list.Nodes| - 1 ==> currentNode.next == list.Nodes[k + 1]
      invariant initialRead == -1 || initialRead == 0
      invariant initialRead == -1 ==> k == 0 && more
      invariant initialRead == 0 ==> (more <==> k < |list.Nodes| - 1)
      invariant var done := if initialRead == -1 then 0 else k + 1;
        current.Snapshot() == Run(Initial(env.simple), cmds[..done], env)
        && calls == Effects(Initial(env.simple), cmds[..done], env)
      decreases |list.Nodes| - k, -initialRead
    {
      if currentNode.next != null && initialRead == 0 {
        currentNode := currentNode.next;
        k := k + 1;
      }
      var cmd := currentNode.data;
      RunSnoc(Initial(env.simple), cmds, k, env);
      var e := RunCommand(cmd, current, env);
      calls := calls + e;
      if initialRead != 0 {
        initialRead := 0;
      }
      more := currentNode.next != null;
    }
    assert cmds[..k + 1] == cmds;
    effects := Prologue(env) + calls + [PenDown];
    final := current.Snapshot();
  }

  /** Running a single command is one step. */
  lemma RunOne(s: State, c: Command, env: Env)
    ensures Run(s, [c], env) == Step(s, c, env).state
    ensures Effects(s, [c], env) == Step(s, c, env).effects
  {
    assert [c][..0] == [];
    assert Fold(Stepper(env), s, []) == Stepped(s, []);
    assert [] + Step(s, c, env).effects == Step(s, c, env).effects;
  }

  lemma DecodeDraw()
    ensures Decode("DRAW") == DrawOp
  {
    assert Upper("DRAW") == "DRAW";
  }

  lemma DecodePattern()
    ensures Decode("PATTERN") == PatternOp
  {
    assert Upper("PATTERN") == "PATTERN";
  }

  /** Names are matched after upper-casing, so case does not matter. */
  lemma DecodeRotate()
    ensures Decode("ROTATE") == RotateOp && Decode("rotate") == RotateOp
  {
    assert Upper("ROTATE") == "ROTATE";
    assert Upper("rotate") == "ROTATE";
  }

  lemma AtofTen()
    ensures Atof("10\n") == 10.0 && Atof("-10\n") == -10.0
  {
    ConvertDigits("10", "\n");
    assert "10" + "\n" == "10\n";
    assert DigitsValue("10") == 10 by { assert "10"[..1] == "1"; }
    ConvertNegativeDigits("10", "\n");
    assert "-" + "10" + "\n" == "-10\n";
  }

  lemma Atof370()
    ensures Atof("370\n") == 370.0
  {
    ConvertDigits("370", "\n");
    assert "370" + "\n" == "370\n";
    assert DigitsValue("370") == 370 by { assert "370"[..2] == "37"; assert "37"[..1] == "3"; }
  }

  /** The line and the end position of DRAW 10 from the start, heading 0. */
  lemma DrawTenStep(env: Env, value: string)
    requires env.trig.cos(0.0) == 1.0 && env.trig.sin(0.0) == 0.0
    requires Atof(value) == 10.0
    ensures DrawLineSpec(Initial(env.simple), value, env.trig)
         == Stepped(Initial(env.simple).(x := 10.0, y := 0.0), [Line(0, 0, 9, 0, '+')])
  {
    var trig := env.trig;
    var end := DefineCoordinates(Point(0.0, 0.0), 0.0, 9.0, trig);
    assert end == Point(9.0, 0.0) by {
      assert 9.0 * trig.cos(0.0) == 9.0 && 9.0 * trig.sin(0.0) == 0.0;
    }
    var final := DefineCoordinates(Point(9.0, 0.0), 0.0, 1.0, trig);
    assert final == Point(10.0, 0.0);
    assert Round(9.0) == 9 && Round(0.0) == 0;
  }

  /** A single DRAW 10 from the start, heading 0 (cos 1, sin 0): line() goes
      from (0, 0) to (9, 0) and the cursor ends at (10, 0). */
  lemma DrawTenExample(env: Env)
    requires env.trig.cos(0.0) == 1.0 && env.trig.sin(0.0) == 0.0
    ensures DrawEffects([Command("DRAW", "10\n")], env)
      == Prologue(env) + [Line(0, 0, 9, 0, '+'), PenDown]
    ensures Run(Initial(env.simple), [Command("DRAW", "10\n")], env).x == 10.0
    ensures Run(Initial(env.simple), [Command("DRAW", "10\n")], env).y == 0.0
  {
    DecodeDraw();
    AtofTen();
    DrawTenStep(env, "10\n");
    RunOne(Initial(env.simple), Command("DRAW", "10\n"), env);
  }

  /** ROTATE folds: 370 degrees from 0 ends at 10, -10 ends at 350, whatever the
      case of the name. */
  lemma RotateExample(env: Env)
    ensures Run(Initial(env.simple), [Command("rotate", "370\n")], env).angle == 10.0
    ensures Run(Initial(env.simple), [Command("ROTATE", "-10\n")], env).angle == 350.0
  {
    var s := Initial(env.simple);
    AtofTen();
    Atof370();
    DecodeRotate();
    DefineAngleExamples();
    RunOne(s, Command("rotate", "370\n"), env);
    RunOne(s, Command("ROTATE", "-10\n"), env);
  }

  /** After PATTERN * the next line is plotted with '*'. */
  lemma PatternExample(env: Env)
    ensures var e := DrawEffects([Command("PATTERN", "*\n"), Command("DRAW", "1\n")], env);
      |e| > |Prologue(env)| && e[|Prologue(env)|].Line? && e[|Prologue(env)|].pattern == '*'
  {
    var s := Initial(env.simple);
    var p, d := Command("PATTERN", "*\n"), Command("DRAW", "1\n");
    DecodePattern();
    DecodeDraw();
    RunOne(s, p, env);
    var t := Run(s, [p], env);
    assert t.pattern == '*' && Effects(s, [p], env) == [];
    RunAppend(s, [p], [d], env);
    assert [p] + [d] == [p, d];
    RunOne(t, d, env);
    assert Effects(s, [p, d], env) == Step(t, d, env).effects;
    assert Step(t, d, env).effects[0].pattern == '*';
  }
}
