/**
 * The run-boundary program of the Ray set-origin view: a G-code program that
 * traces the rectangle of the job's work range with the crosshair or a
 * zero-power laser spot, then parks the head.
 *
 * The program is described as a sequence of lines, each either a fixed
 * command or a move to a point; `Render` turns them into the text the source
 * pushes.  JavaScript's number-to-text conversion is the parameter `numStr`.
 */
module RunBoundary {
  import opened Coordinates

  /** How the head shows where it is while it runs the boundary. */
  datatype JobOffsetMode = Crosshair | LaserSpot

  /** How the job origin was set up: by hand (the program zeroes the origin
      itself) or by jogging from the control panel. */
  datatype SetupCoordinateMethod = Manually | ByControlPanel

  /** The G-code file's axis work range. */
  datatype AxisWorkRange = AxisWorkRange(min: Position, max: Position)

  /** The fixed commands of the program. */
  datatype Command =
    | MotorMode      // `;motor_mode: 3`, the motor-hold marker
    | CrosshairOn    // `M2000 L13 P1`
    | LaserOn        // `M3 S0`, the laser at zero power
    | MoveMode       // `${gCommand} F6000` with the laser spot
    | Absolute       // `G90`, absolute positioning
    | ZeroOrigin     // `G92 X0 Y0 B0`, the current position becomes the origin
    | LaserOff       // `M5 S0`
    | End            // `;End`

  function CommandText(c: Command): string {
    match c
    case MotorMode => ";motor_mode: 3"
    case CrosshairOn => "M2000 L13 P1"
    case LaserOn => "M3 S0"
    case MoveMode => "G1 S10 F6000"
    case Absolute => "G90"
    case ZeroOrigin => "G92 X0 Y0 B0"
    case LaserOff => "M5 S0"
    case End => ";End"
  }

  /** One line of the program: a fixed command, or a move produced by `goto`. */
  datatype Line = Fixed(command: Command) | Move(x: Value, y: Value)

  /** The command every move line starts with: `G1 S0` with the crosshair,
      `G1 S10` with the laser spot. */
  function GCommand(mode: JobOffsetMode): string {
    if mode == Crosshair then "G1 S0" else "G1 S10"
  }

  /** The text of `goto(x, y)`. */
  function MoveLine(mode: JobOffsetMode, isRotate: bool, x: Value, y: Value, numStr: real -> string): string {
    GCommand(mode) + (if isRotate then " B" else " X") + Text(OrZero(x), numStr)
    + " Y" + Text(y, numStr) + " F6000"
  }

  /** goto: the line is built by successive concatenations. */
  method Goto(mode: JobOffsetMode, isRotate: bool, x: Value, y: Value, numStr: real -> string)
    returns (code: string)
    ensures code == MoveLine(mode, isRotate, x, y, numStr)
  {
    code := GCommand(mode);
    if isRotate {
      code := code + " B" + Text(OrZero(x), numStr);
    } else {
      code := code + " X" + Text(OrZero(x), numStr);
    }
    code := code + " Y" + Text(y, numStr);
    code := code + " F6000";
  }

  function RenderLine(line: Line, mode: JobOffsetMode, isRotate: bool, numStr: real -> string): string {
    match line
    case Fixed(c) => CommandText(c)
    case Move(x, y) => MoveLine(mode, isRotate, x, y, numStr)
  }

  /** The text of each line, in order. */
  function Render(lines: seq<Line>, mode: JobOffsetMode, isRotate: bool, numStr: real -> string): (r: seq<string>)
    ensures |r| == |lines|
  {
    seq(|lines|, i requires 0 <= i < |lines| => RenderLine(lines[i], mode, isRotate, numStr))
  }

  // ---------------------------------------------------------------------------
  // The program, section by section

  /** Emitted first under control-panel setup: the motor-hold mode marker. */
  function MotorModeLines(setup: SetupCoordinateMethod): seq<Line> {
    if setup == ByControlPanel then [Fixed(MotorMode)] else []
  }

  /** Turning on the crosshair, or the laser spot at zero power followed by
      the zero-power move mode `${gCommand} F6000`. */
  function IlluminationLines(mode: JobOffsetMode): seq<Line> {
    if mode == Crosshair then [Fixed(CrosshairOn)] else [Fixed(LaserOn), Fixed(MoveMode)]
  }

  /** Absolute positioning, then (unless set up from the control panel) the
      current position becomes the origin. */
  function OriginLines(setup: SetupCoordinateMethod): seq<Line> {
    [Fixed(Absolute)] + (if setup != ByControlPanel then [Fixed(ZeroOrigin)] else [])
  }

  function PreambleLines(mode: JobOffsetMode, setup: SetupCoordinateMethod): seq<Line> {
    MotorModeLines(setup) + IlluminationLines(mode) + OriginLines(setup)
  }

  /** The five corner moves: min/min, max/min, max/max, min/max and back to
      min/min.  The horizontal axis is `b` on a rotary setup and `x`
      otherwise, the same for all five. */
  function CornerMoves(range: AxisWorkRange, isRotate: bool): seq<Line> {
    var lo := HorizontalOf(range.min, isRotate);
    var hi := HorizontalOf(range.max, isRotate);
    [Move(lo, range.min.y), Move(hi, range.min.y), Move(hi, range.max.y), Move(lo, range.max.y), Move(lo, range.min.y)]
  }

  /** `min + (max - min) / 2`. */
  function Centre(lo: Value, hi: Value): Value {
    Add(lo, DivBy(Sub(hi, lo), 2.0))
  }

  /** Where the head parks: the centre of the rectangle under control-panel
      setup, the freshly set origin otherwise. */
  function ReturnMove(range: AxisWorkRange, isRotate: bool, setup: SetupCoordinateMethod): Line {
    if setup == ByControlPanel then
      Move(Centre(HorizontalOf(range.min, isRotate), HorizontalOf(range.max, isRotate)), Centre(range.min.y, range.max.y))
    else Move(Num(0.0), Num(0.0))
  }

  /** The corner moves, then the return move. */
  function BoundaryMoves(range: AxisWorkRange, isRotate: bool, setup: SetupCoordinateMethod): seq<Line> {
    CornerMoves(range, isRotate) + [ReturnMove(range, isRotate, setup)]
  }

  /** Turning the laser spot off, then the end marker. */
  function ShutdownLines(mode: JobOffsetMode): seq<Line> {
    (if mode == LaserSpot then [Fixed(LaserOff)] else []) + [Fixed(End)]
  }

  /** The program's lines, in emission order. */
  function BoundaryProgram(range: AxisWorkRange, mode: JobOffsetMode, isRotate: bool, setup: SetupCoordinateMethod): seq<Line> {
    PreambleLines(mode, setup) + BoundaryMoves(range, isRotate, setup) + ShutdownLines(mode)
  }

  /** The text of the program's lines. */
  function BoundaryLines(range: AxisWorkRange, mode: JobOffsetMode, isRotate: bool, setup: SetupCoordinateMethod,
                         numStr: real -> string): seq<string> {
    Render(BoundaryProgram(range, mode, isRotate, setup), mode, isRotate, numStr)
  }

  // ---------------------------------------------------------------------------
  // Joining and splitting lines

  /** `lines.join('\n')`. */
  function Join(lines: seq<string>): string {
    if |lines| == 0 then ""
    else if |lines| == 1 then lines[0]
    else lines[0] + "\n" + Join(lines[1..])
  }

  /** `text.split('\n')`: the pieces between newlines; always at least one. */
  function Split(text: string): (r: seq<string>)
    ensures |r| >= 1
  {
    if |text| == 0 then [""]
    else
      var rest := Split(text[1..]);
      if text[0] == '\n' then [""] + rest
      else [[text[0]] + rest[0]] + rest[1..]
  }

  predicate NoNewline(line: string) {
    '\n' !in line
  }

  /** A piece without newlines splits into itself, and stops at the next newline. */
  lemma {:induction false} SplitLine(line: string, tail: string)
    requires NoNewline(line)
    ensures Split(line) == [line]
    ensures Split(line + "\n" + tail) == [line] + Split(tail)
  {
    if |line| == 0 {
      assert line + "\n" + tail == ['\n'] + tail;
      assert (['\n'] + tail)[1..] == tail;
    } else {
      assert line[0] != '\n';
      SplitLine(line[1..], tail);
      assert (line + "\n" + tail)[1..] == line[1..] + "\n" + tail;
      assert [line[0]] + line[1..] == line;
    }
  }

  /** Splitting the joined text at its newlines gives back the lines, as long
      as no line holds a newline of its own. */
  lemma {:induction false} SplitJoin(lines: seq<string>)
    requires |lines| >= 1
    requires forall k :: 0 <= k < |lines| ==> NoNewline(lines[k])
    ensures Split(Join(lines)) == lines
  {
    if |lines| == 1 {
      SplitLine(lines[0], "");
    } else {
      SplitJoin(lines[1..]);
      SplitLine(lines[0], Join(lines[1..]));
    }
  }

  // ---------------------------------------------------------------------------
  // The generator

  /** Rendering a concatenation renders each part. */
  lemma RenderAppend(a: seq<Line>, b: seq<Line>, mode: JobOffsetMode, isRotate: bool, numStr: real -> string)
    ensures Render(a + b, mode, isRotate, numStr) == Render(a, mode, isRotate, numStr) + Render(b, mode, isRotate, numStr)
  {
  }

  /** The pushes of the preamble: motor-mode marker, illumination, absolute
      positioning and the origin. */
  method PushPreamble(gcodeList: seq<string>, mode: JobOffsetMode, setup: SetupCoordinateMethod, isRotate: bool,
                      numStr: real -> string)
    returns (out: seq<string>)
    ensures out == gcodeList + Render(PreambleLines(mode, setup), mode, isRotate, numStr)
  {
    out := gcodeList;
    if setup == ByControlPanel {
      out := out + [";motor_mode: 3"];
    }
    if mode == Crosshair {
      out := out + ["M2000 L13 P1"];             // turn on the crosshair
    } else if mode == LaserSpot {
      out := out + ["M3 S0"];
      assert GCommand(mode) + " F6000" == "G1 S10 F6000";
      out := out + [GCommand(mode) + " F6000"];  // turn on the laser spot
    }
    out := out + ["G90"];
    if setup != ByControlPanel {
      out := out + ["G92 X0 Y0 B0"];
    }
  }

  /** The pushes of the five corner moves and the return move. */
  method PushMoves(gcodeList: seq<string>, range: AxisWorkRange, mode: JobOffsetMode, isRotate: bool,
                   setup: SetupCoordinateMethod, numStr: real -> string)
    returns (out: seq<string>)
    ensures out == gcodeList + Render(BoundaryMoves(range, isRotate, setup), mode, isRotate, numStr)
  {
    var lo := HorizontalOf(range.min, isRotate);
    var hi := HorizontalOf(range.max, isRotate);
    var m1 := Goto(mode, isRotate, lo, range.min.y, numStr);
    var m2 := Goto(mode, isRotate, hi, range.min.y, numStr);
    var m3 := Goto(mode, isRotate, hi, range.max.y, numStr);
    var m4 := Goto(mode, isRotate, lo, range.max.y, numStr);
    var m5 := Goto(mode, isRotate, lo, range.min.y, numStr);
    var back;
    if setup == ByControlPanel {
      back := Goto(mode, isRotate, Centre(lo, hi), Centre(range.min.y, range.max.y), numStr);
    } else {
      back := Goto(mode, isRotate, Num(0.0), Num(0.0), numStr);
    }
    out := gcodeList + [m1, m2, m3, m4, m5] + [back];
  }

  /** The pushes that turn the laser spot off and end the program. */
  method PushShutdown(gcodeList: seq<string>, mode: JobOffsetMode, isRotate: bool, numStr: real -> string)
    returns (out: seq<string>)
    ensures out == gcodeList + Render(ShutdownLines(mode), mode, isRotate, numStr)
  {
    out := gcodeList;
    if mode == LaserSpot {
      out := out + ["M5 S0"];    // turn off the laser spot
    }
    out := out + [";End"];
  }

  /** getRunBoundaryCode: the lines are pushed onto `gcodeList` one section at
      a time and joined with newlines. */
  method GetRunBoundaryCode(range: AxisWorkRange, mode: JobOffsetMode, isRotate: bool, setup: SetupCoordinateMethod,
                            numStr: real -> string)
    returns (gcode: string)
    ensures gcode == Join(BoundaryLines(range, mode, isRotate, setup, numStr))
  {
    ghost var pre := PreambleLines(mode, setup);
    ghost var moves := BoundaryMoves(range, isRotate, setup);
    ghost var shut := ShutdownLines(mode);
    var gcodeList := PushPreamble([], mode, setup, isRotate, numStr);
    assert gcodeList == Render(pre, mode, isRotate, numStr);
    gcodeList := PushMoves(gcodeList, range, mode, isRotate, setup, numStr);
    gcodeList := PushShutdown(gcodeList, mode, isRotate, numStr);
    RenderAppend(pre, moves, mode, isRotate, numStr);
    RenderAppend(pre + moves, shut, mode, isRotate, numStr);
    gcode := Join(gcodeList);
  }

  // ---------------------------------------------------------------------------
  // Properties of the program

  /** The number of lines before the first corner move: 3 with the crosshair,
      4 with the laser spot, whichever the setup method. */
  function FirstMoveIndex(mode: JobOffsetMode): nat {
    if mode == Crosshair then 3 else 4
  }

  /** The preamble, case by case. */
  lemma PreambleCases(mode: JobOffsetMode, setup: SetupCoordinateMethod)
    ensures PreambleLines(mode, setup) ==
      if setup == ByControlPanel then
        if mode == Crosshair then [Fixed(MotorMode), Fixed(CrosshairOn), Fixed(Absolute)]
        else [Fixed(MotorMode), Fixed(LaserOn), Fixed(MoveMode), Fixed(Absolute)]
      else
        if mode == Crosshair then [Fixed(CrosshairOn), Fixed(Absolute), Fixed(ZeroOrigin)]
        else [Fixed(LaserOn), Fixed(MoveMode), Fixed(Absolute), Fixed(ZeroOrigin)]
  {
  }

  /** Where each line sits: the preamble, the five corner moves in order, the
      return move, the optional laser-off line and the end marker last. */
  lemma ProgramLayout(range: AxisWorkRange, mode: JobOffsetMode, isRotate: bool, setup: SetupCoordinateMethod)
    ensures var prog := BoundaryProgram(range, mode, isRotate, setup);
      var p := FirstMoveIndex(mode);
      var lo := HorizontalOf(range.min, isRotate);
      var hi := HorizontalOf(range.max, isRotate);
      && |prog| == (if mode == Crosshair then 10 else 12)
      && prog[..p] == PreambleLines(mode, setup)
      && prog[p] == Move(lo, range.min.y) && prog[p + 1] == Move(hi, range.min.y)
      && prog[p + 2] == Move(hi, range.max.y) && prog[p + 3] == Move(lo, range.max.y)
      && prog[p + 4] == Move(lo, range.min.y)
      && prog[p + 5] == ReturnMove(range, isRotate, setup)
      && (forall k :: 0 <= k < |prog| && prog[k].Move? <==> p <= k < p + 6)
      && prog[|prog| - 1] == Fixed(End)
      && (mode == LaserSpot ==> prog[|prog| - 2] == Fixed(LaserOff))
  {
    PreambleCases(mode, setup);
  }

  /** The line starts with `G1`, as every move does. */
  predicate StartsLikeMove(line: string) {
    |line| >= 2 && line[0] == 'G' && line[1] == '1'
  }

  /** Every move line starts with `G1 S`, so none of them is one of the fixed
      command lines. */
  lemma MoveLineStart(mode: JobOffsetMode, isRotate: bool, x: Value, y: Value, numStr: real -> string)
    ensures var line := MoveLine(mode, isRotate, x, y, numStr);
      |line| > 5 && line[..4] == "G1 S" && StartsLikeMove(line)
  {
  }

  /** A move line shows its mode and its axis: the character after `G1 S` is
      `0` exactly with the crosshair, and the axis letter is `B` exactly on a
      rotary setup. */
  lemma MoveLineReveals(mode: JobOffsetMode, isRotate: bool, x: Value, y: Value, numStr: real -> string)
    ensures var line := MoveLine(mode, isRotate, x, y, numStr);
      var n := |GCommand(mode)|;
      && (line[4] == '0' <==> mode == Crosshair)
      && line[n] == ' '
      && (line[n + 1] == 'B' <==> isRotate)
      && (line[n + 1] == 'X' <==> !isRotate)
  {
  }

  /** A falsy horizontal value (absent, null, NaN or 0) is printed as 0; the
      `y` value has no such substitution. */
  lemma FalsyHorizontalIsZero(mode: JobOffsetMode, isRotate: bool, x: Value, y: Value, numStr: real -> string)
    requires IsFalsy(x)
    ensures MoveLine(mode, isRotate, x, y, numStr) == MoveLine(mode, isRotate, Num(0.0), y, numStr)
    ensures y.Undefined? ==>
      MoveLine(mode, isRotate, x, y, numStr)
        == GCommand(mode) + (if isRotate then " B" else " X") + numStr(0.0) + " Yundefined F6000"
  {
  }

  /** Different commands have different texts, and only the laser-spot move
      mode looks like a move. */
  lemma CommandTextDistinct(c: Command, d: Command)
    ensures CommandText(c) == CommandText(d) <==> c == d
    ensures StartsLikeMove(CommandText(c)) <==> c == MoveMode
  {
    if CommandText(c) == CommandText(d) {
      var t := CommandText(c);
      assert |t| == |CommandText(d)| && t[0] == CommandText(d)[0] && t[|t| - 1] == CommandText(d)[|t| - 1];
    }
  }

  /** No move line reads as the move-mode command `G1 S10 F6000`: with the
      crosshair the power digit is `0`, and with the laser spot an axis letter
      follows `G1 S10 ` where the command has `F`. */
  lemma MoveLineIsNotCommand(mode: JobOffsetMode, isRotate: bool, x: Value, y: Value, numStr: real -> string, c: Command)
    ensures MoveLine(mode, isRotate, x, y, numStr) != CommandText(c)
  {
    var line := MoveLine(mode, isRotate, x, y, numStr);
    MoveLineStart(mode, isRotate, x, y, numStr);
    MoveLineReveals(mode, isRotate, x, y, numStr);
    CommandTextDistinct(c, c);
    if c == MoveMode {
      var t := CommandText(c);
      if mode == Crosshair {
        assert line[4] != t[4];
      } else {
        assert line[7] != t[7];
      }
    }
  }

  /** A fixed command is among the rendered lines exactly when the program holds it. */
  lemma RenderedCommand(lines: seq<Line>, mode: JobOffsetMode, isRotate: bool, numStr: real -> string, c: Command)
    ensures CommandText(c) in Render(lines, mode, isRotate, numStr) <==> Fixed(c) in lines
  {
    var r := Render(lines, mode, isRotate, numStr);
    if CommandText(c) in r {
      var k :| 0 <= k < |r| && r[k] == CommandText(c);
      CommandTextDistinct(c, c);
      match lines[k]
      case Move(x, y) =>
        MoveLineIsNotCommand(mode, isRotate, x, y, numStr, c);
        assert false;
      case Fixed(d) =>
        CommandTextDistinct(c, d);
    }
    if Fixed(c) in lines {
      var k :| 0 <= k < |lines| && lines[k] == Fixed(c);
      assert r[k] == CommandText(c);
    }
  }

  /** When the program holds a fixed command: the motor-mode marker under
      control-panel setup, the crosshair command with the crosshair, the laser
      commands with the laser spot, the origin line unless set up from the
      control panel, and absolute positioning and the end marker always. */
  predicate Present(c: Command, mode: JobOffsetMode, setup: SetupCoordinateMethod) {
    match c
    case MotorMode => setup == ByControlPanel
    case CrosshairOn => mode == Crosshair
    case LaserOn => mode == LaserSpot
    case MoveMode => mode == LaserSpot
    case Absolute => true
    case ZeroOrigin => setup != ByControlPanel
    case LaserOff => mode == LaserSpot
    case End => true
  }

  /** The program holds exactly the fixed commands that `Present` names. */
  lemma CommandPresence(range: AxisWorkRange, mode: JobOffsetMode, isRotate: bool, setup: SetupCoordinateMethod, c: Command)
    ensures Fixed(c) in BoundaryProgram(range, mode, isRotate, setup) <==> Present(c, mode, setup)
  {
    var moves := BoundaryMoves(range, isRotate, setup);
    var prog := BoundaryProgram(range, mode, isRotate, setup);
    assert Fixed(c) !in moves;
    assert prog == MotorModeLines(setup) + IlluminationLines(mode) + OriginLines(setup) + moves + ShutdownLines(mode);
    assert Fixed(c) in prog <==>
      || Fixed(c) in MotorModeLines(setup) || Fixed(c) in IlluminationLines(mode)
      || Fixed(c) in OriginLines(setup) || Fixed(c) in ShutdownLines(mode);
  }

  /** The text of a fixed command is among the program's lines exactly when
      `Present` says so. */
  lemma CommandLines(range: AxisWorkRange, mode: JobOffsetMode, isRotate: bool, setup: SetupCoordinateMethod,
                     numStr: real -> string, c: Command)
    ensures CommandText(c) in BoundaryLines(range, mode, isRotate, setup, numStr) <==> Present(c, mode, setup)
  {
    RenderedCommand(BoundaryProgram(range, mode, isRotate, setup), mode, isRotate, numStr, c);
    CommandPresence(range, mode, isRotate, setup, c);
  }

  /** Rendering a prefix gives the prefix of the rendering. */
  lemma RenderPrefix(lines: seq<Line>, n: nat, mode: JobOffsetMode, isRotate: bool, numStr: real -> string)
    requires n <= |lines|
    ensures Render(lines, mode, isRotate, numStr)[..n] == Render(lines[..n], mode, isRotate, numStr)
  {
  }

  /** The text before the first move, case by case. */
  lemma PreambleText(range: AxisWorkRange, mode: JobOffsetMode, isRotate: bool, setup: SetupCoordinateMethod,
                     numStr: real -> string)
    ensures BoundaryLines(range, mode, isRotate, setup, numStr)[..FirstMoveIndex(mode)] ==
      if setup == ByControlPanel then
        if mode == Crosshair then [";motor_mode: 3", "M2000 L13 P1", "G90"]
        else [";motor_mode: 3", "M3 S0", "G1 S10 F6000", "G90"]
      else
        if mode == Crosshair then ["M2000 L13 P1", "G90", "G92 X0 Y0 B0"]
        else ["M3 S0", "G1 S10 F6000", "G90", "G92 X0 Y0 B0"]
  {
    var prog := BoundaryProgram(range, mode, isRotate, setup);
    ProgramLayout(range, mode, isRotate, setup);
    RenderPrefix(prog, FirstMoveIndex(mode), mode, isRotate, numStr);
    PreambleCases(mode, setup);
  }

  /** `;End` is always the last line, and with the laser spot `M5 S0` comes
      just before it. */
  lemma ShutdownText(range: AxisWorkRange, mode: JobOffsetMode, isRotate: bool, setup: SetupCoordinateMethod,
                     numStr: real -> string)
    ensures var lines := BoundaryLines(range, mode, isRotate, setup, numStr);
      && lines[|lines| - 1] == ";End"
      && (mode == LaserSpot ==> lines[|lines| - 2] == "M5 S0")
  {
    ProgramLayout(range, mode, isRotate, setup);
  }

  /** The five corner moves and the return move, as text: each is the `goto`
      line of its point, on `b` when rotary and on `x` otherwise. */
  lemma MoveLinesOfProgram(range: AxisWorkRange, mode: JobOffsetMode, isRotate: bool, setup: SetupCoordinateMethod,
                           numStr: real -> string)
    ensures var lines := BoundaryLines(range, mode, isRotate, setup, numStr);
      var p := FirstMoveIndex(mode);
      var lo := HorizontalOf(range.min, isRotate);
      var hi := HorizontalOf(range.max, isRotate);
      var back := ReturnMove(range, isRotate, setup);
      && lines[p] == MoveLine(mode, isRotate, lo, range.min.y, numStr)
      && lines[p + 1] == MoveLine(mode, isRotate, hi, range.min.y, numStr)
      && lines[p + 2] == MoveLine(mode, isRotate, hi, range.max.y, numStr)
      && lines[p + 3] == MoveLine(mode, isRotate, lo, range.max.y, numStr)
      && lines[p + 4] == MoveLine(mode, isRotate, lo, range.min.y, numStr)
      && lines[p + 5] == MoveLine(mode, isRotate, back.x, back.y, numStr)
  {
    ProgramLayout(range, mode, isRotate, setup);
  }

  /** Under control-panel setup the head parks at the midpoint of the
      rectangle on each axis that has both bounds. */
  lemma CentreIsMidpoint(lo: real, hi: real)
    ensures Centre(Num(lo), Num(hi)) == Num((lo + hi) / 2.0)
    ensures MinReal(lo, hi) <= Centre(Num(lo), Num(hi)).r <= MaxReal(lo, hi)
  {
  }

  lemma MoveLineNoNewline(mode: JobOffsetMode, isRotate: bool, x: Value, y: Value, numStr: real -> string)
    requires forall r: real :: NoNewline(numStr(r))
    ensures NoNewline(MoveLine(mode, isRotate, x, y, numStr))
  {
    var hx := Text(OrZero(x), numStr);
    var hy := Text(y, numStr);
    assert NoNewline(hx) && NoNewline(hy);
  }

  lemma CommandOneLine(c: Command)
    ensures NoNewline(CommandText(c))
  {
  }

  /** Rendered lines hold no newline when the number-to-text conversion writes none. */
  lemma RenderNoNewline(lines: seq<Line>, mode: JobOffsetMode, isRotate: bool, numStr: real -> string)
    requires forall r: real :: NoNewline(numStr(r))
    ensures forall k :: 0 <= k < |lines| ==> NoNewline(Render(lines, mode, isRotate, numStr)[k])
  {
    forall k | 0 <= k < |lines|
      ensures NoNewline(Render(lines, mode, isRotate, numStr)[k])
    {
      match lines[k]
      case Move(x, y) => MoveLineNoNewline(mode, isRotate, x, y, numStr);
      case Fixed(c) => CommandOneLine(c);
    }
  }

  /** When the number-to-text conversion writes no newline, the program text
      splits back into exactly the lines that were pushed. */
  lemma ProgramLines(range: AxisWorkRange, mode: JobOffsetMode, isRotate: bool, setup: SetupCoordinateMethod,
                     numStr: real -> string)
    requires forall r: real :: NoNewline(numStr(r))
    ensures Split(Join(BoundaryLines(range, mode, isRotate, setup, numStr)))
      == BoundaryLines(range, mode, isRotate, setup, numStr)
  {
    var lines := BoundaryLines(range, mode, isRotate, setup, numStr);
    RenderNoNewline(BoundaryProgram(range, mode, isRotate, setup), mode, isRotate, numStr);
    SplitJoin(lines);
  }

  /** A work range from (0,0) to (100,50) on `x` and `y`. */
  predicate ExampleRange(range: AxisWorkRange) {
    range.min.x == Num(0.0) && range.min.y == Num(0.0) && range.max.x == Num(100.0) && range.max.y == Num(50.0)
  }

  /** The manual-setup example: crosshair on, absolute mode, origin zeroed, the
      five corners of (0,0)-(100,50), back to (0,0), end. */
  lemma ManualExample(range: AxisWorkRange, numStr: real -> string)
    requires ExampleRange(range)
    requires numStr(0.0) == "0" && numStr(100.0) == "100" && numStr(50.0) == "50"
    ensures BoundaryLines(range, Crosshair, false, Manually, numStr) ==
      [ "M2000 L13 P1", "G90", "G92 X0 Y0 B0",
        "G1 S0 X0 Y0 F6000", "G1 S0 X100 Y0 F6000", "G1 S0 X100 Y50 F6000",
        "G1 S0 X0 Y50 F6000", "G1 S0 X0 Y0 F6000",
        "G1 S0 X0 Y0 F6000", ";End" ]
  {
    ExampleLayout(range, Manually, numStr);
    ExampleMoveTexts(numStr);
  }

  /** The same request set up from the control panel: the motor-mode marker
      first, no origin line, the same five corner moves, and the head parks at
      the centre (50,25). */
  lemma ControlPanelExample(range: AxisWorkRange, numStr: real -> string)
    requires ExampleRange(range)
    requires numStr(50.0) == "50" && numStr(25.0) == "25"
    ensures var lines := BoundaryLines(range, Crosshair, false, ByControlPanel, numStr);
      && |lines| == 10
      && lines[..3] == [";motor_mode: 3", "M2000 L13 P1", "G90"]
      && lines[8] == "G1 S0 X50 Y25 F6000"
      && lines[9] == ";End"
  {
    ExampleLayout(range, ByControlPanel, numStr);
    ExampleReturnLine(range, numStr);
  }

  /** The crosshair program of a plain setup, by sections. */
  lemma ExampleLayout(range: AxisWorkRange, setup: SetupCoordinateMethod, numStr: real -> string)
    ensures var lines := BoundaryLines(range, Crosshair, false, setup, numStr);
      && |lines| == 10
      && lines[..3] == (if setup == ByControlPanel then [";motor_mode: 3", "M2000 L13 P1", "G90"]
                        else ["M2000 L13 P1", "G90", "G92 X0 Y0 B0"])
      && lines[3] == MoveLine(Crosshair, false, range.min.x, range.min.y, numStr)
      && lines[4] == MoveLine(Crosshair, false, range.max.x, range.min.y, numStr)
      && lines[5] == MoveLine(Crosshair, false, range.max.x, range.max.y, numStr)
      && lines[6] == MoveLine(Crosshair, false, range.min.x, range.max.y, numStr)
      && lines[7] == MoveLine(Crosshair, false, range.min.x, range.min.y, numStr)
      && (setup == Manually ==> lines[8] == MoveLine(Crosshair, false, Num(0.0), Num(0.0), numStr))
      && lines[9] == ";End"
  {
    ProgramLayout(range, Crosshair, false, setup);
    PreambleText(range, Crosshair, false, setup, numStr);
    MoveLinesOfProgram(range, Crosshair, false, setup, numStr);
    ShutdownText(range, Crosshair, false, setup, numStr);
  }

  /** The move lines of the two examples. */
  lemma ExampleMoveTexts(numStr: real -> string)
    requires numStr(0.0) == "0" && numStr(100.0) == "100" && numStr(50.0) == "50"
    ensures MoveLine(Crosshair, false, Num(0.0), Num(0.0), numStr) == "G1 S0 X0 Y0 F6000"
    ensures MoveLine(Crosshair, false, Num(100.0), Num(0.0), numStr) == "G1 S0 X100 Y0 F6000"
    ensures MoveLine(Crosshair, false, Num(100.0), Num(50.0), numStr) == "G1 S0 X100 Y50 F6000"
    ensures MoveLine(Crosshair, false, Num(0.0), Num(50.0), numStr) == "G1 S0 X0 Y50 F6000"
  {
  }

  /** The return line of the control-panel example. */
  lemma ExampleReturnLine(range: AxisWorkRange, numStr: real -> string)
    requires ExampleRange(range)
    requires numStr(50.0) == "50" && numStr(25.0) == "25"
    ensures BoundaryLines(range, Crosshair, false, ByControlPanel, numStr)[8] == "G1 S0 X50 Y25 F6000"
  {
    MoveLinesOfProgram(range, Crosshair, false, ByControlPanel, numStr);
    ExampleCentre(range);
    CentreMoveText(numStr);
  }

  /** The centre of (0,0)-(100,50). */
  lemma ExampleCentre(range: AxisWorkRange)
    requires ExampleRange(range)
    ensures ReturnMove(range, false, ByControlPanel) == Move(Num(50.0), Num(25.0))
  {
    assert Centre(range.min.y, range.max.y) == Num(25.0) by {
      assert range.min.y == Num(0.0) && range.max.y == Num(50.0);
      assert Centre(Num(0.0), Num(50.0)) == Num(25.0);
    }
    assert Centre(range.min.x, range.max.x) == Num(50.0) by {
      assert range.min.x == Num(0.0) && range.max.x == Num(100.0);
      assert Centre(Num(0.0), Num(100.0)) == Num(50.0);
    }
  }

  lemma CentreMoveText(numStr: real -> string)
    requires numStr(50.0) == "50" && numStr(25.0) == "25"
    ensures MoveLine(Crosshair, false, Num(50.0), Num(25.0), numStr) == "G1 S0 X50 Y25 F6000"
  {
  }
}
