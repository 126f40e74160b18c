/** The turtle interpretation performed by LSystem.interpret, as functions:
    one transition per symbol, and the run over a whole string. */
module Turtle {
  import opened Drawing
  import opened States
  import opened Grammar

  /** The trigonometric functions the forward step uses (Math.sin and
      Math.cos); they are a parameter of the model, not defined by it. */
  datatype Trig = Trig(sin: real -> real, cos: real -> real)
  {
    /** The x and y displacement of a forward step of the given length
        along the given heading; heading 0 points along +y. */
    function DeltaX(step: real, heading: real): real { step * sin(heading) }
    function DeltaY(step: real, heading: real): real { step * cos(heading) }
  }

  /** The interpreter's state between symbols: the pen and the snapshot
      stack, whose top is the last element. */
  datatype Config = Config(pen: State, stack: seq<State>)

  /** What one symbol does: a new configuration and the lines it draws, or
      a pop from an empty stack. */
  datatype Effect = Next(config: Config, emitted: seq<Line>) | EmptyStack

  /** A run so far: the configuration reached, every line drawn, and whether
      it stopped on a pop from an empty stack (then `config` is the
      configuration just before that pop). */
  datatype Trace = Trace(config: Config, lines: seq<Line>, failed: bool)

  /** The forward step: x grows by length * sin(heading), y by
      length * cos(heading); heading 0 points along +y. */
  function Advance(p: State, trig: Trig): State
  {
    p.(x := p.x + trig.DeltaX(p.length, p.angle), y := p.y + trig.DeltaY(p.length, p.angle))
  }

  /** The transition for one symbol. */
  function Exec(c: char, cfg: Config, trig: Trig): Effect
  {
    var p := cfg.pen;
    if c == 'F' then
      var q := Advance(p, trig);
      Next(Config(q, cfg.stack), [p.LineTo(q.x, q.y)])
    else if c == '+' then
      Next(Config(p.(angle := p.angle + p.turningAngle), cfg.stack), [])
    else if c == '-' then
      Next(Config(p.(angle := p.angle - p.turningAngle), cfg.stack), [])
    else if c == '[' then
      Next(Config(p, cfg.stack + [p]), [])
    else if c == ']' then
      if cfg.stack == [] then EmptyStack
      else Next(Config(cfg.stack[|cfg.stack| - 1], cfg.stack[..|cfg.stack| - 1]), [])
    else
      Next(cfg, [])
  }

  /** Processes one more symbol; a failed run stays as it is. */
  function Continue(t: Trace, c: char, trig: Trig): Trace
  {
    if t.failed then t
    else match Exec(c, t.config, trig)
      case EmptyStack => t.(failed := true)
      case Next(cfg, out) => Trace(cfg, t.lines + out, false)
  }

  /** The run over w from cfg, symbol by symbol from left to right. */
  function Run(w: string, cfg: Config, trig: Trig): Trace
  {
    if w == [] then Trace(cfg, [], false)
    else Continue(Run(w[..|w| - 1], cfg, trig), w[|w| - 1], trig)
  }

  /** Runs w after t, from where t stopped, keeping t's lines first. */
  function Resume(t: Trace, w: string, trig: Trig): Trace
  {
    if t.failed then t
    else
      var u := Run(w, t.config, trig);
      Trace(u.config, t.lines + u.lines, u.failed)
  }

  /** Pushes minus pops. */
  function Net(w: string): int
  {
    Count(w, '[') - Count(w, ']')
  }

  /** Every '[' is matched by a later ']' and no ']' lacks an earlier '['. */
  ghost predicate Balanced(w: string)
  {
    Net(w) == 0 && forall j :: 0 <= j <= |w| ==> Net(w[..j]) >= 0
  }

  lemma ContinueResume(t: Trace, w: string, c: char, trig: Trig)
    requires !t.failed
    ensures Continue(Resume(t, w, trig), c, trig) == Resume(t, w + [c], trig)
  {
    assert (w + [c])[..|w + [c]| - 1] == w;
  }

  /** Interpreting a + b is interpreting a and then b from where a stopped;
      once a pop has failed, nothing after it runs. */
  lemma {:induction false} RunAppend(a: string, b: string, cfg: Config, trig: Trig)
    ensures Run(a + b, cfg, trig) == Resume(Run(a, cfg, trig), b, trig)
  {
    if b == [] {
      assert a + b == a;
    } else {
      var b' := b[..|b| - 1];
      assert (a + b)[..|a + b| - 1] == a + b';
      RunAppend(a, b', cfg, trig);
      var t := Run(a, cfg, trig);
      if !t.failed {
        ContinueResume(t, b', b[|b| - 1], trig);
        assert b' + [b[|b| - 1]] == b;
      }
    }
  }

  /** Without a failure, the stack grows by one per '[' and shrinks by one
      per ']'. */
  lemma {:induction false} StackDepth(w: string, cfg: Config, trig: Trig)
    ensures !Run(w, cfg, trig).failed ==> |Run(w, cfg, trig).config.stack| == |cfg.stack| + Net(w)
  {
    if w != [] {
      StackDepth(w[..|w| - 1], cfg, trig);
    }
  }

  /** A run fails exactly when it meets a ']' at a point where the pushes
      and pops before it have emptied the stack. */
  lemma {:induction false} UnderflowIff(w: string, cfg: Config, trig: Trig)
    ensures Run(w, cfg, trig).failed <==>
      exists j :: 0 <= j < |w| && w[j] == ']' && |cfg.stack| + Net(w[..j]) == 0
  {
    if w != [] {
      var p := w[..|w| - 1];
      UnderflowIff(p, cfg, trig);
      StackDepth(p, cfg, trig);
      assert forall j :: 0 <= j < |p| ==> w[j] == p[j] && w[..j] == p[..j];
      if exists j :: 0 <= j < |w| && w[j] == ']' && |cfg.stack| + Net(w[..j]) == 0 {
        var j :| 0 <= j < |w| && w[j] == ']' && |cfg.stack| + Net(w[..j]) == 0;
        if j == |p| {
          assert w[..j] == p;
        }
      }
    }
  }

  /** One line per 'F' processed, none for any other symbol. */
  lemma {:induction false} LinesPerF(w: string, cfg: Config, trig: Trig)
    ensures |Run(w, cfg, trig).lines| <= Count(w, 'F')
    ensures !Run(w, cfg, trig).failed ==> |Run(w, cfg, trig).lines| == Count(w, 'F')
  {
    if w != [] {
      LinesPerF(w[..|w| - 1], cfg, trig);
    }
  }

  /** The total rotation a string of turns asks for, symbol by symbol. */
  function Rotation(w: string, a: real): real
  {
    if w == [] then 0.0
    else
      var turn := if w[|w| - 1] == '+' then a else if w[|w| - 1] == '-' then -a else 0.0;
      Rotation(w[..|w| - 1], a) + turn
  }

  /** The rotation is turningAngle times the number of '+' less the number of '-'. */
  lemma {:induction false} RotationByCount(w: string, a: real)
    ensures Rotation(w, a) == (Count(w, '+') - Count(w, '-')) as real * a
  {
    if w != [] {
      var p := w[..|w| - 1];
      RotationByCount(p, a);
      var k := (Count(p, '+') - Count(p, '-')) as real;
      RealMulSucc(k, a);
      RealMulPred(k, a);
    }
  }

  lemma RealMulSucc(k: real, a: real)
    ensures (k + 1.0) * a == k * a + a
  {
  }

  lemma RealMulPred(k: real, a: real)
    ensures (k - 1.0) * a == k * a - a
  {
  }

  /** A string of turns only rotates the heading, by turningAngle per '+'
      and by -turningAngle per '-', and changes nothing else. */
  lemma {:induction false} TurnsOnlyRotate(w: string, cfg: Config, trig: Trig)
    requires forall j :: 0 <= j < |w| ==> w[j] == '+' || w[j] == '-'
    ensures var t := Run(w, cfg, trig);
      && !t.failed && t.lines == []
      && t.config.stack == cfg.stack
      && t.config.pen == cfg.pen.(angle := cfg.pen.angle + Rotation(w, cfg.pen.turningAngle))
  {
    if w != [] {
      var p := w[..|w| - 1];
      assert forall j :: 0 <= j < |p| ==> p[j] == w[j];
      TurnsOnlyRotate(p, cfg, trig);
    }
  }

  /** The same, counted: the heading changes by
      (number of '+' - number of '-') * turningAngle. */
  lemma TurnsRotateByCount(w: string, cfg: Config, trig: Trig)
    requires forall j :: 0 <= j < |w| ==> w[j] == '+' || w[j] == '-'
    ensures Run(w, cfg, trig).config.pen.angle
      == cfg.pen.angle + (Count(w, '+') - Count(w, '-')) as real * cfg.pen.turningAngle
  {
    TurnsOnlyRotate(w, cfg, trig);
    RotationByCount(w, cfg.pen.turningAngle);
  }

  /** Symbols other than 'F' and ']' never move the pen, draw or fail. */
  lemma {:induction false} PositionKept(w: string, cfg: Config, trig: Trig)
    requires Count(w, 'F') == 0 && Count(w, ']') == 0
    ensures var t := Run(w, cfg, trig);
      !t.failed && t.lines == [] && t.config.pen.x == cfg.pen.x && t.config.pen.y == cfg.pen.y
  {
    if w != [] {
      PositionKept(w[..|w| - 1], cfg, trig);
    }
  }

  /** Two 'F's with only turns, pushes and unknown symbols between them draw
      chained lines: the second starts where the first ended. */
  lemma ChainedLines(a: string, b: string, cfg: Config, trig: Trig)
    requires Count(b, 'F') == 0 && Count(b, ']') == 0
    requires !Run(a, cfg, trig).failed
    ensures var t := Run(a + "F" + b + "F", cfg, trig);
      && !t.failed && |t.lines| >= 2
      && t.lines[|t.lines| - 2].x2 == t.lines[|t.lines| - 1].x1
      && t.lines[|t.lines| - 2].y2 == t.lines[|t.lines| - 1].y1
  {
    var t0 := Run(a, cfg, trig);
    var t1 := Run(a + "F", cfg, trig);
    assert (a + "F")[..|a + "F"| - 1] == a;
    RunAppend(a + "F", b, cfg, trig);
    PositionKept(b, t1.config, trig);
    var t2 := Run(a + "F" + b, cfg, trig);
    assert (a + "F" + b + "F")[..|a + "F" + b + "F"| - 1] == a + "F" + b;
  }

  /** Starting from stack S, a string whose prefixes never pop more than
      they push runs without failure and leaves S itself untouched beneath
      whatever it pushed: a pushed snapshot is never altered. */
  lemma {:induction false} SnapshotsKept(w: string, cfg: Config, trig: Trig)
    requires forall j :: 0 <= j <= |w| ==> Net(w[..j]) >= 0
    ensures var t := Run(w, cfg, trig);
      && !t.failed
      && |cfg.stack| <= |t.config.stack|
      && t.config.stack[..|cfg.stack|] == cfg.stack
      && |t.config.stack| == |cfg.stack| + Net(w)
  {
    if w != [] {
      var p := w[..|w| - 1];
      assert forall j :: 0 <= j <= |p| ==> p[..j] == w[..j];
      SnapshotsKept(p, cfg, trig);
      StackDepth(w, cfg, trig);
      assert w[..|w|] == w;
    }
  }

  /** "[" + w + "]" for balanced w restores the pen and the stack exactly,
      after drawing one line per 'F' of w. */
  lemma BracketRestores(w: string, cfg: Config, trig: Trig)
    requires Balanced(w)
    ensures var t := Run("[" + w + "]", cfg, trig);
      !t.failed && t.config == cfg && |t.lines| == Count(w, 'F')
  {
    var inner := Config(cfg.pen, cfg.stack + [cfg.pen]);
    assert "["[..0] == [];
    assert Run("[", cfg, trig) == Trace(inner, [], false);
    RunAppend("[", w, cfg, trig);
    SnapshotsKept(w, inner, trig);
    var u := Run(w, inner, trig);
    assert u.config.stack == inner.stack;
    assert ("[" + w + "]")[..|"[" + w + "]"| - 1] == "[" + w;
    LinesPerF(w, inner, trig);
  }

  /** Symbols with no turtle meaning can be inserted anywhere without any
      effect on the run. */
  lemma UnknownSymbolIgnored(a: string, c: char, b: string, cfg: Config, trig: Trig)
    requires c != 'F' && c != '+' && c != '-' && c != '[' && c != ']'
    ensures Run(a + [c] + b, cfg, trig) == Run(a + b, cfg, trig)
  {
    assert (a + [c])[..|a + [c]| - 1] == a;
    RunAppend(a + [c], b, cfg, trig);
    RunAppend(a, b, cfg, trig);
  }

  /** A ']' with nothing pushed fails, draws nothing and changes nothing. */
  lemma PopOnEmptyFails(p: State, trig: Trig)
    ensures Run("]", Config(p, []), trig) == Trace(Config(p, []), [], true)
  {
    assert "]"[..0] == [];
  }

  /** A ']' reached with an empty stack stops the run there: the pen and
      the stack stay as they were before it, the lines drawn so far remain,
      and nothing after it is processed. */
  lemma FailKeepsEarlier(a: string, b: string, cfg: Config, trig: Trig)
    requires !Run(a, cfg, trig).failed && Run(a, cfg, trig).config.stack == []
    ensures Run(a + "]" + b, cfg, trig) == Run(a, cfg, trig).(failed := true)
  {
    var t := Run(a, cfg, trig);
    RunAppend(a, "]", cfg, trig);
    PopOnEmptyFails(t.config.pen, trig);
    RunAppend(a + "]", b, cfg, trig);
  }

  /** From x = y = 100, heading 0 and step 5, "F" draws the one line
      (100, 100) to (100, 105). */
  lemma SingleStepExample(turn: real, trig: Trig)
    requires trig.sin(0.0) == 0.0 && trig.cos(0.0) == 1.0
    ensures Run("F", Config(State(100.0, 100.0, 0.0, 5.0, turn), []), trig).lines
      == [Line(100, 100, 100, 105)]
  {
    assert "F"[..0] == [];
    assert JavaIntCast(100.0) == 100;
    assert JavaIntCast(105.0) == 105;
  }
}
