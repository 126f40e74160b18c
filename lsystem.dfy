/** The L-system object: axiom, production rules, the expanded string, the
    turtle's pen fields and its snapshot stack, all updated in place. */
module LSystems {
  import opened Drawing
  import opened States
  import opened Grammar
  import opened Turtle

  /** How interpret ends: normally, or with the EmptyStackException thrown
      by a pop from an empty TurtleStack. */
  datatype Outcome = Completed | EmptyStackException

  class LSystem {
    var axiom: string
    var result: string
    var productionRule: map<string, string>
    var startx: real
    var starty: real
    var startAngle: real
    var turnAngle: real
    var length: real
    /** TurtleStack; its top is the last element. */
    var turtleStack: seq<State>
    /** Math.sin and Math.cos. */
    const trig: Trig

    /** The pen fields as a snapshot. */
    function Pen(): State
      reads this
    {
      State(startx, starty, startAngle, length, turnAngle)
    }

    /** The pen fields and the stack. */
    function Current(): Config
      reads this
    {
      Config(Pen(), turtleStack)
    }

    /** The field initialisers: the turtle starts at (100, 100) with heading
        0, step 5 and turn angle pi / 6, with an empty stack and no rules.
        `pi` is the value of Math.PI. */
    constructor (trig: Trig, pi: real)
      ensures this.trig == trig
      ensures axiom == "" && result == "" && productionRule == map[]
      ensures Pen() == State(100.0, 100.0, 0.0, 5.0, pi / 6.0)
      ensures turtleStack == []
    {
      this.trig := trig;
      axiom, result, productionRule := "", "", map[];
      startx, starty, startAngle := 100.0, 100.0, 0.0;
      turnAngle, length := pi / 6.0, 5.0;
      turtleStack := [];
    }

    /** Rewrites the axiom depth times, replacing every 'F' by the rule for
        "F" and copying every other symbol. */
    method Expand(depth: int)
      modifies this`result
      ensures result == Generations(axiom, RuleForF(productionRule), Iterations(depth))
    {
      result := axiom;
      var i := 0;
      while i < depth
        invariant 0 <= i <= Iterations(depth)
        invariant result == Generations(axiom, RuleForF(productionRule), i)
        decreases depth - i
      {
        var finalProduct := result;
        result := "";
        var j := 0;
        while j < |finalProduct|
          invariant 0 <= j <= |finalProduct|
          invariant result == Step(finalProduct[..j], RuleForF(productionRule))
        {
          var f := finalProduct[j];
          if f == 'F' {
            result := result + RuleForF(productionRule);
          } else {
            result := result + [f];
          }
          assert finalProduct[..j + 1][..j] == finalProduct[..j];
          j := j + 1;
        }
        assert finalProduct[..|finalProduct|] == finalProduct;
        i := i + 1;
      }
    }

    /** Moves the pen step units along heading radianAngle, where heading 0
        points along +y. */
    method MovementAndRotationVertical(step: real, radianAngle: real)
      modifies this`startx, this`starty
      ensures startx == old(startx) + trig.DeltaX(step, radianAngle)
      ensures starty == old(starty) + trig.DeltaY(step, radianAngle)
    {
      startx := startx + trig.DeltaX(step, radianAngle);
      starty := starty + trig.DeltaY(step, radianAngle);
    }

    /** Runs the turtle over the expanded string, drawing on the canvas.
        The pen fields and the stack end where the run ends (they are not
        reset, so a second call continues from them); the canvas receives
        the run's lines; a pop from an empty stack stops the run with the
        lines drawn so far left on the canvas. */
    method Interpret(canvas: Canvas) returns (outcome: Outcome)
      modifies this`startx, this`starty, this`startAngle, this`turnAngle, this`length
      modifies this`turtleStack, canvas
      ensures Current() == Run(result, old(Current()), trig).config
      ensures canvas.lines == old(canvas.lines) + Run(result, old(Current()), trig).lines
      ensures outcome == EmptyStackException <==> Run(result, old(Current()), trig).failed
    {
      var state := State(startx, starty, startAngle, length, turnAngle);
      var finalProduct := result;
      ghost var start := Current();
      ghost var drawn := canvas.lines;
      var j := 0;
      while j < |finalProduct|
        invariant 0 <= j <= |finalProduct|
        invariant state == Pen()
        invariant !Run(finalProduct[..j], start, trig).failed
        invariant Current() == Run(finalProduct[..j], start, trig).config
        invariant canvas.lines == drawn + Run(finalProduct[..j], start, trig).lines
      {
        var f := finalProduct[j];
        ghost var before := Run(finalProduct[..j], start, trig);
        assert finalProduct[..j + 1][..j] == finalProduct[..j];
        assert Run(finalProduct[..j + 1], start, trig) == Continue(before, f, trig);
        if f == 'F' {
          assert before.config == Config(state, turtleStack);
          MovementAndRotationVertical(state.GetLength(), state.GetAngle());
          assert Pen() == Advance(state, trig);
          state.Draw(canvas, startx, starty);
          assert Exec(f, before.config, trig) == Next(Current(), [state.LineTo(startx, starty)]);
        } else if f == '+' {
          startAngle := startAngle + turnAngle;
          assert Exec(f, before.config, trig) == Next(Current(), []);
        } else if f == '-' {
          startAngle := startAngle - turnAngle;
          assert Exec(f, before.config, trig) == Next(Current(), []);
        } else if f == '[' {
          turtleStack := turtleStack + [state];
          assert Exec(f, before.config, trig) == Next(Current(), []);
        } else if f == ']' {
          if turtleStack == [] {
            RunAppend(finalProduct[..j + 1], finalProduct[j + 1..], start, trig);
            assert finalProduct[..j + 1] + finalProduct[j + 1..] == finalProduct;
            outcome := EmptyStackException;
            return;
          }
          var s := turtleStack[|turtleStack| - 1];
          turtleStack := turtleStack[..|turtleStack| - 1];
          startx := s.GetX();
          starty := s.GetY();
          startAngle := s.GetAngle();
          turnAngle := s.GetTurningAngle();
          length := s.GetLength();
          assert Exec(f, before.config, trig) == Next(Current(), []);
        } else {
          assert Exec(f, before.config, trig) == Next(Current(), []);
        }
        state := State(startx, starty, startAngle, length, turnAngle);
        j := j + 1;
      }
      assert finalProduct[..|finalProduct|] == finalProduct;
      outcome := Completed;
    }
  }
}
