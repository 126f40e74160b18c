# L-system engine

A Dafny model of the L-system engine of `dk.itu.lSystem`: the grammar
expansion `LSystem.expand`, the turtle interpreter `LSystem.interpret` with
its forward step `MovementAndRotationVertical` and its `TurtleStack`, and
the immutable pen snapshot `State`.

- `drawing.dfy` (module `Drawing`): the `Line` a canvas receives from
  `drawLine`, Java's `(int)` narrowing of a `double`, and a `Canvas` that is
  known only through the lines drawn on it.
- `state.dfy` (module `States`): `State` as a datatype with its getters and
  `Draw`.
- `grammar.dfy` (module `Grammar`): one generation (`Step`) and `n`
  generations (`Generations`) as functions on strings, with their algebra.
- `turtle.dfy` (module `Turtle`): `Trig`, the sine and cosine of the forward
  step; one symbol's transition (`Exec`) and the
  run over a string (`Run`), with the stack discipline, bracket restore and
  line-count lemmas.
- `lsystem.dfy` (module `LSystems`): the class `LSystem` whose fields are
  the object's fields and whose methods `Expand`, `MovementAndRotationVertical`
  and `Interpret` update them in place, each proved against the functions
  above.

Behaviour of the code that the model keeps as it is:

- Only the key `"F"` of `productionRule` is ever looked up; rules for other
  symbols have no effect, and every other symbol is copied.
- With no rule for `"F"`, `result += productionRule.get("F")` appends the
  four characters `null`; the model appends `"null"` (`Grammar.RuleForF`).
- The pen fields and `TurtleStack` belong to the object and are never
  reset: `Interpret` starts from whatever the previous call left, and after
  a run from an empty stack the stack holds one snapshot per unmatched `[`.
- A `]` on an empty stack throws `EmptyStackException`, which is not
  caught; the model returns `EmptyStackException`, leaves the pen and the
  stack as they were before that `]`, and keeps the lines already drawn.
- The canvas receives integer coordinates: each coordinate goes through
  Java's `(int)` (round toward zero, saturate at the `int` range).
- The expansion has no bound on the size of its output; the number of
  `F`s after `n` generations is `Count(axiom, 'F') * Count(rule, 'F')^n`.

## Model

| member | source | states |
|---|---|---|
| `Drawing.TruncateTowardZero` | src/dk/itu/lSystem/State.java:89 | the rounded value lies within one unit of the input, on the side of zero |
| `Drawing.JavaIntCast` | src/dk/itu/lSystem/State.java:89 | the result is always an `int`; it is the truncation toward zero when that fits, and the nearest bound of `int` otherwise |
| `States.GettersReturnConstructorArguments` | src/dk/itu/lSystem/State.java:35-98 | `getX`, `getY`, `getAngle`, `getLength`, `getTurningAngle` return the first to fifth constructor arguments |
| `States.State.Draw` | src/dk/itu/lSystem/State.java:88-90 | draws exactly one line, from this snapshot's own position to `(xp, yp)`, each coordinate narrowed to `int` |
| `Grammar.NonPositiveDepthKeepsAxiom` | src/dk/itu/lSystem/LSystem.java:72-75 | a depth of zero or less runs no generation, so `result` is the axiom |
| `Grammar.StepAppend` | src/dk/itu/lSystem/LSystem.java:77-89 | one generation of `a + b` is the generation of `a` followed by that of `b` (rewriting is context free) |
| `Grammar.RewritesF` | src/dk/itu/lSystem/LSystem.java:81-84 | an `F` is replaced in place by the rule for `"F"` |
| `Grammar.CopiesOtherSymbols` | src/dk/itu/lSystem/LSystem.java:85-88 | any symbol other than `F` is copied verbatim, in place |
| `Grammar.StepWithoutF` | src/dk/itu/lSystem/LSystem.java:79-88 | a string with no `F` is unchanged by a generation |
| `Grammar.GenerationsWithoutF` | src/dk/itu/lSystem/LSystem.java:75-90 | an axiom with no `F` is unchanged by any number of generations |
| `Grammar.StepIdentityRule` | src/dk/itu/lSystem/LSystem.java:79-88 | with the rule `"F"` a generation is the identity |
| `Grammar.GenerationsIdentityRule` | src/dk/itu/lSystem/LSystem.java:72-90 | with the rule `"F"` expansion returns the axiom for every depth |
| `Grammar.StepLength` | src/dk/itu/lSystem/LSystem.java:79-88 | one generation lengthens `s` by `Count(s, 'F')` times (length of the rule - 1) |
| `Grammar.StepCountF` | src/dk/itu/lSystem/LSystem.java:79-88 | one generation multiplies the number of `F`s by the number of `F`s in the rule |
| `Grammar.GenerationsCountF` | src/dk/itu/lSystem/LSystem.java:75-90 | after `n` generations there are `Count(axiom, 'F') * Count(rule, 'F')^n` `F`s |
| `Grammar.GenerationsAdd` | src/dk/itu/lSystem/LSystem.java:75-90 | `m` generations followed by `n` more equal `m + n` generations |
| `Grammar.GenerationsFirstStep` | src/dk/itu/lSystem/LSystem.java:75-90 | `n + 1` generations equal `n` generations applied to the first generation |
| `Grammar.OtherRulesIgnored` | src/dk/itu/lSystem/LSystem.java:81-84 | adding or changing the rule of any key other than `"F"` changes no expansion |
| `Grammar.PlantExample` | src/dk/itu/lSystem/LSystem.java:72-90 | axiom `F`, rule `F[-F]F[+F]F`, one generation gives `F[-F]F[+F]F` |
| `Grammar.DoublingExample` | src/dk/itu/lSystem/LSystem.java:72-90 | axiom `F`, rule `F+F`, two generations give `F+F+F+F` |
| `Grammar.MissingRuleExample` | src/dk/itu/lSystem/LSystem.java:83 | with no rule for `"F"`, `F+F` becomes `null+null` |
| `Turtle.RunAppend` | src/dk/itu/lSystem/LSystem.java:119-152 | interpreting `a + b` is interpreting `a` and then `b` from where `a` stopped; after a failed pop nothing more happens |
| `Turtle.StackDepth` | src/dk/itu/lSystem/LSystem.java:137-148 | a run without failure changes the stack depth by the number of `[` minus the number of `]` |
| `Turtle.UnderflowIff` | src/dk/itu/lSystem/LSystem.java:141-143 | a run fails exactly when some `]` is reached with the stack emptied by the pushes and pops before it |
| `Turtle.PopOnEmptyFails` | src/dk/itu/lSystem/LSystem.java:143 | `]` on an empty stack fails, draws nothing and changes nothing |
| `Turtle.FailKeepsEarlier` | src/dk/itu/lSystem/LSystem.java:141-155 | a `]` reached with an empty stack stops the run: pen and stack stay as before it, the lines drawn so far remain, and nothing after it runs |
| `Turtle.LinesPerF` | src/dk/itu/lSystem/LSystem.java:122-151 | a run draws exactly one line per `F` when it does not fail, and never more than one per `F` |
| `Turtle.RotationByCount` | src/dk/itu/lSystem/LSystem.java:127-135 | the rotation asked for by a string is the turn angle times (number of `+` minus number of `-`) |
| `Turtle.TurnsOnlyRotate` | src/dk/itu/lSystem/LSystem.java:127-135 | a string of `+` and `-` adds `+turnAngle` or `-turnAngle` per symbol to the heading and changes neither position, step length, turn angle nor stack, and draws nothing |
| `Turtle.TurnsRotateByCount` | src/dk/itu/lSystem/LSystem.java:127-135 | the heading after a string of turns is the old heading plus (number of `+` minus number of `-`) times the turn angle |
| `Turtle.PositionKept` | src/dk/itu/lSystem/LSystem.java:127-151 | symbols other than `F` and `]` never move the pen, draw or fail |
| `Turtle.ChainedLines` | src/dk/itu/lSystem/LSystem.java:122-151 | two `F`s separated only by turns, pushes and unknown symbols draw lines where the second starts at the end of the first |
| `Turtle.SnapshotsKept` | src/dk/itu/lSystem/LSystem.java:137-148 | a string that never pops more than it pushed runs without failure and leaves every snapshot already on the stack untouched |
| `Turtle.BracketRestores` | src/dk/itu/lSystem/LSystem.java:137-148 | `"[" + w + "]"` for balanced `w` restores position, heading, step length, turn angle and stack exactly, after one line per `F` of `w` |
| `Turtle.UnknownSymbolIgnored` | src/dk/itu/lSystem/LSystem.java:119-152 | inserting a symbol other than `F + - [ ]` anywhere leaves the run unchanged |
| `Turtle.SingleStepExample` | src/dk/itu/lSystem/LSystem.java:122-126 | from `(100, 100)`, heading 0 and step 5, `F` draws exactly the line `(100, 100)` to `(100, 105)` |
| `LSystems.LSystem.constructor` | src/dk/itu/lSystem/LSystem.java:36-64 | the turtle starts at `(100, 100)`, heading 0, step 5, turn angle pi/6, empty stack and no rules |
| `LSystems.LSystem.Expand` | src/dk/itu/lSystem/LSystem.java:70-91 | `result` becomes the axiom after `Iterations(depth)` generations of the rule for `"F"`; nothing else changes |
| `LSystems.LSystem.MovementAndRotationVertical` | src/dk/itu/lSystem/LSystem.java:93-97 | x grows by `step * sin(angle)` and y by `step * cos(angle)`; nothing else changes |
| `LSystems.LSystem.Interpret` | src/dk/itu/lSystem/LSystem.java:109-160 | the pen fields and the stack end as `Run` of `result` end as `Run` of `result` from their old values, the canvas receives exactly that run's lines, and the call reports `EmptyStackException` exactly when the run fails |

## Left out

- `Thread.sleep(50)` at the start of `interpret`: pacing only. Interrupting the thread makes `interpret` print a stack trace and return without processing any symbol (no line drawn, pen fields and stack unchanged); interruption is not modelled, and `Interpret` always processes the string.
- The values of `Math.sin` and `Math.cos` and floating-point rounding: coordinates and angles are exact reals, and sine and cosine are a parameter (`Trig`) about which nothing is assumed except in `Turtle.SingleStepExample`.
- `Math.PI` is a parameter of the constructor, since reals cannot hold it.
- `MovementAndRotationHorizontal`: it is never called.
- Fractional depths: `expand` takes a `double`, and its loop runs ceil(depth) times for a positive depth and never for a depth of zero or less or NaN; the model takes an integer depth.
- Java's `null`: the fields `axiom` and `result` start as `null` in the source (so `interpret` before `expand` throws `NullPointerException`); the model starts them as empty strings. `interpret(null)` is not modelled either (the `Canvas` parameter is non-null): in the source it processes the symbols before the first `F`, which can change the pen and the stack, and then throws `NullPointerException` in `State.draw`.
- `src/dk/itu/lSystem/util/Canvas.java`: the window, the `Graphics2D` drawing, the y inversion and the pacing in `drawLine`, and the demo wiring in `main`; the canvas is modelled only as the list of lines `drawLine` receives.
- `State.print()`: string formatting only.
