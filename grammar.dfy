/** The rewriting performed by LSystem.expand, as functions on strings. */
module Grammar {

  /** What `result += productionRule.get("F")` appends: the rule for "F",
      or the four characters "null" when the table has no rule for "F". */
  function RuleForF(rules: map<string, string>): string
  {
    if "F" in rules then rules["F"] else "null"
  }

  /** The number of occurrences of symbol c in s. */
  function Count(s: string, c: char): nat
  {
    if s == [] then 0 else Count(s[..|s| - 1], c) + (if s[|s| - 1] == c then 1 else 0)
  }

  /** What one symbol becomes in one generation: 'F' becomes the rule,
      every other symbol stays as it is. */
  function Image(c: char, rule: string): string
  {
    if c == 'F' then rule else [c]
  }

  /** One generation, built left to right by appending each symbol's image. */
  function Step(s: string, rule: string): string
  {
    if s == [] then [] else Step(s[..|s| - 1], rule) + Image(s[|s| - 1], rule)
  }

  /** The string after n generations starting from the axiom. */
  function Generations(axiom: string, rule: string, n: nat): string
  {
    if n == 0 then axiom else Step(Generations(axiom, rule, n - 1), rule)
  }

  /** How many times `for (i = 0; i < depth; i++)` runs for an integral depth. */
  function Iterations(depth: int): nat
  {
    if depth <= 0 then 0 else depth
  }

  function Pow(b: nat, n: nat): nat
  {
    if n == 0 then 1 else b * Pow(b, n - 1)
  }

  lemma {:induction false} CountAppend(a: string, b: string, c: char)
    ensures Count(a + b, c) == Count(a, c) + Count(b, c)
  {
    if b != [] {
      assert (a + b)[..|a + b| - 1] == a + b[..|b| - 1];
      CountAppend(a, b[..|b| - 1], c);
    } else {
      assert a + b == a;
    }
  }

  /** Rewriting is context free: a generation of a concatenation is the
      concatenation of the generations of the parts. */
  lemma {:induction false} StepAppend(a: string, b: string, rule: string)
    ensures Step(a + b, rule) == Step(a, rule) + Step(b, rule)
  {
    if b == [] {
      assert a + b == a;
    } else {
      assert (a + b)[..|a + b| - 1] == a + b[..|b| - 1];
      StepAppend(a, b[..|b| - 1], rule);
    }
  }

  /** A symbol other than 'F' is copied verbatim, in place, between the
      images of its neighbours. */
  lemma CopiesOtherSymbols(a: string, c: char, b: string, rule: string)
    requires c != 'F'
    ensures Step(a + [c] + b, rule) == Step(a, rule) + [c] + Step(b, rule)
  {
    StepAppend(a + [c], b, rule);
    StepAppend(a, [c], rule);
    assert [c][..0] == [];
  }

  /** Each 'F' becomes the rule, in place. */
  lemma RewritesF(a: string, b: string, rule: string)
    ensures Step(a + "F" + b, rule) == Step(a, rule) + rule + Step(b, rule)
  {
    StepAppend(a + "F", b, rule);
    StepAppend(a, "F", rule);
    assert "F"[..0] == [];
  }

  /** A string with no 'F' is left unchanged by a generation. */
  lemma {:induction false} StepWithoutF(s: string, rule: string)
    requires Count(s, 'F') == 0
    ensures Step(s, rule) == s
  {
    if s != [] {
      StepWithoutF(s[..|s| - 1], rule);
      assert s[..|s| - 1] + [s[|s| - 1]] == s;
    }
  }

  /** A string with no 'F' is left unchanged by any number of generations. */
  lemma {:induction false} GenerationsWithoutF(axiom: string, rule: string, n: nat)
    requires Count(axiom, 'F') == 0
    ensures Generations(axiom, rule, n) == axiom
  {
    if n > 0 {
      GenerationsWithoutF(axiom, rule, n - 1);
      StepWithoutF(axiom, rule);
    }
  }

  /** The rule "F" makes a generation the identity. */
  lemma {:induction false} StepIdentityRule(s: string)
    ensures Step(s, "F") == s
  {
    if s != [] {
      StepIdentityRule(s[..|s| - 1]);
      assert s[..|s| - 1] + [s[|s| - 1]] == s;
    }
  }

  /** With the rule "F", expansion returns the axiom for every depth. */
  lemma {:induction false} GenerationsIdentityRule(axiom: string, n: nat)
    ensures Generations(axiom, "F", n) == axiom
  {
    if n > 0 {
      GenerationsIdentityRule(axiom, n - 1);
      StepIdentityRule(axiom);
    }
  }

  /** One generation adds |rule| - 1 symbols for every 'F'. */
  lemma {:induction false} StepLength(s: string, rule: string)
    ensures |Step(s, rule)| == |s| + Count(s, 'F') * (|rule| - 1)
  {
    if s != [] {
      var p, c := s[..|s| - 1], s[|s| - 1];
      StepLength(p, rule);
      var k, l := Count(p, 'F'), |rule| - 1;
      if c == 'F' {
        assert Count(s, 'F') * l == k * l + l;
      } else {
        assert Count(s, 'F') == k;
      }
    }
  }

  /** The number of 'F's is multiplied by the number of 'F's in the rule. */
  lemma {:induction false} StepCountF(s: string, rule: string)
    ensures Count(Step(s, rule), 'F') == Count(s, 'F') * Count(rule, 'F')
  {
    if s != [] {
      var p, c := s[..|s| - 1], s[|s| - 1];
      var sp, im := Step(p, rule), Image(c, rule);
      assert Step(s, rule) == sp + im;
      StepCountF(p, rule);
      CountAppend(sp, im, 'F');
      var k, r := Count(p, 'F'), Count(rule, 'F');
      if c == 'F' {
        assert Count(s, 'F') == k + 1;
        MulSucc(k, r);
      } else {
        assert [c][..0] == [];
        assert Count(im, 'F') == 0;
        assert Count(s, 'F') == k;
      }
    }
  }

  lemma MulSucc(k: nat, r: nat)
    ensures (k + 1) * r == k * r + r
  {
  }

  lemma MulAssoc(a: nat, b: nat, c: nat)
    ensures (a * b) * c == a * (b * c)
  {
  }

  /** After n generations there are Count(axiom, 'F') * Count(rule, 'F')^n
      'F's: the growth is exponential in the depth. */
  lemma {:induction false} GenerationsCountF(axiom: string, rule: string, n: nat)
    ensures Count(Generations(axiom, rule, n), 'F') == Count(axiom, 'F') * Pow(Count(rule, 'F'), n)
  {
    if n > 0 {
      var g := Generations(axiom, rule, n - 1);
      GenerationsCountF(axiom, rule, n - 1);
      StepCountF(g, rule);
      var a, k, q := Count(axiom, 'F'), Count(rule, 'F'), Pow(Count(rule, 'F'), n - 1);
      assert Count(g, 'F') == a * q;
      assert Count(Generations(axiom, rule, n), 'F') == (a * q) * k;
      MulAssoc(a, q, k);
      assert Pow(k, n) == k * q;
    }
  }

  /** Expanding m generations and then n more is expanding m + n. */
  lemma {:induction false} GenerationsAdd(axiom: string, rule: string, m: nat, n: nat)
    ensures Generations(Generations(axiom, rule, m), rule, n) == Generations(axiom, rule, m + n)
  {
    if n > 0 {
      GenerationsAdd(axiom, rule, m, n - 1);
    }
  }

  /** Expanding n + 1 times is expanding n times from the first generation. */
  lemma {:induction false} GenerationsFirstStep(axiom: string, rule: string, n: nat)
    ensures Generations(axiom, rule, n + 1) == Generations(Step(axiom, rule), rule, n)
  {
    GenerationsAdd(axiom, rule, 1, n);
  }

  /** A depth of zero or less leaves the axiom as it is. */
  lemma NonPositiveDepthKeepsAxiom(axiom: string, rules: map<string, string>, depth: int)
    requires depth <= 0
    ensures Generations(axiom, RuleForF(rules), Iterations(depth)) == axiom
  {
  }

  /** Only the entry for "F" is consulted: changing or adding the rule for
      any other key changes no expansion. */
  lemma OtherRulesIgnored(rules: map<string, string>, k: string, v: string, axiom: string, n: nat)
    requires k != "F"
    ensures Generations(axiom, RuleForF(rules[k := v]), n) == Generations(axiom, RuleForF(rules), n)
  {
  }

  /** Axiom "F" with F -> "F[-F]F[+F]F" gives the rule itself after one generation. */
  lemma PlantExample()
    ensures Generations("F", RuleForF(map["F" := "F[-F]F[+F]F"]), 1) == "F[-F]F[+F]F"
  {
    assert "F"[..0] == [];
  }

  /** Axiom "F" with F -> "F+F" gives "F+F+F+F" after two generations. */
  lemma DoublingExample()
    ensures Generations("F", RuleForF(map["F" := "F+F"]), 2) == "F+F+F+F"
  {
    var rule := "F+F";
    assert RuleForF(map["F" := "F+F"]) == rule;
    assert "F"[..0] == [];
    assert Generations("F", rule, 1) == rule;
    RewritesF([], "+F", rule);
    CopiesOtherSymbols([], '+', "F", rule);
    assert [] + "F" + "+F" == rule;
    assert [] + ['+'] + "F" == "+F";
    assert Step("+F", rule) == "+" + rule;
    assert Step(rule, rule) == rule + "+" + rule;
  }

  /** Without a rule for "F", each 'F' becomes the text "null". */
  lemma MissingRuleExample()
    ensures Generations("F+F", RuleForF(map[]), 1) == "null+null"
  {
    var rule := "null";
    assert RuleForF(map[]) == rule;
    assert "F"[..0] == [];
    RewritesF([], "+F", rule);
    CopiesOtherSymbols([], '+', "F", rule);
    assert [] + "F" + "+F" == "F+F";
    assert [] + ['+'] + "F" == "+F";
    assert Step("+F", rule) == "+" + rule;
    assert Step("F+F", rule) == rule + "+" + rule;
  }
}
