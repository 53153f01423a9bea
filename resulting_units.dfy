/**
 * unit_handling/sympy_pint_resulting_units.py: `calculate_unit` on the text
 * of a formula, with parentheses dropped before the scan.
 */
module ResultingUnits {
  import opened Outcomes
  import opened PyStrings
  import opened UnitCalculation

  /** `UnitError(message)` */
  datatype UnitError = UnitError(message: string)

  /** The message raised for an addition or subtraction of different
      dimensions. */
  const AddSubMessage := "Dimensions must be the same for addition/subtraction"

  /** The formula after substitution and removal of parentheses. */
  function Prepared(formula: string, xDim: string, yDim: string): (f: string)
    ensures '(' !in f && ')' !in f
  {
    RemoveParens(Substitute(formula, xDim, yDim))
  }

  /** `calculate_unit(formula, x_dim, y_dim)`: the last operand after the fold,
      or the `UnitError` for differing dimensions. */
  function Calculate(formula: string, xDim: string, yDim: string): (r: Result<string, UnitError>)
    ensures r.Err? ==> r.error == UnitError(AddSubMessage)
    ensures r.Err? <==> FoldLeft(Operands(Prepared(formula, xDim, yDim)), Operators(Prepared(formula, xDim, yDim))).Err?
  {
    var f := Prepared(formula, xDim, yDim);
    match FoldLeft(Operands(f), Operators(f))
    case Err(_) => Err(UnitError(AddSubMessage))
    case Ok(u) => Ok(u)
  }

  /** `calculate_unit`: substitute, drop parentheses, scan, evaluate. */
  method CalculateUnit(formula: string, xDim: string, yDim: string) returns (r: Result<string, UnitError>)
    ensures r == Calculate(formula, xDim, yDim)
  {
    var f := RemoveParens(Substitute(formula, xDim, yDim));
    var operators, operands := Tokenize(f);
    var folded := FoldOperands(operators, operands);
    if folded.Err? {
      return Err(UnitError(AddSubMessage));
    }
    return Ok(folded.value);
  }

  /** A formula without operators yields its own text, stripped. */
  lemma SingleOperand(formula: string, xDim: string, yDim: string)
    requires Plain(Prepared(formula, xDim, yDim))
    ensures Calculate(formula, xDim, yDim) == Ok(Strip(Prepared(formula, xDim, yDim)))
  {
    PlainIsOneChunk(Prepared(formula, xDim, yDim));
  }

  /** A formula of products and quotients never raises: its unit is the
      stripped operands interleaved with the operators. */
  lemma ProductsAndQuotients(formula: string, xDim: string, yDim: string)
    requires forall c :: c in Prepared(formula, xDim, yDim) ==> c != '+' && c != '-'
    ensures var f := Prepared(formula, xDim, yDim);
            Calculate(formula, xDim, yDim) == Ok(Join(Operands(f), Operators(f)))
  {
    var f := Prepared(formula, xDim, yDim);
    var ops := Operators(f);
    OperatorsAreOperators(f);
    forall i | 0 <= i < |ops|
      ensures ops[i] == '*' || ops[i] == '/'
    {
      OperatorsOccur(f, i);
    }
    FoldProductIsJoin(Operands(f), ops);
  }

  /** Every operator the scan reports is a character of the text. */
  lemma {:induction false} OperatorsOccur(s: string, i: nat)
    requires i < |Operators(s)|
    ensures Operators(s)[i] in s
    decreases |s|
  {
    var init := s[..|s| - 1];
    if i < |Operators(init)| {
      OperatorsOccur(init, i);
      assert Operators(s)[i] == Operators(init)[i];
    }
  }

  /** Replacing `x` in the module's sample 'y * y / (x + y)' by a
      one-letter unit `a`. */
  lemma SampleSubstitutedX(a: char)
    ensures ReplaceChar("y * y / (x + y)", 'x', [a])
            == "y" + " * " + "y" + " / " + "(" + [a] + " + " + "y" + ")"
  {
    ReplaceCharAt("y * y / (", 'x', " + y)", [a]);
    assert "y * y / (" + ['x'] + " + y)" == "y * y / (x + y)";
    SampleRegrouped(a);
  }

  /** The same text, cut at the places where the later replacements act. */
  lemma SampleRegrouped(a: char)
    ensures "y * y / (" + [a] + " + y)" == "y" + " * " + "y" + " / " + "(" + [a] + " + " + "y" + ")"
  {
  }

  /** Replacing `y` by a one-letter unit `b` once `x` is replaced by `a`. */
  lemma SampleSubstitutedY(a: char, b: char)
    requires UnitLetter(a)
    ensures ReplaceChar("y" + " * " + "y" + " / " + "(" + [a] + " + " + "y" + ")", 'y', [b])
            == [b] + " * " + [b] + " / " + "(" + [a] + " + " + [b] + ")"
  {
    var A, B := [a], [b];
    ReplaceCharSingle('y', B);
    assert ['y'] == "y";
    assert ReplaceChar(A, 'y', B) == A;
    ReplaceCharJoin("y", " * ", 'y', B, B, " * ");
    ReplaceCharJoin("y" + " * ", "y", 'y', B, B + " * ", B);
    ReplaceCharJoin("y" + " * " + "y", " / ", 'y', B, B + " * " + B, " / ");
    ReplaceCharJoin("y" + " * " + "y" + " / ", "(", 'y', B, B + " * " + B + " / ", "(");
    ReplaceCharJoin("y" + " * " + "y" + " / " + "(", A, 'y', B, B + " * " + B + " / " + "(", A);
    ReplaceCharJoin("y" + " * " + "y" + " / " + "(" + A, " + ", 'y', B,
                    B + " * " + B + " / " + "(" + A, " + ");
    ReplaceCharJoin("y" + " * " + "y" + " / " + "(" + A + " + ", "y", 'y', B,
                    B + " * " + B + " / " + "(" + A + " + ", B);
    ReplaceCharJoin("y" + " * " + "y" + " / " + "(" + A + " + " + "y", ")", 'y', B,
                    B + " * " + B + " / " + "(" + A + " + " + B, ")");
  }

  /** The substituted sample, character by character. */
  lemma SampleSubstitutedChars(a: char, b: char)
    ensures [b] + " * " + [b] + " / " + "(" + [a] + " + " + [b] + ")"
            == [b, ' ', '*', ' ', b, ' ', '/', ' ', '(', a, ' ', '+', ' ', b, ')']
  {
  }

  /** The module's sample after substitution of `a` for `x` and `b` for `y`. */
  lemma SampleSubstituted(a: char, b: char)
    requires UnitLetter(a)
    ensures Substitute("y * y / (x + y)", [a], [b])
            == [b, ' ', '*', ' ', b, ' ', '/', ' ', '(', a, ' ', '+', ' ', b, ')']
  {
    SampleSubstitutedX(a);
    SampleSubstitutedY(a, b);
    SampleSubstitutedChars(a, b);
  }

  /** Dropping `(` from the substituted sample. */
  lemma SampleWithoutOpenParen(u: char)
    requires UnitLetter(u)
    ensures ReplaceChar([u, ' ', '*', ' ', u, ' ', '/', ' ', '(', u, ' ', '+', ' ', u, ')'], '(', "")
            == [u, ' ', '*', ' ', u, ' ', '/', ' ', u, ' ', '+', ' ', u, ')']
  {
    var a := [u, ' ', '*', ' ', u, ' ', '/', ' '];
    var b := [u, ' ', '+', ' ', u, ')'];
    ReplaceCharOnce([u, ' ', '*', ' ', u, ' ', '/', ' ', '(', u, ' ', '+', ' ', u, ')'], a, '(', b, "",
                    [u, ' ', '*', ' ', u, ' ', '/', ' ', u, ' ', '+', ' ', u, ')']);
  }

  /** Dropping `)` as well leaves the operands and operators only. */
  lemma SampleWithoutCloseParen(u: char)
    requires UnitLetter(u)
    ensures ReplaceChar([u, ' ', '*', ' ', u, ' ', '/', ' ', u, ' ', '+', ' ', u, ')'], ')', "")
            == [u, ' ', '*', ' ', u, ' ', '/', ' ', u, ' ', '+', ' ', u]
  {
    var p := [u, ' ', '*', ' ', u, ' ', '/', ' ', u, ' ', '+', ' ', u];
    ReplaceCharOnce([u, ' ', '*', ' ', u, ' ', '/', ' ', u, ' ', '+', ' ', u, ')'], p, ')', "", "", p);
  }

  /** The module's sample after substitution and removal of parentheses. */
  lemma SamplePrepared(u: char)
    requires UnitLetter(u)
    ensures Prepared("y * y / (x + y)", [u], [u]) == [u, ' ', '*', ' ', u, ' ', '/', ' ', u, ' ', '+', ' ', u]
  {
    SampleSubstituted(u, u);
    SampleWithoutOpenParen(u);
    SampleWithoutCloseParen(u);
  }

  /** The sample's chunks and operators join back to its prepared text. */
  lemma SampleJoined(u: char)
    ensures Join([[u, ' '], [' ', u, ' '], [' ', u, ' '], [' ', u]], ['*', '/', '+'])
            == [u, ' ', '*', ' ', u, ' ', '/', ' ', u, ' ', '+', ' ', u]
  {
    var cs := [[u, ' '], [' ', u, ' '], [' ', u, ' '], [' ', u]];
    var ops := ['*', '/', '+'];
    assert cs[..3][..2][..1] == [[u, ' ']] && ops[..2][..1][..0] == [];
    assert cs[..3][..2] == cs[..2] && ops[..2][..1] == ops[..1];
    assert Join(cs[..2], ops[..1]) == [u, ' '] + ['*'] + [' ', u, ' '];
    assert Join(cs[..3], ops[..2]) == [u, ' ', '*', ' ', u, ' '] + ['/'] + [' ', u, ' '];
  }

  /** The stripped chunks of the sample are four copies of `u`. */
  lemma SampleStripped(u: char)
    requires UnitLetter(u)
    ensures StripAll([[u, ' '], [' ', u, ' '], [' ', u, ' '], [' ', u]]) == [[u], [u], [u], [u]]
  {
    StripLetter("", u, " ");
    StripLetter(" ", u, " ");
    StripLetter(" ", u, "");
    assert "" + [u] + " " == [u, ' '];
    assert " " + [u] + " " == [' ', u, ' '];
    assert " " + [u] + "" == [' ', u];
  }

  /** The prepared sample splits into four copies of `u` and the operators
      `*`, `/`, `+`. */
  lemma SampleScanned(u: char)
    requires UnitLetter(u)
    ensures var f := [u, ' ', '*', ' ', u, ' ', '/', ' ', u, ' ', '+', ' ', u];
            Operators(f) == ['*', '/', '+'] && Operands(f) == [[u], [u], [u], [u]]
  {
    var cs := [[u, ' '], [' ', u, ' '], [' ', u, ' '], [' ', u]];
    var ops := ['*', '/', '+'];
    SampleJoined(u);
    assert AllPlain(cs) by {
      assert Plain(cs[0]) && Plain(cs[1]) && Plain(cs[2]) && Plain(cs[3]);
    }
    assert AllOperators(ops);
    JoinChunks(cs, ops);
    SampleStripped(u);
  }

  /** Folding the sample's operands: 'u*u', then 'u*u/u', then the sum
      compares 'u*u/u' with 'u'. */
  lemma SampleFolded(u: char)
    ensures FoldLeft([[u], [u], [u], [u]], ['*', '/', '+']) == Err(Mismatch([u, '*', u, '/', u], [u]))
  {
    var operands := [[u], [u], [u], [u]];
    var ops := ['*', '/', '+'];
    assert FoldLeft(operands[..3], ops[..2]) == Ok([u, '*', u, '/', u]) by {
      assert operands[..3][..2][..1] == [[u]] && ops[..2][..1][..0] == [];
      assert operands[..3][..2] == operands[..2] && ops[..2][..1] == ops[..1];
      assert FoldLeft(operands[..2], ops[..1]) == Ok([u] + "*" + [u]);
      assert [u] + "*" + [u] + "/" + [u] == [u, '*', u, '/', u];
    }
    assert operands[..4][..3] == operands[..3] && ops[..3][..2] == ops[..2];
  }

  /** The sample at the end of the module, whose comment expects 'm': in
      'y * y / (x + y)' with both dimensions `u` the sum compares 'u*u/u'
      with 'u', so `UnitError` is raised whatever the letter. */
  lemma SampleRaises(u: char)
    requires UnitLetter(u)
    ensures var f := Prepared("y * y / (x + y)", [u], [u]);
            FoldLeft(Operands(f), Operators(f)) == Err(Mismatch([u, '*', u, '/', u], [u]))
    ensures Calculate("y * y / (x + y)", [u], [u]) == Err(UnitError(AddSubMessage))
  {
    SamplePrepared(u);
    SampleScanned(u);
    SampleFolded(u);
  }

  /** Replacing `x` in 'x**y'. */
  lemma PowerSubstitutedX(a: char)
    ensures ReplaceChar("x**y", 'x', [a]) == [a, '*', '*', 'y']
  {
    ReplaceCharAt("", 'x', "**y", [a]);
    assert "" + ['x'] + "**y" == "x**y";
    assert ReplaceChar("**y", 'x', [a]) == "**y";
    assert "" + [a] + "**y" == [a, '*', '*', 'y'];
  }

  /** Replacing `y` as well. */
  lemma PowerSubstitutedY(a: char, b: char)
    requires UnitLetter(a)
    ensures ReplaceChar([a, '*', '*', 'y'], 'y', [b]) == [a, '*', '*', b]
  {
    ReplaceCharAt([a, '*', '*'], 'y', "", [b]);
    assert [a, '*', '*'] + ['y'] + "" == [a, '*', '*', 'y'];
    assert [a, '*', '*'] + [b] + "" == [a, '*', '*', b];
  }

  /** 'x**y' with one-letter units `a` and `b` prepared for the scan. */
  lemma PowerPrepared(a: char, b: char)
    requires UnitLetter(a) && UnitLetter(b)
    ensures Prepared("x**y", [a], [b]) == [a, '*', '*', b]
  {
    PowerSubstitutedX(a);
    PowerSubstitutedY(a, b);
    assert Substitute("x**y", [a], [b]) == [a, '*', '*', b];
    assert '(' !in [a, '*', '*', b] && ')' !in [a, '*', '*', b];
  }

  /** 'a**b' is the chunks `a`, empty and `b` joined by two `*`. */
  lemma PowerJoined(a: char, b: char)
    ensures Join([[a], "", [b]], ['*', '*']) == [a, '*', '*', b]
  {
    var cs, ops := [[a], "", [b]], ['*', '*'];
    assert cs[..2][..1] == [[a]] && ops[..1][..0] == [];
    assert cs[..2] == [[a], ""] && ops[..1] == ['*'];
    assert Join([[a], ""], ['*']) == [a] + ['*'] + "";
  }

  /** 'a**b' splits at both `*`. */
  lemma PowerChunks(a: char, b: char)
    requires UnitLetter(a) && UnitLetter(b)
    ensures Operators([a, '*', '*', b]) == ['*', '*'] && Chunks([a, '*', '*', b]) == [[a], "", [b]]
  {
    var cs := [[a], "", [b]];
    var ops := ['*', '*'];
    PowerJoined(a, b);
    assert AllPlain(cs) by {
      assert Plain(cs[0]) && Plain(cs[1]) && Plain(cs[2]);
    }
    assert AllOperators(ops);
    JoinChunks(cs, ops);
  }

  /** Stripping leaves the chunks of 'a**b' as they are. */
  lemma PowerStripped(a: char, b: char)
    requires UnitLetter(a) && UnitLetter(b)
    ensures StripAll([[a], "", [b]]) == [[a], "", [b]]
  {
    StripLetter("", a, "");
    StripLetter("", b, "");
    assert "" + [a] + "" == [a] && "" + [b] + "" == [b];
  }

  /** The scan of 'a**b': two `*` operators around an empty operand. */
  lemma PowerScanned(a: char, b: char)
    requires UnitLetter(a) && UnitLetter(b)
    ensures Operators([a, '*', '*', b]) == ['*', '*'] && Operands([a, '*', '*', b]) == [[a], "", [b]]
  {
    PowerChunks(a, b);
    PowerStripped(a, b);
  }

  /** `**` is scanned as two `*` operators with an empty operand between
      them, so the exponent check never fires: 'x**y' gives `a**b` for any
      two one-letter units, the exponent's unit included. */
  lemma PowerIsNotChecked(a: char, b: char)
    requires UnitLetter(a) && UnitLetter(b)
    ensures Calculate("x**y", [a], [b]) == Ok([a, '*', '*', b])
  {
    PowerPrepared(a, b);
    PowerScanned(a, b);
    FoldProductIsJoin([[a], "", [b]], ['*', '*']);
    PowerJoined(a, b);
  }

  /** The two replacements run one after the other: a `y` that `x_dim`
      brings in is itself replaced by `y_dim`, so 'x' with `x_dim = 'y'` has
      the unit of `y`. */
  lemma XDimensionIsRewritten(b: char)
    requires UnitLetter(b)
    ensures Calculate("x", "y", [b]) == Ok([b])
  {
    assert Prepared("x", "y", [b]) == [b] by {
      ReplaceCharAt("", 'x', "", "y");
      assert "" + ['x'] + "" == "x";
      ReplaceCharAt("", 'y', "", [b]);
      assert "" + ['y'] + "" == "" + "y" + "";
      assert "" + [b] + "" == [b];
    }
    assert Operands([b]) == [[b]] && Operators([b]) == [] by {
      assert Plain([b]);
      PlainIsOneChunk([b]);
      StripLetter("", b, "");
      assert "" + [b] + "" == [b];
    }
  }
}
