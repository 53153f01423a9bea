/**
 * unit_handling/sympy_pint_resulting_units-89.py: the earlier
 * `calculate_unit`, which keeps parentheses in the operands and signals a
 * mismatch with a failed `assert`. A passing `+` or `-` leaves
 * `operands[i + 1]` as it is instead of copying `operands[i]` into it; the
 * two are equal then, so the shared fold `FoldLeft` describes this loop too.
 */
module ResultingUnits89 {
  import opened Outcomes
  import opened PyStrings
  import opened UnitCalculation
  import ResultingUnits

  /** The `AssertionError` a failed `assert` raises, with its message. */
  datatype AssertionError = AssertionError(message: string)

  /** The message of the assertion on `+` and `-`. */
  const AddSubMessage := "Dimensions must be the same for addition/subtraction"

  /** `calculate_unit(formula, x_dim, y_dim)`: the same scan and fold as the
      later version, on the substituted text with its parentheses. */
  function Calculate(formula: string, xDim: string, yDim: string): (r: Result<string, AssertionError>)
    ensures r.Err? ==> r.error == AssertionError(AddSubMessage)
    ensures var f := Substitute(formula, xDim, yDim);
            r.Err? <==> FoldLeft(Operands(f), Operators(f)).Err?
  {
    var f := Substitute(formula, xDim, yDim);
    match FoldLeft(Operands(f), Operators(f))
    case Err(_) => Err(AssertionError(AddSubMessage))
    case Ok(u) => Ok(u)
  }

  /** `calculate_unit`: substitute, scan, evaluate. */
  method CalculateUnit(formula: string, xDim: string, yDim: string) returns (r: Result<string, AssertionError>)
    ensures r == Calculate(formula, xDim, yDim)
  {
    var f := Substitute(formula, xDim, yDim);
    var operators, operands := Tokenize(f);
    var folded := FoldOperands(operators, operands);
    if folded.Err? {
      return Err(AssertionError(AddSubMessage));
    }
    return Ok(folded.value);
  }

  /** Without parentheses after substitution the two versions agree: the
      same unit, or an error in both (an `AssertionError` here, a
      `UnitError` there). */
  lemma AgreesWithoutParens(formula: string, xDim: string, yDim: string)
    requires var f := Substitute(formula, xDim, yDim); '(' !in f && ')' !in f
    ensures Calculate(formula, xDim, yDim).Err? <==> ResultingUnits.Calculate(formula, xDim, yDim).Err?
    ensures Calculate(formula, xDim, yDim).Ok? ==>
              Calculate(formula, xDim, yDim).value == ResultingUnits.Calculate(formula, xDim, yDim).value
  {
    assert ResultingUnits.Prepared(formula, xDim, yDim) == Substitute(formula, xDim, yDim);
  }

  /** Only the text is compared: a sum of two operands fails exactly when
      they are written differently, 'meter' and 'm' included. */
  lemma SumComparesText(p: string, q: string)
    ensures FoldLeft([p, q], ['+']).Err? <==> p != q
    ensures p != q ==> FoldLeft([p, q], ['+']) == Err(Mismatch(p, q))
    ensures p == q ==> FoldLeft([p, q], ['+']) == Ok(p)
  {
    assert [p, q][..1] == [p] && ['+'][..0] == [];
  }

  /** The sample at the end of the module, with one-letter units `a` and
      `b`, splits into `b`, `b`, '(a' and 'b)'. */
  lemma SampleChunks(a: char, b: char)
    requires UnitLetter(a) && UnitLetter(b)
    ensures var f := [b, ' ', '*', ' ', b, ' ', '/', ' ', '(', a, ' ', '+', ' ', b, ')'];
            Operators(f) == ['*', '/', '+'] &&
            Chunks(f) == [[b, ' '], [' ', b, ' '], [' ', '(', a, ' '], [' ', b, ')']]
  {
    var cs := [[b, ' '], [' ', b, ' '], [' ', '(', a, ' '], [' ', b, ')']];
    var ops := ['*', '/', '+'];
    assert Join(cs, ops) == [b, ' ', '*', ' ', b, ' ', '/', ' ', '(', a, ' ', '+', ' ', b, ')'] by {
      assert cs[..3][..2][..1] == [[b, ' ']] && ops[..2][..1][..0] == [];
      assert cs[..3][..2] == cs[..2] && ops[..2][..1] == ops[..1];
      assert Join(cs[..2], ops[..1]) == [b, ' '] + ['*'] + [' ', b, ' '];
      assert Join(cs[..3], ops[..2]) == [b, ' ', '*', ' ', b, ' '] + ['/'] + [' ', '(', a, ' '];
    }
    assert AllPlain(cs) by {
      assert Plain(cs[0]) && Plain(cs[1]) && Plain(cs[2]) && Plain(cs[3]);
    }
    assert AllOperators(ops);
    JoinChunks(cs, ops);
  }

  /** Stripping keeps the parentheses. */
  lemma SampleStripped(a: char, b: char)
    requires UnitLetter(a) && UnitLetter(b)
    ensures StripAll([[b, ' '], [' ', b, ' '], [' ', '(', a, ' '], [' ', b, ')']])
            == [[b], [b], ['(', a], [b, ')']]
  {
    StripLetter("", b, " ");
    StripLetter(" ", b, " ");
    assert "" + [b] + " " == [b, ' '];
    assert " " + [b] + " " == [' ', b, ' '];
    StripAround(" ", ['(', a], " ");
    assert " " + ['(', a] + " " == [' ', '(', a, ' '];
    StripAround(" ", [b, ')'], "");
    assert " " + [b, ')'] + "" == [' ', b, ')'];
  }

  /** The sum compares 'b*b/(a' with 'b)'. */
  lemma SampleFolded(a: char, b: char)
    ensures FoldLeft([[b], [b], ['(', a], [b, ')']], ['*', '/', '+'])
            == Err(Mismatch([b, '*', b, '/', '(', a], [b, ')']))
  {
    var operands := [[b], [b], ['(', a], [b, ')']];
    var ops := ['*', '/', '+'];
    assert FoldLeft(operands[..3], ops[..2]) == Ok([b, '*', b, '/', '(', a]) by {
      assert operands[..3][..2][..1] == [[b]] && ops[..2][..1][..0] == [];
      assert operands[..3][..2] == operands[..2] && ops[..2][..1] == ops[..1];
      assert FoldLeft(operands[..2], ops[..1]) == Ok([b] + "*" + [b]);
      assert [b] + "*" + [b] + "/" + ['(', a] == [b, '*', b, '/', '(', a];
    }
    assert operands[..4][..3] == operands[..3] && ops[..3][..2] == ops[..2];
  }

  /** The module's sample 'y * y / (x + y)' fails its assertion whatever
      the two one-letter units: the parentheses stay in the operands, so
      'b*b/(a' is compared with 'b)'. */
  lemma SampleRaises(a: char, b: char)
    requires UnitLetter(a) && UnitLetter(b)
    ensures var f := Substitute("y * y / (x + y)", [a], [b]);
            FoldLeft(Operands(f), Operators(f)) == Err(Mismatch([b, '*', b, '/', '(', a], [b, ')']))
    ensures Calculate("y * y / (x + y)", [a], [b]) == Err(AssertionError(AddSubMessage))
  {
    ResultingUnits.SampleSubstituted(a, b);
    SampleChunks(a, b);
    SampleStripped(a, b);
    SampleFolded(a, b);
  }
}
