/**
 * unit_handling/sympy_pint_resulting_units-88.py: the same `calculate_unit`
 * as unit_handling/sympy_pint_resulting_units.py (`ResultingUnits`), with a
 * note on why a product followed by a sum raises `UnitError`.
 */
module ResultingUnits88 {
  import opened Outcomes
  import opened UnitCalculation

  /** After a multiplication the left operand of a following `+` is the
      whole product 'p*q', and that text is what is compared with the next
      operand: the sum fails exactly when it differs. */
  lemma ProductThenSum(p: string, q: string, r: string)
    ensures FoldLeft([p, q, r], ['*', '+']).Err? <==> p + "*" + q != r
    ensures p + "*" + q != r ==> FoldLeft([p, q, r], ['*', '+']) == Err(Mismatch(p + "*" + q, r))
    ensures p + "*" + q == r ==> FoldLeft([p, q, r], ['*', '+']) == Ok(r)
  {
    var operands, ops := [p, q, r], ['*', '+'];
    assert operands[..2] == [p, q] && ops[..1] == ['*'];
    assert [p, q][..1] == [p] && ['*'][..0] == [];
    assert FoldLeft([p, q], ['*']) == Ok(p + "*" + q);
  }

  /** In particular 'm*m' is never equal to 'm': `m * m + m` always raises,
      whatever the text `m`. */
  lemma SquareThenSumRaises(m: string)
    ensures FoldLeft([m, m, m], ['*', '+']) == Err(Mismatch(m + "*" + m, m))
  {
    ProductThenSum(m, m, m);
    assert |m + "*" + m| != |m|;
  }
}
