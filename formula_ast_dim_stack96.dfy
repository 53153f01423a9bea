/**
 * unit_handling/formula_ast_dim-96.py: the same stack-based walk with the
 * table x -> 'm', y -> 'm'. Its `visit_node` only prints the tree.
 */
module FormulaAstDimStack96 {
  import opened Outcomes
  import opened FormulaAst
  import opened DimStackWalk

  /** `DIMENSIONS` */
  const Dimensions: map<string, string> := map["x" := "m", "y" := "m"]

  /** `post_order` on an already parsed formula. */
  method PostOrder(tree: Expr) returns (r: Result<Dim, WalkError>)
    ensures NamesOnly(tree) ==> r == Fold(tree, Dimensions)
    ensures !NamesOnly(tree) ==> r.Err?
  {
    r := WalkPostOrder(tree, Dimensions);
  }

  /** With both dimensions 'm', sums and differences keep 'm' and a quotient
      cancels to the empty string. */
  lemma EqualDimensions()
    ensures Fold(BinOp(Name("x"), Add, Name("y")), Dimensions) == Ok(Some("m"))
    ensures Fold(BinOp(Name("x"), Sub, Name("y")), Dimensions) == Ok(Some("m"))
    ensures Fold(BinOp(Name("x"), Div, Name("y")), Dimensions) == Ok(Some(""))
  {
  }

  /** `x * y / (x + y)`: 'm*m' over 'm' does not cancel; it concatenates. */
  lemma ProductOverSum()
    ensures Fold(BinOp(BinOp(Name("x"), Mult, Name("y")), Div, BinOp(Name("x"), Add, Name("y"))), Dimensions)
            == Ok(Some("m*m/m"))
  {
    assert "m" + "*" + "m" == "m*m";
    assert "m*m" + "/" + "m" == "m*m/m";
  }
}
