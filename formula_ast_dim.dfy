/**
 * unit_handling/formula_ast_dim.py: the stack-based post-order walk with the
 * table x -> 'm', y -> 's'.
 */
module FormulaAstDim {
  import opened Outcomes
  import opened FormulaAst
  import opened DimStackWalk

  /** `DIMENSIONS` */
  const Dimensions: map<string, string> := map["x" := "m", "y" := "s"]

  /** `post_order` on an already parsed formula. */
  method PostOrder(tree: Expr) returns (r: Result<Dim, WalkError>)
    ensures NamesOnly(tree) ==> r == Fold(tree, Dimensions)
    ensures !NamesOnly(tree) ==> r.Err?
  {
    r := WalkPostOrder(tree, Dimensions);
  }

  /** The expectations of the test module that the code meets. */
  lemma TestPostOrder()
    ensures Fold(BinOp(Name("x"), Add, Name("y")), Dimensions) == Ok(Some("Dimension Mismatch"))
    ensures Fold(BinOp(Name("x"), Sub, Name("y")), Dimensions) == Ok(Some("Dimension Mismatch"))
    ensures Fold(BinOp(Name("x"), Mult, Name("y")), Dimensions) == Ok(Some("m*s"))
    ensures Fold(BinOp(Name("x"), Div, Name("y")), Dimensions) == Ok(Some("m/s"))
    ensures Fold(BinOp(BinOp(Name("x"), Add, Name("y")), Add, Name("y")), Dimensions)
            == Ok(Some("Dimension Mismatch"))
  {
    assert "m" + "*" + "s" == "m*s";
    assert "m" + "/" + "s" == "m/s";
  }

  /** `x**2`: the constant pushes nothing, so the second pop of the `Pow`
      node finds `out` empty. */
  lemma PowerOfConstantUnderflows()
    ensures Run(BinOp(Name("x"), Pow, Other), Dimensions) == Err(IndexError)
  {
    var code := Code(BinOp(Name("x"), Pow, Other));
    assert code == [PushName("x"), ApplyBin(Pow)];
    assert code[1..] == [ApplyBin(Pow)];
    assert [ApplyBin(Pow)][1..] == [];
  }

  /** `(x + y) / y`: the mismatch marker is a string like any other, and it
      differs from 's', so the division concatenates. */
  lemma MismatchOverY()
    ensures Fold(BinOp(BinOp(Name("x"), Add, Name("y")), Div, Name("y")), Dimensions)
            == Ok(Some("Dimension Mismatch/s"))
  {
    assert "Dimension Mismatch" + "/" + "s" == "Dimension Mismatch/s";
  }
}
