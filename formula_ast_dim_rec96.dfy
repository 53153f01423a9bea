/**
 * unit_handling/formula_ast_dim_96.py: a recursive post-order walk whose
 * division rule cancels a right dimension that the left one starts with.
 */
module FormulaAstDimRec96 {
  import opened Outcomes
  import opened PyStrings
  import opened FormulaAst

  /** `DIMENSIONS` */
  const Dimensions: map<string, string> := map["x" := "m", "y" := "m"]

  /** A string, or `None` for a name missing from the table. */
  type Dim = Option<string>

  /** `TypeError`: `None` concatenated with a string, or `startswith(None)`.
      `AttributeError`: `None.startswith(...)`. */
  datatype DimError = TypeError | AttributeError

  /** The dimension of a `BinOp` from the dimensions of its operands. */
  function Combine(op: Operator, left: Dim, right: Dim): Result<Dim, DimError>
  {
    match op
    case Mult =>
      if left.Some? && right.Some? then Ok(Some(left.value + right.value)) else Err(TypeError)
    case Add => Ok(if left == right then left else Some("Error"))
    case Sub => Ok(if left == right then left else Some("Error"))
    case Div =>
      if left == right then Ok(Some(""))
      else if left.None? then Err(AttributeError)
      else if right.None? then Err(TypeError)
      else if StartsWith(left.value, right.value) then Ok(Some(RemoveFirst(left.value, right.value)))
      else Ok(Some("Error"))
    case _ => Ok(Some("Error"))
  }

  /** `post_order(node)`: a name's table entry (or `None`), a `BinOp`'s
      combined dimension, and the empty string for any other node. */
  function PostOrder(e: Expr, dims: map<string, string>): Result<Dim, DimError>
  {
    match e
    case Name(id) => Ok(Get(dims, id))
    case BinOp(l, op, r) =>
      (match PostOrder(l, dims)
       case Err(err) => Err(err)
       case Ok(ld) =>
         (match PostOrder(r, dims)
          case Err(err) => Err(err)
          case Ok(rd) => Combine(op, ld, rd)))
    case Other => Ok(Some(""))
  }

  /** A name without a table entry gives `None` and raises nothing. */
  lemma UnknownNameIsNone(id: string, dims: map<string, string>)
    requires id !in dims
    ensures PostOrder(Name(id), dims) == Ok(None)
  {
  }

  /** When the names all have entries the walk never raises and its result
      is a string. */
  lemma {:induction false} KnownNamesGiveString(e: Expr, dims: map<string, string>)
    requires KnownNames(e, dims)
    ensures PostOrder(e, dims).Ok? && PostOrder(e, dims).value.Some?
  {
    match e
    case Name(_) =>
    case Other =>
    case BinOp(l, _, r) =>
      KnownNamesGiveString(l, dims);
      KnownNamesGiveString(r, dims);
  }

  /** Division: equal dimensions cancel to the empty string; a right
      dimension that the left one starts with is cut off the front; any other
      pair gives the error marker. */
  lemma DivisionRule(a: string, b: string)
    ensures a == b ==> Combine(Div, Some(a), Some(b)) == Ok(Some(""))
    ensures a != b && StartsWith(a, b) ==> Combine(Div, Some(a), Some(b)) == Ok(Some(a[|b|..]))
    ensures a != b && !StartsWith(a, b) ==> Combine(Div, Some(a), Some(b)) == Ok(Some("Error"))
  {
    if a != b && StartsWith(a, b) {
      RemoveFirstPrefix(a, b);
    }
  }

  /** Dividing or multiplying a string dimension by the empty one leaves it
      as it was. */
  lemma EmptyDimensionIsNeutral(op: Operator, a: string)
    requires op == Div || op == Mult
    ensures Combine(op, Some(a), Some("")) == Ok(Some(a))
  {
    if op == Mult {
      assert a + "" == a;
    } else if a != "" {
      assert StartsWith(a, "");
      RemoveFirstPrefix(a, "");
      assert a[0..] == a;
    }
  }

  /** A constant (any non-name leaf) has the empty dimension, so dividing or
      multiplying by it leaves the other operand's dimension as it was. */
  lemma ConstantOperandIsNeutral(l: Expr, op: Operator, dims: map<string, string>)
    requires op == Div || op == Mult
    requires PostOrder(l, dims).Ok? && PostOrder(l, dims).value.Some?
    ensures PostOrder(BinOp(l, op, Other), dims) == PostOrder(l, dims)
  {
    EmptyDimensionIsNeutral(op, PostOrder(l, dims).value.value);
  }

  /** The expectations of tests/test_formula_ast_dim_96.py. */
  lemma TestPostOrder()
    ensures PostOrder(BinOp(BinOp(Name("x"), Mult, Name("y")), Div, BinOp(Name("x"), Add, Name("y"))), Dimensions)
            == Ok(Some("m"))
    ensures PostOrder(BinOp(Name("x"), Div, BinOp(Name("x"), Sub, Name("y"))), Dimensions) == Ok(Some(""))
    ensures PostOrder(BinOp(Name("x"), Sub, Name("y")), Dimensions) == Ok(Some("m"))
    ensures PostOrder(BinOp(Name("x"), Mult, Name("y")), Dimensions) == Ok(Some("mm"))
  {
    assert "m" + "m" == "mm";
    assert StartsWith("mm", "m");
    RemoveFirstPrefix("mm", "m");
    assert "mm"[1..] == "m";
  }
}
