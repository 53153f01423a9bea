/**
 * unit_handling/formula_ast_dim_97.py: a recursive post-order walk whose
 * division rule only accepts a left dimension that is the right one doubled.
 */
module FormulaAstDimRec97 {
  import opened Outcomes
  import opened PyStrings
  import opened FormulaAst

  /** `DIMENSIONS` */
  const Dimensions: map<string, string> := map["x" := "m", "y" := "m"]

  /** A string, or `None` for a name missing from the table. */
  type Dim = Option<string>

  /** `TypeError`: `None` concatenated with a string.
      `UnboundLocalError`: `return r_dim` after an operator no branch set it
      for. */
  datatype DimError = TypeError | UnboundLocalError

  /** The dimension of a `BinOp` from the dimensions of its operands. */
  function Combine(op: Operator, left: Dim, right: Dim): Result<Dim, DimError>
  {
    match op
    case Mult =>
      if left.Some? && right.Some? then Ok(Some(left.value + right.value)) else Err(TypeError)
    case Add => Ok(if left == right then left else Some("Error"))
    case Sub => Ok(if left == right then left else Some("Error"))
    case Div =>
      if right.None? then Err(TypeError)
      else if left == Some(right.value + right.value) then Ok(Some(RemoveAll(left.value, right.value)))
      else Ok(Some("Error"))
    case _ => Err(UnboundLocalError)
  }

  /** `post_order(node)`: a name's table entry (or `None`), a `BinOp`'s
      combined dimension, and the empty string for any other node. */
  function PostOrder(e: Expr, dims: map<string, string>): Result<Dim, DimError>
  {
    match e
    case Name(id) => Ok(Get(dims, id))
    case BinOp(l, op, r) =>
      (match PostOrder(l, dims)
       case Err(err) => Err(err)
       case Ok(ld) =>
         (match PostOrder(r, dims)
          case Err(err) => Err(err)
          case Ok(rd) => Combine(op, ld, rd)))
    case Other => Ok(Some(""))
  }

  /** A division either cancels completely (the left dimension was the right
      one doubled) or gives the error marker; nothing else. */
  lemma DivisionIsEmptyOrError(left: Dim, right: Dim)
    requires Combine(Div, left, right).Ok?
    ensures Combine(Div, left, right).value == Some("")
            || Combine(Div, left, right).value == Some("Error")
    ensures Combine(Div, left, right).value == Some("") <==>
            right.Some? && left == Some(right.value + right.value)
  {
    if right.Some? && left == Some(right.value + right.value) {
      RemoveAllDoubled(right.value);
    }
  }

  /** Only `+`, `-`, `*` and `/` are handled: any other operator raises. */
  lemma UnsupportedOperatorRaises(l: Expr, op: Operator, r: Expr, dims: map<string, string>)
    requires op != Add && op != Sub && op != Mult && op != Div
    requires PostOrder(l, dims).Ok? && PostOrder(r, dims).Ok?
    ensures PostOrder(BinOp(l, op, r), dims) == Err(UnboundLocalError)
  {
  }

  /** With only handled operators and known names the walk never raises and
      its result is a string. */
  lemma {:induction false} KnownNamesGiveString(e: Expr, dims: map<string, string>)
    requires KnownNames(e, dims) && HandledOperators(e)
    ensures PostOrder(e, dims).Ok? && PostOrder(e, dims).value.Some?
  {
    match e
    case Name(_) =>
    case Other =>
    case BinOp(l, _, r) =>
      KnownNamesGiveString(l, dims);
      KnownNamesGiveString(r, dims);
  }

  /** Every operator in the tree is one the walk handles. */
  predicate HandledOperators(e: Expr) {
    match e
    case BinOp(l, op, r) =>
      (op == Add || op == Sub || op == Mult || op == Div) && HandledOperators(l) && HandledOperators(r)
    case _ => true
  }

  /** The module's own example `x * y / (x + y)` cancels to the empty
      string, while `x / x` is not a doubled dimension and gives 'Error'. */
  lemma Examples()
    ensures PostOrder(BinOp(BinOp(Name("x"), Mult, Name("y")), Div, BinOp(Name("x"), Add, Name("y"))), Dimensions)
            == Ok(Some(""))
    ensures PostOrder(BinOp(Name("x"), Div, Name("x")), Dimensions) == Ok(Some("Error"))
  {
    assert "m" + "m" == "mm";
    RemoveAllDoubled("m");
  }
}
