/**
 * The expression trees the dimension walkers take as input: the part of a
 * Python `ast` tree they look at. Parsing text into such a tree is done by
 * CPython's `ast.parse` and is not modelled; callers hand the tree in.
 */
module FormulaAst {
  import opened Outcomes

  /** The binary operator classes of Python's `ast` module. */
  datatype Operator =
    | Add | Sub | Mult | MatMult | Div | Mod | Pow
    | LShift | RShift | BitOr | BitXor | BitAnd | FloorDiv

  /** `Name` is `ast.Name`, `BinOp` is `ast.BinOp`; `Other` is any other
      node (a constant, a unary operation, a call...). The walkers never look
      inside an `Other`, so its children are not represented. */
  datatype Expr =
    | Name(id: string)
    | BinOp(left: Expr, op: Operator, right: Expr)
    | Other

  /** The value a leaf name gets: `table.get(key, None)`. */
  function Get(table: map<string, string>, key: string): Option<string>
  {
    if key in table then Some(table[key]) else None
  }

  /** How many `Other` leaves the tree has. */
  function OtherLeaves(e: Expr): nat
  {
    match e
    case Name(_) => 0
    case BinOp(l, _, r) => OtherLeaves(l) + OtherLeaves(r)
    case Other => 1
  }

  /** Every leaf of the tree is a name. */
  predicate NamesOnly(e: Expr) {
    OtherLeaves(e) == 0
  }

  /** Every name in the tree has an entry in `table`. */
  predicate KnownNames(e: Expr, table: map<string, string>) {
    match e
    case Name(id) => id in table
    case BinOp(l, _, r) => KnownNames(l, table) && KnownNames(r, table)
    case Other => true
  }
}
