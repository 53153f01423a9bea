/**
 * The stack-based post-order dimension walk shared by
 * unit_handling/formula_ast_dim.py and unit_handling/formula_ast_dim-96.py.
 * The two files differ only in their DIMENSIONS table, which is a parameter
 * here.
 *
 * The walk is specified twice: by the stack machine it runs (`Code`, `Exec`,
 * `Run`) and by a recursive post-order fold (`Fold`). `RunAgreesWithFold`
 * connects the two.
 */
module DimStackWalk {
  import opened Outcomes
  import opened FormulaAst

  /** A dimension as the walk handles it: a string, or `None` for a name
      missing from the table. */
  type Dim = Option<string>

  /** `TypeError`: a `None` dimension concatenated with a string.
      `IndexError`: `pop()` or `[0]` on an empty `out` list. */
  datatype WalkError = TypeError | IndexError

  /** The rule applied when a `BinOp` is visited the second time. */
  function ApplyOp(op: Operator, left: Dim, right: Dim): Result<Dim, WalkError>
  {
    match op
    case Mult =>
      if left.Some? && right.Some? then Ok(Some(left.value + "*" + right.value))
      else Err(TypeError)
    case Add => Ok(if left == right then left else Some("Dimension Mismatch"))
    case Sub => Ok(if left == right then left else Some("Dimension Mismatch"))
    case Div =>
      if left == right then Ok(Some(""))
      else if left.Some? && right.Some? then Ok(Some(left.value + "/" + right.value))
      else Err(TypeError)
    case _ => Ok(Some("Unhandled Operator"))
  }

  /** The reference definition: a recursive post-order fold (left subtree,
      then right subtree, then the operator rule), for trees of names. */
  function Fold(e: Expr, dims: map<string, string>): Result<Dim, WalkError>
    requires NamesOnly(e)
  {
    match e
    case Name(id) => Ok(Get(dims, id))
    case BinOp(l, op, r) =>
      match Fold(l, dims)
      case Err(err) => Err(err)
      case Ok(ld) =>
        match Fold(r, dims)
        case Err(err) => Err(err)
        case Ok(rd) => ApplyOp(op, ld, rd)
  }

  /** One step of the stack machine the loop runs on its `out` list. */
  datatype Instr = PushName(id: string) | ApplyBin(op: Operator)

  /** The steps the walk takes on a subtree, in post order. An `Other` node
      is skipped and contributes no step. */
  function Code(e: Expr): seq<Instr>
  {
    match e
    case Name(id) => [PushName(id)]
    case BinOp(l, op, r) => Code(l) + Code(r) + [ApplyBin(op)]
    case Other => []
  }

  /** Runs steps on the `out` list: a name pushes its dimension; an operator
      pops the right then the left dimension and pushes the combined one. */
  function Exec(code: seq<Instr>, out: seq<Dim>, dims: map<string, string>): Result<seq<Dim>, WalkError>
    decreases |code|
  {
    if code == [] then Ok(out)
    else
      match code[0]
      case PushName(id) => Exec(code[1..], out + [Get(dims, id)], dims)
      case ApplyBin(op) =>
        if |out| < 2 then Err(IndexError)
        else
          match ApplyOp(op, out[|out| - 2], out[|out| - 1])
          case Err(err) => Err(err)
          case Ok(v) => Exec(code[1..], out[..|out| - 2] + [v], dims)
  }

  /** `return out[0]` after the loop. */
  function Finish(r: Result<seq<Dim>, WalkError>): Result<Dim, WalkError>
  {
    match r
    case Err(err) => Err(err)
    case Ok(out) => if out == [] then Err(IndexError) else Ok(out[0])
  }

  /** What the walk returns for `tree`, by the stack machine. */
  function Run(tree: Expr, dims: map<string, string>): Result<Dim, WalkError>
  {
    Finish(Exec(Code(tree), [], dims))
  }

  function Then(r: Result<seq<Dim>, WalkError>, code: seq<Instr>, dims: map<string, string>): Result<seq<Dim>, WalkError>
  {
    match r
    case Err(err) => Err(err)
    case Ok(out) => Exec(code, out, dims)
  }

  /** Running `a + b` is running `a`, then `b` on what `a` left. */
  lemma {:induction false} ExecAppend(a: seq<Instr>, b: seq<Instr>, out: seq<Dim>, dims: map<string, string>)
    ensures Exec(a + b, out, dims) == Then(Exec(a, out, dims), b, dims)
    decreases |a|
  {
    if a == [] {
      assert a + b == b;
    } else {
      assert (a + b)[0] == a[0];
      assert (a + b)[1..] == a[1..] + b;
      match a[0]
      case PushName(id) =>
        ExecAppend(a[1..], b, out + [Get(dims, id)], dims);
      case ApplyBin(op) =>
        if |out| >= 2 {
          match ApplyOp(op, out[|out| - 2], out[|out| - 1])
          case Err(_) =>
          case Ok(v) => ExecAppend(a[1..], b, out[..|out| - 2] + [v], dims);
        }
    }
  }

  /** On a tree of names the steps push exactly the folded dimension on top
      of whatever `out` held, or raise the fold's error. */
  lemma {:induction false} ExecCodeOfNames(e: Expr, out: seq<Dim>, dims: map<string, string>)
    requires NamesOnly(e)
    ensures Exec(Code(e), out, dims) ==
            match Fold(e, dims) case Err(err) => Err(err) case Ok(v) => Ok(out + [v])
  {
    match e
    case Name(id) =>
      assert Code(e)[1..] == [];
    case BinOp(l, op, r) =>
      ExecAppend(Code(l) + Code(r), [ApplyBin(op)], out, dims);
      ExecAppend(Code(l), Code(r), out, dims);
      ExecCodeOfNames(l, out, dims);
      match Fold(l, dims)
      case Err(_) =>
      case Ok(lv) =>
        ExecCodeOfNames(r, out + [lv], dims);
        match Fold(r, dims)
        case Err(_) =>
        case Ok(rv) =>
          var o := out + [lv] + [rv];
          assert o[|o| - 2] == lv && o[|o| - 1] == rv && o[..|o| - 2] == out;
          assert Exec(Code(e), out, dims) == Exec([ApplyBin(op)], o, dims);
          match ApplyOp(op, lv, rv)
          case Err(_) =>
          case Ok(v) =>
            assert [ApplyBin(op)][1..] == [];
            assert Exec([ApplyBin(op)], o, dims) == Exec([], out + [v], dims);
  }

  /** Stack accounting: each name pushes one entry, each completed operator
      nets minus one, an `Other` leaf pushes nothing. */
  lemma {:induction false} ExecCodeCount(e: Expr, out: seq<Dim>, dims: map<string, string>)
    ensures Exec(Code(e), out, dims).Ok? ==>
            |Exec(Code(e), out, dims).value| + OtherLeaves(e) == |out| + 1
  {
    match e
    case Name(id) =>
      assert Code(e)[1..] == [];
    case Other =>
    case BinOp(l, op, r) =>
      ExecAppend(Code(l) + Code(r), [ApplyBin(op)], out, dims);
      ExecAppend(Code(l), Code(r), out, dims);
      ExecCodeCount(l, out, dims);
      var rl := Exec(Code(l), out, dims);
      if rl.Ok? {
        ExecCodeCount(r, rl.value, dims);
        var rr := Exec(Code(r), rl.value, dims);
        if rr.Ok? && |rr.value| >= 2 {
          var o := rr.value;
          assert Exec(Code(e), out, dims) == Exec([ApplyBin(op)], o, dims);
          match ApplyOp(op, o[|o| - 2], o[|o| - 1])
          case Err(_) =>
          case Ok(v) =>
            assert [ApplyBin(op)][1..] == [];
            assert Exec([ApplyBin(op)], o, dims) == Exec([], o[..|o| - 2] + [v], dims);
        }
      }
  }

  /** The central property: on a tree of names the stack walk returns exactly
      what the recursive fold returns; a tree with any other leaf makes it
      raise (a pop on an empty list, or `out[0]` of an empty list). */
  lemma RunAgreesWithFold(tree: Expr, dims: map<string, string>)
    ensures NamesOnly(tree) ==> Run(tree, dims) == Fold(tree, dims)
    ensures !NamesOnly(tree) ==> Run(tree, dims).Err?
  {
    if NamesOnly(tree) {
      ExecCodeOfNames(tree, [], dims);
    } else {
      ExecCodeCount(tree, [], dims);
    }
  }

  /** On a tree of names the `out` list ends with exactly one entry. */
  lemma OneEntryLeft(tree: Expr, dims: map<string, string>)
    requires NamesOnly(tree)
    ensures Exec(Code(tree), [], dims).Ok? ==> |Exec(Code(tree), [], dims).value| == 1
  {
    ExecCodeCount(tree, [], dims);
  }

  /** A tree whose names all have an entry never raises, and its dimension is
      a string. */
  lemma {:induction false} KnownNamesGiveString(e: Expr, dims: map<string, string>)
    requires NamesOnly(e) && KnownNames(e, dims)
    ensures Fold(e, dims).Ok? && Fold(e, dims).value.Some?
  {
    match e
    case Name(_) =>
    case BinOp(l, _, r) =>
      KnownNamesGiveString(l, dims);
      KnownNamesGiveString(r, dims);
  }

  /** Division yields the empty (dimensionless) string exactly when both
      operands have the same dimension. */
  lemma DivDimensionless(l: Expr, r: Expr, dims: map<string, string>)
    requires NamesOnly(l) && NamesOnly(r) && Fold(l, dims).Ok? && Fold(r, dims).Ok?
    ensures Fold(BinOp(l, Div, r), dims) == Ok(Some("")) <==> Fold(l, dims) == Fold(r, dims)
  {
  }

  /** Addition and subtraction give the left dimension or the mismatch marker. */
  lemma AddSubResult(l: Expr, op: Operator, r: Expr, dims: map<string, string>)
    requires op == Add || op == Sub
    requires NamesOnly(l) && NamesOnly(r) && Fold(l, dims).Ok? && Fold(r, dims).Ok?
    ensures Fold(BinOp(l, op, r), dims).Ok?
    ensures Fold(BinOp(l, op, r), dims).value == Fold(l, dims).value
            || Fold(BinOp(l, op, r), dims).value == Some("Dimension Mismatch")
  {
  }

  /** Any operator other than `+`, `-`, `*` and `/` gives the marker
      string, whatever the operands' dimensions. */
  lemma UnhandledOperator(l: Expr, op: Operator, r: Expr, dims: map<string, string>)
    requires op != Add && op != Sub && op != Mult && op != Div
    requires NamesOnly(l) && NamesOnly(r) && Fold(l, dims).Ok? && Fold(r, dims).Ok?
    ensures Fold(BinOp(l, op, r), dims) == Ok(Some("Unhandled Operator"))
  {
  }

  // Ordering of stack entries for the loop's termination measure.
  function Size(e: Expr): nat
  {
    match e
    case BinOp(l, _, r) => 1 + Size(l) + Size(r)
    case _ => 1
  }

  function EntryWeight(entry: (bool, Expr)): nat
  {
    if entry.0 then 1 else 2 * Size(entry.1)
  }

  function StackWeight(stack: seq<(bool, Expr)>): nat
  {
    if stack == [] then 0
    else StackWeight(stack[..|stack| - 1]) + EntryWeight(stack[|stack| - 1])
  }

  /** The steps a stack entry still stands for. */
  function EntryCode(entry: (bool, Expr)): seq<Instr>
  {
    match entry.1
    case Name(id) => [PushName(id)]
    case BinOp(_, op, _) => if entry.0 then [ApplyBin(op)] else Code(entry.1)
    case Other => []
  }

  /** The steps the whole stack stands for; the top (last) entry runs first. */
  function Pending(stack: seq<(bool, Expr)>): seq<Instr>
  {
    if stack == [] then []
    else EntryCode(stack[|stack| - 1]) + Pending(stack[..|stack| - 1])
  }

  lemma PushThree(rest: seq<(bool, Expr)>, a: (bool, Expr), b: (bool, Expr), c: (bool, Expr))
    ensures StackWeight(rest + [a, b, c]) == StackWeight(rest) + EntryWeight(a) + EntryWeight(b) + EntryWeight(c)
    ensures Pending(rest + [a, b, c]) == EntryCode(c) + EntryCode(b) + EntryCode(a) + Pending(rest)
  {
    var s3 := rest + [a, b, c];
    var s2 := rest + [a, b];
    var s1 := rest + [a];
    assert s3[..|s3| - 1] == s2 && s3[|s3| - 1] == c;
    assert s2[..|s2| - 1] == s1 && s2[|s2| - 1] == b;
    assert s1[..|s1| - 1] == rest && s1[|s1| - 1] == a;
    assert StackWeight(s1) == StackWeight(rest) + EntryWeight(a);
    assert StackWeight(s2) == StackWeight(s1) + EntryWeight(b);
    assert StackWeight(s3) == StackWeight(s2) + EntryWeight(c);
    assert Pending(s1) == EntryCode(a) + Pending(rest);
    assert Pending(s2) == EntryCode(b) + Pending(s1);
    assert Pending(s3) == EntryCode(c) + Pending(s2);
  }

  /** `post_order`: the explicit two-stack walk. `stack` holds
      (visited, node) pairs and grows at its end; `out` holds dimensions. */
  method WalkPostOrder(tree: Expr, dims: map<string, string>) returns (r: Result<Dim, WalkError>)
    ensures r == Run(tree, dims)
    ensures NamesOnly(tree) ==> r == Fold(tree, dims)
    ensures !NamesOnly(tree) ==> r.Err?
  {
    RunAgreesWithFold(tree, dims);
    var stack: seq<(bool, Expr)> := [(false, tree)];
    var out: seq<Dim> := [];
    assert stack[..|stack| - 1] == [] && stack[|stack| - 1] == (false, tree);
    assert EntryCode((false, tree)) == Code(tree) by {
      match tree
      case Name(_) =>
      case BinOp(_, _, _) =>
      case Other =>
    }
    assert Pending(stack) == Code(tree) + [];
    assert Code(tree) + [] == Code(tree);
    while stack != []
      invariant Finish(Exec(Pending(stack), out, dims)) == Run(tree, dims)
      decreases StackWeight(stack)
    {
      var entry := stack[|stack| - 1];
      ghost var pending := Pending(stack);
      assert pending == EntryCode(entry) + Pending(stack[..|stack| - 1]);
      stack := stack[..|stack| - 1];
      var (visit, node) := entry;
      match node {
        case Name(id) =>
          assert pending[0] == PushName(id) && pending[1..] == Pending(stack);
          assert Exec(pending, out, dims) == Exec(Pending(stack), out + [Get(dims, id)], dims);
          out := out + [Get(dims, id)];
          assert Finish(Exec(Pending(stack), out, dims)) == Run(tree, dims);
        case BinOp(left, op, right) =>
          if visit {
            assert pending[0] == ApplyBin(op) && pending[1..] == Pending(stack);
            if |out| < 2 {
              r := Err(IndexError);
              return;
            }
            ghost var before := out;
            var rightDim := out[|out| - 1];
            var leftDim := out[|out| - 2];
            out := out[..|out| - 2];
            var res := ApplyOp(op, leftDim, rightDim);
            if res.Err? {
              r := Err(res.error);
              return;
            }
            assert Exec(pending, before, dims) == Exec(Pending(stack), out + [res.value], dims);
            out := out + [res.value];
            assert Finish(Exec(Pending(stack), out, dims)) == Run(tree, dims);
          } else {
            var rest := stack;
            stack := stack + [(true, node), (false, right), (false, left)];
            PushThree(rest, (true, node), (false, right), (false, left));
            assert Pending(stack) == Code(left) + Code(right) + [ApplyBin(op)] + Pending(rest);
            assert pending == Code(node) + Pending(rest);
            assert Finish(Exec(Pending(stack), out, dims)) == Run(tree, dims);
          }
        case Other =>
          assert pending == Pending(stack);
      }
    }
    if out == [] {
      r := Err(IndexError);
    } else {
      r := Ok(out[0]);
    }
  }
}
