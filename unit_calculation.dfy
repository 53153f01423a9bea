/**
 * The string-level unit calculation shared by the `calculate_unit` variants in
 * unit_handling/sympy_pint_resulting_units*.py: substitute the variables'
 * dimensions, split the text at operator characters, then fold the operands
 * from left to right.
 */
module UnitCalculation {
  import opened Outcomes
  import opened PyStrings

  /** `formula.replace("x", x_dim).replace("y", y_dim)`: the second
      replacement also rewrites any `y` that `x_dim` brought in. */
  function Substitute(formula: string, xDim: string, yDim: string): (r: string)
    ensures 'y' !in formula && 'x' !in formula ==> r == formula
  {
    ReplaceChar(ReplaceChar(formula, 'x', xDim), 'y', yDim)
  }

  /** `formula.replace("(", "").replace(")", "")` */
  function RemoveParens(s: string): (r: string)
    ensures '(' !in r && ')' !in r
    ensures '(' !in s && ')' !in s ==> r == s
  {
    var r1 := ReplaceChar(s, '(', "");
    ReplaceCharChars(s, '(', "");
    ReplaceCharChars(r1, ')', "");
    ReplaceChar(r1, ')', "")
  }

  /** `char in operations`: a single character is never the two-character
      member `"**"`, so only these four characters split operands. */
  predicate IsOperatorChar(c: char) {
    c == '+' || c == '-' || c == '*' || c == '/'
  }

  /** No character of `s` is an operator character. */
  predicate Plain(s: string) {
    forall j :: 0 <= j < |s| ==> !IsOperatorChar(s[j])
  }

  /** Every element of `ops` is an operator character. */
  predicate AllOperators(ops: seq<char>) {
    forall i :: 0 <= i < |ops| ==> IsOperatorChar(ops[i])
  }

  /** No element of `cs` holds an operator character. */
  predicate AllPlain(cs: seq<string>) {
    forall i :: 0 <= i < |cs| ==> Plain(cs[i])
  }

  /** The operator characters of `s`, in order (`operators` after the scan). */
  function Operators(s: string): (ops: seq<char>)
    ensures |ops| <= |s|
  {
    if s == [] then []
    else Operators(s[..|s| - 1]) + (if IsOperatorChar(s[|s| - 1]) then [s[|s| - 1]] else [])
  }

  /** Only operator characters are collected. */
  lemma {:induction false} OperatorsAreOperators(s: string)
    ensures AllOperators(Operators(s))
    decreases |s|
  {
    if s != [] {
      OperatorsAreOperators(s[..|s| - 1]);
    }
  }

  /** One step of the scan on the chunks seen so far: an operator character
      opens a new chunk, any other character extends the last one. */
  function AddChar(cs: seq<string>, c: char): (r: seq<string>)
    requires cs != []
    ensures |r| == |cs| + (if IsOperatorChar(c) then 1 else 0)
  {
    if IsOperatorChar(c) then cs + [""]
    else cs[..|cs| - 1] + [cs[|cs| - 1] + [c]]
  }

  /** The raw texts between operator characters, before stripping: one more
      than there are operators, none holding an operator character. */
  function Chunks(s: string): (cs: seq<string>)
    ensures |cs| == |Operators(s)| + 1
  {
    if s == [] then [""]
    else AddChar(Chunks(s[..|s| - 1]), s[|s| - 1])
  }

  /** No chunk holds an operator character. */
  lemma {:induction false} ChunksArePlain(s: string)
    ensures AllPlain(Chunks(s))
    decreases |s|
  {
    if s != [] {
      var init := Chunks(s[..|s| - 1]);
      var c := s[|s| - 1];
      ChunksArePlain(s[..|s| - 1]);
      if !IsOperatorChar(c) {
        var last := init[|init| - 1] + [c];
        assert Plain(init[|init| - 1]);
        assert Plain(last) by {
          forall j | 0 <= j < |last|
            ensures !IsOperatorChar(last[j])
          {
            if j < |last| - 1 {
              assert last[j] == init[|init| - 1][j];
            }
          }
        }
      }
    }
  }

  /** Chunks and operators interleaved back into one text. */
  function Join(cs: seq<string>, ops: seq<char>): string
    requires |cs| == |ops| + 1
  {
    if ops == [] then cs[0]
    else Join(cs[..|cs| - 1], ops[..|ops| - 1]) + [ops[|ops| - 1]] + cs[|cs| - 1]
  }

  /** A one-letter dimension such as `m` or `s`: not whitespace, not an
      operator character, not a parenthesis and not a variable name. */
  predicate UnitLetter(u: char) {
    !IsSpace(u) && !IsOperatorChar(u) && u != 'x' && u != 'y' && u != '(' && u != ')'
  }

  /** `strip()` applied to every chunk. */
  function StripAll(cs: seq<string>): (r: seq<string>)
    ensures |r| == |cs|
    ensures forall i :: 0 <= i < |cs| ==> r[i] == Strip(cs[i])
  {
    if cs == [] then [] else StripAll(cs[..|cs| - 1]) + [Strip(cs[|cs| - 1])]
  }

  /** The operands the scan collects. */
  function Operands(s: string): (r: seq<string>)
    ensures |r| == |Operators(s)| + 1
  {
    StripAll(Chunks(s))
  }

  /** Splitting loses nothing: the chunks and operators join back to `s`. */
  lemma {:induction false} ChunksJoin(s: string)
    ensures Join(Chunks(s), Operators(s)) == s
    decreases |s|
  {
    if s != [] {
      var init := s[..|s| - 1];
      var c := s[|s| - 1];
      var cs := Chunks(init);
      ChunksJoin(init);
      assert s == init + [c];
      if IsOperatorChar(c) {
        var cs' := cs + [""];
        var ops' := Operators(init) + [c];
        assert cs'[..|cs'| - 1] == cs;
        assert ops'[..|ops'| - 1] == Operators(init);
        assert Join(cs', ops') == Join(cs, Operators(init)) + [c] + "";
      } else {
        assert Operators(s) == Operators(init) + [] == Operators(init);
        assert Chunks(s) == cs[..|cs| - 1] + [cs[|cs| - 1] + [c]];
        JoinExtendLast(cs, Operators(init), [c]);
      }
    }
  }

  /** Extending the last chunk extends the joined text. */
  lemma JoinExtendLast(cs: seq<string>, ops: seq<char>, t: string)
    requires |cs| == |ops| + 1
    ensures Join(cs[..|cs| - 1] + [cs[|cs| - 1] + t], ops) == Join(cs, ops) + t
  {
    var cs' := cs[..|cs| - 1] + [cs[|cs| - 1] + t];
    if ops != [] {
      assert cs'[..|cs'| - 1] == cs[..|cs| - 1];
    }
  }

  /** Operator-free text adds no operators. */
  lemma {:induction false} OperatorsAppendPlain(s: string, q: string)
    requires Plain(q)
    ensures Operators(s + q) == Operators(s)
    decreases |q|
  {
    if q == [] {
      assert s + q == s;
    } else {
      var q' := q[..|q| - 1];
      PlainFront(q);
      OperatorsAppendPlain(s, q');
      assert (s + q)[..|s + q| - 1] == s + q';
      assert !IsOperatorChar((s + q)[|s + q| - 1]);
    }
  }

  /** Appending a character that is not an operator extends the last
      chunk by it. */
  lemma ChunksAppendLetter(s: string, c: char)
    requires !IsOperatorChar(c)
    ensures var cs := Chunks(s);
            Chunks(s + [c]) == cs[..|cs| - 1] + [cs[|cs| - 1] + [c]]
  {
    assert (s + [c])[..|s|] == s;
  }

  /** Appending text without operators extends the last chunk. */
  lemma {:induction false} ChunksAppendPlain(s: string, q: string)
    requires Plain(q)
    ensures var cs := Chunks(s);
            Chunks(s + q) == cs[..|cs| - 1] + [cs[|cs| - 1] + q]
    decreases |q|
  {
    var cs := Chunks(s);
    if q == [] {
      assert s + q == s;
      ExtendLastBy(cs, q);
    } else {
      var q', c := q[..|q| - 1], q[|q| - 1];
      PlainFront(q);
      ChunksAppendPlain(s, q');
      var t := s + q';
      assert s + q == t + [c];
      ChunksAppendLetter(t, c);
      ExtendLastTwice(cs, q', c);
      assert q' + [c] == q;
    }
  }

  /** The front of an operator-free text is operator-free. */
  lemma PlainFront(q: string)
    requires Plain(q) && q != []
    ensures Plain(q[..|q| - 1]) && !IsOperatorChar(q[|q| - 1])
  {
    var q' := q[..|q| - 1];
    forall j | 0 <= j < |q'|
      ensures !IsOperatorChar(q'[j])
    {
      assert q'[j] == q[j];
    }
  }

  /** Extending by nothing changes nothing. */
  lemma ExtendLastBy(cs: seq<string>, t: string)
    requires cs != [] && t == []
    ensures cs[..|cs| - 1] + [cs[|cs| - 1] + t] == cs
  {
    assert cs[|cs| - 1] + t == cs[|cs| - 1];
  }

  /** Extending the last element twice is extending it once by both parts. */
  lemma ExtendLastTwice(cs: seq<string>, t: string, c: char)
    requires cs != []
    ensures var e := cs[..|cs| - 1] + [cs[|cs| - 1] + t];
            e[..|e| - 1] + [e[|e| - 1] + [c]] == cs[..|cs| - 1] + [cs[|cs| - 1] + (t + [c])]
  {
    var e := cs[..|cs| - 1] + [cs[|cs| - 1] + t];
    assert e[..|e| - 1] == cs[..|cs| - 1];
    assert cs[|cs| - 1] + t + [c] == cs[|cs| - 1] + (t + [c]);
  }

  /** Appending an operator character starts a new, empty chunk. */
  lemma ChunksAppendOperator(s: string, c: char)
    requires IsOperatorChar(c)
    ensures Operators(s + [c]) == Operators(s) + [c]
    ensures Chunks(s + [c]) == Chunks(s) + [""]
  {
    assert (s + [c])[..|s|] == s;
  }

  /** An operator character followed by operator-free text adds one
      operator and one chunk. */
  lemma ChunksAppendDelimited(p: string, op: char, last: string)
    requires IsOperatorChar(op) && Plain(last)
    ensures Operators(p + [op] + last) == Operators(p) + [op]
    ensures Chunks(p + [op] + last) == Chunks(p) + [last]
  {
    ChunksAppendOperator(p, op);
    ChunksAppendPlain(p + [op], last);
    OperatorsAppendPlain(p + [op], last);
    var c1 := Chunks(p + [op]);
    assert c1[..|c1| - 1] == Chunks(p);
    assert c1[|c1| - 1] + last == last;
  }

  /** Joining is undone by splitting: operator-free chunks interleaved with
      operator characters split back into the same chunks and operators. */
  lemma {:induction false} JoinChunks(cs: seq<string>, ops: seq<char>)
    requires |cs| == |ops| + 1
    requires AllOperators(ops) && AllPlain(cs)
    ensures Chunks(Join(cs, ops)) == cs
    ensures Operators(Join(cs, ops)) == ops
    decreases |ops|
  {
    if ops == [] {
      assert Plain(cs[0]);
      ChunksAppendPlain([], cs[0]);
      OperatorsAppendPlain([], cs[0]);
      assert [] + cs[0] == cs[0];
      assert cs == [cs[0]];
    } else {
      var front, init := cs[..|cs| - 1], ops[..|ops| - 1];
      var op, last := ops[|ops| - 1], cs[|cs| - 1];
      assert AllOperators(init) && AllPlain(front) && IsOperatorChar(op) && Plain(last);
      JoinChunks(front, init);
      ChunksAppendDelimited(Join(front, init), op, last);
      SplitLast(cs);
      SplitLast(ops);
    }
  }

  /** A non-empty sequence is its front followed by its last element. */
  lemma SplitLast<T>(s: seq<T>)
    requires s != []
    ensures s[..|s| - 1] + [s[|s| - 1]] == s
  {
  }

  /** A text without operator characters is a single chunk. */
  lemma PlainIsOneChunk(s: string)
    requires Plain(s)
    ensures Operators(s) == [] && Chunks(s) == [s]
  {
    ChunksAppendPlain([], s);
    OperatorsAppendPlain([], s);
    assert [] + s == s;
  }

  /** The scan over `formula`: operator characters go to `operators`, every
      chunk before one goes, stripped, to `operands`, and the last chunk is
      added after the loop. */
  method Tokenize(formula: string) returns (operators: seq<char>, operands: seq<string>)
    ensures operators == Operators(formula)
    ensures operands == Operands(formula)
    ensures |operands| == |operators| + 1
  {
    operators := [];
    operands := [];
    var current := "";
    ghost var raws: seq<string> := [];
    for i := 0 to |formula|
      invariant operators == Operators(formula[..i])
      invariant Chunks(formula[..i]) == raws + [current]
      invariant operands == StripAll(raws)
    {
      var c := formula[i];
      assert formula[..i + 1][..i] == formula[..i];
      assert formula[..i + 1][i] == c;
      if IsOperatorChar(c) {
        operators := operators + [c];
        operands := operands + [Strip(current)];
        raws := raws + [current];
        current := "";
      } else {
        assert (raws + [current])[..|raws|] == raws;
        current := current + [c];
      }
    }
    assert formula[..|formula|] == formula;
    assert (raws + [current])[..|raws|] == raws;
    operands := operands + [Strip(current)];
  }

  /** Two operands of an addition or subtraction that differ. */
  datatype Mismatch = Mismatch(left: string, right: string)

  /** One iteration of the evaluation loop: the accumulated dimension
      `acc` combined with the next operand by `op`. */
  function Step(acc: string, op: char, next: string): Result<string, Mismatch>
  {
    if op == '+' || op == '-' then
      (if acc == next then Ok(acc) else Err(Mismatch(acc, next)))
    else if op == '*' then Ok(acc + "*" + next)
    else if op == '/' then Ok(acc + "/" + next)
    else Ok(next)
  }

  /** The evaluation loop as a left fold over the operands. */
  function FoldLeft(operands: seq<string>, operators: seq<char>): Result<string, Mismatch>
    requires |operands| == |operators| + 1
  {
    if operators == [] then Ok(operands[0])
    else
      match FoldLeft(operands[..|operands| - 1], operators[..|operators| - 1])
      case Err(e) => Err(e)
      case Ok(acc) => Step(acc, operators[|operators| - 1], operands[|operands| - 1])
  }

  /** Once a prefix of the fold fails, the whole fold fails with that error. */
  lemma {:induction false} FoldPrefixErr(operands: seq<string>, operators: seq<char>, k: nat)
    requires |operands| == |operators| + 1 && k <= |operators|
    requires FoldLeft(operands[..k + 1], operators[..k]).Err?
    ensures FoldLeft(operands, operators) == FoldLeft(operands[..k + 1], operators[..k])
    decreases |operators| - k
  {
    if k == |operators| {
      assert operands[..k + 1] == operands;
      assert operators[..k] == operators;
    } else {
      var n := |operators|;
      assert operands[..n][..k + 1] == operands[..k + 1];
      assert operators[..n - 1][..k] == operators[..k];
      FoldPrefixErr(operands[..n], operators[..n - 1], k);
    }
  }

  /** The loop of `calculate_unit`, updating a copy of `operands` in place:
      `+`/`-` demand equal neighbours, `*` and `/` join them, and the answer
      is the last operand. */
  method FoldOperands(operators: seq<char>, operands: seq<string>) returns (r: Result<string, Mismatch>)
    requires |operands| == |operators| + 1
    ensures r == FoldLeft(operands, operators)
  {
    var ops := operands;
    for i := 0 to |operators|
      invariant |ops| == |operands|
      invariant FoldLeft(operands[..i + 1], operators[..i]) == Ok(ops[i])
      invariant ops[i + 1..] == operands[i + 1..]
    {
      var op := operators[i];
      assert operands[..i + 2][..i + 1] == operands[..i + 1];
      assert operators[..i + 1][..i] == operators[..i];
      assert ops[i + 1] == ops[i + 1..][0] == operands[i + 1];
      if op == '+' || op == '-' {
        if ops[i] != ops[i + 1] {
          FoldPrefixErr(operands, operators, i + 1);
          return Err(Mismatch(ops[i], ops[i + 1]));
        }
        ops := ops[i + 1 := ops[i]];
      } else if op == '*' {
        ops := ops[i + 1 := ops[i] + "*" + ops[i + 1]];
      } else if op == '/' {
        ops := ops[i + 1 := ops[i] + "/" + ops[i + 1]];
      }
      assert ops[i + 2..] == operands[i + 2..];
    }
    assert operands[..|operators| + 1] == operands;
    assert operators[..|operators|] == operators;
    r := Ok(ops[|ops| - 1]);
  }

  /** With only `*` and `/` the fold never fails and its answer is the
      operands interleaved with the operators. */
  lemma {:induction false} FoldProductIsJoin(operands: seq<string>, operators: seq<char>)
    requires |operands| == |operators| + 1
    requires forall i :: 0 <= i < |operators| ==> operators[i] == '*' || operators[i] == '/'
    ensures FoldLeft(operands, operators) == Ok(Join(operands, operators))
    decreases |operators|
  {
    if operators != [] {
      FoldProductIsJoin(operands[..|operands| - 1], operators[..|operators| - 1]);
    }
  }

  /** An addition or subtraction fails exactly when its two operands differ,
      and otherwise keeps the left one. */
  lemma AdditiveStep(acc: string, op: char, next: string)
    requires op == '+' || op == '-'
    ensures Step(acc, op, next).Err? <==> acc != next
    ensures Step(acc, op, next).Ok? ==> Step(acc, op, next).value == acc
  {
  }

  /** A successful fold's answer ends with the last operand. */
  lemma FoldEndsWithLastOperand(operands: seq<string>, operators: seq<char>)
    requires |operands| == |operators| + 1
    requires FoldLeft(operands, operators).Ok?
    ensures var u, last := FoldLeft(operands, operators).value, operands[|operands| - 1];
            |last| <= |u| && u[|u| - |last|..] == last
  {
  }

  /** `strip()` leaves a one-letter dimension, and removes a single space
      on either side of it. */
  lemma StripLetter(l: string, u: char, r: string)
    requires UnitLetter(u)
    requires l == "" || l == " "
    requires r == "" || r == " "
    ensures Strip(l + [u] + r) == [u]
  {
    StripAround(l, [u], r);
  }

  /** Text made of operator-free pieces is operator-free. */
  lemma PlainConcat(a: string, b: string)
    requires Plain(a) && Plain(b)
    ensures Plain(a + b)
  {
    forall j | 0 <= j < |a + b|
      ensures !IsOperatorChar((a + b)[j])
    {
      if j >= |a| {
        assert (a + b)[j] == b[j - |a|];
      }
    }
  }
}
