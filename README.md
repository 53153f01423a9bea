# bivarcontours: unit bookkeeping and contour set-up, in Dafny

This project models the string-based unit and dimension bookkeeping of
`bivarcontours`, plus the helpers and the `Contour` object state of its
main program, and states and proves what that code promises.

**Dimension tree walkers.** A walker takes a parsed formula tree whose leaves are the names `x` and `y`. It gives that tree a dimension string built from a fixed `DIMENSIONS` table.
- `formula_ast_dim.py` and `formula_ast_dim-96.py` walk the tree with an explicit stack and an `out` list.
  - `DimStackWalk.WalkPostOrder` is that loop.
  - It is proved equal to a stack-machine semantics (`Run`).
  - That semantics in turn equals the recursive post-order fold (`Fold`) on trees of names.
- `formula_ast_dim_96.py` and `formula_ast_dim_97.py` recurse, each with its own division rule. Both are modelled as recursive functions.

**`calculate_unit`.** There are three versions, in `sympy_pint_resulting_units.py`, `-88.py` and `-89.py`.
- `UnitCalculation` holds the shared parts:
  - the textual substitution of `x` and `y`;
  - the character scan (`Tokenize`, a loop), which is specified by `Operators` and `Chunks`/`Operands`;
  - the evaluation loop (`FoldOperands`, which updates the operand list in place), which is specified by the left fold `FoldLeft`.
- `ResultingUnits` is the main version. It also removes parentheses and raises `UnitError`.
- `ResultingUnits88` states the `-88` docstring's claim. The `-88` code itself is the same as the main version's.
- `ResultingUnits89` keeps the parentheses and raises `AssertionError`.

**Main program** (`Bivarcontours` for `bivarcontours.py`, `Bivarcontours99` for `bivarcontours-99.py`):
- filename validity and sanitising;
- the sample-mode dispatch of `_generate_values`;
- the tick-range check;
- the constructor's value checks;
- the class `Contour`, whose methods update its axis, label and filename fields.

**Python semantics.** The Python built-ins the code relies on are written out in `PyStrings`:
- `str.strip` with the whitespace set of `str.isspace`;
- `str.replace` for one character, and for a prefix with count 1;
- `str.lower` on ASCII.

Exceptions become `Err` values of `Result` (or `Fail` of `Outcome`), and Python's `None` becomes `None` of `Option`.

Where the tests and the code disagree, the model follows the code. Two cases:
- `tests/test_formula_ast_dim.py:13` expects 'Unhandled Operator' for `x**2`. The stack walk instead pops an empty list (IndexError): see `FormulaAstDim.PowerOfConstantUnderflows`.
- `tests/test_formula_ast_dim.py:14` expects 'Dimension Mismatch' for `(x + y) / y`. The code gives 'Dimension Mismatch/s': see `FormulaAstDim.MismatchOverY`.

The comment on the sample call of `sympy_pint_resulting_units.py` expects 'm', but the call raises `UnitError`; see `ResultingUnits.SampleRaises`.

## Model

| member | source | states |
|---|---|---|
| DimStackWalk.WalkPostOrder | src/bivarcontours/unit_handling/formula_ast_dim.py:20-49 | the two-stack loop returns exactly what the stack machine gives; on a tree of names that is the recursive post-order fold, and on a tree with any other leaf it is an error |
| DimStackWalk.RunAgreesWithFold | src/bivarcontours/unit_handling/formula_ast_dim.py:23-49 | the stack machine equals the post-order fold (left, right, then the operator rule) on trees of names, and fails on every other tree |
| DimStackWalk.ExecAppend | src/bivarcontours/unit_handling/formula_ast_dim.py:26-45 | running two step sequences in a row is running the second on the list the first left, errors included |
| DimStackWalk.ExecCodeOfNames | src/bivarcontours/unit_handling/formula_ast_dim.py:28-43 | on a subtree of names the steps push exactly the subtree's folded dimension on top of whatever `out` held |
| DimStackWalk.ExecCodeCount | src/bivarcontours/unit_handling/formula_ast_dim.py:28-47 | stack accounting: a successful run leaves `out` one entry longer, less one for every non-name leaf (names push one entry, a completed operator nets minus one) |
| DimStackWalk.OneEntryLeft | src/bivarcontours/unit_handling/formula_ast_dim.py:26-49 | on a tree of names `out` ends with exactly one entry, the one `out[0]` returns |
| DimStackWalk.KnownNamesGiveString | src/bivarcontours/unit_handling/formula_ast_dim.py:29-43 | when every name has a table entry the walk raises nothing and yields a string |
| DimStackWalk.DivDimensionless | src/bivarcontours/unit_handling/formula_ast_dim.py:39-40 | a quotient is the empty string exactly when both operands have the same dimension |
| DimStackWalk.AddSubResult | src/bivarcontours/unit_handling/formula_ast_dim.py:37-38 | a sum or difference yields the left dimension or 'Dimension Mismatch' |
| DimStackWalk.UnhandledOperator | src/bivarcontours/unit_handling/formula_ast_dim.py:41-42 | any operator other than `+ - * /` yields 'Unhandled Operator' |
| DimStackWalk.PushThree | src/bivarcontours/unit_handling/formula_ast_dim.py:45 | pushing `(True, node), (False, right), (False, left)` schedules left, then right, then the operator, and accounts for their weight |
| FormulaAstDim.PostOrder | src/bivarcontours/unit_handling/formula_ast_dim.py:18-49 | with the table x→'m', y→'s' the walk is the fold on trees of names and an error on any other tree |
| FormulaAstDim.TestPostOrder | tests/test_formula_ast_dim.py:9-15 | 'Dimension Mismatch' for `x + y`, `x - y` and `(x + y) + y`; 'm*s' for `x * y`; 'm/s' for `x / y` |
| FormulaAstDim.PowerOfConstantUnderflows | src/bivarcontours/unit_handling/formula_ast_dim.py:33-47 | `x**2`: the constant pushes nothing, so the second pop fails with IndexError |
| FormulaAstDim.MismatchOverY | src/bivarcontours/unit_handling/formula_ast_dim.py:37-40 | `(x + y) / y` gives 'Dimension Mismatch/s': the marker is divided like any other string |
| FormulaAstDimStack96.PostOrder | src/bivarcontours/unit_handling/formula_ast_dim-96.py:32-62 | with both dimensions 'm' the walk is the fold on trees of names and an error otherwise; `visit_node` affects nothing |
| FormulaAstDimStack96.EqualDimensions | src/bivarcontours/unit_handling/formula_ast_dim-96.py:48-55 | `x + y` and `x - y` give 'm', `x / y` gives '' |
| FormulaAstDimStack96.ProductOverSum | src/bivarcontours/unit_handling/formula_ast_dim-96.py:48-70 | `x * y / (x + y)` gives 'm*m/m' |
| FormulaAstDimRec96.UnknownNameIsNone | src/bivarcontours/unit_handling/formula_ast_dim_96.py:8-12 | a name missing from the table gives `None` and raises nothing |
| FormulaAstDimRec96.KnownNamesGiveString | src/bivarcontours/unit_handling/formula_ast_dim_96.py:6-36 | when every name has an entry the walk raises nothing and yields a string |
| FormulaAstDimRec96.DivisionRule | src/bivarcontours/unit_handling/formula_ast_dim_96.py:22-30 | equal dimensions cancel to ''; a right dimension that is a prefix of the left is cut off the front; otherwise 'Error' |
| FormulaAstDimRec96.EmptyDimensionIsNeutral | src/bivarcontours/unit_handling/formula_ast_dim_96.py:17-27 | multiplying or dividing a dimension by '' leaves it unchanged |
| FormulaAstDimRec96.ConstantOperandIsNeutral | src/bivarcontours/unit_handling/formula_ast_dim_96.py:34-36 | a constant operand has dimension '', so multiplying or dividing by it changes nothing |
| FormulaAstDimRec96.TestPostOrder | tests/test_formula_ast_dim_96.py:10-29 | 'm' for `x * y / (x + y)`, '' for `x / (x - y)`, 'm' for `x - y`, 'mm' for `x * y` |
| FormulaAstDimRec97.DivisionIsEmptyOrError | src/bivarcontours/unit_handling/formula_ast_dim_97.py:22-24 | a quotient is '' or 'Error', and '' exactly when the left dimension is the right one doubled |
| FormulaAstDimRec97.UnsupportedOperatorRaises | src/bivarcontours/unit_handling/formula_ast_dim_97.py:25-27 | any other operator leaves `r_dim` unbound: UnboundLocalError |
| FormulaAstDimRec97.KnownNamesGiveString | src/bivarcontours/unit_handling/formula_ast_dim_97.py:6-30 | with known names and handled operators the walk raises nothing and yields a string |
| FormulaAstDimRec97.Examples | src/bivarcontours/unit_handling/formula_ast_dim_97.py:22-35 | `x * y / (x + y)` gives '', `x / x` gives 'Error' |
| UnitCalculation.Substitute | src/bivarcontours/unit_handling/sympy_pint_resulting_units.py:9 | a formula with neither `x` nor `y` is left as it is |
| UnitCalculation.RemoveParens | src/bivarcontours/unit_handling/sympy_pint_resulting_units.py:12 | no parenthesis is left, and text without any is unchanged |
| UnitCalculation.OperatorsAreOperators | src/bivarcontours/unit_handling/sympy_pint_resulting_units.py:21-23 | only the characters `+ - * /` are collected as operators |
| UnitCalculation.Chunks | src/bivarcontours/unit_handling/sympy_pint_resulting_units.py:21-29 | there is one more chunk than operators |
| UnitCalculation.ChunksArePlain | src/bivarcontours/unit_handling/sympy_pint_resulting_units.py:21-27 | no chunk holds an operator character |
| UnitCalculation.Operands | src/bivarcontours/unit_handling/sympy_pint_resulting_units.py:24-29 | `len(operands) == len(operators) + 1` |
| UnitCalculation.StripAll | src/bivarcontours/unit_handling/sympy_pint_resulting_units.py:24-29 | each operand is its chunk stripped |
| UnitCalculation.ChunksJoin | src/bivarcontours/unit_handling/sympy_pint_resulting_units.py:21-27 | the chunks interleaved with the operators give back the scanned text |
| UnitCalculation.JoinChunks | src/bivarcontours/unit_handling/sympy_pint_resulting_units.py:21-27 | operator-free chunks interleaved with operators are split back into the same chunks and operators |
| UnitCalculation.PlainIsOneChunk | src/bivarcontours/unit_handling/sympy_pint_resulting_units.py:21-29 | a text without operators is a single chunk with no operators |
| UnitCalculation.Tokenize | src/bivarcontours/unit_handling/sympy_pint_resulting_units.py:14-29 | the loop collects exactly the operators and stripped operands of the text, one more operand than operators |
| UnitCalculation.FoldPrefixErr | src/bivarcontours/unit_handling/sympy_pint_resulting_units.py:32-35 | once a step raises, the evaluation stops with that error |
| UnitCalculation.FoldOperands | src/bivarcontours/unit_handling/sympy_pint_resulting_units.py:32-47 | the loop that rewrites `operands[i + 1]` in place returns the left fold of the operands |
| UnitCalculation.FoldProductIsJoin | src/bivarcontours/unit_handling/sympy_pint_resulting_units.py:38-41 | with only `*` and `/` the evaluation never raises and yields the operands joined by their operators |
| UnitCalculation.AdditiveStep | src/bivarcontours/unit_handling/sympy_pint_resulting_units.py:33-37 | `+` or `-` raises exactly when the two operands differ, else keeps the left one |
| UnitCalculation.FoldEndsWithLastOperand | src/bivarcontours/unit_handling/sympy_pint_resulting_units.py:32-47 | a successful result ends with the last operand |
| ResultingUnits.Prepared | src/bivarcontours/unit_handling/sympy_pint_resulting_units.py:9-12 | the prepared formula holds no parenthesis |
| ResultingUnits.Calculate | src/bivarcontours/unit_handling/sympy_pint_resulting_units.py:7-47 | raises exactly when the fold of the prepared formula does, always with the addition/subtraction message |
| ResultingUnits.CalculateUnit | src/bivarcontours/unit_handling/sympy_pint_resulting_units.py:7-47 | substitution, parenthesis removal, scan loop and evaluation loop give `Calculate` |
| ResultingUnits.SingleOperand | src/bivarcontours/unit_handling/sympy_pint_resulting_units.py:29-47 | without operators the unit is the stripped, substituted formula |
| ResultingUnits.ProductsAndQuotients | src/bivarcontours/unit_handling/sympy_pint_resulting_units.py:38-41 | without `+` and `-` nothing raises and the unit is the stripped operands joined left to right |
| ResultingUnits.OperatorsOccur | src/bivarcontours/unit_handling/sympy_pint_resulting_units.py:21-23 | every operator collected is a character of the formula |
| ResultingUnits.SamplePrepared | src/bivarcontours/unit_handling/sympy_pint_resulting_units.py:9-12 | `y * y / (x + y)` with one unit `u` becomes `u * u / u + u` |
| ResultingUnits.SampleScanned | src/bivarcontours/unit_handling/sympy_pint_resulting_units.py:21-29 | that text scans to operands `u, u, u, u` and operators `* / +` |
| ResultingUnits.SampleFolded | src/bivarcontours/unit_handling/sympy_pint_resulting_units.py:32-41 | the sum compares 'u*u/u' with 'u' and fails |
| ResultingUnits.SampleRaises | src/bivarcontours/unit_handling/sympy_pint_resulting_units.py:51-54 | the sample call raises `UnitError`, not the 'm' its comment expects |
| ResultingUnits.PowerScanned | src/bivarcontours/unit_handling/sympy_pint_resulting_units.py:15-29 | 'a**b' scans as two `*` with an empty operand between them |
| ResultingUnits.PowerIsNotChecked | src/bivarcontours/unit_handling/sympy_pint_resulting_units.py:42-45 | the `**` branch is never reached: `x**y` gives 'a**b' for any units, the exponent's included |
| ResultingUnits.XDimensionIsRewritten | src/bivarcontours/unit_handling/sympy_pint_resulting_units.py:9 | the replacements are sequential: an `x_dim` of 'y' is itself replaced by `y_dim` |
| ResultingUnits88.ProductThenSum | src/bivarcontours/unit_handling/sympy_pint_resulting_units-88.py:3-7 | after a product, `+` compares the whole text 'p*q' with the next operand, and fails exactly when they differ |
| ResultingUnits88.SquareThenSumRaises | src/bivarcontours/unit_handling/sympy_pint_resulting_units-88.py:50-59 | `m * m + m` raises for every unit text `m`, since 'm*m' never equals 'm' |
| ResultingUnits89.Calculate | src/bivarcontours/unit_handling/sympy_pint_resulting_units-89.py:9-42 | fails exactly when the fold of the substituted text (parentheses kept) does, with the assertion's message |
| ResultingUnits89.CalculateUnit | src/bivarcontours/unit_handling/sympy_pint_resulting_units-89.py:9-42 | substitution, scan loop and evaluation loop give `Calculate` |
| ResultingUnits89.AgreesWithoutParens | src/bivarcontours/unit_handling/sympy_pint_resulting_units-89.py:11-42 | without parentheses it fails exactly when the main version does, and otherwise gives the same unit |
| ResultingUnits89.SumComparesText | src/bivarcontours/unit_handling/sympy_pint_resulting_units-89.py:6-7 | a sum fails exactly when the operands are different texts, such as 'meter' and 'm' |
| ResultingUnits89.SampleChunks | src/bivarcontours/unit_handling/sympy_pint_resulting_units-89.py:20-28 | parentheses stay inside the chunks of the sample, as '(a' and 'b)' |
| ResultingUnits89.SampleStripped | src/bivarcontours/unit_handling/sympy_pint_resulting_units-89.py:23-28 | stripping the chunks keeps the parentheses |
| ResultingUnits89.SampleFolded | src/bivarcontours/unit_handling/sympy_pint_resulting_units-89.py:31-37 | the sum compares 'b*b/(a' with 'b)' |
| ResultingUnits89.SampleRaises | src/bivarcontours/unit_handling/sympy_pint_resulting_units-89.py:46 | the sample call fails its assertion for all one-letter units |
| PyStrings.LStripSpec | src/bivarcontours/unit_handling/sympy_pint_resulting_units.py:24 | `lstrip()` removes exactly the leading whitespace, leaving no whitespace in front |
| PyStrings.RStripSpec | src/bivarcontours/unit_handling/sympy_pint_resulting_units.py:24 | `rstrip()` removes exactly the trailing whitespace, leaving no whitespace at the end |
| PyStrings.StripSpec | src/bivarcontours/unit_handling/sympy_pint_resulting_units.py:24 | `strip()` is a slice with whitespace only outside it and none at its ends |
| PyStrings.StripUnchanged | src/bivarcontours/unit_handling/sympy_pint_resulting_units.py:29 | text without whitespace at its ends is unchanged |
| PyStrings.StripAround | src/bivarcontours/unit_handling/sympy_pint_resulting_units-89.py:23 | whitespace around a text without whitespace ends is removed |
| PyStrings.FindFrom | src/bivarcontours/unit_handling/formula_ast_dim_96.py:26 | the first occurrence at or after a position, or -1 when there is none |
| PyStrings.Find | src/bivarcontours/unit_handling/formula_ast_dim_96.py:26 | the first occurrence, or -1 when there is none |
| PyStrings.FindPrefix | src/bivarcontours/unit_handling/formula_ast_dim_96.py:25-26 | a prefix is found at position 0 |
| PyStrings.RemoveFirstPrefix | src/bivarcontours/unit_handling/formula_ast_dim_96.py:25-27 | `replace(p, '', 1)` of a prefix `p` cuts `p` off the front |
| PyStrings.RemoveAll | src/bivarcontours/unit_handling/formula_ast_dim_97.py:24 | `replace(p, '')` never lengthens the text and changes nothing when `p` does not occur |
| PyStrings.RemoveAllDoubled | src/bivarcontours/unit_handling/formula_ast_dim_97.py:24 | removing `p` from `p + p` leaves '' |
| PyStrings.ReplaceChar | src/bivarcontours/unit_handling/sympy_pint_resulting_units.py:9 | text without the character is unchanged |
| PyStrings.ReplaceCharChars | src/bivarcontours/unit_handling/sympy_pint_resulting_units.py:9 | every character of the result is another character of the text or one of the replacement |
| PyStrings.ReplaceCharConcat | src/bivarcontours/unit_handling/sympy_pint_resulting_units.py:9 | replacing works piece by piece over a concatenation |
| PyStrings.ReplaceCharAt | src/bivarcontours/unit_handling/sympy_pint_resulting_units.py:12 | the first occurrence is replaced where it stands |
| PyStrings.Lower | src/bivarcontours/bivarcontours-99.py:348 | `lower()` keeps the length |
| PyStrings.LowerAt | src/bivarcontours/bivarcontours-99.py:348 | each character is lowered where it stands |
| Bivarcontours.AsWrittenAcceptsTrailingNewline | src/bivarcontours/bivarcontours.py:371-376 | the check as written accepts exactly the valid names and valid names followed by one newline |
| Bivarcontours.AsWrittenAgreesWithoutNewline | src/bivarcontours/bivarcontours.py:371-376 | without a final newline, the name passes exactly when it is non-empty and has none of `\ / : * ? " < > \| @` and no whitespace |
| Bivarcontours.NewlineNameAccepted | src/bivarcontours/bivarcontours.py:373-376 | 'a' followed by a newline passes the check as written but is not a valid name |
| Bivarcontours.SanitizeAt | src/bivarcontours/bivarcontours.py:379-384 | each word character and `.` is kept, every other character becomes `_`, and the length is kept |
| Bivarcontours.SanitizeIdempotent | src/bivarcontours/bivarcontours.py:379-384 | sanitising twice is sanitising once |
| Bivarcontours.SanitizeKeepsWordText | src/bivarcontours/bivarcontours.py:379-384 | a name of word characters and dots is unchanged |
| Bivarcontours.SanitizedIsValid | src/bivarcontours/bivarcontours.py:379-384 | a sanitised non-empty name is valid |
| Bivarcontours.SanitizeConcat | src/bivarcontours/bivarcontours.py:384 | sanitising works piece by piece over a concatenation |
| Bivarcontours.DimResLabel | src/bivarcontours/bivarcontours.py:617-620 | the `dim_res` part of the name is never empty: an empty `dim_res` appears as 'dimensionless', any other as it is |
| Bivarcontours.ChosenFilenameIsValid | src/bivarcontours/bivarcontours.py:625-629 | the kept name is valid for every non-empty candidate |
| Bivarcontours.CandidateChecksAgree | src/bivarcontours/bivarcontours.py:622-625 | every candidate ends with '.png', so the check as written and the intended check agree on it |
| Bivarcontours.SanitizeKeepsFrame | src/bivarcontours/bivarcontours.py:622-629 | sanitising keeps the 'F_' prefix and '.png' suffix |
| Bivarcontours.ChosenFilenameShape | src/bivarcontours/bivarcontours.py:622-629 | the kept name is the candidate or its sanitised form; it is valid, starts with 'F_' and ends with '.png' |
| Bivarcontours.Trunc | src/bivarcontours/bivarcontours.py:364-366 | `int()` truncates toward zero: a non-negative value gives the integer at or just below it, a negative one the integer at or just above it |
| Bivarcontours.ARange | src/bivarcontours/bivarcontours.py:368 | `arange` fails exactly for a zero step |
| Bivarcontours.ARangeHalfOpen | src/bivarcontours/bivarcontours.py:368 | with a positive step the values are `start + i*step`, all in `[start, stop)`, and one more step reaches `stop` |
| Bivarcontours.LinSpace | src/bivarcontours/bivarcontours.py:366 | `linspace` fails exactly for a negative count and otherwise gives that many values |
| Bivarcontours.LinSpaceEvenlySpaced | src/bivarcontours/bivarcontours.py:366 | from two samples on, the values start at `start`, end at `stop`, and are evenly spaced |
| Bivarcontours.GenerateValues | src/bivarcontours/bivarcontours.py:361-368 | count and log gives logspace, count alone gives linspace over `int(step)` values, a negative count raises `ValueError`, and otherwise arange, whatever the log flag |
| Bivarcontours.CountBelowOneIsEmpty | src/bivarcontours/bivarcontours.py:320-322 | in count mode a step in [0, 1) gives `int(step) == 0` and an axis with no samples |
| Bivarcontours.CheckTicksInRange | src/bivarcontours/bivarcontours.py:654-688 | returns normally exactly when all ticks are in range; raises for x when an x tick is outside, and for y only when all x ticks are inside |
| Bivarcontours.InvertedAxisRejectsTicks | src/bivarcontours/bivarcontours.py:673-679 | on an inverted x axis every x tick is rejected |
| Bivarcontours.Arranged | src/bivarcontours/bivarcontours.py:509-530 | the stored labels are the arguments, exchanged when the axes are swapped |
| Bivarcontours.SwappedTwice | src/bivarcontours/bivarcontours.py:509-519 | exchanging twice restores the arguments |
| Bivarcontours.ArrangedInRange | src/bivarcontours/bivarcontours.py:452-455 | the value checks hold of the stored fields whether or not the axes are swapped |
| Bivarcontours.FirstUndefined | src/bivarcontours/bivarcontours.py:290-304 | no unit is reported exactly when all are defined; a reported unit is one of them and undefined |
| Bivarcontours.ConstructorError | src/bivarcontours/bivarcontours.py:451-455 | the constructor raises nothing exactly when all three units are defined and the ranges and steps are valid; an assertion fires only once the units pass |
| Bivarcontours.LabelsFollowArguments | src/bivarcontours/bivarcontours.py:589-590 | after the swap, the labels read back swapped give the x axis `label_1` and the y axis `label_2` |
| Bivarcontours.Contour.constructor | src/bivarcontours/bivarcontours.py:429-490 | the settings are stored as given, the axis fields hold the arranged arguments, labels and filename are unset, and the value checks hold |
| Bivarcontours.Contour.Create | src/bivarcontours/bivarcontours.py:429-490 | raises exactly the constructor's first failing check; otherwise a new contour with the arranged fields |
| Bivarcontours.Contour.InitializeSwappingAxes | src/bivarcontours/bivarcontours.py:492-530 | the ten axis fields become the arguments, exchanged when `swap_axes` holds; no other field changes |
| Bivarcontours.Contour.InitializeDiagramLabels | src/bivarcontours/bivarcontours.py:583-590 | the x and y labels are set from the stored labels, read back swapped; only the labels change |
| Bivarcontours.Contour.FilenameForSavedContourFigure | src/bivarcontours/bivarcontours.py:610-632 | `IndexError` exactly when an axis has no samples, leaving the filename as it was; otherwise the filename becomes the candidate when valid, or else its sanitised form; only the filename changes |
| Bivarcontours.LabelledContour | src/bivarcontours/bivarcontours.py:583-590 | a new contour, once labelled, has `label_x == label_1` and `label_y == label_2` whether the axes are swapped or not |
| Bivarcontours99.SwapFlagIsOneOfTwo | src/bivarcontours/bivarcontours-99.py:348 | an accepted flag says 'true' exactly when it does not say 'false' |
| Bivarcontours99.LowerIsTrue | src/bivarcontours/bivarcontours-99.py:374 | `swap_axes.lower() == 'true'` holds exactly for the sixteen upper/lower-case spellings of 'true' |
| Bivarcontours99.ConstructorError | src/bivarcontours/bivarcontours-99.py:343-348 | nothing raises exactly when the units, the value checks and the swap flag pass; the later version's error comes first, then the flag's assertion |
| Bivarcontours99.FilenameIsUnchecked | src/bivarcontours/bivarcontours-99.py:495-497 | the name uses `dim_res` verbatim and is never checked, so a title with a space gives an invalid name |
| Bivarcontours99.AxisSamples | src/bivarcontours/bivarcontours-99.py:481-482 | the sampling fails exactly for a zero step |
| Bivarcontours99.SamplesAreStepped | src/bivarcontours/bivarcontours-99.py:481-482 | the samples are always the half-open stepping of the later version, whatever the log flag |
| Bivarcontours99.TicksCheckedXFirst | src/bivarcontours/bivarcontours-99.py:544-553 | x is reported first, and the check passes exactly when every tick of both axes is within its limits |
| Bivarcontours99.Contour.constructor | src/bivarcontours/bivarcontours-99.py:326-379 | `are_axes_swapped` is `swap_axes.lower() == 'true'`, the axis fields hold the arranged arguments, the settings are stored, and labels and filename are unset |
| Bivarcontours99.Contour.Create | src/bivarcontours/bivarcontours-99.py:326-379 | raises exactly the first failing check, the swap flag last; otherwise a new contour with the arranged fields |
| Bivarcontours99.Contour.InitializeSwappingAxes | src/bivarcontours/bivarcontours-99.py:381-412 | the ten axis fields become the arguments, exchanged when the axes are swapped; no other field changes |
| Bivarcontours99.Contour.InitializeDiagramLabels | src/bivarcontours/bivarcontours-99.py:463-470 | the labels are set from the stored labels, read back swapped; only the labels change |
| Bivarcontours99.Contour.FilenameForSavedContourFigure | src/bivarcontours/bivarcontours-99.py:488-497 | the filename becomes the unchecked candidate; only the filename changes |
| Bivarcontours99.LabelledContour | src/bivarcontours/bivarcontours-99.py:469-470 | a new contour, once labelled, has `label_x == label_1` and `label_y == label_2` for either flag |

## Left out

- Parsing text into a tree (`ast.parse`, `sympify`) is CPython's or sympy's parser. The walkers take the tree as input, and a node they do not look into is a single `Other` leaf.
- The `print` calls of the walkers, of `calculate_unit` and of the main program are output only. `visit_node` only prints, so it is not modelled.
- pint, sympy and numexpr are not modelled: `runtime_calculate_z`, `calculate_z`, `calculate_formula_dimension`, `result_unit_of_formula`, `result_unit`, `is_dimensionless`, `_set_correct_units_for_dimension` and `_convert_units_to_dimensionless_and_get_interval`.
- `unit_validation` asks pint's registry whether a unit is defined. The model takes the set of defined names as a parameter (`FirstUndefined`).
- Floating point is not modelled:
  - samples are `real`;
  - `np.logspace` is kept as a descriptor (start, stop, count) and not computed;
  - IEEE rounding in `arange` and `linspace` is not modelled;
  - the `:.2f` numbers inside the filename are parameters already formatted as strings;
  - the `.magnitude` and pint wrapping of the samples are not modelled.
- Bivarcontours.Contour.FilenameForSavedContourFigure: the axis samples are passed in as arguments. The model keeps no `x_values`/`y_values` fields, because their inputs come from the pint conversions that are not modelled. The empty axis that raises `IndexError` is still modelled.
- The type-check assertions of both constructors (`isinstance`) are not modelled, because Dafny's typing enforces them. The `Contour` fields that only the rendering uses are not modelled either.
- Rendering and the command line are outside the computation and not modelled: `create_diagram`, `create_figure_with_grid`, `set_axis_ticks_and_limits`, `display_tick_labels`, `generate_contour_plot`, `plot_and_store_fig`, matplotlib, seaborn, `plt.show` and `savefig`.
- `check_ticks_in_range` takes its axis limits as the values `ax.get_xlim()` and `ax.get_ylim()` return. The verbose printing of ticks is not modelled.
- Bivarcontours.IsWordChar: `\w` and `str.lower` cover ASCII only. Unicode letters and case mappings beyond ASCII are not modelled.
- Python's `assert` statements are always on in the model. Running Python with `-O` would skip them.
- The sample lemmas on `calculate_unit` use one-letter units (any non-space, non-operator, non-parenthesis character) in place of the literal 'm' and 's'. The modules' own calls are instances of them.
- ResultingUnits88: the `-88` code is identical to the main version's and is modelled by `ResultingUnits`. Only the docstring's claim gets a lemma of its own.
- Both `Contour` constructors write out the body of `initialize_swapping_axes` as the assignment of `Arranged`, rather than calling the method, whose contract states the same fields.
- ResultingUnits.Calculate and ResultingUnits89.Calculate: the contracts state when the call raises and with which message. The unit returned on success is stated by the lemmas (`ProductsAndQuotients`, `SingleOperand`, `PowerIsNotChecked`, `AgreesWithoutParens`), not by the function's own ensures.
- `formula_ast_to_csv-99.py` and the other `sympy_pint_resulting_units-9x.py` variants are not part of this model; they are prototypes outside the modelled core.

## Findings

| source | as written | input that shows it | evidently intended | confidence | as-written member | corrected member |
|---|---|---|---|---|---|---|
| src/bivarcontours/bivarcontours.py:373-376 | `re.match(r'^[^...\s]+$', s)`; Python's `$` also matches just before a final newline | 'a' followed by a newline is accepted | only non-empty names made entirely of allowed characters pass | not executed | Bivarcontours.NewlineNameAccepted | Bivarcontours.ChosenFilenameIsValid |
