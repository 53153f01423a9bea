/**
 * bivarcontours.py: the helpers of the contour program that are plain
 * logic — filename validation and sanitising, the choice of axis samples,
 * the tick-range check — and the state of a `Contour` that its
 * constructor, `initialize_swapping_axes`, `initialize_diagram_labels` and
 * `filename_for_saved_contour_figure` set up.
 */
module Bivarcontours {
  import opened Outcomes
  import opened PyStrings

  // ---------------------------------------------------------------------
  // Filenames

  /** A character the class `[^\\/:*?"<>|@\s]` accepts. */
  predicate Allowed(c: char) {
    c !in "\\/:*?\"<>|@" && !IsSpace(c)
  }

  predicate AllAllowed(s: string) {
    forall i :: 0 <= i < |s| ==> Allowed(s[i])
  }

  /** `re.match(r'^[^\\/:*?"<>|@\s]+$', s)` succeeds: a non-empty run of
      allowed characters from the start, followed by the end of the text
      or by a final newline, where Python's `$` also matches. */
  predicate RegexMatches(s: string) {
    exists k | 1 <= k <= |s| :: AllAllowed(s[..k]) && (k == |s| || (k == |s| - 1 && s[k] == '\n'))
  }

  /** `_is_valid_filename(s)` as written. */
  predicate IsValidFilenameAsWritten(s: string) {
    |s| > 0 && RegexMatches(s)
  }

  /** `_is_valid_filename(s)` as intended: non-empty and made of allowed
      characters only. */
  predicate IsValidFilename(s: string) {
    |s| > 0 && AllAllowed(s)
  }

  /** The check as written accepts exactly the valid names and the valid
      names followed by one newline. */
  lemma AsWrittenAcceptsTrailingNewline(s: string)
    ensures IsValidFilenameAsWritten(s) <==>
              IsValidFilename(s) || (|s| >= 2 && s[|s| - 1] == '\n' && IsValidFilename(s[..|s| - 1]))
  {
    if IsValidFilenameAsWritten(s) {
      var k :| 1 <= k <= |s| && AllAllowed(s[..k]) && (k == |s| || (k == |s| - 1 && s[k] == '\n'));
      if k == |s| {
        assert s[..k] == s;
      }
    }
    if IsValidFilename(s) {
      assert s[..|s|] == s;
      assert AllAllowed(s[..|s|]);
    }
    if |s| >= 2 && s[|s| - 1] == '\n' && IsValidFilename(s[..|s| - 1]) {
      assert AllAllowed(s[..|s| - 1]);
    }
  }

  /** Without a final newline the two checks agree. */
  lemma AsWrittenAgreesWithoutNewline(s: string)
    requires s == [] || s[|s| - 1] != '\n'
    ensures IsValidFilenameAsWritten(s) <==> IsValidFilename(s)
  {
    AsWrittenAcceptsTrailingNewline(s);
  }

  /** 'a' followed by a newline passes the check as written, although a
      newline is whitespace. */
  lemma NewlineNameAccepted()
    ensures IsValidFilenameAsWritten("a\n") && !IsValidFilename("a\n")
  {
    assert "a\n"[..1] == "a";
    assert Allowed('a');
    AsWrittenAcceptsTrailingNewline("a\n");
    assert IsSpace("a\n"[1]);
  }

  /** A word character of `\w`, ASCII letters, digits and `_`. */
  predicate IsWordChar(c: char) {
    ('a' <= c <= 'z') || ('A' <= c <= 'Z') || ('0' <= c <= '9') || c == '_'
  }

  /** What `re.sub(r'[^\w\.]', '_', ...)` makes of one character. */
  function SanitizeChar(c: char): char {
    if IsWordChar(c) || c == '.' then c else '_'
  }

  /** `_sanitize_filename(s)` */
  function Sanitize(s: string): (r: string)
    ensures |r| == |s|
  {
    if s == [] then [] else [SanitizeChar(s[0])] + Sanitize(s[1..])
  }

  /** Each character is kept when it is a word character or `.`, and is
      `_` otherwise. */
  lemma {:induction false} SanitizeAt(s: string, i: nat)
    requires i < |s|
    ensures Sanitize(s)[i] == (if IsWordChar(s[i]) || s[i] == '.' then s[i] else '_')
    decreases |s|
  {
    if i > 0 {
      SanitizeAt(s[1..], i - 1);
    }
  }

  /** Sanitising a sanitised name changes nothing. */
  lemma SanitizeIdempotent(s: string)
    ensures Sanitize(Sanitize(s)) == Sanitize(s)
  {
    var t := Sanitize(s);
    forall i | 0 <= i < |t|
      ensures Sanitize(t)[i] == t[i]
    {
      SanitizeAt(s, i);
      SanitizeAt(t, i);
    }
  }

  /** A name of word characters and dots is left alone. */
  lemma SanitizeKeepsWordText(s: string)
    requires forall i :: 0 <= i < |s| ==> IsWordChar(s[i]) || s[i] == '.'
    ensures Sanitize(s) == s
  {
    forall i | 0 <= i < |s|
      ensures Sanitize(s)[i] == s[i]
    {
      SanitizeAt(s, i);
    }
  }

  /** A sanitised non-empty name is valid. */
  lemma SanitizedIsValid(s: string)
    requires s != []
    ensures IsValidFilename(Sanitize(s))
  {
    var t := Sanitize(s);
    forall i | 0 <= i < |t|
      ensures Allowed(t[i])
    {
      SanitizeAt(s, i);
    }
  }

  /** Sanitising works character by character. */
  lemma {:induction false} SanitizeConcat(a: string, b: string)
    ensures Sanitize(a + b) == Sanitize(a) + Sanitize(b)
    decreases |a|
  {
    if a == [] {
      assert a + b == b;
    } else {
      assert (a + b)[0] == a[0] && (a + b)[1..] == a[1..] + b;
      SanitizeConcat(a[1..], b);
    }
  }

  /** The text an empty `dim_res` is shown as: `"".replace("", "dimensionless")`. */
  const Dimensionless := "dimensionless"

  /** The `dim_res` part of the figure's filename. */
  function DimResLabel(dimRes: string): (r: string)
    ensures r != ""
    ensures dimRes == "" ==> r == Dimensionless
    ensures dimRes != "" ==> r == dimRes
  {
    if dimRes == "" then Dimensionless else dimRes
  }

  /** The candidate filename
      'F_{title}_{dim_res}_X_{dim_1}_{x0}-{xn}_Y_{dim_2}_{y0}-{yn}.png', the
      four numbers already formatted. */
  function ContourFilename(title: string, dimRes: string, dim1: string, x0: string, xn: string,
                           dim2: string, y0: string, yn: string): string
  {
    "F_" + (title + "_" + DimResLabel(dimRes) + "_X_" + dim1 + "_" + x0 + "-" + xn + "_Y_" + dim2 + "_"
    + y0 + "-" + yn) + ".png"
  }

  /** The name kept for the figure: the candidate if valid, else its
      sanitised form. */
  function ChosenFilename(candidate: string): (r: string)
    ensures |r| == |candidate|
  {
    if IsValidFilename(candidate) then candidate else Sanitize(candidate)
  }

  /** The kept name is valid whenever the candidate is not empty. */
  lemma ChosenFilenameIsValid(candidate: string)
    requires candidate != []
    ensures IsValidFilename(ChosenFilename(candidate))
  {
    if !IsValidFilename(candidate) {
      SanitizedIsValid(candidate);
    }
  }

  /** Every candidate ends with '.png', so the check as written and the
      intended one agree on it. */
  lemma CandidateChecksAgree(title: string, dimRes: string, dim1: string, x0: string, xn: string,
                             dim2: string, y0: string, yn: string)
    ensures var c := ContourFilename(title, dimRes, dim1, x0, xn, dim2, y0, yn);
            IsValidFilenameAsWritten(c) <==> IsValidFilename(c)
  {
    var c := ContourFilename(title, dimRes, dim1, x0, xn, dim2, y0, yn);
    assert c[|c| - 1] == 'g';
    AsWrittenAgreesWithoutNewline(c);
  }

  /** Sanitising leaves the 'F_' prefix and the '.png' suffix in place. */
  lemma SanitizeKeepsFrame(middle: string)
    ensures Sanitize("F_" + middle + ".png") == "F_" + Sanitize(middle) + ".png"
  {
    SanitizeConcat("F_" + middle, ".png");
    SanitizeConcat("F_", middle);
    SanitizeKeepsWordText("F_");
    SanitizeKeepsWordText(".png");
  }

  /** A text framed by 'F_' and '.png' starts and ends with them. */
  lemma FrameEnds(middle: string)
    ensures var f := "F_" + middle + ".png";
            f[..2] == "F_" && f[|f| - 4..] == ".png"
  {
  }

  /** The kept name is the candidate or its sanitised form; either way it
      is valid, starts with 'F_' and ends with '.png'. */
  lemma ChosenFilenameShape(title: string, dimRes: string, dim1: string, x0: string, xn: string,
                            dim2: string, y0: string, yn: string)
    ensures var c := ContourFilename(title, dimRes, dim1, x0, xn, dim2, y0, yn);
            var f := ChosenFilename(c);
            IsValidFilename(f) && (f == c || f == Sanitize(c)) &&
            f[..2] == "F_" && f[|f| - 4..] == ".png"
  {
    var middle := title + "_" + DimResLabel(dimRes) + "_X_" + dim1 + "_" + x0 + "-" + xn + "_Y_" + dim2 + "_"
                  + y0 + "-" + yn;
    var c := ContourFilename(title, dimRes, dim1, x0, xn, dim2, y0, yn);
    assert c == "F_" + middle + ".png";
    ChosenFilenameIsValid(c);
    if IsValidFilename(c) {
      FrameEnds(middle);
    } else {
      SanitizeKeepsFrame(middle);
      FrameEnds(Sanitize(middle));
    }
  }

  // ---------------------------------------------------------------------
  // Axis samples

  /** The errors numpy raises on the sample requests. */
  datatype NumpyError =
    | NegativeCount      // `linspace` / `logspace` with fewer than zero samples: `ValueError`
    | ZeroStep           // `arange` with step 0: `ZeroDivisionError`

  /** `np.logspace(log10(start), log10(stop), num)`: the request is kept,
      the values are not computed. */
  datatype Samples =
    | LogSpaced(start: real, stop: real, num: nat)
    | Values(values: seq<real>)

  /** `int(r)`: truncation toward zero. */
  function Trunc(r: real): (n: int)
    ensures r >= 0.0 ==> n as real <= r < n as real + 1.0
    ensures r < 0.0 ==> n as real - 1.0 < r <= n as real
  {
    if r >= 0.0 then r.Floor else -((-r).Floor)
  }

  /** The smallest integer not below `r`. */
  function Ceil(r: real): (n: int)
    ensures r <= n as real < r + 1.0
  {
    -((-r).Floor)
  }

  /** The number of values `np.arange(start, stop, step)` produces. */
  function ARangeCount(start: real, stop: real, step: real): nat
    requires step != 0.0
  {
    var n := Ceil((stop - start) / step);
    if n < 0 then 0 else n
  }

  /** `np.arange(start, stop, step)`: `start + i*step` for each `i` below
      the count. */
  function ARange(start: real, stop: real, step: real): (r: Result<seq<real>, NumpyError>)
    ensures r.Err? <==> step == 0.0
  {
    if step == 0.0 then Err(ZeroStep)
    else Ok(seq(ARangeCount(start, stop, step), i => start + i as real * step))
  }

  /** With a positive step the values climb from `start` by `step`, all
      below `stop`, and one more step would reach `stop`. */
  lemma ARangeHalfOpen(start: real, stop: real, step: real)
    requires step > 0.0
    ensures var v := ARange(start, stop, step).value;
            (forall i :: 0 <= i < |v| ==> v[i] == start + i as real * step && start <= v[i] < stop) &&
            start + |v| as real * step >= stop
  {
    var q := (stop - start) / step;
    assert q * step == stop - start;
    var n := Ceil(q);
    var v := ARange(start, stop, step).value;
    forall i | 0 <= i < |v|
      ensures start <= v[i] < stop
    {
      assert i as real < q;
      assert i as real * step < q * step;
    }
    if n >= 0 {
      assert n as real * step >= q * step;
    }
  }

  /** `np.linspace(start, stop, num)`: `num` evenly spaced values, the last
      of them `stop` itself. */
  function LinSpace(start: real, stop: real, num: int): (r: Result<seq<real>, NumpyError>)
    ensures r.Err? <==> num < 0
    ensures r.Ok? ==> |r.value| == num
  {
    if num < 0 then Err(NegativeCount)
    else if num == 1 then Ok([start])
    else
      var delta := (stop - start) / (num - 1) as real;
      Ok(seq(num, i => if i == num - 1 then stop else start + i as real * delta))
  }

  /** From two samples on, the values start at `start`, end at `stop`, and
      neighbours are `(stop - start) / (num - 1)` apart. */
  lemma LinSpaceEvenlySpaced(start: real, stop: real, num: int)
    requires num >= 2
    ensures var v := LinSpace(start, stop, num).value;
            v[0] == start && v[num - 1] == stop &&
            forall i :: 0 <= i < num - 1 ==> v[i + 1] - v[i] == (stop - start) / (num - 1) as real
  {
    var delta := (stop - start) / (num - 1) as real;
    assert (num - 1) as real * delta == stop - start;
    var v := LinSpace(start, stop, num).value;
    forall i | 0 <= i < num - 1
      ensures v[i + 1] - v[i] == delta
    {
      if i + 1 == num - 1 {
        assert v[i] == start + i as real * delta;
        assert (i + 1) as real * delta == stop - start;
      } else {
        assert v[i + 1] == start + (i + 1) as real * delta;
      }
    }
  }

  /** `_generate_values(start, stop, step_interval, nstep, log)`: in count
      mode `int(step)` logarithmic or linear samples, otherwise stepping,
      where the logarithmic flag plays no part. */
  function GenerateValues(start: real, stop: real, stepInterval: real, nstep: bool, log: bool)
    : (r: Result<Samples, NumpyError>)
    ensures !nstep ==>
              r == (if stepInterval == 0.0 then Err(ZeroStep) else Ok(Values(ARange(start, stop, stepInterval).value)))
    ensures nstep && Trunc(stepInterval) < 0 ==> r == Err(NegativeCount)
    ensures nstep && !log && Trunc(stepInterval) >= 0 ==>
              r == Ok(Values(LinSpace(start, stop, Trunc(stepInterval)).value))
    ensures nstep && log && Trunc(stepInterval) >= 0 ==> r == Ok(LogSpaced(start, stop, Trunc(stepInterval)))
  {
    if nstep && log then
      var num := Trunc(stepInterval);
      if num < 0 then Err(NegativeCount) else Ok(LogSpaced(start, stop, num))
    else if nstep && !log then
      match LinSpace(start, stop, Trunc(stepInterval))
      case Err(e) => Err(e)
      case Ok(v) => Ok(Values(v))
    else
      match ARange(start, stop, stepInterval)
      case Err(e) => Err(e)
      case Ok(v) => Ok(Values(v))
  }

  /** The `IndexError` of indexing the samples of an axis that has none. */
  datatype FigureError = EmptyAxis

  /** The number of values an axis holds. */
  function SampleCount(s: Samples): nat {
    match s
    case LogSpaced(_, _, num) => num
    case Values(v) => |v|
  }

  /** In count mode a step below one, which the constructor's `step > 0`
      check lets through, asks for `int(step) == 0` samples: the axis is
      empty. */
  lemma CountBelowOneIsEmpty(start: real, stop: real, stepInterval: real, log: bool)
    requires 0.0 <= stepInterval < 1.0
    ensures var r := GenerateValues(start, stop, stepInterval, true, log);
            r.Ok? && SampleCount(r.value) == 0
  {
  }

  // ---------------------------------------------------------------------
  // Tick check

  /** The two `ValueError`s `check_ticks_in_range` raises, with the range
      of the offending axis. */
  datatype TickError =
    | XTicksOutside(lo: real, hi: real)
    | YTicksOutside(lo: real, hi: real)

  /** `all(lo <= tick <= hi for tick in ticks)` */
  predicate AllInRange(lo: real, hi: real, ticks: seq<real>) {
    forall i :: 0 <= i < |ticks| ==> lo <= ticks[i] <= hi
  }

  /** `check_ticks_in_range` on the axis limits `(xLo, xHi)`, `(yLo, yHi)`:
      the x ticks are checked first. */
  function CheckTicksInRange(xLo: real, xHi: real, yLo: real, yHi: real, ticksX: seq<real>, ticksY: seq<real>)
    : (r: Outcome<TickError>)
    ensures r.Pass? <==> AllInRange(xLo, xHi, ticksX) && AllInRange(yLo, yHi, ticksY)
    ensures r == Fail(XTicksOutside(xLo, xHi)) <==> !AllInRange(xLo, xHi, ticksX)
    ensures r == Fail(YTicksOutside(yLo, yHi)) <==> AllInRange(xLo, xHi, ticksX) && !AllInRange(yLo, yHi, ticksY)
  {
    if !AllInRange(xLo, xHi, ticksX) then Fail(XTicksOutside(xLo, xHi))
    else if !AllInRange(yLo, yHi, ticksY) then Fail(YTicksOutside(yLo, yHi))
    else Pass
  }

  /** On an inverted axis, whose left limit is above its right one, no
      tick is in range. */
  lemma InvertedAxisRejectsTicks(xLo: real, xHi: real, yLo: real, yHi: real, ticksX: seq<real>, ticksY: seq<real>)
    requires xLo > xHi && ticksX != []
    ensures CheckTicksInRange(xLo, xHi, yLo, yHi, ticksX, ticksY) == Fail(XTicksOutside(xLo, xHi))
  {
    assert !(xLo <= ticksX[0] <= xHi);
  }

  // ---------------------------------------------------------------------
  // The contour object

  /** The ten axis arguments of the constructor, in its order. */
  datatype AxisArgs = AxisArgs(label1: string, label2: string,
                               min1: real, max1: real, step1: real, dim1: string,
                               min2: real, max2: real, step2: real, dim2: string)

  /** The `_1` and `_2` arguments exchanged. */
  function Swapped(a: AxisArgs): AxisArgs {
    AxisArgs(a.label2, a.label1, a.min2, a.max2, a.step2, a.dim2, a.min1, a.max1, a.step1, a.dim1)
  }

  /** What `initialize_swapping_axes` stores: the arguments, exchanged when
      the axes are swapped. */
  function Arranged(swap: bool, a: AxisArgs): (r: AxisArgs)
    ensures r.label1 == (if swap then a.label2 else a.label1)
    ensures r.label2 == (if swap then a.label1 else a.label2)
  {
    if swap then Swapped(a) else a
  }

  /** Swapping twice restores the arguments. */
  lemma SwappedTwice(a: AxisArgs)
    ensures Swapped(Swapped(a)) == a
  {
  }

  /** The value checks of the constructor on the axis arguments. */
  predicate InRange(a: AxisArgs) {
    a.min1 < a.max1 && a.min2 < a.max2 && a.step1 > 0.0 && a.step2 > 0.0
  }

  /** The checks hold of the stored fields as well, swapped or not. */
  lemma ArrangedInRange(swap: bool, a: AxisArgs)
    requires InRange(a)
    ensures InRange(Arranged(swap, a))
  {
  }

  /** The exceptions the constructor raises. */
  datatype ContourError =
    | UnitError(message: string)
    | AssertionError(message: string)

  /** `unit_validation(dims)` against the set of names the unit registry
      defines: the first name it does not know. */
  function FirstUndefined(dims: seq<string>, defined: set<string>): (r: Option<string>)
    ensures r.None? <==> forall i :: 0 <= i < |dims| ==> dims[i] in defined
    ensures r.Some? ==> r.value in dims && r.value !in defined
  {
    if dims == [] then None
    else if dims[0] !in defined then Some(dims[0])
    else FirstUndefined(dims[1..], defined)
  }

  /** The message of `unit_validation`'s `UnitError`. */
  function UndefinedMessage(dim: string): string {
    "Dimension " + dim + " is not defined in the pint module"
  }

  /** The value checks of `Contour.__init__`, in order: the units, then
      the ranges and steps. */
  function ConstructorError(dimRes: string, a: AxisArgs, defined: set<string>): (r: Option<ContourError>)
    ensures r.None? <==> dimRes in defined && a.dim1 in defined && a.dim2 in defined && InRange(a)
    ensures r.Some? && r.value.AssertionError? ==> dimRes in defined && a.dim1 in defined && a.dim2 in defined
  {
    match FirstUndefined([dimRes, a.dim1, a.dim2], defined)
    case Some(d) => Some(UnitError(UndefinedMessage(d)))
    case None =>
      assert dimRes == [dimRes, a.dim1, a.dim2][0] && a.dim1 == [dimRes, a.dim1, a.dim2][1];
      assert a.dim2 == [dimRes, a.dim1, a.dim2][2];
      if !(a.min1 < a.max1) then Some(AssertionError("min_1 should be less than max_1"))
      else if !(a.min2 < a.max2) then Some(AssertionError("min_2 should be less than max_2"))
      else if !(a.step1 > 0.0) then Some(AssertionError("step_1 should be a positive number"))
      else if !(a.step2 > 0.0) then Some(AssertionError("step_2 should be a positive number"))
      else None
  }

  /** The labels of the x and y axes for the stored fields. */
  function DiagramLabels(swap: bool, fields: AxisArgs): (string, string) {
    if swap then (fields.label2, fields.label1) else (fields.label1, fields.label2)
  }

  /** Swapping the fields and then reading the labels back swapped cancel:
      the x axis is always labelled by the `label_1` argument. */
  lemma LabelsFollowArguments(swap: bool, a: AxisArgs)
    ensures DiagramLabels(swap, Arranged(swap, a)) == (a.label1, a.label2)
  {
  }

  /** The settings a `Contour` keeps as given. */
  datatype Settings = Settings(title: string, formula: string, dimRes: string, nstepX: bool, nstepY: bool,
                               xLog: bool, yLog: bool, swapAxes: bool, verbose: bool)

  /** `Contour`: the fields that its constructor and the methods below set. */
  class Contour {
    var title: string
    var formula: string
    var dimRes: string
    var nstepX: bool
    var nstepY: bool
    var xLog: bool
    var yLog: bool
    var swapAxes: bool
    var verbose: bool
    var label1: string
    var label2: string
    var min1: real
    var max1: real
    var step1: real
    var dim1: string
    var min2: real
    var max2: real
    var step2: real
    var dim2: string
    var labelX: Option<string>
    var labelY: Option<string>
    var filename: Option<string>

    /** The stored axis fields. */
    function Fields(): AxisArgs
      reads this
    {
      AxisArgs(label1, label2, min1, max1, step1, dim1, min2, max2, step2, dim2)
    }

    function Config(): Settings
      reads this
    {
      Settings(title, formula, dimRes, nstepX, nstepY, xLog, yLog, swapAxes, verbose)
    }

    /** The constructor's checks hold of the stored fields. No method
        relies on it: it records what the constructor has checked. */
    predicate Valid()
      reads this
    {
      InRange(Fields())
    }

    /** `Contour.__init__` once its checks have passed. Its call of
        `initialize_swapping_axes` is written out as the assignment of
        `Arranged`, which is what that method stores (see below). */
    constructor (title: string, formula: string, dimRes: string, axes: AxisArgs, nstepX: bool, nstepY: bool,
                 xLog: bool, yLog: bool, swapAxes: bool, verbose: bool)
      requires InRange(axes)
      ensures Config() == Settings(title, formula, dimRes, nstepX, nstepY, xLog, yLog, swapAxes, verbose)
      ensures Fields() == Arranged(swapAxes, axes)
      ensures labelX == None && labelY == None && filename == None
      ensures Valid()
    {
      this.title := title;
      this.formula := formula;
      this.dimRes := dimRes;
      this.nstepX := nstepX;
      this.nstepY := nstepY;
      this.xLog := xLog;
      this.yLog := yLog;
      this.swapAxes := swapAxes;
      this.verbose := verbose;
      var f := Arranged(swapAxes, axes);
      this.label1, this.label2 := f.label1, f.label2;
      this.min1, this.max1, this.step1, this.dim1 := f.min1, f.max1, f.step1, f.dim1;
      this.min2, this.max2, this.step2, this.dim2 := f.min2, f.max2, f.step2, f.dim2;
      labelX := None;
      labelY := None;
      filename := None;
      ArrangedInRange(swapAxes, axes);
    }

    /** `Contour(...)`: the value checks raise, or a new contour is built. */
    static method Create(title: string, formula: string, dimRes: string, axes: AxisArgs, nstepX: bool,
                         nstepY: bool, xLog: bool, yLog: bool, swapAxes: bool, verbose: bool,
                         defined: set<string>)
      returns (r: Result<Contour, ContourError>)
      ensures r.Err? <==> ConstructorError(dimRes, axes, defined).Some?
      ensures r.Err? ==> r.error == ConstructorError(dimRes, axes, defined).value
      ensures r.Ok? ==> fresh(r.value) && r.value.Valid() && r.value.Fields() == Arranged(swapAxes, axes)
      ensures r.Ok? ==>
                r.value.Config() == Settings(title, formula, dimRes, nstepX, nstepY, xLog, yLog, swapAxes, verbose)
      ensures r.Ok? ==> r.value.labelX == None && r.value.labelY == None && r.value.filename == None
    {
      var e := ConstructorError(dimRes, axes, defined);
      if e.Some? {
        return Err(e.value);
      }
      var c := new Contour(title, formula, dimRes, axes, nstepX, nstepY, xLog, yLog, swapAxes, verbose);
      return Ok(c);
    }

    /** `initialize_swapping_axes`: the `_1` and `_2` arguments go to the
        `_1` and `_2` fields, exchanged when `swap_axes` holds. */
    method InitializeSwappingAxes(label1: string, label2: string, min1: real, max1: real, step1: real,
                                  dim1: string, min2: real, max2: real, step2: real, dim2: string)
      modifies this`label1, this`label2, this`min1, this`max1, this`step1, this`dim1
      modifies this`min2, this`max2, this`step2, this`dim2
      ensures Fields() == Arranged(swapAxes, AxisArgs(
                label1, label2, min1, max1, step1, dim1, min2, max2, step2, dim2))
    {
      if swapAxes {
        this.label1 := label2;
        this.label2 := label1;
        this.min1 := min2;
        this.max1 := max2;
        this.step1 := step2;
        this.dim1 := dim2;
        this.min2 := min1;
        this.max2 := max1;
        this.step2 := step1;
        this.dim2 := dim1;
      } else {
        this.label1 := label1;
        this.label2 := label2;
        this.min1 := min1;
        this.max1 := max1;
        this.step1 := step1;
        this.dim1 := dim1;
        this.min2 := min2;
        this.max2 := max2;
        this.step2 := step2;
        this.dim2 := dim2;
      }
    }

    /** `initialize_diagram_labels`: the x and y labels, read back swapped
        when the axes are swapped. */
    method InitializeDiagramLabels()
      modifies this`labelX, this`labelY
      ensures labelX.Some? && labelY.Some?
      ensures (labelX.value, labelY.value) == DiagramLabels(swapAxes, Fields())
    {
      labelX := Some(if swapAxes then label2 else label1);
      labelY := Some(if swapAxes then label1 else label2);
    }

    /** `filename_for_saved_contour_figure` on the samples `xs`, `ys` of
        the two axes, given their first and last values already formatted
        with two decimals. An axis without samples makes `x_values[0]` or
        `y_values[0]` raise `IndexError`, and the filename stays as it was. */
    method FilenameForSavedContourFigure(xs: Samples, ys: Samples, x0: string, xn: string, y0: string, yn: string)
      returns (r: Outcome<FigureError>)
      modifies this`filename
      ensures r.Fail? <==> SampleCount(xs) == 0 || SampleCount(ys) == 0
      ensures r.Fail? ==> filename == old(filename)
      ensures r.Pass? ==> filename == Some(ChosenFilename(ContourFilename(title, dimRes, dim1, x0, xn, dim2, y0, yn)))
    {
      if SampleCount(xs) == 0 || SampleCount(ys) == 0 {
        return Fail(EmptyAxis);
      }
      var shown := if dimRes == "" then Dimensionless else dimRes;
      var candidate := "F_" + (title + "_" + shown + "_X_" + dim1 + "_" + x0 + "-" + xn + "_Y_" + dim2 + "_"
                       + y0 + "-" + yn) + ".png";
      CandidateChecksAgree(title, dimRes, dim1, x0, xn, dim2, y0, yn);
      if IsValidFilenameAsWritten(candidate) {
        filename := Some(candidate);
      } else {
        filename := Some(Sanitize(candidate));
      }
      r := Pass;
    }
  }

  /** Building a contour and labelling its diagram gives the x axis the
      `label_1` argument and the y axis the `label_2` argument, whether or
      not the axes are swapped. */
  method LabelledContour(title: string, formula: string, dimRes: string, axes: AxisArgs, nstepX: bool,
                         nstepY: bool, xLog: bool, yLog: bool, swapAxes: bool, verbose: bool)
    returns (c: Contour)
    requires InRange(axes)
    ensures c.labelX == Some(axes.label1) && c.labelY == Some(axes.label2)
  {
    c := new Contour(title, formula, dimRes, axes, nstepX, nstepY, xLog, yLog, swapAxes, verbose);
    c.InitializeDiagramLabels();
    LabelsFollowArguments(swapAxes, axes);
  }
}
