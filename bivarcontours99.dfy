/**
 * bivarcontours-99.py: the earlier `Contour`, whose `swap_axes` is the text
 * 'true' or 'false', whose samples are always stepped, and whose figure
 * filename is not checked.
 */
module Bivarcontours99 {
  import opened Outcomes
  import opened PyStrings
  import Bivarcontours

  /** `swap_axes.lower() == 'true'` */
  predicate SaysTrue(s: string) {
    Lower(s) == "true"
  }

  /** `swap_axes.lower() == 'false'` */
  predicate SaysFalse(s: string) {
    Lower(s) == "false"
  }

  /** `swap_axes.lower() in ["true", "false"]` */
  predicate IsSwapFlag(s: string) {
    SaysTrue(s) || SaysFalse(s)
  }

  /** An accepted flag says exactly one of the two. */
  lemma SwapFlagIsOneOfTwo(s: string)
    requires IsSwapFlag(s)
    ensures SaysTrue(s) <==> !SaysFalse(s)
  {
  }

  /** `c.lower() == l` for a lower-case ASCII letter `l` with upper-case
      form `u`: `c` is `l` or `u`. */
  lemma LowerCharIs(c: char, l: char, u: char)
    requires 'a' <= l <= 'z' && u as int == l as int - 32
    ensures LowerChar(c) == l <==> c == l || c == u
  {
  }

  /** `swap_axes.lower() == 'true'` holds exactly for the sixteen ways of
      writing 'true' in upper and lower case. */
  lemma LowerIsTrue(s: string)
    ensures Lower(s) == ['t', 'r', 'u', 'e'] <==>
              |s| == 4 && (s[0] == 't' || s[0] == 'T') && (s[1] == 'r' || s[1] == 'R') &&
              (s[2] == 'u' || s[2] == 'U') && (s[3] == 'e' || s[3] == 'E')
  {
    if |s| == 4 {
      LowerAt(s, 0);
      LowerAt(s, 1);
      LowerAt(s, 2);
      LowerAt(s, 3);
      var r := Lower(s);
      assert r == [LowerChar(s[0]), LowerChar(s[1]), LowerChar(s[2]), LowerChar(s[3])];
      LowerCharIs(s[0], 't', 'T');
      LowerCharIs(s[1], 'r', 'R');
      LowerCharIs(s[2], 'u', 'U');
      LowerCharIs(s[3], 'e', 'E');
    }
  }

  /** The message of the assertion on `swap_axes`. */
  const SwapMessage := "swap_axes should be either 'true' or 'false'"

  /** The value checks of `Contour.__init__`, in order: the units, the
      ranges and steps, then `swap_axes`. */
  function ConstructorError(dimRes: string, a: Bivarcontours.AxisArgs, swapAxes: string, defined: set<string>)
    : (r: Option<Bivarcontours.ContourError>)
    ensures r.None? <==> dimRes in defined && a.dim1 in defined && a.dim2 in defined &&
                         Bivarcontours.InRange(a) && IsSwapFlag(swapAxes)
    ensures Bivarcontours.ConstructorError(dimRes, a, defined).Some? ==>
              r == Bivarcontours.ConstructorError(dimRes, a, defined)
    ensures Bivarcontours.ConstructorError(dimRes, a, defined).None? && !IsSwapFlag(swapAxes) ==>
              r == Some(Bivarcontours.AssertionError(SwapMessage))
  {
    var e := Bivarcontours.ConstructorError(dimRes, a, defined);
    if e.Some? then e
    else if !IsSwapFlag(swapAxes) then Some(Bivarcontours.AssertionError(SwapMessage))
    else None
  }

  /** The figure filename, with `dim_res` as it is, empty or not. */
  function ContourFilename(title: string, dimRes: string, dim1: string, x0: string, xn: string,
                           dim2: string, y0: string, yn: string): string
  {
    "F_" + (title + "_" + dimRes + "_X_" + dim1 + "_" + x0 + "-" + xn + "_Y_" + dim2 + "_"
    + y0 + "-" + yn) + ".png"
  }

  /** With a non-empty `dim_res` the name is the later version's candidate;
      nothing checks it, so a title with a space gives an invalid name. */
  lemma FilenameIsUnchecked(title: string, dimRes: string, dim1: string, x0: string, xn: string,
                            dim2: string, y0: string, yn: string)
    ensures dimRes != "" ==>
              ContourFilename(title, dimRes, dim1, x0, xn, dim2, y0, yn)
                == Bivarcontours.ContourFilename(title, dimRes, dim1, x0, xn, dim2, y0, yn)
    ensures ' ' in title ==> !Bivarcontours.IsValidFilename(ContourFilename(title, dimRes, dim1, x0, xn, dim2, y0, yn))
  {
    if ' ' in title {
      var i :| 0 <= i < |title| && title[i] == ' ';
      var f := ContourFilename(title, dimRes, dim1, x0, xn, dim2, y0, yn);
      assert f[2 + i] == ' ';
      assert !Bivarcontours.Allowed(f[2 + i]);
    }
  }

  /** `set_values_for_contour_calc_with_scalars_scaled_to_base_units`: the
      samples of one axis, always `np.arange`. */
  function AxisSamples(start: real, stop: real, stepInterval: real): (r: Result<seq<real>, Bivarcontours.NumpyError>)
    ensures r.Err? <==> stepInterval == 0.0
  {
    Bivarcontours.ARange(start, stop, stepInterval)
  }

  /** The samples are those of the later version's stepping mode, whatever
      the logarithmic flag. */
  lemma SamplesAreStepped(start: real, stop: real, stepInterval: real, log: bool)
    ensures match AxisSamples(start, stop, stepInterval)
            case Ok(v) => Bivarcontours.GenerateValues(start, stop, stepInterval, false, log) == Ok(Bivarcontours.Values(v))
            case Err(e) => Bivarcontours.GenerateValues(start, stop, stepInterval, false, log) == Err(e)
  {
  }

  /** `check_ticks_in_range` is the later version's check: when both axes
      have ticks outside their range, the x axis is reported. */
  lemma TicksCheckedXFirst(xLo: real, xHi: real, yLo: real, yHi: real, ticksX: seq<real>, ticksY: seq<real>)
    ensures !Bivarcontours.AllInRange(xLo, xHi, ticksX) ==>
              Bivarcontours.CheckTicksInRange(xLo, xHi, yLo, yHi, ticksX, ticksY) ==
                Fail(Bivarcontours.XTicksOutside(xLo, xHi))
    ensures Bivarcontours.CheckTicksInRange(xLo, xHi, yLo, yHi, ticksX, ticksY).Pass? <==>
              (forall i :: 0 <= i < |ticksX| ==> xLo <= ticksX[i] <= xHi) &&
              (forall i :: 0 <= i < |ticksY| ==> yLo <= ticksY[i] <= yHi)
  {
  }

  /** `Contour` of this version: the fields that its constructor and the
      methods below set. */
  class Contour {
    var title: string
    var formula: string
    var dimRes: string
    var verbose: bool
    var areAxesSwapped: bool
    var label1: string
    var label2: string
    var min1: real
    var max1: real
    var step1: real
    var dim1: string
    var min2: real
    var max2: real
    var step2: real
    var dim2: string
    var labelX: Option<string>
    var labelY: Option<string>
    var filename: Option<string>

    /** The stored axis fields. */
    function Fields(): Bivarcontours.AxisArgs
      reads this
    {
      Bivarcontours.AxisArgs(label1, label2, min1, max1, step1, dim1, min2, max2, step2, dim2)
    }

    /** The constructor's checks hold of the stored fields. No method
        relies on it: it records what the constructor has checked. */
    predicate Valid()
      reads this
    {
      Bivarcontours.InRange(Fields())
    }

    /** `Contour.__init__` once its checks have passed. Its call of
        `initialize_swapping_axes` is written out as the assignment of
        `Arranged`, which is what that method stores (see below). */
    constructor (title: string, label1: string, label2: string, formula: string, dimRes: string,
                 min1: real, max1: real, step1: real, dim1: string,
                 min2: real, max2: real, step2: real, dim2: string, swapAxes: string, verbose: bool)
      requires min1 < max1 && min2 < max2 && step1 > 0.0 && step2 > 0.0 && IsSwapFlag(swapAxes)
      ensures areAxesSwapped <==> SaysTrue(swapAxes)
      ensures !areAxesSwapped <==> SaysFalse(swapAxes)
      ensures this.title == title && this.formula == formula && this.dimRes == dimRes && this.verbose == verbose
      ensures Fields() == Bivarcontours.Arranged(areAxesSwapped, Bivarcontours.AxisArgs(
                label1, label2, min1, max1, step1, dim1, min2, max2, step2, dim2))
      ensures labelX == None && labelY == None && filename == None
      ensures Valid()
    {
      var swapped := SaysTrue(swapAxes);
      areAxesSwapped := swapped;
      SwapFlagIsOneOfTwo(swapAxes);
      var a := Bivarcontours.AxisArgs(label1, label2, min1, max1, step1, dim1, min2, max2, step2, dim2);
      var f := Bivarcontours.Arranged(swapped, a);
      this.label1, this.label2 := f.label1, f.label2;
      this.min1, this.max1, this.step1, this.dim1 := f.min1, f.max1, f.step1, f.dim1;
      this.min2, this.max2, this.step2, this.dim2 := f.min2, f.max2, f.step2, f.dim2;
      labelX := None;
      labelY := None;
      filename := None;
      this.title := title;
      this.formula := formula;
      this.dimRes := dimRes;
      this.verbose := verbose;
      Bivarcontours.ArrangedInRange(swapped, a);
    }

    /** `Contour(...)`: the value checks raise, or a new contour is built. */
    static method Create(title: string, label1: string, label2: string, formula: string, dimRes: string,
                         min1: real, max1: real, step1: real, dim1: string,
                         min2: real, max2: real, step2: real, dim2: string, swapAxes: string, verbose: bool,
                         defined: set<string>)
      returns (r: Result<Contour, Bivarcontours.ContourError>)
      ensures var a := Bivarcontours.AxisArgs(label1, label2, min1, max1, step1, dim1, min2, max2, step2, dim2);
              r.Err? <==> ConstructorError(dimRes, a, swapAxes, defined).Some?
      ensures var a := Bivarcontours.AxisArgs(label1, label2, min1, max1, step1, dim1, min2, max2, step2, dim2);
              r.Err? ==> r.error == ConstructorError(dimRes, a, swapAxes, defined).value
      ensures r.Ok? ==> fresh(r.value) && r.value.Valid() && (r.value.areAxesSwapped <==> SaysTrue(swapAxes))
      ensures r.Ok? ==> r.value.Fields() == Bivarcontours.Arranged(r.value.areAxesSwapped, Bivarcontours.AxisArgs(
                          label1, label2, min1, max1, step1, dim1, min2, max2, step2, dim2))
    {
      var a := Bivarcontours.AxisArgs(label1, label2, min1, max1, step1, dim1, min2, max2, step2, dim2);
      var e := ConstructorError(dimRes, a, swapAxes, defined);
      if e.Some? {
        return Err(e.value);
      }
      var c := new Contour(title, label1, label2, formula, dimRes, min1, max1, step1, dim1,
                           min2, max2, step2, dim2, swapAxes, verbose);
      return Ok(c);
    }

    /** `initialize_swapping_axes`: the `_1` and `_2` arguments go to the
        `_1` and `_2` fields, exchanged when the axes are swapped. */
    method InitializeSwappingAxes(label1: string, label2: string, min1: real, max1: real, step1: real,
                                  dim1: string, min2: real, max2: real, step2: real, dim2: string)
      modifies this`label1, this`label2, this`min1, this`max1, this`step1, this`dim1
      modifies this`min2, this`max2, this`step2, this`dim2
      ensures Fields() == Bivarcontours.Arranged(areAxesSwapped, Bivarcontours.AxisArgs(
                label1, label2, min1, max1, step1, dim1, min2, max2, step2, dim2))
    {
      if areAxesSwapped {
        this.label1 := label2;
        this.label2 := label1;
        this.min1 := min2;
        this.max1 := max2;
        this.step1 := step2;
        this.dim1 := dim2;
        this.min2 := min1;
        this.max2 := max1;
        this.step2 := step1;
        this.dim2 := dim1;
      } else {
        this.label1 := label1;
        this.label2 := label2;
        this.min1 := min1;
        this.max1 := max1;
        this.step1 := step1;
        this.dim1 := dim1;
        this.min2 := min2;
        this.max2 := max2;
        this.step2 := step2;
        this.dim2 := dim2;
      }
    }

    /** `initialize_diagram_labels`: the x and y labels, read back swapped
        when the axes are swapped. */
    method InitializeDiagramLabels()
      modifies this`labelX, this`labelY
      ensures labelX.Some? && labelY.Some?
      ensures (labelX.value, labelY.value) == Bivarcontours.DiagramLabels(areAxesSwapped, Fields())
    {
      labelX := Some(if areAxesSwapped then label2 else label1);
      labelY := Some(if areAxesSwapped then label1 else label2);
    }

    /** `filename_for_saved_contour_figure`, given the four sample bounds
        already formatted with two decimals. */
    method FilenameForSavedContourFigure(x0: string, xn: string, y0: string, yn: string)
      modifies this`filename
      ensures filename == Some(ContourFilename(title, dimRes, dim1, x0, xn, dim2, y0, yn))
    {
      filename := Some("F_" + (title + "_" + dimRes + "_X_" + dim1 + "_" + x0 + "-" + xn + "_Y_" + dim2 + "_"
                       + y0 + "-" + yn) + ".png");
    }
  }

  /** Building a contour and labelling its diagram gives the x axis the
      `label_1` argument and the y axis the `label_2` argument, whatever
      `swap_axes` says. */
  method LabelledContour(title: string, label1: string, label2: string, formula: string, dimRes: string,
                         min1: real, max1: real, step1: real, dim1: string,
                         min2: real, max2: real, step2: real, dim2: string, swapAxes: string, verbose: bool)
    returns (c: Contour)
    requires min1 < max1 && min2 < max2 && step1 > 0.0 && step2 > 0.0 && IsSwapFlag(swapAxes)
    ensures c.labelX == Some(label1) && c.labelY == Some(label2)
  {
    c := new Contour(title, label1, label2, formula, dimRes, min1, max1, step1, dim1,
                     min2, max2, step2, dim2, swapAxes, verbose);
    c.InitializeDiagramLabels();
    Bivarcontours.LabelsFollowArguments(c.areAxesSwapped,
      Bivarcontours.AxisArgs(label1, label2, min1, max1, step1, dim1, min2, max2, step2, dim2));
  }
}
