/**
 * `remove_small_raster_values`: copies band 1 of a raster into a fresh
 * single-band raster of the same shape, driver, geo-transform and projection,
 * replacing every value below a tolerance by 0 and declaring 0 the nodata
 * value. Values are only compared, never computed with, so they are modelled
 * as reals.
 */
module RtcUtils {
  import opened Wrappers

  /** The default tolerance of the function's signature. */
  const DefaultTolerance: real := 0.003811

  /** A band: `rows` rows of `cols` values each. */
  type Grid = seq<seq<real>>

  predicate IsGrid(g: Grid, rows: nat, cols: nat) {
    |g| == rows && forall r :: 0 <= r < rows ==> |g[r]| == cols
  }

  /** The parts of a GDAL dataset the function reads or sets. */
  datatype Dataset = Dataset(
    driver: string,
    rows: nat,                 // RasterYSize
    cols: nat,                 // RasterXSize
    bands: seq<Grid>,          // band 1 is bands[0]
    noData: Option<real>,
    geoTransform: seq<real>,
    projection: string)

  /** Every band has the dataset's shape. */
  predicate WellFormed(d: Dataset) {
    forall b :: 0 <= b < |d.bands| ==> IsGrid(d.bands[b], d.rows, d.cols)
  }

  /** The rule for one cell: below the tolerance becomes 0, anything else is kept. */
  function CleanCell(v: real, tolerance: real): (r: real)
    ensures v < tolerance ==> r == 0.0
    ensures v >= tolerance ==> r == v
  {
    if v < tolerance then 0.0 else v
  }

  /** The band after the rule has been applied to every cell. */
  function CleanGrid(g: Grid, rows: nat, cols: nat, tolerance: real): (out: Grid)
    requires IsGrid(g, rows, cols)
    ensures IsGrid(out, rows, cols)
    ensures forall r, c :: 0 <= r < rows && 0 <= c < cols ==> out[r][c] == CleanCell(g[r][c], tolerance)
  {
    seq(rows, r requires 0 <= r < rows => seq(cols, c requires 0 <= c < cols => CleanCell(g[r][c], tolerance)))
  }

  /**
   * The output dataset: created by the input's driver with the input's
   * shape and one band, band 1 cleaned, nodata 0, geo-transform and
   * projection copied. `None` when the input has no band 1 to read.
   */
  function RemoveSmallRasterValuesSpec(input: Dataset, tolerance: real): (output: Option<Dataset>)
    requires WellFormed(input)
    ensures output.None? <==> input.bands == []
    ensures output.Some? ==>
      var d := output.value;
      WellFormed(d) && d.rows == input.rows && d.cols == input.cols && |d.bands| == 1 &&
      d.driver == input.driver && d.geoTransform == input.geoTransform && d.projection == input.projection &&
      d.noData == Some(0.0)
  {
    if input.bands == [] then None
    else
      Some(Dataset(input.driver, input.rows, input.cols, [CleanGrid(input.bands[0], input.rows, input.cols, tolerance)],
                   Some(0.0), input.geoTransform, input.projection))
  }

  /** The values of a two-dimensional array, row by row. */
  function GridOf(a: array2<real>): (g: Grid)
    reads a
    ensures IsGrid(g, a.Length0, a.Length1)
    ensures forall r, c :: 0 <= r < a.Length0 && 0 <= c < a.Length1 ==> g[r][c] == a[r, c]
  {
    seq(a.Length0, r requires 0 <= r < a.Length0 reads a =>
      seq(a.Length1, c requires 0 <= c < a.Length1 reads a => a[r, c]))
  }

  /**
   * The function as written: read band 1, fill a zeroed `rows x cols` array
   * cell by cell, then write it as the output's only band.
   */
  method RemoveSmallRasterValues(input: Dataset, tolerance: real) returns (output: Option<Dataset>)
    requires WellFormed(input)
    ensures output == RemoveSmallRasterValuesSpec(input, tolerance)
  {
    if |input.bands| == 0 {
      return None;
    }
    var sourceData := input.bands[0];
    var rows, cols := input.rows, input.cols;
    var outData := new real[rows, cols]((_, _) => 0.0);
    for row := 0 to rows
      invariant forall r, c :: 0 <= r < row && 0 <= c < cols ==> outData[r, c] == CleanCell(sourceData[r][c], tolerance)
    {
      for col := 0 to cols
        invariant forall r, c :: 0 <= r < row && 0 <= c < cols ==> outData[r, c] == CleanCell(sourceData[r][c], tolerance)
        invariant forall c :: 0 <= c < col ==> outData[row, c] == CleanCell(sourceData[row][c], tolerance)
      {
        if sourceData[row][col] < tolerance {
          outData[row, col] := 0.0;
        } else {
          outData[row, col] := sourceData[row][col];
        }
      }
    }
    var band := GridOf(outData);
    ghost var expected := CleanGrid(sourceData, rows, cols, tolerance);
    forall r | 0 <= r < rows
      ensures band[r] == expected[r]
    {
      assert forall c :: 0 <= c < cols ==> band[r][c] == expected[r][c];
    }
    assert band == expected;
    output := Some(Dataset(input.driver, rows, cols, [band], Some(0.0), input.geoTransform, input.projection));
  }

  // ---------------------------------------------------------------------------
  // Properties of the transform

  /** Cell by cell: below the tolerance is 0, at or above it is the source value. */
  lemma CellRule(input: Dataset, tolerance: real, r: nat, c: nat)
    requires WellFormed(input) && input.bands != [] && r < input.rows && c < input.cols
    ensures var out := RemoveSmallRasterValuesSpec(input, tolerance).value.bands[0];
      (input.bands[0][r][c] < tolerance ==> out[r][c] == 0.0) &&
      (input.bands[0][r][c] >= tolerance ==> out[r][c] == input.bands[0][r][c])
  {
  }

  /** Every output value is 0 or at least the tolerance. */
  lemma OutputRange(input: Dataset, tolerance: real, r: nat, c: nat)
    requires WellFormed(input) && input.bands != [] && r < input.rows && c < input.cols
    ensures var v := RemoveSmallRasterValuesSpec(input, tolerance).value.bands[0][r][c];
      v == 0.0 || v >= tolerance
  {
  }

  /** Applying the rule twice is applying it once. */
  lemma CleanCellIdempotent(v: real, tolerance: real)
    ensures CleanCell(CleanCell(v, tolerance), tolerance) == CleanCell(v, tolerance)
  {
  }

  /** Cleaning the output again with the same tolerance gives the same dataset. */
  lemma Idempotent(input: Dataset, tolerance: real)
    requires WellFormed(input) && input.bands != []
    ensures var once := RemoveSmallRasterValuesSpec(input, tolerance).value;
      RemoveSmallRasterValuesSpec(once, tolerance) == Some(once)
  {
    var once := RemoveSmallRasterValuesSpec(input, tolerance).value;
    var g := input.bands[0];
    var g1 := once.bands[0];
    var g2 := CleanGrid(g1, input.rows, input.cols, tolerance);
    forall r | 0 <= r < input.rows
      ensures g2[r] == g1[r]
    {
      forall c | 0 <= c < input.cols
        ensures g2[r][c] == g1[r][c]
      {
        CleanCellIdempotent(g[r][c], tolerance);
      }
    }
    assert g2 == g1;
  }

  /** With the default tolerance, every kept value is at least 0.003811 and a second pass changes nothing. */
  lemma DefaultToleranceCleaning(input: Dataset, r: nat, c: nat)
    requires WellFormed(input) && input.bands != [] && r < input.rows && c < input.cols
    ensures var once := RemoveSmallRasterValuesSpec(input, DefaultTolerance).value;
      (once.bands[0][r][c] == 0.0 || once.bands[0][r][c] >= 0.003811) &&
      RemoveSmallRasterValuesSpec(once, DefaultTolerance) == Some(once)
  {
    OutputRange(input, DefaultTolerance, r, c);
    Idempotent(input, DefaultTolerance);
  }

  /** Only band 1 matters: inputs that agree on it and on the metadata give the same output. */
  lemma OnlyBandOneRead(a: Dataset, b: Dataset, tolerance: real)
    requires WellFormed(a) && WellFormed(b) && a.bands != [] && b.bands != []
    requires a.bands[0] == b.bands[0] && a.rows == b.rows && a.cols == b.cols
    requires a.driver == b.driver && a.geoTransform == b.geoTransform && a.projection == b.projection
    ensures RemoveSmallRasterValuesSpec(a, tolerance) == RemoveSmallRasterValuesSpec(b, tolerance)
  {
  }
}
