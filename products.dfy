/**
 * Naming conventions and raster-conversion command lines shared by both
 * generations of the driver: how a band file of the terrain-corrected product
 * is recognised, which polarization it carries, what the final GeoTIFF and
 * its metadata sidecar are called, and the three GDAL commands that turn a
 * band into a tiled, compressed GeoTIFF with overviews.
 */
module Products {
  import opened Strings

  /** The scratch GeoTIFF every band conversion goes through. */
  const TempFile: string := "temp.tif"

  /** The directory that receives the final products. */
  const OutputDir: string := "/output/"

  /** `file_name.endswith(".img")`: the band rasters inside a `.data` directory. */
  predicate IsBandImage(fileName: string) {
    EndsWith(fileName, ".img")
  }

  /**
   * `file_name[-6:-4]`: the two characters before a four-character extension;
   * shorter names give what is left of that window, possibly nothing.
   */
  function Polarization(fileName: string): (pol: string)
    ensures |pol| == if |fileName| >= 6 then 2 else if |fileName| > 4 then |fileName| - 4 else 0
    ensures |fileName| >= 4 ==> pol == fileName[|fileName| - 4 - |pol|..|fileName| - 4]
  {
    Slice(fileName, -6, -4)
  }

  /** A band written as `<stem><pol>.img` with a two-letter polarization yields exactly that polarization. */
  lemma PolarizationOfBand(stem: string, pol: string)
    requires |pol| == 2
    ensures IsBandImage(stem + pol + ".img")
    ensures Polarization(stem + pol + ".img") == pol
  {
    var name := stem + pol + ".img";
    assert name[|name| - 4..] == ".img";
    assert name[|name| - 6..|name| - 4] == pol;
  }

  /** `/output/{granule}_{pol}_RTC.tif` */
  function OutputTif(granule: string, pol: string): (path: string)
    ensures |path| == |OutputDir| + |granule| + |pol| + 9
    ensures path[..|OutputDir|] == OutputDir && EndsWith(path, "_RTC.tif")
  {
    OutputDir + granule + "_" + pol + "_RTC.tif"
  }

  /** Reads the polarization back out of an output name for a known granule. */
  function PolarizationOfOutput(granule: string, path: string): string
    requires |path| >= |OutputDir| + |granule| + 9
  {
    path[|OutputDir| + |granule| + 1..|path| - 8]
  }

  /** The output name determines the polarization: distinct bands never share an output file. */
  lemma OutputTifRoundTrip(granule: string, pol: string)
    ensures PolarizationOfOutput(granule, OutputTif(granule, pol)) == pol
  {
    var path := OutputTif(granule, pol);
    assert path == OutputDir + granule + "_" + pol + "_RTC.tif";
    assert path[|OutputDir| + |granule| + 1..|path| - 8] == pol;
  }

  /** `{tif_file_name}.xml`, the companion metadata document of an RTC GeoTIFF. */
  function Sidecar(tif: string): string {
    tif + ".xml"
  }

  /** `input_granule[17:21]`: the year field of a Sentinel-1 granule identifier. */
  function AcquisitionYear(granule: string): (year: string)
    ensures |granule| >= 21 ==> year == granule[17..21]
    ensures 17 < |granule| < 21 ==> year == granule[17..]
    ensures |year| == if |granule| >= 21 then 4 else if |granule| > 17 then |granule| - 17 else 0
  {
    Slice(granule, 17, 21)
  }

  /** For an identifier `<17-character mission/mode/product prefix><yyyy>...` the year is exactly `yyyy`. */
  lemma AcquisitionYearOfGranule(prefix: string, year: string, rest: string)
    requires |prefix| == 17 && |year| == 4
    ensures AcquisitionYear(prefix + year + rest) == year
  {
    var g := prefix + year + rest;
    assert g[17..21] == year;
  }

  /** `gdal_translate -of GTiff -a_nodata 0 <band> temp.tif` */
  function TranslateCommand(inputFile: string): seq<string> {
    ["gdal_translate", "-of", "GTiff", "-a_nodata", "0", inputFile, TempFile]
  }

  /** `gdaladdo -r average temp.tif 2 4 8 16` */
  function OverviewCommand(): seq<string> {
    ["gdaladdo", "-r", "average", TempFile, "2", "4", "8", "16"]
  }

  /** `gdal_translate -co TILED=YES -co COMPRESS=DEFLATE -co COPY_SRC_OVERVIEWS=YES temp.tif <output>` */
  function TileCommand(outputFile: string): seq<string> {
    ["gdal_translate", "-co", "TILED=YES", "-co", "COMPRESS=DEFLATE", "-co", "COPY_SRC_OVERVIEWS=YES", TempFile, outputFile]
  }
}
