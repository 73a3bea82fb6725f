# Radiometric terrain correction drivers, modelled in Dafny

The repository wraps the Sentinel-1 Toolbox (`gpt`) and GDAL. It turns one
Sentinel-1 GRD granule into radiometrically terrain-corrected GeoTIFFs, one
per polarization, under `/output/`. The work is done by a driver script that:

1. asks the catalog (CMR) for the granule's download URL;
2. downloads the granule;
3. chains the toolbox operators, each consuming the previous stage's
   product (a `.dim` descriptor beside a `.data` directory);
4. removes every product as soon as the next stage has consumed it;
5. converts every band image of the final product into a tiled, compressed
   GeoTIFF with overviews and an ArcGIS metadata sidecar.

This project models three parts of the repository:

- **The current driver** (`src/rtc.py`), module `Rtc`. Each external
  command is fail-fast: a nonzero exit status ends the run with that
  status, as a parent process sees it (folded into 0..255, so a tool killed
  by signal N ends the run with 256 - N). There are six stages: orbit, calibration, speckle filter,
  multilook, terrain flattening and terrain correction.
- **The legacy driver** (`rtc.py`), module `LegacyRtc`. It runs four stages,
  ignores exit statuses, and takes the *last* data link of the catalog
  entry instead of the first.
- **The raster clean-up utility** (`src/rtc_utils.py`), module `RtcUtils`.
  It copies band 1 of a raster, replacing each value below a tolerance by
  0, which becomes the nodata value.

## How the environment is modelled

Module `Os` describes the process the scripts run in:

- **Files and directories.** The filesystem is a set of file paths and a
  set of directory paths.
- **The trace.** Every observable action is appended to a trace of
  `Event`s: a command with its exit status, an unlink, a tree removal, or
  a file the script writes itself.
- **The status.** A run is `Running`, `Exited(code)` or
  `Crashed(failure)`. An exit code is recorded as the parent sees it,
  `code % 256` (`Os.ProcessStatus`). Once it is no longer running, every further step is
  a no-op.
- **The environment oracle.** External programs are opaque, and an `Env`
  value decides:
  - the exit status of the command issued at each trace position;
  - the names `os.listdir` returns.
- **What a successful tool leaves on disk.**
  - `gpt … -t T` leaves `T.dim` and `T.data`.
  - `gdal_translate` leaves its last argument.
- **Failing filesystem calls.** Unlinking or removing a missing path
  raises `FileNotFoundError`, and so does listing a missing directory.
  Each is a `Crashed(NoSuchPath(p))` status.

The `Os.Host` class holds this state in mutable fields. Its methods are
proved to change it exactly as the matching pure function says. Each
driver method is in turn proved equal to a pure `…Spec` function of the old
state, for example `h.State() == Rtc.GptSpec(old(h.State()), h.env, …)`.
The lemmas state what the drivers promise in terms of those functions.

Two facts about the drivers are worth stating up front:

- Neither driver produces layover-mask or incidence-angle bands. Every
  `.img` band is treated as a radiometric band named by the two characters
  before `.img`.
- The legacy driver deletes a product even when its consumer failed,
  because it never looks at exit statuses
  (`LegacyRtc.OrbitFailureIsNotFatal`).

## Model

| member | source | states |
|---|---|---|
| Strings.ReplaceAllAbsent | src/rtc.py:82 | `str.replace` leaves a string without the pattern unchanged |
| Strings.ReplaceSuffix | src/rtc.py:143 | replacing `.dim` in `<name>.dim` (name without '.') rewrites only the extension |
| Strings.SliceBound | src/rtc.py:146 | Python's normalisation of a slice bound against length n: in-range bounds kept, negative ones counted from the end, and clamped to 0 below and to n above |
| Strings.LastSegment | src/rtc.py:28 | `url.split("/")[-1]` is the longest '/'-free suffix of the URL, preceded by '/' when shorter than the URL |
| Strings.LastSegmentOfPath | src/rtc.py:28 | for `dir/name` the last segment is `name` |
| Products.Polarization | src/rtc.py:146 | `file_name[-6:-4]`: the two characters before a 4-character extension, fewer for short names |
| Products.PolarizationOfBand | src/rtc.py:145-146 | `<stem><pol>.img` is a band image whose polarization is `pol` |
| Products.OutputTif | src/rtc.py:147 | the output path lies in `/output/`, ends in `_RTC.tif` and has the stated length |
| Products.OutputTifRoundTrip | src/rtc.py:147 | the polarization can be read back from the output name, so distinct polarizations never share an output |
| Products.AcquisitionYear | src/rtc.py:113 | `input_granule[17:21]`: characters 17 to 20 for ids of at least 21 characters, everything from 17 for ids of 18 to 20, empty for shorter ones |
| Products.AcquisitionYearOfGranule | src/rtc.py:113 | a granule id `<17 chars><yyyy>…` yields exactly `yyyy` |
| Os.TargetAfterFlag | src/rtc.py:88 | the word after the first `-t` is the target `gpt` writes |
| Os.AfterCall | src/rtc.py:73 | running a command only extends the trace and keeps the status |
| Os.AfterUnlink | src/rtc.py:80 | on a running world `os.unlink` removes an existing file and logs it; a missing file crashes the run with `NoSuchPath`; a halted world is unchanged |
| Os.AfterRmTree | src/rtc.py:83 | on a running world `shutil.rmtree` removes an existing directory and logs it; a missing one crashes the run with `NoSuchPath`; a halted world is unchanged |
| Os.AfterWrite | src/rtc.py:32-35 | on a running world writing a named file adds it and logs the write; the empty name crashes the run; a halted world is unchanged |
| Os.AfterListDir | src/rtc.py:144 | listing leaves files, directories and trace alone; the run keeps running exactly when the directory exists, and crashes with `NoSuchPath` otherwise |
| Os.AfterExit | src/rtc.py:75 | `exit(code)` on a running world sets `Exited(code % 256)`, which is `code` itself for 1..255; a halted world is unchanged |
| Os.ProcessStatus | src/rtc.py:75 | the status a parent sees is in 0..255, equals the code for 0..255, is 256 + code for -256..-1, and is congruent to the code mod 256 |
| Os.AfterRaise | rtc.py:47 | an uncaught exception turns a running world into `Crashed(Raised(exception))`; a halted world is unchanged |
| Os.Host.constructor | src/rtc.py:123 | a run starts with the given files and directories, an empty trace, running |
| Os.Host.Call | src/rtc.py:73 | the host's new state is `AfterCall`; the returned code is the environment's exit status |
| Os.Host.Unlink | src/rtc.py:80 | the host's new state is `AfterUnlink` |
| Os.Host.RmTree | src/rtc.py:83 | the host's new state is `AfterRmTree` |
| Os.Host.Write | src/rtc.py:32-35 | the host's new state is `AfterWrite` |
| Os.Host.ListDir | src/rtc.py:144 | the host's new state is `AfterListDir`; the names are the environment's listing |
| Os.Host.Exit | src/rtc.py:75 | the host's new state is `AfterExit` |
| Os.Host.Raise | rtc.py:47 | the host's new state is `AfterRaise` |
| Rtc.FirstDataHref | src/rtc.py:50-53 | `None` iff no link is a data link; otherwise the href of the first data link, with no data link before it |
| Rtc.DownloadUrl | src/rtc.py:48-53 | `Some` iff there is an entry and the first entry has a data link; then the href of its first data link |
| Rtc.DownloadFile | src/rtc.py:27-36 | returns the URL's last segment and writes that file |
| Rtc.FailFastKept | src/rtc.py:74-75 | the fail-fast discipline (a nonzero status is the last event and the run exited with it, folded mod 256; the run exits only that way) survives steps that run no command and do not exit |
| Rtc.SystemCallSpec | src/rtc.py:71-76 | records the command with its status; nonzero status exits with that status folded mod 256; zero keeps running with the tool's outputs |
| Rtc.SystemCall | src/rtc.py:71-76 | the host's new state is `SystemCallSpec` |
| Rtc.CleanupSpec | src/rtc.py:79-83 | running afterwards iff the descriptor existed and, for `.dim`, its `.data` directory too; both are then removed; each missing path crashes the run |
| Rtc.Cleanup | src/rtc.py:79-83 | the host's new state is `CleanupSpec` |
| Rtc.GptCommandOutputs | src/rtc.py:88 | a `gpt` stage command writes `<command>.dim` and `<command>.data` |
| Rtc.StageDataDir | src/rtc.py:91 | a stage's descriptor ends in `.dim` and its replace-derived data directory is `<command>.data` |
| Rtc.GptSpec | src/rtc.py:86-91 | a failing stage exits with its code without touching its input; a succeeding one logs the command, adds its products and retires its input |
| Rtc.Gpt | src/rtc.py:86-91 | returns `<command>.dim`; the host's new state is `GptSpec` |
| Rtc.ChainSpec | src/rtc.py:136-141 | chaining stages keeps fail-fast |
| Rtc.OutputsWrittenByStages | src/rtc.py:136-141 | every product of the chain is written by one of its stages |
| Rtc.StageNamesInjective | src/rtc.py:91 | distinct stage names give distinct products |
| Rtc.ValidTail | src/rtc.py:136-141 | no later stage writes the first stage's products |
| Rtc.OutputsAreDescriptors | src/rtc.py:91 | every chain product is a `.dim` descriptor |
| Rtc.RetiredAreOutputs | src/rtc.py:136-141 | only chain products are retired inside the chain |
| Rtc.ChainTrace | src/rtc.py:136-141 | a chain that keeps running has produced exactly the all-success trace |
| Rtc.ChainArtifacts | src/rtc.py:136-141 | after a finished chain the input and every consumed product are gone, the last product is present, nothing else changed |
| Rtc.CleanupRunsNothing | src/rtc.py:79-83 | retiring a product runs no command |
| Rtc.NoRunNoCommands | src/rtc.py:72 | a trace without commands logs no command lines |
| Rtc.ChainCommandLog | src/rtc.py:87-89 | the chain's log is its stage command lines, in order |
| Rtc.ChainUnlinkCount | src/rtc.py:79-90 | inside the chain the input and every consumed product are unlinked exactly once, nothing else is |
| Rtc.ChainRmTreeCount | src/rtc.py:82-90 | inside the chain every consumed data directory is removed exactly once, nothing else is |
| Rtc.RetiresAfterSuccessAppend | src/rtc.py:89-90 | the removal-after-success property survives concatenation |
| Rtc.ChainRetiresAfterSuccess | src/rtc.py:89-90 | in the chain every removal comes right after a command that exited with status 0 |
| Rtc.ArcgisXmlSpec | src/rtc.py:103-120 | writes the sidecar, made from granule, polarization and acquisition year, and nothing else changes |
| Rtc.CreateArcgisXml | src/rtc.py:103-120 | the host's new state is `ArcgisXmlSpec` |
| Rtc.GeotiffSpec | src/rtc.py:94-100 | three fail-fast GDAL commands, then `temp.tif` retired; when still running, the three commands succeeded and were logged, the output was added, `temp.tif` is gone and directories are unchanged |
| Rtc.CreateGeotiffFromImg | src/rtc.py:94-100 | the host's new state is `GeotiffSpec` |
| Rtc.ConversionOutputs | src/rtc.py:94-100 | the first `gdal_translate` writes `temp.tif`, `gdaladdo` writes no new file, the second `gdal_translate` writes the output GeoTIFF |
| Rtc.BandStep | src/rtc.py:145-149 | one listing entry keeps fail-fast |
| Rtc.BandLoopSpec | src/rtc.py:144-149 | the band loop keeps fail-fast |
| Rtc.ThreeRunsCommands | src/rtc.py:97-99 | a conversion's events log exactly its three commands |
| Rtc.ThreeRunsRemovals | src/rtc.py:100 | a conversion unlinks only `temp.tif`, once |
| Rtc.BandImageFacts | src/rtc.py:145-149 | one band image logs its three GDAL commands and unlinks `temp.tif` once, removing no directory |
| Rtc.ProductsInOutputDir | src/rtc.py:147-149 | every band product is an absolute path |
| Rtc.BandStepSuccess | src/rtc.py:145-149 | a running band step adds the GeoTIFF and sidecar, retires `temp.tif` and leaves directories alone; non-images change nothing |
| Rtc.BandLoopSuccess | src/rtc.py:144-149 | a finished band loop leaves the all-success trace, every product, no `temp.tif` when it made one, unchanged directories |
| Rtc.BandFilesCons | src/rtc.py:144-149 | the loop's file set unrolled by one entry |
| Rtc.NoImagesNoProducts | src/rtc.py:145 | a listing without `.img` files yields no products |
| Rtc.HasBandImageCons | src/rtc.py:145 | a listing has an image iff its head is one or its tail has one |
| Rtc.TempNotProduct | src/rtc.py:147 | `temp.tif` is never a band product |
| Rtc.BandCommandLog | src/rtc.py:144-149 | the loop logs three commands per band image, in listing order |
| Rtc.BandRemovals | src/rtc.py:144-149 | the loop unlinks `temp.tif` once per band image and nothing else |
| Rtc.MainSpec | src/rtc.py:127-130 | no URL exits with status 1 and changes nothing else; otherwise fail-fast is kept |
| Rtc.ProcessSpec | src/rtc.py:134-150 | download, chain and band phase keep fail-fast |
| Rtc.BandPhaseSpec | src/rtc.py:143-150 | the band phase keeps fail-fast |
| Rtc.RunMain | src/rtc.py:123-150 | the host's new state is `MainSpec` |
| Rtc.RunChain | src/rtc.py:136-141 | the six `gpt` calls in order: the host's new state is `ChainSpec` over the six stages and the returned file is `Terrain-Correction.dim` |
| Rtc.ProcessBands | src/rtc.py:143-150 | the host's new state is `BandPhaseSpec` |
| Rtc.CommandsAppend | src/rtc.py:72 | the log of a concatenation is the concatenation of the logs |
| Rtc.StagesValid | src/rtc.py:136-141 | the six stage names are product names and pairwise distinct |
| Rtc.OutputsSplit | src/rtc.py:136-141 | a chain's products are the consumed ones plus the last |
| Rtc.StagesOutputs | src/rtc.py:141-143 | the chain ends in `Terrain-Correction.dim` whose data directory is `Terrain-Correction.data` |
| Rtc.MainTrace | src/rtc.py:123-150 | a run that finishes normally found a URL, and its trace is download, six stages, band conversions, final cleanup |
| Rtc.ProcessTrace | src/rtc.py:134-150 | the trace of a normally finishing download-and-process |
| Rtc.BandPhaseSuccess | src/rtc.py:143-150 | a finished band phase adds the band products, retires `temp.tif` and the terrain-corrected pair |
| Rtc.MainArtifacts | src/rtc.py:134-150 | at the end of a normal run the download, every stage product and `temp.tif` are gone, every band product is present, nothing else changed |
| Rtc.DownloadAndChain | src/rtc.py:134-141 | download then chain leaves only the terrain-corrected pair of products |
| Rtc.ChainOfDownload | src/rtc.py:134-141 | a chain that consumes the downloaded file leaves only its last product |
| Rtc.ProductsNotTc | src/rtc.py:147-150 | band products never coincide with the terrain-corrected descriptor |
| Rtc.MainRetiresOnce | src/rtc.py:134-150 | in a normal run the download and every stage descriptor are unlinked exactly once, `temp.tif` once per band image, every data directory removed exactly once |
| Rtc.MainChainFacts | src/rtc.py:136-143 | facts about the six literal stages the whole-run lemmas use |
| Rtc.LastNotRetired | src/rtc.py:141-150 | the chain's last product is not retired inside the chain |
| Rtc.MainCommandLog | src/rtc.py:123-150 | a normal run logs the six stage commands, then three commands per band image |
| Rtc.MainLogParts | src/rtc.py:134-150 | the download and the final cleanup log nothing |
| Rtc.CommandsAppend4 | src/rtc.py:72 | the log of four concatenated traces |
| Rtc.LogOfParts | src/rtc.py:72 | the log of a trace with silent ends |
| Rtc.StageCommandsAgree | src/rtc.py:136-141 | the generic chain issues exactly the six written-out `gpt` command lines |
| Rtc.OrbitLine | src/rtc.py:136 | the orbit stage reads the downloaded file: `gpt Apply-Orbit-File -Ssource=<file> -t Apply-Orbit-File` |
| Rtc.CalibrationLine | src/rtc.py:137 | calibration reads `Apply-Orbit-File.dim` and asks for beta0 only |
| Rtc.SpeckleLine | src/rtc.py:138 | the speckle filter reads `Calibration.dim`, with no parameters |
| Rtc.MultilookLine | src/rtc.py:139 | multilooking reads `Speckle-Filter.dim` with 3 range and 3 azimuth looks |
| Rtc.FlatteningLine | src/rtc.py:140 | terrain flattening reads `Multilook.dim` with re-gridding off |
| Rtc.CorrectionLine | src/rtc.py:141 | terrain correction reads `Terrain-Flattening.dim` at 30 m pixel spacing on the SRTM 1Sec HGT DEM |
| LegacyRtc.LastDataHref | rtc.py:46-50 | `None` iff no link is a data link; otherwise the href of the last data link, with no data link after it |
| LegacyRtc.LegacyDownloadUrl | rtc.py:46-50 | `None` (the `IndexError`) iff there is no entry; `""` without a data link; otherwise the last data link's href |
| LegacyRtc.GetDownloadUrl | rtc.py:37-50 | the loop returns `LegacyDownloadUrl` |
| LegacyRtc.SingleLinkAgrees | rtc.py:46-50 | with one data link both drivers pick it |
| LegacyRtc.TwoLinksDiverge | rtc.py:47-49 | with two data links the current driver picks the first, the legacy one the last |
| LegacyRtc.NoLinkDiverges | rtc.py:46-50 | without a data link the current driver finds no URL, the legacy one the empty string |
| LegacyRtc.DeleteDimFilesSpec | rtc.py:68-70 | never exits; running iff `name.dim` and `name.data` existed, both then removed; each missing path crashes |
| LegacyRtc.DeleteDimFiles | rtc.py:68-70 | the host's new state is `DeleteDimFilesSpec` |
| LegacyRtc.LegacyGptOutputs | rtc.py:84-96 | a legacy `gpt` command writes its `-t` target's pair |
| LegacyRtc.OrbitLine | rtc.py:84 | the orbit command line |
| LegacyRtc.CalibrationLine | rtc.py:88 | the calibration command line |
| LegacyRtc.FlatteningLine | rtc.py:92 | the terrain-flattening command line |
| LegacyRtc.CorrectionLine | rtc.py:96 | the terrain-correction command line, with its fixed EPSG:32613 projection |
| LegacyRtc.ChainTargets | rtc.py:84-97 | the four stages write `Orb`, `Cal`, `TF` and `TC` pairs, all distinct |
| LegacyRtc.OrbitStep | rtc.py:84-85 | the orbit command runs whatever its status, then the download is unlinked |
| LegacyRtc.StageStep | rtc.py:88-97 | a stage runs whatever its status, then its predecessor's pair is retired |
| LegacyRtc.LegacyChainSpec | rtc.py:83-97 | the chain never exits |
| LegacyRtc.LegacyChainTrace | rtc.py:83-97 | a chain that keeps running has the four-command trace |
| LegacyRtc.OrbitFailureIsNotFatal | rtc.py:84-89 | a failed orbit step still unlinks the download and issues calibration, then crashes on the missing `Orb.dim` |
| LegacyRtc.SameOutputPath | rtc.py:103-107 | the legacy output path equals the current driver's |
| LegacyRtc.ConvertBandSpec | rtc.py:105-108 | a conversion never exits |
| LegacyRtc.ConvertBandOutcome | rtc.py:105-108 | a conversion keeps running iff the translation succeeded or an earlier `temp.tif` exists; then it logs the three commands, adds the output iff tiling succeeded, removes `temp.tif` |
| LegacyRtc.ThreeRunsOneRemoval | rtc.py:105-108 | three commands and an unlink log the three commands |
| LegacyRtc.LegacyBandStep | rtc.py:100-108 | one listing entry never exits |
| LegacyRtc.LegacyBandStepOutcome | rtc.py:100-108 | a running band step logs the band's three commands and leaves no `temp.tif`; non-images change nothing |
| LegacyRtc.BandPaths | rtc.py:103-107 | the band's paths and command lines are the current driver's with `TC.data` |
| LegacyRtc.LegacyBandLoopSpec | rtc.py:99-108 | the band loop never exits |
| LegacyRtc.LegacyBandLoopOutcome | rtc.py:99-108 | a finished loop logs the current driver's band commands, leaves directories alone and no `temp.tif` |
| LegacyRtc.LegacyBandLoopLog | rtc.py:99-108 | a running legacy band loop logs, for each `.img` name in listing order, the same three GDAL command lines as the current driver |
| LegacyRtc.LegacyTempStaysGone | rtc.py:99-108 | once `temp.tif` is gone no later iteration leaves it behind |
| LegacyRtc.LegacyMainSpec | rtc.py:73-109 | no entry raises `IndexError` and changes nothing else; the run never exits |
| LegacyRtc.LegacyProcessSpec | rtc.py:79-109 | download, chain and band phase never exit |
| LegacyRtc.LegacyBandPhaseSpec | rtc.py:99-109 | the band phase never exits |
| LegacyRtc.RunLegacyMain | rtc.py:73-109 | the host's new state is `LegacyMainSpec` |
| LegacyRtc.ConvertBands | rtc.py:99-109 | the host's new state is `LegacyBandPhaseSpec` |
| LegacyRtc.LegacyMainOutcome | rtc.py:73-109 | a normally finishing run had an entry, logged the four stage commands then the band commands, and removed the `TC` pair and `temp.tif` |
| LegacyRtc.LegacyDownloadAndChainLog | rtc.py:81-97 | download and chain log the four stage commands |
| LegacyRtc.LegacyChainCommands | rtc.py:83-97 | the chain's trace extends its start and logs the four commands in order |
| LegacyRtc.LogAfterQuiet | rtc.py:81 | a silent event before a trace adds nothing to its log |
| LegacyRtc.LegacyBandPhaseOutcome | rtc.py:99-109 | the band phase logs the band commands and removes the `TC` pair |
| LegacyRtc.LegacyChainLog | rtc.py:83-97 | the four-stage trace logs exactly the four commands |
| LegacyRtc.RunThenQuiet | rtc.py:85 | a command followed by removals logs that one command |
| RtcUtils.CleanGrid | src/rtc_utils.py:24-29 | the cleaned band has the source's shape and every cell follows the rule |
| RtcUtils.RemoveSmallRasterValuesSpec | src/rtc_utils.py:8-36 | no band 1 is `None`; otherwise one band of the same shape and driver, nodata 0, geo-transform and projection copied |
| RtcUtils.GridOf | src/rtc_utils.py:31 | the array's values row by row |
| RtcUtils.RemoveSmallRasterValues | src/rtc_utils.py:8-36 | the nested loops over a zeroed array compute `RemoveSmallRasterValuesSpec` |
| RtcUtils.CellRule | src/rtc_utils.py:26-29 | each output cell is 0 below the tolerance and the source value otherwise |
| RtcUtils.OutputRange | src/rtc_utils.py:24-29 | every output value is 0 or at least the tolerance |
| RtcUtils.CleanCellIdempotent | src/rtc_utils.py:26-29 | the rule applied twice is the rule applied once |
| RtcUtils.Idempotent | src/rtc_utils.py:8-36 | cleaning the output again with the same tolerance gives it back |
| RtcUtils.DefaultToleranceCleaning | src/rtc_utils.py:8 | with the default tolerance 0.003811 each output value is 0 or at least 0.003811, and a second pass changes nothing |
| RtcUtils.OnlyBandOneRead | src/rtc_utils.py:13-19 | inputs that agree on band 1 and the metadata give the same output |

## Left out

- The HTTP requests themselves are not modelled. These are the catalog
  query, `raise_for_status` and the streamed download with its chunk size
  and user agent. The catalog response is a parameter, and a download
  writes a file recording its URL.
- An HTTP failure during the download is not modelled either. The only
  download failure modelled is a URL ending in '/', whose empty basename
  cannot be opened.
- The legacy driver calls `requests` with an empty URL when the entry has
  no data link (`rtc.py:79-81`). The model downloads "" like any other
  URL, and the run then crashes because it cannot open the empty file
  name.
- Argument parsing (`get_args`), the `.netrc` credentials file and the
  progress messages are left out. They are I/O with no effect on the
  products.
- `Rtc.ArcgisXmlSpec`: the template rendering is not modelled. This means
  Jinja2, the lxml pretty-printing and the `datetime.utcnow()` timestamp.
  The sidecar is recorded with the values it is made from, and the
  acquisition year is the only computed one.
- What `gpt`, `gdal_translate` and `gdaladdo` compute is given by the
  environment oracle: its exit status and the listing of a data directory.
  Only the files and directories a successful command leaves are modelled;
  a failing command is taken to leave nothing, although a real `gpt` that
  fails after starting to write its `-t` target may leave a partial
  `T.dim`. `LegacyRtc.OrbitFailureIsNotFatal` (only the missing `Orb.dim`
  ends the run) and `LegacyRtc.ConvertBandOutcome` (the output exists iff
  tiling succeeded) depend on this abstraction.
- `Rtc.MainTrace`: a normal run's trace is stated, but not as a
  removal-after-success property. The final cleanup of
  `Terrain-Correction.dim` follows the band conversions, not the stage that
  wrote it. Inside the chain the property is proved
  (`Rtc.ChainRetiresAfterSuccess`).
- `LegacyRtc.LegacyMainOutcome`: the legacy run is described by its
  command log and by what it removes. Its final file set is not stated.
  Exit statuses are ignored, so which outputs exist depends on every tool's
  status (`LegacyRtc.ConvertBandOutcome` states it for one band).
- `RtcUtils.RemoveSmallRasterValuesSpec`: raster values are modelled as
  reals. The float32 storage of the output band and GDAL's file I/O are
  not modelled: `Open`, `Create`, `WriteArray`, `FlushCache` and the
  implicit closing by `del`. The tolerance is a parameter, and its default
  0.003811 is the constant `RtcUtils.DefaultTolerance`. The case where
  `gdal.Open` returns `None` (an unreadable file) is not modelled; only a
  dataset without band 1 gives `None`. `RtcUtils.OutputRange` ("0 or at
  least the tolerance") and `RtcUtils.Idempotent` hold of this real-valued
  idealisation only: in the program a NaN cell fails `< tolerance` and is
  kept, and a float64 value at or just above the tolerance can round below
  it when stored into the float32 output band.
