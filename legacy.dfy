/**
 * The earlier driver: the same download, `gpt` chain and band conversion,
 * but with fixed product names (`Orb`, `Cal`, `TF`, `TC`), a last-match link
 * search defaulting to the empty string, and every return code ignored: a
 * failing external command never ends the run, only a missing file or
 * directory does.
 */
module LegacyRtc {
  import opened Wrappers
  import opened Strings
  import opened Os
  import opened Cmr
  import opened Products
  import Rtc

  // ---------------------------------------------------------------------------
  // Catalog lookup

  /** The `href` of the last link whose relation mentions "data", if any. */
  function LastDataHref(links: seq<Link>): (r: Option<string>)
    ensures r.None? <==> forall i :: 0 <= i < |links| ==> !IsDataLink(links[i])
    ensures r.Some? ==>
      exists i :: 0 <= i < |links| && IsDataLink(links[i]) && links[i].href == r.value &&
        forall j :: i < j < |links| ==> !IsDataLink(links[j])
    decreases |links|
  {
    if links == [] then None
    else if IsDataLink(links[|links| - 1]) then Some(links[|links| - 1].href)
    else LastDataHref(links[..|links| - 1])
  }

  /** The loop's variable: the last data link seen so far, or `""`. */
  function HrefOrEmpty(href: Option<string>): string {
    if href.Some? then href.value else ""
  }

  /**
   * `get_download_url` on a parsed response: `None` stands for the
   * `IndexError` that indexing an empty entry list raises; otherwise the last
   * data link of the first entry, or `""` when there is none.
   */
  function LegacyDownloadUrl(entries: seq<Entry>): (r: Option<string>)
    ensures r.None? <==> entries == []
    ensures r.Some? && (forall i :: 0 <= i < |entries[0].links| ==> !IsDataLink(entries[0].links[i])) ==> r.value == ""
    ensures r.Some? && (exists i :: 0 <= i < |entries[0].links| && IsDataLink(entries[0].links[i])) ==>
      exists i :: 0 <= i < |entries[0].links| && IsDataLink(entries[0].links[i]) &&
        entries[0].links[i].href == r.value &&
        forall j :: i < j < |entries[0].links| ==> !IsDataLink(entries[0].links[j])
  {
    if entries == [] then None else Some(HrefOrEmpty(LastDataHref(entries[0].links)))
  }

  /** The link search as the script writes it: a loop that overwrites its variable at every match. */
  method GetDownloadUrl(entries: seq<Entry>) returns (downloadUrl: Option<string>)
    ensures downloadUrl == LegacyDownloadUrl(entries)
  {
    if |entries| == 0 {
      return None;
    }
    var links := entries[0].links;
    var url := "";
    for i := 0 to |links|
      invariant url == HrefOrEmpty(LastDataHref(links[..i]))
    {
      assert links[..i + 1][..i] == links[..i];
      if IsDataLink(links[i]) {
        url := links[i].href;
      }
    }
    assert links[..|links|] == links;
    return Some(url);
  }

  /** With exactly one data link the two generations find the same URL. */
  lemma SingleLinkAgrees(entries: seq<Entry>, k: nat)
    requires |entries| > 0 && k < |entries[0].links| && IsDataLink(entries[0].links[k])
    requires forall j :: 0 <= j < |entries[0].links| && j != k ==> !IsDataLink(entries[0].links[j])
    ensures Rtc.DownloadUrl(entries) == Some(entries[0].links[k].href)
    ensures LegacyDownloadUrl(entries) == Some(entries[0].links[k].href)
  {
  }

  /** With two data links the current driver takes the first, this one the last. */
  lemma TwoLinksDiverge(first: string, last: string)
    ensures var entries := [Entry([Link("data#", first), Link("data#", last)])];
      Rtc.DownloadUrl(entries) == Some(first) && LegacyDownloadUrl(entries) == Some(last)
  {
    var links := [Link("data#", first), Link("data#", last)];
    assert IsDataLink(links[0]) by {
      assert links[0].rel[..4] == "data";
    }
  }

  /** Without any data link the current driver reports no URL, this one the empty string. */
  lemma NoLinkDiverges(entries: seq<Entry>)
    requires |entries| > 0 && forall i :: 0 <= i < |entries[0].links| ==> !IsDataLink(entries[0].links[i])
    ensures Rtc.DownloadUrl(entries) == None && LegacyDownloadUrl(entries) == Some("")
  {
  }

  // ---------------------------------------------------------------------------
  // Retiring a product


  /** What `delete_dim_files(name)` appends to the trace. */
  function RetireEvents(name: string): seq<Event> {
    [Unlink(Rtc.StageOutput(name)), RmTree(Rtc.StageData(name))]
  }

  /** `delete_dim_files(name)`: removes `name.dim`, then `name.data`; either one missing is fatal. */
  function DeleteDimFilesSpec(w: World, name: string): (r: World)
    ensures Extends(w, r)
    ensures !w.status.Exited? ==> !r.status.Exited?
    ensures r.status.Running? <==>
      w.status.Running? && Rtc.StageOutput(name) in w.files && Rtc.StageData(name) in w.dirs
    ensures r.status.Running? ==>
      r.files == w.files - {Rtc.StageOutput(name)} && r.dirs == w.dirs - {Rtc.StageData(name)} &&
      r.trace == w.trace + RetireEvents(name)
    ensures w.status.Running? && Rtc.StageOutput(name) !in w.files ==>
      r == w.(status := Crashed(NoSuchPath(Rtc.StageOutput(name))))
    ensures w.status.Running? && Rtc.StageOutput(name) in w.files && Rtc.StageData(name) !in w.dirs ==>
      r == w.(files := w.files - {Rtc.StageOutput(name)}, trace := w.trace + [Unlink(Rtc.StageOutput(name))],
              status := Crashed(NoSuchPath(Rtc.StageData(name))))
  {
    AfterRmTree(AfterUnlink(w, Rtc.StageOutput(name)), Rtc.StageData(name))
  }

  method DeleteDimFiles(h: Host, name: string)
    modifies h
    ensures h.State() == DeleteDimFilesSpec(old(h.State()), name)
  {
    h.Unlink(name + ".dim");
    h.RmTree(name + ".data");
  }

  // ---------------------------------------------------------------------------
  // The stage chain

  /** `gpt <operator> <params...> -Ssource=<source> -t <target>` */
  function LegacyGpt(operator: string, params: seq<string>, source: string, target: string): seq<string> {
    ["gpt", operator] + params + ["-Ssource=" + source, "-t", target]
  }

  /** A successful legacy `gpt` call writes the target's descriptor and data directory. */
  lemma LegacyGptOutputs(operator: string, params: seq<string>, source: string, target: string)
    requires operator != "-t" && "-t" !in params
    ensures ToolOutputs(LegacyGpt(operator, params, source, target)) ==
      Artifacts({Rtc.StageOutput(target)}, {Rtc.StageData(target)})
  {
    var before := ["gpt", operator] + params + ["-Ssource=" + source];
    assert |before[|before| - 1]| >= 9;
    assert "-t" !in before;
    assert LegacyGpt(operator, params, source, target) == before + ["-t", target] + [];
    TargetAfterFlag(before, target, []);
  }

  function OrbitCommand(localFile: string): seq<string> {
    LegacyGpt("Apply-Orbit-File", [], localFile, "Orb")
  }

  function CalibrationCommand(): seq<string> {
    LegacyGpt("Calibration", ["-PoutputBetaBand=true", "-PoutputSigmaBand=false"], Rtc.StageOutput("Orb"), "Cal")
  }

  function FlatteningCommand(): seq<string> {
    LegacyGpt("Terrain-Flattening", ["-PdemName=SRTM 1Sec HGT", "-PreGridMethod=False"], Rtc.StageOutput("Cal"), "TF")
  }

  function CorrectionCommand(): seq<string> {
    LegacyGpt("Terrain-Correction",
      ["-PpixelSpacingInMeter=30.0", "-PmapProjection=EPSG:32613", "-PdemName=SRTM 1Sec HGT"], Rtc.StageOutput("TF"), "TC")
  }

  /** The orbit command line, written out. */
  lemma OrbitLine(localFile: string)
    ensures OrbitCommand(localFile) == ["gpt", "Apply-Orbit-File", "-Ssource=" + localFile, "-t", "Orb"]
  {
  }

  lemma CalibrationLine()
    ensures CalibrationCommand() ==
      ["gpt", "Calibration", "-PoutputBetaBand=true", "-PoutputSigmaBand=false", "-Ssource=Orb.dim", "-t", "Cal"]
  {
    assert "-Ssource=" + Rtc.StageOutput("Orb") == "-Ssource=Orb.dim";
  }

  lemma FlatteningLine()
    ensures FlatteningCommand() ==
      ["gpt", "Terrain-Flattening", "-PdemName=SRTM 1Sec HGT", "-PreGridMethod=False", "-Ssource=Cal.dim", "-t", "TF"]
  {
    assert "-Ssource=" + Rtc.StageOutput("Cal") == "-Ssource=Cal.dim";
  }

  /** Terrain correction as this driver calls it, with its fixed map projection. */
  lemma CorrectionLine()
    ensures CorrectionCommand() ==
      ["gpt", "Terrain-Correction", "-PpixelSpacingInMeter=30.0", "-PmapProjection=EPSG:32613",
       "-PdemName=SRTM 1Sec HGT", "-Ssource=TF.dim", "-t", "TC"]
  {
    assert "-Ssource=" + Rtc.StageOutput("TF") == "-Ssource=TF.dim";
  }

  /** Each stage writes its own pair, and the four pairs are distinct. */
  lemma ChainTargets(localFile: string)
    ensures ToolOutputs(OrbitCommand(localFile)) == Artifacts({Rtc.StageOutput("Orb")}, {Rtc.StageData("Orb")})
    ensures ToolOutputs(CalibrationCommand()) == Artifacts({Rtc.StageOutput("Cal")}, {Rtc.StageData("Cal")})
    ensures ToolOutputs(FlatteningCommand()) == Artifacts({Rtc.StageOutput("TF")}, {Rtc.StageData("TF")})
    ensures ToolOutputs(CorrectionCommand()) == Artifacts({Rtc.StageOutput("TC")}, {Rtc.StageData("TC")})
    ensures Rtc.StageOutput("Orb") != Rtc.StageOutput("Cal") && Rtc.StageData("Orb") != Rtc.StageData("Cal")
  {
    LegacyGptOutputs("Apply-Orbit-File", [], localFile, "Orb");
    LegacyGptOutputs("Calibration", ["-PoutputBetaBand=true", "-PoutputSigmaBand=false"], Rtc.StageOutput("Orb"), "Cal");
    LegacyGptOutputs("Terrain-Flattening", ["-PdemName=SRTM 1Sec HGT", "-PreGridMethod=False"], Rtc.StageOutput("Cal"), "TF");
    LegacyGptOutputs("Terrain-Correction",
      ["-PpixelSpacingInMeter=30.0", "-PmapProjection=EPSG:32613", "-PdemName=SRTM 1Sec HGT"], Rtc.StageOutput("TF"), "TC");
    assert Rtc.StageOutput("Orb")[0] != Rtc.StageOutput("Cal")[0];
    assert Rtc.StageData("Orb")[0] != Rtc.StageData("Cal")[0];
  }

  /** Apply-Orbit-File, then the raw download is unlinked, whatever the command's status. */
  function OrbitStep(w: World, env: Env, localFile: string): (r: World)
    ensures Extends(w, r)
    ensures !w.status.Exited? ==> !r.status.Exited?
    ensures r.status.Running? ==>
      r.trace == w.trace + [Run(OrbitCommand(localFile), ExitStatus(w, env, OrbitCommand(localFile))), Unlink(localFile)]
  {
    AfterUnlink(AfterCall(w, env, OrbitCommand(localFile)), localFile)
  }

  /** A later stage, then its predecessor's pair is deleted, whatever the command's status. */
  function StageStep(w: World, env: Env, argv: seq<string>, predecessor: string): (r: World)
    ensures Extends(w, r)
    ensures !w.status.Exited? ==> !r.status.Exited?
    ensures r.status.Running? ==> r.trace == w.trace + ([Run(argv, ExitStatus(w, env, argv))] + RetireEvents(predecessor))
  {
    var w1 := AfterCall(w, env, argv);
    var r := DeleteDimFilesSpec(w1, predecessor);
    assert r.status.Running? ==> r.trace == (w.trace + [Run(argv, ExitStatus(w, env, argv))]) + RetireEvents(predecessor);
    r
  }

  /** Orb, Cal, TF, TC, each retiring what the one before it produced. */
  function LegacyChainSpec(w: World, env: Env, localFile: string): (r: World)
    ensures Extends(w, r)
    ensures !w.status.Exited? ==> !r.status.Exited?
  {
    var w1 := OrbitStep(w, env, localFile);
    var w2 := StageStep(w1, env, CalibrationCommand(), "Orb");
    var w3 := StageStep(w2, env, FlatteningCommand(), "Cal");
    StageStep(w3, env, CorrectionCommand(), "TF")
  }

  /**
   * The trace of a chain that keeps running, from trace position `n`: every
   * command is recorded with whatever status the environment gave it, the
   * download is unlinked right after the orbit step, and each predecessor
   * pair right after its consumer.
   */
  function LegacyChainEvents(env: Env, n: nat, localFile: string): seq<Event> {
    [Run(OrbitCommand(localFile), env.exitStatus(n, OrbitCommand(localFile))), Unlink(localFile)] +
    ([Run(CalibrationCommand(), env.exitStatus(n + 2, CalibrationCommand()))] + RetireEvents("Orb")) +
    ([Run(FlatteningCommand(), env.exitStatus(n + 5, FlatteningCommand()))] + RetireEvents("Cal")) +
    ([Run(CorrectionCommand(), env.exitStatus(n + 8, CorrectionCommand()))] + RetireEvents("TF"))
  }

  /** A chain that keeps running issued all four commands, whatever their statuses were. */
  lemma LegacyChainTrace(w: World, env: Env, localFile: string)
    requires LegacyChainSpec(w, env, localFile).status.Running?
    ensures LegacyChainSpec(w, env, localFile).trace == w.trace + LegacyChainEvents(env, |w.trace|, localFile)
  {
    var w1 := OrbitStep(w, env, localFile);
    var w2 := StageStep(w1, env, CalibrationCommand(), "Orb");
    var w3 := StageStep(w2, env, FlatteningCommand(), "Cal");
    var w4 := StageStep(w3, env, CorrectionCommand(), "TF");
    Append4(w.trace, w1.trace, w2.trace, w3.trace, w4.trace,
      [Run(OrbitCommand(localFile), ExitStatus(w, env, OrbitCommand(localFile))), Unlink(localFile)],
      [Run(CalibrationCommand(), ExitStatus(w1, env, CalibrationCommand()))] + RetireEvents("Orb"),
      [Run(FlatteningCommand(), ExitStatus(w2, env, FlatteningCommand()))] + RetireEvents("Cal"),
      [Run(CorrectionCommand(), ExitStatus(w3, env, CorrectionCommand()))] + RetireEvents("TF"));
  }

  lemma Append4<T>(t0: seq<T>, t1: seq<T>, t2: seq<T>, t3: seq<T>, t4: seq<T>, a: seq<T>, b: seq<T>, c: seq<T>, d: seq<T>)
    requires t1 == t0 + a && t2 == t1 + b && t3 == t2 + c && t4 == t3 + d
    ensures |t1| == |t0| + |a| && |t2| == |t1| + |b| && |t3| == |t2| + |c|
    ensures t4 == t0 + (a + b + c + d)
  {
  }

  /**
   * A failed orbit application does not stop the script: calibration is
   * still issued, and only the missing `Orb.dim` ends the run.
   */
  lemma OrbitFailureIsNotFatal(w: World, env: Env, localFile: string)
    requires w.status.Running? && localFile in w.files && Rtc.StageOutput("Orb") !in w.files
    requires env.exitStatus(|w.trace|, OrbitCommand(localFile)) != 0
    ensures var r, n := LegacyChainSpec(w, env, localFile), |w.trace|;
      r.status == Crashed(NoSuchPath(Rtc.StageOutput("Orb"))) &&
      r.trace == w.trace + [Run(OrbitCommand(localFile), env.exitStatus(n, OrbitCommand(localFile))), Unlink(localFile),
                            Run(CalibrationCommand(), env.exitStatus(n + 2, CalibrationCommand()))]
  {
    ChainTargets(localFile);
    var w1 := OrbitStep(w, env, localFile);
    assert w1.files == w.files - {localFile} && |w1.trace| == |w.trace| + 2;
  }

  // ---------------------------------------------------------------------------
  // The band loop

  /** `granule + "_" + polarization + "_RTC.tif"` */
  function LegacyOutputName(granule: string, polarization: string): string {
    granule + "_" + polarization + "_RTC.tif"
  }

  /** Both generations write a band to the same `/output/` path. */
  lemma SameOutputPath(granule: string, polarization: string)
    ensures "/output/" + LegacyOutputName(granule, polarization) == OutputTif(granule, polarization)
  {
    assert "/output/" + (granule + "_" + polarization + "_RTC.tif") == OutputDir + granule + "_" + polarization + "_RTC.tif";
  }

  /** Translate a band to `temp.tif`, add overviews, tile it into `output`, unlink `temp.tif`; statuses ignored. */
  function ConvertBandSpec(w: World, env: Env, inputFile: string, outputFile: string): (r: World)
    ensures Extends(w, r)
    ensures !w.status.Exited? ==> !r.status.Exited?
  {
    var w1 := AfterCall(w, env, TranslateCommand(inputFile));
    var w2 := AfterCall(w1, env, OverviewCommand());
    var w3 := AfterCall(w2, env, TileCommand(outputFile));
    AfterUnlink(w3, TempFile)
  }

  /**
   * Only a missing `temp.tif` stops a conversion: when the translation fails
   * and no earlier `temp.tif` is around. Failures of the overview and tiling
   * commands are ignored; the output exists afterwards when tiling succeeded.
   */
  lemma ConvertBandOutcome(w: World, env: Env, inputFile: string, outputFile: string)
    requires w.status.Running? && |outputFile| > 0 && outputFile[0] == '/'
    ensures var r, n := ConvertBandSpec(w, env, inputFile, outputFile), |w.trace|;
      var translated := env.exitStatus(n, TranslateCommand(inputFile)) == 0;
      var tiled := env.exitStatus(n + 2, TileCommand(outputFile)) == 0;
      && (r.status.Running? <==> translated || TempFile in w.files)
      && (r.status.Running? ==>
            r.dirs == w.dirs && r.files == (w.files + (if tiled then {outputFile} else {})) - {TempFile} &&
            Rtc.Commands(r.trace) == Rtc.Commands(w.trace) + [TranslateCommand(inputFile), OverviewCommand(), TileCommand(outputFile)])
  {
    var w1 := AfterCall(w, env, TranslateCommand(inputFile));
    var w2 := AfterCall(w1, env, OverviewCommand());
    var w3 := AfterCall(w2, env, TileCommand(outputFile));
    Rtc.ConversionOutputs(inputFile, outputFile);
    assert outputFile != TempFile by {
      assert TempFile[0] == 't';
    }
    var r := AfterUnlink(w3, TempFile);
    if r.status.Running? {
      var e := [w1.trace[|w.trace|], w2.trace[|w1.trace|], w3.trace[|w2.trace|], Unlink(TempFile)];
      assert r.trace == w.trace + e;
      ThreeRunsOneRemoval(e[0], e[1], e[2], e[3]);
      Rtc.CommandsAppend(w.trace, e);
    }
  }

  /** Three commands and an unlink contribute the three command lines to the log. */
  lemma ThreeRunsOneRemoval(a: Event, b: Event, c: Event, d: Event)
    requires a.Run? && b.Run? && c.Run? && !d.Run?
    ensures Rtc.Commands([a, b, c, d]) == [a.argv, b.argv, c.argv]
  {
    Rtc.NoRunNoCommands([d]);
    Rtc.CommandsCons(c, [d]);
    Rtc.CommandsCons(b, [c, d]);
    Rtc.CommandsCons(a, [b, c, d]);
    assert [a, b, c, d] == [a] + [b, c, d] && [b, c, d] == [b] + [c, d] && [c, d] == [c] + [d];
  }

  /** One iteration: an `.img` file is converted from `TC.data/`; other names are skipped. */
  function LegacyBandStep(w: World, env: Env, granule: string, fileName: string): (r: World)
    ensures Extends(w, r)
    ensures !w.status.Exited? ==> !r.status.Exited?
  {
    if IsBandImage(fileName) then
      ConvertBandSpec(w, env, "TC.data/" + fileName, "/output/" + LegacyOutputName(granule, Polarization(fileName)))
    else w
  }

  /** A band step issues the same three command lines as the current driver's for the same file. */
  lemma LegacyBandStepOutcome(w: World, env: Env, granule: string, fileName: string)
    requires LegacyBandStep(w, env, granule, fileName).status.Running?
    ensures var r := LegacyBandStep(w, env, granule, fileName);
      r.dirs == w.dirs &&
      (IsBandImage(fileName) ==>
        (TempFile !in r.files &&
         Rtc.Commands(r.trace) == Rtc.Commands(w.trace) + Rtc.BandImageCommands(granule, "TC.data", fileName))) &&
      (!IsBandImage(fileName) ==> r == w)
  {
    if IsBandImage(fileName) {
      BandPaths(granule, fileName);
      ConvertBandOutcome(w, env, "TC.data/" + fileName, OutputTif(granule, Polarization(fileName)));
    }
  }

  /** The legacy loop's input and output paths, as the current driver spells them. */
  lemma BandPaths(granule: string, fileName: string)
    ensures "TC.data/" + fileName == "TC.data" + "/" + fileName
    ensures "/output/" + LegacyOutputName(granule, Polarization(fileName)) == OutputTif(granule, Polarization(fileName))
    ensures |OutputTif(granule, Polarization(fileName))| > 0 && OutputTif(granule, Polarization(fileName))[0] == '/'
    ensures Rtc.BandImageCommands(granule, "TC.data", fileName) ==
      [TranslateCommand("TC.data/" + fileName), OverviewCommand(), TileCommand(OutputTif(granule, Polarization(fileName)))]
  {
    var output := OutputTif(granule, Polarization(fileName));
    SameOutputPath(granule, Polarization(fileName));
    assert output[..|OutputDir|] == OutputDir;
    assert output[0] == OutputDir[0];
  }

  /** The loop over the names `os.listdir("TC.data")` returned, in that order. */
  function LegacyBandLoopSpec(w: World, env: Env, granule: string, names: seq<string>): (r: World)
    ensures Extends(w, r)
    ensures !w.status.Exited? ==> !r.status.Exited?
    decreases |names|
  {
    if names == [] then w
    else LegacyBandLoopSpec(LegacyBandStep(w, env, granule, names[0]), env, granule, names[1..])
  }

  /**
   * A band loop that keeps running issues the same command lines as the
   * current driver's loop over the same names, touches no directory, and
   * leaves no `temp.tif` behind once it has converted a band.
   */
  lemma {:induction false} LegacyBandLoopOutcome(w: World, env: Env, granule: string, names: seq<string>)
    requires LegacyBandLoopSpec(w, env, granule, names).status.Running?
    ensures var r := LegacyBandLoopSpec(w, env, granule, names);
      Rtc.Commands(r.trace) == Rtc.Commands(w.trace) + Rtc.BandCommands(granule, "TC.data", names) &&
      r.dirs == w.dirs &&
      (Rtc.HasBandImage(names) ==> TempFile !in r.files)
    decreases |names|
  {
    LegacyBandLoopLog(w, env, granule, names);
    if names != [] {
      var n := names[0];
      var w1 := LegacyBandStep(w, env, granule, n);
      assert LegacyBandLoopSpec(w, env, granule, names) == LegacyBandLoopSpec(w1, env, granule, names[1..]);
      LegacyBandStepOutcome(w, env, granule, n);
      LegacyBandLoopOutcome(w1, env, granule, names[1..]);
      Rtc.HasBandImageCons(names);
      if IsBandImage(n) {
        LegacyTempStaysGone(w1, env, granule, names[1..]);
      }
    }
  }

  /** The command log of a running band loop, one band at a time. */
  lemma {:induction false} LegacyBandLoopLog(w: World, env: Env, granule: string, names: seq<string>)
    requires LegacyBandLoopSpec(w, env, granule, names).status.Running?
    ensures Rtc.Commands(LegacyBandLoopSpec(w, env, granule, names).trace) ==
      Rtc.Commands(w.trace) + Rtc.BandCommands(granule, "TC.data", names)
    decreases |names|
  {
    if names != [] {
      var n := names[0];
      var w1 := LegacyBandStep(w, env, granule, n);
      var r := LegacyBandLoopSpec(w1, env, granule, names[1..]);
      assert LegacyBandLoopSpec(w, env, granule, names) == r;
      LegacyBandStepOutcome(w, env, granule, n);
      LegacyBandLoopLog(w1, env, granule, names[1..]);
      var tail := Rtc.BandCommands(granule, "TC.data", names[1..]);
      if IsBandImage(n) {
        var head := Rtc.BandImageCommands(granule, "TC.data", n);
        assert Rtc.BandCommands(granule, "TC.data", names) == head + tail;
        AppendLog(Rtc.Commands(w.trace), Rtc.Commands(w1.trace), Rtc.Commands(r.trace), head, tail);
      } else {
        assert Rtc.BandCommands(granule, "TC.data", names) == [] + tail;
      }
    }
  }

  lemma AppendLog<T>(c0: seq<T>, c1: seq<T>, c2: seq<T>, head: seq<T>, tail: seq<T>)
    requires c1 == c0 + head && c2 == c1 + tail
    ensures c2 == c0 + (head + tail)
  {
  }

  /** Once `temp.tif` is gone, no later iteration leaves it behind. */
  lemma {:induction false} LegacyTempStaysGone(w: World, env: Env, granule: string, names: seq<string>)
    requires TempFile !in w.files
    requires LegacyBandLoopSpec(w, env, granule, names).status.Running?
    ensures TempFile !in LegacyBandLoopSpec(w, env, granule, names).files
    decreases |names|
  {
    if names != [] {
      var w1 := LegacyBandStep(w, env, granule, names[0]);
      LegacyBandStepOutcome(w, env, granule, names[0]);
      LegacyTempStaysGone(w1, env, granule, names[1..]);
    }
  }

  // ---------------------------------------------------------------------------
  // The whole run

  /** The `__main__` block: no entry raises `IndexError`; otherwise download, chain and band phase. */
  function LegacyMainSpec(w: World, env: Env, entries: seq<Entry>, granule: string): (r: World)
    ensures Extends(w, r)
    ensures entries == [] ==> r == AfterRaise(w, "IndexError")
    ensures !w.status.Exited? ==> !r.status.Exited?
  {
    match LegacyDownloadUrl(entries)
    case None => AfterRaise(w, "IndexError")
    case Some(url) => LegacyProcessSpec(w, env, url, granule)
  }

  /** Download and the chain, then the band phase. */
  function LegacyProcessSpec(w: World, env: Env, url: string, granule: string): (r: World)
    ensures Extends(w, r)
    ensures !w.status.Exited? ==> !r.status.Exited?
  {
    var localFile := LastSegment(url);
    LegacyBandPhaseSpec(LegacyChainSpec(AfterWrite(w, localFile, [url]), env, localFile), env, granule)
  }

  /** Lists `TC.data`, converts its bands, deletes the `TC` pair. */
  function LegacyBandPhaseSpec(w: World, env: Env, granule: string): (r: World)
    ensures Extends(w, r)
    ensures !w.status.Exited? ==> !r.status.Exited?
  {
    var w1 := AfterListDir(w, "TC.data");
    DeleteDimFilesSpec(LegacyBandLoopSpec(w1, env, granule, env.listing("TC.data")), "TC")
  }

  /** The `__main__` block of the earlier driver. */
  method RunLegacyMain(h: Host, entries: seq<Entry>, granule: string)
    modifies h
    ensures h.State() == LegacyMainSpec(old(h.State()), h.env, entries, granule)
  {
    var downloadUrl := GetDownloadUrl(entries);
    if downloadUrl.None? {
      h.Raise("IndexError");
      return;
    }
    var localFile := Rtc.DownloadFile(h, downloadUrl.value);
    var _ := h.Call(OrbitCommand(localFile));
    h.Unlink(localFile);
    var _ := h.Call(CalibrationCommand());
    DeleteDimFiles(h, "Orb");
    var _ := h.Call(FlatteningCommand());
    DeleteDimFiles(h, "Cal");
    var _ := h.Call(CorrectionCommand());
    DeleteDimFiles(h, "TF");
    ConvertBands(h, granule);
  }

  /** The band loop of the `__main__` block and the final `delete_dim_files("TC")`. */
  method ConvertBands(h: Host, granule: string)
    modifies h
    ensures h.State() == LegacyBandPhaseSpec(old(h.State()), h.env, granule)
  {
    var names := h.ListDir("TC.data");
    ghost var w1 := h.State();
    for i := 0 to |names|
      invariant LegacyBandLoopSpec(h.State(), h.env, granule, names[i..]) == LegacyBandLoopSpec(w1, h.env, granule, names)
    {
      var fileName := names[i];
      assert names[i..][1..] == names[i + 1..];
      if IsBandImage(fileName) {
        var polarization := Polarization(fileName);
        var tempFileName := TempFile;
        var outputFileName := LegacyOutputName(granule, polarization);
        var _ := h.Call(TranslateCommand("TC.data/" + fileName));
        var _ := h.Call(OverviewCommand());
        var _ := h.Call(TileCommand("/output/" + outputFileName));
        h.Unlink(tempFileName);
      }
    }
    DeleteDimFiles(h, "TC");
  }

  /**
   * A run that finishes normally issued the four chain commands in order and
   * then the band commands, and left neither the `TC` pair nor, once a band
   * was converted, `temp.tif` behind.
   */
  lemma LegacyMainOutcome(w: World, env: Env, entries: seq<Entry>, granule: string)
    requires LegacyMainSpec(w, env, entries, granule).status.Running?
    ensures entries != []
    ensures var r, url, names := LegacyMainSpec(w, env, entries, granule), LegacyDownloadUrl(entries).value, env.listing("TC.data");
      Rtc.Commands(r.trace) == Rtc.Commands(w.trace) +
        [OrbitCommand(LastSegment(url)), CalibrationCommand(), FlatteningCommand(), CorrectionCommand()] +
        Rtc.BandCommands(granule, "TC.data", names) &&
      Rtc.StageOutput("TC") !in r.files && Rtc.StageData("TC") !in r.dirs &&
      (Rtc.HasBandImage(names) ==> TempFile !in r.files)
  {
    var url := LegacyDownloadUrl(entries).value;
    var localFile := LastSegment(url);
    var w1 := AfterWrite(w, localFile, [url]);
    var w2 := LegacyChainSpec(w1, env, localFile);
    LegacyDownloadAndChainLog(w, w1, env, localFile, url);
    LegacyBandPhaseOutcome(w2, env, granule);
  }

  /** The commands of the download and the chain. */
  lemma LegacyDownloadAndChainLog(w: World, w1: World, env: Env, localFile: string, url: string)
    requires w1 == AfterWrite(w, localFile, [url])
    requires LegacyChainSpec(w1, env, localFile).status.Running?
    ensures Rtc.Commands(LegacyChainSpec(w1, env, localFile).trace) ==
      Rtc.Commands(w.trace) + [OrbitCommand(localFile), CalibrationCommand(), FlatteningCommand(), CorrectionCommand()]
  {
    var r := LegacyChainSpec(w1, env, localFile);
    LegacyChainCommands(w1, env, localFile);
    assert w1.status.Running?;
    assert w1.trace == w.trace + [Write(localFile, [url])];
    LogAfterQuiet(w.trace, w1.trace, r.trace, [Write(localFile, [url])], r.trace[|w1.trace|..]);
  }

  /** The chain logs its four commands in order. */
  lemma LegacyChainCommands(w: World, env: Env, localFile: string)
    requires LegacyChainSpec(w, env, localFile).status.Running?
    ensures var r := LegacyChainSpec(w, env, localFile);
      |w.trace| <= |r.trace| && r.trace == w.trace + r.trace[|w.trace|..] &&
      Rtc.Commands(r.trace[|w.trace|..]) ==
        [OrbitCommand(localFile), CalibrationCommand(), FlatteningCommand(), CorrectionCommand()]
  {
    LegacyChainTrace(w, env, localFile);
    LegacyChainLog(env, |w.trace|, localFile);
    var r := LegacyChainSpec(w, env, localFile);
    assert r.trace[|w.trace|..] == LegacyChainEvents(env, |w.trace|, localFile);
  }

  /** A silent step followed by a logged part adds that part's commands. */
  lemma LogAfterQuiet(t0: seq<Event>, t1: seq<Event>, t2: seq<Event>, quiet: seq<Event>, e: seq<Event>)
    requires t1 == t0 + quiet && t2 == t1 + e
    requires forall i :: 0 <= i < |quiet| ==> !quiet[i].Run?
    ensures Rtc.Commands(t2) == Rtc.Commands(t0) + Rtc.Commands(e)
  {
    Rtc.NoRunNoCommands(quiet);
    Rtc.CommandsAppend(t0, quiet);
    assert Rtc.Commands(t1) == Rtc.Commands(t0) + [];
    assert Rtc.Commands(t0) + [] == Rtc.Commands(t0);
    Rtc.CommandsAppend(t1, e);
  }

  /** The band phase that finishes normally: band commands, then the `TC` pair and `temp.tif` gone. */
  lemma LegacyBandPhaseOutcome(w: World, env: Env, granule: string)
    requires LegacyBandPhaseSpec(w, env, granule).status.Running?
    ensures var r, names := LegacyBandPhaseSpec(w, env, granule), env.listing("TC.data");
      Rtc.Commands(r.trace) == Rtc.Commands(w.trace) + Rtc.BandCommands(granule, "TC.data", names) &&
      Rtc.StageOutput("TC") !in r.files && Rtc.StageData("TC") !in r.dirs &&
      (Rtc.HasBandImage(names) ==> TempFile !in r.files)
  {
    var names := env.listing("TC.data");
    var w1 := AfterListDir(w, "TC.data");
    var w4 := LegacyBandLoopSpec(w1, env, granule, names);
    LegacyBandLoopOutcome(w1, env, granule, names);
    Rtc.NoRunNoCommands(RetireEvents("TC"));
    Rtc.CommandsAppend(w4.trace, RetireEvents("TC"));
  }

  /** The command lines of the chain's trace, in order. */
  lemma LegacyChainLog(env: Env, n: nat, localFile: string)
    ensures Rtc.Commands(LegacyChainEvents(env, n, localFile)) ==
      [OrbitCommand(localFile), CalibrationCommand(), FlatteningCommand(), CorrectionCommand()]
  {
    var a := [Run(OrbitCommand(localFile), env.exitStatus(n, OrbitCommand(localFile))), Unlink(localFile)];
    var b := [Run(CalibrationCommand(), env.exitStatus(n + 2, CalibrationCommand()))] + RetireEvents("Orb");
    var c := [Run(FlatteningCommand(), env.exitStatus(n + 5, FlatteningCommand()))] + RetireEvents("Cal");
    var d := [Run(CorrectionCommand(), env.exitStatus(n + 8, CorrectionCommand()))] + RetireEvents("TF");
    Rtc.CommandsAppend4(a, b, c, d);
    RunThenQuiet(a[0], a[1..]);
    RunThenQuiet(b[0], b[1..]);
    RunThenQuiet(c[0], c[1..]);
    RunThenQuiet(d[0], d[1..]);
    assert a == [a[0]] + a[1..] && b == [b[0]] + b[1..] && c == [c[0]] + c[1..] && d == [d[0]] + d[1..];
  }

  /** A command followed only by removals logs that one command. */
  lemma RunThenQuiet(e: Event, rest: seq<Event>)
    requires e.Run? && forall i :: 0 <= i < |rest| ==> !rest[i].Run?
    ensures Rtc.Commands([e] + rest) == [e.argv]
  {
    Rtc.CommandsCons(e, rest);
    Rtc.NoRunNoCommands(rest);
  }
}
