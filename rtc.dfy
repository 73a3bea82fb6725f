/**
 * The current driver: find the granule's download link in the catalog
 * response, download it, run six SNAP `gpt` stages in a fixed order (each
 * stage reading the previous stage's `.dim` product), convert every band of
 * the terrain-corrected product into a tiled GeoTIFF with an ArcGIS metadata
 * sidecar, and retire every intermediate artifact after its consumer has
 * succeeded. Any external command that fails ends the run with its status.
 */
module Rtc {
  import opened Wrappers
  import opened Strings
  import opened Os
  import opened Cmr
  import opened Products

  // ---------------------------------------------------------------------------
  // Catalog lookup and download

  /** The `href` of the first link whose relation mentions "data", if any. */
  function FirstDataHref(links: seq<Link>): (r: Option<string>)
    ensures r.None? <==> forall i :: 0 <= i < |links| ==> !IsDataLink(links[i])
    ensures r.Some? ==>
      exists i :: 0 <= i < |links| && IsDataLink(links[i]) && links[i].href == r.value &&
        forall j :: 0 <= j < i ==> !IsDataLink(links[j])
    decreases |links|
  {
    if links == [] then None
    else if IsDataLink(links[0]) then Some(links[0].href)
    else
      var r := FirstDataHref(links[1..]);
      assert forall i :: 1 <= i < |links| ==> links[1..][i - 1] == links[i];
      r
  }

  /**
   * `get_download_url` on a parsed response: `None` when there is no entry,
   * otherwise the first data link of the first entry (or `None`).
   */
  function DownloadUrl(entries: seq<Entry>): (r: Option<string>)
    ensures r.Some? <==>
      |entries| > 0 && exists i :: 0 <= i < |entries[0].links| && IsDataLink(entries[0].links[i])
    ensures r.Some? ==>
      exists i :: 0 <= i < |entries[0].links| && IsDataLink(entries[0].links[i]) &&
        entries[0].links[i].href == r.value &&
        forall j :: 0 <= j < i ==> !IsDataLink(entries[0].links[j])
  {
    if |entries| == 0 then None else FirstDataHref(entries[0].links)
  }

  /**
   * `download_file`: the transfer is taken to succeed; the granule lands in
   * the working directory under the last path segment of its URL.
   */
  method DownloadFile(h: Host, url: string) returns (localFile: string)
    modifies h
    ensures localFile == LastSegment(url)
    ensures h.State() == AfterWrite(old(h.State()), localFile, [url])
  {
    localFile := LastSegment(url);
    h.Write(localFile, [url]);
  }

  // ---------------------------------------------------------------------------
  // Fail-fast command execution

  /**
   * The fail-fast discipline: a command with a nonzero status is always the
   * last thing in the trace and the process has exited with that status (as
   * the parent sees it, folded into 0..255); and the process only ever exits
   * that way.
   */
  predicate FailFast(w: World) {
    && (forall i :: 0 <= i < |w.trace| && w.trace[i].Run? && w.trace[i].status != 0 ==>
          i == |w.trace| - 1 && w.status == Exited(ProcessStatus(w.trace[i].status)))
    && (w.status.Exited? ==>
          |w.trace| > 0 && w.trace[|w.trace| - 1].Run? && w.trace[|w.trace| - 1].status != 0 &&
          ProcessStatus(w.trace[|w.trace| - 1].status) == w.status.code)
  }

  /** Steps that run no command and never exit keep the discipline. */
  lemma FailFastKept(w: World, r: World)
    requires Extends(w, r)
    requires forall i :: |w.trace| <= i < |r.trace| ==> !r.trace[i].Run?
    requires r.status.Exited? ==> r == w
    ensures FailFast(w) ==> FailFast(r)
  {
  }

  /** `system_call`: after a nonzero status nothing else happens and the run ends with that status. */
  function SystemCallSpec(w: World, env: Env, params: seq<string>): (r: World)
    ensures Extends(w, r)
    ensures FailFast(w) ==> FailFast(r)
    ensures w.status.Running? ==> r.trace == w.trace + [Run(params, ExitStatus(w, env, params))]
    ensures w.status.Running? && ExitStatus(w, env, params) != 0 ==>
      r == w.(trace := r.trace, status := Exited(ProcessStatus(ExitStatus(w, env, params))))
    ensures w.status.Running? && ExitStatus(w, env, params) == 0 ==>
      r.status.Running? && r.files == w.files + ToolOutputs(params).files && r.dirs == w.dirs + ToolOutputs(params).dirs
  {
    var code := ExitStatus(w, env, params);
    var w1 := AfterCall(w, env, params);
    if code != 0 then AfterExit(w1, code) else w1
  }

  method SystemCall(h: Host, params: seq<string>)
    modifies h
    ensures h.State() == SystemCallSpec(old(h.State()), h.env, params)
  {
    var returnCode := h.Call(params);
    if returnCode != 0 {
      h.Exit(returnCode);
    }
  }

  // ---------------------------------------------------------------------------
  // Retiring an artifact

  /** `input_file.replace(".dim", ".data")`: every occurrence, not just the extension. */
  function DataDir(descriptor: string): string {
    ReplaceAll(descriptor, ".dim", ".data")
  }

  /** The data directory that retiring `inputFile` removes as well, if any. */
  function RetiredDirs(inputFile: string): set<string> {
    if EndsWith(inputFile, ".dim") then {DataDir(inputFile)} else {}
  }

  /** The trace entries of a successful `cleanup(inputFile)`. */
  function CleanupEvents(inputFile: string): seq<Event> {
    [Unlink(inputFile)] + if EndsWith(inputFile, ".dim") then [RmTree(DataDir(inputFile))] else []
  }

  /**
   * `cleanup`: removes the file, and its `.data` directory exactly when the
   * name ends in `.dim`; nothing else changes. A missing file or directory is
   * fatal.
   */
  function CleanupSpec(w: World, inputFile: string): (r: World)
    ensures Extends(w, r)
    ensures FailFast(w) ==> FailFast(r)
    ensures r.status.Running? <==>
      w.status.Running? && inputFile in w.files && RetiredDirs(inputFile) <= w.dirs
    ensures r.status.Running? ==>
      r.files == w.files - {inputFile} && r.dirs == w.dirs - RetiredDirs(inputFile) &&
      r.trace == w.trace + CleanupEvents(inputFile)
    ensures w.status.Running? && inputFile !in w.files ==>
      r == w.(status := Crashed(NoSuchPath(inputFile)))
    ensures w.status.Running? && inputFile in w.files && EndsWith(inputFile, ".dim") && DataDir(inputFile) !in w.dirs ==>
      r == w.(files := w.files - {inputFile}, trace := w.trace + [Unlink(inputFile)],
              status := Crashed(NoSuchPath(DataDir(inputFile))))
  {
    var w1 := AfterUnlink(w, inputFile);
    var r := if EndsWith(inputFile, ".dim") then AfterRmTree(w1, DataDir(inputFile)) else w1;
    FailFastKept(w, w1);
    FailFastKept(w1, r);
    r
  }

  method Cleanup(h: Host, inputFile: string)
    modifies h
    ensures h.State() == CleanupSpec(old(h.State()), inputFile)
  {
    h.Unlink(inputFile);
    if EndsWith(inputFile, ".dim") {
      var dataDir := DataDir(inputFile);
      h.RmTree(dataDir);
    }
  }

  // ---------------------------------------------------------------------------
  // One processing stage

  /** `gpt <command> -Ssource=<input> -t <command> <args...>` */
  function GptCommand(inputFile: string, command: string, args: seq<string>): seq<string> {
    ["gpt", command, "-Ssource=" + inputFile, "-t", command] + args
  }

  /** `f"{command}.dim"`, the descriptor a stage returns. */
  function StageOutput(command: string): string {
    command + ".dim"
  }

  /** The data directory that accompanies a stage's descriptor. */
  function StageData(command: string): string {
    command + ".data"
  }

  /** A stage name usable as a product name: no '.' in it, and not the `-t` flag itself. */
  predicate IsStageName(command: string) {
    '.' !in command && command != "-t"
  }

  /** A `gpt` stage writes precisely the product the function returns, with its data directory. */
  lemma GptCommandOutputs(inputFile: string, command: string, args: seq<string>)
    ensures command != "-t" ==>
      ToolOutputs(GptCommand(inputFile, command, args)) == Artifacts({StageOutput(command)}, {StageData(command)})
  {
    if command != "-t" {
      var before := ["gpt", command, "-Ssource=" + inputFile];
      assert |before[2]| >= 9;
      assert "-t" !in before;
      assert GptCommand(inputFile, command, args) == before + ["-t", command] + args;
      TargetAfterFlag(before, command, args);
    }
  }

  /** Retiring a stage's descriptor removes that stage's own data directory. */
  lemma StageDataDir(command: string)
    requires '.' !in command
    ensures EndsWith(StageOutput(command), ".dim")
    ensures DataDir(StageOutput(command)) == StageData(command)
    ensures RetiredDirs(StageOutput(command)) == {StageData(command)}
  {
    ReplaceSuffix(command, ".dim", ".data");
  }

  /**
   * `gpt(input_file, command, *args)`: when the tool fails the run ends with
   * its status and the input is NOT retired; when it succeeds the stage's
   * product appears and the input is retired.
   */
  function GptSpec(w: World, env: Env, inputFile: string, command: string, args: seq<string>): (r: World)
    ensures Extends(w, r)
    ensures FailFast(w) ==> FailFast(r)
    ensures var argv := GptCommand(inputFile, command, args);
      w.status.Running? && ExitStatus(w, env, argv) != 0 ==>
        r == w.(trace := w.trace + [Run(argv, ExitStatus(w, env, argv))], status := Exited(ProcessStatus(ExitStatus(w, env, argv))))
    ensures var argv := GptCommand(inputFile, command, args);
      r.status.Running? ==>
        ExitStatus(w, env, argv) == 0 && r.trace == w.trace + [Run(argv, 0)] + CleanupEvents(inputFile)
    ensures r.status.Running? && command != "-t" ==>
      r.files == (w.files + {StageOutput(command)}) - {inputFile} &&
      r.dirs == (w.dirs + {StageData(command)}) - RetiredDirs(inputFile)
  {
    GptCommandOutputs(inputFile, command, args);
    var w1 := SystemCallSpec(w, env, GptCommand(inputFile, command, args));
    CleanupSpec(w1, inputFile)
  }

  method Gpt(h: Host, inputFile: string, command: string, args: seq<string>) returns (outputFile: string)
    modifies h
    ensures outputFile == StageOutput(command)
    ensures h.State() == GptSpec(old(h.State()), h.env, inputFile, command, args)
  {
    SystemCall(h, GptCommand(inputFile, command, args));
    Cleanup(h, inputFile);
    outputFile := command + ".dim";
  }

  // ---------------------------------------------------------------------------
  // The stage chain

  /** A processing stage: the `gpt` operator (also the product name) and its extra parameters. */
  datatype Stage = Stage(command: string, args: seq<string>)

  // The six stages of the main chain.
  const OrbitStage := Stage("Apply-Orbit-File", [])
  const CalibrationStage := Stage("Calibration", ["-PoutputBetaBand=true", "-PoutputSigmaBand=false"])
  const SpeckleStage := Stage("Speckle-Filter", [])
  const MultilookStage := Stage("Multilook", ["-PnRgLooks=3", "-PnAzLooks=3"])
  const FlatteningStage := Stage("Terrain-Flattening", ["-PreGridMethod=False"])
  const CorrectionStage := Stage("Terrain-Correction", ["-PpixelSpacingInMeter=30.0", "-PdemName=SRTM 1Sec HGT"])

  /** The six stages of the main chain, in order. */
  const Stages: seq<Stage> := [OrbitStage, CalibrationStage, SpeckleStage, MultilookStage, FlatteningStage, CorrectionStage]

  /** Runs the stages one after another, each on the product of the one before. */
  function ChainSpec(w: World, env: Env, inputFile: string, stages: seq<Stage>): (r: World)
    ensures Extends(w, r)
    ensures FailFast(w) ==> FailFast(r)
    decreases |stages|
  {
    if stages == [] then w
    else
      var w1 := GptSpec(w, env, inputFile, stages[0].command, stages[0].args);
      ChainSpec(w1, env, StageOutput(stages[0].command), stages[1..])
  }

  /** The product the chain ends with. */
  function ChainOutput(inputFile: string, stages: seq<Stage>): string {
    if stages == [] then inputFile else StageOutput(stages[|stages| - 1].command)
  }

  /** The trace of a chain in which every stage succeeds. */
  function ChainEvents(inputFile: string, stages: seq<Stage>): seq<Event>
    decreases |stages|
  {
    if stages == [] then []
    else
      [Run(GptCommand(inputFile, stages[0].command, stages[0].args), 0)] +
      (CleanupEvents(inputFile) + ChainEvents(StageOutput(stages[0].command), stages[1..]))
  }

  /** The command lines such a chain issues. */
  function ChainCommands(inputFile: string, stages: seq<Stage>): seq<seq<string>>
    decreases |stages|
  {
    if stages == [] then []
    else [GptCommand(inputFile, stages[0].command, stages[0].args)] + ChainCommands(StageOutput(stages[0].command), stages[1..])
  }

  /** Every descriptor the stages write. */
  function Outputs(stages: seq<Stage>): set<string>
    decreases |stages|
  {
    if stages == [] then {} else {StageOutput(stages[0].command)} + Outputs(stages[1..])
  }

  /** Every data directory the stages write. */
  function AllData(stages: seq<Stage>): set<string>
    decreases |stages|
  {
    if stages == [] then {} else {StageData(stages[0].command)} + AllData(stages[1..])
  }

  /** The descriptors consumed inside the chain: every output but the last. */
  function Retired(stages: seq<Stage>): set<string>
    decreases |stages|
  {
    if |stages| <= 1 then {} else {StageOutput(stages[0].command)} + Retired(stages[1..])
  }

  /** The data directories consumed inside the chain. */
  function RetiredData(stages: seq<Stage>): set<string>
    decreases |stages|
  {
    if |stages| <= 1 then {} else {StageData(stages[0].command)} + RetiredData(stages[1..])
  }

  /** Stage names are product names, and no two stages share a name. */
  predicate ValidStages(stages: seq<Stage>) {
    && (forall i :: 0 <= i < |stages| ==> IsStageName(stages[i].command))
    && (forall i, j :: 0 <= i < j < |stages| ==> stages[i].command != stages[j].command)
  }

  /** Every product of a chain is written by one of its stages. */
  lemma {:induction false} OutputsWrittenByStages(stages: seq<Stage>, p: string)
    ensures p in Outputs(stages) ==> exists i :: 0 <= i < |stages| && p == StageOutput(stages[i].command)
    ensures p in AllData(stages) ==> exists i :: 0 <= i < |stages| && p == StageData(stages[i].command)
    decreases |stages|
  {
    if stages != [] {
      OutputsWrittenByStages(stages[1..], p);
      assert forall i :: 0 <= i < |stages[1..]| ==> stages[1..][i] == stages[i + 1];
    }
  }

  /** Distinct stage names give distinct products. */
  lemma StageNamesInjective(a: string, b: string)
    ensures StageOutput(a) == StageOutput(b) ==> a == b
    ensures StageData(a) == StageData(b) ==> a == b
  {
    if StageOutput(a) == StageOutput(b) {
      assert a == StageOutput(a)[..|a|];
    }
    if StageData(a) == StageData(b) {
      assert a == StageData(a)[..|a|];
    }
  }

  /** The first stage of a valid chain writes products no later stage writes, and the rest is valid. */
  lemma ValidTail(stages: seq<Stage>)
    requires ValidStages(stages) && stages != []
    ensures IsStageName(stages[0].command) && ValidStages(stages[1..])
    ensures StageOutput(stages[0].command) !in Outputs(stages[1..])
    ensures StageData(stages[0].command) !in AllData(stages[1..])
  {
    var rest := stages[1..];
    assert forall i :: 0 <= i < |rest| ==> rest[i] == stages[i + 1];
    var c := stages[0].command;
    forall i | 0 <= i < |rest|
      ensures StageOutput(c) != StageOutput(rest[i].command) && StageData(c) != StageData(rest[i].command)
    {
      StageNamesInjective(c, rest[i].command);
    }
    OutputsWrittenByStages(rest, StageOutput(c));
    OutputsWrittenByStages(rest, StageData(c));
  }

  /** Every product a chain writes is a `.dim` descriptor. */
  lemma {:induction false} OutputsAreDescriptors(stages: seq<Stage>, p: string)
    requires p in Outputs(stages)
    ensures EndsWith(p, ".dim")
    decreases |stages|
  {
    if p != StageOutput(stages[0].command) {
      OutputsAreDescriptors(stages[1..], p);
    }
  }

  /** Consumed products are products. */
  lemma {:induction false} RetiredAreOutputs(stages: seq<Stage>)
    ensures Retired(stages) <= Outputs(stages)
    ensures RetiredData(stages) <= AllData(stages)
    decreases |stages|
  {
    if |stages| > 1 {
      RetiredAreOutputs(stages[1..]);
    }
  }

  /** A chain that finishes running produced exactly the all-success trace. */
  lemma {:induction false} ChainTrace(w: World, env: Env, inputFile: string, stages: seq<Stage>)
    requires ChainSpec(w, env, inputFile, stages).status.Running?
    ensures ChainSpec(w, env, inputFile, stages).trace == w.trace + ChainEvents(inputFile, stages)
    decreases |stages|
  {
    if stages != [] {
      var c, rest := stages[0].command, stages[1..];
      var w1 := GptSpec(w, env, inputFile, c, stages[0].args);
      var r := ChainSpec(w1, env, StageOutput(c), rest);
      ChainStep(w, env, inputFile, stages);
      assert w1.status.Running?;
      ChainTrace(w1, env, StageOutput(c), rest);
      Assoc3(w.trace, w1.trace, r.trace, [Run(GptCommand(inputFile, c, stages[0].args), 0)], CleanupEvents(inputFile),
        ChainEvents(StageOutput(c), rest));
    }
  }

  lemma Assoc3<T>(t0: seq<T>, t1: seq<T>, t2: seq<T>, a: seq<T>, b: seq<T>, c: seq<T>)
    requires t1 == t0 + a + b && t2 == t1 + c
    ensures t2 == t0 + (a + (b + c))
  {
  }

  /**
   * What a finished chain leaves on disk: the input and every consumed
   * product are gone, the last product is present, nothing else changed.
   */
  lemma {:induction false} ChainArtifacts(w: World, env: Env, inputFile: string, stages: seq<Stage>)
    requires ValidStages(stages) && stages != []
    requires inputFile !in Outputs(stages) && RetiredDirs(inputFile) !! AllData(stages)
    requires ChainSpec(w, env, inputFile, stages).status.Running?
    ensures var r := ChainSpec(w, env, inputFile, stages);
      r.files == (w.files - ({inputFile} + Retired(stages))) + {ChainOutput(inputFile, stages)} &&
      r.dirs == (w.dirs - (RetiredDirs(inputFile) + RetiredData(stages))) + {StageData(stages[|stages| - 1].command)}
    decreases |stages|
  {
    var c0 := stages[0].command;
    var rest := stages[1..];
    var w1 := GptSpec(w, env, inputFile, c0, stages[0].args);
    ValidTail(stages);
    assert w1.files == (w.files + {StageOutput(c0)}) - {inputFile};
    assert w1.dirs == (w.dirs + {StageData(c0)}) - RetiredDirs(inputFile);
    if rest != [] {
      StageDataDir(c0);
      assert stages[|stages| - 1] == rest[|rest| - 1];
      ChainArtifacts(w1, env, StageOutput(c0), rest);
    }
  }

  /** Retiring an artifact runs no command. */
  lemma CleanupRunsNothing(inputFile: string)
    ensures Commands(CleanupEvents(inputFile)) == []
  {
    NoRunNoCommands(CleanupEvents(inputFile));
  }

  /** A trace without `Run` events contributes no command line. */
  lemma {:induction false} NoRunNoCommands(events: seq<Event>)
    requires forall i :: 0 <= i < |events| ==> !events[i].Run?
    ensures Commands(events) == []
    decreases |events|
  {
    if events != [] {
      NoRunNoCommands(events[1..]);
    }
  }

  /** The command lines of a successful chain, read off its trace. */
  lemma {:induction false} ChainCommandLog(inputFile: string, stages: seq<Stage>)
    ensures Commands(ChainEvents(inputFile, stages)) == ChainCommands(inputFile, stages)
    decreases |stages|
  {
    if stages != [] {
      var run := Run(GptCommand(inputFile, stages[0].command, stages[0].args), 0);
      var tail := ChainEvents(StageOutput(stages[0].command), stages[1..]);
      CommandsCons(run, CleanupEvents(inputFile) + tail);
      CommandsAppend(CleanupEvents(inputFile), tail);
      CleanupRunsNothing(inputFile);
      ChainCommandLog(StageOutput(stages[0].command), stages[1..]);
    }
  }

  /** A successful first stage, its cleanup, then the rest of the chain. */
  lemma ChainEventsCons(inputFile: string, stages: seq<Stage>)
    requires stages != []
    ensures ChainEvents(inputFile, stages) ==
      ([Run(GptCommand(inputFile, stages[0].command, stages[0].args), 0)] + CleanupEvents(inputFile)) +
      ChainEvents(StageOutput(stages[0].command), stages[1..])
  {
  }

  /** A command and the cleanup of `inputFile`: one unlink of it, one removal of its data directory if any. */
  lemma HeadRemovals(run: Event, inputFile: string, p: string)
    requires run.Run?
    ensures multiset([run] + CleanupEvents(inputFile))[Unlink(p)] == if p == inputFile then 1 else 0
    ensures multiset([run] + CleanupEvents(inputFile))[RmTree(p)] == if p in RetiredDirs(inputFile) then 1 else 0
  {
  }

  /** How often a successful chain unlinks a path: once for the input, once per consumed product. */
  lemma {:induction false} ChainUnlinkCount(inputFile: string, stages: seq<Stage>, p: string)
    requires ValidStages(stages)
    ensures multiset(ChainEvents(inputFile, stages))[Unlink(p)] ==
      if stages == [] then 0
      else (if p == inputFile then 1 else 0) + (if p in Retired(stages) then 1 else 0)
    decreases |stages|
  {
    if stages != [] {
      var out0 := StageOutput(stages[0].command);
      var rest := stages[1..];
      ValidTail(stages);
      RetiredAreOutputs(rest);
      ChainUnlinkCount(out0, rest, p);
      var head := [Run(GptCommand(inputFile, stages[0].command, stages[0].args), 0)] + CleanupEvents(inputFile);
      ChainEventsCons(inputFile, stages);
      CountConcat(ChainEvents(inputFile, stages), head, ChainEvents(out0, rest), Unlink(p));
      HeadRemovals(head[0], inputFile, p);
      var own, later := rest != [] && p == out0, rest != [] && p in Retired(rest);
      assert p in Retired(stages) <==> own || later;
      Tally(multiset(ChainEvents(inputFile, stages))[Unlink(p)], multiset(head)[Unlink(p)],
        multiset(ChainEvents(out0, rest))[Unlink(p)], p == inputFile, own, later, p in Retired(stages));
    }
  }

  /** How often a successful chain removes a data directory: once per retired descriptor. */
  lemma {:induction false} ChainRmTreeCount(inputFile: string, stages: seq<Stage>, d: string)
    requires ValidStages(stages)
    ensures multiset(ChainEvents(inputFile, stages))[RmTree(d)] ==
      if stages == [] then 0
      else (if d in RetiredDirs(inputFile) then 1 else 0) + (if d in RetiredData(stages) then 1 else 0)
    decreases |stages|
  {
    if stages != [] {
      var c0 := stages[0].command;
      var rest := stages[1..];
      ValidTail(stages);
      RetiredAreOutputs(rest);
      ChainRmTreeCount(StageOutput(c0), rest, d);
      if rest != [] {
        StageDataDir(c0);
      }
      var head := [Run(GptCommand(inputFile, c0, stages[0].args), 0)] + CleanupEvents(inputFile);
      ChainEventsCons(inputFile, stages);
      CountConcat(ChainEvents(inputFile, stages), head, ChainEvents(StageOutput(c0), rest), RmTree(d));
      HeadRemovals(head[0], inputFile, d);
      var own, later := rest != [] && d == StageData(c0), rest != [] && d in RetiredData(rest);
      assert rest != [] ==> (d in RetiredDirs(StageOutput(c0)) <==> own);
      assert d in RetiredData(stages) <==> own || later;
      Tally(multiset(ChainEvents(inputFile, stages))[RmTree(d)], multiset(head)[RmTree(d)],
        multiset(ChainEvents(StageOutput(c0), rest))[RmTree(d)], d in RetiredDirs(inputFile), own, later, d in RetiredData(stages));
    }
  }

  /** The count of a head event plus the counts of a tail in which it occurs at most once. */
  lemma Tally(n: int, nh: int, nt: int, inHead: bool, own: bool, later: bool, retired: bool)
    requires n == nh + nt && nh == (if inHead then 1 else 0)
    requires nt == (if own then 1 else 0) + (if later then 1 else 0)
    requires !(own && later) && (retired <==> own || later)
    ensures n == (if inHead then 1 else 0) + (if retired then 1 else 0)
  {
  }

  /** Occurrences in a concatenation add up. */
  lemma CountConcat(e: seq<Event>, a: seq<Event>, b: seq<Event>, x: Event)
    requires e == a + b
    ensures multiset(e)[x] == multiset(a)[x] + multiset(b)[x]
  {
  }

  /**
   * Every removal in a trace comes right after a command that exited with
   * status 0: an unlink directly, a tree removal one step further back.
   */
  predicate RetiresAfterSuccess(e: seq<Event>) {
    forall k :: 0 <= k < |e| ==> RetiresAfterSuccessAt(e, k)
  }

  predicate RetiresAfterSuccessAt(e: seq<Event>, k: nat)
    requires k < |e|
  {
    (e[k].Unlink? ==> 0 < k && e[k - 1].Run? && e[k - 1].status == 0) &&
    (e[k].RmTree? ==> 1 < k && e[k - 2].Run? && e[k - 2].status == 0)
  }

  lemma RetiresAfterSuccessAppend(a: seq<Event>, b: seq<Event>)
    requires RetiresAfterSuccess(a) && RetiresAfterSuccess(b)
    ensures RetiresAfterSuccess(a + b)
  {
    var e := a + b;
    forall k | 0 <= k < |e|
      ensures RetiresAfterSuccessAt(e, k)
    {
      if k < |a| {
        assert RetiresAfterSuccessAt(a, k);
        assert e[k] == a[k];
        if 0 < k { assert e[k - 1] == a[k - 1]; }
        if 1 < k { assert e[k - 2] == a[k - 2]; }
      } else {
        var j := k - |a|;
        assert RetiresAfterSuccessAt(b, j);
        assert e[k] == b[j];
        if 0 < j { assert e[k - 1] == b[j - 1]; }
        if 1 < j { assert e[k - 2] == b[j - 2]; }
      }
    }
  }

  /** A successful run followed by the cleanup of its input retires only what that run consumed. */
  lemma HeadRetires(run: Event, inputFile: string)
    requires run.Run? && run.status == 0
    ensures RetiresAfterSuccess([run] + CleanupEvents(inputFile))
  {
    var head := [run] + CleanupEvents(inputFile);
    assert RetiresAfterSuccessAt(head, 0) && RetiresAfterSuccessAt(head, 1);
    assert |head| == 3 ==> RetiresAfterSuccessAt(head, 2);
  }

  /** In a successful chain every removal comes right after the stage that consumed it. */
  lemma {:induction false} ChainRetiresAfterSuccess(inputFile: string, stages: seq<Stage>)
    ensures RetiresAfterSuccess(ChainEvents(inputFile, stages))
    decreases |stages|
  {
    if stages != [] {
      var run := Run(GptCommand(inputFile, stages[0].command, stages[0].args), 0);
      var head := [run] + CleanupEvents(inputFile);
      var tail := ChainEvents(StageOutput(stages[0].command), stages[1..]);
      ChainRetiresAfterSuccess(StageOutput(stages[0].command), stages[1..]);
      ChainEventsCons(inputFile, stages);
      HeadRetires(run, inputFile);
      RetiresAfterSuccessAppend(head, tail);
    }
  }

  // ---------------------------------------------------------------------------
  // Materializing the bands

  /** The fields the metadata template receives, `now` aside. */
  function XmlFields(granule: string, polarization: string): seq<string> {
    [granule, polarization, AcquisitionYear(granule)]
  }

  /** `create_arcgis_xml`: writes the rendered document to `outputFile`. */
  function ArcgisXmlSpec(w: World, granule: string, outputFile: string, polarization: string): (r: World)
    ensures Extends(w, r)
    ensures FailFast(w) ==> FailFast(r)
    ensures w.status.Running? && outputFile != "" ==>
      r == w.(files := w.files + {outputFile}, trace := w.trace + [Write(outputFile, XmlFields(granule, polarization))])
  {
    var r := AfterWrite(w, outputFile, XmlFields(granule, polarization));
    FailFastKept(w, r);
    r
  }

  method CreateArcgisXml(h: Host, inputGranule: string, outputFile: string, polarization: string)
    modifies h
    ensures h.State() == ArcgisXmlSpec(old(h.State()), inputGranule, outputFile, polarization)
  {
    h.Write(outputFile, XmlFields(inputGranule, polarization));
  }

  /** The trace of a successful band conversion. */
  function GeotiffEvents(inputFile: string, outputFile: string): seq<Event> {
    [Run(TranslateCommand(inputFile), 0), Run(OverviewCommand(), 0), Run(TileCommand(outputFile), 0), Unlink(TempFile)]
  }

  /** The three conversion commands write `temp.tif`, nothing, and the output file. */
  lemma ConversionOutputs(inputFile: string, outputFile: string)
    ensures ToolOutputs(TranslateCommand(inputFile)) == Artifacts({TempFile}, {})
    ensures ToolOutputs(OverviewCommand()) == Artifacts({}, {})
    ensures ToolOutputs(TileCommand(outputFile)) == Artifacts({outputFile}, {})
  {
  }

  /** `temp.tif` is not a stage descriptor. */
  lemma TempFileNotDescriptor()
    ensures !EndsWith(TempFile, ".dim")
  {
    assert TempFile[|TempFile| - 4..][1] != ".dim"[1];
  }

  /**
   * `create_geotiff_from_img`: translate to `temp.tif`, add overviews, write
   * the tiled compressed output, retire `temp.tif`; any failing command ends
   * the run.
   */
  function GeotiffSpec(w: World, env: Env, inputFile: string, outputFile: string): (r: World)
    ensures Extends(w, r)
    ensures FailFast(w) ==> FailFast(r)
    ensures r.status.Running? ==>
      r.trace == w.trace + GeotiffEvents(inputFile, outputFile) &&
      r.files == (w.files + {TempFile, outputFile}) - {TempFile} && r.dirs == w.dirs
  {
    ConversionOutputs(inputFile, outputFile);
    TempFileNotDescriptor();
    var w1 := SystemCallSpec(w, env, TranslateCommand(inputFile));
    var w2 := SystemCallSpec(w1, env, OverviewCommand());
    var w3 := SystemCallSpec(w2, env, TileCommand(outputFile));
    CleanupSpec(w3, TempFile)
  }

  method CreateGeotiffFromImg(h: Host, inputFile: string, outputFile: string)
    modifies h
    ensures h.State() == GeotiffSpec(old(h.State()), h.env, inputFile, outputFile)
  {
    SystemCall(h, TranslateCommand(inputFile));
    SystemCall(h, OverviewCommand());
    SystemCall(h, TileCommand(outputFile));
    Cleanup(h, TempFile);
  }

  /** One iteration of the band loop: only `.img` files are materialized. */
  function BandStep(w: World, env: Env, granule: string, dataDir: string, fileName: string): (r: World)
    ensures Extends(w, r)
    ensures FailFast(w) ==> FailFast(r)
  {
    if IsBandImage(fileName) then
      var polarization := Polarization(fileName);
      var tif := OutputTif(granule, polarization);
      var w1 := GeotiffSpec(w, env, dataDir + "/" + fileName, tif);
      ArcgisXmlSpec(w1, granule, Sidecar(tif), polarization)
    else w
  }

  /** The band loop over the names `os.listdir` returned, in that order. */
  function BandLoopSpec(w: World, env: Env, granule: string, dataDir: string, names: seq<string>): (r: World)
    ensures Extends(w, r)
    ensures FailFast(w) ==> FailFast(r)
    decreases |names|
  {
    if names == [] then w
    else BandLoopSpec(BandStep(w, env, granule, dataDir, names[0]), env, granule, dataDir, names[1..])
  }

  /** The trace of materializing one band image: three commands, retiring `temp.tif`, the sidecar. */
  function BandImageEvents(granule: string, dataDir: string, fileName: string): seq<Event> {
    var tif := OutputTif(granule, Polarization(fileName));
    GeotiffEvents(dataDir + "/" + fileName, tif) + [Write(Sidecar(tif), XmlFields(granule, Polarization(fileName)))]
  }

  /** The three command lines of one band image. */
  function BandImageCommands(granule: string, dataDir: string, fileName: string): seq<seq<string>> {
    [TranslateCommand(dataDir + "/" + fileName), OverviewCommand(), TileCommand(OutputTif(granule, Polarization(fileName)))]
  }

  /** Three commands, an unlink and a write contribute the three command lines to the log. */
  lemma ThreeRunsCommands(a: Event, b: Event, c: Event, d: Event, x: Event)
    requires a.Run? && b.Run? && c.Run? && !d.Run? && !x.Run?
    ensures Commands([a, b, c, d, x]) == [a.argv, b.argv, c.argv]
  {
    var t := [d, x];
    NoRunNoCommands(t);
    CommandsCons(c, t);
    CommandsCons(b, [c] + t);
    CommandsCons(a, [b] + ([c] + t));
    assert [a, b, c, d, x] == [a] + ([b] + ([c] + t));
  }

  /** Three commands, an unlink and a write remove exactly the unlinked path. */
  lemma ThreeRunsRemovals(a: Event, b: Event, c: Event, d: Event, x: Event, p: string)
    requires a.Run? && b.Run? && c.Run? && d.Unlink? && x.Write?
    ensures multiset([a, b, c, d, x])[Unlink(p)] == if p == d.path then 1 else 0
    ensures multiset([a, b, c, d, x])[RmTree(p)] == 0
  {
    assert multiset([a, b, c, d, x]) == multiset{a, b, c, d, x};
  }

  /** One band image issues its three commands and removes `temp.tif` once, nothing else. */
  lemma BandImageFacts(granule: string, dataDir: string, fileName: string, p: string)
    ensures Commands(BandImageEvents(granule, dataDir, fileName)) == BandImageCommands(granule, dataDir, fileName)
    ensures multiset(BandImageEvents(granule, dataDir, fileName))[Unlink(p)] == if p == TempFile then 1 else 0
    ensures multiset(BandImageEvents(granule, dataDir, fileName))[RmTree(p)] == 0
  {
    var e := BandImageEvents(granule, dataDir, fileName);
    assert e == [e[0], e[1], e[2], e[3], e[4]];
    ThreeRunsCommands(e[0], e[1], e[2], e[3], e[4]);
    ThreeRunsRemovals(e[0], e[1], e[2], e[3], e[4], p);
  }

  /** The trace of a band loop in which every command succeeds. */
  function BandEvents(granule: string, dataDir: string, names: seq<string>): seq<Event>
    decreases |names|
  {
    if names == [] then []
    else
      (if IsBandImage(names[0]) then BandImageEvents(granule, dataDir, names[0]) else []) +
      BandEvents(granule, dataDir, names[1..])
  }

  /** The command lines of such a band loop: three per band image. */
  function BandCommands(granule: string, dataDir: string, names: seq<string>): seq<seq<string>>
    decreases |names|
  {
    if names == [] then []
    else
      (if IsBandImage(names[0]) then BandImageCommands(granule, dataDir, names[0]) else []) +
      BandCommands(granule, dataDir, names[1..])
  }

  /** The final products: one GeoTIFF and one sidecar per band image. */
  function BandProducts(granule: string, names: seq<string>): set<string>
    decreases |names|
  {
    if names == [] then {}
    else
      var tif := OutputTif(granule, Polarization(names[0]));
      (if IsBandImage(names[0]) then {tif, Sidecar(tif)} else {}) + BandProducts(granule, names[1..])
  }

  predicate HasBandImage(names: seq<string>) {
    exists i :: 0 <= i < |names| && IsBandImage(names[i])
  }

  /** The number of band images among the names. */
  function BandImageCount(names: seq<string>): nat
    decreases |names|
  {
    if names == [] then 0 else (if IsBandImage(names[0]) then 1 else 0) + BandImageCount(names[1..])
  }

  /** Final products live in the output directory, so none of them is a working-directory file. */
  lemma {:induction false} ProductsInOutputDir(granule: string, names: seq<string>, p: string)
    requires p in BandProducts(granule, names)
    ensures |p| > 0 && p[0] == '/'
    decreases |names|
  {
    var tif := OutputTif(granule, Polarization(names[0]));
    if IsBandImage(names[0]) && (p == tif || p == Sidecar(tif)) {
      assert tif[..|OutputDir|] == OutputDir;
      assert p[0] == tif[0];
    } else {
      ProductsInOutputDir(granule, names[1..], p);
    }
  }

  /** One band step that keeps running. */
  lemma BandStepSuccess(w: World, env: Env, granule: string, dataDir: string, n: string)
    requires BandStep(w, env, granule, dataDir, n).status.Running?
    ensures var r, tif := BandStep(w, env, granule, dataDir, n), OutputTif(granule, Polarization(n));
      r.dirs == w.dirs &&
      (IsBandImage(n) ==>
        r.trace == w.trace + BandImageEvents(granule, dataDir, n) &&
        r.files == (w.files - {TempFile}) + {tif, Sidecar(tif)}) &&
      (!IsBandImage(n) ==> r == w)
  {
    if IsBandImage(n) {
      var tif := OutputTif(granule, Polarization(n));
      assert tif[..|OutputDir|] == OutputDir;
      assert tif[0] == '/' && Sidecar(tif)[0] == '/' && TempFile[0] == 't';
      assert tif != "" && Sidecar(tif) != "";
    }
  }

  /**
   * A band loop that finishes running leaves the all-success trace, adds
   * every product, retires `temp.tif` when it ever made one, and touches no
   * directory.
   */
  lemma {:induction false} BandLoopSuccess(w: World, env: Env, granule: string, dataDir: string, names: seq<string>)
    requires BandLoopSpec(w, env, granule, dataDir, names).status.Running?
    ensures var r := BandLoopSpec(w, env, granule, dataDir, names);
      r.trace == w.trace + BandEvents(granule, dataDir, names) &&
      r.dirs == w.dirs &&
      r.files == if HasBandImage(names) then (w.files - {TempFile}) + BandProducts(granule, names) else w.files
    decreases |names|
  {
    if names != [] {
      var n := names[0];
      var rest := names[1..];
      var w1 := BandStep(w, env, granule, dataDir, n);
      var r := BandLoopSpec(w1, env, granule, dataDir, rest);
      assert BandLoopSpec(w, env, granule, dataDir, names) == r;
      BandStepSuccess(w, env, granule, dataDir, n);
      BandLoopSuccess(w1, env, granule, dataDir, rest);
      BandFilesCons(w.files, w1.files, r.files, granule, names);
      BandTraceCons(w.trace, w1.trace, r.trace, granule, dataDir, names);
    }
  }

  /** Set algebra of two consecutive steps that each retire `scratch` and add products. */
  lemma RetireAndAdd(files: set<string>, files1: set<string>, files2: set<string>, scratch: string,
                     own: set<string>, later: set<string>, hadOwn: bool, hasLater: bool)
    requires scratch !in own && scratch !in later
    requires !hadOwn ==> own == {}
    requires !hasLater ==> later == {}
    requires files1 == if hadOwn then (files - {scratch}) + own else files
    requires files2 == if hasLater then (files1 - {scratch}) + later else files1
    ensures files2 == if hadOwn || hasLater then (files - {scratch}) + (own + later) else files
  {
  }

  /** The file bookkeeping of one band-loop step. */
  lemma BandFilesCons(files: set<string>, files1: set<string>, files2: set<string>, granule: string, names: seq<string>)
    requires names != []
    requires var tif := OutputTif(granule, Polarization(names[0]));
      files1 == if IsBandImage(names[0]) then (files - {TempFile}) + {tif, Sidecar(tif)} else files
    requires files2 ==
      if HasBandImage(names[1..]) then (files1 - {TempFile}) + BandProducts(granule, names[1..]) else files1
    ensures files2 == if HasBandImage(names) then (files - {TempFile}) + BandProducts(granule, names) else files
  {
    var n, rest := names[0], names[1..];
    HasBandImageCons(names);
    var tif := OutputTif(granule, Polarization(n));
    var own := if IsBandImage(n) then {tif, Sidecar(tif)} else {};
    var later := BandProducts(granule, rest);
    assert BandProducts(granule, names) == own + later;
    TempNotProduct(granule, names);
    NoImagesNoProducts(granule, rest);
    RetireAndAdd(files, files1, files2, TempFile, own, later, IsBandImage(n), HasBandImage(rest));
  }

  /** The trace bookkeeping of one band-loop step. */
  lemma BandTraceCons(trace: seq<Event>, trace1: seq<Event>, trace2: seq<Event>, granule: string, dataDir: string, names: seq<string>)
    requires names != []
    requires trace1 == trace + if IsBandImage(names[0]) then BandImageEvents(granule, dataDir, names[0]) else []
    requires trace2 == trace1 + BandEvents(granule, dataDir, names[1..])
    ensures trace2 == trace + BandEvents(granule, dataDir, names)
  {
    var head := if IsBandImage(names[0]) then BandImageEvents(granule, dataDir, names[0]) else [];
    var tail := BandEvents(granule, dataDir, names[1..]);
    assert BandEvents(granule, dataDir, names) == head + tail;
    assert (trace + head) + tail == trace + (head + tail);
  }

  lemma {:induction false} NoImagesNoProducts(granule: string, names: seq<string>)
    ensures !HasBandImage(names) ==> BandProducts(granule, names) == {}
    decreases |names|
  {
    if names != [] {
      HasBandImageCons(names);
      NoImagesNoProducts(granule, names[1..]);
    }
  }

  lemma HasBandImageCons(names: seq<string>)
    requires names != []
    ensures HasBandImage(names) <==> IsBandImage(names[0]) || HasBandImage(names[1..])
  {
    if HasBandImage(names[1..]) {
      var i :| 0 <= i < |names[1..]| && IsBandImage(names[1..][i]);
      assert names[i + 1] == names[1..][i];
    }
    if HasBandImage(names) {
      var i :| 0 <= i < |names| && IsBandImage(names[i]);
      if i > 0 {
        assert names[1..][i - 1] == names[i];
      }
    }
  }

  /** The scratch file is never one of the final products. */
  lemma TempNotProduct(granule: string, names: seq<string>)
    ensures TempFile !in BandProducts(granule, names)
  {
    if TempFile in BandProducts(granule, names) {
      ProductsInOutputDir(granule, names, TempFile);
    }
  }

  /** The band loop's command lines in order. */
  lemma {:induction false} BandCommandLog(granule: string, dataDir: string, names: seq<string>)
    ensures Commands(BandEvents(granule, dataDir, names)) == BandCommands(granule, dataDir, names)
    decreases |names|
  {
    if names != [] {
      var n := names[0];
      var head := if IsBandImage(n) then BandImageEvents(granule, dataDir, n) else [];
      CommandsAppend(head, BandEvents(granule, dataDir, names[1..]));
      BandCommandLog(granule, dataDir, names[1..]);
      BandImageFacts(granule, dataDir, n, "");
    }
  }

  /** The band loop removes nothing but `temp.tif`, once per band image. */
  lemma {:induction false} BandRemovals(granule: string, dataDir: string, names: seq<string>, p: string)
    ensures multiset(BandEvents(granule, dataDir, names))[Unlink(p)] == if p == TempFile then BandImageCount(names) else 0
    ensures multiset(BandEvents(granule, dataDir, names))[RmTree(p)] == 0
    decreases |names|
  {
    if names != [] {
      BandRemovals(granule, dataDir, names[1..], p);
      BandImageFacts(granule, dataDir, names[0], p);
    }
  }

  // ---------------------------------------------------------------------------
  // The whole run

  /** The descriptor and data directory of the terrain-corrected product. */
  const TcDim: string := StageOutput(CorrectionStage.command)
  const TcData: string := StageData(CorrectionStage.command)

  /** The main block, from the catalog response to the last cleanup. */
  function MainSpec(w: World, env: Env, entries: seq<Entry>, granule: string): (r: World)
    ensures Extends(w, r)
    ensures DownloadUrl(entries).None? ==> r == AfterExit(w, 1)
    ensures DownloadUrl(entries).Some? && FailFast(w) ==> FailFast(r)
  {
    match DownloadUrl(entries)
    case None => AfterExit(w, 1)
    case Some(url) => ProcessSpec(w, env, url, granule)
  }

  /** Download, the stage chain, then the band phase. */
  function ProcessSpec(w: World, env: Env, url: string, granule: string): (r: World)
    ensures Extends(w, r)
    ensures FailFast(w) ==> FailFast(r)
  {
    var localFile := LastSegment(url);
    var w1 := AfterWrite(w, localFile, [url]);
    FailFastKept(w, w1);
    BandPhaseSpec(ChainSpec(w1, env, localFile, Stages), env, granule, TcDim)
  }

  /**
   * Lists the data directory of the chain's final product, materializes its
   * bands, then retires that product.
   */
  function BandPhaseSpec(w: World, env: Env, granule: string, localFile: string): (r: World)
    ensures Extends(w, r)
    ensures FailFast(w) ==> FailFast(r)
  {
    var dataDir := DataDir(localFile);
    var w1 := AfterListDir(w, dataDir);
    FailFastKept(w, w1);
    CleanupSpec(BandLoopSpec(w1, env, granule, dataDir, env.listing(dataDir)), localFile)
  }

  /** The `__main__` block. */
  method RunMain(h: Host, entries: seq<Entry>, granule: string)
    modifies h
    ensures h.State() == MainSpec(old(h.State()), h.env, entries, granule)
  {
    var downloadUrl := DownloadUrl(entries);
    if downloadUrl.None? {
      h.Exit(1);
      return;
    }
    var localFile := DownloadFile(h, downloadUrl.value);
    localFile := RunChain(h, localFile);
    ProcessBands(h, granule, localFile);
  }

  /** The six `gpt` calls of the `__main__` block, each on the product of the one before. */
  method RunChain(h: Host, inputFile: string) returns (localFile: string)
    modifies h
    ensures localFile == TcDim
    ensures h.State() == ChainSpec(old(h.State()), h.env, inputFile, Stages)
  {
    ghost var rest := Stages;
    localFile := inputFile;
    ChainStep(h.State(), h.env, localFile, rest);
    localFile := Gpt(h, localFile, OrbitStage.command, OrbitStage.args);
    rest := rest[1..];
    ChainStep(h.State(), h.env, localFile, rest);
    localFile := Gpt(h, localFile, CalibrationStage.command, CalibrationStage.args);
    rest := rest[1..];
    ChainStep(h.State(), h.env, localFile, rest);
    localFile := Gpt(h, localFile, SpeckleStage.command, SpeckleStage.args);
    rest := rest[1..];
    ChainStep(h.State(), h.env, localFile, rest);
    localFile := Gpt(h, localFile, MultilookStage.command, MultilookStage.args);
    rest := rest[1..];
    ChainStep(h.State(), h.env, localFile, rest);
    localFile := Gpt(h, localFile, FlatteningStage.command, FlatteningStage.args);
    rest := rest[1..];
    ChainStep(h.State(), h.env, localFile, rest);
    localFile := Gpt(h, localFile, CorrectionStage.command, CorrectionStage.args);
    rest := rest[1..];
    assert rest == [];
  }

  /** One stage of a chain, then the rest of it. */
  lemma ChainStep(w: World, env: Env, inputFile: string, stages: seq<Stage>)
    requires stages != []
    ensures ChainSpec(w, env, inputFile, stages) ==
      ChainSpec(GptSpec(w, env, inputFile, stages[0].command, stages[0].args), env, StageOutput(stages[0].command), stages[1..])
  {
  }

  /** The band loop of the `__main__` block and the final `cleanup`. */
  method ProcessBands(h: Host, granule: string, localFile: string)
    modifies h
    ensures h.State() == BandPhaseSpec(old(h.State()), h.env, granule, localFile)
  {
    var dataDir := DataDir(localFile);
    var names := h.ListDir(dataDir);
    ghost var w1 := h.State();
    for i := 0 to |names|
      invariant BandLoopSpec(h.State(), h.env, granule, dataDir, names[i..]) == BandLoopSpec(w1, h.env, granule, dataDir, names)
    {
      var fileName := names[i];
      assert names[i..][1..] == names[i + 1..];
      if IsBandImage(fileName) {
        var polarization := Polarization(fileName);
        var tifFileName := OutputTif(granule, polarization);
        CreateGeotiffFromImg(h, dataDir + "/" + fileName, tifFileName);
        CreateArcgisXml(h, granule, Sidecar(tifFileName), polarization);
      }
    }
    Cleanup(h, localFile);
  }

  // ---------------------------------------------------------------------------
  // What a run that finishes normally did

  /** The command lines issued by anything in a trace, in order. */
  function Commands(events: seq<Event>): seq<seq<string>>
    decreases |events|
  {
    if events == [] then []
    else (if events[0].Run? then [events[0].argv] else []) + Commands(events[1..])
  }

  lemma CommandsCons(e: Event, rest: seq<Event>)
    ensures Commands([e] + rest) == (if e.Run? then [e.argv] else []) + Commands(rest)
  {
    assert ([e] + rest)[1..] == rest;
  }

  lemma {:induction false} CommandsAppend(a: seq<Event>, b: seq<Event>)
    ensures Commands(a + b) == Commands(a) + Commands(b)
    decreases |a|
  {
    if a == [] {
      assert a + b == b;
    } else {
      assert (a + b)[0] == a[0] && (a + b)[1..] == a[1..] + b;
      CommandsAppend(a[1..], b);
    }
  }

  /** The six stage command lines, written out. */
  function StageCommandLines(localFile: string): seq<seq<string>> {
    [OrbitCommandLine(localFile), CalibrationCommandLine(), SpeckleCommandLine(), MultilookCommandLine(),
     FlatteningCommandLine(), CorrectionCommandLine()]
  }

  function OrbitCommandLine(localFile: string): seq<string> {
    ["gpt", "Apply-Orbit-File", "-Ssource=" + localFile, "-t", "Apply-Orbit-File"]
  }

  function CalibrationCommandLine(): seq<string> {
    ["gpt", "Calibration", "-Ssource=Apply-Orbit-File.dim", "-t", "Calibration",
     "-PoutputBetaBand=true", "-PoutputSigmaBand=false"]
  }

  function SpeckleCommandLine(): seq<string> {
    ["gpt", "Speckle-Filter", "-Ssource=Calibration.dim", "-t", "Speckle-Filter"]
  }

  function MultilookCommandLine(): seq<string> {
    ["gpt", "Multilook", "-Ssource=Speckle-Filter.dim", "-t", "Multilook", "-PnRgLooks=3", "-PnAzLooks=3"]
  }

  function FlatteningCommandLine(): seq<string> {
    ["gpt", "Terrain-Flattening", "-Ssource=Multilook.dim", "-t", "Terrain-Flattening", "-PreGridMethod=False"]
  }

  function CorrectionCommandLine(): seq<string> {
    ["gpt", "Terrain-Correction", "-Ssource=Terrain-Flattening.dim", "-t", "Terrain-Correction",
     "-PpixelSpacingInMeter=30.0", "-PdemName=SRTM 1Sec HGT"]
  }

  /** The trace a normally finishing run appends. */
  function MainEvents(url: string, granule: string, names: seq<string>): seq<Event> {
    var localFile := LastSegment(url);
    [Write(localFile, [url])] + ChainEvents(localFile, Stages) + BandEvents(granule, TcData, names) + CleanupEvents(TcDim)
  }

  /** A downloaded granule that is neither a `.dim` descriptor nor the scratch GeoTIFF. */
  predicate IsPlainDownload(localFile: string) {
    !EndsWith(localFile, ".dim") && localFile != TempFile
  }

  /** The six stages have usable and pairwise different names. */
  lemma StagesValid()
    ensures ValidStages(Stages)
  {
    StageNamesUsable();
    StageNamesDistinct();
  }

  lemma StageNamesUsable()
    ensures forall i :: 0 <= i < |Stages| ==> IsStageName(Stages[i].command)
  {
    FirstStagesUsable();
    MiddleStagesUsable();
    LastStagesUsable();
    forall i | 0 <= i < |Stages|
      ensures IsStageName(Stages[i].command)
    {
      assert i == 0 || i == 1 || i == 2 || i == 3 || i == 4 || i == 5;
    }
  }

  lemma FirstStagesUsable()
    ensures IsStageName(Stages[0].command) && IsStageName(Stages[1].command)
  {
  }

  lemma MiddleStagesUsable()
    ensures IsStageName(Stages[2].command) && IsStageName(Stages[3].command)
  {
  }

  lemma LastStagesUsable()
    ensures IsStageName(Stages[4].command) && IsStageName(Stages[5].command)
  {
  }

  lemma StageNamesDistinct()
    ensures forall i, j :: 0 <= i < j < |Stages| ==> Stages[i].command != Stages[j].command
  {
    var lengths := [16, 11, 14, 9, 18, 18];
    assert forall i :: 0 <= i < |Stages| ==> |Stages[i].command| == lengths[i];
    assert Stages[4].command[8] != Stages[5].command[8];
  }

  /** The last output of a chain is its only product that is not consumed inside it. */
  lemma {:induction false} OutputsSplit(stages: seq<Stage>)
    requires stages != []
    ensures Outputs(stages) == Retired(stages) + {StageOutput(stages[|stages| - 1].command)}
    ensures AllData(stages) == RetiredData(stages) + {StageData(stages[|stages| - 1].command)}
    decreases |stages|
  {
    if |stages| > 1 {
      OutputsSplit(stages[1..]);
      assert stages[1..][|stages| - 2] == stages[|stages| - 1];
    } else {
      assert stages[1..] == [];
    }
  }

  /** The products of the fixed chain. */
  lemma StagesOutputs()
    ensures ChainOutput("", Stages) == TcDim && DataDir(TcDim) == TcData
    ensures Outputs(Stages) == Retired(Stages) + {TcDim}
    ensures AllData(Stages) == RetiredData(Stages) + {TcData}
  {
    StageDataDir(CorrectionStage.command);
    OutputsSplit(Stages);
  }

  /**
   * A run that finishes normally found a link, and its trace is exactly:
   * download, the chain, the band loop, the final cleanup.
   */
  lemma MainTrace(w: World, env: Env, entries: seq<Entry>, granule: string)
    requires MainSpec(w, env, entries, granule).status.Running?
    ensures DownloadUrl(entries).Some?
    ensures MainSpec(w, env, entries, granule).trace ==
      w.trace + MainEvents(DownloadUrl(entries).value, granule, env.listing(TcData))
  {
    ProcessTrace(w, env, DownloadUrl(entries).value, granule);
  }

  lemma ProcessTrace(w: World, env: Env, url: string, granule: string)
    requires ProcessSpec(w, env, url, granule).status.Running?
    ensures ProcessSpec(w, env, url, granule).trace == w.trace + MainEvents(url, granule, env.listing(TcData))
  {
    var localFile := LastSegment(url);
    var w1 := AfterWrite(w, localFile, [url]);
    var w2 := ChainSpec(w1, env, localFile, Stages);
    assert ProcessSpec(w, env, url, granule) == BandPhaseSpec(w2, env, granule, TcDim);
    assert w2.status.Running? && w1.status.Running?;
    assert w.status.Running? && localFile != "";
    ChainTrace(w1, env, localFile, Stages);
    BandPhaseSuccess(w2, env, granule);
    assert w1.trace == w.trace + [Write(localFile, [url])];
    Concat4(w.trace, w1.trace, w2.trace, ProcessSpec(w, env, url, granule).trace,
      [Write(localFile, [url])], ChainEvents(localFile, Stages),
      BandEvents(granule, TcData, env.listing(TcData)), CleanupEvents(TcDim));
  }

  lemma Concat4<T>(t0: seq<T>, t1: seq<T>, t2: seq<T>, t3: seq<T>, a: seq<T>, b: seq<T>, c: seq<T>, d: seq<T>)
    requires t1 == t0 + a && t2 == t1 + b && t3 == t2 + (c + d)
    ensures t3 == t0 + (a + b + c + d)
  {
  }

  /** What the band phase on the terrain-corrected product does when it finishes running. */
  lemma BandPhaseSuccess(w: World, env: Env, granule: string)
    requires BandPhaseSpec(w, env, granule, TcDim).status.Running?
    ensures var r, names := BandPhaseSpec(w, env, granule, TcDim), env.listing(TcData);
      r.trace == w.trace + (BandEvents(granule, TcData, names) + CleanupEvents(TcDim)) &&
      r.dirs == w.dirs - {TcData} &&
      r.files == (if HasBandImage(names) then (w.files - {TempFile}) + BandProducts(granule, names) else w.files) - {TcDim}
  {
    StageDataDir(CorrectionStage.command);
    var names := env.listing(TcData);
    var w1 := AfterListDir(w, TcData);
    var w2 := BandLoopSpec(w1, env, granule, TcData, names);
    var r := CleanupSpec(w2, TcDim);
    assert BandPhaseSpec(w, env, granule, TcDim) == r;
    assert w2.status.Running? && w1 == w;
    BandLoopSuccess(w1, env, granule, TcData, names);
    assert r.files == w2.files - {TcDim} && r.dirs == w2.dirs - {TcData};
    var t := BandEvents(granule, TcData, names);
    assert r.trace == (w.trace + t) + CleanupEvents(TcDim);
    assert (w.trace + t) + CleanupEvents(TcDim) == w.trace + (t + CleanupEvents(TcDim));
  }

  /**
   * What a normally finishing run leaves on disk: the download, every stage
   * descriptor and data directory and `temp.tif` are gone, every band
   * product is present, and nothing else changed.
   */
  lemma MainArtifacts(w: World, env: Env, url: string, granule: string)
    requires IsPlainDownload(LastSegment(url))
    requires ProcessSpec(w, env, url, granule).status.Running?
    ensures var r, names, localFile := ProcessSpec(w, env, url, granule), env.listing(TcData), LastSegment(url);
      r.dirs == w.dirs - AllData(Stages) &&
      r.files == if HasBandImage(names)
        then (w.files - ({localFile, TempFile} + Outputs(Stages))) + BandProducts(granule, names)
        else w.files - ({localFile} + Outputs(Stages))
  {
    var localFile := LastSegment(url);
    var names := env.listing(TcData);
    var w2 := ChainSpec(AfterWrite(w, localFile, [url]), env, localFile, Stages);
    var r := ProcessSpec(w, env, url, granule);
    DownloadAndChain(w, env, url);
    BandPhaseSuccess(w2, env, granule);
    ProductsNotTc(granule, names);
    RunFiles(w.files, w2.files, r.files, localFile, TempFile, TcDim, Retired(Stages),
      BandProducts(granule, names), HasBandImage(names));
    RunDirs(w.dirs, w2.dirs, r.dirs, TcData, RetiredData(Stages));
  }

  /** The download and the stage chain, when they finish running. */
  lemma DownloadAndChain(w: World, env: Env, url: string)
    requires IsPlainDownload(LastSegment(url))
    requires ChainSpec(AfterWrite(w, LastSegment(url), [url]), env, LastSegment(url), Stages).status.Running?
    ensures var r := ChainSpec(AfterWrite(w, LastSegment(url), [url]), env, LastSegment(url), Stages);
      r.files == (w.files - ({LastSegment(url)} + Retired(Stages))) + {TcDim} &&
      r.dirs == (w.dirs - RetiredData(Stages)) + {TcData} &&
      Outputs(Stages) == Retired(Stages) + {TcDim} &&
      AllData(Stages) == RetiredData(Stages) + {TcData}
  {
    var localFile := LastSegment(url);
    StagesValid();
    StagesOutputs();
    if localFile in Outputs(Stages) {
      OutputsAreDescriptors(Stages, localFile);
    }
    ChainOfDownload(w, env, url, localFile, Stages);
    assert ChainOutput(localFile, Stages) == TcDim;
    assert StageData(Stages[|Stages| - 1].command) == TcData;
  }

  lemma ChainOfDownload(w: World, env: Env, url: string, localFile: string, stages: seq<Stage>)
    requires ValidStages(stages) && stages != []
    requires !EndsWith(localFile, ".dim") && localFile !in Outputs(stages)
    requires ChainSpec(AfterWrite(w, localFile, [url]), env, localFile, stages).status.Running?
    ensures var r := ChainSpec(AfterWrite(w, localFile, [url]), env, localFile, stages);
      r.files == (w.files - ({localFile} + Retired(stages))) + {ChainOutput(localFile, stages)} &&
      r.dirs == (w.dirs - RetiredData(stages)) + {StageData(stages[|stages| - 1].command)}
  {
    var w1 := AfterWrite(w, localFile, [url]);
    ChainArtifacts(w1, env, localFile, stages);
    assert w1.files == w.files + {localFile} && w1.dirs == w.dirs;
    assert (w1.files - ({localFile} + Retired(stages))) == w.files - ({localFile} + Retired(stages));
  }

  /** Neither the terrain-corrected descriptor nor anything without a band image is a product. */
  lemma ProductsNotTc(granule: string, names: seq<string>)
    ensures TcDim !in BandProducts(granule, names)
    ensures !HasBandImage(names) ==> BandProducts(granule, names) == {}
  {
    if TcDim in BandProducts(granule, names) {
      ProductsInOutputDir(granule, names, TcDim);
    }
    NoImagesNoProducts(granule, names);
  }

  /** Set algebra of a whole run on files. */
  lemma RunFiles(f0: set<string>, f2: set<string>, f4: set<string>,
                 localFile: string, scratch: string, last: string, retired: set<string>,
                 products: set<string>, has: bool)
    requires f2 == (f0 - ({localFile} + retired)) + {last}
    requires f4 == (if has then (f2 - {scratch}) + products else f2) - {last}
    requires last !in products && (!has ==> products == {})
    ensures f4 == if has then (f0 - ({localFile, scratch} + (retired + {last}))) + products
                  else f0 - ({localFile} + (retired + {last}))
  {
  }

  /** Set algebra of a whole run on directories. */
  lemma RunDirs(d0: set<string>, d2: set<string>, d4: set<string>, last: string, retired: set<string>)
    requires d2 == (d0 - retired) + {last}
    requires d4 == d2 - {last}
    ensures d4 == d0 - (retired + {last})
  {
  }

  /**
   * In a normally finishing run the download and every stage descriptor
   * and data directory are removed exactly once, `temp.tif` once per band
   * image, and nothing else.
   */
  lemma MainRetiresOnce(url: string, granule: string, names: seq<string>, p: string)
    requires IsPlainDownload(LastSegment(url))
    ensures multiset(MainEvents(url, granule, names))[Unlink(p)] ==
      (if p == LastSegment(url) || p in Outputs(Stages) then 1 else 0) +
      (if p == TempFile then BandImageCount(names) else 0)
    ensures multiset(MainEvents(url, granule, names))[RmTree(p)] == if p in AllData(Stages) then 1 else 0
  {
    var localFile := LastSegment(url);
    MainChainFacts(localFile);
    ChainUnlinkCount(localFile, Stages, p);
    ChainRmTreeCount(localFile, Stages, p);
    BandRemovals(granule, TcData, names, p);
    RemovalTotals(MainEvents(url, granule, names), [Write(localFile, [url])], ChainEvents(localFile, Stages),
      BandEvents(granule, TcData, names), localFile, TcDim, TcData, Retired(Stages), RetiredData(Stages),
      BandImageCount(names), p);
  }

  /** How the removals of the four phases of a run add up. */
  lemma RemovalTotals(e: seq<Event>, a: seq<Event>, b: seq<Event>, c: seq<Event>,
                      localFile: string, last: string, lastData: string,
                      retired: set<string>, retiredData: set<string>, images: nat, p: string)
    requires e == a + b + c + [Unlink(last), RmTree(lastData)]
    requires |a| == 1 && a[0].Write?
    requires multiset(b)[Unlink(p)] == (if p == localFile then 1 else 0) + (if p in retired then 1 else 0)
    requires multiset(b)[RmTree(p)] == (if p in {} then 1 else 0) + (if p in retiredData then 1 else 0)
    requires multiset(c)[Unlink(p)] == (if p == TempFile then images else 0) && multiset(c)[RmTree(p)] == 0
    requires localFile !in retired + {last} && last !in retired && lastData !in retiredData
    ensures multiset(e)[Unlink(p)] == (if p == localFile || p in retired + {last} then 1 else 0) + (if p == TempFile then images else 0)
    ensures multiset(e)[RmTree(p)] == if p in retiredData + {lastData} then 1 else 0
  {
    assert multiset(e) == multiset(a) + multiset(b) + multiset(c) + multiset{Unlink(last), RmTree(lastData)};
  }

  /** The facts about the fixed chain that the removal count of a run rests on. */
  lemma MainChainFacts(localFile: string)
    requires IsPlainDownload(localFile)
    ensures ValidStages(Stages)
    ensures localFile !in Outputs(Stages) && RetiredDirs(localFile) == {}
    ensures Outputs(Stages) == Retired(Stages) + {TcDim} && TcDim !in Retired(Stages)
    ensures AllData(Stages) == RetiredData(Stages) + {TcData} && TcData !in RetiredData(Stages)
    ensures CleanupEvents(TcDim) == [Unlink(TcDim), RmTree(TcData)]
  {
    StagesValid();
    StagesOutputs();
    LastNotRetired(Stages);
    if localFile in Outputs(Stages) {
      OutputsAreDescriptors(Stages, localFile);
    }
    StageDataDir(CorrectionStage.command);
  }

  /** The terminal product of a valid chain is not consumed inside it. */
  lemma {:induction false} LastNotRetired(stages: seq<Stage>)
    requires ValidStages(stages) && stages != []
    ensures StageOutput(stages[|stages| - 1].command) !in Retired(stages)
    ensures StageData(stages[|stages| - 1].command) !in RetiredData(stages)
    decreases |stages|
  {
    if |stages| > 1 {
      var rest := stages[1..];
      ValidTail(stages);
      LastNotRetired(rest);
      OutputsSplit(rest);
      assert rest[|rest| - 1] == stages[|stages| - 1];
    }
  }

  /**
   * The command lines of a normally finishing run: the six stage commands
   * in order, then three commands per band image.
   */
  lemma MainCommandLog(url: string, granule: string, names: seq<string>)
    ensures Commands(MainEvents(url, granule, names)) ==
      ChainCommands(LastSegment(url), Stages) + BandCommands(granule, TcData, names)
  {
    MainLogParts(url, granule, names);
    ChainCommandLog(LastSegment(url), Stages);
    BandCommandLog(granule, TcData, names);
  }

  /** Downloading and the final cleanup run no command. */
  lemma MainLogParts(url: string, granule: string, names: seq<string>)
    ensures Commands(MainEvents(url, granule, names)) ==
      Commands(ChainEvents(LastSegment(url), Stages)) + Commands(BandEvents(granule, TcData, names))
  {
    NoRunNoCommands([Write(LastSegment(url), [url])]);
    CleanupRunsNothing(TcDim);
    LogOfParts(MainEvents(url, granule, names), [Write(LastSegment(url), [url])], ChainEvents(LastSegment(url), Stages),
      BandEvents(granule, TcData, names), CleanupEvents(TcDim));
  }

  lemma DropEmptyEnds<T>(a: seq<T>, x: seq<T>, y: seq<T>, d: seq<T>)
    requires a == [] && d == []
    ensures a + x + y + d == x + y
  {
  }

  lemma CommandsAppend4(a: seq<Event>, b: seq<Event>, c: seq<Event>, d: seq<Event>)
    ensures Commands(a + b + c + d) == Commands(a) + Commands(b) + Commands(c) + Commands(d)
  {
    CommandsAppend(a + b + c, d);
    CommandsAppend(a + b, c);
    CommandsAppend(a, b);
  }

  /** The log of a trace made of a silent part, two logged parts and another silent part. */
  lemma LogOfParts(e: seq<Event>, a: seq<Event>, b: seq<Event>, c: seq<Event>, d: seq<Event>)
    requires e == a + b + c + d && Commands(a) == [] && Commands(d) == []
    ensures Commands(e) == Commands(b) + Commands(c)
  {
    CommandsAppend4(a, b, c, d);
    DropEmptyEnds(Commands(a), Commands(b), Commands(c), Commands(d));
  }

  /** The generic chain issues exactly the six written-out command lines. */
  lemma StageCommandsAgree(localFile: string)
    ensures ChainCommands(localFile, Stages) == StageCommandLines(localFile)
  {
    var lines := StageCommandLines(localFile);
    OrbitLine(localFile);
    CalibrationLine();
    SpeckleLine();
    MultilookLine();
    FlatteningLine();
    CorrectionLine();
    var s5 := Stages[5..];
    assert s5[1..] == [] && s5[0] == CorrectionStage;
    assert ChainCommands(StageOutput(FlatteningStage.command), s5) == lines[5..];
    var s4 := Stages[4..];
    assert s4[1..] == s5 && s4[0] == FlatteningStage;
    assert ChainCommands(StageOutput(MultilookStage.command), s4) == lines[4..];
    var s3 := Stages[3..];
    assert s3[1..] == s4 && s3[0] == MultilookStage;
    assert ChainCommands(StageOutput(SpeckleStage.command), s3) == lines[3..];
    var s2 := Stages[2..];
    assert s2[1..] == s3 && s2[0] == SpeckleStage;
    assert ChainCommands(StageOutput(CalibrationStage.command), s2) == lines[2..];
    var s1 := Stages[1..];
    assert s1[1..] == s2 && s1[0] == CalibrationStage;
    assert ChainCommands(StageOutput(OrbitStage.command), s1) == lines[1..];
    assert lines == [lines[0]] + lines[1..];
  }

  // Each stage's generic command line is the written-out one.

  lemma OrbitLine(localFile: string)
    ensures GptCommand(localFile, OrbitStage.command, OrbitStage.args) == OrbitCommandLine(localFile)
  {
  }

  lemma CalibrationLine()
    ensures GptCommand(StageOutput(OrbitStage.command), CalibrationStage.command, CalibrationStage.args) == CalibrationCommandLine()
  {
    assert "-Ssource=" + StageOutput(OrbitStage.command) == CalibrationCommandLine()[2];
  }

  lemma SpeckleLine()
    ensures GptCommand(StageOutput(CalibrationStage.command), SpeckleStage.command, SpeckleStage.args) == SpeckleCommandLine()
  {
    assert "-Ssource=" + StageOutput(CalibrationStage.command) == SpeckleCommandLine()[2];
  }

  lemma MultilookLine()
    ensures GptCommand(StageOutput(SpeckleStage.command), MultilookStage.command, MultilookStage.args) == MultilookCommandLine()
  {
    assert "-Ssource=" + StageOutput(SpeckleStage.command) == MultilookCommandLine()[2];
  }

  lemma FlatteningLine()
    ensures GptCommand(StageOutput(MultilookStage.command), FlatteningStage.command, FlatteningStage.args) == FlatteningCommandLine()
  {
    assert "-Ssource=" + StageOutput(MultilookStage.command) == FlatteningCommandLine()[2];
  }

  lemma CorrectionLine()
    ensures GptCommand(StageOutput(FlatteningStage.command), CorrectionStage.command, CorrectionStage.args) == CorrectionCommandLine()
  {
    assert "-Ssource=" + StageOutput(FlatteningStage.command) == CorrectionCommandLine()[2];
  }
}
