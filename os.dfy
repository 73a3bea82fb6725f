/**
 * The process and filesystem the driver scripts run in. The working
 * directory (and `/output/`) is a set of file paths and a set of directory
 * paths; external programs (`gpt`, `gdal_translate`, `gdaladdo`) are opaque:
 * the environment decides each one's exit status, and a program that succeeds
 * leaves behind the artifacts its command line names. Every action the script
 * takes is appended to a trace. Once the process has exited, or died of an
 * uncaught exception, nothing further happens: every step is then a no-op.
 */
module Os {
  import opened Wrappers

  /** One observable action of a run. */
  datatype Event =
    | Run(argv: seq<string>, status: int)      // a subprocess ran to completion with this exit status
    | Unlink(path: string)                      // os.unlink
    | RmTree(path: string)                      // shutil.rmtree
    | Write(path: string, content: seq<string>) // a file the script writes itself, with the values it is made from

  /** Why a run died of an exception. */
  datatype Failure =
    | NoSuchPath(path: string)   // FileNotFoundError from unlink, rmtree, listdir or open
    | Raised(exception: string)  // any other uncaught exception, by its Python name

  datatype Status = Running | Exited(code: int) | Crashed(failure: Failure)

  /**
   * What the environment decides: the exit status of the external command
   * issued at a given position of the trace, and the names `os.listdir`
   * returns for a directory.
   */
  datatype Env = Env(exitStatus: (nat, seq<string>) -> int, listing: string -> seq<string>)

  /** A snapshot of the process: files, directories, trace so far and whether it still runs. */
  datatype World = World(files: set<string>, dirs: set<string>, trace: seq<Event>, status: Status)

  datatype Artifacts = Artifacts(files: set<string>, dirs: set<string>)

  /** `r` continues `w`: the trace only grows, and a halted process never changes again. */
  ghost predicate Extends(w: World, r: World) {
    w.trace <= r.trace && (!w.status.Running? ==> r == w)
  }

  /** The word after the first `-t` flag of a command line: the target product of a `gpt` call. */
  function TargetName(argv: seq<string>): Option<string>
    decreases |argv|
  {
    if |argv| < 2 then None
    else if argv[0] == "-t" then Some(argv[1])
    else TargetName(argv[1..])
  }

  /** A command line whose first `-t` is followed by `target` names that target. */
  lemma {:induction false} TargetAfterFlag(before: seq<string>, target: string, after: seq<string>)
    requires "-t" !in before
    ensures TargetName(before + ["-t", target] + after) == Some(target)
    decreases |before|
  {
    if before != [] {
      assert (before + ["-t", target] + after)[1..] == before[1..] + ["-t", target] + after;
      TargetAfterFlag(before[1..], target, after);
    }
  }

  /**
   * What a successful external command leaves on disk: `gpt ... -t T` writes
   * the descriptor `T.dim` and the data directory `T.data`; `gdal_translate`
   * writes its last argument; `gdaladdo` changes its file in place.
   */
  function ToolOutputs(argv: seq<string>): Artifacts {
    if |argv| > 0 && argv[0] == "gpt" then
      match TargetName(argv)
      case Some(t) => Artifacts({t + ".dim"}, {t + ".data"})
      case None => Artifacts({}, {})
    else if |argv| > 1 && argv[0] == "gdal_translate" then Artifacts({argv[|argv| - 1]}, {})
    else Artifacts({}, {})
  }

  /** The exit status the environment gives the command issued next. */
  function ExitStatus(w: World, env: Env, argv: seq<string>): int {
    env.exitStatus(|w.trace|, argv)
  }

  /** `subprocess.call(argv)` / `subprocess.run(argv)`: runs one command and records its status. */
  function AfterCall(w: World, env: Env, argv: seq<string>): (r: World)
    ensures Extends(w, r) && r.status == w.status
  {
    if !w.status.Running? then w
    else
      var code := ExitStatus(w, env, argv);
      var out := if code == 0 then ToolOutputs(argv) else Artifacts({}, {});
      w.(files := w.files + out.files, dirs := w.dirs + out.dirs, trace := w.trace + [Run(argv, code)])
  }

  /** `os.unlink(path)`: FileNotFoundError when there is no such file. */
  function AfterUnlink(w: World, path: string): (r: World)
    ensures Extends(w, r)
    ensures w.status.Running? && path in w.files ==>
      r == w.(files := w.files - {path}, trace := w.trace + [Unlink(path)])
    ensures w.status.Running? && path !in w.files ==> r == w.(status := Crashed(NoSuchPath(path)))
  {
    if !w.status.Running? then w
    else if path !in w.files then w.(status := Crashed(NoSuchPath(path)))
    else w.(files := w.files - {path}, trace := w.trace + [Unlink(path)])
  }

  /** `shutil.rmtree(path)`: FileNotFoundError when there is no such directory. */
  function AfterRmTree(w: World, path: string): (r: World)
    ensures Extends(w, r)
    ensures w.status.Running? && path in w.dirs ==>
      r == w.(dirs := w.dirs - {path}, trace := w.trace + [RmTree(path)])
    ensures w.status.Running? && path !in w.dirs ==> r == w.(status := Crashed(NoSuchPath(path)))
  {
    if !w.status.Running? then w
    else if path !in w.dirs then w.(status := Crashed(NoSuchPath(path)))
    else w.(dirs := w.dirs - {path}, trace := w.trace + [RmTree(path)])
  }

  /** `open(path, "w")` and a write: opening the empty name fails. */
  function AfterWrite(w: World, path: string, content: seq<string>): (r: World)
    ensures Extends(w, r)
    ensures w.status.Running? && path != "" ==>
      r == w.(files := w.files + {path}, trace := w.trace + [Write(path, content)])
    ensures w.status.Running? && path == "" ==> r == w.(status := Crashed(NoSuchPath(path)))
  {
    if !w.status.Running? then w
    else if path == "" then w.(status := Crashed(NoSuchPath(path)))
    else w.(files := w.files + {path}, trace := w.trace + [Write(path, content)])
  }

  /** `os.listdir(path)` succeeds only on an existing directory; its result is `env.listing(path)`. */
  function AfterListDir(w: World, path: string): (r: World)
    ensures Extends(w, r)
    ensures r.status.Running? <==> w.status.Running? && path in w.dirs
    ensures w.status.Running? && path !in w.dirs ==> r == w.(status := Crashed(NoSuchPath(path)))
    ensures r.files == w.files && r.dirs == w.dirs && r.trace == w.trace
  {
    if w.status.Running? && path !in w.dirs then w.(status := Crashed(NoSuchPath(path))) else w
  }

  /**
   * The status a parent process sees for `exit(code)`: only the low eight
   * bits survive, so a negative status (a tool killed by signal N reports -N)
   * and one above 255 are folded into 0..255.
   */
  function ProcessStatus(code: int): (s: int)
    ensures 0 <= s < 256
    ensures 0 <= code < 256 ==> s == code
    ensures -256 <= code < 0 ==> s == code + 256
    ensures (s - code) % 256 == 0
  {
    code % 256
  }

  /** `exit(code)` */
  function AfterExit(w: World, code: int): (r: World)
    ensures Extends(w, r)
    ensures w.status.Running? ==> r == w.(status := Exited(ProcessStatus(code)))
    ensures 0 < code < 256 && w.status.Running? ==> r.status == Exited(code)
  {
    if w.status.Running? then w.(status := Exited(ProcessStatus(code))) else w
  }

  /** An uncaught exception of the script's own making. */
  function AfterRaise(w: World, exception: string): (r: World)
    ensures Extends(w, r)
    ensures w.status.Running? ==> r == w.(status := Crashed(Raised(exception)))
  {
    if w.status.Running? then w.(status := Crashed(Raised(exception))) else w
  }

  /** The running process: its filesystem, its trace and its status, changed in place. */
  class Host {
    var files: set<string>
    var dirs: set<string>
    var trace: seq<Event>
    var status: Status
    const env: Env

    function State(): World
      reads this
    {
      World(files, dirs, trace, status)
    }

    constructor (files0: set<string>, dirs0: set<string>, env0: Env)
      ensures State() == World(files0, dirs0, [], Running)
      ensures env == env0
    {
      files, dirs, trace, status := files0, dirs0, [], Running;
      env := env0;
    }

    method Call(argv: seq<string>) returns (code: int)
      modifies this
      ensures State() == AfterCall(old(State()), env, argv)
      ensures code == ExitStatus(old(State()), env, argv)
    {
      code := env.exitStatus(|trace|, argv);
      if status.Running? {
        var out := if code == 0 then ToolOutputs(argv) else Artifacts({}, {});
        files, dirs, trace := files + out.files, dirs + out.dirs, trace + [Run(argv, code)];
      }
    }

    method Unlink(path: string)
      modifies this
      ensures State() == AfterUnlink(old(State()), path)
    {
      if status.Running? {
        if path in files {
          files, trace := files - {path}, trace + [Event.Unlink(path)];
        } else {
          status := Crashed(NoSuchPath(path));
        }
      }
    }

    method RmTree(path: string)
      modifies this
      ensures State() == AfterRmTree(old(State()), path)
    {
      if status.Running? {
        if path in dirs {
          dirs, trace := dirs - {path}, trace + [Event.RmTree(path)];
        } else {
          status := Crashed(NoSuchPath(path));
        }
      }
    }

    method Write(path: string, content: seq<string>)
      modifies this
      ensures State() == AfterWrite(old(State()), path, content)
    {
      if status.Running? {
        if path == "" {
          status := Crashed(NoSuchPath(path));
        } else {
          files, trace := files + {path}, trace + [Event.Write(path, content)];
        }
      }
    }

    method ListDir(path: string) returns (names: seq<string>)
      modifies this
      ensures State() == AfterListDir(old(State()), path)
      ensures names == env.listing(path)
    {
      if status.Running? && path !in dirs {
        status := Crashed(NoSuchPath(path));
      }
      names := env.listing(path);
    }

    method Exit(code: int)
      modifies this
      ensures State() == AfterExit(old(State()), code)
    {
      if status.Running? {
        status := Exited(ProcessStatus(code));
      }
    }

    method Raise(exception: string)
      modifies this
      ensures State() == AfterRaise(old(State()), exception)
    {
      if status.Running? {
        status := Crashed(Raised(exception));
      }
    }
  }
}
