/**
 * `boj run`: the local judge. For every testcase directory of a problem it
 * feeds `input.txt` to the solution, normalises the solution's output and
 * the expected `output.txt`, and reports whether they agree.
 *
 * The outside world is a `World` value: the directory listings, the files
 * the judge reads, the paths that exist, the canonical form of working
 * directories, the configuration file, an oracle that tells what a
 * process does when started, and the error text of a failed file operation. The oracle receives every earlier invocation,
 * so that a compile step may influence the run step after it.
 */
module Run {
  import opened Text
  import opened Paths
  import opened Config

  // ---------------------------------------------------------------------------
  // The world the judge observes
  // ---------------------------------------------------------------------------

  /** One started process: program, arguments, working directory, stdin. */
  datatype Invocation = Invocation(program: string, args: seq<string>, workdir: string, stdin: Option<string>)

  /**
   * What waiting for a process yields: it could not be spawned, fed or
   * waited for (`Unfinished`), or it exited, successfully or not, with the
   * bytes it wrote to stdout.
   */
  datatype ProcessOutcome = Unfinished(reason: string) | Exited(success: bool, stdout: string)

  datatype EntryKind = Directory | RegularFile | Symlink

  /** A directory entry; `kind` is `None` when its file type cannot be read. */
  datatype DirEntry = DirEntry(name: string, kind: Option<EntryKind>)

  /**
   * Listings by directory, readable files by path, the paths that exist, the
   * canonical form of each directory that can be canonicalised, the
   * configuration file, the process oracle, and the operating system's error
   * text for an operation on a path that fails.
   */
  datatype World = World(
    listings: map<string, seq<Option<DirEntry>>>,
    files: map<string, string>,
    present: set<string>,
    canonical: map<string, string>,
    config: ConfigFile,
    exec: (seq<Invocation>, Invocation) -> ProcessOutcome,
    ioReason: string -> string)

  datatype RunError =
    | ReadDirFailed(dir: string, reason: string)
    | ReadFailed(path: string, reason: string)
    | ConfigFailed(cause: AddError)
    | NoMatchingFiletype
    | NoSuchDirectory(workdir: string, reason: string)
    | ProcessFailed(reason: string)
    | CommandFailed(cmd: string)
    | Panicked

  /** The panic message of indexing element 0 of an empty vector. */
  const EmptyIndexPanic: string := "index out of bounds: the len is 0 but the index is 0"

  /**
   * The text each error prints: the judge's two fixed messages, the
   * configuration error's own text, the operating system's reason for a
   * failed I/O operation, and the panic message.
   */
  function ErrorMessage(e: RunError): (m: string)
    ensures e.NoMatchingFiletype? ==> m == "no matching filetype section"
    ensures e.CommandFailed? ==> m == "command failed: " + e.cmd
    ensures e.ConfigFailed? ==> m == AddErrorMessage(e.cause)
    ensures e.ReadDirFailed? || e.ReadFailed? || e.NoSuchDirectory? || e.ProcessFailed? ==> m == e.reason
    ensures e.Panicked? ==> m == EmptyIndexPanic
  {
    match e
    case NoMatchingFiletype => "no matching filetype section"
    case CommandFailed(cmd) => "command failed: " + cmd
    case ConfigFailed(cause) => AddErrorMessage(cause)
    case ReadDirFailed(_, reason) => reason
    case ReadFailed(_, reason) => reason
    case NoSuchDirectory(_, reason) => reason
    case ProcessFailed(reason) => reason
    case Panicked => EmptyIndexPanic
  }

  /** A result together with every invocation made so far. */
  datatype Outcome<T> = Outcome(result: Result<T, RunError>, trace: seq<Invocation>)

  // ---------------------------------------------------------------------------
  // execute_command
  // ---------------------------------------------------------------------------

  /**
   * `execute_command`: canonicalise the working directory, split the command
   * on whitespace into program and arguments, start it with `input` on
   * stdin (or none), and return its stdout when it exits successfully.
   */
  function Execute(w: World, trace: seq<Invocation>, cmd: string, workdir: string, input: Option<string>)
    : (o: Outcome<string>)
    ensures o.trace == trace || (|o.trace| == |trace| + 1 && o.trace[..|trace|] == trace)
    ensures |o.trace| == |trace| + 1 ==>
      var inv := o.trace[|trace|];
      && workdir in w.canonical && inv.workdir == w.canonical[workdir]
      && Tokens(cmd) == [inv.program] + inv.args && inv.stdin == input
    ensures o.result.Ok? ==>
      |o.trace| == |trace| + 1 && w.exec(trace, o.trace[|trace|]) == Exited(true, o.result.value)
    ensures workdir !in w.canonical ==> o == Outcome(Err(NoSuchDirectory(workdir, w.ioReason(workdir))), trace)
    ensures workdir in w.canonical && Tokens(cmd) != [] ==>
      var inv := Invocation(Tokens(cmd)[0], Tokens(cmd)[1..], w.canonical[workdir], input);
      var out := w.exec(trace, inv);
      && o.trace == trace + [inv]
      && (o.result.Ok? <==> out.Exited? && out.success)
      && (out.Exited? && out.success ==> o.result == Ok(out.stdout))
      && (out.Exited? && !out.success ==> o.result == Err(CommandFailed(cmd)))
      && (out.Unfinished? ==> o.result == Err(ProcessFailed(out.reason)))
  {
    if workdir !in w.canonical then Outcome(Err(NoSuchDirectory(workdir, w.ioReason(workdir))), trace)
    else
      var parts := Tokens(cmd);
      if parts == [] then Outcome(Err(Panicked), trace)
      else
        var inv := Invocation(parts[0], parts[1..], w.canonical[workdir], input);
        var next := trace + [inv];
        match w.exec(trace, inv)
        case Unfinished(reason) => Outcome(Err(ProcessFailed(reason)), next)
        case Exited(success, stdout) =>
          if success then Outcome(Ok(stdout), next) else Outcome(Err(CommandFailed(cmd)), next)
  }

  /** The imperative form: the `Command` builder is filled in step by step. */
  method ExecuteCommand(w: World, trace: seq<Invocation>, cmd: string, workdir: string, input: Option<string>)
    returns (r: Result<string, RunError>, after: seq<Invocation>)
    ensures Outcome(r, after) == Execute(w, trace, cmd, workdir, input)
  {
    after := trace;
    if workdir !in w.canonical {
      return Err(NoSuchDirectory(workdir, w.ioReason(workdir))), after;
    }
    var absWorkdir := w.canonical[workdir];
    var parts := Tokens(cmd);
    if |parts| == 0 {
      return Err(Panicked), after;
    }
    var program := parts[0];
    var args: seq<string> := [];
    if |parts| > 1 {
      args := parts[1..];
    }
    var stdin: Option<string> := None;
    if input.Some? {
      stdin := input;
    }
    var inv := Invocation(program, args, absWorkdir, stdin);
    var outcome := w.exec(trace, inv);
    after := trace + [inv];
    if outcome.Unfinished? {
      return Err(ProcessFailed(outcome.reason)), after;
    }
    if !outcome.success {
      return Err(CommandFailed(cmd)), after;
    }
    r := Ok(outcome.stdout);
  }

  /** A blank command has no program: indexing its first token panics, and nothing is started. */
  lemma BlankCommandPanics(w: World, trace: seq<Invocation>, cmd: string, workdir: string, input: Option<string>)
    requires workdir in w.canonical && AllWhitespace(cmd)
    ensures Execute(w, trace, cmd, workdir, input) == Outcome(Err(Panicked), trace)
  {
    TokensEmpty(cmd);
  }

  /**
   * A command written as words separated by single spaces starts its first
   * word with the remaining words as arguments; the call succeeds exactly
   * when that process exits successfully, and then returns its stdout.
   */
  lemma CommandOfWords(w: World, trace: seq<Invocation>, words: seq<string>, workdir: string, input: Option<string>)
    requires workdir in w.canonical && words != []
    requires forall k :: 0 <= k < |words| ==> words[k] != [] && NoWhitespace(words[k])
    ensures var inv := Invocation(words[0], words[1..], w.canonical[workdir], input);
      var out := w.exec(trace, inv);
      var o := Execute(w, trace, JoinWords(words), workdir, input);
      && o.trace == trace + [inv]
      && (o.result.Ok? <==> out.Exited? && out.success)
      && (o.result.Ok? ==> o.result.value == out.stdout)
      && (out.Exited? && !out.success ==> o.result == Err(CommandFailed(JoinWords(words))))
  {
    var cmd := JoinWords(words);
    TokensOfJoinWords(words);
    assert Tokens(cmd) == words;
  }

  // ---------------------------------------------------------------------------
  // Toolchain resolution
  // ---------------------------------------------------------------------------

  /** `Path::new(dir).join(&ft.main).exists()`. */
  predicate HasMain(present: set<string>, dir: string, ft: FileType) {
    Join(dir, ft.main) in present
  }

  /** The first index at or after `from` whose main file exists. */
  function FindMain(fts: seq<(string, FileType)>, dir: string, present: set<string>, from: nat): (r: Option<nat>)
    requires from <= |fts|
    ensures r.Some? ==> from <= r.value < |fts| && HasMain(present, dir, fts[r.value].1)
    ensures r.Some? ==> forall j :: from <= j < r.value ==> !HasMain(present, dir, fts[j].1)
    ensures r.None? ==> forall j :: from <= j < |fts| ==> !HasMain(present, dir, fts[j].1)
    decreases |fts| - from
  {
    if from == |fts| then None
    else if HasMain(present, dir, fts[from].1) then Some(from)
    else FindMain(fts, dir, present, from + 1)
  }

  /** `config.filetype.iter().find(...)`, over the order in which the sections are enumerated. */
  function Resolve(fts: seq<(string, FileType)>, dir: string, present: set<string>): Option<(string, FileType)> {
    var i := FindMain(fts, dir, present, 0);
    if i.Some? then Some(fts[i.value]) else None
  }

  /**
   * Resolution picks the first section, in enumeration order, whose main
   * file exists, and fails exactly when there is none.
   */
  lemma ResolveFirst(fts: seq<(string, FileType)>, dir: string, present: set<string>)
    ensures Resolve(fts, dir, present).None? <==> forall j :: 0 <= j < |fts| ==> !HasMain(present, dir, fts[j].1)
    ensures Resolve(fts, dir, present).Some? ==>
      exists i :: 0 <= i < |fts| && Resolve(fts, dir, present) == Some(fts[i]) && HasMain(present, dir, fts[i].1) &&
        forall j :: 0 <= j < i ==> !HasMain(present, dir, fts[j].1)
  {
    var i := FindMain(fts, dir, present, 0);
    if i.None? {
      assert Resolve(fts, dir, present).None?;
    } else {
      assert Resolve(fts, dir, present) == Some(fts[i.value]);
    }
  }

  /** When exactly one main file exists, the enumeration order does not matter. */
  lemma ResolveUnique(fts: seq<(string, FileType)>, dir: string, present: set<string>, i: nat)
    requires i < |fts| && HasMain(present, dir, fts[i].1)
    requires forall j :: 0 <= j < |fts| && j != i ==> !HasMain(present, dir, fts[j].1)
    ensures Resolve(fts, dir, present) == Some(fts[i])
  {
    var k := FindMain(fts, dir, present, 0);
    assert k.Some?;
  }

  /** When two main files exist, the enumeration order decides which toolchain is used. */
  lemma ResolveDependsOnOrder(a: (string, FileType), b: (string, FileType), dir: string, present: set<string>)
    requires HasMain(present, dir, a.1) && HasMain(present, dir, b.1)
    ensures Resolve([a, b], dir, present) == Some(a)
    ensures Resolve([b, a], dir, present) == Some(b)
  {
  }

  // ---------------------------------------------------------------------------
  // run_solution
  // ---------------------------------------------------------------------------

  /** The optional compile step, without stdin; a toolchain without one succeeds at once. */
  function CompileStep(w: World, trace: seq<Invocation>, ft: FileType, dir: string): (o: Outcome<string>)
    ensures ft.compile.None? ==> o == Outcome(Ok(""), trace)
    ensures ft.compile.Some? ==> o == Execute(w, trace, ft.compile.value, dir, None)
  {
    if ft.compile.Some? then Execute(w, trace, ft.compile.value, dir, None) else Outcome(Ok(""), trace)
  }

  /**
   * `run_solution`: load the configuration, resolve the toolchain in
   * `problems/<id>`, compile without stdin, run with the input on stdin,
   * then clean up; the first failure is the result.
   */
  function Solve(w: World, trace: seq<Invocation>, problemId: nat, input: string): (o: Outcome<string>)
    ensures |trace| <= |o.trace| <= |trace| + 3 && o.trace[..|trace|] == trace
  {
    var loaded := Load(w.config);
    if loaded.Err? then Outcome(Err(ConfigFailed(loaded.error)), trace)
    else
      var dir := ProblemDir(problemId);
      var found := Resolve(loaded.value.filetype, dir, w.present);
      if found.None? then Outcome(Err(NoMatchingFiletype), trace)
      else
        var ft := found.value.1;
        var compiled := CompileStep(w, trace, ft, dir);
        if compiled.result.Err? then compiled
        else
          var ran := Execute(w, compiled.trace, ft.run, dir, Some(input));
          if ran.result.Err? || ft.after.None? then ran
          else
            var cleaned := Execute(w, ran.trace, ft.after.value, dir, None);
            if cleaned.result.Err? then cleaned else ran.(trace := cleaned.trace)
  }

  /** The imperative form, with an early return after each stage. */
  method RunSolution(w: World, trace: seq<Invocation>, problemId: nat, input: string)
    returns (r: Result<string, RunError>, after: seq<Invocation>)
    ensures Outcome(r, after) == Solve(w, trace, problemId, input)
  {
    after := trace;
    var loaded := Load(w.config);
    if loaded.Err? {
      return Err(ConfigFailed(loaded.error)), after;
    }
    var config := loaded.value;
    var problemDir := ProblemDir(problemId);
    var found := Resolve(config.filetype, problemDir, w.present);
    if found.None? {
      return Err(NoMatchingFiletype), after;
    }
    var ft := found.value.1;
    if ft.compile.Some? {
      var compiled;
      compiled, after := ExecuteCommand(w, after, ft.compile.value, problemDir, None);
      if compiled.Err? {
        return compiled, after;
      }
    }
    var output;
    output, after := ExecuteCommand(w, after, ft.run, problemDir, Some(input));
    if output.Err? {
      return output, after;
    }
    if ft.after.Some? {
      var cleaned;
      cleaned, after := ExecuteCommand(w, after, ft.after.value, problemDir, None);
      if cleaned.Err? {
        return cleaned, after;
      }
    }
    r := output;
  }

  /** The toolchain `Solve` uses, when the configuration loads and a main file exists. */
  function Toolchain(w: World, problemId: nat): Option<FileType> {
    var loaded := Load(w.config);
    if loaded.Err? then None
    else
      var found := Resolve(loaded.value.filetype, ProblemDir(problemId), w.present);
      if found.None? then None else Some(found.value.1)
  }

  /** Before any command runs: a configuration error, then a missing main file, stop the pipeline. */
  lemma SolveSetupFailures(w: World, trace: seq<Invocation>, problemId: nat, input: string)
    ensures Load(w.config).Err? ==>
      Solve(w, trace, problemId, input) == Outcome(Err(ConfigFailed(Load(w.config).error)), trace)
    ensures Load(w.config).Ok? && Toolchain(w, problemId).None? ==>
      Solve(w, trace, problemId, input) == Outcome(Err(NoMatchingFiletype), trace)
  {
  }

  /** A failing compile step is the result, and the solution is never run. */
  lemma CompileFailureStops(w: World, trace: seq<Invocation>, problemId: nat, input: string)
    requires Toolchain(w, problemId).Some? && Toolchain(w, problemId).value.compile.Some?
    requires Execute(w, trace, Toolchain(w, problemId).value.compile.value, ProblemDir(problemId), None).result.Err?
    ensures Solve(w, trace, problemId, input) ==
      Execute(w, trace, Toolchain(w, problemId).value.compile.value, ProblemDir(problemId), None)
    ensures |Solve(w, trace, problemId, input).trace| <= |trace| + 1
  {
  }

  /**
   * A failing cleanup step fails the whole call even though the compile and
   * run steps succeeded: the solution's output is discarded.
   */
  lemma AfterFailurePropagates(w: World, trace: seq<Invocation>, problemId: nat, input: string, ft: FileType,
                               compiled: Outcome<string>, ran: Outcome<string>)
    requires Toolchain(w, problemId) == Some(ft) && ft.after.Some?
    requires compiled == CompileStep(w, trace, ft, ProblemDir(problemId)) && compiled.result.Ok?
    requires ran == Execute(w, compiled.trace, ft.run, ProblemDir(problemId), Some(input)) && ran.result.Ok?
    requires Execute(w, ran.trace, ft.after.value, ProblemDir(problemId), None).result.Err?
    ensures Solve(w, trace, problemId, input) == Execute(w, ran.trace, ft.after.value, ProblemDir(problemId), None)
    ensures Solve(w, trace, problemId, input).result.Err?
  {
  }

  /** A failing run step is the result, and the cleanup step never starts. */
  lemma RunFailureStops(w: World, trace: seq<Invocation>, problemId: nat, input: string, ft: FileType,
                        compiled: Outcome<string>, ran: Outcome<string>)
    requires Toolchain(w, problemId) == Some(ft)
    requires compiled == CompileStep(w, trace, ft, ProblemDir(problemId)) && compiled.result.Ok?
    requires ran == Execute(w, compiled.trace, ft.run, ProblemDir(problemId), Some(input)) && ran.result.Err?
    ensures Solve(w, trace, problemId, input) == ran
  {
  }

  /**
   * When every step succeeds, the result is the run step's stdout, and the
   * cleanup step, when there is one, is the last process started.
   */
  lemma SolveSucceeds(w: World, trace: seq<Invocation>, problemId: nat, input: string, ft: FileType,
                      compiled: Outcome<string>, ran: Outcome<string>)
    requires Toolchain(w, problemId) == Some(ft)
    requires compiled == CompileStep(w, trace, ft, ProblemDir(problemId)) && compiled.result.Ok?
    requires ran == Execute(w, compiled.trace, ft.run, ProblemDir(problemId), Some(input)) && ran.result.Ok?
    requires ft.after.Some? ==> Execute(w, ran.trace, ft.after.value, ProblemDir(problemId), None).result.Ok?
    ensures Solve(w, trace, problemId, input).result == ran.result
    ensures Solve(w, trace, problemId, input).trace ==
      if ft.after.Some? then Execute(w, ran.trace, ft.after.value, ProblemDir(problemId), None).trace else ran.trace
  {
  }

  /**
   * The processes a successful call starts, in order, all in the canonical
   * problem directory: the compile command without stdin (when there is
   * one), the run command with the input on stdin, whose successful exit
   * gives the output, then the cleanup command without stdin (when there is
   * one). Each is split on whitespace into program and arguments.
   */
  lemma SolveSuccessTrace(w: World, trace: seq<Invocation>, problemId: nat, input: string, ft: FileType)
    requires Toolchain(w, problemId) == Some(ft)
    requires Solve(w, trace, problemId, input).result.Ok?
    ensures var o := Solve(w, trace, problemId, input);
      var r := if ft.compile.Some? then |trace| + 1 else |trace|;
      && |o.trace| == (if ft.after.Some? then r + 2 else r + 1)
      && ProblemDir(problemId) in w.canonical
      && (forall j :: |trace| <= j < |o.trace| ==> o.trace[j].workdir == w.canonical[ProblemDir(problemId)])
      && (ft.compile.Some? ==>
            && Tokens(ft.compile.value) == [o.trace[|trace|].program] + o.trace[|trace|].args
            && o.trace[|trace|].stdin.None?
            && w.exec(trace, o.trace[|trace|]).Exited? && w.exec(trace, o.trace[|trace|]).success)
      && Tokens(ft.run) == [o.trace[r].program] + o.trace[r].args
      && o.trace[r].stdin == Some(input)
      && w.exec(o.trace[..r], o.trace[r]) == Exited(true, o.result.value)
      && (ft.after.Some? ==>
            && Tokens(ft.after.value) == [o.trace[r + 1].program] + o.trace[r + 1].args
            && o.trace[r + 1].stdin.None?
            && w.exec(o.trace[..r + 1], o.trace[r + 1]).Exited? && w.exec(o.trace[..r + 1], o.trace[r + 1]).success)
  {
    var dir := ProblemDir(problemId);
    var compiled := CompileStep(w, trace, ft, dir);
    var ran := Execute(w, compiled.trace, ft.run, dir, Some(input));
    var o := Solve(w, trace, problemId, input);
    assert compiled.result.Ok? && ran.result.Ok?;
    var r := |compiled.trace|;
    assert ran.trace == compiled.trace + [ran.trace[r]];
    if ft.compile.Some? {
      assert compiled.trace == trace + [compiled.trace[|trace|]];
    } else {
      assert compiled.trace == trace;
    }
    if ft.after.Some? {
      var cleaned := Execute(w, ran.trace, ft.after.value, dir, None);
      assert cleaned.result.Ok?;
      assert o.trace == cleaned.trace;
      assert cleaned.trace == ran.trace + [cleaned.trace[r + 1]];
      assert o.trace[..r + 1] == ran.trace;
    } else {
      assert o.trace == ran.trace;
    }
    assert o.trace[..r] == compiled.trace;
    assert o.result == ran.result;
  }

  /**
   * On success the output is the stdout of a started run command that
   * received the input; every command started besides it got no stdin.
   */
  lemma SolveOutput(w: World, trace: seq<Invocation>, problemId: nat, input: string)
    requires Solve(w, trace, problemId, input).result.Ok?
    ensures var o := Solve(w, trace, problemId, input);
      exists k :: |trace| <= k < |o.trace| && o.trace[k].stdin == Some(input) &&
        w.exec(o.trace[..k], o.trace[k]) == Exited(true, o.result.value) &&
        forall j :: |trace| <= j < |o.trace| && j != k ==> o.trace[j].stdin.None?
  {
    var ft := Toolchain(w, problemId).value;
    var dir := ProblemDir(problemId);
    var compiled := CompileStep(w, trace, ft, dir);
    var ran := Execute(w, compiled.trace, ft.run, dir, Some(input));
    var k := |compiled.trace|;
    assert ran.trace == compiled.trace + [ran.trace[k]];
    assert ran.trace[..k] == compiled.trace;
    var o := Solve(w, trace, problemId, input);
    assert o.trace[..|ran.trace|] == ran.trace;
    assert o.trace[k] == ran.trace[k];
    assert o.trace[..k] == compiled.trace;
  }

  // ---------------------------------------------------------------------------
  // Verdicts
  // ---------------------------------------------------------------------------

  datatype Verdict = Passed | Failed(expected: string, got: string)

  /** The verdict on one testcase, from the raw expected file and the raw output. */
  function Judgement(expectedRaw: string, outputRaw: string): (v: Verdict)
    ensures v.Passed? <==> Normalize(expectedRaw) == Normalize(outputRaw)
    ensures v.Failed? ==> v.expected == Normalize(expectedRaw) && v.got == Normalize(outputRaw)
  {
    var expected := Normalize(expectedRaw);
    var output := Normalize(outputRaw);
    if output == expected then Passed else Failed(expected, output)
  }

  /** Line endings do not decide a verdict: an expected file saved with CRLF judges the same. */
  lemma JudgementIgnoresLineEndings(expected: string, output: string)
    requires !Contains(expected, CRLF) && !Contains(output, CRLF)
    ensures Judgement(WindowsLineEndings(expected), output) == Judgement(expected, output)
    ensures Judgement(expected, WindowsLineEndings(output)) == Judgement(expected, output)
  {
    NormalizeIgnoresLineEndings(expected);
    NormalizeIgnoresLineEndings(output);
  }

  /**
   * Whitespace around the output does not decide a verdict: a solution that
   * prints extra blank lines or spaces before or after its answer is judged
   * as if it had printed the answer alone.
   */
  lemma JudgementIgnoresPadding(expected: string, pad1: string, output: string, pad2: string)
    requires AllWhitespace(pad1) && AllWhitespace(pad2)
    requires output == [] || (!IsWhitespace(output[0]) && !IsWhitespace(output[|output| - 1]))
    ensures Judgement(expected, pad1 + output + pad2) == Judgement(expected, output)
  {
    NormalizePadded(pad1, output, pad2);
  }

  // ---------------------------------------------------------------------------
  // The judge loop
  // ---------------------------------------------------------------------------

  /** What the judge prints: the testcase count, then one verdict per testcase. */
  datatype Report = Found(count: nat) | Judged(name: string, verdict: Verdict)

  /** The reports so far, the error that stopped the run if any, and the processes started. */
  datatype Progress = Progress(reports: seq<Report>, error: Option<RunError>, trace: seq<Invocation>)

  /**
   * The names of the entries that are readable directories, in the order
   * the listing yields them: unreadable entries and entries whose type
   * cannot be read are skipped.
   */
  function TestcaseDirs(entries: seq<Option<DirEntry>>): (names: seq<string>)
    ensures |names| <= |entries|
  {
    if entries == [] then []
    else
      var rest := TestcaseDirs(entries[1..]);
      if entries[0].Some? && entries[0].value.kind == Some(Directory) then [entries[0].value.name] + rest else rest
  }

  /** Listing order is kept: the directories of a concatenated listing are concatenated. */
  lemma {:induction false} TestcaseDirsAppend(a: seq<Option<DirEntry>>, b: seq<Option<DirEntry>>)
    ensures TestcaseDirs(a + b) == TestcaseDirs(a) + TestcaseDirs(b)
    decreases |a|
  {
    if a == [] {
      assert a + b == b;
    } else {
      assert (a + b)[0] == a[0];
      assert (a + b)[1..] == a[1..] + b;
      TestcaseDirsAppend(a[1..], b);
    }
  }

  /** Exactly the directory entries are counted. */
  lemma {:induction false} TestcaseDirsMembers(entries: seq<Option<DirEntry>>, name: string)
    ensures name in TestcaseDirs(entries) <==> Some(DirEntry(name, Some(Directory))) in entries
    decreases |entries|
  {
    if entries != [] {
      TestcaseDirsMembers(entries[1..], name);
      assert entries == [entries[0]] + entries[1..];
    }
  }

  function InputPath(problemId: nat, name: string): string {
    Join(Join(TestcasesDir(ProblemDir(problemId)), name), "input.txt")
  }

  function OutputPath(problemId: nat, name: string): string {
    Join(Join(TestcasesDir(ProblemDir(problemId)), name), "output.txt")
  }

  /** One iteration of the judge loop on a run that has not failed yet. */
  function JudgeCase(w: World, problemId: nat, p: Progress, name: string): (q: Progress)
    requires p.error.None?
    ensures q.error.None? <==>
      && InputPath(problemId, name) in w.files && OutputPath(problemId, name) in w.files
      && Solve(w, p.trace, problemId, w.files[InputPath(problemId, name)]).result.Ok?
    ensures q.error.None? ==>
      && |q.reports| == |p.reports| + 1 && q.reports[..|p.reports|] == p.reports
      && q.reports[|p.reports|].Judged? && q.reports[|p.reports|].name == name
      && q.reports[|p.reports|].verdict == Judgement(w.files[OutputPath(problemId, name)],
           Solve(w, p.trace, problemId, w.files[InputPath(problemId, name)]).result.value)
    ensures q.error.Some? ==> q.reports == p.reports
    ensures InputPath(problemId, name) !in w.files ==> q.error == Some(ReadFailed(InputPath(problemId, name), w.ioReason(InputPath(problemId, name))))
    ensures InputPath(problemId, name) in w.files && OutputPath(problemId, name) !in w.files ==>
      q.error == Some(ReadFailed(OutputPath(problemId, name), w.ioReason(OutputPath(problemId, name))))
    ensures InputPath(problemId, name) !in w.files || OutputPath(problemId, name) !in w.files ==>
      q.trace == p.trace
    ensures InputPath(problemId, name) in w.files && OutputPath(problemId, name) in w.files ==>
      var solved := Solve(w, p.trace, problemId, w.files[InputPath(problemId, name)]);
      && q.trace == solved.trace
      && (solved.result.Err? ==> q == Progress(p.reports, Some(solved.result.error), solved.trace))
  {
    var inPath := InputPath(problemId, name);
    var outPath := OutputPath(problemId, name);
    if inPath !in w.files then p.(error := Some(ReadFailed(inPath, w.ioReason(inPath))))
    else if outPath !in w.files then p.(error := Some(ReadFailed(outPath, w.ioReason(outPath))))
    else
      var solved := Solve(w, p.trace, problemId, w.files[inPath]);
      if solved.result.Err? then Progress(p.reports, Some(solved.result.error), solved.trace)
      else
        var verdict := Judgement(w.files[outPath], solved.result.value);
        Progress(p.reports + [Judged(name, verdict)], None, solved.trace)
  }

  /** The state after the first `k` testcases; a failed run ignores the rest. */
  function JudgeUpTo(w: World, problemId: nat, names: seq<string>, k: nat): Progress
    requires k <= |names|
  {
    if k == 0 then Progress([Found(|names|)], None, [])
    else
      var p := JudgeUpTo(w, problemId, names, k - 1);
      if p.error.Some? then p else JudgeCase(w, problemId, p, names[k - 1])
  }

  /** `run`: list the testcase directories, announce their number, judge each in turn. */
  function Judge(w: World, problemId: nat): Progress {
    var dir := TestcasesDir(ProblemDir(problemId));
    if dir !in w.listings then Progress([], Some(ReadDirFailed(dir, w.ioReason(dir))), [])
    else
      var names := TestcaseDirs(w.listings[dir]);
      JudgeUpTo(w, problemId, names, |names|)
  }

  /** One more testcase on a run that has not failed yet. */
  lemma JudgeUpToStep(w: World, problemId: nat, names: seq<string>, k: nat)
    requires k < |names| && JudgeUpTo(w, problemId, names, k).error.None?
    ensures JudgeUpTo(w, problemId, names, k + 1) == JudgeCase(w, problemId, JudgeUpTo(w, problemId, names, k), names[k])
  {
  }

  /** Once the run has failed, later testcases change nothing. */
  lemma {:induction false} AbortIsFinal(w: World, problemId: nat, names: seq<string>, k: nat, n: nat)
    requires k <= n <= |names|
    requires JudgeUpTo(w, problemId, names, k).error.Some?
    ensures JudgeUpTo(w, problemId, names, n) == JudgeUpTo(w, problemId, names, k)
    decreases n - k
  {
    if k < n {
      AbortIsFinal(w, problemId, names, k, n - 1);
    }
  }

  /** The imperative judge: a loop over the testcase directories that stops at the first error. */
  method RunJudge(w: World, problemId: nat) returns (reports: seq<Report>, r: Result<(), RunError>, trace: seq<Invocation>)
    ensures Judge(w, problemId) == Progress(reports, if r.Ok? then None else Some(r.error), trace)
  {
    var problemDir := ProblemDir(problemId);
    var testcasesDir := TestcasesDir(problemDir);
    trace := [];
    if testcasesDir !in w.listings {
      return [], Err(ReadDirFailed(testcasesDir, w.ioReason(testcasesDir))), trace;
    }
    var testcases := TestcaseDirs(w.listings[testcasesDir]);
    reports := [Found(|testcases|)];
    var i := 0;
    while i < |testcases|
      invariant 0 <= i <= |testcases|
      invariant JudgeUpTo(w, problemId, testcases, i) == Progress(reports, None, trace)
    {
      var name := testcases[i];
      ghost var before := Progress(reports, None, trace);
      JudgeUpToStep(w, problemId, testcases, i);
      var inputPath := InputPath(problemId, name);
      var outputPath := OutputPath(problemId, name);
      if inputPath !in w.files {
        assert JudgeCase(w, problemId, before, name) == before.(error := Some(ReadFailed(inputPath, w.ioReason(inputPath))));
        AbortIsFinal(w, problemId, testcases, i + 1, |testcases|);
        return reports, Err(ReadFailed(inputPath, w.ioReason(inputPath))), trace;
      }
      var input := w.files[inputPath];
      if outputPath !in w.files {
        assert JudgeCase(w, problemId, before, name) == before.(error := Some(ReadFailed(outputPath, w.ioReason(outputPath))));
        AbortIsFinal(w, problemId, testcases, i + 1, |testcases|);
        return reports, Err(ReadFailed(outputPath, w.ioReason(outputPath))), trace;
      }
      var expectedOutput := w.files[outputPath];
      var output;
      output, trace := RunSolution(w, trace, problemId, input);
      if output.Err? {
        assert JudgeCase(w, problemId, before, name) == Progress(reports, Some(output.error), trace);
        AbortIsFinal(w, problemId, testcases, i + 1, |testcases|);
        return reports, Err(output.error), trace;
      }
      reports := reports + [Judged(name, Judgement(expectedOutput, output.value))];
      assert JudgeCase(w, problemId, before, name) == Progress(reports, None, trace);
      i := i + 1;
    }
    r := Ok(());
  }

  /**
   * The reports start with the testcase count and then name testcases in
   * listing order, each once.
   */
  predicate ReportsFollow(reports: seq<Report>, names: seq<string>) {
    && 1 <= |reports| <= |names| + 1 && reports[0] == Found(|names|)
    && forall i :: 1 <= i < |reports| ==> reports[i].Judged? && reports[i].name == names[i - 1]
  }

  lemma ReportsFollowAppend(reports: seq<Report>, names: seq<string>, r: Report)
    requires ReportsFollow(reports, names) && |reports| <= |names|
    requires r.Judged? && r.name == names[|reports| - 1]
    ensures ReportsFollow(reports + [r], names)
  {
    var s := reports + [r];
    forall i | 1 <= i < |s| ensures s[i].Judged? && s[i].name == names[i - 1] {
      if i < |reports| {
        assert s[i] == reports[i];
      } else {
        assert s[i] == r;
      }
    }
  }

  /**
   * Reports come in testcase order: the count first, then one verdict per
   * testcase judged so far, each testcase once. A failed run has judged only
   * the testcases before the failing one.
   */
  lemma {:induction false} JudgedInOrder(w: World, problemId: nat, names: seq<string>, k: nat)
    requires k <= |names|
    ensures var p := JudgeUpTo(w, problemId, names, k);
      && ReportsFollow(p.reports, names) && |p.reports| <= k + 1
      && (p.error.None? ==> |p.reports| == k + 1)
  {
    if k > 0 {
      JudgedInOrder(w, problemId, names, k - 1);
      var p := JudgeUpTo(w, problemId, names, k - 1);
      if p.error.None? {
        var q := JudgeCase(w, problemId, p, names[k - 1]);
        assert JudgeUpTo(w, problemId, names, k) == q;
        if q.error.None? {
          assert q.reports == p.reports + [q.reports[k]];
          ReportsFollowAppend(p.reports, names, q.reports[k]);
        }
      }
    }
  }

  /** Without testcase directories nothing is run, and the configuration is never read. */
  lemma NoTestcasesNoConfig(w: World, problemId: nat, c: ConfigFile)
    requires TestcasesDir(ProblemDir(problemId)) in w.listings
    requires TestcaseDirs(w.listings[TestcasesDir(ProblemDir(problemId))]) == []
    ensures Judge(w, problemId) == Progress([Found(0)], None, [])
    ensures Judge(w.(config := c), problemId) == Judge(w, problemId)
  {
  }

  /** With no configuration readable, a run with testcases fails on the first of them. */
  lemma ConfigErrorAbortsFirst(w: World, problemId: nat)
    requires Load(w.config).Err?
    requires TestcasesDir(ProblemDir(problemId)) in w.listings
    requires var names := TestcaseDirs(w.listings[TestcasesDir(ProblemDir(problemId))]);
      names != [] && InputPath(problemId, names[0]) in w.files && OutputPath(problemId, names[0]) in w.files
    ensures Judge(w, problemId).error == Some(ConfigFailed(Load(w.config).error))
    ensures |Judge(w, problemId).reports| == 1
  {
    var names := TestcaseDirs(w.listings[TestcasesDir(ProblemDir(problemId))]);
    AbortIsFinal(w, problemId, names, 1, |names|);
  }
}
