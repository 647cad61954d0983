/**
 * `boj add`: scaffold `problems/<id>` with a source file from a template, a
 * Markdown statement and one numbered directory per sample test.
 *
 * The file system is a `Disk` whose `refusals` name the paths at which the
 * operating system refuses to create or write, with the reason it gives.
 * The embedded resources (source templates and the chromedriver binary),
 * the fetched problem, the configuration file and the outcome of starting
 * and stopping chromedriver are parameters.
 */
module Add {
  import opened Config
  import opened Paths
  import opened Problem
  import Init
  import Run

  // ---------------------------------------------------------------------------
  // Naming rules
  // ---------------------------------------------------------------------------

  /** What is on disk: file contents by path, and the directories. */
  datatype Store = Store(files: map<string, string>, dirs: set<string>)

  /** `Path::exists`. */
  predicate Exists(s: Store, path: string) {
    path in s.files || path in s.dirs
  }

  /** `is_initialized`: the workspace marker directory is present. */
  predicate IsInitialized(s: Store) {
    Exists(s, ".boj")
  }

  /** `check_initialization`. */
  function CheckInitialization(s: Store): (r: Result<(), AddError>)
    ensures r.Err? <==> !Exists(s, ".boj")
    ensures r.Err? ==> r.error == NotInitialized
  {
    if !IsInitialized(s) then Err(NotInitialized) else Ok(())
  }

  /** `ensure_problem_directory`: refuses an existing directory unless forced; creates nothing. */
  function EnsureProblemDirectory(s: Store, problemId: nat, force: bool): (r: Result<string, AddError>)
    ensures r.Err? <==> Exists(s, ProblemDir(problemId)) && !force
    ensures r.Err? ==> r.error == DirectoryAlreadyExists
    ensures r.Ok? ==> r.value == ProblemDir(problemId)
  {
    var problemDir := ProblemDir(problemId);
    if Exists(s, problemDir) && !force then Err(DirectoryAlreadyExists) else Ok(problemDir)
  }

  /** `determine_extension`: the word `nil` stands for the configured default. */
  function DetermineExtension(extensionArg: string, config: Config): (ext: string)
    ensures extensionArg == "nil" ==> ext == DefaultExtension(config)
    ensures extensionArg != "nil" ==> ext == extensionArg
  {
    if extensionArg == "nil" then DefaultExtension(config) else extensionArg
  }

  /**
   * Choosing the extension twice changes nothing, unless the configured
   * default is itself the word `nil`.
   */
  lemma DetermineExtensionStable(extensionArg: string, config: Config)
    requires DefaultExtension(config) != "nil"
    ensures DetermineExtension(DetermineExtension(extensionArg, config), config) == DetermineExtension(extensionArg, config)
  {
  }

  /** The embedded template a source file is copied from. */
  function TemplateName(ext: string): (name: string)
    ensures ext == "java" ==> name == "Main.java"
    ensures ext != "java" ==> name == "default." + ext
  {
    if ext == "java" then "Main.java" else "default." + ext
  }

  /** The name of the solution file inside the problem directory. */
  function TargetName(ext: string): (name: string)
    ensures ext == "java" ==> name == "Main.java"
    ensures ext != "java" ==> name == "main." + ext
  {
    if ext == "java" then "Main.java" else "main." + ext
  }

  /** Different extensions use different templates and different solution files. */
  lemma NamesInjective(a: string, b: string)
    ensures TemplateName(a) == TemplateName(b) ==> a == b
    ensures TargetName(a) == TargetName(b) ==> a == b
  {
    if a != b {
      if a == "java" || b == "java" {
        assert TemplateName(a)[0] != TemplateName(b)[0];
        assert TargetName(a)[0] != TargetName(b)[0];
      } else {
        if TemplateName(a) == TemplateName(b) {
          CancelPrefix("default.", a, b);
        }
        if TargetName(a) == TargetName(b) {
          CancelPrefix("main.", a, b);
        }
      }
    }
  }

  /**
   * For each filetype `boj init` writes, the file `boj add` creates is that
   * filetype's `main`, so the judge's toolchain lookup finds it.
   */
  lemma TargetIsConfiguredMain(i: nat)
    requires i < |Init.DefaultFileTypes()|
    ensures TargetName(Init.DefaultFileTypes()[i].0) == Init.DefaultFileTypes()[i].1.main
  {
    var ft := Init.DefaultFileTypes();
    if i == 0 {
      assert ft[0].0 == "py" && ft[0].1.main == "main" + "." + "py";
    } else if i == 1 {
      assert ft[1].0 == "rs" && ft[1].1.main == "main" + "." + "rs";
    } else if i == 2 {
      assert ft[2].0 == "c" && ft[2].1.main == "main" + "." + "c";
    } else if i == 3 {
      assert ft[3].0 == "cpp" && ft[3].1.main == "main" + "." + "cpp";
    } else if i == 4 {
      assert ft[4].0 == "java";
    } else {
      assert ft[5].0 == "js" && ft[5].1.main == "main" + "." + "js";
    }
  }

  function SourcePath(problemDir: string, ext: string): string {
    Join(problemDir, TargetName(ext))
  }

  function DescriptionPath(problemDir: string, problemId: nat): string {
    Join(problemDir, Decimal(problemId) + ".md")
  }

  /** `testcases/<number>` inside the problem directory. */
  function CaseDir(problemDir: string, number: nat): string {
    Join(TestcasesDir(problemDir), Decimal(number))
  }

  function CaseInput(problemDir: string, number: nat): string {
    Join(CaseDir(problemDir, number), "input.txt")
  }

  function CaseOutput(problemDir: string, number: nat): string {
    Join(CaseDir(problemDir, number), "output.txt")
  }

  const DriverDir: string := ".boj/bin"

  function DriverPath(): string {
    Join(DriverDir, "chromedriver.exe")
  }

  /** Different sample numbers get different directories. */
  lemma CaseDirInjective(problemDir: string, a: nat, b: nat)
    requires CaseDir(problemDir, a) == CaseDir(problemDir, b)
    ensures a == b
  {
    var prefix := problemDir + "/testcases/";
    assert CaseDir(problemDir, a) == prefix + Decimal(a);
    assert CaseDir(problemDir, b) == prefix + Decimal(b);
    CancelPrefix(prefix, Decimal(a), Decimal(b));
    DecimalInjective(a, b);
  }

  /** The files written for different samples, and for input and output, never coincide. */
  lemma CasePathsDistinct(problemDir: string, a: nat, b: nat)
    ensures CaseInput(problemDir, a) == CaseInput(problemDir, b) ==> a == b
    ensures CaseOutput(problemDir, a) == CaseOutput(problemDir, b) ==> a == b
    ensures CaseInput(problemDir, a) != CaseOutput(problemDir, b)
  {
    var da, db := CaseDir(problemDir, a), CaseDir(problemDir, b);
    assert CaseInput(problemDir, a) == da + "/input.txt";
    assert CaseInput(problemDir, b) == db + "/input.txt";
    assert CaseOutput(problemDir, a) == da + "/output.txt";
    assert CaseOutput(problemDir, b) == db + "/output.txt";
    if CaseInput(problemDir, a) == CaseInput(problemDir, b) {
      CancelSuffix(da, db, "/input.txt");
      CaseDirInjective(problemDir, a, b);
    }
    if CaseOutput(problemDir, a) == CaseOutput(problemDir, b) {
      CancelSuffix(da, db, "/output.txt");
      CaseDirInjective(problemDir, a, b);
    }
    SuffixesDiffer(da, db);
  }

  lemma SuffixesDiffer(x: string, y: string)
    ensures x + "/input.txt" != y + "/output.txt"
  {
    var i := x + "/input.txt";
    var o := y + "/output.txt";
    assert i[|i| - 10] == '/';
    assert o[|o| - 10] == 'o';
  }

  // ---------------------------------------------------------------------------
  // Effects on the disk
  // ---------------------------------------------------------------------------

  /** Why scaffolding stopped: an error it returns, or a panic. */
  datatype Stop = Fail(error: AddError) | Panic(message: string)

  /** The disk after some steps, and why they stopped, if they did. */
  datatype Effect = Effect(store: Store, stop: Option<Stop>)

  /** `fs::create_dir_all`. */
  function MakeDir(s: Store, refusals: map<string, string>, path: string): Effect {
    if path in refusals then Effect(s, Some(Fail(IoError(refusals[path]))))
    else Effect(s.(dirs := s.dirs + {path}), None)
  }

  /** `fs::write`: creates or replaces the file. */
  function WriteFile(s: Store, refusals: map<string, string>, path: string, contents: string): Effect {
    if path in refusals then Effect(s, Some(Fail(IoError(refusals[path]))))
    else Effect(s.(files := s.files[path := contents]), None)
  }

  /** The embedded files: source templates by name (`None` when not UTF-8) and the chromedriver binary. */
  datatype Resources = Resources(templates: map<string, Option<string>>, driver: Option<string>)

  /** `create_source_file`: copy the extension's template into the problem directory. */
  function SourceFile(s: Store, refusals: map<string, string>, res: Resources, problemDir: string, ext: string): Effect {
    var name := TemplateName(ext);
    if name !in res.templates then Effect(s, Some(Fail(ConfigError("Template file not found: " + name))))
    else if res.templates[name].None? then Effect(s, Some(Fail(ConfigError(name + " file is not UTF-8"))))
    else WriteFile(s, refusals, SourcePath(problemDir, ext), res.templates[name].value)
  }

  /** The fields of a fetched problem that scaffolding reads. */
  datatype Sheet = Sheet(
    id: nat,
    title: string,
    description: string,
    inputDesc: string,
    outputDesc: string,
    testCases: seq<TestCase>)

  function Snapshot(p: Problem): Sheet
    reads p
  {
    Sheet(p.id, p.title, p.description, p.inputDesc, p.outputDesc, p.testCases)
  }

  /** The Markdown statement: the sections in order, then the first sample in code blocks. */
  function DescriptionContent(sheet: Sheet): string
    requires |sheet.testCases| > 0
  {
    "# " + sheet.title + "\n" + DescriptionBody(sheet) + sheet.testCases[0].output + "```\n"
  }

  /** Everything between the title line and the first sample's output. */
  function DescriptionBody(sheet: Sheet): string
    requires |sheet.testCases| > 0
  {
    "\n## 문제 설명 \n" + sheet.description
      + "\n\n## 입력\n" + sheet.inputDesc
      + "\n\n## 출력\n" + sheet.outputDesc
      + "\n\n## 예제 입력\n```\n" + sheet.testCases[0].input
      + "```\n\n## 예제 출력\n```\n"
  }

  /** The statement opens with the title as a heading and closes with the first sample's output. */
  lemma DescriptionFrame(sheet: Sheet)
    requires |sheet.testCases| > 0
    ensures var c := DescriptionContent(sheet);
      var head := "# " + sheet.title + "\n";
      var tail := sheet.testCases[0].output + "```\n";
      && |head| + |tail| <= |c| && c[..|head|] == head && c[|c| - |tail|..] == tail
  {
    var head := "# " + sheet.title + "\n";
    var body := DescriptionBody(sheet);
    var tail := sheet.testCases[0].output + "```\n";
    var c := DescriptionContent(sheet);
    assert c == head + body + tail;
    Ends(head, body, tail);
  }

  lemma Ends(a: string, b: string, c: string)
    ensures (a + b + c)[..|a|] == a && (a + b + c)[|a + b + c| - |c|..] == c
  {
  }

  /** `create_description_file`: `<id>.md`; a problem without samples panics before writing. */
  function DescriptionFile(s: Store, refusals: map<string, string>, problemDir: string, sheet: Sheet): Effect {
    if |sheet.testCases| == 0 then Effect(s, Some(Panic(Run.EmptyIndexPanic)))
    else WriteFile(s, refusals, DescriptionPath(problemDir, sheet.id), DescriptionContent(sheet))
  }

  /** One iteration of `create_testcase_files`: the directory, then `input.txt`, then `output.txt`. */
  function WriteCase(s: Store, refusals: map<string, string>, problemDir: string, number: nat, tc: TestCase): Effect {
    var made := MakeDir(s, refusals, CaseDir(problemDir, number));
    if made.stop.Some? then made
    else
      var input := WriteFile(made.store, refusals, CaseInput(problemDir, number), tc.input);
      if input.stop.Some? then input
      else WriteFile(input.store, refusals, CaseOutput(problemDir, number), tc.output)
  }

  /** The first `n` iterations: the k-th sample (from 0) goes to directory `k + 1`. */
  function WriteCases(s: Store, refusals: map<string, string>, problemDir: string, cases: seq<TestCase>, n: nat): Effect
    requires n <= |cases|
  {
    if n == 0 then Effect(s, None)
    else
      var e := WriteCases(s, refusals, problemDir, cases, n - 1);
      if e.stop.Some? then e else WriteCase(e.store, refusals, problemDir, n, cases[n - 1])
  }

  /** `extract_chromedriver`: unpack the binary under `.boj/bin` unless it is already there. */
  function ExtractDriver(s: Store, refusals: map<string, string>, res: Resources): Effect {
    if res.driver.None? then Effect(s, Some(Fail(ConfigError("chromedriver.exe file not found"))))
    else
      var made := MakeDir(s, refusals, DriverDir);
      if made.stop.Some? || Exists(made.store, DriverPath()) then made
      else WriteFile(made.store, refusals, DriverPath(), res.driver.value)
  }

  /** The first steps of `setup_problem_directory`: the directories, the source file and the statement. */
  function Prepare(s: Store, refusals: map<string, string>, res: Resources, problemDir: string, sheet: Sheet, ext: string): Effect {
    var root := MakeDir(s, refusals, problemDir);
    if root.stop.Some? then root
    else
      var tests := MakeDir(root.store, refusals, TestcasesDir(problemDir));
      if tests.stop.Some? then tests
      else
        var source := SourceFile(tests.store, refusals, res, problemDir, ext);
        if source.stop.Some? then source
        else DescriptionFile(source.store, refusals, problemDir, sheet)
  }

  /** `setup_problem_directory`: after `Prepare`, the samples, then chromedriver. */
  function Setup(s: Store, refusals: map<string, string>, res: Resources, problemDir: string, sheet: Sheet, ext: string): Effect {
    var prepared := Prepare(s, refusals, res, problemDir, sheet, ext);
    if prepared.stop.Some? then prepared
    else
      var cases := WriteCases(prepared.store, refusals, problemDir, sheet.testCases, |sheet.testCases|);
      if cases.stop.Some? then cases
      else ExtractDriver(cases.store, refusals, res)
  }

  /** `start_chromedriver`: unpack the binary, then spawn it. */
  function StartDriver(s: Store, refusals: map<string, string>, res: Resources, spawnFailure: Option<string>): Effect {
    var extracted := ExtractDriver(s, refusals, res);
    if extracted.stop.Some? || spawnFailure.None? then extracted
    else Effect(extracted.store, Some(Fail(IoError(spawnFailure.value))))
  }

  /**
   * `add`: check the workspace, start chromedriver, guard the problem
   * directory, fetch the problem, load the configuration, pick the
   * extension, scaffold, and stop chromedriver. `spawnFailure` and
   * `killFailure` say whether starting and stopping the driver fail.
   */
  function AddFlow(s: Store, refusals: map<string, string>, res: Resources, problemId: nat, force: bool,
                   extensionArg: string, fetched: Result<Sheet, ProblemError>, configFile: ConfigFile,
                   spawnFailure: Option<string>, killFailure: Option<string>): Effect
  {
    if CheckInitialization(s).Err? then Effect(s, Some(Fail(NotInitialized)))
    else
      var started := StartDriver(s, refusals, res, spawnFailure);
      if started.stop.Some? then started
      else
        var guard := EnsureProblemDirectory(started.store, problemId, force);
        if guard.Err? then Effect(started.store, Some(Fail(guard.error)))
        else if fetched.Err? then Effect(started.store, Some(Fail(FetchError(ProblemErrorMessage(fetched.error)))))
        else
          var loaded := Load(configFile);
          if loaded.Err? then Effect(started.store, Some(Fail(ConfigError(AddErrorMessage(loaded.error)))))
          else
            var ext := DetermineExtension(extensionArg, loaded.value);
            var setup := Setup(started.store, refusals, res, guard.value, fetched.value, ext);
            if setup.stop.Some? || killFailure.None? then setup
            else Effect(setup.store, Some(Fail(IoError(killFailure.value))))
  }

  // ---------------------------------------------------------------------------
  // Properties of the testcase files
  // ---------------------------------------------------------------------------

  /** Once writing has stopped, later samples change nothing. */
  lemma {:induction false} CasesStopped(s: Store, refusals: map<string, string>, problemDir: string, cases: seq<TestCase>, k: nat, n: nat)
    requires k <= n <= |cases|
    requires WriteCases(s, refusals, problemDir, cases, k).stop.Some?
    ensures WriteCases(s, refusals, problemDir, cases, n) == WriteCases(s, refusals, problemDir, cases, k)
    decreases n - k
  {
    if k < n {
      CasesStopped(s, refusals, problemDir, cases, k, n - 1);
    }
  }

  /** Sample `tc` is stored verbatim in `testcases/<number>`. */
  predicate Stored(t: Store, problemDir: string, number: nat, tc: TestCase) {
    && CaseDir(problemDir, number) in t.dirs
    && CaseInput(problemDir, number) in t.files && t.files[CaseInput(problemDir, number)] == tc.input
    && CaseOutput(problemDir, number) in t.files && t.files[CaseOutput(problemDir, number)] == tc.output
  }

  /** A successful iteration stores its own sample. */
  lemma WriteCaseStores(s: Store, refusals: map<string, string>, problemDir: string, number: nat, tc: TestCase)
    requires WriteCase(s, refusals, problemDir, number, tc).stop.None?
    ensures Stored(WriteCase(s, refusals, problemDir, number, tc).store, problemDir, number, tc)
  {
    CasePathsDistinct(problemDir, number, number);
  }

  /** A successful iteration keeps the samples stored under other numbers. */
  lemma WriteCaseKeeps(s: Store, refusals: map<string, string>, problemDir: string, number: nat, tc: TestCase,
                       other: nat, old_tc: TestCase)
    requires other != number && Stored(s, problemDir, other, old_tc)
    requires WriteCase(s, refusals, problemDir, number, tc).stop.None?
    ensures Stored(WriteCase(s, refusals, problemDir, number, tc).store, problemDir, other, old_tc)
  {
    CasePathsDistinct(problemDir, other, number);
    CasePathsDistinct(problemDir, number, other);
  }

  /**
   * After the first `n` iterations succeed, sample k (from 0) is stored
   * verbatim in `testcases/<k + 1>`, for every k below `n`.
   */
  lemma {:induction false} CasesStored(s: Store, refusals: map<string, string>, problemDir: string, cases: seq<TestCase>, n: nat)
    requires n <= |cases|
    requires WriteCases(s, refusals, problemDir, cases, n).stop.None?
    ensures forall k :: 0 <= k < n ==>
      Stored(WriteCases(s, refusals, problemDir, cases, n).store, problemDir, k + 1, cases[k])
  {
    if n > 0 {
      var before := WriteCases(s, refusals, problemDir, cases, n - 1);
      WriteCasesStep(s, refusals, problemDir, cases, n);
      CasesStored(s, refusals, problemDir, cases, n - 1);
      var after := WriteCase(before.store, refusals, problemDir, n, cases[n - 1]).store;
      forall k | 0 <= k < n
        ensures Stored(after, problemDir, k + 1, cases[k])
      {
        if k < n - 1 {
          WriteCaseKeeps(before.store, refusals, problemDir, n, cases[n - 1], k + 1, cases[k]);
        } else {
          WriteCaseStores(before.store, refusals, problemDir, n, cases[n - 1]);
        }
      }
    }
  }

  /** The n-th iteration runs on what the earlier ones left, when they succeeded. */
  lemma WriteCasesStep(s: Store, refusals: map<string, string>, problemDir: string, cases: seq<TestCase>, n: nat)
    requires 0 < n <= |cases|
    requires WriteCases(s, refusals, problemDir, cases, n).stop.None?
    ensures WriteCases(s, refusals, problemDir, cases, n - 1).stop.None?
    ensures WriteCases(s, refusals, problemDir, cases, n) ==
      WriteCase(WriteCases(s, refusals, problemDir, cases, n - 1).store, refusals, problemDir, n, cases[n - 1])
  {
  }

  /** The iterations succeed exactly when none of their directories and files is refused. */
  lemma {:induction false} CasesSucceed(s: Store, refusals: map<string, string>, problemDir: string, cases: seq<TestCase>, n: nat)
    requires n <= |cases|
    ensures WriteCases(s, refusals, problemDir, cases, n).stop.None? <==>
      forall number :: 1 <= number <= n ==>
        CaseDir(problemDir, number) !in refusals && CaseInput(problemDir, number) !in refusals &&
        CaseOutput(problemDir, number) !in refusals
  {
    if n > 0 {
      CasesSucceed(s, refusals, problemDir, cases, n - 1);
    }
  }

  /** A path that is none of the first `n` samples' files keeps its contents, whether or not writing stops. */
  lemma {:induction false} CasesFrame(s: Store, refusals: map<string, string>, problemDir: string, cases: seq<TestCase>, n: nat, path: string)
    requires n <= |cases|
    requires forall number :: 1 <= number <= n ==> path != CaseInput(problemDir, number) && path != CaseOutput(problemDir, number)
    ensures var t := WriteCases(s, refusals, problemDir, cases, n).store;
      (path in t.files <==> path in s.files) && (path in s.files ==> t.files[path] == s.files[path])
  {
    if n > 0 {
      CasesFrame(s, refusals, problemDir, cases, n - 1, path);
      var e := WriteCases(s, refusals, problemDir, cases, n - 1);
      if e.stop.None? {
        WriteCaseFrame(e.store, refusals, problemDir, n, cases[n - 1], path);
      }
    }
  }

  /** One iteration touches no file but its own two. */
  lemma WriteCaseFrame(s: Store, refusals: map<string, string>, problemDir: string, number: nat, tc: TestCase, path: string)
    requires path != CaseInput(problemDir, number) && path != CaseOutput(problemDir, number)
    ensures var t := WriteCase(s, refusals, problemDir, number, tc).store;
      (path in t.files <==> path in s.files) && (path in s.files ==> t.files[path] == s.files[path])
  {
  }

  /** Unpacking chromedriver keeps every stored sample of a problem. */
  lemma ExtractDriverKeeps(s: Store, refusals: map<string, string>, res: Resources, problemDir: string, number: nat, tc: TestCase)
    requires problemDir != [] && problemDir[0] == 'p'
    requires Stored(s, problemDir, number, tc)
    ensures Stored(ExtractDriver(s, refusals, res).store, problemDir, number, tc)
  {
    DriverPathOutsideProblems(problemDir, number);
  }

  /** A successful scaffolding stores sample k (from 0) in `testcases/<k + 1>`. */
  lemma SetupStoresCases(s: Store, refusals: map<string, string>, res: Resources, problemDir: string, sheet: Sheet, ext: string, k: nat)
    requires problemDir != [] && problemDir[0] == 'p'
    requires Setup(s, refusals, res, problemDir, sheet, ext).stop.None?
    requires k < |sheet.testCases|
    ensures Stored(Setup(s, refusals, res, problemDir, sheet, ext).store, problemDir, k + 1, sheet.testCases[k])
  {
    var prepared := Prepare(s, refusals, res, problemDir, sheet, ext).store;
    var cases := WriteCases(prepared, refusals, problemDir, sheet.testCases, |sheet.testCases|);
    CasesStored(prepared, refusals, problemDir, sheet.testCases, |sheet.testCases|);
    ExtractDriverKeeps(cases.store, refusals, res, problemDir, k + 1, sheet.testCases[k]);
  }

  /**
   * The samples land where the judge reads them: after a successful
   * `add` of problem `id`, testcase directory `k + 1` holds sample k (from
   * 0) at the judge's input and output paths.
   */
  lemma AddThenJudge(s: Store, refusals: map<string, string>, res: Resources, problemId: nat, force: bool,
                     extensionArg: string, sheet: Sheet, configFile: ConfigFile,
                     spawnFailure: Option<string>, killFailure: Option<string>, k: nat)
    requires AddFlow(s, refusals, res, problemId, force, extensionArg, Ok(sheet), configFile, spawnFailure, killFailure).stop.None?
    requires k < |sheet.testCases|
    ensures var t := AddFlow(s, refusals, res, problemId, force, extensionArg, Ok(sheet), configFile, spawnFailure, killFailure).store;
      && Run.InputPath(problemId, Decimal(k + 1)) in t.files
      && t.files[Run.InputPath(problemId, Decimal(k + 1))] == sheet.testCases[k].input
      && Run.OutputPath(problemId, Decimal(k + 1)) in t.files
      && t.files[Run.OutputPath(problemId, Decimal(k + 1))] == sheet.testCases[k].output
  {
    var dir := ProblemDir(problemId);
    var started := StartDriver(s, refusals, res, spawnFailure).store;
    var ext := DetermineExtension(extensionArg, Load(configFile).value);
    assert AddFlow(s, refusals, res, problemId, force, extensionArg, Ok(sheet), configFile, spawnFailure, killFailure)
      == Setup(started, refusals, res, dir, sheet, ext);
    assert dir[0] == 'p';
    SetupStoresCases(started, refusals, res, dir, sheet, ext, k);
  }

  /** Nothing under `problems/` is the chromedriver binary. */
  lemma DriverPathOutsideProblems(problemDir: string, number: nat)
    requires problemDir != [] && problemDir[0] == 'p'
    ensures DriverPath() != CaseInput(problemDir, number) && DriverPath() != CaseOutput(problemDir, number)
  {
    assert DriverPath()[0] == '.';
    assert CaseInput(problemDir, number)[0] == problemDir[0];
    assert CaseOutput(problemDir, number)[0] == problemDir[0];
  }

  // ---------------------------------------------------------------------------
  // Properties of the whole command
  // ---------------------------------------------------------------------------

  /** Outside an initialised workspace nothing is touched. */
  lemma UninitializedChangesNothing(s: Store, refusals: map<string, string>, res: Resources, problemId: nat, force: bool,
                                    extensionArg: string, fetched: Result<Sheet, ProblemError>, configFile: ConfigFile,
                                    spawnFailure: Option<string>, killFailure: Option<string>)
    requires !Exists(s, ".boj")
    ensures AddFlow(s, refusals, res, problemId, force, extensionArg, fetched, configFile, spawnFailure, killFailure)
      == Effect(s, Some(Fail(NotInitialized)))
  {
  }

  /**
   * An existing problem directory is kept unless `--force` is given: the
   * command stops before fetching, and nothing under it is written.
   */
  lemma ExistingProblemKept(s: Store, refusals: map<string, string>, res: Resources, problemId: nat,
                            extensionArg: string, fetched: Result<Sheet, ProblemError>, configFile: ConfigFile,
                            spawnFailure: Option<string>, killFailure: Option<string>)
    requires Exists(s, ".boj") && Exists(s, ProblemDir(problemId))
    requires StartDriver(s, refusals, res, spawnFailure).stop.None?
    ensures AddFlow(s, refusals, res, problemId, false, extensionArg, fetched, configFile, spawnFailure, killFailure)
      == Effect(StartDriver(s, refusals, res, spawnFailure).store, Some(Fail(DirectoryAlreadyExists)))
  {
    var t := StartDriver(s, refusals, res, spawnFailure).store;
    assert Exists(t, ProblemDir(problemId)) by {
      assert s.files.Keys <= t.files.Keys && s.dirs <= t.dirs;
    }
  }

  /**
   * A configuration failure is wrapped a second time: the message the user
   * sees carries the `Config error: ` prefix twice.
   */
  lemma ConfigFailureMessage(s: Store, refusals: map<string, string>, res: Resources, problemId: nat, force: bool,
                             extensionArg: string, sheet: Sheet, reason: string,
                             spawnFailure: Option<string>, killFailure: Option<string>)
    requires Exists(s, ".boj") && StartDriver(s, refusals, res, spawnFailure).stop.None?
    requires force
    ensures var e := AddFlow(s, refusals, res, problemId, force, extensionArg, Ok(sheet), Unreadable(reason),
                             spawnFailure, killFailure);
      e.stop.Some? && e.stop.value.Fail? &&
      AddErrorMessage(e.stop.value.error) == "Config error: " + "Config error: " + "Failed to read config file: " + reason
  {
  }

  /** A problem fetched without samples makes scaffolding panic after the source file is written. */
  lemma NoSamplesPanics(s: Store, refusals: map<string, string>, res: Resources, problemDir: string, sheet: Sheet, ext: string)
    requires sheet.testCases == []
    requires problemDir !in refusals && TestcasesDir(problemDir) !in refusals
    requires TemplateName(ext) in res.templates && res.templates[TemplateName(ext)].Some?
    requires SourcePath(problemDir, ext) !in refusals
    ensures var e := Setup(s, refusals, res, problemDir, sheet, ext);
      && e.stop == Some(Panic(Run.EmptyIndexPanic))
      && e.store.files == s.files[SourcePath(problemDir, ext) := res.templates[TemplateName(ext)].value]
  {
  }

  /**
   * On success the solution file holds the extension's template; its
   * name is the one the judge looks for when the extension is a default
   * filetype.
   */
  lemma SourceWritten(s: Store, refusals: map<string, string>, res: Resources, problemDir: string, sheet: Sheet, ext: string)
    requires problemDir != [] && problemDir[0] == 'p'
    requires Setup(s, refusals, res, problemDir, sheet, ext).stop.None?
    ensures TemplateName(ext) in res.templates && res.templates[TemplateName(ext)].Some?
    ensures var t := Setup(s, refusals, res, problemDir, sheet, ext).store;
      SourcePath(problemDir, ext) in t.files && t.files[SourcePath(problemDir, ext)] == res.templates[TemplateName(ext)].value
  {
    var prepared := Prepare(s, refusals, res, problemDir, sheet, ext).store;
    var path := SourcePath(problemDir, ext);
    PrepareStoresSource(s, refusals, res, problemDir, sheet, ext);
    forall number | 1 <= number <= |sheet.testCases|
      ensures path != CaseInput(problemDir, number) && path != CaseOutput(problemDir, number)
    {
      SourceNotCase(problemDir, ext, number);
    }
    CasesFrame(prepared, refusals, problemDir, sheet.testCases, |sheet.testCases|, path);
    var cases := WriteCases(prepared, refusals, problemDir, sheet.testCases, |sheet.testCases|).store;
    SourceNotDriver(problemDir, ext);
    ExtractDriverKeepsFile(cases, refusals, res, path);
  }

  /** The first steps leave the template's text in the solution file. */
  lemma PrepareStoresSource(s: Store, refusals: map<string, string>, res: Resources, problemDir: string, sheet: Sheet, ext: string)
    requires Prepare(s, refusals, res, problemDir, sheet, ext).stop.None?
    ensures TemplateName(ext) in res.templates && res.templates[TemplateName(ext)].Some?
    ensures var t := Prepare(s, refusals, res, problemDir, sheet, ext).store;
      SourcePath(problemDir, ext) in t.files && t.files[SourcePath(problemDir, ext)] == res.templates[TemplateName(ext)].value
  {
    SourceNotStatement(problemDir, ext, sheet.id);
  }

  /** Unpacking chromedriver changes no file but its own. */
  lemma ExtractDriverKeepsFile(s: Store, refusals: map<string, string>, res: Resources, path: string)
    requires path != DriverPath()
    ensures var t := ExtractDriver(s, refusals, res).store;
      (path in t.files <==> path in s.files) && (path in s.files ==> t.files[path] == s.files[path])
  {
  }

  /** The solution file of a problem is not the chromedriver binary. */
  lemma SourceNotDriver(problemDir: string, ext: string)
    requires problemDir != [] && problemDir[0] == 'p'
    ensures SourcePath(problemDir, ext) != DriverPath()
  {
    assert SourcePath(problemDir, ext)[0] == 'p';
    assert DriverPath()[0] == '.';
  }

  /** The solution file's name starts with a letter, the statement's with a digit. */
  lemma SourceNotStatement(problemDir: string, ext: string, problemId: nat)
    ensures SourcePath(problemDir, ext) != DescriptionPath(problemDir, problemId)
  {
    var a := SourcePath(problemDir, ext);
    var b := DescriptionPath(problemDir, problemId);
    var k := |problemDir| + 1;
    assert a[k] == TargetName(ext)[0];
    assert b[k] == Decimal(problemId)[0];
  }

  /** The solution file is not inside `testcases`. */
  lemma SourceNotCase(problemDir: string, ext: string, number: nat)
    ensures SourcePath(problemDir, ext) != CaseInput(problemDir, number)
    ensures SourcePath(problemDir, ext) != CaseOutput(problemDir, number)
  {
    var a := SourcePath(problemDir, ext);
    var k := |problemDir| + 1;
    assert a[k] == TargetName(ext)[0];
    assert CaseInput(problemDir, number)[k] == 't';
    assert CaseOutput(problemDir, number)[k] == 't';
  }

  // ---------------------------------------------------------------------------
  // The disk and the imperative command
  // ---------------------------------------------------------------------------

  class Disk {
    var files: map<string, string>
    var dirs: set<string>
    /** The paths at which creating or writing fails, with the operating system's reason. */
    const refusals: map<string, string>

    constructor (files: map<string, string>, dirs: set<string>, refusals: map<string, string>)
      ensures this.files == files && this.dirs == dirs && this.refusals == refusals
    {
      this.files := files;
      this.dirs := dirs;
      this.refusals := refusals;
    }

    function State(): Store
      reads this
    {
      Store(files, dirs)
    }

    method CreateDirAll(path: string) returns (stop: Option<Stop>)
      modifies this
      ensures Effect(State(), stop) == MakeDir(old(State()), refusals, path)
    {
      if path in refusals {
        return Some(Fail(IoError(refusals[path])));
      }
      dirs := dirs + {path};
      stop := None;
    }

    method Write(path: string, contents: string) returns (stop: Option<Stop>)
      modifies this
      ensures Effect(State(), stop) == WriteFile(old(State()), refusals, path, contents)
    {
      if path in refusals {
        return Some(Fail(IoError(refusals[path])));
      }
      files := files[path := contents];
      stop := None;
    }

    method CreateSourceFile(problemDir: string, ext: string, res: Resources) returns (stop: Option<Stop>)
      modifies this
      ensures Effect(State(), stop) == SourceFile(old(State()), refusals, res, problemDir, ext)
    {
      var fileName := if ext == "java" then "Main.java" else "default." + ext;
      if fileName !in res.templates {
        return Some(Fail(ConfigError("Template file not found: " + fileName)));
      }
      var contents := res.templates[fileName];
      if contents.None? {
        return Some(Fail(ConfigError(fileName + " file is not UTF-8")));
      }
      var target := if ext == "java" then Join(problemDir, "Main.java") else Join(problemDir, "main." + ext);
      stop := Write(target, contents.value);
    }

    method CreateDescriptionFile(problemDir: string, problem: Problem) returns (stop: Option<Stop>)
      modifies this
      ensures Effect(State(), stop) == DescriptionFile(old(State()), refusals, problemDir, Snapshot(problem))
    {
      var descriptionFile := Join(problemDir, Decimal(problem.id) + ".md");
      if |problem.testCases| == 0 {
        return Some(Panic(Run.EmptyIndexPanic));
      }
      var content := DescriptionContent(Snapshot(problem));
      stop := Write(descriptionFile, content);
    }

    method CreateTestcaseFiles(problemDir: string, problem: Problem) returns (stop: Option<Stop>)
      modifies this
      ensures Effect(State(), stop) == WriteCases(old(State()), refusals, problemDir, problem.testCases, |problem.testCases|)
    {
      var cases := problem.testCases;
      var i := 0;
      while i < |cases|
        invariant 0 <= i <= |cases|
        invariant WriteCases(old(State()), refusals, problemDir, cases, i) == Effect(State(), None)
      {
        ghost var before := State();
        var testCaseDir := Join(TestcasesDir(problemDir), Decimal(i + 1));
        stop := CreateDirAll(testCaseDir);
        if stop.Some? {
          assert WriteCase(before, refusals, problemDir, i + 1, cases[i]) == Effect(State(), stop);
          CasesStopped(old(State()), refusals, problemDir, cases, i + 1, |cases|);
          return;
        }
        ghost var made := State();
        stop := Write(Join(testCaseDir, "input.txt"), cases[i].input);
        if stop.Some? {
          assert WriteCase(before, refusals, problemDir, i + 1, cases[i]) == Effect(State(), stop);
          CasesStopped(old(State()), refusals, problemDir, cases, i + 1, |cases|);
          return;
        }
        stop := Write(Join(testCaseDir, "output.txt"), cases[i].output);
        assert WriteCase(before, refusals, problemDir, i + 1, cases[i]) == Effect(State(), stop);
        if stop.Some? {
          CasesStopped(old(State()), refusals, problemDir, cases, i + 1, |cases|);
          return;
        }
        i := i + 1;
      }
      stop := None;
    }

    method ExtractChromedriver(res: Resources) returns (stop: Option<Stop>)
      modifies this
      ensures Effect(State(), stop) == ExtractDriver(old(State()), refusals, res)
    {
      if res.driver.None? {
        return Some(Fail(ConfigError("chromedriver.exe file not found")));
      }
      stop := CreateDirAll(DriverDir);
      if stop.Some? {
        return;
      }
      var target := Join(DriverDir, "chromedriver.exe");
      if !(target in files || target in dirs) {
        stop := Write(target, res.driver.value);
      }
    }

    method StartChromedriver(res: Resources, spawnFailure: Option<string>) returns (stop: Option<Stop>)
      modifies this
      ensures Effect(State(), stop) == StartDriver(old(State()), refusals, res, spawnFailure)
    {
      stop := ExtractChromedriver(res);
      if stop.Some? {
        return;
      }
      if spawnFailure.Some? {
        return Some(Fail(IoError(spawnFailure.value)));
      }
    }

    method SetupProblemDirectory(problemDir: string, problem: Problem, ext: string, res: Resources)
      returns (stop: Option<Stop>)
      modifies this
      ensures Effect(State(), stop) == Setup(old(State()), refusals, res, problemDir, Snapshot(problem), ext)
    {
      stop := CreateDirAll(problemDir);
      if stop.Some? {
        return;
      }
      stop := CreateDirAll(TestcasesDir(problemDir));
      if stop.Some? {
        return;
      }
      stop := CreateSourceFile(problemDir, ext, res);
      if stop.Some? {
        return;
      }
      stop := CreateDescriptionFile(problemDir, problem);
      if stop.Some? {
        return;
      }
      stop := CreateTestcaseFiles(problemDir, problem);
      if stop.Some? {
        return;
      }
      stop := ExtractChromedriver(res);
    }

    method AddProblem(problemId: nat, force: bool, extensionArg: string, fetched: Result<Problem, ProblemError>,
                      configFile: ConfigFile, res: Resources, spawnFailure: Option<string>, killFailure: Option<string>)
      returns (stop: Option<Stop>)
      modifies this
      ensures Effect(State(), stop) ==
        AddFlow(old(State()), refusals, res, problemId, force, extensionArg,
                if fetched.Ok? then Ok(Snapshot(fetched.value)) else Err(fetched.error),
                configFile, spawnFailure, killFailure)
    {
      var initialized := CheckInitialization(State());
      if initialized.Err? {
        return Some(Fail(initialized.error));
      }
      stop := StartChromedriver(res, spawnFailure);
      if stop.Some? {
        return;
      }
      var guard := EnsureProblemDirectory(State(), problemId, force);
      if guard.Err? {
        return Some(Fail(guard.error));
      }
      var problemDir := guard.value;
      if fetched.Err? {
        return Some(Fail(FetchError(ProblemErrorMessage(fetched.error))));
      }
      var problem := fetched.value;
      var loaded := Load(configFile);
      if loaded.Err? {
        return Some(Fail(ConfigError(AddErrorMessage(loaded.error))));
      }
      var extension := DetermineExtension(extensionArg, loaded.value);
      stop := SetupProblemDirectory(problemDir, problem, extension, res);
      if stop.Some? {
        return;
      }
      if killFailure.Some? {
        return Some(Fail(IoError(killFailure.value)));
      }
    }
  }
}
