# boj-cli core in Dafny

`boj-cli` is a command-line helper for the Baekjoon Online Judge problem archive. It has three parts:

- `boj init` writes a default `.boj/config.toml`.
- `boj add <id>` scaffolds `problems/<id>` with:
  - a source file copied from a template;
  - a Markdown statement;
  - one numbered directory per sample test.
- `boj run <id>` is a local judge. It compiles and runs the solution on every sample. It then compares the normalised output with the expected output.

This project models those three commands, the configuration record they share, and the fetched problem record. The model is split into one module per file:

| module | file | models |
|---|---|---|
| `Text` | text.dfy | Rust's `str::replace`, `trim` (with the exact Unicode `White_Space` set that `char::is_whitespace` uses) and `split_whitespace`; the judge's normalisation |
| `Paths` | paths.dfy | `format!("{}", n)` for identifiers and sample numbers; the relative paths of the workspace |
| `Config` | config.dfy | the `FileType`/`General`/`Workspace`/`Config` records, `default_extension` and the two error paths of `Config::load` |
| `Level` | level.dfy | `Level::from_rank` |
| `Problem` | problem.dfy | the `Problem` class: `new`, `add_test_case`, and `fetch` after its two requests have answered |
| `Init` | init.dfy | the TOML table that `create_default_config` builds by successive inserts, and how that table reads back as a `Config` |
| `Run` | run.dfy | `execute_command`, `run_solution` and the judge loop `run` |
| `Add` | add.dfy | the naming rules and guards of `add`, and its chain of file-system effects on a `Disk` object |

## Modelling choices

**The world outside `boj run`.** This is a `World` value. It holds:

- the directory listings;
- the files that can be read;
- the set of existing paths;
- the canonical form of working directories;
- the configuration file, which may be unreadable, unparsable or parsed;
- a process oracle;
- the operating system's error text for a failed file operation.

The oracle receives the list of earlier invocations and the new one. It answers either `Unfinished` (spawning, feeding stdin or waiting failed) or `Exited(success, stdout)`.

Every attempted process is recorded in a trace, including one whose spawning failed. The pipeline's contracts are therefore stated about which commands ran, in which order, and with which stdin.

**The judge follows the code.**

- A failing `after` command is an error, even though its value is discarded with `let _` (the `?` still applies).
- Any failure stops the whole run, and later testcases are not judged. This covers:
  - a missing `input.txt` or `output.txt`;
  - a configuration error;
  - no matching filetype;
  - a failed command.
- Testcase directories are judged in the order the directory listing gives them. They are not sorted.
- The configuration is loaded for every testcase. A problem without testcases never reads it (`NoTestcasesNoConfig`).
- A blank command panics at `parts[0]`; the model returns `Panicked`.
- Normalisation is not idempotent: `"a\r\r\nb"` normalises to `"a\r\nb"`, which normalises again to `"a\nb"`. Idempotence is proved only for text without `"\r\r\n"`.

**The filetype map.** In the source this is a `HashMap`, whose iteration order is unspecified. The model keeps the sections as a sequence, and "the first section whose main file exists" is stated relative to that sequence. `ResolveDependsOnOrder` shows that the order matters when two main files exist.

**`boj add`.** The file system is a `Disk` class:

- Its `files` and `dirs` fields are updated in place.
- A `refusals` map names the paths where the operating system refuses to create or write, with its reason.

Each scaffolding method is proved equal to an effect function on the disk's state. The properties are proved about those functions. Three things the code does that one might not expect are modelled as written:

- A configuration error is wrapped twice. `add` turns the `ConfigError` from `Config::load` into another `ConfigError` through its `Display` text. The message therefore reads `Config error: Config error: Failed to read config file: …` (`ConfigFailureMessage`).
- A problem without samples panics in `create_description_file`. The source file has already been written by then (`NoSamplesPanics`).
- Chromedriver is started before the problem directory is checked. The overwrite guard's failure therefore leaves the extracted driver behind (`ExistingProblemKept`).

**`boj init`.** `add_filetype_section` and the section builders work on a `&mut Table`. In the model they are methods that return the updated table. Each method is proved equal to a table-valued function. `Describes` relates a table to the `Config` the TOML loader would read from it. `CreateDefaultConfig` is proved to produce a table that reads back as exactly the six default toolchains.

## Model

| member | source | states |
|---|---|---|
| Text.ReplaceAll | src/commands/run.rs:26 | `str::replace`: every leftmost, non-overlapping match replaced; its meaning is stated by `ReplaceAllWithoutMatch`, `ReplaceAllAt` and `ReplaceAllLength` |
| Text.ReplaceAllWithoutMatch | src/commands/run.rs:26 | replacing a pattern that does not occur leaves the text unchanged |
| Text.ReplaceAllAt | src/commands/init.rs:201 | when no match starts before the given occurrence, that leftmost occurrence is replaced and scanning resumes after it; the text before it may contain the pattern's first character (`"x\r" + "\r\n" + "y"`) |
| Text.NoMatchBefore | src/commands/init.rs:201 | a pattern whose first character is absent from the text before it has no earlier match there |
| Text.ReplaceAllLength | src/commands/run.rs:26 | replacing "\r\n" by "\n" never lengthens the text, and strictly shortens it when a CRLF occurs |
| Text.UnixLineEndings | src/commands/run.rs:26 | `replace("\r\n", "\n")`; stated by `LineEndingsRoundTrip`, `UnixLineEndingsComplete` and the two concrete lemmas below |
| Text.LineEndingsRoundTrip | src/commands/run.rs:26 | converting LF text to CRLF and back through the judge's replacement gives the original text |
| Text.UnixLineEndingsComplete | src/commands/run.rs:26 | without "\r\r\n" in the input, no CRLF survives the replacement |
| Text.TrimStart | src/commands/run.rs:26 | the result is a suffix of the input; what was removed is all whitespace; the result does not start with whitespace |
| Text.TrimEnd | src/commands/run.rs:26 | the result is a prefix of the input; what was removed is all whitespace; the result does not end with whitespace |
| Text.Trim | src/commands/run.rs:26 | `trim`, as `trim_end` after `trim_start`; stated by `TrimIsInnerSlice`, `TrimPadded`, `TrimFixedPoint` and `TrimIdempotent` |
| Text.TrimIsInnerSlice | src/commands/run.rs:26 | `trim` yields the slice between a whitespace-only prefix and suffix, with no whitespace at either end |
| Text.TrimPadded | src/commands/run.rs:26 | trimming removes exactly the whitespace padding around a core that has no whitespace at its ends |
| Text.TrimFixedPoint | src/commands/run.rs:26 | text without whitespace at its ends is unchanged by `trim` |
| Text.TrimIdempotent | src/commands/run.rs:26 | trimming twice is trimming once |
| Text.Normalize | src/commands/run.rs:26 | normalised text has no leading or trailing whitespace and is no longer than the input |
| Text.NormalizeTwice | src/commands/run.rs:31 | normalising again changes nothing exactly when the normalised text contains no CRLF |
| Text.NormalizeIdempotent | src/commands/run.rs:26 | normalisation is idempotent on text without "\r\r\n" |
| Text.NormalizeNotIdempotent | src/commands/run.rs:26 | "a\r\r\nb" changes when normalised a second time |
| Text.NormalizeOfCrCrlf | src/commands/run.rs:26 | "a\r\r\nb" normalises to "a\r\nb" |
| Text.NormalizeOfCrlf | src/commands/run.rs:26 | "a\r\nb" normalises to "a\nb" |
| Text.UnixLineEndingsOfCrCrlf | src/commands/run.rs:26 | a single replacement pass turns "a\r\r\nb" into "a\r\nb" |
| Text.UnixLineEndingsOfCrlf | src/commands/run.rs:26 | a single replacement pass turns "a\r\nb" into "a\nb" |
| Text.UnixLineEndingsSplit | src/commands/run.rs:26 | the CRLF rewrite of a concatenation is the concatenation of the rewrites unless a CRLF straddles the seam |
| Text.UnixLineEndingsBlank | src/commands/run.rs:26 | the CRLF rewrite of whitespace-only text is whitespace-only |
| Text.NormalizeBlank | src/commands/run.rs:26-31 | whitespace-only text normalises to the empty string |
| Text.NormalizePadded | src/commands/run.rs:26-31 | any whitespace padding, carriage returns included, around a core without outer whitespace normalises away: the result is the core's own normal form, and the core itself when it holds no CRLF |
| Text.NormalizeIgnoresLineEndings | src/commands/run.rs:26 | Windows line endings normalise to the same text as Unix ones |
| Text.WordLength | src/commands/run.rs:83 | the first word is the longest whitespace-free prefix |
| Text.Tokens | src/commands/run.rs:83 | every token `split_whitespace` yields is non-empty and free of whitespace |
| Text.TokensEmpty | src/commands/run.rs:83-84 | a command has no tokens exactly when it is all whitespace |
| Text.TokensOfJoinWords | src/commands/run.rs:83-87 | splitting space-joined words gives the words back |
| Text.TokensSkipBlank | src/commands/run.rs:83 | leading whitespace of any length and kind yields no token |
| Text.TokensWord | src/commands/run.rs:83 | a whitespace-free word ended by any whitespace character is the first token, and splitting continues after that character |
| Text.TokensLastWord | src/commands/run.rs:83 | a whitespace-free word at the end is the last token |
| Paths.Decimal | src/commands/add.rs:151 | a number's decimal form is non-empty, all digits, without a leading zero |
| Paths.DecimalRoundTrip | src/commands/add.rs:151 | the decimal form reads back as the number |
| Paths.DecimalInjective | src/commands/add.rs:151 | distinct numbers have distinct decimal forms |
| Paths.ProblemDirInjective | src/commands/add.rs:55 | distinct problem ids have distinct `problems/<id>` directories |
| Paths.Join | src/commands/add.rs:151 | `Path::join` of a relative component: the two parts with one `/` between them |
| Paths.ProblemDir | src/commands/run.rs:7 | `problems/<id>`; injective by `ProblemDirInjective` |
| Config.AddErrorMessage | src/commands/add.rs:12-24 | the `Display` text of each `AddError` variant; used by `ConfigFailureMessage` |
| Config.DefaultExtension | src/config.rs:47-49 | the default extension is `general.default_filetype` unchanged |
| Config.DefaultExtensionExamples | src/config.rs:60-94 | an empty `default_filetype` gives "" and "rs" gives "rs" |
| Config.Load | src/config.rs:38-45 | a config only when the file reads and parses; otherwise exactly one `ConfigError` with the read or parse prefix |
| Level.FromRank | src/api/level.rs:13-24 | unrated exactly for rank 0 and ranks above 30; otherwise the tier is in 1..5 and band base plus tier is the rank |
| Level.RankOfFromRank | src/api/level.rs:13-24 | every rank up to 30 is recovered from its level |
| Level.FromRankOfRank | src/api/level.rs:4-9 | every well-formed level is the image of its own rank |
| Level.FromRankInjective | src/api/level.rs:13-24 | distinct rated ranks map to distinct levels |
| Problem.ProblemErrorMessage | src/api/problem.rs:9-15 | the `Display` text of `Http` and `Parse` errors, which `add` wraps in `FetchError` |
| Problem.Pairs | src/api/problem.rs:116-124 | the i-th input goes with the i-th output; the count is the shorter list's length |
| Problem.Problem.constructor | src/api/problem.rs:43-60 | the given id, title, descriptions and level, with no test cases |
| Problem.Problem.AddTestCase | src/api/problem.rs:62-65 | exactly one test case is appended at the end; no other field changes |
| Problem.Fetch | src/api/problem.rs:67-127 | request failures are `Http`; missing description, input and output sections give `Parse` errors in that order; otherwise the first match of each section, the level from its rank, and the paired samples |
| Init.Substitute | src/commands/init.rs:201 | `cmd.replace("$file", main_file)`; stated by `SubstituteNothing` and `SubstituteOnce` |
| Init.Section | src/commands/init.rs:179-219 | the section built by successive inserts; stated key by key by `SectionEntries` |
| Init.Filetypes | src/commands/init.rs:222-228 | the existing `filetype` table, or an empty one when it is absent or not a table |
| Init.AddFiletypeSection | src/commands/init.rs:179-229 | the section is put under `filetype.<ext>`, into the existing table or a new one; other filetypes and top-level keys are unchanged |
| Init.SectionEntries | src/commands/init.rs:180-219 | `language` and `main` are copied; `source_templates`, `compile` and `after` exist exactly when given; `run` is the substituted execute command, else the substituted run command; `after` is verbatim |
| Init.DecodeFileType | src/config.rs:21-27 | a section reads as a `FileType` only if it has `language`, `main` and `run` |
| Init.DecodeSection | src/commands/init.rs:199-215 | a built section reads back as a `FileType` exactly when it got a `run` entry |
| Init.SubstituteNothing | src/commands/init.rs:213 | a command without `$` is stored unchanged |
| Init.SubstituteOnce | src/commands/init.rs:201 | a single `$file` is replaced by the main file name |
| Init.InterpretedToolchain | src/commands/init.rs:199-203 | a language with only a run command yields `run` with `$file` substituted and no `compile` |
| Init.CompiledToolchain | src/commands/init.rs:205-215 | a compiled language yields the substituted compile command and its execute command as `run` |
| Init.CreateGeneralSection | src/commands/init.rs:232-247 | the general table holds exactly the three keys and reads as browser "chrome" and default filetype "py" |
| Init.CreateWorkspaceSection | src/commands/init.rs:250-262 | the workspace table reads as "problems", "archives" and archiving on |
| Init.SectionList | src/commands/init.rs:75-165 | each language gives its extension and its built section, in order |
| Init.AddLanguageConfigs | src/commands/init.rs:75-165 | the six sections are inserted one after another into the `filetype` table |
| Init.Insert | src/commands/init.rs:222-228 | the first n entries inserted one after another; stated by `InsertKeys`, `InsertValues` and `InsertNext` |
| Init.InsertKeys | src/commands/init.rs:222-228 | the inserted table's keys are exactly the inserted extensions |
| Init.InsertValues | src/commands/init.rs:222-228 | with distinct extensions, each extension maps to its own section |
| Init.DefaultToolchain0 | src/commands/init.rs:77-89 | `py` reads as python3, `main.py`, run `python main.py` |
| Init.DefaultToolchain1 | src/commands/init.rs:92-104 | `rs` reads as compile `rustc main.rs -o main`, run `./main` |
| Init.DefaultToolchain2 | src/commands/init.rs:107-119 | `c` reads as compile `gcc -std=c11 main.c -o a.out`, run `./a.out`, after `rm -rf a.out` |
| Init.DefaultToolchain3 | src/commands/init.rs:122-134 | `cpp` reads as compile `g++ -std=c++17 main.cpp`, run `./a.out`, after `rm -rf a.out` |
| Init.DefaultToolchain4 | src/commands/init.rs:137-149 | `java` reads as compile `javac Main.java`, run `java Main` |
| Init.DefaultToolchain5 | src/commands/init.rs:152-164 | `js` reads as run `node main.js` |
| Init.DefaultLanguageYieldsDefault | src/commands/init.rs:77-164 | every default language yields a `run` entry and its written-out toolchain |
| Init.DefaultEntry | src/commands/init.rs:75-165 | the i-th built section has the i-th default extension and reads as the i-th default toolchain |
| Init.DefaultEntries | src/commands/init.rs:75-165 | all six built sections read as the default toolchains |
| Init.DefaultExtensionsDistinct | src/commands/init.rs:79-154 | the six extensions are distinct |
| Init.DefaultFacts | src/commands/init.rs:61-165 | the six sections correspond one to one, in order, to the default configuration's filetypes |
| Init.InsertedDescribes | src/commands/init.rs:221-228 | a table whose `filetype` entry was built by inserting matching sections reads back as the configuration |
| Init.DefaultSectionsDescribe | src/commands/init.rs:61-72 | the general, workspace and default filetype tables together read back as the default configuration |
| Init.DefaultConfig | src/commands/init.rs:61-165 | the configuration the default table reads back as; `CreateDefaultConfig` states that it does |
| Init.CreateDefaultConfig | src/commands/init.rs:61-72 | the table has exactly `general`, `workspace` and `filetype`, and reads back as the default configuration with filetypes py, rs, c, cpp, java, js |
| Run.ErrorMessage | src/commands/run.rs:110-112 | the fixed texts "no matching filetype section" and "command failed: <cmd>"; the configuration error's own text; the operating system's reason for a failed I/O operation; the empty-index panic text |
| Run.Execute | src/commands/run.rs:74-114 | an unknown working directory fails with the operating system's reason and starts nothing; otherwise the command's first token is started with the other tokens as arguments, in the canonical working directory, with exactly the given stdin; the result is its stdout iff it exits successfully, `command failed: <cmd>` when it exits unsuccessfully, and the failure reason when it cannot be run to completion
| Run.ExecuteCommand | src/commands/run.rs:74-114 | the builder-style method has exactly the outcome of `Execute` |
| Run.BlankCommandPanics | src/commands/run.rs:83-84 | an empty or all-whitespace command panics before anything starts |
| Run.CommandOfWords | src/commands/run.rs:83-113 | a command of words runs the first word with the rest as arguments; success iff the exit is successful; otherwise `command failed: <cmd>` |
| Run.FindMain | src/commands/run.rs:51-55 | the index found is the first one whose main file exists; none means no section has one |
| Run.Resolve | src/commands/run.rs:51-55 | `iter().find(...)` over the sections' order; stated by `ResolveFirst`, `ResolveUnique` and `ResolveDependsOnOrder` |
| Run.ResolveFirst | src/commands/run.rs:51-55 | resolution fails exactly when no main file exists, and otherwise picks the first section with one |
| Run.ResolveUnique | src/commands/run.rs:51-55 | when exactly one main file exists, its section is chosen |
| Run.ResolveDependsOnOrder | src/config.rs:34 | with two main files present, the enumeration order decides the toolchain |
| Run.CompileStep | src/commands/run.rs:58-60 | without a compile command it succeeds and starts nothing; otherwise it executes that command without stdin |
| Run.Solve | src/commands/run.rs:45-71 | the pipeline extends the trace by at most three processes |
| Run.RunSolution | src/commands/run.rs:45-71 | the step-by-step method has exactly the outcome of `Solve` |
| Run.SolveSetupFailures | src/commands/run.rs:47-55 | a configuration error, then a missing main file, stop before any process starts |
| Run.CompileFailureStops | src/commands/run.rs:58-60 | a failing compile is the result, and the run command never starts |
| Run.RunFailureStops | src/commands/run.rs:63 | after a successful compile step, a failing run command is the result and the `after` command never starts |
| Run.AfterFailurePropagates | src/commands/run.rs:66-68 | after a successful compile step (when there is one) and a successful run, a failing `after` is the result of the whole call |
| Run.SolveSucceeds | src/commands/run.rs:58-70 | when compile, run and `after` all succeed, the result is the run command's stdout and the `after` command is the last process started |
| Run.SolveSuccessTrace | src/commands/run.rs:45-71 | on success exactly these processes start, in this order, in the canonical problem directory: the compile command's tokens without stdin, the run command's tokens with the input on stdin (whose successful exit gives the output), then the `after` command's tokens without stdin; the compile and `after` processes exit successfully |
| Run.SolveOutput | src/commands/run.rs:63-70 | on success the output is the stdout of the one process that got the input on stdin; every other process got none |
| Run.Judgement | src/commands/run.rs:34-40 | passed iff the normalised strings are equal; a failure shows both normalised strings |
| Run.JudgementIgnoresLineEndings | src/commands/run.rs:26 | CRLF line endings in either file do not change the verdict |
| Run.JudgementIgnoresPadding | src/commands/run.rs:26-31 | whitespace of any kind (`\r` included) around the output does not change the verdict |
| Run.TestcaseDirs | src/commands/run.rs:10-13 | no more names than entries |
| Run.TestcaseDirsAppend | src/commands/run.rs:10-13 | filtering keeps the listing's order |
| Run.TestcaseDirsMembers | src/commands/run.rs:10-13 | a name is judged exactly when a readable directory entry of that name is listed |
| Run.JudgeCase | src/commands/run.rs:18-40 | a testcase is judged iff both files read and the solution succeeds; its report carries the verdict on expected and actual output; a missing input, then output, is the error and starts no process; a failing solution's own error is the error; the trace passed on is the solution's trace |
| Run.JudgeUpTo | src/commands/run.rs:17-41 | the state after the first k directories; stated by `JudgeUpToStep`, `AbortIsFinal` and `JudgedInOrder` |
| Run.Judge | src/commands/run.rs:6-43 | the whole run: an unreadable testcases directory fails with its reason before anything is printed; otherwise every listed directory in turn |
| Run.JudgeUpToStep | src/commands/run.rs:17-41 | one more iteration judges the next directory |
| Run.AbortIsFinal | src/commands/run.rs:23-29 | after the first error no later testcase changes anything |
| Run.RunJudge | src/commands/run.rs:6-43 | the loop yields exactly the reports, error and processes of `Judge` |
| Run.JudgedInOrder | src/commands/run.rs:15-17 | the count comes first, then one report per directory in listing order, each judged once |
| Run.NoTestcasesNoConfig | src/commands/run.rs:47 | with no testcase directories, the run reports 0 and succeeds whatever the configuration |
| Run.ConfigErrorAbortsFirst | src/commands/run.rs:29 | a configuration error stops the run at the first testcase, which gets no report |
| Add.CheckInitialization | src/commands/add.rs:46-51 | `NotInitialized` exactly when `.boj` does not exist |
| Add.EnsureProblemDirectory | src/commands/add.rs:54-63 | `DirectoryAlreadyExists` exactly when `problems/<id>` exists and `force` is off; otherwise `problems/<id>` |
| Add.DetermineExtension | src/commands/add.rs:73-81 | the default extension iff the argument is "nil"; otherwise the argument |
| Add.DetermineExtensionStable | src/commands/add.rs:73-81 | determining again changes nothing unless the default extension is itself "nil" |
| Add.TemplateName | src/commands/add.rs:103-107 | `Main.java` for java, `default.<ext>` otherwise |
| Add.TargetName | src/commands/add.rs:117-121 | `Main.java` for java, `main.<ext>` otherwise |
| Add.NamesInjective | src/commands/add.rs:102-121 | distinct extensions get distinct templates and targets |
| Add.TargetIsConfiguredMain | src/commands/add.rs:117-121 | for each default filetype the created source file is its configured `main` |
| Add.CaseDirInjective | src/commands/add.rs:151 | distinct sample numbers get distinct directories |
| Add.CasePathsDistinct | src/commands/add.rs:151-155 | sample files never collide with each other |
| Add.DescriptionContent | src/commands/add.rs:134-142 | the Markdown text of the statement, with the first sample only; its frame is stated by `DescriptionFrame` |
| Add.SourceFile | src/commands/add.rs:102-124 | a missing template or one that is not UTF-8 is a `ConfigError` with the source's text; otherwise the template is written to the target name |
| Add.DescriptionFile | src/commands/add.rs:132-146 | `<id>.md` with the statement's content; a panic when there are no samples |
| Add.WriteCase | src/commands/add.rs:151-155 | one iteration: the numbered directory, then `input.txt`, then `output.txt`, stopping at the first failure |
| Add.WriteCases | src/commands/add.rs:149-159 | the loop's first n iterations, sample k going to number k+1; stated by `CasesStored`, `CasesSucceed`, `CasesStopped` and `CasesFrame` |
| Add.ExtractDriver | src/commands/add.rs:162-177 | a missing binary is a `ConfigError`; otherwise `.boj/bin` is created and the binary written only when absent |
| Add.StartDriver | src/commands/add.rs:180-189 | the driver is unpacked, then a spawn failure is an `IoError` |
| Add.Prepare | src/commands/add.rs:89-93 | the problem and testcases directories, the source file, then the statement, stopping at the first failure |
| Add.Setup | src/commands/add.rs:84-99 | `Prepare`, then the samples, then the driver, stopping at the first failure; stated by `SetupStoresCases`, `SourceWritten` and `NoSamplesPanics` |
| Add.AddFlow | src/commands/add.rs:29-43 | the whole command in the source's order; stated by `UninitializedChangesNothing`, `ExistingProblemKept`, `ConfigFailureMessage` and `AddThenJudge` |
| Add.DescriptionFrame | src/commands/add.rs:133-142 | the statement starts with `# <title>` and ends with the first sample's output and the closing fence |
| Add.CasesStopped | src/commands/add.rs:150-156 | after the first failed write, later samples write nothing |
| Add.WriteCaseStores | src/commands/add.rs:151-155 | a successful iteration stores its directory, input and output |
| Add.WriteCaseKeeps | src/commands/add.rs:150-156 | an iteration keeps the samples stored before it |
| Add.WriteCasesStep | src/commands/add.rs:150-156 | a successful loop of n iterations is the loop of n-1 followed by sample n |
| Add.CasesStored | src/commands/add.rs:149-159 | after success, the k-th sample is in `testcases/<k+1>/input.txt` and `output.txt` verbatim |
| Add.CasesSucceed | src/commands/add.rs:152-155 | the samples are all written iff no path of theirs is refused |
| Add.CasesFrame | src/commands/add.rs:149-159 | no file other than the sample files is touched |
| Add.WriteCaseFrame | src/commands/add.rs:149-159 | one iteration leaves every file other than its `input.txt` and `output.txt` as it was |
| Add.ExtractDriverKeeps | src/commands/add.rs:162-177 | unpacking chromedriver keeps the stored samples |
| Add.ExtractDriverKeepsFile | src/commands/add.rs:168-174 | unpacking chromedriver touches no other file |
| Add.DriverPathOutsideProblems | src/commands/add.rs:168-170 | `.boj/bin/chromedriver.exe` is never a sample file |
| Add.PrepareStoresSource | src/commands/add.rs:89-93 | after the first steps the source file holds the template's contents |
| Add.SourceWritten | src/commands/add.rs:102-124 | a successful scaffold leaves the template's contents in the source file |
| Add.SourceNotDriver | src/commands/add.rs:117-121 | the source file is never the chromedriver binary |
| Add.SourceNotStatement | src/commands/add.rs:133 | the source file is never the statement |
| Add.SourceNotCase | src/commands/add.rs:151-155 | the source file is never a sample file |
| Add.SetupStoresCases | src/commands/add.rs:84-99 | a successful scaffold stores every sample under its number |
| Add.NoSamplesPanics | src/commands/add.rs:140 | without samples, scaffolding panics after writing only the source file |
| Add.UninitializedChangesNothing | src/commands/add.rs:29-30 | outside a workspace, `add` fails with `NotInitialized` and changes nothing |
| Add.ExistingProblemKept | src/commands/add.rs:32-34 | without `force`, an existing problem directory stops `add` after chromedriver was unpacked |
| Add.ConfigFailureMessage | src/commands/add.rs:36 | an unreadable configuration is reported with the `Config error: ` prefix twice |
| Add.AddThenJudge | src/commands/add.rs:149-159 | after a successful `add`, the judge finds each sample at the input and output paths it reads |
| Add.Disk.CreateDirAll | src/commands/add.rs:89 | the directory is recorded, or the refusal is the error and nothing changes |
| Add.Disk.Write | src/commands/add.rs:123 | the file is created or replaced, or the refusal is the error and nothing changes |
| Add.Disk.CreateSourceFile | src/commands/add.rs:102-124 | the disk changes exactly as `SourceFile` says: template missing, not UTF-8, or copied |
| Add.Disk.CreateDescriptionFile | src/commands/add.rs:132-146 | the disk changes exactly as `DescriptionFile` says: `<id>.md`, or a panic without samples |
| Add.Disk.CreateTestcaseFiles | src/commands/add.rs:149-159 | the loop has exactly the effect of `WriteCases` over all samples |
| Add.Disk.ExtractChromedriver | src/commands/add.rs:162-177 | the binary is written only when absent; a missing resource is a `ConfigError` |
| Add.Disk.StartChromedriver | src/commands/add.rs:180-189 | unpack, then a spawn failure is an `IoError` |
| Add.Disk.SetupProblemDirectory | src/commands/add.rs:84-99 | the steps run in order and the first failure stops them |
| Add.Disk.AddProblem | src/commands/add.rs:29-43 | the whole command has exactly the effect of `AddFlow` |

## Left out

- Process spawning, writing stdin, inherited stderr and `fs::canonicalize` are not modelled. They are the `World`'s oracle and its map of canonical directories.
- `String::from_utf8_lossy` is not modelled: stdout is taken as text.
- The reason texts of I/O errors are not modelled. The judge takes them from the `World`'s `ioReason`, and `add` from its `refusals`.
- A testcase directory whose name is not valid UTF-8 is not modelled. For such a name `into_string().unwrap()` (src/commands/run.rs:18) panics; the model's listings hold every name as a string.
- TOML parsing and serialisation are not modelled. The configuration file's outcome is a parameter of `Config.Load`. `Init` relates the built table to a `Config` through a decoder of the table shape, not through TOML text.
- Writing `config.toml` in `init` is not modelled. Neither are the directory creation and template copying around it (`init`, `create_directory_structure`, `init_config`, `copy_templates`, `create_config_file`); they are thin file-system wrappers.
- The HTTP requests, the solved.ac and acmicpc.net URLs, the HTML selectors and the concurrent `try_join!` in `Problem::fetch` are not modelled. `Problem.Fetch` receives their results, and the order in which two failing requests report is not modelled.
- Which embedded files exist is not modelled: the templates and the chromedriver binary are a `Resources` parameter. The binary contents are text.
- Starting and stopping chromedriver are modelled only as success or an `IoError`. The process left running when `add` fails after starting it is not modelled.
- `create_dir_all` records only the named directory, not its ancestors.
- A write fails in the model only where a refusal is recorded for its path.
- The judge reads one snapshot of the file system. The `World`'s listings, files, existing paths and configuration stay fixed for the whole run, so a command the judge starts cannot change what a later testcase reads: its input, its expected output, which main file exists, or `config.toml`. Only the process oracle sees the history of earlier invocations. Reloading the configuration per testcase therefore always yields the same outcome in the model.
- An absolute `main` in a user's configuration is not modelled. `Path::join` would then replace the problem directory, but `Paths.Join` always concatenates, and `HasMain` and `Solve` accept any `main`.
- Console output is not modelled, other than the judge's verdict reports and testcase count.
- `Level` tiers are `nat` rather than `u8`. Every tier is at most 5, so the casts never truncate. `ApiProblem.level` is required to be below 256, the range of a `u8`.
- `HashMap` iteration order is not modelled: filetypes are a sequence, and resolution is stated relative to it.
- Login (browser launching), the command-line dispatch and `src/commands/utils.rs` are not part of this model.
- Run.TestcaseDirs: its own contract states only a length bound. `TestcaseDirsMembers` and `TestcaseDirsAppend` state which names are kept and in which order.
- Run.Solve: its own contract states only how the trace grows. What the pipeline returns, and which processes it starts in which order, are stated by `SolveSetupFailures`, `CompileFailureStops`, `RunFailureStops`, `AfterFailurePropagates`, `SolveSucceeds` and `SolveSuccessTrace`.
