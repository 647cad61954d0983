/**
 * `boj init`'s default configuration: the TOML table written to
 * `.boj/config.toml`, built by successive inserts, and what the
 * configuration loader reads back from it.
 */
module Init {
  import opened Text
  import opened Config

  /** A TOML value, as far as the default configuration uses them. */
  datatype Value =
    | String(str: string)
    | Boolean(flag: bool)
    | Array(items: seq<Value>)
    | Table(entries: map<string, Value>)

  type TomlTable = map<string, Value>

  /** What a language contributes to its `[filetype.<ext>]` section. */
  datatype LanguageConfig = LanguageConfig(
    language: string,
    mainFile: string,
    sourceTemplates: Option<seq<string>>,
    runCmd: Option<string>,
    compileCmd: Option<string>,
    executeCmd: Option<string>,
    afterCmd: Option<string>)

  const FilePlaceholder: string := "$file"

  /** `cmd.replace("$file", main_file)`. */
  function Substitute(cmd: string, mainFile: string): string {
    ReplaceAll(cmd, FilePlaceholder, mainFile)
  }

  function SubstituteOption(cmd: Option<string>, mainFile: string): Option<string> {
    if cmd.Some? then Some(Substitute(cmd.value, mainFile)) else None
  }

  /**
   * The `run` entry a section ends up with: the execute command when there
   * is one (it is inserted last), else the run command.
   */
  function RunCommand(lc: LanguageConfig): Option<string> {
    if lc.executeCmd.Some? then SubstituteOption(lc.executeCmd, lc.mainFile)
    else SubstituteOption(lc.runCmd, lc.mainFile)
  }

  function Strings(xs: seq<string>): (r: seq<Value>)
    ensures |r| == |xs| && forall i :: 0 <= i < |xs| ==> r[i] == String(xs[i])
  {
    if xs == [] then [] else [String(xs[0])] + Strings(xs[1..])
  }

  /** The section of one language, key by key. */
  function Section(lc: LanguageConfig): TomlTable {
    var s := map["language" := String(lc.language), "main" := String(lc.mainFile)];
    var s := if lc.sourceTemplates.Some? then s["source_templates" := Array(Strings(lc.sourceTemplates.value))] else s;
    var s := if RunCommand(lc).Some? then s["run" := String(RunCommand(lc).value)] else s;
    var s := if lc.compileCmd.Some? then s["compile" := String(Substitute(lc.compileCmd.value, lc.mainFile))] else s;
    if lc.afterCmd.Some? then s["after" := String(lc.afterCmd.value)] else s
  }

  /** The `filetype` table already present, or none. */
  function Filetypes(config: TomlTable): TomlTable {
    if "filetype" in config && config["filetype"].Table? then config["filetype"].entries else map[]
  }

  /**
   * `add_filetype_section`: builds the section by successive inserts, then
   * puts it into the existing `filetype` table or into a new one.
   */
  method AddFiletypeSection(config: TomlTable, filetype: string, lc: LanguageConfig)
    returns (updated: TomlTable)
    ensures updated == config["filetype" := Table(Filetypes(config)[filetype := Table(Section(lc))])]
  {
    var section: TomlTable := map[];
    section := section["language" := String(lc.language)];
    section := section["main" := String(lc.mainFile)];
    if lc.sourceTemplates.Some? {
      var templateValues := Strings(lc.sourceTemplates.value);
      section := section["source_templates" := Array(templateValues)];
    }
    if lc.runCmd.Some? {
      var cmdStr := Substitute(lc.runCmd.value, lc.mainFile);
      section := section["run" := String(cmdStr)];
    }
    if lc.compileCmd.Some? {
      var cmdStr := Substitute(lc.compileCmd.value, lc.mainFile);
      section := section["compile" := String(cmdStr)];
    }
    if lc.executeCmd.Some? {
      var cmdStr := Substitute(lc.executeCmd.value, lc.mainFile);
      section := section["run" := String(cmdStr)];
    }
    if lc.afterCmd.Some? {
      section := section["after" := String(lc.afterCmd.value)];
    }
    assert section == Section(lc);
    if "filetype" in config && config["filetype"].Table? {
      var ft := config["filetype"].entries;
      updated := config["filetype" := Table(ft[filetype := Table(section)])];
    } else {
      var ft: TomlTable := map[];
      ft := ft[filetype := Table(section)];
      updated := config["filetype" := Table(ft)];
    }
  }

  /**
   * The keys of a section and their values: `language` and `main` always;
   * `source_templates`, `compile` and `after` only when given; `run` when a
   * run or an execute command is given, the execute command winning; `$file`
   * substituted in run, compile and execute commands but not in `after`.
   */
  lemma SectionEntries(lc: LanguageConfig)
    ensures var s := Section(lc);
      && s["language"] == String(lc.language) && s["main"] == String(lc.mainFile)
      && ("source_templates" in s <==> lc.sourceTemplates.Some?)
      && ("compile" in s <==> lc.compileCmd.Some?)
      && ("after" in s <==> lc.afterCmd.Some?)
      && ("run" in s <==> lc.runCmd.Some? || lc.executeCmd.Some?)
      && (lc.compileCmd.Some? ==> s["compile"] == String(Substitute(lc.compileCmd.value, lc.mainFile)))
      && (lc.afterCmd.Some? ==> s["after"] == String(lc.afterCmd.value))
      && (lc.executeCmd.Some? ==> s["run"] == String(Substitute(lc.executeCmd.value, lc.mainFile)))
      && (lc.executeCmd.None? && lc.runCmd.Some? ==>
            s["run"] == String(Substitute(lc.runCmd.value, lc.mainFile)))
      && s.Keys <= {"language", "main", "source_templates", "run", "compile", "after"}
  {
  }

  // ---------------------------------------------------------------------------
  // Reading a table back: the shape `Config` deserialises from
  // ---------------------------------------------------------------------------

  function RequiredString(t: TomlTable, key: string): Option<string> {
    if key in t && t[key].String? then Some(t[key].str) else None
  }

  /** An optional string field: absent is `None`, a string is `Some`, anything else fails. */
  function OptionalString(t: TomlTable, key: string): Option<Option<string>> {
    if key !in t then Some(None)
    else if t[key].String? then Some(Some(t[key].str))
    else None
  }

  /** A `[filetype.<ext>]` table read as a `FileType`; unknown keys are ignored. */
  function DecodeFileType(v: Value): (r: Option<FileType>)
    ensures r.Some? ==> v.Table? && "language" in v.entries && "main" in v.entries && "run" in v.entries
  {
    if !v.Table? then None
    else
      var t := v.entries;
      var language := RequiredString(t, "language");
      var main := RequiredString(t, "main");
      var run := RequiredString(t, "run");
      var compile := OptionalString(t, "compile");
      var after := OptionalString(t, "after");
      if language.Some? && main.Some? && run.Some? && compile.Some? && after.Some? then
        Some(FileType(language.value, main.value, compile.value, run.value, after.value))
      else None
  }

  function DecodeGeneral(v: Value): Option<General> {
    if !v.Table? then None
    else
      var t := v.entries;
      var browser := RequiredString(t, "selenium_browser");
      var ext := RequiredString(t, "default_filetype");
      var editor := RequiredString(t, "editor_command");
      if browser.Some? && ext.Some? && editor.Some? then Some(General(browser.value, ext.value, editor.value))
      else None
  }

  function DecodeWorkspace(v: Value): Option<Workspace> {
    if !v.Table? then None
    else
      var t := v.entries;
      var ongoing := RequiredString(t, "ongoing_dir");
      var archiveDir := RequiredString(t, "archive_dir");
      if ongoing.Some? && archiveDir.Some? && "archive" in t && t["archive"].Boolean? then
        Some(Workspace(ongoing.value, archiveDir.value, t["archive"].flag))
      else None
  }

  /** The `FileType` a language's section reads back as. */
  function FileTypeOf(lc: LanguageConfig): FileType
    requires RunCommand(lc).Some?
  {
    FileType(lc.language, lc.mainFile, SubstituteOption(lc.compileCmd, lc.mainFile),
             RunCommand(lc).value, lc.afterCmd)
  }

  /**
   * A section reads back as a `FileType` exactly when it received a `run`
   * entry, and then holds the language's values.
   */
  lemma DecodeSection(lc: LanguageConfig)
    ensures DecodeFileType(Table(Section(lc))).Some? <==> RunCommand(lc).Some?
    ensures RunCommand(lc).Some? ==> DecodeFileType(Table(Section(lc))) == Some(FileTypeOf(lc))
  {
    SectionEntries(lc);
  }

  /**
   * The table loads as configuration `c`: its `general` and `workspace`
   * sections read as `c`'s, and its `filetype` table has exactly `c`'s
   * extensions, each reading as `c`'s section for it.
   */
  ghost predicate Describes(t: TomlTable, c: Config) {
    && "general" in t && DecodeGeneral(t["general"]) == Some(c.general)
    && "workspace" in t && DecodeWorkspace(t["workspace"]) == Some(c.workspace)
    && "filetype" in t && t["filetype"].Table?
    && DistinctKeys(c.filetype)
    && t["filetype"].entries.Keys == (set i | 0 <= i < |c.filetype| :: c.filetype[i].0)
    && forall i :: 0 <= i < |c.filetype| ==>
         DecodeFileType(t["filetype"].entries[c.filetype[i].0]) == Some(c.filetype[i].1)
  }

  // ---------------------------------------------------------------------------
  // The defaults
  // ---------------------------------------------------------------------------

  /** The six languages, in the order `add_language_configs` registers them. */
  function DefaultLanguages(): seq<(string, LanguageConfig)> {
    [ ("py", LanguageConfig("python3", "main.py", None, Some("python " + FilePlaceholder), None, None, None)),
      ("rs", LanguageConfig("rust", "main.rs", None, None, Some("rustc " + FilePlaceholder + " -o main"), Some("./main"), None)),
      ("c", LanguageConfig("c", "main.c", None, None, Some("gcc -std=c11 " + FilePlaceholder + " -o a.out"), Some("./a.out"),
                           Some("rm -rf a.out"))),
      ("cpp", LanguageConfig("c++17", "main.cpp", Some(["default.cpp"]), None, Some("g++ -std=c++17 " + FilePlaceholder),
                             Some("./a.out"), Some("rm -rf a.out"))),
      ("java", LanguageConfig("java", "Main.java", None, None, Some("javac " + FilePlaceholder), Some("java Main"), None)),
      ("js", LanguageConfig("node", "main.js", None, Some("node " + FilePlaceholder), None, None, None)) ]
  }

  /** The toolchains a freshly initialised workspace loads, written out. */
  function DefaultFileTypes(): seq<(string, FileType)> {
    [ ("py", FileType("python3", "main.py", None, "python " + "main.py", None)),
      ("rs", FileType("rust", "main.rs", Some("rustc " + "main.rs" + " -o main"), "./main", None)),
      ("c", FileType("c", "main.c", Some("gcc -std=c11 " + "main.c" + " -o a.out"), "./a.out", Some("rm -rf a.out"))),
      ("cpp", FileType("c++17", "main.cpp", Some("g++ -std=c++17 " + "main.cpp"), "./a.out", Some("rm -rf a.out"))),
      ("java", FileType("java", "Main.java", Some("javac " + "Main.java"), "java Main", None)),
      ("js", FileType("node", "main.js", None, "node " + "main.js", None)) ]
  }

  function DefaultGeneral(): General {
    General("chrome", "py", "code $file")
  }

  function DefaultWorkspace(): Workspace {
    Workspace("problems", "archives", true)
  }

  function DefaultConfig(): Config {
    Config(DefaultGeneral(), DefaultWorkspace(), DefaultFileTypes())
  }

  /** `create_general_section`. */
  method CreateGeneralSection() returns (v: Value)
    ensures v.Table? && v.entries.Keys == {"selenium_browser", "default_filetype", "editor_command"}
    ensures DecodeGeneral(v) == Some(DefaultGeneral())
  {
    var general: TomlTable := map[];
    general := general["selenium_browser" := String("chrome")];
    general := general["default_filetype" := String("py")];
    general := general["editor_command" := String("code $file")];
    v := Table(general);
  }

  /** `create_workspace_section`. */
  method CreateWorkspaceSection() returns (v: Value)
    ensures v.Table? && v.entries.Keys == {"ongoing_dir", "archive_dir", "archive"}
    ensures DecodeWorkspace(v) == Some(DefaultWorkspace())
  {
    var workspace: TomlTable := map[];
    workspace := workspace["ongoing_dir" := String("problems")];
    workspace := workspace["archive_dir" := String("archives")];
    workspace := workspace["archive" := Boolean(true)];
    v := Table(workspace);
  }

  /** `add_language_configs`: the six sections, one after another. */
  method AddLanguageConfigs(config: TomlTable) returns (updated: TomlTable)
    ensures updated == config["filetype" := Table(Insert(Filetypes(config), SectionList(DefaultLanguages()), 6))]
  {
    var langs := DefaultLanguages();
    ghost var entries := SectionList(langs);
    ghost var ft := Filetypes(config);
    updated := AddFiletypeSection(config, langs[0].0, langs[0].1);
    InsertNext(ft, entries, 0);
    ghost var table := Table(Insert(ft, entries, 1));
    assert updated == config["filetype" := table];
    updated := AddFiletypeSection(updated, langs[1].0, langs[1].1);
    InsertNext(ft, entries, 1);
    UpdateTwice(config, "filetype", table, Table(Insert(ft, entries, 2)));
    table := Table(Insert(ft, entries, 2));
    updated := AddFiletypeSection(updated, langs[2].0, langs[2].1);
    InsertNext(ft, entries, 2);
    UpdateTwice(config, "filetype", table, Table(Insert(ft, entries, 3)));
    table := Table(Insert(ft, entries, 3));
    updated := AddFiletypeSection(updated, langs[3].0, langs[3].1);
    InsertNext(ft, entries, 3);
    UpdateTwice(config, "filetype", table, Table(Insert(ft, entries, 4)));
    table := Table(Insert(ft, entries, 4));
    updated := AddFiletypeSection(updated, langs[4].0, langs[4].1);
    InsertNext(ft, entries, 4);
    UpdateTwice(config, "filetype", table, Table(Insert(ft, entries, 5)));
    table := Table(Insert(ft, entries, 5));
    updated := AddFiletypeSection(updated, langs[5].0, langs[5].1);
    InsertNext(ft, entries, 5);
    UpdateTwice(config, "filetype", table, Table(Insert(ft, entries, 6)));
  }

  /** The `(extension, section)` pairs of a list of languages. */
  function SectionList(langs: seq<(string, LanguageConfig)>): (r: seq<(string, Value)>)
    ensures |r| == |langs|
    ensures forall i :: 0 <= i < |langs| ==> r[i].0 == langs[i].0 && r[i].1 == Table(Section(langs[i].1))
  {
    seq(|langs|, i requires 0 <= i < |langs| => (langs[i].0, Table(Section(langs[i].1))))
  }

  /** `table` after inserting the first `n` entries in turn, later ones replacing earlier ones. */
  function Insert(table: TomlTable, entries: seq<(string, Value)>, n: nat): TomlTable
    requires n <= |entries|
  {
    if n == 0 then table else Insert(table, entries, n - 1)[entries[n - 1].0 := entries[n - 1].1]
  }

  lemma InsertNext(table: TomlTable, entries: seq<(string, Value)>, n: nat)
    requires n < |entries|
    ensures Insert(table, entries, n + 1) == Insert(table, entries, n)[entries[n].0 := entries[n].1]
  {
  }

  /** Replacing a key's value twice leaves only the second value. */
  lemma UpdateTwice(m: TomlTable, k: string, a: Value, b: Value)
    ensures m[k := a][k := b] == m[k := b]
  {
  }

  /** The keys of a table built by insertion from empty are the inserted keys. */
  lemma {:induction false} InsertKeys(entries: seq<(string, Value)>, n: nat)
    requires n <= |entries|
    ensures Insert(map[], entries, n).Keys == (set i | 0 <= i < n :: entries[i].0)
  {
    if n > 0 {
      InsertKeys(entries, n - 1);
      var before := set i | 0 <= i < n - 1 :: entries[i].0;
      var after := set i | 0 <= i < n :: entries[i].0;
      forall k | k in after ensures k in before + {entries[n - 1].0} {
        var i :| 0 <= i < n && entries[i].0 == k;
        if i < n - 1 { assert entries[i].0 in before; }
      }
      forall i | 0 <= i < n - 1 ensures entries[i].0 in after { }
    }
  }

  /** With distinct keys, each inserted entry is found under its own key. */
  lemma {:induction false} InsertValues(entries: seq<(string, Value)>, n: nat)
    requires n <= |entries|
    requires forall i, j :: 0 <= i < j < n ==> entries[i].0 != entries[j].0
    ensures forall i :: 0 <= i < n ==> entries[i].0 in Insert(map[], entries, n)
    ensures forall i :: 0 <= i < n ==> Insert(map[], entries, n)[entries[i].0] == entries[i].1
  {
    if n > 0 {
      InsertValues(entries, n - 1);
    }
  }

  /** `create_default_config`. */
  method CreateDefaultConfig() returns (config: TomlTable)
    ensures config.Keys == {"general", "workspace", "filetype"}
    ensures Describes(config, DefaultConfig())
  {
    config := map[];
    var general := CreateGeneralSection();
    config := config["general" := general];
    var workspace := CreateWorkspaceSection();
    config := config["workspace" := workspace];
    var base := config;
    config := AddLanguageConfigs(config);
    var empty := Filetypes(base);
    assert empty == map[];
    assert config == map["general" := general, "workspace" := workspace,
                         "filetype" := Table(Insert(empty, SectionList(DefaultLanguages()), 6))];
    DefaultSectionsDescribe(general, workspace, empty);
  }

  // ---------------------------------------------------------------------------
  // `$file` substitution on the default commands
  // ---------------------------------------------------------------------------

  lemma SubstituteNothing(cmd: string, mainFile: string)
    requires '$' !in cmd
    ensures Substitute(cmd, mainFile) == cmd
  {
    FirstCharAbsent(cmd, FilePlaceholder);
    ReplaceAllWithoutMatch(cmd, FilePlaceholder, mainFile);
  }

  /** A single placeholder between two `$`-free parts is replaced by the file name. */
  lemma SubstituteOnce(cmd: string, before: string, after: string, mainFile: string)
    requires cmd == before + FilePlaceholder + after
    requires '$' !in before && '$' !in after
    ensures Substitute(cmd, mainFile) == before + mainFile + after
  {
    NoMatchBefore(before, FilePlaceholder, after);
    ReplaceAllAt(before, FilePlaceholder, mainFile, after);
    SubstituteNothing(after, mainFile);
  }

  /** An interpreted language: one run command naming the entry file once. */
  lemma InterpretedToolchain(lc: LanguageConfig, before: string, after: string)
    requires lc.runCmd == Some(before + FilePlaceholder + after) && lc.executeCmd.None? && lc.compileCmd.None?
    requires '$' !in before && '$' !in after
    ensures RunCommand(lc).Some?
    ensures FileTypeOf(lc) == FileType(lc.language, lc.mainFile, None, before + lc.mainFile + after, lc.afterCmd)
  {
    SubstituteOnce(lc.runCmd.value, before, after, lc.mainFile);
  }

  /** A compiled language: a compile command naming the entry file once, an execute command naming none. */
  lemma CompiledToolchain(lc: LanguageConfig, before: string, after: string)
    requires lc.compileCmd == Some(before + FilePlaceholder + after) && lc.executeCmd.Some?
    requires '$' !in before && '$' !in after && '$' !in lc.executeCmd.value
    ensures RunCommand(lc).Some?
    ensures FileTypeOf(lc) ==
      FileType(lc.language, lc.mainFile, Some(before + lc.mainFile + after), lc.executeCmd.value, lc.afterCmd)
  {
    SubstituteOnce(lc.compileCmd.value, before, after, lc.mainFile);
    SubstituteNothing(lc.executeCmd.value, lc.mainFile);
  }

  /**
   * Each default language gets a `run` entry, and its section reads back as
   * the written-out toolchain: `$file` is replaced by the entry file in the
   * compile and run commands (`rustc main.rs -o main` for Rust, say) and the
   * cleanup command is kept verbatim.
   */
  lemma DefaultLanguageYieldsDefault(i: nat, lc: LanguageConfig)
    requires i < 6 && lc == DefaultLanguages()[i].1
    ensures DefaultLanguages()[i].0 == DefaultFileTypes()[i].0
    ensures RunCommand(lc).Some?
    ensures FileTypeOf(lc) == DefaultFileTypes()[i].1
  {
    if i == 0 { DefaultToolchain0(lc); }
    else if i == 1 { DefaultToolchain1(lc); }
    else if i == 2 { DefaultToolchain2(lc); }
    else if i == 3 { DefaultToolchain3(lc); }
    else if i == 4 { DefaultToolchain4(lc); }
    else { DefaultToolchain5(lc); }
  }

  lemma DefaultToolchain0(lc: LanguageConfig)
    requires lc == DefaultLanguages()[0].1
    ensures RunCommand(lc).Some? && FileTypeOf(lc) == DefaultFileTypes()[0].1
  {
    assert "python " + FilePlaceholder + "" == "python " + FilePlaceholder;
    InterpretedToolchain(lc, "python ", "");
    assert "python " + lc.mainFile + "" == "python " + lc.mainFile;
  }

  lemma DefaultToolchain1(lc: LanguageConfig)
    requires lc == DefaultLanguages()[1].1
    ensures RunCommand(lc).Some? && FileTypeOf(lc) == DefaultFileTypes()[1].1
  {
    CompiledToolchain(lc, "rustc ", " -o main");
  }

  lemma DefaultToolchain2(lc: LanguageConfig)
    requires lc == DefaultLanguages()[2].1
    ensures RunCommand(lc).Some? && FileTypeOf(lc) == DefaultFileTypes()[2].1
  {
    CompiledToolchain(lc, "gcc -std=c11 ", " -o a.out");
  }

  lemma DefaultToolchain3(lc: LanguageConfig)
    requires lc == DefaultLanguages()[3].1
    ensures RunCommand(lc).Some? && FileTypeOf(lc) == DefaultFileTypes()[3].1
  {
    assert "g++ -std=c++17 " + FilePlaceholder + "" == "g++ -std=c++17 " + FilePlaceholder;
    CompiledToolchain(lc, "g++ -std=c++17 ", "");
    assert "g++ -std=c++17 " + lc.mainFile + "" == "g++ -std=c++17 " + lc.mainFile;
  }

  lemma DefaultToolchain4(lc: LanguageConfig)
    requires lc == DefaultLanguages()[4].1
    ensures RunCommand(lc).Some? && FileTypeOf(lc) == DefaultFileTypes()[4].1
  {
    assert "javac " + FilePlaceholder + "" == "javac " + FilePlaceholder;
    CompiledToolchain(lc, "javac ", "");
    assert "javac " + lc.mainFile + "" == "javac " + lc.mainFile;
  }

  lemma DefaultToolchain5(lc: LanguageConfig)
    requires lc == DefaultLanguages()[5].1
    ensures RunCommand(lc).Some? && FileTypeOf(lc) == DefaultFileTypes()[5].1
  {
    assert "node " + FilePlaceholder + "" == "node " + FilePlaceholder;
    InterpretedToolchain(lc, "node ", "");
    assert "node " + lc.mainFile + "" == "node " + lc.mainFile;
  }

  /** Entry `i` of the default section list carries the `i`-th default extension and loads as its toolchain. */
  lemma DefaultEntry(i: nat)
    requires i < 6
    ensures SectionList(DefaultLanguages())[i].0 == DefaultFileTypes()[i].0
    ensures DecodeFileType(SectionList(DefaultLanguages())[i].1) == Some(DefaultFileTypes()[i].1)
  {
    var lc := DefaultLanguages()[i].1;
    DefaultLanguageYieldsDefault(i, lc);
    DecodeSection(lc);
  }

  lemma DefaultEntries()
    ensures forall i :: 0 <= i < 6 ==>
      && SectionList(DefaultLanguages())[i].0 == DefaultFileTypes()[i].0
      && DecodeFileType(SectionList(DefaultLanguages())[i].1) == Some(DefaultFileTypes()[i].1)
  {
    forall i | 0 <= i < 6
      ensures SectionList(DefaultLanguages())[i].0 == DefaultFileTypes()[i].0
      ensures DecodeFileType(SectionList(DefaultLanguages())[i].1) == Some(DefaultFileTypes()[i].1)
    {
      DefaultEntry(i);
    }
  }

  /** Two lists whose first `n` keys agree index by index have the same key set. */
  lemma SameKeys<V, W>(xs: seq<(string, V)>, ys: seq<(string, W)>, n: nat)
    requires n <= |xs| && n <= |ys|
    requires forall i :: 0 <= i < n ==> xs[i].0 == ys[i].0
    ensures (set i | 0 <= i < n :: xs[i].0) == (set i | 0 <= i < n :: ys[i].0)
  {
    var a := set i | 0 <= i < n :: xs[i].0;
    var b := set i | 0 <= i < n :: ys[i].0;
    forall i | 0 <= i < n ensures xs[i].0 in b && ys[i].0 in a {
    }
  }

  /** The extensions of the default toolchains are pairwise distinct. */
  lemma DefaultExtensionsDistinct()
    ensures DistinctKeys(DefaultFileTypes())
  {
  }

  /**
   * A table whose `filetype` sections are inserted, index by index, under
   * the extensions of `c` and load as `c`'s toolchains describes `c`.
   */
  lemma InsertedDescribes(t: TomlTable, entries: seq<(string, Value)>, c: Config)
    requires "general" in t && DecodeGeneral(t["general"]) == Some(c.general)
    requires "workspace" in t && DecodeWorkspace(t["workspace"]) == Some(c.workspace)
    requires |entries| == |c.filetype| && DistinctKeys(c.filetype)
    requires "filetype" in t && t["filetype"] == Table(Insert(map[], entries, |entries|))
    requires forall i :: 0 <= i < |entries| ==>
      entries[i].0 == c.filetype[i].0 && DecodeFileType(entries[i].1) == Some(c.filetype[i].1)
    ensures Describes(t, c)
  {
    InsertKeys(entries, |entries|);
    InsertValues(entries, |entries|);
    SameKeys(entries, c.filetype, |entries|);
  }

  /** What the default sections and the default configuration have in common, index by index. */
  lemma DefaultFacts(entries: seq<(string, Value)>, c: Config)
    requires entries == SectionList(DefaultLanguages()) && c == DefaultConfig()
    ensures |entries| == 6 && |c.filetype| == 6 && DistinctKeys(c.filetype)
    ensures c.general == DefaultGeneral() && c.workspace == DefaultWorkspace()
    ensures forall i :: 0 <= i < |entries| ==>
      entries[i].0 == c.filetype[i].0 && DecodeFileType(entries[i].1) == Some(c.filetype[i].1)
  {
    DefaultEntries();
    DefaultExtensionsDistinct();
  }

  /**
   * The default sections, under any `general` and `workspace` that read as
   * the defaults, load as the default configuration.
   */
  lemma DefaultSectionsDescribe(g: Value, w: Value, empty: TomlTable)
    requires DecodeGeneral(g) == Some(DefaultGeneral()) && DecodeWorkspace(w) == Some(DefaultWorkspace())
    requires empty == map[]
    ensures Describes(map["general" := g, "workspace" := w,
                          "filetype" := Table(Insert(empty, SectionList(DefaultLanguages()), 6))],
                      DefaultConfig())
  {
    var entries := SectionList(DefaultLanguages());
    var c := DefaultConfig();
    DefaultFacts(entries, c);
    var t := map["general" := g, "workspace" := w, "filetype" := Table(Insert(empty, entries, |entries|))];
    InsertedDescribes(t, entries, c);
  }
}
