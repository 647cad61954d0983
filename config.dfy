/**
 * The workspace configuration `.boj/config.toml` as the tool reads it, and
 * the error type that configuration and scaffolding failures share.
 */
module Config {

  /**
   * The scaffolding command's error type (declared beside `add`); loading the
   * configuration reports its failures as `ConfigError`.
   */
  datatype AddError =
    | NotInitialized
    | DirectoryAlreadyExists
    | IoError(reason: string)
    | FetchError(reason: string)
    | ConfigError(reason: string)

  /** The user-facing text of each error, as the error type's `Display` writes it. */
  function AddErrorMessage(e: AddError): string {
    match e
    case NotInitialized => "Please run `boj init` to initialize the current directory."
    case DirectoryAlreadyExists => "Problem directory already exists. Use --force to overwrite."
    case IoError(reason) => reason
    case FetchError(reason) => "Fetch error: " + reason
    case ConfigError(reason) => "Config error: " + reason
  }

  datatype Option<T> = None | Some(value: T)

  datatype Result<T, E> = Ok(value: T) | Err(error: E)

  /** `[general]`: preferences the judge does not consult. */
  datatype General = General(seleniumBrowser: string, defaultFiletype: string, editorCommand: string)

  /** `[workspace]`: directory preferences. */
  datatype Workspace = Workspace(ongoingDir: string, archiveDir: string, archive: bool)

  /**
   * One `[filetype.<ext>]` section: `language`, `main` and `run` are
   * required, `compile` and `after` optional.
   */
  datatype FileType = FileType(
    language: string,
    main: string,
    compile: Option<string>,
    run: string,
    after: Option<string>)

  /**
   * The whole file. The sections of `filetype` are kept in the order in
   * which the loaded map enumerates them; that order is not specified by the
   * file itself.
   */
  datatype Config = Config(general: General, workspace: Workspace, filetype: seq<(string, FileType)>)

  /** Extension keys of a map are distinct. */
  predicate DistinctKeys(fts: seq<(string, FileType)>) {
    forall i, j :: 0 <= i < j < |fts| ==> fts[i].0 != fts[j].0
  }

  /** `Config::default_extension`. */
  function DefaultExtension(c: Config): (ext: string)
    ensures ext == c.general.defaultFiletype
  {
    c.general.defaultFiletype
  }

  /**
   * What reading and parsing `.boj/config.toml` can come to: the file cannot
   * be read, its text is not a valid configuration, or it parses.
   */
  datatype ConfigFile =
    | Unreadable(ioReason: string)
    | Unparsable(parseReason: string)
    | Parsed(config: Config)

  /** `Config::load`: each failure becomes one `ConfigError`, with no partial result. */
  function Load(f: ConfigFile): (r: Result<Config, AddError>)
    ensures r.Ok? <==> f.Parsed?
    ensures f.Parsed? ==> r.value == f.config
    ensures f.Unreadable? ==> r == Err(ConfigError("Failed to read config file: " + f.ioReason))
    ensures f.Unparsable? ==> r == Err(ConfigError("Failed to parse config file: " + f.parseReason))
  {
    match f
    case Unreadable(reason) => Err(ConfigError("Failed to read config file: " + reason))
    case Unparsable(reason) => Err(ConfigError("Failed to parse config file: " + reason))
    case Parsed(c) => Ok(c)
  }

  /** The two unit tests of `default_extension`. */
  lemma DefaultExtensionExamples(ws: Workspace, fts: seq<(string, FileType)>)
    ensures DefaultExtension(Config(General("", "", ""), ws, fts)) == ""
    ensures DefaultExtension(Config(General("", "rs", ""), ws, fts)) == "rs"
  {
  }
}
