/** The persisted configuration of the extension: one JSON document at
    `<home>/.quick-switch` holding a schema number and the project list,
    the outcomes of trying to read it, what each outcome does to the
    in-memory list and to the status bar item, and the choice of path. */
module ConfigStore {

  /** The only schema this revision reads and writes. */
  const CurrentSchema := 1

  /** The parsed document `{schema, projects}`. */
  datatype ConfigDocument = Config(schema: int, projects: seq<string>)

  /** `JSON.parse` either yields a document or throws. */
  datatype ParseResult = Parsed(doc: ConfigDocument) | Unparsable

  /** The ways reading the configuration file can end: the file does not
      exist, it exists but is not readable, the read itself fails, or its
      text was read and handed to the parser. */
  datatype FileOutcome = Missing | AccessDenied | ReadError | Content(parse: ParseResult)

  /** What the status bar item displays and runs when clicked. */
  datatype Label = Label(command: string, text: string, tooltip: string)

  const NormalLabel := Label("quick-switch.switchProject", "$(repo-pull)", "Switch Project...")
  const ErrorLabel := Label("quick-switch.reload", "$(stop)", "Loading Error. Click to retry.")

  /** The label `updateStatus` assigns: the retry label when an error was
      passed, the switch label otherwise. */
  function LabelFor(error: bool): (l: Label)
    ensures error ==> l.command == "quick-switch.reload" && l.text == "$(stop)"
                      && l.tooltip == "Loading Error. Click to retry."
    ensures !error ==> l.command == "quick-switch.switchProject" && l.text == "$(repo-pull)"
                       && l.tooltip == "Switch Project..."
  {
    if error then ErrorLabel else NormalLabel
  }

  /** The two labels can be told apart, so the status item shows exactly
      whether the last load failed. */
  lemma LabelForInjective(e1: bool, e2: bool)
    ensures LabelFor(e1) == LabelFor(e2) <==> e1 == e2
  {
  }

  /** The outcomes that `loadConfigurations` reports as a loading error. */
  predicate LoadFailed(outcome: FileOutcome)
  {
    outcome.AccessDenied? || outcome.ReadError?
  }

  /** The project list after `loadConfigurations`: a missing file or an
      unparsable one empties it, an access or read failure keeps it, a
      schema-1 document replaces it and any other schema keeps it. */
  function LoadedProjects(current: seq<string>, outcome: FileOutcome): (r: seq<string>)
    ensures LoadFailed(outcome) ==> r == current
    ensures outcome.Missing? || outcome == Content(Unparsable) ==> r == []
    ensures outcome.Content? && outcome.parse.Parsed? && outcome.parse.doc.schema != CurrentSchema ==> r == current
    ensures outcome.Content? && outcome.parse.Parsed? && outcome.parse.doc.schema == CurrentSchema ==>
      r == outcome.parse.doc.projects
    ensures r != current ==>
      !LoadFailed(outcome) && (r == []
        || (outcome.Content? && outcome.parse.Parsed? && outcome.parse.doc.schema == CurrentSchema
            && r == outcome.parse.doc.projects))
  {
    match outcome
    case Missing => []
    case AccessDenied => current
    case ReadError => current
    case Content(Unparsable) => []
    case Content(Parsed(doc)) => if doc.schema == CurrentSchema then doc.projects else current
  }

  /** What `saveConfigurations` writes: the current schema and the list. */
  function SaveDocument(projects: seq<string>): (d: ConfigDocument)
    ensures d.schema == CurrentSchema
    ensures d.projects == projects
  {
    Config(CurrentSchema, projects)
  }

  /** Reading back the document that was written restores exactly the list
      that was saved, whatever the list held before. */
  lemma SaveLoadRoundTrip(current: seq<string>, projects: seq<string>)
    ensures LoadedProjects(current, Content(Parsed(SaveDocument(projects)))) == projects
  {
  }

  /** Loading the same file twice gives what loading it once gives. */
  lemma LoadIdempotent(current: seq<string>, outcome: FileOutcome)
    ensures LoadedProjects(LoadedProjects(current, outcome), outcome) == LoadedProjects(current, outcome)
  {
  }

  /** The environment variable holding the home directory: `USERPROFILE`
      on Windows, `HOME` on every other platform. */
  function HomeVariable(osType: string): (name: string)
    ensures name == "USERPROFILE" <==> osType == "Windows_NT"
    ensures name != "USERPROFILE" ==> name == "HOME"
  {
    if osType == "Windows_NT" then "USERPROFILE" else "HOME"
  }

  /** `process.env[name] || ""`: the variable's value, or the empty string
      when it is not set. */
  function HomeDirectory(osType: string, env: map<string, string>): (home: string)
    ensures home != "" ==> HomeVariable(osType) in env && env[HomeVariable(osType)] == home
    ensures home == "" <==> HomeVariable(osType) !in env || env[HomeVariable(osType)] == ""
  {
    var name := HomeVariable(osType);
    if name in env then env[name] else ""
  }

  /** `getConfigPath`: the home directory joined with `.quick-switch`. The
      host's path joining is passed in as `join`. */
  function ConfigPath(osType: string, env: map<string, string>, join: (string, string) -> string): (path: string)
    ensures HomeVariable(osType) in env ==> path == join(env[HomeVariable(osType)], ".quick-switch")
    ensures HomeVariable(osType) !in env ==> path == join("", ".quick-switch")
  {
    join(HomeDirectory(osType, env), ".quick-switch")
  }

  /** Only the platform's own home variable matters: setting or changing
      any other variable leaves the configuration path unchanged. */
  lemma ConfigPathIgnoresOtherVariables(osType: string, env: map<string, string>, key: string, value: string,
                                        join: (string, string) -> string)
    requires key != HomeVariable(osType)
    ensures ConfigPath(osType, env[key := value], join) == ConfigPath(osType, env, join)
  {
  }

  /** All platforms other than Windows read the same variable, so they
      agree on the path. */
  lemma ConfigPathSameOffWindows(osType1: string, osType2: string, env: map<string, string>,
                                 join: (string, string) -> string)
    requires osType1 != "Windows_NT" && osType2 != "Windows_NT"
    ensures ConfigPath(osType1, env, join) == ConfigPath(osType2, env, join)
  {
  }
}
