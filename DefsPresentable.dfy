/**
 * The presentable projection of resolved settings entries: immutable,
 * display-ready records built from a settings entry, plus one synthetic
 * record that describes the settings file in use.
 */
module DefsPresentable {
  import opened Wrappers
  import opened Definitions
  import Ascii
  import StrOrder

  const NoLongMsg: string := "No long CLI parameter"
  const NoShortMsg: string := "No short CLI parameter"

  /** A settings entry's CLI parameters, long and short, in presentable form. */
  datatype PresentableCliParameters = PresentableCliParameters(long: string, short: string)

  /** `PresentableCliParameters()`: both fields hold their sentinel message, never an empty string. */
  function NoCliParameters(): (r: PresentableCliParameters)
    ensures r.long == NoLongMsg && r.short == NoShortMsg
    ensures r.long != "" && r.short != ""
  {
    PresentableCliParameters(NoLongMsg, NoShortMsg)
  }

  /**
   * `PresentableCliParameters.from_cli_params`: the sentinel pair when the
   * entry has no CLI spec, otherwise the rendered long flag and the declared
   * short flag (an empty short flag counts as none).
   */
  function FromCliParams(cliParameters: Option<CliParameters>, nameDashed: string): (r: PresentableCliParameters)
    ensures cliParameters.None? ==> r.long == NoLongMsg && r.short == NoShortMsg
    ensures cliParameters.Some? ==> r.long == cliParameters.value.long(nameDashed)
    ensures (cliParameters.Some? && cliParameters.value.short.Some? && cliParameters.value.short.value != "")
              ==> r.short == cliParameters.value.short.value
    ensures (cliParameters.Some? && (cliParameters.value.short.None? || cliParameters.value.short.value == ""))
              ==> r.short == NoShortMsg
    ensures r.short != ""
  {
    match cliParameters
    case Some(cli) => PresentableCliParameters(cli.long(nameDashed), OrElse(cli.short, NoShortMsg))
    case None => NoCliParameters()
  }

  /** A settings entry in presentable form. */
  datatype PresentableSettingsEntry = PresentableSettingsEntry(
    choices: seq<Value>,
    currentSettingsFile: string,
    currentValue: Value,
    defaultValue: Value,
    default: bool,
    description: string,
    envVar: string,
    name: string,
    settingsFileSample: Value,
    source: string,
    subcommands: seq<string>,
    cliParameters: PresentableCliParameters)

  /** `PresentableSettingsEntries`: an immutable tuple of presentable entries. */
  type PresentableSettingsEntries = seq<PresentableSettingsEntry>

  // ---------------------------------------------------------------------
  // Ordering: `__lt__` compares the names only.

  /**
   * `a < b` on presentable entries: the names alone decide, by first
   * difference in code points or by proper prefix.
   */
  function LessThan(a: PresentableSettingsEntry, b: PresentableSettingsEntry): (r: bool)
    ensures r <==> StrOrder.LessByFirstDifference(a.name, b.name)
    ensures r ==> a.name != b.name
  {
    StrOrder.LessIsFirstDifference(a.name, b.name);
    StrOrder.LessIrreflexive(a.name);
    StrOrder.Less(a.name, b.name)
  }

  /** The ordering is a strict order that looks only at the names. */
  lemma LessThanIsStrictOrder(a: PresentableSettingsEntry, b: PresentableSettingsEntry, c: PresentableSettingsEntry)
    ensures !LessThan(a, a)
    ensures LessThan(a, b) && LessThan(b, c) ==> LessThan(a, c)
    ensures LessThan(a, b) ==> !LessThan(b, a)
    ensures a.name != b.name ==> LessThan(a, b) || LessThan(b, a)
    ensures a.name == b.name ==> !LessThan(a, b) && !LessThan(b, a)
  {
    StrOrder.LessIrreflexive(a.name);
    StrOrder.LessIrreflexive(b.name);
    StrOrder.LessTrichotomous(a.name, b.name);
    if LessThan(a, b) && LessThan(b, c) {
      StrOrder.LessTransitive(a.name, b.name, c.name);
    }
  }

  /** What `sorted` guarantees: no entry is less than the one before it. */
  predicate Sorted(entries: PresentableSettingsEntries)
  {
    forall i :: 0 < i < |entries| ==> !LessThan(entries[i], entries[i - 1])
  }

  /** A sorted sequence of entries lists its names in non-decreasing string order. */
  lemma {:induction false} SortedNamesNondecreasing(entries: PresentableSettingsEntries, i: nat, j: nat)
    requires Sorted(entries)
    requires i <= j < |entries|
    ensures StrOrder.LessOrEqual(entries[i].name, entries[j].name)
    decreases j - i
  {
    if i < j {
      SortedNamesNondecreasing(entries, i, j - 1);
      StrOrder.LessTrichotomous(entries[j - 1].name, entries[j].name);
      if entries[i].name != entries[j - 1].name && entries[j - 1].name != entries[j].name {
        StrOrder.LessTransitive(entries[i].name, entries[j - 1].name, entries[j].name);
      }
    }
  }

  // ---------------------------------------------------------------------
  // Field access: `get` returns an existing attribute and fails otherwise.

  /** The value of one attribute of a presentable entry. */
  datatype FieldValue =
    | TextField(text: string)
    | FlagField(flag: bool)
    | ValueField(value: Value)
    | ValuesField(values: seq<Value>)
    | NamesField(names: seq<string>)
    | CliField(cli: PresentableCliParameters)

  const FieldNames: set<string> := {
    "choices", "current_settings_file", "current_value", "default_value", "default",
    "description", "env_var", "name", "settings_file_sample", "source", "subcommands",
    "cli_parameters"
  }

  /** `entry.get(attribute)`: `None` stands for the `AttributeError` of an unknown name. */
  function Get(entry: PresentableSettingsEntry, attribute: string): (r: Option<FieldValue>)
    ensures r.Some? <==> attribute in FieldNames
    ensures attribute == "choices" ==> r == Some(ValuesField(entry.choices))
    ensures attribute == "current_settings_file" ==> r == Some(TextField(entry.currentSettingsFile))
    ensures attribute == "current_value" ==> r == Some(ValueField(entry.currentValue))
    ensures attribute == "default_value" ==> r == Some(ValueField(entry.defaultValue))
    ensures attribute == "default" ==> r == Some(FlagField(entry.default))
    ensures attribute == "description" ==> r == Some(TextField(entry.description))
    ensures attribute == "env_var" ==> r == Some(TextField(entry.envVar))
    ensures attribute == "name" ==> r == Some(TextField(entry.name))
    ensures attribute == "settings_file_sample" ==> r == Some(ValueField(entry.settingsFileSample))
    ensures attribute == "source" ==> r == Some(TextField(entry.source))
    ensures attribute == "subcommands" ==> r == Some(NamesField(entry.subcommands))
    ensures attribute == "cli_parameters" ==> r == Some(CliField(entry.cliParameters))
  {
    match attribute
    case "choices" => Some(ValuesField(entry.choices))
    case "current_settings_file" => Some(TextField(entry.currentSettingsFile))
    case "current_value" => Some(ValueField(entry.currentValue))
    case "default_value" => Some(ValueField(entry.defaultValue))
    case "default" => Some(FlagField(entry.default))
    case "description" => Some(TextField(entry.description))
    case "env_var" => Some(TextField(entry.envVar))
    case "name" => Some(TextField(entry.name))
    case "settings_file_sample" => Some(ValueField(entry.settingsFileSample))
    case "source" => Some(TextField(entry.source))
    case "subcommands" => Some(NamesField(entry.subcommands))
    case "cli_parameters" => Some(CliField(entry.cliParameters))
    case _ => None
  }

  /** `get` exposes every field: two entries that answer alike are the same entry. */
  lemma GetDeterminesEntry(a: PresentableSettingsEntry, b: PresentableSettingsEntry)
    requires forall attribute :: Get(a, attribute) == Get(b, attribute)
    ensures a == b
  {
    assert Get(a, "choices") == Get(b, "choices");
    assert Get(a, "current_settings_file") == Get(b, "current_settings_file");
    assert Get(a, "current_value") == Get(b, "current_value");
    assert Get(a, "default_value") == Get(b, "default_value");
    assert Get(a, "default") == Get(b, "default");
    assert Get(a, "description") == Get(b, "description");
    assert Get(a, "env_var") == Get(b, "env_var");
    assert Get(a, "name") == Get(b, "name");
    assert Get(a, "settings_file_sample") == Get(b, "settings_file_sample");
    assert Get(a, "source") == Get(b, "source");
    assert Get(a, "subcommands") == Get(b, "subcommands");
    assert Get(a, "cli_parameters") == Get(b, "cli_parameters");
  }

  // ---------------------------------------------------------------------
  // The settings-file record.

  const SettingsFileDescription: string :=
    "The path to the current settings file. Possible locations are"
    + " {CWD}/ansible-navigator.{ext} or {HOME}/.ansible-navigator.{ext}"
    + " where ext is yml, yaml or json."

  /** `f"{application_name.upper()}_CONFIG"` */
  function SettingsFileEnvVar(applicationName: string): (r: string)
    ensures |r| == |applicationName| + 7
    ensures r[|applicationName|..] == "_CONFIG"
    ensures forall i :: 0 <= i < |applicationName| ==> !Ascii.IsLower(r[i])
    ensures forall i :: 0 <= i < |applicationName| ==> Ascii.ToLower(r[i]) == Ascii.ToLower(applicationName[i])
  {
    Ascii.Upper(applicationName) + "_CONFIG"
  }

  /** For the application name "myapp" the variable is "MYAPP_CONFIG". */
  lemma SettingsFileEnvVarExample()
    ensures SettingsFileEnvVar("myapp") == "MYAPP_CONFIG"
  {
  }

  /**
   * `PresentableSettingsEntry.for_settings_file`: the synthetic record for
   * the settings file in use. Its current value is the discovered path (the
   * NONE string when there is none), and it is "default" exactly when no
   * settings file is in effect.
   */
  function ForSettingsFile(allSubcommands: seq<string>, applicationName: string, internals: Internals, ext: Externals)
    : (r: PresentableSettingsEntry)
    ensures (internals.settingsFilePath.Some? && internals.settingsFilePath.value != "")
              ==> r.currentSettingsFile == internals.settingsFilePath.value
    ensures (internals.settingsFilePath.None? || internals.settingsFilePath.value == "")
              ==> r.currentSettingsFile == ext.constantValue(NONE)
    ensures r.currentValue == Str(r.currentSettingsFile)
    ensures r.defaultValue == Str(ext.constantValue(NONE))
    ensures r.default <==> internals.settingsSource == NONE
    ensures r.envVar == SettingsFileEnvVar(applicationName)
    ensures r.source == ext.constantValue(internals.settingsSource)
    ensures r.choices == []
    ensures r.name == "Current settings file"
    ensures r.description == SettingsFileDescription
    ensures r.settingsFileSample == Str("Not applicable")
    ensures r.subcommands == allSubcommands
    ensures r.cliParameters == NoCliParameters()
  {
    var path := OrElse(internals.settingsFilePath, ext.constantValue(NONE));
    PresentableSettingsEntry(
      choices := [],
      currentSettingsFile := path,
      currentValue := Str(path),
      defaultValue := Str(ext.constantValue(NONE)),
      default := internals.settingsSource == NONE,
      description := SettingsFileDescription,
      envVar := SettingsFileEnvVar(applicationName),
      name := "Current settings file",
      settingsFileSample := Str("Not applicable"),
      source := ext.constantValue(internals.settingsSource),
      subcommands := allSubcommands,
      cliParameters := NoCliParameters())
  }

  // ---------------------------------------------------------------------
  // The per-entry projection.

  /**
   * Expands an entry's subcommand scope: `ALL` becomes every subcommand,
   * another constant its one-element list of its value, an explicit list
   * itself.
   */
  function ExpandSubcommands(scope: Subcommands, allSubcommands: seq<string>, ext: Externals): (r: seq<string>)
    ensures scope == Constant(ALL) ==> r == allSubcommands
    ensures scope.Constant? && scope.c != ALL ==> r == [ext.constantValue(scope.c)]
    ensures scope.Names? ==> r == scope.names
  {
    match scope
    case Constant(c) => if c == ALL then allSubcommands else [ext.constantValue(c)]
    case Names(names) => names
  }

  /**
   * The ALL constant never reaches the output: when the enumeration's values
   * are distinct and no declared subcommand list holds ALL's value, neither
   * does the expansion.
   */
  lemma AllNeverExpandedToItself(scope: Subcommands, allSubcommands: seq<string>, ext: Externals)
    requires forall c :: c != ALL ==> ext.constantValue(c) != ext.constantValue(ALL)
    requires ext.constantValue(ALL) !in allSubcommands
    requires scope.Names? ==> ext.constantValue(ALL) !in scope.names
    ensures ext.constantValue(ALL) !in ExpandSubcommands(scope, allSubcommands, ext)
  {
  }

  /** Every expanded subcommand comes from the entry's scope or, for ALL, from the full list. */
  lemma ExpandedSubcommandsComeFromScope(scope: Subcommands, allSubcommands: seq<string>, ext: Externals, s: string)
    ensures s in ExpandSubcommands(scope, allSubcommands, ext) <==>
      match scope
      case Constant(c) => if c == ALL then s in allSubcommands else s == ext.constantValue(c)
      case Names(names) => s in names
  {
  }

  /** `entry.name.replace("_", " ").capitalize()` */
  function DisplayName(name: string): (r: string)
    ensures |r| == |name|
    ensures '_' !in r
    ensures |name| > 0 ==> r[0] == Ascii.ToUpper(if name[0] == '_' then ' ' else name[0])
    ensures forall i :: 0 < i < |name| ==> r[i] == Ascii.ToLower(if name[i] == '_' then ' ' else name[i])
  {
    Ascii.Capitalize(Ascii.Replace(name, '_', ' '))
  }

  /** Display names are fixed points: projecting a display name again leaves it alone. */
  lemma DisplayNameIdempotent(name: string)
    ensures DisplayName(DisplayName(name)) == DisplayName(name)
  {
  }

  /**
   * Underscores become spaces, only the first character is upper-cased and
   * the rest is lower-cased: "a_B" is shown as "A b".
   */
  lemma DisplayNameExample()
    ensures DisplayName("a_B") == "A b"
  {
  }

  const SettingsFileSamplePlaceholder: string := "<------"

  /**
   * `PresentableSettingsEntry.from_settings_entry`: one settings entry in
   * presentable form. The resolved values, the default flag and the source
   * are restated, never recomputed; the subcommand scope is expanded; the
   * choices are kept in order.
   */
  function FromSettingsEntry(
    allSubcommands: seq<string>,
    applicationNameDashed: string,
    entry: SettingsEntry,
    settingsFilePath: string,
    ext: Externals)
    : (r: PresentableSettingsEntry)
    ensures r.choices == entry.choices
    ensures r.cliParameters == FromCliParams(entry.cliParameters, entry.nameDashed)
    ensures r.currentSettingsFile == settingsFilePath
    ensures r.currentValue == entry.value.resolved.current
    ensures r.defaultValue == entry.value.resolved.default
    ensures r.default == entry.value.resolved.isDefault
    ensures r.description == entry.shortDescription
    ensures r.envVar == entry.environmentVariable(applicationNameDashed)
    ensures r.name == DisplayName(entry.name)
    ensures r.settingsFileSample
              == ext.createSettingsFileSample(entry.settingsFilePath(applicationNameDashed), SettingsFileSamplePlaceholder)
    ensures r.source == ext.constantValue(entry.value.source)
    ensures r.subcommands == ExpandSubcommands(entry.subcommands, allSubcommands, ext)
  {
    var cliParameters := FromCliParams(entry.cliParameters, entry.nameDashed);
    var envVar := entry.environmentVariable(applicationNameDashed);
    var resolved := entry.value.resolved;
    var path := entry.settingsFilePath(applicationNameDashed);
    var sample := ext.createSettingsFileSample(path, SettingsFileSamplePlaceholder);
    PresentableSettingsEntry(
      choices := entry.choices,
      currentSettingsFile := settingsFilePath,
      currentValue := resolved.current,
      defaultValue := resolved.default,
      default := resolved.isDefault,
      description := entry.shortDescription,
      envVar := envVar,
      name := DisplayName(entry.name),
      settingsFileSample := sample,
      source := ext.constantValue(entry.value.source),
      subcommands := ExpandSubcommands(entry.subcommands, allSubcommands, ext),
      cliParameters := cliParameters)
  }
}
