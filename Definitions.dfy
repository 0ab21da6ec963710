/**
 * The boundary of the presentable layer: the already-resolved settings
 * entries it reads and the collaborators it calls. Their own behaviour
 * (value resolution, the long-flag renderer, environment-variable naming,
 * the settings-file sample generator, the string values of the constants)
 * lives outside this model and enters only as function-valued fields and
 * parameters.
 */
module Definitions {
  import opened Wrappers

  /** A settings value as the presentable record holds it: bool, str, list or dict. */
  datatype Value =
    | Bool(b: bool)
    | Str(s: string)
    | List(items: seq<Value>)
    | Dict(entries: map<string, Value>)

  /**
   * Members of the `Constants` enumeration that this layer distinguishes;
   * every other member (the source tags among them) is `Other`, named by its
   * member name.
   */
  datatype Constant = ALL | NONE | Other(member: string)

  /** A settings entry's CLI spec: an optional short flag and the long-flag renderer. */
  datatype CliParameters = CliParameters(short: Option<string>, long: string -> string)

  /** `entry.subcommands`: a constant (`ALL` or a single one) or an explicit list. */
  datatype Subcommands = Constant(c: Constant) | Names(names: seq<string>)

  /** `entry.value.resolved`: the outcome of precedence resolution. */
  datatype ResolvedValue = ResolvedValue(current: Value, default: Value, isDefault: bool)

  /** `entry.value`: the resolved value and the source tag that supplied it. */
  datatype SettingsEntryValue = SettingsEntryValue(resolved: ResolvedValue, source: Constant)

  /** The attributes of a settings entry that the presentable layer reads. */
  datatype SettingsEntry = SettingsEntry(
    name: string,
    nameDashed: string,
    shortDescription: string,
    choices: seq<Value>,
    cliParameters: Option<CliParameters>,
    environmentVariable: string -> string,
    settingsFilePath: string -> string,
    subcommands: Subcommands,
    value: SettingsEntryValue)

  /** The two `Internals` attributes read for the settings-file record. */
  datatype Internals = Internals(settingsFilePath: Option<string>, settingsSource: Constant)

  /**
   * Collaborators outside the layer: the `.value` string of each constant,
   * and `create_settings_file_sample(settings_path, placeholder)`.
   */
  datatype Externals = Externals(
    constantValue: Constant -> string,
    createSettingsFileSample: (string, string) -> Value)

  /** Python's `x or fallback` for an optional string: `None` and `""` are both falsy. */
  function OrElse(x: Option<string>, fallback: string): (r: string)
    ensures x.Some? && x.value != "" ==> r == x.value
    ensures x.None? || x.value == "" ==> r == fallback
    ensures fallback != "" ==> r != ""
  {
    if x.Some? && x.value != "" then x.value else fallback
  }
}
