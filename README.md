# Presentable settings entries of ansible-navigator, in Dafny

This project models the presentable projection layer of ansible-navigator's
configuration subsystem (`defs_presentable.py`). The layer takes settings
entries whose values have already been resolved. It restates each one as an
immutable, display-ready `PresentableSettingsEntry`. It also builds one
synthetic entry that describes the settings file in use.

The model is pure, like the source: frozen dataclasses become datatypes, and
the class methods become functions.

- `Wrappers.dfy`: `Option`, which stands for Python's `Optional[...]`.
- `Ascii.dfy`: the ASCII behaviour of `str.upper`, `str.lower`,
  `str.capitalize` and one-character `str.replace`.
- `StrOrder.dfy`: Python's `<` on strings. This is ordinal, case-sensitive
  lexicographic order, where a proper prefix sorts first. The module proves it
  is a strict total order and matches a first-difference definition.
- `Definitions.dfy`: what the layer reads from its collaborators. This covers
  the settings entry, its CLI spec, its resolved value, the internals, and the
  `Constants` members the layer tells apart (`ALL`, `NONE`, any other). It also
  holds `OrElse`, which models Python's `x or fallback` on an optional string.
- `DefsPresentable.dfy`: `PresentableCliParameters.from_cli_params`,
  `PresentableSettingsEntry` with `get` and `__lt__`, `for_settings_file` and
  `from_settings_entry`, and the `PresentableSettingsEntries` type.

Collaborators defined in other modules of the repository become parameters.
These are the `.value` string of each constant, `create_settings_file_sample`,
`CliParameters.long`, `SettingsEntry.environment_variable` and
`SettingsEntry.settings_file_path`. The first two are fields of `Externals`.
The others are function-valued fields of `CliParameters` and `SettingsEntry`.

Every operation is a mathematical function, so projecting the same inputs twice
always gives field-for-field equal records. `choices` is a `seq`, and the
projection keeps its elements in their order whether the source container was a
list or a tuple.

## Model

| member | source | states |
|---|---|---|
| `DefsPresentable.FromCliParams` | src/ansible_navigator/configuration_subsystem/defs_presentable.py:31-55 | with no CLI spec both fields are the "No long/short CLI parameter" sentinels; with one, long is the spec's rendering of the dashed name and short is the declared short flag unless it is absent or empty, in which case it is the sentinel; short is never empty |
| `DefsPresentable.NoCliParameters` | src/ansible_navigator/configuration_subsystem/defs_presentable.py:31-36 | the default `PresentableCliParameters()` holds "No long CLI parameter" and "No short CLI parameter", never an empty string |
| `Definitions.OrElse` | src/ansible_navigator/configuration_subsystem/defs_presentable.py:52 | Python `or`: a present non-empty string is kept, and both `None` and `""` give the fallback; a non-empty fallback makes the result non-empty |
| `DefsPresentable.ForSettingsFile` | src/ansible_navigator/configuration_subsystem/defs_presentable.py:119-150 | current value and current settings file are both the discovered path, or the NONE string when the path is None or empty; default value is the NONE string; default holds exactly when the settings source is NONE; source is the source tag's value; no choices, fixed name, description and sample, all subcommands, sentinel CLI parameters |
| `DefsPresentable.SettingsFileEnvVar` | src/ansible_navigator/configuration_subsystem/defs_presentable.py:146 | the variable is the application name upper-cased (same letters, no lower-case letter left) followed by `_CONFIG` |
| `DefsPresentable.SettingsFileEnvVarExample` | src/ansible_navigator/configuration_subsystem/defs_presentable.py:146 | the application name `myapp` gives `MYAPP_CONFIG` |
| `DefsPresentable.ExpandSubcommands` | src/ansible_navigator/configuration_subsystem/defs_presentable.py:180-186 | scope ALL gives exactly the full subcommand list; any other constant gives the one-element list of its value; an explicit list passes through unchanged |
| `DefsPresentable.ExpandedSubcommandsComeFromScope` | src/ansible_navigator/configuration_subsystem/defs_presentable.py:180-186 | a name is in the expansion iff it is in the full list (scope ALL), is the constant's value (other constant), or is in the explicit list |
| `DefsPresentable.AllNeverExpandedToItself` | src/ansible_navigator/configuration_subsystem/defs_presentable.py:180-186 | when the constants' values are distinct and no declared list holds ALL's value, the expansion never contains ALL's value |
| `DefsPresentable.DisplayName` | src/ansible_navigator/configuration_subsystem/defs_presentable.py:197 | same length as the entry name, no underscore, first character is the upper-cased original (an underscore shown as a space), every later character the lower-cased original |
| `DefsPresentable.DisplayNameIdempotent` | src/ansible_navigator/configuration_subsystem/defs_presentable.py:197 | a display name is unchanged when projected again |
| `DefsPresentable.DisplayNameExample` | src/ansible_navigator/configuration_subsystem/defs_presentable.py:197 | `a_B` is shown as `A b`: only the first character is upper-cased and the rest lower-cased |
| `DefsPresentable.FromSettingsEntry` | src/ansible_navigator/configuration_subsystem/defs_presentable.py:152-202 | current value, default value and default flag are copied from the resolved value and never recomputed; source is the entry's source tag value; choices keep their elements and order; subcommands are the expanded scope; name is the display name; env var, sample and CLI parameters come from the collaborators with the dashed names; the current settings file is the path passed in |
| `DefsPresentable.LessThan` | src/ansible_navigator/configuration_subsystem/defs_presentable.py:111-117 | `a < b` holds iff `a.name` is a proper prefix of `b.name` or has the smaller code point at the first differing position; no other field is consulted, and entries with equal names are never ordered |
| `DefsPresentable.LessThanIsStrictOrder` | src/ansible_navigator/configuration_subsystem/defs_presentable.py:111-117 | `<` on entries looks only at names: irreflexive, transitive, asymmetric, total between different names, and false both ways between equal names |
| `DefsPresentable.SortedNamesNondecreasing` | src/ansible_navigator/configuration_subsystem/defs_presentable.py:111-117 | in a sequence where no entry is less than its predecessor (what `sorted` yields), every name is less than or equal to every later name |
| `DefsPresentable.Get` | src/ansible_navigator/configuration_subsystem/defs_presentable.py:96-109 | `get` succeeds exactly for the twelve field names, and each name returns its own field (`current_value` the current value, `default_value` the default value, and so on); every other name fails, with no default |
| `DefsPresentable.GetDeterminesEntry` | src/ansible_navigator/configuration_subsystem/defs_presentable.py:96-109 | two entries on which `get` agrees for every name are equal, so `get` exposes every field |
| `StrOrder.Less` | src/ansible_navigator/configuration_subsystem/defs_presentable.py:117 | Python string `<`: never true of equal strings, and nothing is less than the empty string |
| `StrOrder.LessIsFirstDifference` | src/ansible_navigator/configuration_subsystem/defs_presentable.py:117 | string `<` holds iff `a` is a proper prefix of `b` or `a` has the smaller code point at the first position where they differ |
| `StrOrder.LessIrreflexive` | src/ansible_navigator/configuration_subsystem/defs_presentable.py:117 | no string is less than itself (a consequence of the contract of `StrOrder.Less`) |
| `StrOrder.LessTransitive` | src/ansible_navigator/configuration_subsystem/defs_presentable.py:117 | string `<` is transitive |
| `StrOrder.LessTrichotomous` | src/ansible_navigator/configuration_subsystem/defs_presentable.py:117 | of two strings, one is less than the other or they are equal, and never each less than the other |
| `StrOrder.OrdinalExample` | src/ansible_navigator/configuration_subsystem/defs_presentable.py:117 | ordinal order sorts `Beta`, `Zebra`, `alpha` in that order: upper-case letters come before lower-case ones |
| `Ascii.Upper` | src/ansible_navigator/configuration_subsystem/defs_presentable.py:146 | `str.upper`: same length, each character upper-cased |
| `Ascii.Replace` | src/ansible_navigator/configuration_subsystem/defs_presentable.py:197 | `str.replace` of one character: same length, each occurrence replaced and every other character kept |
| `Ascii.Lower` | src/ansible_navigator/configuration_subsystem/defs_presentable.py:197 | `str.lower`: same length, each character lower-cased |
| `Ascii.Capitalize` | src/ansible_navigator/configuration_subsystem/defs_presentable.py:197 | `str.capitalize`: same length, first character upper-cased, every other character lower-cased |
| `Ascii.CapitalizeIdempotent` | src/ansible_navigator/configuration_subsystem/defs_presentable.py:197 | capitalizing twice is capitalizing once |

## Left out

- The `current` property (`str(self.current_value)`) is not modelled. Python's `str` of arbitrary dicts, lists and bools follows the runtime's repr rules.
- `Get` covers the twelve dataclass fields only. Python's `getattr` also resolves the `current` property, the methods and the built-in dunder attributes; the model treats those names as unknown.
- Case mapping covers ASCII only. `str.upper` and `str.capitalize` also map non-ASCII letters, and `capitalize` uses title case for the first character.
- The string values of the `Constants` members, `create_settings_file_sample`, `CliParameters.long`, `SettingsEntry.environment_variable`, `SettingsEntry.settings_file_path` and `name_dashed` are defined in other modules, which are not part of this model. They enter as parameters and fields with no behaviour of their own.
- How `entry.value.resolved` is computed is not part of this model. The resolved value is always present here, so the fatal error for a missing resolved value is not modelled.
- Which lists are shared is not modelled. The source copies `choices` with `list(...)`, but the record keeps the caller's own `all_subcommands` or `entry.subcommands` list. Dafny sequences are values, so the model cannot show that sharing. Nothing in this layer mutates those lists.
- The sorting algorithm behind `sorted` is not modelled. `Sorted` states only what a sorted result satisfies.
- `PresentableSettingsEntries` is a `seq` type synonym for the source's tuple `NewType`. It has no behaviour of its own.
- Frozen-dataclass behaviour (rejecting attribute assignment, generated `__eq__` and `__repr__`) is not modelled. Dafny datatype values are immutable and compare structurally.
- Larger concrete name examples such as `editor_console` to `Editor console` and `ANSIBLE_RUNNER` to `Ansible runner` are not proved as separate lemmas. They follow from the pointwise contract of `DisplayName`.
- The source tag of a projected entry comes from `entry.value.source`, as the code has it. The code does not read it from the resolved value.
- The ALL constant can still appear in an expansion when the full subcommand list itself holds ALL's value. The code does not exclude that case. `AllNeverExpandedToItself` therefore assumes the list does not hold it.
