# px-feature: a Dafny model of the feature commands

The px-feature plugin for the Project-X command-line tool lets a developer keep named
"features": a git branch together with a database export stored under
`.project-x/features/`. `feature:create` checks out the branch, syncs and exports the
database, and records `{name, branch, database}` in `features.yml`; `feature:checkout`
switches to a recorded feature's branch and re-imports its database, or offers to create
the feature when it is unknown. The plugin's command type also validates the site
machine name typed during configuration.

This project models:

- `php.dfy` (`Php`): a possibly-null string, a value-or-exception result, and PHP's
  `empty()` (true for null, `""` and `"0"`).
- `command_type.dfy` (`CommandType`): the plugin id, label and registered commands, and
  the machine-name validator. `preg_match('/^[\w-]+$/', …)` is modelled by a greedy scan
  (`NameRun`, `PregMatch`) and proved equal to the language the pattern denotes
  (`MatchesPattern`): one or more characters of `[A-Za-z0-9_-]`, optionally followed by a
  single final newline, since `$` is used without the `D` modifier.
- `feature_store.dfy` (`FeatureStore`): feature records, the first-match lookup, the
  lookup-or-create accessor, the record a successful create leaves behind, and the
  views shown by `feature:list` and `feature:info`.
- `feature_command.dfy` (`Commands`): the `FeatureCommand` class. It holds the parsed
  feature list (`features`), an abstract git working copy (`git`: current branch,
  listed branches, uncommitted-changes flag) and an effect log (`log`). Its methods
  follow the PHP methods step by step: the `foreach` loops become loops, and the
  reference returned by `&config()` becomes an index into `features`. Each flow method
  is proved equal to a pure specification function on a `Session` value (`SwitchBranch`,
  `ImportDatabase`, `Create`, `Checkout`), and those functions carry the properties.

The outside world enters as data. The answers to the two confirmation questions are
method parameters (`continueAnyway`, `createIt`). The project root and the set of
existing files are the class's `env`. The host commands `platformsh:sync`, `db:export` and
`db:import`, the write of `features.yml` (`configSave`) and the messages shown to the user
are appended to `log` as `Effect` values. `configSave` is modelled as recording the
entire in-memory list as the persisted snapshot.

The model follows the plugin's code as it stands. In particular, the code has no
temporary-commit stash, no `temp_hash_id` and no "save the current feature first"
prompt. A working copy with uncommitted changes simply aborts the switch. The remote sync
in `featureCreate` is not wrapped in its own try/catch. The only error kinds are the
exceptions the code throws, with their messages.

## Model

| member | source | states |
|---|---|---|
| CommandType.Registration | src/ProjectX/Plugin/CommandType/FeatureCommandType.php:22-43 | the plugin id is `feature`, its label `Feature`, and it registers exactly one command class, the feature command |
| CommandType.NameRun | src/ProjectX/Plugin/CommandType/FeatureCommandType.php:62 | the greedy `[\w-]+` consumes a prefix made only of name characters and stops at the first other character or at the end |
| CommandType.PregMatch | src/ProjectX/Plugin/CommandType/FeatureCommandType.php:62 | `preg_match('/^[\w-]+$/', …)` succeeds exactly for the strings `t` or `t + "\n"` with `t` a non-empty run of `[A-Za-z0-9_-]` (the language `MatchesPattern`) |
| Php.Empty | src/ProjectX/Plugin/CommandType/FeatureCommandType.php:57 | PHP's `empty()` on null or a string: only null, `""` and `"0"` are empty; any other string, such as `"00"` or `" "`, is not (also used at src/ProjectX/Plugin/CommandType/Commands/FeatureCommand.php:172) |
| CommandType.Validate | src/ProjectX/Plugin/CommandType/FeatureCommandType.php:56-68 | accepts exactly the non-empty values matching the pattern and returns them unchanged; an empty value (null, `""`, `"0"`) gives the "required" error even if it matches; any other value gives the "format is invalid" error |
| CommandType.ZeroIsRequired | src/ProjectX/Plugin/CommandType/FeatureCommandType.php:57-61 | `"0"` matches the pattern but is refused as missing, because PHP treats it as empty |
| CommandType.HyphensAccepted | src/ProjectX/Plugin/CommandType/FeatureCommandType.php:62-67 | a value made only of hyphens is accepted and returned unchanged |
| CommandType.TrailingNewlineAccepted | src/ProjectX/Plugin/CommandType/FeatureCommandType.php:62 | a valid name followed by a single newline is accepted, newline included |
| CommandType.ForeignCharRejected | src/ProjectX/Plugin/CommandType/FeatureCommandType.php:62-66 | a value holding a character outside `[A-Za-z0-9_-]` anywhere except as one final newline is refused with the format error |
| FeatureStore.FindFirst | src/ProjectX/Plugin/CommandType/Commands/FeatureCommand.php:196-201 | finds nothing exactly when no record has the name; otherwise gives the index of the first record with that name |
| FeatureStore.GetOrCreate | src/ProjectX/Plugin/CommandType/Commands/FeatureCommand.php:196-206 | for a known name, the store is unchanged and the first matching record is handed out; for an unknown name, exactly one record `{name}` is appended at the end and handed out; either way the name exists afterwards, and unique names stay unique |
| FeatureStore.Created | src/ProjectX/Plugin/CommandType/Commands/FeatureCommand.php:129-141 | after create, the first record named `name` (appended if new) is `{name, branch: name, database: name.sql.gz}`; every other record is unchanged; the store grows by one record exactly when the name was unknown; unique names stay unique |
| FeatureStore.Fields | src/ProjectX/Plugin/CommandType/Commands/FeatureCommand.php:85-87 | a record's key/value pairs start with its `name`, hold `branch` and `database` with their values exactly when they are set, hold nothing else, and have distinct keys |
| FeatureStore.ListHeader | src/ProjectX/Plugin/CommandType/Commands/FeatureCommand.php:67-69 | the list header is the first record's keys, in order, starting with `name`, and is as long as that record's row; there is none for an empty store |
| FeatureStore.ListRows | src/ProjectX/Plugin/CommandType/Commands/FeatureCommand.php:69-71 | one row per record, in store order, each holding that record's values, starting with its name |
| FeatureStore.Describe | src/ProjectX/Plugin/CommandType/Commands/FeatureCommand.php:77-93 | the info view finds a record exactly when the store has the name, and then shows the first such record's fields, starting with the name |
| Commands.SwitchBranch | src/ProjectX/Plugin/CommandType/Commands/FeatureCommand.php:149-168 | the switch succeeds exactly when the user continues on the current branch, or the target is another listed branch and the tree is clean; afterwards the current branch is the target; on failure git is unchanged; cancel, missing-branch and uncommitted-changes errors arise in that order of precedence |
| Commands.ImportCheck | src/ProjectX/Plugin/CommandType/Commands/FeatureCommand.php:170-180 | the import may run exactly when the record's database is non-empty and its file exists; otherwise the missing-setting error, then the missing-file error |
| Commands.ImportDatabase | src/ProjectX/Plugin/CommandType/Commands/FeatureCommand.php:170-184 | the store goes through the lookup-or-create accessor; on an error path no import is run; on success exactly one import is run, of `<root>/.project-x/features/<database>` for the record's database; git is untouched |
| Commands.Create | src/ProjectX/Plugin/CommandType/Commands/FeatureCommand.php:124-147 | if the branch switch fails, the store is neither changed nor saved and only the error is shown; otherwise the current branch is `name`, the store is `Created(…)`, and sync, export and a save of the whole new store follow in that order; unique names stay unique |
| Commands.Checkout | src/ProjectX/Plugin/CommandType/Commands/FeatureCommand.php:100-119 | for a known feature, the store is unchanged and an import happens only after a successful switch; a failed import shows its error and leaves the switch in place; for an unknown feature, declining creation changes nothing, accepting it is `Create`; unique names stay unique |
| Commands.CreateOfMissingBranchKeepsStore | src/ProjectX/Plugin/CommandType/Commands/FeatureCommand.php:116-127 | accepting to create an unknown feature whose branch does not exist shows "Branch does not exist" and leaves store and git as they were |
| Commands.MissingDatabaseKeepsSwitch | src/ProjectX/Plugin/CommandType/Commands/FeatureCommand.php:102-114 | checking out a known feature whose database file is gone switches the branch, runs no import and shows "Database file no longer exists." |
| Commands.FeatureCommand.constructor | src/ProjectX/Plugin/CommandType/Commands/FeatureCommand.php:52-59 | the command starts from the loaded feature list and the given git state, with nothing done yet |
| Commands.FeatureCommand.ConfigExists | src/ProjectX/Plugin/CommandType/Commands/FeatureCommand.php:186-194 | the flag loop answers true exactly when some record has the name |
| Commands.FeatureCommand.Config | src/ProjectX/Plugin/CommandType/Commands/FeatureCommand.php:196-206 | the accessor's loop and append produce the store and handle of `GetOrCreate` |
| Commands.FeatureCommand.ConfigSave | src/ProjectX/Plugin/CommandType/Commands/FeatureCommand.php:208-210 | the whole in-memory store is recorded as persisted |
| Commands.FeatureCommand.GitCheckoutBranch | src/ProjectX/Plugin/CommandType/Commands/FeatureCommand.php:149-168 | the outcome and new git state are those of `SwitchBranch` |
| Commands.FeatureCommand.DrupalImportDatabase | src/ProjectX/Plugin/CommandType/Commands/FeatureCommand.php:170-184 | the outcome, store and log are those of `ImportDatabase` |
| Commands.FeatureCommand.FeatureCreate | src/ProjectX/Plugin/CommandType/Commands/FeatureCommand.php:124-147 | the new store, git state and log are those of `Create` |
| Commands.FeatureCommand.FeatureCheckout | src/ProjectX/Plugin/CommandType/Commands/FeatureCommand.php:100-119 | the new store, git state and log are those of `Checkout` |
| Commands.FeatureCommand.FeatureInfo | src/ProjectX/Plugin/CommandType/Commands/FeatureCommand.php:77-93 | the store is unchanged and the result is `Describe` of the current branch |

## Left out

- Reading and writing `features.yml` (the configuration loader, the YAML dump, the file write task): library I/O. `configSave` records the in-memory list as a `Persist` effect. A missing file, where PHP would start from `null`, is an empty list.
- The host commands `platformsh:sync`, `db:export` and `db:import`: foreign calls, recorded as effects that always complete. Their own failures and the files an export creates are not modelled.
- The git library and `src/GitRepository.php`: git is the abstract `Git` value, and `checkout` only changes its current branch. The `reset` wrapper in `src/GitRepository.php` is called by none of the modelled code.
- The terminal rendering of `feature:list`, `feature:info` and messages (tables, notes, definition lists): only the data shown is modelled, and messages are `Say`/`ShowError` effects.
- The question and configuration-tree plumbing around the validator, and the plugin label's use in menus.
- PHP's loose `==` and `in_array` between numeric strings: names compare by exact string equality.
- FeatureStore.Fields: records have only the keys `name`, `branch` and `database`, and the keys shown by `feature:info` and `feature:list` are always in the order name, branch, database (each optional one only when set). PHP keeps insertion order, so a loaded record with `database` but no `branch` shows name, database, branch after `feature:create` appends `branch`; the model does not track key order, and ignores any other keys a loaded record may carry.
- CommandType.IsWordChar: `\w` is the ASCII class `[A-Za-z0-9_]`; locale-dependent word characters above ASCII are not modelled.
