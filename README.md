# clrtools command-line generator, modelled in Dafny

clrtools builds its command line by reflection. Every class of the `clrtools.commands` package that
subclasses `AbstrCommand` becomes an argparse subcommand:
- the subcommand's name is derived from the class name (`CommandShowTargets` becomes `show-targets`);
- its arguments come from the class's `__call__` signature, checked against the class tables `kwargs_opts` and `positional_help`;
- the parsed command line is dispatched to an instance of the class, which is built with a `Config` object.

This project models that engine and the two live command classes:

| file | module | models |
|---|---|---|
| `naming.dfy` | `Naming` | `_transform_command_name`, with an independent reference definition and the lemmas tying the two together |
| `signature.dfy` | `Signature` | the positional/flag split of a `__call__` parameter list, with Python's negative-index slice clamping |
| `registration.dfy` | `Registration` | `add_options2`: `Reconcile` specifies it and the imperative `AddOptions` implements it on a subparser |
| `argparse.dfy` | `Argparse` | the argparse registry the generator fills (classes `ArgumentParser` and `SubParser`) |
| `generation.dfy` | `Generation` | the scan and registration loop of `_generate_args`: `BuildSubcommands` specifies it and `GenerateArgs` implements it |
| `configuration.dfy` | `Configuration` | `Config` and the ConfigParser lookups it relies on |
| `dispatch.dfy` | `Dispatch` | `run_cmd` and `main`, including Python's argument binding for the call |
| `commands.dfy` | `Commands` | `CommandImport` and `CommandShowTargets` as descriptor values, and what the engine makes of them |
| `wrappers.dfy` | `Wrappers` | `Option`/`Result`, and `MapAll`, the stop-at-first-failure map that both registration loops follow |

Reflection is replaced by explicit values:
- A class is a `Descriptor` holding:
  - its `__name__` and docstring;
  - whether it subclasses `AbstrCommand`;
  - its `__call__` parameters after the receiver, and the defaults of the trailing ones;
  - its two tables, each `None` or a map;
  - the attribute its constructor stores the configuration in.
- `dir(commands)` is a sequence of `Member`s, in the order `dir` returns them.
- argparse's result is a `ParsedOptions` record.
- A failed `assert` in the generator is a `SetupError` result.
- A command's own `__call__` body is a function parameter that says whether the body returns or raises.

## Model

| member | source | states |
|---|---|---|
| Naming.TransformCommandName | clrtools/config.py:170-172 | fails exactly when the name has at most 7 characters (`TooShort`) or does not start with "Command" (`MissingPrefix`); the uppercase check at line 173 never fails |
| Naming.UpperIndicesFrom | clrtools/config.py:177 | the indices it returns are in bounds, strictly increasing and all at uppercase characters |
| Naming.UpperIndicesExact | clrtools/config.py:177 | an index at or after the start is listed exactly when its character is uppercase |
| Naming.NameMatchesReference | clrtools/config.py:176-181 | the slice-and-join result equals the reference spelling: drop everything before the first capital, then put "-" before each later capital and lower-case everything |
| Naming.DerivedNameShape | clrtools/config.py:177-181 | a derived name has no uppercase letter; when the core contains no "-", removing the dashes gives the lower-cased core from its first capital on, and for a capitalised core the whole lower-cased core; a core without capitals yields "" |
| Naming.NameOfWords | clrtools/config.py:176-181 | "Command" followed by capitalised words derives those words, lower-cased and joined by "-" |
| Naming.ImportName | clrtools/commands/commands_impl/load.py:8 | `CommandImport` derives `import` |
| Naming.ShowTargetsName | clrtools/commands/commands_impl/targets.py:6 | `CommandShowTargets` derives `show-targets` |
| Naming.ShowImportTargetsName | clrtools/config.py:163-181 | `CommandShowImportTargets` derives `show-import-targets` |
| Naming.RejectedNames | clrtools/config.py:170-172 | "Command" is rejected as too short; "ShowTargets" is rejected for the missing prefix |
| Signature.SliceBound | clrtools/config.py:157-160 | Python's slice bound: within the length, with a negative bound counted from the end; a bound past the end clamps to the length and one before the start to 0 |
| Signature.SplitSignature | clrtools/config.py:155-161 | with `d` defaults and at least `d` parameters: the first `n-d` parameters are positionals and the last `d` are flags, together the whole list in order; with no defaults, all parameters are positionals; with more defaults than parameters, the receiver moves into the flags |
| Argparse.ArgumentParser.AddArgument | clrtools/config.py:128-141 | appends the argument; the subcommands are unchanged |
| Argparse.ArgumentParser.AddParser | clrtools/config.py:185 | appends the subparser after the earlier ones |
| Argparse.SubParser.AddArgument | clrtools/config.py:119-124 | appends the argument; name, help and `cmd` are unchanged |
| Argparse.SubParser.SetDefaults | clrtools/config.py:187 | sets `cmd`; nothing else changes |
| Registration.SplitFlagSpec | clrtools/config.py:117-118 | splits a spec tuple into its leading flag strings and the final option dictionary, whose concatenation is the tuple; fails on an empty tuple or a non-dictionary last element |
| Registration.FlagArgument | clrtools/config.py:116-119 | succeeds exactly when the table exists, holds the flag and its spec splits; the argument is that split |
| Registration.PositionalArgument | clrtools/config.py:122-124 | succeeds exactly when the help table holds the name; the argument is the name with its help |
| Registration.Reconcile | clrtools/config.py:113-124 | succeeds exactly when every flag has a well-formed spec and every positional has help; the result is then all flags in signature order, then all positionals in signature order; otherwise the error is the first failing check, flags before positionals |
| Registration.AddOptions | clrtools/config.py:113-124 | on the subparser: success exactly when `Reconcile` succeeds, and then the arguments grow by exactly `Reconcile`'s list; on failure the error is `Reconcile`'s |
| Registration.AddEach | clrtools/config.py:115-124 | one registration loop: on success the arguments grow by the whole mapped list; on failure the error is the first failing name's, and the arguments grow by the mapped names before it |
| Generation.Candidate | clrtools/config.py:147-153 | a class with an empty name fails; otherwise a member is selected exactly when it is an eligible class, and the selection is its descriptor |
| Generation.Register | clrtools/config.py:155-187 | a class registers exactly when its name derives and its tables reconcile; the subcommand carries the derived name, the docstring, the reconciled arguments and the triple `(cls, positional, kwarg)` |
| Generation.BuildSubcommands | clrtools/config.py:147-187 | the scan's result: on success one subcommand per eligible member, each carrying a `cmd` triple |
| Generation.BuildSnoc | clrtools/config.py:147-187 | scanning one more member keeps the earlier subcommands and appends that member's subcommand, if any, or stops at its failure |
| Generation.BuildStops | clrtools/config.py:147-187 | a failure on a prefix of the scan is the failure of the whole scan |
| Generation.EligibleSnoc | clrtools/config.py:147-153 | one more member adds its class exactly when it is eligible |
| Generation.BuildRegistersEligible | clrtools/config.py:147-187 | the build succeeds exactly when all class names are readable and every eligible class registers; the subcommands are then those of the eligible classes, in scan order |
| Generation.BuildFromEligible | clrtools/config.py:147-187 | if every class name in the scan is non-empty and every eligible class registers, the build is exactly their subcommands |
| Generation.RegisteredSubcommand | clrtools/config.py:147-187 | the i-th registered subcommand belongs to the i-th eligible class: that class is a non-private, non-base subclass of the base class, and the subcommand has its derived name, its docstring, its reconciled arguments and its triple |
| Generation.EligibleAreEligible | clrtools/config.py:148-153 | every selected class passes all four filter conditions |
| Generation.AddCommand | clrtools/config.py:183-187 | appends exactly `Register`'s subcommand, or leaves the parser unchanged and returns `Register`'s error |
| Generation.GenerateArgs | clrtools/config.py:127-188 | a fresh parser with the `--config` and `--name` options, holding exactly the subcommands `BuildSubcommands` describes; otherwise the scan's first error |
| Configuration.IniStore.Items | clrtools/config.py:83 | fails on an absent section; otherwise the defaults overlaid by the section's own options |
| Configuration.IniStore.Get | clrtools/config.py:94 | for a non-empty section name, succeeds exactly when the section exists and `has_option` holds; the section's own value takes precedence over the default |
| Configuration.Here | clrtools/config.py:51-54 | `here` is "" when the file name is None or empty, and the file's directory otherwise |
| Configuration.InitialStore | clrtools/config.py:55-62 | the defaults hold every `config_args` key, with the file's DEFAULT entries taking precedence; with a file the sections are the file's; without one there is exactly one empty section, the main one, acknowledged unless it is named DEFAULT |
| Configuration.MissingSectionMessage | clrtools/config.py:89-92 | the message is exactly as long as its fixed text plus the file's repr and the section name |
| Configuration.MissingSectionMessageShape | clrtools/config.py:89-92 | the message starts "No config file " followed by the `%r` of the file name, and ends with the section name followed by "]' section" |
| Configuration.Repr | clrtools/config.py:89-92 | `None`, or the file name between single quotes |
| Configuration.Config.constructor | clrtools/config.py:37-62 | copies the arguments, adds `here` (the file's directory, or "" without a file) to `config_args`, reads the file, or adds the empty main section when there is no file |
| Configuration.NewConfig | clrtools/config.py:56-60 | fails exactly when there is no file and the main section is named `DEFAULT`; otherwise gives a fresh Config as the constructor describes |
| Configuration.Config.GetSection | clrtools/config.py:79-83 | fails exactly on an absent section; for a non-empty section name, its keys are exactly the options `has_option` sees there |
| Configuration.SectionOptionFailsOnAbsent | clrtools/config.py:85-90 | since the parser never holds DEFAULT as a named section, `get_section_option` fails exactly for a section the file does not hold, and `get_section` then fails too, except for `DEFAULT`, whose `get_section` returns the defaults |
| Configuration.Config.GetSectionOption | clrtools/config.py:85-96 | an absent section is an error naming the file and the section; a missing option gives `default`; anything else is a stored string |
| Configuration.Config.GetMainOption | clrtools/config.py:98-104 | the same lookup in the main section |
| Configuration.SectionOptionFromItems | clrtools/config.py:79-96 | for a present section, the lookup is `get_section`'s entry when present and `default` otherwise |
| Configuration.UnreadMainOption | clrtools/config.py:51-104 | without a file the main options are exactly `config_args`, with `here` as "" |
| Configuration.ReadMainOption | clrtools/config.py:51-104 | with a file, `here` is the main section's own value, else the file's DEFAULT value, else the file's directory; when the file has no main section, or the main section is named DEFAULT, every lookup is the missing-section error |
| Descriptors.GetAttr | clrtools/config.py:200-201 | the namespace's value of that name, or None when it has none |
| Descriptors.GlobalAttributes | clrtools/config.py:200-201 | in a coherent namespace a parameter named `config` or `name` reads the global option's value |
| Dispatch.Marshal | clrtools/config.py:198-202 | one positional value per recorded positional, in order, and one keyword per recorded flag, each `getattr(options, k, None)` |
| Dispatch.Bind | clrtools/config.py:198-202 | Python's binding succeeds exactly when there are no surplus positionals, foreign or doubled keywords, or missing required parameters; positionals fill the leading parameters and keywords fill the rest by name; as in CPython, a foreign keyword is reported before anything else, surplus positionals only when no keyword was passed, and a missing parameter only when every keyword names a parameter |
| Dispatch.BindKeywordsFirst | clrtools/config.py:198-202 | `f(a)` called as `f(1, 2, b=3)` fails on the unexpected keyword; `f(1, 2)` fails on the surplus positional; `f(1, a=3)` fails on the doubled value |
| Dispatch.MarshalBindsByName | clrtools/config.py:191-202 | for a receiver without a default, the marshalled call of a recorded split binds every parameter to the parsed value of the same name, so the signature's defaults are never used |
| Dispatch.DispatchedByName | clrtools/config.py:190-207 | for a receiver without a default, once the constructor returns, running a recorded triple hands the body exactly the parsed values of its parameters, in order; a constructor that raises is translated instead |
| Dispatch.Dispatched | clrtools/config.py:193-207 | an exception from the constructor `fn(config)` is translated like one from the call, since both run inside the `try`; a binding failure propagates as a TypeError; a report happens only when `raiseerr` is off and a re-raised `CommandError` only when it is on; a dispatched run never ends in the usage error |
| Dispatch.Translate | clrtools/config.py:203-207 | a `CommandError` is re-raised when `raiseerr` is set and reported otherwise; any other exception propagates; a normal return completes |
| Dispatch.CommandInstance.constructor | clrtools/config.py:195 | the instance stores the config under its class's constructor attribute and nothing else |
| Dispatch.CommandLine.RunCmd | clrtools/config.py:190-207 | ends as the `Dispatched` outcome; exactly when the constructor returns, yields a fresh instance that stores the config under its class's constructor attribute |
| Dispatch.CommandLine.Execute | clrtools/config.py:209-221 | for a coherent namespace: no `cmd` gives the usage error "too few arguments", and no Config or instance exists; `--config ""` with `--name DEFAULT` fails with the invalid section name; otherwise a fresh Config with file `--config`, main section `--name`, the parsed options as `cmd_opts` and `here` as its only argument, and the command run with it, whose instance (when its constructor returns) holds that Config |
| Dispatch.NewCommandLine | clrtools/config.py:107-109 | a command line whose parser is exactly the one `GenerateArgs` builds, or the generator's error |
| Commands.ImportTables | clrtools/commands/commands_impl/load.py:11-45 | `kwargs_opts` has exactly the keys target, quarter and force, each with a three-element spec; `positional_help` has exactly the key file |
| Commands.ImportSplit | clrtools/commands/commands_impl/load.py:50 | `file` is positional; target, quarter and force are flags |
| Commands.ImportFlags | clrtools/commands/commands_impl/load.py:11-41 | each flag spec splits into its short and long flag and its option dictionary |
| Commands.ImportReconciles | clrtools/commands/commands_impl/load.py:11-50 | reconciliation succeeds with -t/--target, -q/--quarter, -f/--force, then `file` with its help |
| Commands.ImportRegisters | clrtools/commands/commands_impl/load.py:8-50 | `CommandImport` becomes the subcommand `import` with its docstring, those arguments and the triple `(CommandImport, [file], [target, quarter, force])` |
| Commands.ShowTargetsRegisters | clrtools/commands/commands_impl/targets.py:6-17 | an empty split; reconciliation succeeds without consulting the None tables; the subcommand is `show-targets` with no arguments |
| Commands.InstantiateImport | clrtools/commands/commands_impl/load.py:47-48 | the constructor stores the config as `config` and sets nothing else |
| Commands.InstantiateShowTargets | clrtools/commands/commands_impl/targets.py:14-15 | the constructor stores the config as `spec` |
| Commands.ModuleMembersEligibility | clrtools/config.py:148-153 | in the package, only the two command classes pass the filter; `AbstrCommand`, `CommandError` and non-classes do not |
| Commands.CommandsModuleEligible | clrtools/config.py:147-153 | the package's eligible classes are `CommandImport`, then `CommandShowTargets` |
| Commands.CommandsModuleRegisters | clrtools/config.py:183-187 | both eligible classes register |
| Commands.CommandsModuleBuild | clrtools/config.py:143-187 | the parser built from the package has exactly the subcommands `import` and `show-targets`, in that order |
| Commands.ImportRunDispatch | clrtools/config.py:190-207 | with a constructor that returns, as `CommandImport.__init__` does, `import ./data.csv -t GDWHCoA -q 20183` calls `CommandImport` with file, target, quarter and force bound to the parsed values; a `CommandError` it raises is reported |
| Commands.ShowTargetsRunDispatch | clrtools/commands/commands_impl/targets.py:14-17 | with a constructor that only stores the config, `show-targets` calls its `__call__` with no arguments |

## Left out

- Naming.IsUpper and Naming.Lower: only ASCII letters are case-mapped; Python's `str.isupper` and `str.lower` are Unicode-aware.
- The uppercase check at clrtools/config.py:173 tests the method object `name[7].isupper` without calling it, so it always passes. It is not modelled as a check.
- Python reflection (`dir`, `inspect.getfullargspec`, `issubclass`): replaced by `Descriptor` and `Member` values. The order of `dir()` is taken as the order of the input sequence.
- Other parameter kinds: `*args`, `**kwargs` and keyword-only parameters of `__call__` are not represented. `Descriptor.params` and `Dispatch.Bind` model only the named parameters and defaults that `getfullargspec(...)[0:4]` exposes, so a command using those kinds is outside the model.
- Dispatch.Bind: when one call has both a foreign keyword and a keyword doubling a positional, CPython reports whichever comes first in the keyword order. The model's keywords are a map with no order, so it always reports the foreign keyword. Either way the call fails with a TypeError.
- `Config.__init__`'s default arguments (`ini_section="clrtools"`, `cmd_opts=None`, `config_args=dict()`) are not modelled. The only caller, `main`, passes the file, the section and the options and leaves `config_args` empty. `Configuration.NewConfig` therefore takes every argument explicitly, and `Dispatch.CommandLine.Execute` passes `map[]` for `config_args`.
- Constructor bodies: the constructor `fn(config)` is a `CallOutcome` parameter of `Dispatch.Dispatched`, so what a raising constructor did before raising is not modelled. The two modelled commands' constructors only store the config, so their lemmas pass `Returned`.
- argparse internals: token parsing, type conversion, required-flag enforcement, help output, and the exit inside `parser.error`. The parser is a registry of subcommand records. Parsed input is a `ParsedOptions` value, and the usage error is an `Exit` value.
- Argparse.SubParser.AddArgument and Argparse.ArgumentParser.AddParser always succeed. argparse raises errors while building that are not modelled, for example:
  - an option string repeated within one subparser, including a clash with the automatic `-h/--help`;
  - from Python 3.11, a subcommand name registered twice, for example a class bound under two attribute names;
  - the `ValueError` or `TypeError` of `add_argument` on a malformed spec, for example a flag spec holding only its dictionary, which names no flag.
- Argparse.ArgumentParser.AddParser: argparse keeps a reference to the subparser and registers it before `add_options2` fills it. The model appends a value snapshot once the subparser is complete. The two agree, because the subparser is not changed afterwards and a failure discards the whole parser.
- Configuration file I/O and `os.path.abspath`/`dirname`: the file's DEFAULT entries and sections, and its absolute directory, are parameters. Also not modelled:
  - `%(here)s` value interpolation;
  - the lower-casing of option names (`optionxform`); keys are compared exactly.
- Configuration.Repr: Python's `repr` switches to double quotes and escapes characters for some strings; the model always uses single quotes.
- Configuration.SectionOptionFromItems: `has_option` treats a section named "" like the default section, so the lemma excludes that name.
- `get_section_option` and `run_cmd` name `util.CommandError` and `util.err`, but `util` is never imported in clrtools/config.py. The model gives the intended behaviour: a missing section is a `MissingSection` error with the source's message, and a reported `CommandError` is the `Reported` exit.
- Descriptors.GetAttr: `cmd` and `raiseerr` are kept outside the `values` map. A `__call__` parameter named `cmd` therefore reads None, where Python reads the recorded triple. A subcommand argument whose dest is `config` or `name` overwrites the global option in Python's namespace. The model covers that overwrite only when the new value is a string: `Descriptors.Coherent` requires `values` to agree with the `config` and `name` fields that `Execute` hands to `Config`.
- `options.raiseerr` is read by `run_cmd` but no argument ever registers it. The model makes it an explicit boolean field of `ParsedOptions`.
- Command bodies: the `print` output of both commands and the `get_main_option("database")` call inside `CommandImport.__call__` are I/O. A body is a function parameter that returns or raises.
- clrtools/commands.py is shadowed by the package `clrtools/commands/` that clrtools/config.py imports, so its classes are never scanned.
- clrtools/commands/__init__.py imports `CommandShowImportTargets`, which targets.py does not define. The model's package binds `CommandShowTargets`.
- clrtools/commands/commands_impl/__init__.py (`AbstrCommand`, `CommandError`) is not part of this model. These classes enter only by name and by whether they subclass the base.
- setup.py (packaging) and `joke()` are out of scope.
- The module-level `main(argv, prog)` only composes `CommandLine(prog).main(argv)`: it is `NewCommandLine` followed by `Execute`.
