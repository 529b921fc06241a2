/**
 * The two live command classes as the generator sees them: `CommandImport` (a file positional and
 * three flags) and `CommandShowTargets` (no arguments, no tables), and what the generator and the
 * dispatcher make of them.
 */
module Commands {
  import opened Wrappers
  import opened Descriptors
  import opened Naming
  import opened Signature
  import opened Argparse
  import opened Registration
  import opened Generation
  import opened Configuration
  import opened Dispatch

  const TargetOptions: ArgOptions :=
    ArgOptions(Some(PyStr("generic")), Some(StrType), Some(true), None, Some("Defines the target for the import."))

  /** A string default beside `type=int`; as the option is required, the default is never used. */
  const QuarterOptions: ArgOptions :=
    ArgOptions(Some(PyStr("generic")), Some(IntType), Some(true), None,
               Some("Sets the year/quarter for the import, e.g. 20183."))

  const ForceOptions: ArgOptions :=
    ArgOptions(Some(PyBool(false)), None, None, Some("store_true"), Some("Replace data that is already there."))

  const FileHelp: string := "Path to the file to be imported."

  /** `CommandImport.kwargs_opts`. */
  const ImportOptionTable: map<string, FlagSpec> := map[
    "target" := [Text("-t"), Text("--target"), Options(TargetOptions)],
    "quarter" := [Text("-q"), Text("--quarter"), Options(QuarterOptions)],
    "force" := [Text("-f"), Text("--force"), Options(ForceOptions)]]

  /** `CommandImport`: `__call__(self, file, target=None, quarter=0, force=False)`, `__init__(self, config)`. */
  const ImportCommand: Descriptor := Descriptor(
    name := "CommandImport",
    doc := Some(" Import data into the DWH. "),
    subclassesBase := true,
    receiver := "self",
    params := ["file", "target", "quarter", "force"],
    defaults := [PyNone, PyInt(0), PyBool(false)],
    kwargsOpts := Some(ImportOptionTable),
    positionalHelp := Some(map["file" := FileHelp]),
    ctorField := "config")

  /** `CommandShowTargets`: both tables None, `__call__(self)`, `__init__(self, spec)`. */
  const ShowTargetsCommand: Descriptor := Descriptor(
    name := "CommandShowTargets",
    doc := Some(" Display the available target for a data import\n    "),
    subclassesBase := true,
    receiver := "self",
    params := [],
    defaults := [],
    kwargsOpts := None,
    positionalHelp := None,
    ctorField := "spec")

  /** The arguments the `import` subparser receives: the three flags, then the file. */
  const ImportArguments: seq<Argument> := [
    OptionalArg([Text("-t"), Text("--target")], TargetOptions),
    OptionalArg([Text("-q"), Text("--quarter")], QuarterOptions),
    OptionalArg([Text("-f"), Text("--force")], ForceOptions),
    PositionalArg("file", FileHelp)]

  const ImportRecord: CmdRecord := CmdRecord(ImportCommand, ["file"], ["target", "quarter", "force"])

  const ShowTargetsRecord: CmdRecord := CmdRecord(ShowTargetsCommand, [], [])

  /** The `import` subparser: derived name, docstring as help, its arguments and its triple. */
  const ImportSubcommand: Subcommand := Subcommand("import", ImportCommand.doc, ImportArguments, Some(ImportRecord))

  const ShowTargetsSubcommand: Subcommand := Subcommand("show-targets", ShowTargetsCommand.doc, [], Some(ShowTargetsRecord))

  /** The two tables of `CommandImport` have exactly the keys its signature needs. */
  lemma ImportTables()
    ensures ImportCommand.kwargsOpts.value.Keys == {"target", "quarter", "force"}
    ensures ImportCommand.positionalHelp.value.Keys == {"file"}
    ensures forall k :: k in ImportOptionTable ==> |ImportOptionTable[k]| == 3
  {
  }

  /** `file` is positional; `target`, `quarter` and `force` are flags. */
  lemma ImportSplit()
    ensures SplitSignature(ImportCommand.receiver, ImportCommand.params, |ImportCommand.defaults|) ==
              (ImportRecord.positional, ImportRecord.kwarg)
  {
    assert ImportCommand.params[..1] == ["file"];
    assert ImportCommand.params[1..] == ["target", "quarter", "force"];
  }

  /** Each flag spec splits into its two flag strings and its option dictionary; `file` gets its help. */
  lemma ImportReconciles()
    ensures Reconcile(ImportCommand, ImportRecord.positional, ImportRecord.kwarg) == Success(ImportArguments)
  {
    ImportFlags();
    MapAllSucceeds(FlagOf(ImportCommand), ImportRecord.kwarg, ImportArguments[..3]);
    assert PositionalArgument(ImportCommand, "file") == Success(ImportArguments[3]);
    MapAllSucceeds(PositionalOf(ImportCommand), ImportRecord.positional, ImportArguments[3..]);
    assert ImportArguments[..3] + ImportArguments[3..] == ImportArguments;
  }

  lemma ImportFlags()
    ensures FlagArgument(ImportCommand, "target") == Success(ImportArguments[0])
    ensures FlagArgument(ImportCommand, "quarter") == Success(ImportArguments[1])
    ensures FlagArgument(ImportCommand, "force") == Success(ImportArguments[2])
  {
    assert ImportOptionTable["target"][..2] == [Text("-t"), Text("--target")];
    assert ImportOptionTable["quarter"][..2] == [Text("-q"), Text("--quarter")];
    assert ImportOptionTable["force"][..2] == [Text("-f"), Text("--force")];
  }

  /** `CommandImport` becomes the `import` subcommand with its docstring, its arguments and its triple. */
  lemma ImportRegisters()
    ensures Register(ImportCommand) == Success(ImportSubcommand)
  {
    ImportName();
    ImportSplit();
    ImportReconciles();
  }

  /**
   * `CommandShowTargets` has nothing to split, so neither of its None tables is consulted and it
   * becomes the argument-less `show-targets` subcommand.
   */
  lemma ShowTargetsRegisters()
    ensures SplitSignature(ShowTargetsCommand.receiver, ShowTargetsCommand.params, 0) == ([], [])
    ensures Reconcile(ShowTargetsCommand, [], []) == Success([])
    ensures Register(ShowTargetsCommand) == Success(ShowTargetsSubcommand)
  {
    ShowTargetsName();
  }

  /** `fn(config)` for `CommandImport`: the config is stored as `config` and nothing else is set. */
  method InstantiateImport(config: Config) returns (inst: CommandInstance)
    ensures inst.cls == ImportCommand && inst.fields == map["config" := config]
  {
    inst := new CommandInstance(ImportCommand, config);
  }

  /** `fn(config)` for `CommandShowTargets`: the config is stored as `spec`. */
  method InstantiateShowTargets(config: Config) returns (inst: CommandInstance)
    ensures inst.cls == ShowTargetsCommand && inst.fields == map["spec" := config]
  {
    inst := new CommandInstance(ShowTargetsCommand, config);
  }

  /**
   * Stand-ins for the package's other attributes, which are not command classes. Both come from
   * clrtools/commands/commands_impl/__init__.py, which is not part of this model: `AbstrCommand` is
   * taken to be the base class itself (selected by `issubclass` but rejected by name), and
   * `CommandError` an exception class that does not subclass `AbstrCommand`.
   */
  const AbstrCommandClass: Descriptor := Descriptor("AbstrCommand", None, true, "self", [], [], None, None, "config")
  const CommandErrorClass: Descriptor := Descriptor("CommandError", None, false, "self", [], [], None, None, "")

  /**
   * The attributes of `dir(commands)` that matter, in alphabetical order, with the two command
   * classes bound. The module's other dunder attributes (`__builtins__`, `__file__`, `__path__`, ...)
   * are not classes, so, like `__doc__`, they are never selected.
   */
  const CommandsModule: seq<Member> := [
    Member("AbstrCommand", Class(AbstrCommandClass)),
    Member("CommandError", Class(CommandErrorClass)),
    Member("CommandImport", Class(ImportCommand)),
    Member("CommandShowTargets", Class(ShowTargetsCommand)),
    Member("__doc__", NonClass),
    Member("commands_impl", NonClass)]

  lemma CommandsModuleEligible()
    ensures NamesReadable(CommandsModule)
    ensures Eligible(CommandsModule) == [ImportCommand, ShowTargetsCommand]
  {
    var ns := CommandsModule;
    ModuleMembersEligibility();
    forall k | 0 <= k < |ns| ensures ns[..k + 1] == ns[..k] + [ns[k]] { }
    assert ns[..0] == [];
    EligibleSnoc(ns[..0], ns[0]);
    EligibleSnoc(ns[..1], ns[1]);
    EligibleSnoc(ns[..2], ns[2]);
    EligibleSnoc(ns[..3], ns[3]);
    EligibleSnoc(ns[..4], ns[4]);
    EligibleSnoc(ns[..5], ns[5]);
    assert ns[..6] == ns;
  }

  /** Only the two command classes pass the filter; every class name is readable. */
  lemma ModuleMembersEligibility()
    ensures NamesReadable(CommandsModule)
    ensures !IsEligible(CommandsModule[0]) && !IsEligible(CommandsModule[1])
    ensures IsEligible(CommandsModule[2]) && IsEligible(CommandsModule[3])
    ensures !IsEligible(CommandsModule[4]) && !IsEligible(CommandsModule[5])
  {
    assert "CommandError"[0] == 'C';
  }

  lemma CommandsModuleRegisters()
    ensures NamesReadable(CommandsModule) && |Eligible(CommandsModule)| == 2
    ensures forall i :: 0 <= i < 2 ==>
              Register(Eligible(CommandsModule)[i]) == Success([ImportSubcommand, ShowTargetsSubcommand][i])
  {
    CommandsModuleEligible();
    forall i | 0 <= i < 2
      ensures Register(Eligible(CommandsModule)[i]) == Success([ImportSubcommand, ShowTargetsSubcommand][i])
    {
      if i == 0 { ImportRegisters(); } else { ShowTargetsRegisters(); }
    }
  }

  /**
   * The parser built from the package: exactly `import` and `show-targets`, in that order; the
   * base class, the exception class and the non-class attributes contribute nothing.
   */
  lemma CommandsModuleBuild()
    ensures BuildSubcommands(CommandsModule) == Success([ImportSubcommand, ShowTargetsSubcommand])
  {
    CommandsModuleRegisters();
    BuildFromEligible(CommandsModule, [ImportSubcommand, ShowTargetsSubcommand]);
  }

  /** `clrtools import ./data.csv -t GDWHCoA -q 20183` as argparse leaves it. */
  const ImportRun: ParsedOptions := ParsedOptions(
    config := DefaultConfigFile,
    name := DefaultSectionName,
    cmd := Some(ImportRecord),
    values := map["config" := PyStr(DefaultConfigFile), "name" := PyStr(DefaultSectionName),
                  "file" := PyStr("./data.csv"), "target" := PyStr("GDWHCoA"), "quarter" := PyInt(20183), "force" := PyBool(false)],
    raiseerr := false)

  /**
   * That run calls `CommandImport.__call__` with file, target, quarter and force bound to the parsed
   * values, and a `CommandError` it raises is reported, not re-raised. The constructor returns:
   * `CommandImport.__init__` only stores the config (clrtools/commands/commands_impl/load.py:47-48).
   */
  lemma ImportRunDispatch(body: (Descriptor, seq<PyValue>) -> CallOutcome, message: string)
    ensures Dispatched(ImportRecord, ImportRun, Returned, body) ==
              Translate(false, body(ImportCommand, [PyStr("./data.csv"), PyStr("GDWHCoA"), PyInt(20183), PyBool(false)]))
    ensures body(ImportCommand, [PyStr("./data.csv"), PyStr("GDWHCoA"), PyInt(20183), PyBool(false)]) == Raised(CommandError(message)) ==>
              Dispatched(ImportRecord, ImportRun, Returned, body) == Reported(message)
  {
    ImportSplit();
    ImportRunValues();
    DispatchedByName(ImportCommand, ImportRun, Returned, body, [PyStr("./data.csv"), PyStr("GDWHCoA"), PyInt(20183), PyBool(false)]);
  }

  lemma ImportRunValues()
    ensures Coherent(ImportRun)
    ensures Distinct(ImportCommand.params)
    ensures var values := [PyStr("./data.csv"), PyStr("GDWHCoA"), PyInt(20183), PyBool(false)];
      forall i :: 0 <= i < |values| ==> values[i] == GetAttr(ImportRun, ImportCommand.params[i])
  {
  }

  /**
   * `clrtools show-targets` calls `__call__` with no arguments at all; its constructor only stores
   * the config (clrtools/commands/commands_impl/targets.py:14-15).
   */
  lemma ShowTargetsRunDispatch(options: ParsedOptions, body: (Descriptor, seq<PyValue>) -> CallOutcome)
    requires options.cmd == Some(ShowTargetsRecord)
    ensures Dispatched(ShowTargetsRecord, options, Returned, body) == Translate(options.raiseerr, body(ShowTargetsCommand, []))
  {
    assert Marshal(ShowTargetsRecord, options) == Invocation([], map[]);
  }
}
