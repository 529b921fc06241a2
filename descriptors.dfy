/**
 * The values the CLI generator works on. Python reflection over command classes is replaced by
 * an explicit descriptor record per class; argparse's parsed namespace by a ParsedOptions record.
 */
module Descriptors {
  import opened Wrappers

  /** The Python values that reach a command: None, str, int and bool. */
  datatype PyValue = PyNone | PyStr(s: string) | PyInt(i: int) | PyBool(b: bool)

  /** The `type=` converter named in an option dictionary. */
  datatype ValueType = StrType | IntType

  /** The keyword dictionary passed to `add_argument(**kw)`; a key the dictionary lacks is None. */
  datatype ArgOptions = ArgOptions(
    default: Option<PyValue>,
    valueType: Option<ValueType>,
    required: Option<bool>,
    action: Option<string>,
    help: Option<string>)

  /** One element of a flag-spec tuple: a flag string such as "-t", or the final option dictionary. */
  datatype SpecItem = Text(s: string) | Options(opts: ArgOptions)

  /** A value of a class's `kwargs_opts` table: a tuple of flag strings ending in an option dictionary. */
  type FlagSpec = seq<SpecItem>

  /**
   * A command class as the generator sees it: its `__name__`, its docstring (None when the class
   * has none), whether it subclasses
   * `AbstrCommand`, the `__call__` parameter list after the receiver, the defaults of its trailing
   * parameters, its two class-level tables (None when the class sets them to None) and the
   * attribute under which its constructor stores the configuration it is given.
   */
  datatype Descriptor = Descriptor(
    name: string,
    doc: Option<string>,
    subclassesBase: bool,
    receiver: string,
    params: seq<string>,
    defaults: seq<PyValue>,
    kwargsOpts: Option<map<string, FlagSpec>>,
    positionalHelp: Option<map<string, string>>,
    ctorField: string)

  /** An attribute of the scanned commands module: a class, or anything else. */
  datatype Obj = Class(cls: Descriptor) | NonClass

  /** One entry of `dir(commands)`: the attribute name and the object it is bound to. */
  datatype Member = Member(attr: string, obj: Obj)

  /** The triple stored with `set_defaults(cmd=...)`: the class, its positional and its flag parameters. */
  datatype CmdRecord = CmdRecord(cls: Descriptor, positional: seq<string>, kwarg: seq<string>)

  /**
   * argparse's result for one command line: the global `--config` and `--name` values, the `cmd`
   * attribute (absent when no subcommand was chosen), every other parsed destination by name, and
   * the `raiseerr` switch that the dispatcher consults.
   */
  datatype ParsedOptions = ParsedOptions(
    config: string,
    name: string,
    cmd: Option<CmdRecord>,
    values: map<string, PyValue>,
    raiseerr: bool)

  /**
   * argparse keeps one namespace: `values` holds every parsed attribute that is a Python value, so
   * the global options appear there under their own names too, with the values `Config` is given.
   */
  predicate Coherent(options: ParsedOptions) {
    && "config" in options.values && options.values["config"] == PyStr(options.config)
    && "name" in options.values && options.values["name"] == PyStr(options.name)
  }

  /** `getattr(options, k, None)`. */
  function GetAttr(options: ParsedOptions, k: string): (v: PyValue)
    ensures k in options.values ==> v == options.values[k]
    ensures k !in options.values ==> v == PyNone
  {
    if k in options.values then options.values[k] else PyNone
  }

  /** A command parameter named after a global option reads that option's value. */
  lemma GlobalAttributes(options: ParsedOptions)
    requires Coherent(options)
    ensures GetAttr(options, "config") == PyStr(options.config)
    ensures GetAttr(options, "name") == PyStr(options.name)
  {
  }
}
