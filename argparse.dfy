/**
 * The part of argparse the generator drives, as an abstract registry: a top-level parser that
 * collects global arguments and subcommands, and subparsers that collect their own arguments and
 * the `cmd` default. Token parsing, type conversion and help output are not part of this model.
 */
module Argparse {
  import opened Wrappers
  import opened Descriptors

  /** One `add_argument` call: an optional argument (flag strings and keywords) or a positional. */
  datatype Argument =
    | OptionalArg(flags: seq<SpecItem>, opts: ArgOptions)
    | PositionalArg(dest: string, help: string)

  /** A subparser as registered under its parent: name, help, arguments in order, `cmd` default. */
  datatype Subcommand = Subcommand(name: string, help: Option<string>, arguments: seq<Argument>, cmd: Option<CmdRecord>)

  /** The parser returned by `subparsers.add_parser(name, help=...)`. */
  class SubParser {
    var name: string
    var help: Option<string>
    var arguments: seq<Argument>
    var cmd: Option<CmdRecord>

    constructor (name: string, help: Option<string>)
      ensures this.name == name && this.help == help && arguments == [] && cmd == None
    {
      this.name := name;
      this.help := help;
      arguments := [];
      cmd := None;
    }

    /** `add_argument`: the argument is appended; nothing else changes. */
    method AddArgument(a: Argument)
      modifies this
      ensures arguments == old(arguments) + [a]
      ensures name == old(name) && help == old(help) && cmd == old(cmd)
    {
      arguments := arguments + [a];
    }

    /** `set_defaults(cmd=c)`. */
    method SetDefaults(c: CmdRecord)
      modifies this
      ensures cmd == Some(c)
      ensures name == old(name) && help == old(help) && arguments == old(arguments)
    {
      cmd := Some(c);
    }

    /** What the parent parser holds for this subparser. */
    function Snapshot(): Subcommand
      reads this
    {
      Subcommand(name, help, arguments, cmd)
    }
  }

  /** The top-level `ArgumentParser(prog=...)` with its subparsers action. */
  class ArgumentParser {
    var prog: Option<string>
    var arguments: seq<Argument>
    var subcommands: seq<Subcommand>

    constructor (prog: Option<string>)
      ensures this.prog == prog && arguments == [] && subcommands == []
    {
      this.prog := prog;
      arguments := [];
      subcommands := [];
    }

    /** `add_argument` on the top-level parser. */
    method AddArgument(a: Argument)
      modifies this
      ensures arguments == old(arguments) + [a]
      ensures prog == old(prog) && subcommands == old(subcommands)
    {
      arguments := arguments + [a];
    }

    /** Registers a finished subparser after the ones registered before it. */
    method AddParser(sub: SubParser)
      modifies this
      ensures subcommands == old(subcommands) + [sub.Snapshot()]
      ensures prog == old(prog) && arguments == old(arguments)
    {
      subcommands := subcommands + [sub.Snapshot()];
    }
  }
}
