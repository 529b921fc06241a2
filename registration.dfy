/**
 * `add_options2`: every flag parameter must have an entry in the class's `kwargs_opts` and every
 * positional parameter one in its `positional_help`; the flags are registered first, then the
 * positionals in signature order. A missing entry is a failed assertion, which aborts building
 * the whole command line.
 */
module Registration {
  import opened Wrappers
  import opened Descriptors
  import opened Argparse
  import Naming

  /** Everything that stops the command line from being built. */
  datatype SetupError =
    | NameRejected(reason: Naming.NameError)  // `_transform_command_name` assertion
    | EmptyClassName                          // `__name__[0]` on an empty name
    | NoOptionTable(arg: string)              // `kwargs_opts` is None
    | MissingOptionSpec(arg: string)          // "Missing spec for option ..."
    | MalformedOptionSpec(arg: string)        // empty tuple, or its last element is not a dict
    | NoPositionalTable(arg: string)          // `positional_help` is None
    | MissingPositionalSpec(arg: string)      // "Missing spec for arg ..."

  /** `args[0:-1], args[-1]` of a flag-spec tuple, when `args[-1]` exists and can be `**`-expanded. */
  function SplitFlagSpec(spec: FlagSpec): (r: Option<(seq<SpecItem>, ArgOptions)>)
    ensures r.Some? <==> spec != [] && spec[|spec| - 1].Options?
    ensures r.Some? ==> r.value.0 + [Options(r.value.1)] == spec
  {
    if spec == [] then None
    else match spec[|spec| - 1]
      case Options(kw) => Some((spec[..|spec| - 1], kw))
      case Text(_) => None
  }

  predicate HasFlagSpec(cls: Descriptor, arg: string) {
    && cls.kwargsOpts.Some?
    && arg in cls.kwargsOpts.value
    && SplitFlagSpec(cls.kwargsOpts.value[arg]).Some?
  }

  predicate HasPositionalHelp(cls: Descriptor, arg: string) {
    cls.positionalHelp.Some? && arg in cls.positionalHelp.value
  }

  /** The `add_argument(*args, **kw)` call for one flag parameter. */
  function FlagArgument(cls: Descriptor, arg: string): (r: Result<Argument, SetupError>)
    ensures r.Success? <==> HasFlagSpec(cls, arg)
    ensures r.Success? ==>
              r.value.OptionalArg? && r.value.flags + [Options(r.value.opts)] == cls.kwargsOpts.value[arg]
  {
    if cls.kwargsOpts.None? then Failure(NoOptionTable(arg))
    else if arg !in cls.kwargsOpts.value then Failure(MissingOptionSpec(arg))
    else match SplitFlagSpec(cls.kwargsOpts.value[arg])
      case None => Failure(MalformedOptionSpec(arg))
      case Some((args, kw)) => Success(OptionalArg(args, kw))
  }

  /** The `add_argument(arg, help=...)` call for one positional parameter. */
  function PositionalArgument(cls: Descriptor, arg: string): (r: Result<Argument, SetupError>)
    ensures r.Success? <==> HasPositionalHelp(cls, arg)
    ensures r.Success? ==> r.value == PositionalArg(arg, cls.positionalHelp.value[arg])
  {
    if cls.positionalHelp.None? then Failure(NoPositionalTable(arg))
    else if arg !in cls.positionalHelp.value then Failure(MissingPositionalSpec(arg))
    else Success(PositionalArg(arg, cls.positionalHelp.value[arg]))
  }

  function FlagOf(cls: Descriptor): string -> Result<Argument, SetupError> {
    arg => FlagArgument(cls, arg)
  }

  function PositionalOf(cls: Descriptor): string -> Result<Argument, SetupError> {
    arg => PositionalArgument(cls, arg)
  }

  /**
   * The arguments `add_options2` registers, or the first failed assertion. It succeeds exactly when
   * every flag has a well-formed spec and every positional has a help entry; the registered list is
   * then every flag's split spec, in signature order, followed by every positional with its help,
   * in signature order.
   */
  function Reconcile(cls: Descriptor, positional: seq<string>, kwarg: seq<string>)
    : (r: Result<seq<Argument>, SetupError>)
    ensures r.Success? <==>
              && (forall i :: 0 <= i < |kwarg| ==> HasFlagSpec(cls, kwarg[i]))
              && (forall i :: 0 <= i < |positional| ==> HasPositionalHelp(cls, positional[i]))
    ensures r.Success? ==>
              && |r.value| == |kwarg| + |positional|
              && (forall i :: 0 <= i < |kwarg| ==>
                    HasFlagSpec(cls, kwarg[i]) && r.value[i].OptionalArg? &&
                    r.value[i].flags + [Options(r.value[i].opts)] == cls.kwargsOpts.value[kwarg[i]])
              && (forall i :: 0 <= i < |positional| ==>
                    HasPositionalHelp(cls, positional[i]) &&
                    r.value[|kwarg| + i] == PositionalArg(positional[i], cls.positionalHelp.value[positional[i]]))
    ensures r.Failure? ==>
              || (exists i :: 0 <= i < |kwarg| && FlagArgument(cls, kwarg[i]) == Failure(r.error) &&
                                (forall j :: 0 <= j < i ==> HasFlagSpec(cls, kwarg[j])))
              || ((forall i :: 0 <= i < |kwarg| ==> HasFlagSpec(cls, kwarg[i])) &&
                  exists i :: 0 <= i < |positional| && PositionalArgument(cls, positional[i]) == Failure(r.error) &&
                                (forall j :: 0 <= j < i ==> HasPositionalHelp(cls, positional[j])))
  {
    var flags :- MapAll(FlagOf(cls), kwarg);
    var pos :- MapAll(PositionalOf(cls), positional);
    Success(flags + pos)
  }

  /**
   * `add_options2` itself: registers on `parser` one argument per flag, then one per positional,
   * stopping at the first missing spec. On success the parser's arguments are extended by exactly
   * the reconciled list; on failure the error is the one reconciliation reports.
   */
  method AddOptions(parser: SubParser, positional: seq<string>, kwarg: seq<string>, cls: Descriptor)
    returns (r: Result<(), SetupError>)
    modifies parser
    ensures parser.name == old(parser.name) && parser.help == old(parser.help) && parser.cmd == old(parser.cmd)
    ensures r.Success? <==> Reconcile(cls, positional, kwarg).Success?
    ensures r.Success? ==> parser.arguments == old(parser.arguments) + Reconcile(cls, positional, kwarg).value
    ensures r.Failure? ==> r.error == Reconcile(cls, positional, kwarg).error
  {
    r := AddEach(parser, kwarg, FlagOf(cls));
    if r.Success? {
      r := AddEach(parser, positional, PositionalOf(cls));
    }
  }

  /**
   * One loop of `add_options2`: for each name in order, the assertion that it has a spec (a failure
   * of `argOf`), then the `add_argument` call built from that spec.
   */
  method AddEach(parser: SubParser, names: seq<string>, argOf: string -> Result<Argument, SetupError>)
    returns (r: Result<(), SetupError>)
    modifies parser
    ensures parser.name == old(parser.name) && parser.help == old(parser.help) && parser.cmd == old(parser.cmd)
    ensures r.Success? <==> MapAll(argOf, names).Success?
    ensures r.Success? ==> parser.arguments == old(parser.arguments) + MapAll(argOf, names).value
    ensures r.Failure? ==> r.error == MapAll(argOf, names).error
    ensures r.Failure? ==>
              exists k :: (&& 0 <= k < |names|
                           && MapAll(argOf, names[..k]).Success?
                           && argOf(names[k]).Failure?
                           && parser.arguments == old(parser.arguments) + MapAll(argOf, names[..k]).value)
  {
    for i := 0 to |names|
      invariant MapAll(argOf, names[..i]).Success?
      invariant parser.arguments == old(parser.arguments) + MapAll(argOf, names[..i]).value
      invariant parser.name == old(parser.name) && parser.help == old(parser.help) && parser.cmd == old(parser.cmd)
    {
      MapAllStep(argOf, names, i);
      var a := argOf(names[i]);
      if a.Failure? {
        MapAllStops(argOf, names, i + 1);
        return Failure(a.error);
      }
      parser.AddArgument(a.value);
    }
    assert names[..|names|] == names;
    r := Success(());
  }
}
