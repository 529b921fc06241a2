/**
 * `CommandLine.run_cmd` and `CommandLine.main`: with no subcommand chosen the run stops with a
 * usage error; otherwise a `Config` is built from the global options, the command class is
 * instantiated with it and called with the positional values in recorded order and the flags by
 * name, and a `CommandError` is re-raised or reported as `raiseerr` says.
 */
module Dispatch {
  import opened Wrappers
  import opened Descriptors
  import opened Signature
  import opened Argparse
  import opened Registration
  import opened Generation
  import opened Configuration

  /** The exceptions the dispatcher distinguishes. */
  datatype PyException =
    | CommandError(message: string)
    | TypeError(reason: BindError)
    | ConfigFailure(error: ConfigError)
    | OtherError(kind: string)

  /** Why Python refuses to bind a call to `__call__`'s parameters. */
  datatype BindError = TooManyPositional | UnexpectedKeyword | MultipleValues | MissingArgument

  /** What the command's own `__call__` body does once its arguments are bound. */
  datatype CallOutcome = Returned | Raised(failure: PyException)

  /** How a run ends. */
  datatype Exit =
    | Completed
    | UsageError(message: string)   // parser.error: usage on stderr, exit status 2
    | Reported(message: string)     // the error reported on stderr
    | Propagated(failure: PyException)  // the exception leaves main

  /** `fn_inst(*args, **kwargs)` before binding. */
  datatype Invocation = Invocation(args: seq<PyValue>, kwargs: map<string, PyValue>)

  /** The message of `parser.error` when no subcommand was chosen. */
  const TooFewArguments: string := "too few arguments"

  predicate Distinct(params: seq<string>) {
    forall i, j :: 0 <= i < j < |params| ==> params[i] != params[j]
  }

  /** The call's arguments: `getattr(options, k, None)` for each recorded positional, then each flag by name. */
  function Marshal(rec: CmdRecord, options: ParsedOptions): (inv: Invocation)
    ensures |inv.args| == |rec.positional|
    ensures forall i :: 0 <= i < |inv.args| ==> inv.args[i] == GetAttr(options, rec.positional[i])
    ensures forall k :: k in inv.kwargs <==> k in rec.kwarg
    ensures forall k :: k in inv.kwargs ==> inv.kwargs[k] == GetAttr(options, k)
  {
    Invocation(seq(|rec.positional|, i requires 0 <= i < |rec.positional| => GetAttr(options, rec.positional[i])),
               map k | k in rec.kwarg :: GetAttr(options, k))
  }

  /**
   * Python's binding of positional and keyword arguments to the parameters after the receiver,
   * where the last `|defaults|` parameters have defaults. The result holds one value per parameter.
   * The reasons are checked in CPython's order: the keywords first (a foreign name, then a
   * parameter the positionals already filled), then the positional count, then missing parameters.
   */
  function Bind(params: seq<string>, defaults: seq<PyValue>, inv: Invocation): (r: Result<seq<PyValue>, BindError>)
    ensures r.Success? ==> |inv.args| <= |params| == |r.value|
    ensures r.Success? ==> forall i :: 0 <= i < |inv.args| ==> r.value[i] == inv.args[i]
    ensures r.Success? ==> forall i :: |inv.args| <= i < |params| && params[i] in inv.kwargs ==> r.value[i] == inv.kwargs[params[i]]
    ensures r.Failure? <==>
      || |inv.args| > |params|
      || (exists k :: k in inv.kwargs && k !in params)
      || (exists i :: 0 <= i < |inv.args| && params[i] in inv.kwargs)
      || (exists i :: |inv.args| <= i < |params| - |defaults| && params[i] !in inv.kwargs)
    ensures (exists k :: k in inv.kwargs && k !in params) ==> r == Failure(UnexpectedKeyword)
    ensures r == Failure(TooManyPositional) ==> inv.kwargs.Keys == {}
    ensures r == Failure(MissingArgument) ==> |inv.args| <= |params| && forall k :: k in inv.kwargs ==> k in params
  {
    var n, d := |params|, |defaults|;
    if exists k :: k in inv.kwargs && k !in params then Failure(UnexpectedKeyword)
    else if exists i :: 0 <= i < |inv.args| && i < n && params[i] in inv.kwargs then Failure(MultipleValues)
    else if |inv.args| > n then Failure(TooManyPositional)
    else if exists i :: |inv.args| <= i < n - d && params[i] !in inv.kwargs then Failure(MissingArgument)
    else
      Success(seq(n, i requires 0 <= i < n =>
        if i < |inv.args| then inv.args[i]
        else if params[i] in inv.kwargs then inv.kwargs[params[i]]
        else defaults[i - (n - d)]))
  }

  /**
   * The recorded split and the marshalled call fit together: every parameter of `__call__` is bound
   * to the parsed value of the same name (None when argparse has none), so the signature's own
   * defaults are never used.
   */
  lemma MarshalBindsByName(cls: Descriptor, options: ParsedOptions)
    requires Distinct(cls.params) && |cls.defaults| <= |cls.params|
    ensures var split := SplitSignature(cls.receiver, cls.params, |cls.defaults|);
      var r := Bind(cls.params, cls.defaults, Marshal(CmdRecord(cls, split.0, split.1), options));
      && r.Success? && |r.value| == |cls.params|
      && forall i :: 0 <= i < |cls.params| ==> r.value[i] == GetAttr(options, cls.params[i])
  {
    var params, n, d := cls.params, |cls.params|, |cls.defaults|;
    var split := SplitSignature(cls.receiver, params, d);
    var inv := Marshal(CmdRecord(cls, split.0, split.1), options);
    MarshalledShape(params, split.0, split.1, inv, options);
    var r := Bind(params, cls.defaults, inv);
    assert r.Success?;
    forall i | 0 <= i < n ensures r.value[i] == GetAttr(options, params[i]) {
      if i >= n - d {
        assert params[i] in inv.kwargs;
      }
    }
  }

  /**
   * Running a recorded triple therefore hands the command's body exactly the parsed values of its
   * parameters, in signature order, once its constructor has returned.
   */
  lemma DispatchedByName(cls: Descriptor, options: ParsedOptions, construct: CallOutcome,
                         body: (Descriptor, seq<PyValue>) -> CallOutcome, values: seq<PyValue>)
    requires Distinct(cls.params) && |cls.defaults| <= |cls.params|
    requires |values| == |cls.params| && forall i :: 0 <= i < |values| ==> values[i] == GetAttr(options, cls.params[i])
    ensures var split := SplitSignature(cls.receiver, cls.params, |cls.defaults|);
      Dispatched(CmdRecord(cls, split.0, split.1), options, construct, body) ==
        Translate(options.raiseerr, if construct.Raised? then construct else body(cls, values))
  {
    var split := SplitSignature(cls.receiver, cls.params, |cls.defaults|);
    MarshalBindsByName(cls, options);
    var r := Bind(cls.params, cls.defaults, Marshal(CmdRecord(cls, split.0, split.1), options));
    assert r.value == values;
  }

  /**
   * `f(a)` called as `f(1, 2, b=3)`: the foreign keyword is reported before the surplus positional,
   * and with the foreign keyword gone, the surplus positional is reported.
   */
  lemma BindKeywordsFirst()
    ensures Bind(["a"], [], Invocation([PyInt(1), PyInt(2)], map["b" := PyInt(3)])) == Failure(UnexpectedKeyword)
    ensures Bind(["a"], [], Invocation([PyInt(1), PyInt(2)], map[])) == Failure(TooManyPositional)
    ensures Bind(["a"], [], Invocation([PyInt(1)], map["a" := PyInt(3)])) == Failure(MultipleValues)
  {
    var foreign := map["b" := PyInt(3)];
    assert "b" in foreign && "b" !in ["a"];
    var doubled := map["a" := PyInt(3)];
    assert forall k :: k in doubled ==> k in ["a"];
    assert ["a"][0] in doubled;
  }

  /** The marshalled call of a split parameter list: no keyword is foreign, doubled or missing. */
  lemma MarshalledShape(params: seq<string>, positional: seq<string>, kwarg: seq<string>, inv: Invocation, options: ParsedOptions)
    requires Distinct(params) && positional + kwarg == params
    requires |inv.args| == |positional| && (forall i :: 0 <= i < |inv.args| ==> inv.args[i] == GetAttr(options, positional[i]))
    requires (forall k :: k in inv.kwargs <==> k in kwarg) && (forall k :: k in inv.kwargs ==> inv.kwargs[k] == GetAttr(options, k))
    ensures forall k :: k in inv.kwargs ==> k in params
    ensures forall i :: 0 <= i < |positional| ==> params[i] !in inv.kwargs && inv.args[i] == GetAttr(options, params[i])
    ensures forall i :: |positional| <= i < |params| ==> params[i] in inv.kwargs && inv.kwargs[params[i]] == GetAttr(options, params[i])
  {
    var p := |positional|;
    forall k | k in inv.kwargs ensures k in params {
      var j :| 0 <= j < |kwarg| && kwarg[j] == k;
      assert params[p + j] == k;
    }
    forall i | 0 <= i < p ensures params[i] !in inv.kwargs && inv.args[i] == GetAttr(options, params[i]) {
      assert params[i] == positional[i];
      forall j | 0 <= j < |kwarg| ensures kwarg[j] != params[i] {
        assert kwarg[j] == params[p + j];
      }
    }
    forall i | p <= i < |params| ensures params[i] in inv.kwargs {
      assert kwarg[i - p] == params[i];
    }
  }

  /** The `except commands.CommandError` clause: re-raise when `raiseerr` is set, report otherwise. */
  function Translate(raiseerr: bool, outcome: CallOutcome): (e: Exit)
    ensures outcome == Returned ==> e == Completed
    ensures outcome.Raised? && outcome.failure.CommandError? ==>
              (if raiseerr then e == Propagated(outcome.failure) else e == Reported(outcome.failure.message))
    ensures outcome.Raised? && !outcome.failure.CommandError? ==> e == Propagated(outcome.failure)
  {
    match outcome
    case Returned => Completed
    case Raised(CommandError(m)) => if raiseerr then Propagated(CommandError(m)) else Reported(m)
    case Raised(f) => Propagated(f)
  }

  /**
   * The end of `run_cmd` for a recorded triple, given how the constructor `fn(config)` ends and what
   * the command's body does with the values bound to its parameters. Both run inside the `try`, so
   * an exception from either is translated; a binding failure is a TypeError, which the handler
   * does not catch.
   */
  function Dispatched(rec: CmdRecord, options: ParsedOptions, construct: CallOutcome,
                      body: (Descriptor, seq<PyValue>) -> CallOutcome): (e: Exit)
    ensures !e.UsageError?
    ensures construct.Raised? ==> e == Translate(options.raiseerr, construct)
    ensures construct == Returned && Bind(rec.cls.params, rec.cls.defaults, Marshal(rec, options)).Failure? ==>
              e == Propagated(TypeError(Bind(rec.cls.params, rec.cls.defaults, Marshal(rec, options)).error))
    ensures e.Reported? ==> !options.raiseerr
    ensures e.Propagated? && e.failure.CommandError? ==> options.raiseerr
  {
    if construct.Raised? then Translate(options.raiseerr, construct)
    else match Bind(rec.cls.params, rec.cls.defaults, Marshal(rec, options))
      case Failure(e) => Propagated(TypeError(e))
      case Success(values) => Translate(options.raiseerr, body(rec.cls, values))
  }

  /** The object `fn(config)` creates: the constructor stores the config under its own attribute. */
  class CommandInstance {
    const cls: Descriptor
    var fields: map<string, Config>

    constructor (cls: Descriptor, config: Config)
      ensures this.cls == cls && fields == map[cls.ctorField := config]
    {
      this.cls := cls;
      fields := map[cls.ctorField := config];
    }
  }

  class CommandLine {
    var parser: ArgumentParser

    constructor (parser: ArgumentParser)
      ensures this.parser == parser
    {
      this.parser := parser;
    }

    /**
     * `run_cmd`: instantiate the recorded class with the config (`construct` is how its constructor
     * ends), call the instance with the marshalled arguments and translate the outcome. No instance
     * exists when the constructor raises.
     */
    method RunCmd(config: Config, options: ParsedOptions, construct: CallOutcome,
                  body: (Descriptor, seq<PyValue>) -> CallOutcome)
      returns (exit: Exit, inst: Option<CommandInstance>)
      requires options.cmd.Some?
      ensures exit == Dispatched(options.cmd.value, options, construct, body)
      ensures construct.Raised? <==> inst.None?
      ensures inst.Some? ==>
                && fresh(inst.value)
                && inst.value.cls == options.cmd.value.cls
                && inst.value.fields == map[options.cmd.value.cls.ctorField := config]
    {
      var rec := options.cmd.value;
      if construct.Raised? {
        return Translate(options.raiseerr, construct), None;
      }
      var created := new CommandInstance(rec.cls, config);
      inst := Some(created);
      var bound := Bind(rec.cls.params, rec.cls.defaults, Marshal(rec, options));
      if bound.Failure? {
        return Propagated(TypeError(bound.error)), inst;
      }
      exit := Translate(options.raiseerr, body(rec.cls, bound.value));
    }

    /**
     * `main` after `parse_args`: no `cmd` stops with the usage error before any `Config` exists;
     * otherwise `Config(file_=options.config, ini_section=options.name, cmd_opts=options)` is built
     * (its file's directory and contents given as parameters) and the command run with it.
     */
    method Execute(options: ParsedOptions, absDir: string, fileDefaults: map<string, string>,
                   fileSections: map<string, map<string, string>>, construct: CallOutcome,
                   body: (Descriptor, seq<PyValue>) -> CallOutcome)
      returns (exit: Exit, cfg: Option<Config>, inst: Option<CommandInstance>)
      requires Coherent(options) && DefaultSection !in fileSections
      ensures options.cmd.None? ==> exit == UsageError(TooFewArguments) && cfg.None? && inst.None?
      ensures options.cmd.Some? && options.config == "" && options.name == DefaultSection ==>
                exit == Propagated(ConfigFailure(InvalidSectionName(DefaultSection))) && cfg.None? && inst.None?
      ensures options.cmd.Some? && (options.config != "" || options.name != DefaultSection) ==>
                && exit == Dispatched(options.cmd.value, options, construct, body)
                && cfg.Some? && fresh(cfg.value)
                && cfg.value.configFileName == Some(options.config)
                && cfg.value.configIniSection == options.name
                && cfg.value.cmdOpts == Some(options)
                && cfg.value.configArgs == map[HereKey := Here(Some(options.config), absDir)]
                && cfg.value.fileConfig == InitialStore(Some(options.config), options.name, cfg.value.configArgs,
                                                        fileDefaults, fileSections)
                && (construct.Raised? <==> inst.None?)
                && (inst.Some? ==> inst.value.fields == map[options.cmd.value.cls.ctorField := cfg.value])
    {
      if options.cmd.None? {
        return UsageError(TooFewArguments), None, None;
      }
      var config := NewConfig(Some(options.config), options.name, Some(options), map[], absDir, fileDefaults, fileSections);
      if config.Failure? {
        return Propagated(ConfigFailure(config.error)), None, None;
      }
      cfg := Some(config.value);
      exit, inst := RunCmd(config.value, options, construct, body);
    }
  }

  /** `CommandLine(prog)`: the parser `_generate_args` builds, or the error that aborted it. */
  method NewCommandLine(prog: Option<string>, ns: seq<Member>) returns (r: Result<CommandLine, SetupError>)
    ensures r.Success? <==> BuildSubcommands(ns).Success?
    ensures r.Success? ==>
              && fresh(r.value) && fresh(r.value.parser) && r.value.parser.prog == prog
              && r.value.parser.subcommands == BuildSubcommands(ns).value
    ensures r.Failure? ==> r.error == BuildSubcommands(ns).error
  {
    var parser :- GenerateArgs(prog, ns);
    var cli := new CommandLine(parser);
    r := Success(cli);
  }
}
