/**
 * `CommandLine._generate_args`: the top-level parser with its two global options, then one
 * subparser per eligible command class of the scanned module, in `dir()` order, each named by
 * `_transform_command_name`, holding the arguments `add_options2` registers and the
 * `(cls, positional, kwarg)` triple as its `cmd` default. Any failure aborts the whole build.
 */
module Generation {
  import opened Wrappers
  import opened Descriptors
  import opened Argparse
  import opened Registration
  import opened Naming
  import opened Signature

  /** The base class every command subclasses; it is itself never a command. */
  const BaseClassName: string := "AbstrCommand"

  /** Default of the global `-c/--config` option. */
  const DefaultConfigFile: string := "clrtools.ini"

  /** Default of the global `-n/--name` option. */
  const DefaultSectionName: string := "data-warehouse"

  const ConfigOption: Argument :=
    OptionalArg([Text("-c"), Text("--config")],
                ArgOptions(Some(PyStr(DefaultConfigFile)), Some(StrType), None, None, Some("Alternate config file")))

  const NameOption: Argument :=
    OptionalArg([Text("-n"), Text("--name")],
                ArgOptions(Some(PyStr(DefaultSectionName)), Some(StrType), None, None,
                           Some("Name of section in .ini file to use for the config")))

  /** A member the scan turns into a subcommand. */
  predicate IsEligible(m: Member) {
    && m.obj.Class?
    && m.obj.cls.name != []
    && m.obj.cls.name[0] != '_'
    && m.obj.cls.name != BaseClassName
    && m.obj.cls.subclassesBase
  }

  /** The classes of the eligible members, in the order of the scan. */
  function Eligible(ns: seq<Member>): seq<Descriptor> {
    if ns == [] then []
    else
      var last := ns[|ns| - 1];
      Eligible(ns[..|ns| - 1]) + if IsEligible(last) then [last.obj.cls] else []
  }

  /** One more member of the scan adds its class exactly when it is eligible. */
  lemma EligibleSnoc(ns: seq<Member>, m: Member)
    ensures Eligible(ns + [m]) == Eligible(ns) + if IsEligible(m) then [m.obj.cls] else []
  {
    assert (ns + [m])[..|ns|] == ns;
  }

  /** Every class in the scan has a name whose first character can be read. */
  predicate NamesReadable(ns: seq<Member>) {
    forall i :: 0 <= i < |ns| ==> ns[i].obj.Class? ==> ns[i].obj.cls.name != []
  }

  /**
   * The filter of the scan loop, tested in the source's order: `inspect.isclass`, then
   * `__name__[0] != "_"` (which fails on an empty name), the base-class name and `issubclass`.
   */
  function Candidate(m: Member): (r: Result<Option<Descriptor>, SetupError>)
    ensures r.Failure? <==> m.obj.Class? && m.obj.cls.name == []
    ensures r.Success? ==> (r.value.Some? <==> IsEligible(m))
    ensures r.Success? && r.value.Some? ==> r.value.value == m.obj.cls
  {
    match m.obj
    case NonClass => Success(None)
    case Class(cls) =>
      if cls.name == [] then Failure(EmptyClassName)
      else if cls.name[0] != '_' && cls.name != BaseClassName && cls.subclassesBase then Success(Some(cls))
      else Success(None)
  }

  /** The subcommand one eligible class contributes, or why it cannot be registered. */
  function Register(cls: Descriptor): (r: Result<Subcommand, SetupError>)
    ensures var split := SplitSignature(cls.receiver, cls.params, |cls.defaults|);
      && (r.Success? <==> TransformCommandName(cls.name).Success? && Reconcile(cls, split.0, split.1).Success?)
      && (r.Success? ==>
            && r.value.name == TransformCommandName(cls.name).value
            && r.value.help == cls.doc
            && r.value.arguments == Reconcile(cls, split.0, split.1).value
            && r.value.cmd == Some(CmdRecord(cls, split.0, split.1)))
  {
    var split := SplitSignature(cls.receiver, cls.params, |cls.defaults|);
    var positional, kwarg := split.0, split.1;
    match TransformCommandName(cls.name)
    case Failure(e) => Failure(NameRejected(e))
    case Success(name) =>
      var arguments :- Reconcile(cls, positional, kwarg);
      Success(Subcommand(name, cls.doc, arguments, Some(CmdRecord(cls, positional, kwarg))))
  }

  /** The subcommands the scan of `ns` registers, or the first failure. */
  function BuildSubcommands(ns: seq<Member>): (r: Result<seq<Subcommand>, SetupError>)
    ensures r.Success? ==> |r.value| == |Eligible(ns)|
    ensures r.Success? ==> forall i :: 0 <= i < |r.value| ==> r.value[i].cmd.Some?
  {
    if ns == [] then Success([])
    else
      var registered :- BuildSubcommands(ns[..|ns| - 1]);
      var candidate :- Candidate(ns[|ns| - 1]);
      match candidate
      case None => Success(registered)
      case Some(cls) =>
        var sub :- Register(cls);
        Success(registered + [sub])
  }

  /** One more member of the scan: the build so far, then that member's candidate and registration. */
  lemma BuildSnoc(ns: seq<Member>, m: Member)
    ensures var b, c := BuildSubcommands(ns + [m]), Candidate(m);
      if BuildSubcommands(ns).Failure? then b == BuildSubcommands(ns)
      else if c.Failure? then b == Failure(c.error)
      else if c.value.None? then b == BuildSubcommands(ns)
      else if Register(c.value.value).Failure? then b == Failure(Register(c.value.value).error)
      else b == Success(BuildSubcommands(ns).value + [Register(c.value.value).value])
  {
    assert (ns + [m])[..|ns|] == ns;
  }

  /** Once the scan has failed on a prefix, the whole scan fails with the same error. */
  lemma {:induction false} BuildStops(ns: seq<Member>, k: nat)
    requires k <= |ns| && BuildSubcommands(ns[..k]).Failure?
    decreases |ns|
    ensures BuildSubcommands(ns) == BuildSubcommands(ns[..k])
  {
    if k < |ns| {
      var init := ns[..|ns| - 1];
      assert init[..k] == ns[..k];
      BuildStops(init, k);
    } else {
      assert ns[..k] == ns;
    }
  }

  lemma NamesReadableSnoc(ns: seq<Member>, m: Member)
    ensures NamesReadable(ns + [m]) <==> NamesReadable(ns) && (m.obj.Class? ==> m.obj.cls.name != [])
  {
    if NamesReadable(ns) && (m.obj.Class? ==> m.obj.cls.name != []) {
      forall i | 0 <= i < |ns + [m]| && (ns + [m])[i].obj.Class?
        ensures (ns + [m])[i].obj.cls.name != []
      {
        if i < |ns| { assert (ns + [m])[i] == ns[i]; }
      }
    }
    if NamesReadable(ns + [m]) {
      forall i | 0 <= i < |ns| && ns[i].obj.Class?
        ensures ns[i].obj.cls.name != []
      {
        assert (ns + [m])[i] == ns[i];
      }
      assert (ns + [m])[|ns|] == m;
    }
  }

  /**
   * The build succeeds exactly when every class name is readable and every eligible class
   * registers; it is then the eligible classes' subcommands in scan order. So one bad command
   * class aborts the whole command line, and no ineligible member contributes anything.
   */
  lemma {:induction false} BuildRegistersEligible(ns: seq<Member>)
    ensures BuildSubcommands(ns).Success? <==> NamesReadable(ns) && MapAll(Register, Eligible(ns)).Success?
    ensures BuildSubcommands(ns).Success? ==> BuildSubcommands(ns).value == MapAll(Register, Eligible(ns)).value
  {
    if ns != [] {
      var init, last := ns[..|ns| - 1], ns[|ns| - 1];
      assert ns == init + [last];
      BuildRegistersEligible(init);
      NamesReadableSnoc(init, last);
      BuildSnoc(init, last);
      if IsEligible(last) {
        assert Eligible(ns) == Eligible(init) + [last.obj.cls];
        MapAllSnoc(Register, Eligible(init), last.obj.cls);
      } else {
        assert Eligible(ns) == Eligible(init);
      }
    }
  }

  /** A scan whose class names are readable and whose eligible classes all register builds their subcommands. */
  lemma BuildFromEligible(ns: seq<Member>, subs: seq<Subcommand>)
    requires NamesReadable(ns) && |subs| == |Eligible(ns)|
    requires forall i :: 0 <= i < |subs| ==> Register(Eligible(ns)[i]) == Success(subs[i])
    ensures BuildSubcommands(ns) == Success(subs)
  {
    MapAllSucceeds(Register, Eligible(ns), subs);
    BuildRegistersEligible(ns);
  }

  /** The registered subcommands, one per eligible class, named by derivation, carrying the triple. */
  lemma RegisteredSubcommand(ns: seq<Member>, i: nat)
    requires BuildSubcommands(ns).Success? && i < |BuildSubcommands(ns).value|
    ensures |BuildSubcommands(ns).value| == |Eligible(ns)|
    ensures var sub, cls := BuildSubcommands(ns).value[i], Eligible(ns)[i];
      var split := SplitSignature(cls.receiver, cls.params, |cls.defaults|);
      && cls.name != [] && cls.name[0] != '_' && cls.name != BaseClassName && cls.subclassesBase
      && TransformCommandName(cls.name) == Success(sub.name)
      && sub.help == cls.doc
      && Reconcile(cls, split.0, split.1) == Success(sub.arguments)
      && sub.cmd == Some(CmdRecord(cls, split.0, split.1))
  {
    BuildRegistersEligible(ns);
    EligibleAreEligible(ns, i);
  }

  lemma {:induction false} EligibleAreEligible(ns: seq<Member>, i: nat)
    requires i < |Eligible(ns)|
    ensures var cls := Eligible(ns)[i];
      cls.name != [] && cls.name[0] != '_' && cls.name != BaseClassName && cls.subclassesBase
  {
    var init := ns[..|ns| - 1];
    if i < |Eligible(init)| {
      EligibleAreEligible(init, i);
    }
  }

  /**
   * One iteration's registration: `add_parser` under the derived name with the docstring as
   * help, `add_options2`, then `set_defaults(cmd=...)`. On failure the parser is left as it was.
   */
  method AddCommand(parser: ArgumentParser, cls: Descriptor) returns (r: Result<(), SetupError>)
    modifies parser
    ensures r.Success? <==> Register(cls).Success?
    ensures r.Success? ==> parser.subcommands == old(parser.subcommands) + [Register(cls).value]
    ensures r.Failure? ==> r.error == Register(cls).error && parser.subcommands == old(parser.subcommands)
    ensures parser.prog == old(parser.prog) && parser.arguments == old(parser.arguments)
  {
    var split := SplitSignature(cls.receiver, cls.params, |cls.defaults|);
    var positional, kwarg := split.0, split.1;
    var name := TransformCommandName(cls.name);
    if name.Failure? {
      return Failure(NameRejected(name.error));
    }
    var sub := new SubParser(name.value, cls.doc);
    var added := AddOptions(sub, positional, kwarg, cls);
    if added.Failure? {
      return Failure(added.error);
    }
    sub.SetDefaults(CmdRecord(cls, positional, kwarg));
    assert sub.Snapshot() == Register(cls).value;
    parser.AddParser(sub);
    r := Success(());
  }

  /**
   * The loop of `_generate_args`. On success the parser holds the two global options and exactly
   * the subcommands `BuildSubcommands` describes; otherwise the error is the scan's first failure
   * and no parser is handed out.
   */
  method GenerateArgs(prog: Option<string>, ns: seq<Member>) returns (r: Result<ArgumentParser, SetupError>)
    ensures r.Success? <==> BuildSubcommands(ns).Success?
    ensures r.Success? ==>
              && fresh(r.value)
              && r.value.prog == prog
              && r.value.arguments == [ConfigOption, NameOption]
              && r.value.subcommands == BuildSubcommands(ns).value
    ensures r.Failure? ==> r.error == BuildSubcommands(ns).error
  {
    var parser := new ArgumentParser(prog);
    parser.AddArgument(ConfigOption);
    parser.AddArgument(NameOption);
    for i := 0 to |ns|
      invariant BuildSubcommands(ns[..i]).Success?
      invariant parser.subcommands == BuildSubcommands(ns[..i]).value
      invariant parser.prog == prog && parser.arguments == [ConfigOption, NameOption]
      invariant fresh(parser)
    {
      assert ns[..i + 1] == ns[..i] + [ns[i]];
      BuildSnoc(ns[..i], ns[i]);
      var candidate := Candidate(ns[i]);
      if candidate.Failure? {
        BuildStops(ns, i + 1);
        return Failure(candidate.error);
      }
      if candidate.value.Some? {
        var added := AddCommand(parser, candidate.value.value);
        if added.Failure? {
          BuildStops(ns, i + 1);
          return Failure(added.error);
        }
      }
    }
    assert ns[..|ns|] == ns;
    r := Success(parser);
  }
}
