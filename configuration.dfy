/**
 * `Config`: the configuration object a command receives. The `.ini` file is given as the values
 * the parser read from it; what remains is ConfigParser's lookup logic over a DEFAULT map and
 * named sections, the `here` variable, and the section/option lookups of `Config`.
 */
module Configuration {
  import opened Wrappers
  import opened Descriptors

  /** ConfigParser's default section: it holds the constructor's defaults and is never a section. */
  const DefaultSection: string := "DEFAULT"

  /** The substitution variable `Config.__init__` adds to `config_args`. */
  const HereKey: string := "here"

  datatype ConfigError =
    | MissingSection(message: string)        // get_section_option on an absent section
    | NoSectionError(section: string)         // ConfigParser.items / get on an absent section
    | NoOptionError(option: string, section: string)
    | InvalidSectionName(section: string)     // add_section("DEFAULT")

  /** ConfigParser's state: the DEFAULT values and the named sections. */
  datatype IniStore = IniStore(defaults: map<string, string>, sections: map<string, map<string, string>>)
  {
    /** The parser never holds the default section among its named sections. */
    predicate Valid() {
      DefaultSection !in sections
    }

    /** `has_section`: the default section is not acknowledged. */
    predicate HasSection(section: string) {
      section != DefaultSection && section in sections
    }

    /** `has_option`: an empty or default section name consults the defaults only. */
    predicate HasOption(section: string, option: string) {
      if section == "" || section == DefaultSection then option in defaults
      else section in sections && (option in sections[section] || option in defaults)
    }

    /** The option is set in the named section itself, not only among the defaults. */
    predicate Own(section: string, option: string) {
      section != DefaultSection && section in sections && option in sections[section]
    }

    /** `dict(items(section))`: the defaults overlaid by the section's own options. */
    function Items(section: string): (r: Result<map<string, string>, ConfigError>)
      ensures r.Success? <==> section == DefaultSection || section in sections
      ensures r.Failure? ==> r.error == NoSectionError(section)
      ensures r.Success? ==> forall o :: o in r.value <==>
                o in defaults || Own(section, o)
      ensures r.Success? ==> forall o :: o in r.value ==>
                r.value[o] == if Own(section, o) then sections[section][o] else defaults[o]
    {
      if section == DefaultSection then Success(defaults)
      else if section in sections then Success(defaults + sections[section])
      else Failure(NoSectionError(section))
    }

    /** `get(section, option)` without interpolation: the section's value, else the default's. */
    function Get(section: string, option: string): (r: Result<string, ConfigError>)
      ensures section != "" ==> (r.Success? <==> (section == DefaultSection || section in sections) && HasOption(section, option))
      ensures r.Success? ==> Own(section, option) || option in defaults
      ensures r.Success? ==> r.value == if Own(section, option) then sections[section][option] else defaults[option]
    {
      var items :- Items(section);
      if option in items then Success(items[option]) else Failure(NoOptionError(option, section))
    }
  }

  /** Python truthiness of `file_`: None and the empty string are false. */
  predicate Truthy(file: Option<string>) {
    file.Some? && file.value != ""
  }

  /** `repr` of the file name inside the missing-section message. */
  function Repr(file: Option<string>): (r: string)
    ensures file.None? ==> r == "None"
    ensures file.Some? ==> |r| == |file.value| + 2 && r[0] == '\'' && r[|r| - 1] == '\'' && r[1..|r| - 1] == file.value
  {
    match file
    case None => "None"
    case Some(s) => "'" + s + "'"
  }

  const MessageHead: string := "No config file "
  const MessageMiddle: string := " found, or file has no '["
  const MessageTail: string := "]' section"

  /** The source's message with the `%r` of the file name and the `%s` of the section substituted. */
  function MissingSectionMessage(file: Option<string>, section: string): (m: string)
    ensures |m| == |MessageHead| + |Repr(file)| + |MessageMiddle| + |section| + |MessageTail|
  {
    MessageHead + (Repr(file) + (MessageMiddle + (section + MessageTail)))
  }

  /** Each substitution sits at its place in the message: the file's repr after the head, the section before the tail. */
  lemma MissingSectionMessageShape(file: Option<string>, section: string)
    ensures var m, h, r := MissingSectionMessage(file, section), |MessageHead|, |Repr(file)|;
      && m[..h] == MessageHead
      && m[h..h + r] == Repr(file)
      && m[|m| - |MessageTail| - |section|..] == section + MessageTail
  {
    var m, h, r := MissingSectionMessage(file, section), |MessageHead|, |Repr(file)|;
    var rest := Repr(file) + (MessageMiddle + (section + MessageTail));
    assert m[h..] == rest;
    assert rest[..r] == Repr(file);
    assert m[|m| - |MessageTail| - |section|..] == (MessageMiddle + (section + MessageTail))[|MessageMiddle|..];
  }

  /**
   * The parser `Config.__init__` builds: `config_args` (with `here`) as defaults; with a file, what
   * reading it yields (its own DEFAULT entries win); without one, a single empty main section.
   */
  function InitialStore(file: Option<string>, iniSection: string, args: map<string, string>,
                        fileDefaults: map<string, string>, fileSections: map<string, map<string, string>>): (s: IniStore)
    ensures forall k :: k in args ==> k in s.defaults
    ensures forall k :: k in args && (!Truthy(file) || k !in fileDefaults) ==> s.defaults[k] == args[k]
    ensures Truthy(file) ==> s.sections == fileSections
    ensures Truthy(file) ==> forall k :: k in fileDefaults ==> k in s.defaults && s.defaults[k] == fileDefaults[k]
    ensures !Truthy(file) ==> s.sections.Keys == {iniSection} && s.sections[iniSection] == map[]
    ensures !Truthy(file) ==> (s.HasSection(iniSection) <==> iniSection != DefaultSection)
  {
    if Truthy(file) then IniStore(args + fileDefaults, fileSections)
    else IniStore(args, map[iniSection := map[]])
  }

  /** The `here` value: the file's absolute directory when a file is named, else "". */
  function Here(file: Option<string>, absDir: string): (h: string)
    ensures file.None? || file == Some("") ==> h == ""
    ensures file.Some? && file.value != "" ==> h == absDir
  {
    if Truthy(file) then absDir else ""
  }

  class Config {
    var configFileName: Option<string>
    var configIniSection: string
    var cmdOpts: Option<ParsedOptions>
    var configArgs: map<string, string>
    var fileConfig: IniStore

    /**
     * `Config.__init__`. `absDir` stands for `os.path.abspath(os.path.dirname(file_))`, and
     * `fileDefaults`/`fileSections` for what `ConfigParser.read` takes from the file (nothing when
     * it cannot be opened). `config_args` is copied with `here` added; the caller's map is a value.
     */
    constructor (file: Option<string>, iniSection: string, cmdOpts: Option<ParsedOptions>,
                 configArgs: map<string, string>, absDir: string,
                 fileDefaults: map<string, string>, fileSections: map<string, map<string, string>>)
      requires Truthy(file) || iniSection != DefaultSection
      requires DefaultSection !in fileSections
      ensures configFileName == file && configIniSection == iniSection && this.cmdOpts == cmdOpts
      ensures this.configArgs == configArgs[HereKey := Here(file, absDir)]
      ensures fileConfig == InitialStore(file, iniSection, this.configArgs, fileDefaults, fileSections)
      ensures fileConfig.Valid()
    {
      configFileName := file;
      configIniSection := iniSection;
      this.cmdOpts := cmdOpts;
      var here := if Truthy(file) then absDir else "";
      this.configArgs := configArgs[HereKey := here];
      if Truthy(file) {
        fileConfig := IniStore(configArgs[HereKey := here] + fileDefaults, fileSections);
      } else {
        fileConfig := IniStore(configArgs[HereKey := here], map[iniSection := map[]]);
      }
    }

    /** `get_section`. Its keys are exactly the options `has_option` acknowledges in that section. */
    function GetSection(name: string): (r: Result<map<string, string>, ConfigError>)
      reads this
      ensures r.Success? <==> name == DefaultSection || name in fileConfig.sections
      ensures r.Success? && name != "" ==> forall o :: o in r.value <==> fileConfig.HasOption(name, o)
    {
      fileConfig.Items(name)
    }

    /**
     * `get_section_option`: an absent section is an error naming the file and the section; a
     * present option gives its stored string; otherwise `default`.
     */
    function GetSectionOption(section: string, option: string, default: PyValue): (r: Result<PyValue, ConfigError>)
      reads this
      ensures r.Failure? <==> !fileConfig.HasSection(section)
      ensures r.Failure? ==> r.error == MissingSection(MissingSectionMessage(configFileName, section))
      ensures r.Success? ==> (r.value == default || (fileConfig.HasOption(section, option) && r.value.PyStr?))
      ensures r.Success? && !fileConfig.HasOption(section, option) ==> r.value == default
    {
      if !fileConfig.HasSection(section) then
        Failure(MissingSection(MissingSectionMessage(configFileName, section)))
      else if fileConfig.HasOption(section, option) then
        Success(PyStr(fileConfig.Get(section, option).value))
      else
        Success(default)
    }

    /** `get_main_option`: the same lookup in the main section. */
    function GetMainOption(option: string, default: PyValue): (r: Result<PyValue, ConfigError>)
      reads this
      ensures r.Failure? <==> !fileConfig.HasSection(configIniSection)
      ensures r.Success? && !fileConfig.HasOption(configIniSection, option) ==> r.value == default
    {
      GetSectionOption(configIniSection, option, default)
    }
  }

  /** `Config(...)` as called: adding the main section fails when it is named DEFAULT. */
  method NewConfig(file: Option<string>, iniSection: string, cmdOpts: Option<ParsedOptions>,
                   configArgs: map<string, string>, absDir: string,
                   fileDefaults: map<string, string>, fileSections: map<string, map<string, string>>)
    returns (r: Result<Config, ConfigError>)
    requires DefaultSection !in fileSections
    ensures r.Failure? <==> !Truthy(file) && iniSection == DefaultSection
    ensures r.Failure? ==> r.error == InvalidSectionName(iniSection)
    ensures r.Success? ==>
              && fresh(r.value)
              && r.value.configFileName == file && r.value.configIniSection == iniSection
              && r.value.cmdOpts == cmdOpts && r.value.configArgs == configArgs[HereKey := Here(file, absDir)]
              && r.value.fileConfig == InitialStore(file, iniSection, r.value.configArgs, fileDefaults, fileSections)
  {
    if !Truthy(file) && iniSection == DefaultSection {
      return Failure(InvalidSectionName(iniSection));
    }
    var c := new Config(file, iniSection, cmdOpts, configArgs, absDir, fileDefaults, fileSections);
    r := Success(c);
  }

  /**
   * The option lookup agrees with `get_section`'s dictionary: for a present section it is that
   * dictionary's entry when there is one and `default` otherwise. (`has_option` treats the empty
   * section name as the default section, so a section named "" is excluded.)
   */
  lemma SectionOptionFromItems(c: Config, section: string, option: string, default: PyValue)
    requires c.fileConfig.HasSection(section) && section != ""
    ensures c.GetSection(section).Success?
    ensures c.GetSectionOption(section, option, default) ==
              Success(if option in c.GetSection(section).value then PyStr(c.GetSection(section).value[option]) else default)
  {
  }

  /**
   * Because a valid store never holds the default section among its named sections, the lookup
   * fails exactly for a section name the store does not hold, and `get_section` then fails too
   * unless the name is the default section's.
   */
  lemma SectionOptionFailsOnAbsent(c: Config, section: string, option: string, default: PyValue)
    requires c.fileConfig.Valid()
    ensures c.GetSectionOption(section, option, default).Failure? <==> section !in c.fileConfig.sections
    ensures c.GetSectionOption(section, option, default).Failure? && section != DefaultSection ==>
              c.GetSection(section).Failure?
  {
  }

  /**
   * Without a file, the main section exists and is empty, so the main options are exactly the
   * `config_args` given plus `here`, which is "".
   */
  lemma UnreadMainOption(c: Config, args: map<string, string>, option: string, default: PyValue)
    requires !Truthy(c.configFileName) && c.configIniSection != DefaultSection
    requires c.configArgs == args[HereKey := ""]
    requires c.fileConfig == InitialStore(c.configFileName, c.configIniSection, c.configArgs, map[], map[])
    ensures option == HereKey ==> c.GetMainOption(option, default) == Success(PyStr(""))
    ensures option != HereKey ==>
              c.GetMainOption(option, default) == Success(if option in args then PyStr(args[option]) else default)
  {
  }

  /**
   * With a file, `here` is the file's main section's own value if it sets one, else the file's
   * DEFAULT value if that sets one, else the file's directory; and when the file has no main
   * section (or the main section is named DEFAULT) every lookup is the missing-section error.
   */
  lemma ReadMainOption(c: Config, absDir: string, fileDefaults: map<string, string>,
                       fileSections: map<string, map<string, string>>, option: string, default: PyValue)
    requires Truthy(c.configFileName)
    requires HereKey in c.configArgs && c.configArgs[HereKey] == absDir
    requires c.fileConfig == InitialStore(c.configFileName, c.configIniSection, c.configArgs, fileDefaults, fileSections)
    ensures c.configIniSection in fileSections && c.configIniSection != DefaultSection ==>
              c.GetMainOption(HereKey, default) ==
                Success(PyStr(if HereKey in fileSections[c.configIniSection] then fileSections[c.configIniSection][HereKey]
                              else if HereKey in fileDefaults then fileDefaults[HereKey]
                              else absDir))
    ensures c.configIniSection !in fileSections || c.configIniSection == DefaultSection ==>
              c.GetMainOption(option, default) == Failure(MissingSection(MissingSectionMessage(c.configFileName, c.configIniSection)))
  {
  }
}
