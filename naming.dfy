/**
 * Subcommand names derived from command class names (`_transform_command_name`): the "Command"
 * prefix is stripped, the rest is cut in front of every capital letter, each run is lower-cased
 * and the runs are joined with "-".
 */
module Naming {
  import opened Wrappers

  /** The marker every command class name must start with. */
  const Prefix: string := "Command"

  /** The failed assertions of the name derivation, carrying the offending class name. */
  datatype NameError = TooShort(name: string) | MissingPrefix(name: string)

  /** `str.isupper()` on one character, for ASCII letters. */
  predicate IsUpper(c: char) {
    'A' <= c <= 'Z'
  }

  /** `str.lower()` on one character, for ASCII letters. */
  function LowerChar(c: char): char {
    if IsUpper(c) then (c as int + 32) as char else c
  }

  /** `str.lower()`. */
  function Lower(s: string): string {
    seq(|s|, i requires 0 <= i < |s| => LowerChar(s[i]))
  }

  predicate NoUpper(s: string) {
    forall i :: 0 <= i < |s| ==> !IsUpper(s[i])
  }

  /** The positions at or after `k` that hold a capital letter, in increasing order. */
  function UpperIndicesFrom(s: string, k: nat): (r: seq<nat>)
    requires k <= |s|
    decreases |s| - k
    ensures forall j :: 0 <= j < |r| ==> k <= r[j] < |s|
    ensures forall j :: 0 <= j < |r| - 1 ==> r[j] < r[j + 1]
    ensures forall j :: 0 <= j < |r| ==> IsUpper(s[r[j]])
  {
    if k == |s| then []
    else if IsUpper(s[k]) then [k] + UpperIndicesFrom(s, k + 1)
    else UpperIndicesFrom(s, k + 1)
  }

  /** The capital positions from `k` on are exactly the positions `UpperIndicesFrom` lists. */
  lemma {:induction false} UpperIndicesExact(s: string, k: nat, i: nat)
    requires k <= i < |s|
    decreases |s| - k
    ensures IsUpper(s[i]) <==> i in UpperIndicesFrom(s, k)
  {
    if k < i {
      UpperIndicesExact(s, k + 1, i);
    }
  }

  /** `cap_letter_ind`: the capital positions of `core` followed by the sentinel `len(core)`. */
  function CapIndices(core: string): seq<nat> {
    UpperIndicesFrom(core, 0) + [|core|]
  }

  /** Cut points: bounded by `n` and non-decreasing, so that consecutive ones delimit a slice. */
  predicate Cuts(ind: seq<nat>, n: nat) {
    && (forall j :: 0 <= j < |ind| ==> ind[j] <= n)
    && (forall j :: 0 <= j < |ind| - 1 ==> ind[j] <= ind[j + 1])
  }

  /** `substrs`: the lower-cased slices between consecutive cut points, in order. */
  function Substrs(core: string, ind: seq<nat>): seq<string>
    requires Cuts(ind, |core|)
  {
    if |ind| < 2 then []
    else
      assert Cuts(ind[1..], |core|) by {
        assert forall j :: 0 <= j < |ind| - 1 ==> ind[1..][j] == ind[j + 1];
      }
      [Lower(core[ind[0]..ind[1]])] + Substrs(core, ind[1..])
  }

  /** `sep.join(parts)`. */
  function JoinWith(sep: string, parts: seq<string>): string {
    if parts == [] then ""
    else if |parts| == 1 then parts[0]
    else parts[0] + sep + JoinWith(sep, parts[1..])
  }

  /**
   * `_transform_command_name`. The guard that `name[7].isupper` holds is never a check in the
   * source (the method is referenced, not called), so it is not one here either.
   */
  function TransformCommandName(name: string): (r: Result<string, NameError>)
    ensures r.Failure? <==> |name| <= |Prefix| || name[..|Prefix|] != Prefix
    ensures r.Failure? && |name| <= |Prefix| ==> r.error == TooShort(name)
    ensures r.Failure? && |name| > |Prefix| ==> r.error == MissingPrefix(name)
  {
    if |name| <= 7 then Failure(TooShort(name))
    else if name[..7] != Prefix then Failure(MissingPrefix(name))
    else
      var core := name[|Prefix|..];
      var ind := CapIndices(core);
      Success(JoinWith("-", Substrs(core, ind)))
  }

  // ---------------------------------------------------------------------------------------------
  // A character-by-character reference definition of the same name.

  /** Every character lower-cased, with a "-" written in front of each capital. */
  function Spell(s: string): string {
    if s == [] then [] else (if IsUpper(s[0]) then "-" else "") + [LowerChar(s[0])] + Spell(s[1..])
  }

  /** `s` without the characters in front of its first capital (empty when it has none). */
  function DropToUpper(s: string): string {
    if s == [] then [] else if IsUpper(s[0]) then s else DropToUpper(s[1..])
  }

  /**
   * The reference name: from the first capital on, every character lower-cased, with "-" in front
   * of every later capital.
   */
  function KebabName(core: string): string {
    var t := Spell(DropToUpper(core));
    if t == [] then "" else t[1..]
  }

  /** `s` without its "-" characters. */
  function Undash(s: string): string {
    if s == [] then [] else (if s[0] == '-' then "" else [s[0]]) + Undash(s[1..])
  }

  // ---------------------------------------------------------------------------------------------
  // The source's index-and-slice algorithm computes the reference name.

  /** Concatenation of "-" + part over all parts. */
  function Dashed(parts: seq<string>): string {
    if parts == [] then "" else "-" + parts[0] + Dashed(parts[1..])
  }

  /** Every slice between consecutive cut points starts with a capital and holds no other. */
  predicate CapRuns(s: string, ind: seq<nat>) {
    |ind| < 2 ||
    (&& ind[0] < ind[1] <= |s|
     && IsUpper(s[ind[0]])
     && NoUpper(s[ind[0] + 1..ind[1]])
     && CapRuns(s, ind[1..]))
  }

  lemma {:induction false} SpellAppend(a: string, b: string)
    ensures Spell(a + b) == Spell(a) + Spell(b)
  {
    if a == [] {
      assert a + b == b;
    } else {
      assert (a + b)[0] == a[0];
      assert (a + b)[1..] == a[1..] + b;
      SpellAppend(a[1..], b);
      var head := (if IsUpper(a[0]) then "-" else "") + [LowerChar(a[0])];
      calc {
        Spell(a + b);
        head + Spell(a[1..] + b);
        head + (Spell(a[1..]) + Spell(b));
        (head + Spell(a[1..])) + Spell(b);
      }
    }
  }

  lemma {:induction false} SpellOfNoUpper(s: string)
    requires NoUpper(s)
    ensures Spell(s) == Lower(s)
  {
    if s != [] {
      SpellOfNoUpper(s[1..]);
      assert Lower(s) == [LowerChar(s[0])] + Lower(s[1..]);
    }
  }

  /** A run that starts with its only capital is spelled as "-" and the lower-cased run. */
  lemma SpellOfRun(r: string)
    requires |r| > 0 && IsUpper(r[0]) && NoUpper(r[1..])
    ensures Spell(r) == "-" + Lower(r)
  {
    SpellOfNoUpper(r[1..]);
  }

  /** Cut points that delimit capital-led runs are ordered. */
  lemma {:induction false} CapRunsCuts(s: string, ind: seq<nat>)
    requires |ind| >= 1 && ind[0] <= |s| && CapRuns(s, ind)
    ensures Cuts(ind, |s|) && ind[0] <= ind[|ind| - 1]
  {
    if |ind| >= 2 {
      CapRunsCuts(s, ind[1..]);
      assert forall j :: 1 <= j < |ind| ==> ind[j] == ind[1..][j - 1];
    }
  }

  /** `cap_letter_ind` cuts `s` into capital-led runs, and nothing before its first entry is a capital. */
  lemma {:induction false} CapIndicesRuns(s: string, k: nat)
    requires k <= |s|
    decreases |s| - k
    ensures var u := UpperIndicesFrom(s, k) + [|s|];
      CapRuns(s, u) && k <= u[0] && NoUpper(s[k..u[0]])
  {
    var u := UpperIndicesFrom(s, k) + [|s|];
    if k < |s| {
      CapIndicesRuns(s, k + 1);
      var v := UpperIndicesFrom(s, k + 1) + [|s|];
      if IsUpper(s[k]) {
        assert u == [k] + v;
        assert u[1..] == v;
      } else {
        assert u == v;
        assert forall i :: 1 <= i < |s[k..u[0]]| ==> s[k..u[0]][i] == s[k + 1..u[0]][i - 1];
      }
    }
  }

  lemma {:induction false} DashedRuns(s: string, ind: seq<nat>)
    requires |ind| >= 1 && ind[0] <= |s| && CapRuns(s, ind)
    decreases |ind|
    ensures Cuts(ind, |s|) && ind[0] <= ind[|ind| - 1]
    ensures Dashed(Substrs(s, ind)) == Spell(s[ind[0]..ind[|ind| - 1]])
  {
    CapRunsCuts(s, ind);
    if |ind| >= 2 {
      var rest := ind[1..];
      CapRunsCuts(s, rest);
      assert rest[|rest| - 1] == ind[|ind| - 1];
      var run, tail := s[ind[0]..ind[1]], s[ind[1]..ind[|ind| - 1]];
      var parts := Substrs(s, rest);
      calc {
        Dashed(Substrs(s, ind));
        Dashed([Lower(run)] + parts);
        { assert ([Lower(run)] + parts)[1..] == parts; }
        "-" + Lower(run) + Dashed(parts);
        { DashedRuns(s, rest); }
        "-" + Lower(run) + Spell(tail);
        { assert run[1..] == s[ind[0] + 1..ind[1]]; SpellOfRun(run); }
        Spell(run) + Spell(tail);
        { SpellAppend(run, tail); }
        Spell(run + tail);
        { assert run + tail == s[ind[0]..ind[|ind| - 1]]; }
        Spell(s[ind[0]..ind[|ind| - 1]]);
      }
    }
  }

  lemma {:induction false} JoinDashed(parts: seq<string>)
    requires parts != []
    ensures "-" + JoinWith("-", parts) == Dashed(parts)
  {
    if |parts| > 1 {
      JoinDashed(parts[1..]);
    }
  }

  lemma {:induction false} DropToUpperAt(s: string, f: nat)
    requires f <= |s| && NoUpper(s[..f]) && (f < |s| ==> IsUpper(s[f]))
    ensures DropToUpper(s) == s[f..]
  {
    if s != [] && f > 0 {
      assert s[1..][..f - 1] == s[1..f];
      DropToUpperAt(s[1..], f - 1);
    }
  }

  /** The source's index-and-slice algorithm computes the reference name of any core. */
  lemma SlicesMatchReference(core: string)
    ensures Cuts(CapIndices(core), |core|)
    ensures JoinWith("-", Substrs(core, CapIndices(core))) == KebabName(core)
  {
    var u := CapIndices(core);
    CapIndicesRuns(core, 0);
    assert DropToUpper(core) == core[u[0]..] by {
      assert core[0..u[0]] == core[..u[0]];
      DropToUpperAt(core, u[0]);
    }
    if |u| >= 2 {
      RunsMatchReference(core, u);
    }
  }

  /** With at least one capital, joining the runs gives the spelling from the first capital on. */
  lemma RunsMatchReference(core: string, u: seq<nat>)
    requires |u| >= 2 && u[0] <= |core| && u[|u| - 1] == |core| && CapRuns(core, u)
    ensures Cuts(u, |core|)
    ensures JoinWith("-", Substrs(core, u)) == Spell(core[u[0]..])[1..]
  {
    DashedRuns(core, u);
    var parts := Substrs(core, u);
    assert parts != [];
    calc {
      JoinWith("-", parts);
      { JoinDashed(parts); assert ("-" + JoinWith("-", parts))[1..] == JoinWith("-", parts); }
      Dashed(parts)[1..];
      { assert core[u[0]..u[|u| - 1]] == core[u[0]..]; }
      Spell(core[u[0]..])[1..];
    }
  }

  /** The derived name equals the character-by-character reference name of the stripped core. */
  lemma NameMatchesReference(name: string)
    requires TransformCommandName(name).Success?
    ensures TransformCommandName(name).value == KebabName(name[|Prefix|..])
  {
    SlicesMatchReference(name[|Prefix|..]);
  }

  // ---------------------------------------------------------------------------------------------
  // What the reference name looks like.

  lemma {:induction false} SpellHasNoCapital(s: string)
    ensures NoUpper(Spell(s))
  {
    if s != [] {
      SpellHasNoCapital(s[1..]);
    }
  }

  lemma {:induction false} UndashSpell(s: string)
    requires '-' !in s
    ensures Undash(Spell(s)) == Lower(s)
  {
    if s != [] {
      UndashSpell(s[1..]);
      assert Lower(s) == [LowerChar(s[0])] + Lower(s[1..]);
      var head := (if IsUpper(s[0]) then "-" else "") + [LowerChar(s[0])];
      UndashAppend(head, Spell(s[1..]));
      if IsUpper(s[0]) {
        UndashAppend("-", [LowerChar(s[0])]);
      }
    }
  }

  lemma {:induction false} UndashAppend(a: string, b: string)
    ensures Undash(a + b) == Undash(a) + Undash(b)
  {
    if a == [] {
      assert a + b == b;
    } else {
      assert (a + b)[0] == a[0];
      assert (a + b)[1..] == a[1..] + b;
      UndashAppend(a[1..], b);
      var head := if a[0] == '-' then "" else [a[0]];
      calc {
        Undash(a + b);
        head + Undash(a[1..] + b);
        head + (Undash(a[1..]) + Undash(b));
        (head + Undash(a[1..])) + Undash(b);
      }
    }
  }

  lemma {:induction false} DropToUpperStartsCapital(s: string)
    ensures DropToUpper(s) == [] || IsUpper(DropToUpper(s)[0])
    ensures NoUpper(s) ==> DropToUpper(s) == []
  {
    if s != [] && !IsUpper(s[0]) {
      DropToUpperStartsCapital(s[1..]);
    }
  }

  lemma {:induction false} DropToUpperSuffix(s: string)
    ensures '-' !in s ==> '-' !in DropToUpper(s)
  {
    if s != [] && !IsUpper(s[0]) {
      DropToUpperSuffix(s[1..]);
    }
  }

  /**
   * A derived name holds no capital. Taking out its "-" characters leaves the lower-cased core from
   * its first capital on (for a core without "-", as every Python identifier is), which is the whole
   * lower-cased core when that starts with a capital; a core without a capital yields "".
   */
  lemma DerivedNameShape(name: string)
    requires TransformCommandName(name).Success?
    ensures var r, core := TransformCommandName(name).value, name[|Prefix|..];
      && NoUpper(r)
      && ('-' !in core ==> Undash(r) == Lower(DropToUpper(core)))
      && (core != [] && IsUpper(core[0]) && '-' !in core ==> Undash(r) == Lower(core))
      && (NoUpper(core) ==> r == "")
  {
    var core := name[|Prefix|..];
    NameMatchesReference(name);
    var d := DropToUpper(core);
    var t := Spell(d);
    SpellHasNoCapital(d);
    DropToUpperStartsCapital(core);
    if t != [] {
      assert d != [];
      assert t[0] == '-';
      assert t == "-" + t[1..];
      UndashAppend("-", t[1..]);
    }
    if '-' !in core {
      DropToUpperSuffix(core);
      UndashSpell(d);
    }
  }

  // ---------------------------------------------------------------------------------------------
  // Class names written as "Command" followed by capital-led words.

  /** A word that starts with a capital and holds no other. */
  predicate CapitalWord(w: string) {
    w != [] && IsUpper(w[0]) && NoUpper(w[1..])
  }

  function Concat(words: seq<string>): string {
    if words == [] then "" else words[0] + Concat(words[1..])
  }

  function LowerAll(words: seq<string>): seq<string> {
    if words == [] then [] else [Lower(words[0])] + LowerAll(words[1..])
  }

  lemma {:induction false} SpellOfWords(words: seq<string>)
    requires forall i :: 0 <= i < |words| ==> CapitalWord(words[i])
    ensures Spell(Concat(words)) == Dashed(LowerAll(words))
  {
    if words != [] {
      SpellOfWords(words[1..]);
      SpellOfRun(words[0]);
      SpellAppend(words[0], Concat(words[1..]));
    }
  }

  /** "Command" followed by capital-led words derives the lower-cased words joined by "-". */
  lemma NameOfWords(words: seq<string>)
    requires words != [] && forall i :: 0 <= i < |words| ==> CapitalWord(words[i])
    ensures TransformCommandName(Prefix + Concat(words)) == Success(JoinWith("-", LowerAll(words)))
  {
    var name, core := Prefix + Concat(words), Concat(words);
    assert name[..|Prefix|] == Prefix && name[|Prefix|..] == core;
    assert core == words[0] + Concat(words[1..]);
    assert core != [] && core[0] == words[0][0];
    NameMatchesReference(name);
    KebabOfCapitalized(core);
    SpellOfWords(words);
    JoinDashed(LowerAll(words));
  }

  /** A core that starts with a capital keeps all its characters. */
  lemma KebabOfCapitalized(w: string)
    requires w != [] && IsUpper(w[0])
    ensures Spell(w) != [] && KebabName(w) == Spell(w)[1..]
  {
  }

  /** The name the import command class derives. */
  lemma ImportName()
    ensures TransformCommandName("CommandImport") == Success("import")
  {
    NameOfWords(["Import"]);
    ImportWords();
  }

  lemma ImportWords()
    ensures Prefix + Concat(["Import"]) == "CommandImport"
    ensures JoinWith("-", LowerAll(["Import"])) == "import"
  {
    assert ["Import"][1..] == [];
    LowerImport();
  }

  /** The name the show-targets command class derives. */
  lemma ShowTargetsName()
    ensures TransformCommandName("CommandShowTargets") == Success("show-targets")
  {
    NameOfWords(["Show", "Targets"]);
    ShowTargetsWords();
  }

  lemma ShowTargetsWords()
    ensures Prefix + Concat(["Show", "Targets"]) == "CommandShowTargets"
    ensures JoinWith("-", LowerAll(["Show", "Targets"])) == "show-targets"
  {
    var words := ["Show", "Targets"];
    assert words[1..] == ["Targets"] && words[1..][1..] == [];
    LowerShow();
    LowerTargets();
    var low := ["show", "targets"];
    assert LowerAll(words) == low;
    assert low[1..] == ["targets"];
    assert JoinWith("-", low) == "show" + "-" + "targets";
  }

  /** A three-word core gives three runs. */
  lemma ShowImportTargetsName()
    ensures TransformCommandName("CommandShowImportTargets") == Success("show-import-targets")
  {
    NameOfWords(["Show", "Import", "Targets"]);
    ShowImportTargetsWords();
  }

  lemma ShowImportTargetsWords()
    ensures Prefix + Concat(["Show", "Import", "Targets"]) == "CommandShowImportTargets"
    ensures JoinWith("-", LowerAll(["Show", "Import", "Targets"])) == "show-import-targets"
  {
    ShowImportTargetsConcat();
    ShowImportTargetsLower();
    JoinThree("show", "import", "targets");
    assert "show" + "-" + ("import" + "-" + "targets") == "show-import-targets";
  }

  lemma JoinThree(a: string, b: string, c: string)
    ensures JoinWith("-", [a, b, c]) == a + "-" + (b + "-" + c)
  {
    assert [a, b, c][1..] == [b, c] && [b, c][1..] == [c];
    assert JoinWith("-", [c]) == c;
    assert JoinWith("-", [b, c]) == b + "-" + c;
  }

  lemma ShowImportTargetsConcat()
    ensures Prefix + Concat(["Show", "Import", "Targets"]) == "CommandShowImportTargets"
  {
    var words := ["Show", "Import", "Targets"];
    assert words[1..] == ["Import", "Targets"] && words[1..][1..] == ["Targets"];
    assert words[1..][1..][1..] == [];
  }

  lemma ShowImportTargetsLower()
    ensures LowerAll(["Show", "Import", "Targets"]) == ["show", "import", "targets"]
  {
    var words := ["Show", "Import", "Targets"];
    assert words[1..] == ["Import", "Targets"] && words[1..][1..] == ["Targets"];
    assert words[1..][1..][1..] == [];
    LowerShow();
    LowerTargets();
    LowerImport();
  }

  lemma LowerImport()
    ensures Lower("Import") == "import"
  {
  }

  lemma LowerShow()
    ensures Lower("Show") == "show"
  {
  }

  lemma LowerTargets()
    ensures Lower("Targets") == "targets"
  {
  }

  /** Names that fail the length or the prefix assertion. */
  lemma RejectedNames()
    ensures TransformCommandName("Command") == Failure(TooShort("Command"))
    ensures TransformCommandName("ShowTargets") == Failure(MissingPrefix("ShowTargets"))
  {
    assert "ShowTargets"[..|Prefix|][0] != Prefix[0];
  }
}
