/** NewOptions: compiling the option specification text into the lookup
    tables and the usage string. All three versions of the package share
    this code; the oldest one (options.go at the root) has no blank-line
    rule in the option stanza, which `blankLines` switches off. */
module SpecCompiler {
  import opened Wrappers
  import opened Text
  import opened Patterns

  /** What NewOptions builds. `requiresArg` holds the canonical names the Go
      map sets to true; `short` is the set of one-character names, which the
      two older versions keep and the newest one does not. */
  datatype Tables = Tables(
    usage: string,
    aliases: map<string, string>,
    defaults: map<string, string>,
    requiresArg: set<string>,
    short: set<string>)

  const NoTables := Tables("", map[], map[], {}, {})

  /** The `stanza` counter: 0 before the `--` line, 1 after it. */
  datatype Stanza = Synopsis | OptionLines

  predicate IsBadName(name: string) {
    name == "" || name == "-" || name == "--"
  }

  /** No name of the line is registered already, bad, or repeated. */
  predicate FreshNames(names: seq<string>, aliases: map<string, string>) {
    forall i :: 0 <= i < |names| ==>
      names[i] !in aliases && !IsBadName(names[i]) && names[i] !in names[..i]
  }

  predicate Offends(names: seq<string>, i: nat, aliases: map<string, string>)
    requires i < |names|
  {
    names[i] in aliases || names[i] in names[..i] || IsBadName(names[i])
  }

  function AliasesOf(names: seq<string>, canonical: string): map<string, string> {
    map n | n in names :: canonical
  }

  function ShortOf(names: seq<string>): set<string> {
    set n | n in names && |n| == 1
  }

  /** The inner loop of NewOptions over the names of one line: each name is
      checked for a duplicate, then for a bad name, then mapped to the
      canonical name. */
  function Register(names: seq<string>, canonical: string, t: Tables): (r: Result<Tables>)
    ensures r.Err? ==> r.error == DuplicateName || r.error == BadName
    decreases |names|
  {
    if names == [] then Ok(t)
    else
      var name := names[0];
      if name in t.aliases then Err(DuplicateName)
      else if IsBadName(name) then Err(BadName)
      else Register(names[1..], canonical, AddName(t, name, canonical))
  }

  function AddName(t: Tables, name: string, canonical: string): Tables {
    t.(aliases := t.aliases[name := canonical],
       short := if |name| == 1 then t.short + {name} else t.short)
  }

  /** Registration succeeds exactly when the names are fresh, and then maps
      every name of the line to the canonical name and nothing else. */
  lemma {:induction false} RegisterFresh(names: seq<string>, canonical: string, t: Tables)
    ensures Register(names, canonical, t).Ok? <==> FreshNames(names, t.aliases)
    ensures Register(names, canonical, t).Ok? ==>
      Register(names, canonical, t).value ==
        t.(aliases := t.aliases + AliasesOf(names, canonical), short := t.short + ShortOf(names))
    decreases |names|
  {
    if names == [] {
      assert AliasesOf(names, canonical) == map[];
      assert ShortOf(names) == {};
    } else {
      var name := names[0];
      FreshNamesStep(names, t.aliases, canonical);
      if name !in t.aliases && !IsBadName(name) {
        RegisterFresh(names[1..], canonical, AddName(t, name, canonical));
        RegisterStepTables(names, canonical, t);
      }
    }
  }

  lemma RegisterStepTables(names: seq<string>, canonical: string, t: Tables)
    requires |names| >= 1
    ensures
      var t' := AddName(t, names[0], canonical);
      t'.(aliases := t'.aliases + AliasesOf(names[1..], canonical), short := t'.short + ShortOf(names[1..]))
        == t.(aliases := t.aliases + AliasesOf(names, canonical), short := t.short + ShortOf(names))
  {
  }

  lemma FreshNamesStep(names: seq<string>, aliases: map<string, string>, canonical: string)
    requires |names| >= 1
    ensures FreshNames(names, aliases) <==>
      names[0] !in aliases && !IsBadName(names[0]) &&
      FreshNames(names[1..], aliases[names[0] := canonical])
  {
  }

  /** smap(prettyFlag, names). */
  function PrettyNames(names: seq<string>): (r: seq<string>)
    ensures |r| == |names|
    ensures forall i :: 0 <= i < |names| ==> r[i] == PrettyFlag(names[i])
  {
    if names == [] then [] else [PrettyFlag(names[0])] + PrettyNames(names[1..])
  }

  /** The usage line of one option. */
  function OptionUsage(names: seq<string>, marker: string, description: string): string {
    "  " + Join(PrettyNames(names), ", ") + marker + "  " + description + "\n"
  }

  /** One line of the option stanza: it must have the option-line shape. */
  function CompileOptionLine(line: string, t: Tables): Result<Tables> {
    match ScanOptionLine(line)
    case None => Err(NoParse)
    case Some(p) => AddOption(p, t)
  }

  /** The tables after the option line with parts `p`. The canonical name is
      the last name of the line; `=` marks it as taking an argument; a
      description ending in a bracketed text gives its default. */
  function AddOption(p: LineParts, t: Tables): Result<Tables>
    requires IsLineShape(p)
  {
    var names := Split(p.names, ',');
    var canonical := names[|names| - 1];
    var t' :- Register(names, canonical, t);
    Ok(Mark(t', canonical, t'.usage + OptionUsage(names, p.marker, p.description), p.marker == "=", DefaultValue(p.description)))
  }

  /** The tables after the canonical name's usage line, argument marker and
      default are recorded. */
  function Mark(t: Tables, canonical: string, usage: string, marked: bool, default: Option<string>): Tables {
    t.(
      usage := usage,
      requiresArg := if marked then t.requiresArg + {canonical} else t.requiresArg,
      defaults := match default {
        case None => t.defaults
        case Some(d) => t.defaults[canonical := d]
      })
  }

  /** The loop of NewOptions over the lines of the specification. */
  function CompileLines(lines: seq<string>, stanza: Stanza, t: Tables, blankLines: bool): Result<Tables>
    decreases |lines|
  {
    if lines == [] then Ok(t)
    else
      var l := lines[0];
      match stanza
      case Synopsis =>
        if l == "--" then CompileLines(lines[1..], OptionLines, t.(usage := t.usage + "\n"), blankLines)
        else CompileLines(lines[1..], Synopsis, t.(usage := t.usage + l + "\n"), blankLines)
      case OptionLines =>
        if blankLines && l == "" then
          CompileLines(lines[1..], OptionLines, t.(usage := t.usage + "\n"), blankLines)
        else
          var t' :- CompileOptionLine(l, t);
          CompileLines(lines[1..], OptionLines, t', blankLines)
  }

  /** NewOptions as a function of the specification text. */
  function Compile(spec: string, blankLines: bool): Result<Tables> {
    CompileLines(Split(spec, '\n'), Synopsis, NoTables, blankLines)
  }

  /** NewOptions: the loop over the lines of the specification, with the
      `stanza` counter. */
  method CompileSpec(spec: string, blankLines: bool) returns (r: Result<Tables>)
    ensures r == Compile(spec, blankLines)
  {
    var lines := Split(spec, '\n');
    var t := NoTables;
    var stanza := Synopsis;
    var n := 0;
    while n < |lines|
      invariant 0 <= n <= |lines|
      invariant CompileLines(lines[n..], stanza, t, blankLines) == Compile(spec, blankLines)
    {
      var l := lines[n];
      assert lines[n..][0] == l && lines[n..][1..] == lines[n + 1..];
      if stanza == Synopsis {
        if l == "--" {
          t := t.(usage := t.usage + "\n");
          stanza := OptionLines;
        } else {
          t := t.(usage := t.usage + l + "\n");
        }
      } else if blankLines && l == "" {
        t := t.(usage := t.usage + "\n");
      } else {
        var next := AddOptionLine(l, t);
        if next.Err? {
          return Err(next.error);
        }
        t := next.value;
      }
      n := n + 1;
    }
    r := Ok(t);
  }

  /** The body of that loop for one option line. */
  method AddOptionLine(line: string, t: Tables) returns (r: Result<Tables>)
    ensures r == CompileOptionLine(line, t)
  {
    var parts := ScanOptionLine(line);
    if parts.None? {
      return Err(NoParse);
    }
    r := AddOptionParts(parts.value, t);
  }

  method AddOptionParts(p: LineParts, t: Tables) returns (r: Result<Tables>)
    requires IsLineShape(p)
    ensures r == AddOption(p, t)
  {
    var names := Split(p.names, ',');
    var canonical := names[|names| - 1];
    var registered := RegisterNames(names, canonical, t);
    if registered.Err? {
      return Err(registered.error);
    }
    var t' := registered.value;
    var requiresArg, defaults := t'.requiresArg, t'.defaults;
    if p.marker == "=" {
      requiresArg := requiresArg + {canonical};
    }
    var def := DefaultValue(p.description);
    if def.Some? {
      defaults := defaults[canonical := def.value];
    }
    r := Ok(t'.(usage := t'.usage + OptionUsage(names, p.marker, p.description),
                requiresArg := requiresArg, defaults := defaults));
  }

  /** The inner loop over the names of an option line. */
  method RegisterNames(names: seq<string>, canonical: string, t: Tables) returns (r: Result<Tables>)
    ensures r == Register(names, canonical, t)
  {
    var aliases, short := t.aliases, t.short;
    var j := 0;
    while j < |names|
      invariant 0 <= j <= |names|
      invariant Register(names[j..], canonical, t.(aliases := aliases, short := short))
             == Register(names, canonical, t)
    {
      var name := names[j];
      assert names[j..][0] == name && names[j..][1..] == names[j + 1..];
      if name in aliases {
        return Err(DuplicateName);
      }
      if IsBadName(name) {
        return Err(BadName);
      }
      if |name| == 1 {
        short := short + {name};
      }
      aliases := aliases[name := canonical];
      j := j + 1;
    }
    r := Ok(t.(aliases := aliases, short := short));
  }

  // ---------------------------------------------------------------------
  // Properties of the compiled tables

  /** What every compiled specification satisfies: each name maps to a
      canonical name that maps to itself, argument and default entries are
      kept only for canonical names, no bad name is registered, and `short`
      holds exactly the one-character names. */
  predicate WellFormed(t: Tables) {
    && (forall n :: n in t.aliases ==> t.aliases[n] in t.aliases && t.aliases[t.aliases[n]] == t.aliases[n])
    && (forall c :: c in t.requiresArg ==> c in t.aliases && t.aliases[c] == c)
    && (forall c :: c in t.defaults ==> c in t.aliases && t.aliases[c] == c)
    && (forall n :: n in t.aliases ==> !IsBadName(n))
    && t.short == set n | n in t.aliases && |n| == 1
  }

  lemma OptionLineWellFormed(line: string, t: Tables)
    requires WellFormed(t)
    ensures CompileOptionLine(line, t).Ok? ==> WellFormed(CompileOptionLine(line, t).value)
  {
    var parts := ScanOptionLine(line);
    if parts.Some? {
      AddOptionWellFormed(parts.value, t);
    }
  }

  /** The tables after a matched option line are well formed. */
  lemma AddOptionWellFormed(p: LineParts, t: Tables)
    requires IsLineShape(p) && WellFormed(t)
    ensures AddOption(p, t).Ok? ==> WellFormed(AddOption(p, t).value)
  {
    var names := Split(p.names, ',');
    var canonical := names[|names| - 1];
    RegisterFresh(names, canonical, t);
    if FreshNames(names, t.aliases) {
      RegisterWellFormed(names, canonical, t);
      var t' := Register(names, canonical, t).value;
      var usage := t'.usage + OptionUsage(names, p.marker, p.description);
      var default := DefaultValue(p.description);
      assert AddOption(p, t) == Ok(Mark(t', canonical, usage, p.marker == "=", default));
      MarkWellFormed(t', canonical, usage, p.marker == "=", default);
    }
  }

  /** Recording the usage, the argument marker and the default of a
      canonical name keeps the tables well formed. */
  lemma MarkWellFormed(t: Tables, canonical: string, usage: string, marked: bool, default: Option<string>)
    requires WellFormed(t) && canonical in t.aliases && t.aliases[canonical] == canonical
    ensures WellFormed(Mark(t, canonical, usage, marked, default))
  {
  }

  lemma RegisterWellFormed(names: seq<string>, canonical: string, t: Tables)
    requires WellFormed(t) && FreshNames(names, t.aliases)
    requires |names| >= 1 && canonical == names[|names| - 1]
    ensures
      var a := t.aliases + AliasesOf(names, canonical);
      var t' := t.(aliases := a, short := t.short + ShortOf(names));
      WellFormed(t') && canonical in a && a[canonical] == canonical
  {
  }

  lemma {:induction false} CompileLinesWellFormed(lines: seq<string>, stanza: Stanza, t: Tables, blankLines: bool)
    requires WellFormed(t)
    ensures CompileLines(lines, stanza, t, blankLines).Ok? ==> WellFormed(CompileLines(lines, stanza, t, blankLines).value)
    decreases |lines|
  {
    if lines != [] {
      var l := lines[0];
      match stanza
      case Synopsis =>
        if l == "--" {
          CompileLinesWellFormed(lines[1..], OptionLines, t.(usage := t.usage + "\n"), blankLines);
        } else {
          CompileLinesWellFormed(lines[1..], Synopsis, t.(usage := t.usage + l + "\n"), blankLines);
        }
      case OptionLines =>
        if blankLines && l == "" {
          CompileLinesWellFormed(lines[1..], OptionLines, t.(usage := t.usage + "\n"), blankLines);
        } else {
          OptionLineWellFormed(l, t);
          var r := CompileOptionLine(l, t);
          if r.Ok? {
            CompileLinesWellFormed(lines[1..], OptionLines, r.value, blankLines);
          }
        }
    }
  }

  /** Every specification that compiles yields well-formed tables; in
      particular every canonical name is its own canonical name. */
  lemma CompileWellFormed(spec: string, blankLines: bool)
    ensures Compile(spec, blankLines).Ok? ==> WellFormed(Compile(spec, blankLines).value)
  {
    CompileLinesWellFormed(Split(spec, '\n'), Synopsis, NoTables, blankLines);
  }

  /** The tables one option line adds, read off its parts: every name maps to
      the last name, `=` marks that name as taking an argument, a bracketed
      default is recorded under it, and the usage line is appended. */
  lemma OptionLineTables(p: LineParts, t: Tables)
    requires IsLineShape(p)
    requires FreshNames(Split(p.names, ','), t.aliases)
    ensures CompileOptionLine(Render(p), t) == AddOption(p, t)
    ensures
      var names := Split(p.names, ',');
      var canonical := names[|names| - 1];
      AddOption(p, t) == Ok(Tables(
        t.usage + OptionUsage(names, p.marker, p.description),
        t.aliases + AliasesOf(names, canonical),
        match DefaultValue(p.description) {
          case None => t.defaults
          case Some(d) => t.defaults[canonical := d]
        },
        if p.marker == "=" then t.requiresArg + {canonical} else t.requiresArg,
        t.short + ShortOf(names)))
  {
    ScanOptionLineComplete(p);
    var names := Split(p.names, ',');
    RegisterFresh(names, names[|names| - 1], t);
  }

  /** The first offending name of a line decides the error: a name seen
      before (on an earlier line or earlier on the same line) is a duplicate,
      otherwise it is a bad name. */
  lemma {:induction false} RegisterFirstOffence(names: seq<string>, canonical: string, t: Tables, i: nat)
    requires i < |names| && Offends(names, i, t.aliases)
    requires forall j :: 0 <= j < i ==> !Offends(names, j, t.aliases)
    ensures Register(names, canonical, t) ==
      Err(if names[i] in t.aliases || names[i] in names[..i] then DuplicateName else BadName)
    decreases i
  {
    if i > 0 {
      assert !Offends(names, 0, t.aliases);
      var name := names[0];
      var t' := AddName(t, name, canonical);
      var tail := names[1..];
      assert names[..i] == [name] + tail[..i - 1];
      forall j | 0 <= j < i - 1
        ensures !Offends(tail, j, t'.aliases)
      {
        assert !Offends(names, j + 1, t.aliases);
        assert names[..j + 1] == [name] + tail[..j];
      }
      RegisterFirstOffence(tail, canonical, t', i - 1);
    }
  }

  /** A line that repeats a registered name is fatal with DuplicateName when
      that is the first problem of the line. */
  lemma DuplicateNameFatal(p: LineParts, t: Tables, i: nat)
    requires IsLineShape(p)
    requires i < |Split(p.names, ',')|
    requires Split(p.names, ',')[i] in t.aliases
    requires forall j :: 0 <= j < i ==> !Offends(Split(p.names, ','), j, t.aliases)
    ensures CompileOptionLine(Render(p), t) == Err(DuplicateName)
  {
    var names := Split(p.names, ',');
    ScanOptionLineComplete(p);
    RegisterFirstOffence(names, names[|names| - 1], t, i);
  }

  /** An option line is rejected with NoParse exactly when it does not have
      the option-line shape; a line that has it fails, if at all, only on
      its names. */
  lemma NoParseExactly(line: string, t: Tables)
    ensures CompileOptionLine(line, t) == Err(NoParse) <==> forall p :: IsLineShape(p) ==> Render(p) != line
  {
    match ScanOptionLine(line)
    case Some(p) =>
      assert IsLineShape(p) && Render(p) == line;
    case None =>
      forall p | IsLineShape(p)
        ensures Render(p) != line
      {
        ScanOptionLineComplete(p);
      }
  }

  // ---------------------------------------------------------------------
  // Usage of the synopsis

  /** Each line followed by a newline. */
  function Lines(ls: seq<string>): string {
    if ls == [] then "" else ls[0] + "\n" + Lines(ls[1..])
  }

  lemma {:induction false} LinesJoin(ls: seq<string>)
    requires |ls| >= 1
    ensures Lines(ls) == Join(ls, "\n") + "\n"
    decreases |ls|
  {
    if |ls| > 1 {
      LinesJoin(ls[1..]);
    }
  }

  lemma {:induction false} SynopsisLines(ls: seq<string>, t: Tables, blankLines: bool)
    requires "--" !in ls
    ensures CompileLines(ls, Synopsis, t, blankLines) == Ok(t.(usage := t.usage + Lines(ls)))
    decreases |ls|
  {
    if ls != [] {
      assert ls[0] != "--" && "--" !in ls[1..] by {
        assert ls == [ls[0]] + ls[1..];
      }
      var t' := t.(usage := t.usage + ls[0] + "\n");
      assert CompileLines(ls, Synopsis, t, blankLines) == CompileLines(ls[1..], Synopsis, t', blankLines);
      SynopsisLines(ls[1..], t', blankLines);
      assert Lines(ls) == ls[0] + "\n" + Lines(ls[1..]);
      assert t'.usage + Lines(ls[1..]) == t.usage + Lines(ls);
    } else {
      assert t.usage + Lines(ls) == t.usage;
    }
  }

  /** A specification without a `--` line is all synopsis: the usage is the
      text itself plus a final newline, and no option is declared. */
  lemma SynopsisOnly(spec: string, blankLines: bool)
    requires "--" !in Split(spec, '\n')
    ensures Compile(spec, blankLines) == Ok(NoTables.(usage := spec + "\n"))
  {
    var ls := Split(spec, '\n');
    SynopsisLines(ls, NoTables, blankLines);
    LinesJoin(ls);
    JoinSplit(spec, '\n');
    assert "\n" == ['\n'];
    assert Lines(ls) == spec + "\n";
    assert NoTables.usage + Lines(ls) == spec + "\n";
  }

  // ---------------------------------------------------------------------
  // A trailing newline

  lemma {:induction false} TrailingBlankKept(ls: seq<string>, stanza: Stanza, t: Tables)
    requires stanza == OptionLines || "--" in ls
    ensures CompileLines(ls + [""], stanza, t, true) ==
      match CompileLines(ls, stanza, t, true) {
        case Ok(t') => Ok(t'.(usage := t'.usage + "\n"))
        case Err(e) => Err(e)
      }
    decreases |ls|
  {
    if ls == [] {
      assert [""][1..] == [];
    } else {
      assert (ls + [""])[1..] == ls[1..] + [""];
      var l := ls[0];
      match stanza
      case Synopsis =>
        if l == "--" {
          TrailingBlankKept(ls[1..], OptionLines, t.(usage := t.usage + "\n"));
        } else {
          assert "--" in ls[1..];
          TrailingBlankKept(ls[1..], Synopsis, t.(usage := t.usage + l + "\n"));
        }
      case OptionLines =>
        if l == "" {
          TrailingBlankKept(ls[1..], OptionLines, t.(usage := t.usage + "\n"));
        } else {
          var r := CompileOptionLine(l, t);
          if r.Ok? {
            TrailingBlankKept(ls[1..], OptionLines, r.value);
          }
        }
    }
  }

  lemma {:induction false} TrailingBlankFatal(ls: seq<string>, stanza: Stanza, t: Tables)
    requires stanza == OptionLines || "--" in ls
    ensures CompileLines(ls + [""], stanza, t, false).Err?
    decreases |ls|
  {
    if ls == [] {
      assert ListRun("") == 0;
    } else {
      assert (ls + [""])[1..] == ls[1..] + [""];
      var l := ls[0];
      match stanza
      case Synopsis =>
        if l == "--" {
          TrailingBlankFatal(ls[1..], OptionLines, t.(usage := t.usage + "\n"));
        } else {
          assert "--" in ls[1..];
          TrailingBlankFatal(ls[1..], Synopsis, t.(usage := t.usage + l + "\n"));
        }
      case OptionLines =>
        var r := CompileOptionLine(l, t);
        if r.Ok? {
          TrailingBlankFatal(ls[1..], OptionLines, r.value);
        }
    }
  }

  /** With blank lines allowed, a newline after the last option line only
      adds a newline to the usage. */
  lemma TrailingNewlineKept(spec: string)
    requires "--" in Split(spec, '\n')
    ensures Compile(spec + "\n", true) ==
      match Compile(spec, true) {
        case Ok(t) => Ok(t.(usage := t.usage + "\n"))
        case Err(e) => Err(e)
      }
  {
    SplitTrailingSeparator(spec, '\n');
    TrailingBlankKept(Split(spec, '\n'), Synopsis, NoTables);
  }

  /** Without the blank-line rule, a newline after the option stanza's
      separator always makes the specification fatal. */
  lemma TrailingNewlineFatal(spec: string)
    requires "--" in Split(spec, '\n')
    ensures Compile(spec + "\n", false).Err?
  {
    SplitTrailingSeparator(spec, '\n');
    TrailingBlankFatal(Split(spec, '\n'), Synopsis, NoTables);
  }
}
