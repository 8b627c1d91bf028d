/** The OptionSpec of the root options.go, the oldest version: NewOptions
    without the blank-line rule, the older Parse, and a GetBool that does
    not know the spelling "null". Its settings are plain fields, with no
    setters. */
module RootOptions {
  import opened Wrappers
  import opened Text
  import opened Values
  import opened SpecCompiler
  import opened ParseEngine
  import opened LegacyEngine

  /** The spellings this GetBool reads as false. */
  predicate IsRootFalseSpelling(v: string) {
    v == "" || v == "0" || v == "false" || v == "off" || v == "nil" || v == "no"
  }

  /** GetBool of this version: every value is true except the six false
      spellings. */
  function RootGetBool(o: Store, flag: string): (r: Result<bool>)
    ensures Get(o, flag).Err? <==> r.Err?
    ensures Get(o, flag) == Ok("") ==> r == Ok(false)
  {
    var v :- Get(o, flag);
    Ok(!IsRootFalseSpelling(v))
  }

  /** The two GetBools differ on exactly one spelling: "null" is true here
      and false in the later versions. */
  lemma RootGetBoolNull(o: Store, flag: string)
    ensures RootGetBool(o, flag).Ok? <==> GetBool(o, flag).Ok?
    ensures Get(o, flag) == Ok("null") ==> RootGetBool(o, flag) == Ok(true) && GetBool(o, flag) == Ok(false)
    ensures Get(o, flag).Ok? && Get(o, flag).value != "null" ==> RootGetBool(o, flag) == GetBool(o, flag)
  {
  }

  class OptionSpec {
    var usage: string
    var unknownOptionsFatal: bool
    var unknownValuesFatal: bool
    var aliases: map<string, string>
    var defaults: map<string, string>
    /** The one-character names, kept for clustering, which this version
        does not do. */
    var short: set<string>
    var requiresArg: set<string>

    function Tables(): Tables
      reads this
    {
      SpecCompiler.Tables(usage, aliases, defaults, requiresArg, short)
    }

    /** The compiled tables are well formed. */
    predicate Valid()
      reads this
    {
      WellFormed(Tables())
    }

    /** The part of the spec Parse reads; this version has no callback. */
    function Config(): Config
      reads this
    {
      ParseEngine.Config(aliases, defaults, requiresArg, unknownOptionsFatal, unknownValuesFatal, false)
    }

    constructor FromTables(t: Tables)
      ensures Tables() == t
      ensures unknownOptionsFatal && !unknownValuesFatal
    {
      usage := t.usage;
      aliases := t.aliases;
      defaults := t.defaults;
      short := t.short;
      requiresArg := t.requiresArg;
      unknownOptionsFatal := true;
      unknownValuesFatal := false;
    }

    /** NewOptions: the option stanza has no blank-line rule here, so an
        empty line after `--` (including the one a trailing newline
        produces) is fatal. */
    static method NewOptions(spec: string) returns (r: Result<OptionSpec>)
      ensures r.Ok? <==> Compile(spec, false).Ok?
      ensures r.Err? ==> r.error == Compile(spec, false).error
      ensures r.Ok? ==> fresh(r.value) && r.value.Valid() && r.value.Tables() == Compile(spec, false).value
      ensures r.Ok? ==> r.value.unknownOptionsFatal && !r.value.unknownValuesFatal
    {
      var compiled := CompileSpec(spec, false);
      CompileWellFormed(spec, false);
      if compiled.Err? {
        return Err(compiled.error);
      }
      var s := new OptionSpec.FromTables(compiled.value);
      return Ok(s);
    }

    /** Parse: opt, flags and extra, or the fatal error. */
    method Parse(args: seq<string>) returns (r: Result<Outcome>)
      ensures r == LegacyParseSpec(Config(), args)
      ensures r.Ok? ==> StoredOnlyDeclared(Config(), r.value.values)
    {
      r := LegacyParse(Config(), args);
    }
  }
}
