/** The OptionSpec of pkg/options.go: NewOptions (with the blank-line rule
    and the set of one-character names), the two chainable setters, and the
    older Parse. */
module PkgOptions {
  import opened Wrappers
  import opened SpecCompiler
  import opened ParseEngine
  import opened LegacyEngine

  class OptionSpec {
    var usage: string
    var unknownOptionsFatal: bool
    var unknownValuesFatal: bool
    var aliases: map<string, string>
    var defaults: map<string, string>
    /** The one-character names, kept for clustering, which this version
        does not do. */
    var short: set<string>
    var requiresArg: set<string>

    function Tables(): Tables
      reads this
    {
      SpecCompiler.Tables(usage, aliases, defaults, requiresArg, short)
    }

    /** The compiled tables are well formed. */
    predicate Valid()
      reads this
    {
      WellFormed(Tables())
    }

    /** The part of the spec Parse reads; this version has no callback. */
    function Config(): Config
      reads this
    {
      ParseEngine.Config(aliases, defaults, requiresArg, unknownOptionsFatal, unknownValuesFatal, false)
    }

    constructor FromTables(t: Tables)
      ensures Tables() == t
      ensures unknownOptionsFatal && !unknownValuesFatal
    {
      usage := t.usage;
      aliases := t.aliases;
      defaults := t.defaults;
      short := t.short;
      requiresArg := t.requiresArg;
      unknownOptionsFatal := true;
      unknownValuesFatal := false;
    }

    /** NewOptions: a specification that does not compile is fatal; one that
        does yields a valid spec holding exactly the compiled tables, whose
        `short` holds exactly the one-character names. */
    static method NewOptions(spec: string) returns (r: Result<OptionSpec>)
      ensures r.Ok? <==> Compile(spec, true).Ok?
      ensures r.Err? ==> r.error == Compile(spec, true).error
      ensures r.Ok? ==> fresh(r.value) && r.value.Valid() && r.value.Tables() == Compile(spec, true).value
      ensures r.Ok? ==> r.value.short == set n | n in r.value.aliases && |n| == 1
      ensures r.Ok? ==> r.value.unknownOptionsFatal && !r.value.unknownValuesFatal
    {
      var compiled := CompileSpec(spec, true);
      CompileWellFormed(spec, true);
      if compiled.Err? {
        return Err(compiled.error);
      }
      var s := new OptionSpec.FromTables(compiled.value);
      return Ok(s);
    }

    method SetUnknownOptionsFatal(val: bool) returns (s: OptionSpec)
      modifies this
      ensures s == this && unknownOptionsFatal == val
      ensures unknownValuesFatal == old(unknownValuesFatal) && Tables() == old(Tables())
    {
      unknownOptionsFatal := val;
      return this;
    }

    method SetUnknownValuesFatal(val: bool) returns (s: OptionSpec)
      modifies this
      ensures s == this && unknownValuesFatal == val
      ensures unknownOptionsFatal == old(unknownOptionsFatal) && Tables() == old(Tables())
    {
      unknownValuesFatal := val;
      return this;
    }

    /** Parse: opt, flags and extra, or the fatal error; only canonical
        names and names with a default end up holding values. */
    method Parse(args: seq<string>) returns (r: Result<Outcome>)
      ensures r == LegacyParseSpec(Config(), args)
      ensures r.Ok? ==> StoredOnlyDeclared(Config(), r.value.values)
    {
      r := LegacyParse(Config(), args);
    }
  }
}
