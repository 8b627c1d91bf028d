/** The OptionSpec of the newest version (options/options.go): NewOptions,
    the chainable setters, GetCanonical, and Parse with its default
    callback, each proved against the functions of SpecCompiler and
    ParseEngine. */
module NewestOptions {
  import opened Wrappers
  import opened Text
  import opened Patterns
  import opened Values
  import opened SpecCompiler
  import opened ParseEngine

  /** The one-character names of an alias table. */
  function ShortNames(aliases: map<string, string>): set<string> {
    set n | n in aliases && |n| == 1
  }

  /** `args[i:]` in Go, where Parse may step one past the end. */
  function Rest(args: seq<string>, i: nat): seq<string> {
    if i <= |args| then args[i..] else []
  }

  class OptionSpec {
    var usage: string
    var unknownOptionsFatal: bool
    var unknownValuesFatal: bool
    /** Whether a ParseCallback is installed. */
    var hasCallback: bool
    var aliases: map<string, string>
    var defaults: map<string, string>
    var requiresArg: set<string>

    /** The compiled tables are well formed. */
    predicate Valid()
      reads this
    {
      WellFormed(Tables(usage, aliases, defaults, requiresArg, ShortNames(aliases)))
    }

    /** The part of the spec Parse reads. */
    function Config(): Config
      reads this
    {
      ParseEngine.Config(aliases, defaults, requiresArg, unknownOptionsFatal, unknownValuesFatal, hasCallback)
    }

    /** The spec right after NewOptions: unknown options are fatal, extra
        values are not, and no callback is installed. */
    constructor FromTables(t: Tables)
      ensures usage == t.usage && aliases == t.aliases && defaults == t.defaults && requiresArg == t.requiresArg
      ensures unknownOptionsFatal && !unknownValuesFatal && !hasCallback
    {
      usage := t.usage;
      aliases := t.aliases;
      defaults := t.defaults;
      requiresArg := t.requiresArg;
      unknownOptionsFatal := true;
      unknownValuesFatal := false;
      hasCallback := false;
    }

    /** NewOptions: a specification that does not compile is fatal; one that
        does yields a valid spec holding exactly the compiled tables. */
    static method NewOptions(spec: string) returns (r: Result<OptionSpec>)
      ensures r.Ok? <==> Compile(spec, true).Ok?
      ensures r.Err? ==> r.error == Compile(spec, true).error
      ensures r.Ok? ==> fresh(r.value) && r.value.Valid()
      ensures r.Ok? ==>
        var t := Compile(spec, true).value;
        && r.value.usage == t.usage && r.value.aliases == t.aliases
        && r.value.defaults == t.defaults && r.value.requiresArg == t.requiresArg
      ensures r.Ok? ==> r.value.unknownOptionsFatal && !r.value.unknownValuesFatal && !r.value.hasCallback
    {
      var compiled := CompileSpec(spec, true);
      CompileWellFormed(spec, true);
      if compiled.Err? {
        return Err(compiled.error);
      }
      var s := new OptionSpec.FromTables(compiled.value);
      return Ok(s);
    }

    method SetUnknownOptionsFatal(val: bool) returns (s: OptionSpec)
      modifies this
      ensures s == this && unknownOptionsFatal == val
      ensures unknownValuesFatal == old(unknownValuesFatal) && hasCallback == old(hasCallback)
      ensures usage == old(usage) && aliases == old(aliases) && defaults == old(defaults) && requiresArg == old(requiresArg)
    {
      unknownOptionsFatal := val;
      return this;
    }

    method SetUnknownValuesFatal(val: bool) returns (s: OptionSpec)
      modifies this
      ensures s == this && unknownValuesFatal == val
      ensures unknownOptionsFatal == old(unknownOptionsFatal) && hasCallback == old(hasCallback)
      ensures usage == old(usage) && aliases == old(aliases) && defaults == old(defaults) && requiresArg == old(requiresArg)
    {
      unknownValuesFatal := val;
      return this;
    }

    /** Installing (or removing) a callback; its body is not modelled. */
    method SetParseCallback(installed: bool) returns (s: OptionSpec)
      modifies this
      ensures s == this && hasCallback == installed
      ensures unknownOptionsFatal == old(unknownOptionsFatal) && unknownValuesFatal == old(unknownValuesFatal)
      ensures usage == old(usage) && aliases == old(aliases) && defaults == old(defaults) && requiresArg == old(requiresArg)
    {
      hasCallback := installed;
      return this;
    }

    /** GetCanonical: "" exactly for an unregistered name; otherwise the
        canonical name, which is its own canonical name. */
    function GetCanonical(option: string): (r: string)
      reads this
      ensures Valid() ==> (r == "" <==> option !in aliases)
      ensures r != "" ==> option in aliases && aliases[option] == r
      ensures Valid() && r != "" ==> r in aliases && aliases[r] == r
    {
      if option in aliases then aliases[option] else ""
    }

    /** Parse, with its index loop; a token taken as a value is skipped by
        bumping the index, which may run one past the end. */
    method Parse(args: seq<string>) returns (r: Result<Run>)
      ensures r == ParseSpec(Config(), args)
      ensures r.Ok? ==> StoredOnlyDeclared(Config(), r.value.opt.values)
    {
      var cfg := Config();
      ParseStoresDeclared(cfg, args);
      var run := Start(cfg);
      var i := 0;
      assert Rest(args, i) == args;
      ghost var spec := ParseSpec(cfg, args);
      while i < |args|
        invariant 0 <= i <= |args| + 1
        invariant Scan(cfg, Rest(args, i), run) == spec
        decreases |args| + 1 - i
      {
        var next := ParseToken(cfg, args, i, run);
        if next.Done? {
          return next.result;
        }
        run := next.run;
        i := next.index;
      }
      assert Rest(args, i) == [];
      return Ok(run);
    }
  }

  /** Where the Parse loop goes after one token: on to `index` with `run`,
      or out of Parse with `result`. */
  datatype Next = Continue(run: Run, index: nat) | Done(result: Result<Run>)

  /** The body of the Parse loop at token `i`: `--` ends the loop and keeps
      the rest as Leftover, a plain value goes to Extra (or is fatal), and an
      option token is handled by HandleFlag. */
  method ParseToken(cfg: Config, args: seq<string>, i: nat, run: Run) returns (next: Next)
    requires i < |args|
    ensures next.Done? ==> Scan(cfg, Rest(args, i), run) == next.result
    ensures next.Continue? ==> i < next.index <= i + 2 && Scan(cfg, Rest(args, i), run) == Scan(cfg, Rest(args, next.index), next.run)
  {
    var val := args[i];
    if val == "--" {
      ScanAtTerminator(cfg, args, i, run);
      return Done(Ok(run.(opt := run.opt.(leftover := run.opt.leftover + args[i + 1..]))));
    }
    match ScanFlag(val) {
      case None =>
        ScanAtValue(cfg, args, i, run);
        if cfg.unknownValuesFatal {
          return Done(Err(UnexpectedValue));
        }
        return Continue(run.(opt := run.opt.(extra := run.opt.extra + [val])), i + 1);
      case Some(t) =>
        next := FlagToken(cfg, args, i, t, run);
    }
  }

  /** An option token: a failure ends Parse, otherwise the loop goes on
      past the last token HandleFlag consumed. */
  method FlagToken(cfg: Config, args: seq<string>, i: nat, t: Token, run: Run) returns (next: Next)
    requires i < |args| && args[i] != "--" && ScanFlag(args[i]) == Some(t)
    ensures next.Done? ==> next.result.Err? && Scan(cfg, Rest(args, i), run) == next.result
    ensures next.Continue? ==> i < next.index <= i + 2 && Scan(cfg, Rest(args, i), run) == Scan(cfg, Rest(args, next.index), next.run)
  {
    var step := HandleFlag(cfg, args, i, t, run);
    if step.Err? {
      return Done(Err(step.error));
    }
    return Continue(step.value.0, step.value.1 + 1);
  }

  /** The body of the Parse loop for an option token at index `i`: the
      lookahead, the value, and the callback. Returns the new run and the
      index of the last token consumed. */
  method HandleFlag(cfg: Config, args: seq<string>, i: nat, t: Token, run: Run) returns (r: Result<(Run, nat)>)
    requires i < |args| && args[i] != "--" && ScanFlag(args[i]) == Some(t)
    ensures r.Err? ==> Scan(cfg, Rest(args, i), run) == Err(r.error)
    ensures r.Ok? ==> i <= r.value.1 <= i + 1 && Scan(cfg, Rest(args, i), run) == Scan(cfg, Rest(args, r.value.1 + 1), r.value.0)
  {
    ScanAtFlag(cfg, args, i, t, run);
    StepAt(cfg, args, i, t, run);
    var j := i;
    var next := if i < |args| - 1 then Some(args[i + 1]) else None;
    var needsArg := Lookahead(cfg, t, next);
    var value := None;
    if needsArg {
      if t.selfValue.Some? {
        value := t.selfValue;
      } else {
        j := j + 1;
        value := next;
      }
    }
    var run' := Callback(cfg, t, value, run);
    if run'.Err? {
      return Err(run'.error);
    }
    return Ok((run'.value, j));
  }

  /** The loop of Parse at a `--` token: the rest becomes Leftover. */
  lemma ScanAtTerminator(cfg: Config, args: seq<string>, i: nat, run: Run)
    requires i < |args| && args[i] == "--"
    ensures Scan(cfg, Rest(args, i), run) == Ok(run.(opt := run.opt.(leftover := run.opt.leftover + args[i + 1..])))
  {
    assert args[i..][0] == args[i] && args[i..][1..] == args[i + 1..];
  }

  /** The loop of Parse at a token that is not option-shaped. */
  lemma ScanAtValue(cfg: Config, args: seq<string>, i: nat, run: Run)
    requires i < |args| && args[i] != "--" && ScanFlag(args[i]).None?
    ensures Scan(cfg, Rest(args, i), run) ==
      if cfg.unknownValuesFatal then Err(UnexpectedValue)
      else Scan(cfg, Rest(args, i + 1), run.(opt := run.opt.(extra := run.opt.extra + [args[i]])))
  {
    assert args[i..][0] == args[i] && args[i..][1..] == args[i + 1..];
  }

  /** The loop of Parse at an option token: one Step on the tokens after it. */
  lemma ScanAtFlag(cfg: Config, args: seq<string>, i: nat, t: Token, run: Run)
    requires i < |args| && args[i] != "--" && ScanFlag(args[i]) == Some(t)
    ensures Scan(cfg, Rest(args, i), run) == Step(cfg, t, Rest(args, i + 1), run)
  {
    assert args[i..][0] == args[i] && args[i..][1..] == args[i + 1..];
  }

  /** One option token at index `i`: the callback runs with the value the
      lookahead chose, and the loop resumes one token further when that
      value was the next token. */
  lemma StepAt(cfg: Config, args: seq<string>, i: nat, t: Token, run: Run)
    requires i < |args| && |t.name| >= 1
    ensures
      var next := if i < |args| - 1 then Some(args[i + 1]) else None;
      var skip := NeedsArg(cfg, t, next) && t.selfValue.None?;
      Step(cfg, t, Rest(args, i + 1), run) ==
        match Dispatch(cfg, t, ValueOf(cfg, t, next), run) {
          case Err(e) => Err(e)
          case Ok(run') => Scan(cfg, Rest(args, if skip then i + 2 else i + 1), run')
        }
  {
  }

  /** The lookahead of Parse, written as the source writes it: a flag set
      by three successive tests. */
  method Lookahead(cfg: Config, t: Token, next: Option<string>) returns (needsArg: bool)
    requires |t.name| >= 1
    ensures needsArg == NeedsArg(cfg, t, next)
    ensures t.name in cfg.aliases ==> (needsArg <==> cfg.aliases[t.name] in cfg.requiresArg)
  {
    var known := t.name in cfg.aliases;
    var maybeClustering := !known && t.dash == "-";
    needsArg := known && cfg.aliases[t.name] in cfg.requiresArg;
    if !known && next.Some? && !HasPrefix(next.value, "-") {
      needsArg := true;
    }
    if maybeClustering && t.selfValue.Some? {
      needsArg := true;
    }
    var lastClustered := Lookup(cfg.aliases, t.name[|t.name| - 1..]);
    if maybeClustering && lastClustered in cfg.requiresArg {
      needsArg := true;
    }
  }

  /** The callback call: an installed one only records the call; the
      default one updates the values and the log. */
  method Callback(cfg: Config, t: Token, value: Option<string>, run: Run) returns (r: Result<Run>)
    requires |t.name| >= 1
    ensures r == Dispatch(cfg, t, value, run)
    ensures cfg.callback ==> r.Ok? && r.value.opt == run.opt
  {
    if cfg.callback {
      return Ok(run.(calls := run.calls + [Call(t.name, value)]));
    }
    var opt := RunDefaultCallback(cfg, t, value, run.opt);
    if opt.Err? {
      return Err(opt.error);
    }
    return Ok(run.(opt := opt.value));
  }

  /** The default callback, with its loop over the characters of a
      cluster. */
  method RunDefaultCallback(cfg: Config, t: Token, value: Option<string>, opt: Options) returns (r: Result<Options>)
    requires |t.name| >= 1
    ensures r == DefaultCallback(cfg, t, value, opt)
    ensures r.Ok? ==> r.value.flags == opt.flags + [Flag(t.Presented(), value)]
    ensures r.Ok? ==> r.value.extra == opt.extra && r.value.leftover == opt.leftover
  {
    var o := opt.values;
    if t.dash == "-" && |t.name| > 1 {
      var j := 0;
      while j < |t.name|
        invariant 0 <= j <= |t.name|
        invariant Cluster(cfg, t.name, value, opt.values) == Cluster(cfg, t.name[j..], value, o)
      {
        assert t.name[j..][0] == t.name[j] && t.name[j..][1..] == t.name[j + 1..];
        var o' := Occurrence(cfg, [t.name[j]], value, j == |t.name| - 1, o);
        if o'.Err? {
          return Err(o'.error);
        }
        o := o'.value;
        j := j + 1;
      }
      assert t.name[j..] == [];
    } else {
      var o' := Occurrence(cfg, t.name, value, true, o);
      if o'.Err? {
        return Err(o'.error);
      }
      o := o'.value;
    }
    return Ok(opt.(values := o, flags := opt.flags + [Flag(t.Presented(), value)]));
  }

  /** One option name seen by the default callback: an unknown one is fatal
      or skipped, an argument option stores its value, and any other option
      counts. */
  method Occurrence(cfg: Config, name: string, value: Option<string>, isLast: bool, o: Store) returns (r: Result<Store>)
    ensures r == Occur(cfg, name, value, isLast, o)
    ensures r.Ok? ==> r.value.known == o.known
    ensures r.Ok? && name in cfg.aliases ==> r.value.opts.Keys == o.opts.Keys + {cfg.aliases[name]}
    ensures r.Ok? && name !in cfg.aliases ==> r.value == o
  {
    if name !in cfg.aliases {
      if cfg.unknownOptionsFatal {
        return Err(UnknownOption);
      }
      return Ok(o);
    }
    var c := cfg.aliases[name];
    if c in cfg.requiresArg {
      if value.None? || !isLast {
        return Err(MissingArgument);
      }
      return Ok(o.(opts := o.opts[c := value.value]));
    }
    if value.Some? && isLast {
      return Err(UnexpectedArgument);
    }
    var n := GetInt(o, c);
    if n.Err? {
      return Err(n.error);
    }
    return Ok(o.(opts := o.opts[c := IntToString(n.value + 1)]));
  }
}
