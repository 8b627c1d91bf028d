/** Parse of the two older versions (pkg/options.go and the root
    options.go, whose Parse code is the same): no clustering and no
    callbacks; `--` stops the scan and the tokens after it are dropped;
    an inline value on an option without an argument is fatal. The older
    Parse reads the same Config as the newest one except `callback`,
    which it ignores. */
module LegacyEngine {
  import opened Wrappers
  import opened Text
  import opened Patterns
  import opened Values
  import opened ParseEngine

  /** The three values the older Parse returns: opt, flags and extra. */
  datatype Outcome = Outcome(values: Store, flags: seq<Flag>, extra: seq<string>)

  function LegacyStart(cfg: Config): Outcome {
    Outcome(Store(cfg.defaults, cfg.aliases.Values), [], [])
  }

  /** `recordOptionValue`: store under the canonical name, if there is
      one, and log the flag with the value. */
  function RecordValue(out: Outcome, canonical: Option<string>, presented: string, v: string): Outcome {
    var values := if canonical.Some? then Set(out.values, canonical.value, v) else out.values;
    out.(values := values, flags := out.flags + [Flag(presented, Some(v))])
  }

  /** `recordOptionNoValue`: count under the canonical name, if there is
      one, and log the flag without a value. */
  function RecordNoValue(out: Outcome, canonical: Option<string>, presented: string): Result<Outcome> {
    var values :-
      if canonical.Some? then
        var n :- GetInt(out.values, canonical.value);
        Ok(Set(out.values, canonical.value, IntToString(n + 1)))
      else Ok(out.values);
    Ok(out.(values := values, flags := out.flags + [Flag(presented, None)]))
  }

  /** The older Parse loop over the remaining tokens. */
  function LegacyScan(cfg: Config, rest: seq<string>, out: Outcome): Result<Outcome>
    decreases |rest|, 1
  {
    if rest == [] || rest[0] == "--" then Ok(out)
    else match ScanFlag(rest[0]) {
      case None =>
        if cfg.unknownValuesFatal then Err(UnexpectedValue)
        else LegacyScan(cfg, rest[1..], out.(extra := out.extra + [rest[0]]))
      case Some(t) => LegacyStep(cfg, t, rest[1..], out)
    }
  }

  /** One option token `t` followed by `after`. */
  function LegacyStep(cfg: Config, t: Token, after: seq<string>, out: Outcome): Result<Outcome>
    decreases |after| + 1, 0
  {
    var p := t.Presented();
    if t.name in cfg.aliases then
      var c := cfg.aliases[t.name];
      if c in cfg.requiresArg then
        if t.selfValue.Some? then LegacyScan(cfg, after, RecordValue(out, Some(c), p, t.selfValue.value))
        else if after != [] then LegacyScan(cfg, after[1..], RecordValue(out, Some(c), p, after[0]))
        else Err(MissingArgument)
      else if t.selfValue.Some? then Err(UnexpectedArgument)
      else
        var out' :- RecordNoValue(out, Some(c), p);
        LegacyScan(cfg, after, out')
    else if cfg.unknownOptionsFatal then Err(UnknownOption)
    else if t.selfValue.Some? then LegacyScan(cfg, after, RecordValue(out, None, p, t.selfValue.value))
    else if after != [] && !HasPrefix(after[0], "-") then LegacyScan(cfg, after[1..], RecordValue(out, None, p, after[0]))
    else
      var out' :- RecordNoValue(out, None, p);
      LegacyScan(cfg, after, out')
  }

  function LegacyParseSpec(cfg: Config, args: seq<string>): Result<Outcome> {
    LegacyScan(cfg, args, LegacyStart(cfg))
  }

  // ---------------------------------------------------------------------
  // The Parse loop, shared by both older OptionSpec classes

  /** The older Parse, with its index loop. */
  method LegacyParse(cfg: Config, args: seq<string>) returns (r: Result<Outcome>)
    ensures r == LegacyParseSpec(cfg, args)
    ensures r.Ok? ==> StoredOnlyDeclared(cfg, r.value.values)
  {
    LegacyParseStoresDeclared(cfg, args);
    var out := LegacyStart(cfg);
    var i := 0;
    while i < |args|
      invariant 0 <= i <= |args|
      invariant LegacyScan(cfg, args[i..], out) == LegacyParseSpec(cfg, args)
    {
      var val := args[i];
      assert args[i..][0] == val && args[i..][1..] == args[i + 1..];
      if val == "--" {
        break;
      }
      match ScanFlag(val) {
        case None =>
          if cfg.unknownValuesFatal {
            return Err(UnexpectedValue);
          }
          out := out.(extra := out.extra + [val]);
        case Some(t) =>
          var step :- HandleLegacyFlag(cfg, args, i, t, out);
          out := step.0;
          i := step.1;
      }
      i := i + 1;
    }
    return Ok(out);
  }

  /** The loop body for an option token at index `i`; returns the new
      outcome and the index of the last token consumed. */
  method HandleLegacyFlag(cfg: Config, args: seq<string>, i: nat, t: Token, out: Outcome)
    returns (r: Result<(Outcome, nat)>)
    requires i < |args|
    ensures r.Err? ==> LegacyStep(cfg, t, args[i + 1..], out) == Err(r.error)
    ensures r.Ok? ==> i <= r.value.1 < |args| && LegacyStep(cfg, t, args[i + 1..], out) == LegacyScan(cfg, args[r.value.1 + 1..], r.value.0)
  {
    var p := t.Presented();
    var after := args[i + 1..];
    if i < |args| - 1 {
      assert after[0] == args[i + 1] && after[1..] == args[i + 2..];
    }
    var hasNext := i < |args| - 1;
    if t.name in cfg.aliases {
      var c := cfg.aliases[t.name];
      if c in cfg.requiresArg {
        if t.selfValue.Some? {
          return Ok((RecordValue(out, Some(c), p, t.selfValue.value), i));
        } else if hasNext {
          return Ok((RecordValue(out, Some(c), p, args[i + 1]), i + 1));
        }
        return Err(MissingArgument);
      }
      if t.selfValue.Some? {
        return Err(UnexpectedArgument);
      }
      var out' :- RecordNoValue(out, Some(c), p);
      return Ok((out', i));
    }
    if cfg.unknownOptionsFatal {
      return Err(UnknownOption);
    }
    if t.selfValue.Some? {
      return Ok((RecordValue(out, None, p, t.selfValue.value), i));
    } else if hasNext && !HasPrefix(args[i + 1], "-") {
      return Ok((RecordValue(out, None, p, args[i + 1]), i + 1));
    }
    return Ok((RecordNoValue(out, None, p).value, i));
  }

  // ---------------------------------------------------------------------
  // Properties

  /** Scanning a token the user wrote as `t` takes one step. */
  lemma LegacyScanToken(cfg: Config, t: Token, rest: seq<string>, out: Outcome)
    requires Presentable(t)
    ensures LegacyScan(cfg, [RenderToken(t)] + rest, out) == LegacyStep(cfg, t, rest, out)
  {
    ReadBack(t);
    var args := [RenderToken(t)] + rest;
    assert args[0] == RenderToken(t) && args[1..] == rest;
  }

  /** Tokens that are not option-shaped go to extra in order; `--` then
      ends the scan and every token after it is dropped: it reaches neither
      the values nor extra. */
  lemma {:induction false} LegacyTerminatorDrops(cfg: Config, xs: seq<string>, rest: seq<string>, out: Outcome)
    requires !cfg.unknownValuesFatal
    requires forall k :: 0 <= k < |xs| ==> xs[k] != "--" && ScanFlag(xs[k]).None?
    ensures LegacyScan(cfg, xs + ["--"] + rest, out) == Ok(out.(extra := out.extra + xs))
    decreases |xs|
  {
    if xs == [] {
      assert xs + ["--"] + rest == ["--"] + rest;
      assert out.extra + xs == out.extra;
    } else {
      var s := xs + ["--"] + rest;
      assert s[0] == xs[0] && s[1..] == xs[1..] + ["--"] + rest;
      var out' := out.(extra := out.extra + [xs[0]]);
      LegacyTerminatorDrops(cfg, xs[1..], rest, out');
      assert out'.extra + xs[1..] == out.extra + xs;
    }
  }

  /** A known option that requires an argument takes the next token,
      whatever it looks like. */
  lemma LegacyKnownArgumentSeparate(cfg: Config, t: Token, v: string, rest: seq<string>, out: Outcome)
    requires Presentable(t) && t.selfValue.None?
    requires t.name in cfg.aliases && cfg.aliases[t.name] in cfg.requiresArg
    ensures LegacyScan(cfg, [RenderToken(t), v] + rest, out) ==
      LegacyScan(cfg, rest, out.(values := Set(out.values, cfg.aliases[t.name], v), flags := out.flags + [Flag(t.Presented(), Some(v))]))
  {
    assert [RenderToken(t), v] + rest == [RenderToken(t)] + ([v] + rest);
    LegacyScanToken(cfg, t, [v] + rest, out);
    assert ([v] + rest)[0] == v && ([v] + rest)[1..] == rest;
  }

  /** `--name=v` means the same as `--name v`, and `-n=v` as `-n v`. */
  lemma LegacyKnownArgumentInline(cfg: Config, t: Token, v: string, rest: seq<string>, out: Outcome)
    requires Presentable(t) && t.selfValue == Some(v)
    requires t.name in cfg.aliases && cfg.aliases[t.name] in cfg.requiresArg
    ensures LegacyScan(cfg, [RenderToken(t)] + rest, out) ==
      LegacyScan(cfg, [RenderToken(t.(selfValue := None)), v] + rest, out)
  {
    var bare := t.(selfValue := None);
    LegacyScanToken(cfg, t, rest, out);
    LegacyKnownArgumentSeparate(cfg, bare, v, rest, out);
    assert bare.Presented() == t.Presented();
  }

  /** A known option that requires an argument, last and without an inline
      value, is fatal. */
  lemma LegacyKnownArgumentMissing(cfg: Config, t: Token, out: Outcome)
    requires Presentable(t) && t.selfValue.None?
    requires t.name in cfg.aliases && cfg.aliases[t.name] in cfg.requiresArg
    ensures LegacyScan(cfg, [RenderToken(t)], out) == Err(MissingArgument)
  {
    LegacyScanToken(cfg, t, [], out);
    assert [RenderToken(t)] + [] == [RenderToken(t)];
  }

  /** An inline value on a known option without an argument is fatal (the
      newest version drops it instead). */
  lemma LegacyNoArgInlineFatal(cfg: Config, t: Token, v: string, rest: seq<string>, out: Outcome)
    requires Presentable(t) && t.selfValue == Some(v)
    requires t.name in cfg.aliases && cfg.aliases[t.name] !in cfg.requiresArg
    ensures LegacyScan(cfg, [RenderToken(t)] + rest, out) == Err(UnexpectedArgument)
  {
    LegacyScanToken(cfg, t, rest, out);
  }

  /** A known option without an argument counts one more occurrence, and
      GetInt then reads the count back. */
  lemma LegacyCountOnce(cfg: Config, t: Token, m: int, rest: seq<string>, out: Outcome)
    requires Presentable(t) && t.selfValue.None?
    requires t.name in cfg.aliases && cfg.aliases[t.name] !in cfg.requiresArg
    requires GetInt(out.values, cfg.aliases[t.name]) == Ok(m)
    ensures LegacyScan(cfg, [RenderToken(t)] + rest, out) ==
      LegacyScan(cfg, rest, out.(values := Set(out.values, cfg.aliases[t.name], IntToString(m + 1)), flags := out.flags + [Flag(t.Presented(), None)]))
    ensures GetInt(Set(out.values, cfg.aliases[t.name], IntToString(m + 1)), cfg.aliases[t.name]) == Ok(m + 1)
  {
    LegacyScanToken(cfg, t, rest, out);
    GetIntCount(out.values, cfg.aliases[t.name], m + 1);
  }

  /** There is no clustering: `-ab` is the single name `ab`, unknown unless
      registered as such, even when `a` and `b` are. */
  lemma LegacyNoClustering(cfg: Config, a: char, b: char, rest: seq<string>, out: Outcome)
    requires Presentable(Token("-", [a, b], None))
    requires [a] in cfg.aliases && [b] in cfg.aliases && [a, b] !in cfg.aliases
    requires cfg.unknownOptionsFatal
    ensures LegacyScan(cfg, ["-" + [a, b]] + rest, out) == Err(UnknownOption)
  {
  }

  /** An unknown option is fatal by default. */
  lemma LegacyUnknownFatal(cfg: Config, t: Token, rest: seq<string>, out: Outcome)
    requires Presentable(t) && t.name !in cfg.aliases && cfg.unknownOptionsFatal
    ensures LegacyScan(cfg, [RenderToken(t)] + rest, out) == Err(UnknownOption)
  {
    LegacyScanToken(cfg, t, rest, out);
  }

  /** An unknown option keeps its inline value, whatever follows (the
      newest version may drop it), and does not consume the next token. */
  lemma LegacyUnknownInlineKept(cfg: Config, t: Token, v: string, rest: seq<string>, out: Outcome)
    requires Presentable(t) && t.selfValue == Some(v)
    requires t.name !in cfg.aliases && !cfg.unknownOptionsFatal
    ensures LegacyScan(cfg, [RenderToken(t)] + rest, out) ==
      LegacyScan(cfg, rest, out.(flags := out.flags + [Flag(t.Presented(), Some(v))]))
  {
    LegacyScanToken(cfg, t, rest, out);
  }

  /** Without an inline value, an unknown option takes the next token
      exactly when it does not start with `-`; it is only logged. */
  lemma LegacyUnknownLookahead(cfg: Config, t: Token, v: string, rest: seq<string>, out: Outcome)
    requires Presentable(t) && t.selfValue.None?
    requires t.name !in cfg.aliases && !cfg.unknownOptionsFatal
    ensures !HasPrefix(v, "-") ==>
      (LegacyScan(cfg, [RenderToken(t), v] + rest, out) ==
       LegacyScan(cfg, rest, out.(flags := out.flags + [Flag(t.Presented(), Some(v))])))
    ensures HasPrefix(v, "-") ==>
      (LegacyScan(cfg, [RenderToken(t), v] + rest, out) ==
       LegacyScan(cfg, [v] + rest, out.(flags := out.flags + [Flag(t.Presented(), None)])))
  {
    assert [RenderToken(t), v] + rest == [RenderToken(t)] + ([v] + rest);
    LegacyScanToken(cfg, t, [v] + rest, out);
    assert ([v] + rest)[0] == v && ([v] + rest)[1..] == rest;
  }

  lemma {:induction false} LegacyScanStoresDeclared(cfg: Config, rest: seq<string>, out: Outcome)
    requires StoredOnlyDeclared(cfg, out.values)
    ensures LegacyScan(cfg, rest, out).Ok? ==> StoredOnlyDeclared(cfg, LegacyScan(cfg, rest, out).value.values)
    decreases |rest|, 1
  {
    if rest != [] && rest[0] != "--" {
      var f := ScanFlag(rest[0]);
      if f.None? {
        if !cfg.unknownValuesFatal {
          LegacyScanStoresDeclared(cfg, rest[1..], out.(extra := out.extra + [rest[0]]));
        }
      } else {
        LegacyStepStoresDeclared(cfg, f.value, rest[1..], out);
      }
    }
  }

  lemma {:induction false} LegacyStepStoresDeclared(cfg: Config, t: Token, after: seq<string>, out: Outcome)
    requires StoredOnlyDeclared(cfg, out.values)
    ensures LegacyStep(cfg, t, after, out).Ok? ==> StoredOnlyDeclared(cfg, LegacyStep(cfg, t, after, out).value.values)
    decreases |after| + 1, 0
  {
    var p := t.Presented();
    if t.name in cfg.aliases {
      var c := cfg.aliases[t.name];
      assert c in cfg.aliases.Values;
      if c in cfg.requiresArg {
        if t.selfValue.Some? {
          LegacyScanStoresDeclared(cfg, after, RecordValue(out, Some(c), p, t.selfValue.value));
        } else if after != [] {
          LegacyScanStoresDeclared(cfg, after[1..], RecordValue(out, Some(c), p, after[0]));
        }
      } else if t.selfValue.None? {
        var r := RecordNoValue(out, Some(c), p);
        if r.Ok? {
          LegacyScanStoresDeclared(cfg, after, r.value);
        }
      }
    } else if !cfg.unknownOptionsFatal {
      if t.selfValue.Some? {
        LegacyScanStoresDeclared(cfg, after, RecordValue(out, None, p, t.selfValue.value));
      } else if after != [] && !HasPrefix(after[0], "-") {
        LegacyScanStoresDeclared(cfg, after[1..], RecordValue(out, None, p, after[0]));
      } else {
        LegacyScanStoresDeclared(cfg, after, RecordNoValue(out, None, p).value);
      }
    }
  }

  /** Whatever the command line, the older Parse stores values only under
      canonical names and names with a default. */
  lemma LegacyParseStoresDeclared(cfg: Config, args: seq<string>)
    ensures LegacyParseSpec(cfg, args).Ok? ==> StoredOnlyDeclared(cfg, LegacyParseSpec(cfg, args).value.values)
  {
    LegacyScanStoresDeclared(cfg, args, LegacyStart(cfg));
  }
}
