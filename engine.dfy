/** Parse of the newest version (options/options.go), as a function of the
    configuration and the remaining command-line tokens: the lookahead that
    decides whether an option takes a value, the default callback with its
    per-character clustering, and the user-callback mode. */
module ParseEngine {
  import opened Wrappers
  import opened Text
  import opened Patterns
  import opened Values

  /** What Parse reads from the OptionSpec. `callback` tells whether a
      ParseCallback is installed; its body is not modelled. */
  datatype Config = Config(
    aliases: map<string, string>,
    defaults: map<string, string>,
    requiresArg: set<string>,
    unknownOptionsFatal: bool,
    unknownValuesFatal: bool,
    callback: bool)

  /** One call of an installed ParseCallback: the presented name without
      its dashes, and the value handed over, if any. */
  datatype Call = Call(option: string, value: Option<string>)

  /** The Options value Parse returns. */
  datatype Options = Options(values: Store, flags: seq<Flag>, extra: seq<string>, leftover: seq<string>)

  /** The result of Parse together with the calls an installed callback
      received. */
  datatype Run = Run(opt: Options, calls: seq<Call>)

  /** Parse before the first token: the defaults are the values, every
      canonical name is known, and the logs are empty. */
  function Start(cfg: Config): Run {
    Run(Options(Store(cfg.defaults, cfg.aliases.Values), [], [], []), [])
  }

  /** `s.aliases[name]` in Go: "" for a name that is not registered. */
  function Lookup(aliases: map<string, string>, name: string): string {
    if name in aliases then aliases[name] else ""
  }

  /** The lookahead: whether the option receives a value. A known option
      does when it requires one; an unknown option does when a following
      token does not start with `-`; an unknown single-dash name (a
      possible cluster) does when it has an inline value or when its last
      character names an option that requires one. */
  predicate NeedsArg(cfg: Config, t: Token, next: Option<string>)
    requires |t.name| >= 1
  {
    var known := t.name in cfg.aliases;
    var maybeClustering := !known && t.dash == "-";
    || (known && cfg.aliases[t.name] in cfg.requiresArg)
    || (!known && next.Some? && !HasPrefix(next.value, "-"))
    || (maybeClustering && t.selfValue.Some?)
    || (maybeClustering && Lookup(cfg.aliases, t.name[|t.name| - 1..]) in cfg.requiresArg)
  }

  /** The default callback's handling of one option name (a whole name, or
      one character of a cluster). Only the last character of a cluster may
      take the value. An option without an argument counts its occurrences. */
  function Occur(cfg: Config, name: string, value: Option<string>, isLast: bool, o: Store): Result<Store> {
    if name !in cfg.aliases then
      if cfg.unknownOptionsFatal then Err(UnknownOption) else Ok(o)
    else
      var c := cfg.aliases[name];
      if c in cfg.requiresArg then
        if value.None? || !isLast then Err(MissingArgument)
        else Ok(o.(opts := o.opts[c := value.value]))
      else if value.Some? && isLast then Err(UnexpectedArgument)
      else
        var n :- GetInt(o, c);
        Ok(o.(opts := o.opts[c := IntToString(n + 1)]))
  }

  /** The clustering loop over the characters of `-abc`, left to right. */
  function Cluster(cfg: Config, chars: string, value: Option<string>, o: Store): Result<Store>
    decreases |chars|
  {
    if chars == [] then Ok(o)
    else
      var o' :- Occur(cfg, [chars[0]], value, |chars| == 1, o);
      Cluster(cfg, chars[1..], value, o')
  }

  /** The default callback: a single-dash name longer than one character is
      a cluster, even when the whole name is registered; the flag is logged
      once with its value. */
  function DefaultCallback(cfg: Config, t: Token, value: Option<string>, opt: Options): Result<Options>
    requires |t.name| >= 1
  {
    var values :-
      if t.dash == "-" && |t.name| > 1 then Cluster(cfg, t.name, value, opt.values)
      else Occur(cfg, t.name, value, true, opt.values);
    Ok(opt.(values := values, flags := opt.flags + [Flag(t.Presented(), value)]))
  }

  /** The installed callback replaces the default one entirely. */
  function Dispatch(cfg: Config, t: Token, value: Option<string>, run: Run): Result<Run>
    requires |t.name| >= 1
  {
    if cfg.callback then Ok(run.(calls := run.calls + [Call(t.name, value)]))
    else
      var opt :- DefaultCallback(cfg, t, value, run.opt);
      Ok(run.(opt := opt))
  }

  /** The Parse loop over the remaining tokens `rest`. */
  function Scan(cfg: Config, rest: seq<string>, run: Run): Result<Run>
    decreases |rest|, 1
  {
    if rest == [] then Ok(run)
    else if rest[0] == "--" then Ok(run.(opt := run.opt.(leftover := run.opt.leftover + rest[1..])))
    else match ScanFlag(rest[0]) {
      case None =>
        if cfg.unknownValuesFatal then Err(UnexpectedValue)
        else Scan(cfg, rest[1..], run.(opt := run.opt.(extra := run.opt.extra + [rest[0]])))
      case Some(t) => Step(cfg, t, rest[1..], run)
    }
  }

  /** The value the option token `t` receives, given the token after it. */
  function ValueOf(cfg: Config, t: Token, next: Option<string>): Option<string>
    requires |t.name| >= 1
  {
    if !NeedsArg(cfg, t, next) then None
    else if t.selfValue.Some? then t.selfValue
    else next
  }

  /** One option token `t` followed by the tokens `after`: the callback
      runs, and the next token is consumed when it became the value. */
  function Step(cfg: Config, t: Token, after: seq<string>, run: Run): Result<Run>
    requires |t.name| >= 1
    decreases |after| + 1, 0
  {
    var next := if after != [] then Some(after[0]) else None;
    var run' :- Dispatch(cfg, t, ValueOf(cfg, t, next), run);
    if NeedsArg(cfg, t, next) && t.selfValue.None? && after != [] then Scan(cfg, after[1..], run')
    else Scan(cfg, after, run')
  }

  /** Parse as a function of the configuration and the arguments. */
  function ParseSpec(cfg: Config, args: seq<string>): Result<Run> {
    Scan(cfg, args, Start(cfg))
  }

  // ---------------------------------------------------------------------
  // Helpers for stating properties

  /** A token the user can write: the pattern reads it back as itself. */
  predicate Presentable(t: Token) {
    IsTokenShape(t) && (t.dash == "-" ==> t.name[0] != '-')
  }

  /** A token the default callback handles as one name, not as a cluster. */
  predicate Whole(t: Token)
    requires |t.name| >= 1
  {
    t.dash == "--" || |t.name| == 1
  }

  /** The run after the default callback stored `o` and logged `f`. */
  function Record(run: Run, o: Store, f: Flag): Run {
    run.(opt := run.opt.(values := o, flags := run.opt.flags + [f]))
  }

  function Set(o: Store, c: string, v: string): Store {
    o.(opts := o.opts[c := v])
  }

  function Repeat<T>(x: T, n: nat): (r: seq<T>)
    ensures |r| == n && forall k :: 0 <= k < n ==> r[k] == x
  {
    if n == 0 then [] else [x] + Repeat(x, n - 1)
  }

  lemma ReadBack(t: Token)
    requires Presentable(t)
    ensures ScanFlag(RenderToken(t)) == Some(t)
    ensures RenderToken(t) != "--"
  {
    ScanFlagComplete(t);
    var s := RenderToken(t);
    if t.dash == "--" {
      assert |s| > 2;
    } else {
      assert s[1] == t.name[0];
    }
  }

  /** Scanning a token the user wrote as `t` takes one step. */
  lemma ScanToken(cfg: Config, t: Token, rest: seq<string>, run: Run)
    requires Presentable(t)
    ensures Scan(cfg, [RenderToken(t)] + rest, run) == Step(cfg, t, rest, run)
  {
    ReadBack(t);
    var args := [RenderToken(t)] + rest;
    assert args[0] == RenderToken(t) && args[1..] == rest;
  }

  // ---------------------------------------------------------------------
  // Extra and Leftover

  predicate Positional(cfg: Config, x: string) {
    x != "--" && ScanFlag(x).None?
  }

  /** Tokens that are not option-shaped go to Extra in order. */
  lemma {:induction false} PositionalToExtra(cfg: Config, xs: seq<string>, rest: seq<string>, run: Run)
    requires !cfg.unknownValuesFatal
    requires forall k :: 0 <= k < |xs| ==> Positional(cfg, xs[k])
    ensures Scan(cfg, xs + rest, run) == Scan(cfg, rest, run.(opt := run.opt.(extra := run.opt.extra + xs)))
    decreases |xs|
  {
    if xs == [] {
      assert xs + rest == rest;
      assert run.opt.extra + xs == run.opt.extra;
    } else {
      assert (xs + rest)[0] == xs[0] && (xs + rest)[1..] == xs[1..] + rest;
      var run' := run.(opt := run.opt.(extra := run.opt.extra + [xs[0]]));
      PositionalToExtra(cfg, xs[1..], rest, run');
      assert run'.opt.extra + xs[1..] == run.opt.extra + xs;
    }
  }

  /** With UnknownValuesFatal set, a token that is not option-shaped is
      fatal. */
  lemma PositionalFatal(cfg: Config, x: string, rest: seq<string>, run: Run)
    requires cfg.unknownValuesFatal && Positional(cfg, x)
    ensures Scan(cfg, [x] + rest, run) == Err(UnexpectedValue)
  {
  }

  /** `--` ends option processing: every later token lands in Leftover
      verbatim, whatever it looks like. */
  lemma TerminatorLeftover(cfg: Config, xs: seq<string>, rest: seq<string>, run: Run)
    requires !cfg.unknownValuesFatal
    requires forall k :: 0 <= k < |xs| ==> Positional(cfg, xs[k])
    ensures Scan(cfg, xs + ["--"] + rest, run) ==
      Ok(run.(opt := run.opt.(extra := run.opt.extra + xs, leftover := run.opt.leftover + rest)))
  {
    PositionalToExtra(cfg, xs, ["--"] + rest, run);
    assert xs + ["--"] + rest == xs + (["--"] + rest);
    assert (["--"] + rest)[1..] == rest;
  }

  // ---------------------------------------------------------------------
  // Known options that are not clusters

  /** A known option that requires an argument takes the next token,
      whatever it looks like, stores it under the canonical name and logs
      it with the value. */
  lemma KnownArgumentSeparate(cfg: Config, t: Token, v: string, rest: seq<string>, run: Run)
    requires Presentable(t) && Whole(t) && t.selfValue.None? && !cfg.callback
    requires t.name in cfg.aliases && cfg.aliases[t.name] in cfg.requiresArg
    ensures Scan(cfg, [RenderToken(t), v] + rest, run) ==
      Scan(cfg, rest, Record(run, Set(run.opt.values, cfg.aliases[t.name], v), Flag(t.Presented(), Some(v))))
  {
    assert [RenderToken(t), v] + rest == [RenderToken(t)] + ([v] + rest);
    ScanToken(cfg, t, [v] + rest, run);
    assert ([v] + rest)[0] == v && ([v] + rest)[1..] == rest;
  }

  /** `--name=v` means the same as `--name v`. */
  lemma KnownArgumentInline(cfg: Config, t: Token, v: string, rest: seq<string>, run: Run)
    requires Presentable(t) && Whole(t) && t.selfValue == Some(v) && !cfg.callback
    requires t.name in cfg.aliases && cfg.aliases[t.name] in cfg.requiresArg
    ensures Scan(cfg, [RenderToken(t)] + rest, run) ==
      Scan(cfg, rest, Record(run, Set(run.opt.values, cfg.aliases[t.name], v), Flag(t.Presented(), Some(v))))
  {
    ScanToken(cfg, t, rest, run);
  }

  /** A known option that requires an argument and is the last token,
      without an inline value, is fatal. */
  lemma KnownArgumentMissing(cfg: Config, t: Token, run: Run)
    requires Presentable(t) && Whole(t) && t.selfValue.None? && !cfg.callback
    requires t.name in cfg.aliases && cfg.aliases[t.name] in cfg.requiresArg
    ensures Scan(cfg, [RenderToken(t)], run) == Err(MissingArgument)
  {
    ScanToken(cfg, t, [], run);
    assert [RenderToken(t)] + [] == [RenderToken(t)];
  }

  /** The last occurrence wins: two options with the same canonical name,
      each with a value, leave the second value. */
  lemma LastOccurrenceWins(cfg: Config, t1: Token, v1: string, t2: Token, v2: string, run: Run)
    requires Presentable(t1) && Whole(t1) && t1.selfValue.None?
    requires Presentable(t2) && Whole(t2) && t2.selfValue.None?
    requires !cfg.callback
    requires t1.name in cfg.aliases && t2.name in cfg.aliases
    requires cfg.aliases[t1.name] == cfg.aliases[t2.name] && cfg.aliases[t1.name] in cfg.requiresArg
    ensures Scan(cfg, [RenderToken(t1), v1, RenderToken(t2), v2], run).Ok?
    ensures Get(Scan(cfg, [RenderToken(t1), v1, RenderToken(t2), v2], run).value.opt.values, cfg.aliases[t1.name]) == Ok(v2)
  {
    var c := cfg.aliases[t1.name];
    KnownArgumentSeparate(cfg, t1, v1, [RenderToken(t2), v2], run);
    assert [RenderToken(t1), v1, RenderToken(t2), v2] == [RenderToken(t1), v1] + [RenderToken(t2), v2];
    var run1 := Record(run, Set(run.opt.values, c, v1), Flag(t1.Presented(), Some(v1)));
    KnownArgumentSeparate(cfg, t2, v2, [], run1);
    assert [RenderToken(t2), v2] + [] == [RenderToken(t2), v2];
    var run2 := Record(run1, Set(run1.opt.values, c, v2), Flag(t2.Presented(), Some(v2)));
    assert Scan(cfg, [], run2) == Ok(run2);
  }

  /** The value a counted option holds after one more occurrence. */
  function Bump(o: Store, c: string): Store
    requires GetInt(o, c).Ok?
  {
    Set(o, c, IntToString(GetInt(o, c).value + 1))
  }

  /** One occurrence of a known option without an argument. */
  lemma CountOnce(cfg: Config, t: Token, rest: seq<string>, run: Run)
    requires Presentable(t) && Whole(t) && t.selfValue.None? && !cfg.callback
    requires t.name in cfg.aliases && cfg.aliases[t.name] !in cfg.requiresArg
    requires GetInt(run.opt.values, cfg.aliases[t.name]).Ok?
    ensures Scan(cfg, [RenderToken(t)] + rest, run) ==
      Scan(cfg, rest, Record(run, Bump(run.opt.values, cfg.aliases[t.name]), Flag(t.Presented(), None)))
  {
    ScanToken(cfg, t, rest, run);
  }

  /** The run after `n` more occurrences of a counted option `c` that
      read `m` before them. */
  function Counted(run: Run, c: string, m: int, f: Flag, n: nat): Run {
    run.(opt := run.opt.(values := Set(run.opt.values, c, IntToString(m + n)), flags := run.opt.flags + Repeat(f, n)))
  }

  lemma CountedStep(run: Run, c: string, m: int, f: Flag, n: nat)
    requires n >= 1
    ensures Counted(Record(run, Set(run.opt.values, c, IntToString(m + 1)), f), c, m + 1, f, n - 1) == Counted(run, c, m, f, n)
  {
    assert m + 1 + (n - 1) == m + n;
    assert Repeat(f, n) == [f] + Repeat(f, n - 1);
    assert run.opt.flags + [f] + Repeat(f, n - 1) == run.opt.flags + Repeat(f, n);
  }

  /** The first of n occurrences of a counted option: one more count, which
      reads back, and n - 1 occurrences left. */
  lemma CountingStep(cfg: Config, t: Token, n: nat, m: int, rest: seq<string>, run: Run)
    requires Presentable(t) && Whole(t) && t.selfValue.None? && !cfg.callback
    requires t.name in cfg.aliases && cfg.aliases[t.name] !in cfg.requiresArg
    requires GetInt(run.opt.values, cfg.aliases[t.name]) == Ok(m)
    requires n >= 1
    ensures
      var c := cfg.aliases[t.name];
      var f := Flag(t.Presented(), None);
      var run1 := Record(run, Set(run.opt.values, c, IntToString(m + 1)), f);
      && Scan(cfg, Repeat(RenderToken(t), n) + rest, run) == Scan(cfg, Repeat(RenderToken(t), n - 1) + rest, run1)
      && GetInt(run1.opt.values, c) == Ok(m + 1)
      && Counted(run1, c, m + 1, f, n - 1) == Counted(run, c, m, f, n)
  {
    var c := cfg.aliases[t.name];
    var tok := RenderToken(t);
    var f := Flag(t.Presented(), None);
    assert Repeat(tok, n) + rest == [tok] + (Repeat(tok, n - 1) + rest);
    CountOnce(cfg, t, Repeat(tok, n - 1) + rest, run);
    assert Bump(run.opt.values, c) == Set(run.opt.values, c, IntToString(m + 1));
    CountedStep(run, c, m, f, n);
    GetIntCount(run.opt.values, c, m + 1);
  }

  /** A known option without an argument, written n times in a row, ends
      with the count n above its earlier value, and each occurrence is
      logged without a value. */
  lemma {:induction false} Counting(cfg: Config, t: Token, n: nat, m: int, rest: seq<string>, run: Run)
    requires Presentable(t) && Whole(t) && t.selfValue.None? && !cfg.callback
    requires t.name in cfg.aliases && cfg.aliases[t.name] !in cfg.requiresArg
    requires GetInt(run.opt.values, cfg.aliases[t.name]) == Ok(m)
    requires n >= 1
    ensures Scan(cfg, Repeat(RenderToken(t), n) + rest, run) ==
      Scan(cfg, rest, Counted(run, cfg.aliases[t.name], m, Flag(t.Presented(), None), n))
    decreases n
  {
    var c := cfg.aliases[t.name];
    var f := Flag(t.Presented(), None);
    var run1 := Record(run, Set(run.opt.values, c, IntToString(m + 1)), f);
    CountingStep(cfg, t, n, m, rest, run);
    if n == 1 {
      assert Repeat(RenderToken(t), 0) + rest == rest;
      assert Counted(run1, c, m + 1, f, 0) == run1 by {
        assert run1.opt.flags + [] == run1.opt.flags;
        assert Set(run1.opt.values, c, IntToString(m + 1)) == run1.opt.values;
      }
    } else {
      Counting(cfg, t, n - 1, m + 1, rest, run1);
    }
  }

  /** An inline value on a known option without an argument is dropped:
      `--verbose=3` counts and logs like `--verbose`. */
  lemma KnownNoArgInlineDropped(cfg: Config, t: Token, v: string, rest: seq<string>, run: Run)
    requires Presentable(t) && Whole(t) && t.selfValue == Some(v)
    requires t.name in cfg.aliases && cfg.aliases[t.name] !in cfg.requiresArg
    ensures Scan(cfg, [RenderToken(t)] + rest, run) == Scan(cfg, [RenderToken(t.(selfValue := None))] + rest, run)
  {
    var bare := t.(selfValue := None);
    ScanToken(cfg, t, rest, run);
    ScanToken(cfg, bare, rest, run);
    assert t.Presented() == bare.Presented();
    assert Dispatch(cfg, t, None, run) == Dispatch(cfg, bare, None, run);
  }

  // ---------------------------------------------------------------------
  // Clustering

  /** Every character of `a` names an option without an argument whose
      value reads as an integer. */
  predicate CountsOk(cfg: Config, a: string, o: Store) {
    forall k :: 0 <= k < |a| ==>
      [a[k]] in cfg.aliases && cfg.aliases[[a[k]]] !in cfg.requiresArg && GetInt(o, cfg.aliases[[a[k]]]).Ok?
  }

  /** The values after counting each character of `a` once. */
  function CountAll(cfg: Config, a: string, o: Store): Store
    requires CountsOk(cfg, a, o)
    decreases |a|
  {
    if a == [] then o
    else
      var o' := Bump(o, cfg.aliases[[a[0]]]);
      CountsOkBump(cfg, a, o);
      CountAll(cfg, a[1..], o')
  }

  lemma CountsOkBump(cfg: Config, a: string, o: Store)
    requires |a| >= 1 && CountsOk(cfg, a, o)
    ensures CountsOk(cfg, a[1..], Bump(o, cfg.aliases[[a[0]]]))
  {
    var c := cfg.aliases[[a[0]]];
    GetIntCount(o, c, GetInt(o, c).value + 1);
    forall k | 0 <= k < |a| - 1
      ensures GetInt(Bump(o, c), cfg.aliases[[a[1..][k]]]).Ok?
    {
      assert a[1..][k] == a[k + 1];
    }
  }

  /** Characters before the last one are counted one by one, whatever value
      the cluster received. */
  lemma {:induction false} ClusterPrefix(cfg: Config, a: string, b: string, value: Option<string>, o: Store)
    requires |b| >= 1 && CountsOk(cfg, a, o)
    ensures Cluster(cfg, a + b, value, o) == Cluster(cfg, b, value, CountAll(cfg, a, o))
    decreases |a|
  {
    if a == [] {
      assert a + b == b;
    } else {
      assert (a + b)[0] == a[0] && (a + b)[1..] == a[1..] + b;
      CountsOkBump(cfg, a, o);
      ClusterPrefix(cfg, a[1..], b, value, Bump(o, cfg.aliases[[a[0]]]));
    }
  }

  /** `-aab=foo` or `-aab foo`: the last character takes the value, the
      others count. */
  lemma ClusterTrailingValue(cfg: Config, a: string, x: char, v: string, o: Store)
    requires CountsOk(cfg, a, o)
    requires [x] in cfg.aliases && cfg.aliases[[x]] in cfg.requiresArg
    ensures Cluster(cfg, a + [x], Some(v), o) == Ok(Set(CountAll(cfg, a, o), cfg.aliases[[x]], v))
  {
    ClusterPrefix(cfg, a, [x], Some(v), o);
  }

  /** A value reaching a last character that takes no argument is fatal. */
  lemma ClusterUnexpectedArgument(cfg: Config, a: string, x: char, v: string, o: Store)
    requires CountsOk(cfg, a, o)
    requires [x] in cfg.aliases && cfg.aliases[[x]] !in cfg.requiresArg
    ensures Cluster(cfg, a + [x], Some(v), o) == Err(UnexpectedArgument)
  {
    ClusterPrefix(cfg, a, [x], Some(v), o);
  }

  /** A character that requires an argument is fatal unless it is the last
      one and a value is present. */
  lemma ClusterMissingArgument(cfg: Config, a: string, x: char, b: string, value: Option<string>, o: Store)
    requires CountsOk(cfg, a, o)
    requires [x] in cfg.aliases && cfg.aliases[[x]] in cfg.requiresArg
    requires b != [] || value.None?
    ensures Cluster(cfg, a + [x] + b, value, o) == Err(MissingArgument)
  {
    assert a + [x] + b == a + ([x] + b);
    ClusterPrefix(cfg, a, [x] + b, value, o);
    assert ([x] + b)[0] == x;
  }

  /** An unregistered character in a cluster is fatal while unknown options
      are. */
  lemma ClusterUnknownFatal(cfg: Config, a: string, x: char, b: string, value: Option<string>, o: Store)
    requires CountsOk(cfg, a, o)
    requires [x] !in cfg.aliases && cfg.unknownOptionsFatal
    ensures Cluster(cfg, a + [x] + b, value, o) == Err(UnknownOption)
  {
    assert a + [x] + b == a + ([x] + b);
    ClusterPrefix(cfg, a, [x] + b, value, o);
    assert ([x] + b)[0] == x;
  }

  lemma SetTwice(o: Store, c: string, v: string, w: string)
    ensures Set(Set(o, c, v), c, w) == Set(o, c, w)
  {
    assert o.opts[c := v][c := w] == o.opts[c := w];
  }

  /** The first character of a cluster without a value counts once. */
  lemma ClusterHead(cfg: Config, x: char, rest: string, o: Store)
    requires [x] in cfg.aliases && cfg.aliases[[x]] !in cfg.requiresArg
    requires GetInt(o, cfg.aliases[[x]]).Ok?
    ensures Cluster(cfg, [x] + rest, None, o) == Cluster(cfg, rest, None, Bump(o, cfg.aliases[[x]]))
  {
    assert ([x] + rest)[0] == x && ([x] + rest)[1..] == rest;
  }

  /** One character of `-vvv` counts once, and the count reads back. */
  lemma ClusterRepeatStep(cfg: Config, x: char, n: nat, m: int, o: Store)
    requires n > 0 && [x] in cfg.aliases && cfg.aliases[[x]] !in cfg.requiresArg
    requires GetInt(o, cfg.aliases[[x]]) == Ok(m)
    ensures
      var o' := Set(o, cfg.aliases[[x]], IntToString(m + 1));
      Cluster(cfg, Repeat(x, n), None, o) == Cluster(cfg, Repeat(x, n - 1), None, o')
      && GetInt(o', cfg.aliases[[x]]) == Ok(m + 1)
  {
    var c := cfg.aliases[[x]];
    ClusterHead(cfg, x, Repeat(x, n - 1), o);
    assert Bump(o, c) == Set(o, c, IntToString(m + 1));
    GetIntCount(o, c, m + 1);
  }

  /** `-vvv` counts three times. */
  lemma {:induction false} ClusterRepeat(cfg: Config, x: char, n: nat, m: int, o: Store)
    requires [x] in cfg.aliases && cfg.aliases[[x]] !in cfg.requiresArg
    requires GetInt(o, cfg.aliases[[x]]) == Ok(m)
    ensures Cluster(cfg, Repeat(x, n), None, o) == Ok(if n == 0 then o else Set(o, cfg.aliases[[x]], IntToString(m + n)))
    decreases n
  {
    var c := cfg.aliases[[x]];
    if n > 0 {
      var o' := Set(o, c, IntToString(m + 1));
      ClusterRepeatStep(cfg, x, n, m, o);
      ClusterRepeat(cfg, x, n - 1, m + 1, o');
      if n > 1 {
        SetTwice(o, c, IntToString(m + 1), IntToString(m + n));
      }
    }
  }

  /** Clustering applies to every single-dash name longer than one
      character, even a registered one: with `b` counted and `bbb` also a
      registered name, `-bbb` counts `b` three times. */
  lemma ClusterOnKnownName(cfg: Config, x: char, n: nat, m: int, rest: seq<string>, run: Run)
    requires n >= 2 && !cfg.callback
    requires IsNameChar(x) && x != '-'
    requires Repeat(x, n) in cfg.aliases && cfg.aliases[Repeat(x, n)] !in cfg.requiresArg
    requires [x] in cfg.aliases && cfg.aliases[[x]] !in cfg.requiresArg
    requires GetInt(run.opt.values, cfg.aliases[[x]]) == Ok(m)
    ensures Scan(cfg, ["-" + Repeat(x, n)] + rest, run) ==
      Scan(cfg, rest, Record(run, Set(run.opt.values, cfg.aliases[[x]], IntToString(m + n)), Flag("-" + Repeat(x, n), None)))
  {
    var t := Token("-", Repeat(x, n), None);
    assert RenderToken(t) == "-" + Repeat(x, n);
    ScanToken(cfg, t, rest, run);
    ClusterRepeat(cfg, x, n, m, run.opt.values);
  }

  /** A step whose option takes the following token as its value. */
  lemma StepTakesNext(cfg: Config, t: Token, v: string, rest: seq<string>, run: Run)
    requires |t.name| >= 1 && t.selfValue.None? && NeedsArg(cfg, t, Some(v))
    ensures Dispatch(cfg, t, Some(v), run).Err? ==> Step(cfg, t, [v] + rest, run) == Err(Dispatch(cfg, t, Some(v), run).error)
    ensures Dispatch(cfg, t, Some(v), run).Ok? ==> Step(cfg, t, [v] + rest, run) == Scan(cfg, rest, Dispatch(cfg, t, Some(v), run).value)
  {
  }

  /** The lookahead for unknown options reaches clusters: with `a` and `b`
      counted options and `ab` not a registered name, `-ab foo` hands `foo`
      to `b`, which is fatal. */
  lemma ClusterHeuristicFatal(cfg: Config, a: string, x: char, v: string, rest: seq<string>, run: Run)
    requires |a| >= 1 && !cfg.callback
    requires Presentable(Token("-", a + [x], None))
    requires a + [x] !in cfg.aliases
    requires CountsOk(cfg, a, run.opt.values)
    requires [x] in cfg.aliases && cfg.aliases[[x]] !in cfg.requiresArg
    requires !HasPrefix(v, "-")
    ensures Scan(cfg, ["-" + a + [x], v] + rest, run) == Err(UnexpectedArgument)
  {
    var t := Token("-", a + [x], None);
    assert RenderToken(t) == "-" + a + [x];
    assert ["-" + a + [x], v] + rest == [RenderToken(t)] + ([v] + rest);
    ScanToken(cfg, t, [v] + rest, run);
    assert NeedsArg(cfg, t, Some(v));
    StepTakesNext(cfg, t, v, rest, run);
    ClusterUnexpectedArgument(cfg, a, x, v, run.opt.values);
  }

  /** `-aab foo` where `b` requires an argument: the next token is taken
      even when it starts with `-`, the other characters count, and the
      token is logged once with the value. */
  lemma ClusterTakesNextToken(cfg: Config, a: string, x: char, v: string, rest: seq<string>, run: Run)
    requires |a| >= 1 && !cfg.callback
    requires Presentable(Token("-", a + [x], None))
    requires a + [x] !in cfg.aliases
    requires CountsOk(cfg, a, run.opt.values)
    requires [x] in cfg.aliases && cfg.aliases[[x]] in cfg.requiresArg
    ensures Scan(cfg, ["-" + a + [x], v] + rest, run) ==
      Scan(cfg, rest, Record(run, Set(CountAll(cfg, a, run.opt.values), cfg.aliases[[x]], v), Flag("-" + a + [x], Some(v))))
  {
    var t := Token("-", a + [x], None);
    assert RenderToken(t) == "-" + a + [x] == t.Presented();
    assert ["-" + a + [x], v] + rest == [RenderToken(t)] + ([v] + rest);
    ScanToken(cfg, t, [v] + rest, run);
    assert (a + [x])[|a + [x]| - 1..] == [x];
    assert NeedsArg(cfg, t, Some(v));
    StepTakesNext(cfg, t, v, rest, run);
    ClusterTrailingValue(cfg, a, x, v, run.opt.values);
  }

  // ---------------------------------------------------------------------
  // Unknown options

  /** An unknown option is fatal by default. */
  lemma UnknownFatal(cfg: Config, t: Token, rest: seq<string>, run: Run)
    requires Presentable(t) && Whole(t) && !cfg.callback
    requires t.name !in cfg.aliases && cfg.unknownOptionsFatal
    ensures Scan(cfg, [RenderToken(t)] + rest, run) == Err(UnknownOption)
  {
    ScanToken(cfg, t, rest, run);
  }

  /** When unknown options are allowed, `--name v` takes `v` when it does
      not start with `-`, and only logs it. */
  lemma UnknownTakesNext(cfg: Config, t: Token, v: string, rest: seq<string>, run: Run)
    requires Presentable(t) && t.dash == "--" && t.selfValue.None? && !cfg.callback
    requires t.name !in cfg.aliases && !cfg.unknownOptionsFatal
    requires !HasPrefix(v, "-")
    ensures Scan(cfg, [RenderToken(t), v] + rest, run) ==
      Scan(cfg, rest, Record(run, run.opt.values, Flag(t.Presented(), Some(v))))
  {
    assert [RenderToken(t), v] + rest == [RenderToken(t)] + ([v] + rest);
    ScanToken(cfg, t, [v] + rest, run);
    assert ([v] + rest)[0] == v && ([v] + rest)[1..] == rest;
  }

  /** An unknown `--name=v` keeps its value only when a following token
      exists and does not start with `-`; otherwise the value is dropped. */
  lemma UnknownInlineDropped(cfg: Config, t: Token, v: string, rest: seq<string>, run: Run)
    requires Presentable(t) && t.dash == "--" && t.selfValue == Some(v) && !cfg.callback
    requires t.name !in cfg.aliases && !cfg.unknownOptionsFatal
    requires rest == [] || HasPrefix(rest[0], "-")
    ensures Scan(cfg, [RenderToken(t)] + rest, run) ==
      Scan(cfg, rest, Record(run, run.opt.values, Flag(t.Presented(), None)))
  {
    ScanToken(cfg, t, rest, run);
  }

  /** In the other case the value is kept and the following token is not
      consumed. */
  lemma UnknownInlineKept(cfg: Config, t: Token, v: string, w: string, rest: seq<string>, run: Run)
    requires Presentable(t) && t.dash == "--" && t.selfValue == Some(v) && !cfg.callback
    requires t.name !in cfg.aliases && !cfg.unknownOptionsFatal
    requires !HasPrefix(w, "-")
    ensures Scan(cfg, [RenderToken(t), w] + rest, run) ==
      Scan(cfg, [w] + rest, Record(run, run.opt.values, Flag(t.Presented(), Some(v))))
  {
    assert [RenderToken(t), w] + rest == [RenderToken(t)] + ([w] + rest);
    ScanToken(cfg, t, [w] + rest, run);
    assert ([w] + rest)[0] == w;
  }

  /** Only canonical names and names with a default ever hold a value:
      unknown options are never stored. */
  predicate StoredOnlyDeclared(cfg: Config, o: Store) {
    forall k :: k in o.opts ==> k in cfg.defaults || k in cfg.aliases.Values
  }

  lemma OccurStoresDeclared(cfg: Config, name: string, value: Option<string>, isLast: bool, o: Store)
    requires StoredOnlyDeclared(cfg, o)
    ensures Occur(cfg, name, value, isLast, o).Ok? ==> StoredOnlyDeclared(cfg, Occur(cfg, name, value, isLast, o).value)
  {
  }

  lemma {:induction false} ClusterStoresDeclared(cfg: Config, chars: string, value: Option<string>, o: Store)
    requires StoredOnlyDeclared(cfg, o)
    ensures Cluster(cfg, chars, value, o).Ok? ==> StoredOnlyDeclared(cfg, Cluster(cfg, chars, value, o).value)
    decreases |chars|
  {
    if chars != [] {
      OccurStoresDeclared(cfg, [chars[0]], value, |chars| == 1, o);
      var r := Occur(cfg, [chars[0]], value, |chars| == 1, o);
      if r.Ok? {
        ClusterStoresDeclared(cfg, chars[1..], value, r.value);
      }
    }
  }

  lemma DispatchStoresDeclared(cfg: Config, t: Token, value: Option<string>, run: Run)
    requires |t.name| >= 1 && StoredOnlyDeclared(cfg, run.opt.values)
    ensures Dispatch(cfg, t, value, run).Ok? ==> StoredOnlyDeclared(cfg, Dispatch(cfg, t, value, run).value.opt.values)
  {
    ClusterStoresDeclared(cfg, t.name, value, run.opt.values);
    OccurStoresDeclared(cfg, t.name, value, true, run.opt.values);
  }

  lemma {:induction false} ScanStoresDeclared(cfg: Config, rest: seq<string>, run: Run)
    requires StoredOnlyDeclared(cfg, run.opt.values)
    ensures Scan(cfg, rest, run).Ok? ==> StoredOnlyDeclared(cfg, Scan(cfg, rest, run).value.opt.values)
    decreases |rest|, 1
  {
    if rest != [] && rest[0] != "--" {
      var f := ScanFlag(rest[0]);
      if f.None? {
        if !cfg.unknownValuesFatal {
          ScanStoresDeclared(cfg, rest[1..], run.(opt := run.opt.(extra := run.opt.extra + [rest[0]])));
        }
      } else {
        StepStoresDeclared(cfg, f.value, rest[1..], run);
      }
    }
  }

  lemma {:induction false} StepStoresDeclared(cfg: Config, t: Token, after: seq<string>, run: Run)
    requires |t.name| >= 1 && StoredOnlyDeclared(cfg, run.opt.values)
    ensures Step(cfg, t, after, run).Ok? ==> StoredOnlyDeclared(cfg, Step(cfg, t, after, run).value.opt.values)
    decreases |after| + 1, 0
  {
    var next := if after != [] then Some(after[0]) else None;
    var value := ValueOf(cfg, t, next);
    DispatchStoresDeclared(cfg, t, value, run);
    var d := Dispatch(cfg, t, value, run);
    if d.Ok? {
      if NeedsArg(cfg, t, next) && t.selfValue.None? && after != [] {
        ScanStoresDeclared(cfg, after[1..], d.value);
      } else {
        ScanStoresDeclared(cfg, after, d.value);
      }
    }
  }

  /** Whatever the command line, Parse stores values only under canonical
      names and names with a default. */
  lemma ParseStoresDeclared(cfg: Config, args: seq<string>)
    ensures ParseSpec(cfg, args).Ok? ==> StoredOnlyDeclared(cfg, ParseSpec(cfg, args).value.opt.values)
  {
    ScanStoresDeclared(cfg, args, Start(cfg));
  }

  // ---------------------------------------------------------------------
  // Callback mode

  /** With a callback installed, nothing is stored or logged and unknown
      options are not rejected: Parse fails only on a non-option token when
      UnknownValuesFatal is set. */
  lemma {:induction false} CallbackLeavesValues(cfg: Config, rest: seq<string>, run: Run)
    requires cfg.callback && !cfg.unknownValuesFatal
    ensures Scan(cfg, rest, run).Ok?
    ensures Scan(cfg, rest, run).value.opt.values == run.opt.values
    ensures Scan(cfg, rest, run).value.opt.flags == run.opt.flags
    decreases |rest|, 1
  {
    if rest != [] && rest[0] != "--" {
      var f := ScanFlag(rest[0]);
      if f.None? {
        CallbackLeavesValues(cfg, rest[1..], run.(opt := run.opt.(extra := run.opt.extra + [rest[0]])));
      } else {
        CallbackStepLeavesValues(cfg, f.value, rest[1..], run);
      }
    }
  }

  lemma {:induction false} CallbackStepLeavesValues(cfg: Config, t: Token, after: seq<string>, run: Run)
    requires |t.name| >= 1 && cfg.callback && !cfg.unknownValuesFatal
    ensures Step(cfg, t, after, run).Ok?
    ensures Step(cfg, t, after, run).value.opt.values == run.opt.values
    ensures Step(cfg, t, after, run).value.opt.flags == run.opt.flags
    decreases |after| + 1, 0
  {
    var next := if after != [] then Some(after[0]) else None;
    var run' := run.(calls := run.calls + [Call(t.name, ValueOf(cfg, t, next))]);
    if NeedsArg(cfg, t, next) && t.selfValue.None? && after != [] {
      CallbackLeavesValues(cfg, after[1..], run');
    } else {
      CallbackLeavesValues(cfg, after, run');
    }
  }

  /** The callback receives the name without dashes, a cluster unsplit,
      and an unknown option with the lookahead value. */
  lemma CallbackReceivesName(cfg: Config, t: Token, v: string, rest: seq<string>, run: Run)
    requires Presentable(t) && t.selfValue.None? && cfg.callback
    requires t.name !in cfg.aliases && !HasPrefix(v, "-")
    ensures Scan(cfg, [RenderToken(t), v] + rest, run) ==
      Scan(cfg, rest, run.(calls := run.calls + [Call(t.name, Some(v))]))
  {
    assert [RenderToken(t), v] + rest == [RenderToken(t)] + ([v] + rest);
    ScanToken(cfg, t, [v] + rest, run);
    assert ([v] + rest)[0] == v && ([v] + rest)[1..] == rest;
  }
}
