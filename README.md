# go-options in Dafny

A model of gaal/go-options, a declarative command-line option parser for
Go, in all three generations the repository holds:

- `options/options.go`, the current one. It has clustering of short
  options (`-vvv`, `-abc foo`), `Leftover` after `--`, and the
  `ParseCallback` interface.
- `pkg/options.go`, an older version. It has no clustering and no
  leftover, and it keeps a `short` set of one-character names.
- `options.go` at the root, the oldest. It has no blank lines in the option
  stanza, no `Have`/`GetAll`/setters, and its `GetBool` does not know the
  spelling `null`.

Each version has the same three parts, and the model follows them.

- **NewOptions** compiles the specification text. Lines before `--` are the
  synopsis; every later line is `names[=]<spaces>description`. It produces
  the `aliases`, `requiresArg` and `defaults` tables and the usage string.
  This is module `SpecCompiler`. The stanza loop is the method
  `CompileSpec`, proved equal to the function `Compile`. All three
  OptionSpec classes call it; the root version switches off the blank-line
  rule.
- **Parse** scans the tokens by index.
  - `ParseEngine.Scan`/`Step` specify the newest Parse as a function of the
    remaining tokens: the lookahead `NeedsArg`, the default callback with
    its per-character `Cluster` loop, and the user-callback mode.
  - `NewestOptions.OptionSpec.Parse` is the imperative index loop, proved
    equal to that function.
  - `LegacyEngine` does the same for the Parse of the two older versions,
    whose code is identical.
- **Accessors** (`Get`, `GetInt`, `GetBool`, `Have`, `GetAll`) live in module
  `Values` over the parsed `Store`.

The two regular expressions are hand-written ASCII scanners in module
`Patterns`:

- the option-line pattern `^([-\w,]+)(=?)\s+(.*)$`;
- the default pattern `\[(.*)\]$`;
- the token pattern `^((--?)([-\w]+))(=(.*))?$`.

Each scanner is proved sound (what it returns renders back to its input) and
complete (every input of the right shape is read back as itself). For the
classes, `\w` is `[0-9A-Za-z_]` and `\s` is `[\t\n\f\r ]`; `.` excludes
the newline.

Every fatal outcome of the Go code is an `Err` with a `Failure` tag. This
covers a `panic` and a `PrintUsageAndExit`.

The model reproduces these behaviours of the newest version as written:

- **Clustering on registered names.** Clustering applies to every
  single-dash name longer than one character, even a registered one.
- **The lookahead reaches clusters.** The lookahead for unknown options also
  fires for clusters, so `-ab foo` hands `foo` to `b`.
- **Dropped inline values.** An inline value on a known option without an
  argument is dropped. So is one on an unknown `--name=v` that has no plain
  token after it.
- **Callback mode.** An installed callback replaces storing and logging
  entirely.

The versions differ in two details, and the model follows each version's code:

- The newer two `NewOptions` keep a blank line in the option stanza as an
  empty usage line (options/options.go:269-272, pkg/options.go:249-252).
  The root `NewOptions` has no such case, so a blank option line does not
  parse and is fatal (options.go:79-84).
- The newer two `GetBool` read `null` as false (options/options.go:168-170,
  pkg/options.go:161-162). The root `GetBool` does not list it
  (options.go:36-39), so `null` reads as true there.

## Model

| member | source | states |
|---|---|---|
| Text.Split | options/options.go:255 | `strings.Split`: at least one part, and no part contains the separator |
| Text.JoinSplit | options/options.go:255 | joining the parts of a split with the separator gives the text back |
| Text.SplitJoin | options/options.go:277 | splitting a join of separator-free parts gives the parts back |
| Text.SplitTrailingSeparator | options.go:67 | a trailing separator adds exactly one empty part at the end |
| Text.NatToDecimal | options/options.go:411 | `%d` of a count is a non-empty string of decimal digits |
| Text.DecimalRoundTrip | options/options.go:157-161 | reading the decimal digits of n gives n |
| Text.ParseIntPlain | options/options.go:157-161 | an integer read from a string is one whose `%d` form is that string (`-0` aside), so a leading zero never reads as a different number |
| Text.DecimalPlain | options/options.go:157-161 | digits without a leading zero are the `%d` form of their value |
| Text.ParseIntRoundTrip | options/options.go:157-161 | the integer reader reads back what `%d` wrote, for every integer |
| Patterns.NameRun | options/options.go:323 | the `[-\w]+` group: the longest prefix of name characters |
| Patterns.ListRun | options/options.go:246 | the `[-\w,]+` group: the longest prefix of name-list characters |
| Patterns.SpaceRun | options/options.go:246 | the `\s+` group: the longest prefix of white space |
| Patterns.ScanOptionLine | options/options.go:246-276 | a line read by the option-line pattern has the pattern's shape and its parts concatenate to the line |
| Patterns.ScanOptionLineComplete | options/options.go:246-276 | every line of that shape is read back as exactly its parts: names, `=` marker, spacing, description |
| Patterns.DefaultValue | options/options.go:248-294 | a default exists iff the description ends in `]` and contains a `[`; it is the text between the first `[` and that `]` |
| Patterns.DefaultValueOf | options/options.go:292-294 | a description `text[default]` with no `[` in `text` yields `default` |
| Patterns.ScanFlag | options/options.go:323-347 | an option-shaped token: dashes, a name of `[-\w]` characters, and an optional `=value`; it renders back to the token, and a token not starting with `-` is never one |
| Patterns.ScanFlagComplete | options/options.go:323-347 | a token written as dashes, name and optional `=value` is read back as those parts; `--` wins over `-` |
| Patterns.OneDashFallback | options/options.go:323 | when no two-dash reading exists, the pattern falls back to the one-dash reading |
| Patterns.TwoDashesFail | options/options.go:323 | a single-dash token has no two-dash reading |
| SpecCompiler.Register | options/options.go:279-288 | registering the names of a line fails only with DuplicateName or BadName |
| SpecCompiler.RegisterFresh | options/options.go:279-288 | registering succeeds iff every name is new, is not `""`, `-` or `--` and is not repeated on the line; it then maps every name to the canonical one and records the one-character names |
| SpecCompiler.RegisterFirstOffence | options/options.go:279-285 | the first offending name decides the error: DuplicateName if seen before, else BadName |
| SpecCompiler.DuplicateNameFatal | options/options.go:280-282 | a line repeating a registered name is fatal with DuplicateName |
| SpecCompiler.NoParseExactly | options/options.go:273-276 | an option line fails with NoParse iff it does not have the option-line shape |
| SpecCompiler.PrettyNames | options/options.go:476-489 | `smap(prettyFlag, names)`: one entry per name, `-x` for one character, `--name` otherwise |
| SpecCompiler.OptionLineTables | options/options.go:277-297 | the tables an option line adds: every name maps to the last name, `=` puts it in requiresArg, a bracketed default is recorded under it, and the rendered usage line is appended |
| SpecCompiler.CompileSpec | options/options.go:254-302 | the stanza loop computes exactly `Compile(spec)` |
| SpecCompiler.AddOptionLine | options/options.go:273-297 | the loop body for one option line computes `CompileOptionLine` |
| SpecCompiler.AddOptionParts | options/options.go:277-297 | the loop body after the line matched computes `AddOption` |
| SpecCompiler.RegisterNames | options/options.go:279-288 | the loop over the names computes `Register` |
| SpecCompiler.OptionLineWellFormed | options/options.go:277-294 | one option line preserves well-formed tables |
| SpecCompiler.AddOptionWellFormed | options/options.go:277-297 | the tables after a matched option line are well formed |
| SpecCompiler.MarkWellFormed | options/options.go:288-296 | recording the usage line, the `=` marker and the default under a canonical name keeps the tables well formed |
| SpecCompiler.RegisterWellFormed | options/options.go:279-291 | registering fresh names keeps the tables well formed and makes the canonical map to itself |
| SpecCompiler.CompileLinesWellFormed | options/options.go:256-302 | the stanza loop preserves well-formed tables |
| SpecCompiler.CompileWellFormed | options/options.go:244-304 | every compiled specification is well formed: canonical names map to themselves, requiresArg and defaults hold only canonical names, no bad name, `short` holds exactly the one-character names |
| SpecCompiler.SynopsisLines | options/options.go:258-266 | synopsis lines are appended to the usage each with a newline |
| SpecCompiler.SynopsisOnly | options/options.go:258-266 | a specification without `--` is all synopsis: usage is the text plus a newline, and no option is declared |
| SpecCompiler.TrailingBlankKept | options/options.go:269-272 | with blank lines allowed, a final blank line only appends a newline to the usage |
| SpecCompiler.TrailingBlankFatal | options.go:79-84 | without the blank-line rule, a blank line in the option stanza is fatal |
| SpecCompiler.TrailingNewlineKept | options/options.go:255-272 | a trailing newline after the option lines only appends a newline to the usage |
| SpecCompiler.TrailingNewlineFatal | options.go:67-84 | in the root version a trailing newline after the option lines is fatal |
| Values.Get | options/options.go:142-148 | fails exactly for a name that is neither set nor canonical; an unset canonical name reads `""` |
| Values.GetInt | options/options.go:152-162 | `""` reads 0; a non-canonical name is fatal |
| Values.GetBool | options/options.go:167-174 | fails exactly when Get fails |
| Values.Have | options/options.go:178-184 | fails exactly for a non-canonical name |
| Values.HaveGet | options/options.go:142-184 | Have is false exactly when Get reads `""` for lack of a value, and true when Get reads the stored value |
| Values.GetIntCount | options/options.go:411 | after storing the decimal of n, GetInt reads n |
| Values.GetBoolCount | options/options.go:167-174 | a counted option reads true exactly when its count is non-zero |
| Values.GetAll | options/options.go:189-200 | the loop computes the values of the matching log entries in order, or fails on a matching entry without a value |
| Values.AllValuesAppend | options/options.go:189-200 | GetAll over two logs joined: the values of the first, then of the second; the first error wins |
| Values.AllValuesNoValue | options/options.go:192-195 | a matching entry without a value makes GetAll fail |
| Values.AllValuesOthers | options/options.go:191-192 | entries of other flags contribute nothing |
| ParseEngine.ReadBack | options/options.go:342-347 | a token written as dashes and name is read back as itself and is not the terminator |
| ParseEngine.ScanToken | options/options.go:340-354 | an option token takes one Step of the loop |
| ParseEngine.PositionalToExtra | options/options.go:348-354 | non-option tokens are appended to Extra in order |
| ParseEngine.PositionalFatal | options/options.go:349-351 | with UnknownValuesFatal set, a non-option token is fatal |
| ParseEngine.TerminatorLeftover | options/options.go:342-345 | `--` ends the scan and every later token goes to Leftover verbatim |
| ParseEngine.KnownArgumentSeparate | options/options.go:399-446 | a known argument option takes the next token, whatever it looks like, stores it under the canonical name and logs it with the value |
| ParseEngine.KnownArgumentInline | options/options.go:399-441 | `--name=v` stores and logs v without consuming a token |
| ParseEngine.KnownArgumentMissing | options/options.go:400-404 | a known argument option at the end without an inline value is fatal with MissingArgument |
| ParseEngine.LastOccurrenceWins | options/options.go:405 | of two occurrences of the same canonical option, the second value stays |
| ParseEngine.CountOnce | options/options.go:407-411 | one occurrence of a known option without an argument stores the decimal of GetInt + 1 and logs the flag without a value |
| ParseEngine.Counting | options/options.go:411-418 | n occurrences in a row raise the count by n and log n entries without a value |
| ParseEngine.KnownNoArgInlineDropped | options/options.go:427-448 | an inline value on a known, unclustered option without an argument is dropped: `--v=3` acts as `--v` |
| ParseEngine.ClusterPrefix | options/options.go:378-398 | the characters of a cluster before the last are counted one by one, left to right |
| ParseEngine.ClusterTrailingValue | options/options.go:384-389 | the last character, when it requires an argument, takes the value after the others count |
| ParseEngine.ClusterUnexpectedArgument | options/options.go:391-393 | a value reaching a last character without an argument is fatal with UnexpectedArgument |
| ParseEngine.ClusterMissingArgument | options/options.go:384-388 | a character requiring an argument that is not last, or gets no value, is fatal with MissingArgument |
| ParseEngine.ClusterUnknownFatal | options/options.go:371-383 | an unregistered character is fatal while unknown options are |
| ParseEngine.ClusterRepeat | options/options.go:379-396 | `-vvv` counts three times |
| ParseEngine.ClusterOnKnownName | options/options.go:378 | a registered single-dash name longer than one character is still split into characters |
| ParseEngine.StepTakesNext | options/options.go:438-446 | when the lookahead wants a value and there is no inline one, the next token is the value and is consumed |
| ParseEngine.ClusterHeuristicFatal | options/options.go:391-430 | the unknown-option lookahead reaches clusters: `-ab foo` hands `foo` to `b`, which is fatal |
| ParseEngine.ClusterTakesNextToken | options/options.go:384-437 | `-aab v` where `b` takes an argument: v is consumed whatever it looks like, the others count, and the token is logged once with v |
| ParseEngine.UnknownFatal | options/options.go:371-399 | an unknown option is fatal while UnknownOptionsFatal is set |
| ParseEngine.UnknownTakesNext | options/options.go:414-430 | an unknown `--name v` takes v when it does not start with `-`, and only logs it |
| ParseEngine.UnknownInlineDropped | options/options.go:428-448 | an unknown `--name=v` without a plain token after it loses its value |
| ParseEngine.UnknownInlineKept | options/options.go:428-441 | with a plain token after it, the value is kept and that token is not consumed |
| ParseEngine.OccurStoresDeclared | options/options.go:399-412 | the default callback stores only under canonical names |
| ParseEngine.ClusterStoresDeclared | options/options.go:379-398 | so does the cluster loop |
| ParseEngine.DispatchStoresDeclared | options/options.go:362-420 | so does one callback call |
| ParseEngine.ScanStoresDeclared | options/options.go:340-451 | so does the scan of any remaining tokens |
| ParseEngine.StepStoresDeclared | options/options.go:422-449 | so does any option step |
| ParseEngine.ParseStoresDeclared | options/options.go:321-454 | after any Parse, only canonical names and names with a default hold values; unknown options never do |
| ParseEngine.CallbackLeavesValues | options/options.go:362-449 | with a callback installed, Parse never fails on an option, and values and Flags stay as they were |
| ParseEngine.CallbackStepLeavesValues | options/options.go:445-449 | the same for one option step |
| ParseEngine.CallbackReceivesName | options/options.go:445-449 | the callback receives the name without dashes, a cluster unsplit, and an unknown option's lookahead value |
| NewestOptions.OptionSpec.NewOptions | options/options.go:244-304 | fails exactly when the specification does not compile; otherwise a fresh, well-formed spec holding the compiled tables, with unknown options fatal and extra values allowed |
| NewestOptions.OptionSpec.SetUnknownOptionsFatal | options/options.go:223-226 | sets the flag, changes nothing else, returns the same spec |
| NewestOptions.OptionSpec.SetUnknownValuesFatal | options/options.go:230-233 | sets the flag, changes nothing else, returns the same spec |
| NewestOptions.OptionSpec.SetParseCallback | options/options.go:237-240 | installs or removes the callback, changes nothing else, returns the same spec |
| NewestOptions.OptionSpec.GetCanonical | options/options.go:309-311 | `""` exactly for an unregistered name; otherwise the name's canonical name, which maps to itself |
| NewestOptions.OptionSpec.Parse | options/options.go:321-454 | the index loop computes exactly `ParseSpec`, and only declared names hold values afterwards |
| NewestOptions.ParseToken | options/options.go:340-450 | one pass of the index loop: at `--` or on a fatal error the loop's result equals the specification's Scan from index i; otherwise Scan from i equals Scan from the next index, which lies one or two tokens further |
| NewestOptions.FlagToken | options/options.go:355-449 | an option token either fails exactly as Scan does, or advances the loop by one or two tokens without changing Scan's outcome |
| NewestOptions.HandleFlag | options/options.go:355-449 | one option token advances the loop exactly as the specification's Step does, consuming at most one more token |
| NewestOptions.ScanAtTerminator | options/options.go:341-345 | at `--` the loop ends and every later token becomes Leftover |
| NewestOptions.ScanAtValue | options/options.go:347-353 | a token that is not option-shaped is fatal while unknown values are fatal, and is appended to Extra otherwise |
| NewestOptions.ScanAtFlag | options/options.go:347-356 | an option token takes one Step over the tokens after it |
| NewestOptions.StepAt | options/options.go:423-449 | one option step at index i: the callback runs with the lookahead's value, and the loop resumes past the consumed token |
| NewestOptions.Lookahead | options/options.go:422-437 | the three successive tests compute `NeedsArg`; a known option wants a value iff it requires one |
| NewestOptions.Callback | options/options.go:362-448 | an installed callback only records the call; otherwise the default callback runs |
| NewestOptions.RunDefaultCallback | options/options.go:370-419 | the default callback with its cluster loop computes `DefaultCallback` and logs the flag once |
| NewestOptions.Occurrence | options/options.go:383-412 | one name: an unknown one is fatal or skipped, an argument option stores its value, any other counts; only the canonical name's entry changes |
| LegacyEngine.LegacyParse | pkg/options.go:295-386 | the index loop computes exactly `LegacyParseSpec`, and only declared names hold values afterwards |
| LegacyEngine.HandleLegacyFlag | pkg/options.go:325-382 | one option token advances the loop exactly as LegacyStep does |
| LegacyEngine.LegacyScanToken | pkg/options.go:311-324 | an option token takes one step of the loop |
| LegacyEngine.LegacyTerminatorDrops | pkg/options.go:313-324 | non-option tokens go to extra in order; `--` ends the scan and later tokens are discarded |
| LegacyEngine.LegacyKnownArgumentSeparate | pkg/options.go:335-354 | a known argument option takes the next token whatever it looks like, stores it and logs it |
| LegacyEngine.LegacyKnownArgumentInline | pkg/options.go:349-351 | `--name=v` means the same as `--name v` |
| LegacyEngine.LegacyKnownArgumentMissing | pkg/options.go:355-357 | a known argument option at the end without a value is fatal |
| LegacyEngine.LegacyNoArgInlineFatal | pkg/options.go:362-364 | an inline value on a known option without an argument is fatal |
| LegacyEngine.LegacyCountOnce | pkg/options.go:341-365 | a known option without an argument counts one more, GetInt reads the new count, and the flag is logged without a value |
| LegacyEngine.LegacyNoClustering | pkg/options.go:326-369 | there is no clustering: `-ab` is the single name `ab`, fatal when unregistered |
| LegacyEngine.LegacyUnknownFatal | pkg/options.go:368-370 | an unknown option is fatal while UnknownOptionsFatal is set |
| LegacyEngine.LegacyUnknownInlineKept | pkg/options.go:371-372 | an unknown option keeps its inline value and only logs it |
| LegacyEngine.LegacyUnknownLookahead | pkg/options.go:373-381 | without an inline value, an unknown option takes the next token exactly when it does not start with `-` |
| LegacyEngine.LegacyScanStoresDeclared | pkg/options.go:311-383 | the scan stores values only under declared names |
| LegacyEngine.LegacyStepStoresDeclared | pkg/options.go:335-382 | so does one option step |
| LegacyEngine.LegacyParseStoresDeclared | pkg/options.go:295-386 | after any Parse, only canonical names and names with a default hold values |
| PkgOptions.OptionSpec.NewOptions | pkg/options.go:223-287 | fails exactly when the specification does not compile; otherwise the compiled tables, with `short` holding exactly the one-character names |
| PkgOptions.OptionSpec.SetUnknownOptionsFatal | pkg/options.go:209-212 | sets the flag and changes nothing else |
| PkgOptions.OptionSpec.SetUnknownValuesFatal | pkg/options.go:216-219 | sets the flag and changes nothing else |
| PkgOptions.OptionSpec.Parse | pkg/options.go:295-386 | computes `LegacyParseSpec` of the spec's settings |
| RootOptions.RootGetBool | options.go:36-43 | fails exactly when Get fails; an unset option reads false |
| RootOptions.RootGetBoolNull | options.go:36-43 | the root GetBool differs from the later one exactly on `null`, which it reads as true |
| RootOptions.OptionSpec.NewOptions | options.go:55-115 | compiles without the blank-line rule; fails exactly when that does |
| RootOptions.OptionSpec.Parse | options.go:117-208 | computes `LegacyParseSpec` of the spec's settings |

## Left out

- `PrintUsageAndExit`, the `Exit` hook, `ErrorWriter` and the writes to standard output and error are not modelled. Every fatal path is an `Err`; a substituted `Exit` that returns and lets Parse go on is not modelled.
- The body of a user `ParseCallback` is not modelled. Parse records the calls it receives (name and value) in `Run.calls`.
- `RequiredArgCallback` and `NoArgCallback` of pkg/options.go are not modelled: Parse never calls them.
- The message texts of the panics and the `%+v` dumps are left out; each failure is a `Failure` tag.
- Values.GetInt: reads only an optional `-` followed by decimal digits without a leading zero, which covers every value counting writes. On any other text the model fails with BadInteger where `fmt.Sscan` may read a number: a leading `+`; a leading zero, which Go reads as an octal prefix (`"010"` is 8, `"08"` is 0); the prefixes `0x`, `0o` and `0b` and digit underscores; leading white space (`" 3"`); trailing text right after the digits (`"3x"` reads 3). The model also reads values outside Go's 64-bit `int` as unbounded integers, where Go fails. Within 64 bits, wherever the model returns a number, Go returns the same number.
- ParseEngine.Counting: integers are unbounded, so the 64-bit overflow of Go's `int` after 2^63 occurrences is not modelled.
- ParseEngine.KnownArgumentSeparate and the other per-token lemmas are stated for tokens the pattern reads back as written. This excludes a single dash followed by a name starting with `-`, such as `---x`. Parse's equality with `ParseSpec` covers every token.
- The `default:` branch of the stanza switch is left out: the counter never exceeds 1.
- The `known` map of Options is a set of canonical names; Go map iteration order does not matter to the result.
- example/ex1/cat1.go and example/ex2/cat2.go are demo programs that print; they are not part of this model.
