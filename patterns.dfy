/** Hand-written scanners for the three regular expressions of the option
    parser, with Go's RE2 meaning of the classes: \w is [0-9A-Za-z_], \s is
    [\t\n\f\r ], and `.` matches anything but a newline.

      option line    ^([-\w,]+)(=?)\s+(.*)$      (options/options.go:246)
      default value  \[(.*)\]$                    (options/options.go:248)
      option token   ^((--?)([-\w]+))(=(.*))?$   (options/options.go:323)

    All three versions of the package use the same three patterns. */
module Patterns {
  import opened Wrappers
  import Text

  predicate IsWordChar(c: char) {
    ('a' <= c <= 'z') || ('A' <= c <= 'Z') || ('0' <= c <= '9') || c == '_'
  }

  /** [-\w]: a character of an option name. */
  predicate IsNameChar(c: char) {
    IsWordChar(c) || c == '-'
  }

  /** [-\w,]: a character of the name list of an option line. */
  predicate IsListChar(c: char) {
    IsNameChar(c) || c == ','
  }

  /** \s */
  predicate IsSpace(c: char) {
    c == '\t' || c == '\n' || c == '\U{000C}' || c == '\r' || c == ' '
  }

  predicate AllNameChars(s: string) {
    forall k :: 0 <= k < |s| ==> IsNameChar(s[k])
  }

  predicate AllListChars(s: string) {
    forall k :: 0 <= k < |s| ==> IsListChar(s[k])
  }

  predicate AllSpaces(s: string) {
    forall k :: 0 <= k < |s| ==> IsSpace(s[k])
  }

  /** Length of the longest prefix of `s` made of name characters. */
  function NameRun(s: string): (k: nat)
    ensures k <= |s| && AllNameChars(s[..k])
    ensures k < |s| ==> !IsNameChar(s[k])
    decreases |s|
  {
    if s == [] || !IsNameChar(s[0]) then 0
    else
      var k := 1 + NameRun(s[1..]);
      assert forall i :: 1 <= i < k ==> s[..k][i] == s[1..][..k - 1][i - 1];
      k
  }

  /** Length of the longest prefix of `s` made of list characters. */
  function ListRun(s: string): (k: nat)
    ensures k <= |s| && AllListChars(s[..k])
    ensures k < |s| ==> !IsListChar(s[k])
    decreases |s|
  {
    if s == [] || !IsListChar(s[0]) then 0
    else
      var k := 1 + ListRun(s[1..]);
      assert forall i :: 1 <= i < k ==> s[..k][i] == s[1..][..k - 1][i - 1];
      k
  }

  /** Length of the longest prefix of `s` made of whitespace. */
  function SpaceRun(s: string): (k: nat)
    ensures k <= |s| && AllSpaces(s[..k])
    ensures k < |s| ==> !IsSpace(s[k])
    decreases |s|
  {
    if s == [] || !IsSpace(s[0]) then 0
    else
      var k := 1 + SpaceRun(s[1..]);
      assert forall i :: 1 <= i < k ==> s[..k][i] == s[1..][..k - 1][i - 1];
      k
  }

  lemma {:induction false} NameRunOf(name: string, after: string)
    requires AllNameChars(name)
    requires after == [] || !IsNameChar(after[0])
    ensures NameRun(name + after) == |name|
    decreases |name|
  {
    if name != [] {
      assert (name + after)[1..] == name[1..] + after;
      NameRunOf(name[1..], after);
    } else {
      assert name + after == after;
    }
  }

  lemma {:induction false} ListRunOf(names: string, after: string)
    requires AllListChars(names)
    requires after == [] || !IsListChar(after[0])
    ensures ListRun(names + after) == |names|
    decreases |names|
  {
    if names != [] {
      assert (names + after)[1..] == names[1..] + after;
      ListRunOf(names[1..], after);
    } else {
      assert names + after == after;
    }
  }

  lemma {:induction false} SpaceRunOf(spacing: string, after: string)
    requires AllSpaces(spacing)
    requires after == [] || !IsSpace(after[0])
    ensures SpaceRun(spacing + after) == |spacing|
    decreases |spacing|
  {
    if spacing != [] {
      assert (spacing + after)[1..] == spacing[1..] + after;
      SpaceRunOf(spacing[1..], after);
    } else {
      assert spacing + after == after;
    }
  }

  // ---------------------------------------------------------------------
  // Option lines: ^([-\w,]+)(=?)\s+(.*)$

  /** The groups of a matched option line. `spacing` is the text the \s+
      matched; the regex does not capture it but the line is the four parts
      side by side. */
  datatype LineParts = LineParts(names: string, marker: string, spacing: string, description: string)

  /** The shape every well-formed option line has. */
  predicate IsLineShape(p: LineParts) {
    && |p.names| >= 1 && AllListChars(p.names)
    && (p.marker == "" || p.marker == "=")
    && |p.spacing| >= 1 && AllSpaces(p.spacing)
    && (p.description == [] || !IsSpace(p.description[0]))
    && '\n' !in p.description
  }

  function Render(p: LineParts): string {
    p.names + p.marker + p.spacing + p.description
  }

  /** The match of the option-line pattern against `line`. The name list is
      the maximal run of list characters; `=` is taken only when whitespace
      follows it; the greedy \s+ leaves a description that does not start
      with whitespace. */
  function ScanOptionLine(line: string): (r: Option<LineParts>)
    ensures r.Some? ==> IsLineShape(r.value) && Render(r.value) == line
  {
    var k := ListRun(line);
    if k == 0 then None
    else
      assert line == line[..k] + line[k..];
      ScanMarker(line[..k], line[k..])
  }

  /** The `=?` group: the marker is taken only when whitespace follows it,
      since otherwise \s+ cannot match. */
  function ScanMarker(names: string, tail: string): (r: Option<LineParts>)
    requires |names| >= 1 && AllListChars(names)
    ensures r.Some? ==> IsLineShape(r.value) && Render(r.value) == names + tail
  {
    if |tail| >= 2 && tail[0] == '=' && IsSpace(tail[1]) then
      assert tail == "=" + tail[1..];
      ScanSpacing(names, "=", tail[1..])
    else ScanSpacing(names, "", tail)
  }

  /** The greedy \s+ and the description `(.*)$` after it. */
  function ScanSpacing(names: string, marker: string, tail: string): (r: Option<LineParts>)
    requires |names| >= 1 && AllListChars(names) && (marker == "" || marker == "=")
    ensures r.Some? ==> IsLineShape(r.value) && Render(r.value) == names + marker + tail
  {
    var w := SpaceRun(tail);
    if w == 0 || '\n' in tail[w..] then None
    else
      assert tail == tail[..w] + tail[w..];
      Some(LineParts(names, marker, tail[..w], tail[w..]))
  }

  /** The converse: every line of the option shape scans into its parts, so
      ScanOptionLine finds a match exactly when the line has the shape. */
  lemma ScanOptionLineComplete(p: LineParts)
    requires IsLineShape(p)
    ensures ScanOptionLine(Render(p)) == Some(p)
  {
    var tail := p.marker + p.spacing + p.description;
    assert Render(p) == p.names + tail;
    assert tail[0] == '=' || tail[0] == p.spacing[0];
    ListRunOf(p.names, tail);
    assert Render(p)[..|p.names|] == p.names;
    assert Render(p)[|p.names|..] == tail;
    ScanMarkerOf(p);
  }

  lemma ScanMarkerOf(p: LineParts)
    requires IsLineShape(p)
    ensures ScanMarker(p.names, p.marker + p.spacing + p.description) == Some(p)
  {
    var tail := p.marker + p.spacing + p.description;
    ScanSpacingOf(p);
    assert IsSpace(p.spacing[0]);
    if p.marker == "" {
      assert tail == p.spacing + p.description;
      assert tail[0] == p.spacing[0];
    } else {
      assert tail[1] == p.spacing[0];
      assert tail[1..] == p.spacing + p.description;
    }
  }

  lemma ScanSpacingOf(p: LineParts)
    requires IsLineShape(p)
    ensures ScanSpacing(p.names, p.marker, p.spacing + p.description) == Some(p)
  {
    var tail := p.spacing + p.description;
    SpaceRunOf(p.spacing, p.description);
    assert tail[..|p.spacing|] == p.spacing && tail[|p.spacing|..] == p.description;
  }

  // ---------------------------------------------------------------------
  // Default values: \[(.*)\]$ applied to the description

  function IndexOf(s: string, c: char): (i: nat)
    requires c in s
    ensures i < |s| && s[i] == c && c !in s[..i]
  {
    if s[0] == c then 0
    else
      var i := 1 + IndexOf(s[1..], c);
      assert s[..i] == [s[0]] + s[1..][..i - 1];
      i
  }

  lemma {:induction false} IndexOfAfter(a: string, c: char, b: string)
    requires c !in a
    ensures IndexOf(a + [c] + b, c) == |a|
    decreases |a|
  {
    if a != [] {
      assert (a + [c] + b)[1..] == a[1..] + [c] + b;
      IndexOfAfter(a[1..], c, b);
    }
  }

  /** The leftmost match of the default-value pattern: the description must
      end in `]` and hold a `[` before it; the default is the text between the
      first `[` and that final `]`. */
  function DefaultValue(description: string): (r: Option<string>)
    requires '\n' !in description
    ensures r.Some? <==>
      |description| >= 2 && description[|description| - 1] == ']' && '[' in description[..|description| - 1]
    ensures r.Some? ==> |r.value| + 2 <= |description|
    ensures r.Some? ==>
      var before := description[..|description| - |r.value| - 2];
      '[' !in before && description == before + "[" + r.value + "]"
  {
    var n := |description|;
    if n >= 2 && description[n - 1] == ']' && '[' in description[..n - 1] then
      var p := IndexOf(description[..n - 1], '[');
      var d := description[p + 1..n - 1];
      assert description == description[..p] + "[" + d + "]";
      Some(d)
    else None
  }

  /** A description written as text, then a bracketed default, yields that
      default. */
  lemma DefaultValueOf(text: string, default: string)
    requires '[' !in text && '\n' !in text + default
    ensures DefaultValue(text + "[" + default + "]") == Some(default)
  {
    var d := text + "[" + default + "]";
    assert d[..|d| - 1] == text + "[" + default;
    assert d[|text|] == '[';
    IndexOfAfter(text, '[', default);
    assert d[|text| + 1..|d| - 1] == default;
  }

  // ---------------------------------------------------------------------
  // Option tokens: ^((--?)([-\w]+))(=(.*))?$

  /** The groups of a matched option token: the dashes, the name, and the
      inline value after `=` when there is one. */
  datatype Token = Token(dash: string, name: string, selfValue: Option<string>) {
    /** The flag as the user presented it: dashes and name, no value. */
    function Presented(): string {
      dash + name
    }
  }

  function RenderToken(t: Token): string {
    t.dash + t.name + match t.selfValue { case None => "" case Some(v) => "=" + v }
  }

  /** What the token pattern accepts for a given choice of dashes. */
  predicate IsTokenShape(t: Token) {
    && (t.dash == "--" || t.dash == "-")
    && |t.name| >= 1 && AllNameChars(t.name)
    && (t.selfValue.Some? ==> '\n' !in t.selfValue.value)
  }

  /** The pieces MatchWithDash cuts a token into render back to it: the
      whole rest as the name, or the name up to `=` at `eq` and the value. */
  lemma RenderWhole(token: string, dash: string, eq: Option<nat>)
    requires |dash| <= |token| && token[..|dash|] == dash
    requires eq.Some? ==> eq.value < |token| - |dash| && token[|dash| + eq.value] == '='
    ensures var rest := token[|dash|..];
      eq.None? ==> RenderToken(Token(dash, rest, None)) == token
    ensures var rest := token[|dash|..];
      eq.Some? ==> RenderToken(Token(dash, rest[..eq.value], Some(rest[eq.value + 1..]))) == token
  {
    var rest := token[|dash|..];
    assert token == dash + rest;
    if eq.Some? {
      var k := eq.value;
      assert rest == rest[..k] + "=" + rest[k + 1..];
    }
  }

  /** The match for one choice of the dash group. */
  function MatchWithDash(token: string, dash: string): (r: Option<Token>)
    ensures r.Some? ==> IsTokenShape(r.value) && r.value.dash == dash && RenderToken(r.value) == token
    requires dash == "--" || dash == "-"
  {
    if |dash| <= |token| && token[..|dash|] == dash then
      var rest := token[|dash|..];
      var k := NameRun(rest);
      if k == 0 then None
      else if k == |rest| then
        assert rest[..k] == rest;
        RenderWhole(token, dash, None);
        Some(Token(dash, rest, None))
      else if rest[k] == '=' && '\n' !in rest[k + 1..] then
        RenderWhole(token, dash, Some(k));
        Some(Token(dash, rest[..k], Some(rest[k + 1..])))
      else None
    else None
  }

  /** The match of the token pattern: `--?` prefers two dashes and falls back
      to one; the name must be the maximal name run, followed by the end of
      the token or by `=` and a value. */
  function ScanFlag(token: string): (r: Option<Token>)
    ensures r.Some? ==> IsTokenShape(r.value) && RenderToken(r.value) == token
    ensures r.Some? && r.value.dash == "-" && r.value.name[0] == '-' ==> r.value.name == "-"
    ensures !Text.HasPrefix(token, "-") ==> r.None?
  {
    OneDashFallback(token);
    var two := MatchWithDash(token, "--");
    if two.Some? then two else MatchWithDash(token, "-")
  }

  /** When one dash leaves a name that starts with a dash and is longer than
      one character, two dashes already match. */
  lemma OneDashFallback(token: string)
    ensures
      var one := MatchWithDash(token, "-");
      one.Some? && one.value.name[0] == '-' && one.value.name != "-" ==> MatchWithDash(token, "--").Some?
  {
  }

  /** The converse: a token written as dashes, name and optional value scans
      back into those parts, unless a single dash is followed by a name that
      starts with a dash (then the pattern prefers two dashes). */
  lemma ScanFlagComplete(t: Token)
    requires IsTokenShape(t)
    requires t.dash == "-" ==> t.name[0] != '-' || t.name == "-"
    ensures ScanFlag(RenderToken(t)) == Some(t)
  {
    var token := RenderToken(t);
    var after := match t.selfValue { case None => "" case Some(v) => "=" + v };
    assert token == t.dash + (t.name + after);
    assert token[..|t.dash|] == t.dash;
    assert token[|t.dash|..] == t.name + after;
    NameRunOf(t.name, after);
    MatchWithDashOf(t);
    if t.dash == "-" {
      TwoDashesFail(t);
    }
  }

  lemma MatchWithDashOf(t: Token)
    requires IsTokenShape(t)
    ensures MatchWithDash(RenderToken(t), t.dash) == Some(t)
  {
    var token := RenderToken(t);
    var after := match t.selfValue { case None => "" case Some(v) => "=" + v };
    assert token == t.dash + (t.name + after);
    var rest := token[|t.dash|..];
    assert rest == t.name + after;
    NameRunOf(t.name, after);
    if t.selfValue.Some? {
      assert rest[..|t.name|] == t.name;
      assert rest[|t.name|] == '=';
      assert rest[|t.name| + 1..] == t.selfValue.value;
    }
  }

  lemma TwoDashesFail(t: Token)
    requires IsTokenShape(t) && t.dash == "-"
    requires t.name[0] != '-' || t.name == "-"
    ensures MatchWithDash(RenderToken(t), "--").None?
  {
    var token := RenderToken(t);
    var after := match t.selfValue { case None => "" case Some(v) => "=" + v };
    assert token == "-" + t.name + after;
    assert token[1] == t.name[0];
    if 2 <= |token| && token[..2] == "--" {
      assert t.name == "-";
      var rest := token[2..];
      assert rest == after;
      assert rest == [] || rest[0] == '=';
    }
  }

  /** prettyFlag: one-character names get one dash, others two. */
  function PrettyFlag(name: string): string {
    if |name| == 1 then "-" + name else "--" + name
  }
}
