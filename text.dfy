/** The pieces of Go's standard library the option parser leans on:
    strings.Split, strings.Join, strings.HasPrefix, and the decimal
    conversions fmt.Sprintf("%d") and fmt.Sscan restricted to integers. */
module Text {
  import opened Wrappers

  /** strings.Split with a one-character separator: the pieces between
      separators, so n separators always give n + 1 pieces. */
  function Split(s: string, sep: char): (parts: seq<string>)
    ensures |parts| >= 1
    ensures forall k :: 0 <= k < |parts| ==> sep !in parts[k]
    decreases |s|
  {
    if s == [] then [[]]
    else
      var tail := Split(s[1..], sep);
      if s[0] == sep then [[]] + tail
      else [[s[0]] + tail[0]] + tail[1..]
  }

  /** strings.Join. */
  function Join(parts: seq<string>, sep: string): string
    decreases |parts|
  {
    if |parts| == 0 then ""
    else if |parts| == 1 then parts[0]
    else parts[0] + sep + Join(parts[1..], sep)
  }

  /** strings.HasPrefix. */
  predicate HasPrefix(s: string, prefix: string) {
    |prefix| <= |s| && s[..|prefix|] == prefix
  }

  /** Splitting and joining again gives back the text. */
  lemma {:induction false} JoinSplit(s: string, sep: char)
    ensures Join(Split(s, sep), [sep]) == s
    decreases |s|
  {
    if s != [] {
      var tail := Split(s[1..], sep);
      JoinSplit(s[1..], sep);
      if s[0] == sep {
        assert Split(s, sep) == [[]] + tail;
        assert s == [sep] + s[1..];
      } else {
        assert Split(s, sep) == [[s[0]] + tail[0]] + tail[1..];
        if |tail| == 1 {
          assert tail == [s[1..]];
        } else {
          assert Join(tail, [sep]) == tail[0] + [sep] + Join(tail[1..], [sep]);
        }
      }
    }
  }

  /** A piece without the separator, followed by the separator, becomes a
      piece of its own. */
  lemma {:induction false} SplitPiece(piece: string, sep: char, rest: string)
    requires sep !in piece
    ensures Split(piece + [sep] + rest, sep) == [piece] + Split(rest, sep)
    decreases |piece|
  {
    if piece == [] {
      assert piece + [sep] + rest == [sep] + rest;
      assert ([sep] + rest)[1..] == rest;
    } else {
      SplitPiece(piece[1..], sep, rest);
      assert (piece + [sep] + rest)[1..] == piece[1..] + [sep] + rest;
      assert [piece[0]] + piece[1..] == piece;
    }
  }

  /** Text without the separator is a single piece. */
  lemma {:induction false} SplitWhole(piece: string, sep: char)
    requires sep !in piece
    ensures Split(piece, sep) == [piece]
    decreases |piece|
  {
    if piece != [] {
      SplitWhole(piece[1..], sep);
      assert [piece[0]] + piece[1..] == piece;
    }
  }

  /** Joining pieces that do not contain the separator and splitting again
      gives back the pieces. */
  lemma {:induction false} SplitJoin(parts: seq<string>, sep: char)
    requires |parts| >= 1
    requires forall k :: 0 <= k < |parts| ==> sep !in parts[k]
    ensures Split(Join(parts, [sep]), sep) == parts
    decreases |parts|
  {
    if |parts| == 1 {
      SplitWhole(parts[0], sep);
    } else {
      SplitJoin(parts[1..], sep);
      SplitPiece(parts[0], sep, Join(parts[1..], [sep]));
      assert [parts[0]] + parts[1..] == parts;
    }
  }

  /** One more separator at the end adds one empty piece at the end. */
  lemma SplitTrailingSeparator(s: string, sep: char)
    ensures Split(s + [sep], sep) == Split(s, sep) + [[]]
  {
    var parts := Split(s, sep);
    JoinSplit(s, sep);
    JoinAppendEmpty(parts, [sep]);
    assert Join(parts + [[]], [sep]) == s + [sep];
    forall k | 0 <= k < |parts + [[]]|
      ensures sep !in (parts + [[]])[k]
    {
      if k < |parts| {
        assert (parts + [[]])[k] == parts[k];
      }
    }
    SplitJoin(parts + [[]], [sep][0]);
  }

  lemma {:induction false} JoinAppendEmpty(parts: seq<string>, sep: string)
    requires |parts| >= 1
    ensures Join(parts + [[]], sep) == Join(parts, sep) + sep
    decreases |parts|
  {
    if |parts| == 1 {
      assert parts + [[]] == [parts[0], []];
    } else {
      JoinAppendEmpty(parts[1..], sep);
      assert (parts + [[]])[1..] == parts[1..] + [[]];
    }
  }

  // Decimal numbers

  predicate IsDigit(c: char) {
    '0' <= c <= '9'
  }

  predicate AllDigits(s: string) {
    forall k :: 0 <= k < |s| ==> IsDigit(s[k])
  }


  function DigitChar(d: nat): (c: char)
    requires d < 10
    ensures IsDigit(c) && c as int - '0' as int == d
  {
    (d + '0' as int) as char
  }

  /** The decimal digits of a natural number, most significant first,
      without leading zeros. */
  function NatToDecimal(n: nat): (s: string)
    ensures |s| >= 1 && AllDigits(s)
    decreases n
  {
    if n < 10 then [DigitChar(n)] else NatToDecimal(n / 10) + [DigitChar(n % 10)]
  }

  /** fmt.Sprintf("%d", n). */
  function IntToString(n: int): string {
    if n < 0 then "-" + NatToDecimal(-n) else NatToDecimal(n)
  }

  /** The value of a run of decimal digits, read left to right; None when a
      character is not a digit. The empty run reads 0. */
  function DigitsValue(s: string): Option<nat>
    decreases |s|
  {
    if s == [] then Some(0)
    else match DigitsValue(s[..|s| - 1]) {
      case None => None
      case Some(v) =>
        if IsDigit(s[|s| - 1]) then Some(v * 10 + (s[|s| - 1] as int - '0' as int)) else None
    }
  }

  /** An unsigned number: at least one digit, and no zero in front of
      further digits, since Go reads such a zero as an octal prefix. */
  function NumberValue(d: string): Option<nat> {
    if d == [] || (|d| >= 2 && d[0] == '0') then None else DigitsValue(d)
  }

  /** The integer reading that GetInt applies: an optional minus sign and a
      number; anything else does not parse. */
  function ParseInt(s: string): Option<int> {
    if |s| >= 1 && s[0] == '-' then
      match NumberValue(s[1..]) {
        case None => None
        case Some(v) => Some(0 - v)
      }
    else
      match NumberValue(s) {
        case None => None
        case Some(v) => Some(v)
      }
  }

  /** Whatever the reader accepts is the `%d` form of the number it reads,
      `-0` aside: no other spelling of a number is read. */
  lemma ParseIntPlain(s: string)
    ensures ParseInt(s).Some? && s != "-0" ==> IntToString(ParseInt(s).value) == s
  {
    if |s| >= 1 && s[0] == '-' {
      if NumberValue(s[1..]).Some? {
        DecimalPlain(s[1..]);
        assert s == "-" + s[1..];
      }
    } else if NumberValue(s).Some? {
      DecimalPlain(s);
    }
  }

  /** Writing back the value of a number gives its digits. */
  lemma {:induction false} DecimalPlain(s: string)
    requires NumberValue(s).Some?
    ensures NatToDecimal(NumberValue(s).value) == s
    decreases |s|
  {
    var prefix := s[..|s| - 1];
    if |s| >= 2 {
      assert prefix[0] == s[0];
      DecimalPlain(prefix);
      assert NumberValue(prefix).value > 0;
      assert s == prefix + [s[|s| - 1]];
    } else {
      assert prefix == [];
      assert DigitsValue(prefix) == Some(0);
      assert IsDigit(s[0]);
      var d := s[0] as int - '0' as int;
      assert NumberValue(s) == Some(d);
      assert DigitChar(d) == s[0];
    }
  }

  /** `%d` writes no zero in front of further digits. */
  lemma {:induction false} NatToDecimalPlain(n: nat)
    ensures |NatToDecimal(n)| >= 2 ==> NatToDecimal(n)[0] != '0'
    ensures n > 0 ==> NatToDecimal(n)[0] != '0'
    decreases n
  {
    if n >= 10 {
      NatToDecimalPlain(n / 10);
    }
  }

  /** Reading the digits `%d` writes for n gives n. */
  lemma {:induction false} DecimalRoundTrip(n: nat)
    ensures DigitsValue(NatToDecimal(n)) == Some(n)
    decreases n
  {
    var s := NatToDecimal(n);
    if n >= 10 {
      DecimalRoundTrip(n / 10);
      assert s[..|s| - 1] == NatToDecimal(n / 10);
    } else {
      assert s[..|s| - 1] == [];
    }
  }

  /** Reading back what Sprintf("%d") wrote gives the number. */
  lemma ParseIntRoundTrip(n: int)
    ensures ParseInt(IntToString(n)) == Some(n)
  {
    var s := IntToString(n);
    if n < 0 {
      NatToDecimalPlain(-n);
      DecimalRoundTrip(-n);
      assert s[1..] == NatToDecimal(-n);
    } else {
      NatToDecimalPlain(n);
      DecimalRoundTrip(n);
      assert IsDigit(s[0]);
    }
  }
}
