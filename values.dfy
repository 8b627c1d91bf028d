/** The parsed values and their accessors: Get, GetInt, GetBool, Have and
    GetAll. The newest and the pkg version have all five with the same code;
    the root version has Get, GetInt and a GetBool that lacks "null" (that
    one is in RootOptions). */
module Values {
  import opened Wrappers
  import opened Text

  /** The `opts` and `known` maps of an Options value: the value of each
      option set by default or on the command line, and every canonical
      name of the specification. */
  datatype Store = Store(opts: map<string, string>, known: set<string>)

  /** One entry of the Flags log: the flag as presented (dashes and name)
      and the value it received, if any. */
  datatype Flag = Flag(presented: string, value: Option<string>)

  /** Get: the value, "" for a declared option that is not set, and a
      programmer error for a name that is not canonical. */
  function Get(o: Store, flag: string): (r: Result<string>)
    ensures r.Err? <==> flag !in o.opts && flag !in o.known
    ensures r.Err? ==> r.error == UnknownCanonical
  {
    if flag in o.opts then Ok(o.opts[flag])
    else if flag in o.known then Ok("")
    else Err(UnknownCanonical)
  }

  /** GetInt: "" reads as 0; any other value must be an integer. */
  function GetInt(o: Store, flag: string): (r: Result<int>)
    ensures Get(o, flag) == Ok("") ==> r == Ok(0)
    ensures Get(o, flag).Err? ==> r.Err? && r.error == UnknownCanonical
  {
    var v :- Get(o, flag);
    if v == "" then Ok(0)
    else match ParseInt(v) {
      case None => Err(BadInteger)
      case Some(n) => Ok(n)
    }
  }

  /** The spellings GetBool reads as false. */
  predicate IsFalseSpelling(v: string) {
    v == "" || v == "0" || v == "false" || v == "off" || v == "nil" || v == "null" || v == "no"
  }

  /** GetBool: every value is true except the false spellings. */
  function GetBool(o: Store, flag: string): (r: Result<bool>)
    ensures Get(o, flag).Err? <==> r.Err?
  {
    var v :- Get(o, flag);
    Ok(!IsFalseSpelling(v))
  }

  /** Have: whether a value is set, for canonical names only. */
  function Have(o: Store, flag: string): (r: Result<bool>)
    ensures r.Err? <==> flag !in o.known
  {
    if flag !in o.known then Err(UnknownCanonical) else Ok(flag in o.opts)
  }

  /** Have and Get agree: an option without a value reads as "", and one
      with a value reads as that value. */
  lemma HaveGet(o: Store, flag: string)
    requires flag in o.known
    ensures Have(o, flag) == Ok(false) ==> Get(o, flag) == Ok("")
    ensures Have(o, flag) == Ok(true) ==> Get(o, flag) == Ok(o.opts[flag])
  {
  }

  /** Counting stores the decimal of the count; GetInt reads it back. */
  lemma GetIntCount(o: Store, flag: string, n: int)
    ensures GetInt(o.(opts := o.opts[flag := IntToString(n)]), flag) == Ok(n)
  {
    ParseIntRoundTrip(n);
    assert IntToString(n) != "" by {
      if n < 0 {
        assert IntToString(n)[0] == '-';
      }
    }
  }

  /** A counted option reads as true exactly when it was counted at least
      once. */
  lemma GetBoolCount(o: Store, flag: string, n: int)
    ensures GetBool(o.(opts := o.opts[flag := IntToString(n)]), flag) == Ok(n != 0)
  {
    var s := IntToString(n);
    if n < 0 {
      assert s[0] == '-';
      assert !IsFalseSpelling(s) by {
        assert "0"[0] != '-' && "false"[0] != '-' && "off"[0] != '-';
        assert "nil"[0] != '-' && "null"[0] != '-' && "no"[0] != '-';
      }
    } else if n > 0 {
      assert IsDigit(s[0]);
      NatToDecimalPlain(n);
      assert s != "0";
      assert !IsFalseSpelling(s) by {
        assert !IsDigit('f') && !IsDigit('o') && !IsDigit('n');
      }
    }
  }

  // ---------------------------------------------------------------------
  // GetAll

  /** The values GetAll gathers for `flag`, in log order; a matching entry
      without a value is a programmer error. */
  function AllValues(flag: string, flags: seq<Flag>): Result<seq<string>>
    decreases |flags|
  {
    if flags == [] then Ok([])
    else if flags[0].presented != flag then AllValues(flag, flags[1..])
    else match flags[0].value {
      case None => Err(NotAnArgumentOption)
      case Some(v) =>
        var rest :- AllValues(flag, flags[1..]);
        Ok([v] + rest)
    }
  }

  function Prepend(out: seq<string>, r: Result<seq<string>>): Result<seq<string>> {
    match r {
      case Ok(vs) => Ok(out + vs)
      case Err(e) => Err(e)
    }
  }

  /** GetAll, with its loop over the log. */
  method GetAll(flag: string, flags: seq<Flag>) returns (r: Result<seq<string>>)
    ensures r == AllValues(flag, flags)
  {
    var out := [];
    var i := 0;
    PrependEmpty(AllValues(flag, flags));
    while i < |flags|
      invariant 0 <= i <= |flags|
      invariant AllValues(flag, flags) == Prepend(out, AllValues(flag, flags[i..]))
    {
      assert flags[i..][0] == flags[i] && flags[i..][1..] == flags[i + 1..];
      if flags[i].presented == flag {
        if flags[i].value.None? {
          return Err(NotAnArgumentOption);
        }
        PrependStep(out, flags[i].value.value, AllValues(flag, flags[i + 1..]));
        out := out + [flags[i].value.value];
      }
      i := i + 1;
    }
    assert flags[i..] == [];
    assert out + [] == out;
    r := Ok(out);
  }

  lemma PrependEmpty(r: Result<seq<string>>)
    ensures Prepend([], r) == r
  {
    if r.Ok? {
      assert [] + r.value == r.value;
    }
  }

  lemma PrependStep(out: seq<string>, v: string, r: Result<seq<string>>)
    ensures Prepend(out, match r { case Ok(vs) => Ok([v] + vs) case Err(e) => Err(e) }) == Prepend(out + [v], r)
  {
    if r.Ok? {
      assert out + ([v] + r.value) == out + [v] + r.value;
    }
  }

  /** GetAll over a log made of two parts: the values of the first part,
      then those of the second, and the first error wins. */
  lemma {:induction false} AllValuesAppend(flag: string, a: seq<Flag>, b: seq<Flag>)
    ensures AllValues(flag, a + b) ==
      match AllValues(flag, a) {
        case Err(e) => Err(e)
        case Ok(va) => Prepend(va, AllValues(flag, b))
      }
    decreases |a|
  {
    if a == [] {
      assert a + b == b;
      PrependEmpty(AllValues(flag, b));
    } else {
      assert (a + b)[1..] == a[1..] + b;
      assert (a + b)[0] == a[0];
      AllValuesAppend(flag, a[1..], b);
      if a[0].presented == flag && a[0].value.Some? {
        var rest := AllValues(flag, a[1..]);
        if rest.Ok? {
          PrependStep([], a[0].value.value, AllValues(flag, b));
          var rb := AllValues(flag, b);
          if rb.Ok? {
            assert [a[0].value.value] + (rest.value + rb.value) == ([a[0].value.value] + rest.value) + rb.value;
          }
        }
      }
    }
  }

  /** An entry of `flag` logged without a value makes GetAll fatal. */
  lemma {:induction false} AllValuesNoValue(flag: string, flags: seq<Flag>, i: nat)
    requires i < |flags| && flags[i] == Flag(flag, None)
    ensures AllValues(flag, flags).Err?
    decreases i
  {
    if i > 0 {
      AllValuesNoValue(flag, flags[1..], i - 1);
    }
  }

  /** Entries of other flags do not contribute. */
  lemma {:induction false} AllValuesOthers(flag: string, flags: seq<Flag>)
    requires forall k :: 0 <= k < |flags| ==> flags[k].presented != flag
    ensures AllValues(flag, flags) == Ok([])
    decreases |flags|
  {
    if flags != [] {
      AllValuesOthers(flag, flags[1..]);
    }
  }
}
