/**
 * Python values as the story state and the collaboration store see them.
 *
 * The source passes dictionaries of arbitrary content (`Dict[str, Any]`) between
 * its components. `Value` is that content: None, booleans, integers, strings,
 * lists and string-keyed dictionaries. `Outcome` stands for a call that either
 * returns or raises a Python exception.
 */
module Values {

  datatype Option<+T> = None | Some(value: T) {
    /** `d.get(key, default)`: the value when present, the default otherwise. */
    function GetOr(default: T): T {
      match this
      case Some(v) => v
      case None => default
    }
  }

  /** The end of a Python call: the value it returned or the exception it raised. */
  datatype Outcome<+T> = Returned(value: T) | Raised(exception: string)

  datatype Value =
    | VNull
    | VBool(b: bool)
    | VInt(i: int)
    | VStr(s: string)
    | VList(items: seq<Value>)
    | VDict(fields: map<string, Value>)

  /** Python truthiness: None, False, 0 and empty containers are false. */
  predicate Truthy(v: Value)
    ensures !Truthy(v) <==> v in {VNull, VBool(false), VInt(0), VStr([]), VList([]), VDict(map[])}
  {
    match v
    case VNull => false
    case VBool(b) => b
    case VInt(i) => i != 0
    case VStr(s) => |s| > 0
    case VList(items) => |items| > 0
    case VDict(fields) => |fields| > 0
  }

  /** `d.get(key)`: the stored value, or None when the key is absent. */
  function Get(d: map<string, Value>, key: string): (v: Value)
    ensures key in d ==> v == d[key]
    ensures key !in d ==> v == VNull
  {
    if key in d then d[key] else VNull
  }

  /** The integer Python sees in `v + 1`: a bool counts as 0 or 1; anything else is a TypeError. */
  function AsInt(v: Value): (r: Option<int>)
    ensures v.VInt? ==> r == Some(v.i)
    ensures v.VBool? ==> r == Some(if v.b then 1 else 0)
    ensures !v.VInt? && !v.VBool? ==> r == None
  {
    match v
    case VInt(i) => Some(i)
    case VBool(b) => Some(if b then 1 else 0)
    case _ => None
  }

  /** A list of strings, as `to_dict` stores one. */
  function StrList(xs: seq<string>): (v: Value)
    ensures v.VList? && |v.items| == |xs|
  {
    VList(Strs(xs))
  }

  function Strs(xs: seq<string>): (vs: seq<Value>)
    ensures |vs| == |xs|
  {
    if xs == [] then [] else [VStr(xs[0])] + Strs(xs[1..])
  }

  /** Reads a list of strings back; None when `v` is not one. */
  function AsStrList(v: Value): Option<seq<string>> {
    match v
    case VList(items) => AsStrs(items)
    case _ => None
  }

  function AsStrs(vs: seq<Value>): Option<seq<string>> {
    if vs == [] then Some([])
    else if !vs[0].VStr? then None
    else match AsStrs(vs[1..])
      case None => None
      case Some(rest) => Some([vs[0].s] + rest)
  }

  lemma {:induction false} StrsRoundTrip(xs: seq<string>)
    ensures AsStrs(Strs(xs)) == Some(xs)
  {
    if xs != [] {
      StrsRoundTrip(xs[1..]);
      assert Strs(xs)[1..] == Strs(xs[1..]);
      assert [xs[0]] + xs[1..] == xs;
    }
  }

  /** Reading back a stored list of strings gives the list that was stored. */
  lemma StrListRoundTrip(xs: seq<string>)
    ensures AsStrList(StrList(xs)) == Some(xs)
  {
    StrsRoundTrip(xs);
  }

  /** The decimal digits Python prints for a natural number. */
  function NatToString(n: nat): (s: string)
    ensures |s| > 0
    decreases n
  {
    var digit := (('0' as int) + n % 10) as char;
    if n < 10 then [digit] else NatToString(n / 10) + [digit]
  }

  predicate IsDigit(c: char) {
    '0' <= c <= '9'
  }

  /** The number a string of decimal digits denotes, read most significant digit first. */
  function DigitsValue(s: string): (n: nat)
    requires forall i :: 0 <= i < |s| ==> IsDigit(s[i])
    ensures |s| == 1 ==> n == (s[0] as int) - ('0' as int)
    decreases |s|
  {
    if s == [] then 0
    else
      assert IsDigit(s[|s| - 1]);
      DigitsValue(s[..|s| - 1]) * 10 + ((s[|s| - 1] as int) - ('0' as int))
  }

  /**
   * `NatToString` is the decimal rendering of `n`: only digits, no leading zero,
   * and reading the digits back gives `n`.
   */
  lemma {:induction false} NatToStringRoundTrip(n: nat)
    ensures var s := NatToString(n);
      && (forall i :: 0 <= i < |s| ==> IsDigit(s[i]))
      && (|s| > 1 ==> s[0] != '0')
      && DigitsValue(s) == n
    decreases n
  {
    if n >= 10 {
      var prefix := NatToString(n / 10);
      NatToStringRoundTrip(n / 10);
      var s := NatToString(n);
      assert s == prefix + [(('0' as int) + n % 10) as char];
      assert s[..|s| - 1] == prefix;
    }
  }
}
