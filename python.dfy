/** Python values as the adapters see them (a decoded JSON body, a table cell,
    a result dict) and the handful of Python operations the adapters apply to
    them: truthiness, `or`, `dict.get`, `in`, subscripting, `float()`, `str()`,
    `str.strip()`, `str.lower()` and `str.join()`. */
module Python {

  datatype Option<+T> = None | Some(value: T)

  /** What a Python expression inside a `try` block yields: a value, or an
      exception. Every exception the adapters raise is caught by their
      `except Exception`, so its type does not matter. */
  datatype Outcome<+T> = Ok(value: T) | Raised {
    predicate IsFailure() { Raised? }
    function PropagateFailure<U>(): Outcome<U>
      requires Raised?
    {
      Raised
    }
    function Extract(): T
      requires Ok?
    {
      value
    }
  }

  /** The exceptions that escape the core to its callers. */
  datatype Error =
    | MissingColumn(column: string)        // ValueError: the named column is not in the table
    | UnsupportedProvider(name: string)    // ValueError: provider name is neither kakao nor naver
    | MissingCredentials                   // ValueError: adapter construction found no API key
    | MissingKey(key: string)              // KeyError: `result[key]` on a result dict without it

  datatype Result<+T> = Success(value: T) | Failure(error: Error) {
    predicate IsFailure() { Failure? }
    function PropagateFailure<U>(): Result<U>
      requires Failure?
    {
      Failure(error)
    }
    function Extract(): T
      requires Success?
    {
      value
    }
  }

  /** None, bool, int, float, str, list and dict (JSON object keys are strings). */
  datatype Value =
    | Null
    | Bool(b: bool)
    | Int(i: int)
    | Float(x: real)
    | Str(s: string)
    | List(items: seq<Value>)
    | Dict(entries: map<string, Value>)

  const EmptyDict: Value := Dict(map[])

  /** `pd.isna(v)`: the model has no NaN, so a missing cell is `Null`. */
  predicate IsNa(v: Value) { v == Null }

  /** `bool(v)` */
  predicate Truthy(v: Value) {
    match v
    case Null => false
    case Bool(b) => b
    case Int(i) => i != 0
    case Float(x) => x != 0.0
    case Str(s) => s != ""
    case List(items) => items != []
    case Dict(entries) => entries != map[]
  }

  /** `a or b` */
  function Or(a: Value, b: Value): Value {
    if Truthy(a) then a else b
  }

  /** `m.get(k, default)` on a dict known to be one. */
  function Lookup(m: map<string, Value>, k: string, default: Value): Value {
    if k in m then m[k] else default
  }

  /** `o.get(k, default)`: anything but a dict raises AttributeError. */
  function Get(o: Value, k: string, default: Value): Outcome<Value> {
    if o.Dict? then Ok(Lookup(o.entries, k, default)) else Raised
  }

  /** `v[0]`: a list gives its first item and a string its first character;
      a dict has no key 0 (its keys are strings) and other values are not
      subscriptable. */
  function First(v: Value): Outcome<Value> {
    match v
    case List(items) => if items == [] then Raised else Ok(items[0])
    case Str(s) => if s == "" then Raised else Ok(Str(s[..1]))
    case _ => Raised
  }

  /** A value `(v or {})` can call `.get` on: falsy, or a dict. */
  predicate WellFormedObject(v: Value) {
    !Truthy(v) || v.Dict?
  }

  /** `key in container`: key membership for a dict, substring for a
      string, element equality for a list; other values raise TypeError. */
  function Contains(container: Value, key: string): Outcome<bool> {
    match container
    case Dict(entries) => Ok(key in entries)
    case Str(s) => Ok(IsSubstring(key, s))
    case List(items) => Ok(Str(key) in items)
    case _ => Raised
  }

  predicate IsSubstring(needle: string, hay: string)
    decreases |hay|
  {
    needle <= hay || (hay != [] && IsSubstring(needle, hay[1..]))
  }

  /** `container[key]` with a string key: only a dict holding the key yields a value. */
  function Subscript(container: Value, key: string): Outcome<Value> {
    if container.Dict? && key in container.entries then Ok(container.entries[key]) else Raised
  }

  /** `float(v)`. The empty string raises ValueError; parsing any other
      string is `parseText`, which may fail (ValueError too); None, lists
      and dicts raise TypeError. */
  function ToFloat(v: Value, parseText: string -> Option<real>): Outcome<real> {
    match v
    case Bool(b) => Ok(if b then 1.0 else 0.0)
    case Int(i) => Ok(i as real)
    case Float(x) => Ok(x)
    case Str(s) => if s == "" then Raised else (match parseText(s) case Some(x) => Ok(x) case None => Raised)
    case _ => Raised
  }

  /** `str(v)`. `show` is Python's rendering of a float, a list or a dict. */
  function ToStr(v: Value, show: Value -> string): string {
    match v
    case Null => "None"
    case Bool(b) => if b then "True" else "False"
    case Int(i) => IntToString(i)
    case Str(s) => s
    case _ => show(v)
  }

  function Digit(d: nat): char
    requires d < 10
  {
    "0123456789"[d]
  }

  /** Decimal rendering of a natural number, as `str()` gives it. */
  function NatToString(n: nat): (r: string)
    ensures |r| >= 1
    ensures n < 10 <==> |r| == 1
  {
    if n < 10 then [Digit(n)] else NatToString(n / 10) + [Digit(n % 10)]
  }

  function IntToString(i: int): string {
    if i < 0 then "-" + NatToString(-i) else NatToString(i)
  }

  /** Distinct numbers have distinct decimal renderings. */
  lemma {:induction false} NatToStringInjective(a: nat, b: nat)
    requires NatToString(a) == NatToString(b)
    ensures a == b
  {
    var s := NatToString(a);
    if a >= 10 && b >= 10 {
      assert NatToString(a / 10) == s[..|s| - 1] == NatToString(b / 10);
      NatToStringInjective(a / 10, b / 10);
      assert Digit(a % 10) == s[|s| - 1] == Digit(b % 10);
    }
  }

  /** `c.isspace()`: the characters Python's `str.strip()` removes. */
  predicate IsSpace(c: char) {
    var n := c as int;
    n == 0x20 || 0x09 <= n <= 0x0D || 0x1C <= n <= 0x1F || n == 0x85 || n == 0xA0
    || n == 0x1680 || 0x2000 <= n <= 0x200A || n == 0x2028 || n == 0x2029
    || n == 0x202F || n == 0x205F || n == 0x3000
  }

  /** No whitespace at either end. */
  predicate IsStripped(s: string) {
    s == [] || (!IsSpace(s[0]) && !IsSpace(s[|s| - 1]))
  }

  function TrimLeft(s: string): (r: string)
    ensures r == [] || !IsSpace(r[0])
    ensures |r| <= |s| && r == s[|s| - |r|..]
    ensures forall k :: 0 <= k < |s| - |r| ==> IsSpace(s[k])
  {
    if s != [] && IsSpace(s[0]) then TrimLeft(s[1..]) else s
  }

  function TrimRight(s: string): (r: string)
    ensures r == [] || !IsSpace(r[|r| - 1])
    ensures |r| <= |s| && r == s[..|r|]
    ensures forall k :: |r| <= k < |s| ==> IsSpace(s[k])
  {
    if s != [] && IsSpace(s[|s| - 1]) then TrimRight(s[..|s| - 1]) else s
  }

  /** `s.strip()`: the text between the leading and the trailing
      whitespace. */
  function Strip(s: string): (r: string)
    ensures IsStripped(r)
    ensures |r| <= |s|
  {
    var l := TrimLeft(s);
    var r := TrimRight(l);
    assert r != [] ==> r[0] == l[0];
    r
  }

  /** Stripping removes whitespace at the two ends and nothing else: the
      result is an infix of the text with only whitespace around it. */
  lemma StripInfix(s: string)
    ensures exists i, j :: 0 <= i <= j <= |s| && Strip(s) == s[i..j] && SpaceOutside(s, i, j)
  {
    var l := TrimLeft(s);
    TrimmedInfix(s, l, TrimRight(l));
  }

  /** Trimming the left of `s` into `l` and the right of `l` into `r`
      leaves `r` as an infix of `s` with only whitespace around it. */
  lemma TrimmedInfix(s: string, l: string, r: string)
    requires |l| <= |s| && l == s[|s| - |l|..] && forall k :: 0 <= k < |s| - |l| ==> IsSpace(s[k])
    requires |r| <= |l| && r == l[..|r|] && forall k :: |r| <= k < |l| ==> IsSpace(l[k])
    ensures exists i, j :: 0 <= i <= j <= |s| && r == s[i..j] && SpaceOutside(s, i, j)
  {
    var i := |s| - |l|;
    var j := i + |r|;
    assert s[i..][..|r|] == s[i..j];
    forall k | 0 <= k < |s| && !(i <= k < j)
      ensures IsSpace(s[k])
    {
      if k >= j {
        assert s[k] == l[k - i];
      }
    }
    assert SpaceOutside(s, i, j);
  }

  /** Every character of `s` before index `i` or from index `j` on is whitespace. */
  predicate SpaceOutside(s: string, i: nat, j: nat) {
    forall k :: 0 <= k < |s| && !(i <= k < j) ==> IsSpace(s[k])
  }

  /** Stripping a string that has no whitespace at either end leaves it as it is. */
  lemma StripStripped(s: string)
    requires IsStripped(s)
    ensures Strip(s) == s
  {
  }

  /** `c.lower()` for the characters whose lower-case form is ASCII: the
      letters A-Z and KELVIN SIGN, which Python lower-cases to `k`. */
  function LowerChar(c: char): char {
    if 'A' <= c <= 'Z' then (c as int + 32) as char
    else if c as int == 0x212A then 'k'
    else c
  }

  /** `s.lower()` (see LowerChar for which characters change). */
  function Lower(s: string): (r: string)
    ensures |r| == |s|
    ensures forall i :: 0 <= i < |s| ==> r[i] == LowerChar(s[i])
  {
    seq(|s|, i requires 0 <= i < |s| => LowerChar(s[i]))
  }

  /** `sep.join(parts)` */
  function Join(sep: string, parts: seq<string>): string {
    if parts == [] then ""
    else if |parts| == 1 then parts[0]
    else parts[0] + sep + Join(sep, parts[1..])
  }

  /** Joining non-empty stripped pieces with a single space gives a stripped string. */
  lemma {:induction false} JoinStripped(parts: seq<string>)
    requires forall i :: 0 <= i < |parts| ==> parts[i] != "" && IsStripped(parts[i])
    ensures IsStripped(Join(" ", parts))
    ensures parts != [] ==> Join(" ", parts) != ""
  {
    if |parts| > 1 {
      JoinStripped(parts[1..]);
      var rest := Join(" ", parts[1..]);
      var j := parts[0] + " " + rest;
      assert j[0] == parts[0][0];
      assert j[|j| - 1] == rest[|rest| - 1];
    }
  }
}
