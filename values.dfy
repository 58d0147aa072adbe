/**
 * The Python values the orchestration core passes around (`Dict[str, Any]`
 * records, lists of strings, `str`), Python's exception propagation as a
 * failure-compatible `Outcome`, and the few `str` operations the core uses
 * (`startswith`, `endswith`, `join`, `split`, `str(int)`).
 */
module Values {

  /** A JSON-like Python value as stored in the core's result dictionaries. */
  datatype Value =
    | Null                               // Python `None`
    | Bool(b: bool)
    | Int(i: int)
    | Float(x: real)                     // only literals such as 0.0 occur; no float arithmetic
    | Str(s: string)
    | List(items: seq<Value>)
    | Dict(entries: map<string, Value>)  // key order of the Python dict is not kept

  /** A call that returns normally (`Ok`) or raises an exception (`Fail`). */
  datatype Outcome<+T> = Ok(value: T) | Fail(error: string) {
    predicate IsFailure() { Fail? }
    function PropagateFailure<U>(): Outcome<U>
      requires Fail?
    {
      Fail(error)
    }
    function Extract(): T
      requires Ok?
    {
      value
    }
  }

  /** An optional argument (`X | None = None` in the source's signatures). */
  datatype Option<+T> = None | Some(value: T)

  /** Python truthiness, as decided by `if v:`. */
  predicate Truthy(v: Value) {
    match v
    case Null => false
    case Bool(b) => b
    case Int(i) => i != 0
    case Float(x) => x != 0.0
    case Str(s) => s != ""
    case List(items) => items != []
    case Dict(entries) => entries != map[]
  }

  /** `v.get(key, default)`: only a dict has `get`; on anything else Python raises AttributeError. */
  function Get(v: Value, key: string, default: Value): Outcome<Value> {
    if !v.Dict? then Fail("AttributeError: object has no attribute 'get'")
    else if key in v.entries then Ok(v.entries[key])
    else Ok(default)
  }

  /** A Python list of strings. */
  function StrList(xs: seq<string>): (v: Value)
    ensures v.List? && |v.items| == |xs|
    ensures forall i :: 0 <= i < |xs| ==> v.items[i] == Str(xs[i])
  {
    if xs == [] then List([]) else List([Str(xs[0])] + StrList(xs[1..]).items)
  }

  /** The strings of a Python list whose every element is a `str`, if it is one. */
  function StringsOf(items: seq<Value>): (r: Option<seq<string>>)
    ensures r.Some? <==> forall i :: 0 <= i < |items| ==> items[i].Str?
    ensures r.Some? ==> |r.value| == |items| && forall i :: 0 <= i < |items| ==> items[i] == Str(r.value[i])
  {
    if items == [] then Some([])
    else if !items[0].Str? then None
    else match StringsOf(items[1..])
      case None => None
      case Some(rest) => Some([items[0].s] + rest)
  }

  /** A list of strings reads back as the same strings. */
  lemma StringsOfStrList(xs: seq<string>)
    ensures StringsOf(StrList(xs).items) == Some(xs)
  {
    var r := StringsOf(StrList(xs).items);
    assert r.Some?;
    assert r.value == xs;
  }

  predicate StartsWith(s: string, prefix: string) {
    prefix <= s
  }

  predicate EndsWith(s: string, suffix: string) {
    |suffix| <= |s| && s[|s| - |suffix|..] == suffix
  }

  /** `sep.join(xs)`. */
  function Join(xs: seq<string>, sep: string): string {
    if xs == [] then ""
    else if |xs| == 1 then xs[0]
    else xs[0] + sep + Join(xs[1..], sep)
  }

  /** `s.split(c)` for a one-character separator. */
  function Split(s: string, c: char): (r: seq<string>)
    ensures |r| >= 1
  {
    if s == [] then [""]
    else
      var rest := Split(s[1..], c);
      if s[0] == c then [""] + rest else [[s[0]] + rest[0]] + rest[1..]
  }

  /** Splitting `x + [c] + rest`, where `x` holds no `c`, cuts off exactly `x`. */
  lemma {:induction false} SplitAtFirst(x: string, c: char, rest: string)
    requires c !in x
    ensures Split(x + [c] + rest, c) == [x] + Split(rest, c)
  {
    if x == [] {
      assert x + [c] + rest == [c] + rest;
      assert ([c] + rest)[1..] == rest;
    } else {
      SplitAtFirst(x[1..], c, rest);
      assert (x + [c] + rest)[1..] == x[1..] + [c] + rest;
      assert [x[0]] + x[1..] == x;
    }
  }

  /** A string without `c` does not split. */
  lemma {:induction false} SplitNone(x: string, c: char)
    requires c !in x
    ensures Split(x, c) == [x]
  {
    if x != [] {
      SplitNone(x[1..], c);
      assert [x[0]] + x[1..] == x;
    }
  }

  /**
   * Joining lines with a one-character separator that none of them holds
   * loses nothing: splitting the result gives the lines back.
   */
  lemma {:induction false} SplitJoin(xs: seq<string>, c: char)
    requires xs != []
    requires forall i :: 0 <= i < |xs| ==> c !in xs[i]
    ensures Split(Join(xs, [c]), c) == xs
  {
    if |xs| == 1 {
      SplitNone(xs[0], c);
    } else {
      SplitJoin(xs[1..], c);
      SplitAtFirst(xs[0], c, Join(xs[1..], [c]));
      assert [xs[0]] + xs[1..] == xs;
    }
  }

  /** `x` occurs in `s` starting at offset `k`. */
  predicate OccursAt(x: string, s: string, k: nat) {
    k + |x| <= |s| && s[k..k + |x|] == x
  }

  /** `x in s` for strings. */
  ghost predicate Contains(s: string, x: string) {
    exists k: nat :: OccursAt(x, s, k)
  }

  /** Every joined element occurs in the joined string. */
  lemma {:induction false} JoinContains(xs: seq<string>, sep: string, i: nat)
    requires i < |xs|
    ensures Contains(Join(xs, sep), xs[i])
  {
    if |xs| == 1 || i == 0 {
      assert OccursAt(xs[i], Join(xs, sep), 0);
    } else {
      JoinContains(xs[1..], sep, i - 1);
      var j := Join(xs[1..], sep);
      var k: nat :| OccursAt(xs[i], j, k);
      var off := |xs[0]| + |sep|;
      assert Join(xs, sep) == xs[0] + sep + j;
      assert Join(xs, sep)[off + k..off + k + |xs[i]|] == j[k..k + |xs[i]|];
      assert OccursAt(xs[i], Join(xs, sep), off + k);
    }
  }

  /** The decimal digits of a natural number. */
  function NatToString(n: nat): (s: string)
    ensures |s| >= 1
    ensures forall i :: 0 <= i < |s| ==> '0' <= s[i] <= '9'
  {
    var d := ['0' + (n % 10) as char];
    if n < 10 then d else NatToString(n / 10) + d
  }

  /** The number a string of decimal digits denotes, most significant first. */
  function DigitsValue(s: string): nat
    requires forall i :: 0 <= i < |s| ==> '0' <= s[i] <= '9'
  {
    if s == [] then 0 else DigitsValue(s[..|s| - 1]) * 10 + (s[|s| - 1] - '0') as nat
  }

  /**
   * The decimal string of `n` denotes `n`, and has no leading zero unless
   * it is the single digit of zero.
   */
  lemma {:induction false} NatToStringValue(n: nat)
    ensures DigitsValue(NatToString(n)) == n
    ensures |NatToString(n)| > 1 ==> NatToString(n)[0] != '0'
  {
    var s := NatToString(n);
    var d := ['0' + (n % 10) as char];
    if n < 10 {
      assert s == d;
      assert s[..0] == [];
    } else {
      NatToStringValue(n / 10);
      var t := NatToString(n / 10);
      assert s == t + d;
      assert s[..|s| - 1] == t;
      assert s[0] == t[0];
      if |t| == 1 {
        assert DigitsValue(t) == n / 10;
        assert t[..0] == [];
      }
    }
  }

  /** `str(n)` for a Python `int`. */
  function IntToString(n: int): string {
    if n < 0 then "-" + NatToString(-n) else NatToString(n)
  }
}
