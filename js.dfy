/**
 * The slice of JavaScript the three components rely on: the values a JSON
 * body decodes to, JS numbers, thrown errors, `String.prototype.trim`, and
 * the routines the model does not interpret (`Number(string)`,
 * `String(number)`, `JSON.parse`), which are passed in as a `Runtime`.
 */
module Js {
  import opened Wrappers

  /** A JS number: an IEEE double seen only through NaN / non-NaN. */
  datatype JsNumber = NaN | Finite(value: real) | Infinity(negative: bool)

  predicate IsNaN(n: JsNumber) { n.NaN? }

  /** A primitive JS value (what `typeof` tells apart). */
  datatype Scalar = Undefined | Null | Bool(b: bool) | Num(n: JsNumber) | Str(s: string)

  /** A JS value as produced by `JSON.parse` (plus `undefined`, which property reads yield). */
  datatype JsValue =
    | Prim(p: Scalar)
    | Arr(items: seq<JsValue>)
    | Obj(fields: map<string, JsValue>)

  const JsNull: JsValue := Prim(Null)

  /**
   * Property read `v.key` for a key that is neither an array index nor a
   * builtin property name. `None` is the TypeError thrown on `null` and
   * `undefined`; a missing key reads `undefined`.
   */
  function Get(v: JsValue, key: string): (r: Option<JsValue>)
    ensures r.None? <==> v == Prim(Null) || v == Prim(Undefined)
    ensures v.Obj? && key in v.fields ==> r == Some(v.fields[key])
    ensures v.Obj? && key !in v.fields ==> r == Some(Prim(Undefined))
    ensures !v.Obj? && r.Some? ==> r == Some(Prim(Undefined))
  {
    match v
    case Prim(Null) => None
    case Prim(Undefined) => None
    case Obj(m) => Some(if key in m then m[key] else Prim(Undefined))
    case _ => Some(Prim(Undefined))
  }

  /**
   * The host routines the model treats as uninterpreted: `Number(s)` on a
   * string, `String(n)` on a number, and `JSON.parse`, whose exception is
   * `None`.
   */
  datatype Runtime = Runtime(
    number: string -> JsNumber,
    numberText: JsNumber -> string,
    parse: string -> Option<JsValue>)

  /** `Number(x)` on a primitive (ECMAScript ToNumber); strings go to the runtime. */
  function ToNumber(x: Scalar, rt: Runtime): (r: JsNumber)
    ensures x.Num? ==> r == x.n
    ensures x.Str? ==> r == rt.number(x.s)
    ensures x.Undefined? ==> r == NaN
    ensures x.Null? || x.Bool? ==> r.Finite?
  {
    match x
    case Undefined => NaN
    case Null => Finite(0.0)
    case Bool(b) => Finite(if b then 1.0 else 0.0)
    case Num(n) => n
    case Str(s) => rt.number(s)
  }

  /** What a `catch (e)` block sees: an `Error` with its message, or some other thrown value. */
  datatype Failure = Thrown(message: string) | ThrownNonError

  /** `e instanceof Error ? e.message : fallback`. */
  function MessageOf(f: Failure, fallback: string): (r: string)
    ensures f.Thrown? ==> r == f.message
    ensures f.ThrownNonError? ==> r == fallback
  {
    match f
    case Thrown(m) => m
    case ThrownNonError => fallback
  }

  // ---------------------------------------------------------------------------
  // String.prototype.trim (section 22.1.3.32 of ECMA-262)
  // ---------------------------------------------------------------------------

  /** The WhiteSpace and LineTerminator code points that `trim` strips. */
  predicate IsWhite(c: char) {
    var n := c as int;
    n == 0x09 || n == 0x0A || n == 0x0B || n == 0x0C || n == 0x0D || n == 0x20 ||
    n == 0xA0 || n == 0x1680 || (0x2000 <= n <= 0x200A) || n == 0x2028 ||
    n == 0x2029 || n == 0x202F || n == 0x205F || n == 0x3000 || n == 0xFEFF
  }

  /** Neither end of `s` is white space. */
  predicate IsTrimmed(s: string) {
    s == [] || (!IsWhite(s[0]) && !IsWhite(s[|s| - 1]))
  }

  /** Drops the leading white space: a suffix of `s`, and only white space was dropped. */
  function TrimStart(s: string): (r: string)
    ensures |r| <= |s|
    ensures forall i :: 0 <= i < |s| - |r| ==> IsWhite(s[i])
    ensures r == [] || !IsWhite(r[0])
  {
    if s != [] && IsWhite(s[0]) then TrimStart(s[1..]) else s
  }

  lemma {:induction false} TrimStartIsSuffix(s: string)
    ensures TrimStart(s) == s[|s| - |TrimStart(s)|..]
  {
    if s != [] && IsWhite(s[0]) {
      TrimStartIsSuffix(s[1..]);
      assert s[1..][|s| - 1 - |TrimStart(s)|..] == s[|s| - |TrimStart(s)|..];
    }
  }

  /** Drops the trailing white space: a prefix of `s`, and only white space was dropped. */
  function TrimEnd(s: string): (r: string)
    ensures |r| <= |s| && r == s[..|r|]
    ensures forall i :: |r| <= i < |s| ==> IsWhite(s[i])
    ensures r == [] || !IsWhite(r[|r| - 1])
  {
    if s != [] && IsWhite(s[|s| - 1]) then TrimEnd(s[..|s| - 1]) else s
  }

  /** `String.prototype.trim`: never longer than `s`, and neither end of the result is white space. */
  function Trim(s: string): (r: string)
    ensures |r| <= |s|
    ensures IsTrimmed(r)
  {
    var u := TrimStart(s);
    var r := TrimEnd(u);
    assert r != [] ==> r[0] == u[0];
    r
  }

  /** `trim` returns the slice of `s` that starts where the leading white space ends. */
  lemma TrimIsSlice(s: string)
    ensures var a := |s| - |TrimStart(s)|;
      a + |Trim(s)| <= |s| && Trim(s) == s[a..a + |Trim(s)|]
  {
    var u := TrimStart(s);
    var a := |s| - |u|;
    TrimStartIsSuffix(s);
    var r := TrimEnd(u);
    PrefixOfSuffix(s, a, |r|);
  }

  lemma PrefixOfSuffix(s: string, a: nat, k: nat)
    requires a + k <= |s|
    ensures s[a..][..k] == s[a..a + k]
  {
  }

  /** `trim` drops only white space, at both ends. */
  lemma TrimDropsWhite(s: string)
    ensures var a := |s| - |TrimStart(s)|;
      (forall i :: 0 <= i < a ==> IsWhite(s[i]))
      && (forall i :: a + |Trim(s)| <= i < |s| ==> IsWhite(s[i]))
  {
    var u := TrimStart(s);
    var a := |s| - |u|;
    TrimStartIsSuffix(s);
    forall i | a + |Trim(s)| <= i < |s|
      ensures IsWhite(s[i])
    {
      assert s[i] == u[i - a];
    }
  }

  /** `trim` returns a trimmed slice `s[a..a + |r|]` of its input, and only white space is dropped. */
  lemma TrimIsTrimmedSlice(s: string)
    ensures IsTrimmed(Trim(s))
    ensures var a := |s| - |TrimStart(s)|;
      a + |Trim(s)| <= |s| && Trim(s) == s[a..a + |Trim(s)|]
      && (forall i :: 0 <= i < a ==> IsWhite(s[i]))
      && (forall i :: a + |Trim(s)| <= i < |s| ==> IsWhite(s[i]))
  {
    TrimIsSlice(s);
    TrimDropsWhite(s);
  }

  /** A string is a fixed point of `trim` exactly when neither end is white space. */
  lemma TrimFixedPoint(s: string)
    ensures Trim(s) == s <==> IsTrimmed(s)
  {
    TrimIsTrimmedSlice(s);
    if IsTrimmed(s) {
      assert TrimStart(s) == s;
      if s != [] {
        assert TrimEnd(s) == s;
      }
    }
  }

  /** Trimming twice is trimming once. */
  lemma TrimIdempotent(s: string)
    ensures Trim(Trim(s)) == Trim(s)
  {
    TrimIsTrimmedSlice(s);
    TrimFixedPoint(Trim(s));
  }

  /** A string is blank (falsy after `trim`) exactly when every character is white space. */
  lemma TrimEmptyIffAllWhite(s: string)
    ensures Trim(s) == [] <==> forall i :: 0 <= i < |s| ==> IsWhite(s[i])
  {
    TrimIsTrimmedSlice(s);
    var a := |s| - |TrimStart(s)|;
    if Trim(s) != [] {
      assert s[a] == Trim(s)[0] && !IsWhite(s[a]);
    }
  }
}
