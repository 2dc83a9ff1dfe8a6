/**
 * The few JavaScript built-ins the client logic relies on, stated on Dafny values:
 * truthiness and `||`, `Number(s)` on query-string text, `String(n)`, `Array.prototype.join`,
 * `String.prototype.toLowerCase` (ASCII letters only) and `String.prototype.includes`.
 */
module Js {
  import opened Wrappers

  /** A JavaScript value as far as the table filters need one: `undefined`, a string, or an array of strings. */
  datatype Value = Undefined | Str(s: string) | Arr(items: seq<string>)

  /** JavaScript truthiness: `undefined` and `""` are falsy, every array is truthy. */
  predicate Truthy(v: Value) {
    match v
    case Undefined => false
    case Str(s) => s != ""
    case Arr(_) => true
  }

  /** `a || b` */
  function Or(a: Value, b: Value): (r: Value)
    ensures Truthy(a) ==> r == a
    ensures !Truthy(a) ==> r == b
  {
    if Truthy(a) then a else b
  }

  /** `String(v)`: an array is joined with commas. */
  function ToString(v: Value): string {
    match v
    case Undefined => "undefined"
    case Str(s) => s
    case Arr(items) => Join(items, ",")
  }

  // ---------------------------------------------------------------------------
  // Numbers

  predicate IsDigit(c: char) { '0' <= c <= '9' }

  predicate AllDigits(s: string) { forall i :: 0 <= i < |s| ==> IsDigit(s[i]) }

  /** The value of a string of decimal digits, most significant first. */
  function DigitsValue(s: string): nat
    requires AllDigits(s)
  {
    if s == [] then 0 else DigitsValue(s[..|s| - 1]) * 10 + (s[|s| - 1] as int - '0' as int)
  }

  /**
   * `Number(s)` on the text of a query parameter. `None` stands for `NaN`. The empty string is 0;
   * a run of digits, possibly after a single `-`, is that integer; any other text is `NaN`.
   */
  function Number(s: string): (r: Option<int>)
    ensures r.Some? <==> s == "" || AllDigits(s) || (|s| > 1 && s[0] == '-' && AllDigits(s[1..]))
    ensures r.Some? && r.value < 0 ==> |s| > 1 && s[0] == '-'
    ensures s == "" ==> r == Some(0)
    ensures AllDigits(s) ==> r == Some(DigitsValue(s))
    ensures |s| > 1 && s[0] == '-' && AllDigits(s[1..]) ==> r == Some(0 - DigitsValue(s[1..]))
  {
    if AllDigits(s) then Some(DigitsValue(s))
    else if |s| > 1 && s[0] == '-' && AllDigits(s[1..]) then Some(0 - DigitsValue(s[1..]) as int)
    else None
  }

  /**
   * `Number(x) || d` where `x` is what `URLSearchParams.get` returned (`None` for `null`, and
   * `Number(null)` is 0): the parsed number unless it is `NaN` or 0, in which case `d`.
   */
  function NumberOr(x: Option<string>, d: int): (r: int)
    ensures x.None? ==> r == d
    ensures x.Some? && Number(x.value).Some? && Number(x.value).value != 0 ==> r == Number(x.value).value
    ensures x.Some? && (Number(x.value).None? || Number(x.value) == Some(0)) ==> r == d
  {
    match x
    case None => d
    case Some(s) =>
      match Number(s)
      case Some(n) => if n != 0 then n else d
      case None => d
  }

  function DigitChar(d: nat): (c: char)
    requires d < 10
    ensures IsDigit(c) && c as int - '0' as int == d
  {
    ('0' as int + d) as char
  }

  /** Decimal text of a natural number, no leading zeros. */
  function NatToString(n: nat): (s: string)
    ensures |s| > 0 && AllDigits(s)
  {
    if n < 10 then [DigitChar(n)] else NatToString(n / 10) + [DigitChar(n % 10)]
  }

  /** `String(n)` for an integer. */
  function IntToString(n: int): string {
    if n < 0 then "-" + NatToString(-n) else NatToString(n)
  }

  lemma {:induction false} DigitsOfNat(n: nat)
    ensures DigitsValue(NatToString(n)) == n
  {
    var s := NatToString(n);
    if n >= 10 {
      DigitsOfNat(n / 10);
      assert s[..|s| - 1] == NatToString(n / 10);
    }
  }

  /** `Number(String(n)) === n` for every integer. */
  lemma NumberOfString(n: int)
    ensures Number(IntToString(n)) == Some(n)
  {
    if n < 0 {
      var t := NatToString(-n);
      DigitsOfNat(-n);
      assert ("-" + t)[1..] == t;
      assert !IsDigit(("-" + t)[0]);
    } else {
      DigitsOfNat(n);
    }
  }

  // ---------------------------------------------------------------------------
  // Strings and arrays

  /** `xs.join(sep)`. */
  function Join(xs: seq<string>, sep: string): string {
    if |xs| == 0 then ""
    else if |xs| == 1 then xs[0]
    else Join(xs[..|xs| - 1], sep) + sep + xs[|xs| - 1]
  }

  /** `toLowerCase` on one character, ASCII letters only. */
  function LowerChar(c: char): char {
    if 'A' <= c <= 'Z' then (c as int - 'A' as int + 'a' as int) as char else c
  }

  /** `s.toLowerCase()`, ASCII letters only. */
  function Lower(s: string): (r: string)
    ensures |r| == |s|
    ensures forall i :: 0 <= i < |s| ==> r[i] == LowerChar(s[i])
  {
    seq(|s|, i requires 0 <= i < |s| => LowerChar(s[i]))
  }

  lemma LowerIdempotent(s: string)
    ensures Lower(Lower(s)) == Lower(s)
  {
  }

  /** `t` occurs in `s` starting at index `i`. */
  ghost predicate OccursAt(s: string, t: string, i: int) {
    0 <= i && i + |t| <= |s| && s[i..i + |t|] == t
  }

  lemma OccursShift(s: string, t: string, i: int)
    requires |s| > 0 && i >= 0
    ensures OccursAt(s[1..], t, i) <==> OccursAt(s, t, i + 1)
  {
    if 0 <= i && i + |t| <= |s| - 1 {
      assert s[1..][i..i + |t|] == s[i + 1..i + 1 + |t|];
    }
  }

  /** `s.includes(t)`: true exactly when `t` occurs somewhere in `s`. */
  function Includes(s: string, t: string): (r: bool)
    ensures r <==> exists i :: OccursAt(s, t, i)
    decreases |s|
  {
    if |t| > |s| then false
    else if s[..|t|] == t then assert OccursAt(s, t, 0); true
    else
      var r := Includes(s[1..], t);
      assert r ==> exists i :: OccursAt(s, t, i) by {
        if r {
          var i :| OccursAt(s[1..], t, i);
          OccursShift(s, t, i);
        }
      }
      assert (exists i :: OccursAt(s, t, i)) ==> r by {
        if exists i :: OccursAt(s, t, i) {
          var i :| OccursAt(s, t, i);
          assert i != 0;
          OccursShift(s, t, i - 1);
        }
      }
      r
  }
}
