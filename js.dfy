/** JavaScript values and the built-in operations of the language that the
    dashboard's logic relies on: truthiness and `||`, `Number(...)`,
    `String(...)` in template literals, case mapping, `includes`, `trim`,
    `split`/`join`, `padStart` and `encodeURIComponent`. */
module Js {

  datatype Option<+T> = None | Some(value: T)

  /** A JavaScript number: NaN or a finite value (infinities are not modelled). */
  datatype Num = NaN | Fin(r: real)

  /** A JavaScript value as it appears in the records the dashboard handles. */
  datatype Json =
    | JUndef
    | JNull
    | JBool(b: bool)
    | JNum(n: Num)
    | JStr(s: string)
    | JArr(elems: seq<Json>)
    | JObj(fields: map<string, Json>)

  /** A plain JavaScript object. */
  type Obj = map<string, Json>

  /** `o[k]`: an absent property reads as `undefined`. */
  function Get(o: Obj, k: string): (j: Json)
    ensures k !in o ==> j == JUndef
  {
    if k in o then o[k] else JUndef
  }

  /** `o?.[k]` on any value: only objects have properties here. */
  function Prop(j: Json, k: string): Json
  {
    if j.JObj? then Get(j.fields, k) else JUndef
  }

  /** The object spread `{...j}`: the own enumerable properties of an object;
      `null`, `undefined` and primitives contribute nothing. */
  function Spread(j: Json): Obj
  {
    if j.JObj? then j.fields else map[]
  }

  predicate NumTruthy(n: Num)
  {
    n.Fin? && n.r != 0.0
  }

  /** JavaScript's ToBoolean. */
  predicate Truthy(j: Json)
  {
    match j
    case JUndef => false
    case JNull => false
    case JBool(b) => b
    case JNum(n) => NumTruthy(n)
    case JStr(s) => s != ""
    case JArr(_) => true
    case JObj(_) => true
  }

  /** `a || b` on numbers: 0 and NaN are falsy. */
  function NumOr(a: Num, b: Num): (r: Num)
    ensures NumTruthy(a) ==> r == a
    ensures !NumTruthy(a) ==> r == b
  {
    if NumTruthy(a) then a else b
  }

  /** `(x || 0)` for a value read as an amount: a non-zero number, else the fallback.
      A truthy value that is not a number is treated as missing. */
  function AmountOr(j: Json, fallback: real): (r: real)
    ensures j.JNum? && NumTruthy(j.n) ==> r == j.n.r
    ensures !(j.JNum? && NumTruthy(j.n)) ==> r == fallback
  {
    if j.JNum? && NumTruthy(j.n) then j.n.r else fallback
  }

  /** `Number(j) || fallback`: the number j reads as, unless that is 0 or NaN. */
  function NumberOr(j: Json, fallback: real): (r: real)
    ensures NumTruthy(JsNumber(j)) ==> r == JsNumber(j).r
    ensures !NumTruthy(JsNumber(j)) ==> r == fallback
  {
    if NumTruthy(JsNumber(j)) then JsNumber(j).r else fallback
  }

  /** `(x || fallback)` for a value read as text: a non-empty string, else the fallback.
      A truthy value that is not a string is treated as missing. */
  function TextOr(j: Json, fallback: string): (r: string)
    ensures j.JStr? && j.s != "" ==> r == j.s
    ensures !(j.JStr? && j.s != "") ==> r == fallback
  {
    if j.JStr? && j.s != "" then j.s else fallback
  }

  // ---------------------------------------------------------------------
  // Characters and digits

  predicate IsDigit(c: char) { '0' <= c <= '9' }

  predicate AllDigits(s: string) { forall i | 0 <= i < |s| :: IsDigit(s[i]) }

  function DigitValue(c: char): nat
    requires IsDigit(c)
  {
    (c as int) - ('0' as int)
  }

  function DigitChar(d: nat): (c: char)
    requires d < 10
    ensures IsDigit(c) && DigitValue(c) == d
  {
    ((d + '0' as int) as char)
  }

  /** The value of a string of decimal digits ("" reads as 0). */
  function DigitsValue(s: string): nat
    requires AllDigits(s)
  {
    if s == [] then 0 else DigitsValue(s[..|s| - 1]) * 10 + DigitValue(s[|s| - 1])
  }

  function Pow10(k: nat): (r: nat)
    ensures r >= 1
  {
    if k == 0 then 1 else 10 * Pow10(k - 1)
  }

  /** Decimal digits of a natural number, without leading zeros. */
  function NatText(n: nat): (s: string)
    ensures |s| >= 1 && AllDigits(s)
    ensures DigitsValue(s) == n
    decreases n
  {
    if n < 10 then [DigitChar(n)] else NatText(n / 10) + [DigitChar(n % 10)]
  }

  function IntText(i: int): string
  {
    if i < 0 then "-" + NatText(-i) else NatText(i)
  }

  // ---------------------------------------------------------------------
  // Number(...) and String(...)

  /** The white space and line terminators that `trim` and `Number` strip. */
  predicate IsJsSpace(c: char)
  {
    c == '\t' || c == '\n' || c == '\U{000B}' || c == '\U{000C}' || c == '\r' || c == ' '
    || c == '\U{00A0}' || c == '\U{1680}' || ('\U{2000}' <= c <= '\U{200A}')
    || c == '\U{2028}' || c == '\U{2029}' || c == '\U{202F}' || c == '\U{205F}'
    || c == '\U{3000}' || c == '\U{FEFF}'
  }

  function TrimStart(s: string): (r: string)
    ensures |r| <= |s| && r == s[|s| - |r|..]
    ensures r == [] || !IsJsSpace(r[0])
    ensures forall i | 0 <= i < |s| - |r| :: IsJsSpace(s[i])
  {
    if s != [] && IsJsSpace(s[0]) then TrimStart(s[1..]) else s
  }

  function TrimEnd(s: string): (r: string)
    ensures |r| <= |s| && r == s[..|r|]
    ensures r == [] || !IsJsSpace(r[|r| - 1])
    ensures forall i | |r| <= i < |s| :: IsJsSpace(s[i])
  {
    if s != [] && IsJsSpace(s[|s| - 1]) then TrimEnd(s[..|s| - 1]) else s
  }

  /** `s.trim()`. */
  function Trim(s: string): string
  {
    TrimEnd(TrimStart(s))
  }

  /** `Number(s)` on a string: surrounding white space is ignored, the empty
      string is 0, and a decimal literal with an optional sign, integer digits,
      and an optional fraction is read exactly; anything else is NaN. */
  function ToNumber(s: string): Num
  {
    var t := Trim(s);
    if t == "" then Fin(0.0)
    else if t[0] == '-' then (match Unsigned(t[1..]) case NaN => NaN case Fin(r) => Fin(-r))
    else if t[0] == '+' then Unsigned(t[1..])
    else Unsigned(t)
  }

  /** An unsigned decimal literal: `ddd`, `ddd.`, `.ddd` or `ddd.ddd`. */
  function Unsigned(t: string): (n: Num)
    ensures AllDigits(t) && t != "" ==> n == Fin(DigitsValue(t) as real)
  {
    var dot := DotIndex(t);
    var whole := t[..dot];
    var frac := if dot < |t| then t[dot + 1..] else "";
    assert AllDigits(t) ==> dot == |t| && whole == t && frac == "" && Pow10(0) == 1;
    if AllDigits(whole) && AllDigits(frac) && (whole != "" || frac != "") then
      Fin(DigitsValue(whole) as real + (DigitsValue(frac) as real) / (Pow10(|frac|) as real))
    else NaN
  }

  /** Index of the first '.', or |t| when there is none. */
  function DotIndex(t: string): (k: nat)
    ensures k <= |t|
    ensures forall i | 0 <= i < k :: t[i] != '.'
    ensures k < |t| ==> t[k] == '.'
  {
    if t == [] then 0 else if t[0] == '.' then 0 else 1 + DotIndex(t[1..])
  }

  /** `Number` of a string of digits is its value. */
  lemma NumberOfDigits(t: string)
    requires AllDigits(t) && t != ""
    ensures ToNumber(t) == Fin(DigitsValue(t) as real)
  {
    assert !IsJsSpace(t[0]) && !IsJsSpace(t[|t| - 1]);
    assert TrimStart(t) == t;
    assert TrimEnd(t) == t;
  }

  /** `Number(j)` on any value; arrays and objects are taken as NaN. */
  function JsNumber(j: Json): Num
  {
    match j
    case JUndef => NaN
    case JNull => Fin(0.0)
    case JBool(b) => Fin(if b then 1.0 else 0.0)
    case JNum(n) => n
    case JStr(s) => ToNumber(s)
    case JArr(_) => NaN
    case JObj(_) => NaN
  }

  /** Truncation toward zero, as the `Date` constructor applies to its arguments. */
  function Trunc(r: real): int
  {
    if r >= 0.0 then r.Floor else -((-r).Floor)
  }

  /** Fraction digits of x in [0, 1), at most `fuel` of them, stopping when nothing is left. */
  function FractionDigits(x: real, fuel: nat): string
    requires 0.0 <= x < 1.0
    decreases fuel
  {
    if fuel == 0 || x == 0.0 then ""
    else
      var y := x * 10.0;
      var d := y.Floor;
      assert 0 <= d < 10;
      [DigitChar(d)] + FractionDigits(y - d as real, fuel - 1)
  }

  /** `String(n)`: integers in decimal, NaN as "NaN"; a fraction is written
      with its exact decimal digits, at most 17 of them. */
  function NumText(n: Num): string
  {
    match n
    case NaN => "NaN"
    case Fin(r) =>
      var a := if r < 0.0 then -r else r;
      var sign := if r < 0.0 then "-" else "";
      var whole := a.Floor;
      if a == whole as real then sign + NatText(whole)
      else sign + NatText(whole) + "." + FractionDigits(a - whole as real, 17)
  }

  /** `String(j)`, as a template literal `${j}` writes it. */
  function Show(j: Json): string
  {
    match j
    case JUndef => "undefined"
    case JNull => "null"
    case JBool(b) => if b then "true" else "false"
    case JNum(n) => NumText(n)
    case JStr(s) => s
    case JArr(xs) => ShowElems(xs)
    case JObj(_) => "[object Object]"
  }

  /** `Array.prototype.join` with ",": null and undefined elements write nothing. */
  function ShowElems(xs: seq<Json>): string
    decreases xs
  {
    if xs == [] then ""
    else
      var head := if xs[0].JUndef? || xs[0].JNull? then "" else Show(xs[0]);
      if |xs| == 1 then head else head + "," + ShowElems(xs[1..])
  }

  // ---------------------------------------------------------------------
  // Case mapping (Latin-1 letters; other scripts are left unchanged)

  function LowerChar(c: char): char
  {
    if ('A' <= c <= 'Z') || ('À' <= c <= 'Þ' && c != '×') then
      ((c as int) + 32) as char
    else c
  }

  function Lower(s: string): (r: string)
    ensures |r| == |s|
    ensures forall i | 0 <= i < |s| :: r[i] == LowerChar(s[i])
  {
    if s == [] then [] else [LowerChar(s[0])] + Lower(s[1..])
  }

  function UpperChar(c: char): string
  {
    if ('a' <= c <= 'z') || ('à' <= c <= 'þ' && c != '÷') then
      [((c as int) - 32) as char]
    else if c == 'ß' then "SS"
    else if c == 'ÿ' then "Ÿ"
    else if c == 'µ' then "Μ"
    else [c]
  }

  function Upper(s: string): string
  {
    if s == [] then [] else UpperChar(s[0]) + Upper(s[1..])
  }

  // ---------------------------------------------------------------------
  // Searching, splitting, joining

  /** `s.includes(t)`. */
  predicate Includes(s: string, t: string)
  {
    exists i | 0 <= i <= |s| - |t| :: t <= s[i..]
  }

  /** `s.toLowerCase().includes(term.toLowerCase())`, the search of every list filter. */
  predicate Matches(s: string, term: string)
  {
    Includes(Lower(s), Lower(term))
  }

  /** An empty search term matches every text. */
  lemma EmptyTermMatches(s: string)
    ensures Matches(s, "")
  {
    assert Lower("") == "";
    assert "" <= Lower(s)[0..];
  }

  /** `s.split(c)` for a one-character separator. */
  function Split(s: string, c: char): (parts: seq<string>)
    ensures |parts| >= 1
    ensures forall k | 0 <= k < |parts| :: c !in parts[k]
    decreases |s|
  {
    var i := IndexOf(s, c);
    if i == |s| then [s] else [s[..i]] + Split(s[i + 1..], c)
  }

  /** Index of the first c in s, or |s|. */
  function IndexOf(s: string, c: char): (i: nat)
    ensures i <= |s|
    ensures c !in s[..i]
    ensures i < |s| ==> s[i] == c
  {
    if s == [] then 0 else if s[0] == c then 0 else 1 + IndexOf(s[1..], c)
  }

  /** `parts.join(sep)`. */
  function Join(parts: seq<string>, sep: string): string
  {
    if parts == [] then ""
    else if |parts| == 1 then parts[0]
    else parts[0] + sep + Join(parts[1..], sep)
  }

  /** Splitting on a character and joining with that character gives back the string. */
  lemma {:induction false} SplitJoin(s: string, c: char)
    ensures Join(Split(s, c), [c]) == s
    decreases |s|
  {
    var i := IndexOf(s, c);
    if i < |s| {
      var rest := s[i + 1..];
      SplitJoin(rest, c);
      assert Split(s, c) == [s[..i]] + Split(rest, c);
      assert s == s[..i] + [c] + rest;
    }
  }

  /** Joining parts that do not hold the separator and splitting on it gives
      the parts back. */
  lemma {:induction false} JoinSplit(parts: seq<string>, c: char)
    requires |parts| >= 1
    requires forall k | 0 <= k < |parts| :: c !in parts[k]
    ensures Split(Join(parts, [c]), c) == parts
    decreases |parts|
  {
    if |parts| == 1 {
      assert IndexOf(parts[0], c) == |parts[0]|;
    } else {
      var rest := Join(parts[1..], [c]);
      JoinCons(parts[0], parts[1..], [c]);
      assert [parts[0]] + parts[1..] == parts;
      SplitAtFirst(parts[0], c, rest);
      JoinSplit(parts[1..], c);
    }
  }

  /** Splitting "a c rest" when a has no c. */
  lemma SplitAtFirst(a: string, c: char, rest: string)
    requires c !in a
    ensures Split(a + [c] + rest, c) == [a] + Split(rest, c)
  {
    var s := a + [c] + rest;
    FirstSeparator(a, c, rest);
    assert s[..|a|] == a;
    assert s[|a| + 1..] == rest;
  }

  lemma {:induction false} FirstSeparator(a: string, c: char, rest: string)
    requires c !in a
    ensures IndexOf(a + [c] + rest, c) == |a|
    decreases |a|
  {
    if a != [] {
      assert (a + [c] + rest)[0] == a[0];
      assert (a + [c] + rest)[1..] == a[1..] + [c] + rest;
      FirstSeparator(a[1..], c, rest);
    }
  }

  /** Joining a head onto a non-empty rest puts one separator between them. */
  lemma JoinCons(x: string, ys: seq<string>, sep: string)
    requires ys != []
    ensures Join([x] + ys, sep) == x + sep + Join(ys, sep)
  {
    assert ([x] + ys)[1..] == ys;
  }

  /** "a/b/c" splits into a, b and c when none of them holds a '/'. */
  lemma SplitThree(a: string, b: string, c: string)
    requires AllDigits(a) && AllDigits(b) && AllDigits(c)
    ensures Split(a + "/" + b + "/" + c, '/') == [a, b, c]
    ensures '/' in a + "/" + b + "/" + c
  {
    assert (a + "/" + b + "/" + c)[|a|] == '/';
    assert a + "/" + b + "/" + c == a + "/" + (b + "/" + c);
    SplitDigits(a, b + "/" + c);
    SplitDigits(b, c);
  }

  /** Splitting "p/rest" on '/' when p has no '/' gives p and the parts of rest. */
  lemma SplitDigits(p: string, rest: string)
    requires AllDigits(p)
    ensures Split(p + "/" + rest, '/') == [p] + Split(rest, '/')
    ensures AllDigits(rest) ==> Split(rest, '/') == [rest]
  {
    var s := p + "/" + rest;
    assert s[|p|] == '/';
    assert s[..|p|] == p && s[|p| + 1..] == rest;
    FirstSlash(s, |p|);
    if AllDigits(rest) {
      FirstSlash(rest, |rest|);
    }
  }

  lemma FirstSlash(s: string, k: nat)
    requires k <= |s| && (k == |s| || s[k] == '/')
    requires forall i | 0 <= i < k :: IsDigit(s[i])
    ensures IndexOf(s, '/') == k
    decreases k
  {
    if k > 0 {
      FirstSlash(s[1..], k - 1);
    }
  }

  /** `s.replace(c, "")` with a one-character pattern: only the first occurrence goes. */
  function RemoveFirst(s: string, c: char): (r: string)
    ensures c !in s ==> r == s
    ensures c in s ==> |r| == |s| - 1
  {
    var i := IndexOf(s, c);
    if i == |s| then s else s[..i] + s[i + 1..]
  }

  /** `s.padStart(2, '0')`. */
  function Pad2(s: string): (r: string)
    ensures |s| >= 2 ==> r == s
    ensures |s| < 2 ==> |r| == 2 && r[2 - |s|..] == s
  {
    if |s| >= 2 then s else if |s| == 1 then "0" + s else "00"
  }

  /** `s.length`: UTF-16 code units, two for a character outside the Basic Multilingual Plane. */
  function Utf16Length(s: string): (n: nat)
    ensures n >= |s|
  {
    if s == [] then 0 else (if s[0] as int > 0xFFFF then 2 else 1) + Utf16Length(s[1..])
  }

  // ---------------------------------------------------------------------
  // encodeURIComponent

  predicate IsUriUnreserved(c: char)
  {
    ('A' <= c <= 'Z') || ('a' <= c <= 'z') || ('0' <= c <= '9')
    || c == '-' || c == '_' || c == '.' || c == '!' || c == '~' || c == '*'
    || c == '\'' || c == '(' || c == ')'
  }

  predicate IsUpperHex(c: char) { ('0' <= c <= '9') || ('A' <= c <= 'F') }

  function HexUpper(d: nat): (c: char)
    requires d < 16
    ensures IsUpperHex(c)
  {
    if d < 10 then DigitChar(d) else ((d - 10 + 'A' as int) as char)
  }

  /** The UTF-8 bytes of one character. */
  function Utf8(c: char): (bytes: seq<nat>)
    ensures 1 <= |bytes| <= 4
    ensures forall k | 0 <= k < |bytes| :: bytes[k] < 256
  {
    var n := c as int;
    if n < 0x80 then [n]
    else if n < 0x800 then [0xC0 + n / 64, 0x80 + n % 64]
    else if n < 0x10000 then [0xE0 + n / 4096, 0x80 + (n / 64) % 64, 0x80 + n % 64]
    else [0xF0 + n / 262144, 0x80 + (n / 4096) % 64, 0x80 + (n / 64) % 64, 0x80 + n % 64]
  }

  function PercentBytes(bytes: seq<nat>): (r: string)
    requires forall k | 0 <= k < |bytes| :: bytes[k] < 256
    ensures |r| == 3 * |bytes|
    ensures forall k | 0 <= k < |r| :: r[k] == '%' || IsUpperHex(r[k])
  {
    if bytes == [] then ""
    else ['%', HexUpper(bytes[0] / 16), HexUpper(bytes[0] % 16)] + PercentBytes(bytes[1..])
  }

  /** `encodeURIComponent(s)`: unreserved characters are kept, every other
      character becomes the percent-escapes of its UTF-8 bytes. */
  function EncodeUriComponent(s: string): (r: string)
    ensures forall k | 0 <= k < |r| :: IsUriUnreserved(r[k]) || r[k] == '%' || IsUpperHex(r[k])
    ensures (forall k | 0 <= k < |s| :: IsUriUnreserved(s[k])) ==> r == s
  {
    if s == [] then ""
    else
      var head := if IsUriUnreserved(s[0]) then [s[0]] else PercentBytes(Utf8(s[0]));
      head + EncodeUriComponent(s[1..])
  }
}
