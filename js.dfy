/**
 * The slice of JavaScript value semantics the backend relies on: JSON values,
 * truthiness (`!x`, `x || y`), destructuring defaults, `String(x)` as used by
 * template literals, `Number.prototype.toFixed(2)`, `String.prototype.trim`,
 * ASCII `toLowerCase`, `includes`, `startsWith`, `join` and `split`.
 */
module Js {

  datatype Option<+T> = None | Some(value: T)

  /** A value or an error message (a thrown exception, a failed statement). */
  datatype Result<+T> = Ok(value: T) | Err(error: string)

  /** A JavaScript number: a finite value or NaN; infinities are not modelled. */
  datatype Num = Finite(r: real) | NaN

  /** A decoded JSON value. Object key order is not modelled. */
  datatype Json =
    | JNull
    | JBool(b: bool)
    | JNum(n: real)
    | JStr(s: string)
    | JArr(items: seq<Json>)
    | JObj(fields: map<string, Json>)

  /** JavaScript truthiness of a JSON value (NaN cannot occur in JSON). */
  predicate Truthy(j: Json) {
    match j
    case JNull => false
    case JBool(b) => b
    case JNum(n) => n != 0.0
    case JStr(s) => s != ""
    case JArr(_) => true
    case JObj(_) => true
  }

  /** Truthiness of a property read, where None is `undefined`. */
  predicate TruthyOpt(v: Option<Json>) {
    v.Some? && Truthy(v.value)
  }

  /** `obj[key]`: only objects have the properties this backend reads. */
  function Field(obj: Json, key: string): (v: Option<Json>)
    ensures v.Some? <==> obj.JObj? && key in obj.fields
  {
    if obj.JObj? && key in obj.fields then Some(obj.fields[key]) else None
  }

  /**
   * The properties every plain object inherits from `Object.prototype`; a
   * lookup `obj[key]` with one of these names finds the inherited value
   * (a function, or the prototype itself for "__proto__").
   */
  const InheritedNames: set<string> := {
    "constructor", "hasOwnProperty", "isPrototypeOf", "propertyIsEnumerable", "toLocaleString",
    "toString", "valueOf", "__proto__", "__defineGetter__", "__defineSetter__",
    "__lookupGetter__", "__lookupSetter__"}

  /** `items.slice(-5)`: the last five items, or all of them when there are fewer. */
  function LastFive<T>(items: seq<T>): (r: seq<T>)
    ensures |r| == if |items| < 5 then |items| else 5
    ensures r == items[|items| - |r|..]
  {
    if |items| <= 5 then items else items[|items| - 5..]
  }

  /** `v || fallback` */
  function Or(v: Option<Json>, fallback: Json): (r: Json)
    ensures TruthyOpt(v) ==> Some(r) == v
    ensures !TruthyOpt(v) ==> r == fallback
  {
    if TruthyOpt(v) then v.value else fallback
  }

  /** A destructuring default `{ key = fallback }`: it applies to `undefined` only, not to `null`. */
  function Default(v: Option<Json>, fallback: Json): (r: Json)
    ensures v.Some? ==> r == v.value
    ensures v.None? ==> r == fallback
  {
    if v.Some? then v.value else fallback
  }

  // ---------------------------------------------------------------- digits

  predicate IsDigit(c: char) { '0' <= c <= '9' }

  function DigitChar(d: nat): (c: char)
    requires d < 10
    ensures IsDigit(c) && DigitValue(c) == d
  {
    "0123456789"[d]
  }

  function DigitValue(c: char): nat
    requires IsDigit(c)
  {
    (c as int - '0' as int) as nat
  }

  predicate AllDigits(s: string) {
    forall i :: 0 <= i < |s| ==> IsDigit(s[i])
  }

  /** The value of a run of decimal digits, most significant first. */
  function DigitsValue(s: string): nat
    requires AllDigits(s)
  {
    if s == [] then 0 else DigitsValue(s[..|s| - 1]) * 10 + DigitValue(s[|s| - 1])
  }

  function NatToString(n: nat): (s: string)
    ensures |s| > 0 && AllDigits(s)
  {
    if n < 10 then [DigitChar(n)] else NatToString(n / 10) + [DigitChar(n % 10)]
  }

  function IntToString(i: int): string {
    if i < 0 then "-" + NatToString(-i) else NatToString(i)
  }

  /** Rendering a natural number and reading it back gives the number. */
  lemma {:induction false} NatToStringRoundTrip(n: nat)
    ensures DigitsValue(NatToString(n)) == n
  {
    if n >= 10 {
      var s := NatToString(n);
      assert s[..|s| - 1] == NatToString(n / 10);
      NatToStringRoundTrip(n / 10);
    }
  }

  // ---------------------------------------------------------------- String(x) of numbers

  /** Up to `k` decimal digits of a fraction in [0, 1). */
  function FracDigits(f: real, k: nat): (s: string)
    requires 0.0 <= f < 1.0
    ensures AllDigits(s) && |s| <= k
    decreases k
  {
    if k == 0 || f == 0.0 then ""
    else
      var x := f * 10.0;
      var d := x.Floor;
      [DigitChar(d)] + FracDigits(x - d as real, k - 1)
  }

  function StripTrailingZeros(s: string): (r: string)
    ensures r <= s
    ensures r == [] || r[|r| - 1] != '0'
  {
    if s != [] && s[|s| - 1] == '0' then StripTrailingZeros(s[..|s| - 1]) else s
  }

  /**
   * `String(r)` for a number: the integer part exactly, then up to twenty
   * fractional digits without trailing zeros.
   */
  function NumText(r: real): string {
    if r < 0.0 then "-" + NonNegText(-r) else NonNegText(r)
  }

  function NonNegText(r: real): string
    requires r >= 0.0
  {
    var ip := r.Floor;
    var frac := StripTrailingZeros(FracDigits(r - ip as real, 20));
    NatToString(ip) + (if frac == "" then "" else "." + frac)
  }

  function NumDisplay(n: Num): string {
    match n
    case Finite(r) => NumText(r)
    case NaN => "NaN"
  }

  /** `x.toFixed(2)`: the magnitude rounded half up to cents, its sign kept (so -0.001 gives "-0.00"). */
  function Fixed2(x: real): (s: string)
    ensures |s| >= 4 && s[|s| - 3] == '.'
  {
    var sign := if x < 0.0 then "-" else "";
    var a := if x < 0.0 then -x else x;
    var cents := (a * 100.0 + 0.5).Floor;
    var c := cents % 100;
    sign + NatToString(cents / 100) + "." + [DigitChar(c / 10), DigitChar(c % 10)]
  }

  /** `Math.abs` */
  function Abs(x: real): (r: real)
    ensures r >= 0.0 && (r == x || r == -x)
  {
    if x < 0.0 then -x else x
  }

  // ---------------------------------------------------------------- String(x) of JSON values

  /**
   * `String(v)`: strings as they are, numbers by NumText, arrays joined by
   * "," with null shown empty, objects as "[object Object]".
   */
  function DisplayText(j: Json): string
    decreases j, 1
  {
    match j
    case JNull => "null"
    case JBool(b) => if b then "true" else "false"
    case JNum(n) => NumText(n)
    case JStr(s) => s
    case JArr(items) => ItemsText(items, 0)
    case JObj(_) => ObjectText
  }

  /** `items.slice(i).join(",")`, a null item shown empty. */
  function ItemsText(items: seq<Json>, i: nat): string
    requires i <= |items|
    decreases JArr(items), 0, |items| - i
  {
    if i == |items| then ""
    else
      (if items[i] == JNull then "" else DisplayText(items[i]))
      + (if i + 1 == |items| then "" else "," + ItemsText(items, i + 1))
  }

  const ObjectText := "[object Object]"

  /** A template-literal interpolation `${v}` of a property read, where None is `undefined`. */
  function OptText(v: Option<Json>): string {
    if v.Some? then DisplayText(v.value) else "undefined"
  }

  // ---------------------------------------------------------------- Number(s) of strings

  /**
   * `Number(s)` for a string: surrounding white space ignored, then an
   * optional sign and decimal digits with at most one point; "" is 0.
   * Exponents, hexadecimal and "Infinity" give NaN here.
   */
  function StringToNum(s: string): Num {
    var t := Trim(s);
    if t == "" then Finite(0.0)
    else if t[0] == '-' then Negate(UnsignedToNum(t[1..]))
    else if t[0] == '+' then UnsignedToNum(t[1..])
    else UnsignedToNum(t)
  }

  function Negate(n: Num): Num {
    match n
    case Finite(r) => Finite(-r)
    case NaN => NaN
  }

  /** Digits, optionally a point and more digits, with at least one digit somewhere. */
  function UnsignedToNum(t: string): Num {
    var p := IndexOf(t, '.');
    var ip := if p < 0 then t else t[..p];
    var fp := if p < 0 then "" else t[p + 1..];
    if AllDigits(ip) && AllDigits(fp) && |ip| + |fp| > 0 then Finite(DecimalValue(ip, fp)) else NaN
  }

  function Pow10(k: nat): (r: nat)
    ensures r >= 1
  {
    if k == 0 then 1 else 10 * Pow10(k - 1)
  }

  /** The value of `ip.fp` for digit strings. */
  function DecimalValue(ip: string, fp: string): real
    requires AllDigits(ip) && AllDigits(fp)
  {
    DigitsValue(ip) as real + DigitsValue(fp) as real / Pow10(|fp|) as real
  }

  /** `Number(v)` of a JSON value, `undefined` being NaN. */
  function ToNumber(v: Option<Json>): Num {
    match v
    case None => NaN
    case Some(JNull) => Finite(0.0)
    case Some(JBool(b)) => Finite(if b then 1.0 else 0.0)
    case Some(JNum(n)) => Finite(n)
    case Some(JStr(s)) => StringToNum(s)
    // an array or object is first converted to its string form
    case Some(j) => StringToNum(DisplayText(j))
  }

  // ---------------------------------------------------------------- sums

  /** `rows.reduce((sum, r) => sum + value(r), 0)`, added left to right. */
  function Total<R>(rows: seq<R>, value: R -> real): real
    decreases |rows|
  {
    if rows == [] then 0.0 else Total(rows[..|rows| - 1], value) + value(rows[|rows| - 1])
  }

  lemma TotalAppend<R>(rows: seq<R>, row: R, value: R -> real)
    ensures Total(rows + [row], value) == Total(rows, value) + value(row)
  {
    assert (rows + [row])[..|rows|] == rows;
  }

  /** The same total counted from the front. */
  lemma {:induction false} TotalPrepend<R>(row: R, rows: seq<R>, value: R -> real)
    ensures Total([row] + rows, value) == value(row) + Total(rows, value)
    decreases |rows|
  {
    if rows == [] {
      assert ([row] + rows)[..0] == [];
    } else {
      var init := rows[..|rows| - 1];
      assert ([row] + rows)[..|rows|] == [row] + init;
      TotalPrepend(row, init, value);
    }
  }

  /** Replacing one element changes the total by the difference of the two values. */
  lemma {:induction false} TotalUpdate<R>(rows: seq<R>, i: int, row: R, value: R -> real)
    requires 0 <= i < |rows|
    ensures Total(rows[i := row], value) == Total(rows, value) - value(rows[i]) + value(row)
    decreases |rows|
  {
    var n := |rows| - 1;
    if i < n {
      assert rows[i := row][..n] == rows[..n][i := row];
      TotalUpdate(rows[..n], i, row, value);
    } else {
      assert rows[i := row][..n] == rows[..n];
    }
  }

  // ---------------------------------------------------------------- strings

  function IndexOf(s: string, c: char): (i: int)
    ensures -1 <= i < |s|
    ensures i >= 0 ==> s[i] == c && c !in s[..i]
    ensures i < 0 ==> c !in s
  {
    if s == [] then -1
    else if s[0] == c then 0
    else
      var k := IndexOf(s[1..], c);
      assert s[1..][..k + 1] == s[1..k + 2] by { assert k + 1 <= |s[1..]| || k < 0; }
      if k < 0 then -1 else k + 1
  }

  predicate StartsWith(s: string, prefix: string) {
    |prefix| <= |s| && s[..|prefix|] == prefix
  }

  predicate OccursAt(s: string, m: string, i: int) {
    0 <= i && i + |m| <= |s| && s[i..i + |m|] == m
  }

  predicate EndsWith(s: string, suffix: string) {
    |suffix| <= |s| && s[|s| - |suffix|..] == suffix
  }

  lemma ConcatParts(a: string, b: string)
    ensures StartsWith(a + b, a) && EndsWith(a + b, b)
  {
  }

  /** `s.includes(m)` */
  predicate Contains(s: string, m: string) {
    exists i | 0 <= i <= |s| - |m| :: OccursAt(s, m, i)
  }

  /** Line terminators and white space as `String.prototype.trim` sees them. */
  predicate IsSpace(c: char) {
    c == ' ' || c == '\t' || c == '\n' || c == '\r' || c == '\U{000B}' || c == '\U{000C}'
    || c == '\U{00A0}' || c == '\U{1680}' || ('\U{2000}' <= c <= '\U{200A}')
    || c == '\U{2028}' || c == '\U{2029}' || c == '\U{202F}' || c == '\U{205F}'
    || c == '\U{3000}' || c == '\U{FEFF}'
  }

  function LeadingSpaces(s: string): (n: nat)
    ensures n <= |s|
    ensures forall i :: 0 <= i < n ==> IsSpace(s[i])
    ensures n == |s| || !IsSpace(s[n])
  {
    if s != [] && IsSpace(s[0]) then 1 + LeadingSpaces(s[1..]) else 0
  }

  function TrailingSpaces(s: string): (n: nat)
    ensures n <= |s|
    ensures forall i :: |s| - n <= i < |s| ==> IsSpace(s[i])
    ensures n == |s| || !IsSpace(s[|s| - n - 1])
  {
    if s != [] && IsSpace(s[|s| - 1]) then 1 + TrailingSpaces(s[..|s| - 1]) else 0
  }

  /** `s.trim()`: the longest slice of s without white space at either end. */
  function Trim(s: string): (r: string)
    ensures r == [] || (!IsSpace(r[0]) && !IsSpace(r[|r| - 1]))
    ensures exists a :: Slice(s, r, a)
  {
    var t := s[LeadingSpaces(s)..];
    var r := t[..|t| - TrailingSpaces(t)];
    assert Slice(s, r, LeadingSpaces(s));
    r
  }

  /** r occurs in s at a. */
  predicate Slice(s: string, r: string, a: int) {
    0 <= a && a + |r| <= |s| && r == s[a..a + |r|]
  }

  /** A non-empty text that neither starts nor ends with white space. */
  predicate Unpadded(s: string) {
    |s| > 0 && !IsSpace(s[0]) && !IsSpace(s[|s| - 1])
  }

  /** `trim` leaves a text without surrounding white space as it is. */
  lemma TrimUnpadded(s: string)
    requires Unpadded(s)
    ensures Trim(s) == s
  {
    assert LeadingSpaces(s) == 0;
    assert s[0..] == s;
    assert TrailingSpaces(s) == 0;
  }

  /** `trim` removes white space appended after a text, and only that. */
  lemma TrimPadding(s: string, pad: string)
    requires Unpadded(s)
    requires forall i :: 0 <= i < |pad| ==> IsSpace(pad[i])
    ensures Trim(s + pad) == s
  {
    var w := s + pad;
    assert w[0] == s[0];
    assert LeadingSpaces(w) == 0;
    assert w[0..] == w;
    var n := TrailingSpaces(w);
    assert w[|s| - 1] == s[|s| - 1];
    assert n == |pad|;
    assert w[..|w| - n] == s;
  }

  predicate AllSpace(pad: string) {
    forall i :: 0 <= i < |pad| ==> IsSpace(pad[i])
  }

  /** White space appended after a text is counted as leading only when the text is all white space. */
  lemma {:induction false} LeadingSpacesAppend(s: string, pad: string)
    requires AllSpace(pad)
    ensures LeadingSpaces(s) < |s| ==> LeadingSpaces(s + pad) == LeadingSpaces(s)
    ensures LeadingSpaces(s) == |s| ==> LeadingSpaces(s + pad) == |s + pad|
    decreases |s|
  {
    if s == [] {
      assert s + pad == pad;
    } else if IsSpace(s[0]) {
      assert (s + pad)[1..] == s[1..] + pad;
      LeadingSpacesAppend(s[1..], pad);
    }
  }

  /** White space appended after a text adds to its trailing white space. */
  lemma {:induction false} TrailingSpacesAppend(t: string, pad: string)
    requires AllSpace(pad)
    ensures TrailingSpaces(t + pad) == TrailingSpaces(t) + |pad|
    decreases |pad|
  {
    if pad == [] {
      assert t + pad == t;
    } else {
      var w := t + pad;
      assert w[|w| - 1] == pad[|pad| - 1];
      assert w[..|w| - 1] == t + pad[..|pad| - 1];
      TrailingSpacesAppend(t, pad[..|pad| - 1]);
    }
  }

  /** `trim` removes white space appended after any text, whatever the text itself holds. */
  lemma TrimIgnoresTrailingSpaces(s: string, pad: string)
    requires AllSpace(pad)
    ensures Trim(s + pad) == Trim(s)
  {
    var w := s + pad;
    var lead := LeadingSpaces(s);
    LeadingSpacesAppend(s, pad);
    if lead < |s| {
      var t := s[lead..];
      assert w[lead..] == t + pad;
      TrailingSpacesAppend(t, pad);
      assert (t + pad)[..|t| - TrailingSpaces(t)] == t[..|t| - TrailingSpaces(t)];
    }
  }

  function LowerChar(c: char): char {
    if 'A' <= c <= 'Z' then (c as int + 32) as char else c
  }

  /** `s.toLowerCase()` for ASCII letters; other characters are kept. */
  function Lower(s: string): (r: string)
    ensures |r| == |s|
    ensures forall i :: 0 <= i < |s| ==> r[i] == LowerChar(s[i])
  {
    seq(|s|, i requires 0 <= i < |s| => LowerChar(s[i]))
  }

  /** `parts.join(sep)` */
  function Join(parts: seq<string>, sep: string): string {
    if parts == [] then ""
    else if |parts| == 1 then parts[0]
    else parts[0] + sep + Join(parts[1..], sep)
  }

  /** A join starts with its first part and ends with its last. */
  lemma JoinEnds(parts: seq<string>, sep: string)
    requires |parts| > 0
    ensures StartsWith(Join(parts, sep), parts[0]) && EndsWith(Join(parts, sep), parts[|parts| - 1])
  {
    JoinStarts(parts, sep);
    JoinFinishes(parts, sep);
  }

  lemma JoinStarts(parts: seq<string>, sep: string)
    requires |parts| > 0
    ensures StartsWith(Join(parts, sep), parts[0])
  {
    if |parts| > 1 {
      ConcatParts(parts[0], sep + Join(parts[1..], sep));
    }
  }

  lemma {:induction false} JoinFinishes(parts: seq<string>, sep: string)
    requires |parts| > 0
    ensures EndsWith(Join(parts, sep), parts[|parts| - 1])
    decreases |parts|
  {
    if |parts| > 1 {
      var tail := parts[1..];
      JoinFinishes(tail, sep);
      assert tail[|tail| - 1] == parts[|parts| - 1];
      EndsWithAfter(parts[0] + sep, Join(tail, sep), parts[|parts| - 1]);
    }
  }

  lemma EndsWithAfter(a: string, s: string, suffix: string)
    requires EndsWith(s, suffix)
    ensures EndsWith(a + s, suffix)
  {
    assert (a + s)[|a + s| - |suffix|..] == s[|s| - |suffix|..];
  }

  /** A join of parts whose first and last are unpadded is unpadded. */
  lemma UnpaddedJoin(parts: seq<string>, sep: string)
    requires |parts| > 0 && Unpadded(parts[0]) && Unpadded(parts[|parts| - 1])
    ensures Unpadded(Join(parts, sep))
  {
    JoinEnds(parts, sep);
    var j := Join(parts, sep);
    var last := parts[|parts| - 1];
    assert j[0] == j[..|parts[0]|][0] == parts[0][0];
    assert j[|j| - 1] == j[|j| - |last|..][|last| - 1] == last[|last| - 1];
  }

  /** Joining two non-empty runs of parts puts one separator between the two joins. */
  lemma {:induction false} JoinAppend(a: seq<string>, b: seq<string>, sep: string)
    requires |a| > 0 && |b| > 0
    ensures Join(a + b, sep) == Join(a, sep) + sep + Join(b, sep)
    decreases |a|
  {
    if |a| == 1 {
      assert (a + b)[1..] == b;
    } else {
      assert (a + b)[1..] == a[1..] + b;
      JoinAppend(a[1..], b, sep);
    }
  }

  /** The lines of a block that is joined into a text: an empty block is one empty line. */
  function Block(lines: seq<string>): (b: seq<string>)
    ensures |b| > 0 && Join(b, "\n") == Join(lines, "\n")
  {
    if lines == [] then [""] else lines
  }

  lemma ContainsMiddle(a: string, m: string, b: string)
    ensures Contains(a + m + b, m)
  {
    assert OccursAt(a + m + b, m, |a|);
  }

  /** What a text contains, the text with more around it contains too. */
  lemma ContainsWithin(a: string, s: string, b: string, m: string)
    requires Contains(s, m)
    ensures Contains(a + s + b, m)
  {
    var i :| 0 <= i <= |s| - |m| && OccursAt(s, m, i);
    assert (a + s + b)[|a| + i..|a| + i + |m|] == s[i..i + |m|];
    assert OccursAt(a + s + b, m, |a| + i);
  }

  lemma ContainsAfter(a: string, s: string, m: string)
    requires Contains(s, m)
    ensures Contains(a + s, m)
  {
    var i :| 0 <= i <= |s| - |m| && OccursAt(s, m, i);
    assert (a + s)[|a| + i..|a| + i + |m|] == s[i..i + |m|];
    assert OccursAt(a + s, m, |a| + i);
  }

  /** Containment is transitive. */
  lemma ContainsIn(s: string, t: string, m: string)
    requires Contains(s, t) && Contains(t, m)
    ensures Contains(s, m)
  {
    var i :| 0 <= i <= |s| - |t| && OccursAt(s, t, i);
    ContainsWithin(s[..i], t, s[i + |t|..], m);
    assert s[..i] + t + s[i + |t|..] == s;
  }

  /** A joined text contains each of its parts. */
  lemma {:induction false} JoinContains(parts: seq<string>, sep: string, k: int)
    requires 0 <= k < |parts|
    ensures Contains(Join(parts, sep), parts[k])
    decreases |parts|
  {
    if |parts| == 1 {
      ContainsMiddle("", parts[0], "");
      assert "" + parts[0] + "" == parts[0];
    } else if k == 0 {
      ContainsMiddle("", parts[0], sep + Join(parts[1..], sep));
      assert "" + parts[0] + (sep + Join(parts[1..], sep)) == Join(parts, sep);
    } else {
      JoinContains(parts[1..], sep, k - 1);
      ContainsWithin(parts[0] + sep, Join(parts[1..], sep), "", parts[k]);
      assert parts[0] + sep + Join(parts[1..], sep) + "" == Join(parts, sep);
    }
  }

  lemma JoinContainsEach(parts: seq<string>, sep: string)
    ensures forall k :: 0 <= k < |parts| ==> Contains(Join(parts, sep), parts[k])
  {
    forall k | 0 <= k < |parts| ensures Contains(Join(parts, sep), parts[k]) {
      JoinContains(parts, sep, k);
    }
  }

  /** Text blocks separated by blank lines; the whole contains every block. */
  function Blocks(parts: seq<string>): (p: string)
    ensures forall k :: 0 <= k < |parts| ==> Contains(p, parts[k])
  {
    JoinContainsEach(parts, "\n\n");
    Join(parts, "\n\n")
  }

  /** Lines separated by line breaks; the whole contains every line. */
  function Lines(parts: seq<string>): (p: string)
    ensures forall k :: 0 <= k < |parts| ==> Contains(p, parts[k])
  {
    JoinContainsEach(parts, "\n");
    Join(parts, "\n")
  }

  /** Whatever follows the lines, each line is still there. */
  lemma LinesLead(parts: seq<string>, rest: string)
    ensures forall k :: 0 <= k < |parts| ==> Contains(Lines(parts) + rest, parts[k])
  {
    var lines := Lines(parts);
    assert "" + lines + rest == lines + rest;
    forall k | 0 <= k < |parts| ensures Contains(lines + rest, parts[k]) {
      ContainsWithin("", lines, rest, parts[k]);
    }
  }

  /** `s.split(c)` for a one-character separator. */
  function Split(s: string, c: char): (parts: seq<string>)
    ensures |parts| > 0
    decreases |s|
  {
    var i := IndexOf(s, c);
    if i < 0 then [s] else [s[..i]] + Split(s[i + 1..], c)
  }

  lemma SplitAfterFirst(a: string, c: char, b: string)
    requires c !in a
    ensures Split(a + [c] + b, c) == [a] + Split(b, c)
  {
    var s := a + [c] + b;
    assert s[..|a|] == a;
    assert c in s[..|a| + 1];
    assert s[|a| + 1..] == b;
  }

  /** Joining lines with a separator character none of them contains, and splitting on it, gives the lines back. */
  lemma {:induction false} SplitJoin(parts: seq<string>, c: char)
    requires |parts| > 0
    requires forall k :: 0 <= k < |parts| ==> c !in parts[k]
    ensures Split(Join(parts, [c]), c) == parts
  {
    if |parts| == 1 {
      assert IndexOf(parts[0], c) < 0;
    } else {
      SplitJoin(parts[1..], c);
      assert Join(parts, [c]) == parts[0] + [c] + Join(parts[1..], [c]);
      SplitAfterFirst(parts[0], c, Join(parts[1..], [c]));
      assert parts == [parts[0]] + parts[1..];
    }
  }
}
