/**
 * The JavaScript host semantics the parsing code relies on: the untyped
 * values that `JSON.parse` produces, truthiness, own properties and member
 * access, the `v + ''` coercion, `parseInt` and the decimal form of integers,
 * `toLowerCase` and `startsWith`.
 */
module Js {
  import opened Wrappers

  /**
   * A value read by `JSON.parse`, plus `undefined`, which is what reading an
   * absent property gives. Numbers are reals: `JSON.parse` never produces NaN
   * or an infinity, and a negative zero is falsy just as zero is. An object is
   * the sequence of its own enumerable properties in `for...in` order; objects
   * have no inherited members here.
   */
  datatype Json =
    | JUndefined
    | JNull
    | JBool(b: bool)
    | JNum(n: real)
    | JStr(s: string)
    | JArr(items: seq<Json>)
    | JObj(fields: seq<(string, Json)>)

  /** `!!v` */
  predicate Truthy(v: Json) {
    match v
    case JUndefined => false
    case JNull => false
    case JBool(b) => b
    case JNum(n) => n != 0.0
    case JStr(s) => s != ""
    case JArr(_) => true
    case JObj(_) => true
  }

  /** Position of the first property named `key`, if any. */
  function FieldIndex(fields: seq<(string, Json)>, key: string): (r: Option<nat>)
    ensures r.Some? ==> r.value < |fields| && fields[r.value].0 == key
  {
    if |fields| == 0 then None
    else if fields[0].0 == key then Some(0)
    else match FieldIndex(fields[1..], key)
      case None => None
      case Some(k) => Some(k + 1)
  }

  /** `FieldIndex` finds the first property of that name, and finds none only if there is none. */
  lemma {:induction false} FieldIndexIsFirst(fields: seq<(string, Json)>, key: string)
    ensures var r := FieldIndex(fields, key);
      && (r.Some? ==> forall i :: 0 <= i < r.value ==> fields[i].0 != key)
      && (r.None? <==> forall i :: 0 <= i < |fields| ==> fields[i].0 != key)
    decreases |fields|
  {
    if |fields| > 0 && fields[0].0 != key {
      FieldIndexIsFirst(fields[1..], key);
      var r := FieldIndex(fields, key);
      if r.Some? {
        forall i | 0 <= i < r.value ensures fields[i].0 != key {
          if i > 0 { assert fields[i] == fields[1..][i - 1]; }
        }
      } else {
        forall i | 0 <= i < |fields| ensures fields[i].0 != key {
          if i > 0 { assert fields[i] == fields[1..][i - 1]; }
        }
      }
    }
  }

  /**
   * The element index named by an array key: the canonical decimal form of
   * an index below the array's length.
   */
  function ArrayKeyIndex(key: string, len: nat): Option<nat> {
    if IsCanonicalNat(key) && DigitsValue(key) < len then Some(DigitsValue(key)) else None
  }

  /** The keys naming elements are exactly the decimal forms of the indices. */
  lemma ArrayKeyIndexIsDecimal(key: string, len: nat)
    ensures var r := ArrayKeyIndex(key, len);
      r.Some? ==> r.value < len && key == NatToString(r.value)
    ensures forall i :: 0 <= i < len ==> ArrayKeyIndex(NatToString(i), len) == Some(i)
  {
    if IsCanonicalNat(key) {
      CanonicalNatRoundTrip(key);
    }
    forall i | 0 <= i < len ensures ArrayKeyIndex(NatToString(i), len) == Some(i) {
      NatToStringIsCanonical(i);
    }
  }

  /**
   * The own property `key` of `v`, if `v` has one: arrays own their index
   * keys and `length`, objects their fields (the first of a repeated name);
   * scalars are taken to have no properties.
   */
  function OwnProperty(v: Json, key: string): Option<Json> {
    match v
    case JArr(xs) =>
      if key == "length" then Some(JNum(|xs| as real))
      else (match ArrayKeyIndex(key, |xs|)
            case Some(k) => Some(xs[k])
            case None => None)
    case JObj(fs) =>
      (match FieldIndex(fs, key)
       case Some(k) => Some(fs[k].1)
       case None => None)
    case _ => None
  }

  /** `Object.prototype.hasOwnProperty.call(v, key)` */
  predicate HasOwnProperty(v: Json, key: string) {
    OwnProperty(v, key).Some?
  }

  /** `v[key]` for a value that is not null or undefined. */
  function Member(v: Json, key: string): Json {
    match OwnProperty(v, key)
    case Some(x) => x
    case None => JUndefined
  }

  /**
   * `v + ''`. Only the string case is modelled exactly; how the host prints
   * any other value is the function `asString`.
   */
  function StringOf(v: Json, asString: Json -> string): string {
    if v.JStr? then v.s else asString(v)
  }

  /** The first property of a name is the object's own property of that name. */
  lemma OwnFieldIsMember(fs: seq<(string, Json)>, k: nat)
    requires k < |fs|
    requires forall i :: 0 <= i < k ==> fs[i].0 != fs[k].0
    ensures HasOwnProperty(JObj(fs), fs[k].0) && Member(JObj(fs), fs[k].0) == fs[k].1
  {
    FieldIndexIsFirst(fs, fs[k].0);
    var r := FieldIndex(fs, fs[k].0);
    assert r.Some?;
    assert r.value == k;
  }

  /** An object owns exactly the names of its fields. */
  lemma ObjectOwnsItsFields(fs: seq<(string, Json)>, key: string)
    ensures HasOwnProperty(JObj(fs), key) <==> exists i :: 0 <= i < |fs| && fs[i].0 == key
  {
    FieldIndexIsFirst(fs, key);
  }

  /** An array owns `length` and the decimal forms of its indices, and nothing else. */
  lemma ArrayOwnsItsIndices(xs: seq<Json>, key: string)
    ensures HasOwnProperty(JArr(xs), key) <==>
      key == "length" || exists i :: 0 <= i < |xs| && key == NatToString(i)
    ensures forall i :: 0 <= i < |xs| ==> Member(JArr(xs), NatToString(i)) == xs[i]
  {
    ArrayKeyIndexIsDecimal(key, |xs|);
    if exists i :: 0 <= i < |xs| && key == NatToString(i) {
      var i :| 0 <= i < |xs| && key == NatToString(i);
      assert ArrayKeyIndex(NatToString(i), |xs|) == Some(i);
    }
    forall i | 0 <= i < |xs| ensures Member(JArr(xs), NatToString(i)) == xs[i] {
      ArrayKeyIndexIsDecimal(NatToString(i), |xs|);
      NatToStringIsCanonical(i);
      assert NatToString(i) != "length";
    }
  }

  // ---- Decimal digits ----

  predicate IsDigit(c: char) { '0' <= c <= '9' }

  function DigitValue(c: char): nat
    requires IsDigit(c)
  {
    (c as int) - ('0' as int)
  }

  function DigitChar(d: nat): (c: char)
    requires d < 10
    ensures IsDigit(c) && DigitValue(c) == d
  {
    ((('0' as int) + d) as char)
  }

  predicate AllDigits(s: string) {
    forall i :: 0 <= i < |s| ==> IsDigit(s[i])
  }

  /** The value of a string of decimal digits, most significant first. */
  function DigitsValue(d: string): nat
    requires AllDigits(d)
  {
    if |d| == 0 then 0 else DigitsValue(d[..|d| - 1]) * 10 + DigitValue(d[|d| - 1])
  }

  /** `n + ''` for a non-negative integer. */
  function NatToString(n: nat): string
    decreases n
  {
    if n < 10 then [DigitChar(n)] else NatToString(n / 10) + [DigitChar(n % 10)]
  }

  /** `i + ''` for an integer. */
  function IntToString(i: int): string {
    if i < 0 then "-" + NatToString(-i) else NatToString(i)
  }

  /** A decimal numeral without a sign and without leading zeros. */
  predicate IsCanonicalNat(s: string) {
    |s| > 0 && AllDigits(s) && (s[0] == '0' ==> |s| == 1)
  }

  /** The canonical decimal form of an integer: `0`, `17`, `-3`, never `-0`. */
  predicate IsCanonicalInt(s: string) {
    IsCanonicalNat(s) || (|s| >= 2 && s[0] == '-' && IsCanonicalNat(s[1..]) && s[1..] != "0")
  }

  lemma {:induction false} NatToStringIsCanonical(n: nat)
    ensures IsCanonicalNat(NatToString(n))
    ensures DigitsValue(NatToString(n)) == n
    ensures n > 0 ==> NatToString(n)[0] != '0'
    decreases n
  {
    var s := NatToString(n);
    if n >= 10 {
      NatToStringIsCanonical(n / 10);
      var p := NatToString(n / 10);
      assert s == p + [DigitChar(n % 10)];
      assert s[..|s| - 1] == p;
      assert s[0] == p[0];
    }
  }

  lemma {:induction false} DigitsValuePositive(s: string)
    requires |s| > 0 && AllDigits(s) && s[0] != '0'
    ensures DigitsValue(s) >= 1
    decreases |s|
  {
    if |s| > 1 {
      DigitsValuePositive(s[..|s| - 1]);
    }
  }

  lemma {:induction false} CanonicalNatRoundTrip(s: string)
    requires IsCanonicalNat(s)
    ensures NatToString(DigitsValue(s)) == s
    decreases |s|
  {
    var v := DigitsValue(s);
    var last := s[|s| - 1];
    if |s| == 1 {
      assert DigitChar(DigitValue(last)) == last;
      assert s == [last];
    } else {
      var p := s[..|s| - 1];
      assert p[0] == s[0];
      DigitsValuePositive(p);
      CanonicalNatRoundTrip(p);
      assert v / 10 == DigitsValue(p) && v % 10 == DigitValue(last);
      assert DigitChar(DigitValue(last)) == last;
      assert s == p + [last];
    }
  }

  // ---- parseInt ----

  /** The white space `parseInt` skips (the ASCII ones, NBSP, LS, PS and BOM). */
  predicate IsJsWhitespace(c: char) {
    c == ' ' || c == '\t' || c == '\n' || c == '\r'
    || c as int == 0x0B || c as int == 0x0C || c as int == 0xA0
    || c as int == 0x2028 || c as int == 0x2029 || c as int == 0xFEFF
  }

  function TrimStart(s: string): (r: string)
    ensures |r| <= |s|
    ensures |r| > 0 ==> !IsJsWhitespace(r[0])
  {
    if |s| > 0 && IsJsWhitespace(s[0]) then TrimStart(s[1..]) else s
  }

  /** The longest prefix of `s` made of decimal digits. */
  function LeadingDigits(s: string): (r: string)
    ensures AllDigits(r) && |r| <= |s| && r == s[..|r|]
  {
    if |s| > 0 && IsDigit(s[0]) then [s[0]] + LeadingDigits(s[1..]) else ""
  }

  lemma {:induction false} LeadingDigitsOfDigits(s: string)
    requires AllDigits(s)
    ensures LeadingDigits(s) == s
    decreases |s|
  {
    if |s| > 0 {
      LeadingDigitsOfDigits(s[1..]);
    }
  }

  /**
   * `parseInt(s)` in base ten: skip leading white space, read an optional
   * sign, then as many decimal digits as there are. `None` is NaN.
   */
  function ParseInt(s: string): Option<int> {
    var t := TrimStart(s);
    var negative := |t| > 0 && t[0] == '-';
    var u := if |t| > 0 && (t[0] == '-' || t[0] == '+') then t[1..] else t;
    var d := LeadingDigits(u);
    if d == "" then None
    else
      var magnitude: int := DigitsValue(d);
      Some(if negative then -magnitude else magnitude)
  }

  // ---- Strings ----

  /** `toLowerCase` on the ASCII letters; every other character is kept. */
  function LowerChar(c: char): char {
    if 'A' <= c <= 'Z' then ((c as int) + 32) as char else c
  }

  function Lower(s: string): (r: string)
    ensures |r| == |s|
  {
    seq(|s|, i requires 0 <= i < |s| => LowerChar(s[i]))
  }

  lemma LowerIsIdempotent(s: string)
    ensures Lower(Lower(s)) == Lower(s)
  {
  }

  /** `s.startsWith(prefix)` */
  predicate StartsWith(s: string, prefix: string) {
    prefix <= s
  }
}
