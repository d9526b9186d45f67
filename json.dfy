/** The JavaScript values the front end receives as tool arguments and parsed JSON, with the
    conversions the code applies to them: truthiness, `String(v)` (also what a template literal
    does), `parseInt`, and the own keys an object spread `{...v}` copies. */
module Json {
  import opened Wrappers
  import opened Text

  /** A parsed JSON value. Numbers are integers. */
  datatype Json =
    | JNull
    | JBool(b: bool)
    | JNum(n: int)
    | JStr(s: string)
    | JArr(items: seq<Json>)
    | JObj(fields: map<string, Json>)

  /** A property read: `None` is `undefined`. */
  type Prop = Option<Json>

  /** JavaScript truthiness: `undefined`, `null`, `false`, `0` and `""` are falsy. */
  predicate Truthy(v: Prop) {
    match v
    case None => false
    case Some(JNull) => false
    case Some(JBool(b)) => b
    case Some(JNum(n)) => n != 0
    case Some(JStr(s)) => s != []
    case Some(_) => true
  }

  predicate IsDecimalDigit(c: char) {
    '0' <= c <= '9'
  }

  function DigitChar(d: nat): (c: char)
    requires d < 10
    ensures IsDecimalDigit(c) && DigitOf(c) == d
  {
    "0123456789"[d]
  }

  /** Decimal notation of a natural number, without leading zeros. */
  function NatToString(n: nat): (r: string)
    ensures |r| >= 1
    ensures forall i :: 0 <= i < |r| ==> IsDecimalDigit(r[i])
    ensures n > 0 ==> r[0] != '0'
    ensures r[0] == '0' ==> n == 0
  {
    if n < 10 then [DigitChar(n)] else NatToString(n / 10) + [DigitChar(n % 10)]
  }

  /** `String(n)` for an integer. */
  function IntToString(n: int): (r: string)
    ensures |r| >= 1
  {
    if n < 0 then "-" + NatToString(-n) else NatToString(n)
  }

  /** `String(v)`: what a template literal or string concatenation produces. */
  function ToText(v: Prop): string {
    match v
    case None => "undefined"
    case Some(j) => JsonText(j)
  }

  /** An optional string inside a template literal: `undefined` when absent. */
  function Interpolated(s: Option<string>): string {
    if s.Some? then s.value else "undefined"
  }

  /** `String(j)` for a defined value. Array elements that are `null` become empty, as
      `Array.prototype.join` writes them. */
  function JsonText(j: Json): string
    decreases j
  {
    match j
    case JNull => "null"
    case JBool(b) => if b then "true" else "false"
    case JNum(n) => IntToString(n)
    case JStr(s) => s
    case JArr(items) =>
      Join(seq(|items|, i requires 0 <= i < |items| => if items[i] == JNull then "" else JsonText(items[i])), ',')
    case JObj(_) => "[object Object]"
  }

  /** The value of a character as a digit in radixes up to 36; 36 for a non-digit. */
  function DigitOf(c: char): (d: nat)
    ensures d <= 36
    ensures IsDecimalDigit(c) ==> d == c as int - '0' as int
    ensures d < 10 ==> IsDecimalDigit(c)
  {
    if '0' <= c <= '9' then c as int - '0' as int
    else if 'a' <= c <= 'z' then c as int - 'a' as int + 10
    else if 'A' <= c <= 'Z' then c as int - 'A' as int + 10
    else 36
  }

  /** The longest prefix of `s` made of digits of `radix`. */
  function DigitPrefix(s: string, radix: nat): (r: string)
    ensures |r| <= |s| && r == s[..|r|]
    ensures forall i :: 0 <= i < |r| ==> DigitOf(r[i]) < radix
    ensures |r| < |s| ==> DigitOf(s[|r|]) >= radix
  {
    if s == [] || DigitOf(s[0]) >= radix then []
    else [s[0]] + DigitPrefix(s[1..], radix)
  }

  function DigitsValue(ds: string, radix: nat): nat
  {
    if ds == [] then 0
    else DigitsValue(ds[..|ds| - 1], radix) * radix + (if DigitOf(ds[|ds| - 1]) < radix then DigitOf(ds[|ds| - 1]) else 0)
  }

  /** `parseInt(s)` with no radix: leading white space is skipped, one sign is taken, a `0x`
      or `0X` prefix switches to hexadecimal, and the longest run of digits is read. `None`
      is `NaN`, when no digit follows. */
  function ParseInt(s: string): Option<int> {
    ParseTrimmed(TrimStart(s))
  }

  /** `parseInt` once the leading white space is gone: an optional sign, then the digits. */
  function ParseTrimmed(t: string): Option<int> {
    var negative := |t| > 0 && t[0] == '-';
    var u := if |t| > 0 && (t[0] == '-' || t[0] == '+') then t[1..] else t;
    match ParseUnsigned(u)
    case None => None
    case Some(v) => Some(if negative then -(v as int) else v)
  }

  /** The digits after the sign: a `0x` or `0X` prefix switches to hexadecimal. */
  function ParseUnsigned(u: string): Option<nat> {
    var hex := |u| >= 2 && u[0] == '0' && (u[1] == 'x' || u[1] == 'X');
    var radix := if hex then 16 else 10;
    var ds := DigitPrefix(if hex then u[2..] else u, radix);
    if ds == [] then None else Some(DigitsValue(ds, radix))
  }

  lemma {:induction false} NatToStringValue(n: nat)
    ensures DigitsValue(NatToString(n), 10) == n
    decreases n
  {
    var r := NatToString(n);
    if n >= 10 {
      NatToStringValue(n / 10);
      assert r[..|r| - 1] == NatToString(n / 10);
    }
  }

  /** A decimal run followed by text that does not continue it: the run is all that is read. */
  lemma {:induction false} DigitPrefixStops(r: string, x: string)
    requires forall i :: 0 <= i < |r| ==> IsDecimalDigit(r[i])
    requires x == [] || !IsDecimalDigit(x[0])
    ensures DigitPrefix(r + x, 10) == r
    decreases |r|
  {
    if r == [] {
      assert r + x == x;
    } else {
      assert (r + x)[0] == r[0];
      assert (r + x)[1..] == r[1..] + x;
      DigitPrefixStops(r[1..], x);
      assert [r[0]] + r[1..] == r;
    }
  }

  lemma ParseUnsignedDigits(r: string, x: string)
    requires |r| >= 1 && forall i :: 0 <= i < |r| ==> IsDecimalDigit(r[i])
    requires x == [] || !IsDecimalDigit(x[0])
    requires r[0] == '0' ==> |r| == 1 && (x == [] || (x[0] != 'x' && x[0] != 'X'))
    ensures ParseUnsigned(r + x) == Some(DigitsValue(r, 10))
  {
    var u := r + x;
    assert u[0] == r[0];
    if |r| >= 2 {
      assert u[1] == r[1];
    } else if |u| >= 2 {
      assert u[1] == x[0];
    }
    DigitPrefixStops(r, x);
  }

  lemma ParseTrimmedSign(sign: string, u: string)
    requires sign == [] || sign == "-"
    requires |u| >= 1 && IsDecimalDigit(u[0])
    ensures ParseTrimmed(sign + u) ==
      match ParseUnsigned(u)
      case None => None
      case Some(v) => Some(if sign == [] then v else -(v as int))
  {
    if sign == [] {
      assert sign + u == u;
    } else {
      assert (sign + u)[0] == '-' && (sign + u)[1..] == u;
    }
  }

  lemma ParseIntStartsWithDigit(sign: string, r: string, x: string)
    requires sign == [] || sign == "-"
    requires |r| >= 1 && IsDecimalDigit(r[0])
    ensures ParseInt(sign + (r + x)) == ParseTrimmed(sign + (r + x))
  {
    var s := sign + (r + x);
    assert s[0] == '-' || IsDecimalDigit(s[0]);
  }

  lemma ParseTrimmedOfUnsigned(sign: string, r: string, x: string, v: nat)
    requires sign == [] || sign == "-"
    requires |r| >= 1 && IsDecimalDigit(r[0])
    requires ParseUnsigned(r + x) == Some(v)
    ensures ParseTrimmed(sign + (r + x)) == Some(if sign == [] then v else -(v as int))
  {
    assert (r + x)[0] == r[0];
    ParseTrimmedSign(sign, r + x);
  }

  lemma ParseIntOfDigits(sign: string, r: string, x: string, v: nat)
    requires sign == [] || sign == "-"
    requires |r| >= 1 && IsDecimalDigit(r[0])
    requires ParseUnsigned(r + x) == Some(v)
    ensures ParseInt(sign + (r + x)) == Some(if sign == [] then v else -(v as int))
  {
    ParseIntStartsWithDigit(sign, r, x);
    ParseTrimmedOfUnsigned(sign, r, x, v);
  }

  /** `parseInt` reads back what `String` wrote for an integer, also when text that is not a
      digit follows it (the `3` of `"3.7"`); after a lone `0`, an `x` would start a hexadecimal
      prefix, so that case is excluded. */
  lemma ParseIntOfIntToString(n: int, x: string)
    requires x == [] || !IsDecimalDigit(x[0])
    requires n == 0 ==> x == [] || (x[0] != 'x' && x[0] != 'X')
    ensures ParseInt(IntToString(n) + x) == Some(n)
  {
    var m := if n < 0 then -n else n;
    var r := NatToString(m);
    var sign := if n < 0 then "-" else "";
    assert IntToString(n) + x == sign + (r + x);
    assert ParseUnsigned(r + x) == Some(m) by {
      ParseUnsignedDigits(r, x);
      NatToStringValue(m);
    }
    ParseIntOfDigits(sign, r, x, m);
  }

  /** White space in front of the number does not change what `parseInt` reads. */
  lemma ParseIntSkipsSpace(w: string, s: string)
    requires IsBlank(w)
    ensures ParseInt(w + s) == ParseInt(s)
  {
    TrimStartBlank(w, s);
  }

  /** The keys `{...v}` copies: an object's own keys, a string's or an array's indexes;
      every other value spreads to nothing. */
  function Spread(v: Prop): (r: map<string, Json>)
    ensures v.Some? && v.value.JObj? ==> r == v.value.fields
    ensures v.Some? && v.value.JStr? ==>
      forall k :: k in r <==> IsIndexKey(k, |v.value.s|)
    ensures v.Some? && v.value.JArr? ==>
      forall k :: k in r <==> IsIndexKey(k, |v.value.items|)
    ensures v.None? || !(v.value.JObj? || v.value.JStr? || v.value.JArr?) ==> r == map[]
  {
    match v
    case Some(JObj(m)) => m
    case Some(JStr(s)) =>
      var chars := seq(|s|, i requires 0 <= i < |s| => JStr([s[i]]));
      IndexedKeys(chars);
      Indexed(chars)
    case Some(JArr(items)) =>
      IndexedKeys(items);
      Indexed(items)
    case _ => map[]
  }

  /** `k` is one of `"0"`, ..., the decimal name of `n - 1`. */
  predicate IsIndexKey(k: string, n: nat) {
    exists i :: 0 <= i < n && k == NatToString(i)
  }

  /** The map from `"0"`, `"1"`, ... to the elements. */
  function Indexed(xs: seq<Json>): map<string, Json> {
    if xs == [] then map[]
    else Indexed(xs[..|xs| - 1])[NatToString(|xs| - 1) := xs[|xs| - 1]]
  }

  lemma {:induction false} IndexedHas(xs: seq<Json>)
    ensures forall i :: 0 <= i < |xs| ==> NatToString(i) in Indexed(xs) && Indexed(xs)[NatToString(i)] == xs[i]
  {
    if xs != [] {
      var n := |xs| - 1;
      var front := xs[..n];
      IndexedHas(front);
      NatToStringFresh(n, front);
      forall i | 0 <= i < n
        ensures NatToString(i) in Indexed(xs) && Indexed(xs)[NatToString(i)] == xs[i]
      {
        assert front[i] == xs[i];
      }
    }
  }

  lemma {:induction false} IndexedOnly(xs: seq<Json>)
    ensures forall k :: k in Indexed(xs) ==> IsIndexKey(k, |xs|)
  {
    if xs != [] {
      var n := |xs| - 1;
      IndexedOnly(xs[..n]);
      forall k | k in Indexed(xs) ensures IsIndexKey(k, |xs|) {
        if k != NatToString(n) {
          assert Indexed(xs) == Indexed(xs[..n])[NatToString(n) := xs[n]];
          assert k in Indexed(xs[..n]);
          assert IsIndexKey(k, |xs[..n]|);
          var i :| 0 <= i < n && k == NatToString(i);
          assert 0 <= i < |xs| && k == NatToString(i);
        } else {
          assert 0 <= n < |xs| && k == NatToString(n);
        }
      }
    }
  }

  /** The keys of `Indexed(xs)` are exactly the indexes of `xs`, each mapped to its element. */
  lemma IndexedKeys(xs: seq<Json>)
    ensures forall i :: 0 <= i < |xs| ==> NatToString(i) in Indexed(xs) && Indexed(xs)[NatToString(i)] == xs[i]
    ensures forall k :: k in Indexed(xs) <==> IsIndexKey(k, |xs|)
  {
    IndexedHas(xs);
    IndexedOnly(xs);
  }

  lemma NatToStringInjective(a: nat, b: nat)
    requires NatToString(a) == NatToString(b)
    ensures a == b
  {
    NatToStringValue(a);
    NatToStringValue(b);
  }

  lemma NatToStringFresh(n: nat, xs: seq<Json>)
    requires n == |xs|
    ensures forall i :: 0 <= i < |xs| ==> NatToString(i) != NatToString(n)
  {
    forall i | 0 <= i < |xs| ensures NatToString(i) != NatToString(n) {
      if NatToString(i) == NatToString(n) {
        NatToStringInjective(i, n);
      }
    }
  }
}
