/** JSON values as the JavaScript code sees them after `JSON.parse`, with the
    property reads, object spreads and text conversions the core relies on. */
module Json {

  datatype Option<+T> = None | Some(value: T)

  /** A JSON value. Numbers are exact rationals (JSON has no NaN or Infinity);
      objects keep their properties in insertion order, as JavaScript does. */
  datatype Json =
    | JNull
    | JBool(b: bool)
    | JNum(n: real)
    | JStr(s: string)
    | JArr(elems: seq<Json>)
    | JObj(props: seq<Prop>)

  datatype Prop = Prop(key: string, value: Json)

  /** JavaScript truthiness: null, false, 0 and "" are falsy; arrays and objects are truthy. */
  predicate Truthy(v: Json) {
    match v
    case JNull => false
    case JBool(b) => b
    case JNum(n) => n != 0.0
    case JStr(s) => s != ""
    case _ => true
  }

  function Keys(ps: seq<Prop>): (ks: seq<string>)
    ensures |ks| == |ps|
    ensures forall i :: 0 <= i < |ps| ==> ks[i] == ps[i].key
  {
    seq(|ps|, i requires 0 <= i < |ps| => ps[i].key)
  }

  /** Keys are unique, as they are in every object `JSON.parse` or a spread builds. */
  predicate UniqueKeys(ps: seq<Prop>) {
    forall i, j :: 0 <= i < j < |ps| ==> ps[i].key != ps[j].key
  }

  /** The value stored under `k`, or None (JavaScript's `undefined`). */
  function Lookup(ps: seq<Prop>, k: string): (r: Option<Json>)
    ensures r.Some? <==> k in Keys(ps)
  {
    if ps == [] then None
    else if ps[0].key == k then Some(ps[0].value)
    else
      assert forall x :: x in Keys(ps) <==> x == ps[0].key || x in Keys(ps[1..]);
      Lookup(ps[1..], k)
  }

  /** A property read `v.k` on a value that is not null. Only objects carry the named
      keys the core reads; numbers, strings, booleans and arrays give `undefined`. */
  function Get(v: Json, k: string): Option<Json> {
    if v.JObj? then Lookup(v.props, k) else None
  }

  /** `v || d` for a property that may be undefined. */
  function OrElse(v: Option<Json>, d: Json): Json {
    if v.Some? && Truthy(v.value) then v.value else d
  }

  /** `v ?? d` for a property that may be undefined. */
  function Nullish(v: Option<Json>, d: Json): Json {
    if v.Some? && !v.value.JNull? then v.value else d
  }

  /** Defining a property on an object under construction: an existing key keeps its
      position and takes the new value; a new key goes at the end. */
  function Put(ps: seq<Prop>, k: string, v: Json): seq<Prop> {
    if ps == [] then [Prop(k, v)]
    else if ps[0].key == k then [Prop(k, v)] + ps[1..]
    else [ps[0]] + Put(ps[1..], k, v)
  }

  /** `{...t, ...s}`: the properties of `s`, in order, defined on top of `t`. */
  function Assign(t: seq<Prop>, s: seq<Prop>): seq<Prop>
    decreases |s|
  {
    if s == [] then t else Assign(Put(t, s[0].key, s[0].value), s[1..])
  }

  /** The own enumerable properties `...v` copies: an object's properties, a string's
      characters and an array's elements under their indices; nothing for null,
      booleans and numbers. */
  function SpreadEntries(v: Json): seq<Prop> {
    match v
    case JObj(ps) => ps
    case JStr(s) => seq(|s|, i requires 0 <= i < |s| => Prop(NatText(i), JStr([s[i]])))
    case JArr(es) => seq(|es|, i requires 0 <= i < |es| => Prop(NatText(i), es[i]))
    case _ => []
  }

  lemma {:induction false} LookupPut(ps: seq<Prop>, k: string, v: Json, x: string)
    ensures Lookup(Put(ps, k, v), x) == if x == k then Some(v) else Lookup(ps, x)
    decreases ps
  {
    if ps != [] && ps[0].key != k {
      LookupPut(ps[1..], k, v, x);
      assert Put(ps, k, v)[1..] == Put(ps[1..], k, v);
    }
  }

  lemma {:induction false} KeysPut(ps: seq<Prop>, k: string, v: Json)
    ensures k in Keys(ps) ==> Keys(Put(ps, k, v)) == Keys(ps)
    ensures k !in Keys(ps) ==> Keys(Put(ps, k, v)) == Keys(ps) + [k]
    decreases ps
  {
    if ps != [] {
      assert Keys(ps) == [ps[0].key] + Keys(ps[1..]);
      if ps[0].key != k {
        KeysPut(ps[1..], k, v);
        assert Put(ps, k, v) == [ps[0]] + Put(ps[1..], k, v);
        assert Keys(Put(ps, k, v)) == [ps[0].key] + Keys(Put(ps[1..], k, v));
      } else {
        assert Keys(Put(ps, k, v)) == [k] + Keys(ps[1..]);
      }
    }
  }

  lemma UniqueKeysPut(ps: seq<Prop>, k: string, v: Json)
    requires UniqueKeys(ps)
    ensures UniqueKeys(Put(ps, k, v))
  {
    KeysPut(ps, k, v);
    var r := Put(ps, k, v);
    forall i, j | 0 <= i < j < |r| ensures r[i].key != r[j].key {
      assert Keys(r)[i] == r[i].key && Keys(r)[j] == r[j].key;
      if k !in Keys(ps) && j == |ps| {
        assert Keys(ps)[i] == ps[i].key;
      } else {
        assert Keys(ps)[i] == ps[i].key && Keys(ps)[j] == ps[j].key;
      }
    }
  }

  /** Reading a spread result: a key the source has takes the source's value, any
      other key keeps the target's. */
  lemma {:induction false} LookupAssign(t: seq<Prop>, s: seq<Prop>, x: string)
    requires UniqueKeys(s)
    ensures Lookup(Assign(t, s), x) == if x in Keys(s) then Lookup(s, x) else Lookup(t, x)
    decreases |s|
  {
    if s != [] {
      assert Keys(s) == [s[0].key] + Keys(s[1..]);
      assert UniqueKeys(s[1..]);
      LookupAssign(Put(t, s[0].key, s[0].value), s[1..], x);
      LookupPut(t, s[0].key, s[0].value, x);
    }
  }

  /** The key list of a spread result: the target's keys, then the source's new keys. */
  lemma {:induction false} KeysAssign(t: seq<Prop>, s: seq<Prop>, x: string)
    ensures x in Keys(Assign(t, s)) <==> x in Keys(t) || x in Keys(s)
    decreases |s|
  {
    if s != [] {
      assert Keys(s) == [s[0].key] + Keys(s[1..]);
      KeysPut(t, s[0].key, s[0].value);
      KeysAssign(Put(t, s[0].key, s[0].value), s[1..], x);
    }
  }

  /** Spreading never duplicates a key of the target. */
  lemma {:induction false} UniqueKeysAssign(t: seq<Prop>, s: seq<Prop>)
    requires UniqueKeys(t)
    ensures UniqueKeys(Assign(t, s))
    decreases |s|
  {
    if s != [] {
      UniqueKeysPut(t, s[0].key, s[0].value);
      UniqueKeysAssign(Put(t, s[0].key, s[0].value), s[1..]);
    }
  }

  lemma {:induction false} PutPastPrefix(p: seq<Prop>, t: seq<Prop>, k: string, v: Json)
    requires forall i :: 0 <= i < |p| ==> p[i].key != k
    ensures Put(p + t, k, v) == p + Put(t, k, v)
    decreases p
  {
    if p != [] {
      assert (p + t)[0] == p[0] && (p + t)[1..] == p[1..] + t;
      PutPastPrefix(p[1..], t, k, v);
      assert Put(p + t, k, v) == [p[0]] + Put(p[1..] + t, k, v);
      assert [p[0]] + (p[1..] + Put(t, k, v)) == p + Put(t, k, v);
    } else {
      assert p + t == t && p + Put(t, k, v) == Put(t, k, v);
    }
  }

  /** Spreading `s` over `p + t`, where `t` holds the first keys of `s` in the same
      order and `p` none of them, yields `p + s`: the values of `t` are all replaced
      in place. */
  lemma {:induction false} AssignOverSameKeys(p: seq<Prop>, t: seq<Prop>, s: seq<Prop>)
    requires UniqueKeys(s)
    requires forall i, j :: 0 <= i < |p| && 0 <= j < |s| ==> p[i].key != s[j].key
    requires |t| <= |s| && forall i :: 0 <= i < |t| ==> t[i].key == s[i].key
    ensures Assign(p + t, s) == p + s
    decreases |s|
  {
    if s == [] {
      assert t == [];
      assert p + t == p;
    } else {
      var rest := if t == [] then [] else t[1..];
      assert forall i :: 0 <= i < |p| ==> p[i].key != s[0].key;
      assert t != [] ==> t[0].key == s[0].key;
      PutFirstOver(p, t, s[0]);
      SameKeysStep(p, t, s);
      AssignOverSameKeys(p + [s[0]], rest, s[1..]);
      ConsTail(p, s);
    }
  }

  /** Defining the first key of `s` over `p + t`, where `t` starts with that key. */
  lemma PutFirstOver(p: seq<Prop>, t: seq<Prop>, q: Prop)
    requires forall i :: 0 <= i < |p| ==> p[i].key != q.key
    requires t != [] ==> t[0].key == q.key
    ensures Put(p + t, q.key, q.value) == p + [q] + (if t == [] then [] else t[1..])
  {
    PutPastPrefix(p, t, q.key, q.value);
    assert Put(t, q.key, q.value) == [q] + (if t == [] then [] else t[1..]);
  }

  /** Splitting off the head of `s` and putting it back. */
  lemma ConsTail(p: seq<Prop>, s: seq<Prop>)
    requires s != []
    ensures p + [s[0]] + s[1..] == p + s
  {
    assert s == [s[0]] + s[1..];
  }

  /** The preconditions of AssignOverSameKeys carry over to its recursive call. */
  lemma SameKeysStep(p: seq<Prop>, t: seq<Prop>, s: seq<Prop>)
    requires UniqueKeys(s) && s != []
    requires forall i, j :: 0 <= i < |p| && 0 <= j < |s| ==> p[i].key != s[j].key
    requires |t| <= |s| && forall i :: 0 <= i < |t| ==> t[i].key == s[i].key
    ensures var p', s' := p + [s[0]], s[1..];
      forall i, j :: 0 <= i < |p'| && 0 <= j < |s'| ==> p'[i].key != s'[j].key
    ensures var rest := if t == [] then [] else t[1..];
      forall i :: 0 <= i < |rest| ==> rest[i].key == s[1..][i].key
    ensures UniqueKeys(s[1..])
  {
    var p', s' := p + [s[0]], s[1..];
    forall i, j | 0 <= i < |p'| && 0 <= j < |s'| ensures p'[i].key != s'[j].key {
      assert s'[j] == s[j + 1];
      if i == |p| {
        assert p'[i] == s[0];
      } else {
        assert p'[i] == p[i];
      }
    }
    var rest := if t == [] then [] else t[1..];
    forall i | 0 <= i < |rest| ensures rest[i].key == s'[i].key {
      assert rest[i] == t[i + 1] && s'[i] == s[i + 1];
    }
    assert UniqueKeys(s');
  }

  /** With distinct keys, the value at index i is the one found under its key. */
  lemma {:induction false} LookupAt(ps: seq<Prop>, i: nat)
    requires UniqueKeys(ps) && i < |ps|
    ensures Lookup(ps, ps[i].key) == Some(ps[i].value)
    decreases i
  {
    if i > 0 {
      assert ps[0].key != ps[i].key;
      assert ps[1..][i - 1] == ps[i];
      LookupAt(ps[1..], i - 1);
    }
  }

  /** `{...o}` of an object with distinct keys copies it exactly. */
  lemma AssignFresh(ps: seq<Prop>)
    requires UniqueKeys(ps)
    ensures Assign([], ps) == ps
  {
    AssignOverSameKeys([], [], ps);
    assert [] + ps == ps;
  }

  // ---------------------------------------------------------------------------
  // Text conversions: String(n) for numbers, JSON.stringify, String(v)

  function DigitChar(d: int): char
    requires 0 <= d < 10
  {
    "0123456789"[d]
  }

  function NatText(n: nat): (s: string)
    ensures |s| > 0
    ensures forall i :: 0 <= i < |s| ==> '0' <= s[i] <= '9'
    decreases n
  {
    if n < 10 then [DigitChar(n)] else NatText(n / 10) + [DigitChar(n % 10)]
  }

  /** The digits of a fraction in [0, 1), at most `fuel` of them, stopping as soon as
      the expansion ends. */
  function FractionDigits(f: real, fuel: nat): (s: string)
    requires 0.0 <= f < 1.0
    ensures forall i :: 0 <= i < |s| ==> '0' <= s[i] <= '9'
    decreases fuel
  {
    if f == 0.0 || fuel == 0 then ""
    else
      var d := (f * 10.0).Floor;
      [DigitChar(d)] + FractionDigits(f * 10.0 - d as real, fuel - 1)
  }

  /** The number of fraction digits JavaScript can print for a double. */
  const MaxFractionDigits: nat := 20

  /** `String(r)` in plain decimal notation: digits, an optional point and fraction,
      a leading minus for negative numbers. */
  function NumberText(r: real): (s: string)
    ensures forall i :: 0 <= i < |s| ==> s[i] == '-' || s[i] == '.' || '0' <= s[i] <= '9'
  {
    if r < 0.0 then "-" + UnsignedText(-r) else UnsignedText(r)
  }

  function UnsignedText(r: real): (s: string)
    requires r >= 0.0
    ensures forall i :: 0 <= i < |s| ==> s[i] == '.' || '0' <= s[i] <= '9'
  {
    var whole := r.Floor;
    var frac := r - whole as real;
    NatText(whole) + (if frac == 0.0 then "" else "." + FractionDigits(frac, MaxFractionDigits))
  }

  lemma IntegerNumberText(n: nat)
    ensures NumberText(n as real) == NatText(n)
  {
    assert (n as real).Floor == n;
  }

  predicate IsDigit(c: char) {
    '0' <= c <= '9'
  }

  /** The length of the run of decimal digits `s` starts with. */
  function DigitRun(s: string): (n: nat)
    ensures n <= |s|
    ensures forall i :: 0 <= i < n ==> IsDigit(s[i])
    ensures n < |s| ==> !IsDigit(s[n])
  {
    if s != [] && IsDigit(s[0]) then 1 + DigitRun(s[1..]) else 0
  }

  /** The value of a string of decimal digits. */
  function DigitsValue(d: string): nat
    requires forall i :: 0 <= i < |d| ==> IsDigit(d[i])
  {
    if d == [] then 0
    else
      assert IsDigit(d[|d| - 1]);
      10 * DigitsValue(d[..|d| - 1]) + (d[|d| - 1] as int - '0' as int)
  }

  lemma {:induction false} NatTextValue(n: nat)
    ensures DigitRun(NatText(n)) == |NatText(n)|
    ensures DigitsValue(NatText(n)) == n
    decreases n
  {
    var s := NatText(n);
    DigitRunAll(s);
    DigitCharValue(n % 10);
    if n >= 10 {
      NatTextValue(n / 10);
      assert s[..|s| - 1] == NatText(n / 10);
      assert s[|s| - 1] == DigitChar(n % 10);
    } else {
      assert s[..0] == [] && s[0] == DigitChar(n);
    }
  }

  /** The character of a decimal digit encodes it: it sits d places after '0'. */
  lemma DigitCharValue(d: int)
    requires 0 <= d < 10
    ensures DigitChar(d) as int - '0' as int == d
  {
    assert "0123456789"[d] as int == 48 + d;
  }

  lemma {:induction false} DigitRunAll(s: string)
    requires forall i :: 0 <= i < |s| ==> IsDigit(s[i])
    ensures DigitRun(s) == |s|
    decreases |s|
  {
    if s != [] {
      DigitRunAll(s[1..]);
    }
  }

  // ---------------------------------------------------------------------------
  // Reading decimal text back, as `Number` or `parseFloat` reads what `String` wrote

  /** The digits `s` starts with, read as the fraction after a decimal point: "25" is
      0.25. Reading stops at the first character that is not a digit. */
  function FractionValue(s: string): real {
    if s == [] || !IsDigit(s[0]) then 0.0
    else ((s[0] as int - '0' as int) as real + FractionValue(s[1..])) / 10.0
  }

  /** The value of unsigned decimal text: digits, then optionally a point and more
      digits. */
  function UnsignedValue(s: string): real {
    var n := DigitRun(s);
    DigitsValue(s[..n]) as real + (if n < |s| && s[n] == '.' then FractionValue(s[n + 1..]) else 0.0)
  }

  /** The value of decimal text with an optional leading minus. */
  function DecimalValue(s: string): real {
    if s != [] && s[0] == '-' then -UnsignedValue(s[1..]) else UnsignedValue(s)
  }

  predicate Whole(r: real) {
    r.Floor as real == r
  }

  /** r has at most k decimals: r times 10^k is whole. */
  predicate Decimals(r: real, k: nat)
    decreases k
  {
    if k == 0 then Whole(r) else Decimals(r * 10.0, k - 1)
  }

  /** A whole number minus an integer is whole. */
  lemma WholeMinus(x: real, m: int)
    requires Whole(x)
    ensures Whole(x - m as real)
  {
    var n := x.Floor;
    assert x - m as real == (n - m) as real;
  }

  /** Shifting by a whole number keeps the number of decimals. */
  lemma {:induction false} DecimalsMinus(r: real, m: int, k: nat)
    requires Decimals(r, k)
    ensures Decimals(r - m as real, k)
    decreases k
  {
    if k == 0 {
      WholeMinus(r, m);
    } else {
      var shifted := r * 10.0;
      assert Decimals(shifted, k - 1);
      DecimalsMinus(shifted, 10 * m, k - 1);
      assert (r - m as real) * 10.0 == shifted - (10 * m) as real;
    }
  }

  /** Negating keeps the number of decimals. */
  lemma {:induction false} DecimalsNegate(r: real, k: nat)
    requires Decimals(r, k)
    ensures Decimals(-r, k)
    decreases k
  {
    if k == 0 {
      WholeMinus(r, 2 * r.Floor);
      assert -r == r - (2 * r.Floor) as real;
    } else {
      var shifted := r * 10.0;
      assert Decimals(shifted, k - 1);
      DecimalsNegate(shifted, k - 1);
      assert -r * 10.0 == -shifted;
    }
  }

  /** Peeling off the first decimal digit d of a fraction f other than 0 leaves the
      fraction g, with f = (d + g) / 10 and one decimal fewer; so f has a decimal. */
  lemma FractionStep(f: real, fuel: nat, k: nat) returns (d: int, g: real)
    requires 0.0 < f < 1.0 && k <= fuel && Decimals(f, k)
    ensures 0 < k && 0 <= d < 10 && 0.0 <= g < 1.0 && f == (d as real + g) / 10.0
    ensures Decimals(g, k - 1)
    ensures FractionDigits(f, fuel) == [DigitChar(d)] + FractionDigits(g, fuel - 1)
  {
    assert f.Floor == 0;
    d := (f * 10.0).Floor;
    g := f * 10.0 - d as real;
    DecimalsMinus(f * 10.0, d, k - 1);
  }

  /** Fraction text that starts with the digit d and goes on with text worth g is worth
      (d + g) / 10. */
  lemma FractionValueCons(d: int, t: string, g: real)
    requires 0 <= d < 10 && FractionValue(t) == g
    ensures FractionValue([DigitChar(d)] + t) == (d as real + g) / 10.0
  {
    var s := [DigitChar(d)] + t;
    assert s[0] == DigitChar(d) && s[1..] == t;
    DigitCharValue(d);
  }

  /** A number with at most k decimals, k within the fuel, has its fraction digits
      printed in full, so they read back as that number. */
  lemma {:induction false} FractionDigitsValue(f: real, fuel: nat, k: nat)
    requires 0.0 <= f < 1.0 && k <= fuel && Decimals(f, k)
    ensures FractionValue(FractionDigits(f, fuel)) == f
    decreases fuel
  {
    if f != 0.0 {
      var d, g := FractionStep(f, fuel, k);
      var fuel', k' := fuel - 1, k - 1;
      FractionDigitsValue(g, fuel', k');
      FractionValueCons(d, FractionDigits(g, fuel'), g);
    } else {
      assert FractionDigits(f, fuel) == "";
    }
  }

  /** The digit run of digits followed by a non-digit, or by nothing, is exactly those
      digits. */
  lemma {:induction false} DigitRunStops(d: string, t: string)
    requires forall i :: 0 <= i < |d| ==> IsDigit(d[i])
    requires t == [] || !IsDigit(t[0])
    ensures DigitRun(d + t) == |d|
    decreases |d|
  {
    if d != [] {
      assert (d + t)[1..] == d[1..] + t;
      DigitRunStops(d[1..], t);
    } else {
      assert d + t == t;
    }
  }

  /** Digits, then nothing or a point and more text, read as the digits' value plus
      the fraction after the point. */
  lemma UnsignedValueParts(d: string, t: string)
    requires forall i :: 0 <= i < |d| ==> IsDigit(d[i])
    requires t == [] || t[0] == '.'
    ensures UnsignedValue(d + t) == DigitsValue(d) as real + (if t == [] then 0.0 else FractionValue(t[1..]))
  {
    var s := d + t;
    DigitRunStops(d, t);
    assert s[..|d|] == d;
    if t != [] {
      assert s[|d|] == '.' && s[|d| + 1..] == t[1..];
    }
  }

  /** Unsigned text of a number with at most k decimals reads back as that number. */
  lemma UnsignedTextValue(r: real, k: nat)
    requires r >= 0.0 && k <= MaxFractionDigits && Decimals(r, k)
    ensures UnsignedValue(UnsignedText(r)) == r
  {
    var w := r.Floor;
    var frac := r - w as real;
    var tail := if frac == 0.0 then "" else "." + FractionDigits(frac, MaxFractionDigits);
    assert UnsignedText(r) == NatText(w) + tail;
    NatTextValue(w);
    UnsignedValueParts(NatText(w), tail);
    if frac != 0.0 {
      assert tail[1..] == FractionDigits(frac, MaxFractionDigits);
      DecimalsMinus(r, w, k);
      FractionDigitsValue(frac, MaxFractionDigits, k);
    }
  }

  /** `String(r)` of a number with at most k decimals, k up to the 20 digits printed,
      reads back as r. */
  lemma NumberTextValue(r: real, k: nat)
    requires k <= MaxFractionDigits && Decimals(r, k)
    ensures DecimalValue(NumberText(r)) == r
  {
    var s := NumberText(r);
    if r < 0.0 {
      assert s[1..] == UnsignedText(-r);
      DecimalsNegate(r, k);
      UnsignedTextValue(-r, k);
    } else {
      UnsignedTextValue(r, k);
      assert s[0] == NatText(r.Floor)[0];
    }
  }

  /** Two numbers with at most k decimals print alike only when they are equal. */
  lemma NumberTextInjective(a: real, b: real, k: nat)
    requires k <= MaxFractionDigits && Decimals(a, k) && Decimals(b, k)
    requires NumberText(a) == NumberText(b)
    ensures a == b
  {
    NumberTextValue(a, k);
    NumberTextValue(b, k);
  }

  function HexDigit(d: int): char
    requires 0 <= d < 16
  {
    "0123456789abcdef"[d]
  }

  /** How JSON.stringify writes one character inside a string literal. */
  function EscapeChar(c: char): string {
    if c == '"' then "\\\""
    else if c == '\\' then "\\\\"
    else if c as int == 8 then "\\b"
    else if c == '\t' then "\\t"
    else if c == '\n' then "\\n"
    else if c as int == 12 then "\\f"
    else if c == '\r' then "\\r"
    else if c as int < 32 then "\\u00" + [HexDigit(c as int / 16), HexDigit(c as int % 16)]
    else [c]
  }

  function EscapeString(s: string): string {
    if s == [] then "" else EscapeChar(s[0]) + EscapeString(s[1..])
  }

  /** JSON.stringify of a string. */
  function Quote(s: string): string {
    "\"" + EscapeString(s) + "\""
  }

  /** Array.prototype.join. */
  function Join(parts: seq<string>, sep: string): string {
    if |parts| == 0 then ""
    else if |parts| == 1 then parts[0]
    else parts[0] + sep + Join(parts[1..], sep)
  }

  /** JSON.stringify without indentation. */
  function Stringify(v: Json): string
    decreases v
  {
    match v
    case JNull => "null"
    case JBool(b) => if b then "true" else "false"
    case JNum(n) => NumberText(n)
    case JStr(s) => Quote(s)
    case JArr(es) =>
      "[" + Join(seq(|es|, i requires 0 <= i < |es| => Stringify(es[i])), ",") + "]"
    case JObj(ps) =>
      "{" + Join(seq(|ps|, i requires 0 <= i < |ps| => Quote(ps[i].key) + ":" + Stringify(ps[i].value)), ",") + "}"
  }

  /** `String(v)`, which is also how a value becomes a property key. */
  function ToText(v: Json): string
    decreases v
  {
    match v
    case JNull => "null"
    case JBool(b) => if b then "true" else "false"
    case JNum(n) => NumberText(n)
    case JStr(s) => s
    case JArr(es) =>
      Join(seq(|es|, i requires 0 <= i < |es| => if es[i].JNull? then "" else ToText(es[i])), ",")
    case JObj(_) => "[object Object]"
  }

  predicate NoLineBreak(s: string) {
    '\r' !in s && '\n' !in s
  }

  lemma {:induction false} JoinNoLineBreak(parts: seq<string>, sep: string)
    requires NoLineBreak(sep)
    requires forall i :: 0 <= i < |parts| ==> NoLineBreak(parts[i])
    ensures NoLineBreak(Join(parts, sep))
    decreases |parts|
  {
    if |parts| > 1 {
      JoinNoLineBreak(parts[1..], sep);
    }
  }

  lemma {:induction false} EscapeStringNoLineBreak(s: string)
    ensures NoLineBreak(EscapeString(s))
    decreases s
  {
    if s != [] {
      EscapeCharNoLineBreak(s[0]);
      EscapeStringNoLineBreak(s[1..]);
      var a, b := EscapeChar(s[0]), EscapeString(s[1..]);
      assert forall c :: c in a + b <==> c in a || c in b;
    }
  }

  lemma EscapeCharNoLineBreak(c: char)
    ensures NoLineBreak(EscapeChar(c))
  {
    if c != '"' && c != '\\' && c as int < 32 && c as int !in {8, 9, 10, 12, 13} {
      var h := [HexDigit(c as int / 16), HexDigit(c as int % 16)];
      assert NoLineBreak(h);
      assert EscapeChar(c) == "\\u00" + h;
    }
  }

  /** JSON text never holds a raw carriage return or line feed: both are escaped
      inside strings, and nothing else produces them. */
  lemma {:induction false} StringifyNoLineBreak(v: Json)
    ensures NoLineBreak(Stringify(v))
    decreases v
  {
    match v
    case JNull =>
    case JBool(_) =>
    case JNum(n) =>
      assert forall i :: 0 <= i < |NumberText(n)| ==> NumberText(n)[i] != '\r' && NumberText(n)[i] != '\n';
    case JStr(s) =>
      EscapeStringNoLineBreak(s);
    case JArr(es) =>
      var parts := seq(|es|, i requires 0 <= i < |es| => Stringify(es[i]));
      forall i | 0 <= i < |es| ensures NoLineBreak(parts[i]) {
        StringifyNoLineBreak(es[i]);
      }
      JoinNoLineBreak(parts, ",");
    case JObj(ps) =>
      var parts := seq(|ps|, i requires 0 <= i < |ps| => Quote(ps[i].key) + ":" + Stringify(ps[i].value));
      forall i | 0 <= i < |ps| ensures NoLineBreak(parts[i]) {
        EscapeStringNoLineBreak(ps[i].key);
        StringifyNoLineBreak(ps[i].value);
      }
      JoinNoLineBreak(parts, ",");
  }
}
