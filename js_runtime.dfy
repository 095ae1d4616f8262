/** The pieces of the JavaScript runtime that the query-fragment builder
    relies on: objects with string keys enumerated in insertion order,
    property reads and writes, `Number(text)`, the relational operator `>`,
    the rendering of a non-negative integer inside a template literal, and
    `Array.prototype.join`. */
module JsRuntime {

  datatype Option<T> = None | Some(value: T)

  /** The values that reach the filter builders: text, a finite number
      (held exactly, as a real) or NaN. */
  datatype JsValue = Str(str: string) | Number(num: real) | NaN

  /** One own enumerable property of an object. */
  datatype Property<V> = Property(key: string, value: V)

  /** An object is the list of its own properties in enumeration order;
      a key occurs at most once. */
  predicate IsObject<V>(o: seq<Property<V>>)
  {
    forall i, j :: 0 <= i < j < |o| ==> o[i].key != o[j].key
  }

  /** `Object.keys(o)` */
  function Keys<V>(o: seq<Property<V>>): seq<string>
  {
    seq(|o|, i requires 0 <= i < |o| => o[i].key)
  }

  /** `Object.values(o)` */
  function Values<V>(o: seq<Property<V>>): seq<V>
  {
    seq(|o|, i requires 0 <= i < |o| => o[i].value)
  }

  /** The property read `o[k]`; `None` stands for `undefined`. */
  function Get<V>(o: seq<Property<V>>, k: string): (r: Option<V>)
    ensures r.None? <==> forall i :: 0 <= i < |o| ==> o[i].key != k
    ensures r.Some? ==> exists i :: 0 <= i < |o| && o[i] == Property(k, r.value)
    ensures IsObject(o) ==> forall i :: 0 <= i < |o| && o[i].key == k ==> r == Some(o[i].value)
  {
    if |o| == 0 then None
    else if o[0].key == k then Some(o[0].value)
    else
      assert forall i :: 1 <= i < |o| ==> o[i] == o[1..][i - 1];
      Get(o[1..], k)
  }

  /** The property write `o[k] = v`: an existing property keeps its place
      and takes the new value, a new one is appended. */
  function Put<V>(o: seq<Property<V>>, k: string, v: V): (r: seq<Property<V>>)
    ensures (forall i :: 0 <= i < |o| ==> o[i].key != k) ==> r == o + [Property(k, v)]
  {
    if |o| == 0 then [Property(k, v)]
    else if o[0].key == k then [Property(k, v)] + o[1..]
    else
      assert forall i :: 1 <= i < |o| ==> o[i] == o[1..][i - 1];
      [o[0]] + Put(o[1..], k, v)
  }

  /** Reading back after a write sees the written value under its key and
      the old value under every other key. */
  lemma {:induction false} GetAfterPut<V>(o: seq<Property<V>>, k: string, v: V, k': string)
    ensures Get(Put(o, k, v), k') == if k' == k then Some(v) else Get(o, k')
  {
    if |o| > 0 && o[0].key != k {
      GetAfterPut(o[1..], k, v, k');
    }
  }

  /** On an object, writing an existing key replaces that property's value
      where it stands: the order of the properties is unchanged. */
  lemma {:induction false} PutReplaces<V>(o: seq<Property<V>>, k: string, v: V, i: nat)
    requires IsObject(o) && i < |o| && o[i].key == k
    ensures Put(o, k, v) == o[i := Property(k, v)]
  {
    if o[0].key != k {
      assert IsObject(o[1..]) && o[1..][i - 1] == o[i];
      PutReplaces(o[1..], k, v, i - 1);
      assert [o[0]] + o[1..][i - 1 := Property(k, v)] == o[i := Property(k, v)];
    }
  }

  predicate IsDigit(c: char)
  {
    '0' <= c <= '9'
  }

  predicate AllDigits(s: string)
  {
    forall i :: 0 <= i < |s| ==> IsDigit(s[i])
  }

  /** The number a string of decimal digits denotes, most significant first. */
  function DigitsValue(s: string): nat
    requires AllDigits(s)
  {
    if |s| == 0 then 0
    else 10 * DigitsValue(s[..|s| - 1]) + (s[|s| - 1] as int - '0' as int)
  }

  function DigitChar(d: nat): char
    requires d < 10
  {
    ('0' as int + d) as char
  }

  /** The numeral of n, as `${n}` renders a non-negative integer: decimal
      digits, no leading zero, denoting n. */
  function Decimal(n: nat): (s: string)
    ensures |s| > 0 && AllDigits(s)
    ensures DigitsValue(s) == n
    ensures s[0] == '0' ==> n == 0
  {
    if n < 10 then [DigitChar(n)]
    else
      var s := Decimal(n / 10) + [DigitChar(n % 10)];
      assert s[..|s| - 1] == Decimal(n / 10);
      s
  }

  /** `Number(s)` on text: the empty string is 0, an optional sign followed
      by decimal digits is that integer, anything else is NaN. */
  function ToNumber(s: string): JsValue
  {
    if |s| == 0 then Number(0.0)
    else if AllDigits(s) then Number(DigitsValue(s) as real)
    else if (s[0] == '-' || s[0] == '+') && |s| > 1 && AllDigits(s[1..]) then
      var m := DigitsValue(s[1..]) as real;
      Number(if s[0] == '-' then -m else m)
    else NaN
  }

  /** The ToNumber conversion applied to a value by the relational operators. */
  function ToNumeric(v: JsValue): JsValue
  {
    match v
    case Str(s) => ToNumber(s)
    case _ => v
  }

  /** `a < b` on two strings: lexicographic, character by character. */
  function StrLess(a: string, b: string): bool
  {
    if |b| == 0 then false
    else if |a| == 0 then true
    else if a[0] != b[0] then a[0] < b[0]
    else StrLess(a[1..], b[1..])
  }

  /** `a > b` where `None` is `undefined`: two strings compare as text;
      otherwise both sides are converted to numbers, and `undefined` or NaN
      on either side makes the comparison false. */
  function Greater(a: Option<JsValue>, b: Option<JsValue>): (r: bool)
    ensures r ==> a.Some? && b.Some?
  {
    match (a, b)
    case (Some(Str(x)), Some(Str(y))) => StrLess(y, x)
    case (Some(x), Some(y)) =>
      var nx, ny := ToNumeric(x), ToNumeric(y);
      nx.Number? && ny.Number? && nx.num > ny.num
    case _ => false
  }

  /** The total length of some strings. */
  function TotalLength(parts: seq<string>): nat
  {
    if |parts| == 0 then 0 else |parts[0]| + TotalLength(parts[1..])
  }

  /** `parts.join(sep)`: the parts in order, with one separator between
      neighbours and none at either end. */
  function Join(parts: seq<string>, sep: string): string
  {
    if |parts| == 0 then ""
    else if |parts| == 1 then parts[0]
    else parts[0] + sep + Join(parts[1..], sep)
  }

  /** `Number` reads the numeral of n back as n, and with a leading `-` as -n. */
  lemma NumberOfDecimal(n: nat)
    ensures ToNumber(Decimal(n)) == Number(n as real)
    ensures ToNumber("-" + Decimal(n)) == Number(-(n as real))
  {
    assert ("-" + Decimal(n))[0] == '-' && ("-" + Decimal(n))[1..] == Decimal(n);
  }

  /** String order is irreflexive and asymmetric, and a proper prefix comes first. */
  lemma {:induction false} StrLessOrder(a: string, b: string)
    ensures StrLess(a, b) ==> a != b && !StrLess(b, a)
    ensures a < b ==> StrLess(a, b)
    ensures b <= a ==> !StrLess(a, b)
  {
    if |a| > 0 && |b| > 0 && a[0] == b[0] {
      StrLessOrder(a[1..], b[1..]);
      if a < b { assert a[1..] < b[1..]; }
      if b <= a { assert b[1..] <= a[1..]; }
    }
  }

  /** `parts.join(sep)` has the parts in order, one separator between
      neighbours and none at either end. */
  lemma {:induction false} JoinShape(parts: seq<string>, sep: string)
    ensures |parts| > 0 ==> |Join(parts, sep)| == TotalLength(parts) + (|parts| - 1) * |sep|
    ensures |parts| > 0 ==> parts[0] <= Join(parts, sep)
  {
    if |parts| > 1 {
      JoinShape(parts[1..], sep);
      var j := Join(parts, sep);
      assert j == parts[0] + (sep + Join(parts[1..], sep));
    }
  }

  /** String order is transitive; with StrLessOrder it is a strict order. */
  lemma {:induction false} StrLessTransitive(a: string, b: string, c: string)
    requires StrLess(a, b) && StrLess(b, c)
    ensures StrLess(a, c)
  {
    if |a| > 0 && a[0] == b[0] && b[0] == c[0] {
      StrLessTransitive(a[1..], b[1..], c[1..]);
    }
  }
}
