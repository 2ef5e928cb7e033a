/** JavaScript values as both halves of the program see them: parsed JSON,
    truthiness (`!x`), `String(x)` and `String.prototype.includes`. */
module JsValues {

  datatype Option<+T> = None | Some(value: T)

  /** A parsed JSON value. JavaScript numbers are integral in this model. */
  datatype Json =
    | Null
    | Bool(b: bool)
    | Num(n: int)
    | Str(s: string)
    | Arr(elems: seq<Json>)
    | Obj(props: map<string, Json>)

  /** JavaScript truthiness of a property read; `None` stands for `undefined`.
      The falsy values are exactly `undefined`, `null`, `false`, `0` and `""`. */
  predicate Truthy(v: Option<Json>)
  {
    match v
    case None => false
    case Some(Null) => false
    case Some(Bool(b)) => b
    case Some(Num(n)) => n != 0
    case Some(Str(s)) => s != ""
    case Some(Arr(_)) => true
    case Some(Obj(_)) => true
  }

  /** The falsy values: a missing property, `null`, `false`, `0` and `""`. */
  lemma FalsyValues(v: Option<Json>)
    ensures !Truthy(v) <==> v in {None, Some(Null), Some(Bool(false)), Some(Num(0)), Some(Str(""))}
  {
  }

  /** Property read `v.key` on a value that is not null: only objects have
      the properties named here, anything else yields `undefined`. */
  function Get(v: Json, key: string): Option<Json>
  {
    if v.Obj? && key in v.props then Some(v.props[key]) else None
  }

  /** Property read on a JSON object. */
  function Prop(props: map<string, Json>, key: string): Option<Json>
  {
    if key in props then Some(props[key]) else None
  }

  /** A read yields a value exactly when the object has the property, and
      then it is the property's value; on anything but an object it yields
      `undefined`. */
  lemma PropRead(v: Json, key: string)
    ensures Get(v, key).Some? <==> v.Obj? && key in v.props
    ensures v.Obj? ==> Get(v, key) == Prop(v.props, key)
    ensures Get(v, key).Some? ==> Get(v, key).value == v.props[key]
  {
  }

  /** Decimal digits of a natural number, most significant first. */
  function NatToString(n: nat): (s: string)
    ensures |s| >= 1
    ensures forall i :: 0 <= i < |s| ==> '0' <= s[i] <= '9'
    ensures |s| > 1 ==> s[0] != '0'
  {
    if n < 10 then [DigitChar(n)] else NatToString(n / 10) + [DigitChar(n % 10)]
  }

  function DigitChar(d: nat): (c: char)
    requires d < 10
    ensures '0' <= c <= '9'
  {
    ('0' as int + d) as char
  }

  /** The value of a string of decimal digits: the inverse of NatToString. */
  function DigitsValue(s: string): nat
    requires AllDigits(s)
  {
    if s == [] then 0 else 10 * DigitsValue(s[..|s| - 1]) + (s[|s| - 1] as int - '0' as int)
  }

  lemma {:induction false} NatToStringRoundTrip(n: nat)
    ensures DigitsValue(NatToString(n)) == n
  {
    var s := NatToString(n);
    if n >= 10 {
      NatToStringRoundTrip(n / 10);
      assert s[..|s| - 1] == NatToString(n / 10);
    }
  }

  /** `String(n)` of an integral number. */
  function IntToString(i: int): string
  {
    if i < 0 then "-" + NatToString(-i) else NatToString(i)
  }

  predicate AllDigits(s: string)
  {
    forall i :: 0 <= i < |s| ==> '0' <= s[i] <= '9'
  }

  /** `Number(s)` for a string of decimal digits with an optional minus sign
      (the empty string is 0); `None` stands for every other string. */
  function ParseNumber(s: string): (r: Option<int>)
    ensures AllDigits(s) ==> r == Some(DigitsValue(s))
    ensures r.Some? ==> forall i :: 0 < i < |s| ==> '0' <= s[i] <= '9'
    ensures r.Some? && r.value < 0 ==> s[0] == '-'
  {
    if s == "" then Some(0)
    else if AllDigits(s) then Some(DigitsValue(s))
    else if s[0] == '-' && |s| > 1 && AllDigits(s[1..]) then Some(0 - DigitsValue(s[1..]))
    else None
  }

  /** The text of an integer starts with a minus sign exactly when the
      integer is negative, and is never empty. */
  lemma IntToStringSign(i: int)
    ensures |IntToString(i)| >= 1
    ensures IntToString(i)[0] == '-' <==> i < 0
  {
  }

  /** `Number(String(i)) === i` for every integer (JavaScript doubles agree below 2^53). */
  lemma ParseIntToString(i: int)
    ensures ParseNumber(IntToString(i)) == Some(i)
  {
    var digits := NatToString(if i < 0 then -i else i);
    NatToStringRoundTrip(if i < 0 then -i else i);
    assert AllDigits(digits);
    if i < 0 {
      ParseNegative(digits);
    } else {
      assert ParseNumber(digits) == Some(DigitsValue(digits));
    }
  }

  /** A minus sign followed by digits reads as the negated digits' value. */
  lemma ParseNegative(digits: string)
    requires |digits| >= 1 && AllDigits(digits)
    ensures ParseNumber("-" + digits) == Some(0 - DigitsValue(digits))
  {
    var s := "-" + digits;
    assert s[0] == '-';
    assert s[1..] == digits;
  }

  /** `String(v)`, as used by template literals and `'...' + v`.
      Inside an array, `null` renders as the empty string. */
  function ToText(v: Json): (r: string)
    ensures v.Num? ==> ParseNumber(r) == Some(v.n)
    ensures v.Str? ==> r == v.s
    decreases v, 1
  {
    match v
    case Null => "null"
    case Bool(b) => if b then "true" else "false"
    case Num(n) => ParseIntToString(n); IntToString(n)
    case Str(s) => s
    case Arr(es) => JoinText(es, v)
    case Obj(_) => "[object Object]"
  }

  /** `Array.prototype.join(',')` over elements of `parent`. */
  function JoinText(es: seq<Json>, ghost parent: Json): string
    requires forall e :: e in es ==> e < parent
    decreases parent, 0, |es|
  {
    if es == [] then ""
    else
      assert es[0] in es;
      var head := if es[0].Null? then "" else ToText(es[0]);
      if |es| == 1 then head
      else
        assert forall e :: e in es[1..] ==> e in es;
        head + "," + JoinText(es[1..], parent)
  }

  /** `String([])` is empty, `String([null])` is empty, and a one-element
      array prints as its element does. */
  lemma ArrayText(e: Json)
    ensures ToText(Arr([])) == ""
    ensures ToText(Arr([Null])) == ""
    ensures !e.Null? ==> ToText(Arr([e])) == ToText(e)
  {
  }

  /** Two elements are joined with one comma. */
  lemma ArrayTextPair(a: Json, b: Json)
    requires !a.Null? && !b.Null?
    ensures ToText(Arr([a, b])) == ToText(a) + "," + ToText(b)
  {
    var v := Arr([a, b]);
    assert [a, b][1..] == [b];
    assert JoinText([b], v) == ToText(b);
  }

  /** `p` occurs in `s` starting at index `i`. */
  predicate OccursAt(s: string, p: string, i: int)
  {
    0 <= i <= |s| - |p| && s[i..i + |p|] == p
  }

  /** `s.includes(p)`. */
  predicate Contains(s: string, p: string)
  {
    exists i :: 0 <= i <= |s| - |p| && OccursAt(s, p, i)
  }

  /** A string includes every string it is built around, and nothing longer
      than itself. */
  lemma ContainsInfix(a: string, p: string, b: string)
    ensures Contains(a + p + b, p)
    ensures forall s :: Contains(s, p) ==> |p| <= |s|
  {
    var s := a + p + b;
    assert s[|a|..|a| + |p|] == p;
    assert OccursAt(s, p, |a|);
  }

  /** Every character of an occurring pattern occurs in the string. */
  lemma ContainsChar(s: string, p: string, c: char)
    requires Contains(s, p) && c in p
    ensures c in s
  {
    var i :| 0 <= i <= |s| - |p| && OccursAt(s, p, i);
    var k :| 0 <= k < |p| && p[k] == c;
    assert s[i..i + |p|][k] == c;
  }
}
