/** Parsed JSON values, and the JavaScript coercions that the client and the hub
    rely on when they use such a value as a property key. */
module JsValues {

  datatype Option<+T> = None | Some(value: T)

  /** A value produced by JSON.parse. Integer-valued numbers are `JInt`; any other
      number keeps the text that JavaScript's String() gives it. */
  datatype Json =
    | JNull
    | JBool(b: bool)
    | JInt(i: int)
    | JNumber(text: string)
    | JStr(s: string)
    | JArr(items: seq<Json>)
    | JObj(fields: map<string, Json>)

  /** `v.key` on a parsed value; None stands for `undefined`. None of the keys the
      protocol reads is a property of a string, number or array. */
  function Field(v: Json, key: string): Option<Json>
  {
    if v.JObj? && key in v.fields then Some(v.fields[key]) else None
  }

  /** `v.key` where `v` may itself be undefined or null: None means a TypeError. */
  function FieldOf(v: Option<Json>, key: string): Option<Option<Json>>
  {
    match v
    case None => None
    case Some(JNull) => None
    case Some(j) => Some(Field(j, key))
  }

  // ---------------------------------------------------------------------------
  // Decimal text of integers

  function Digit(d: nat): char
    requires d < 10
  {
    "0123456789"[d]
  }

  predicate IsDigit(c: char)
  {
    '0' <= c <= '9'
  }

  /** The decimal text of a natural number, as Number.prototype.toString gives it. */
  function NatToString(n: nat): string
  {
    if n < 10 then [Digit(n)] else NatToString(n / 10) + [Digit(n % 10)]
  }

  function IntToString(i: int): string
  {
    if i < 0 then "-" + NatToString(-i) else NatToString(i)
  }

  function DigitValue(c: char): nat
    requires IsDigit(c)
  {
    c as int - '0' as int
  }

  lemma DigitRoundTrip(c: char)
    requires IsDigit(c)
    ensures DigitValue(c) < 10 && Digit(DigitValue(c)) == c
  {
    if c == '0' {} else if c == '1' {} else if c == '2' {} else if c == '3' {}
    else if c == '4' {} else if c == '5' {} else if c == '6' {} else if c == '7' {}
    else if c == '8' {} else {}
  }

  function DigitsValue(s: string): nat
    requires forall k :: 0 <= k < |s| ==> IsDigit(s[k])
  {
    if |s| == 0 then 0
    else DigitsValue(s[..|s| - 1]) * 10 + DigitValue(s[|s| - 1])
  }

  /** A canonical array index: digits only, and no leading zero. These are exactly the
      keys that a JavaScript object lists first, in ascending numeric order. */
  predicate Canonical(s: string)
  {
    && |s| > 0
    && (forall k :: 0 <= k < |s| ==> IsDigit(s[k]))
    && (s[0] == '0' ==> |s| == 1)
  }

  function ParseIndex(s: string): Option<nat>
  {
    if Canonical(s) then Some(DigitsValue(s)) else None
  }

  lemma {:induction false} NatToStringCanonical(n: nat)
    ensures Canonical(NatToString(n))
    ensures DigitsValue(NatToString(n)) == n
  {
    var s := NatToString(n);
    if n >= 10 {
      NatToStringCanonical(n / 10);
      var p := NatToString(n / 10);
      assert s == p + [Digit(n % 10)];
      assert s[..|s| - 1] == p;
      assert s[0] == p[0];
    }
  }

  /** Printing an index and parsing it back gives the index. */
  lemma PrintThenParse(n: nat)
    ensures ParseIndex(NatToString(n)) == Some(n)
  {
    NatToStringCanonical(n);
  }

  lemma {:induction false} LeadingDigitPositive(s: string)
    requires Canonical(s) && s[0] != '0'
    ensures DigitsValue(s) >= 1
  {
    if |s| > 1 {
      var p := s[..|s| - 1];
      assert p[0] == s[0];
      LeadingDigitPositive(p);
    }
  }

  /** A canonical index is the printed form of its own value: no two texts name the
      same key. */
  lemma {:induction false} ParseThenPrint(s: string)
    requires ParseIndex(s).Some?
    ensures NatToString(ParseIndex(s).value) == s
  {
    var v := DigitsValue(s);
    var last := DigitValue(s[|s| - 1]);
    DigitRoundTrip(s[|s| - 1]);
    if |s| == 1 {
      assert s[..|s| - 1] == [];
      assert v == DigitsValue([]) * 10 + last;
      assert s == [Digit(last)];
    } else {
      var p := s[..|s| - 1];
      assert p[0] == s[0];
      assert Canonical(p);
      LeadingDigitPositive(p);
      ParseThenPrint(p);
      assert v / 10 == DigitsValue(p) && v % 10 == last;
      assert s == p + [Digit(last)];
    }
  }

  // ---------------------------------------------------------------------------
  // String(v) and property keys

  /** String(v) for a parsed value, or None where the conversion throws a
      TypeError. Arrays join their elements with "," and print null elements as
      the empty text, as Array.prototype.join does. An object with an own
      `toString` field cannot be converted: a parsed field is never callable, so
      that field hides Object.prototype.toString, and the inherited valueOf
      returns the object itself. String(), `+` and the conversion to a property
      key all go through this same step. */
  function ToText(v: Json): Option<string>
    decreases v, if v.JArr? then |v.items| + 1 else 0
  {
    match v
    case JNull => Some("null")
    case JBool(b) => Some(if b then "true" else "false")
    case JInt(i) => Some(IntToString(i))
    case JNumber(t) => Some(t)
    case JStr(s) => Some(s)
    case JArr(items) => JoinFrom(v, 0)
    case JObj(fields) => if "toString" in fields then None else Some("[object Object]")
  }

  function JoinFrom(v: Json, k: nat): Option<string>
    requires v.JArr? && k <= |v.items|
    decreases v, |v.items| - k
  {
    if k == |v.items| then Some("")
    else
      var item := if v.items[k].JNull? then Some("") else ToText(v.items[k]);
      if item.None? then None
      else if k + 1 == |v.items| then item
      else match JoinFrom(v, k + 1)
        case None => None
        case Some(rest) => Some(item.value + "," + rest)
  }

  /** The text a possibly-undefined value turns into when it is used as a key or
      concatenated to a string; None where that throws. */
  function KeyText(v: Option<Json>): Option<string>
  {
    match v
    case None => Some("undefined")
    case Some(j) => ToText(j)
  }

  /** The numeric key that a value designates in an object whose keys are printed
      naturals, if any (None also where converting the value throws). */
  function KeyIndex(v: Option<Json>): Option<nat>
  {
    match KeyText(v)
    case None => None
    case Some(t) => ParseIndex(t)
  }

  /** The number n, the string "n" and the one-element array [n] all designate key n. */
  lemma KeyIndexOfId(n: nat)
    ensures KeyIndex(Some(JInt(n))) == Some(n)
    ensures KeyIndex(Some(JStr(NatToString(n)))) == Some(n)
    ensures KeyIndex(Some(JArr([JInt(n)]))) == Some(n)
  {
    PrintThenParse(n);
    assert ToText(JArr([JInt(n)])) == JoinFrom(JArr([JInt(n)]), 0) == Some(NatToString(n));
  }

  /** A value designates key n exactly when its text is the printed form of n. */
  lemma KeyIndexExact(v: Option<Json>, n: nat)
    ensures KeyIndex(v) == Some(n) <==> KeyText(v) == Some(NatToString(n))
  {
    PrintThenParse(n);
    if KeyIndex(v) == Some(n) {
      ParseThenPrint(KeyText(v).value);
    }
  }

  /** An object with an own `toString` field, or an array holding one, has no text:
      converting it throws. */
  lemma OwnToStringThrows(fields: map<string, Json>, before: seq<Json>)
    requires "toString" in fields
    ensures ToText(JObj(fields)) == None
    ensures ToText(JArr(before + [JObj(fields)])) == None
  {
    JoinThrowsFrom(JArr(before + [JObj(fields)]), 0, |before|);
  }

  lemma {:induction false} JoinThrowsFrom(v: Json, k: nat, at: nat)
    requires v.JArr? && k <= at < |v.items|
    requires !v.items[at].JNull? && ToText(v.items[at]) == None
    ensures JoinFrom(v, k) == None
    decreases at - k
  {
    if k < at {
      JoinThrowsFrom(v, k + 1, at);
    }
  }

  // ---------------------------------------------------------------------------
  // Enumerating numeric keys

  /** The members of `s` below `n`, in ascending order: the order in which
      Object.keys and Object.values list integer-like keys. */
  function IdsBelow(s: set<nat>, n: nat): (r: seq<nat>)
    ensures forall i :: 0 <= i < |r| ==> r[i] in s && r[i] < n
    ensures forall k :: k in s && k < n ==> k in r
    ensures forall i, j :: 0 <= i < j < |r| ==> r[i] < r[j]
  {
    if n == 0 then [] else IdsBelow(s, n - 1) + (if n - 1 in s then [n - 1] else [])
  }
}
