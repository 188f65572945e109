/** Firestore's typed wire form of JSON values, and back. */
module Firestore {
  import opened Wrappers
  import opened Documents

  // ----- Integers as decimal text -----

  function DigitChar(d: nat): (c: char)
    requires d < 10
    ensures '0' <= c <= '9'
  {
    ('0' as int + d) as char
  }

  predicate IsDigit(c: char) { '0' <= c <= '9' }

  function DigitValue(c: char): nat
    requires IsDigit(c)
  {
    c as int - '0' as int
  }

  function Digits(n: nat): string {
    if n < 10 then [DigitChar(n)] else Digits(n / 10) + [DigitChar(n % 10)]
  }

  function Decimal(n: int): string {
    if n < 0 then "-" + Digits(-n) else Digits(n)
  }

  function ParseDigits(s: string): Option<nat> {
    if s == [] || !IsDigit(s[|s| - 1]) then None
    else if |s| == 1 then Some(DigitValue(s[0]))
    else
      var high := ParseDigits(s[..|s| - 1]);
      if high.None? then None else Some(10 * high.value + DigitValue(s[|s| - 1]))
  }

  function ParseDecimal(s: string): Option<int> {
    if s != [] && s[0] in "+-" then
      var magnitude := ParseDigits(s[1..]);
      if magnitude.None? then None else Some(var n: int := magnitude.value; if s[0] == '-' then -n else n)
    else
      var magnitude := ParseDigits(s);
      if magnitude.None? then None else Some(magnitude.value)
  }

  // int() of a decoded JSON value; anything without an integer reading raises.
  function ToInt(j: Json): Option<int> {
    match j
    case Str(s) => ParseDecimal(s)
    case Int(n) => Some(n)
    case Bool(b) => Some(if b then 1 else 0)
    case Float(r) => Some(Truncate(r))
    case _ => None
  }

  // ----- Values -----

  function ToValue(v: Json): Doc {
    match v
    case Null => map["nullValue" := Null]
    case Bool(_) => map["booleanValue" := v]
    case Int(n) => map["integerValue" := Str(Decimal(n))]
    case Float(_) => map["doubleValue" := v]
    case Str(_) => map["stringValue" := v]
    case List(items) =>
      var values := seq(|items|, i requires 0 <= i < |items| => Obj(ToValue(items[i])));
      map["arrayValue" := Obj(map["values" := List(values)])]
    case Obj(fields) =>
      map["mapValue" := Obj(map["fields" := Obj(map k | k in fields :: Obj(ToValue(fields[k])))])]
  }

  // None stands for an exception: an unreadable integer, or a part of the wrong kind.
  function FromValue(v: Doc): Option<Json>
    decreases Obj(v), 0
  {
    if "nullValue" in v then Some(Null)
    else if "booleanValue" in v then Some(v["booleanValue"])
    else if "integerValue" in v then
      var n := ToInt(v["integerValue"]);
      if n.None? then None else Some(Int(n.value))
    else if "doubleValue" in v then Some(v["doubleValue"])
    else if "stringValue" in v then Some(v["stringValue"])
    else if "timestampValue" in v then Some(v["timestampValue"])
    else if "arrayValue" in v then
      if !v["arrayValue"].Obj? then None
      else if "values" !in v["arrayValue"].fields then Some(List([]))
      else FromValues(v["arrayValue"].fields["values"])
    else if "mapValue" in v then
      if !v["mapValue"].Obj? then None
      else if "fields" !in v["mapValue"].fields then Some(Obj(map[]))
      else FromFields(v["mapValue"].fields["fields"])
    else Some(Null)
  }

  function FromValues(j: Json): Option<Json> {
    if !j.List? || exists i | 0 <= i < |j.items| :: FromElement(j.items[i]).None? then None
    else Some(List(seq(|j.items|, i requires 0 <= i < |j.items| => FromElement(j.items[i]).value)))
  }

  function FromFields(j: Json): Option<Json> {
    if !j.Obj? || exists k | k in j.fields :: FromElement(j.fields[k]).None? then None
    else Some(Obj(map k | k in j.fields :: FromElement(j.fields[k]).value))
  }

  function FromElement(j: Json): Option<Json>
    decreases j, 1
  {
    if j.Obj? then FromValue(j.fields) else None
  }

  // ----- The round trip -----

  lemma {:induction false} ParseDigitsRoundTrip(n: nat)
    ensures ParseDigits(Digits(n)) == Some(n) && IsDigit(Digits(n)[0])
  {
    if n >= 10 {
      ParseDigitsRoundTrip(n / 10);
      assert Digits(n)[..|Digits(n)| - 1] == Digits(n / 10);
    }
  }

  lemma DecimalRoundTrip(n: int)
    ensures ParseDecimal(Decimal(n)) == Some(n)
  {
    var digits := Digits(if n < 0 then -n else n);
    ParseDigitsRoundTrip(if n < 0 then -n else n);
    if n < 0 {
      assert Decimal(n) == "-" + digits;
      assert Decimal(n)[1..] == digits && Decimal(n)[0] == '-';
    } else {
      assert Decimal(n) == digits && IsDigit(digits[0]);
    }
  }

  // Decoding an encoded value gives the value back, for every JSON tree.
  lemma {:induction false} ValueRoundTrip(v: Json)
    ensures FromValue(ToValue(v)) == Some(v)
  {
    match v
    case Int(n) => DecimalRoundTrip(n);
    case List(items) =>
      var encoded := ToValue(v)["arrayValue"].fields["values"];
      forall i | 0 <= i < |items| ensures FromElement(encoded.items[i]) == Some(items[i]) {
        ValueRoundTrip(items[i]);
      }
      assert FromValues(encoded) == Some(v) by {
        assert FromValues(encoded).value.items == items;
      }
    case Obj(fields) =>
      var encoded := ToValue(v)["mapValue"].fields["fields"];
      forall k | k in fields ensures FromElement(encoded.fields[k]) == Some(fields[k]) {
        ValueRoundTrip(fields[k]);
      }
      assert FromFields(encoded) == Some(v) by {
        assert FromFields(encoded).value.fields == fields;
      }
    case _ =>
  }

  // ----- The wire forms that encoding produces -----

  // Decimal text without a plus sign, a redundant zero or a negative zero.
  predicate PlainDigits(s: string) {
    s != [] && (forall i | 0 <= i < |s| :: IsDigit(s[i])) && (|s| > 1 ==> s[0] != '0')
  }

  predicate PlainDecimal(s: string) {
    PlainDigits(s) || (|s| > 1 && s[0] == '-' && PlainDigits(s[1..]) && s[1..] != "0")
  }

  predicate PlainElement(j: Json)
    decreases j, 1
  {
    j.Obj? && Plain(j.fields)
  }

  // One known key, holding the kind of content that key announces.
  predicate Plain(w: Doc)
    decreases Obj(w), 0
  {
    || w == map["nullValue" := Null]
    || (w.Keys == {"booleanValue"} && w["booleanValue"].Bool?)
    || (w.Keys == {"integerValue"} && w["integerValue"].Str? && PlainDecimal(w["integerValue"].s))
    || (w.Keys == {"doubleValue"} && w["doubleValue"].Float?)
    || (w.Keys == {"stringValue"} && w["stringValue"].Str?)
    || (&& w.Keys == {"arrayValue"} && w["arrayValue"].Obj? && w["arrayValue"].fields.Keys == {"values"}
        && w["arrayValue"].fields["values"].List?
        && forall i | 0 <= i < |w["arrayValue"].fields["values"].items| ::
             PlainElement(w["arrayValue"].fields["values"].items[i]))
    || (&& w.Keys == {"mapValue"} && w["mapValue"].Obj? && w["mapValue"].fields.Keys == {"fields"}
        && w["mapValue"].fields["fields"].Obj?
        && forall k | k in w["mapValue"].fields["fields"].fields ::
             PlainElement(w["mapValue"].fields["fields"].fields[k]))
  }

  lemma {:induction false} DigitsArePlain(n: nat)
    ensures PlainDigits(Digits(n)) && (n > 0 ==> Digits(n)[0] != '0')
  {
    if n >= 10 {
      DigitsArePlain(n / 10);
    }
  }

  lemma {:induction false} PlainDigitsParse(s: string)
    requires PlainDigits(s)
    ensures ParseDigits(s).Some? && Digits(ParseDigits(s).value) == s
    ensures s != "0" ==> ParseDigits(s).value > 0
  {
    if |s| > 1 {
      var init := s[..|s| - 1];
      PlainDigitsParse(init);
      assert init != "0";
      var high, low := ParseDigits(init).value, DigitValue(s[|s| - 1]);
      assert (10 * high + low) / 10 == high && (10 * high + low) % 10 == low;
      assert s == init + [s[|s| - 1]];
    }
  }

  lemma PlainDecimalRoundTrip(s: string)
    requires PlainDecimal(s)
    ensures ParseDecimal(s).Some? && Decimal(ParseDecimal(s).value) == s
  {
    if s[0] == '-' {
      PlainDigitsParse(s[1..]);
      assert s == "-" + s[1..];
    } else {
      PlainDigitsParse(s);
    }
  }

  lemma {:induction false} EncodingIsPlain(v: Json)
    ensures Plain(ToValue(v))
  {
    match v
    case Int(n) =>
      DigitsArePlain(if n < 0 then -n else n);
      if n < 0 {
        assert Decimal(n)[1..] == Digits(-n);
      }
    case List(items) =>
      forall i | 0 <= i < |items| ensures Plain(ToValue(items[i])) {
        EncodingIsPlain(items[i]);
      }
    case Obj(fields) =>
      forall k | k in fields ensures Plain(ToValue(fields[k])) {
        EncodingIsPlain(fields[k]);
      }
    case _ =>
  }

  // On plain wire forms the decoder is the other half of a bijection.
  lemma {:induction false} WireRoundTrip(w: Doc)
    requires Plain(w)
    ensures FromValue(w).Some? && ToValue(FromValue(w).value) == w
    decreases Obj(w)
  {
    if "integerValue" in w {
      PlainDecimalRoundTrip(w["integerValue"].s);
    } else if "arrayValue" in w {
      var encoded := w["arrayValue"].fields["values"];
      forall i | 0 <= i < |encoded.items|
        ensures var e := FromElement(encoded.items[i]); e.Some? && Obj(ToValue(e.value)) == encoded.items[i]
      {
        assert PlainElement(encoded.items[i]);
        WireRoundTrip(encoded.items[i].fields);
      }
      var decoded := FromValues(encoded).value;
      assert ToValue(decoded)["arrayValue"].fields["values"].items == encoded.items;
      assert ToValue(decoded)["arrayValue"].fields == w["arrayValue"].fields;
    } else if "mapValue" in w {
      var encoded := w["mapValue"].fields["fields"];
      forall k | k in encoded.fields
        ensures var e := FromElement(encoded.fields[k]); e.Some? && Obj(ToValue(e.value)) == encoded.fields[k]
      {
        assert PlainElement(encoded.fields[k]);
        WireRoundTrip(encoded.fields[k].fields);
      }
      var decoded := FromFields(encoded).value;
      assert ToValue(decoded)["mapValue"].fields["fields"].fields == encoded.fields;
      assert ToValue(decoded)["mapValue"].fields == w["mapValue"].fields;
    }
  }

  const KINDS := {"nullValue", "booleanValue", "integerValue", "doubleValue", "stringValue", "timestampValue",
                  "arrayValue", "mapValue"}

  // What the store sends beyond what the encoder produces: timestamps as text, empty
  // lists and mappings without their content, kinds the decoder does not know, and
  // integers as numbers, cut toward zero, or as text with a sign.
  lemma ServerForms(text: string, n: nat, r: real, v: Doc)
    ensures FromValue(map["timestampValue" := Str(text)]) == Some(Str(text))
    ensures FromValue(map["arrayValue" := Obj(map[])]) == Some(List([]))
    ensures FromValue(map["mapValue" := Obj(map[])]) == Some(Obj(map[]))
    ensures v.Keys !! KINDS ==> FromValue(v) == Some(Null)
    ensures FromValue(map["integerValue" := Int(n)]) == Some(Int(n))
    ensures FromValue(map["integerValue" := Bool(true)]) == Some(Int(1))
    ensures 0.0 <= r ==> FromValue(map["integerValue" := Float(r)]) == Some(Int(r.Floor))
    ensures 0.0 <= r ==> FromValue(map["integerValue" := Float(-r)]) == Some(Int(-r.Floor))
    ensures FromValue(map["integerValue" := Str("+" + Digits(n))]) == Some(Int(n))
    ensures FromValue(map["integerValue" := Null]) == None
  {
    ParseDigitsRoundTrip(n);
    assert ("+" + Digits(n))[1..] == Digits(n);
  }
}
