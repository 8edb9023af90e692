/** The encoding of log attributes as AnyValue in OTLP's JSON form, and what of a value it keeps. */
module Otlp {
  import opened Wire

  /** What a Go value of type any may hold; anything unforeseen is known by how fmt.Sprint prints it. */
  datatype GoValue =
    | Nil
    | Str(text: string)
    | Bool(b: bool)
    | Int(n: int)
    | Int64(n: int)
    | Float64(x: real)
    | Float32(x: real)
    | Object(fields: map<string, GoValue>)
    | Array(items: seq<GoValue>)
    | Other(printed: string)

  datatype Attribute = Attribute(key: string, value: AnyValue)

  datatype AnyValue =
    | StringValue(text: string)
    | BoolValue(b: bool)
    | IntValue(digits: string)
    | DoubleValue(x: real)
    | KvlistValue(attributes: seq<Attribute>)
    | ArrayValue(values: seq<AnyValue>)

  /* ----- Integers travel as decimal strings ----- */

  function Digit(d: nat): char
    requires d < 10
  {
    '0' + d as char
  }

  function Digits(n: nat): (s: string)
    ensures s != []
  {
    if n < 10 then [Digit(n)] else Digits(n / 10) + [Digit(n % 10)]
  }

  function Itoa(n: int): string {
    if n < 0 then "-" + Digits(-n) else Digits(n)
  }

  function ParseDigits(s: string): Option<nat> {
    if s == "" || !('0' <= s[|s| - 1] <= '9') then None
    else
      var last := (s[|s| - 1] - '0') as nat;
      if |s| == 1 then Some(last)
      else match ParseDigits(s[..|s| - 1]) case None => None case Some(n) => Some(10 * n + last)
  }

  function ParseInt(s: string): Option<int> {
    if s != "" && s[0] == '-' then
      match ParseDigits(s[1..]) case None => None case Some(n) => Some(0 - n as int)
    else
      match ParseDigits(s) case None => None case Some(n) => Some(n)
  }

  lemma {:induction false} DigitsRoundTrip(n: nat)
    ensures ParseDigits(Digits(n)) == Some(n) && Digits(n)[0] != '-'
    ensures Digits(n)[0] == '0' <==> n == 0
  {
    if n >= 10 {
      DigitsRoundTrip(n / 10);
      assert Digits(n)[..|Digits(n)| - 1] == Digits(n / 10);
    }
  }

  lemma ParsesNegative(s: string, n: nat)
    requires ParseDigits(s) == Some(n)
    ensures ParseInt("-" + s) == Some(0 - n as int)
  {
  }

  lemma ParsesPositive(s: string, n: nat)
    requires ParseDigits(s) == Some(n) && s != "" && s[0] != '-'
    ensures ParseInt(s) == Some(n)
  {
  }

  /** A whole number is recovered from its string, which has a sign only if it is negative and no leading zero. */
  lemma IntRoundTrip(n: int)
    ensures ParseInt(Itoa(n)) == Some(n)
    ensures (Itoa(n)[..1] == "-" <==> n < 0) && (Itoa(n)[..1] == "0" <==> n == 0)
    ensures n < 0 ==> Itoa(n)[1] != '0'
  {
    if n < 0 {
      DigitsRoundTrip(-n);
      ParsesNegative(Digits(-n), -n);
    } else {
      DigitsRoundTrip(n);
      ParsesPositive(Digits(n), n);
    }
  }

  /* ----- The encoding, for any order in which a map may be traversed ----- */

  /** The attributes carry every key of the map once. */
  ghost predicate ListsOnce(attributes: seq<Attribute>, keys: set<string>) {
    && (forall i :: 0 <= i < |attributes| ==> attributes[i].key in keys)
    && (forall i, j :: 0 <= i < j < |attributes| ==> attributes[i].key != attributes[j].key)
    && (forall k :: k in keys ==> exists i :: 0 <= i < |attributes| && attributes[i].key == k)
  }

  ghost predicate Encodes(v: GoValue, a: AnyValue) {
    match v
    case Nil => a == StringValue("")
    case Str(text) => a == StringValue(text)
    case Bool(b) => a == BoolValue(b)
    case Int(n) => a == IntValue(Itoa(n))
    case Int64(n) => a == IntValue(Itoa(n))
    case Float64(x) => a == DoubleValue(x)
    case Float32(x) => a == DoubleValue(x)
    case Object(fields) =>
      && a.KvlistValue? && ListsOnce(a.attributes, fields.Keys)
      && forall i :: 0 <= i < |a.attributes| ==> Encodes(fields[a.attributes[i].key], a.attributes[i].value)
    case Array(items) =>
      && a.ArrayValue? && |a.values| == |items|
      && forall i :: 0 <= i < |items| ==> Encodes(items[i], a.values[i])
    case Other(printed) => a == StringValue(printed)
  }

  method EncodeValue(v: GoValue) returns (a: AnyValue)
    ensures Encodes(v, a)
    decreases v, 1
  {
    match v {
      case Nil => a := StringValue("");
      case Str(text) => a := StringValue(text);
      case Bool(b) => a := BoolValue(b);
      case Int(n) => a := IntValue(Itoa(n));
      case Int64(n) => a := IntValue(Itoa(n));
      case Float64(x) => a := DoubleValue(x);
      case Float32(x) => a := DoubleValue(x);
      case Object(fields) => a := EncodeObject(v);
      case Array(items) => a := EncodeArray(v);
      case Other(printed) => a := StringValue(printed);
    }
  }

  /** The keys are taken in no particular order. */
  method EncodeObject(v: GoValue) returns (a: AnyValue)
    requires v.Object?
    ensures Encodes(v, a)
    decreases v, 0
  {
    var attributes: seq<Attribute>, left := [], v.fields.Keys;
    while left != {}
      invariant left <= v.fields.Keys
      invariant ListsOnce(attributes, v.fields.Keys - left)
      invariant forall i :: 0 <= i < |attributes| ==> Encodes(v.fields[attributes[i].key], attributes[i].value)
      decreases left
    {
      var key :| key in left;
      var value := EncodeValue(v.fields[key]);
      ListsOneMore(attributes, v.fields.Keys - left, Attribute(key, value));
      attributes := attributes + [Attribute(key, value)];
      left := left - {key};
      assert v.fields.Keys - left == v.fields.Keys - (left + {key}) + {key};
    }
    assert v.fields.Keys - left == v.fields.Keys;
    a := KvlistValue(attributes);
  }

  lemma ListsOneMore(attributes: seq<Attribute>, keys: set<string>, next: Attribute)
    requires ListsOnce(attributes, keys) && next.key !in keys
    ensures ListsOnce(attributes + [next], keys + {next.key})
  {
    var more := attributes + [next];
    forall k | k in keys + {next.key} ensures exists i :: 0 <= i < |more| && more[i].key == k {
      if k in keys {
        var i :| 0 <= i < |attributes| && attributes[i].key == k;
        assert more[i].key == k;
      } else {
        assert more[|attributes|].key == k;
      }
    }
  }

  method EncodeArray(v: GoValue) returns (a: AnyValue)
    requires v.Array?
    ensures Encodes(v, a)
    decreases v, 0
  {
    var values := [];
    for i := 0 to |v.items|
      invariant |values| == i
      invariant forall j :: 0 <= j < i ==> Encodes(v.items[j], values[j])
    {
      var value := EncodeValue(v.items[i]);
      values := values + [value];
    }
    a := ArrayValue(values);
  }

  /* ----- Decoding ----- */

  /** A reader of the format; it knows only one kind of integer and one of floating-point number. */
  function Decode(a: AnyValue): Option<GoValue> {
    match a
    case StringValue(text) => Some(Str(text))
    case BoolValue(b) => Some(Bool(b))
    case IntValue(digits) => (match ParseInt(digits) case None => None case Some(n) => Some(Int64(n)))
    case DoubleValue(x) => Some(Float64(x))
    case KvlistValue(attributes) =>
      var values := seq(|attributes|, i requires 0 <= i < |attributes| => Decode(attributes[i].value));
      (match Collect(attributes, values) case None => None case Some(fields) => Some(Object(fields)))
    case ArrayValue(values) =>
      if forall i :: 0 <= i < |values| ==> Decode(values[i]).Some? then
        Some(Array(seq(|values|, i requires 0 <= i < |values| => Decode(values[i]).value)))
      else None
  }

  /** The attributes as a map, if all of their values could be decoded. */
  function Collect(attributes: seq<Attribute>, values: seq<Option<GoValue>>): Option<map<string, GoValue>>
    requires |attributes| == |values|
  {
    if attributes == [] then Some(map[])
    else
      var n := |attributes| - 1;
      match (Collect(attributes[..n], values[..n]), values[n])
      case (Some(fields), Some(value)) => Some(fields[attributes[n].key := value])
      case _ => None
  }

  /** What the format does not distinguish: nil and "", the integer types, the floating-point types, and printed values and strings. */
  function Canon(v: GoValue): GoValue {
    match v
    case Nil => Str("")
    case Int(n) => Int64(n)
    case Float32(x) => Float64(x)
    case Object(fields) => Object(map k | k in fields :: Canon(fields[k]))
    case Array(items) => Array(seq(|items|, i requires 0 <= i < |items| => Canon(items[i])))
    case Other(printed) => Str(printed)
    case _ => v
  }

  /** Decoding recovers every value, however nested and in whatever order its maps were traversed. */
  lemma {:induction false} DecodeInvertsEncode(v: GoValue, a: AnyValue)
    requires Encodes(v, a)
    ensures Decode(a) == Some(Canon(v))
    decreases v
  {
    match v {
      case Int(n) => IntRoundTrip(n);
      case Int64(n) => IntRoundTrip(n);
      case Object(fields) =>
        forall i | 0 <= i < |a.attributes|
          ensures Decode(a.attributes[i].value) == Some(Canon(fields[a.attributes[i].key]))
        {
          DecodeInvertsEncode(fields[a.attributes[i].key], a.attributes[i].value);
        }
        var values := seq(|a.attributes|, i requires 0 <= i < |a.attributes| => Decode(a.attributes[i].value));
        assert Canon(v).fields.Keys == fields.Keys;
        AllCarriedIsEqual(a.attributes, values, Canon(v).fields);
      case Array(items) =>
        forall i | 0 <= i < |items| ensures Decode(a.values[i]) == Some(Canon(items[i])) {
          DecodeInvertsEncode(items[i], a.values[i]);
        }
        assert Canon(v).items == seq(|items|, i requires 0 <= i < |items| => Decode(a.values[i]).value);
      case _ =>
    }
  }

  /** Every attribute carries its key's value in the map. */
  ghost predicate Carries(attributes: seq<Attribute>, values: seq<Option<GoValue>>, fields: map<string, GoValue>) {
    && |attributes| == |values|
    && forall i :: 0 <= i < |attributes| ==> attributes[i].key in fields && values[i] == Some(fields[attributes[i].key])
  }

  lemma {:induction false} CarriedIsCollected(attributes: seq<Attribute>, values: seq<Option<GoValue>>, fields: map<string, GoValue>)
    requires Carries(attributes, values, fields)
    ensures Collect(attributes, values).Some?
    ensures var collected := Collect(attributes, values).value;
      && (forall k :: k in collected ==> k in fields && collected[k] == fields[k])
      && (forall i :: 0 <= i < |attributes| ==> attributes[i].key in collected)
  {
    if attributes != [] {
      var n := |attributes| - 1;
      CarriedIsCollected(attributes[..n], values[..n], fields);
      assert forall i :: 0 <= i < n ==> attributes[..n][i] == attributes[i];
    }
  }

  lemma AllCarriedIsEqual(attributes: seq<Attribute>, values: seq<Option<GoValue>>, fields: map<string, GoValue>)
    requires Carries(attributes, values, fields) && ListsOnce(attributes, fields.Keys)
    ensures Collect(attributes, values) == Some(fields)
  {
    CarriedIsCollected(attributes, values, fields);
    var collected := Collect(attributes, values).value;
    forall k | k in fields ensures k in collected {
      var i :| 0 <= i < |attributes| && attributes[i].key == k;
    }
    assert collected == fields;
  }

  /** An encoding cannot tell a value from its canonical form. */
  lemma {:induction false} CanonEncodesAlike(v: GoValue, a: AnyValue)
    ensures Encodes(v, a) <==> Encodes(Canon(v), a)
    decreases v
  {
    match v {
      case Object(fields) =>
        assert Canon(v).fields.Keys == fields.Keys;
        if a.KvlistValue? && ListsOnce(a.attributes, fields.Keys) {
          forall i | 0 <= i < |a.attributes|
            ensures Encodes(fields[a.attributes[i].key], a.attributes[i].value)
              <==> Encodes(Canon(fields[a.attributes[i].key]), a.attributes[i].value)
          {
            CanonEncodesAlike(fields[a.attributes[i].key], a.attributes[i].value);
          }
        }
      case Array(items) =>
        if a.ArrayValue? && |a.values| == |items| {
          forall i | 0 <= i < |items| ensures Encodes(items[i], a.values[i]) <==> Encodes(Canon(items[i]), a.values[i]) {
            CanonEncodesAlike(items[i], a.values[i]);
          }
        }
      case _ =>
    }
  }

  /** Two values may be encoded alike exactly when they have the same canonical form. */
  lemma EncodedAlikeIff(v: GoValue, w: GoValue, a: AnyValue)
    requires Encodes(v, a)
    ensures Encodes(w, a) <==> Canon(v) == Canon(w)
  {
    DecodeInvertsEncode(v, a);
    CanonEncodesAlike(v, a);
    CanonEncodesAlike(w, a);
    if Encodes(w, a) {
      DecodeInvertsEncode(w, a);
    }
  }
}
