/** Decimal rendering of integers, as JavaScript's template literals print them,
    and the matching reader used to recover the counter part of a session id. */
module Decimal {

  predicate IsDigit(c: char) {
    '0' <= c <= '9'
  }

  predicate AllDigits(s: string) {
    forall i :: 0 <= i < |s| ==> IsDigit(s[i])
  }

  function DigitChar(d: nat): (c: char)
    requires d < 10
    ensures IsDigit(c)
  {
    ('0' as int + d) as char
  }

  function DigitValue(c: char): (d: nat)
    requires IsDigit(c)
    ensures d < 10
  {
    c as int - '0' as int
  }

  /** `${n}` for a non-negative integer: the shortest decimal numeral, no sign, no leading zeros. */
  function NatToString(n: nat): (s: string)
    ensures |s| > 0 && AllDigits(s)
    ensures |s| > 1 ==> s[0] != '0'
  {
    if n < 10 then [DigitChar(n)] else NatToString(n / 10) + [DigitChar(n % 10)]
  }

  /** `${i}` for any integer. */
  function IntToString(i: int): (s: string)
    ensures |s| > 0
    ensures (s[0] == '-') <==> i < 0
  {
    if i < 0 then "-" + NatToString(-i) else NatToString(i)
  }

  /** Reads a string of decimal digits back as a number. */
  function ParseNat(s: string): nat
    requires AllDigits(s)
  {
    if s == [] then 0 else 10 * ParseNat(s[..|s| - 1]) + DigitValue(s[|s| - 1])
  }

  lemma {:induction false} ParseNatToString(n: nat)
    ensures ParseNat(NatToString(n)) == n
  {
    var s := NatToString(n);
    if n >= 10 {
      var p := NatToString(n / 10);
      assert s == p + [DigitChar(n % 10)];
      assert s[..|s| - 1] == p;
      ParseNatToString(n / 10);
    }
  }

  lemma NatToStringInjective(a: nat, b: nat)
    ensures NatToString(a) == NatToString(b) <==> a == b
  {
    ParseNatToString(a);
    ParseNatToString(b);
  }

  lemma IntToStringInjective(a: int, b: int)
    ensures IntToString(a) == IntToString(b) <==> a == b
  {
    if IntToString(a) == IntToString(b) {
      if a < 0 {
        assert b < 0;
        assert IntToString(a)[1..] == NatToString(-a);
        assert IntToString(b)[1..] == NatToString(-b);
        NatToStringInjective(-a, -b);
      } else {
        assert b >= 0;
        NatToStringInjective(a, b);
      }
    }
  }
}

/** The outcome of an operation that may throw: the JavaScript `Error` is represented by its message. */
module Outcomes {

  datatype Option<+T> = None | Some(value: T) {
    function GetOr(default: T): T {
      match this
      case Some(v) => v
      case None => default
    }
  }

  datatype Outcome<+T> = Ok(value: T) | Err(message: string) {
    predicate IsFailure() {
      Err?
    }

    function PropagateFailure<U>(): Outcome<U>
      requires Err?
    {
      Err(message)
    }

    function Extract(): T
      requires Ok?
    {
      value
    }
  }
}

/** JavaScript values as far as the handshake touches them: what JSON.parse can produce,
    plus `undefined`, which property reads yield for missing members. */
module JsValues {
  import opened Decimal
  import opened Outcomes

  datatype Value =
    | Undefined
    | Null
    | Bool(b: bool)
    | Num(n: int)
    | Str(s: string)
    | Arr(items: seq<Value>)
    | Obj(fields: map<string, Value>)

  /** JavaScript truthiness (`if (v)`, `!v`, `v || w`). */
  predicate Truthy(v: Value): (b: bool)
    ensures !b <==> v in {Undefined, Null, Bool(false), Num(0), Str("")}
  {
    match v
    case Undefined => false
    case Null => false
    case Bool(b) => b
    case Num(n) => n != 0
    case Str(s) => s != ""
    case Arr(_) => true
    case Obj(_) => true
  }

  predicate Nullish(v: Value) {
    v.Undefined? || v.Null?
  }

  /** A value that JSON can carry: no `undefined` anywhere inside it. */
  predicate IsJson(v: Value) {
    match v
    case Undefined => false
    case Arr(items) => forall i :: 0 <= i < |items| ==> IsJson(items[i])
    case Obj(fields) => forall k :: k in fields ==> IsJson(fields[k])
    case _ => true
  }

  /** `v.key` on a value that is neither null nor undefined. None of the keys the handshake
      reads is a property of a primitive or of an array, so those read as undefined. */
  function Member(v: Value, key: string): (r: Value)
    ensures r != Undefined ==> v.Obj? && key in v.fields && v.fields[key] == r
  {
    if v.Obj? && key in v.fields then v.fields[key] else Undefined
  }

  /** The message V8 gives the TypeError thrown by `v.key` when v is null or undefined. */
  function TypeErrorMessage(v: Value, key: string): string
    requires Nullish(v)
  {
    "Cannot read properties of " + (if v.Null? then "null" else "undefined") + " (reading '" + key + "')"
  }

  /** `v.key`, which throws on null and undefined. */
  function Get(v: Value, key: string): (r: Outcome<Value>)
    ensures r.Err? <==> Nullish(v)
    ensures r.Ok? ==> r.value == Member(v, key)
  {
    if Nullish(v) then Err(TypeErrorMessage(v, key)) else Ok(Member(v, key))
  }

  /** `v?.key`: optional chaining yields undefined on null and undefined. */
  function OptionalMember(v: Value, key: string): (r: Value)
    ensures Nullish(v) ==> r == Undefined
  {
    if Nullish(v) then Undefined else Member(v, key)
  }

  /** An object member whose value is undefined is dropped by JSON.stringify, so a message
      is built directly as the value it serializes to. */
  function Present(key: string, v: Value): (m: map<string, Value>)
    ensures key in m <==> !v.Undefined?
    ensures key in m ==> m[key] == v
    ensures m.Keys <= {key}
  {
    if v.Undefined? then map[] else map[key := v]
  }

  function Join(parts: seq<string>, sep: string): string {
    if |parts| == 0 then "" else if |parts| == 1 then parts[0] else Join(parts[..|parts| - 1], sep) + sep + parts[|parts| - 1]
  }

  /** V8's TypeError text when a value has no primitive form. */
  const TO_PRIMITIVE_ERROR := "Cannot convert object to primitive value"

  /** Whether `${v}` throws. An object JSON gives that has its own `toString` member holds no
      function there, so the conversion goes on to `valueOf`, which gives the object back, and
      ends in a TypeError; an own `valueOf` member alone does no harm, since `toString` is tried
      first. An array throws when one of its elements does. */
  predicate ConversionThrows(v: Value) {
    match v
    case Obj(fields) => "toString" in fields
    case Arr(items) => exists i :: 0 <= i < |items| && ConversionThrows(items[i])
    case _ => false
  }

  /** Only a container can fail to convert, and every container is truthy; an object without
      its own `toString` renders as "[object Object]", and an array converts when each element does. */
  lemma ConversionThrowsMeaning(v: Value)
    ensures ConversionThrows(v) ==> (v.Obj? || v.Arr?) && Truthy(v)
    ensures v.Obj? ==> (ConversionThrows(v) <==> "toString" in v.fields)
    ensures v.Obj? && !ConversionThrows(v) ==> Display(v) == "[object Object]"
    ensures v.Arr? && !ConversionThrows(v) ==> forall i :: 0 <= i < |v.items| ==> !ConversionThrows(v.items[i])
  {
  }

  /** `String(v)`, as a template literal `${v}` renders it, for a value whose conversion does
      not throw. Arrays render as their elements joined with commas, null and undefined
      elements as empty text; every other object as "[object Object]". */
  function Display(v: Value): (s: string)
    requires !ConversionThrows(v)
    ensures v.Str? ==> s == v.s
    ensures s == "" ==> v.Str? || v.Arr?
  {
    match v
    case Undefined => "undefined"
    case Null => "null"
    case Bool(b) => if b then "true" else "false"
    case Num(n) => IntToString(n)
    case Str(s) => s
    case Arr(items) =>
      Join(seq(|items|, i requires 0 <= i < |items| => if Nullish(items[i]) then "" else Display(items[i])), ",")
    case Obj(_) => "[object Object]"
  }
}
