/** The JavaScript values that cross the bridge, with the few language
    operations the bridge applies to them: truthiness, `typeof`, `String(v)`,
    `Number(v)`, property reads, `Math.max`/`Math.min`, `+` on numbers, and
    what a trip through `JSON.stringify` and `JSON.parse` does to a value.
    Numbers are integers; `NaN` is kept because numeric coercion produces it. */
module JsValue {
  import opened Wrappers
  import Decimal

  datatype Value =
    | Undefined
    | Null
    | Bool(b: bool)
    | Num(n: int)
    | NaN
    | Str(s: string)
    | Arr(elems: seq<Value>)
    | Obj(props: map<string, Value>)

  /** JavaScript truthiness: exactly `undefined`, `null`, `false`, `0`, `NaN`
      and `""` are falsy; every array and every object is truthy. */
  function Truthy(v: Value): (t: bool)
    ensures !t <==> v in {Undefined, Null, Bool(false), Num(0), NaN, Str("")}
  {
    match v
    case Undefined => false
    case Null => false
    case Bool(b) => b
    case Num(n) => n != 0
    case NaN => false
    case Str(s) => s != ""
    case Arr(_) => true
    case Obj(_) => true
  }

  predicate IsNullish(v: Value) {
    v.Undefined? || v.Null?
  }

  predicate IsNumber(v: Value) {
    v.Num? || v.NaN?
  }

  /** The `typeof` operator. */
  function TypeOf(v: Value): (t: string)
    ensures t == "number" <==> IsNumber(v)
    ensures t == "undefined" <==> v.Undefined?
  {
    match v
    case Undefined => "undefined"
    case Null => "object"
    case Bool(_) => "boolean"
    case Num(_) => "number"
    case NaN => "number"
    case Str(_) => "string"
    case Arr(_) => "object"
    case Obj(_) => "object"
  }

  /** The message of the TypeError that converting an object to a primitive
      throws when neither `toString` nor `valueOf` yields one. */
  const ToPrimitiveError: string := "Cannot convert object to primitive value"

  /** Whether converting `v` to text or to a number throws. A parsed object
      with an own `toString` member hides the callable one it inherits, and
      the inherited `valueOf` returns the object itself, so neither yields a
      primitive. An array converts through `join`, that is through each of
      its elements. Own members named otherwise (`valueOf` included) leave
      the inherited `toString` in charge, which does not throw. */
  predicate ConversionThrows(v: Value)
    decreases v
  {
    match v
    case Obj(props) => "toString" in props
    case Arr(es) => exists i :: 0 <= i < |es| && ConversionThrows(es[i])
    case _ => false
  }

  /** `parts.join(sep)`. */
  function Join(parts: seq<string>, sep: string): string {
    if |parts| == 0 then ""
    else if |parts| == 1 then parts[0]
    else Join(parts[..|parts| - 1], sep) + sep + parts[|parts| - 1]
  }

  /** The text of a plain object. */
  const ObjectText: string := "[object Object]"

  /** The text of a value whose conversion does not throw. Arrays join their
      elements with ',', writing `null` and `undefined` elements as empty
      text; an object is "[object Object]". */
  function Text(v: Value): string
    decreases v
  {
    match v
    case Undefined => "undefined"
    case Null => "null"
    case Bool(b) => if b then "true" else "false"
    case Num(n) => Decimal.IntToString(n)
    case NaN => "NaN"
    case Str(s) => s
    case Arr(es) =>
      Join(seq(|es|, i requires 0 <= i < |es| =>
                 if IsNullish(es[i]) then "" else Text(es[i])), ",")
    case Obj(_) => ObjectText
  }

  /** `String(v)`, which is also what a template literal `${v}` inserts. */
  function ToString(v: Value): (r: Result<string>)
    ensures r.Failure? <==> ConversionThrows(v)
    ensures r.Failure? ==> r.error == ToPrimitiveError
    ensures v.Str? ==> r == Success(v.s)
    ensures v.Num? ==> r == Success(Decimal.IntToString(v.n))
    ensures v == Undefined ==> r == Success("undefined")
    ensures v == Null ==> r == Success("null")
    ensures v.Bool? ==> r == Success(if v.b then "true" else "false")
    ensures v == NaN ==> r == Success("NaN")
    ensures v.Obj? && !ConversionThrows(v) ==> r == Success(ObjectText)
    ensures v.Arr? && !ConversionThrows(v) ==>
              r == Success(Join(seq(|v.elems|, i requires 0 <= i < |v.elems| =>
                                      if IsNullish(v.elems[i]) then "" else ToString(v.elems[i]).value), ","))
    decreases v
  {
    if ConversionThrows(v) then Failure(ToPrimitiveError)
    else
      assert v.Arr? ==> Text(v) == Join(seq(|v.elems|, i requires 0 <= i < |v.elems| =>
                                              if IsNullish(v.elems[i]) then "" else ToString(v.elems[i]).value), ",") by {
        if v.Arr? {
          var es := v.elems;
          var texts := seq(|es|, i requires 0 <= i < |es| => if IsNullish(es[i]) then "" else Text(es[i]));
          var strings := seq(|es|, i requires 0 <= i < |es| => if IsNullish(es[i]) then "" else ToString(es[i]).value);
          forall i | 0 <= i < |es| ensures texts[i] == strings[i] {
            assert !ConversionThrows(es[i]);
          }
          assert texts == strings;
        }
      }
      Success(Text(v))
  }

  /** `${[1, null, 2]}`: the null element leaves an empty field. */
  lemma ArrayTextExample()
    ensures ToString(Arr([Num(1), Null, Num(2)])) == Success("1,,2")
  {
    var es := [Num(1), Null, Num(2)];
    assert !ConversionThrows(Arr(es)) by {
      assert forall i :: 0 <= i < |es| ==> !ConversionThrows(es[i]);
    }
    var parts := seq(|es|, i requires 0 <= i < |es| => if IsNullish(es[i]) then "" else Text(es[i]));
    assert Decimal.IntToString(1) == "1" && Decimal.IntToString(2) == "2";
    assert parts == ["1", "", "2"];
    assert parts[..2] == ["1", ""] && ["1", ""][..1] == ["1"];
    assert Join(["1", ""], ",") == "1,";
    assert Text(Arr(es)) == Join(parts, ",") == "1,,2";
  }

  /** The characters `Number(text)` ignores at either end of its argument
      (white space and line terminators). */
  predicate IsWhiteSpace(c: char) {
    c in {'\t', '\n', '\U{000B}', '\U{000C}', '\r', ' ', '\U{00A0}', '\U{1680}',
          '\U{2000}', '\U{2001}', '\U{2002}', '\U{2003}', '\U{2004}', '\U{2005}', '\U{2006}',
          '\U{2007}', '\U{2008}', '\U{2009}', '\U{200A}', '\U{2028}', '\U{2029}', '\U{202F}',
          '\U{205F}', '\U{3000}', '\U{FEFF}'}
  }

  predicate AllWhiteSpace(s: string) {
    forall i :: 0 <= i < |s| ==> IsWhiteSpace(s[i])
  }

  /** The number of white-space characters the text starts with. */
  function LeadingWhiteSpace(s: string): (k: nat)
    ensures k <= |s| && AllWhiteSpace(s[..k])
    ensures k == |s| || !IsWhiteSpace(s[k])
  {
    if s != [] && IsWhiteSpace(s[0]) then
      var k := 1 + LeadingWhiteSpace(s[1..]);
      WhiteSpacePrefix(s, k);
      k
    else 0
  }

  /** A white-space character followed by white space. */
  lemma WhiteSpacePrefix(s: string, k: nat)
    requires 0 < k <= |s| && IsWhiteSpace(s[0]) && AllWhiteSpace(s[1..][..k - 1])
    ensures AllWhiteSpace(s[..k])
  {
    forall i | 0 <= i < k
      ensures IsWhiteSpace(s[..k][i])
    {
      if i > 0 {
        assert s[..k][i] == s[1..][..k - 1][i - 1];
      }
    }
  }

  /** Removes the leading white space, and only that. */
  function TrimStart(s: string): (t: string)
    ensures |t| <= |s| && t == s[|s| - |t|..]
    ensures AllWhiteSpace(s[..|s| - |t|])
    ensures t == [] || !IsWhiteSpace(t[0])
  {
    s[LeadingWhiteSpace(s)..]
  }

  /** The number of white-space characters the text ends with. */
  function TrailingWhiteSpace(s: string): (k: nat)
    ensures k <= |s| && AllWhiteSpace(s[|s| - k..])
    ensures k == |s| || !IsWhiteSpace(s[|s| - k - 1])
  {
    if s != [] && IsWhiteSpace(s[|s| - 1]) then
      var k := 1 + TrailingWhiteSpace(s[..|s| - 1]);
      WhiteSpaceSuffix(s, k);
      k
    else 0
  }

  /** White space followed by a white-space character. */
  lemma WhiteSpaceSuffix(s: string, k: nat)
    requires 0 < k <= |s| && IsWhiteSpace(s[|s| - 1]) && AllWhiteSpace(s[..|s| - 1][|s| - k..])
    ensures AllWhiteSpace(s[|s| - k..])
  {
    var t, u := s[|s| - k..], s[..|s| - 1][|s| - k..];
    forall i | 0 <= i < k
      ensures IsWhiteSpace(t[i])
    {
      if i < k - 1 {
        assert t[i] == u[i];
      }
    }
  }

  /** Removes the trailing white space, and only that. */
  function TrimEnd(s: string): (t: string)
    ensures |t| <= |s| && t == s[..|t|]
    ensures AllWhiteSpace(s[|t|..])
    ensures t == [] || !IsWhiteSpace(t[|t| - 1])
  {
    s[..|s| - TrailingWhiteSpace(s)]
  }

  function Trim(s: string): string {
    TrimEnd(TrimStart(s))
  }

  /** Text `Number(text)` reads as an integer: decimal digits (leading zeros
      allowed), optionally after one sign. The empty text is included. */
  predicate IsIntegerLiteral(t: string) {
    Decimal.AllDigits(t) ||
    (|t| > 1 && (t[0] == '-' || t[0] == '+') && Decimal.AllDigits(t[1..]))
  }

  /** `Number(text)` for text that, once trimmed, is empty (zero) or an
      optionally signed run of decimal digits; any other text reads as NaN. */
  function StringToNumber(s: string): (r: Value)
    ensures IsNumber(r)
    ensures r.NaN? <==> !IsIntegerLiteral(Trim(s))
    ensures var t := Trim(s);
            (t == [] ==> r == Num(0)) &&
            (Decimal.AllDigits(t) ==> r == Num(Decimal.ParseDigits(t))) &&
            (|t| > 1 && t[0] == '+' && Decimal.AllDigits(t[1..]) ==> r == Num(Decimal.ParseDigits(t[1..]))) &&
            (|t| > 1 && t[0] == '-' && Decimal.AllDigits(t[1..]) ==> r == Num(0 - Decimal.ParseDigits(t[1..])))
  {
    var t := Trim(s);
    if Decimal.AllDigits(t) then Num(Decimal.ParseDigits(t))
    else if |t| > 1 && t[0] == '-' && Decimal.AllDigits(t[1..]) then Num(0 - Decimal.ParseDigits(t[1..]))
    else if |t| > 1 && t[0] == '+' && Decimal.AllDigits(t[1..]) then Num(Decimal.ParseDigits(t[1..]))
    else NaN
  }

  /** `Number(v)`: the numeric coercion `Math.max` applies to its arguments.
      An object or array converts through its text, and throws when that
      conversion does. */
  function ToNumber(v: Value): (r: Result<Value>)
    ensures r.Failure? <==> ConversionThrows(v)
    ensures r.Failure? ==> r.error == ToPrimitiveError
    ensures r.Success? ==> IsNumber(r.value)
    ensures IsNumber(v) ==> r == Success(v)
    ensures v == Undefined ==> r == Success(NaN)
    ensures v == Null ==> r == Success(Num(0))
    ensures v.Bool? ==> r == Success(Num(if v.b then 1 else 0))
    ensures v.Str? ==> r == Success(StringToNumber(v.s))
    ensures v.Obj? && !ConversionThrows(v) ==> r == Success(NaN)
    ensures v.Arr? && !ConversionThrows(v) ==> r == Success(StringToNumber(Text(v)))
  {
    if ConversionThrows(v) then Failure(ToPrimitiveError)
    else
      match v
      case Undefined => Success(NaN)
      case Null => Success(Num(0))
      case Bool(b) => Success(Num(if b then 1 else 0))
      case Num(_) => Success(v)
      case NaN => Success(NaN)
      case Str(s) => Success(StringToNumber(s))
      case Arr(_) => Success(StringToNumber(Text(v)))
      case Obj(_) =>
        ObjectTextIsNaN();
        Success(StringToNumber(ObjectText))
  }

  /** The text of a plain object does not read as a number. */
  lemma ObjectTextIsNaN()
    ensures StringToNumber(ObjectText) == NaN
  {
    var x := ObjectText;
    assert !IsWhiteSpace(x[0]) && !IsWhiteSpace(x[|x| - 1]);
    TrimPadded([], x, []);
    assert [] + x + [] == x;
    assert !Decimal.IsDigit(x[0]);
  }

  /** Text with nothing for `Trim` to remove at its ends keeps what lies
      between any white space around it. */
  lemma TrimPadded(pre: string, x: string, post: string)
    requires AllWhiteSpace(pre) && AllWhiteSpace(post)
    requires x != [] && !IsWhiteSpace(x[0]) && !IsWhiteSpace(x[|x| - 1])
    ensures Trim(pre + x + post) == x
  {
    TrimStartPadded(pre, x + post);
    assert pre + x + post == pre + (x + post);
    TrimEndPadded(x, post);
  }

  lemma TrimStartPadded(pre: string, rest: string)
    requires AllWhiteSpace(pre)
    requires rest == [] || !IsWhiteSpace(rest[0])
    ensures TrimStart(pre + rest) == rest
  {
    LeadingPadded(pre, rest);
    assert (pre + rest)[|pre|..] == rest;
  }

  lemma {:induction false} LeadingPadded(pre: string, rest: string)
    requires AllWhiteSpace(pre)
    requires rest == [] || !IsWhiteSpace(rest[0])
    ensures LeadingWhiteSpace(pre + rest) == |pre|
    decreases |pre|
  {
    if pre == [] {
      assert pre + rest == rest;
    } else {
      assert (pre + rest)[1..] == pre[1..] + rest;
      LeadingPadded(pre[1..], rest);
    }
  }

  lemma TrimEndPadded(rest: string, post: string)
    requires AllWhiteSpace(post)
    requires rest == [] || !IsWhiteSpace(rest[|rest| - 1])
    ensures TrimEnd(rest + post) == rest
  {
    TrailingPadded(rest, post);
    assert (rest + post)[..|rest|] == rest;
  }

  lemma {:induction false} TrailingPadded(rest: string, post: string)
    requires AllWhiteSpace(post)
    requires rest == [] || !IsWhiteSpace(rest[|rest| - 1])
    ensures TrailingWhiteSpace(rest + post) == |post|
    decreases |post|
  {
    if post == [] {
      assert rest + post == rest;
    } else {
      assert (rest + post)[..|rest + post| - 1] == rest + post[..|post| - 1];
      TrailingPadded(rest, post[..|post| - 1]);
    }
  }


  /** The decimal text of an integer neither starts nor ends with white space. */
  lemma IntTextEnds(n: int)
    ensures var s := Decimal.IntToString(n);
            !IsWhiteSpace(s[0]) && !IsWhiteSpace(s[|s| - 1])
  {
    var s := Decimal.IntToString(n);
    if n < 0 {
      assert s[|s| - 1] == s[1..][|s| - 2];
    }
    assert Decimal.IsDigit(s[|s| - 1]);
  }

  /** The digits of the decimal text of an integer read back as its magnitude. */
  lemma IntTextDigits(n: int)
    ensures var s := Decimal.IntToString(n);
            (n >= 0 ==> Decimal.AllDigits(s) && Decimal.ParseDigits(s) == n) &&
            (n < 0 ==> !Decimal.AllDigits(s) && |s| > 1 && s[0] == '-' &&
                       Decimal.AllDigits(s[1..]) && Decimal.ParseDigits(s[1..]) == -n)
  {
    var s := Decimal.IntToString(n);
    if n < 0 {
      assert s[1..] == Decimal.NatToString(-n);
      Decimal.ParseNatToString(-n);
      assert !Decimal.IsDigit(s[0]);
    } else {
      Decimal.ParseNatToString(n);
    }
  }

  /** `Number` reads back the decimal text of any integer, whatever white
      space surrounds it: the inverse of `String` on integers. */
  lemma NumberOfIntText(pre: string, n: int, post: string)
    requires AllWhiteSpace(pre) && AllWhiteSpace(post)
    ensures StringToNumber(pre + Decimal.IntToString(n) + post) == Num(n)
  {
    var s := Decimal.IntToString(n);
    IntTextEnds(n);
    TrimPadded(pre, s, post);
    IntTextDigits(n);
  }

  /** The message of the TypeError thrown by reading property `key` of
      `null` or `undefined`. */
  function ReadError(base: Value, key: string): string
    requires IsNullish(base)
  {
    "Cannot read properties of " + (if base.Null? then "null" else "undefined") + " (reading '" + key + "')"
  }

  /** The value of `v[key]` for a value that is not nullish: an own property
      of an object, `undefined` otherwise. */
  function Property(v: Value, key: string): Value {
    if v.Obj? && key in v.props then v.props[key] else Undefined
  }

  /** `v.key` as an expression that may throw: reading a property of
      `null` or `undefined` throws a TypeError. */
  function Get(v: Value, key: string): (r: Result<Value>)
    ensures r.Failure? <==> IsNullish(v)
    ensures r.Failure? ==> r.error == ReadError(v, key)
    ensures v.Obj? && key in v.props ==> r == Success(v.props[key])
    ensures !IsNullish(v) && !(v.Obj? && key in v.props) ==> r == Success(Undefined)
  {
    if IsNullish(v) then Failure(ReadError(v, key)) else Success(Property(v, key))
  }

  /** `Math.max(x, y)`: coerces both arguments, throwing when a coercion
      does; NaN if either coerces to NaN. */
  function MathMax(x: Value, y: Value): (r: Result<Value>)
    ensures r.Failure? <==> ConversionThrows(x) || ConversionThrows(y)
    ensures r.Failure? ==> r.error == ToPrimitiveError
    ensures r.Success? ==>
              var a, b := ToNumber(x).value, ToNumber(y).value;
              IsNumber(r.value) &&
              (r.value.Num? <==> a.Num? && b.Num?) &&
              (r.value.Num? ==> r.value.n >= a.n && r.value.n >= b.n && (r.value.n == a.n || r.value.n == b.n))
  {
    var a :- ToNumber(x);
    var b :- ToNumber(y);
    Success(if a.NaN? || b.NaN? then NaN else Num(if a.n >= b.n then a.n else b.n))
  }

  /** `Math.min(x, y)`: coerces both arguments, throwing when a coercion
      does; NaN if either coerces to NaN. */
  function MathMin(x: Value, y: Value): (r: Result<Value>)
    ensures r.Failure? <==> ConversionThrows(x) || ConversionThrows(y)
    ensures r.Failure? ==> r.error == ToPrimitiveError
    ensures r.Success? ==>
              var a, b := ToNumber(x).value, ToNumber(y).value;
              IsNumber(r.value) &&
              (r.value.Num? <==> a.Num? && b.Num?) &&
              (r.value.Num? ==> r.value.n <= a.n && r.value.n <= b.n && (r.value.n == a.n || r.value.n == b.n))
  {
    var a :- ToNumber(x);
    var b :- ToNumber(y);
    Success(if a.NaN? || b.NaN? then NaN else Num(if a.n <= b.n then a.n else b.n))
  }

  /** `x + y` on two numbers. */
  function AddNumbers(x: Value, y: Value): (r: Value)
    requires IsNumber(x) && IsNumber(y)
    ensures IsNumber(r)
    ensures x.Num? && y.Num? ==> r == Num(x.n + y.n)
    ensures x.NaN? || y.NaN? ==> r.NaN?
  {
    if x.NaN? || y.NaN? then NaN else Num(x.n + y.n)
  }

  /** A value JSON can carry: no `undefined` and no `NaN`, at any depth.
      Every value `JSON.parse` returns is one. */
  predicate IsJson(v: Value)
    decreases v
  {
    match v
    case Undefined => false
    case NaN => false
    case Arr(es) => forall i :: 0 <= i < |es| ==> IsJson(es[i])
    case Obj(props) => forall k :: k in props ==> IsJson(props[k])
    case _ => true
  }

  /** What `JSON.parse(JSON.stringify(v))` gives back: object members whose
      value is `undefined` are dropped, `undefined` array elements and `NaN`
      become `null`. (A top-level `undefined` has no JSON text; it is kept.) */
  function JsonNormal(v: Value): (r: Value)
    ensures v != Undefined ==> IsJson(r)
    ensures IsJson(v) ==> r == v
    ensures v == NaN ==> r == Null
    ensures v.Arr? ==>
              r.Arr? && |r.elems| == |v.elems| &&
              forall i :: 0 <= i < |v.elems| ==>
                r.elems[i] == if v.elems[i].Undefined? then Null else JsonNormal(v.elems[i])
    ensures v.Obj? ==>
              r.Obj? && r.props.Keys == (set k | k in v.props && !v.props[k].Undefined?) &&
              forall k :: k in r.props ==> r.props[k] == JsonNormal(v.props[k])
    decreases v
  {
    match v
    case Undefined => v
    case NaN => Null
    case Arr(es) =>
      var r := Arr(seq(|es|, i requires 0 <= i < |es| =>
                         if es[i].Undefined? then Null else JsonNormal(es[i])));
      assert IsJson(v) ==> r.elems == es by {
        if IsJson(v) {
          forall i | 0 <= i < |es| ensures r.elems[i] == es[i] {
            assert IsJson(es[i]);
          }
        }
      }
      r
    case Obj(props) =>
      var r := Obj(map k | k in props && !props[k].Undefined? :: JsonNormal(props[k]));
      assert IsJson(v) ==> r.props == props by {
        if IsJson(v) {
          forall k | k in props ensures k in r.props && r.props[k] == props[k] {
            assert IsJson(props[k]);
          }
        }
      }
      r
    case _ => v
  }

  /** Reading a member after the round trip gives the round trip of the
      member: a member whose value was `undefined` is gone and reads as
      `undefined` again. */
  lemma NormalMember(props: map<string, Value>, key: string)
    ensures JsonNormal(Obj(props)).Obj?
    ensures Property(JsonNormal(Obj(props)), key) == JsonNormal(Property(Obj(props), key))
  {
    var n := JsonNormal(Obj(props));
    assert n.props == map k | k in props && !props[k].Undefined? :: JsonNormal(props[k]);
    if key in props && !props[key].Undefined? {
      assert key in n.props;
    } else {
      assert key !in n.props;
    }
  }
}
