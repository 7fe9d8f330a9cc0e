/** The parts of JavaScript's value semantics that the client's decisions
    depend on: truthiness, `||`, property reads, object spread, `String(v)`,
    `parseInt`, `trim`, case mapping and `includes`. */
module Js {

  /** A JavaScript value. Numbers are integers in this model; an object is the
      ordered list of its own enumerable properties (insertion order). */
  datatype Value =
    | Undefined
    | Null
    | Bool(b: bool)
    | Num(n: int)
    | NaN
    | Str(s: string)
    | Obj(props: seq<(string, Value)>)

  /** The property list of a plain object, in the order `Object.values` walks it. */
  type Record = seq<(string, Value)>

  // ---------------------------------------------------------------------
  // Truthiness and `||`
  // ---------------------------------------------------------------------

  /** `!!v`: the falsy values are undefined, null, false, 0, NaN and "". */
  predicate Truthy(v: Value) {
    match v
    case Undefined => false
    case Null => false
    case Bool(b) => b
    case Num(n) => n != 0
    case NaN => false
    case Str(s) => s != ""
    case Obj(_) => true
  }

  /** `a || b`: the left operand when it is truthy, otherwise the right one. */
  function Or(a: Value, b: Value): (r: Value)
    ensures r == a || r == b
    ensures Truthy(a) ==> r == a
    ensures !Truthy(a) ==> r == b
    ensures Truthy(r) <==> Truthy(a) || Truthy(b)
  {
    if Truthy(a) then a else b
  }

  // ---------------------------------------------------------------------
  // Property access and object spread
  // ---------------------------------------------------------------------

  ghost predicate HasKey(props: Record, key: string) {
    exists i :: 0 <= i < |props| && props[i].0 == key
  }

  /** The value of the first property named `key`, or `undefined`. */
  function Lookup(props: Record, key: string): Value {
    if |props| == 0 then Undefined
    else if props[0].0 == key then props[0].1
    else Lookup(props[1..], key)
  }

  /** Without a property of that name the lookup is `undefined`. */
  lemma {:induction false} LookupMissing(props: Record, key: string)
    requires !HasKey(props, key)
    ensures Lookup(props, key) == Undefined
  {
    if |props| > 0 {
      assert props[0].0 != key;
      LookupMissing(props[1..], key);
    }
  }

  /** With a property of that name the lookup is the first such property's
      value. */
  lemma {:induction false} LookupFound(props: Record, key: string)
    requires HasKey(props, key)
    ensures exists i ::
      0 <= i < |props| && props[i] == (key, Lookup(props, key)) &&
      forall j :: 0 <= j < i ==> props[j].0 != key
  {
    if props[0].0 == key {
      assert props[0] == (key, Lookup(props, key));
    } else {
      var i :| 0 <= i < |props| && props[i].0 == key;
      assert props[1..][i - 1].0 == key;
      LookupFound(props[1..], key);
      var r := Lookup(props, key);
      var k :| 0 <= k < |props[1..]| && props[1..][k] == (key, r) &&
        forall j :: 0 <= j < k ==> props[1..][j].0 != key;
      assert props[k + 1] == (key, r);
      assert forall j :: 0 <= j < k + 1 ==> props[j].0 != key by {
        forall j | 0 <= j < k + 1 ensures props[j].0 != key {
          if j > 0 { assert props[j] == props[1..][j - 1]; }
        }
      }
    }
  }

  /** The first property with the key decides the lookup. */
  lemma {:induction false} LookupFirstMatch(props: Record, key: string, i: nat)
    requires i < |props| && props[i].0 == key
    requires forall j :: 0 <= j < i ==> props[j].0 != key
    ensures Lookup(props, key) == props[i].1
  {
    if i > 0 {
      LookupFirstMatch(props[1..], key, i - 1);
    }
  }

  /** A three-property object: every key is decided by the first property
      that carries it, and any other key is `undefined`. */
  lemma LookupOfThree(props: Record)
    requires |props| == 3
    ensures forall key :: Lookup(props, key) == LookupThree(props, key)
  {
    forall key ensures Lookup(props, key) == LookupThree(props, key) {
      var r1 := props[1..];
      var r2 := r1[1..];
      assert r1[0] == props[1] && r2[0] == props[2] && r2[1..] == [];
      assert Lookup(r2, key) == (if props[2].0 == key then props[2].1 else Undefined);
      assert Lookup(r1, key) == (if props[1].0 == key then props[1].1 else Lookup(r2, key));
      assert Lookup(props, key) == (if props[0].0 == key then props[0].1 else Lookup(r1, key));
    }
  }

  /** The lookup in a three-property object written out case by case. */
  function LookupThree(props: Record, key: string): Value
    requires |props| == 3
  {
    if props[0].0 == key then props[0].1
    else if props[1].0 == key then props[1].1
    else if props[2].0 == key then props[2].1
    else Undefined
  }

  /** `v?.key`: an object's property, a string's `length`, otherwise
      `undefined` (also for null and undefined, as optional chaining does). */
  function Get(v: Value, key: string): (r: Value)
    ensures v.Obj? ==> r == Lookup(v.props, key)
    ensures !v.Obj? && !v.Str? ==> r == Undefined
  {
    match v
    case Obj(props) => Lookup(props, key)
    case Str(s) => if key == "length" then Num(|s|) else Undefined
    case _ => Undefined
  }

  /** `{ ...props, [key]: v }`: the property is overwritten in place when it
      exists and appended otherwise. */
  function SetProp(props: Record, key: string, v: Value): (r: Record)
    ensures Lookup(r, key) == v
    ensures forall k :: k != key ==> Lookup(r, k) == Lookup(props, k)
    ensures |r| == |props| || |r| == |props| + 1
  {
    if |props| == 0 then [(key, v)]
    else if props[0].0 == key then [(key, v)] + props[1..]
    else [props[0]] + SetProp(props[1..], key, v)
  }

  // ---------------------------------------------------------------------
  // String conversion
  // ---------------------------------------------------------------------

  predicate IsDigit(c: char) {
    '0' <= c <= '9'
  }

  function DigitChar(d: nat): (c: char)
    requires d < 10
    ensures IsDigit(c)
  {
    (48 + d) as char
  }

  /** Decimal digits of a natural number, without leading zeros. */
  function NatToString(n: nat): (s: string)
    ensures |s| >= 1
    ensures forall i :: 0 <= i < |s| ==> IsDigit(s[i])
  {
    if n < 10 then [DigitChar(n)] else NatToString(n / 10) + [DigitChar(n % 10)]
  }

  /** `String(n)` for an integer `n`. */
  function IntToString(n: int): string {
    if n < 0 then "-" + NatToString(-n) else NatToString(n)
  }

  /** `String(v)`, as template literals and `URLSearchParams` apply it. */
  function ToString(v: Value): string {
    match v
    case Undefined => "undefined"
    case Null => "null"
    case Bool(b) => if b then "true" else "false"
    case Num(n) => IntToString(n)
    case NaN => "NaN"
    case Str(s) => s
    case Obj(_) => "[object Object]"
  }

  /** How `Array.prototype.join` renders one element: null and undefined
      become the empty string. */
  function JoinPart(v: Value): string {
    if v == Undefined || v == Null then "" else ToString(v)
  }

  /** `parts.join(sep)`. */
  function Join(parts: seq<string>, sep: string): string {
    if |parts| == 0 then ""
    else if |parts| == 1 then parts[0]
    else parts[0] + sep + Join(parts[1..], sep)
  }

  /** `Object.values(props)` with each value rendered as `join` renders it. */
  function ValueParts(props: Record): (parts: seq<string>)
    ensures |parts| == |props|
    ensures forall i :: 0 <= i < |props| ==> parts[i] == JoinPart(props[i].1)
  {
    if |props| == 0 then [] else [JoinPart(props[0].1)] + ValueParts(props[1..])
  }

  // ---------------------------------------------------------------------
  // Whitespace and trim
  // ---------------------------------------------------------------------

  /** ECMAScript WhiteSpace and LineTerminator code points: tab, vertical
      tab, form feed, the byte order mark, the space separators of category
      Zs, line feed, carriage return, and the line and paragraph separators. */
  predicate IsSpace(c: char) {
    c == '\t' || c == '\n' || c == '\U{B}' || c == '\U{C}' || c == '\r' ||
    c == ' ' || c == '\U{A0}' || c == '\U{1680}' || ('\U{2000}' <= c <= '\U{200A}') ||
    c == '\U{2028}' || c == '\U{2029}' || c == '\U{202F}' || c == '\U{205F}' ||
    c == '\U{3000}' || c == '\U{FEFF}'
  }

  ghost predicate AllSpace(s: string) {
    forall i :: 0 <= i < |s| ==> IsSpace(s[i])
  }

  /** The number of white-space characters `s` starts with. */
  function LeadingSpace(s: string): (k: nat)
    ensures k <= |s|
    ensures forall i :: 0 <= i < k ==> IsSpace(s[i])
    ensures k < |s| ==> !IsSpace(s[k])
  {
    if |s| > 0 && IsSpace(s[0]) then 1 + LeadingSpace(s[1..]) else 0
  }

  /** `s.trimStart()`: drops the leading white space. */
  function TrimStart(s: string): (r: string)
    ensures |r| <= |s| && r == s[|s| - |r|..]
    ensures AllSpace(s[..|s| - |r|])
    ensures |r| > 0 ==> !IsSpace(r[0])
  {
    var k := LeadingSpace(s);
    assert forall i :: 0 <= i < k ==> s[..k][i] == s[i];
    s[k..]
  }

  /** `s.trimEnd()`: drops the trailing white space. */
  function TrimEnd(s: string): (r: string)
    ensures |r| <= |s| && r == s[..|r|]
    ensures AllSpace(s[|r|..])
    ensures |r| > 0 ==> !IsSpace(r[|r| - 1])
  {
    if |s| > 0 && IsSpace(s[|s| - 1]) then
      var r := TrimEnd(s[..|s| - 1]);
      assert s[..|s| - 1][|r|..] == s[|r|..|s| - 1];
      r
    else s
  }

  /** `s.trim()`. */
  function Trim(s: string): (r: string)
    ensures |r| > 0 ==> !IsSpace(r[0]) && !IsSpace(r[|r| - 1])
  {
    var t := TrimStart(s);
    var r := TrimEnd(t);
    assert |r| > 0 ==> r[0] == t[0];
    r
  }

  /** Trimming leaves nothing exactly when the string is all white space. */
  lemma TrimEmptyIffAllSpace(s: string)
    ensures Trim(s) == "" <==> AllSpace(s)
  {
    var t := TrimStart(s);
    if Trim(s) == "" {
      assert s[..|s| - |t|] == s;
    }
  }

  /** `s.startsWith(p)`. */
  predicate StartsWith(s: string, p: string) {
    |p| <= |s| && s[..|p|] == p
  }

  /** `s.includes(t)`. */
  predicate Contains(s: string, t: string)
    decreases |s|
  {
    StartsWith(s, t) || (|s| > 0 && Contains(s[1..], t))
  }

  // ---------------------------------------------------------------------
  // Case mapping (ASCII letters)
  // ---------------------------------------------------------------------

  function LowerChar(c: char): char {
    if 'A' <= c <= 'Z' then (c as int + 32) as char else c
  }

  function UpperChar(c: char): char {
    if 'a' <= c <= 'z' then (c as int - 32) as char else c
  }

  /** `s.toLowerCase()`, on the ASCII letters. */
  function ToLower(s: string): (r: string)
    ensures |r| == |s|
  {
    seq(|s|, i requires 0 <= i < |s| => LowerChar(s[i]))
  }

  /** `s.toUpperCase()`, on the ASCII letters. */
  function ToUpper(s: string): (r: string)
    ensures |r| == |s|
  {
    seq(|s|, i requires 0 <= i < |s| => UpperChar(s[i]))
  }

  /** Lower-casing forgets how a string was cased: a string and its upper-case
      form have the same lower-case form. */
  lemma LowerOfUpper(s: string)
    ensures ToLower(ToUpper(s)) == ToLower(s)
  {
    forall i | 0 <= i < |s| ensures ToLower(ToUpper(s))[i] == ToLower(s)[i] {
      var c := s[i];
      assert ToUpper(s)[i] == UpperChar(c);
    }
  }

  // ---------------------------------------------------------------------
  // parseInt
  // ---------------------------------------------------------------------

  predicate IsRadixDigit(c: char, radix: nat) {
    if radix == 16 then IsDigit(c) || ('a' <= c <= 'f') || ('A' <= c <= 'F') else IsDigit(c)
  }

  function DigitValue(c: char): (d: nat)
    requires IsRadixDigit(c, 16)
    ensures d < 16
    ensures IsDigit(c) ==> d < 10
  {
    if IsDigit(c) then c as int - 48
    else if 'a' <= c <= 'f' then c as int - 97 + 10
    else c as int - 65 + 10
  }

  /** Length of the longest prefix of `s` made of digits of the radix. */
  function DigitRun(s: string, radix: nat): (k: nat)
    ensures k <= |s|
    ensures forall i :: 0 <= i < k ==> IsRadixDigit(s[i], radix)
    ensures k < |s| ==> !IsRadixDigit(s[k], radix)
  {
    if |s| == 0 || !IsRadixDigit(s[0], radix) then 0 else 1 + DigitRun(s[1..], radix)
  }

  /** The number a run of digits denotes in the radix (10 or 16). */
  function DigitsValue(ds: string, radix: nat): nat
    requires radix == 10 || radix == 16
    requires forall i :: 0 <= i < |ds| ==> IsRadixDigit(ds[i], radix)
  {
    if |ds| == 0 then 0
    else
      var last := ds[|ds| - 1];
      assert IsRadixDigit(last, radix);
      DigitsValue(ds[..|ds| - 1], radix) * radix + DigitValue(last)
  }

  /** The digits part of `parseInt`, after the sign: a `0x`/`0X` prefix
      selects base 16, and the longest run of digits that follows is
      converted; no digits gives NaN. */
  function ParseUnsigned(u: string): (r: Value)
    ensures r.Num? ==> r.n >= 0
    ensures r.Num? || r.NaN?
  {
    var hex := |u| >= 2 && u[0] == '0' && (u[1] == 'x' || u[1] == 'X');
    var radix := if hex then 16 else 10;
    var w := if hex then u[2..] else u;
    var k := DigitRun(w, radix);
    if k == 0 then NaN else Num(DigitsValue(w[..k], radix))
  }

  /** `parseInt(s)` without a radix argument: leading white space is skipped
      and one sign is read before the digits. */
  function ParseIntString(s: string): (r: Value)
    ensures r.Num? || r.NaN?
  {
    var t := TrimStart(s);
    if |t| > 0 && t[0] == '-' then
      var m := ParseUnsigned(t[1..]);
      if m.Num? then Num(-m.n) else m
    else if |t| > 0 && t[0] == '+' then ParseUnsigned(t[1..])
    else ParseUnsigned(t)
  }

  /** `parseInt(v)`: the argument is first converted with `String(v)`. */
  function ParseInt(v: Value): (r: Value)
    ensures r.Num? || r.NaN?
  {
    ParseIntString(ToString(v))
  }

  lemma {:induction false} DigitsOfNatToString(n: nat)
    ensures DigitsValue(NatToString(n), 10) == n
  {
    var s := NatToString(n);
    if n >= 10 {
      DigitsOfNatToString(n / 10);
      assert s[..|s| - 1] == NatToString(n / 10);
      assert DigitValue(s[|s| - 1]) == n % 10;
    }
  }

  lemma {:induction false} DigitRunOfDigits(s: string)
    requires forall i :: 0 <= i < |s| ==> IsDigit(s[i])
    ensures DigitRun(s, 10) == |s|
  {
    if |s| > 0 {
      DigitRunOfDigits(s[1..]);
    }
  }

  lemma NoSpaceNoTrim(s: string)
    requires |s| > 0 && (IsDigit(s[0]) || s[0] == '-')
    ensures TrimStart(s) == s
  {
    FirstNotSpaceNoTrim(s);
  }

  /** A string that does not start with white space is its own `trimStart`. */
  lemma FirstNotSpaceNoTrim(s: string)
    requires |s| > 0 && !IsSpace(s[0])
    ensures TrimStart(s) == s
  {
    assert LeadingSpace(s) == 0;
    assert s[0..] == s;
  }

  lemma UnsignedOfNatString(n: nat)
    ensures ParseUnsigned(NatToString(n)) == Num(n)
  {
    var s := NatToString(n);
    assert |s| >= 2 ==> IsDigit(s[1]);
    DigitRunOfDigits(s);
    assert s[..|s|] == s;
    DigitsOfNatToString(n);
  }

  /** `parseInt` reads back every decimal string this model produces. */
  lemma ParseIntOfNatString(n: nat)
    ensures ParseIntString(NatToString(n)) == Num(n)
  {
    var s := NatToString(n);
    NoSpaceNoTrim(s);
    UnsignedOfNatString(n);
  }

  lemma ParseIntOfNegative(n: nat)
    requires n > 0
    ensures ParseIntString("-" + NatToString(n)) == Num(0 - n)
  {
    var s := "-" + NatToString(n);
    NoSpaceNoTrim(s);
    assert s[1..] == NatToString(n);
    UnsignedOfNatString(n);
  }

  /** `parseInt(String(n)) === n` for every integer `n`. */
  lemma ParseIntOfIntString(n: int)
    ensures ParseIntString(IntToString(n)) == Num(n)
  {
    if n < 0 {
      ParseIntOfNegative(-n);
    } else {
      ParseIntOfNatString(n);
    }
  }

  /** `parseInt` leaves integers unchanged. */
  lemma ParseIntOfNum(n: int)
    ensures ParseInt(Num(n)) == Num(n)
  {
    ParseIntOfIntString(n);
  }

  /** Distinct numbers have distinct decimal strings. */
  lemma NatToStringInjective(m: nat, n: nat)
    requires NatToString(m) == NatToString(n)
    ensures m == n
  {
    ParseIntOfNatString(m);
    ParseIntOfNatString(n);
  }

  // ---------------------------------------------------------------------
  // The relational operator `<`
  // ---------------------------------------------------------------------

  /** `Number(s)` for the integer numerals this model covers: surrounding
      white space is ignored, the empty string is 0, and an optional sign
      followed by decimal digits only is read; anything else is NaN. */
  function StringToNumber(s: string): (r: Value)
    ensures r.Num? || r.NaN?
  {
    var t := Trim(s);
    if t == "" then Num(0)
    else
      var u := if t[0] == '-' || t[0] == '+' then t[1..] else t;
      if |u| > 0 && DigitRun(u, 10) == |u| then
        var d := DigitsValue(u, 10);
        if t[0] == '-' then Num(0 - d) else Num(d)
      else NaN
  }

  /** The numeric conversion of a primitive; an object has already become
      its string form. */
  function ToNumber(v: Value): (r: Value)
    ensures r.Num? || r.NaN?
  {
    match v
    case Undefined => NaN
    case Null => Num(0)
    case Bool(b) => if b then Num(1) else Num(0)
    case Num(_) => v
    case NaN => NaN
    case Str(s) => StringToNumber(s)
    case Obj(_) => NaN
  }

  /** An operand of `<` after `ToPrimitive`: a plain object becomes
      "[object Object]". */
  function ToPrimitive(v: Value): (r: Value)
    ensures !r.Obj?
  {
    if v.Obj? then Str("[object Object]") else v
  }

  /** Code-unit order on strings, a proper prefix coming first. */
  predicate StringLess(a: string, b: string)
    decreases |a|
  {
    if |a| == 0 then |b| > 0
    else if |b| == 0 then false
    else if a[0] != b[0] then a[0] < b[0]
    else StringLess(a[1..], b[1..])
  }

  /** `a < b`: two strings compare by code units; otherwise both sides are
      converted to numbers and any NaN makes the comparison false. */
  predicate LessThan(a: Value, b: Value) {
    var x := ToPrimitive(a);
    var y := ToPrimitive(b);
    if x.Str? && y.Str? then StringLess(x.s, y.s)
    else
      var m := ToNumber(x);
      var n := ToNumber(y);
      m.Num? && n.Num? && m.n < n.n
  }

  /** Between numbers `<` is the integer order, so a balance equal to the
      price is not below it. */
  lemma LessThanNumbers(a: int, b: int)
    ensures LessThan(Num(a), Num(b)) <==> a < b
  {
  }

  /** Nothing is below or above undefined. */
  lemma LessThanUndefined(v: Value)
    ensures !LessThan(v, Undefined) && !LessThan(Undefined, v)
  {
  }

  // ---------------------------------------------------------------------
  // parseFloat on integer numerals, and strict equality
  // ---------------------------------------------------------------------

  /** The digits part of `parseFloat`, after the sign: the longest run of
      decimal digits. With no digits before it, a point followed by a digit
      starts a fraction below one, whose integer part is 0; anything else
      gives NaN. A fraction or exponent is not read, since this model's
      numbers are integers. */
  function ParseDecimal(u: string): (r: Value)
    ensures r.Num? ==> r.n >= 0
    ensures r.Num? || r.NaN?
    ensures r.NaN? <==> !(|u| > 0 && IsDigit(u[0])) && !(|u| > 1 && u[0] == '.' && IsDigit(u[1]))
  {
    var k := DigitRun(u, 10);
    if k > 0 then Num(DigitsValue(u[..k], 10))
    else if |u| > 1 && u[0] == '.' && IsDigit(u[1]) then Num(0)
    else NaN
  }

  /** `parseFloat(String(v))`: leading white space and one sign are read
      before the digits. */
  function ParseFloat(v: Value): (r: Value)
    ensures r.Num? || r.NaN?
  {
    var t := TrimStart(ToString(v));
    if |t| > 0 && t[0] == '-' then
      var m := ParseDecimal(t[1..]);
      if m.Num? then Num(-m.n) else m
    else if |t| > 0 && t[0] == '+' then ParseDecimal(t[1..])
    else ParseDecimal(t)
  }

  lemma DecimalOfNatString(n: nat)
    ensures ParseDecimal(NatToString(n)) == Num(n)
  {
    var s := NatToString(n);
    DigitRunOfDigits(s);
    assert s[..|s|] == s;
    DigitsOfNatToString(n);
  }

  /** `parseFloat("0x1A")` stops at the "x" and reads 0. */
  lemma ParseFloatOfHexText()
    ensures ParseFloat(Str("0x1A")) == Num(0)
  {
    var s := "0x1A";
    assert ToString(Str(s)) == s;
    assert !IsSpace(s[0]);
    FirstNotSpaceNoTrim(s);
    assert DigitRun(s, 10) == 1 by { assert !IsDigit('x'); }
    assert s[..1] == "0";
    assert DigitsValue("0", 10) == 0 by { assert "0"[..0] == ""; }
  }

  /** `parseFloat(".5")` reads a fraction below one: its integer part is 0. */
  lemma ParseFloatOfLeadingPoint()
    ensures ParseFloat(Str(".5")) == Num(0)
  {
    var s := ".5";
    assert ToString(Str(s)) == s;
    assert !IsSpace(s[0]);
    FirstNotSpaceNoTrim(s);
    assert s[0] == '.' && IsDigit(s[1]);
    assert ParseFloat(Str(s)) == ParseDecimal(s);
    assert DigitRun(s, 10) == 0 by { assert !IsDigit('.'); }
  }

  /** `parseInt("0x1A")` reads the hexadecimal prefix and gives 26. */
  lemma ParseIntOfHexText()
    ensures ParseInt(Str("0x1A")) == Num(26)
  {
    var s := "0x1A";
    assert ToString(Str(s)) == s;
    assert !IsSpace(s[0]);
    FirstNotSpaceNoTrim(s);
    var w := s[2..];
    assert w == "1A";
    assert DigitRun(w, 16) == 2 by {
      assert w[1..] == "A" && "A"[1..] == "";
    }
    assert w[..2] == w;
    assert DigitsValue(w, 16) == 26 by {
      assert w[..1] == "1" && "1"[..0] == "";
      assert DigitsValue("1", 16) == 1;
    }
  }

  /** Both parsers read back the decimal string of a natural number. */
  lemma ParseFloatOfNatString(n: nat)
    ensures ParseFloat(Str(NatToString(n))) == Num(n)
  {
    var s := NatToString(n);
    assert ToString(Str(s)) == s;
    NoSpaceNoTrim(s);
    assert IsDigit(s[0]);
    DecimalOfNatString(n);
  }

  /** `a === b`. NaN equals nothing, not even itself; objects are compared
      by their contents, standing in for reference identity. */
  predicate StrictEquals(a: Value, b: Value) {
    a == b && !a.NaN?
  }
}
