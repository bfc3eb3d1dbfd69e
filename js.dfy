/** The loosely typed JavaScript values the routes and pages pass around, and the
    operators on them whose exact meaning decides a branch: truthiness, `||`, `??`,
    `typeof x === "number"`, `.length` and `x > 0`. Numbers are integers here. */
module Js {
  import opened Text

  datatype Option<+T> = None | Some(value: T)

  datatype Value =
    | Undefined
    | Null
    | Bool(b: bool)
    | Num(n: int)
    | Str(s: string)
    | Arr(items: seq<Value>)
    | Obj(fields: map<string, Value>)

  /** A plain object: the request bodies, responses and history entries. */
  type Record = map<string, Value>

  /** The JavaScript notion of a value that tests as true in a condition. */
  predicate Truthy(v: Value) {
    match v
    case Undefined => false
    case Null => false
    case Bool(b) => b
    case Num(n) => n != 0
    case Str(s) => s != ""
    case Arr(_) => true
    case Obj(_) => true
  }

  predicate Nullish(v: Value) {
    v.Undefined? || v.Null?
  }

  /** `a || b` */
  function Or(a: Value, b: Value): Value {
    if Truthy(a) then a else b
  }

  /** `a ?? b` */
  function Coalesce(a: Value, b: Value): Value {
    if Nullish(a) then b else a
  }

  /** `||` and `??` agree except on a value that is falsy but not null or
      undefined (`""`, `0`, `false`), which only `||` replaces. */
  lemma OrCoalesceDiffer(a: Value, b: Value)
    ensures Or(a, b) != Coalesce(a, b) ==> !Truthy(a) && !Nullish(a)
    ensures !Truthy(a) && !Nullish(a) && a != b ==> Or(a, b) == b && Coalesce(a, b) == a
  {
  }

  /** Reading a named property of a value that is not null or undefined (and so
      also `v?.key`): only objects carry named properties here. */
  function Get(v: Value, key: string): Value {
    if v.Obj? && key in v.fields then v.fields[key] else Undefined
  }

  /** Reading a property of a plain object. */
  function Field(r: Record, key: string): Value {
    if key in r then r[key] else Undefined
  }

  /** `{ ...v }`: the own properties copied by object spread. */
  function Spread(v: Value): Record {
    if v.Obj? then v.fields else map[]
  }

  /** `v.length > 0`: arrays and strings have a length; on anything else the
      property is undefined and the comparison is false. */
  predicate HasEntries(v: Value) {
    match v
    case Arr(items) => |items| > 0
    case Str(s) => |s| > 0
    case _ => false
  }

  /** `Number(s)` for a string: white space is trimmed, the empty string is 0, and
      a run of decimal digits with an optional sign is its value; anything else
      (fractions, exponents, hex, `Infinity`) is NaN here (None). */
  function StringToNumber(s: string): Option<int> {
    var t := Trim(s);
    if t == "" then Some(0)
    else if IsDigits(t) then Some(DigitsValue(t))
    else if t[0] == '+' && |t| > 1 && IsDigits(t[1..]) then Some(DigitsValue(t[1..]))
    else if t[0] == '-' && |t| > 1 && IsDigits(t[1..]) then Some(0 - DigitsValue(t[1..]) as int)
    else None
  }

  /** White space around a number's text does not change what it converts to. */
  lemma PaddingIgnored(lead: string, c: string, trail: string)
    requires AllSpace(lead) && AllSpace(trail)
    requires c == "" || (!IsSpace(c[0]) && !IsSpace(c[|c| - 1]))
    ensures StringToNumber(lead + c + trail) == StringToNumber(c)
  {
    TrimPadded(lead, c, trail);
    TrimPadded("", c, "");
    assert "" + c + "" == c;
  }

  /** A trimmed digit string with a leading sign converts to its signed value. */
  lemma SignedDigits(c: char, d: string)
    requires c == '+' || c == '-'
    requires d != "" && IsDigits(d) && Trim([c] + d) == [c] + d
    ensures StringToNumber([c] + d) == Some(if c == '+' then DigitsValue(d) else 0 - DigitsValue(d) as int)
  {
    var t := [c] + d;
    assert t[0] == c && t[1..] == d;
    assert !IsDigits(t);
  }

  /** Any non-empty digit string, bare or signed, converts to its value. */
  lemma DigitForms(d: string)
    requires d != "" && IsDigits(d)
    ensures StringToNumber(d) == Some(DigitsValue(d))
    ensures StringToNumber("+" + d) == Some(DigitsValue(d))
    ensures StringToNumber("-" + d) == Some(0 - DigitsValue(d) as int)
  {
    assert '0' <= d[0] <= '9' && '0' <= d[|d| - 1] <= '9';
    TrimPadded("", d, "");
    assert "" + d + "" == d;
    assert "+" + d == ['+'] + d && "-" + d == ['-'] + d;
    TrimPadded("", ['+'] + d, "");
    assert "" + (['+'] + d) + "" == ['+'] + d;
    SignedDigits('+', d);
    TrimPadded("", ['-'] + d, "");
    assert "" + (['-'] + d) + "" == ['-'] + d;
    SignedDigits('-', d);
  }

  /** The unpadded forms of a rendered natural number. */
  lemma DecimalForms(n: nat)
    ensures StringToNumber(NatToString(n)) == Some(n)
    ensures StringToNumber("+" + NatToString(n)) == Some(n)
    ensures StringToNumber("-" + NatToString(n)) == Some(0 - n as int)
  {
    var d := NatToString(n);
    assert IsDigits(d);
    DigitsRoundTrip(n);
    DigitForms(d);
  }

  /** White space around a bare or signed digit string is ignored. */
  lemma PaddedForms(d: string, lead: string, trail: string)
    requires AllSpace(lead) && AllSpace(trail) && d != "" && IsDigits(d)
    ensures StringToNumber(lead + d + trail) == StringToNumber(d)
    ensures StringToNumber(lead + "+" + d + trail) == StringToNumber("+" + d)
    ensures StringToNumber(lead + "-" + d + trail) == StringToNumber("-" + d)
  {
    assert '0' <= d[0] <= '9' && '0' <= d[|d| - 1] <= '9';
    PaddingIgnored(lead, d, trail);
    assert lead + "+" + d + trail == lead + ("+" + d) + trail;
    PaddingIgnored(lead, "+" + d, trail);
    assert lead + "-" + d + trail == lead + ("-" + d) + trail;
    PaddingIgnored(lead, "-" + d, trail);
  }

  /** The decimal rendering of every natural number, bare or with a `+` or `-`
      sign, converts back to that number, whatever white space surrounds it; a
      blank string is 0. */
  lemma NumberOfDecimal(n: nat, lead: string, trail: string)
    requires AllSpace(lead) && AllSpace(trail)
    ensures StringToNumber(lead + NatToString(n) + trail) == Some(n)
    ensures StringToNumber(lead + "+" + NatToString(n) + trail) == Some(n)
    ensures StringToNumber(lead + "-" + NatToString(n) + trail) == Some(0 - n as int)
    ensures StringToNumber(lead + trail) == Some(0)
  {
    var d := NatToString(n);
    assert d != "" && IsDigits(d);
    DecimalForms(n);
    PaddedForms(d, lead, trail);
    assert lead + "" + trail == lead + trail;
    PaddingIgnored(lead, "", trail);
    assert Trim("") == "";
  }

  /** Fractions, exponents, hex, `Infinity`, a lone sign, a doubled sign and
      inner white space are NaN here. */
  lemma NaNStrings()
    ensures StringToNumber("1.5").None? && StringToNumber("1e3").None? && StringToNumber("0x10").None?
    ensures StringToNumber("Infinity").None? && StringToNumber("+").None? && StringToNumber("--1").None?
    ensures StringToNumber("1 2").None?
  {
    TrimPadded("", "1.5", "");
    assert "1.5"[1] == '.';
    TrimPadded("", "1e3", "");
    assert "1e3"[1] == 'e';
    TrimPadded("", "0x10", "");
    assert "0x10"[1] == 'x';
    TrimPadded("", "Infinity", "");
    assert "Infinity"[0] == 'I';
    TrimPadded("", "+", "");
    TrimPadded("", "--1", "");
    assert "--1"[1..][0] == '-';
    TrimPadded("", "1 2", "");
    assert "1 2"[1] == ' ';
  }

  /** `Number(v)`, None for NaN: `undefined` and objects are NaN, `null` and
      `false` are 0, `true` is 1, and an array converts through its joined text, so
      `[]` is 0 and a one-element array is its element's number. */
  function ToNumber(v: Value): Option<int>
    decreases v, 0
  {
    match v
    case Undefined => None
    case Null => Some(0)
    case Bool(b) => Some(if b then 1 else 0)
    case Num(n) => Some(n)
    case Str(s) => StringToNumber(s)
    case Arr(items) =>
      if |items| == 0 then Some(0)
      else if |items| == 1 then ElementNumber(items[0])
      else None
    case Obj(_) => None
  }

  /** The number of the text an array element joins as: `null` and `undefined`
      join as "", booleans as "true"/"false", objects as "[object Object]". */
  function ElementNumber(x: Value): Option<int>
    decreases x, 1
  {
    match x
    case Undefined => Some(0)
    case Null => Some(0)
    case Bool(_) => None
    case Num(n) => Some(n)
    case Str(s) => StringToNumber(s)
    case Arr(_) => ToNumber(x)
    case Obj(_) => None
  }

  /** `v > 0`: false when the left operand converts to NaN. */
  predicate Positive(v: Value) {
    ToNumber(v).Some? && ToNumber(v).value > 0
  }

  /** Signed digit strings and one-element arrays convert as JavaScript converts
      them; an array of two elements is NaN. */
  lemma PositiveExamples()
    ensures Positive(Str("+3")) && !Positive(Str("-3")) && Positive(Arr([Num(5)]))
    ensures Positive(Arr([Str("2")])) && !Positive(Arr([])) && !Positive(Arr([Num(1), Num(2)]))
    ensures Positive(Bool(true)) && !Positive(Null) && !Positive(Obj(map[]))
  {
    assert Trim("+3") == "+3";
    assert Trim("-3") == "-3";
    assert Trim("2") == "2";
    assert "+3"[1..] == "3" && DigitsValue("3") == 3;
  }

  /** A value compared with `> 0` is positive only if it is truthy. */
  lemma PositiveIsTruthy(v: Value)
    ensures Positive(v) ==> Truthy(v)
  {
    if v.Str? && Positive(v) {
      if v.s == "" {
        TrimEmptyIff(v.s);
      }
    }
  }
}
