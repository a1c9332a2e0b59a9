/// The JSON reader of the Android pipeline: a mutable position, recursive
/// methods, and a specification that says what they read.
module Json {
  /// A UTF-16 unit, and text made of them.
  type Unit = x: int | 0 <= x < 0x1_0000

  type Text = seq<Unit>

  const QUOTE: Unit := 0x22
  const PLUS: Unit := 0x2B
  const COMMA: Unit := 0x2C
  const MINUS: Unit := 0x2D
  const DOT: Unit := 0x2E
  const SLASH: Unit := 0x2F
  const ZERO: Unit := 0x30
  const NINE: Unit := 0x39
  const COLON: Unit := 0x3A
  const UPPER_E: Unit := 0x45
  const OPEN_BRACKET: Unit := 0x5B
  const BACKSLASH: Unit := 0x5C
  const CLOSE_BRACKET: Unit := 0x5D
  const LOWER_E: Unit := 0x65
  const LOWER_U: Unit := 0x75
  const OPEN_BRACE: Unit := 0x7B
  const CLOSE_BRACE: Unit := 0x7D
  const TRUE: Text := [0x74, 0x72, 0x75, 0x65]
  const FALSE: Text := [0x66, 0x61, 0x6C, 0x73, 0x65]
  const NULL: Text := [0x6E, 0x75, 0x6C, 0x6C]

  const MIN_LONG := -0x8000_0000_0000_0000
  const MAX_LONG := 0x7FFF_FFFF_FFFF_FFFF

  /// A double is known by the text it was read from.
  datatype Value =
    | Null
    | Bool(b: bool)
    | Long(n: int)
    | Double(lexeme: Text)
    | Str(s: Text)
    | Arr(items: seq<Value>)
    | Obj(fields: map<Text, Value>)

  datatype Read<+T> = Good(value: T, next: nat) | Bad

  predicate White(c: Unit) { c == 0x20 || c == 0x0A || c == 0x0D || c == 0x09 }

  predicate Digit(c: Unit) { ZERO <= c <= NINE }

  predicate NumberUnit(c: Unit) { Digit(c) || c == DOT || c == LOWER_E || c == UPPER_E || c == PLUS || c == MINUS }

  function Skip(t: Text, i: nat): (j: nat)
    requires i <= |t|
    ensures i <= j <= |t|
    ensures forall k :: i <= k < j ==> White(t[k])
    ensures j < |t| ==> !White(t[j])
    decreases |t| - i
  {
    if i < |t| && White(t[i]) then Skip(t, i + 1) else i
  }

  /// The single-character escapes, or -1.
  function Escape(e: Unit): (c: int)
    ensures -1 <= c < 0x1_0000
  {
    if e == QUOTE || e == BACKSLASH || e == SLASH then e
    else if e == 0x62 then 0x08
    else if e == 0x66 then 0x0C
    else if e == 0x6E then 0x0A
    else if e == 0x72 then 0x0D
    else if e == 0x74 then 0x09
    else -1
  }

  /// `Character.digit(c, 16)` of an ASCII unit, or -1.
  function HexDigit(c: Unit): (d: int)
    ensures -1 <= d < 16
  {
    if Digit(c) then c - ZERO else if 0x61 <= c <= 0x66 then c - 0x61 + 10 else if 0x41 <= c <= 0x46 then c - 0x41 + 10 else -1
  }

  /// The digits of `s`, or -1 if one is none.
  function HexDigits(s: Text): (n: int)
    ensures n >= -1
  {
    if s == [] then 0
    else
      var high, low := HexDigits(s[..|s| - 1]), HexDigit(s[|s| - 1]);
      if high < 0 || low < 0 then -1 else high * 16 + low
  }

  /// `toInt(16).toChar()`, which takes a sign too, or -1.
  function Hex(s: Text): (n: int)
    requires |s| == 4
    ensures -1 <= n < 0x1_0000
  {
    if s[0] == PLUS || s[0] == MINUS then
      var n := HexDigits(s[1..]);
      if n < 0 then -1 else if s[0] == PLUS then n % 0x1_0000 else (-n) % 0x1_0000
    else
      var n := HexDigits(s);
      if n < 0 then -1 else n % 0x1_0000
  }

  /// `readString`, after its opening quote.
  function String(t: Text, i: nat, read: Text): (r: Read<Text>)
    ensures r.Good? ==> i < r.next <= |t|
    decreases |t| - i
  {
    if i >= |t| then Bad
    else if t[i] == QUOTE then Good(read, i + 1)
    else if t[i] != BACKSLASH then String(t, i + 1, read + [t[i]])
    else if i + 1 >= |t| then Bad
    else if t[i + 1] == LOWER_U then
      if i + 6 > |t| || Hex(t[i + 2..i + 6]) < 0 then Bad else String(t, i + 6, read + [Hex(t[i + 2..i + 6])])
    else if Escape(t[i + 1]) < 0 then Bad
    else String(t, i + 2, read + [Escape(t[i + 1])])
  }

  function NumberEnd(t: Text, i: nat): (j: nat)
    ensures i <= j && (i <= |t| ==> j <= |t|)
    decreases |t| - i
  {
    if i < |t| && NumberUnit(t[i]) then NumberEnd(t, i + 1) else i
  }

  lemma NoDigits()
    ensures AllDigits([])
  {}

  lemma DigitsGrow(t: Text, i: nat, j: nat)
    requires i <= j < |t|
    ensures AllDigits(t[i..j + 1]) <==> AllDigits(t[i..j]) && Digit(t[j])
  {
    var short, long := t[i..j], t[i..j + 1];
    assert forall k :: 0 <= k < |short| ==> short[k] == long[k];
    assert long[j - i] == t[j];
  }

  predicate AllDigits(s: Text) { forall k :: 0 <= k < |s| ==> Digit(s[k]) }

  function Decimal(s: Text): nat
    requires AllDigits(s)
  {
    if s == [] then 0 else Decimal(s[..|s| - 1]) * 10 + (s[|s| - 1] - ZERO)
  }

  function Unsigned(s: Text): Text { if s != [] && s[0] == MINUS then s[1..] else s }

  /// `toLong()`, of an optional sign and digits.
  function ToLong(s: Text): (n: Value)
  {
    if !AllDigits(Unsigned(s)) || Unsigned(s) == [] then Null
    else
      var size: int := Decimal(Unsigned(s));
      var n := if s[0] == MINUS then -size else size;
      if MIN_LONG <= n <= MAX_LONG then Long(n) else Null
  }

  /// `readNumber`. `doubles` says which texts `toDouble()` takes.
  function Number(t: Text, i: nat, doubles: Text -> bool): (r: Read<Value>)
    requires i < |t| && (t[i] == MINUS || Digit(t[i]))
    ensures r.Good? ==> i < r.next <= |t|
  {
    var j := NumberEnd(t, i + 1);
    var s := t[i..j];
    if AllDigits(Unsigned(s)) then if ToLong(s).Long? then Good(ToLong(s), j) else Bad
    else if doubles(s) then Good(Double(s), j) else Bad
  }

  predicate Starts(t: Text, i: nat, word: Text) { i + |word| <= |t| && t[i..i + |word|] == word }

  function Literal(t: Text, i: nat, word: Text, value: Value): Read<Value> {
    if Starts(t, i, word) then Good(value, i + |word|) else Bad
  }

  /// `readValue`.
  function Any(t: Text, i: nat, doubles: Text -> bool): (r: Read<Value>)
    requires i <= |t|
    ensures r.Good? ==> i < r.next <= |t|
    decreases |t| - i, 1
  {
    var j := Skip(t, i);
    if j >= |t| then Bad else Dispatch(t, j, doubles)
  }

  /// The `when` of `readValue`.
  function Dispatch(t: Text, j: nat, doubles: Text -> bool): (r: Read<Value>)
    requires j < |t|
    ensures r.Good? ==> j < r.next <= |t|
    decreases |t| - j, 0
  {
    if t[j] == OPEN_BRACE then Braced(t, j, doubles)
    else if t[j] == OPEN_BRACKET then Bracketed(t, j, doubles)
    else if t[j] == QUOTE then (match String(t, j + 1, []) case Bad => Bad case Good(s, k) => Good(Str(s), k))
    else if t[j] == TRUE[0] then Literal(t, j, TRUE, Bool(true))
    else if t[j] == FALSE[0] then Literal(t, j, FALSE, Bool(false))
    else if t[j] == NULL[0] then Literal(t, j, NULL, Null)
    else if t[j] == MINUS || Digit(t[j]) then Number(t, j, doubles)
    else Bad
  }

  /// `readObject`.
  function Braced(t: Text, i: nat, doubles: Text -> bool): (r: Read<Value>)
    requires i < |t|
    ensures r.Good? ==> i < r.next <= |t|
    decreases |t| - i - 1, 4
  {
    var j := Skip(t, i + 1);
    if j >= |t| then Bad
    else if t[j] == CLOSE_BRACE then Good(Obj(map[]), j + 1)
    else Fields(t, j, map[], doubles)
  }

  datatype Entry = Entry(key: Text, value: Value)

  /// A key, its value, and the white space around them.
  function Field(t: Text, i: nat, doubles: Text -> bool): (r: Read<Entry>)
    requires i <= |t|
    ensures r.Good? ==> i < r.next <= |t|
    decreases |t| - i, 2, 1
  {
    FieldAt(t, Skip(t, i), doubles)
  }

  function FieldAt(t: Text, j: nat, doubles: Text -> bool): (r: Read<Entry>)
    requires j <= |t|
    ensures r.Good? ==> j < r.next <= |t|
    decreases |t| - j, 2, 0
  {
    if j >= |t| || t[j] != QUOTE then Bad
    else
      match String(t, j + 1, [])
      case Bad => Bad
      case Good(key, k) =>
        var k := Skip(t, k);
        if k >= |t| || t[k] != COLON then Bad
        else
          match Element(t, k + 1, doubles)
          case Bad => Bad
          case Good(value, m) => Good(Entry(key, value), m)
  }

  /// The loop of `readObject`.
  function Fields(t: Text, i: nat, read: map<Text, Value>, doubles: Text -> bool): (r: Read<Value>)
    requires i <= |t|
    ensures r.Good? ==> i < r.next <= |t|
    decreases |t| - i, 3
  {
    match Field(t, i, doubles)
    case Bad => Bad
    case Good(e, m) =>
      if m >= |t| then Bad
      else if t[m] == COMMA then Fields(t, m + 1, read[e.key := e.value], doubles)
      else if t[m] == CLOSE_BRACE then Good(Obj(read[e.key := e.value]), m + 1)
      else Bad
  }

  /// `readArray`.
  function Bracketed(t: Text, i: nat, doubles: Text -> bool): (r: Read<Value>)
    requires i < |t|
    ensures r.Good? ==> i < r.next <= |t|
    decreases |t| - i - 1, 4
  {
    var j := Skip(t, i + 1);
    if j >= |t| then Bad
    else if t[j] == CLOSE_BRACKET then Good(Arr([]), j + 1)
    else Elements(t, j, [], doubles)
  }

  /// A value and the white space around it.
  function Element(t: Text, i: nat, doubles: Text -> bool): (r: Read<Value>)
    requires i <= |t|
    ensures r.Good? ==> i < r.next <= |t|
    decreases |t| - i, 2
  {
    match Any(t, i, doubles)
    case Bad => Bad
    case Good(value, m) => Good(value, Skip(t, m))
  }

  /// The loop of `readArray`.
  function Elements(t: Text, i: nat, read: seq<Value>, doubles: Text -> bool): (r: Read<Value>)
    requires i <= |t|
    ensures r.Good? ==> i < r.next <= |t|
    decreases |t| - i, 3
  {
    match Element(t, i, doubles)
    case Bad => Bad
    case Good(value, m) =>
      if m >= |t| then Bad
      else if t[m] == COMMA then Elements(t, m + 1, read + [value], doubles)
      else if t[m] == CLOSE_BRACKET then Good(Arr(read + [value]), m + 1)
      else Bad
  }

  /// `parse`.
  function Parse(t: Text, doubles: Text -> bool): Read<Value> {
    match Any(t, Skip(t, 0), doubles)
    case Bad => Bad
    case Good(value, j) => if Skip(t, j) == |t| then Good(value, |t|) else Bad
  }

  /// The reader. Each method that can fail says whether it did; it never reads
  /// outside the text, and it terminates.
  class Reader {
    const text: Text
    const doubles: Text -> bool
    var pos: nat

    constructor (text: Text, doubles: Text -> bool)
      ensures this.text == text && this.doubles == doubles && pos == 0
    {
      this.text, this.doubles, pos := text, doubles, 0;
    }

    method SkipWhitespace()
      requires pos <= |text|
      modifies this
      ensures pos == Skip(text, old(pos))
    {
      while pos < |text| && White(text[pos])
        invariant pos <= |text| && Skip(text, old(pos)) == Skip(text, pos)
      {
        pos := pos + 1;
      }
    }

    method ReadString() returns (s: Text, ok: bool)
      requires pos < |text|
      modifies this
      ensures ok == String(text, old(pos) + 1, []).Good? && pos <= |text|
      ensures ok ==> Good(s, pos) == String(text, old(pos) + 1, [])
    {
      pos := pos + 1;
      s := [];
      while true
        invariant pos <= |text| && String(text, old(pos) + 1, []) == String(text, pos, s)
        decreases |text| - pos
      {
        if pos >= |text| { return s, false; }
        var c := text[pos];
        pos := pos + 1;
        if c == QUOTE {
          return s, true;
        } else if c == BACKSLASH {
          if pos >= |text| { return s, false; }
          var e := text[pos];
          pos := pos + 1;
          if e == LOWER_U {
            if pos + 4 > |text| { return s, false; }
            var code := Hex(text[pos..pos + 4]);
            if code < 0 { return s, false; }
            s := s + [code];
            pos := pos + 4;
          } else {
            if Escape(e) < 0 { return s, false; }
            s := s + [Escape(e)];
          }
        } else {
          s := s + [c];
        }
      }
    }

    method ReadNumber() returns (v: Value, ok: bool)
      requires pos < |text| && (text[pos] == MINUS || Digit(text[pos]))
      modifies this
      ensures ok == Number(text, old(pos), doubles).Good? && pos <= |text|
      ensures ok ==> Good(v, pos) == Number(text, old(pos), doubles)
    {
      hide AllDigits, ToLong;
      var start, integer := pos, true;
      if text[pos] == MINUS { pos := pos + 1; }
      ghost var first := pos;
      NoDigits();
      assert text[first..pos] == [];
      while pos < |text|
        invariant start <= first <= pos <= |text| && (first == start ==> Digit(text[start]))
        invariant NumberEnd(text, start + 1) == NumberEnd(text, if pos == start then start + 1 else pos)
        invariant integer <==> AllDigits(text[first..pos])
      {
        var c := text[pos];
        DigitsGrow(text, first, pos);
        if Digit(c) {
          pos := pos + 1;
        } else if NumberUnit(c) {
          integer, pos := false, pos + 1;
        } else {
          break;
        }
      }
      v := Null;
      var s := text[start..pos];
      assert Unsigned(s) == text[first..pos];
      if integer {
        v := ToLong(s);
        return v, v.Long?;
      }
      return Double(s), doubles(s);
    }

    method ReadLiteral(word: Text, value: Value) returns (v: Value, ok: bool)
      requires pos <= |text|
      modifies this
      ensures ok == Literal(text, old(pos), word, value).Good? && pos <= |text|
      ensures ok ==> Good(v, pos) == Literal(text, old(pos), word, value)
    {
      v, ok := value, Starts(text, pos, word);
      if ok { pos := pos + |word|; }
    }

    method ReadValue() returns (v: Value, ok: bool)
      requires pos <= |text|
      modifies this
      ensures ok == Any(text, old(pos), doubles).Good? && pos <= |text|
      ensures ok ==> Good(v, pos) == Any(text, old(pos), doubles)
      decreases |text| - pos, 0
    {
      SkipWhitespace();
      v := Null;
      if pos >= |text| { return v, false; }
      var c := text[pos];
      if c == OPEN_BRACE {
        v, ok := ReadObject();
      } else if c == OPEN_BRACKET {
        v, ok := ReadArray();
      } else if c == QUOTE {
        var s: Text;
        s, ok := ReadString();
        v := Str(s);
      } else if c == TRUE[0] {
        v, ok := ReadLiteral(TRUE, Bool(true));
      } else if c == FALSE[0] {
        v, ok := ReadLiteral(FALSE, Bool(false));
      } else if c == NULL[0] {
        v, ok := ReadLiteral(NULL, Null);
      } else if c == MINUS || Digit(c) {
        v, ok := ReadNumber();
      } else {
        ok := false;
      }
    }

    /// One round of `readObject`, up to its delimiter.
    method ReadField() returns (key: Text, value: Value, ok: bool)
      requires pos <= |text|
      modifies this
      ensures ok == Field(text, old(pos), doubles).Good? && pos <= |text|
      ensures ok ==> Good(Entry(key, value), pos) == Field(text, old(pos), doubles)
      decreases |text| - pos, 1
    {
      hide Any, String;
      key, value := [], Null;
      SkipWhitespace();
      ghost var start := pos;
      assert Field(text, old(pos), doubles) == FieldAt(text, start, doubles);
      if pos >= |text| || text[pos] != QUOTE { return key, value, false; }
      key, ok := ReadString();
      if !ok { return key, value, false; }
      SkipWhitespace();
      if pos >= |text| || text[pos] != COLON { return key, value, false; }
      pos := pos + 1;
      value, ok := ReadElement();
    }

    method ReadObject() returns (v: Value, ok: bool)
      requires pos < |text|
      modifies this
      ensures ok == Braced(text, old(pos), doubles).Good? && pos <= |text|
      ensures ok ==> Good(v, pos) == Braced(text, old(pos), doubles)
      decreases |text| - pos - 1, 3
    {
      hide Field;
      ghost var start := pos;
      v := Null;
      var result: map<Text, Value> := map[];
      pos := pos + 1;
      SkipWhitespace();
      if pos >= |text| { return v, false; }
      if text[pos] == CLOSE_BRACE {
        pos := pos + 1;
        return Obj(result), true;
      }
      while true
        invariant start < pos <= |text| && Braced(text, start, doubles) == Fields(text, pos, result, doubles)
        decreases |text| - pos
      {
        ghost var first := pos;
        var key: Text;
        var value: Value;
        key, value, ok := ReadField();
        if !ok || pos >= |text| { return v, false; }
        result := result[key := value];
        if text[pos] == COMMA {
          pos := pos + 1;
        } else if text[pos] == CLOSE_BRACE {
          pos := pos + 1;
          return Obj(result), true;
        } else {
          return v, false;
        }
      }
    }

    /// One round of `readArray`, up to its delimiter.
    method ReadElement() returns (value: Value, ok: bool)
      requires pos <= |text|
      modifies this
      ensures ok == Element(text, old(pos), doubles).Good? && pos <= |text|
      ensures ok ==> Good(value, pos) == Element(text, old(pos), doubles)
      decreases |text| - pos, 1
    {
      hide Any;
      value, ok := ReadValue();
      if ok { SkipWhitespace(); }
    }

    method ReadArray() returns (v: Value, ok: bool)
      requires pos < |text|
      modifies this
      ensures ok == Bracketed(text, old(pos), doubles).Good? && pos <= |text|
      ensures ok ==> Good(v, pos) == Bracketed(text, old(pos), doubles)
      decreases |text| - pos - 1, 3
    {
      hide Element;
      ghost var start := pos;
      v := Null;
      var result: seq<Value> := [];
      pos := pos + 1;
      SkipWhitespace();
      if pos >= |text| { return v, false; }
      if text[pos] == CLOSE_BRACKET {
        pos := pos + 1;
        return Arr(result), true;
      }
      while true
        invariant start < pos <= |text| && Bracketed(text, start, doubles) == Elements(text, pos, result, doubles)
        decreases |text| - pos
      {
        var value: Value;
        value, ok := ReadElement();
        if !ok || pos >= |text| { return v, false; }
        result := result + [value];
        if text[pos] == COMMA {
          pos := pos + 1;
        } else if text[pos] == CLOSE_BRACKET {
          pos := pos + 1;
          return Arr(result), true;
        } else {
          return v, false;
        }
      }
    }
  }

  /// `Json.parse`.
  method ParseText(text: Text, doubles: Text -> bool) returns (v: Value, ok: bool)
    ensures ok == Parse(text, doubles).Good?
    ensures ok ==> v == Parse(text, doubles).value
  {
    var reader := new Reader(text, doubles);
    reader.SkipWhitespace();
    v, ok := reader.ReadValue();
    if !ok { return; }
    reader.SkipWhitespace();
    ok := reader.pos == |text|;
  }
}
