// JSON values, the canonical text that `json.dumps(..., ensure_ascii=False, separators=(",", ":"))`
// prints for them, and a reader for JSON texts (RFC 8259, sections 2 to 7).
module Json {
  import opened Wrappers
  import opened Text

  datatype Json =
    | Null
    | Bool(b: bool)
    | Int(n: int)
    | Str(s: string)
    | Arr(items: seq<Json>)
    | Obj(fields: seq<Field>)

  datatype Field = Field(key: string, value: Json)

  // ---- Objects as dictionaries ----

  function Lookup(fields: seq<Field>, key: string): Option<Json> {
    if fields == [] then None
    else if fields[0].key == key then Some(fields[0].value)
    else Lookup(fields[1..], key)
  }

  function Keys(fields: seq<Field>): set<string> {
    set f <- fields :: f.key
  }

  predicate UniqueKeys(fields: seq<Field>) {
    fields == [] || (fields[0].key !in Keys(fields[1..]) && UniqueKeys(fields[1..]))
  }

  /** No object inside the value repeats a key, as `_reject_duplicate_keys` demands. */
  predicate NoDuplicates(j: Json) {
    match j
    case Arr(items) => forall x <- items :: NoDuplicates(x)
    case Obj(fields) => UniqueKeys(fields) && forall f <- fields :: NoDuplicates(f.value)
    case _ => true
  }

  // ---- Printing ----

  function HexDigit(d: int): char
    requires 0 <= d < 16
  {
    "0123456789abcdef"[d]
  }

  function EscapeChar(c: char): string {
    if c == '"' then "\\\""
    else if c == '\\' then "\\\\"
    else if c == '\n' then "\\n"
    else if c == '\r' then "\\r"
    else if c == '\t' then "\\t"
    else if c == '\U{c}' then "\\f"
    else if c == '\U{8}' then "\\b"
    else if c < ' ' then "\\u00" + [HexDigit(c as int / 16), HexDigit(c as int % 16)]
    else [c]
  }

  function Escape(s: string): string {
    if s == [] then [] else EscapeChar(s[0]) + Escape(s[1..])
  }

  function Quote(s: string): string {
    "\"" + Escape(s) + "\""
  }

  function Digit(d: nat): char
    requires d < 10
  {
    "0123456789"[d]
  }

  function Digits(n: nat): string {
    if n < 10 then [Digit(n)] else Digits(n / 10) + [Digit(n % 10)]
  }

  function PrintInt(n: int): string {
    if n < 0 then "-" + Digits(-n) else Digits(n)
  }

  function Print(j: Json): string
    decreases j, 1
  {
    match j
    case Null => "null"
    case Bool(b) => if b then "true" else "false"
    case Int(n) => PrintInt(n)
    case Str(s) => Quote(s)
    case Arr(items) => if items == [] then "[]" else "[" + Print(items[0]) + PrintItems(items[1..])
    case Obj(fields) => if fields == [] then "{}" else "{" + PrintField(fields[0]) + PrintFields(fields[1..])
  }

  /** The items after the first one, and the closing bracket. */
  function PrintItems(items: seq<Json>): string
    decreases items, 0
  {
    if items == [] then "]" else "," + Print(items[0]) + PrintItems(items[1..])
  }

  function PrintField(field: Field): string
    decreases field, 2
  {
    Quote(field.key) + ":" + Print(field.value)
  }

  function PrintFields(fields: seq<Field>): string
    decreases fields, 0
  {
    if fields == [] then "}" else "," + PrintField(fields[0]) + PrintFields(fields[1..])
  }

  // ---- Reading ----

  datatype JsonError = NotJson | DuplicateKey

  /** A value read from the front of a text, and the text after it. */
  datatype Read<T> = Read(value: T, rest: string)

  predicate IsWhite(c: char) {
    c == ' ' || c == '\t' || c == '\n' || c == '\r'
  }

  function SkipWhite(s: string): (r: string)
    ensures |r| <= |s|
  {
    if s != [] && IsWhite(s[0]) then SkipWhite(s[1..]) else s
  }

  predicate StartsWith(s: string, prefix: string) {
    |s| >= |prefix| && s[..|prefix|] == prefix
  }

  function HexValue(c: char): Option<int> {
    if '0' <= c <= '9' then Some(c as int - '0' as int)
    else if 'a' <= c <= 'f' then Some(c as int - 'a' as int + 10)
    else if 'A' <= c <= 'F' then Some(c as int - 'A' as int + 10)
    else None
  }

  /** The character of a four-digit escape; escaped surrogates are refused. */
  function ReadHex(s: string): Option<char>
    requires |s| >= 4
  {
    var (a, b, c, d) := (HexValue(s[0]), HexValue(s[1]), HexValue(s[2]), HexValue(s[3]));
    if a.Some? && b.Some? && c.Some? && d.Some? then
      var code := a.value * 4096 + b.value * 256 + c.value * 16 + d.value;
      if 0 <= code < 0xD800 || 0xE000 <= code < 0x1_0000 then Some(code as char) else None
    else None
  }

  /** One character of a string literal. */
  function ReadChar(s: string): (r: Option<Read<char>>)
    requires s != []
    ensures r.Some? ==> |r.value.rest| < |s|
  {
    if s[0] < ' ' then None
    else if s[0] != '\\' then Some(Read(s[0], s[1..]))
    else if |s| < 2 then None
    else if s[1] == '"' || s[1] == '\\' || s[1] == '/' then Some(Read(s[1], s[2..]))
    else if s[1] == 'n' then Some(Read('\n', s[2..]))
    else if s[1] == 'r' then Some(Read('\r', s[2..]))
    else if s[1] == 't' then Some(Read('\t', s[2..]))
    else if s[1] == 'f' then Some(Read('\U{c}', s[2..]))
    else if s[1] == 'b' then Some(Read('\U{8}', s[2..]))
    else if s[1] == 'u' && |s| >= 6 then
      var c := ReadHex(s[2..]);
      if c.Some? then Some(Read(c.value, s[6..])) else None
    else None
  }

  /** The rest of a string literal, after its opening quotation mark. */
  function ReadString(s: string): (r: Result<Read<string>, JsonError>)
    ensures r.Ok? ==> |r.value.rest| < |s|
    decreases |s|
  {
    if s == [] then Err(NotJson)
    else if s[0] == '"' then Ok(Read("", s[1..]))
    else
      var c := ReadChar(s);
      if c == None then Err(NotJson)
      else
        var tail :- ReadString(c.value.rest);
        Ok(Read([c.value.value] + tail.value, tail.rest))
  }

  /** The number of digits at the front of a text. */
  function CountDigits(s: string): (n: nat)
    ensures n <= |s|
  {
    if s != [] && IsDigit(s[0]) then 1 + CountDigits(s[1..]) else 0
  }

  function ToNat(digits: string): nat {
    if digits == [] then 0
    else ToNat(digits[..|digits| - 1]) * 10 + DigitValue(digits[|digits| - 1])
  }

  function DigitValue(c: char): nat {
    if IsDigit(c) then c as int - '0' as int else 0
  }

  /** The digits of an integer; a leading zero, a fraction or an exponent is refused. */
  function ReadNat(s: string): (r: Result<Read<nat>, JsonError>)
    ensures r.Ok? ==> |r.value.rest| < |s|
  {
    var n := CountDigits(s);
    if n == 0 || (s[0] == '0' && n > 1) then Err(NotJson)
    else if n < |s| && (s[n] == '.' || s[n] == 'e' || s[n] == 'E') then Err(NotJson)
    else Ok(Read(ToNat(s[..n]), s[n..]))
  }

  function ReadInt(s: string): (r: Result<Read<Json>, JsonError>)
    ensures r.Ok? ==> |r.value.rest| < |s|
  {
    if s != [] && s[0] == '-' then
      var n :- ReadNat(s[1..]);
      var m: int := n.value;
      Ok(Read(Int(-m), n.rest))
    else
      var n :- ReadNat(s);
      Ok(Read(Int(n.value), n.rest))
  }

  function ReadWord(s: string): (r: Result<Read<Json>, JsonError>)
    ensures r.Ok? ==> |r.value.rest| < |s|
  {
    if StartsWith(s, "null") then Ok(Read(Null, s[4..]))
    else if StartsWith(s, "true") then Ok(Read(Bool(true), s[4..]))
    else if StartsWith(s, "false") then Ok(Read(Bool(false), s[5..]))
    else Err(NotJson)
  }

  function ReadValue(text: string): (r: Result<Read<Json>, JsonError>)
    ensures r.Ok? ==> |r.value.rest| < |text|
    decreases |text|, 2
  {
    var s := SkipWhite(text);
    if s == [] then Err(NotJson)
    else if s[0] == '"' then
      var str :- ReadString(s[1..]);
      Ok(Read(Str(str.value), str.rest))
    else if s[0] == '[' then ReadArray(s[1..])
    else if s[0] == '{' then ReadObject(s[1..])
    else if s[0] == 'n' || s[0] == 't' || s[0] == 'f' then ReadWord(s)
    else ReadInt(s)
  }

  /** An array, after its opening bracket. */
  function ReadArray(text: string): (r: Result<Read<Json>, JsonError>)
    ensures r.Ok? ==> |r.value.rest| < |text|
    decreases |text|, 3
  {
    var s := SkipWhite(text);
    if s != [] && s[0] == ']' then Ok(Read(Arr([]), s[1..]))
    else
      var first :- ReadValue(text);
      var others :- ReadItems(first.rest);
      Ok(Read(Arr([first.value] + others.value), others.rest))
  }

  /** An object, after its opening brace. */
  function ReadObject(text: string): (r: Result<Read<Json>, JsonError>)
    ensures r.Ok? ==> |r.value.rest| < |text|
    decreases |text|, 3
  {
    var s := SkipWhite(text);
    if s != [] && s[0] == '}' then Ok(Read(Obj([]), s[1..]))
    else
      var first :- ReadField(text);
      var others :- ReadFields(first.rest);
      var fields := [first.value] + others.value;
      if UniqueKeys(fields) then Ok(Read(Obj(fields), others.rest)) else Err(DuplicateKey)
  }

  function ReadItems(text: string): (r: Result<Read<seq<Json>>, JsonError>)
    ensures r.Ok? ==> |r.value.rest| < |text|
    decreases |text|, 0
  {
    var s := SkipWhite(text);
    if s == [] then Err(NotJson)
    else if s[0] == ']' then Ok(Read([], s[1..]))
    else if s[0] == ',' then
      var first :- ReadValue(s[1..]);
      var others :- ReadItems(first.rest);
      Ok(Read([first.value] + others.value, others.rest))
    else Err(NotJson)
  }

  function ReadField(text: string): (r: Result<Read<Field>, JsonError>)
    ensures r.Ok? ==> |r.value.rest| < |text|
    decreases |text|, 0
  {
    var s := SkipWhite(text);
    if s == [] || s[0] != '"' then Err(NotJson)
    else
      var key :- ReadString(s[1..]);
      var after := SkipWhite(key.rest);
      if after == [] || after[0] != ':' then Err(NotJson)
      else
        var value :- ReadValue(after[1..]);
        Ok(Read(Field(key.value, value.value), value.rest))
  }

  function ReadFields(text: string): (r: Result<Read<seq<Field>>, JsonError>)
    ensures r.Ok? ==> |r.value.rest| < |text|
    decreases |text|, 0
  {
    var s := SkipWhite(text);
    if s == [] then Err(NotJson)
    else if s[0] == '}' then Ok(Read([], s[1..]))
    else if s[0] == ',' then
      var first :- ReadField(s[1..]);
      var others :- ReadFields(first.rest);
      Ok(Read([first.value] + others.value, others.rest))
    else Err(NotJson)
  }

  /** `json.loads` with the duplicate-key hook. */
  function Parse(text: string): Result<Json, JsonError> {
    var value :- ReadValue(text);
    if SkipWhite(value.rest) == [] then Ok(value.value) else Err(NotJson)
  }

  // ---- Reading back what was printed ----

  lemma HexRoundTrip(d: int)
    requires 0 <= d < 16
    ensures HexValue(HexDigit(d)) == Some(d)
  {
    assert d in {0, 1, 2, 3, 4, 5, 6, 7, 8, 9, 10, 11, 12, 13, 14, 15};
  }

  lemma ReadEscapedControl(c: char, rest: string)
    requires c < ' ' && EscapeChar(c) == "\\u00" + [HexDigit(c as int / 16), HexDigit(c as int % 16)]
    ensures ReadChar(EscapeChar(c) + rest) == Some(Read(c, rest))
  {
    var high, low := HexDigit(c as int / 16), HexDigit(c as int % 16);
    var s := EscapeChar(c) + rest;
    HexRoundTrip(c as int / 16);
    HexRoundTrip(c as int % 16);
    assert s[0] == '\\' && s[1] == 'u' && s[2] == '0' && s[3] == '0' && s[4] == high && s[5] == low;
    assert s[2..][0] == '0' && s[2..][1] == '0' && s[2..][2] == high && s[2..][3] == low;
    assert s[6..] == rest;
  }

  lemma ReadEscaped(c: char, rest: string)
    ensures ReadChar(EscapeChar(c) + rest) == Some(Read(c, rest))
    ensures EscapeChar(c) != [] && EscapeChar(c)[0] != '"'
  {
    var s := EscapeChar(c) + rest;
    if |EscapeChar(c)| == 6 {
      ReadEscapedControl(c, rest);
    } else if |EscapeChar(c)| == 2 {
      assert s[0] == EscapeChar(c)[0] && s[1] == EscapeChar(c)[1];
      assert s[2..] == rest;
    } else {
      assert s[0] == c && s[1..] == rest;
    }
  }

  lemma ReadStringStep(s: string, c: char, more: string, t: string, rest: string)
    requires s != [] && s[0] != '"' && ReadChar(s) == Some(Read(c, more)) && ReadString(more) == Ok(Read(t, rest))
    ensures ReadString(s) == Ok(Read([c] + t, rest))
  {
  }

  lemma EscapeLayout(t: string, rest: string)
    ensures Escape(t) + ("\"" + rest) ==
            if t == [] then "\"" + rest else EscapeChar(t[0]) + (Escape(t[1..]) + ("\"" + rest))
  {
  }

  lemma ReadEnd(rest: string)
    ensures ReadString("\"" + rest) == Ok(Read("", rest))
  {
    assert ("\"" + rest)[1..] == rest;
  }

  lemma {:induction false} ReadQuoted(t: string, rest: string)
    ensures ReadString(Escape(t) + ("\"" + rest)) == Ok(Read(t, rest))
  {
    hide ReadString, EscapeChar, Escape;
    EscapeLayout(t, rest);
    if t == [] {
      ReadEnd(rest);
    } else {
      var tail := Escape(t[1..]) + ("\"" + rest);
      ReadQuoted(t[1..], rest);
      ReadEscapedStep(t[0], tail, t[1..], rest);
      assert t == [t[0]] + t[1..];
    }
  }

  lemma ReadEscapedStep(c: char, tail: string, t: string, rest: string)
    requires ReadString(tail) == Ok(Read(t, rest))
    ensures ReadString(EscapeChar(c) + tail) == Ok(Read([c] + t, rest))
  {
    ReadEscapedFront(c, tail, EscapeChar(c) + tail);
    ReadStringStep(EscapeChar(c) + tail, c, tail, t, rest);
  }

  lemma ReadEscapedFront(c: char, tail: string, s: string)
    requires s == EscapeChar(c) + tail
    ensures ReadChar(s) == Some(Read(c, tail)) && s != [] && s[0] != '"'
  {
    ReadEscaped(c, tail);
  }

  lemma ToNatSnoc(front: string, d: nat)
    requires AllDigits(front) && d < 10
    ensures AllDigits(front + [Digit(d)]) && ToNat(front + [Digit(d)]) == ToNat(front) * 10 + d
  {
    assert (front + [Digit(d)])[..|front|] == front;
    assert d in {0, 1, 2, 3, 4, 5, 6, 7, 8, 9};
  }

  lemma {:induction false} DigitsAreCanonical(n: nat)
    ensures Digits(n) != [] && AllDigits(Digits(n)) && ToNat(Digits(n)) == n
    ensures Digits(n)[0] == '0' ==> n == 0 && |Digits(n)| == 1
  {
    if n >= 10 {
      DigitsAreCanonical(n / 10);
      ToNatSnoc(Digits(n / 10), n % 10);
    } else {
      ToNatSnoc([], n);
      assert [] + [Digit(n)] == Digits(n);
    }
  }

  lemma {:induction false} CountOfDigits(digits: string, rest: string)
    requires AllDigits(digits)
    requires rest != [] ==> !IsDigit(rest[0])
    ensures CountDigits(digits + rest) == |digits|
  {
    if digits == [] {
      assert digits + rest == rest;
    } else {
      CountOfDigits(digits[1..], rest);
      assert (digits + rest)[1..] == digits[1..] + rest;
    }
  }

  /** What may follow a value inside a text. */
  predicate Delimited(rest: string) {
    rest == [] || rest[0] == ',' || rest[0] == ']' || rest[0] == '}' || IsWhite(rest[0])
  }

  lemma ReadPrintedNat(n: nat, rest: string)
    requires Delimited(rest)
    ensures ReadNat(Digits(n) + rest) == Ok(Read(n, rest))
    ensures Digits(n) != [] && IsDigit(Digits(n)[0]) && (Digits(n) + rest)[0] == Digits(n)[0]
  {
    var digits := Digits(n);
    DigitsAreCanonical(n);
    CountOfDigits(digits, rest);
    assert (digits + rest)[|digits|..] == rest && (digits + rest)[..|digits|] == digits;
  }

  lemma ReadPrintedInt(n: int, rest: string)
    requires Delimited(rest)
    ensures ReadInt(PrintInt(n) + rest) == Ok(Read(Int(n), rest))
    ensures var s := PrintInt(n) + rest; s != [] && (IsDigit(s[0]) || s[0] == '-')
    ensures PrintInt(n) != [] && (IsDigit(PrintInt(n)[0]) || PrintInt(n)[0] == '-')
  {
    hide ReadInt, ReadNat, Digits, Delimited;
    var m: nat := if n < 0 then -n else n;
    ReadPrintedNat(m, rest);
    IntStep(n, m, Digits(m) + rest, rest);
    assert (PrintInt(n) + rest)[0] == PrintInt(n)[0];
    assert n < 0 ==> PrintInt(n) + rest == "-" + (Digits(m) + rest);
  }

  lemma IntStep(n: int, m: nat, text: string, rest: string)
    requires m == if n < 0 then -n else n
    requires text != [] && IsDigit(text[0]) && ReadNat(text) == Ok(Read(m, rest))
    ensures ReadInt(if n < 0 then "-" + text else text) == Ok(Read(Int(n), rest))
  {
    assert ("-" + text)[1..] == text;
  }

  /** The first character of a printed value decides how it is read. */
  lemma FirstCharacter(j: Json, tail: string)
    ensures Print(j) != []
    ensures var s := Print(j) + tail;
            s != [] && !IsWhite(s[0]) && s[0] != ']' && s[0] != '}' && SkipWhite(s) == s
  {
    if j.Int? {
      ReadPrintedInt(j.n, []);
    }
    assert (Print(j) + tail)[0] == Print(j)[0];
  }

  lemma ReadPrintedWord(j: Json, rest: string)
    requires j.Null? || j.Bool?
    ensures ReadValue(Print(j) + rest) == Ok(Read(j, rest))
  {
    var word := Print(j);
    var s := word + rest;
    assert s[0] == word[0] && s[..|word|] == word && s[|word|..] == rest;
    if j == Bool(false) || j == Bool(true) {
      assert s[..4][0] != "null"[0];
      assert s[..4][0] == word[0];
    }
  }

  // The layout of printed values, for the readers above.

  lemma StringLayout(t: string, rest: string)
    ensures Print(Str(t)) + rest == "\"" + (Escape(t) + ("\"" + rest))
  {
  }

  lemma ArrayLayout(items: seq<Json>, rest: string)
    ensures Print(Arr(items)) + rest ==
            "[" + (if items == [] then "]" + rest else Print(items[0]) + (PrintItems(items[1..]) + rest))
  {
  }

  lemma ItemsLayout(items: seq<Json>, rest: string)
    ensures PrintItems(items) + rest ==
            if items == [] then "]" + rest else "," + (Print(items[0]) + (PrintItems(items[1..]) + rest))
  {
  }

  lemma FieldLayout(field: Field, rest: string)
    ensures PrintField(field) + rest ==
            "\"" + (Escape(field.key) + ("\"" + (":" + (Print(field.value) + rest))))
  {
  }

  lemma ObjectLayout(fields: seq<Field>, rest: string)
    ensures Print(Obj(fields)) + rest ==
            "{" + (if fields == [] then "}" + rest else PrintField(fields[0]) + (PrintFields(fields[1..]) + rest))
  {
  }

  lemma FieldsLayout(fields: seq<Field>, rest: string)
    ensures PrintFields(fields) + rest ==
            if fields == [] then "}" + rest else "," + (PrintField(fields[0]) + (PrintFields(fields[1..]) + rest))
  {
  }

  lemma ReadArrayStep(text: string, first: Json, after: string, others: seq<Json>, rest: string)
    requires SkipWhite(text) == text && text != [] && text[0] != ']'
    requires ReadValue(text) == Ok(Read(first, after)) && ReadItems(after) == Ok(Read(others, rest))
    ensures ReadArray(text) == Ok(Read(Arr([first] + others), rest))
  {
  }

  lemma ReadItemsStep(text: string, first: Json, after: string, others: seq<Json>, rest: string)
    requires ReadValue(text) == Ok(Read(first, after)) && ReadItems(after) == Ok(Read(others, rest))
    ensures ReadItems("," + text) == Ok(Read([first] + others, rest))
  {
    assert ("," + text)[1..] == text;
  }

  lemma ReadFieldStep(text: string, key: string, value: Json, after: string, rest: string)
    requires ReadString(text) == Ok(Read(key, ":" + after)) && ReadValue(after) == Ok(Read(value, rest))
    ensures ReadField("\"" + text) == Ok(Read(Field(key, value), rest))
  {
    assert ("\"" + text)[1..] == text && (":" + after)[1..] == after;
  }

  lemma ReadObjectStep(text: string, first: Field, after: string, others: seq<Field>, rest: string)
    requires SkipWhite(text) == text && text != [] && text[0] != '}'
    requires ReadField(text) == Ok(Read(first, after)) && ReadFields(after) == Ok(Read(others, rest))
    requires UniqueKeys([first] + others)
    ensures ReadObject(text) == Ok(Read(Obj([first] + others), rest))
  {
  }

  lemma ReadFieldsStep(text: string, first: Field, after: string, others: seq<Field>, rest: string)
    requires ReadField(text) == Ok(Read(first, after)) && ReadFields(after) == Ok(Read(others, rest))
    ensures ReadFields("," + text) == Ok(Read([first] + others, rest))
  {
    assert ("," + text)[1..] == text;
  }

  lemma ReadMarked(mark: char, text: string)
    requires mark == '[' || mark == '{' || mark == '"'
    ensures ReadValue([mark] + text) ==
            if mark == '[' then ReadArray(text)
            else if mark == '{' then ReadObject(text)
            else match ReadString(text)
                 case Ok(r) => Ok(Read(Str(r.value), r.rest))
                 case Err(e) => Err(e)
  {
    assert ([mark] + text)[1..] == text;
  }

  lemma {:induction false} ReadPrinted(j: Json, rest: string)
    requires NoDuplicates(j) && Delimited(rest)
    ensures ReadValue(Print(j) + rest) == Ok(Read(j, rest))
    decreases j, 1
  {
    match j
    case Null => ReadPrintedWord(j, rest);
    case Bool(b) => ReadPrintedWord(j, rest);
    case Int(n) => ReadPrintedNumber(n, rest);
    case Str(t) =>
      ReadQuoted(t, rest);
      ReadMarked('"', Escape(t) + ("\"" + rest));
      StringLayout(t, rest);
    case Arr(items) =>
      ReadPrintedArray(items, rest);
      ReadMarked('[', if items == [] then "]" + rest else Print(items[0]) + (PrintItems(items[1..]) + rest));
      ArrayLayout(items, rest);
    case Obj(fields) =>
      ReadPrintedObject(fields, rest);
      ReadMarked('{', if fields == [] then "}" + rest else PrintField(fields[0]) + (PrintFields(fields[1..]) + rest));
      ObjectLayout(fields, rest);
  }

  lemma ReadPrintedNumber(n: int, rest: string)
    requires Delimited(rest)
    ensures ReadValue(Print(Int(n)) + rest) == Ok(Read(Int(n), rest))
  {
    ReadPrintedInt(n, rest);
    NumberStep(PrintInt(n) + rest, Read(Int(n), rest));
  }

  lemma NumberStep(s: string, r: Read<Json>)
    requires s != [] && (IsDigit(s[0]) || s[0] == '-') && ReadInt(s) == Ok(r)
    ensures ReadValue(s) == Ok(r)
  {
  }

  lemma {:induction false} ReadPrintedArray(items: seq<Json>, rest: string)
    requires (forall x <- items :: NoDuplicates(x)) && Delimited(rest)
    ensures ReadArray(if items == [] then "]" + rest else Print(items[0]) + (PrintItems(items[1..]) + rest)) ==
            Ok(Read(Arr(items), rest))
    decreases items, 3
  {
    if items == [] {
      assert ("]" + rest)[1..] == rest;
    } else {
      var tail := PrintItems(items[1..]) + rest;
      ReadPrintedItems(items[1..], rest);
      ReadPrinted(items[0], tail);
      FirstCharacter(items[0], tail);
      ReadArrayStep(Print(items[0]) + tail, items[0], tail, items[1..], rest);
      assert items == [items[0]] + items[1..];
    }
  }

  lemma {:induction false} ReadPrintedItems(items: seq<Json>, rest: string)
    requires (forall x <- items :: NoDuplicates(x)) && Delimited(rest)
    ensures ReadItems(PrintItems(items) + rest) == Ok(Read(items, rest))
    ensures Delimited(PrintItems(items) + rest)
    decreases items, 0
  {
    ItemsLayout(items, rest);
    if items == [] {
      assert ("]" + rest)[1..] == rest;
    } else {
      var tail := PrintItems(items[1..]) + rest;
      ReadPrintedItems(items[1..], rest);
      ReadPrinted(items[0], tail);
      ReadItemsStep(Print(items[0]) + tail, items[0], tail, items[1..], rest);
      assert items == [items[0]] + items[1..];
    }
  }

  lemma {:induction false} ReadPrintedField(field: Field, rest: string)
    requires NoDuplicates(field.value) && Delimited(rest)
    ensures ReadField(PrintField(field) + rest) == Ok(Read(field, rest))
    ensures var s := PrintField(field) + rest; s != [] && s[0] == '"' && SkipWhite(s) == s
    decreases field, 2
  {
    var after := Print(field.value) + rest;
    ReadQuoted(field.key, ":" + after);
    ReadPrinted(field.value, rest);
    ReadFieldStep(Escape(field.key) + ("\"" + (":" + after)), field.key, field.value, after, rest);
    FieldLayout(field, rest);
  }

  lemma {:induction false} ReadPrintedObject(fields: seq<Field>, rest: string)
    requires NoDuplicates(Obj(fields)) && Delimited(rest)
    ensures ReadObject(if fields == [] then "}" + rest
                       else PrintField(fields[0]) + (PrintFields(fields[1..]) + rest)) ==
            Ok(Read(Obj(fields), rest))
    decreases fields, 3
  {
    if fields == [] {
      assert ("}" + rest)[1..] == rest;
    } else {
      var tail := PrintFields(fields[1..]) + rest;
      ReadPrintedFields(fields[1..], rest);
      ReadPrintedField(fields[0], tail);
      assert fields == [fields[0]] + fields[1..];
      ReadObjectStep(PrintField(fields[0]) + tail, fields[0], tail, fields[1..], rest);
    }
  }

  lemma {:induction false} ReadPrintedFields(fields: seq<Field>, rest: string)
    requires (forall f <- fields :: NoDuplicates(f.value)) && Delimited(rest)
    ensures ReadFields(PrintFields(fields) + rest) == Ok(Read(fields, rest))
    ensures Delimited(PrintFields(fields) + rest)
    decreases fields, 0
  {
    FieldsLayout(fields, rest);
    if fields == [] {
      assert ("}" + rest)[1..] == rest;
    } else {
      var tail := PrintFields(fields[1..]) + rest;
      ReadPrintedFields(fields[1..], rest);
      ReadPrintedField(fields[0], tail);
      ReadFieldsStep(PrintField(fields[0]) + tail, fields[0], tail, fields[1..], rest);
      assert fields == [fields[0]] + fields[1..];
    }
  }

  /** Reading a printed value gives it back. */
  lemma ParsePrint(j: Json)
    requires NoDuplicates(j)
    ensures Parse(Print(j)) == Ok(j)
  {
    ReadPrinted(j, []);
    assert Print(j) + [] == Print(j);
  }

  /** Two values with the same canonical text are the same value. */
  lemma PrintIsInjective(a: Json, b: Json)
    requires NoDuplicates(a) && NoDuplicates(b)
    ensures Print(a) == Print(b) <==> a == b
  {
    ParsePrint(a);
    ParsePrint(b);
  }

  // ---- The loop of `_reject_duplicate_keys` ----

  /** The dictionary that a sequence of pairs fills. */
  function Dictionary(pairs: seq<Field>): (d: map<string, Json>)
    ensures d.Keys == Keys(pairs)
  {
    if pairs == [] then map[]
    else
      var (front, last) := (pairs[..|pairs| - 1], pairs[|pairs| - 1]);
      assert pairs == front + [last];
      Dictionary(front)[last.key := last.value]
  }

  lemma {:induction false} UniqueKeysConcat(a: seq<Field>, b: seq<Field>)
    ensures UniqueKeys(a + b) <==> UniqueKeys(a) && UniqueKeys(b) && Keys(a) !! Keys(b)
  {
    if a == [] {
      assert a + b == b;
    } else {
      UniqueKeysConcat(a[1..], b);
      assert (a + b)[1..] == a[1..] + b && a == [a[0]] + a[1..];
      assert Keys(a[1..] + b) == Keys(a[1..]) + Keys(b);
      assert Keys(a) == {a[0].key} + Keys(a[1..]);
    }
  }

  lemma {:induction false} LookupConcat(a: seq<Field>, b: seq<Field>, key: string)
    ensures Lookup(a + b, key) == if key in Keys(a) then Lookup(a, key) else Lookup(b, key)
  {
    if a == [] {
      assert a + b == b;
    } else {
      LookupConcat(a[1..], b, key);
      assert (a + b)[1..] == a[1..] + b && a == [a[0]] + a[1..];
      assert Keys(a) == {a[0].key} + Keys(a[1..]);
    }
  }

  /** With unique keys, looking a key up in the pairs is looking it up in the dictionary. */
  lemma {:induction false} DictionaryLookup(pairs: seq<Field>, key: string)
    requires UniqueKeys(pairs)
    ensures Lookup(pairs, key) == if key in Dictionary(pairs) then Some(Dictionary(pairs)[key]) else None
  {
    if pairs != [] {
      var front, last := pairs[..|pairs| - 1], pairs[|pairs| - 1];
      assert pairs == front + [last];
      UniqueKeysConcat(front, [last]);
      LookupConcat(front, [last], key);
      DictionaryLookup(front, key);
    }
  }

  /**
   * The dictionary of an object, in which each key has the value of its one pair, or a refusal exactly
   * when a key is repeated.
   */
  method RejectDuplicateKeys(pairs: seq<Field>) returns (r: Result<map<string, Json>, JsonError>)
    ensures r == if UniqueKeys(pairs) then Ok(Dictionary(pairs)) else Err(DuplicateKey)
    ensures r.Ok? ==> forall key :: Lookup(pairs, key) == if key in r.value then Some(r.value[key]) else None
  {
    var result: map<string, Json> := map[];
    for i := 0 to |pairs|
      invariant result == Dictionary(pairs[..i]) && UniqueKeys(pairs[..i])
    {
      DictionarySnoc(pairs, i);
      if pairs[i].key in result {
        return Err(DuplicateKey);
      }
      result := result[pairs[i].key := pairs[i].value];
    }
    assert pairs[..|pairs|] == pairs;
    forall key ensures Lookup(pairs, key) == if key in result then Some(result[key]) else None {
      DictionaryLookup(pairs, key);
    }
    return Ok(result);
  }

  lemma SingleField(f: Field)
    ensures UniqueKeys([f]) && Keys([f]) == {f.key}
  {
    assert [f][1..] == [];
  }

  lemma DictionarySnoc(pairs: seq<Field>, i: nat)
    requires i < |pairs| && UniqueKeys(pairs[..i])
    ensures pairs[i].key in Keys(pairs[..i]) ==> !UniqueKeys(pairs)
    ensures pairs[i].key !in Keys(pairs[..i]) ==> UniqueKeys(pairs[..i + 1])
    ensures Dictionary(pairs[..i + 1]) == Dictionary(pairs[..i])[pairs[i].key := pairs[i].value]
  {
    hide UniqueKeys, Keys, Dictionary;
    var front, f, after := pairs[..i], pairs[i], pairs[i + 1..];
    DictionaryExtended(front, f);
    KeysExtended(front, f, after);
    assert pairs[..i + 1] == front + [f];
    assert pairs == (front + [f]) + after;
  }

  lemma KeysExtended(front: seq<Field>, f: Field, after: seq<Field>)
    requires UniqueKeys(front)
    ensures f.key in Keys(front) ==> !UniqueKeys((front + [f]) + after)
    ensures f.key !in Keys(front) ==> UniqueKeys(front + [f])
  {
    hide UniqueKeys, Keys;
    SingleField(f);
    UniqueKeysConcat(front, [f]);
    UniqueKeysConcat(front + [f], after);
  }

  lemma DictionaryExtended(front: seq<Field>, f: Field)
    ensures Dictionary(front + [f]) == Dictionary(front)[f.key := f.value]
  {
    assert (front + [f])[..|front|] == front;
  }

  // ---- The order of `sort_keys` ----

  /** Code-point order, the order of Python strings. */
  predicate Less(a: string, b: string) {
    b != [] && (a == [] || a[0] < b[0] || (a[0] == b[0] && Less(a[1..], b[1..])))
  }

  /** One is a proper beginning of the other, or smaller at the first place where they differ. */
  lemma {:induction false} LessIff(a: string, b: string)
    ensures Less(a, b) <==> exists n :: 0 <= n <= |a| && n < |b| && a[..n] == b[..n] && (n == |a| || a[n] < b[n])
  {
    if a != [] && b != [] && a[0] == b[0] {
      LessIff(a[1..], b[1..]);
      if Less(a[1..], b[1..]) {
        var n :| 0 <= n <= |a[1..]| && n < |b[1..]| && a[1..][..n] == b[1..][..n]
          && (n == |a[1..]| || a[1..][n] < b[1..][n]);
        assert a[..n + 1] == [a[0]] + a[1..][..n] && b[..n + 1] == [b[0]] + b[1..][..n];
      }
      if n :| 0 <= n <= |a| && n < |b| && a[..n] == b[..n] && (n == |a| || a[n] < b[n]) {
        assert n > 0;
        assert a[1..][..n - 1] == a[..n][1..] && b[1..][..n - 1] == b[..n][1..];
      }
    } else if b != [] {
      assert a[..0] == b[..0];
      forall n | 0 < n <= |a| && n < |b| ensures a[..n] != b[..n] {
        assert a[..n][0] == a[0] && b[..n][0] == b[0];
      }
    }
  }

  predicate SortedKeys(j: Json) {
    match j
    case Arr(items) => forall x <- items :: SortedKeys(x)
    case Obj(fields) =>
      && (forall i :: 0 < i < |fields| ==> Less(fields[i - 1].key, fields[i].key))
      && forall f <- fields :: SortedKeys(f.value)
    case _ => true
  }
}
