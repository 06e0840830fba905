// RFC 8259, sections 2 to 7: which texts denote which value. The reader of Json accepts exactly these,
// with integers only and without repeated keys.
module JsonGrammar {
  import opened Wrappers
  import opened Text
  import opened Json

  // ---- The grammar ----

  /** Section 2: white space. */
  predicate White(s: string) {
    forall c <- s :: c in " \t\n\r"
  }

  /** Section 7: a hexadecimal digit. */
  predicate HexDigitOf(h: char, v: int) {
    0 <= v < 16 && (h == "0123456789abcdef"[v] || h == "0123456789ABCDEF"[v])
  }

  /** Section 7: the two-character escapes. */
  predicate ShortEscape(e: char, c: char) {
    match e
    case '"' => c == '"'
    case '\\' => c == '\\'
    case '/' => c == '/'
    case 'b' => c == '\U{8}'
    case 'f' => c == '\U{c}'
    case 'n' => c == '\n'
    case 'r' => c == '\r'
    case 't' => c == '\t'
    case _ => false
  }

  /** Section 7: how one character may be written in a string. */
  predicate Writes(u: string, c: char) {
    || (u == [c] && c >= ' ' && c != '"' && c != '\\')
    || (|u| == 2 && u[0] == '\\' && ShortEscape(u[1], c))
    || (|u| == 6 && u[0] == '\\' && u[1] == 'u' && WritesHex(u, c as int))
  }

  predicate WritesHex(u: string, code: int)
    requires |u| == 6
  {
    && 0 <= code < 65536
    && HexDigitOf(u[2], code / 16 / 16 / 16) && HexDigitOf(u[3], code / 16 / 16 % 16)
    && HexDigitOf(u[4], code / 16 % 16) && HexDigitOf(u[5], code % 16)
  }

  /** Section 7: what may stand between the quotation marks of a string. */
  ghost predicate Literal(s: string, t: string)
    decreases t
  {
    if t == [] then s == []
    else exists u, more :: s == u + more && Writes(u, t[0]) && Literal(more, t[1..])
  }

  ghost predicate Quoted(s: string, t: string) {
    exists body :: s == "\"" + body + "\"" && Literal(body, t)
  }

  /** Section 6, without fraction and exponent. */
  predicate Numeral(s: string, n: int) {
    || (n >= 0 && s == Digits(n))
    || (n <= 0 && s == "-" + Digits(-n))
  }

  /** Section 3: values. */
  ghost predicate Denotes(s: string, j: Json)
    decreases j, 1
  {
    match j
    case Null => s == "null"
    case Bool(b) => s == if b then "true" else "false"
    case Int(n) => Numeral(s, n)
    case Str(t) => Quoted(s, t)
    case Arr(items) =>
      if items == [] then exists blank :: s == "[" + blank + "]" && White(blank)
      else exists first, more :: s == "[" + first + more && Padded(first, items[0]) && MoreItems(more, items[1..])
    case Obj(fields) =>
      && UniqueKeys(fields)
      && (if fields == [] then exists blank :: s == "{" + blank + "}" && White(blank)
          else
            exists first, more ::
              s == "{" + first + more && Member(first, fields[0]) && MoreMembers(more, fields[1..]))
  }

  /** A value between white space. */
  ghost predicate Padded(s: string, j: Json)
    decreases j, 2
  {
    exists before, value, after ::
      s == before + value + after && White(before) && Denotes(value, j) && White(after)
  }

  /** Section 5: the items after the first one, each behind a comma, and the closing bracket. */
  ghost predicate MoreItems(s: string, items: seq<Json>)
    decreases items, 0
  {
    if items == [] then s == "]"
    else exists first, more :: s == "," + first + more && Padded(first, items[0]) && MoreItems(more, items[1..])
  }

  /** Section 4: a name, a colon and a value. */
  ghost predicate Member(s: string, f: Field)
    decreases f, 3
  {
    exists before, name, after, value ::
      s == before + name + after + ":" + value
      && White(before) && Quoted(name, f.key) && White(after) && Padded(value, f.value)
  }

  ghost predicate MoreMembers(s: string, fields: seq<Field>)
    decreases fields, 0
  {
    if fields == [] then s == "}"
    else exists first, more :: s == "," + first + more && Member(first, fields[0]) && MoreMembers(more, fields[1..])
  }

  // ---- Characters, strings and numbers ----

  lemma {:induction false} SkipsWhite(s: string) returns (blank: string)
    ensures White(blank) && s == blank + SkipWhite(s)
    ensures SkipWhite(s) == [] || !IsWhite(SkipWhite(s)[0])
  {
    blank := [];
    if s != [] && IsWhite(s[0]) {
      blank := SkipsWhite(s[1..]);
      assert s == [s[0]] + s[1..];
      blank := [s[0]] + blank;
    }
  }

  lemma {:induction false} SkipsAllWhite(blank: string, rest: string)
    requires White(blank)
    ensures SkipWhite(blank + rest) == SkipWhite(rest)
  {
    if blank == [] {
      assert blank + rest == rest;
    } else {
      assert blank[0] in blank;
      SkipsAllWhite(blank[1..], rest);
      assert (blank + rest)[1..] == blank[1..] + rest;
    }
  }

  lemma HexDigitIff(h: char, v: int)
    ensures HexValue(h) == Some(v) <==> HexDigitOf(h, v)
  {
    if 0 <= v < 16 {
      assert v in {0, 1, 2, 3, 4, 5, 6, 7, 8, 9, 10, 11, 12, 13, 14, 15};
    }
  }

  lemma HexIff(u: string, c: char)
    requires |u| == 6
    ensures ReadHex(u[2..]) == Some(c) <==> WritesHex(u, c as int)
  {
    hide HexDigitOf, HexValue;
    var s := u[2..];
    assert s[0] == u[2] && s[1] == u[3] && s[2] == u[4] && s[3] == u[5];
    forall h, v ensures HexValue(h) == Some(v) <==> HexDigitOf(h, v) {
      HexDigitIff(h, v);
    }
    HexRange();
    HexCode(s, c);
  }

  lemma HexRange()
    ensures forall h, v :: HexDigitOf(h, v) ==> 0 <= v < 16
  {
  }

  lemma HexCode(s: string, c: char)
    requires |s| == 4
    requires forall h, v :: HexValue(h) == Some(v) <==> HexDigitOf(h, v)
    requires forall h, v :: HexDigitOf(h, v) ==> 0 <= v < 16
    ensures ReadHex(s) == Some(c) <==>
            && (c as int) < 65536
            && HexDigitOf(s[0], c as int / 16 / 16 / 16) && HexDigitOf(s[1], c as int / 16 / 16 % 16)
            && HexDigitOf(s[2], c as int / 16 % 16) && HexDigitOf(s[3], c as int % 16)
  {
    hide HexDigitOf, HexValue;
    var code := c as int;
    if HexValue(s[0]).Some? && HexValue(s[1]).Some? && HexValue(s[2]).Some? && HexValue(s[3]).Some? {
      Hexadecimal(HexValue(s[0]).value, HexValue(s[1]).value, HexValue(s[2]).value, HexValue(s[3]).value, code);
    }
  }

  lemma Hexadecimal(a: int, b: int, c: int, d: int, code: int)
    requires 0 <= a < 16 && 0 <= b < 16 && 0 <= c < 16 && 0 <= d < 16 && 0 <= code
    ensures code == a * 4096 + b * 256 + c * 16 + d <==>
            && code < 65536
            && a == code / 16 / 16 / 16 && b == code / 16 / 16 % 16 && c == code / 16 % 16 && d == code % 16
  {
    LastDigit(code, (a * 16 + b) * 16 + c, d);
    LastDigit(code / 16, a * 16 + b, c);
    LastDigit(code / 16 / 16, a, b);
  }

  lemma LastDigit(n: int, q: int, d: int)
    requires 0 <= d < 16
    ensures n == q * 16 + d <==> n / 16 == q && n % 16 == d
  {
  }

  lemma ReadCharSound(s: string) returns (u: string)
    requires s != [] && s[0] != '"' && ReadChar(s).Some?
    ensures Writes(u, ReadChar(s).value.value) && s == u + ReadChar(s).value.rest && u != []
  {
    if s[0] != '\\' {
      u := s[..1];
    } else if s[1] == 'u' {
      u := s[..6];
      assert s[2..][..4] == u[2..];
      ReadHexFront(s[2..]);
      HexIff(u, ReadChar(s).value.value);
    } else {
      u := s[..2];
    }
  }

  lemma ReadHexFront(s: string)
    requires |s| >= 4
    ensures ReadHex(s) == ReadHex(s[..4])
  {
  }

  lemma ReadCharComplete(u: string, c: char, rest: string)
    requires Writes(u, c)
    ensures u != [] && u[0] != '"' && ReadChar(u + rest) == Some(Read(c, rest))
  {
    var s := u + rest;
    if |u| == 6 {
      assert s[0] == '\\' && s[1] == 'u' && s[2..][..4] == u[2..] && s[6..] == rest;
      ReadHexFront(s[2..]);
      HexIff(u, c);
    } else if |u| == 2 {
      assert s[0] == u[0] && s[1] == u[1] && s[2..] == rest;
    } else {
      assert s[0] == c && s[1..] == rest;
    }
  }

  lemma {:induction false} ReadStringSound(s: string) returns (body: string)
    requires ReadString(s).Ok?
    ensures Literal(body, ReadString(s).value.value) && s == body + "\"" + ReadString(s).value.rest
    decreases |s|
  {
    hide ReadChar, Writes, ReadString, Literal;
    StringParts(s);
    if s[0] == '"' {
      body := [];
      NoLiteral();
      assert s == "\"" + s[1..];
    } else {
      var u := ReadCharSound(s);
      var read := ReadChar(s).value;
      var more := ReadStringSound(read.rest);
      body := u + more;
      LiteralBy(u, more, read.value, ReadString(read.rest).value.value);
      Assoc(u, more + "\"", ReadString(s).value.rest);
      Assoc(u, more, "\"");
    }
  }

  lemma StringParts(s: string)
    requires ReadString(s).Ok?
    ensures s != []
    ensures if s[0] == '"' then ReadString(s) == Ok(Read("", s[1..]))
            else
              && ReadChar(s).Some? && ReadString(ReadChar(s).value.rest).Ok?
              && var (c, tail) := (ReadChar(s).value, ReadString(ReadChar(s).value.rest).value);
                 ReadString(s) == Ok(Read([c.value] + tail.value, tail.rest))
  {
    hide ReadChar;
  }

  lemma NoLiteral()
    ensures Literal([], [])
  {
  }

  lemma LiteralBy(u: string, more: string, c: char, t: string)
    requires Writes(u, c) && Literal(more, t)
    ensures Literal(u + more, [c] + t)
  {
    hide Writes;
    assert ([c] + t)[0] == c && ([c] + t)[1..] == t;
  }

  lemma {:induction false} ReadStringComplete(body: string, t: string, rest: string)
    requires Literal(body, t)
    ensures ReadString(body + ("\"" + rest)) == Ok(Read(t, rest))
    decreases |t|
  {
    hide ReadChar, Writes, ReadString;
    if t == [] {
      assert body + ("\"" + rest) == "\"" + rest;
      ReadEnd(rest);
    } else {
      var u, more :| body == u + more && Writes(u, t[0]) && Literal(more, t[1..]);
      var tail := more + ("\"" + rest);
      ReadStringComplete(more, t[1..], rest);
      ReadCharComplete(u, t[0], tail);
      assert body + ("\"" + rest) == u + tail;
      ReadStringStep(u + tail, t[0], tail, t[1..], rest);
      assert t == [t[0]] + t[1..];
    }
  }

  /** A numeral is read as its value if nothing that follows could belong to it. */
  lemma ReadNumeral(s: string, n: int, rest: string)
    requires Numeral(s, n) && Delimited(rest)
    ensures ReadInt(s + rest) == Ok(Read(Int(n), rest))
    ensures s != [] && (IsDigit(s[0]) || s[0] == '-')
  {
    if n == 0 && s == "-" + Digits(0) {
      ReadPrintedNat(0, rest);
      assert (s + rest)[1..] == Digits(0) + rest;
    } else {
      ReadPrintedInt(n, rest);
    }
  }

  lemma NumeralIsRead(s: string) returns (numeral: string)
    requires ReadInt(s).Ok?
    ensures ReadInt(s).value.value.Int? && Numeral(numeral, ReadInt(s).value.value.n)
    ensures s == numeral + ReadInt(s).value.rest
  {
    if s[0] == '-' {
      var digits := NatIsRead(s[1..]);
      numeral := "-" + digits;
    } else {
      numeral := NatIsRead(s);
    }
  }

  lemma NatIsRead(s: string) returns (digits: string)
    requires ReadNat(s).Ok?
    ensures digits == Digits(ReadNat(s).value.value) && s == digits + ReadNat(s).value.rest
  {
    var n := CountDigits(s);
    digits := s[..n];
    CountedAreDigits(s);
    CanonicalDigits(digits);
  }

  lemma {:induction false} CountedAreDigits(s: string)
    ensures AllDigits(s[..CountDigits(s)])
  {
    if s != [] && IsDigit(s[0]) {
      CountedAreDigits(s[1..]);
      assert s[..CountDigits(s)] == [s[0]] + s[1..][..CountDigits(s[1..])];
    }
  }

  /** Digits without a leading zero are those of their value. */
  lemma {:induction false} CanonicalDigits(digits: string)
    requires digits != [] && AllDigits(digits) && (digits[0] == '0' ==> |digits| == 1)
    ensures digits == Digits(ToNat(digits)) && (|digits| > 1 ==> ToNat(digits) > 0)
  {
    var (front, last) := (digits[..|digits| - 1], digits[|digits| - 1]);
    assert digits == front + [last];
    DigitOf(last);
    if front == [] {
      assert ToNat(digits) == DigitValue(last);
    } else {
      CanonicalDigits(front);
      PositiveFront(front);
      assert (ToNat(front) * 10 + DigitValue(last)) / 10 == ToNat(front);
      assert (ToNat(front) * 10 + DigitValue(last)) % 10 == DigitValue(last);
    }
  }

  lemma DigitOf(c: char)
    requires IsDigit(c)
    ensures Digit(DigitValue(c)) == c
  {
    assert DigitValue(c) in {0, 1, 2, 3, 4, 5, 6, 7, 8, 9};
  }

  lemma PositiveFront(front: string)
    requires front != [] && AllDigits(front) && front[0] != '0' && front == Digits(ToNat(front))
    ensures ToNat(front) > 0
  {
  }

  // ---- Whatever is read is in the grammar ----

  lemma Assoc(a: string, b: string, c: string)
    ensures a + (b + c) == (a + b) + c
  {
  }

  lemma Glue2(a: string, b: string, c: string, d: string, rest: string)
    ensures a + b + (c + d + rest) == a + b + c + d + rest
  {
    Assoc(a + b, c + d, rest);
    Assoc(a + b, c, d);
  }

  /** Two pieces of text behind a mark, put together. */
  lemma Glue(blank: string, mark: string, a: string, b: string, c: string, d: string, rest: string)
    ensures blank + (mark + (a + b + (c + d + rest))) == (blank + (mark + (a + b + c) + d)) + rest
  {
    Assoc(a + b, c + d, rest);
    Assoc(a + b, c, d);
    Assoc(mark, a + b + c + d, rest);
    Assoc(mark, a + b + c, d);
    Assoc(blank, mark + (a + b + c) + d, rest);
  }

  lemma WordIsRead(s: string) returns (word: string)
    requires ReadWord(s).Ok?
    ensures Denotes(word, ReadWord(s).value.value) && s == word + ReadWord(s).value.rest
  {
    word := s[..|s| - |ReadWord(s).value.rest|];
  }

  lemma ValueParts(text: string)
    requires ReadValue(text).Ok?
    ensures var s := SkipWhite(text);
            && s != []
            && ReadValue(text) ==
               if s[0] == '"' then
                 match ReadString(s[1..])
                 case Ok(r) => Ok(Read(Str(r.value), r.rest))
                 case Err(e) => Err(e)
               else if s[0] == '[' then ReadArray(s[1..])
               else if s[0] == '{' then ReadObject(s[1..])
               else if s[0] == 'n' || s[0] == 't' || s[0] == 'f' then ReadWord(s)
               else ReadInt(s)
  {
    hide SkipWhite, ReadString, ReadArray, ReadObject, ReadWord, ReadInt;
  }

  lemma {:induction false} ReadValueSound(text: string) returns (before: string, value: string)
    requires ReadValue(text).Ok?
    ensures White(before) && Denotes(value, ReadValue(text).value.value)
    ensures text == before + value + ReadValue(text).value.rest
    decreases |text|, 2
  {
    hide ReadValue, ReadString, ReadArray, ReadObject, ReadWord, ReadInt, White, Quoted, Numeral, SkipWhite, Denotes;
    ValueParts(text);
    before := SkipsWhite(text);
    var s := SkipWhite(text);
    assert s == [s[0]] + s[1..];
    if s[0] == '"' {
      value := NameIsRead(s);
      QuotedDenotes(value, ReadString(s[1..]).value.value);
    } else if s[0] == '[' {
      var inner := ReadArraySound(s[1..]);
      value := "[" + inner;
      Assoc("[", inner, ReadValue(text).value.rest);
    } else if s[0] == '{' {
      var inner := ReadObjectSound(s[1..]);
      value := "{" + inner;
      Assoc("{", inner, ReadValue(text).value.rest);
    } else if s[0] == 'n' || s[0] == 't' || s[0] == 'f' {
      value := WordIsRead(s);
    } else {
      value := NumeralIsRead(s);
      NumeralDenotes(value, ReadInt(s).value.value.n);
    }
    Assoc(before, value, ReadValue(text).value.rest);
  }

  lemma QuotedDenotes(s: string, t: string)
    requires Quoted(s, t)
    ensures Denotes(s, Str(t))
  {
  }

  lemma NumeralDenotes(s: string, n: int)
    requires Numeral(s, n)
    ensures Denotes(s, Int(n))
  {
  }

  /** An array is empty, or has a first item and others. */
  lemma ArrayParts(text: string)
    requires ReadArray(text).Ok?
    ensures var s := SkipWhite(text);
            if s != [] && s[0] == ']' then ReadArray(text) == Ok(Read(Arr([]), s[1..]))
            else
              && ReadValue(text).Ok? && ReadItems(ReadValue(text).value.rest).Ok?
              && var (first, others) := (ReadValue(text).value, ReadItems(ReadValue(text).value.rest).value);
                 ReadArray(text) == Ok(Read(Arr([first.value] + others.value), others.rest))
  {
    hide SkipWhite, ReadValue, ReadItems;
  }

  lemma EmptyArray(blank: string)
    requires White(blank)
    ensures Denotes("[" + (blank + "]"), Arr([]))
  {
    hide White;
    Assoc("[", blank, "]");
  }

  lemma {:induction false} ReadArraySound(text: string) returns (inner: string)
    requires ReadArray(text).Ok?
    ensures Denotes("[" + inner, ReadArray(text).value.value) && text == inner + ReadArray(text).value.rest
    decreases |text|, 3
  {
    hide ReadArray, ReadValue, ReadItems, White, Padded, MoreItems, Denotes, SkipWhite;
    ArrayParts(text);
    var blank := SkipsWhite(text);
    var s := SkipWhite(text);
    if s != [] && s[0] == ']' {
      inner := blank + "]";
      EmptyArray(blank);
      Assoc(blank, "]", s[1..]);
      assert s == "]" + s[1..];
    } else {
      var before, value := ReadValueSound(text);
      var first := ReadValue(text).value;
      var after, more := ReadItemsSound(first.rest);
      PaddedBy(before, value, after, first.value);
      inner := before + value + after + more;
      Glue2(before, value, after, more, ReadItems(first.rest).value.rest);
      ArrayDenotes(before + value + after, more, first.value, ReadItems(first.rest).value.value);
    }
  }

  lemma ArrayDenotes(first: string, more: string, j: Json, others: seq<Json>)
    requires Padded(first, j) && MoreItems(more, others)
    ensures Denotes("[" + (first + more), Arr([j] + others))
  {
    hide Padded, MoreItems;
    TailOf(j, others);
    Assoc("[", first, more);
  }

  lemma TailOf<T>(first: T, others: seq<T>)
    ensures ([first] + others)[0] == first && ([first] + others)[1..] == others
  {
  }

  lemma PaddedBy(before: string, value: string, after: string, j: Json)
    requires White(before) && Denotes(value, j) && White(after)
    ensures Padded(before + value + after, j)
  {
  }

  /** After an item comes the closing bracket, or a comma, an item and others. */
  lemma ItemsParts(text: string)
    requires ReadItems(text).Ok?
    ensures var s := SkipWhite(text);
            && s != []
            && if s[0] == ']' then ReadItems(text) == Ok(Read([], s[1..]))
               else
                 && s[0] == ',' && ReadValue(s[1..]).Ok? && ReadItems(ReadValue(s[1..]).value.rest).Ok?
                 && var (first, others) := (ReadValue(s[1..]).value, ReadItems(ReadValue(s[1..]).value.rest).value);
                    ReadItems(text) == Ok(Read([first.value] + others.value, others.rest))
  {
    hide SkipWhite, ReadValue;
  }

  lemma {:induction false} ReadItemsSound(text: string) returns (after: string, more: string)
    requires ReadItems(text).Ok?
    ensures White(after) && MoreItems(more, ReadItems(text).value.value)
    ensures text == after + more + ReadItems(text).value.rest
    decreases |text|, 0
  {
    hide ReadItems, ReadValue, White, Padded, MoreItems, Denotes, SkipWhite;
    ItemsParts(text);
    after := SkipsWhite(text);
    var s := SkipWhite(text);
    assert s == [s[0]] + s[1..];
    if s[0] == ']' {
      more := "]";
      NoMoreItems();
      Assoc(after, more, s[1..]);
    } else {
      var before, value := ReadValueSound(s[1..]);
      var first := ReadValue(s[1..]).value;
      var white, others := ReadItemsSound(first.rest);
      PaddedBy(before, value, white, first.value);
      more := "," + (before + value + white) + others;
      Glue(after, ",", before, value, white, others, ReadItems(text).value.rest);
      MoreItemsBy(before + value + white, others, first.value, ReadItems(first.rest).value.value);
    }
  }

  lemma NoMoreItems()
    ensures MoreItems("]", []) && MoreMembers("}", [])
  {
  }

  lemma MoreItemsBy(first: string, more: string, j: Json, others: seq<Json>)
    requires Padded(first, j) && MoreItems(more, others)
    ensures MoreItems("," + first + more, [j] + others)
  {
    hide Padded;
    TailOf(j, others);
  }

  /** An object is empty, or has a first member and others. */
  lemma ObjectParts(text: string)
    requires ReadObject(text).Ok?
    ensures var s := SkipWhite(text);
            if s != [] && s[0] == '}' then ReadObject(text) == Ok(Read(Obj([]), s[1..]))
            else
              && ReadField(text).Ok? && ReadFields(ReadField(text).value.rest).Ok?
              && var (first, others) := (ReadField(text).value, ReadFields(ReadField(text).value.rest).value);
                 && ReadObject(text) == Ok(Read(Obj([first.value] + others.value), others.rest))
                 && UniqueKeys([first.value] + others.value)
  {
    hide UniqueKeys, SkipWhite, ReadField, ReadFields;
  }

  lemma EmptyObject(blank: string)
    requires White(blank)
    ensures Denotes("{" + (blank + "}"), Obj([]))
  {
    hide White;
    Assoc("{", blank, "}");
  }

  lemma {:induction false} ReadObjectSound(text: string) returns (inner: string)
    requires ReadObject(text).Ok?
    ensures Denotes("{" + inner, ReadObject(text).value.value) && text == inner + ReadObject(text).value.rest
    decreases |text|, 3
  {
    hide ReadObject, ReadField, ReadFields, White, Member, MoreMembers, UniqueKeys, Denotes, SkipWhite, Named;
    ObjectParts(text);
    var blank := SkipsWhite(text);
    var s := SkipWhite(text);
    if s != [] && s[0] == '}' {
      inner := blank + "}";
      EmptyObject(blank);
      Assoc(blank, "}", s[1..]);
      assert s == "}" + s[1..];
    } else {
      var front, before, value := ReadFieldSound(text);
      var first := ReadField(text).value;
      var after, more := ReadFieldsSound(first.rest);
      MemberBy(front, before, value, after, first.value);
      inner := front + before + value + after + more;
      Glue2(front + before, value, after, more, ReadFields(first.rest).value.rest);
      ObjectDenotes(front + before + value + after, more, first.value, ReadFields(first.rest).value.value);
    }
  }

  lemma ObjectDenotes(first: string, more: string, f: Field, others: seq<Field>)
    requires Member(first, f) && MoreMembers(more, others) && UniqueKeys([f] + others)
    ensures Denotes("{" + (first + more), Obj([f] + others))
  {
    hide Member, MoreMembers, UniqueKeys;
    TailOf(f, others);
    Assoc("{", first, more);
  }

  lemma NoKeys()
    ensures UniqueKeys([])
  {
  }

  /** A name with its colon. */
  ghost predicate Named(front: string, key: string) {
    exists before, name, after ::
      front == before + name + after + ":" && White(before) && Quoted(name, key) && White(after)
  }

  lemma MemberBy(front: string, before: string, value: string, after: string, f: Field)
    requires Named(front, f.key) && White(before) && Denotes(value, f.value) && White(after)
    ensures Member(front + before + value + after, f)
  {
    hide White, Quoted, Denotes;
    PaddedBy(before, value, after, f.value);
    var blank, name, gap :| front == blank + name + gap + ":" && White(blank) && Quoted(name, f.key) && White(gap);
    assert front + before + value + after == blank + name + gap + ":" + (before + value + after);
  }

  lemma {:induction false} ReadFieldSound(text: string) returns (front: string, before: string, value: string)
    requires ReadField(text).Ok?
    ensures Named(front, ReadField(text).value.value.key) && White(before)
    ensures Denotes(value, ReadField(text).value.value.value)
    ensures text == front + before + value + ReadField(text).value.rest
    decreases |text|, 0
  {
    hide ReadString, ReadValue, White, Denotes, Quoted, Named, Literal;
    var blank := SkipsWhite(text);
    var s := SkipWhite(text);
    var name := NameIsRead(s);
    var key := ReadString(s[1..]).value;
    var gap := SkipsWhite(key.rest);
    var colon := SkipWhite(key.rest);
    before, value := ReadValueSound(colon[1..]);
    front := blank + name + gap + ":";
    NamedBy(blank, name, gap, key.value);
    assert colon == ":" + colon[1..];
    GlueMember(blank, name, gap, before, value, ReadField(text).value.rest);
  }

  lemma NameIsRead(s: string) returns (name: string)
    requires s != [] && s[0] == '"' && ReadString(s[1..]).Ok?
    ensures Quoted(name, ReadString(s[1..]).value.value) && s == name + ReadString(s[1..]).value.rest
  {
    hide ReadString, Literal;
    var body := ReadStringSound(s[1..]);
    name := "\"" + body + "\"";
    assert s == "\"" + s[1..];
  }

  lemma NamedBy(blank: string, name: string, gap: string, key: string)
    requires White(blank) && Quoted(name, key) && White(gap)
    ensures Named(blank + name + gap + ":", key)
  {
    hide White, Quoted;
  }

  lemma GlueMember(blank: string, name: string, gap: string, before: string, value: string, rest: string)
    ensures blank + (name + (gap + (":" + (before + value + rest)))) ==
            (blank + name + gap + ":") + before + value + rest
  {
    Assoc(":", before + value, rest);
    Assoc(":", before, value);
    Assoc(gap, ":" + before + value, rest);
    Assoc(gap, ":" + before, value);
    Assoc(gap, ":", before);
    Assoc(name, gap + ":" + before + value, rest);
    Assoc(name, gap + ":" + before, value);
    Assoc(name, gap + ":", before);
    Assoc(name, gap, ":");
    Assoc(blank, name + gap + ":" + before + value, rest);
    Assoc(blank, name + gap + ":" + before, value);
    Assoc(blank, name + gap + ":", before);
    Assoc(blank, name + gap, ":");
    Assoc(blank, name, gap);
  }

  /** After a member comes the closing brace, or a comma, a member and others. */
  lemma FieldsParts(text: string)
    requires ReadFields(text).Ok?
    ensures var s := SkipWhite(text);
            && s != []
            && if s[0] == '}' then ReadFields(text) == Ok(Read([], s[1..]))
               else
                 && s[0] == ',' && ReadField(s[1..]).Ok? && ReadFields(ReadField(s[1..]).value.rest).Ok?
                 && var (first, others) := (ReadField(s[1..]).value, ReadFields(ReadField(s[1..]).value.rest).value);
                    ReadFields(text) == Ok(Read([first.value] + others.value, others.rest))
  {
    hide SkipWhite, ReadField;
  }

  lemma {:induction false} ReadFieldsSound(text: string) returns (after: string, more: string)
    requires ReadFields(text).Ok?
    ensures White(after) && MoreMembers(more, ReadFields(text).value.value)
    ensures text == after + more + ReadFields(text).value.rest
    decreases |text|, 0
  {
    hide ReadFields, ReadField, White, Member, MoreMembers, Denotes, Named, SkipWhite;
    FieldsParts(text);
    after := SkipsWhite(text);
    var s := SkipWhite(text);
    assert s == [s[0]] + s[1..];
    if s[0] == '}' {
      more := "}";
      NoMoreItems();
      Assoc(after, more, s[1..]);
    } else {
      var front, before, value := ReadFieldSound(s[1..]);
      var first := ReadField(s[1..]).value;
      var white, others := ReadFieldsSound(first.rest);
      MemberBy(front, before, value, white, first.value);
      more := "," + (front + before + value + white) + others;
      Glue(after, ",", front + before, value, white, others, ReadFields(text).value.rest);
      MoreMembersBy(front + before + value + white, others, first.value, ReadFields(first.rest).value.value);
    }
  }

  lemma MoreMembersBy(first: string, more: string, f: Field, others: seq<Field>)
    requires Member(first, f) && MoreMembers(more, others)
    ensures MoreMembers("," + first + more, [f] + others)
  {
    hide Member;
    TailOf(f, others);
  }

  // ---- Whatever is in the grammar is read ----

  /** How a value begins. */
  predicate Begins(c: char, j: Json) {
    match j
    case Null => c == 'n'
    case Bool(b) => c == (if b then 't' else 'f')
    case Int(_) => IsDigit(c) || c == '-'
    case Str(_) => c == '"'
    case Arr(_) => c == '['
    case Obj(_) => c == '{'
  }

  lemma FirstOfValue(value: string, j: Json)
    requires Denotes(value, j)
    ensures value != [] && Begins(value[0], j)
  {
    if j.Int? {
      ReadNumeral(value, j.n, []);
    }
  }

  lemma SkipsTo(before: string, s: string)
    requires White(before) && s != [] && !IsWhite(s[0])
    ensures SkipWhite(before + s) == s
  {
    SkipsAllWhite(before, s);
  }

  /** After white space comes what ends a value. */
  lemma EndsValue(after: string, tail: string)
    requires White(after) && tail != [] && tail[0] in ",]}"
    ensures Delimited(after + tail)
  {
    if after != [] {
      assert after[0] in after;
    }
  }

  lemma {:induction false} ReadValueComplete(before: string, value: string, rest: string, j: Json)
    requires White(before) && Denotes(value, j) && Delimited(rest)
    ensures ReadValue(before + (value + rest)) == Ok(Read(j, rest))
    decreases j, 1
  {
    hide White, Delimited, ReadString, ReadArray, ReadObject, ReadInt, Numeral, Quoted, ReadWord, Denotes;
    var s := value + rest;
    FirstOfValue(value, j);
    SkipsTo(before, s);
    assert s[0] == value[0];
    match j
    case Null => ReadWordComplete(value, rest, j);
    case Bool(_) => ReadWordComplete(value, rest, j);
    case Int(n) => ReadNumeralOf(value, n, rest);
    case Str(t) => ReadQuotedOf(value, t, rest);
    case Arr(items) => ReadArrayComplete(value, rest, items);
    case Obj(fields) => ReadObjectComplete(value, rest, fields);
  }

  lemma ReadWordComplete(word: string, rest: string, j: Json)
    requires (j.Null? || j.Bool?) && Denotes(word, j)
    ensures ReadWord(word + rest) == Ok(Read(j, rest))
  {
    var s := word + rest;
    assert s[..|word|] == word && s[|word|..] == rest;
    assert word[0] == s[..4][0];
    assert "null"[0] == 'n' && "true"[0] == 't' && "false"[0] == 'f';
  }

  lemma ReadNumeralOf(value: string, n: int, rest: string)
    requires Denotes(value, Int(n)) && Delimited(rest)
    ensures ReadInt(value + rest) == Ok(Read(Int(n), rest))
  {
    ReadNumeral(value, n, rest);
  }

  lemma ReadQuotedOf(value: string, t: string, rest: string)
    requires Denotes(value, Str(t))
    ensures (value + rest) != [] && ReadString((value + rest)[1..]) == Ok(Read(t, rest))
  {
    hide Literal, ReadString;
    var body :| value == "\"" + body + "\"" && Literal(body, t);
    ReadStringComplete(body, t, rest);
    assert (value + rest)[1..] == body + ("\"" + rest);
  }

  lemma {:induction false} ReadArrayComplete(value: string, rest: string, items: seq<Json>)
    requires Denotes(value, Arr(items))
    ensures (value + rest) != [] && ReadArray((value + rest)[1..]) == Ok(Read(Arr(items), rest))
    decreases items, 2
  {
    hide White, ReadValue, ReadItems, Padded, MoreItems;
    if items == [] {
      var blank :| value == "[" + blank + "]" && White(blank);
      assert (value + rest)[1..] == blank + ("]" + rest);
      SkipsTo(blank, "]" + rest);
    } else {
      var first, more :| value == "[" + first + more && Padded(first, items[0]) && MoreItems(more, items[1..]);
      assert (value + rest)[1..] == first + (more + rest);
      var after := ReadItemComplete(first, more, rest, items);
      NotTheEnd(first, items[0], more + rest);
      assert items == [items[0]] + items[1..];
    }
  }

  /** A padded value does not begin like the end of an array or object. */
  lemma NotTheEnd(first: string, j: Json, tail: string)
    requires Padded(first, j)
    ensures var s := SkipWhite(first + tail); s != [] && s[0] != ']' && s[0] != '}'
  {
    hide White, Denotes;
    var before, value, after :| first == before + value + after && White(before) && Denotes(value, j) && White(after);
    FirstOfValue(value, j);
    assert first + tail == before + (value + after + tail);
    SkipsTo(before, value + after + tail);
  }

  /** The first of some items is read, and so are the others after it. */
  lemma {:induction false} ReadItemComplete(first: string, more: string, rest: string, items: seq<Json>)
    returns (after: string)
    requires items != [] && Padded(first, items[0]) && MoreItems(more, items[1..])
    ensures ReadValue(first + (more + rest)) == Ok(Read(items[0], after + (more + rest)))
    ensures ReadItems(after + (more + rest)) == Ok(Read(items[1..], rest))
    decreases items, 1
  {
    hide White, ReadValue, ReadItems, Denotes, MoreItems, Delimited;
    var before, value, white :|
      first == before + value + white && White(before) && Denotes(value, items[0]) && White(white);
    after := white;
    FirstOfMore(more, items[1..]);
    assert (more + rest)[0] == more[0];
    EndsValue(after, more + rest);
    ReadValueComplete(before, value, after + (more + rest), items[0]);
    Assoc(before + value, after, more + rest);
    Assoc(before, value, after + (more + rest));
    ReadItemsComplete(after, more, rest, items[1..]);
  }

  lemma FirstOfMore(more: string, items: seq<Json>)
    requires MoreItems(more, items)
    ensures more != [] && more[0] in ",]}"
  {
  }

  lemma {:induction false} ReadItemsComplete(after: string, more: string, rest: string, items: seq<Json>)
    requires White(after) && MoreItems(more, items)
    ensures ReadItems(after + (more + rest)) == Ok(Read(items, rest))
    decreases items, 2
  {
    hide White, ReadValue, ReadItems, Padded, SkipWhite, MoreItems;
    FirstOfMore(more, items);
    assert (more + rest)[0] == more[0];
    SkipsTo(after, more + rest);
    if items == [] {
      OnlyEnd(more);
      assert (more + rest)[1..] == rest;
      NoItemsStep(after + (more + rest), rest);
    } else {
      var first, others := SplitItems(more, items);
      assert more + rest == "," + (first + (others + rest)) by { Glue([], ",", first, [], [], others, rest); }
      var white := ReadItemComplete(first, others, rest, items);
      ItemsStep(after + (more + rest), first + (others + rest), items[0], white + (others + rest), items[1..], rest);
      assert items == [items[0]] + items[1..];
    }
  }

  lemma OnlyEnd(more: string)
    requires MoreItems(more, []) || MoreMembers(more, [])
    ensures more == "]" || more == "}"
    ensures MoreItems(more, []) ==> more == "]"
    ensures MoreMembers(more, []) ==> more == "}"
  {
  }

  lemma SplitItems(more: string, items: seq<Json>) returns (first: string, others: string)
    requires items != [] && MoreItems(more, items)
    ensures more == "," + first + others && Padded(first, items[0]) && MoreItems(others, items[1..])
  {
    hide Padded;
    first, others :| more == "," + first + others && Padded(first, items[0]) && MoreItems(others, items[1..]);
  }

  lemma NoItemsStep(text: string, rest: string)
    requires SkipWhite(text) == "]" + rest
    ensures ReadItems(text) == Ok(Read([], rest))
  {
    hide SkipWhite;
    assert ("]" + rest)[1..] == rest;
  }

  lemma ItemsStep(text: string, inner: string, first: Json, after: string, others: seq<Json>, rest: string)
    requires SkipWhite(text) == "," + inner
    requires ReadValue(inner) == Ok(Read(first, after)) && ReadItems(after) == Ok(Read(others, rest))
    ensures ReadItems(text) == Ok(Read([first] + others, rest))
  {
    hide SkipWhite, ReadValue;
    assert ("," + inner)[1..] == inner;
  }

  lemma {:induction false} ReadObjectComplete(value: string, rest: string, fields: seq<Field>)
    requires Denotes(value, Obj(fields))
    ensures (value + rest) != [] && ReadObject((value + rest)[1..]) == Ok(Read(Obj(fields), rest))
    decreases fields, 3
  {
    hide White, ReadField, ReadFields, Member, MoreMembers, UniqueKeys;
    if fields == [] {
      var blank :| value == "{" + blank + "}" && White(blank);
      assert (value + rest)[1..] == blank + ("}" + rest);
      SkipsTo(blank, "}" + rest);
    } else {
      var first, more :| value == "{" + first + more && Member(first, fields[0]) && MoreMembers(more, fields[1..]);
      assert (value + rest)[1..] == first + (more + rest);
      var after := ReadMemberComplete(first, more, rest, fields);
      NotTheEndOfObject(first, fields[0], more + rest);
      assert fields == [fields[0]] + fields[1..];
    }
  }

  lemma NotTheEndOfObject(first: string, f: Field, tail: string)
    requires Member(first, f)
    ensures var s := SkipWhite(first + tail); s != [] && s[0] != '}'
  {
    hide White, Literal, Padded;
    var before, name, after, value :|
      first == before + name + after + ":" + value
      && White(before) && Quoted(name, f.key) && White(after) && Padded(value, f.value);
    assert first + tail == before + (name + after + ":" + value + tail);
    SkipsTo(before, name + after + ":" + value + tail);
  }

  lemma {:induction false} ReadMemberComplete(first: string, more: string, rest: string, fields: seq<Field>)
    returns (after: string)
    requires fields != [] && Member(first, fields[0]) && MoreMembers(more, fields[1..])
    ensures ReadField(first + (more + rest)) == Ok(Read(fields[0], after + (more + rest)))
    ensures ReadFields(after + (more + rest)) == Ok(Read(fields[1..], rest))
    decreases fields, 2
  {
    hide White, ReadField, ReadFields, Member, MoreMembers, Delimited;
    FirstOfMoreMembers(more, fields[1..]);
    assert (more + rest)[0] == more[0];
    after := ReadFieldComplete(first, fields[0], more + rest);
    ReadFieldsComplete(after, more, rest, fields[1..]);
  }

  lemma FirstOfMoreMembers(more: string, fields: seq<Field>)
    requires MoreMembers(more, fields)
    ensures more != [] && more[0] in ",]}"
  {
  }

  lemma {:induction false} ReadFieldComplete(first: string, f: Field, tail: string) returns (after: string)
    requires Member(first, f) && tail != [] && tail[0] in ",]}"
    ensures White(after) && ReadField(first + tail) == Ok(Read(f, after + tail))
    decreases f, 4
  {
    hide White, ReadValue, ReadString, Denotes, Delimited, Literal;
    var blank, name, gap, padded :|
      first == blank + name + gap + ":" + padded
      && White(blank) && Quoted(name, f.key) && White(gap) && Padded(padded, f.value);
    var before, value, white :| padded == before + value + white && White(before) && Denotes(value, f.value)
      && White(white);
    after := white;
    EndsValue(after, tail);
    ReadValueComplete(before, value, after + tail, f.value);
    NameComplete(name, f.key, gap + (":" + (before + (value + (after + tail)))));
    SkipsTo(gap, ":" + (before + (value + (after + tail))));
    SkipsTo(blank, name + (gap + (":" + (before + (value + (after + tail))))));
    FieldGlue(blank, name, gap, before, value, after, tail);
    assert (":" + (before + (value + (after + tail))))[1..] == before + (value + (after + tail));
  }

  lemma NameComplete(name: string, key: string, rest: string)
    requires Quoted(name, key)
    ensures name != [] && (name + rest)[0] == '"' && ReadString((name + rest)[1..]) == Ok(Read(key, rest))
  {
    hide Literal, ReadString;
    var body :| name == "\"" + body + "\"" && Literal(body, key);
    ReadStringComplete(body, key, rest);
    assert (name + rest)[1..] == body + ("\"" + rest);
  }

  lemma FieldGlue(blank: string, name: string, gap: string, before: string, value: string, after: string, tail: string)
    ensures blank + name + gap + ":" + (before + value + after) + tail ==
            blank + (name + (gap + (":" + (before + (value + (after + tail))))))
  {
    GlueMember(blank, name, gap, before, value, after + tail);
    Assoc(before, value, after + tail);
    Assoc(before + value, after, tail);
    Assoc(blank + name + gap + ":", before + value + after, tail);
  }

  lemma {:induction false} ReadFieldsComplete(after: string, more: string, rest: string, fields: seq<Field>)
    requires White(after) && MoreMembers(more, fields)
    ensures ReadFields(after + (more + rest)) == Ok(Read(fields, rest))
    decreases fields, 3
  {
    hide White, ReadField, ReadFields, Member, SkipWhite, MoreMembers;
    FirstOfMoreMembers(more, fields);
    assert (more + rest)[0] == more[0];
    SkipsTo(after, more + rest);
    if fields == [] {
      OnlyEnd(more);
      assert (more + rest)[1..] == rest;
      NoFieldsStep(after + (more + rest), rest);
    } else {
      var first, others := SplitMembers(more, fields);
      assert more + rest == "," + (first + (others + rest)) by { Glue([], ",", first, [], [], others, rest); }
      var white := ReadMemberComplete(first, others, rest, fields);
      FieldsStep(after + (more + rest), first + (others + rest), fields[0], white + (others + rest), fields[1..], rest);
      assert fields == [fields[0]] + fields[1..];
    }
  }

  lemma SplitMembers(more: string, fields: seq<Field>) returns (first: string, others: string)
    requires fields != [] && MoreMembers(more, fields)
    ensures more == "," + first + others && Member(first, fields[0]) && MoreMembers(others, fields[1..])
  {
    hide Member;
    first, others :| more == "," + first + others && Member(first, fields[0]) && MoreMembers(others, fields[1..]);
  }

  lemma NoFieldsStep(text: string, rest: string)
    requires SkipWhite(text) == "}" + rest
    ensures ReadFields(text) == Ok(Read([], rest))
  {
    hide SkipWhite;
    assert ("}" + rest)[1..] == rest;
  }

  lemma FieldsStep(text: string, inner: string, first: Field, after: string, others: seq<Field>, rest: string)
    requires SkipWhite(text) == "," + inner
    requires ReadField(inner) == Ok(Read(first, after)) && ReadFields(after) == Ok(Read(others, rest))
    ensures ReadFields(text) == Ok(Read([first] + others, rest))
  {
    hide SkipWhite, ReadField;
    assert ("," + inner)[1..] == inner;
  }

  /**
   * The reader accepts exactly the texts of the grammar, each as the value that it denotes: integers
   * only, every escape and white space that the grammar allows, and no repeated key.
   */
  lemma ParseIff(text: string, j: Json)
    ensures Parse(text) == Ok(j) <==> Padded(text, j)
  {
    hide White, Denotes, ReadValue, Delimited;
    if Parse(text) == Ok(j) {
      var before, value := ReadValueSound(text);
      var after := SkipsWhite(ReadValue(text).value.rest);
      assert after + [] == after;
      PaddedBy(before, value, after, j);
    }
    if Padded(text, j) {
      var before, value, after :| text == before + value + after && White(before) && Denotes(value, j) && White(after);
      WhiteDelimits(after);
      Assoc(before, value, after);
      ReadValueComplete(before, value, after, j);
    }
  }

  lemma WhiteDelimits(after: string)
    requires White(after)
    ensures Delimited(after) && SkipWhite(after) == []
  {
    if after != [] {
      assert after[0] in after;
    }
    SkipsAllWhite(after, []);
    assert after + [] == after;
  }
}
