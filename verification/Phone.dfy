// phone.py: normalization of phone numbers to E.164.
module Phone {
  import opened Wrappers
  import opened Text

  datatype PhoneError = PhoneNumberError

  /** A plus sign and 8 to 15 digits, the first not zero; +91 numbers must be Indian mobile numbers. */
  predicate IsE164(value: string) {
    && 9 <= |value| <= 16
    && value[0] == '+'
    && AllDigits(value[1..])
    && value[1] != '0'
    && (value[1..3] == "91" ==> IsIndianMobile(value[3..]))
  }

  predicate IsIndianMobile(digits: string) {
    |digits| == 10 && AllDigits(digits) && digits[0] >= '6'
  }

  predicate IsSeparator(c: char) {
    IsSpace(c) || c == '(' || c == ')' || c == '.' || c == '-'
  }

  predicate IsAllowed(c: char) {
    IsDigit(c) || c == '+' || IsSeparator(c)
  }

  predicate AllAllowed(s: string) {
    forall i :: 0 <= i < |s| ==> IsAllowed(s[i])
  }

  function TrimStart(s: string): string {
    if s != [] && IsSpace(s[0]) then TrimStart(s[1..]) else s
  }

  function TrimEnd(s: string): string {
    if s != [] && IsSpace(s[|s| - 1]) then TrimEnd(s[..|s| - 1]) else s
  }

  /** `str.strip` */
  function Strip(s: string): string {
    TrimEnd(TrimStart(s))
  }

  /** The text without its separators. */
  function Compact(s: string): string {
    if s == [] then []
    else (if IsSeparator(s[0]) then [] else [s[0]]) + Compact(s[1..])
  }

  function Upper(c: char): char {
    if 'a' <= c <= 'z' then ((c as int) - 32) as char else c
  }

  predicate IsIndia(region: string) {
    var r := Strip(region);
    |r| == 2 && Upper(r[0]) == 'I' && Upper(r[1]) == 'N'
  }

  function ValidateE164(value: string): Result<string, PhoneError> {
    if IsE164(value) then Ok(value) else Err(PhoneNumberError)
  }

  function NormalizeNational(digits: string, region: string): Result<string, PhoneError> {
    if !IsIndia(region) then Err(PhoneNumberError)
    else
      var national := if digits != [] && digits[0] == '0' then digits[1..] else digits;
      if IsIndianMobile(national) then Ok("+91" + national) else Err(PhoneNumberError)
  }

  /** The part of the normalization that follows the removal of separators. */
  function NormalizeCompact(compact: string, region: Option<string>): Result<string, PhoneError> {
    if compact != [] && compact[0] == '+' then
      if compact[1..] == [] || !AllDigits(compact[1..]) then Err(PhoneNumberError) else ValidateE164(compact)
    else if |compact| >= 2 && compact[0] == '0' && compact[1] == '0' then
      if compact[2..] == [] || !AllDigits(compact[2..]) then Err(PhoneNumberError)
      else ValidateE164("+" + compact[2..])
    else if compact == [] || !AllDigits(compact) then Err(PhoneNumberError)
    else if region == None || Blank(region.value) then Err(PhoneNumberError)
    else
      var normalized :- NormalizeNational(compact, region.value);
      ValidateE164(normalized)
  }

  function Normalize(value: string, region: Option<string>): Result<string, PhoneError> {
    if Blank(value) then Err(PhoneNumberError)
    else
      var stripped := Strip(value);
      if stripped == [] || !AllAllowed(stripped) then Err(PhoneNumberError)
      else NormalizeCompact(Compact(stripped), region)
  }

  // ---- Properties ----

  lemma {:induction false} CompactOf(s: string)
    ensures forall i :: 0 <= i < |Compact(s)| ==> !IsSeparator(Compact(s)[i])
    ensures (forall i :: 0 <= i < |s| ==> !IsSeparator(s[i])) ==> Compact(s) == s
  {
    hide IsSeparator;
    if s != [] {
      CompactOf(s[1..]);
      assert s == [s[0]] + s[1..];
    }
  }

  lemma {:induction false} CompactConcat(a: string, b: string)
    ensures Compact(a + b) == Compact(a) + Compact(b)
  {
    hide IsSeparator;
    if a == [] {
      assert a + b == b;
    } else {
      var first := if IsSeparator(a[0]) then [] else [a[0]];
      CompactConcat(a[1..], b);
      assert (a + b)[0] == a[0] && (a + b)[1..] == a[1..] + b;
      assert Compact(a + b) == first + Compact((a + b)[1..]);
      assert Compact(a) == first + Compact(a[1..]);
    }
  }

  lemma {:induction false} TrimStartLemma(s: string)
    ensures Compact(TrimStart(s)) == Compact(s)
    ensures AllAllowed(TrimStart(s)) <==> AllAllowed(s)
    ensures TrimStart(s) == [] <==> Blank(s)
    ensures TrimStart(s) != [] ==> !IsSpace(TrimStart(s)[0])
  {
    if s != [] && IsSpace(s[0]) {
      TrimStartLemma(s[1..]);
      assert s == [s[0]] + s[1..];
    }
  }

  lemma {:induction false} TrimEndLemma(s: string)
    ensures Compact(TrimEnd(s)) == Compact(s)
    ensures AllAllowed(TrimEnd(s)) <==> AllAllowed(s)
    ensures s != [] && !IsSpace(s[0]) ==> TrimEnd(s) != []
  {
    if s != [] && IsSpace(s[|s| - 1]) {
      var front := s[..|s| - 1];
      TrimEndLemma(front);
      CompactConcat(front, [s[|s| - 1]]);
      assert s == front + [s[|s| - 1]];
    }
  }

  /** Stripping first changes neither the compact form nor which characters are refused. */
  lemma StripLemma(s: string)
    ensures Compact(Strip(s)) == Compact(s)
    ensures AllAllowed(Strip(s)) <==> AllAllowed(s)
    ensures Strip(s) == [] <==> Blank(s)
  {
    TrimStartLemma(s);
    TrimEndLemma(TrimStart(s));
  }

  /** A number is refused or normalized by its characters and its separator-free form alone. */
  lemma NormalizeUsesCompactForm(value: string, region: Option<string>)
    ensures Normalize(value, region) ==
            if AllAllowed(value) && !Blank(value) then NormalizeCompact(Compact(value), region)
            else Err(PhoneNumberError)
  {
    StripLemma(value);
  }

  lemma DependsOnlyOnCompactForm(a: string, b: string, region: Option<string>)
    requires AllAllowed(a) && AllAllowed(b) && Compact(a) == Compact(b)
    ensures Normalize(a, region) == Normalize(b, region)
  {
    NormalizeUsesCompactForm(a, region);
    NormalizeUsesCompactForm(b, region);
    BlankHasEmptyCompact(a);
    BlankHasEmptyCompact(b);
  }

  lemma {:induction false} BlankHasEmptyCompact(s: string)
    ensures Blank(s) ==> Compact(s) == []
  {
    if s != [] {
      BlankHasEmptyCompact(s[1..]);
    }
  }

  /** Whatever the input and region, a normalized number is an accepted E.164 number. */
  lemma NormalizedIsE164(value: string, region: Option<string>)
    ensures Normalize(value, region).Ok? ==> IsE164(Normalize(value, region).value)
  {
  }

  /** An accepted number has digits only, after its plus sign. */
  lemma E164Characters(number: string)
    requires IsE164(number)
    ensures number != [] && number[0] == '+' && number[1..] != [] && AllDigits(number[1..])
    ensures forall i :: 0 <= i < |number| ==> number[i] == '+' || IsDigit(number[i])
  {
    hide NormalizeCompact;
    assert forall i :: 1 <= i < |number| ==> number[i] == number[1..][i - 1];
  }

  lemma PlainIsCompact(number: string)
    requires number != [] && forall i :: 0 <= i < |number| ==> number[i] == '+' || IsDigit(number[i])
    ensures AllAllowed(number) && Compact(number) == number && !Blank(number)
  {
    hide Compact, Blank;
    CompactOf(number);
    BlankIff(number);
    assert !IsSpace(number[0]);
  }

  lemma E164IsFixed(number: string, region: Option<string>)
    requires IsE164(number)
    ensures Normalize(number, region) == Ok(number)
  {
    hide IsE164, Normalize, AllAllowed, Compact, Blank, AllDigits;
    E164Characters(number);
    PlainIsCompact(number);
    NormalizeUsesCompactForm(number, region);
  }

  /** Normalizing again, for any region, changes nothing. */
  lemma NormalizeIsIdempotent(value: string, region: Option<string>, again: Option<string>)
    requires Normalize(value, region).Ok?
    ensures Normalize(Normalize(value, region).value, again) == Normalize(value, region)
  {
    NormalizedIsE164(value, region);
    E164IsFixed(Normalize(value, region).value, again);
  }

  lemma Prefixed(prefix: string, rest: string, region: Option<string>)
    requires prefix == "00" || prefix == "+"
    ensures Normalize(prefix + rest, region) ==
            if AllAllowed(rest) then NormalizeCompact(prefix + Compact(rest), region) else Err(PhoneNumberError)
  {
    hide Normalize, NormalizeCompact, Compact, Blank;
    var number := prefix + rest;
    PlainIsCompact(prefix);
    CompactConcat(prefix, rest);
    BlankIff(number);
    assert number[0] == prefix[0] && !IsSpace(number[0]);
    assert AllAllowed(number) <==> AllAllowed(rest) by {
      assert forall i :: 0 <= i < |rest| ==> rest[i] == number[|prefix| + i];
    }
    NormalizeUsesCompactForm(number, region);
  }

  /** The two international prefixes are interchangeable in front of any text at all. */
  lemma PrefixesAgree(rest: string, region: Option<string>)
    ensures Normalize("00" + rest, region) == Normalize("+" + rest, region)
  {
    hide Normalize, Compact, AllAllowed, AllDigits, IsE164;
    var c := Compact(rest);
    Prefixed("00", rest, region);
    Prefixed("+", rest, region);
    assert ("00" + c)[0] == '0' && ("00" + c)[1] == '0' && ("+" + c)[0] == '+';
    assert ("00" + c)[2..] == c && ("+" + c)[1..] == c;
  }

  // ---- Exactly what is accepted ----

  /** A white-space trimmed "IN" in either case. */
  predicate NamesIndia(region: string) {
    exists a: nat :: a + 2 <= |region| && NamesIndiaAt(region, a)
  }

  predicate NamesIndiaAt(region: string, a: nat)
    requires a + 2 <= |region|
  {
    Blank(region[..a]) && region[a] in "Ii" && region[a + 1] in "Nn" && Blank(region[a + 2..])
  }

  /** What the digits after the plus sign of an accepted number look like. */
  predicate Accepted(digits: string) {
    && 8 <= |digits| <= 15 && (forall c <- digits :: '0' <= c <= '9') && digits[0] != '0'
    && (digits[0] == '9' && digits[1] == '1' ==> |digits| == 12 && digits[2] in "6789")
  }

  /** The texts that stand for the number with these digits. */
  predicate Writes(value: string, region: Option<string>, digits: string) {
    && (exists c <- value :: !IsSpace(c)) && (forall c <- value :: IsSpace(c) || c in "0123456789+().-")
    && Accepted(digits)
    && var compact := Compact(value);
       || compact == "+" + digits
       || compact == "00" + digits
       || (digits[..2] == "91" && (compact == digits[2..] || compact == "0" + digits[2..])
           && region.Some? && NamesIndia(region.value))
  }

  lemma {:induction false} TrimStartSplits(s: string) returns (a: nat)
    ensures a <= |s| && Blank(s[..a]) && TrimStart(s) == s[a..]
  {
    a := 0;
    if s != [] && IsSpace(s[0]) {
      var b := TrimStartSplits(s[1..]);
      a := b + 1;
      assert s[..a][1..] == s[1..][..b] && s[a..] == s[1..][b..];
    }
  }

  lemma {:induction false} TrimEndSplits(s: string) returns (b: nat)
    ensures b <= |s| && Blank(s[b..]) && TrimEnd(s) == s[..b]
  {
    b := |s|;
    if s != [] && IsSpace(s[|s| - 1]) {
      var front := s[..|s| - 1];
      b := TrimEndSplits(front);
      BlankIff(front[b..]);
      BlankIff(s[b..]);
      assert s[b..] == front[b..] + [s[|s| - 1]] && front[..b] == s[..b];
    }
  }

  lemma {:induction false} TrimsStart(s: string, a: nat)
    requires a < |s| && Blank(s[..a]) && !IsSpace(s[a])
    ensures TrimStart(s) == s[a..]
  {
    if a > 0 {
      assert s[..a][0] == s[0] && s[..a][1..] == s[1..][..a - 1] && s[1..][a - 1..] == s[a..];
      TrimsStart(s[1..], a - 1);
    }
  }

  lemma {:induction false} TrimsEnd(s: string, b: nat)
    requires 0 < b <= |s| && Blank(s[b..]) && !IsSpace(s[b - 1])
    ensures TrimEnd(s) == s[..b]
    decreases |s|
  {
    if b == |s| {
      assert s[..b] == s;
    } else {
      var front := s[..|s| - 1];
      BlankIff(s[b..]);
      BlankIff(front[b..]);
      assert s[b..][|s| - 1 - b] == s[|s| - 1];
      assert forall i :: 0 <= i < |front[b..]| ==> front[b..][i] == s[b..][i];
      TrimsEnd(front, b);
      assert front[..b] == s[..b];
    }
  }

  lemma IndiaIsNamed(region: string)
    ensures IsIndia(region) <==> NamesIndia(region)
  {
    hide Blank, TrimStart, TrimEnd, IsSpace;
    if IsIndia(region) {
      var a := TrimStartSplits(region);
      var b := TrimEndSplits(region[a..]);
      assert region[a..][b..] == region[a + 2..];
      assert Strip(region)[0] == region[a] && Strip(region)[1] == region[a + 1];
      assert NamesIndiaAt(region, a);
    }
    if NamesIndia(region) {
      var a: nat :| a + 2 <= |region| && NamesIndiaAt(region, a);
      NamedIsIndia(region, a);
    }
  }

  lemma NamedIsIndia(region: string, a: nat)
    requires a + 2 <= |region| && NamesIndiaAt(region, a)
    ensures IsIndia(region)
  {
    hide Blank, TrimStart, TrimEnd, IsSpace;
    LettersAreNotSpace(region[a], region[a + 1]);
    TrimsStart(region, a);
    assert region[a..][2..] == region[a + 2..] && region[a..][1] == region[a + 1];
    TrimsEnd(region[a..], 2);
    assert Strip(region) == [region[a], region[a + 1]];
  }

  lemma LettersAreNotSpace(i: char, n: char)
    requires i in "Ii" && n in "Nn"
    ensures !IsSpace(i) && !IsSpace(n)
  {
  }

  lemma AcceptedIsE164(digits: string)
    ensures Accepted(digits) <==> IsE164("+" + digits)
  {
    var number := "+" + digits;
    assert number[1..] == digits;
    assert (forall c <- digits :: '0' <= c <= '9') <==> AllDigits(digits) by {
      assert forall i :: 0 <= i < |digits| ==> digits[i] in digits;
    }
    if |digits| >= 3 {
      assert number[1..3] == [digits[0], digits[1]] && number[3..] == digits[2..];
      assert digits[2] in "6789" <==> '6' <= digits[2] <= '9';
    }
  }

  lemma CompactNormalizes(compact: string, region: Option<string>, digits: string)
    ensures NormalizeCompact(compact, region) == Ok("+" + digits) <==>
            Accepted(digits)
            && (|| compact == "+" + digits
                || compact == "00" + digits
                || (digits[..2] == "91" && (compact == digits[2..] || compact == "0" + digits[2..])
                    && region.Some? && IsIndia(region.value)))
  {
    hide Accepted, IsIndia;
    AcceptedIsE164(digits);
    var number := "+" + digits;
    assert number[1..] == digits && number[0] == '+';
    if compact != [] && compact[0] == '+' {
      assert compact == "+" + compact[1..];
    } else if |compact| >= 2 && compact[0] == '0' && compact[1] == '0' {
      assert compact == "00" + compact[2..] && ("+" + compact[2..])[1..] == compact[2..];
    } else {
      NationalNormalizes(compact, region, digits);
    }
  }

  lemma NationalNormalizes(compact: string, region: Option<string>, digits: string)
    requires !(compact != [] && compact[0] == '+') && !(|compact| >= 2 && compact[0] == '0' && compact[1] == '0')
    ensures NormalizeCompact(compact, region) == Ok("+" + digits) <==>
            IsE164("+" + digits) && digits[..2] == "91" && (compact == digits[2..] || compact == "0" + digits[2..])
            && region.Some? && IsIndia(region.value)
  {
    hide IsIndia;
    var number := "+" + digits;
    if NormalizeCompact(compact, region) == Ok(number) {
      var national := if compact[0] == '0' then compact[1..] else compact;
      assert number == "+91" + national && number[1..] == digits && ("+91" + national)[1..] == "91" + national;
      assert digits == "91" + national && ("91" + national)[2..] == national;
      assert compact[0] == '0' ==> compact == "0" + national;
    } else if IsE164(number) && digits[..2] == "91" && region.Some? && IsIndia(region.value) {
      IndiaIsNotBlank(region.value);
      var national := digits[2..];
      assert number[1..] == digits && number[1..3] == digits[..2] && number[3..] == national;
      assert number == "+91" + national && ("0" + national)[1..] == national;
    }
  }

  lemma IndiaIsNotBlank(region: string)
    requires IsIndia(region)
    ensures !Blank(region)
  {
    StripLemma(region);
  }

  /**
   * A text is normalized to a number exactly if it has allowed characters only, the number is an accepted
   * one, and the text without its separators is that number, or has 00 in place of the plus sign, or is an
   * Indian mobile number, with or without a trunk zero, where the region is India. All else is refused.
   */
  lemma NormalizeIff(value: string, region: Option<string>, digits: string)
    ensures Normalize(value, region) == Ok("+" + digits) <==> Writes(value, region, digits)
    ensures Normalize(value, region).Ok? ==> Normalize(value, region) == Ok("+" + Normalize(value, region).value[1..])
  {
    hide Compact, NormalizeCompact, Normalize, IsE164, IsIndia, NamesIndia, Accepted;
    NormalizeUsesCompactForm(value, region);
    CompactNormalizes(Compact(value), region, digits);
    if region.Some? {
      IndiaIsNamed(region.value);
    }
    BlankIff(value);
    AllowedCharacters(value);
    NormalizedIsE164(value, region);
    if Normalize(value, region).Ok? {
      var number := Normalize(value, region).value;
      E164Characters(number);
      assert number == "+" + number[1..];
    }
  }

  lemma AllowedCharacters(value: string)
    ensures AllAllowed(value) <==> forall c <- value :: IsSpace(c) || c in "0123456789+().-"
  {
  }

  /** The separator-free form leaves out white space, parentheses, dots and dashes, and keeps the rest in order. */
  lemma CompactKeeps(before: string, c: char, after: string)
    ensures Compact(before + [c] + after) ==
            Compact(before) + (if IsSpace(c) || c in "().-" then [] else [c]) + Compact(after)
    ensures Compact([]) == []
  {
    CompactConcat(before + [c], after);
    CompactConcat(before, [c]);
  }

  lemma CountryCode(digits: string)
    requires IsIndianMobile(digits)
    ensures IsE164("+91" + digits)
  {
    var full := "+91" + digits;
    assert full[1..] == "91" + digits && full[3..] == digits && full[1..3] == "91";
  }

  lemma IndianNationalCompact(digits: string, region: string)
    requires IsIndianMobile(digits) && IsIndia(region) && !Blank(region)
    ensures NormalizeCompact(digits, Some(region)) == Ok("+91" + digits)
    ensures NormalizeCompact("0" + digits, Some(region)) == Ok("+91" + digits)
  {
    var trunk := "0" + digits;
    assert trunk[0] == '0' && trunk[1] == digits[0] && trunk[1..] == digits;
    CountryCode(digits);
  }

  /** A ten-digit Indian mobile number gets the country code, with or without a trunk zero, in India only. */
  lemma IndianNational(digits: string, region: Option<string>)
    requires IsIndianMobile(digits)
    ensures Normalize(digits, region) ==
            if region.Some? && NamesIndia(region.value) then Ok("+91" + digits) else Err(PhoneNumberError)
    ensures Normalize("0" + digits, region) == Normalize(digits, region)
  {
    hide Normalize, NamesIndia, IsIndia;
    var trunk := "0" + digits;
    if region.Some? {
      IndiaIsNamed(region.value);
      if IsIndia(region.value) {
        IndiaIsNotBlank(region.value);
        IndianNationalCompact(digits, region.value);
      }
    }
    PlainDigits(digits, region);
    assert trunk[0] == '0' && trunk[1] == digits[0];
    PlainDigits(trunk, region);
  }

  lemma PlainDigits(digits: string, region: Option<string>)
    requires digits != [] && AllDigits(digits)
    ensures Normalize(digits, region) == NormalizeCompact(digits, region)
  {
    CompactOf(digits);
    BlankIff(digits);
    assert IsDigit(digits[0]);
    NormalizeUsesCompactForm(digits, region);
  }
}
