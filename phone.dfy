/** Normalisation of a customer's phone number into the digits the share link needs. */
module Phone {
  import opened Results
  import opened Text

  const InvalidFormat := "Invalid phone number format"

  /** `re.sub(r'[^0-9]', '', s)`: the ASCII digits of `s`, in order. */
  function Digits(s: string): string {
    if s == [] then []
    else (if IsDigit(s[0]) then [s[0]] else []) + Digits(s[1..])
  }

  lemma {:induction false} DigitsAreDigits(s: string)
    ensures AllDigits(Digits(s))
    ensures |Digits(s)| <= |s|
    decreases |s|
  {
    if s != [] {
      DigitsAreDigits(s[1..]);
    }
  }

  lemma {:induction false} DigitsAppend(a: string, b: string)
    ensures Digits(a + b) == Digits(a) + Digits(b)
    decreases |a|
  {
    if a == [] {
      assert a + b == b;
    } else {
      assert (a + b)[0] == a[0];
      assert (a + b)[1..] == a[1..] + b;
      DigitsAppend(a[1..], b);
    }
  }

  /** A string of digits is its own digit string. */
  lemma {:induction false} DigitsOfDigits(s: string)
    requires AllDigits(s)
    ensures Digits(s) == s
    decreases |s|
  {
    if s != [] {
      DigitsOfDigits(s[1..]);
    }
  }

  /** A string without digits has an empty digit string. */
  lemma {:induction false} DigitsOfNonDigits(s: string)
    requires forall i :: 0 <= i < |s| ==> !IsDigit(s[i])
    ensures Digits(s) == []
    decreases |s|
  {
    if s != [] {
      DigitsOfNonDigits(s[1..]);
    }
  }

  /** True when the digit string needs the Indian country code in front. */
  predicate NeedsCountryCode(d: string) {
    |d| == 10 && !StartsWith(d, "91")
  }

  /** Strips non-digits, prefixes "91" to a 10-digit number that does not already start
      with it, and refuses a result outside 10..15 digits. */
  function Normalize(phone: string): (r: Result<string>)
    ensures r.Ok? <==> 10 <= |Digits(phone)| <= 15
    ensures r.Ok? ==> AllDigits(r.value) && 10 <= |r.value| <= 15
    ensures r.Ok? && NeedsCountryCode(Digits(phone)) ==> r.value == "91" + Digits(phone)
    ensures r.Ok? && !NeedsCountryCode(Digits(phone)) ==> r.value == Digits(phone)
    ensures r.Err? ==> r.message == InvalidFormat
  {
    DigitsAreDigits(phone);
    var digits := Digits(phone);
    var withCode := if NeedsCountryCode(digits) then "91" + digits else digits;
    if |withCode| < 10 || |withCode| > 15 then Err(InvalidFormat) else Ok(withCode)
  }

  /** A normalised number is a fixed point of normalisation. */
  lemma NormalizeIdempotent(phone: string)
    requires Normalize(phone).Ok?
    ensures Normalize(Normalize(phone).value) == Normalize(phone)
  {
    var p := Normalize(phone).value;
    DigitsAreDigits(phone);
    DigitsOfDigits(p);
    if |p| == 10 {
      assert p == Digits(phone);
      assert !NeedsCountryCode(p);
    }
  }

  /** Only the digits of the input matter. */
  lemma NormalizeIgnoresNonDigits(phone: string)
    ensures Normalize(phone) == Normalize(Digits(phone))
  {
    DigitsAreDigits(phone);
    DigitsOfDigits(Digits(phone));
  }

  /** A string of 10 to 15 digits normalises to itself, with "91" in front when it needs it. */
  lemma NormalizeDigitString(d: string)
    requires AllDigits(d) && 10 <= |d| <= 15
    ensures Normalize(d) == Ok(if NeedsCountryCode(d) then "91" + d else d)
  {
    DigitsOfDigits(d);
  }
}

/** Worked inputs of the phone normaliser. The helpers take a literal input apart into its
    pieces and apply the lemmas of `Phone` to each piece. */
module PhoneExamples {
  import opened Results
  import opened Text
  import opened Phone

  lemma TenDigitsNeedCode(d: string)
    requires d == "9876543210"
    ensures AllDigits(d) && NeedsCountryCode(d) && "91" + d == "919876543210"
  {
    assert d[1] == '8';
  }

  lemma NormalizeTenDigits()
    ensures Normalize("9876543210") == Ok("919876543210")
  {
    TenDigitsNeedCode("9876543210");
    NormalizeDigitString("9876543210");
  }

  /** Digit strings of two pieces join into the digit string of their concatenation. */
  lemma DigitsJoin(x: string, y: string, dx: string, dy: string)
    requires Digits(x) == dx && Digits(y) == dy
    ensures Digits(x + y) == dx + dy
  {
    DigitsAppend(x, y);
  }

  /** The digits of a number written "+CC AAAAA BBBBB" are the three digit groups. */
  lemma DigitsOfGrouped(phone: string, plus: string, code: string, space: string, head: string, tail: string)
    requires Digits(plus) == [] && Digits(space) == []
    requires Digits(code) == code && Digits(head) == head && Digits(tail) == tail
    requires phone == plus + code + space + head + space + tail
    ensures Digits(phone) == code + head + tail
  {
    var p1 := plus + code;
    var p2 := p1 + space;
    var p3 := p2 + head;
    var p4 := p3 + space;
    DigitsJoin(plus, code, [], code);
    DigitsJoin(p1, space, code, []);
    DigitsJoin(p2, head, code, head);
    DigitsJoin(p3, space, code + head, []);
    DigitsJoin(p4, tail, code + head, tail);
  }

  lemma DigitsOfFormatted(phone: string, plus: string, code: string, space: string, head: string, tail: string)
    requires plus == "+" && code == "91" && space == " " && head == "98765" && tail == "43210"
    requires phone == plus + code + space + head + space + tail
    ensures Digits(phone) == "919876543210"
  {
    DigitsOfNonDigits(plus);
    DigitsOfNonDigits(space);
    DigitsOfDigits(code);
    DigitsOfDigits(head);
    DigitsOfDigits(tail);
    DigitsOfGrouped(phone, plus, code, space, head, tail);
    JoinGroups(code, head, tail);
  }

  lemma JoinGroups(code: string, head: string, tail: string)
    requires code == "91" && head == "98765" && tail == "43210"
    ensures code + head + tail == "919876543210"
  {
  }

  lemma NormalizeFormatted()
    ensures Normalize("+91 98765 43210") == Ok("919876543210")
  {
    DigitsOfFormatted("+91 98765 43210", "+", "91", " ", "98765", "43210");
    NormalizeIgnoresNonDigits("+91 98765 43210");
    NormalizeDigitString("919876543210");
  }

  lemma DigitsOfLettered(phone: string, letters: string, number: string)
    requires letters == "abc" && number == "9876543210" && phone == letters + number
    ensures Digits(phone) == number
  {
    DigitsOfNonDigits(letters);
    TenDigitsNeedCode(number);
    DigitsOfDigits(number);
    DigitsJoin(letters, number, [], number);
  }

  lemma NormalizeStripsLetters()
    ensures Normalize("abc9876543210") == Ok("919876543210")
  {
    DigitsOfLettered("abc9876543210", "abc", "9876543210");
    NormalizeIgnoresNonDigits("abc9876543210");
    NormalizeTenDigits();
  }

  lemma NormalizeTooShort()
    ensures Normalize("123") == Err(InvalidFormat)
  {
    DigitsOfDigits("123");
  }

  /** A ten-digit number that already begins with "91" gets no country code: the link
      goes to the ten digits as they are. */
  lemma NormalizeLeading91()
    ensures Normalize("9123456789") == Ok("9123456789")
  {
    assert AllDigits("9123456789") && StartsWith("9123456789", "91");
    NormalizeDigitString("9123456789");
  }
}
