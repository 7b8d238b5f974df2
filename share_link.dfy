/** The messaging share link: the three-character escape of the message text and the fixed
    URL template around the normalised phone number. `Decode` and `ParseShareUrl` read a link
    back; they are the partners against which the encoder is proved. */
module ShareLink {
  import opened Results
  import opened Text
  import opened Phone
  import opened PhoneExamples

  const UrlPrefix := "https://wa.me/"
  const TextQuery := "?text="

  /** The characters the link escapes: newline, space and asterisk. */
  predicate Escaped(c: char) {
    c == '\n' || c == ' ' || c == '*'
  }

  function Escape(c: char): (e: string)
    ensures Escaped(c) ==> |e| == 3 && e[0] == '%'
    ensures !Escaped(c) ==> e == [c]
  {
    if c == '\n' then "%0A" else if c == ' ' then "%20" else if c == '*' then "%2A" else [c]
  }

  /** Every character replaced by its escape, left to right. */
  function EscapeEach(s: string): string {
    if s == [] then [] else Escape(s[0]) + EscapeEach(s[1..])
  }

  /** The source's chained `replace('\n', '%0A').replace(' ', '%20').replace('*', '%2A')`. */
  function Encode(message: string): string {
    ReplaceChar(ReplaceChar(ReplaceChar(message, '\n', "%0A"), ' ', "%20"), '*', "%2A")
  }

  lemma EncodeAppend(a: string, b: string)
    ensures Encode(a + b) == Encode(a) + Encode(b)
  {
    ReplaceCharAppend(a, b, '\n', "%0A");
    var a1, b1 := ReplaceChar(a, '\n', "%0A"), ReplaceChar(b, '\n', "%0A");
    ReplaceCharAppend(a1, b1, ' ', "%20");
    var a2, b2 := ReplaceChar(a1, ' ', "%20"), ReplaceChar(b1, ' ', "%20");
    ReplaceCharAppend(a2, b2, '*', "%2A");
  }

  lemma EncodeChar(c: char)
    ensures Encode([c]) == Escape(c)
  {
    ReplaceCharSingle(c, '\n', "%0A");
    var s1 := ReplaceChar([c], '\n', "%0A");
    if c == '\n' {
      ReplaceCharAbsent(s1, ' ', "%20");
      ReplaceCharAbsent(s1, '*', "%2A");
    } else {
      ReplaceCharSingle(c, ' ', "%20");
      var s2 := ReplaceChar(s1, ' ', "%20");
      if c == ' ' {
        ReplaceCharAbsent(s2, '*', "%2A");
      } else {
        ReplaceCharSingle(c, '*', "%2A");
      }
    }
  }

  /** The three chained replacements act as one left-to-right pass: no replacement rewrites
      the output of an earlier one, and every other character is kept in place. */
  lemma {:induction false} EncodeEscapesEachChar(s: string)
    ensures Encode(s) == EscapeEach(s)
    decreases |s|
  {
    if s != [] {
      assert s == [s[0]] + s[1..];
      EncodeAppend([s[0]], s[1..]);
      EncodeChar(s[0]);
      EncodeEscapesEachChar(s[1..]);
    }
  }

  lemma {:induction false} EscapeEachHasNoEscapedChars(s: string)
    ensures forall i :: 0 <= i < |EscapeEach(s)| ==> !Escaped(EscapeEach(s)[i])
    decreases |s|
  {
    if s != [] {
      EscapeEachHasNoEscapedChars(s[1..]);
      var e, t := Escape(s[0]), EscapeEach(s[1..]);
      forall i | 0 <= i < |e + t|
        ensures !Escaped((e + t)[i])
      {
        if i >= |e| {
          assert (e + t)[i] == t[i - |e|];
        }
      }
    }
  }

  lemma EncodeHasNoEscapedChars(s: string)
    ensures forall i :: 0 <= i < |Encode(s)| ==> !Escaped(Encode(s)[i])
  {
    EncodeEscapesEachChar(s);
    EscapeEachHasNoEscapedChars(s);
  }

  /** An escape sequence "%0A", "%20" or "%2A" starts at position `i` of `s`. */
  predicate EscapeAt(s: string, i: nat) {
    i + 3 <= |s| && s[i] == '%' &&
    ((s[i + 1] == '0' && s[i + 2] == 'A') || (s[i + 1] == '2' && (s[i + 2] == '0' || s[i + 2] == 'A')))
  }

  function Unescape(a: char, b: char): char {
    if a == '0' then '\n' else if b == '0' then ' ' else '*'
  }

  /** Percent-decoding of the three escapes, as the receiving client reads the text. */
  function Decode(s: string): string
    decreases |s|
  {
    if s == [] then []
    else if EscapeAt(s, 0) then [Unescape(s[1], s[2])] + Decode(s[3..])
    else [s[0]] + Decode(s[1..])
  }

  /** The text holds no literal "%0A", "%20" or "%2A" of its own. */
  predicate FreeOfEscapes(s: string) {
    forall i: nat :: i < |s| ==> !EscapeAt(s, i)
  }

  lemma FreeOfEscapesTail(s: string)
    requires s != [] && FreeOfEscapes(s)
    ensures FreeOfEscapes(s[1..])
  {
    forall i: nat | i < |s[1..]|
      ensures !EscapeAt(s[1..], i)
    {
      assert !EscapeAt(s, i + 1);
    }
  }

  /** The first two characters of an escaped text come from its first two characters. */
  lemma EscapeEachStart(r: string)
    requires r != []
    ensures |EscapeEach(r)| >= |Escape(r[0])|
    ensures EscapeEach(r)[0] == Escape(r[0])[0]
    ensures |r| >= 2 && !Escaped(r[0]) ==> |EscapeEach(r)| >= 2 && EscapeEach(r)[1] == Escape(r[1])[0]
    ensures Escaped(r[0]) ==> EscapeEach(r)[0] == '%'
  {
    if |r| >= 2 && !Escaped(r[0]) {
      assert r[1..][0] == r[1];
      assert EscapeEach(r) == [r[0]] + Escape(r[1]) + EscapeEach(r[2..]) by {
        assert r[1..][1..] == r[2..];
      }
    }
  }

  /** Decoding undoes the encoding, provided the text does not itself contain one of the
      three escape sequences. */
  lemma {:induction false} DecodeEscapeEach(s: string)
    requires FreeOfEscapes(s)
    ensures Decode(EscapeEach(s)) == s
    decreases |s|
  {
    if s != [] {
      var c, r := s[0], s[1..];
      var t := EscapeEach(s);
      assert t == Escape(c) + EscapeEach(r);
      FreeOfEscapesTail(s);
      DecodeEscapeEach(r);
      if Escaped(c) {
        assert EscapeAt(t, 0);
        assert t[3..] == EscapeEach(r);
      } else {
        assert t[1..] == EscapeEach(r);
        if c == '%' && |t| >= 3 {
          assert !EscapeAt(s, 0);
          EscapeEachStart(r);
          if !Escaped(r[0]) && |r| >= 2 {
            assert s[1] == r[0] && s[2] == r[1];
          }
        }
        assert !EscapeAt(t, 0);
      }
    }
  }

  lemma DecodeEncode(message: string)
    requires FreeOfEscapes(message)
    ensures Decode(Encode(message)) == message
  {
    EncodeEscapesEachChar(message);
    DecodeEscapeEach(message);
  }

  /** A text without the three escaped characters is its own encoding. */
  lemma EncodeUnescaped(s: string)
    requires forall i :: 0 <= i < |s| ==> !Escaped(s[i])
    ensures Encode(s) == s
  {
    ReplaceCharAbsent(s, '\n', "%0A");
    ReplaceCharAbsent(s, ' ', "%20");
    ReplaceCharAbsent(s, '*', "%2A");
  }

  /** Without that proviso the encoding is not injective. */
  lemma EncodeNotInjective()
    ensures "%20" != " " && Encode("%20") == Encode(" ")
  {
    EncodeUnescaped("%20");
    EncodeChar(' ');
    assert " " == [' '];
  }

  /** `get_whatsapp_url`: the link for `message` to `phone`, failing as the normaliser does. */
  function ShareUrl(phone: string, message: string): (r: Result<string>)
    ensures r.Err? <==> Normalize(phone).Err?
    ensures r.Err? ==> r.message == InvalidFormat
    ensures r.Ok? ==> r.value == UrlPrefix + Normalize(phone).value + TextQuery + Encode(message)
  {
    match Normalize(phone)
    case Err(e) => Err(e)
    case Ok(digits) => Ok(UrlPrefix + digits + TextQuery + Encode(message))
  }

  /** The number of leading ASCII digits of `s`. */
  function LeadingDigits(s: string): (n: nat)
    ensures n <= |s|
  {
    if s == [] || !IsDigit(s[0]) then 0 else 1 + LeadingDigits(s[1..])
  }

  lemma {:induction false} LeadingDigitsOf(p: string, t: string)
    requires AllDigits(p) && t != [] && !IsDigit(t[0])
    ensures LeadingDigits(p + t) == |p|
    decreases |p|
  {
    if p == [] {
      assert p + t == t;
    } else {
      assert (p + t)[0] == p[0];
      assert (p + t)[1..] == p[1..] + t;
      LeadingDigitsOf(p[1..], t);
    }
  }

  /** Reads a share link back into the phone digits and the decoded text. */
  function ParseShareUrl(url: string): Option<(string, string)> {
    if !StartsWith(url, UrlPrefix) then None
    else
      var rest := url[|UrlPrefix|..];
      var n := LeadingDigits(rest);
      var tail := rest[n..];
      if !StartsWith(tail, TextQuery) then None
      else Some((rest[..n], Decode(tail[|TextQuery|..])))
  }

  /** `a + b` starts with `a`, and what follows `a` is `b`. */
  lemma PrefixOf(a: string, b: string)
    ensures StartsWith(a + b, a)
    ensures (a + b)[|a|..] == b
  {
    assert forall i :: 0 <= i < |a| ==> (a + b)[i] == a[i];
  }

  /** A link assembled from a digit string and an encoded text is read back into the two. */
  lemma ParseAssembled(p: string, e: string)
    requires AllDigits(p)
    ensures ParseShareUrl(UrlPrefix + p + TextQuery + e) == Some((p, Decode(e)))
  {
    var q := TextQuery + e;
    var url := UrlPrefix + (p + q);
    assert UrlPrefix + p + TextQuery + e == url;
    PrefixOf(UrlPrefix, p + q);
    var rest := url[|UrlPrefix|..];
    assert rest == p + q;
    assert q[0] == '?';
    LeadingDigitsOf(p, q);
    assert rest[..|p|] == p;
    PrefixOf(p, q);
    PrefixOf(TextQuery, e);
  }

  /** A link built for a valid phone carries exactly the normalised number and, once decoded,
      the message. */
  lemma ShareUrlRoundTrip(phone: string, message: string)
    requires Normalize(phone).Ok? && FreeOfEscapes(message)
    ensures ParseShareUrl(ShareUrl(phone, message).value) == Some((Normalize(phone).value, message))
  {
    ParseAssembled(Normalize(phone).value, Encode(message));
    DecodeEncode(message);
  }

  /** A space in the text becomes "%20". */
  lemma EncodeSpaceExample(text: string)
    requires text == "a b"
    ensures Encode(text) == "a%20b"
  {
    var a, space, b := [text[0]], [text[1]], [text[2]];
    assert text == a + space + b;
    EncodeAppend(a + space, b);
    EncodeAppend(a, space);
    EncodeChar(text[0]);
    EncodeChar(text[1]);
    EncodeChar(text[2]);
  }

  /** The link for a ten-digit number and a two-word text: the number gains the country
      code and the space is escaped. */
  lemma ShareUrlExample()
    ensures ShareUrl("9876543210", "a b") == Ok("https://wa.me/919876543210?text=a%20b")
  {
    NormalizeTenDigits();
    EncodeSpaceExample("a b");
    ExampleLinkText("919876543210", "a%20b");
  }

  lemma ExampleLinkText(digits: string, encoded: string)
    requires digits == "919876543210" && encoded == "a%20b"
    ensures UrlPrefix + digits + TextQuery + encoded == "https://wa.me/919876543210?text=a%20b"
  {
  }
}
