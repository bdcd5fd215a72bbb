/**
 The Telebirr phone field's input handler: every keystroke replaces the
 field's value by its ASCII digits, cut to the first ten.
 */
module Phone {

  /** The longest value the normaliser leaves in the field. */
  const MaxPhoneLength: nat := 10

  /** A character the regular expression `\d` matches: an ASCII digit. */
  predicate IsDigit(c: char) {
    '0' <= c <= '9'
  }

  predicate AllDigits(s: string) {
    forall i :: 0 <= i < |s| ==> IsDigit(s[i])
  }

  /** `s.replace(/\D/g, '')`: the digits of `s`, in order. */
  function Digits(s: string): (r: string)
    ensures |r| <= |s|
    ensures AllDigits(r)
  {
    if s == [] then []
    else (if IsDigit(s[0]) then [s[0]] else []) + Digits(s[1..])
  }

  /** `.substring(0, 10)` of the digits. */
  function Normalize(s: string): (r: string)
    ensures AllDigits(r)
    ensures |r| <= MaxPhoneLength
  {
    var d := Digits(s);
    if |d| <= MaxPhoneLength then d else d[..MaxPhoneLength]
  }

  /** Stripping distributes over concatenation: the digits keep their order. */
  lemma {:induction false} DigitsAppend(a: string, b: string)
    ensures Digits(a + b) == Digits(a) + Digits(b)
  {
    if a == [] {
      assert a + b == b;
    } else {
      assert (a + b)[1..] == a[1..] + b;
      DigitsAppend(a[1..], b);
    }
  }

  /** Stripping leaves a string unchanged exactly when it holds only digits. */
  lemma {:induction false} DigitsFixedIffAllDigits(s: string)
    ensures Digits(s) == s <==> AllDigits(s)
  {
    if s != [] {
      DigitsFixedIffAllDigits(s[1..]);
      if !IsDigit(s[0]) {
        assert |Digits(s)| < |s|;
      }
    }
  }

  /** The output is the first `min(10, number of digits)` digits of the input. */
  lemma NormalizeIsPrefixOfDigits(s: string)
    ensures |Normalize(s)| == if |Digits(s)| <= MaxPhoneLength then |Digits(s)| else MaxPhoneLength
    ensures Normalize(s) == Digits(s)[..|Normalize(s)|]
  {
  }

  /** Normalising an already normalised value changes nothing. */
  lemma NormalizeIdempotent(s: string)
    ensures Normalize(Normalize(s)) == Normalize(s)
  {
    DigitsFixedIffAllDigits(Normalize(s));
  }

  /** A value that is already ten digits or fewer passes through unchanged. */
  lemma NormalizeKeepsShortNumbers(s: string)
    requires AllDigits(s) && |s| <= MaxPhoneLength
    ensures Normalize(s) == s
  {
    DigitsFixedIffAllDigits(s);
  }

  lemma {:induction false} DigitsOfNonDigits(s: string)
    requires NoDigits(s)
    ensures Digits(s) == []
  {
    if s != [] {
      DigitsOfNonDigits(s[1..]);
    }
  }

  predicate NoDigits(s: string) {
    forall i :: 0 <= i < |s| ==> !IsDigit(s[i])
  }

  lemma DigitsOfPieces()
    ensures Digits("abc0") == "0" && Digits("91-2") == "912" && Digits("34-5") == "345"
    ensures Digits("678e") == "678" && Digits("xtra") == ""
  {
  }

  /**
   Letters and dashes are dropped and the digits after the tenth are cut off:
   "abc091-234-5678extra", written in five pieces, normalises to "0912345678".
   */
  lemma NormalizeExample()
    ensures Normalize("abc0" + "91-2" + "34-5" + "678e" + "xtra") == "0912345678"
  {
    assert Digits("abc0" + "91-2" + "34-5" + "678e" + "xtra") == "0" + "912" + "345" + "678" + "" by {
      DigitsAppend("abc0" + "91-2" + "34-5" + "678e", "xtra");
      DigitsAppend("abc0" + "91-2" + "34-5", "678e");
      DigitsAppend("abc0" + "91-2", "34-5");
      DigitsAppend("abc0", "91-2");
      DigitsOfPieces();
    }
  }
}
