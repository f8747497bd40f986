// Texts of a price on which the checks of the browse form raise: NaN, which
// compares with nothing, and Infinity, which has no integer value.
module PriceTexts {
  import opened Digits
  import opened Text

  // Decimal ignores underscores.
  function Bare(s: string): string {
    if s == "" then ""
    else
      var last := s[|s| - 1];
      Bare(s[..|s| - 1]) + if last == '_' then "" else [last]
  }

  function Unsigned(s: string): string {
    if s != "" && (s[0] == '+' || s[0] == '-') then s[1..] else s
  }

  predicate Negative(s: string) {
    Bare(s) != "" && Bare(s)[0] == '-'
  }

  // The text starts with the word, in any case, and only decimal digits follow.
  predicate WordAndDigits(digit: char -> bool, s: string, word: string) {
    |s| >= |word| && Lower(s[..|word|]) == word && forall i :: |word| <= i < |s| ==> digit(s[i])
  }

  predicate IsNaN(digit: char -> bool, s: string) {
    var t := Unsigned(Bare(s));
    WordAndDigits(digit, t, "nan") || WordAndDigits(digit, t, "snan")
  }

  predicate IsInfinity(s: string) {
    var t := Unsigned(Bare(s));
    Lower(t) == "inf" || Lower(t) == "infinity"
  }

  // A negative infinity is refused as negative before it is converted.
  predicate Raising(digit: char -> bool, s: string) {
    IsNaN(digit, s) || (IsInfinity(s) && !Negative(s))
  }

  lemma {:induction false} BareStays(s: string)
    requires '_' !in s
    ensures Bare(s) == s
  {
    if s != "" {
      BareStays(s[..|s| - 1]);
      assert s == s[..|s| - 1] + [s[|s| - 1]];
    }
  }

  // A number in plain digits is no such text.
  lemma DigitsNeverRaise(digit: char -> bool, s: string)
    requires AllDigits(s)
    ensures !Raising(digit, s)
  {
    assert '_' !in s;
    BareStays(s);
    assert IsDigit(s[0]) && Unsigned(s) == s;
    assert Lower(s)[0] == s[0];
    assert |s| >= 3 ==> Lower(s[..3])[0] == s[0];
    assert |s| >= 4 ==> Lower(s[..4])[0] == s[0];
  }

  lemma NaNRaises(digit: char -> bool)
    ensures Raising(digit, "NaN")
  {
    BareStays("NaN");
    assert Lower("NaN"[..3]) == "nan";
  }

  // Infinity raises, and negative infinity does not.
  lemma InfinityRaises(digit: char -> bool)
    ensures Raising(digit, "Infinity")
  {
    hide IsNaN, Bare;
    BareStays("Infinity");
    assert Lower("Infinity") == "infinity";
  }

  lemma NegativeInfinityIsRefused(digit: char -> bool)
    ensures !Raising(digit, "-Infinity")
  {
    hide Bare;
    BareStays("-Infinity");
    assert Unsigned("-Infinity") == "Infinity";
    NotNaN(digit, "Infinity");
  }

  lemma NotNaN(digit: char -> bool, s: string)
    requires s != "" && Fold(s[0]) == 'i'
    ensures !WordAndDigits(digit, s, "nan") && !WordAndDigits(digit, s, "snan")
  {
    assert |s| >= 3 ==> Lower(s[..3])[0] == 'i';
    assert |s| >= 4 ==> Lower(s[..4])[0] == 'i';
  }
}
