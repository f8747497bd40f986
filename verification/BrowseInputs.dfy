// Requests on which the browse form raises or refuses where it might be
// expected to do neither, one for each such condition.
module BrowseInputs {
  import opened Wrappers
  import opened Digits
  import opened PriceTexts
  import opened Browse
  import Text

  lemma EmptyField(w: World, name: Name)
    ensures CleanField(w, map[], name).Some?
    ensures !CleanField(w, map[], name).value.Number? && !CleanField(w, map[], name).value.Row?
  {
  }

  lemma NoVerticalFields(w: World)
    ensures Intent in FieldsOf(w, NoVertical) && MinPrice in FieldsOf(w, NoVertical)
  {
    DeclaredDistinct();
    KeptFacts(w, NoVertical, DECLARED);
    assert Intent in DECLARED && MinPrice in DECLARED;
  }

  lemma EmptyIsValid(w: World) returns (c: Cleaned)
    ensures Validates(w, map[], c)
  {
    hide CleanField, FieldsOf;
    var names := FieldsOf(w, NoVertical);
    forall name
      ensures CleanField(w, map[], name).Some?
      ensures !CleanField(w, map[], name).value.Number? && !CleanField(w, map[], name).value.Row?
    {
      EmptyField(w, name);
    }
    c := Values(w, map[], names);
    assert Good(w, map[], names);
    AcceptsExactlyValid(w, map[]);
  }

  // intent=sell is a form error in a request that is valid without it.
  lemma UnknownIntentIsRefused(w: World)
    ensures exists c :: Validates(w, map[], c)
    ensures forall d :: !Validates(w, map[Intent := "sell"], d)
  {
    hide Validates;
    var c := EmptyIsValid(w);
    assert map[Intent := "sell"] - {Intent} == map[];
    InvalidIntentIsAnError(w, map[Intent := "sell"], c);
  }

  // vertical=autos, a slug, is no number: installing the fields raises.
  lemma SlugIsUnreadable(w: World)
    requires Lawful(w)
    ensures SelectVertical(w, map[Vertical := "autos"]).UnreadableVertical?
  {
    var s := "autos";
    assert !IsDigit(s[0]);
    assert forall i :: 0 <= i < |s| ==> s[i] <= '\U{7F}' && !IsDigit(s[i]);
    assert w.reader.row(s).Some? ==> HasDigit(w.reader.digit, s);
  }

  lemma PriceAlone(w: World, text: string)
    requires Text.Trimmed(text) && text != "" && '\0' !in text
    ensures SelectVertical(w, map[MinPrice := text]) == NoVertical
    ensures PriceRaises(w, map[MinPrice := text], MinPrice) <==> Raising(w.reader.digit, text)
    ensures !PriceRaises(w, map[MinPrice := text], MaxPrice)
    ensures CleanField(w, map[MinPrice := text], MinPrice) ==
      match ReadDollars(w.reader, text) case Dollars(n) => Some(Number(n * 100)) case _ => None
  {
    Text.TrimmedStaysPut(text);
    assert Raw(map[MinPrice := text], MaxPrice) == "" && Text.Strip("") == "";
    hide Raising;
  }

  // min_price=NaN and min_price=Infinity raise.
  lemma NaNAndInfinityRaise(w: World)
    ensures Raises(w, map[MinPrice := "NaN"], FieldsOf(w, SelectVertical(w, map[MinPrice := "NaN"])))
    ensures Raises(w, map[MinPrice := "Infinity"], FieldsOf(w, SelectVertical(w, map[MinPrice := "Infinity"])))
  {
    hide PriceRaises, FieldsOf, SelectVertical, Raising;
    NoVerticalFields(w);
    PriceAlone(w, "NaN");
    NaNRaises(w.reader.digit);
    PriceAlone(w, "Infinity");
    InfinityRaises(w.reader.digit);
  }

  // min_price=-Infinity is a form error.
  lemma NegativeInfinityIsAnError(w: World)
    requires Lawful(w)
    ensures var data := map[MinPrice := "-Infinity"];
      !Raises(w, data, FieldsOf(w, SelectVertical(w, data))) && CleanField(w, data, MinPrice).None?
  {
    var s := "-Infinity";
    assert !IsDigit(s[0]);
    assert forall i :: 0 <= i < |s| ==> s[i] <= '\U{7F}' && !IsDigit(s[i]);
    assert w.reader.dollars(s).Some? ==> HasDigit(w.reader.digit, s);
    hide PriceRaises, FieldsOf, SelectVertical, Raising, CleanField, KindOf;
    PriceAlone(w, s);
    NegativeInfinityIsRefused(w.reader.digit);
    RaisesIsEither(w, map[MinPrice := s], FieldsOf(w, SelectVertical(w, map[MinPrice := s])));
  }

  // A price of 4301 nines.
  function Nines(): (s: string)
    ensures |s| == MAX_DIGITS + 1 && AllDigits(s) && s[0] == '9'
  {
    seq(MAX_DIGITS + 1, _ => '9')
  }

  lemma NinesAlone(w: World)
    ensures var data := map[MinPrice := Nines()];
      && SelectVertical(w, data) == NoVertical
      && CleanField(w, data, MinPrice) == Some(Number(ValueOf(Nines()) * 100))
      && forall name :: name != MinPrice ==> CleanField(w, data, name) == CleanField(w, map[], name)
  {
    hide Show, ValueOf, Nines;
    PriceAlone(w, Nines());
    DigitsNeverRaise(w.reader.digit, Nines());
    forall name | name != MinPrice
      ensures CleanField(w, map[MinPrice := Nines()], name) == CleanField(w, map[], name)
    {
      assert Raw(map[MinPrice := Nines()], name) == Raw(map[], name) == "";
    }
  }

  // The form validates it, and printing the parameters raises.
  lemma LongPriceRaises(w: World) returns (c: Cleaned)
    ensures Validates(w, map[MinPrice := Nines()], c)
    ensures PrintRaises(c, FieldsOf(w, SelectVertical(w, map[MinPrice := Nines()])))
  {
    hide CleanField, FieldsOf, Nines, Show, ValueOf, KindOf;
    var data, names := map[MinPrice := Nines()], FieldsOf(w, NoVertical);
    NinesAlone(w);
    NoVerticalFields(w);
    forall name | name != MinPrice
      ensures CleanField(w, data, name).Some?
      ensures !CleanField(w, data, name).value.Number? && !CleanField(w, data, name).value.Row?
    {
      EmptyField(w, name);
    }
    c := Values(w, data, names);
    assert Good(w, data, names);
    AcceptsExactlyValid(w, data);
    ReadShows(Nines());
    OnlyTwoPrices(MinPrice);
    assert ValueOf(Nines()) * 100 / 100 == ValueOf(Nines());
    assert Unprintable(MinPrice, c[MinPrice]);
  }
}
