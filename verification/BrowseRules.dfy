// The rules of the browse form, said of requests, filters and parameters: which
// fields there are, what each accepts, how ranges run and what is printed.
module BrowseRules {
  import opened Wrappers
  import opened Digits
  import opened PriceTexts
  import opened Sequences
  import opened Browse
  import opened BrowseInputs
  import Text

  // ---- the fields of a form ----

  // What a vertical's own filters are about.
  datatype Subject = Homes | RentalHomes | Equipment | Pasture | Animals | Goods

  function SubjectOf(t: TypedName): Subject {
    match t
    case HomePropertyType => Homes case HomeMinBeds => Homes
    case HomeMinBaths => Homes case HomeMinSquareFeet => Homes
    case RentalType => RentalHomes case RentalMinBeds => RentalHomes case RentalPetsPolicy => RentalHomes
    case EquipmentType => Equipment case EquipmentMake => Equipment case EquipmentMinYear => Equipment
    case EquipmentMaxHours => Equipment case EquipmentCondition => Equipment
    case PastureMinAcreage => Pasture case PastureWaterAvailable => Pasture
    case PastureFenced => Pasture case PastureLeaseTerm => Pasture
    case LivestockSpecies => Animals case LivestockBreed => Animals
    case LivestockSaleUnit => Animals case LivestockMinHeadCount => Animals
    case GoodsItemType => Goods case GoodsBrand => Goods
    case GoodsCondition => Goods case GoodsWorkingStatus => Goods
  }

  predicate About(slug: Slug, subject: Subject) {
    || (slug == RealEstate && subject == Homes)
    || (slug == Rentals && subject == RentalHomes)
    || (slug == FarmRanch && (subject == Equipment || subject == Pasture))
    || (slug == LivestockAnimals && subject == Animals)
    || ((slug == HomeGarden || slug == Appliances) && subject == Goods)
  }

  // Cars are filtered by year, make, model and mileage, every other vertical by
  // its own subjects. A county page has a scope and a radius, any other page a
  // county.
  lemma FieldRules(w: World, s: Selection)
    requires Lawful(w)
    ensures forall t :: Typed(t) in FieldsOf(w, s) <==> s.Selected? && About(s.slug, SubjectOf(t))
    ensures forall name :: name in {Q, Intent, Vertical, Category, MinPrice, MaxPrice, Sort} ==> name in FieldsOf(w, s)
    ensures forall name :: name in {MinYear, MaxYear, Make, Model, MinMileage, MaxMileage} ==>
      (name in FieldsOf(w, s) <==> s == Selected(Autos))
    ensures County in FieldsOf(w, s) <==> !w.fixedCounty
    ensures Scope in FieldsOf(w, s) <==> w.fixedCounty
    ensures NearbyRadius in FieldsOf(w, s) <==> w.fixedCounty
  {
    hide Kept, TypedOf, About, SubjectOf, Keeps, FieldsOf;
    forall t
      ensures Typed(t) in FieldsOf(w, s) <==> s.Selected? && About(s.slug, SubjectOf(t))
    {
      TypedRule(w, s, t);
    }
    DeclaredRules(w, s);
    KeepRules(w, s);
  }

  lemma KeepRules(w: World, s: Selection)
    ensures forall name :: name in {Q, Intent, Vertical, Category, MinPrice, MaxPrice, Sort} ==> Keeps(w, s, name)
    ensures forall name :: name in {MinYear, MaxYear, Make, Model, MinMileage, MaxMileage} ==>
      (Keeps(w, s, name) <==> s == Selected(Autos))
    ensures Keeps(w, s, County) <==> !w.fixedCounty
    ensures Keeps(w, s, Scope) <==> w.fixedCounty
    ensures Keeps(w, s, NearbyRadius) <==> w.fixedCounty
  {
  }

  lemma DeclaredRules(w: World, s: Selection)
    ensures forall name: Name :: !name.Typed? ==> (name in FieldsOf(w, s) <==> Keeps(w, s, name))
  {
    DeclaredDistinct();
    KeptFacts(w, s, DECLARED);
    hide Kept, Keeps;
    assert forall name: Name :: !name.Typed? ==> name in DECLARED;
  }

  lemma TypedRule(w: World, s: Selection, t: TypedName)
    requires Lawful(w)
    ensures Typed(t) in FieldsOf(w, s) <==> s.Selected? && About(s.slug, SubjectOf(t))
  {
    DeclaredDistinct();
    KeptFacts(w, s, DECLARED);
    hide Kept, Keeps;
    if s.Selected? {
      TypedMembers(w.order(s.slug), t);
      assert t in w.order(s.slug) <==> t in TypedOf(s.slug);
      SubjectRule(s.slug, t);
    }
  }

  lemma SubjectRule(slug: Slug, t: TypedName)
    ensures t in TypedOf(slug) <==> About(slug, SubjectOf(t))
  {
    match slug
    case Autos =>
    case RealEstate =>
    case Rentals =>
    case FarmRanch =>
    case LivestockAnimals =>
    case HomeGarden =>
    case Appliances =>
    case OtherVertical =>
  }

  lemma TypedMembers(names: seq<TypedName>, t: TypedName)
    ensures Typed(t) in TypedFields(names) <==> t in names
  {
    if t in names {
      var i :| 0 <= i < |names| && names[i] == t;
      assert TypedFields(names)[i] == Typed(t);
    }
  }

  // An active vertical is selected by its number in digits, and nothing is by an
  // unknown number or none.
  lemma SelectionRules(w: World, data: Data)
    ensures Raw(data, Vertical) == "" ==> SelectVertical(w, data) == NoVertical
    ensures AllDigits(Raw(data, Vertical)) && |Raw(data, Vertical)| <= MAX_DIGITS ==>
      var pk := ValueOf(Raw(data, Vertical));
      if pk in w.verticals then SelectVertical(w, data) == Selected(w.verticals[pk])
      else SelectVertical(w, data) == NoVertical
    ensures AllDigits(Raw(data, Vertical)) && |Raw(data, Vertical)| > MAX_DIGITS ==>
      SelectVertical(w, data).UnreadableVertical?
  {
    hide ValueOf;
  }

  // ---- what a field accepts ----

  // Numbers in plain digits: years of cars from 1886 on, any mileage, a radius
  // from 10 to 250 miles, at most 99 beds, years of equipment and head counts
  // from 1; the value is the number.
  lemma NumberRules(w: World, data: Data, name: Name)
    requires name in {MinYear, MaxYear, MinMileage, MaxMileage, NearbyRadius, Typed(HomeMinBeds), Typed(RentalMinBeds),
                      Typed(HomeMinSquareFeet), Typed(EquipmentMaxHours), Typed(EquipmentMinYear),
                      Typed(LivestockMinHeadCount)}
    requires name in data && AllDigits(data[name]) && |data[name]| <= MAX_DIGITS
    ensures var n := ValueOf(data[name]);
      CleanField(w, data, name) ==
      if (name in {MinYear, MaxYear} && n < 1886)
         || (name == NearbyRadius && !(10 <= n <= 250))
         || (name in {Typed(HomeMinBeds), Typed(RentalMinBeds)} && n > 99)
         || (name in {Typed(HomeMinSquareFeet), Typed(EquipmentMaxHours)} && n > 9_999_999)
         || (name == Typed(EquipmentMinYear) && !(1 <= n <= 9999))
         || (name == Typed(LivestockMinHeadCount) && !(1 <= n <= 9_999_999))
      then None
      else Some(Number(n))
  {
    hide ValueOf;
  }

  // A price in plain digits, with white space around it or not, is kept in cents.
  lemma PriceRules(w: World, data: Data, name: Name)
    requires name == MinPrice || name == MaxPrice
    requires AllDigits(Text.Strip(Raw(data, name)))
    ensures CleanField(w, data, name) == Some(Number(100 * ValueOf(Text.Strip(Raw(data, name)))))
  {
    var text := Text.Strip(Raw(data, name));
    DigitsNeverRaise(w.reader.digit, text);
    assert '\0' !in text;
    hide Text.Strip, ValueOf, Raising;
  }

  // Text is stripped and has a greatest length.
  lemma TextRules(w: World, data: Data, name: Name)
    requires name in {Q, Make, Model, Typed(EquipmentMake), Typed(GoodsBrand), Typed(PastureLeaseTerm),
                      Typed(LivestockBreed), Typed(GoodsItemType)}
    ensures var text := Text.Strip(Raw(data, name));
      var most := if name == Q then 120
                  else if name in {Make, Model, Typed(EquipmentMake), Typed(GoodsBrand)} then 80
                  else 100;
      CleanField(w, data, name) == if |text| <= most && '\0' !in text then Some(Words(text)) else None
  {
    hide Text.Strip;
  }

  // A sort order is one of the choices; no scope is an error; the intents.
  lemma ChoiceRules(w: World, data: Data)
    ensures CleanField(w, data, Sort) ==
      if Raw(data, Sort) == "" || Raw(data, Sort) in w.choices(Sort) then Some(Words(Raw(data, Sort))) else None
    ensures CleanField(w, data, Scope) == Some(Words(if Raw(data, Scope) == "county" then "county" else "state"))
    ensures CleanField(w, data, Intent) ==
      if Raw(data, Intent) == "" then Some(Words("offer"))
      else if Raw(data, Intent) in {"offer", "wanted", "all"} then Some(Words(Raw(data, Intent)))
      else None
  {
  }

  // A row is chosen by its number.
  lemma RowRules(w: World, data: Data, name: Name)
    requires name == Vertical || name == County
    requires name in data && AllDigits(data[name]) && |data[name]| <= MAX_DIGITS
    ensures var pk := ValueOf(data[name]);
      CleanField(w, data, name) ==
      if if name == Vertical then pk in w.verticals else pk in w.counties then Some(Row(pk)) else None
  {
    hide ValueOf;
  }

  // A category is chosen by its number, and only from the chosen vertical.
  lemma CategoryRules(w: World, data: Data)
    requires Category in data && AllDigits(data[Category]) && |data[Category]| <= MAX_DIGITS
    requires Raw(data, Vertical) != "" ==> AllDigits(data[Vertical]) && |data[Vertical]| <= MAX_DIGITS
    ensures var pk := ValueOf(data[Category]);
      CleanField(w, data, Category) ==
      if pk in w.categories && (Raw(data, Vertical) != "" ==> w.categories[pk] == ValueOf(data[Vertical]))
      then Some(Row(pk)) else None
  {
    hide ValueOf;
  }

  // ---- what holds across fields ----

  // Validated ranges run upwards, the radius goes in tens, and the category is
  // of the vertical.
  lemma RangesRunUpwards(w: World, data: Data, c: Cleaned)
    requires Validates(w, data, c)
    ensures MinPrice in c && MaxPrice in c && c[MinPrice].Number? && c[MaxPrice].Number? ==>
      c[MinPrice].n <= c[MaxPrice].n
    ensures MinYear in c && MaxYear in c && c[MinYear].Number? && c[MaxYear].Number? ==> c[MinYear].n <= c[MaxYear].n
    ensures MinMileage in c && MaxMileage in c && c[MinMileage].Number? && c[MaxMileage].Number? ==>
      c[MinMileage].n <= c[MaxMileage].n
    ensures NearbyRadius in c && c[NearbyRadius].Number? ==> c[NearbyRadius].n % 10 == 0
    ensures Category in c && Vertical in c && c[Category].Row? && c[Vertical].Row? && c[Category].pk in w.categories ==>
      w.categories[c[Category].pk] == c[Vertical].pk
  {
    hide CleanField, FieldsOf, SelectVertical;
  }

  // Two fields of the form with a minimum above its maximum.
  predicate Backwards(w: World, data: Data, names: seq<Name>, lower: Name, upper: Name) {
    var a, b := CleanField(w, data, lower), CleanField(w, data, upper);
    && lower in names && upper in names
    && a.Some? && b.Some? && a.value.Number? && b.value.Number? && a.value.n > b.value.n
  }

  predicate OddRadius(w: World, data: Data, names: seq<Name>) {
    var radius := CleanField(w, data, NearbyRadius);
    NearbyRadius in names && radius.Some? && radius.value.Number? && radius.value.n % 10 != 0
  }

  predicate WrongCategory(w: World, data: Data, names: seq<Name>) {
    var k, v := CleanField(w, data, Category), CleanField(w, data, Vertical);
    && Category in names && Vertical in names
    && k.Some? && v.Some? && k.value.Row? && v.value.Row?
    && k.value.pk in w.categories && w.categories[k.value.pk] != v.value.pk
  }

  // A request is valid exactly when each of its fields is and no range runs
  // backwards, no radius is odd and no category is of another vertical.
  lemma ValidExactlyWhen(w: World, data: Data)
    requires !SelectVertical(w, data).UnreadableVertical?
    ensures var names := FieldsOf(w, SelectVertical(w, data));
      (exists c :: Validates(w, data, c)) <==>
        && (forall name :: name in names ==> CleanField(w, data, name).Some?)
        && !Backwards(w, data, names, MinPrice, MaxPrice)
        && !Backwards(w, data, names, MinYear, MaxYear)
        && !Backwards(w, data, names, MinMileage, MaxMileage)
        && !OddRadius(w, data, names) && !WrongCategory(w, data, names)
  {
    var names := FieldsOf(w, SelectVertical(w, data));
    AcceptsExactlyValid(w, data);
    hide CleanField, FieldsOf, SelectVertical, Coherent, Validates, Backwards, OddRadius, WrongCategory, Values;
    if AllClean(w, data, names) {
      CoherentExactlyWhen(w, data, names);
    }
  }

  lemma ValueAt(w: World, data: Data, names: seq<Name>, name: Name)
    requires AllClean(w, data, names)
    ensures name in Values(w, data, names) <==> name in names
    ensures name in names ==> CleanField(w, data, name) == Some(Values(w, data, names)[name])
  {
    hide CleanField;
  }

  lemma PairExactlyWhen(w: World, data: Data, names: seq<Name>, lower: Name, upper: Name)
    requires AllClean(w, data, names)
    ensures OrderedPair(Values(w, data, names), lower, upper) <==> !Backwards(w, data, names, lower, upper)
  {
    hide CleanField, Values, AllClean;
    ValueAt(w, data, names, lower);
    ValueAt(w, data, names, upper);
  }

  lemma CoherentExactlyWhen(w: World, data: Data, names: seq<Name>)
    requires AllClean(w, data, names)
    ensures Coherent(w, Values(w, data, names)) <==>
      && !Backwards(w, data, names, MinPrice, MaxPrice)
      && !Backwards(w, data, names, MinYear, MaxYear)
      && !Backwards(w, data, names, MinMileage, MaxMileage)
      && !OddRadius(w, data, names) && !WrongCategory(w, data, names)
  {
    hide CleanField, Backwards, OrderedPair, Values, AllClean;
    ValueAt(w, data, names, NearbyRadius);
    ValueAt(w, data, names, Category);
    ValueAt(w, data, names, Vertical);
    PairExactlyWhen(w, data, names, MinPrice, MaxPrice);
    PairExactlyWhen(w, data, names, MinYear, MaxYear);
    PairExactlyWhen(w, data, names, MinMileage, MaxMileage);
  }

  // ---- a range of prices ----

  function PriceRange(least: string, most: string): Data {
    map[MinPrice := least, MaxPrice := most]
  }

  lemma RangeFields(w: World, least: string, most: string)
    requires AllDigits(least) && AllDigits(most)
    ensures var data := PriceRange(least, most);
      && SelectVertical(w, data) == NoVertical
      && CleanField(w, data, MinPrice) == Some(Number(100 * ValueOf(least)))
      && CleanField(w, data, MaxPrice) == Some(Number(100 * ValueOf(most)))
      && forall name :: name != MinPrice && name != MaxPrice ==>
           && CleanField(w, data, name) == CleanField(w, map[], name)
           && CleanField(w, data, name).Some? && !CleanField(w, data, name).value.Number?
           && !CleanField(w, data, name).value.Row?
  {
    var data := PriceRange(least, most);
    hide ValueOf;
    Text.TrimmedStaysPut(least);
    Text.TrimmedStaysPut(most);
    PriceRules(w, data, MinPrice);
    PriceRules(w, data, MaxPrice);
    forall name | name != MinPrice && name != MaxPrice
      ensures CleanField(w, data, name) == CleanField(w, map[], name)
      ensures CleanField(w, data, name).Some? && !CleanField(w, data, name).value.Number?
      ensures !CleanField(w, data, name).value.Row?
    {
      assert Raw(data, name) == Raw(map[], name) == "";
      EmptyField(w, name);
    }
  }

  // A request for prices between two amounts in digits is valid exactly when
  // the first is not above the second.
  lemma PriceRangeExactlyWhen(w: World, least: string, most: string)
    requires AllDigits(least) && AllDigits(most)
    ensures (exists c :: Validates(w, PriceRange(least, most), c)) <==> ValueOf(least) <= ValueOf(most)
  {
    hide CleanField, FieldsOf, SelectVertical, Validates, ValueOf;
    var data, names := PriceRange(least, most), FieldsOf(w, NoVertical);
    RangeFields(w, least, most);
    ValidExactlyWhen(w, data);
    NoVerticalFields(w);
    MaxPriceField(w);
    if ValueOf(least) > ValueOf(most) {
      assert 100 * ValueOf(least) > 100 * ValueOf(most);
      assert Backwards(w, data, names, MinPrice, MaxPrice);
    }
  }

  lemma MaxPriceField(w: World)
    ensures MaxPrice in FieldsOf(w, NoVertical)
  {
    DeclaredDistinct();
    KeptFacts(w, NoVertical, DECLARED);
    assert MaxPrice in DECLARED;
  }

  // min_price=100 with max_price=200 is valid, and the other way round is not.
  lemma HundredToTwoHundred(w: World)
    ensures exists c :: Validates(w, PriceRange("100", "200"), c)
    ensures forall c :: !Validates(w, PriceRange("200", "100"), c)
  {
    hide Validates;
    assert ValueOf("100") == 100 && ValueOf("200") == 200 by {
      assert "100"[..2] == "10" && "10"[..1] == "1" && "1"[..0] == "";
      assert "200"[..2] == "20" && "20"[..1] == "2" && "2"[..0] == "";
    }
    PriceRangeExactlyWhen(w, "100", "200");
    PriceRangeExactlyWhen(w, "200", "100");
  }

  // ---- what is printed ----

  // Nothing is printed for a field that is not set or at its default; a price is
  // printed in dollars, a row as its number, anything else as it is.
  lemma PrintRules(data: Data, name: Name, v: Value)
    ensures v == Absent || v == Words("") ==> PrintField(data, name, v) == None
    ensures forall n: nat :: v == Number(n) && name in {MinPrice, MaxPrice} ==>
      PrintField(data, name, v) == Some(Show(n / 100))
    ensures forall n: nat :: v == Number(n) && name in {MinYear, MaxYear, MinMileage, MaxMileage, NearbyRadius} ==>
      PrintField(data, name, v) == Some(Show(n))
    ensures forall pk: nat :: v == Row(pk) ==> PrintField(data, name, v) == Some(Show(pk))
    ensures forall text :: v == Decimal(text) ==> PrintField(data, name, v) == Some(text)
    ensures forall text :: v == Words(text) && text != "" ==>
      PrintField(data, name, v) ==
      match name
      case Scope => if text == "county" then Some("county") else None
      case Intent => if text == "offer" then None else Some(text)
      case Sort => if text == "newest" && (Sort !in data || data[Sort] == "") then None else Some(text)
      case _ => Some(text)
  {
    hide Show, KindOfTyped;
  }

  // The first list keeps the order of the second.
  ghost predicate InOrderOf(part: seq<Name>, whole: seq<Name>) {
    forall i, j :: 0 <= i < j < |part| ==> Precedes(part[i], part[j], whole)
  }

  ghost predicate Precedes(a: Name, b: Name, whole: seq<Name>) {
    exists i, j :: 0 <= i < j < |whole| && whole[i] == a && whole[j] == b
  }

  // At most one more at the end of either list.
  lemma OrderNext(part: seq<Name>, whole: seq<Name>, last: Name)
    requires InOrderOf(part, whole) && forall name :: name in part ==> name in whole
    ensures InOrderOf(part, whole + [last]) && InOrderOf(part + [last], whole + [last])
  {
    var longer := whole + [last];
    forall a, b | Precedes(a, b, whole)
      ensures Precedes(a, b, longer)
    {
      var i, j :| 0 <= i < j < |whole| && whole[i] == a && whole[j] == b;
      assert longer[i] == a && longer[j] == b;
    }
    forall a | a in part
      ensures Precedes(a, last, longer)
    {
      var i :| 0 <= i < |whole| && whole[i] == a;
      assert longer[i] == a && longer[|whole|] == last;
    }
    hide Precedes;
  }

  // The fields are in their declared order, with the vertical's own at the end.
  lemma {:induction false} KeptInOrder(w: World, s: Selection, names: seq<Name>)
    requires Distinct(names)
    ensures InOrderOf(Kept(w, s, names), names)
  {
    if names != [] {
      var init, last := names[..|names| - 1], names[|names| - 1];
      assert names == init + [last];
      KeptInOrder(w, s, init);
      KeptFacts(w, s, init);
      hide InOrderOf, Keeps;
      OrderNext(Kept(w, s, init), init, last);
      assert Kept(w, s, init) + [] == Kept(w, s, init);
    }
  }

  // The vertical's own fields come last, in the order they are added.
  lemma FieldsInOrder(w: World, s: Selection) returns (declared: seq<Name>)
    ensures InOrderOf(declared, DECLARED) && forall name :: name in declared ==> !name.Typed?
    ensures |FieldsOf(w, s)| == |declared| + if s.Selected? then |w.order(s.slug)| else 0
    ensures FieldsOf(w, s)[..|declared|] == declared
    ensures s.Selected? ==>
      forall i :: 0 <= i < |w.order(s.slug)| ==> FieldsOf(w, s)[|declared| + i] == Typed(w.order(s.slug)[i])
  {
    declared := Kept(w, s, DECLARED);
    DeclaredDistinct();
    KeptInOrder(w, s, DECLARED);
    KeptFacts(w, s, DECLARED);
    hide Kept, Keeps, InOrderOf;
  }

  function NamesOf(parameters: Parameters): (names: seq<Name>)
    ensures |names| == |parameters|
  {
    seq(|parameters|, i requires 0 <= i < |parameters| => parameters[i].0)
  }

  // Parameters are printed in the order of the fields.
  lemma {:induction false} PrintedInOrder(data: Data, c: Cleaned, names: seq<Name>)
    ensures InOrderOf(NamesOf(Printed(data, c, names)), names)
    ensures forall name :: name in NamesOf(Printed(data, c, names)) ==> name in names
  {
    if names != [] {
      var init, last := names[..|names| - 1], names[|names| - 1];
      assert names == init + [last];
      PrintedInOrder(data, c, init);
      var before := Printed(data, c, init);
      hide InOrderOf, PrintField;
      OrderNext(NamesOf(before), init, last);
      assert before + [] == before;
      if last in c && PrintField(data, last, c[last]).Some? {
        assert NamesOf(Printed(data, c, names)) == NamesOf(before) + [last];
      }
    }
  }

  // A parameter is printed for each included field that has something to print,
  // each once.
  lemma IncludedRules(names: seq<Name>, exclude: set<Name>, retainNearbyRadius: bool, name: Name)
    ensures name in Included(names, exclude, retainNearbyRadius) <==>
      name in names && name !in exclude && (name == NearbyRadius ==> retainNearbyRadius)
  {
    IncludedHolds(names, exclude, retainNearbyRadius);
  }
}
