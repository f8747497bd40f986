// The public browse form: cleaning request parameters into filters and printing
// filters as canonical parameters.
module Browse {
  import opened Wrappers
  import opened Digits
  import opened PriceTexts
  import opened Sequences
  import Text

  // ---- fields ----

  // The vertical-scoped fields added after the declared ones.
  datatype TypedName =
    | HomePropertyType | HomeMinBeds | HomeMinBaths | HomeMinSquareFeet
    | RentalType | RentalMinBeds | RentalPetsPolicy
    | EquipmentType | EquipmentMake | EquipmentMinYear | EquipmentMaxHours | EquipmentCondition
    | PastureMinAcreage | PastureWaterAvailable | PastureFenced | PastureLeaseTerm
    | LivestockSpecies | LivestockBreed | LivestockSaleUnit | LivestockMinHeadCount
    | GoodsItemType | GoodsBrand | GoodsCondition | GoodsWorkingStatus

  datatype Name =
    | Q | Intent | Scope | Vertical | Category | County | MinPrice | MaxPrice | Sort
    | MinYear | MaxYear | Make | Model | MinMileage | MaxMileage | NearbyRadius
    | Typed(name: TypedName)

  datatype Slug = Autos | RealEstate | Rentals | FarmRanch | LivestockAnimals | HomeGarden | Appliances | OtherVertical

  // How a field turns text into a value.
  datatype Kind =
    | TextKind(maxLength: nat)
    | NumberKind(least: nat, most: Option<nat>)
    | DecimalKind
    | ChoiceKind
    | PriceKind
    | RowKind
    | ScopeKind
    | IntentKind

  function KindOfTyped(name: TypedName): Kind {
    match name
    case HomeMinBeds => NumberKind(0, Some(99))
    case HomeMinBaths => DecimalKind
    case HomeMinSquareFeet => NumberKind(0, Some(9_999_999))
    case RentalMinBeds => NumberKind(0, Some(99))
    case EquipmentMake => TextKind(80)
    case EquipmentMinYear => NumberKind(1, Some(9999))
    case EquipmentMaxHours => NumberKind(0, Some(9_999_999))
    case PastureMinAcreage => DecimalKind
    case PastureLeaseTerm => TextKind(100)
    case LivestockBreed => TextKind(100)
    case LivestockMinHeadCount => NumberKind(1, Some(9_999_999))
    case GoodsItemType => TextKind(100)
    case GoodsBrand => TextKind(80)
    case _ => ChoiceKind
  }

  function KindOf(name: Name): Kind {
    match name
    case Q => TextKind(120)
    case Intent => IntentKind
    case Scope => ScopeKind
    case Vertical => RowKind
    case Category => RowKind
    case County => RowKind
    case MinPrice => PriceKind
    case MaxPrice => PriceKind
    case Sort => ChoiceKind
    case MinYear => NumberKind(1886, None)
    case MaxYear => NumberKind(1886, None)
    case Make => TextKind(80)
    case Model => TextKind(80)
    case MinMileage => NumberKind(0, None)
    case MaxMileage => NumberKind(0, None)
    case NearbyRadius => NumberKind(10, Some(250))
    case Typed(t) => KindOfTyped(t)
  }

  // TYPED_FILTER_FIELDS without the declared autos fields.
  function TypedOf(slug: Slug): set<TypedName> {
    match slug
    case RealEstate => {HomePropertyType, HomeMinBeds, HomeMinBaths, HomeMinSquareFeet}
    case Rentals => {RentalType, RentalMinBeds, RentalPetsPolicy}
    case FarmRanch =>
      {EquipmentType, EquipmentMake, EquipmentMinYear, EquipmentMaxHours, EquipmentCondition,
       PastureMinAcreage, PastureWaterAvailable, PastureFenced, PastureLeaseTerm}
    case LivestockAnimals => {LivestockSpecies, LivestockBreed, LivestockSaleUnit, LivestockMinHeadCount}
    case HomeGarden => {GoodsItemType, GoodsBrand, GoodsCondition, GoodsWorkingStatus}
    case Appliances => {GoodsItemType, GoodsBrand, GoodsCondition, GoodsWorkingStatus}
    case Autos => {}
    case OtherVertical => {}
  }

  // ---- the world the form reads ----

  // The most digits of an integer Python reads from text or writes as text.
  const MAX_DIGITS := 4300

  // What text for a price is: whole dollars, refused (no number, negative or a
  // fraction), or a value on which the checks themselves raise.
  datatype Amount = Dollars(n: nat) | RefusedAmount | RaisingAmount

  // What Python makes of text beyond plain digits: signs, spaces, fractions,
  // exponents. digit says which characters are decimal digits; decimal gives
  // the canonical text of a decimal field's value.
  datatype Reader = Reader(
    digit: char -> bool,
    number: string -> Option<int>,
    row: string -> Option<int>,
    dollars: string -> Option<nat>,
    decimal: (Name, string) -> Option<string>)

  datatype World = World(
    reader: Reader,
    verticals: map<nat, Slug>,          // active verticals
    categories: map<nat, nat>,          // active categories and their verticals
    counties: set<nat>,                 // the state's counties in the network
    choices: Name -> set<string>,       // the nonempty choices of a choice field
    order: Slug -> seq<TypedName>,      // the order typed fields are added in
    fixedCounty: bool)

  ghost predicate HasDigit(digit: char -> bool, s: string) {
    exists i :: 0 <= i < |s| && digit(s[i])
  }

  // Text without a decimal digit is no number, and no integer is read that has
  // too many digits.
  ghost predicate ReadsNumbers(r: Reader) {
    && (forall c :: c <= '\U{7F}' ==> (r.digit(c) <==> IsDigit(c)))
    && (forall s :: r.number(s).Some? ==> HasDigit(r.digit, s) && Writable(r.number(s).value))
    && (forall s :: r.row(s).Some? ==> HasDigit(r.digit, s) && Writable(r.row(s).value))
    && (forall s :: r.dollars(s).Some? ==> HasDigit(r.digit, s))
  }

  predicate Writable(n: int) {
    n >= 0 ==> |Show(n)| <= MAX_DIGITS
  }

  // The canonical text of a decimal reads back as itself, and typed fields are
  // added once each.
  ghost predicate Lawful(w: World) {
    && ReadsNumbers(w.reader)
    && (forall name, s :: w.reader.decimal(name, s).Some? ==>
          var c := w.reader.decimal(name, s).value; c != "" && w.reader.decimal(name, c) == Some(c))
    && (forall slug, t :: t in w.order(slug) <==> t in TypedOf(slug))
    && (forall slug :: Distinct(w.order(slug)))
  }

  type Data = map<Name, string>

  function Raw(data: Data, name: Name): string {
    if name in data then data[name] else ""
  }

  // Plain digits read as their value unless they are too many; everything else
  // is Python's business.
  function ReadInteger(other: string -> Option<int>, s: string): Option<int> {
    if !AllDigits(s) then other(s)
    else if |s| <= MAX_DIGITS then Some(ValueOf(s))
    else None
  }

  // No field and no row accepts a negative number.
  function ReadNumber(other: string -> Option<int>, s: string): Option<nat> {
    match ReadInteger(other, s)
    case Some(n) => if n >= 0 then Some(n) else None
    case None => None
  }

  // A price is read as a decimal, which may have any number of digits.
  function ReadDollars(r: Reader, s: string): Amount {
    if Raising(r.digit, s) then RaisingAmount
    else if AllDigits(s) then Dollars(ValueOf(s))
    else
      match r.dollars(s)
      case Some(n) => Dollars(n)
      case None => RefusedAmount
  }

  // ---- which fields the form has ----

  datatype Selection = NoVertical | Selected(slug: Slug) | UnreadableVertical

  function SelectVertical(w: World, data: Data): Selection {
    var text := Raw(data, Vertical);
    if text == "" then NoVertical
    else
      match ReadInteger(w.reader.row, text)
      case None => UnreadableVertical
      case Some(pk) => if pk in w.verticals then Selected(w.verticals[pk]) else NoVertical
  }

  predicate Keeps(w: World, s: Selection, name: Name) {
    match name
    case County => !w.fixedCounty
    case Scope => w.fixedCounty
    case NearbyRadius => w.fixedCounty
    case MinYear => s == Selected(Autos)
    case MaxYear => s == Selected(Autos)
    case Make => s == Selected(Autos)
    case Model => s == Selected(Autos)
    case MinMileage => s == Selected(Autos)
    case MaxMileage => s == Selected(Autos)
    case _ => true
  }

  const DECLARED := [Q, Intent, Scope, Vertical, Category, County, MinPrice, MaxPrice, Sort,
                     MinYear, MaxYear, Make, Model, MinMileage, MaxMileage, NearbyRadius]

  function Kept(w: World, s: Selection, names: seq<Name>): seq<Name> {
    if names == [] then []
    else
      var last := names[|names| - 1];
      Kept(w, s, names[..|names| - 1]) + if Keeps(w, s, last) then [last] else []
  }

  function TypedFields(names: seq<TypedName>): (fields: seq<Name>)
    ensures |fields| == |names| && forall i :: 0 <= i < |names| ==> fields[i] == Typed(names[i])
  {
    seq(|names|, i requires 0 <= i < |names| => Typed(names[i]))
  }

  function FieldsOf(w: World, s: Selection): seq<Name> {
    Kept(w, s, DECLARED) + if s.Selected? then TypedFields(w.order(s.slug)) else []
  }

  // ---- cleaning ----

  datatype Value = Absent | Words(text: string) | Number(n: nat) | Row(pk: nat) | Decimal(canonical: string)

  predicate Selectable(w: World, data: Data, name: Name, pk: nat) {
    match name
    case Vertical => pk in w.verticals
    case Category =>
      && pk in w.categories
      && (Raw(data, Vertical) != "" ==> ReadNumber(w.reader.row, Raw(data, Vertical)) == Some(w.categories[pk]))
    case County => pk in w.counties
    case _ => false
  }

  predicate WithinBounds(n: nat, least: nat, most: Option<nat>) {
    least <= n && (most.Some? ==> n <= most.value)
  }

  // One field's value, or None for a validation error.
  function CleanField(w: World, data: Data, name: Name): Option<Value> {
    var raw := Raw(data, name);
    match KindOf(name)
    case TextKind(maxLength) =>
      var text := Text.Strip(raw);
      if |text| <= maxLength && '\0' !in text then Some(Words(text)) else None
    case NumberKind(least, most) =>
      if raw == "" then Some(Absent)
      else
        var n := ReadNumber(w.reader.number, raw);
        if n.Some? && WithinBounds(n.value, least, most) then Some(Number(n.value)) else None
    case DecimalKind =>
      if raw == "" then Some(Absent)
      else
        var c := w.reader.decimal(name, raw);
        if c.Some? then Some(Decimal(c.value)) else None
    case ChoiceKind =>
      if raw == "" || raw in w.choices(name) then Some(Words(raw)) else None
    case PriceKind =>
      var text := Text.Strip(raw);
      if '\0' in text then None
      else if text == "" then Some(Words(""))
      else
        var dollars := ReadDollars(w.reader, text);
        if dollars.Dollars? then Some(Number(dollars.n * 100)) else None
    case RowKind =>
      if raw == "" then Some(Absent)
      else
        var pk := ReadNumber(w.reader.row, raw);
        if pk.Some? && Selectable(w, data, name, pk.value) then Some(Row(pk.value)) else None
    case ScopeKind => Some(Words(if raw == "county" then "county" else "state"))
    case IntentKind =>
      if raw != "" && !IntentChoice(raw) then None else Some(Words(CleanIntent(raw)))
  }

  predicate IntentChoice(raw: string) {
    raw == "offer" || raw == "wanted" || raw == "all"
  }

  // clean_intent, which runs after the choice field has accepted the text.
  function CleanIntent(raw: string): string {
    if IntentChoice(raw) then raw else "offer"
  }

  type Cleaned = map<Name, Value>

  predicate OrderedPair(c: Cleaned, lower: Name, upper: Name) {
    lower in c && upper in c && c[lower].Number? && c[upper].Number? ==> c[lower].n <= c[upper].n
  }

  predicate MatchingCategory(w: World, c: Cleaned) {
    Category in c && Vertical in c && c[Category].Row? && c[Vertical].Row? && c[Category].pk in w.categories ==>
      w.categories[c[Category].pk] == c[Vertical].pk
  }

  predicate RadiusStep(c: Cleaned) {
    NearbyRadius in c && c[NearbyRadius].Number? ==> c[NearbyRadius].n % 10 == 0
  }

  // The checks across fields.
  predicate Coherent(w: World, c: Cleaned) {
    && MatchingCategory(w, c) && RadiusStep(c)
    && OrderedPair(c, MinPrice, MaxPrice) && OrderedPair(c, MinYear, MaxYear) && OrderedPair(c, MinMileage, MaxMileage)
  }

  // A successfully validated form: every field clean, and the checks hold.
  ghost predicate Validates(w: World, data: Data, c: Cleaned) {
    var s := SelectVertical(w, data);
    && !s.UnreadableVertical?
    && (forall name :: name in c <==> name in FieldsOf(w, s))
    && (forall name :: name in c ==> CleanField(w, data, name) == Some(c[name]))
    && Coherent(w, c)
  }

  // ---- printing ----

  // A price is kept in cents and printed in dollars.
  function Shown(name: Name, n: nat): nat {
    if KindOf(name).PriceKind? then n / 100 else n
  }

  // Writing the value as text raises.
  predicate Unprintable(name: Name, v: Value) {
    match v
    case Number(n) => !Writable(Shown(name, n))
    case Row(pk) => !Writable(pk)
    case _ => false
  }

  ghost predicate PrintRaises(c: Cleaned, names: seq<Name>) {
    exists name :: name in names && name in c && Unprintable(name, c[name])
  }

  // The parameter a field prints, if any.
  function PrintField(data: Data, name: Name, v: Value): Option<string> {
    if v == Absent || v == Words("") then None
    else
      match v
      case Row(pk) => Some(Show(pk))
      case Number(n) => Some(Show(Shown(name, n)))
      case Decimal(canonical) => Some(canonical)
      case Words(text) =>
        if name == Scope && text != "county" then None
        else if name == Intent && text == "offer" then None
        else if name == Sort && text == "newest" && Raw(data, Sort) == "" then None
        else Some(text)
  }

  type Parameters = seq<(Name, string)>

  function Printed(data: Data, c: Cleaned, names: seq<Name>): Parameters {
    if names == [] then []
    else
      var last := names[|names| - 1];
      Printed(data, c, names[..|names| - 1]) +
      if last in c && PrintField(data, last, c[last]).Some? then [(last, PrintField(data, last, c[last]).value)] else []
  }

  // The request a list of parameters makes.
  function Request(parameters: Parameters): Data {
    if parameters == [] then map[]
    else
      var last := parameters[|parameters| - 1];
      Request(parameters[..|parameters| - 1])[last.0 := last.1]
  }

  lemma {:induction false} RequestHolds(data: Data, c: Cleaned, names: seq<Name>)
    requires Distinct(names)
    ensures var again := Request(Printed(data, c, names));
      forall name ::
        && (name in again <==> name in names && name in c && PrintField(data, name, c[name]).Some?)
        && (name in again ==> again[name] == PrintField(data, name, c[name]).value)
  {
    if names != [] {
      var init, last := names[..|names| - 1], names[|names| - 1];
      assert names == init + [last] && last !in init;
      RequestHolds(data, c, init);
      var before := Printed(data, c, init);
      if last in c && PrintField(data, last, c[last]).Some? {
        var p := (last, PrintField(data, last, c[last]).value);
        assert (before + [p])[..|before|] == before;
      } else {
        assert before + [] == before;
      }
    }
  }

  // ---- the fields of a form are distinct ----

  lemma {:induction false} KeptFacts(w: World, s: Selection, names: seq<Name>)
    requires Distinct(names)
    ensures Distinct(Kept(w, s, names))
    ensures forall name :: name in Kept(w, s, names) <==> name in names && Keeps(w, s, name)
  {
    if names != [] {
      var init, last := names[..|names| - 1], names[|names| - 1];
      assert names == init + [last] && last !in init;
      KeptFacts(w, s, init);
    }
  }

  lemma KeptNext(w: World, s: Selection, names: seq<Name>, i: nat)
    requires i < |names|
    ensures Kept(w, s, names[..i + 1]) == Kept(w, s, names[..i]) + if Keeps(w, s, names[i]) then [names[i]] else []
  {
    assert names[..i + 1][..i] == names[..i];
  }

  lemma DeclaredDistinct()
    ensures Distinct(DECLARED) && forall t :: Typed(t) !in DECLARED
  {
  }

  lemma FieldsDistinct(w: World, s: Selection)
    requires Lawful(w)
    ensures Distinct(FieldsOf(w, s))
    ensures Vertical in FieldsOf(w, s)
  {
    DeclaredDistinct();
    KeptFacts(w, s, DECLARED);
    assert Vertical in DECLARED;
  }

  // ---- parsing undoes printing, field by field ----

  // The request after: for a field, the text it printed or nothing.
  ghost predicate PrintedRaw(data: Data, c: Cleaned, again: Data, name: Name)
    requires name in c
  {
    var p := PrintField(data, name, c[name]);
    Raw(again, name) == if p.Some? then p.value else ""
  }

  lemma ShowIsTrimmed(n: nat)
    ensures Text.Strip(Show(n)) == Show(n) && '\0' !in Show(n) && ReadsBack(n)
  {
    ShowReads(n);
    Text.TrimmedStaysPut(Show(n));
  }

  ghost predicate ReadsBack(n: nat) {
    ValueOf(Show(n)) == n
  }

  lemma RecleanText(w: World, data: Data, c: Cleaned, again: Data, name: Name)
    requires KindOf(name).TextKind? && name in c && CleanField(w, data, name) == Some(c[name])
      && PrintedRaw(data, c, again, name)
    ensures CleanField(w, again, name) == CleanField(w, data, name)
  {
    Text.StripTrims(Raw(data, name));
  }

  lemma RecleanNumber(w: World, data: Data, c: Cleaned, again: Data, name: Name)
    requires KindOf(name).NumberKind? && name in c && CleanField(w, data, name) == Some(c[name])
      && PrintedRaw(data, c, again, name) && !Unprintable(name, c[name])
    ensures CleanField(w, again, name) == CleanField(w, data, name)
  {
    if c[name].Number? {
      ShowReads(c[name].n);
    }
  }

  // A cleaned price is a number of whole dollars in cents, or missing.
  lemma CleanedPrice(w: World, data: Data, name: Name)
    requires KindOf(name).PriceKind? && CleanField(w, data, name).Some?
    ensures var v := CleanField(w, data, name).value; v == Words("") || (v.Number? && v.n == v.n / 100 * 100)
  {
    hide Text.Strip, ValueOf;
  }

  lemma PrintedPrice(w: World, again: Data, name: Name, dollars: nat)
    requires KindOf(name).PriceKind? && Raw(again, name) == Show(dollars)
    ensures CleanField(w, again, name) == Some(Number(dollars * 100))
  {
    hide Show, Text.Strip, Raising;
    ShowIsTrimmed(dollars);
    DigitsNeverRaise(w.reader.digit, Show(dollars));
  }

  lemma NoPrice(w: World, again: Data, name: Name)
    requires KindOf(name).PriceKind? && Raw(again, name) == ""
    ensures CleanField(w, again, name) == Some(Words(""))
  {
  }

  lemma RecleanPrice(w: World, data: Data, c: Cleaned, again: Data, name: Name)
    requires KindOf(name).PriceKind? && name in c && CleanField(w, data, name) == Some(c[name])
      && PrintedRaw(data, c, again, name)
    ensures CleanField(w, again, name) == CleanField(w, data, name)
  {
    hide CleanField, Show, Text.Strip;
    CleanedPrice(w, data, name);
    if c[name].Number? {
      PrintedPrice(w, again, name, c[name].n / 100);
    } else {
      NoPrice(w, again, name);
    }
  }

  // The vertical a request selects, seen in the cleaned value.
  ghost predicate SameVertical(w: World, data: Data, c: Cleaned, again: Data) {
    && Vertical in c && CleanField(w, data, Vertical) == Some(c[Vertical]) && PrintedRaw(data, c, again, Vertical)
    && !Unprintable(Vertical, c[Vertical])
  }

  lemma RecleanVertical(w: World, data: Data, c: Cleaned, again: Data)
    requires SameVertical(w, data, c, again)
    ensures CleanField(w, again, Vertical) == Some(c[Vertical])
    ensures SelectVertical(w, again) == SelectVertical(w, data)
    ensures Raw(again, Vertical) == "" <==> Raw(data, Vertical) == ""
    ensures Raw(data, Vertical) != "" ==>
      ReadNumber(w.reader.row, Raw(again, Vertical)) == ReadNumber(w.reader.row, Raw(data, Vertical))
  {
    if c[Vertical].Row? {
      ShowReads(c[Vertical].pk);
    }
  }

  lemma RecleanRow(w: World, data: Data, c: Cleaned, again: Data, name: Name)
    requires KindOf(name).RowKind? && name in c && CleanField(w, data, name) == Some(c[name])
      && PrintedRaw(data, c, again, name) && !Unprintable(name, c[name])
    requires SameVertical(w, data, c, again)
    ensures CleanField(w, again, name) == CleanField(w, data, name)
  {
    RecleanVertical(w, data, c, again);
    if c[name].Row? {
      ShowReads(c[name].pk);
    }
  }

  // The remaining kinds print the text they accept.
  lemma RecleanChoice(w: World, data: Data, c: Cleaned, again: Data, name: Name)
    requires Lawful(w) && name in c && CleanField(w, data, name) == Some(c[name]) && PrintedRaw(data, c, again, name)
    requires KindOf(name).ChoiceKind? || KindOf(name).DecimalKind? || KindOf(name).ScopeKind?
      || KindOf(name).IntentKind?
    ensures CleanField(w, again, name) == CleanField(w, data, name)
  {
  }

  lemma Reclean(w: World, data: Data, c: Cleaned, again: Data, name: Name)
    requires Lawful(w) && name in c && CleanField(w, data, name) == Some(c[name]) && PrintedRaw(data, c, again, name)
    requires SameVertical(w, data, c, again) && !Unprintable(name, c[name])
    ensures CleanField(w, again, name) == CleanField(w, data, name)
    ensures PrintField(again, name, c[name]) == PrintField(data, name, c[name])
  {
    match KindOf(name)
    case TextKind(_) => RecleanText(w, data, c, again, name);
    case NumberKind(_, _) => RecleanNumber(w, data, c, again, name);
    case PriceKind => RecleanPrice(w, data, c, again, name);
    case RowKind => RecleanRow(w, data, c, again, name);
    case _ => RecleanChoice(w, data, c, again, name);
  }

  lemma {:induction false} PrintedSame(data: Data, again: Data, c: Cleaned, names: seq<Name>)
    requires forall name :: name in names && name in c ==>
      PrintField(again, name, c[name]) == PrintField(data, name, c[name])
    ensures Printed(again, c, names) == Printed(data, c, names)
  {
    if names != [] {
      PrintedSame(data, again, c, names[..|names| - 1]);
    }
  }

  ghost predicate LongPrice(c: Cleaned, name: Name) {
    name in c && c[name].Number? && |Show(c[name].n / 100)| > MAX_DIGITS
  }

  // Printing a validated form raises exactly when a price is too long: no other
  // number of that length is ever read.
  lemma PrintingRaisesExactlyWhen(w: World, data: Data, c: Cleaned)
    requires Lawful(w) && Validates(w, data, c)
    ensures PrintRaises(c, FieldsOf(w, SelectVertical(w, data))) <==> LongPrice(c, MinPrice) || LongPrice(c, MaxPrice)
  {
    hide CleanField, SelectVertical, Kept, Coherent, Show, KindOfTyped;
    var names := FieldsOf(w, SelectVertical(w, data));
    forall name | name in c && Unprintable(name, c[name])
      ensures (name == MinPrice || name == MaxPrice) && LongPrice(c, name)
    {
      OnlyPricesAreLong(w, data, name);
      OnlyTwoPrices(name);
    }
    OnlyTwoPrices(MinPrice);
    OnlyTwoPrices(MaxPrice);
    assert LongPrice(c, MinPrice) ==> MinPrice in names && Unprintable(MinPrice, c[MinPrice]);
    assert LongPrice(c, MaxPrice) ==> MaxPrice in names && Unprintable(MaxPrice, c[MaxPrice]);
  }

  lemma OnlyTwoPrices(name: Name)
    ensures KindOf(name).PriceKind? <==> name == MinPrice || name == MaxPrice
  {
  }

  lemma OnlyPricesAreLong(w: World, data: Data, name: Name)
    requires Lawful(w) && CleanField(w, data, name).Some? && Unprintable(name, CleanField(w, data, name).value)
    ensures KindOf(name).PriceKind? && CleanField(w, data, name).value.Number?
  {
    var raw := Raw(data, name);
    if AllDigits(raw) {
      ReadsNoLonger(raw);
    }
    hide Show, ValueOf, KindOfTyped, Text.Strip, Selectable;
  }

  // Printing the filters of a validated form, where it does not raise, and
  // parsing the parameters gives the same fields and the same filters, and
  // printing those gives the same parameters.
  lemma ParsingUndoesPrinting(w: World, data: Data, c: Cleaned)
    requires Lawful(w) && Validates(w, data, c) && !PrintRaises(c, FieldsOf(w, SelectVertical(w, data)))
    ensures var names := FieldsOf(w, SelectVertical(w, data));
      var parameters := Printed(data, c, names);
      var again := Request(parameters);
      && SelectVertical(w, again) == SelectVertical(w, data)
      && Validates(w, again, c)
      && Printed(again, c, names) == parameters
  {
    hide CleanField, PrintField, SelectVertical, Kept, Coherent, Unprintable;
    var names := FieldsOf(w, SelectVertical(w, data));
    FieldsDistinct(w, SelectVertical(w, data));
    RequestHolds(data, c, names);
    var again := Request(Printed(data, c, names));
    forall name | name in c
      ensures CleanField(w, again, name) == Some(c[name])
      ensures PrintField(again, name, c[name]) == PrintField(data, name, c[name])
    {
      assert PrintedRaw(data, c, again, name) && PrintedRaw(data, c, again, Vertical);
      Reclean(w, data, c, again, name);
    }
    assert PrintedRaw(data, c, again, Vertical);
    RecleanVertical(w, data, c, again);
    PrintedSame(data, again, c, names);
  }

  // Cleaning is a function of the request.
  lemma CleanedIsUnique(w: World, data: Data, c: Cleaned, d: Cleaned)
    requires Validates(w, data, c) && Validates(w, data, d)
    ensures c == d
  {
    hide CleanField, FieldsOf, Coherent;
    assert forall name :: name in c ==> Some(c[name]) == Some(d[name]);
  }

  // The parameters determine the filters: two validated forms that print the
  // same parameters have the same fields and filters.
  lemma ParametersDetermineFilters(w: World, a: Data, b: Data, c: Cleaned, d: Cleaned)
    requires Lawful(w) && Validates(w, a, c) && Validates(w, b, d)
    requires !PrintRaises(c, FieldsOf(w, SelectVertical(w, a))) && !PrintRaises(d, FieldsOf(w, SelectVertical(w, b)))
    requires Printed(a, c, FieldsOf(w, SelectVertical(w, a))) == Printed(b, d, FieldsOf(w, SelectVertical(w, b)))
    ensures SelectVertical(w, a) == SelectVertical(w, b) && c == d
  {
    ParsingUndoesPrinting(w, a, c);
    ParsingUndoesPrinting(w, b, d);
    CleanedIsUnique(w, Request(Printed(a, c, FieldsOf(w, SelectVertical(w, a)))), c, d);
  }

  // ---- the form object ----

  ghost predicate AllClean(w: World, data: Data, names: seq<Name>) {
    forall name :: name in names ==> CleanField(w, data, name).Some?
  }

  ghost function Values(w: World, data: Data, names: seq<Name>): Cleaned {
    map name | name in names && CleanField(w, data, name).Some? :: CleanField(w, data, name).value
  }

  // After field cleaning prices are still text.
  function FirstPass(w: World, data: Data, name: Name): Option<Value> {
    if KindOf(name).PriceKind? then
      var text := Text.Strip(Raw(data, name));
      if '\0' in text then None else Some(Words(text))
    else CleanField(w, data, name)
  }

  // The fields visited so far, each with its value or an error.
  ghost predicate Visited(w: World, data: Data, names: seq<Name>, c: Cleaned, errors: set<Name>) {
    && (forall name :: name in names ==> if FirstPass(w, data, name).Some? then name in c else name in errors)
    && (forall name :: name in c ==> name in names && FirstPass(w, data, name) == Some(c[name]))
    && (forall name :: name in errors ==> name in names && FirstPass(w, data, name).None?)
  }

  ghost predicate Good(w: World, data: Data, names: seq<Name>) {
    AllClean(w, data, names) && Coherent(w, Values(w, data, names))
  }

  // Between the checks of the form: each field has a value or an error, and a
  // good request has no error. Prices outside priced are still text.
  ghost predicate Midway(w: World, data: Data, names: seq<Name>, c: Cleaned, errors: set<Name>, priced: set<Name>) {
    && (forall name :: name in names ==> name in c || name in errors)
    && (forall name :: name in c ==> name in names)
    && (forall name :: name in c ==>
          Some(c[name]) ==
            if KindOf(name).PriceKind? && name !in priced then FirstPass(w, data, name) else CleanField(w, data, name))
    && (Good(w, data, names) ==> errors == {})
  }

  // A price not yet converted has a value exactly if its text passed.
  ghost predicate PricesWait(w: World, data: Data, names: seq<Name>, c: Cleaned, priced: set<Name>) {
    forall name :: name in names && KindOf(name).PriceKind? && name !in priced ==>
      (FirstPass(w, data, name).Some? <==> name in c)
  }

  // The price is a text on which checking it raises.
  predicate PriceRaises(w: World, data: Data, name: Name) {
    var text := Text.Strip(Raw(data, name));
    KindOf(name).PriceKind? && '\0' !in text && text != "" && Raising(w.reader.digit, text)
  }

  ghost predicate Raises(w: World, data: Data, names: seq<Name>) {
    exists name :: name in names && PriceRaises(w, data, name)
  }

  lemma RaisesIsEither(w: World, data: Data, names: seq<Name>)
    ensures Raises(w, data, names) <==>
      (MinPrice in names && PriceRaises(w, data, MinPrice)) || (MaxPrice in names && PriceRaises(w, data, MaxPrice))
  {
    forall name | PriceRaises(w, data, name)
      ensures name == MinPrice || name == MaxPrice
    {
      OnlyTwoPrices(name);
    }
  }

  // A request on which cleaning raises has no validated filters.
  lemma RaisingIsNotValid(w: World, data: Data, c: Cleaned)
    requires Validates(w, data, c)
    ensures !Raises(w, data, FieldsOf(w, SelectVertical(w, data)))
  {
    hide FieldsOf, SelectVertical, Coherent, KindOfTyped;
    forall name | name in c
      ensures !PriceRaises(w, data, name)
    {
      assert CleanField(w, data, name) == Some(c[name]);
    }
  }

  lemma FirstPassFacts(w: World, data: Data, name: Name)
    ensures !KindOf(name).PriceKind? ==> FirstPass(w, data, name) == CleanField(w, data, name)
    ensures FirstPass(w, data, name).None? ==> CleanField(w, data, name).None?
  {
  }

  lemma VisitedIsMidway(w: World, data: Data, names: seq<Name>, c: Cleaned, errors: set<Name>)
    requires Visited(w, data, names, c, errors)
    ensures Midway(w, data, names, c, errors, {}) && PricesWait(w, data, names, c, {})
  {
    hide CleanField, FirstPass, Coherent, KindOf;
    forall name
      ensures !KindOf(name).PriceKind? ==> FirstPass(w, data, name) == CleanField(w, data, name)
      ensures FirstPass(w, data, name).None? ==> CleanField(w, data, name).None?
    {
      FirstPassFacts(w, data, name);
    }
  }

  // In a good request every converted value is the one of the good form.
  lemma GoodValue(w: World, data: Data, names: seq<Name>, c: Cleaned, errors: set<Name>, priced: set<Name>, name: Name)
    requires Midway(w, data, names, c, errors, priced) && name in c && (KindOf(name).PriceKind? ==> name in priced)
    ensures name in Values(w, data, names) && Values(w, data, names)[name] == c[name]
  {
  }

  // A check that fails on the values so far fails on the whole form.
  lemma CoherenceOf(w: World, data: Data, names: seq<Name>, c: Cleaned, errors: set<Name>, priced: set<Name>)
    requires Midway(w, data, names, c, errors, priced)
    ensures Good(w, data, names) ==>
      && MatchingCategory(w, c) && RadiusStep(c)
      && OrderedPair(c, MinYear, MaxYear) && OrderedPair(c, MinMileage, MaxMileage)
      && (priced == {MinPrice, MaxPrice} ==> OrderedPair(c, MinPrice, MaxPrice))
  {
    hide CleanField, FirstPass, AllClean, Values, Midway;
    forall name | name in c && (KindOf(name).PriceKind? ==> name in priced)
      ensures SameValue(c, Values(w, data, names), name)
    {
      GoodValue(w, data, names, c, errors, priced, name);
    }
    assert SameValue(c, Values(w, data, names), Category) || Category !in c;
    assert SameValue(c, Values(w, data, names), Vertical) || Vertical !in c;
    assert SameValue(c, Values(w, data, names), NearbyRadius) || NearbyRadius !in c;
    assert SameValue(c, Values(w, data, names), MinYear) || MinYear !in c;
    assert SameValue(c, Values(w, data, names), MaxYear) || MaxYear !in c;
    assert SameValue(c, Values(w, data, names), MinMileage) || MinMileage !in c;
    assert SameValue(c, Values(w, data, names), MaxMileage) || MaxMileage !in c;
  }

  predicate SameValue(c: Cleaned, d: Cleaned, name: Name) {
    name in c && name in d && c[name] == d[name]
  }

  // A price is still its stripped text, and what cleaning makes of that text.
  lemma PriceText(w: World, data: Data, names: seq<Name>, c: Cleaned, errors: set<Name>, priced: set<Name>, name: Name)
    requires Midway(w, data, names, c, errors, priced) && KindOf(name).PriceKind? && name !in priced
    ensures name in c ==> name in names && c[name].Words?
    ensures name in c && c[name] != Words("") ==>
      var dollars := ReadDollars(w.reader, c[name].text);
      CleanField(w, data, name) == if dollars.Dollars? then Some(Number(dollars.n * 100)) else None
    ensures name !in c || c[name] == Words("") ==> Midway(w, data, names, c, errors, priced + {name})
  {
    hide Text.Strip, ReadDollars, Good, KindOfTyped;
  }

  lemma RaisingText(w: World, data: Data, names: seq<Name>, c: Cleaned, errors: set<Name>, priced: set<Name>,
    name: Name)
    requires Midway(w, data, names, c, errors, priced) && PricesWait(w, data, names, c, priced)
    requires KindOf(name).PriceKind? && name !in priced
    ensures name in names && PriceRaises(w, data, name) <==>
      name in c && c[name].Words? && c[name] != Words("") && ReadDollars(w.reader, c[name].text).RaisingAmount?
  {
    hide Text.Strip, Raising, Good, KindOfTyped;
  }

  lemma PriceConverted(
    w: World, data: Data, names: seq<Name>, c: Cleaned, errors: set<Name>, priced: set<Name>, name: Name, v: Value)
    requires Midway(w, data, names, c, errors, priced) && name in c && CleanField(w, data, name) == Some(v)
    ensures Midway(w, data, names, c[name := v], errors, priced + {name})
  {
    hide CleanField, FirstPass, Good, KindOf;
  }

  lemma PriceUnreadable(w: World, data: Data, names: seq<Name>, c: Cleaned, errors: set<Name>, priced: set<Name>,
    name: Name)
    requires Midway(w, data, names, c, errors, priced) && name in c && CleanField(w, data, name).None?
    ensures Midway(w, data, names, c - {name}, errors + {name}, priced + {name})
  {
    hide CleanField, FirstPass, Coherent, KindOf;
    assert !AllClean(w, data, names);
  }

  lemma MidwayEnds(w: World, data: Data, names: seq<Name>, c: Cleaned, errors: set<Name>)
    requires Midway(w, data, names, c, errors, {MinPrice, MaxPrice})
    requires errors == {} ==> Coherent(w, c)
    ensures errors == {} <==> Good(w, data, names)
    ensures errors == {} ==> c == Values(w, data, names)
  {
    hide CleanField, FirstPass, Coherent;
    if errors == {} {
      forall name | name in names
        ensures name in c && CleanField(w, data, name) == Some(c[name])
      {
        assert KindOf(name).PriceKind? ==> name == MinPrice || name == MaxPrice;
      }
      assert c == Values(w, data, names);
    }
  }

  // ---- the intent field ----

  lemma OtherFieldsIgnoreIntent(w: World, data: Data, name: Name)
    requires name != Intent
    ensures CleanField(w, data, name) == CleanField(w, data - {Intent}, name)
    ensures SelectVertical(w, data) == SelectVertical(w, data - {Intent})
  {
    hide Text.Strip, ReadNumber, ReadDollars, WithinBounds, KindOfTyped;
    assert Raw(data, name) == Raw(data - {Intent}, name) && Raw(data, Vertical) == Raw(data - {Intent}, Vertical);
  }

  lemma IntentIsDeclared(w: World, s: Selection)
    ensures Intent in FieldsOf(w, s)
  {
    DeclaredDistinct();
    KeptFacts(w, s, DECLARED);
    assert Intent in DECLARED;
  }

  lemma IntentCleaning(w: World, data: Data)
    ensures CleanField(w, data, Intent) ==
      if IntentChoice(Raw(data, Intent)) || Raw(data, Intent) == ""
      then Some(Words(CleanIntent(Raw(data, Intent)))) else None
  {
  }

  // Of two requests that differ in the intent alone, the one with an intent is
  // as valid as the one without exactly if it names a choice or is empty: an
  // invalid intent is an error and never the default, which clean_intent would
  // make it.
  lemma InvalidIntentIsAnError(w: World, data: Data, c: Cleaned)
    requires Validates(w, data - {Intent}, c)
    ensures (exists d :: Validates(w, data, d)) <==> IntentChoice(Raw(data, Intent)) || Raw(data, Intent) == ""
    ensures forall d :: Validates(w, data, d) ==> d == c[Intent := Words(CleanIntent(Raw(data, Intent)))]
  {
    hide FieldsOf, SelectVertical, Coherent, CleanField, CleanIntent;
    IntentCleaning(w, data);
    IntentIsDeclared(w, SelectVertical(w, data));
    forall name | name != Intent
      ensures CleanField(w, data, name) == CleanField(w, data - {Intent}, name)
    {
      OtherFieldsIgnoreIntent(w, data, name);
    }
    OtherFieldsIgnoreIntent(w, data, Vertical);
    var d := c[Intent := Words(CleanIntent(Raw(data, Intent)))];
    SameCoherence(w, c, Words(CleanIntent(Raw(data, Intent))));
    if IntentChoice(Raw(data, Intent)) || Raw(data, Intent) == "" {
      assert Validates(w, data, d);
    }
    forall e | Validates(w, data, e)
      ensures e == d && (IntentChoice(Raw(data, Intent)) || Raw(data, Intent) == "")
    {
      assert CleanField(w, data, Intent) == Some(e[Intent]);
      assert forall name :: name in e && name != Intent ==> Some(e[name]) == Some(c[name]);
    }
  }

  lemma SameCoherence(w: World, c: Cleaned, v: Value)
    ensures Coherent(w, c[Intent := v]) == Coherent(w, c)
  {
  }

  // ---- cleaning by the form object ----

  // Cleaning without errors is validation: the form object accepts exactly the
  // requests that have validated filters, and finds them.
  lemma AcceptsExactlyValid(w: World, data: Data)
    requires !SelectVertical(w, data).UnreadableVertical?
    ensures var names := FieldsOf(w, SelectVertical(w, data));
      && (Good(w, data, names) ==> Validates(w, data, Values(w, data, names)))
      && (forall c :: Validates(w, data, c) ==> Good(w, data, names) && c == Values(w, data, names))
  {
    hide CleanField, Coherent, SelectVertical, FieldsOf;
    var names := FieldsOf(w, SelectVertical(w, data));
    forall c | Validates(w, data, c)
      ensures Good(w, data, names) && c == Values(w, data, names)
    {
      assert forall name :: name in names ==> name in c && CleanField(w, data, name) == Some(c[name]);
      assert c == Values(w, data, names);
    }
  }

  class BrowseForm {
    const world: World
    const data: Data
    var fields: seq<Name>
    var cleaned: Cleaned
    var errors: set<Name>

    constructor (world: World, data: Data)
      ensures this.world == world && this.data == data && fields == DECLARED && cleaned == map[] && errors == {}
    {
      this.world, this.data := world, data;
      fields, cleaned, errors := DECLARED, map[], {};
    }

    // Drop the declared fields the request has no use for and add the selected
    // vertical's own. A vertical that is not a number is an uncaught error.
    method InstallFields() returns (readable: bool)
      requires fields == DECLARED
      modifies this`fields
      ensures readable <==> !SelectVertical(world, data).UnreadableVertical?
      ensures readable ==> fields == FieldsOf(world, SelectVertical(world, data))
    {
      var selection := SelectVertical(world, data);
      if selection.UnreadableVertical? {
        return false;
      }
      var declared := fields;
      fields := [];
      hide Keeps, KindOf;
      for i := 0 to |declared|
        invariant fields == Kept(world, selection, declared[..i])
      {
        KeptNext(world, selection, declared, i);
        if Keeps(world, selection, declared[i]) {
          fields := fields + [declared[i]];
        }
      }
      assert declared[..|declared|] == declared;
      if selection.Selected? {
        ghost var kept := fields;
        var typed := world.order(selection.slug);
        for i := 0 to |typed|
          invariant fields == kept + TypedFields(typed)[..i]
        {
          fields := fields + [Typed(typed[i])];
        }
        assert TypedFields(typed)[..|typed|] == TypedFields(typed);
      }
      readable := true;
    }

    method AddError(name: Name)
      modifies this`cleaned, this`errors
      ensures errors == old(errors) + {name} && cleaned == old(cleaned) - {name}
    {
      errors := errors + {name};
      cleaned := cleaned - {name};
    }

    // Clean every field, then the form. A price on which the checks raise ends
    // the cleaning; otherwise no error means a validated form.
    method FullClean() returns (completed: bool)
      requires Distinct(fields) && cleaned == map[] && errors == {}
      modifies this`cleaned, this`errors
      ensures completed <==> !Raises(world, data, fields)
      ensures completed ==> (errors == {} <==> Good(world, data, fields))
      ensures completed && errors == {} ==> cleaned == Values(world, data, fields)
    {
      hide CleanField, KindOf, Text.Strip, Coherent, Raises;
      for i := 0 to |fields|
        invariant Visited(world, data, fields[..i], cleaned, errors)
      {
        assert fields[..i + 1] == fields[..i] + [fields[i]];
        var name := fields[i];
        var value := FirstPass(world, data, name);
        if value.Some? {
          cleaned := cleaned[name := value.value];
        } else {
          AddError(name);
        }
      }
      assert fields[..|fields|] == fields;
      completed := CleanForm();
    }

    // The checks across fields, between which prices become amounts.
    method CleanForm() returns (completed: bool)
      requires Visited(world, data, fields, cleaned, errors)
      modifies this`cleaned, this`errors
      ensures completed <==> !Raises(world, data, fields)
      ensures completed ==> (errors == {} <==> Good(world, data, fields))
      ensures completed && errors == {} ==> cleaned == Values(world, data, fields)
    {
      hide Visited, Midway, PricesWait, PriceRaises, Raises, OrderedPair, MatchingCategory, RadiusStep, AllClean,
        Values;
      VisitedIsMidway(world, data, fields, cleaned, errors);
      RaisesIsEither(world, data, fields);
      CheckCategoryAndRadius();
      completed := ConvertPrice(MinPrice, {});
      if completed {
        completed := ConvertPrice(MaxPrice, {} + {MinPrice});
      }
      if completed {
        assert {} + {MinPrice} + {MaxPrice} == {MinPrice, MaxPrice};
        CheckPair(MinPrice, MaxPrice);
        CheckPair(MinYear, MaxYear);
        CheckPair(MinMileage, MaxMileage);
        MidwayEnds(world, data, fields, cleaned, errors);
      }
    }

    method CheckCategoryAndRadius()
      requires Midway(world, data, fields, cleaned, errors, {}) && PricesWait(world, data, fields, cleaned, {})
      modifies this`cleaned, this`errors
      ensures Midway(world, data, fields, cleaned, errors, {}) && PricesWait(world, data, fields, cleaned, {})
      ensures errors == {} ==> MatchingCategory(world, cleaned) && RadiusStep(cleaned)
    {
      hide CleanField, FirstPass, AllClean, Values, OrderedPair, RadiusStep, MatchingCategory;
      CheckCategory();
      CheckRadius();
    }

    method CheckCategory()
      requires Midway(world, data, fields, cleaned, errors, {}) && PricesWait(world, data, fields, cleaned, {})
      modifies this`cleaned, this`errors
      ensures Midway(world, data, fields, cleaned, errors, {}) && PricesWait(world, data, fields, cleaned, {})
      ensures errors == {} ==> MatchingCategory(world, cleaned)
    {
      hide CleanField, FirstPass, AllClean, Values, OrderedPair, RadiusStep;
      CoherenceOf(world, data, fields, cleaned, errors, {});
      if !MatchingCategory(world, cleaned) {
        AddError(Category);
      }
    }

    method CheckRadius()
      requires Midway(world, data, fields, cleaned, errors, {}) && PricesWait(world, data, fields, cleaned, {})
      modifies this`cleaned, this`errors
      ensures Midway(world, data, fields, cleaned, errors, {}) && PricesWait(world, data, fields, cleaned, {})
      ensures errors == {} ==> old(errors) == {} && cleaned == old(cleaned) && RadiusStep(cleaned)
    {
      hide CleanField, FirstPass, AllClean, Values, OrderedPair, MatchingCategory;
      CoherenceOf(world, data, fields, cleaned, errors, {});
      if NearbyRadius in cleaned && cleaned[NearbyRadius].Number? && cleaned[NearbyRadius].n % 10 != 0 {
        AddError(NearbyRadius);
      }
    }

    // A nonempty price becomes whole dollars times one hundred.
    method ConvertPrice(name: Name, ghost priced: set<Name>) returns (completed: bool)
      requires KindOf(name).PriceKind? && name !in priced
      requires Midway(world, data, fields, cleaned, errors, priced) && PricesWait(world, data, fields, cleaned, priced)
      modifies this`cleaned, this`errors
      ensures completed <==> !(name in fields && PriceRaises(world, data, name))
      ensures completed ==> Midway(world, data, fields, cleaned, errors, priced + {name})
      ensures completed ==> PricesWait(world, data, fields, cleaned, priced + {name})
      ensures errors == {} ==> old(errors) == {}
      ensures errors == {} && old(MatchingCategory(world, cleaned) && RadiusStep(cleaned)) ==>
        MatchingCategory(world, cleaned) && RadiusStep(cleaned)
    {
      hide Midway, CleanField, PriceRaises, FirstPass;
      PriceText(world, data, fields, cleaned, errors, priced, name);
      RaisingText(world, data, fields, cleaned, errors, priced, name);
      completed := true;
      if name in cleaned && cleaned[name] != Words("") {
        var dollars := ReadDollars(world.reader, cleaned[name].text);
        if dollars.RaisingAmount? {
          return false;
        }
        if dollars.Dollars? {
          PriceConverted(world, data, fields, cleaned, errors, priced, name, Number(dollars.n * 100));
          cleaned := cleaned[name := Number(dollars.n * 100)];
        } else {
          PriceUnreadable(world, data, fields, cleaned, errors, priced, name);
          AddError(name);
        }
      }
    }

    method CheckPair(lower: Name, upper: Name)
      requires Midway(world, data, fields, cleaned, errors, {MinPrice, MaxPrice})
      requires (lower, upper) in {(MinPrice, MaxPrice), (MinYear, MaxYear), (MinMileage, MaxMileage)}
      modifies this`cleaned, this`errors
      ensures Midway(world, data, fields, cleaned, errors, {MinPrice, MaxPrice})
      ensures errors == {} ==> old(errors) == {} && cleaned == old(cleaned) && OrderedPair(cleaned, lower, upper)
    {
      hide CleanField, FirstPass, AllClean, Values, MatchingCategory, RadiusStep;
      CoherenceOf(world, data, fields, cleaned, errors, {MinPrice, MaxPrice});
      if !OrderedPair(cleaned, lower, upper) {
        AddError(upper);
      }
    }

    // The printable parameters of the cleaned form, unless writing one raises.
    method QueryParameters(exclude: set<Name>, retainNearbyRadius: bool)
      returns (completed: bool, parameters: Parameters)
      ensures completed <==> !PrintRaises(cleaned, Included(fields, exclude, retainNearbyRadius))
      ensures completed ==> parameters == Printed(data, cleaned, Included(fields, exclude, retainNearbyRadius))
      ensures exclude == {} && retainNearbyRadius ==>
        && (completed <==> !PrintRaises(cleaned, fields))
        && (completed ==> parameters == Printed(data, cleaned, fields))
    {
      hide PrintField, Printed, Included, Unprintable, PrintRaises;
      if exclude == {} && retainNearbyRadius {
        IncludedAll(fields);
      }
      NothingPrinted(data, cleaned, fields, exclude, retainNearbyRadius);
      completed, parameters := true, [];
      for i := 0 to |fields|
        invariant completed && !PrintRaises(cleaned, Included(fields[..i], exclude, retainNearbyRadius))
        invariant parameters == Printed(data, cleaned, Included(fields[..i], exclude, retainNearbyRadius))
      {
        var name := fields[i];
        QueryNext(data, cleaned, fields, i, exclude, retainNearbyRadius);
        RaisesNext(cleaned, fields, i, exclude, retainNearbyRadius);
        if name in exclude || (name == NearbyRadius && !retainNearbyRadius) {
          continue;
        }
        if name in cleaned {
          if Unprintable(name, cleaned[name]) {
            RaisesAlready(cleaned, fields, i, exclude, retainNearbyRadius);
            return false, [];
          }
          var value := PrintField(data, name, cleaned[name]);
          if value.Some? {
            parameters := parameters + [(name, value.value)];
          }
        }
      }
      assert fields[..|fields|] == fields;
    }
  }

  lemma NothingPrinted(data: Data, c: Cleaned, names: seq<Name>, exclude: set<Name>, retainNearbyRadius: bool)
    ensures Printed(data, c, Included(names[..0], exclude, retainNearbyRadius)) == []
    ensures !PrintRaises(c, Included(names[..0], exclude, retainNearbyRadius))
  {
  }

  predicate Excluded(name: Name, exclude: set<Name>, retainNearbyRadius: bool) {
    name in exclude || (name == NearbyRadius && !retainNearbyRadius)
  }

  lemma RaisesNext(c: Cleaned, names: seq<Name>, i: nat, exclude: set<Name>, retainNearbyRadius: bool)
    requires i < |names|
    ensures PrintRaises(c, Included(names[..i + 1], exclude, retainNearbyRadius)) <==>
      || PrintRaises(c, Included(names[..i], exclude, retainNearbyRadius))
      || (!Excluded(names[i], exclude, retainNearbyRadius) && names[i] in c && Unprintable(names[i], c[names[i]]))
  {
    hide Unprintable, Included;
    assert names[..i + 1] == names[..i] + [names[i]];
    IncludedNext(names[..i], names[i], exclude, retainNearbyRadius);
  }

  lemma {:induction false} IncludedHolds(names: seq<Name>, exclude: set<Name>, retainNearbyRadius: bool)
    ensures forall name :: name in Included(names, exclude, retainNearbyRadius) <==>
      name in names && !Excluded(name, exclude, retainNearbyRadius)
  {
    if names != [] {
      IncludedHolds(names[..|names| - 1], exclude, retainNearbyRadius);
      assert names == names[..|names| - 1] + [names[|names| - 1]];
    }
  }

  // One value that cannot be written is enough.
  lemma RaisesAlready(c: Cleaned, names: seq<Name>, i: nat, exclude: set<Name>, retainNearbyRadius: bool)
    requires i < |names| && !Excluded(names[i], exclude, retainNearbyRadius)
    requires names[i] in c && Unprintable(names[i], c[names[i]])
    ensures PrintRaises(c, Included(names, exclude, retainNearbyRadius))
  {
    IncludedHolds(names, exclude, retainNearbyRadius);
  }

  lemma QueryNext(data: Data, c: Cleaned, names: seq<Name>, i: nat, exclude: set<Name>, retainNearbyRadius: bool)
    requires i < |names|
    ensures var name := names[i];
      Printed(data, c, Included(names[..i + 1], exclude, retainNearbyRadius)) ==
      Printed(data, c, Included(names[..i], exclude, retainNearbyRadius)) +
      if !(name in exclude || (name == NearbyRadius && !retainNearbyRadius)) && name in c
        && PrintField(data, name, c[name]).Some?
      then [(name, PrintField(data, name, c[name]).value)] else []
  {
    hide PrintField, Printed, Included;
    assert names[..i + 1] == names[..i] + [names[i]];
    IncludedNext(names[..i], names[i], exclude, retainNearbyRadius);
    PrintedNext(data, c, Included(names[..i], exclude, retainNearbyRadius), names[i]);
  }

  function Included(names: seq<Name>, exclude: set<Name>, retainNearbyRadius: bool): seq<Name> {
    if names == [] then []
    else
      var last := names[|names| - 1];
      Included(names[..|names| - 1], exclude, retainNearbyRadius) +
      if last in exclude || (last == NearbyRadius && !retainNearbyRadius) then [] else [last]
  }

  lemma {:induction false} IncludedAll(names: seq<Name>)
    ensures Included(names, {}, true) == names
  {
    if names != [] {
      IncludedAll(names[..|names| - 1]);
    }
  }

  lemma IncludedNext(names: seq<Name>, name: Name, exclude: set<Name>, retainNearbyRadius: bool)
    ensures Included(names + [name], exclude, retainNearbyRadius) ==
      Included(names, exclude, retainNearbyRadius) +
      if name in exclude || (name == NearbyRadius && !retainNearbyRadius) then [] else [name]
  {
    assert (names + [name])[..|names|] == names;
  }

  lemma PrintedNext(data: Data, c: Cleaned, names: seq<Name>, name: Name)
    ensures Printed(data, c, names + [name]) ==
      Printed(data, c, names) +
      if name in c && PrintField(data, name, c[name]).Some? then [(name, PrintField(data, name, c[name]).value)] else []
    ensures Printed(data, c, names + []) == Printed(data, c, names)
  {
    assert (names + [name])[..|names|] == names;
    assert names + [] == names;
  }
}
