/** The readable card definition: a card's identity, fees and three
    per-category tables (effective rate, annual cap, post-cap rate). */
module CardTypes {

  /** The keys of a `CategoryRates` record, in declaration order. */
  datatype CategoryKey =
    | Groceries | Dining | Fuel | Online | Utilities
    | TravelDom | TravelIntl | RentEducation | Other

  /** One number per category key. Rates are reward value per rupee spent,
      caps are rupees per year (0 means no cap); both are exact decimals here. */
  datatype CategoryRates = CategoryRates(
    groceries: real,
    dining: real,
    fuel: real,
    online: real,
    utilities: real,
    travelDom: real,
    travelIntl: real,
    rentEducation: real,
    other: real)

  datatype CardReadable = CardReadable(
    id: string,
    issuer: string,
    name: string,
    annualFee: int,
    welcomeNet: int,
    fxMarkupPct: real,
    flags: int,
    verifiedAt: string,
    effRates: CategoryRates,
    caps: CategoryRates,
    postCapRates: CategoryRates,
    exclusions: seq<string>)

  /** The property name of a key, as it appears in the record literal. */
  function KeyId(k: CategoryKey): string
  {
    match k
    case Groceries => "groceries"
    case Dining => "dining"
    case Fuel => "fuel"
    case Online => "online"
    case Utilities => "utilities"
    case TravelDom => "travel_dom"
    case TravelIntl => "travel_intl"
    case RentEducation => "rent_education"
    case Other => "other"
  }

  /** The keys in the order `Object.entries` lists them. */
  const AllKeys: seq<CategoryKey> :=
    [Groceries, Dining, Fuel, Online, Utilities, TravelDom, TravelIntl, RentEducation, Other]

  /** `rates[key]` */
  function Rate(rates: CategoryRates, k: CategoryKey): real
  {
    match k
    case Groceries => rates.groceries
    case Dining => rates.dining
    case Fuel => rates.fuel
    case Online => rates.online
    case Utilities => rates.utilities
    case TravelDom => rates.travelDom
    case TravelIntl => rates.travelIntl
    case RentEducation => rates.rentEducation
    case Other => rates.other
  }

  /** Every key is listed exactly once, so a table built by walking
      `AllKeys` has one row per category. */
  lemma AllKeysListsEachKeyOnce(k: CategoryKey)
    ensures |AllKeys| == 9
    ensures exists i :: 0 <= i < |AllKeys| && AllKeys[i] == k
    ensures forall i, j :: 0 <= i < j < |AllKeys| ==> AllKeys[i] != AllKeys[j]
  {
    match k
    case Groceries => assert AllKeys[0] == k;
    case Dining => assert AllKeys[1] == k;
    case Fuel => assert AllKeys[2] == k;
    case Online => assert AllKeys[3] == k;
    case Utilities => assert AllKeys[4] == k;
    case TravelDom => assert AllKeys[5] == k;
    case TravelIntl => assert AllKeys[6] == k;
    case RentEducation => assert AllKeys[7] == k;
    case Other => assert AllKeys[8] == k;
  }

  /** Distinct keys have distinct property names. */
  lemma KeyIdInjective(a: CategoryKey, b: CategoryKey)
    ensures KeyId(a) == KeyId(b) <==> a == b
  {
  }
}
