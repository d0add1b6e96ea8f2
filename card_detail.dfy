/** The card detail page: it looks the route's card id up in the catalog,
    shows "Card not found" while it has no card, and lists one reward-rate
    row per category with the category's display name, the cap and post-cap
    rate when they apply, and an "Excluded" tag for a zero rate. */
module CardDetail {
  import opened Common
  import opened CardTypes
  import Categories
  import CardsData

  /** `cardsData.find(c => c.id === cardId)` */
  function FindCard(catalog: seq<CardReadable>, cardId: string): (r: Option<CardReadable>)
    ensures r.None? <==> forall i :: 0 <= i < |catalog| ==> catalog[i].id != cardId
    ensures r.Some? ==> exists i :: 0 <= i < |catalog| && catalog[i] == r.value &&
                          r.value.id == cardId &&
                          forall j :: 0 <= j < i ==> catalog[j].id != cardId
  {
    Find(catalog, (c: CardReadable) => c.id == cardId)
  }

  /** The card the page holds after the effect for `cardId` has run: the
      found card, or, when nothing matches, whatever it held before. */
  function CardAfterLookup(previous: Option<CardReadable>, catalog: seq<CardReadable>, cardId: string)
    : (r: Option<CardReadable>)
    ensures FindCard(catalog, cardId).Some? ==> r == FindCard(catalog, cardId)
    ensures FindCard(catalog, cardId).None? ==> r == previous
    ensures r.None? <==> previous.None? && forall i :: 0 <= i < |catalog| ==> catalog[i].id != cardId
    ensures r.Some? ==> r == previous || (r.value in catalog && r.value.id == cardId)
  {
    match FindCard(catalog, cardId)
    case Some(c) => Some(c)
    case None => previous
  }

  /** On first load the page shows "Card not found" exactly when no card of
      the catalog has the route's id, and otherwise the first card with it. */
  lemma NotFoundOnFirstLoad(catalog: seq<CardReadable>, cardId: string)
    ensures var card := CardAfterLookup(None, catalog, cardId);
      && (card.None? <==> forall i :: 0 <= i < |catalog| ==> catalog[i].id != cardId)
      && (card.Some? ==> card.value.id == cardId && card.value in catalog)
      && card == FindCard(catalog, cardId)
  {
  }

  /** A later lookup that finds nothing leaves the earlier card on show:
      the effect only sets the card when one is found. */
  lemma UnknownIdKeepsPreviousCard(previous: CardReadable, catalog: seq<CardReadable>, cardId: string)
    requires forall i :: 0 <= i < |catalog| ==> catalog[i].id != cardId
    ensures CardAfterLookup(Some(previous), catalog, cardId) == Some(previous)
  {
  }

  /** The card at `i` is what the lookup returns when no earlier card has
      its id. */
  lemma FindCardReturnsFirst(catalog: seq<CardReadable>, i: nat, cardId: string)
    requires i < |catalog| && catalog[i].id == cardId
    requires forall j :: 0 <= j < i ==> catalog[j].id != cardId
    ensures FindCard(catalog, cardId) == Some(catalog[i])
  {
  }

  /** Both shipped cards are found by their ids; an id outside the catalog
      is not. */
  lemma ShippedCardsFound()
    ensures FindCard(CardsData.Catalog, "AXIS_ATLAS") == Some(CardsData.AxisAtlas)
    ensures FindCard(CardsData.Catalog, "AXIS_MAGNUS") == Some(CardsData.AxisMagnus)
    ensures FindCard(CardsData.Catalog, "SBI_CASHBACK").None?
  {
    var catalog := CardsData.Catalog;
    assert catalog[0].id != "AXIS_MAGNUS" by { assert catalog[0].id[6] != "AXIS_MAGNUS"[6]; }
    assert catalog[0].id != "SBI_CASHBACK" by { assert catalog[0].id[0] != "SBI_CASHBACK"[0]; }
    assert catalog[1].id != "SBI_CASHBACK" by { assert catalog[1].id[0] != "SBI_CASHBACK"[0]; }
    FindCardReturnsFirst(catalog, 0, "AXIS_ATLAS");
    FindCardReturnsFirst(catalog, 1, "AXIS_MAGNUS");
  }

  /** `getCategoryName`: the name of the first category with the id, or the
      id itself when there is none or the name is empty (`name || id`). */
  function CategoryName(table: seq<Categories.Category>, categoryId: string): (name: string)
    ensures (forall i :: 0 <= i < |table| ==> table[i].id != categoryId) ==> name == categoryId
    ensures forall i :: 0 <= i < |table| && table[i].id == categoryId &&
                        (forall j :: 0 <= j < i ==> table[j].id != categoryId) ==>
                        name == (if table[i].name != "" then table[i].name else categoryId)
  {
    match Find(table, (c: Categories.Category) => c.id == categoryId)
    case Some(c) => if c.name != "" then c.name else categoryId
    case None => categoryId
  }

  /** With the shipped table the id is shown only for ids outside the table:
      every rate key gets its table name. */
  lemma KnownKeysGetTheirNames(k: CategoryKey, i: nat)
    requires i < |AllKeys| && AllKeys[i] == k
    ensures CategoryName(Categories.Table, KeyId(k)) == Categories.Table[i].name
    ensures CategoryName(Categories.Table, KeyId(k)) != KeyId(k)
  {
    Categories.IdsAreRateKeys();
    Categories.IdsDistinct();
    Categories.NamesNonEmpty();
    assert Categories.Table[i].id == KeyId(k);
    assert Categories.Table[i].name != KeyId(k) by {
      match k
      case Groceries => assert Categories.Table[i].name[0] != KeyId(k)[0];
      case Dining => assert Categories.Table[i].name[0] != KeyId(k)[0];
      case Fuel => assert Categories.Table[i].name[0] != KeyId(k)[0];
      case Online => assert Categories.Table[i].name[0] != KeyId(k)[0];
      case Utilities => assert Categories.Table[i].name[0] != KeyId(k)[0];
      case TravelDom => assert Categories.Table[i].name[0] != KeyId(k)[0];
      case TravelIntl => assert Categories.Table[i].name[0] != KeyId(k)[0];
      case RentEducation => assert Categories.Table[i].name[0] != KeyId(k)[0];
      case Other => assert Categories.Table[i].name[0] != KeyId(k)[0];
    }
  }

  /** What one reward-rate row shows. */
  datatype RateRow = RateRow(
    categoryName: string,
    rate: real,
    cap: Option<real>,
    postCapRate: Option<real>,
    excluded: bool)

  /** The row for one category: the cap only when it is above 0, the
      post-cap rate only under a shown cap and only when it differs from the
      rate, and "Excluded" exactly when the rate is 0. */
  function RowFor(card: CardReadable, k: CategoryKey): (row: RateRow)
    ensures row.categoryName == CategoryName(Categories.Table, KeyId(k))
    ensures row.rate == Rate(card.effRates, k)
    ensures row.cap.Some? <==> Rate(card.caps, k) > 0.0
    ensures row.cap.Some? ==> row.cap.value == Rate(card.caps, k)
    ensures row.postCapRate.Some? <==> Rate(card.caps, k) > 0.0 && Rate(card.postCapRates, k) != Rate(card.effRates, k)
    ensures row.postCapRate.Some? ==> row.postCapRate.value == Rate(card.postCapRates, k)
    ensures row.excluded <==> Rate(card.effRates, k) == 0.0
  {
    var rate := Rate(card.effRates, k);
    var cap := Rate(card.caps, k);
    var postCap := Rate(card.postCapRates, k);
    RateRow(
      CategoryName(Categories.Table, KeyId(k)),
      rate,
      if cap > 0.0 then Some(cap) else None,
      if cap > 0.0 && postCap != rate then Some(postCap) else None,
      rate == 0.0)
  }

  /** `Object.entries(card.eff_rates).map(...)`: one row per category, in
      `AllKeys` order. `Object.entries` follows the order in which the
      object literal lists its keys; both shipped cards list `eff_rates` in
      the interface's order, so the rows come out in that order. */
  function RateRows(card: CardReadable): (rows: seq<RateRow>)
    ensures |rows| == |AllKeys|
    ensures forall i :: 0 <= i < |rows| ==> rows[i] == RowFor(card, AllKeys[i])
  {
    RowsFor(card, AllKeys)
  }

  /** The rows for `keys`, one per key, in order. */
  function RowsFor(card: CardReadable, keys: seq<CategoryKey>): (rows: seq<RateRow>)
    ensures |rows| == |keys|
    ensures forall i :: 0 <= i < |rows| ==> rows[i] == RowFor(card, keys[i])
  {
    if keys == [] then [] else [RowFor(card, keys[0])] + RowsFor(card, keys[1..])
  }

  /** The row for a category whose rate, cap and post-cap rate are known. */
  lemma RowOf(card: CardReadable, k: CategoryKey, rate: real, cap: real, postCap: real)
    requires Rate(card.effRates, k) == rate && Rate(card.caps, k) == cap
    requires Rate(card.postCapRates, k) == postCap
    ensures RowFor(card, k) == RateRow(
      CategoryName(Categories.Table, KeyId(k)), rate,
      if cap > 0.0 then Some(cap) else None,
      if cap > 0.0 && postCap != rate then Some(postCap) else None,
      rate == 0.0)
  {
  }

  /** On the shipped Atlas card the domestic travel row shows its cap and
      the lower post-cap rate. */
  lemma AtlasTravelRow()
    ensures var row := RowFor(CardsData.AxisAtlas, TravelDom);
      row.cap == Some(2400000.0) && row.postCapRate == Some(0.02) && !row.excluded
  {
    RowOf(CardsData.AxisAtlas, TravelDom, 0.05, 2400000.0, 0.02);
  }

  /** On the shipped Atlas card the fuel row is excluded and shows no cap. */
  lemma AtlasFuelRow()
    ensures var row := RowFor(CardsData.AxisAtlas, Fuel);
      row.excluded && row.cap == None && row.postCapRate == None
  {
    RowOf(CardsData.AxisAtlas, Fuel, 0.0, 0.0, 0.0);
  }

  /** On the shipped Magnus card the groceries row shows its cap and the
      higher post-cap rate. */
  lemma MagnusGroceriesRow()
    ensures var row := RowFor(CardsData.AxisMagnus, Groceries);
      row.cap == Some(1800000.0) && row.postCapRate == Some(0.175) && !row.excluded
  {
    RowOf(CardsData.AxisMagnus, Groceries, 0.06, 1800000.0, 0.175);
  }

  /** The page's `card` state, set by the effect that runs for each route id. */
  class CardDetailPage {
    var card: Option<CardReadable>

    constructor ()
      ensures card == None
    {
      card := None;
    }

    /** The effect on `[cardId]`: set the card only when one is found. */
    method LoadCard(catalog: seq<CardReadable>, cardId: string)
      modifies this
      ensures card == CardAfterLookup(old(card), catalog, cardId)
      ensures FindCard(catalog, cardId).Some? ==> card == FindCard(catalog, cardId)
      ensures FindCard(catalog, cardId).None? ==> card == old(card)
    {
      var foundCard := FindCard(catalog, cardId);
      if foundCard.Some? {
        card := foundCard;
      }
    }
  }
}
