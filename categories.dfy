/** The category table the card pages use to label rate rows. */
module Categories {
  import opened CardTypes

  datatype Category = Category(id: string, name: string, group: string)

  /** `categories` */
  const Table: seq<Category> := [
    Category("groceries", "Groceries", "everyday"),
    Category("dining", "Dining & Food", "everyday"),
    Category("fuel", "Fuel", "transport"),
    Category("online", "Online Shopping", "ecommerce"),
    Category("utilities", "Utilities", "bills"),
    Category("travel_dom", "Domestic Travel", "travel"),
    Category("travel_intl", "International Travel", "travel"),
    Category("rent_education", "Rent / Education", "bills"),
    Category("other", "Other", "other")
  ]

  /** The table holds one entry per `CategoryRates` key, in the record's
      key order, so the ids are exactly the rate keys. */
  lemma IdsAreRateKeys()
    ensures |Table| == |AllKeys| == 9
    ensures forall i :: 0 <= i < |Table| ==> Table[i].id == KeyId(AllKeys[i])
  {
  }

  /** No two entries share an id, so a lookup by id has at most one hit. */
  lemma IdsDistinct()
    ensures forall i, j :: 0 <= i < j < |Table| ==> Table[i].id != Table[j].id
  {
    forall i, j | 0 <= i < j < |Table|
      ensures Table[i].id != Table[j].id
    {
      IdsAreRateKeys();
      AllKeysDistinct(i, j);
      KeyIdInjective(AllKeys[i], AllKeys[j]);
    }
  }

  lemma AllKeysDistinct(i: nat, j: nat)
    requires i < j < |AllKeys|
    ensures AllKeys[i] != AllKeys[j]
  {
    AllKeysListsEachKeyOnce(Groceries);
  }

  /** Every entry has a non-empty display name. */
  lemma NamesNonEmpty()
    ensures forall i :: 0 <= i < |Table| ==> |Table[i].name| > 0
  {
  }
}
