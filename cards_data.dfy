/** The card catalog as it ships: two Axis Bank cards, with the fields of
    `CardReadable` that the modelled logic reads. The untyped renewal
    blocks are not part of that type; the optional display text `notes`
    is a field of it that the model drops. */
module CardsData {
  import opened CardTypes

  const AxisAtlas: CardReadable := CardReadable(
    "AXIS_ATLAS", "Axis Bank", "Axis Atlas Credit Card",
    5000, 2500, 3.5, 0, "2025-11-17",
    CategoryRates(0.02, 0.02, 0.0, 0.02, 0.0, 0.05, 0.05, 0.0, 0.02),
    CategoryRates(0.0, 0.0, 0.0, 0.0, 0.0, 2400000.0, 2400000.0, 0.0, 0.0),
    CategoryRates(0.02, 0.02, 0.0, 0.02, 0.0, 0.02, 0.02, 0.0, 0.02),
    ["fuel", "utilities", "wallet_loads", "rent_payments", "education_fee",
     "government_payments", "insurance_premiums"])

  const AxisMagnus: CardReadable := CardReadable(
    "AXIS_MAGNUS", "Axis Bank", "Axis Bank Magnus Credit Card",
    12500, 12500, 2.0, 0, "2025-11-19",
    CategoryRates(0.06, 0.06, 0.0, 0.06, 0.0, 0.06, 0.06, 0.0, 0.06),
    CategoryRates(1800000.0, 1800000.0, 0.0, 1800000.0, 0.0, 1800000.0, 1800000.0, 0.0, 1800000.0),
    CategoryRates(0.175, 0.175, 0.0, 0.175, 0.0, 0.175, 0.175, 0.0, 0.175),
    ["fuel", "rent_payments", "wallet_loads", "government_payments",
     "insurance_premiums", "utilities", "education_fee", "jewellery"])

  /** `cardsData` */
  const Catalog: seq<CardReadable> := [AxisAtlas, AxisMagnus]
}
