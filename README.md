# Cardwise: a verified model of the card-recommendation front end

Cardwise helps a user pick an Indian credit card. The user splits a
projected annual spend across groceries, dining, travel and miscellaneous on
the home page and follows a link to the recommendations page, which lists
the cards returned by the cards API. The recommendations endpoint returns at
most five cards of the catalog, in random order; the shipped catalog holds
two.

Two of the modelled components are not reachable in the code as it stands.
The filter editor `FilterSummary` is not imported by any file of the
program: the routed recommendations page (src/App.tsx:10,
src/pages/Recommendations.tsx:24-29) reads only the annual spend. The card
detail page `CardDetail` has no route (src/App.tsx:8-12). Both are modelled
as components in their own right, as if some page mounted them.

The code has no valuation, renewal-benefit or ranking logic. Caps,
post-cap rates and renewal milestones exist only as data and comments
(src/server/cards/axis/atlas.data.ts:83-93).

The model has one Dafny module per source file, plus a small helper module:

- `Common` (common.dfy) holds optional values, `Math.min` and `Math.max` on
  integers, and `Array.prototype.find` as a first-match search.
- `CardTypes` (card_types.dfy) holds the readable card record and its
  nine-key `CategoryRates` tables.
- `CardsData` (cards_data.dfy) holds the two shipped Axis Bank cards as
  constants.
- `Categories` (categories.dfy) holds the category table and its
  properties.
- `Home` (home.dfy) models the spend form. The class `SpendForm` has the
  five state fields. Its handler methods are proved against the pure
  transition functions `CategoryChanged` and `AnnualSpendChanged`, and the
  lemmas about the form are stated over those functions.
- `FilterSummary` (filter_summary.dfy) models the filter editor. The class
  `FilterEditor` has the props, the `isEditing` flag and the draft. Its
  methods are proved against a transition function `Step`. Lemmas over event
  sequences (`Run`) state what Cancel, Edit, input changes and Save do.
- `CardsApi` (cards_api.dfy) models the recommendations endpoint over an
  arbitrary shuffle of the catalog.
- `CardDetail` (card_detail.dfy) models the card lookup, the page's card
  state, `getCategoryName` and the reward-rate rows.

Three behaviours of the code are proved as they are:

- The home form can give a category a negative amount.
  `Home.GroceriesCanGoNegative` shows one case. The annual spend is lowered
  below groceries + dining + travel, and then groceries is touched. The clamp's
  upper bound is then negative. `Home.RunKeepsSane` shows that this cannot
  happen while the annual spend is never lowered.
- The detail page keeps showing the previous card when a later card id
  matches nothing. The effect only sets the card when one is found
  (`CardDetail.UnknownIdKeepsPreviousCard`).
- `getCategoryName` falls back to the id when a category's name is the
  empty string, because it uses `name || id`. With the shipped table this
  never happens (`CardDetail.KnownKeysGetTheirNames`).

Amounts are unbounded integers. Rates and caps are exact decimals (`real`),
which the model only compares.

## Model

| member | source | states |
|---|---|---|
| Home.SpendForm.constructor | src/pages/Home.tsx:7-11 | The form starts at 100000 split 25000 four ways. That state is sane and its parts sum to the annual spend. |
| Home.SpendForm.ChangeCategory | src/pages/Home.tsx:14-37 | The handler's new state is the category transition of the old state. The annual spend is unchanged. After a named-category change the parts sum to the annual spend. After a miscellaneous change they sum to at most the annual spend. |
| Home.SpendForm.ChangeAnnualSpend | src/pages/Home.tsx:39-43 | The annual spend is set and miscellaneous is recomputed. Groceries, dining and travel are kept. The parts balance when those three fit in the new value. |
| Home.CategoryChanged | src/pages/Home.tsx:14-37 | A category change never touches the annual spend or any named category other than the one changed. |
| Home.AnnualSpendChanged | src/pages/Home.tsx:39-43 | The annual spend becomes the value and the named categories are kept. Miscellaneous is never negative, and whenever it is positive the parts sum to the new value. |
| Home.CategoryChangeClamps | src/pages/Home.tsx:14-36 | The changed category, miscellaneous included, gets min(max(0, v), annual spend minus the named categories other than it). A request inside that range is taken as is. A negative request becomes 0 when the others fit. The annual spend and the other named categories are unchanged. |
| Home.CategoryChangeBalances | src/pages/Home.tsx:17-31 | After a groceries, dining or travel change, the four parts sum to the annual spend exactly. |
| Home.MiscellaneousChangeFits | src/pages/Home.tsx:32-35 | A miscellaneous change sets miscellaneous to min(max(0, v), annual spend minus groceries, dining and travel). Nothing else changes, so the parts sum to at most the annual spend. |
| Home.CategoryChangeIdempotent | src/pages/Home.tsx:14-36 | Applying the same category change twice gives the same state as applying it once. |
| Home.AnnualSpendChangeRebalances | src/pages/Home.tsx:39-42 | The annual spend becomes the value. Miscellaneous becomes a non-negative remainder. The named categories are kept. The parts sum to the value exactly when the named categories fit in it. |
| Home.CategoryChangeKeepsSane | src/pages/Home.tsx:14-36 | A category change keeps a form with non-negative parts that fit the annual spend in that condition. |
| Home.AnnualSpendChangeKeepsSane | src/pages/Home.tsx:39-43 | An annual spend change keeps a sane form sane exactly when the new value covers groceries + dining + travel. |
| Home.RunKeepsSane | src/pages/Home.tsx:14-43 | A run of handler calls that never lowers the annual spend keeps a sane form sane. |
| Home.GroceriesCanGoNegative | src/pages/Home.tsx:17-21 | From the initial state, lowering the annual spend to 10000 and then setting groceries to 0 leaves groceries at -40000. |
| Home.RecommendationsQuery | src/pages/Home.tsx:168 | The link has five parameters with pairwise distinct keys. |
| Home.QueryCarriesState | src/pages/Home.tsx:168 | The recommendations link carries each state value under its own key, with miscellaneous under `others`. No parameter is named `miscellaneous`. |
| Home.InitialBalanced | src/pages/Home.tsx:7-11 | The initial state is sane and balanced, and its link carries 25000 under `others`. |
| FilterSummary.Mounted | src/pages/Recommendations/FilterSummary.tsx:17-18 | The component mounts out of edit mode, with the draft equal to the incoming filters. |
| FilterSummary.Step | src/pages/Recommendations/FilterSummary.tsx:16-43 | Only Edit enters edit mode, and only Save and Cancel leave it. Only new props change the incoming filters. Edit and Cancel reset the draft to the incoming filters; Save and new props keep it. |
| FilterSummary.Submitted | src/pages/Recommendations/FilterSummary.tsx:25-30 | Something is handed to the parent exactly on a Save with a callback, and it is the draft. |
| FilterSummary.FilterEditor.constructor | src/pages/Recommendations/FilterSummary.tsx:16-18 | The component's state is the mounted state for its props. |
| FilterSummary.FilterEditor.Edit | src/pages/Recommendations/FilterSummary.tsx:20-23 | Edit sets editing and resets the draft to the incoming filters. |
| FilterSummary.FilterEditor.Save | src/pages/Recommendations/FilterSummary.tsx:25-30 | Save leaves edit mode and keeps the draft. It hands the current draft to the parent only when a callback is present. |
| FilterSummary.FilterEditor.Cancel | src/pages/Recommendations/FilterSummary.tsx:32-35 | Cancel leaves edit mode and resets the draft to the incoming filters. |
| FilterSummary.FilterEditor.InputChange | src/pages/Recommendations/FilterSummary.tsx:37-43 | Only the named draft field changes, to the parsed input. The mode and the props are kept. |
| FilterSummary.FilterEditor.ReceiveProps | src/pages/Recommendations/FilterSummary.tsx:16 | New props replace the incoming filters. The mode and the draft are left as they were. |
| FilterSummary.ParsedInput | src/pages/Recommendations/FilterSummary.tsx:38 | Empty text gives undefined. Any other text gives the converted number. |
| FilterSummary.WithField | src/pages/Recommendations/FilterSummary.tsx:39-42 | The record copy replaces exactly the named field and preserves every other field. |
| FilterSummary.CancelDiscardsDraft | src/pages/Recommendations/FilterSummary.tsx:32-35 | After any history, Cancel leaves edit mode with the draft equal to the current incoming filters. |
| FilterSummary.EditResetsDraft | src/pages/Recommendations/FilterSummary.tsx:20-23 | After any history, Edit enters edit mode with the draft equal to the current incoming filters, discarding the earlier draft. |
| FilterSummary.InputChangesKeepMode | src/pages/Recommendations/FilterSummary.tsx:37-43 | Any run of input changes leaves the edit flag and the incoming filters as they were. |
| FilterSummary.EditTypeSave | src/pages/Recommendations/FilterSummary.tsx:20-30 | After Edit and one input change, Save hands the parent the incoming filters with that field replaced. Without a callback it hands nothing. |
| FilterSummary.SummaryItems | src/pages/Recommendations/FilterSummary.tsx:155-171 | View mode shows "Not specified" for the annual spend exactly when it is undefined or 0. Each other field is shown exactly when it is not undefined. The shown fields come once each, in the order groceries, dining, travel, others. |
| FilterSummary.ShownAmounts | src/pages/Recommendations/FilterSummary.tsx:159-170 | After the annual spend, each set field is shown once, with its value, in the order groceries, dining, travel, others, and no unset field is shown. |
| CardsApi.GetRecommendations | src/server/api/cards.api.ts:19-35 | The call always succeeds and carries data. The data is a prefix of the shuffled copy with min(5, catalog size) cards. No card appears more often than in the catalog. A catalog of at most five cards is returned whole. |
| CardsApi.Take | src/server/api/cards.api.ts:23 | `slice(0, n)` keeps the first min(n, length) elements, a sub-multiset of the input. |
| CardsApi.EmptyCatalogSucceeds | src/server/api/cards.api.ts:22-28 | An empty catalog yields success with empty data. |
| CardsApi.CurrentCatalogAnswer | src/server/api/cards.api.ts:22-23 | With the shipped two-card catalog, the answer is exactly both cards, in one of the two orders. |
| Common.Find | src/pages/CardDetail/index.tsx:45 | `find` returns the first element that matches, or undefined exactly when none matches. |
| CardDetail.FindCard | src/pages/CardDetail/index.tsx:15 | The lookup returns the first catalog card with the route id, or nothing exactly when no card has that id. |
| CardDetail.FindCardReturnsFirst | src/pages/CardDetail/index.tsx:15 | The card at the first index with the id is the one the lookup returns. |
| CardDetail.ShippedCardsFound | src/pages/CardDetail/index.tsx:15-17 | Both shipped cards are found by their ids, and an id outside the catalog is not. |
| CardDetail.CardDetailPage.constructor | src/pages/CardDetail/index.tsx:11 | The page starts with no card. |
| CardDetail.CardDetailPage.LoadCard | src/pages/CardDetail/index.tsx:13-19 | The effect sets the card to the found card and leaves it unchanged when nothing is found. |
| CardDetail.CardAfterLookup | src/pages/CardDetail/index.tsx:13-19 | A card the lookup finds replaces the earlier one; when it finds none the earlier card, or none, is kept. So the page holds no card exactly when it held none before and no catalog card has the id. |
| CardDetail.NotFoundOnFirstLoad | src/pages/CardDetail/index.tsx:13-30 | On first load, the not-found branch is taken exactly when no card has the id. Otherwise the page holds the first catalog card with that id. |
| CardDetail.UnknownIdKeepsPreviousCard | src/pages/CardDetail/index.tsx:13-19 | A lookup that finds nothing keeps the previously shown card. |
| CardDetail.CategoryName | src/pages/CardDetail/index.tsx:44-47 | The result is the name of the first category with the id. It is the id itself when no category matches or that name is empty. |
| CardDetail.KnownKeysGetTheirNames | src/pages/CardDetail/index.tsx:44-47 | With the shipped table, every rate key is labelled with its table name, never with its raw id. |
| CardDetail.RowFor | src/pages/CardDetail/index.tsx:113-130 | A row shows its cap only when the cap is above 0. It shows the post-cap rate only under a shown cap and only when that rate differs from the base rate. It is marked "Excluded" exactly when the rate is 0. |
| CardDetail.RateRows | src/pages/CardDetail/index.tsx:113 | There is one row per category key, in the record's key order. |
| CardDetail.RowsFor | src/pages/CardDetail/index.tsx:113 | Mapping over keys gives one row per key, each the row for that key. |
| CardDetail.AtlasTravelRow | src/pages/CardDetail/index.tsx:117-121 | Atlas's domestic travel row shows the 2400000 cap and the 0.02 post-cap rate. |
| CardDetail.AtlasFuelRow | src/pages/CardDetail/index.tsx:128-130 | Atlas's fuel row is excluded and shows no cap. |
| CardDetail.MagnusGroceriesRow | src/pages/CardDetail/index.tsx:117-121 | Magnus's groceries row shows the 1800000 cap and the 0.175 post-cap rate. |
| Categories.IdsAreRateKeys | src/server/categories/categories.data.ts:7-17 | The table has nine entries whose ids are the `CategoryRates` keys, in the same order. |
| Categories.IdsDistinct | src/server/categories/categories.data.ts:8-16 | Category ids are pairwise distinct. |
| Categories.NamesNonEmpty | src/server/categories/categories.data.ts:8-16 | Every category name is non-empty. |
| CardTypes.AllKeysListsEachKeyOnce | src/server/types/cards.types.ts:9-19 | The nine keys are listed once each. |
| CardTypes.KeyIdInjective | src/server/types/cards.types.ts:9-19 | Distinct keys have distinct property names. |

## Left out

- Card valuation, renewal-benefit resolution and ranking are not modelled: no code implements them. The caps and milestones exist only as data and comments, for example src/server/cards/axis/atlas.data.ts:83-93.
- The static card data files are configuration. Only the two catalog cards are kept, as constants. Their `renewal` blocks are dropped, because `renewal` is not a field of `CardReadable`. The SBI card is not in the catalog.
- The optional `notes` field of `CardReadable` (src/server/types/cards.types.ts:63) is dropped, because it is display text that only the detail page renders (src/pages/CardDetail/index.tsx:181-186). The optional `exclusions` field is a plain sequence, with a missing list written as the empty one.
- `getRenewalBenefitDescription` (src/pages/CardDetail/index.tsx:49-66) is display text built from that untyped `renewal` block and currency formatting. It is not modelled.
- JSX rendering, styling, components and routing are not modelled. Only the page logic is: handlers, lookups and which values a view shows.
- React mechanics are not modelled. Each handler is one atomic state transition. Stale closures and re-render timing are out of scope.
- `Math.random` is a foreign, nondeterministic call. The shuffle is the `shuffled` argument, any rearrangement of the catalog.
- The `catch` branch of `getRecommendations` is not modelled. Nothing in the modelled `try` block can fail, so the answer always reports success.
- The async fetch, its error paths and the query-parameter parsing of the recommendations page are I/O plumbing that relies on JavaScript coercions. They are not modelled.
- The values in the recommendations link are modelled as key/value pairs. Their decimal rendering in the URL string is left out.
- Amounts are integers, not JavaScript floating-point numbers, so fractional amounts and `NaN` are not modelled. `Number(...) || 0` on the home page is modelled as the handler receiving an integer.
- FilterSummary.ParsedInput: `Number(value)` is the `toNumber` parameter, which returns an integer. Its `NaN` result for non-numeric text is not modelled, so a `NaN` annual spend also showing "Not specified" is not captured.
- `toLocaleString`, `Intl.NumberFormat` and `toFixed` are locale formatting and are not modelled.
