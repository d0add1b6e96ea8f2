/** The home page's spend form: an annual spend and its split into
    groceries, dining, travel and miscellaneous. Each slider or input calls a
    handler that clamps the new value and recomputes miscellaneous as the
    remainder. Each handler is one atomic transition of the five numbers. */
module Home {
  import opened Common

  /** The four split categories a handler can be asked to change. */
  datatype SpendCategory = Groceries | Dining | Travel | Miscellaneous

  /** The five state values of the form. */
  datatype Allocation = Allocation(
    annualSpend: int,
    groceries: int,
    dining: int,
    travel: int,
    miscellaneous: int)

  /** The state the form starts in. */
  const Initial: Allocation := Allocation(100000, 25000, 25000, 25000, 25000)

  function Amount(s: Allocation, c: SpendCategory): int
  {
    match c
    case Groceries => s.groceries
    case Dining => s.dining
    case Travel => s.travel
    case Miscellaneous => s.miscellaneous
  }

  /** The sum of the three named categories other than `c` (for
      `Miscellaneous`, of all three named categories). */
  function OthersNamed(s: Allocation, c: SpendCategory): int
  {
    match c
    case Groceries => s.dining + s.travel
    case Dining => s.groceries + s.travel
    case Travel => s.groceries + s.dining
    case Miscellaneous => s.groceries + s.dining + s.travel
  }

  function PartsSum(s: Allocation): int
  {
    s.groceries + s.dining + s.travel + s.miscellaneous
  }

  /** Every part is non-negative and the parts fit in the annual spend. */
  predicate Sane(s: Allocation)
  {
    s.groceries >= 0 && s.dining >= 0 && s.travel >= 0 && s.miscellaneous >= 0 &&
    PartsSum(s) <= s.annualSpend
  }

  /** The state after `handleCategoryChange(c, value)`. */
  function CategoryChanged(s: Allocation, c: SpendCategory, value: int): (r: Allocation)
    ensures r.annualSpend == s.annualSpend
    ensures forall d :: d != c && d != Miscellaneous ==> Amount(r, d) == Amount(s, d)
  {
    var newValue := Max(0, value);
    match c
    case Groceries =>
      var capped := Min(newValue, s.annualSpend - s.dining - s.travel);
      s.(groceries := capped,
         miscellaneous := Max(0, s.annualSpend - capped - s.dining - s.travel))
    case Dining =>
      var capped := Min(newValue, s.annualSpend - s.groceries - s.travel);
      s.(dining := capped,
         miscellaneous := Max(0, s.annualSpend - s.groceries - capped - s.travel))
    case Travel =>
      var capped := Min(newValue, s.annualSpend - s.groceries - s.dining);
      s.(travel := capped,
         miscellaneous := Max(0, s.annualSpend - s.groceries - s.dining - capped))
    case Miscellaneous =>
      var capped := Min(newValue, s.annualSpend - s.groceries - s.dining - s.travel);
      s.(miscellaneous := capped)
  }

  /** The state after `handleAnnualSpendChange(value)`. */
  function AnnualSpendChanged(s: Allocation, value: int): (r: Allocation)
    ensures r.annualSpend == value
    ensures r.groceries == s.groceries && r.dining == s.dining && r.travel == s.travel
    ensures r.miscellaneous >= 0
    ensures r.miscellaneous > 0 ==> PartsSum(r) == value
  {
    s.(annualSpend := value,
       miscellaneous := Max(0, value - s.groceries - s.dining - s.travel))
  }

  /** The form's state kept in place, one field per `useState` hook. */
  class SpendForm {
    var annualSpend: int
    var groceries: int
    var dining: int
    var travel: int
    var miscellaneous: int

    function State(): Allocation
      reads this
    {
      Allocation(annualSpend, groceries, dining, travel, miscellaneous)
    }

    constructor ()
      ensures State() == Initial
      ensures Sane(State()) && PartsSum(State()) == annualSpend
    {
      annualSpend := 100000;
      groceries := 25000;
      dining := 25000;
      travel := 25000;
      miscellaneous := 25000;
    }

    /** `handleCategoryChange` */
    method ChangeCategory(category: SpendCategory, value: int)
      modifies this
      ensures State() == CategoryChanged(old(State()), category, value)
      ensures annualSpend == old(annualSpend)
      ensures category != Miscellaneous ==> PartsSum(State()) == annualSpend
      ensures category == Miscellaneous ==> PartsSum(State()) <= annualSpend
    {
      var newValue := Max(0, value);
      if category == Groceries {
        var maxAllowed := annualSpend - dining - travel;
        var cappedValue := Min(newValue, maxAllowed);
        miscellaneous := Max(0, annualSpend - cappedValue - dining - travel);
        groceries := cappedValue;
      } else if category == Dining {
        var maxAllowed := annualSpend - groceries - travel;
        var cappedValue := Min(newValue, maxAllowed);
        miscellaneous := Max(0, annualSpend - groceries - cappedValue - travel);
        dining := cappedValue;
      } else if category == Travel {
        var maxAllowed := annualSpend - groceries - dining;
        var cappedValue := Min(newValue, maxAllowed);
        miscellaneous := Max(0, annualSpend - groceries - dining - cappedValue);
        travel := cappedValue;
      } else {
        var maxAllowed := annualSpend - groceries - dining - travel;
        var cappedValue := Min(newValue, maxAllowed);
        miscellaneous := cappedValue;
      }
      CategoryChangeBalances(old(State()), category, value);
      MiscellaneousChangeFits(old(State()), value);
    }

    /** `handleAnnualSpendChange` */
    method ChangeAnnualSpend(value: int)
      modifies this
      ensures State() == AnnualSpendChanged(old(State()), value)
      ensures groceries == old(groceries) && dining == old(dining) && travel == old(travel)
      ensures groceries + dining + travel <= value ==> PartsSum(State()) == annualSpend
    {
      annualSpend := value;
      var remaining := value - groceries - dining - travel;
      miscellaneous := Max(0, remaining);
    }
  }

  /** The new value of the changed category is the request clamped below
      at 0 and above at what the named categories other than it leave of the
      annual spend; nothing but that category and miscellaneous changes. */
  lemma CategoryChangeClamps(s: Allocation, c: SpendCategory, value: int)
    ensures var r := CategoryChanged(s, c, value);
      && Amount(r, c) == Min(Max(0, value), s.annualSpend - OthersNamed(s, c))
      && (value >= 0 && value <= s.annualSpend - OthersNamed(s, c) ==> Amount(r, c) == value)
      && (value < 0 && s.annualSpend >= OthersNamed(s, c) ==> Amount(r, c) == 0)
      && r.annualSpend == s.annualSpend
      && forall d :: d != c && d != Miscellaneous ==> Amount(r, d) == Amount(s, d)
  {
  }

  /** After a groceries, dining or travel change the four parts add up to
      the annual spend exactly. */
  lemma CategoryChangeBalances(s: Allocation, c: SpendCategory, value: int)
    ensures c != Miscellaneous ==> PartsSum(CategoryChanged(s, c, value)) == s.annualSpend
  {
  }

  /** A miscellaneous change sets miscellaneous to the request clamped to
      0 and what the named categories leave, and touches nothing else, so the parts never exceed the annual
      spend afterwards. */
  lemma MiscellaneousChangeFits(s: Allocation, value: int)
    ensures var r := CategoryChanged(s, Miscellaneous, value);
      && r.miscellaneous == Min(Max(0, value), s.annualSpend - s.groceries - s.dining - s.travel)
      && r.miscellaneous <= s.annualSpend - s.groceries - s.dining - s.travel
      && r == s.(miscellaneous := r.miscellaneous)
      && PartsSum(r) <= s.annualSpend
  {
  }

  /** Repeating a category change is the same as doing it once. */
  lemma CategoryChangeIdempotent(s: Allocation, c: SpendCategory, value: int)
    ensures var once := CategoryChanged(s, c, value);
      CategoryChanged(once, c, value) == once
  {
  }

  /** An annual spend change sets the annual spend, recomputes miscellaneous
      as the non-negative remainder and keeps the named categories; the parts
      balance exactly when the named categories fit in the new value. */
  lemma AnnualSpendChangeRebalances(s: Allocation, value: int)
    ensures var r := AnnualSpendChanged(s, value);
      && r.annualSpend == value
      && r.groceries == s.groceries && r.dining == s.dining && r.travel == s.travel
      && r.miscellaneous >= 0
      && (PartsSum(r) == value <==> s.groceries + s.dining + s.travel <= value)
  {
  }

  /** A category change keeps a sane form sane. */
  lemma CategoryChangeKeepsSane(s: Allocation, c: SpendCategory, value: int)
    requires Sane(s)
    ensures Sane(CategoryChanged(s, c, value))
  {
  }

  /** An annual spend change keeps a sane form sane exactly when the new
      value still covers the named categories. */
  lemma AnnualSpendChangeKeepsSane(s: Allocation, value: int)
    requires Sane(s)
    ensures Sane(AnnualSpendChanged(s, value)) <==> s.groceries + s.dining + s.travel <= value
  {
  }

  /** One user action on the form. */
  datatype Action = SetCategory(category: SpendCategory, value: int) | SetAnnualSpend(value: int)

  function Apply(s: Allocation, a: Action): Allocation
  {
    match a
    case SetCategory(c, v) => CategoryChanged(s, c, v)
    case SetAnnualSpend(v) => AnnualSpendChanged(s, v)
  }

  /** The state after a sequence of actions, first action first. */
  function Run(s: Allocation, actions: seq<Action>): Allocation
    decreases |actions|
  {
    if actions == [] then s else Run(Apply(s, actions[0]), actions[1..])
  }

  /** The run only ever raises the annual spend: every annual spend change
      is to a value at least `floor` and at least every earlier one. */
  predicate OnlyRaises(floor: int, actions: seq<Action>)
    decreases |actions|
  {
    actions == [] ||
    match actions[0]
    case SetAnnualSpend(v) => v >= floor && OnlyRaises(v, actions[1..])
    case SetCategory(_, _) => OnlyRaises(floor, actions[1..])
  }

  /** Starting from a sane form, any run of category changes and annual
      spend changes that never lower the annual spend leaves the form sane. */
  lemma {:induction false} RunKeepsSane(s: Allocation, actions: seq<Action>)
    requires Sane(s)
    requires OnlyRaises(s.annualSpend, actions)
    ensures Sane(Run(s, actions))
    decreases |actions|
  {
    if actions != [] {
      match actions[0] {
        case SetCategory(c, v) => CategoryChangeKeepsSane(s, c, v);
        case SetAnnualSpend(v) => AnnualSpendChangeKeepsSane(s, v);
      }
      RunKeepsSane(Apply(s, actions[0]), actions[1..]);
    }
  }

  /** The form can leave the sane region: lowering the annual spend below
      the named categories and then touching groceries gives groceries a
      negative value, because the clamp's upper bound is then negative. */
  lemma GroceriesCanGoNegative()
    ensures var s := Run(Initial, [SetAnnualSpend(10000), SetCategory(Groceries, 0)]);
      s.groceries == -40000 && s.miscellaneous == 0 && s.annualSpend == 10000
  {
  }

  /** A query parameter of the recommendations link. */
  datatype QueryParam = QueryParam(key: string, value: int)

  /** The parameters of the "Get recommendations" link, in order. */
  function RecommendationsQuery(s: Allocation): (q: seq<QueryParam>)
    ensures |q| == 5
    ensures forall i, j :: 0 <= i < j < |q| ==> q[i].key != q[j].key
  {
    [QueryParam("annualSpend", s.annualSpend),
     QueryParam("groceries", s.groceries),
     QueryParam("dining", s.dining),
     QueryParam("travel", s.travel),
     QueryParam("others", s.miscellaneous)]
  }

  /** The value of the first parameter named `key`, the way
      `URLSearchParams.get` reads a query string. */
  function Lookup(q: seq<QueryParam>, key: string): (r: Option<int>)
    ensures r.None? <==> forall i :: 0 <= i < |q| ==> q[i].key != key
  {
    if q == [] then None
    else if q[0].key == key then Some(q[0].value)
    else Lookup(q[1..], key)
  }

  /** Lookup finds the first parameter with the key. */
  lemma {:induction false} LookupFindsFirst(q: seq<QueryParam>, i: nat, key: string)
    requires i < |q| && q[i].key == key
    requires forall j :: 0 <= j < i ==> q[j].key != key
    ensures Lookup(q, key) == Some(q[i].value)
  {
    if i > 0 {
      LookupFindsFirst(q[1..], i - 1, key);
    }
  }

  /** The link carries every state value, miscellaneous under the key
      `others`; no parameter is named `miscellaneous`. */
  lemma QueryCarriesState(s: Allocation)
    ensures var q := RecommendationsQuery(s);
      && Lookup(q, "annualSpend") == Some(s.annualSpend)
      && Lookup(q, "groceries") == Some(s.groceries)
      && Lookup(q, "dining") == Some(s.dining)
      && Lookup(q, "travel") == Some(s.travel)
      && Lookup(q, "others") == Some(s.miscellaneous)
      && Lookup(q, "miscellaneous") == None
  {
    var q := RecommendationsQuery(s);
    LookupFindsFirst(q, 0, "annualSpend");
    LookupFindsFirst(q, 1, "groceries");
    LookupFindsFirst(q, 2, "dining");
    LookupFindsFirst(q, 3, "travel");
    LookupFindsFirst(q, 4, "others");
  }

  /** The initial form is sane and balanced, and its link carries 25000
      under `others`. */
  lemma InitialBalanced()
    ensures Sane(Initial) && PartsSum(Initial) == Initial.annualSpend
    ensures Lookup(RecommendationsQuery(Initial), "others") == Some(25000)
  {
    QueryCarriesState(Initial);
  }
}
