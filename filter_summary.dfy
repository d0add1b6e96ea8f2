/** The filter summary on the recommendations page: a view of the incoming
    filters and an edit mode holding a draft copy that Save hands to the
    parent and Cancel throws away. */
module FilterSummary {
  import opened Common

  /** `Filters`: every amount may be left unspecified. */
  datatype Filters = Filters(
    annualSpend: Option<int>,
    groceries: Option<int>,
    dining: Option<int>,
    travel: Option<int>,
    others: Option<int>)

  /** `keyof Filters` */
  datatype Field = AnnualSpend | Groceries | Dining | Travel | Others

  function Get(f: Filters, field: Field): Option<int>
  {
    match field
    case AnnualSpend => f.annualSpend
    case Groceries => f.groceries
    case Dining => f.dining
    case Travel => f.travel
    case Others => f.others
  }

  /** `{ ...prev, [field]: v }`: the named field replaced, every other kept. */
  function WithField(f: Filters, field: Field, v: Option<int>): (r: Filters)
    ensures Get(r, field) == v
    ensures forall g :: g != field ==> Get(r, g) == Get(f, g)
  {
    match field
    case AnnualSpend => f.(annualSpend := v)
    case Groceries => f.(groceries := v)
    case Dining => f.(dining := v)
    case Travel => f.(travel := v)
    case Others => f.(others := v)
  }

  /** The number an input's text stands for: the empty text clears the
      field, any other text is converted by `toNumber` (`Number(value)`). */
  function ParsedInput(value: string, toNumber: string -> int): (r: Option<int>)
    ensures r.None? <==> value == ""
    ensures r.Some? ==> r.value == toNumber(value)
  {
    if value == "" then None else Some(toNumber(value))
  }

  /** The component's state together with the props it was last given. */
  datatype Editor = Editor(filters: Filters, isEditing: bool, draft: Filters)

  /** One thing that can happen to the component. `hasCallback` says whether
      the parent passed `onFiltersChange`; an input change carries the
      input's text. */
  datatype Event =
    | Edit
    | Save(hasCallback: bool)
    | Cancel
    | InputChange(field: Field, value: string)
    | NewProps(filters: Filters)

  /** The state the component mounts in. */
  function Mounted(filters: Filters): (e: Editor)
    ensures !e.isEditing && e.draft == e.filters == filters
  {
    Editor(filters, false, filters)
  }

  /** The component after one event: only Edit enters edit mode and only
      Save and Cancel leave it; only new props change the incoming filters;
      Edit and Cancel reset the draft to them, Save and new props keep it. */
  function Step(e: Editor, ev: Event, toNumber: string -> int): (r: Editor)
    ensures r.isEditing <==> ev.Edit? || (e.isEditing && (ev.InputChange? || ev.NewProps?))
    ensures r.filters == (if ev.NewProps? then ev.filters else e.filters)
    ensures ev.Edit? || ev.Cancel? ==> r.draft == e.filters
    ensures ev.Save? || ev.NewProps? ==> r.draft == e.draft
  {
    match ev
    case Edit => e.(isEditing := true, draft := e.filters)
    case Save(_) => e.(isEditing := false)
    case Cancel => e.(isEditing := false, draft := e.filters)
    case InputChange(field, value) => e.(draft := WithField(e.draft, field, ParsedInput(value, toNumber)))
    case NewProps(f) => e.(filters := f)
  }

  /** What Save hands to `onFiltersChange`, if anything: the draft, and
      only on a Save with a callback. */
  function Submitted(e: Editor, ev: Event): (r: Option<Filters>)
    ensures r.Some? <==> ev == Save(true)
    ensures r.Some? ==> r.value == e.draft
  {
    if ev.Save? && ev.hasCallback then Some(e.draft) else None
  }

  /** The state after a sequence of events, first event first. */
  function Run(e: Editor, events: seq<Event>, toNumber: string -> int): Editor
    decreases |events|
  {
    if events == [] then e else Run(Step(e, events[0], toNumber), events[1..], toNumber)
  }

  lemma {:induction false} RunAppend(e: Editor, events: seq<Event>, ev: Event, toNumber: string -> int)
    ensures Run(e, events + [ev], toNumber) == Step(Run(e, events, toNumber), ev, toNumber)
    decreases |events|
  {
    if events != [] {
      assert (events + [ev])[1..] == events[1..] + [ev];
      RunAppend(Step(e, events[0], toNumber), events[1..], ev, toNumber);
    }
  }

  /** Whatever happened before, Cancel leaves edit mode with the draft equal
      to the current incoming filters. */
  lemma CancelDiscardsDraft(e: Editor, events: seq<Event>, toNumber: string -> int)
    ensures var r := Run(e, events + [Cancel], toNumber);
      !r.isEditing && r.draft == r.filters == Run(e, events, toNumber).filters
  {
    RunAppend(e, events, Cancel, toNumber);
  }

  /** Whatever happened before, Edit enters edit mode with a fresh copy of the
      incoming filters, discarding any earlier draft. */
  lemma EditResetsDraft(e: Editor, events: seq<Event>, toNumber: string -> int)
    ensures var r := Run(e, events + [Edit], toNumber);
      r.isEditing && r.draft == r.filters == Run(e, events, toNumber).filters
  {
    RunAppend(e, events, Edit, toNumber);
  }

  /** Input changes touch only the draft: they neither leave nor enter edit
      mode, and never change the incoming filters. */
  lemma {:induction false} InputChangesKeepMode(e: Editor, events: seq<Event>, toNumber: string -> int)
    requires forall i :: 0 <= i < |events| ==> events[i].InputChange?
    ensures Run(e, events, toNumber).isEditing == e.isEditing
    ensures Run(e, events, toNumber).filters == e.filters
    decreases |events|
  {
    if events != [] {
      InputChangesKeepMode(Step(e, events[0], toNumber), events[1..], toNumber);
    }
  }

  /** Editing a field after Edit and then saving hands the parent the
      incoming filters with just that field replaced. */
  lemma EditTypeSave(filters: Filters, field: Field, value: string, toNumber: string -> int)
    ensures var e := Run(Mounted(filters), [Edit, InputChange(field, value)], toNumber);
      && e.isEditing
      && Submitted(e, Save(true)) == Some(WithField(filters, field, ParsedInput(value, toNumber)))
      && Submitted(e, Save(false)) == None
      && !Step(e, Save(true), toNumber).isEditing
  {
    var events := [Edit, InputChange(field, value)];
    var e1 := Step(Mounted(filters), Edit, toNumber);
    assert events[1..] == [InputChange(field, value)] && events[1..][1..] == [];
    var e2 := Step(e1, InputChange(field, value), toNumber);
    assert Run(e1, events[1..], toNumber) == Run(e2, [], toNumber) == e2;
    assert Run(Mounted(filters), events, toNumber) == e2;
  }

  /** The component's state kept in place: the props it renders with, the
      `isEditing` flag and the `editedFilters` draft. `toNumber` stands for
      JavaScript's `Number` conversion of an input's text. */
  class FilterEditor {
    const toNumber: string -> int
    var filters: Filters
    var isEditing: bool
    var editedFilters: Filters

    function State(): Editor
      reads this
    {
      Editor(filters, isEditing, editedFilters)
    }

    constructor (filters: Filters, toNumber: string -> int)
      ensures State() == Mounted(filters) && this.toNumber == toNumber
    {
      this.toNumber := toNumber;
      this.filters := filters;
      isEditing := false;
      editedFilters := filters;
    }

    /** `handleEdit` */
    method Edit()
      modifies this
      ensures isEditing && editedFilters == filters == old(filters)
      ensures State() == Step(old(State()), Event.Edit, toNumber)
    {
      isEditing := true;
      editedFilters := filters;
    }

    /** `handleSave`: the draft passed to `onFiltersChange` is returned as
        `submitted`, and is `None` when there is no callback. */
    method Save(hasCallback: bool) returns (submitted: Option<Filters>)
      modifies this
      ensures !isEditing && editedFilters == old(editedFilters) && filters == old(filters)
      ensures submitted == (if hasCallback then Some(old(editedFilters)) else None)
      ensures State() == Step(old(State()), Event.Save(hasCallback), toNumber)
      ensures submitted == Submitted(old(State()), Event.Save(hasCallback))
    {
      isEditing := false;
      submitted := None;
      if hasCallback {
        submitted := Some(editedFilters);
      }
    }

    /** `handleCancel` */
    method Cancel()
      modifies this
      ensures !isEditing && editedFilters == filters == old(filters)
      ensures State() == Step(old(State()), Event.Cancel, toNumber)
    {
      isEditing := false;
      editedFilters := filters;
    }

    /** `handleInputChange` */
    method InputChange(field: Field, value: string)
      modifies this
      ensures editedFilters == WithField(old(editedFilters), field, ParsedInput(value, toNumber))
      ensures isEditing == old(isEditing) && filters == old(filters)
      ensures State() == Step(old(State()), Event.InputChange(field, value), toNumber)
    {
      var numValue := if value == "" then None else Some(toNumber(value));
      editedFilters := WithField(editedFilters, field, numValue);
    }

    /** A re-render with new props: the draft is left as it was. */
    method ReceiveProps(newFilters: Filters)
      modifies this
      ensures filters == newFilters
      ensures isEditing == old(isEditing) && editedFilters == old(editedFilters)
    {
      filters := newFilters;
    }
  }

  /** What view mode shows. */
  datatype SummaryItem = AnnualSpendNotSpecified | Amount(field: Field, value: int)

  /** The view-mode line: annual spend (or "Not specified" when it is
      missing or 0, since 0 is falsy), then each other field that is set. */
  function SummaryItems(f: Filters): (items: seq<SummaryItem>)
    ensures |items| >= 1
    ensures items[0] == AnnualSpendNotSpecified <==> f.annualSpend == None || f.annualSpend == Some(0)
    ensures items[0] != AnnualSpendNotSpecified ==> items[0] == Amount(AnnualSpend, f.annualSpend.value)
    ensures forall i :: 1 <= i < |items| ==> items[i].Amount? && items[i].field != AnnualSpend
    ensures forall g, v :: g != AnnualSpend ==> (Amount(g, v) in items <==> Get(f, g) == Some(v))
    ensures InViewOrder(items)
  {
    var head := if f.annualSpend == None || f.annualSpend == Some(0)
                then AnnualSpendNotSpecified else Amount(AnnualSpend, f.annualSpend.value);
    [head] + ShownAmounts(f)
  }

  /** The view-mode items after the annual spend: each set field once, in
      the order groceries, dining, travel, others. */
  function ShownAmounts(f: Filters): (items: seq<SummaryItem>)
    ensures forall i :: 0 <= i < |items| ==> items[i].Amount? && items[i].field != AnnualSpend
    ensures forall g, v :: g != AnnualSpend ==> (Amount(g, v) in items <==> Get(f, g) == Some(v))
    ensures InViewOrder(items)
  {
    var groceries := Shown(Groceries, f.groceries);
    var dining := groceries + Shown(Dining, f.dining);
    ShownExtendsOrder(groceries, Dining, f.dining);
    var travel := dining + Shown(Travel, f.travel);
    ShownExtendsOrder(dining, Travel, f.travel);
    ShownExtendsOrder(travel, Others, f.others);
    travel + Shown(Others, f.others)
  }

  /** Where an item comes in view mode. */
  function ItemPosition(x: SummaryItem): nat
  {
    match x
    case AnnualSpendNotSpecified => 0
    case Amount(field, _) => Position(field)
  }

  /** The items come in strictly increasing view position. */
  predicate InViewOrder(items: seq<SummaryItem>)
  {
    forall i, j :: 0 <= i < j < |items| ==> ItemPosition(items[i]) < ItemPosition(items[j])
  }

  /** Appending a later field's item keeps the items in view order. */
  lemma ShownExtendsOrder(items: seq<SummaryItem>, field: Field, v: Option<int>)
    requires InViewOrder(items)
    requires forall i :: 0 <= i < |items| ==> ItemPosition(items[i]) < Position(field)
    ensures InViewOrder(items + Shown(field, v))
    ensures forall i :: 0 <= i < |items + Shown(field, v)| ==>
              ItemPosition((items + Shown(field, v))[i]) <= Position(field)
  {
  }

  /** Where a field's item comes in view mode: groceries, dining, travel,
      then others. */
  function Position(field: Field): nat
  {
    match field
    case AnnualSpend => 0
    case Groceries => 1
    case Dining => 2
    case Travel => 3
    case Others => 4
  }

  /** The item for a field, present only when the field is not undefined. */
  function Shown(field: Field, v: Option<int>): (items: seq<SummaryItem>)
    ensures |items| <= 1
    ensures forall i :: 0 <= i < |items| ==> v.Some? && items[i] == Amount(field, v.value)
    ensures forall x :: x in items <==> v.Some? && x == Amount(field, v.value)
  {
    if v.Some? then [Amount(field, v.value)] else []
  }
}
