/** The executable logic inside the catalogue of good workflow patterns:
    centralised sheet dispatch, the item-picker flows, the confirmation gate in
    front of a delete, costs derived from an item's records and prices, and
    the confidence level of a decision. */
module GoodPatterns {
  import opened Wrappers
  import opened SwiftInt
  import opened Inventory
  import opened Sheets

  // ---------------------------------------------------------------------------
  // Pattern 1: one enum for every sheet, one exhaustive dispatcher.

  /** `enum AppSheetType: String, Identifiable`. */
  datatype AppSheetType = AddItem | Settings | PriceWatch | AIAssistant {

    /** Swift's synthesized raw value of a `String` enum: the case name. */
    function RawValue(): string {
      match this
      case AddItem => "addItem"
      case Settings => "settings"
      case PriceWatch => "priceWatch"
      case AIAssistant => "aiAssistant"
    }

    /** `var id: String { rawValue }`. */
    function Id(): (id: string)
      ensures AppSheetFromRawValue(id) == Some(this)
    {
      RawValue()
    }
  }

  /** Swift's synthesized `init?(rawValue:)`. */
  function AppSheetFromRawValue(raw: string): (sheet: Option<AppSheetType>)
    ensures sheet.Some? ==> sheet.value.RawValue() == raw
  {
    if raw == "addItem" then Some(AddItem)
    else if raw == "settings" then Some(Settings)
    else if raw == "priceWatch" then Some(PriceWatch)
    else if raw == "aiAssistant" then Some(AIAssistant)
    else None
  }

  /** Raw values round-trip, so `id` (which is the raw value) identifies a
      case: `Identifiable` gets distinct ids for distinct sheets. */
  lemma RawValueRoundTrip(sheet: AppSheetType)
    ensures AppSheetFromRawValue(sheet.RawValue()) == Some(sheet)
    ensures sheet.Id() == sheet.RawValue()
  {
  }

  lemma IdsAreDistinct(a: AppSheetType, b: AppSheetType)
    ensures a.Id() == b.Id() ==> a == b
  {
  }

  /** `ContentView.sheetContent(for:)`: every case has its own view. */
  function SheetContent(sheet: AppSheetType): (view: SheetView)
    ensures view != OrphanedFeatureView
    ensures SheetShowing(view).Some?
  {
    match sheet
    case AddItem => AddItemView
    case Settings => SettingsView
    case PriceWatch => PriceWatchView
    case AIAssistant => AIAssistantView
  }

  /** Which sheet case, if any, a view is the content of. */
  function SheetShowing(view: SheetView): Option<AppSheetType> {
    match view
    case AddItemView => Some(AddItem)
    case SettingsView => Some(Settings)
    case PriceWatchView => Some(PriceWatch)
    case AIAssistantView => Some(AIAssistant)
    case OrphanedFeatureView => None
  }

  lemma SheetContentHandlesEveryCase(sheet: AppSheetType)
    ensures SheetShowing(SheetContent(sheet)) == Some(sheet)
  {
  }

  // ---------------------------------------------------------------------------
  // Pattern 3: pick an item, then show the feature for it.

  /** `GoodItemPickerFlow`: its `@State` selection and presentation flag. */
  class GoodItemPickerFlow {
    const eligibleItems: seq<Item>
    var selectedItem: Option<Item>
    var showingFeature: bool

    /** The feature sheet is shown only with an eligible item selected. */
    ghost predicate Valid()
      reads this
    {
      && (showingFeature ==> selectedItem.Some?)
      && (selectedItem.Some? ==> selectedItem.value in eligibleItems)
    }

    constructor (eligibleItems: seq<Item>)
      ensures Valid()
      ensures this.eligibleItems == eligibleItems
      ensures selectedItem == None && !showingFeature
    {
      this.eligibleItems := eligibleItems;
      selectedItem := None;
      showingFeature := false;
    }

    /** The row button of `item`: the list only has rows for eligible items. */
    method Choose(item: Item)
      requires Valid()
      requires item in eligibleItems
      modifies this
      ensures Valid()
      ensures selectedItem == Some(item) && showingFeature
    {
      selectedItem := Some(item);
      showingFeature := true;
    }

    /** Dismissing the sheet resets its `isPresented` binding. */
    method DismissFeature()
      requires Valid()
      modifies this
      ensures Valid()
      ensures !showingFeature && selectedItem == old(selectedItem)
    {
      showingFeature := false;
    }

    /** The feature sheet's content: `if let item = selectedItem { ItemFeatureView(item) }`. */
    function FeatureSheetItem(): (shown: Option<Item>)
      reads this
      requires Valid()
      ensures showingFeature ==> shown == selectedItem && shown.Some? && shown.value in eligibleItems
      ensures !showingFeature ==> shown.None?
    {
      if showingFeature then selectedItem else None
    }
  }

  // ---------------------------------------------------------------------------
  // Pattern 4: skip the picker when exactly one item is eligible.

  /** `OptimizedItemFlow`: the picker, the feature and the selection. */
  class OptimizedItemFlow {
    const eligibleItems: seq<Item>
    var showingPicker: bool
    var showingFeature: bool
    var selectedItem: Option<Item>

    /** The feature is only ever shown with an item selected, and with a
        single eligible item the picker never opens, so the only item that
        can be selected is that one. */
    ghost predicate Valid()
      reads this
    {
      && (showingFeature ==> selectedItem.Some?)
      && (|eligibleItems| == 1 ==> !showingPicker)
      && (|eligibleItems| == 1 && selectedItem.Some? ==> selectedItem == Some(eligibleItems[0]))
    }

    constructor (eligibleItems: seq<Item>)
      ensures Valid()
      ensures this.eligibleItems == eligibleItems
      ensures !showingPicker && !showingFeature && selectedItem == None
    {
      this.eligibleItems := eligibleItems;
      showingPicker := false;
      showingFeature := false;
      selectedItem := None;
    }

    /** The "Use Feature" button. */
    method UseFeature()
      requires Valid()
      modifies this
      ensures Valid()
      ensures |eligibleItems| == 1 ==>
        && selectedItem == Some(eligibleItems[0])
        && showingFeature
        && showingPicker == old(showingPicker)
      ensures |eligibleItems| != 1 ==>
        && showingPicker
        && showingFeature == old(showingFeature)
        && selectedItem == old(selectedItem)
    {
      if |eligibleItems| == 1 {
        selectedItem := Some(eligibleItems[0]);
        showingFeature := true;
      } else {
        showingPicker := true;
      }
    }

    /** The callback `ItemPickerView` invokes with the chosen item; it can
        only fire while the picker sheet is open. */
    method PickerChose(item: Item)
      requires Valid()
      requires showingPicker
      modifies this
      ensures Valid()
      ensures selectedItem == Some(item) && !showingPicker && showingFeature
    {
      selectedItem := Some(item);
      showingPicker := false;
      showingFeature := true;
    }

    /** Dismissing the picker sheet resets its `isPresented` binding. */
    method DismissPicker()
      requires Valid()
      modifies this
      ensures Valid()
      ensures !showingPicker
      ensures showingFeature == old(showingFeature) && selectedItem == old(selectedItem)
    {
      showingPicker := false;
    }

    /** Dismissing the feature sheet resets its `isPresented` binding. */
    method DismissFeature()
      requires Valid()
      modifies this
      ensures Valid()
      ensures !showingFeature
      ensures showingPicker == old(showingPicker) && selectedItem == old(selectedItem)
    {
      showingFeature := false;
    }

    /** The feature sheet's content: `if let item = selectedItem { ItemFeatureView(item) }`. */
    function FeatureSheetItem(): (shown: Option<Item>)
      reads this
      requires Valid()
      ensures showingFeature <==> shown.Some?
      ensures showingFeature ==> shown == selectedItem
      ensures |eligibleItems| == 1 && showingFeature ==> shown == Some(eligibleItems[0])
    {
      if showingFeature then selectedItem else None
    }
  }

  // ---------------------------------------------------------------------------
  // Pattern 7: confirm before deleting.

  /** `GoodDeleteFlow`. `deleteCalls` counts the invocations of the
      `onDelete` callback; `confirmationsShown` (ghost) counts how often the
      confirmation dialog has been presented. */
  class GoodDeleteFlow {
    const item: Item
    var showingDeleteConfirmation: bool
    var deleteCalls: nat
    ghost var confirmationsShown: nat

    /** Every deletion used up a presentation of the dialog of its own; an
        open dialog holds one that has not yet been used. */
    ghost predicate Valid()
      reads this
    {
      deleteCalls + (if showingDeleteConfirmation then 1 else 0) <= confirmationsShown
    }

    constructor (item: Item)
      ensures Valid()
      ensures this.item == item
      ensures !showingDeleteConfirmation && deleteCalls == 0 && confirmationsShown == 0
    {
      this.item := item;
      showingDeleteConfirmation := false;
      deleteCalls := 0;
      confirmationsShown := 0;
    }

    /** The view's own "Delete" button only asks. */
    method TapDelete()
      requires Valid()
      modifies this
      ensures Valid()
      ensures showingDeleteConfirmation
      ensures deleteCalls == old(deleteCalls)
      ensures confirmationsShown == old(confirmationsShown) + (if old(showingDeleteConfirmation) then 0 else 1)
    {
      if !showingDeleteConfirmation {
        confirmationsShown := confirmationsShown + 1;
      }
      showingDeleteConfirmation := true;
    }

    /** The dialog's destructive "Delete" button: the only caller of
        `onDelete`. The dialog closes after its action runs. */
    method ConfirmDelete()
      requires Valid()
      requires showingDeleteConfirmation
      modifies this
      ensures Valid()
      ensures deleteCalls == old(deleteCalls) + 1
      ensures !showingDeleteConfirmation
      ensures confirmationsShown == old(confirmationsShown)
    {
      deleteCalls := deleteCalls + 1;
      showingDeleteConfirmation := false;
    }

    /** The dialog's "Cancel" button: closes the dialog, deletes nothing. */
    method CancelDelete()
      requires Valid()
      requires showingDeleteConfirmation
      modifies this
      ensures Valid()
      ensures deleteCalls == old(deleteCalls)
      ensures !showingDeleteConfirmation
      ensures confirmationsShown == old(confirmationsShown)
    {
      showingDeleteConfirmation := false;
    }
  }

  // ---------------------------------------------------------------------------
  // Pattern 8: costs computed from real model data.

  /** `records.filter { $0.status == .completed }.compactMap { $0.repairCostInCents }`. */
  function CompletedCosts(records: seq<RMARecord>): (costs: seq<Int64>)
    ensures |costs| <= |records|
    ensures forall c :: c in costs <==>
      exists i :: 0 <= i < |records| && records[i].status == Completed && records[i].repairCostInCents == Some(c)
  {
    if records == [] then []
    else
      var rest := CompletedCosts(records[1..]);
      CompletedCostSplit(records);
      if records[0].status == Completed && records[0].repairCostInCents.Some?
      then [records[0].repairCostInCents.value] + rest
      else rest
  }

  lemma CompletedCostSplit(records: seq<RMARecord>)
    requires records != []
    ensures forall c ::
      (exists i :: 0 <= i < |records| && records[i].status == Completed && records[i].repairCostInCents == Some(c))
      <==>
      ((records[0].status == Completed && records[0].repairCostInCents == Some(c)) ||
       (exists i :: 0 <= i < |records[1..]| && records[1..][i].status == Completed && records[1..][i].repairCostInCents == Some(c)))
  {
    forall c | exists i :: 0 <= i < |records| && records[i].status == Completed && records[i].repairCostInCents == Some(c)
      ensures (records[0].status == Completed && records[0].repairCostInCents == Some(c)) ||
       (exists i :: 0 <= i < |records[1..]| && records[1..][i].status == Completed && records[1..][i].repairCostInCents == Some(c))
    {
      var i :| 0 <= i < |records| && records[i].status == Completed && records[i].repairCostInCents == Some(c);
      if i > 0 {
        assert records[1..][i - 1] == records[i];
      }
    }
  }

  /** Filtering the records of a concatenation filters each part. */
  lemma {:induction false} CompletedCostsAppend(a: seq<RMARecord>, b: seq<RMARecord>)
    ensures CompletedCosts(a + b) == CompletedCosts(a) + CompletedCosts(b)
  {
    if a == [] {
      assert a + b == b;
    } else {
      assert (a + b)[1..] == a[1..] + b;
      CompletedCostsAppend(a[1..], b);
    }
  }

  /** The mathematical sum. */
  function Sum(xs: seq<int>): int {
    if xs == [] then 0 else xs[0] + Sum(xs[1..])
  }

  function Min(xs: seq<int>): (m: int)
    requires xs != []
    ensures m in xs && forall x :: x in xs ==> m <= x
  {
    if |xs| == 1 then xs[0]
    else
      var rest := Min(xs[1..]);
      assert forall x :: x in xs ==> x == xs[0] || x in xs[1..];
      if xs[0] <= rest then xs[0] else rest
  }

  function Max(xs: seq<int>): (m: int)
    requires xs != []
    ensures m in xs && forall x :: x in xs ==> x <= m
  {
    if |xs| == 1 then xs[0]
    else
      var rest := Max(xs[1..]);
      assert forall x :: x in xs ==> x == xs[0] || x in xs[1..];
      if xs[0] >= rest then xs[0] else rest
  }

  /** All partial sums `acc + xs[0] + ... + xs[k-1]` of a left fold fit in 64 bits. */
  ghost predicate PartialSumsInRange(acc: int, xs: seq<int>) {
    forall k :: 1 <= k <= |xs| ==> InRange(acc + Sum(xs[..k]))
  }

  /** `xs.reduce(acc, +)` with Swift's trapping `+`: it traps as soon as a
      partial sum overflows, and otherwise yields the sum. */
  function CheckedSum(acc: Int64, xs: seq<Int64>): (r: Checked<Int64>)
    ensures r.Value? <==> PartialSumsInRange(acc, xs)
    ensures r.Value? ==> r.value == acc + Sum(xs)
    decreases |xs|
  {
    if xs == [] then Value(acc)
    else
      PartialSumsShift(acc, xs);
      match Add(acc, xs[0])
      case Trap => Trap
      case Value(a) => CheckedSum(a, xs[1..])
  }

  lemma PartialSumsShift(acc: int, xs: seq<int>)
    requires xs != []
    ensures PartialSumsInRange(acc, xs) <==>
      InRange(acc + xs[0]) && PartialSumsInRange(acc + xs[0], xs[1..])
  {
    assert xs[..1] == [xs[0]];
    assert Sum([xs[0]]) == xs[0] + Sum([]);
    forall k | 1 <= k <= |xs|
      ensures acc + Sum(xs[..k]) == acc + xs[0] + Sum(xs[1..][..k - 1])
    {
      assert xs[..k][1..] == xs[1..][..k - 1];
    }
    if InRange(acc + xs[0]) && PartialSumsInRange(acc + xs[0], xs[1..]) {
      forall k | 1 <= k <= |xs|
        ensures InRange(acc + Sum(xs[..k]))
      {
        if k > 1 {
          assert InRange(acc + xs[0] + Sum(xs[1..][..k - 1]));
        }
      }
    }
    if PartialSumsInRange(acc, xs) {
      forall k | 1 <= k <= |xs| - 1
        ensures InRange(acc + xs[0] + Sum(xs[1..][..k]))
      {
        assert InRange(acc + Sum(xs[..k + 1]));
      }
    }
  }

  /** `GoodDataWiring.averageRepairCost`: the truncated mean of the costs of
      completed records, `nil` without records or without a counted cost. The
      `reduce(0, +)` traps if a partial sum overflows. */
  function AverageRepairCost(item: Item): (r: Checked<Option<Int64>>)
    ensures r == Value(None) <==>
      item.rmaRecords.None? || CompletedCosts(item.rmaRecords.value) == []
    ensures r.Trap? <==>
      item.rmaRecords.Some? && !PartialSumsInRange(0, CompletedCosts(item.rmaRecords.value))
    ensures r.Value? && r.value.Some? ==>
      var costs := CompletedCosts(item.rmaRecords.value);
      && costs != []
      && r.value.value == TruncDiv(Sum(costs), |costs|)
      && Min(costs) <= r.value.value <= Max(costs)
  {
    if item.rmaRecords.None? then Value(None)
    else
      var costs := CompletedCosts(item.rmaRecords.value);
      if costs == [] then Value(None)
      else
        match CheckedSum(0, costs)
        case Trap => Trap
        case Value(total) =>
          MeanWithinRange(costs);
          Value(Some(TruncDiv(total, |costs|)))
  }

  /** The truncated mean of a non-empty list lies between its smallest and
      largest element. */
  lemma MeanWithinRange(xs: seq<int>)
    requires xs != []
    ensures Min(xs) <= TruncDiv(Sum(xs), |xs|) <= Max(xs)
  {
    SumBounds(xs, Min(xs), Max(xs));
    TruncDivBounds(Sum(xs), |xs|, Min(xs), Max(xs));
  }

  lemma {:induction false} SumBounds(xs: seq<int>, lo: int, hi: int)
    requires forall x :: x in xs ==> lo <= x <= hi
    ensures |xs| * lo <= Sum(xs) <= |xs| * hi
  {
    if xs != [] {
      assert xs[0] in xs;
      assert forall x :: x in xs[1..] ==> x in xs;
      SumBounds(xs[1..], lo, hi);
      MulStep(|xs| - 1, lo);
      MulStep(|xs| - 1, hi);
    }
  }

  lemma MulStep(n: int, x: int)
    ensures (n + 1) * x == n * x + x
  {
  }

  /** Dividing a value between `n * lo` and `n * hi` by `n`, rounding toward
      zero, lands between `lo` and `hi`. */
  lemma TruncDivBounds(a: int, n: int, lo: int, hi: int)
    requires n > 0
    requires n * lo <= a <= n * hi
    ensures lo <= TruncDiv(a, n) <= hi
  {
    var q := TruncDiv(a, n);
    assert -n < a - q * n < n;
    if q < lo {
      MulMonotone(q + 1, lo, n);
      MulStep(q, n);
      assert false;
    }
    if q > hi {
      MulMonotone(hi + 1, q, n);
      MulStep(hi, n);
      assert false;
    }
  }

  lemma MulMonotone(x: int, y: int, n: int)
    requires x <= y && n > 0
    ensures x * n <= y * n
  {
  }

  /** The replacement-price sources in the order `bestReplacementCost` tries
      them: market price (Price Watch), user-entered replacement cost,
      purchase price. */
  function ReplacementSources(item: Item): seq<Option<Int64>> {
    [item.currentMarketPriceInCents, item.replacementCostInCents, item.priceInCents]
  }

  /** `GoodDataWiring.bestReplacementCost`: the first source that is present,
      `nil` when none is. */
  function BestReplacementCost(item: Item): (r: Option<Int64>)
    ensures var sources := ReplacementSources(item);
      r.Some? <==> exists i :: 0 <= i < |sources| && sources[i].Some?
    ensures var sources := ReplacementSources(item);
      r.Some? ==> exists i :: 0 <= i < |sources| && sources[i] == r &&
                              forall j :: 0 <= j < i ==> sources[j].None?
  {
    var sources := ReplacementSources(item);
    assert sources[0] == item.currentMarketPriceInCents;
    assert sources[1] == item.replacementCostInCents;
    assert sources[2] == item.priceInCents;
    if item.currentMarketPriceInCents.Some? then item.currentMarketPriceInCents
    else if item.replacementCostInCents.Some? then item.replacementCostInCents
    else item.priceInCents
  }

  // ---------------------------------------------------------------------------
  // Pattern 10: confidence reflects how much data the decision had.

  datatype ConfidenceLevel = High | Medium | Exploratory

  /** The six optional fields whose presence `computeConfidence` counts. */
  datatype DataPoint =
    | RatingPoint
    | RebuyPoint
    | LifespanPoint
    | RepairCostPoint
    | ReplacementCostPoint
    | ConditionPoint

  /** The fields in the order `computeConfidence` tests them. */
  const DataPointOrder: seq<DataPoint> :=
    [RatingPoint, RebuyPoint, LifespanPoint, RepairCostPoint, ReplacementCostPoint, ConditionPoint]

  predicate IsKnown(item: Item, d: DataPoint) {
    match d
    case RatingPoint => item.userRating.Some?
    case RebuyPoint => item.wouldBuyAgain.Some?
    case LifespanPoint => item.expectedLifespanYears.Some?
    case RepairCostPoint => item.averageRepairCostInCents.Some?
    case ReplacementCostPoint => item.bestReplacementCostInCents.Some?
    case ConditionPoint => item.condition.Some?
  }

  /** How many of the fields `ds` are non-nil for `item`. */
  function CountKnown(item: Item, ds: seq<DataPoint>): (n: nat)
    ensures n <= |ds|
  {
    if ds == [] then 0
    else CountKnown(item, ds[..|ds| - 1]) + (if IsKnown(item, ds[|ds| - 1]) then 1 else 0)
  }

  /** The final value of `computeConfidence`'s counter. */
  function DataPoints(item: Item): nat {
    CountKnown(item, DataPointOrder)
  }

  /** The set of non-nil fields among the six. */
  function KnownDataPoints(item: Item): set<DataPoint> {
    set d | d in DataPointOrder && IsKnown(item, d)
  }

  /** `switch dataPoints { case 5...: .high; case 3...4: .medium; default: .exploratory }`. */
  function LevelFor(dataPoints: nat): ConfidenceLevel {
    if dataPoints >= 5 then High
    else if 3 <= dataPoints <= 4 then Medium
    else Exploratory
  }

  function Confidence(item: Item): ConfidenceLevel {
    LevelFor(DataPoints(item))
  }

  /** The order of confidence levels. */
  function Rank(level: ConfidenceLevel): nat {
    match level
    case Exploratory => 0
    case Medium => 1
    case High => 2
  }

  /** `GoodDecisionEngine.computeConfidence(item:)`: count the known fields
      one by one, then bucket the count. */
  method ComputeConfidence(item: Item) returns (level: ConfidenceLevel)
    ensures level == LevelFor(DataPoints(item))
  {
    var dataPoints := 0;
    if item.userRating.Some? { dataPoints := dataPoints + 1; }
    CountKnownStep(item, 1);
    assert dataPoints == CountKnown(item, DataPointOrder[..1]);
    if item.wouldBuyAgain.Some? { dataPoints := dataPoints + 1; }
    CountKnownStep(item, 2);
    assert dataPoints == CountKnown(item, DataPointOrder[..2]);
    if item.expectedLifespanYears.Some? { dataPoints := dataPoints + 1; }
    CountKnownStep(item, 3);
    assert dataPoints == CountKnown(item, DataPointOrder[..3]);
    if item.averageRepairCostInCents.Some? { dataPoints := dataPoints + 1; }
    CountKnownStep(item, 4);
    assert dataPoints == CountKnown(item, DataPointOrder[..4]);
    if item.bestReplacementCostInCents.Some? { dataPoints := dataPoints + 1; }
    CountKnownStep(item, 5);
    assert dataPoints == CountKnown(item, DataPointOrder[..5]);
    if item.condition.Some? { dataPoints := dataPoints + 1; }
    CountKnownStep(item, 6);
    assert DataPointOrder[..6] == DataPointOrder;

    if dataPoints >= 5 {
      level := High;
    } else if 3 <= dataPoints <= 4 {
      level := Medium;
    } else {
      level := Exploratory;
    }
  }

  lemma CountKnownStep(item: Item, k: nat)
    requires 0 < k <= |DataPointOrder|
    ensures CountKnown(item, DataPointOrder[..k]) ==
      CountKnown(item, DataPointOrder[..k - 1]) + (if IsKnown(item, DataPointOrder[k - 1]) then 1 else 0)
  {
    assert DataPointOrder[..k][..k - 1] == DataPointOrder[..k - 1];
  }

  /** The counter is the number of distinct non-nil fields, so it lies in 0..6. */
  lemma DataPointsCountsKnownFields(item: Item)
    ensures DataPoints(item) == |KnownDataPoints(item)|
    ensures DataPoints(item) <= 6
  {
    CountKnownIsCardinality(item, DataPointOrder);
    assert (set d | d in DataPointOrder && IsKnown(item, d)) == KnownDataPoints(item);
  }

  lemma {:induction false} CountKnownIsCardinality(item: Item, ds: seq<DataPoint>)
    requires forall i, j :: 0 <= i < j < |ds| ==> ds[i] != ds[j]
    ensures CountKnown(item, ds) == |set d | d in ds && IsKnown(item, d)|
  {
    if ds != [] {
      var init, last := ds[..|ds| - 1], ds[|ds| - 1];
      CountKnownIsCardinality(item, init);
      assert ds == init + [last];
      assert last !in init;
      var before := set d | d in init && IsKnown(item, d);
      var after := set d | d in ds && IsKnown(item, d);
      if IsKnown(item, last) {
        assert after == before + {last};
      } else {
        assert after == before;
      }
    }
  }

  /** Knowing a field more never lowers the confidence: if every field known
      for `a` is known for `b`, `b` scores at least as many points. */
  lemma {:induction false} CountKnownMonotone(a: Item, b: Item, ds: seq<DataPoint>)
    requires forall d :: d in ds && IsKnown(a, d) ==> IsKnown(b, d)
    ensures CountKnown(a, ds) <= CountKnown(b, ds)
  {
    if ds != [] {
      CountKnownMonotone(a, b, ds[..|ds| - 1]);
    }
  }

  lemma MoreDataNeverLowersConfidence(a: Item, b: Item)
    requires KnownDataPoints(a) <= KnownDataPoints(b)
    ensures Rank(Confidence(a)) <= Rank(Confidence(b))
  {
    forall d | d in DataPointOrder && IsKnown(a, d)
      ensures IsKnown(b, d)
    {
      assert d in KnownDataPoints(a);
    }
    CountKnownMonotone(a, b, DataPointOrder);
  }

  /** The bucket boundaries. */
  lemma ConfidenceBuckets(item: Item)
    ensures Confidence(item) == High <==> |KnownDataPoints(item)| >= 5
    ensures Confidence(item) == Medium <==> 3 <= |KnownDataPoints(item)| <= 4
    ensures Confidence(item) == Exploratory <==> |KnownDataPoints(item)| <= 2
  {
    DataPointsCountsKnownFields(item);
  }
}
