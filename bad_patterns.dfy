/** The executable logic inside the "fixed" halves of the anti-pattern
    catalogue: exhaustive sheet dispatch, repair information computed from an
    item's own records, the weighted repair/keep/replace decision, and the
    "Start Feature" button that skips the picker when there is one item. */
module BadPatterns {
  import opened Wrappers
  import opened SwiftInt
  import opened Inventory
  import opened Sheets

  // ---------------------------------------------------------------------------
  // Anti-pattern 4, fixed: every sheet case has a handler.

  datatype BadSheetType = AddItem | Settings | OrphanedFeature

  /** `fixedSheetContent(for:)`: a total `switch` over the three cases. */
  function FixedSheetContent(sheet: BadSheetType): (view: SheetView)
    ensures view == OrphanedFeatureView <==> sheet == OrphanedFeature
  {
    match sheet
    case AddItem => AddItemView
    case Settings => SettingsView
    case OrphanedFeature => OrphanedFeatureView
  }

  /** The inverse reading: which sheet case, if any, a view is the handler of. */
  function SheetHandledBy(view: SheetView): Option<BadSheetType> {
    match view
    case AddItemView => Some(AddItem)
    case SettingsView => Some(Settings)
    case OrphanedFeatureView => Some(OrphanedFeature)
    case _ => None
  }

  /** Every case is handled, and by a view of its own: the dispatch is
      inverted by `SheetHandledBy`, so no two cases share a view. */
  lemma FixedSheetContentHandlesEveryCase(sheet: BadSheetType)
    ensures SheetHandledBy(FixedSheetContent(sheet)) == Some(sheet)
  {
  }

  lemma FixedSheetContentOnlyHandlerViews(view: SheetView)
    ensures SheetHandledBy(view).Some? ==> FixedSheetContent(SheetHandledBy(view).value) == view
  {
  }

  // ---------------------------------------------------------------------------
  // Anti-pattern 8, fixed: repair information from real RMA records.

  /** Some record of `records` carries `issue` as its issue description. */
  ghost predicate Reports(records: seq<RMARecord>, issue: string) {
    exists i :: 0 <= i < |records| && records[i].issueDescription == Some(issue)
  }

  /** `records.compactMap { $0.issueDescription }.filter { !$0.isEmpty }`. */
  function Issues(records: seq<RMARecord>): (issues: seq<string>)
    ensures |issues| <= |records|
    ensures forall s :: s in issues <==> s != "" && Reports(records, s)
  {
    if records == [] then []
    else
      var rest := Issues(records[1..]);
      ReportsSplit(records);
      match records[0].issueDescription
      case Some(s) => if s != "" then [s] + rest else rest
      case None => rest
  }

  lemma ReportsSplit(records: seq<RMARecord>)
    requires records != []
    ensures forall s :: Reports(records, s) <==>
      records[0].issueDescription == Some(s) || Reports(records[1..], s)
  {
  }

  /** `Set(item.rmaRecords?.compactMap(...).filter(...) ?? [])`: the distinct
      non-empty issue descriptions of the item's records, nothing when the
      item has no records at all. */
  function FailurePointSet(records: Option<seq<RMARecord>>): (points: set<string>)
    ensures records.None? ==> points == {}
    ensures "" !in points
    ensures forall s :: s in points <==> s != "" && records.Some? && Reports(records.value, s)
  {
    var issues := if records.Some? then Issues(records.value) else [];
    set s | s in issues
  }

  /** `Array(someSet)`: the elements of a set, each once, in an order Swift
      leaves unspecified (here: whatever order the loop happens to pick). */
  method ArrayOfSet<T>(s: set<T>) returns (a: seq<T>)
    ensures |a| == |s|
    ensures forall x :: x in a <==> x in s
    ensures forall i, j :: 0 <= i < j < |a| ==> a[i] != a[j]
  {
    a := [];
    var rest := s;
    while rest != {}
      invariant rest <= s
      invariant |a| + |rest| == |s|
      invariant forall x :: x in a <==> x in s && x !in rest
      invariant forall i, j :: 0 <= i < j < |a| ==> a[i] != a[j]
      decreases rest
    {
      var x :| x in rest;
      a := a + [x];
      rest := rest - {x};
    }
  }

  datatype RepairContext = RepairContext(
    repairabilityScore: int,
    estimatedRepairCost: Option<string>,
    commonFailurePoints: seq<string>)

  /** `RealDataView`: a view whose `@State` repair information is filled in
      from the item's own data. */
  class RealDataView {
    const item: Item
    var repairInfo: Option<RepairContext>

    constructor (item: Item)
      ensures this.item == item && repairInfo == None
    {
      this.item := item;
      repairInfo := None;
    }

    /** `fetchRepairInfo()`. The helpers `categoryRepairScore(for:)` and
        `formatCents` are not part of this model: the score for the item's
        category and the formatting function are passed in. */
    method FetchRepairInfo(categoryRepairScore: int, formatCents: Int64 -> string)
      modifies this
      ensures repairInfo.Some?
      ensures repairInfo.value.repairabilityScore == categoryRepairScore
      ensures repairInfo.value.estimatedRepairCost ==
        (if item.averageRepairCostInCents.Some?
         then Some(formatCents(item.averageRepairCostInCents.value)) else None)
      ensures forall s :: s in repairInfo.value.commonFailurePoints <==> s in FailurePointSet(item.rmaRecords)
      ensures var points := repairInfo.value.commonFailurePoints;
        forall i, j :: 0 <= i < j < |points| ==> points[i] != points[j]
    {
      var avgCost := item.averageRepairCostInCents;
      var issues := FailurePointSet(item.rmaRecords);
      var points := ArrayOfSet(issues);
      var estimate := if avgCost.Some? then Some(formatCents(avgCost.value)) else None;
      repairInfo := Some(RepairContext(categoryRepairScore, estimate, points));
    }
  }

  // ---------------------------------------------------------------------------
  // Anti-pattern 9, fixed: a weighted score per decision path.

  datatype DecisionPath = Repair | Keep | Replace | Alternatives

  /** The dictionary literal the scores start from: a repair-first bias. */
  function InitialScore(p: DecisionPath): int {
    match p
    case Repair => 10
    case Keep => 0
    case Replace => 0
    case Alternatives => 0
  }

  /** Evaluating `replacement * 40` traps: both costs are known and the
      product leaves the 64-bit range. */
  predicate RepairCheckTraps(item: Item) {
    && item.averageRepairCostInCents.Some?
    && item.bestReplacementCostInCents.Some?
    && !InRange(item.bestReplacementCostInCents.value * 40)
  }

  /** Both costs are known and the average repair is below 40% of the
      replacement cost, computed with truncating integer division. */
  predicate RepairIsCheap(item: Item) {
    && item.averageRepairCostInCents.Some?
    && item.bestReplacementCostInCents.Some?
    && item.averageRepairCostInCents.value < TruncDiv(item.bestReplacementCostInCents.value * 40, 100)
  }

  predicate RatedHighly(item: Item) {
    item.userRating.Some? && item.userRating.value >= 4
  }

  /** `item.wouldBuyAgain == false`: an explicit "no"; an unknown answer is not one. */
  predicate WouldNotBuyAgain(item: Item) {
    item.wouldBuyAgain == Some(false)
  }

  predicate InGoodCondition(item: Item) {
    item.condition == Some(Excellent) || item.condition == Some(Good)
  }

  /** The total score of a path: its starting score plus every rule's bonus. */
  function Score(item: Item, p: DecisionPath): int {
    InitialScore(p) +
    match p
    case Repair => (if RepairIsCheap(item) then 15 else 0) + (if item.hasActiveWarranty then 10 else 0)
    case Keep => (if RatedHighly(item) then 10 else 0) + (if InGoodCondition(item) then 5 else 0)
    case Replace => 0
    case Alternatives => if WouldNotBuyAgain(item) then 15 else 0
  }

  ghost predicate IsTopScored(item: Item, p: DecisionPath) {
    forall q :: Score(item, q) <= Score(item, p)
  }

  /** `scores[p, default: 0]`. */
  function ScoreOf(scores: map<DecisionPath, int>, p: DecisionPath): int {
    if p in scores then scores[p] else 0
  }

  /** `ComprehensiveDecision.computePath(item:)`. The result is some path with
      a maximal score; which of several tied paths wins depends on the
      dictionary's iteration order. The only run-time failure is the overflow
      trap of `replacement * 40`. */
  method ComputePath(item: Item) returns (path: Checked<DecisionPath>)
    ensures path.Trap? <==> RepairCheckTraps(item)
    ensures path.Value? ==> IsTopScored(item, path.value)
    ensures path.Value? ==> path.value != Replace
  {
    var scores := map[Repair := 10, Keep := 0, Replace := 0, Alternatives := 0];

    if item.averageRepairCostInCents.Some? && item.bestReplacementCostInCents.Some? {
      var avgRepair := item.averageRepairCostInCents.value;
      var replacement := item.bestReplacementCostInCents.value;
      var product := Mul(replacement, 40);
      if product.Trap? {
        return Trap;
      }
      assert RepairIsCheap(item) <==> avgRepair < TruncDiv(product.value, 100);
      if avgRepair < TruncDiv(product.value, 100) {
        scores := scores[Repair := ScoreOf(scores, Repair) + 15];
      }
    }

    if item.hasActiveWarranty {
      scores := scores[Repair := ScoreOf(scores, Repair) + 10];
    }

    if item.userRating.Some? && item.userRating.value >= 4 {
      scores := scores[Keep := ScoreOf(scores, Keep) + 10];
    }
    if item.wouldBuyAgain == Some(false) {
      scores := scores[Alternatives := ScoreOf(scores, Alternatives) + 15];
    }

    if item.condition == Some(Excellent) || item.condition == Some(Good) {
      scores := scores[Keep := ScoreOf(scores, Keep) + 5];
    }

    assert scores.Keys == {Repair, Keep, Replace, Alternatives};
    assert scores[Repair] == Score(item, Repair) && scores[Keep] == Score(item, Keep);
    assert scores[Replace] == Score(item, Replace) && scores[Alternatives] == Score(item, Alternatives);
    var top := MaxByValue(scores);
    assert top.Some?;
    path := Value(top.GetOr(Keep));
  }

  /** `dictionary.max(by: { $0.value < $1.value })?.key`: walk the entries in
      the dictionary's (unspecified) order, keeping the first entry that no
      later entry strictly beats; `nil` for an empty dictionary. */
  method MaxByValue<K>(m: map<K, int>) returns (top: Option<K>)
    ensures top.None? <==> m == map[]
    ensures top.Some? ==> top.value in m && forall k :: k in m ==> m[k] <= m[top.value]
  {
    if m == map[] {
      return None;
    }
    var rest := m.Keys;
    var best :| best in rest;
    rest := rest - {best};
    while rest != {}
      invariant rest <= m.Keys
      invariant best in m
      invariant forall k :: k in m && k !in rest ==> m[k] <= m[best]
      decreases rest
    {
      var k :| k in rest;
      if m[best] < m[k] {
        best := k;
      }
      rest := rest - {k};
    }
    top := Some(best);
  }

  /** Scores start from the literal and rules only ever add to them: an item
      with no data and no warranty keeps the literal, and no item scores
      below it or more than 25 above it. */
  lemma ScoresOnlyGrow(item: Item, p: DecisionPath)
    ensures item.averageRepairCostInCents.None? && !item.hasActiveWarranty &&
            item.userRating.None? && item.wouldBuyAgain.None? && item.condition.None? ==>
      Score(item, Repair) == 10 && Score(item, Keep) == 0 &&
      Score(item, Replace) == 0 && Score(item, Alternatives) == 0
    ensures InitialScore(p) <= Score(item, p) <= InitialScore(p) + 25
  {
  }

  /** The 15-point repair bonus needs both costs; without one of them the
      repair score is the bias plus the warranty bonus. */
  lemma RepairBonusNeedsBothCosts(item: Item)
    ensures item.averageRepairCostInCents.None? || item.bestReplacementCostInCents.None? ==>
      Score(item, Repair) == 10 + (if item.hasActiveWarranty then 10 else 0)
    ensures Score(item, Repair) == 10 + (if RepairIsCheap(item) then 15 else 0)
                                      + (if item.hasActiveWarranty then 10 else 0)
  {
  }

  /** The 40% threshold for a non-negative replacement cost, without
      division: the repair bonus applies exactly when one more cent of
      repair would still be within 40% of the replacement. */
  lemma RepairThresholdExact(item: Item)
    requires item.averageRepairCostInCents.Some? && item.bestReplacementCostInCents.Some?
    requires 0 <= item.bestReplacementCostInCents.value
    requires InRange(item.bestReplacementCostInCents.value * 40)
    ensures RepairIsCheap(item) <==>
      100 * (item.averageRepairCostInCents.value + 1) <= 40 * item.bestReplacementCostInCents.value
  {
  }

  /** An illustration of the truncation: a replacement cost of 99 cents gives
      a threshold of 39 (not 39.6), so an average repair of 39 cents earns no
      bonus, while 38 does. */
  lemma RepairThresholdTruncates(item: Item)
    requires item.bestReplacementCostInCents == Some(99)
    ensures item.averageRepairCostInCents == Some(39) ==> !RepairIsCheap(item)
    ensures item.averageRepairCostInCents == Some(38) ==> RepairIsCheap(item)
  {
  }

  /** The alternatives bonus is exactly the explicit "would not buy again":
      `nil` does not trigger it. */
  lemma AlternativesOnlyOnExplicitNo(item: Item)
    ensures Score(item, Alternatives) == 15 <==> item.wouldBuyAgain == Some(false)
    ensures item.wouldBuyAgain.None? ==> Score(item, Alternatives) == 0
  {
  }

  /** No rule adds to `replace` and `repair` never drops below 10, so
      `replace` is never a strict-or-tied maximum. */
  lemma ReplaceNeverTopScored(item: Item)
    ensures Score(item, Replace) < Score(item, Repair)
    ensures !IsTopScored(item, Replace)
  {
  }

  // ---------------------------------------------------------------------------
  // Anti-pattern 11, fixed: skip the picker when only one item is eligible.

  /** `SmartPicker`: its `@State` flags and selection. */
  class SmartPicker {
    const eligibleItems: seq<Item>
    var showingPicker: bool
    var showingFeature: bool
    var selectedItem: Option<Item>

    /** The feature is only ever shown with an eligible item selected, and
        with a single eligible item the picker never opens. */
    ghost predicate Valid()
      reads this
    {
      && (showingFeature ==> selectedItem.Some?)
      && (selectedItem.Some? ==> selectedItem.value in eligibleItems)
      && (|eligibleItems| == 1 ==> !showingPicker)
    }

    constructor (eligibleItems: seq<Item>)
      ensures Valid()
      ensures this.eligibleItems == eligibleItems
      ensures !showingPicker && !showingFeature && selectedItem == None
    {
      this.eligibleItems := eligibleItems;
      showingPicker := false;
      showingFeature := false;
      selectedItem := None;
    }

    /** The "Start Feature" button. */
    method StartFeature()
      requires Valid()
      modifies this
      ensures Valid()
      ensures |eligibleItems| == 1 ==>
        && selectedItem == Some(eligibleItems[0])
        && showingFeature
        && showingPicker == old(showingPicker)
      ensures |eligibleItems| != 1 ==>
        && showingPicker
        && showingFeature == old(showingFeature)
        && selectedItem == old(selectedItem)
    {
      if |eligibleItems| == 1 {
        selectedItem := Some(eligibleItems[0]);
        showingFeature := true;
      } else {
        showingPicker := true;
      }
    }
  }
}
