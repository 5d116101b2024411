# Workflow patterns: the logic inside the examples, verified

The repository is a catalogue of SwiftUI workflow patterns: "bad" snippets
paired with their fixes (`bad-patterns.swift`) and a set of recommended
patterns (`good-patterns.swift`). Most of it is view code. This project
models the small amount of real logic inside the snippets and proves what
those snippets promise:

- **Decision and scoring** (`BadPatterns`): `ComprehensiveDecision.computePath`.
  It gives each decision path an additive integer score, then picks a path with
  the highest score. (`GoodPatterns`): `GoodDecisionEngine.computeConfidence`.
  It counts the non-nil optional fields of an item and buckets that count into a
  confidence level.
- **Data derivation**: `GoodDataWiring.averageRepairCost` and `bestReplacementCost`.
  Also `RealDataView.fetchRepairInfo`, which builds the set of distinct
  non-empty issue descriptions.
- **UI state machines**: `SmartPicker`, `OptimizedItemFlow`, `GoodItemPickerFlow`
  and `GoodDeleteFlow`. Each is a class whose fields are the view's `@State`
  flags and selection. Each button or callback is a method.
- **Exhaustive sheet dispatch**: `fixedSheetContent` and `sheetContent`. Each
  is a total `match` over a datatype, paired with an inverse that shows every
  case gets a view of its own.

Swift's `Int` is 64 bits wide on a 64-bit platform, which this model assumes. `+` and `*` trap on overflow, and `/` truncates
toward zero. Module `SwiftInt` models this explicitly. `computePath` evaluates
`replacement * 40`, and `averageRepairCost` evaluates `reduce(0, +)`; both
return `Checked.Trap` exactly where the Swift code would trap. The other
arithmetic in the core works on small bounded counters and cannot overflow.

Files: `wrappers.dfy` (Option), `swift_int.dfy` (Swift integer semantics),
`inventory.dfy` (the `Item` and `RMARecord` records, reduced to the fields the
core reads), `sheets.dfy` (the sheet screens), `bad_patterns.dfy`, `good_patterns.dfy`.

The repository's code contains no rule-based audit engine that detects these
patterns mechanically. None is modelled here: the model follows the code.

## Model

| member | source | states |
|---|---|---|
| `BadPatterns.ComputePath` | skills/workflow-audit/agents-skill/examples/bad-patterns.swift:303-337 | traps exactly when both costs are known and `replacement * 40` overflows; otherwise returns a path whose score is maximal among all four paths, and never `.replace` |
| `BadPatterns.MaxByValue` | skills/workflow-audit/agents-skill/examples/bad-patterns.swift:336 | `max(by:)` over a dictionary visited in an unspecified order: `nil` exactly for an empty dictionary, otherwise a key whose value no other key exceeds |
| `BadPatterns.ScoresOnlyGrow` | skills/workflow-audit/agents-skill/examples/bad-patterns.swift:304-334 | an item with no data and no warranty scores repair 10, keep 0, replace 0, alternatives 0; every path's final score lies between its starting score and 25 above it |
| `BadPatterns.RepairBonusNeedsBothCosts` | skills/workflow-audit/agents-skill/examples/bad-patterns.swift:312-316 | with either the average repair cost or the best replacement cost unknown, the repair score is 10 plus the warranty bonus only |
| `BadPatterns.RepairThresholdExact` | skills/workflow-audit/agents-skill/examples/bad-patterns.swift:312-316 | for a non-negative replacement cost whose `* 40` does not trap, the repair bonus applies exactly when `100 * (repair + 1) <= 40 * replacement` |
| `BadPatterns.RepairThresholdTruncates` | skills/workflow-audit/agents-skill/examples/bad-patterns.swift:314 | an illustration of the threshold's integer division: replacement 99 gives threshold 39, so an average repair of 39 earns no bonus and 38 does |
| `BadPatterns.AlternativesOnlyOnExplicitNo` | skills/workflow-audit/agents-skill/examples/bad-patterns.swift:327-329 | the alternatives score is 15 exactly when `wouldBuyAgain` is explicitly false; an unknown answer leaves it at 0 |
| `BadPatterns.ReplaceNeverTopScored` | skills/workflow-audit/agents-skill/examples/bad-patterns.swift:304-336 | replace always scores below repair, so replace is never a maximal path |
| `BadPatterns.FixedSheetContent` | skills/workflow-audit/agents-skill/examples/bad-patterns.swift:139-148 | a total `switch` over the three cases in which `orphanedFeature`, and only it, is handled by the orphaned feature's view; the inverse lemmas below give each case a view of its own |
| `BadPatterns.FixedSheetContentHandlesEveryCase` | skills/workflow-audit/agents-skill/examples/bad-patterns.swift:139-148 | every `BadSheetType` case, `orphanedFeature` included, is dispatched to a view that belongs to that case alone |
| `BadPatterns.FixedSheetContentOnlyHandlerViews` | skills/workflow-audit/agents-skill/examples/bad-patterns.swift:139-148 | each handler view is produced by the case it handles: the dispatch and its inverse agree both ways |
| `BadPatterns.Issues` | skills/workflow-audit/agents-skill/examples/bad-patterns.swift:270-272 | a string is kept if and only if it is non-empty and is the issue description of some record; there are no more strings than records |
| `BadPatterns.FailurePointSet` | skills/workflow-audit/agents-skill/examples/bad-patterns.swift:270-277 | empty with no records; never contains the empty string; contains exactly the non-empty issue descriptions of the records |
| `BadPatterns.ArrayOfSet` | skills/workflow-audit/agents-skill/examples/bad-patterns.swift:277 | `Array(Set(...))` lists each element of the set exactly once, with no duplicates and nothing else |
| `BadPatterns.RealDataView.constructor` | skills/workflow-audit/agents-skill/examples/bad-patterns.swift:263-265 | the view starts with no repair information |
| `BadPatterns.RealDataView.FetchRepairInfo` | skills/workflow-audit/agents-skill/examples/bad-patterns.swift:267-279 | sets the repair information: the category's score, the formatted average repair cost if known, and failure points that are duplicate-free and exactly the failure-point set |
| `BadPatterns.SmartPicker.constructor` | skills/workflow-audit/agents-skill/examples/bad-patterns.swift:374-377 | the picker and the feature start hidden, with nothing selected |
| `BadPatterns.SmartPicker.StartFeature` | skills/workflow-audit/agents-skill/examples/bad-patterns.swift:380-388 | with exactly one eligible item: selects it, shows the feature, leaves the picker flag alone; otherwise only opens the picker; keeps "feature shown ⇒ an eligible item is selected" and "one item ⇒ picker never open" |
| `SwiftInt.Add` | skills/workflow-audit/agents-skill/examples/good-patterns.swift:202 | Swift's `+` on `Int`: traps exactly when the sum leaves the 64-bit range, otherwise yields the sum |
| `SwiftInt.Mul` | skills/workflow-audit/agents-skill/examples/bad-patterns.swift:314 | Swift's `*` on `Int`: traps exactly when the product leaves the 64-bit range, otherwise yields the product |
| `SwiftInt.TruncDiv` | skills/workflow-audit/agents-skill/examples/bad-patterns.swift:314 | Swift's `/`: the remainder is smaller than the divisor and has the sign of the dividend; the quotient is no larger in magnitude than the dividend |
| `GoodPatterns.AppSheetType.RawValue` | skills/workflow-audit/agents-skill/examples/good-patterns.swift:9 | the synthesized raw value of each case, its name; `RawValueRoundTrip` states that `init?(rawValue:)` recovers the case from it |
| `GoodPatterns.AppSheetType.Id` | skills/workflow-audit/agents-skill/examples/good-patterns.swift:15 | `id` identifies its case: `init?(rawValue:)` applied to the id gives back the same sheet |
| `GoodPatterns.AppSheetFromRawValue` | skills/workflow-audit/agents-skill/examples/good-patterns.swift:9 | the synthesized `init?(rawValue:)` only returns a case whose raw value is the given string |
| `GoodPatterns.RawValueRoundTrip` | skills/workflow-audit/agents-skill/examples/good-patterns.swift:9-15 | every case is recovered from its raw value, and `id` is the raw value |
| `GoodPatterns.IdsAreDistinct` | skills/workflow-audit/agents-skill/examples/good-patterns.swift:15 | two sheets with the same `id` are the same sheet, as `Identifiable` needs |
| `GoodPatterns.SheetContent` | skills/workflow-audit/agents-skill/examples/good-patterns.swift:30-42 | a total `switch`: every case gets a view the app registers, never the orphaned feature's view; `SheetContentHandlesEveryCase` shows each case has its own |
| `GoodPatterns.SheetContentHandlesEveryCase` | skills/workflow-audit/agents-skill/examples/good-patterns.swift:30-42 | all four `AppSheetType` cases are dispatched, each to a view that belongs to that case alone |
| `GoodPatterns.GoodItemPickerFlow.constructor` | skills/workflow-audit/agents-skill/examples/good-patterns.swift:68-70 | nothing selected and the feature hidden at first |
| `GoodPatterns.GoodItemPickerFlow.Choose` | skills/workflow-audit/agents-skill/examples/good-patterns.swift:74-77 | choosing an item both records it and shows the feature, keeping "feature shown ⇒ an eligible item is selected" |
| `GoodPatterns.GoodItemPickerFlow.DismissFeature` | skills/workflow-audit/agents-skill/examples/good-patterns.swift:79 | dismissing the sheet hides the feature and keeps the selection |
| `GoodPatterns.GoodItemPickerFlow.FeatureSheetItem` | skills/workflow-audit/agents-skill/examples/good-patterns.swift:79-83 | while the feature is shown, the sheet displays exactly `selectedItem`, which is eligible; otherwise it shows nothing |
| `GoodPatterns.OptimizedItemFlow.constructor` | skills/workflow-audit/agents-skill/examples/good-patterns.swift:91-94 | the picker and the feature start hidden, with nothing selected |
| `GoodPatterns.OptimizedItemFlow.UseFeature` | skills/workflow-audit/agents-skill/examples/good-patterns.swift:97-105 | with exactly one item: selects it and shows the feature without opening the picker; otherwise only opens the picker |
| `GoodPatterns.OptimizedItemFlow.PickerChose` | skills/workflow-audit/agents-skill/examples/good-patterns.swift:107-111 | the picker callback, which fires only while the picker is open, sets the selection, closes the picker and shows the feature |
| `GoodPatterns.OptimizedItemFlow.DismissPicker` | skills/workflow-audit/agents-skill/examples/good-patterns.swift:106 | dismissing the picker sheet closes it and changes nothing else |
| `GoodPatterns.OptimizedItemFlow.DismissFeature` | skills/workflow-audit/agents-skill/examples/good-patterns.swift:113 | dismissing the feature sheet hides it and changes nothing else |
| `GoodPatterns.OptimizedItemFlow.FeatureSheetItem` | skills/workflow-audit/agents-skill/examples/good-patterns.swift:113-117 | the feature sheet has an item to show exactly when it is shown, and that item is `selectedItem`; with a single eligible item it is that item |
| `GoodPatterns.GoodDeleteFlow.constructor` | skills/workflow-audit/agents-skill/examples/good-patterns.swift:167-169 | no dialog is shown, it has never been presented, and nothing has been deleted |
| `GoodPatterns.GoodDeleteFlow.TapDelete` | skills/workflow-audit/agents-skill/examples/good-patterns.swift:172-175 | tapping Delete only presents the confirmation dialog (one more presentation when it was closed, none when already open) and deletes nothing |
| `GoodPatterns.GoodDeleteFlow.ConfirmDelete` | skills/workflow-audit/agents-skill/examples/good-patterns.swift:181-183 | only available while the dialog is shown; calls `onDelete` once and closes the dialog without a new presentation, so every deletion uses up one presentation of the dialog |
| `GoodPatterns.GoodDeleteFlow.CancelDelete` | skills/workflow-audit/agents-skill/examples/good-patterns.swift:184 | Cancel closes the dialog without deleting and without a new presentation |
| `GoodPatterns.CompletedCosts` | skills/workflow-audit/agents-skill/examples/good-patterns.swift:200 | a cost is counted if and only if it is the known cost of some completed record |
| `GoodPatterns.CompletedCostsAppend` | skills/workflow-audit/agents-skill/examples/good-patterns.swift:200 | filtering a concatenation of record lists is the concatenation of the filtered lists |
| `GoodPatterns.CheckedSum` | skills/workflow-audit/agents-skill/examples/good-patterns.swift:202 | `reduce(0, +)` succeeds exactly when every partial sum fits in 64 bits, and then yields the sum |
| `GoodPatterns.AverageRepairCost` | skills/workflow-audit/agents-skill/examples/good-patterns.swift:198-203 | nil exactly when there are no records or no completed record has a cost; traps exactly on sum overflow; otherwise the truncated mean of the counted costs, between the smallest and the largest of them |
| `GoodPatterns.MeanWithinRange` | skills/workflow-audit/agents-skill/examples/good-patterns.swift:202 | the truncated mean of a non-empty list lies between its minimum and its maximum |
| `GoodPatterns.BestReplacementCost` | skills/workflow-audit/agents-skill/examples/good-patterns.swift:206-210 | nil exactly when none of market price, manual replacement cost and purchase price is known; otherwise the first of them that is known |
| `GoodPatterns.ComputeConfidence` | skills/workflow-audit/agents-skill/examples/good-patterns.swift:241-256 | the level is the bucket of the number of non-nil fields among the six |
| `GoodPatterns.DataPointsCountsKnownFields` | skills/workflow-audit/agents-skill/examples/good-patterns.swift:243-249 | the counter equals the number of distinct non-nil fields among the six, so it lies in 0..6 |
| `GoodPatterns.CountKnownMonotone` | skills/workflow-audit/agents-skill/examples/good-patterns.swift:243-249 | an item that has every field another item has scores at least as many data points |
| `GoodPatterns.MoreDataNeverLowersConfidence` | skills/workflow-audit/agents-skill/examples/good-patterns.swift:243-255 | making more fields non-nil never lowers the confidence level |
| `GoodPatterns.ConfidenceBuckets` | skills/workflow-audit/agents-skill/examples/good-patterns.swift:251-255 | high for 5 or more known fields, medium for 3 or 4, exploratory for 2 or fewer |

## Left out

- View bodies, modifiers, images and labels are left out: they are UI with no logic to state. This covers the promotion, dead-end, bulk-edit and AI cross-link cards. Their buttons only assign bindings or view state: one each, except the bulk-edit cards (`FixedBulkEditCard`, `GoodBulkActionCard`), whose button sets both `selectedSection` and `isSelectMode`; `GoodAICrossLink`'s button sets its own `@State` flag `showingAI`.
- `.sheet` / `.confirmationDialog` presentation is modelled only as its effect on the `isPresented` flags. Dismissing a sheet resets its flag, and the dialog closes after either of its buttons runs.
- `modelContext.save`, `ToastManager` and `dismiss` (the save-feedback patterns) are left out: they are persistence and framework calls.
- `MockFetchView` is left out: its `asyncAfter` is timing and concurrency, and its data is hard-coded on purpose.
- `SimplisticDecision.computePath` is left out: it uses `Double` arithmetic.
- `badSheetContent` is left out: its `switch` is non-exhaustive and would not compile. A Dafny `match` must be exhaustive, so only the fixed form can be written.
- `InconsistentAccess`, `ConsistentAccess`, `ConsistentAccessPattern` and the platform-parity example are left out: they use undeclared symbols or are comments only.
- `UnnecessaryPicker`, `DangerousDelete` and `SafeDelete` are left out. They illustrate the same two flows as `SmartPicker` and `GoodDeleteFlow`.
- `categoryRepairScore(for:)` and `formatCents` are not part of this model. `BadPatterns.RealDataView.FetchRepairInfo` takes the category's score and the formatting function as parameters.
- `ItemPickerView` is not part of this model. `GoodPatterns.OptimizedItemFlow.PickerChose` accepts any item while the picker is open, so that flow's invariant does not claim the selection is eligible.
- The declarations of `Item`, `RMARecord`, `Condition`, `RMAStatus`, `DecisionPath` and `ConfidenceLevel` are not in these files. `Item` stores `averageRepairCostInCents` and `bestReplacementCostInCents` as plain fields. Whether they coincide with `GoodDataWiring`'s computed properties is not visible. Enum cases that are never named are folded into `Other` and `NotCompleted`.
- `BadPatterns.ComputePath` promises only "some maximal path". Swift's dictionary iteration order, which breaks ties, is unspecified. The model picks entries in an arbitrary order, and its contract holds for every order.
- `GoodPatterns.GoodDeleteFlow.ConfirmDelete` records `onDelete` calls as a counter: the callback itself is foreign code.
- `BadPatterns.FailurePointSet`: issue descriptions are compared as exact character sequences. Swift's `String ==` and `Set<String>` treat canonically equivalent strings (such as a precomposed and a decomposed "é") as equal; the model keeps both.
- `BadPatterns.RealDataView.FetchRepairInfo`: its failure points are duplicate-free by exact character sequence, not by Swift's canonical equivalence, for the same reason.
- `BadPatterns.SmartPicker`, `GoodPatterns.GoodItemPickerFlow` and `GoodPatterns.OptimizedItemFlow` fix `eligibleItems` when the view is created. In SwiftUI it is a view input that a parent re-render can replace while the `@State` flags and selection persist; such re-renders are not modelled. The invariants "the selection is eligible" and "one item ⇒ the picker never opens", and `OptimizedItemFlow.FeatureSheetItem`'s one-item clause, hold only for a list that stays fixed.
