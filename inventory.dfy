/** The host application's domain records, reduced to the fields that the
    decision, confidence and repair-data code reads. The declarations of these
    types are not part of this model; field types follow their uses. */
module Inventory {
  import opened Wrappers
  import opened SwiftInt

  /** Condition of an item. Only `excellent` and `good` are read by name; every
      other case of the host enum is represented by `Other`. */
  datatype Condition = Excellent | Good | Other

  /** Status of a return/repair (RMA) record. Only `completed` is read by name. */
  datatype RMAStatus = Completed | NotCompleted

  datatype RMARecord = RMARecord(
    status: RMAStatus,
    repairCostInCents: Option<Int64>,
    issueDescription: Option<string>)

  datatype Item = Item(
    userRating: Option<Int64>,
    wouldBuyAgain: Option<bool>,
    expectedLifespanYears: Option<Int64>,
    averageRepairCostInCents: Option<Int64>,
    bestReplacementCostInCents: Option<Int64>,
    hasActiveWarranty: bool,
    condition: Option<Condition>,
    rmaRecords: Option<seq<RMARecord>>,
    currentMarketPriceInCents: Option<Int64>,
    replacementCostInCents: Option<Int64>,
    priceInCents: Option<Int64>)
}
