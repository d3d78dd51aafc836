/**
  The header row `save_to_bigquery` loads into the warehouse: a fixed list of
  columns, each copied from the order document `d` returned by the ERP under
  the same key name, with `d.get` giving null for a key that is missing.
  JSON values of `d` are kept as strings.
 */
module Projection {
  import opened Wrappers

  /** The response keys copied into the header row, in the order of the row literal. */
  const SavedColumns: seq<string> := [
    "SalesOrderWithoutCharge",
    "SalesOrderWithoutChargeType",
    "SalesOrganization",
    "DistributionChannel",
    "OrganizationDivision",
    "SoldToParty",
    "PurchaseOrderByCustomer",
    "SalesOrderWithoutChargeDate",
    "RequestedDeliveryDate",
    "TransactionCurrency",
    "OverallSDProcessStatus",
    "OverallTotalDeliveryStatus"
  ]

  /** The key holding the order number the ERP assigned. */
  const OrderNumberKey := "SalesOrderWithoutCharge"

  /** `d.get(key)`: the value under `key`, or null when it is missing. */
  function Get(d: map<string, string>, key: string): Option<string>
  {
    if key in d then Some(d[key]) else None
  }

  /** The header row for one ERP order document. */
  function HeaderRow(d: map<string, string>): (row: map<string, Option<string>>)
    ensures row.Keys == set k | k in SavedColumns
    ensures forall k :: k in row ==> (row[k].Some? <==> k in d)
    ensures forall k :: k in row && k in d ==> row[k] == Some(d[k])
  {
    map k | k in SavedColumns :: Get(d, k)
  }

  /**
    Only the listed keys matter: two documents that agree on every saved
    column give the same row, whatever else they hold.
   */
  lemma HeaderRowIgnoresOtherKeys(d: map<string, string>, e: map<string, string>)
    requires forall k :: k in SavedColumns ==> Get(d, k) == Get(e, k)
    ensures HeaderRow(d) == HeaderRow(e)
  {
  }
}
