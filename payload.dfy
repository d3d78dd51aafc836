/**
  The payload builder: one group of spreadsheet rows (all sharing a
  SoldToParty and a PO_Number) becomes one "sales order without charge"
  request document, a header plus one item per row under `to_Item.results`.
  Every cell is taken after `str()`, so a cell is a string here.
 */
module Payload {

  /** One spreadsheet row, restricted to the columns the builder reads. */
  datatype Row = Row(
    soldToParty: string,
    poNumber: string,
    item: string,
    material: string,
    qty: string,
    plant: string,
    storageLocation: string,
    shippingPoint: string)

  /** One entry of `to_Item.results`; each field is the JSON key of the same name. */
  datatype Item = Item(
    salesOrderWithoutChargeItem: string,
    slsOrdWthoutChrgItemCategory: string,
    purchaseOrderByCustomer: string,
    material: string,
    requestedQuantity: string,
    requestedQuantityUnit: string,
    transactionCurrency: string,
    netAmount: string,
    plant: string,
    storageLocation: string,
    shippingPoint: string)

  /** The request document: the header keys, and `to_Item.results` as `items`. */
  datatype SalesOrder = SalesOrder(
    salesOrderWithoutChargeType: string,
    salesOrganization: string,
    distributionChannel: string,
    organizationDivision: string,
    soldToParty: string,
    purchaseOrderByCustomer: string,
    salesOrderWithoutChargeDate: string,
    requestedDeliveryDate: string,
    transactionCurrency: string,
    sdDocumentReason: string,
    shippingCondition: string,
    incotermsClassification: string,
    incotermsTransferLocation: string,
    incotermsLocation1: string,
    items: seq<Item>)

  // Fixed business values of a free-of-charge order.
  const ItemCategory := "CBXN"
  const QuantityUnit := "EA"
  const Currency := "INR"
  const ZeroAmount := "0"
  const OrderType := "CBFD"
  const SalesOrg := "2000"
  const Channel := "10"
  const Division := "00"
  const DocumentReason := "001"
  const ShippingCond := "CC"
  const Incoterms := "FOB"
  const IncotermsPlace := "KA"

  /** The item dictionary built for one row; `po` is the group's PO from its first row. */
  function ItemOf(row: Row, po: string): Item
  {
    Item(row.item, ItemCategory, po, row.material, row.qty, QuantityUnit,
         Currency, ZeroAmount, row.plant, row.storageLocation, row.shippingPoint)
  }

  /** The header dictionary literal around an already built item list. */
  function HeaderOf(first: Row, todayDate: string, items: seq<Item>): SalesOrder
  {
    SalesOrder(OrderType, SalesOrg, Channel, Division,
               first.soldToParty, first.poNumber, todayDate, todayDate,
               Currency, DocumentReason, ShippingCond,
               Incoterms, IncotermsPlace, IncotermsPlace, items)
  }

  /** The document the builder produces for a group: item i is built from row i. */
  function GroupPayload(group: seq<Row>, todayDate: string): SalesOrder
    requires |group| > 0
  {
    HeaderOf(group[0], todayDate, seq(|group|, i requires 0 <= i < |group| => ItemOf(group[i], group[0].poNumber)))
  }

  /** All rows of a group carry the group's key (what the grouping guarantees). */
  ghost predicate SharesKey(group: seq<Row>)
  {
    forall i :: 0 <= i < |group| ==>
      group[i].soldToParty == group[0].soldToParty && group[i].poNumber == group[0].poNumber
  }

  /** Every fixed value the builder writes, in the header and in each item, and the single date. */
  ghost predicate CarriesConstants(p: SalesOrder, todayDate: string)
  {
    && p.salesOrderWithoutChargeType == OrderType
    && p.salesOrganization == SalesOrg
    && p.distributionChannel == Channel
    && p.organizationDivision == Division
    && p.salesOrderWithoutChargeDate == todayDate
    && p.requestedDeliveryDate == todayDate
    && p.transactionCurrency == Currency
    && p.sdDocumentReason == DocumentReason
    && p.shippingCondition == ShippingCond
    && p.incotermsClassification == Incoterms
    && p.incotermsTransferLocation == IncotermsPlace
    && p.incotermsLocation1 == IncotermsPlace
    && forall i :: 0 <= i < |p.items| ==>
         && p.items[i].slsOrdWthoutChrgItemCategory == ItemCategory
         && p.items[i].purchaseOrderByCustomer == p.purchaseOrderByCustomer
         && p.items[i].requestedQuantityUnit == QuantityUnit
         && p.items[i].transactionCurrency == Currency
         && p.items[i].netAmount == ZeroAmount
  }

  /** Reads the rows back out of a document: the inverse of the builder. */
  function RowsOf(p: SalesOrder): (rows: seq<Row>)
    ensures |rows| == |p.items|
  {
    seq(|p.items|, i requires 0 <= i < |p.items| =>
      var it := p.items[i];
      Row(p.soldToParty, it.purchaseOrderByCustomer, it.salesOrderWithoutChargeItem, it.material,
          it.requestedQuantity, it.plant, it.storageLocation, it.shippingPoint))
  }

  /**
    `build_group_payload`: take the customer and PO from the first row, then
    append one item per row, in row order, and wrap the list in the header.
   */
  method BuildGroupPayload(group: seq<Row>, todayDate: string) returns (p: SalesOrder)
    requires |group| > 0
    ensures p == GroupPayload(group, todayDate)
  {
    var first := group[0];
    var po := first.poNumber;
    var items: seq<Item> := [];
    var i := 0;
    while i < |group|
      invariant 0 <= i <= |group|
      invariant |items| == i
      invariant forall j :: 0 <= j < i ==> items[j] == ItemOf(group[j], po)
    {
      var row := group[i];
      items := items + [ItemOf(row, po)];
      i := i + 1;
    }
    p := HeaderOf(first, todayDate, items);
  }

  /** One item per row, in row order, each copying its row's six cells and the group's PO. */
  lemma ItemsFollowRows(group: seq<Row>, todayDate: string)
    requires |group| > 0
    ensures var p := GroupPayload(group, todayDate);
      && |p.items| == |group|
      && p.soldToParty == group[0].soldToParty
      && p.purchaseOrderByCustomer == group[0].poNumber
      && forall i :: 0 <= i < |group| ==>
           && p.items[i].salesOrderWithoutChargeItem == group[i].item
           && p.items[i].material == group[i].material
           && p.items[i].requestedQuantity == group[i].qty
           && p.items[i].plant == group[i].plant
           && p.items[i].storageLocation == group[i].storageLocation
           && p.items[i].shippingPoint == group[i].shippingPoint
           && p.items[i].purchaseOrderByCustomer == group[0].poNumber
  {
  }

  /** The builder writes every fixed value and the one date it is given. */
  lemma PayloadCarriesConstants(group: seq<Row>, todayDate: string)
    requires |group| > 0
    ensures CarriesConstants(GroupPayload(group, todayDate), todayDate)
  {
  }

  /** For a group whose rows share its key, the document gives back exactly the group. */
  lemma PayloadRoundTrip(group: seq<Row>, todayDate: string)
    requires |group| > 0 && SharesKey(group)
    ensures RowsOf(GroupPayload(group, todayDate)) == group
  {
  }

  /**
    Conversely, a document that carries the constants is fixed by the rows it
    gives back: two such documents with the same rows and date are equal, so
    `RowsOf` and `CarriesConstants` together characterise the builder.
   */
  lemma {:induction false} RowsDetermineDocument(p: SalesOrder, q: SalesOrder, todayDate: string)
    requires CarriesConstants(p, todayDate) && CarriesConstants(q, todayDate)
    requires RowsOf(p) == RowsOf(q) && |p.items| > 0
    ensures p == q
  {
    assert RowsOf(p)[0] == RowsOf(q)[0];
    forall i | 0 <= i < |p.items| ensures p.items[i] == q.items[i] {
      assert RowsOf(p)[i] == RowsOf(q)[i];
    }
  }

  /**
    Changing only the quantity of row k changes only the quantity of item k:
    the header and every other item stay as they were.
   */
  lemma QuantityEditIsLocal(group: seq<Row>, todayDate: string, k: nat, qty: string)
    requires k < |group|
    ensures var p := GroupPayload(group, todayDate);
      GroupPayload(group[k := group[k].(qty := qty)], todayDate)
        == p.(items := p.items[k := p.items[k].(requestedQuantity := qty)])
  {
  }

}
