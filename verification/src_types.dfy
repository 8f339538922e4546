/**
 * The normalized purchase order the ingestion service stores, as
 * `normalize` builds it from the JSON the EDI reading service returns.
 * Every field holds whatever JSON value it was copied from; `None` is
 * `undefined`.
 */
module SrcTypes {
  import opened Wrappers
  import opened Json

  datatype Header = Header(
    senderId: Option<Json>,
    senderQualifier: Option<Json>,
    receiverId: Option<Json>,
    receiverQualifier: Option<Json>,
    poNumber: Option<Json>,
    controlNumber: Option<Json>,
    date: Option<Json>)

  /** A party's name and customer id: the value found, or `''` when it is falsy. */
  datatype Party = Party(name: Json, customerId: Json)

  /** `parseInt(raw, 10)` and `parseFloat(raw)`, kept as the value they are applied to. */
  datatype Parsed = ParseIntOf(raw: Option<Json>) | ParseFloatOf(raw: Option<Json>)

  datatype Item = Item(
    lineNumber: Option<Json>,
    quantity: Parsed,
    uom: Option<Json>,
    price: Parsed,
    productId: Option<Json>)

  datatype PurchaseOrder = PurchaseOrder(
    header: Header,
    billTo: Party,
    shipTo: Party,
    items: seq<Item>,
    totalItems: nat)
}
