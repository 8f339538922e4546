/**
 * The record shapes of types.ts that the raw-text parser and the class-based
 * watcher use. A field that JavaScript may leave `undefined` (an element
 * index past the end of a segment) is an `Option<string>`.
 */
module Types {
  import opened Wrappers

  /** One tagged EDI record: the tag and the elements after it, in order. */
  datatype EdiSegment = EdiSegment(tag: string, elements: seq<string>)

  datatype Header = Header(
    senderId: Option<string>,
    receiverId: Option<string>,
    poNumber: Option<string>,
    date: Option<string>)

  datatype Party = Party(name: Option<string>, accountNumber: Option<string>)

  /**
   * One PO1 line. `quantity` and `price` hold the element text that the
   * source hands to `parseFloat`; the number itself is not modelled.
   */
  datatype PoItem = PoItem(
    lineNumber: Option<string>,
    quantity: Option<string>,
    uom: Option<string>,
    price: Option<string>,
    productId: Option<string>)

  /** `totalItems`: the initial `0`, or `parseInt` applied to a CTT element's text. */
  datatype Total = Zero | ParseIntOf(text: Option<string>)

  datatype PurchaseOrder = PurchaseOrder(
    header: Header,
    billTo: Party,
    shipTo: Party,
    items: seq<PoItem>,
    totalItems: Total)

  /** Connection settings of the remote directory. */
  datatype FtpConfig = FtpConfig(
    host: string,
    port: nat,
    username: string,
    password: string,
    directory: string)
}
