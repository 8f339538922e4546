/**
 * `normalize`: turns the interchanges the EDI reading service returns into
 * one normalized purchase order, taken from the first 850 transaction of
 * the first functional group of the first interchange. Keys are lowered
 * first, so the lookups below are case-insensitive.
 */
module Normalize {
  import opened Wrappers
  import opened Json
  import opened EdinationUtils
  import opened SrcTypes

  /** The errors `normalize` throws: its own three, or one raised by JavaScript itself. */
  datatype NormalizeError = NoInterchangeData | NoFunctionalGroup | No850Transaction | Raised(e: JsError)

  /** `undefined` when the input is not an array, a thrown error, or the order. */
  datatype Outcome = NotArray | Threw(error: NormalizeError) | Normalized(po: PurchaseOrder)

  /** `v.k1.k2` */
  function Path(v: Option<Json>, k1: string, k2: string): Result<Option<Json>, JsError> {
    match Get(v, k1)
    case Failure(e) => Failure(e)
    case Success(inner) => Get(inner, k2)
  }

  /** The three `find` callbacks. */
  datatype Search = Is850 | BillToEntity | ShipToEntity

  /**
   * The callback's answer for one element: the transaction set code is
   * "850", the entity code is "BY" or "BT", or the entity code is "ST".
   */
  function Matches(s: Search, v: Json): Result<bool, JsError> {
    match s
    case Is850 =>
      (match Path(Some(v), "st", "transactionsetidentifiercode_01")
       case Failure(e) => Failure(e)
       case Success(code) => Success(code == Some(Str("850"))))
    case BillToEntity =>
      (match Path(Some(v), "n1", "entityidentifiercode_01")
       case Failure(e) => Failure(e)
       case Success(code) => Success(code == Some(Str("BY")) || code == Some(Str("BT"))))
    case ShipToEntity =>
      (match Path(Some(v), "n1", "entityidentifiercode_01")
       case Failure(e) => Failure(e)
       case Success(code) => Success(code == Some(Str("ST"))))
  }

  /** The callback answers `false` for every element before index `i`. */
  predicate MissedBefore(items: seq<Json>, s: Search, i: nat)
    requires i <= |items|
  {
    forall j :: 0 <= j < i ==> Matches(s, items[j]) == Success(false)
  }

  /** Index `i` holds the first element the callback accepts, with no exception before it. */
  predicate FirstAccepted(items: seq<Json>, s: Search, i: nat) {
    i < |items| && MissedBefore(items, s, i) && Matches(s, items[i]) == Success(true)
  }

  /**
   * `items.find(cb)`: the first element the callback accepts, `undefined`
   * when it accepts none, and the callback's exception when it throws first.
   */
  function Find(items: seq<Json>, s: Search): (r: Result<Option<Json>, JsError>)
    ensures r == Success(None) <==> MissedBefore(items, s, |items|)
    ensures r.Success? && r.value.Some? ==>
      exists i :: 0 <= i < |items| && MissedBefore(items, s, i)
        && Matches(s, items[i]) == Success(true) && items[i] == r.value.value
    ensures r.Failure? ==>
      exists i :: 0 <= i < |items| && MissedBefore(items, s, i) && Matches(s, items[i]).Failure?
  {
    if items == [] then Success(None)
    else
      match Matches(s, items[0])
      case Failure(e) => Failure(e)
      case Success(true) => Success(Some(items[0]))
      case Success(false) =>
        var r := Find(items[1..], s);
        assert forall j :: 0 <= j < |items| - 1 ==> items[1..][j] == items[j + 1];
        if r.Success? && r.value.Some? then
          var i :| 0 <= i < |items[1..]| && MissedBefore(items[1..], s, i)
            && Matches(s, items[1..][i]) == Success(true) && items[1..][i] == r.value.value;
          assert MissedBefore(items, s, i + 1);
          r
        else if r.Failure? then
          var i :| 0 <= i < |items[1..]| && MissedBefore(items[1..], s, i) && Matches(s, items[1..][i]).Failure?;
          assert MissedBefore(items, s, i + 1);
          r
        else
          r
  }

  /** `v.find(cb)`: anything but an array has no `find` to call. */
  function FindOn(v: Json, s: Search): Result<Option<Json>, JsError> {
    if v.Arr? then Find(v.items, s) else Failure(TypeError)
  }

  /** `v?.find(cb)`: `undefined` when `v` is `null` or `undefined`. */
  function FindIn(v: Option<Json>, s: Search): Result<Option<Json>, JsError> {
    if v == None || v == Some(Null) then Success(None) else FindOn(v.value, s)
  }

  /** One line item, read from `po1Item.po1`; a missing `po1` throws. */
  function ItemOf(v: Json): Result<Item, JsError> {
    match Get(Some(v), "po1")
    case Failure(e) => Failure(e)
    case Success(po1) =>
      if po1 == None || po1 == Some(Null) then Failure(TypeError)
      else Success(Item(
        GetOpt(po1, "assignedidentification_01"),
        ParseIntOf(GetOpt(po1, "quantityordered_02")),
        GetOpt(po1, "unitorbasisformeasurementcode_03"),
        ParseFloatOf(GetOpt(po1, "unitprice_04")),
        GetOpt(po1, "productserviceid_07")))
  }

  /** `items.map(...)`: one item per element, in order, unless an element throws. */
  function MapItems(items: seq<Json>): (r: Result<seq<Item>, JsError>)
    ensures r.Success? <==> forall i :: 0 <= i < |items| ==> ItemOf(items[i]).Success?
    ensures r.Success? ==> |r.value| == |items|
    ensures r.Success? ==> forall i :: 0 <= i < |items| ==> ItemOf(items[i]) == Success(r.value[i])
  {
    if items == [] then Success([])
    else
      match ItemOf(items[0])
      case Failure(e) => Failure(e)
      case Success(item) =>
        match MapItems(items[1..])
        case Failure(e) =>
          assert forall j :: 0 <= j < |items| - 1 ==> items[1..][j] == items[j + 1];
          Failure(e)
        case Success(rest) =>
          assert forall j :: 0 <= j < |items| - 1 ==> items[1..][j] == items[j + 1];
          Success([item] + rest)
  }

  /** `v.map(...)`: anything but an array has no `map` to call. */
  function MapOn(v: Json): Result<seq<Item>, JsError> {
    if v.Arr? then MapItems(v.items) else Failure(TypeError)
  }

  /** `{ name: p.n1?.name_02 || '', customerId: p.n1?.identificationcode_04 || '' }` */
  function PartyOf(p: Json): Party {
    Party(
      Or(GetOpt(GetOpt(Some(p), "n1"), "name_02"), Str("")),
      Or(GetOpt(GetOpt(Some(p), "n1"), "identificationcode_04"), Str("")))
  }

  /** The header, read from the group's GS, the interchange's ISA and the transaction's BEG and ST. */
  function HeaderOf(interchange: Json, group: Json, txn: Json): Result<Header, JsError> {
    var senderId := Path(Some(group), "gs", "senderidcode_2");
    var senderQualifier := Path(Some(interchange), "isa", "senderidqualifier_5");
    var receiverId := Path(Some(group), "gs", "receiveridcode_3");
    var receiverQualifier := Path(Some(interchange), "isa", "receiveridqualifier_7");
    var poNumber := Path(Some(txn), "beg", "purchaseordernumber_03");
    var controlNumber := Path(Some(txn), "st", "transactionsetcontrolnumber_02");
    var date := Path(Some(txn), "beg", "date_05");
    if senderId.Failure? || senderQualifier.Failure? || receiverId.Failure? || receiverQualifier.Failure?
      || poNumber.Failure? || controlNumber.Failure? || date.Failure?
    then Failure(TypeError)
    else Success(Header(senderId.value, senderQualifier.value, receiverId.value, receiverQualifier.value,
                        poNumber.value, controlNumber.value, date.value))
  }

  /** `transaction.n1loop || []`; the transaction is truthy, so reading it cannot throw. */
  function N1Loop(txn: Json): Json {
    Or(GetOpt(Some(txn), "n1loop"), Arr([]))
  }

  /** `transaction.po1loop || []` */
  function Po1Loop(txn: Json): Json {
    Or(GetOpt(Some(txn), "po1loop"), Arr([]))
  }

  /** The order built from the chosen 850 transaction. */
  function FromTransaction(interchange: Json, group: Json, txn: Json): Outcome {
    var n1Loop := N1Loop(txn);
    var billTo := FindOn(n1Loop, BillToEntity);
    var shipTo := FindOn(n1Loop, ShipToEntity);
    var items := MapOn(Po1Loop(txn));
    var header := HeaderOf(interchange, group, txn);
    if billTo.Failure? || shipTo.Failure? || items.Failure? || header.Failure? then Threw(Raised(TypeError))
    else
      Normalized(PurchaseOrder(
        header.value,
        PartyOf(Or(billTo.value, Obj([]))),
        PartyOf(Or(shipTo.value, Obj([]))),
        items.value,
        |items.value|))
  }

  /** The first 850 transaction of the first group, when there is one. */
  function FromGroup(interchange: Json, group: Json): Outcome {
    match Get(Some(group), "transactions")
    case Failure(e) => Threw(Raised(e))
    case Success(txns) =>
      match FindIn(txns, Is850)
      case Failure(e) => Threw(Raised(e))
      case Success(txn) =>
        if !Truthy(txn) then Threw(No850Transaction)
        else FromTransaction(interchange, group, txn.value)
  }

  /** `normalize(interchanges)` */
  function Normalize(input: Json): Outcome {
    if !input.Arr? then NotArray
    else if input.items == [] then Threw(NoInterchangeData)
    else
      var data := ToLowerCaseKeys(input).items;
      var interchange := data[0];
      match Get(Some(interchange), "groups")
      case Failure(e) => Threw(Raised(e))
      case Success(groups) =>
        var group := First(groups);
        if !Truthy(group) then Threw(NoFunctionalGroup)
        else FromGroup(interchange, group.value)
  }

  // ---------------------------------------------------------------- properties

  /** Only a non-array input returns `undefined`; only an empty array is "no interchange data". */
  lemma InputChecks(x: Json)
    ensures Normalize(x) == NotArray <==> !x.Arr?
    ensures Normalize(x) == Threw(NoInterchangeData) <==> x == Arr([])
  {
    if x.Arr? && x.items != [] {
      var data := ToLowerCaseKeys(x).items;
      match Get(Some(data[0]), "groups")
      case Failure(_) =>
      case Success(groups) =>
        var group := First(groups);
        if Truthy(group) {
          FromGroupNeverInputError(data[0], group.value);
        }
    }
  }

  lemma FromGroupNeverInputError(interchange: Json, group: Json)
    ensures FromGroup(interchange, group) != NotArray
    ensures FromGroup(interchange, group) != Threw(NoInterchangeData)
    ensures FromGroup(interchange, group) != Threw(NoFunctionalGroup)
  {
  }

  /** Lower-casing the keys first changes nothing: `normalize` is case-insensitive in its keys. */
  lemma KeyCaseIrrelevant(x: Json)
    ensures Normalize(ToLowerCaseKeys(x)) == Normalize(x)
  {
    if x.Arr? {
      ArraysMapElementwise(x.items);
      Idempotent(x);
    } else {
      if !x.Obj? {
        PrimitivesUnchanged(x);
      }
    }
  }

  /** Only the first interchange is read; the others may be anything. */
  lemma OnlyFirstInterchangeRead(first: Json, rest1: seq<Json>, rest2: seq<Json>)
    ensures Normalize(Arr([first] + rest1)) == Normalize(Arr([first] + rest2))
  {
    ArraysMapElementwise([first] + rest1);
    ArraysMapElementwise([first] + rest2);
  }

  /**
   * The order comes from the first group of the first interchange: when the
   * lowered interchange's `groups` starts with a truthy group, `normalize`
   * is the search of that group alone, whatever groups follow it.
   */
  lemma UsesFirstGroup(first: Json, rest: seq<Json>, group: Json, later: seq<Json>)
    requires GetOpt(Some(ToLowerCaseKeys(first)), "groups") == Some(Arr([group] + later))
    requires Truthy(Some(group))
    ensures Normalize(Arr([first] + rest)) == FromGroup(ToLowerCaseKeys(first), group)
  {
    ArraysMapElementwise([first] + rest);
    assert ToLowerCaseKeys(Arr([first] + rest)).items[0] == ToLowerCaseKeys(first);
  }

  /** An element the 850 callback accepts is an object, so the found transaction is truthy. */
  lemma AcceptedIsObject(s: Search, v: Json)
    requires Matches(s, v) == Success(true)
    ensures v.Obj?
  {
  }

  /** `find` returns the first accepted element when none before it throws. */
  lemma {:induction false} FindFirst(items: seq<Json>, s: Search, i: nat)
    requires FirstAccepted(items, s, i)
    ensures Find(items, s) == Success(Some(items[i]))
  {
    if i > 0 {
      var tail := items[1..];
      assert MissedBefore(tail, s, i - 1) by {
        forall j | 0 <= j < i - 1
          ensures Matches(s, tail[j]) == Success(false)
        {
          assert tail[j] == items[j + 1];
        }
      }
      FindFirst(tail, s, i - 1);
      FindSkips(items, s);
    }
  }

  /** An element the callback rejects is passed over. */
  lemma FindSkips(items: seq<Json>, s: Search)
    requires items != [] && Matches(s, items[0]) == Success(false)
    ensures Find(items, s) == Find(items[1..], s)
  {
  }

  /**
   * "No 850 transaction" is thrown exactly when the group has no
   * transactions, or every transaction's set code is something else.
   */
  lemma No850Iff(interchange: Json, group: Json)
    requires Truthy(Some(group))
    ensures var t := GetOpt(Some(group), "transactions");
      FromGroup(interchange, group) == Threw(No850Transaction) <==>
        t == None || t == Some(Null)
        || (t.value.Arr? && MissedBefore(t.value.items, Is850, |t.value.items|))
  {
    var t := GetOpt(Some(group), "transactions");
    var found := FindIn(t, Is850);
    if found.Success? && found.value.Some? {
      var items := t.value.items;
      var i :| 0 <= i < |items| && MissedBefore(items, Is850, i)
        && Matches(Is850, items[i]) == Success(true) && items[i] == found.value.value;
      AcceptedIsObject(Is850, items[i]);
      FromTransactionNeverNo850(interchange, group, items[i]);
    }
  }

  lemma FromTransactionNeverNo850(interchange: Json, group: Json, txn: Json)
    ensures FromTransaction(interchange, group, txn) != Threw(No850Transaction)
  {
  }

  /** The order comes from the first transaction whose set code is "850". */
  lemma UsesFirst850(interchange: Json, group: Json, i: nat)
    requires Truthy(Some(group))
    requires var t := GetOpt(Some(group), "transactions");
      t.Some? && t.value.Arr? && FirstAccepted(t.value.items, Is850, i)
    ensures FromGroup(interchange, group)
      == FromTransaction(interchange, group, GetOpt(Some(group), "transactions").value.items[i])
  {
    var items := GetOpt(Some(group), "transactions").value.items;
    FindFirst(items, Is850, i);
    AcceptedIsObject(Is850, items[i]);
  }

  /**
   * The bill-to party is the first N1 loop whose entity code is "BY" or
   * "BT", and the ship-to party the first whose code is "ST"; without one,
   * both fields are the empty string.
   */
  lemma PartiesFromFirstMatch(interchange: Json, group: Json, txn: Json, po: PurchaseOrder)
    requires FromTransaction(interchange, group, txn) == Normalized(po)
    ensures N1Loop(txn).Arr?
    ensures forall i: nat :: FirstAccepted(N1Loop(txn).items, BillToEntity, i) ==> po.billTo == PartyOf(N1Loop(txn).items[i])
    ensures MissedBefore(N1Loop(txn).items, BillToEntity, |N1Loop(txn).items|) ==> po.billTo == Party(Str(""), Str(""))
    ensures forall i: nat :: FirstAccepted(N1Loop(txn).items, ShipToEntity, i) ==> po.shipTo == PartyOf(N1Loop(txn).items[i])
    ensures MissedBefore(N1Loop(txn).items, ShipToEntity, |N1Loop(txn).items|) ==> po.shipTo == Party(Str(""), Str(""))
  {
    var loop := N1Loop(txn).items;
    forall i: nat | FirstAccepted(loop, BillToEntity, i)
      ensures po.billTo == PartyOf(loop[i])
    {
      FindFirst(loop, BillToEntity, i);
      AcceptedIsObject(BillToEntity, loop[i]);
    }
    forall i: nat | FirstAccepted(loop, ShipToEntity, i)
      ensures po.shipTo == PartyOf(loop[i])
    {
      FindFirst(loop, ShipToEntity, i);
      AcceptedIsObject(ShipToEntity, loop[i]);
    }
  }

  /** A party's fields are truthy values found in its N1 segment, or the empty string. */
  lemma PartyFieldsDefault(p: Json)
    ensures var party := PartyOf(p);
      && (Truthy(Some(party.name)) || party.name == Str(""))
      && (Truthy(Some(party.customerId)) || party.customerId == Str(""))
  {
  }

  /**
   * The items follow the PO1 loop one for one and in order, and the total
   * is their count; without a PO1 loop there are none.
   */
  lemma ItemsFollowPo1Loop(interchange: Json, group: Json, txn: Json, po: PurchaseOrder)
    requires FromTransaction(interchange, group, txn) == Normalized(po)
    ensures po.totalItems == |po.items|
    ensures Po1Loop(txn).Arr? && |po.items| == |Po1Loop(txn).items|
    ensures forall i :: 0 <= i < |Po1Loop(txn).items| ==> ItemOf(Po1Loop(txn).items[i]) == Success(po.items[i])
  {
  }

  /** A PO1 loop entry without a `po1` segment makes `normalize` throw a TypeError. */
  lemma MissingPo1Throws(interchange: Json, group: Json, txn: Json, i: nat)
    requires Po1Loop(txn).Arr? && i < |Po1Loop(txn).items|
    requires Get(Some(Po1Loop(txn).items[i]), "po1") in {Success(None), Success(Some(Null))}
    ensures FromTransaction(interchange, group, txn) == Threw(Raised(TypeError))
  {
    assert ItemOf(Po1Loop(txn).items[i]).Failure?;
  }

  /**
   * A normalized order needs the GS segment of the group, the ISA segment
   * of the interchange, and the BEG and ST segments of the transaction.
   */
  lemma SuccessNeedsEnvelope(interchange: Json, group: Json, txn: Json)
    requires FromTransaction(interchange, group, txn).Normalized?
    ensures GetOpt(Some(group), "gs") !in {None, Some(Null)}
    ensures GetOpt(Some(interchange), "isa") !in {None, Some(Null)}
    ensures GetOpt(Some(txn), "beg") !in {None, Some(Null)}
    ensures GetOpt(Some(txn), "st") !in {None, Some(Null)}
  {
    assert HeaderOf(interchange, group, txn).Success?;
    PathNeedsParent(group, "gs", "senderidcode_2");
    PathNeedsParent(interchange, "isa", "senderidqualifier_5");
    PathNeedsParent(txn, "beg", "purchaseordernumber_03");
    PathNeedsParent(txn, "st", "transactionsetcontrolnumber_02");
  }

  /**
   * The header copies GS02 and GS03 of the group, ISA05 and ISA07 of the
   * interchange, BEG03 and BEG05 and ST02 of the transaction.
   */
  lemma HeaderFromEnvelope(interchange: Json, group: Json, txn: Json, po: PurchaseOrder)
    requires FromTransaction(interchange, group, txn) == Normalized(po)
    ensures po.header == Header(
      GetOpt(GetOpt(Some(group), "gs"), "senderidcode_2"),
      GetOpt(GetOpt(Some(interchange), "isa"), "senderidqualifier_5"),
      GetOpt(GetOpt(Some(group), "gs"), "receiveridcode_3"),
      GetOpt(GetOpt(Some(interchange), "isa"), "receiveridqualifier_7"),
      GetOpt(GetOpt(Some(txn), "beg"), "purchaseordernumber_03"),
      GetOpt(GetOpt(Some(txn), "st"), "transactionsetcontrolnumber_02"),
      GetOpt(GetOpt(Some(txn), "beg"), "date_05"))
  {
    assert HeaderOf(interchange, group, txn).Success?;
    PathNeedsParent(group, "gs", "senderidcode_2");
    PathNeedsParent(interchange, "isa", "senderidqualifier_5");
    PathNeedsParent(group, "gs", "receiveridcode_3");
    PathNeedsParent(interchange, "isa", "receiveridqualifier_7");
    PathNeedsParent(txn, "beg", "purchaseordernumber_03");
    PathNeedsParent(txn, "st", "transactionsetcontrolnumber_02");
    PathNeedsParent(txn, "beg", "date_05");
  }

  /**
   * Reading `v.k1.k2` without an exception needs `v.k1` to be neither
   * `null` nor `undefined`, and then reads what `v?.k1?.k2` reads.
   */
  lemma PathNeedsParent(v: Json, k1: string, k2: string)
    requires Path(Some(v), k1, k2).Success?
    ensures GetOpt(Some(v), k1) !in {None, Some(Null)}
    ensures Path(Some(v), k1, k2).value == GetOpt(GetOpt(Some(v), k1), k2)
  {
  }

  /**
   * "No functional groups" is thrown exactly when the first interchange
   * (keys lowered) is an object or primitive whose `groups?.[0]` is falsy;
   * the interchanges after it play no part.
   */
  lemma NoGroupIff(x: Json)
    requires x.Arr? && x.items != []
    ensures var first := ToLowerCaseKeys(x).items[0];
      Normalize(x) == Threw(NoFunctionalGroup) <==> first != Null && !Truthy(First(GetOpt(Some(first), "groups")))
  {
    ArraysMapElementwise(x.items);
    var first := ToLowerCaseKeys(x).items[0];
    if first != Null {
      var group := First(GetOpt(Some(first), "groups"));
      if Truthy(group) {
        FromGroupNeverInputError(first, group.value);
      }
    }
  }
}
