/**
 * What the fold in `parseEDI` computes, stated independently of the fold:
 * which segments reject, which ones count, and that the last one of each
 * kind wins.
 */
module ParserProperties {
  import opened Wrappers
  import opened JsString
  import opened Types
  import opened OrderDogParser

  /** The branch of the `switch` a segment takes. */
  datatype Kind = IsaKind | BegKind | BillToKind | ShipToKind | Po1Kind | CttKind | Ignored

  function KindOf(seg: EdiSegment): Kind {
    if seg.tag == "ISA" then IsaKind
    else if seg.tag == "BEG" then BegKind
    else if seg.tag == "N1" && Element(seg.elements, 0) == Some("BT") then BillToKind
    else if seg.tag == "N1" && Element(seg.elements, 0) == Some("ST") then ShipToKind
    else if seg.tag == "PO1" then Po1Kind
    else if seg.tag == "CTT" then CttKind
    else Ignored
  }

  /** A BEG segment whose element 4 is missing or is not eight ASCII digits. */
  predicate BadBeg(seg: EdiSegment) {
    seg.tag == "BEG" && !IsEightDigits(Element(seg.elements, 4))
  }

  /** The index of the last segment of kind `k`, or -1 when there is none. */
  function LastIndex(segs: seq<EdiSegment>, k: Kind): (r: int)
    ensures -1 <= r < |segs|
    ensures r >= 0 ==> KindOf(segs[r]) == k
    ensures forall j :: r < j < |segs| ==> KindOf(segs[j]) != k
  {
    if segs == [] then -1
    else
      var later := LastIndex(segs[1..], k);
      if later >= 0 then later + 1
      else if KindOf(segs[0]) == k then 0
      else -1
  }

  /** The line items of the PO1 segments, one each, in segment order. */
  function Po1Items(segs: seq<EdiSegment>): (r: seq<PoItem>)
    ensures |r| <= |segs|
  {
    if segs == [] then []
    else (if KindOf(segs[0]) == Po1Kind then [ItemOf(segs[0])] else []) + Po1Items(segs[1..])
  }

  /** The number of PO1 segments. */
  function CountPo1(segs: seq<EdiSegment>): nat {
    if segs == [] then 0
    else (if KindOf(segs[0]) == Po1Kind then 1 else 0) + CountPo1(segs[1..])
  }

  /** The k-th PO1 segment's item is the k-th item, and there is one item per PO1 segment. */
  lemma {:induction false} Po1ItemsOnePerSegment(segs: seq<EdiSegment>)
    ensures |Po1Items(segs)| == CountPo1(segs)
    ensures forall i :: 0 <= i < |segs| && KindOf(segs[i]) == Po1Kind ==>
              CountPo1(segs[..i]) < |Po1Items(segs)| && Po1Items(segs)[CountPo1(segs[..i])] == ItemOf(segs[i])
  {
    if segs != [] {
      Po1ItemsOnePerSegment(segs[1..]);
      forall i | 0 <= i < |segs| && KindOf(segs[i]) == Po1Kind
        ensures CountPo1(segs[..i]) < |Po1Items(segs)| && Po1Items(segs)[CountPo1(segs[..i])] == ItemOf(segs[i])
      {
        if i > 0 {
          assert segs[..i][1..] == segs[1..][..i - 1];
          assert segs[i] == segs[1..][i - 1];
        } else {
          assert segs[..0] == [];
        }
      }
    }
  }

  /**
   * The record a successful fold ends with, read off the segments: the
   * last ISA, BEG, bill-to N1, ship-to N1 and CTT set their fields, every
   * PO1 appends an item, and nothing else matters.
   */
  function Summary(po: PurchaseOrder, segs: seq<EdiSegment>): PurchaseOrder {
    PurchaseOrder(
      HeaderSummary(po.header, segs),
      PartySummary(po.billTo, segs, BillToKind),
      PartySummary(po.shipTo, segs, ShipToKind),
      po.items + Po1Items(segs),
      TotalSummary(po.totalItems, segs))
  }

  /** Sender and receiver from the last ISA, PO number and date from the last BEG. */
  function HeaderSummary(h: Header, segs: seq<EdiSegment>): Header {
    var isa := LastIndex(segs, IsaKind);
    var beg := LastIndex(segs, BegKind);
    Header(
      if isa >= 0 then TrimOpt(Element(segs[isa].elements, 5)) else h.senderId,
      if isa >= 0 then TrimOpt(Element(segs[isa].elements, 7)) else h.receiverId,
      if beg >= 0 then Element(segs[beg].elements, 2) else h.poNumber,
      if beg >= 0 then Element(segs[beg].elements, 4) else h.date)
  }

  /** Name and account number from the last N1 of the given qualifier. */
  function PartySummary(p: Party, segs: seq<EdiSegment>, k: Kind): Party {
    var n1 := LastIndex(segs, k);
    if n1 >= 0 then Party(Element(segs[n1].elements, 1), Element(segs[n1].elements, 3)) else p
  }

  /** The count text of the last CTT. */
  function TotalSummary(t: Total, segs: seq<EdiSegment>): Total {
    var ctt := LastIndex(segs, CttKind);
    if ctt >= 0 then ParseIntOf(Element(segs[ctt].elements, 0)) else t
  }

  /** Empty content is the only way to get "Invalid EDI content provided." */
  lemma InvalidContentIffEmpty(content: string, d: Delimiters)
    ensures Parse(content, d) == Failure(InvalidContent) <==> content == []
  {
    if content != [] {
      BuildNeverInvalidContent(EmptyOrder, ParseSegments(content, d));
    }
  }

  lemma {:induction false} BuildNeverInvalidContent(po: PurchaseOrder, segs: seq<EdiSegment>)
    ensures Build(po, segs) != Failure(InvalidContent)
    decreases segs
  {
    if segs != [] && Apply(po, segs[0]).Success? {
      BuildNeverInvalidContent(Apply(po, segs[0]).value, segs[1..]);
    }
  }

  /**
   * The fold rejects exactly when some BEG carries a bad date, whatever the
   * other segments are, and the error names the first such date.
   */
  lemma {:induction false} RejectsIffBadDate(po: PurchaseOrder, segs: seq<EdiSegment>)
    ensures Build(po, segs).Failure? <==> exists i :: 0 <= i < |segs| && BadBeg(segs[i])
    ensures Build(po, segs).Failure? ==>
      exists i :: 0 <= i < |segs| && BadBeg(segs[i])
        && Build(po, segs).error == InvalidDate(Element(segs[i].elements, 4))
        && forall j :: 0 <= j < i ==> !BadBeg(segs[j])
    decreases segs
  {
    if segs != [] {
      if BadBeg(segs[0]) {
        assert Build(po, segs) == Failure(InvalidDate(Element(segs[0].elements, 4)));
      } else {
        var next := Apply(po, segs[0]).value;
        RejectsIffBadDate(next, segs[1..]);
        assert Build(po, segs) == Build(next, segs[1..]);
        if exists i :: 0 <= i < |segs| && BadBeg(segs[i]) {
          var i :| 0 <= i < |segs| && BadBeg(segs[i]);
          assert segs[1..][i - 1] == segs[i];
        }
        if Build(po, segs).Failure? {
          var i :| 0 <= i < |segs[1..]| && BadBeg(segs[1..][i])
            && Build(next, segs[1..]).error == InvalidDate(Element(segs[1..][i].elements, 4))
            && forall j :: 0 <= j < i ==> !BadBeg(segs[1..][j]);
          assert segs[i + 1] == segs[1..][i];
          assert forall j :: 0 <= j < i + 1 ==> !BadBeg(segs[j]) by {
            forall j | 0 < j < i + 1 ensures !BadBeg(segs[j]) {
              assert segs[j] == segs[1..][j - 1];
            }
          }
        }
      }
    }
  }

  /** A date-checked text is rejected exactly when one of its BEG segments has a bad date. */
  lemma DateRejection(content: string, d: Delimiters)
    requires content != []
    ensures Parse(content, d).Failure? <==>
      exists i :: 0 <= i < |ParseSegments(content, d)| && BadBeg(ParseSegments(content, d)[i])
  {
    RejectsIffBadDate(EmptyOrder, ParseSegments(content, d));
  }

  /** What one segment does to each field, by kind. */
  lemma ApplyByKind(po: PurchaseOrder, seg: EdiSegment)
    requires Apply(po, seg).Success?
    ensures var n := Apply(po, seg).value; var e := seg.elements; var k := KindOf(seg);
      && n.header == (if k == IsaKind then po.header.(senderId := TrimOpt(Element(e, 5)), receiverId := TrimOpt(Element(e, 7)))
                      else if k == BegKind then po.header.(poNumber := Element(e, 2), date := Element(e, 4))
                      else po.header)
      && n.billTo == (if k == BillToKind then Party(Element(e, 1), Element(e, 3)) else po.billTo)
      && n.shipTo == (if k == ShipToKind then Party(Element(e, 1), Element(e, 3)) else po.shipTo)
      && n.items == po.items + (if k == Po1Kind then [ItemOf(seg)] else [])
      && n.totalItems == (if k == CttKind then ParseIntOf(Element(e, 0)) else po.totalItems)
  {
  }

  /** One step of the fold, seen through `Summary`. */
  lemma SummaryStep(po: PurchaseOrder, segs: seq<EdiSegment>)
    requires segs != [] && Apply(po, segs[0]).Success?
    ensures Summary(Apply(po, segs[0]).value, segs[1..]) == Summary(po, segs)
  {
    HeaderStep(po, segs);
    PartyStep(po, segs);
    RestStep(po, segs);
  }

  lemma HeaderStep(po: PurchaseOrder, segs: seq<EdiSegment>)
    requires segs != [] && Apply(po, segs[0]).Success?
    ensures HeaderSummary(Apply(po, segs[0]).value.header, segs[1..]) == HeaderSummary(po.header, segs)
  {
    ApplyByKind(po, segs[0]);
    LastIndexStep(segs, IsaKind);
    LastIndexStep(segs, BegKind);
  }

  lemma PartyStep(po: PurchaseOrder, segs: seq<EdiSegment>)
    requires segs != [] && Apply(po, segs[0]).Success?
    ensures PartySummary(Apply(po, segs[0]).value.billTo, segs[1..], BillToKind) == PartySummary(po.billTo, segs, BillToKind)
    ensures PartySummary(Apply(po, segs[0]).value.shipTo, segs[1..], ShipToKind) == PartySummary(po.shipTo, segs, ShipToKind)
  {
    ApplyByKind(po, segs[0]);
    LastIndexStep(segs, BillToKind);
    LastIndexStep(segs, ShipToKind);
  }

  lemma RestStep(po: PurchaseOrder, segs: seq<EdiSegment>)
    requires segs != [] && Apply(po, segs[0]).Success?
    ensures Apply(po, segs[0]).value.items + Po1Items(segs[1..]) == po.items + Po1Items(segs)
    ensures TotalSummary(Apply(po, segs[0]).value.totalItems, segs[1..]) == TotalSummary(po.totalItems, segs)
  {
    ApplyByKind(po, segs[0]);
    Po1ItemsStep(segs);
    var added := if KindOf(segs[0]) == Po1Kind then [ItemOf(segs[0])] else [];
    ItemsStep(po.items, added, segs);
    LastIndexStep(segs, CttKind);
  }

  lemma Po1ItemsStep(segs: seq<EdiSegment>)
    requires segs != []
    ensures Po1Items(segs) == (if KindOf(segs[0]) == Po1Kind then [ItemOf(segs[0])] else []) + Po1Items(segs[1..])
  {
  }

  lemma ItemsStep(items: seq<PoItem>, added: seq<PoItem>, segs: seq<EdiSegment>)
    requires segs != []
    requires Po1Items(segs) == added + Po1Items(segs[1..])
    ensures (items + added) + Po1Items(segs[1..]) == items + Po1Items(segs)
  {
    var rest := Po1Items(segs[1..]);
    assert (items + added) + rest == items + (added + rest);
  }

  /** The last index in `segs` from the last index in its tail. */
  lemma LastIndexStep(segs: seq<EdiSegment>, k: Kind)
    requires segs != []
    ensures var later := LastIndex(segs[1..], k);
      && (later >= 0 ==> LastIndex(segs, k) == later + 1 && segs[later + 1] == segs[1..][later])
      && (later < 0 ==> LastIndex(segs, k) == if KindOf(segs[0]) == k then 0 else -1)
  {
  }

  /** Last wins: a successful fold ends exactly at `Summary`. */
  lemma {:induction false} BuildIsSummary(po: PurchaseOrder, segs: seq<EdiSegment>)
    requires Build(po, segs).Success?
    ensures Build(po, segs).value == Summary(po, segs)
    decreases segs
  {
    if segs != [] {
      var next := Apply(po, segs[0]).value;
      BuildIsSummary(next, segs[1..]);
      SummaryStep(po, segs);
    }
  }

  /**
   * A parsed order has a PO number, and its date is the initial empty text
   * (no BEG) or eight digits; its items are one per PO1 segment.
   */
  lemma ParsedOrderInvariant(content: string, d: Delimiters)
    requires Parse(content, d).Success?
    ensures var po := Parse(content, d).value;
      && po.header.poNumber.Some?
      && (po.header.date == Some("") || IsEightDigits(po.header.date))
      && po.items == Po1Items(ParseSegments(content, d))
      && |po.items| == CountPo1(ParseSegments(content, d))
  {
    BuiltOrderInvariant(ParseSegments(content, d));
  }

  /** The same facts about the fold from the empty order, for any segments. */
  lemma BuiltOrderInvariant(segs: seq<EdiSegment>)
    requires Build(EmptyOrder, segs).Success?
    ensures var po := Build(EmptyOrder, segs).value;
      && po.header.poNumber.Some?
      && (po.header.date == Some("") || IsEightDigits(po.header.date))
      && po.items == Po1Items(segs)
      && |po.items| == CountPo1(segs)
  {
    BuildIsSummary(EmptyOrder, segs);
    RejectsIffBadDate(EmptyOrder, segs);
    Po1ItemsOnePerSegment(segs);
    var beg := LastIndex(segs, BegKind);
    if beg >= 0 {
      assert !BadBeg(segs[beg]);
    }
  }

  /** Segments of no recognised kind (and N1 with another qualifier) leave the result alone. */
  function Recognised(segs: seq<EdiSegment>): (r: seq<EdiSegment>)
    ensures |r| <= |segs|
  {
    if segs == [] then []
    else (if KindOf(segs[0]) == Ignored then [] else [segs[0]]) + Recognised(segs[1..])
  }

  lemma {:induction false} IgnoredSegmentsChangeNothing(po: PurchaseOrder, segs: seq<EdiSegment>)
    ensures Build(po, segs) == Build(po, Recognised(segs))
    decreases segs
  {
    if segs != [] {
      var r := Recognised(segs);
      if KindOf(segs[0]) == Ignored {
        assert Apply(po, segs[0]) == Success(po);
        assert r == Recognised(segs[1..]);
        IgnoredSegmentsChangeNothing(po, segs[1..]);
      } else {
        assert r[0] == segs[0] && r[1..] == Recognised(segs[1..]);
        match Apply(po, segs[0])
        case Failure(_) =>
        case Success(next) => IgnoredSegmentsChangeNothing(next, segs[1..]);
      }
    }
  }

  /** Folding a concatenation folds the second part from where the first ended. */
  lemma {:induction false} BuildAppend(po: PurchaseOrder, a: seq<EdiSegment>, b: seq<EdiSegment>)
    ensures Build(po, a + b) == match Build(po, a) case Failure(e) => Failure(e) case Success(mid) => Build(mid, b)
    decreases a
  {
    if a == [] {
      assert a + b == b;
    } else {
      assert (a + b)[0] == a[0] && (a + b)[1..] == a[1..] + b;
      match Apply(po, a[0])
      case Failure(_) =>
      case Success(next) => BuildAppend(next, a[1..], b);
    }
  }

  /**
   * The CTT count is never reconciled with the items: a trailing CTT claims
   * any count without changing acceptance or the items.
   */
  lemma TotalNotCheckedAgainstItems(po: PurchaseOrder, segs: seq<EdiSegment>, count: string)
    requires Build(po, segs).Success?
    ensures Build(po, segs + [EdiSegment("CTT", [count])])
         == Success(Build(po, segs).value.(totalItems := ParseIntOf(Some(count))))
  {
    BuildAppend(po, segs, [EdiSegment("CTT", [count])]);
  }

  /**
   * A sample purchase order as its five lines of text:
   *
   *   ISA*00**00**ZZ*SENDER*ZZ*RECEIVER~
   *   BEG*00*SA*PO123**20240115~
   *   N1*BT*Acme*92*CUST1~
   *   PO1*1*10*EA*5.00***UP*SKU1~
   *   CTT*1~
   *
   * given here by its tokens; `Unlex` writes them out as that text.
   */
  const SampleIsa := EdiSegment("ISA", ["00", "", "00", "", "ZZ", "SENDER", "ZZ", "RECEIVER"])
  const SampleBeg := EdiSegment("BEG", ["00", "SA", "PO123", "", "20240115"])
  const SampleBillTo := EdiSegment("N1", ["BT", "Acme", "92", "CUST1"])
  const SampleItem := EdiSegment("PO1", ["1", "10", "EA", "5.00", "", "", "UP", "SKU1"])
  const SampleTotal := EdiSegment("CTT", ["1"])
  const SampleSegments: seq<EdiSegment> := [SampleIsa, SampleBeg, SampleBillTo, SampleItem, SampleTotal]

  /** The order the sample parses to. */
  const SampleResult := PurchaseOrder(
    Header(Some("SENDER"), Some("RECEIVER"), Some("PO123"), Some("20240115")),
    Party(Some("Acme"), Some("CUST1")),
    Party(Some(""), Some("")),
    [PoItem(Some("1"), Some("10"), Some("EA"), Some("5.00"), Some("UP"))],
    ParseIntOf(Some("1")))

  /**
   * The sample text parses to sender SENDER, receiver RECEIVER, PO number
   * PO123, date 20240115, bill-to Acme, and one item whose product id is
   * element 6 of the PO1, `UP`: the line has three `*` after the price, so
   * `SKU1` is element 7 and is not read. With `UP` as element 5 and `SKU1` as
   * element 6 (PO106 and PO107), the product id is `SKU1`.
   */
  lemma SampleOrder()
    ensures Parse(Unlex(SampleSegments, Default), Default) == Success(SampleResult)
    ensures Element(SampleItem.elements, 7) == Some("SKU1")
    ensures ItemOf(EdiSegment("PO1", ["1", "10", "EA", "5.00", "", "UP", "SKU1"])).productId == Some("SKU1")
  {
    SampleText();
    SampleBuild();
  }

  /** Written out and read back, the sample text yields the sample segments. */
  lemma SampleText()
    ensures Parse(Unlex(SampleSegments, Default), Default) == Build(EmptyOrder, SampleSegments)
  {
    SampleWritable();
    UnlexLex(SampleSegments, Default);
    UnlexNonEmpty(SampleSegments, Default);
  }

  /** Every sample segment is writable: no token holds `*` or a line break, and no tag starts with white space. */
  lemma SampleWritable()
    ensures forall i :: 0 <= i < |SampleSegments| ==> Writable(SampleSegments[i], Default)
  {
    IsaWritable();
    BegWritable();
    BillToWritable();
    ItemWritable();
    TotalWritable();
  }

  /** Each sample segment, one at a time, is writable. */
  lemma IsaWritable() ensures Writable(SampleIsa, Default) {}
  lemma BegWritable() ensures Writable(SampleBeg, Default) {}
  lemma BillToWritable() ensures Writable(SampleBillTo, Default) {}
  lemma ItemWritable() ensures Writable(SampleItem, Default) {}
  lemma TotalWritable() ensures Writable(SampleTotal, Default) {}

  /** The sample segments folded one by one into the empty order. */
  lemma SampleBuild()
    ensures Build(EmptyOrder, SampleSegments) == Success(SampleResult)
  {
    var po0 := IsaStep(EmptyOrder);
    var po1 := BegStep(po0);
    var po2 := BillToStep(po1);
    var po3 := ItemStep(po2);
    var po4 := TotalStep(po3);
    BuildStep(po3, SampleTotal, po4, []);
    BuildStep(po2, SampleItem, po3, [SampleTotal]);
    BuildStep(po1, SampleBillTo, po2, [SampleItem, SampleTotal]);
    BuildStep(po0, SampleBeg, po1, [SampleBillTo, SampleItem, SampleTotal]);
    BuildStep(EmptyOrder, SampleIsa, po0, [SampleBeg, SampleBillTo, SampleItem, SampleTotal]);
    assert po4 == SampleResult;
  }

  /** The sample ISA sets the sender and receiver, which are already trimmed. */
  lemma IsaStep(po: PurchaseOrder) returns (next: PurchaseOrder)
    ensures next == po.(header := po.header.(senderId := Some("SENDER"), receiverId := Some("RECEIVER")))
    ensures Apply(po, SampleIsa) == Success(next)
  {
    next := po.(header := po.header.(senderId := Some("SENDER"), receiverId := Some("RECEIVER")));
    TrimOfTrimmed("SENDER");
    TrimOfTrimmed("RECEIVER");
  }

  /** The sample BEG has an eight-digit date, so it sets the PO number and date. */
  lemma BegStep(po: PurchaseOrder) returns (next: PurchaseOrder)
    ensures next == po.(header := po.header.(poNumber := Some("PO123"), date := Some("20240115")))
    ensures Apply(po, SampleBeg) == Success(next)
  {
    next := po.(header := po.header.(poNumber := Some("PO123"), date := Some("20240115")));
  }

  /** The sample N1 is qualified `BT`, so it sets the bill-to party. */
  lemma BillToStep(po: PurchaseOrder) returns (next: PurchaseOrder)
    ensures next == po.(billTo := Party(Some("Acme"), Some("CUST1")))
    ensures Apply(po, SampleBillTo) == Success(next)
  {
    next := po.(billTo := Party(Some("Acme"), Some("CUST1")));
  }

  /** The sample PO1 appends one item, whose product id is element 6. */
  lemma ItemStep(po: PurchaseOrder) returns (next: PurchaseOrder)
    ensures next == po.(items := po.items + [PoItem(Some("1"), Some("10"), Some("EA"), Some("5.00"), Some("UP"))])
    ensures Apply(po, SampleItem) == Success(next)
  {
    next := po.(items := po.items + [PoItem(Some("1"), Some("10"), Some("EA"), Some("5.00"), Some("UP"))]);
  }

  /** The sample CTT sets the total. */
  lemma TotalStep(po: PurchaseOrder) returns (next: PurchaseOrder)
    ensures next == po.(totalItems := ParseIntOf(Some("1")))
    ensures Apply(po, SampleTotal) == Success(next)
  {
    next := po.(totalItems := ParseIntOf(Some("1")));
  }

  /** One accepted segment: the fold goes on from the updated order. */
  lemma BuildStep(po: PurchaseOrder, seg: EdiSegment, next: PurchaseOrder, rest: seq<EdiSegment>)
    requires Apply(po, seg) == Success(next)
    ensures Build(po, [seg] + rest) == Build(next, rest)
  {
    assert ([seg] + rest)[0] == seg && ([seg] + rest)[1..] == rest;
  }
}
