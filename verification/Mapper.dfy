/** internal/integration/mapper.go: an invoice and its items as a create request. Amounts are exact. */
module Mapper {
  import opened Domain
  import opened Steps

  datatype LineInfo = LineInfo(
    lineNumber: int, selection: int, itemType: Option<int>,
    itemCode: string, itemName: string, unitCode: string, unitName: string,
    quantity: real, unitPrice: real, unitPriceWithTax: Option<real>,
    totalWithoutTax: real, taxPercentage: real, taxAmount: real, totalWithTax: real,
    itemNote: string, isIncreaseItem: Option<bool>, batchNo: string, expDate: string, adjustRatio: string,
    totalAfterDiscount: Option<real>, itemDiscount: Option<real>,
    discount: Option<real>, discount2: Option<real>, specialInfo: seq<(string, string)>)

  datatype TaxBreakdown = TaxBreakdown(taxPercentage: real, taxableAmount: real, taxAmount: real)

  datatype SellerInfo = SellerInfo(legalName: string, taxCode: string, address: string, phone: string, email: string,
                                   bankName: string, bankAccount: string)

  datatype BuyerInfo = BuyerInfo(name: string, legalName: string, taxCode: string, address: string, email: string,
                                 phone: string, code: string)

  /** What the configuration says about every invoice. */
  datatype IssuerConfig =
    IssuerConfig(invoiceType: string, templateCode: string, invoiceSeries: string, supplierCode: string)

  datatype GeneralInfo = GeneralInfo(
    invoiceType: string, templateCode: string, invoiceSeries: string, transactionUuid: string, currency: string,
    exchangeRate: real, adjustmentType: string, paymentStatus: bool, issuedMillis: int, note: string, validation: int)

  datatype Summary = Summary(sumOfLines: real, totalWithoutTax: real, totalTax: real, totalWithTax: real)

  datatype ViettelRequest = ViettelRequest(
    general: GeneralInfo, seller: Option<SellerInfo>, buyer: BuyerInfo, paymentMethods: seq<string>,
    lines: seq<LineInfo>, taxBreakdowns: seq<TaxBreakdown>, summary: Summary)

  // ---------- Lines ----------

  /** The n-th line carries the item's data; selection defaults to 1 and zero discounts are left out. */
  predicate LineFor(line: LineInfo, item: InvoiceItem, n: int) {
    && line.lineNumber == n
    && (item.selection.Some? ==> line.selection == item.selection.value)
    && (item.selection.None? ==> line.selection == 1)
    && line.itemType == item.itemType && line.itemCode == item.itemCode && line.itemName == item.itemName
    && line.unitCode == item.unitCode && line.unitName == item.unitName
    && line.quantity == item.quantity && line.unitPrice == item.unitPrice
    && line.unitPriceWithTax == item.unitPriceWithTax
    && line.totalWithoutTax == item.totalWithoutTax && line.taxPercentage == item.taxPercentage
    && line.taxAmount == item.taxAmount && line.totalWithTax == item.totalWithTax
    && line.itemNote == item.itemNote && line.isIncreaseItem == item.isIncreaseItem
    && line.batchNo == item.batchNo && line.expDate == item.expDate && line.adjustRatio == item.adjustRatio
    && line.totalAfterDiscount == item.totalAfterDiscount && line.itemDiscount == item.itemDiscount
    && (line.discount.Some? <==> item.discount != 0.0) && (line.discount.Some? ==> line.discount.value == item.discount)
    && (line.discount2.Some? <==> item.discount2 != 0.0)
    && (line.discount2.Some? ==> line.discount2.value == item.discount2)
    && line.specialInfo == item.specialInfo
  }

  predicate LinesFor(lines: seq<LineInfo>, items: seq<InvoiceItem>) {
    |lines| == |items| && forall k | 0 <= k < |items| :: LineFor(lines[k], items[k], k + 1)
  }

  lemma NoLines()
    ensures LinesFor([], [])
  {
  }

  lemma LinesGrow(lines: seq<LineInfo>, line: LineInfo, items: seq<InvoiceItem>, k: nat)
    requires k < |items| && LinesFor(lines, items[..k]) && LineFor(line, items[k], k + 1)
    ensures LinesFor(lines + [line], items[..k + 1])
  {
    hide LineFor;
  }

  method MapItems(items: seq<InvoiceItem>) returns (lines: seq<LineInfo>)
    ensures LinesFor(lines, items)
  {
    hide LinesFor;
    lines := [];
    assert LinesFor([], items[..0]) by {
      NoLines();
    }
    for k := 0 to |items|
      invariant LinesFor(lines, items[..k])
    {
      var item := items[k];
      var selection := 1;
      if item.selection.Some? {
        selection := item.selection.value;
      }
      var line := LineInfo(
        k + 1, selection, item.itemType, item.itemCode, item.itemName, item.unitCode, item.unitName,
        item.quantity, item.unitPrice, item.unitPriceWithTax,
        item.totalWithoutTax, item.taxPercentage, item.taxAmount, item.totalWithTax,
        item.itemNote, item.isIncreaseItem, item.batchNo, item.expDate, item.adjustRatio,
        None, None, None, None, []);
      if item.totalAfterDiscount.Some? {
        line := line.(totalAfterDiscount := item.totalAfterDiscount);
      }
      if item.itemDiscount.Some? {
        line := line.(itemDiscount := item.itemDiscount);
      }
      if item.discount != 0.0 {
        line := line.(discount := Some(item.discount));
      }
      if item.discount2 != 0.0 {
        line := line.(discount2 := Some(item.discount2));
      }
      if |item.specialInfo| > 0 {
        var copied: seq<(string, string)> := [];
        for j := 0 to |item.specialInfo|
          invariant copied == item.specialInfo[..j]
        {
          copied := copied + [item.specialInfo[j]];
        }
        line := line.(specialInfo := copied);
      }
      assert LineFor(line, item, k + 1);
      LinesGrow(lines, line, items, k);
      lines := lines + [line];
    }
    assert items[..|items|] == items;
  }

  // ---------- Tax groups ----------

  /** The two amounts a group adds up. */
  datatype Column = Taxable | Tax

  function Amount(item: InvoiceItem, column: Column): real {
    if column == Taxable then item.totalWithoutTax else item.taxAmount
  }

  function GroupAmount(group: TaxBreakdown, column: Column): real {
    if column == Taxable then group.taxableAmount else group.taxAmount
  }

  /** The total over the items of one rate. */
  function TotalAt(items: seq<InvoiceItem>, rate: real, column: Column): real {
    if items == [] then 0.0
    else
      var last := items[|items| - 1];
      TotalAt(items[..|items| - 1], rate, column) + (if last.taxPercentage == rate then Amount(last, column) else 0.0)
  }

  function Total(items: seq<InvoiceItem>, column: Column): real {
    if items == [] then 0.0 else Total(items[..|items| - 1], column) + Amount(items[|items| - 1], column)
  }

  function GroupTotal(groups: seq<TaxBreakdown>, column: Column): real {
    if groups == [] then 0.0 else GroupTotal(groups[..|groups| - 1], column) + GroupAmount(groups[|groups| - 1], column)
  }

  predicate HasRate(items: seq<InvoiceItem>, rate: real) {
    exists k | 0 <= k < |items| :: items[k].taxPercentage == rate
  }

  /** The group of a rate holds the totals over exactly the items of that rate. */
  predicate GroupOf(items: seq<InvoiceItem>, group: TaxBreakdown) {
    forall column: Column :: GroupAmount(group, column) == TotalAt(items, group.taxPercentage, column)
  }

  predicate DistinctRates(groups: seq<TaxBreakdown>) {
    forall i, j | 0 <= i < j < |groups| :: groups[i].taxPercentage != groups[j].taxPercentage
  }

  predicate HasGroup(groups: seq<TaxBreakdown>, rate: real) {
    exists k | 0 <= k < |groups| :: groups[k].taxPercentage == rate
  }

  /** One group per rate that occurs, no others, each with its own totals; in any order. */
  ghost predicate Grouped(items: seq<InvoiceItem>, groups: seq<TaxBreakdown>) {
    && DistinctRates(groups)
    && (forall k | 0 <= k < |groups| :: GroupOf(items, groups[k]))
    && (forall rate :: HasGroup(groups, rate) <==> HasRate(items, rate))
  }

  lemma TotalAtSnoc(items: seq<InvoiceItem>, item: InvoiceItem, rate: real, column: Column)
    ensures TotalAt(items + [item], rate, column)
            == TotalAt(items, rate, column) + (if item.taxPercentage == rate then Amount(item, column) else 0.0)
    ensures HasRate(items + [item], rate) <==> HasRate(items, rate) || item.taxPercentage == rate
  {
    assert (items + [item])[..|items|] == items;
    if HasRate(items, rate) {
      var k :| 0 <= k < |items| && items[k].taxPercentage == rate;
      assert (items + [item])[k].taxPercentage == rate;
    }
    if item.taxPercentage == rate {
      assert (items + [item])[|items|].taxPercentage == rate;
    }
  }

  lemma {:induction false} NoItemsNoTotal(items: seq<InvoiceItem>, rate: real, column: Column)
    requires !HasRate(items, rate)
    ensures TotalAt(items, rate, column) == 0.0
    decreases |items|
  {
    if items != [] {
      var init := items[..|items| - 1];
      assert forall k | 0 <= k < |init| :: init[k] == items[k];
      assert items[|items| - 1].taxPercentage != rate;
      NoItemsNoTotal(init, rate, column);
    }
  }

  /** The groups collected so far, by rate. */
  ghost predicate Cells(cells: map<real, TaxBreakdown>, items: seq<InvoiceItem>) {
    && (forall rate | rate in cells :: cells[rate].taxPercentage == rate && GroupOf(items, cells[rate]))
    && (forall rate :: rate in cells <==> HasRate(items, rate))
  }

  lemma CellsStep(cells: map<real, TaxBreakdown>, items: seq<InvoiceItem>, item: InvoiceItem, cell: TaxBreakdown)
    requires Cells(cells, items)
    requires cell == if item.taxPercentage in cells then cells[item.taxPercentage]
                     else TaxBreakdown(item.taxPercentage, 0.0, 0.0)
    ensures Cells(cells[item.taxPercentage := cell.(taxableAmount := cell.taxableAmount + item.totalWithoutTax,
                                                    taxAmount := cell.taxAmount + item.taxAmount)], items + [item])
  {
    forall rate, column: Column
      ensures TotalAt(items + [item], rate, column)
              == TotalAt(items, rate, column) + (if item.taxPercentage == rate then Amount(item, column) else 0.0)
      ensures HasRate(items + [item], rate) <==> HasRate(items, rate) || item.taxPercentage == rate
    {
      TotalAtSnoc(items, item, rate, column);
    }
    if item.taxPercentage !in cells {
      NoItemsNoTotal(items, item.taxPercentage, Taxable);
      NoItemsNoTotal(items, item.taxPercentage, Tax);
    }
    hide TotalAt, HasRate;
  }

  method BuildTaxBreakdowns(items: seq<InvoiceItem>) returns (groups: seq<TaxBreakdown>)
    ensures Grouped(items, groups)
  {
    hide TotalAt, HasRate;
    var cells: map<real, TaxBreakdown> := map[];
    NoRates();
    for k := 0 to |items|
      invariant Cells(cells, items[..k])
    {
      var item := items[k];
      var cell := TaxBreakdown(item.taxPercentage, 0.0, 0.0);
      if item.taxPercentage in cells {
        cell := cells[item.taxPercentage];
      }
      CellsStep(cells, items[..k], item, cell);
      assert items[..k] + [item] == items[..k + 1];
      cells := cells[item.taxPercentage := cell.(taxableAmount := cell.taxableAmount + item.totalWithoutTax,
                                                 taxAmount := cell.taxAmount + item.taxAmount)];
    }
    assert items[..|items|] == items;
    groups := [];
    var rest := cells.Keys;
    while rest != {}
      invariant rest <= cells.Keys && DistinctRates(groups)
      invariant forall k | 0 <= k < |groups| ::
                  groups[k].taxPercentage in cells && groups[k] == cells[groups[k].taxPercentage]
      invariant forall rate :: HasGroup(groups, rate) <==> rate in cells && rate !in rest
      decreases rest
    {
      ghost var element: real := ElementOf(rest);
      assert element in rest;
      assert exists rate: real :: rate in rest;
      var rate: real :| rate in rest;
      ghost var before := groups;
      groups := groups + [cells[rate]];
      rest := rest - {rate};
      forall r ensures HasGroup(groups, r) <==> HasGroup(before, r) || r == rate {
        GroupSnoc(before, cells[rate], r);
      }
    }
  }

  ghost function ElementOf<T>(s: set<T>): (x: T)
    requires s != {}
    ensures x in s
  {
    var x :| x in s; x
  }

  lemma NoRates()
    ensures forall rate :: !HasRate([], rate)
  {
  }

  lemma GroupSnoc(groups: seq<TaxBreakdown>, group: TaxBreakdown, rate: real)
    ensures HasGroup(groups + [group], rate) <==> HasGroup(groups, rate) || group.taxPercentage == rate
  {
    if HasGroup(groups, rate) {
      var k :| 0 <= k < |groups| && groups[k].taxPercentage == rate;
      assert (groups + [group])[k].taxPercentage == rate;
    }
    if group.taxPercentage == rate {
      assert (groups + [group])[|groups|].taxPercentage == rate;
    }
  }

  // ---------- Conservation ----------

  /** The sum over the groups of what the items of their rates hold. */
  function SumAt(items: seq<InvoiceItem>, groups: seq<TaxBreakdown>, column: Column): real {
    if groups == [] then 0.0
    else SumAt(items, groups[..|groups| - 1], column) + TotalAt(items, groups[|groups| - 1].taxPercentage, column)
  }

  lemma {:induction false} SumAtSnoc(items: seq<InvoiceItem>, item: InvoiceItem, groups: seq<TaxBreakdown>,
                                     column: Column)
    requires DistinctRates(groups)
    ensures SumAt(items + [item], groups, column)
            == SumAt(items, groups, column)
               + (if HasGroup(groups, item.taxPercentage) then Amount(item, column) else 0.0)
    decreases |groups|
  {
    if groups != [] {
      var init, last := groups[..|groups| - 1], groups[|groups| - 1];
      SumAtSnoc(items, item, init, column);
      TotalAtSnoc(items, item, last.taxPercentage, column);
      assert groups == init + [last];
      GroupSnoc(init, last, item.taxPercentage);
      if last.taxPercentage == item.taxPercentage {
        assert !HasGroup(init, item.taxPercentage);
      }
    }
  }

  lemma {:induction false} SumAtAll(items: seq<InvoiceItem>, groups: seq<TaxBreakdown>, column: Column)
    requires DistinctRates(groups) && forall k | 0 <= k < |items| :: HasGroup(groups, items[k].taxPercentage)
    ensures SumAt(items, groups, column) == Total(items, column)
    decreases |items|
  {
    if items == [] {
      SumAtEmpty(groups, column);
    } else {
      var init, last := items[..|items| - 1], items[|items| - 1];
      SumAtAll(init, groups, column);
      assert items == init + [last];
      SumAtSnoc(init, last, groups, column);
    }
  }

  lemma {:induction false} SumAtEmpty(groups: seq<TaxBreakdown>, column: Column)
    ensures SumAt([], groups, column) == 0.0
    decreases |groups|
  {
    if groups != [] {
      SumAtEmpty(groups[..|groups| - 1], column);
    }
  }

  lemma {:induction false} GroupTotalIsSumAt(items: seq<InvoiceItem>, groups: seq<TaxBreakdown>, column: Column)
    requires forall k | 0 <= k < |groups| :: GroupOf(items, groups[k])
    ensures GroupTotal(groups, column) == SumAt(items, groups, column)
    decreases |groups|
  {
    if groups != [] {
      GroupTotalIsSumAt(items, groups[..|groups| - 1], column);
      assert GroupOf(items, groups[|groups| - 1]);
    }
  }

  function LineTotal(lines: seq<LineInfo>, column: Column): real {
    if lines == [] then 0.0
    else LineTotal(lines[..|lines| - 1], column)
         + (if column == Taxable then lines[|lines| - 1].totalWithoutTax else lines[|lines| - 1].taxAmount)
  }

  lemma {:induction false} LineTotalIsTotal(lines: seq<LineInfo>, items: seq<InvoiceItem>, column: Column)
    requires LinesFor(lines, items)
    ensures LineTotal(lines, column) == Total(items, column)
    decreases |lines|
  {
    if lines != [] {
      LineTotalIsTotal(lines[..|lines| - 1], items[..|items| - 1], column);
      assert LineFor(lines[|lines| - 1], items[|items| - 1], |items|);
    }
  }

  /** Taxable amount and tax over the breakdowns are those over the items and over the lines sent. */
  lemma TaxConserved(items: seq<InvoiceItem>, groups: seq<TaxBreakdown>, lines: seq<LineInfo>, column: Column)
    requires Grouped(items, groups) && LinesFor(lines, items)
    ensures GroupTotal(groups, column) == Total(items, column) == LineTotal(lines, column)
  {
    GroupTotalIsSumAt(items, groups, column);
    assert forall k | 0 <= k < |items| :: HasRate(items, items[k].taxPercentage);
    SumAtAll(items, groups, column);
    LineTotalIsTotal(lines, items, column);
  }

  // ---------- Order does not matter ----------

  lemma {:induction false} TotalAtWithout(items: seq<InvoiceItem>, k: nat, rate: real, column: Column)
    requires k < |items|
    ensures TotalAt(items, rate, column)
            == TotalAt(items[..k] + items[k + 1..], rate, column)
               + (if items[k].taxPercentage == rate then Amount(items[k], column) else 0.0)
    decreases |items|
  {
    var init, last := items[..|items| - 1], items[|items| - 1];
    if k == |items| - 1 {
      assert items[..k] + items[k + 1..] == init;
    } else {
      TotalAtWithout(init, k, rate, column);
      assert items[..k] + items[k + 1..] == (init[..k] + init[k + 1..]) + [last];
      TotalAtSnoc(init[..k] + init[k + 1..], last, rate, column);
    }
  }

  /** The last element of one sequence found in a permutation of it, and what is left of both. */
  lemma SplitPermuted<T>(s: seq<T>, s': seq<T>) returns (k: nat)
    requires multiset(s) == multiset(s') && s != []
    ensures k < |s'| && s'[k] == s[|s| - 1]
    ensures multiset(s[..|s| - 1]) == multiset(s'[..k] + s'[k + 1..])
  {
    var last := s[|s| - 1];
    assert last in multiset(s');
    k :| 0 <= k < |s'| && s'[k] == last;
    WithoutOne(s', k);
    WithoutOne(s, |s| - 1);
    assert s[..|s| - 1] + s[|s|..] == s[..|s| - 1];
  }

  lemma {:induction false} TotalAtPermuted(items: seq<InvoiceItem>, items': seq<InvoiceItem>, rate: real,
                                           column: Column)
    requires multiset(items) == multiset(items')
    ensures TotalAt(items, rate, column) == TotalAt(items', rate, column)
    decreases |items|
  {
    if items == [] {
      assert |items'| == |multiset(items')| == 0;
    } else {
      var k := SplitPermuted(items, items');
      TotalAtWithout(items', k, rate, column);
      TotalAtPermuted(items[..|items| - 1], items'[..k] + items'[k + 1..], rate, column);
    }
  }

  lemma WithoutOne<T>(s: seq<T>, k: nat)
    requires k < |s|
    ensures multiset(s[..k] + s[k + 1..]) == multiset(s) - multiset{s[k]}
  {
    assert s == s[..k] + [s[k]] + s[k + 1..];
  }

  lemma RatesPermuted(items: seq<InvoiceItem>, items': seq<InvoiceItem>, rate: real)
    requires multiset(items) == multiset(items') && HasRate(items, rate)
    ensures HasRate(items', rate)
  {
    var k :| 0 <= k < |items| && items[k].taxPercentage == rate;
    assert items[k] in multiset(items');
  }

  lemma {:induction false} Once(groups: seq<TaxBreakdown>, group: TaxBreakdown)
    requires DistinctRates(groups)
    ensures multiset(groups)[group] == if group in groups then 1 else 0
    decreases |groups|
  {
    if groups != [] {
      var init, last := groups[..|groups| - 1], groups[|groups| - 1];
      Once(init, group);
      assert groups == init + [last];
    }
  }

  lemma GroupMoves(items: seq<InvoiceItem>, items': seq<InvoiceItem>, groups: seq<TaxBreakdown>,
                   groups': seq<TaxBreakdown>,
                   group: TaxBreakdown)
    requires multiset(items) == multiset(items') && Grouped(items, groups) && Grouped(items', groups')
             && group in groups
    ensures group in groups'
  {
    var k :| 0 <= k < |groups| && groups[k] == group;
    assert HasGroup(groups, group.taxPercentage);
    RatesPermuted(items, items', group.taxPercentage);
    var j :| 0 <= j < |groups'| && groups'[j].taxPercentage == group.taxPercentage;
    forall column: Column ensures GroupAmount(groups'[j], column) == GroupAmount(group, column) {
      TotalAtPermuted(items, items', group.taxPercentage, column);
      assert GroupOf(items, groups[k]) && GroupOf(items', groups'[j]);
    }
    assert GroupAmount(groups'[j], Taxable) == GroupAmount(group, Taxable)
           && GroupAmount(groups'[j], Tax) == GroupAmount(group, Tax);
    assert groups'[j] == group;
  }

  /** Any order of the items, and any order in which the groups are read out, gives the same groups. */
  lemma OrderIrrelevant(items: seq<InvoiceItem>, items': seq<InvoiceItem>, groups: seq<TaxBreakdown>,
                        groups': seq<TaxBreakdown>)
    requires multiset(items) == multiset(items') && Grouped(items, groups) && Grouped(items', groups')
    ensures multiset(groups) == multiset(groups')
  {
    forall group ensures multiset(groups)[group] == multiset(groups')[group] {
      Once(groups, group);
      Once(groups', group);
      if group in groups {
        GroupMoves(items, items', groups, groups', group);
      }
      if group in groups' {
        GroupMoves(items', items, groups', groups, group);
      }
    }
  }

  // ---------- The request ----------

  function BuildSellerInfo(seller: SellerInfo): Option<SellerInfo> {
    if seller.taxCode == "" then None else Some(seller)
  }

  const MILLISECOND: Time := 1_000_000

  /** An original, paid invoice of the configured series, dated when it is sent and not when it was made. */
  predicate GeneralFor(general: GeneralInfo, content: Content, cfg: IssuerConfig, now: Time) {
    && general.invoiceType == cfg.invoiceType && general.templateCode == cfg.templateCode
    && general.invoiceSeries == cfg.invoiceSeries
    && general.currency == content.currency && general.note == content.notes
    && general.exchangeRate == 1.0 && general.adjustmentType == "1" && general.paymentStatus && general.validation == 0
    && general.issuedMillis * MILLISECOND <= now < (general.issuedMillis + 1) * MILLISECOND
  }

  /** What the request says besides its lines. Without a configured tax code the issuer's own seller
      data is used. */
  predicate HeaderFor(request: ViettelRequest, content: Content, seller: SellerInfo) {
    && |request.paymentMethods| == 1
    && (content.paymentMethod != "" ==> request.paymentMethods[0] == content.paymentMethod)
    && (content.paymentMethod == "" ==> request.paymentMethods[0] == "TM/CK")
    && (request.seller.None? <==> seller.taxCode == "") && (request.seller.Some? ==> request.seller.value == seller)
    && request.buyer.name == content.buyerName && request.buyer.legalName == content.buyerLegalName
    && request.buyer.taxCode == content.buyerTaxCode && request.buyer.address == content.buyerAddress
    && request.buyer.email == content.buyerEmail && request.buyer.phone == content.buyerPhone
    && request.buyer.code == content.buyerCode
    && request.summary.sumOfLines == request.summary.totalWithoutTax == content.totalAmountWithoutTax
    && request.summary.totalTax == content.totalTaxAmount && request.summary.totalWithTax == content.totalAmountWithTax
  }

  /** The create request for an invoice with these items: it names the invoice's own transactionUuid if it has
      one, and says everything else the invoice, its items and the configuration say. */
  ghost predicate RequestFor(request: ViettelRequest, inv: Invoice, items: seq<InvoiceItem>, cfg: IssuerConfig,
                             seller: SellerInfo, now: Time, fallback: string) {
    && (if Blank(inv.transactionUuid) then request.general.transactionUuid == fallback
        else inv.transactionUuid == Some(request.general.transactionUuid))
    && LinesFor(request.lines, items) && Grouped(items, request.taxBreakdowns)
    && GeneralFor(request.general, inv.content, cfg, now) && HeaderFor(request, inv.content, seller)
  }

  method MapInvoiceToViettel(inv: Invoice, items: seq<InvoiceItem>, cfg: IssuerConfig, seller: SellerInfo,
                             now: Time, fallback: string) returns (request: ViettelRequest)
    ensures RequestFor(request, inv, items, cfg, seller, now, fallback)
  {
    hide LinesFor, Grouped;
    var uuid := "";
    if inv.transactionUuid.Some? && inv.transactionUuid.value != "" {
      uuid := inv.transactionUuid.value;
    } else {
      uuid := fallback;
    }
    var millis := now / MILLISECOND;
    var paymentMethod := "TM/CK";
    if inv.content.paymentMethod != "" {
      paymentMethod := inv.content.paymentMethod;
    }
    var c := inv.content;
    var general := GeneralInfo(cfg.invoiceType, cfg.templateCode, cfg.invoiceSeries, uuid, c.currency,
                               1.0, "1", true, millis, c.notes, 0);
    var buyer := BuyerInfo(c.buyerName, c.buyerLegalName, c.buyerTaxCode, c.buyerAddress,
                           c.buyerEmail, c.buyerPhone, c.buyerCode);
    var lines := MapItems(items);
    var groups := BuildTaxBreakdowns(items);
    request := ViettelRequest(general, BuildSellerInfo(seller), buyer, [paymentMethod], lines, groups,
                              Summary(c.totalAmountWithoutTax, c.totalAmountWithoutTax,
                                      c.totalTaxAmount, c.totalAmountWithTax));
  }
}
