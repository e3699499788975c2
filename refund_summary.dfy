/** The refund tax summary (the module-level functions of
    RefundCreatedWebhookHandler.ts): refund lines are grouped by the
    (rate, title) of their first tax line, the net price and tax of each line
    are accumulated into its group, the refund total is the sum of the line
    subtotals, and a discrepancy above one cent between that total and the
    groups is pushed into the first group with the largest price. */
module RefundSummaries {
  import opened Results
  import opened Money
  import opened TicketRequests
  import opened TaxGrouping

  datatype MoneyType = ShopMoney | PresentmentMoney

  /** One currency's `{ amount, currency_code }` in the payload. `amount` is
      held as the whole number of cents parseAmount reads from the amount
      string (Money.ParseAmount always yields whole cents). */
  datatype MoneyEntry = MoneyEntry(amount: int, currencyCode: string)

  datatype MoneySet = MoneySet(shopMoney: MoneyEntry, presentmentMoney: MoneyEntry)
  {
    function Pick(t: MoneyType): MoneyEntry {
      match t
      case ShopMoney => shopMoney
      case PresentmentMoney => presentmentMoney
    }
  }

  /** A tax line of the refunded order line. */
  datatype TaxLine = TaxLine(priceSet: MoneySet, rate: TaxRate, title: string)

  /** A refund line: its subtotal and the tax lines of the order line it refunds. */
  datatype RefundLineItem = RefundLineItem(subtotalSet: MoneySet, taxLines: seq<TaxLine>)

  datatype RefundPayload = RefundPayload(id: int, orderId: int, createdAt: string, lineItems: seq<RefundLineItem>)

  /** The TypeErrors the summary can raise: a line without tax lines, or no
      line to take the currency from. */
  datatype SummaryError = MissingTaxLine | NoLineItems

  /** An amount in whole cents and its currency. */
  datatype Amount = Amount(cents: int, currency: string)

  /** `getMoneyAmount`: the amount and currency of the chosen money type. */
  function GetMoneyAmount(s: MoneySet, t: MoneyType): Amount {
    Amount(s.Pick(t).amount, s.Pick(t).currencyCode)
  }

  function Subtotal(item: RefundLineItem, t: MoneyType): int {
    GetMoneyAmount(item.subtotalSet, t).cents
  }

  /** `calculateTotalRefundAmount`: the line subtotals added up; the tax is
      not added on top, as the subtotal is taken to include it. */
  function CalculateTotalRefundAmount(items: seq<RefundLineItem>, t: MoneyType): (total: int)
    ensures |items| == 1 ==> total == Subtotal(items[0], t)
    ensures SubtotalsNonNegative(items, t) ==> total >= 0
  {
    if items == [] then 0
    else CalculateTotalRefundAmount(items[..|items| - 1], t) + Subtotal(items[|items| - 1], t)
  }

  predicate SubtotalsNonNegative(items: seq<RefundLineItem>, t: MoneyType) {
    forall i :: 0 <= i < |items| ==> Subtotal(items[i], t) >= 0
  }

  /** The total of two runs of lines is the sum of their totals, so the
      order in which lines are grouped does not matter. */
  lemma {:induction false} RefundTotalAppend(a: seq<RefundLineItem>, b: seq<RefundLineItem>, t: MoneyType)
    ensures CalculateTotalRefundAmount(a + b, t) == CalculateTotalRefundAmount(a, t) + CalculateTotalRefundAmount(b, t)
  {
    if b != [] {
      var n := |b| - 1;
      assert (a + b)[..|a + b| - 1] == a + b[..n];
      RefundTotalAppend(a, b[..n], t);
    } else {
      assert a + b == a;
    }
  }

  /** The same total as the source computes it on numbers: safeAdd of the
      subtotals, left to right from 0. */
  function RefundTotalFold(items: seq<RefundLineItem>, t: MoneyType): real {
    if items == [] then 0.0
    else SafeAdd(RefundTotalFold(items[..|items| - 1], t), FromCents(Subtotal(items[|items| - 1], t)))
  }

  /** Counting in integer cents gives exactly the source's rounded total. */
  lemma {:induction false} RefundTotalInCents(items: seq<RefundLineItem>, t: MoneyType)
    ensures RefundTotalFold(items, t) == FromCents(CalculateTotalRefundAmount(items, t))
    ensures Round2(RefundTotalFold(items, t)) == RefundTotalFold(items, t)
  {
    var total := CalculateTotalRefundAmount(items, t);
    if items != [] {
      var p := items[..|items| - 1];
      RefundTotalInCents(p, t);
      SafeAddCents(CalculateTotalRefundAmount(p, t), Subtotal(items[|items| - 1], t));
    }
    SafeAddCents(total, 0);
  }

  predicate HasTaxLine(item: RefundLineItem) {
    |item.taxLines| > 0
  }

  predicate AllHaveTaxLines(items: seq<RefundLineItem>) {
    forall i :: 0 <= i < |items| ==> HasTaxLine(items[i])
  }

  /** The first `n` lines all have a tax line. */
  predicate FirstHaveTaxLines(items: seq<RefundLineItem>, n: nat) {
    n <= |items| && forall i :: 0 <= i < n ==> HasTaxLine(items[i])
  }

  /** The group key `${rate}-${title}` of a line's first tax line. */
  datatype GroupKey = GroupKey(rate: TaxRate, title: string)

  function LineKey(item: RefundLineItem): GroupKey
    requires HasTaxLine(item)
  {
    GroupKey(item.taxLines[0].rate, item.taxLines[0].title)
  }

  /** `safeDivide(subtotal, 1 + rate)` in whole cents: the subtotal over
      1 + rate, rounded half up, that is (subtotal * S / (S + rate) + 1/2)
      rounded down, with S = RateScale written out (see NetCentsIsSafeDivide). */
  function NetCents(subtotal: int, rate: TaxRate): int {
    (2_000_000 * subtotal + 1_000_000 + rate) / (2_000_000 + 2 * rate)
  }

  /** The integer computation is the source's safeDivide on the amounts. */
  lemma NetCentsIsSafeDivide(subtotal: int, rate: TaxRate)
    ensures FromCents(NetCents(subtotal, rate)) == SafeDivide(FromCents(subtotal), 1.0 + RateValue(rate))
  {
    var n, d := 2_000_000 * subtotal + 1_000_000 + rate, 2_000_000 + 2 * rate;
    var q := FromCents(subtotal) / (1.0 + RateValue(rate));
    NetRatio(subtotal, rate);
    assert q * 100.0 + 0.5 == n as real / d as real;
    FloorOfRatio(n, d);
  }

  /** The rounding argument of safeDivide, as a ratio of integers. */
  lemma NetRatio(subtotal: int, rate: TaxRate)
    ensures FromCents(subtotal) / (1.0 + RateValue(rate)) * 100.0 + 0.5
      == (2_000_000 * subtotal + 1_000_000 + rate) as real / (2_000_000 + 2 * rate) as real
  {
    var x, z := subtotal as real, 1_000_000.0 + rate as real;
    var a, b := FromCents(subtotal), 1.0 + RateValue(rate);
    assert a * 100.0 == x;
    assert b * 1_000_000.0 == z;
    var w := a / b * 100.0;
    assert w * b == a * 100.0;
    assert w * z == x * 1_000_000.0 by {
      calc {
        w * z;
        w * (b * 1_000_000.0);
        (w * b) * 1_000_000.0;
      }
    }
    var n, d := (2_000_000 * subtotal + 1_000_000 + rate) as real, (2_000_000 + 2 * rate) as real;
    assert n == 2_000_000.0 * x + z && d == 2.0 * z;
    assert (w + 0.5) * d == n;
    QuotientOf(w + 0.5, n, d);
  }

  /** A number times a non-zero divisor gives the dividend: it is the quotient. */
  lemma QuotientOf(q: real, n: real, d: real)
    requires d != 0.0 && q * d == n
    ensures q == n / d
  {
  }

  /** The net price of a line: the subtotal with the tax taken out when
      taxes are included, the subtotal itself otherwise. */
  function LineBase(item: RefundLineItem, t: MoneyType, taxesIncluded: bool): int
    requires HasTaxLine(item)
  {
    if taxesIncluded then NetCents(Subtotal(item, t), item.taxLines[0].rate) else Subtotal(item, t)
  }

  /** The tax of a line: the rest of the subtotal when taxes are included, so
      that net price and tax add up to the subtotal; the first tax line's own
      amount otherwise. */
  function LineTax(item: RefundLineItem, t: MoneyType, taxesIncluded: bool): (x: int)
    requires HasTaxLine(item)
    ensures taxesIncluded ==> LineBase(item, t, taxesIncluded) + x == Subtotal(item, t)
    ensures !taxesIncluded ==> x == GetMoneyAmount(item.taxLines[0].priceSet, t).cents
  {
    if taxesIncluded then Subtotal(item, t) - LineBase(item, t, taxesIncluded)
    else GetMoneyAmount(item.taxLines[0].priceSet, t).cents
  }

  /** The line amounts are the source's: safeDivide for the net price and
      roundToTwoDecimals of the difference for the tax, when taxes are
      included. */
  lemma LineAmountsMatch(item: RefundLineItem, t: MoneyType)
    requires HasTaxLine(item)
    ensures FromCents(LineBase(item, t, true))
      == SafeDivide(FromCents(Subtotal(item, t)), 1.0 + RateValue(item.taxLines[0].rate))
    ensures FromCents(LineTax(item, t, true))
      == Round2(FromCents(Subtotal(item, t)) - FromCents(LineBase(item, t, true)))
  {
    var s, b := Subtotal(item, t), LineBase(item, t, true);
    NetCentsIsSafeDivide(s, item.taxLines[0].rate);
    SafeAddCents(s - b, 0);
    assert FromCents(s) - FromCents(b) == FromCents(s - b);
  }

  /** What a line contributes to the group of its key. */
  function EntryOf(item: RefundLineItem, t: MoneyType, taxesIncluded: bool): Entry<GroupKey>
    requires HasTaxLine(item)
  {
    Entry(LineKey(item), LineBase(item, t, taxesIncluded), LineTax(item, t, taxesIncluded))
  }

  /** The entries of the first `n` lines, in line order. */
  function Entries(items: seq<RefundLineItem>, n: nat, t: MoneyType, taxesIncluded: bool): (es: seq<Entry<GroupKey>>)
    requires FirstHaveTaxLines(items, n)
    ensures |es| == n
  {
    if n == 0 then [] else Entries(items, n - 1, t, taxesIncluded) + [EntryOf(items[n - 1], t, taxesIncluded)]
  }

  function EntriesOf(items: seq<RefundLineItem>, t: MoneyType, taxesIncluded: bool): (es: seq<Entry<GroupKey>>)
    requires AllHaveTaxLines(items)
    ensures |es| == |items|
  {
    Entries(items, |items|, t, taxesIncluded)
  }

  /** With taxes included every line's net price and tax add up to its
      subtotal, so the first `n` lines add up to their subtotals. */
  lemma {:induction false} IncludedPrefixSum(items: seq<RefundLineItem>, n: nat, t: MoneyType)
    requires FirstHaveTaxLines(items, n)
    ensures EntriesSum(Entries(items, n, t, true)) == CalculateTotalRefundAmount(items[..n], t)
  {
    if n > 0 {
      IncludedPrefixSum(items, n - 1, t);
      var es := Entries(items, n, t, true);
      assert es[..n - 1] == Entries(items, n - 1, t, true);
      assert items[..n][..n - 1] == items[..n - 1];
    }
  }

  lemma IncludedEntriesSum(items: seq<RefundLineItem>, t: MoneyType)
    requires AllHaveTaxLines(items)
    ensures EntriesSum(EntriesOf(items, t, true)) == CalculateTotalRefundAmount(items, t)
  {
    IncludedPrefixSum(items, |items|, t);
    assert items[..|items|] == items;
  }

  /** The taxes of the first `n` lines' first tax lines, added up. */
  function TaxSum(items: seq<RefundLineItem>, n: nat, t: MoneyType): int
    requires FirstHaveTaxLines(items, n)
  {
    if n == 0 then 0 else TaxSum(items, n - 1, t) + LineTax(items[n - 1], t, false)
  }

  /** Without taxes included the lines add up to the subtotals plus the taxes. */
  lemma {:induction false} ExcludedPrefixSum(items: seq<RefundLineItem>, n: nat, t: MoneyType)
    requires FirstHaveTaxLines(items, n)
    ensures EntriesSum(Entries(items, n, t, false)) == CalculateTotalRefundAmount(items[..n], t) + TaxSum(items, n, t)
  {
    if n > 0 {
      ExcludedPrefixSum(items, n - 1, t);
      var es := Entries(items, n, t, false);
      assert es[..n - 1] == Entries(items, n - 1, t, false);
      assert items[..n][..n - 1] == items[..n - 1];
    }
  }

  /** The body of the loop over the refund lines, up to the group update:
      the key `${rate}-${title}` of the first tax line, the net price and the
      tax of the line. */
  method LineAmounts(item: RefundLineItem, t: MoneyType, taxesIncluded: bool)
    returns (key: GroupKey, basePrice: int, tax: int)
    requires HasTaxLine(item)
    ensures Entry(key, basePrice, tax) == EntryOf(item, t, taxesIncluded)
    ensures key.rate == item.taxLines[0].rate && key.title == item.taxLines[0].title
    ensures taxesIncluded ==> basePrice + tax == Subtotal(item, t)
    ensures !taxesIncluded ==> basePrice == Subtotal(item, t)
  {
    var subtotal := GetMoneyAmount(item.subtotalSet, t).cents;
    var taxLine := item.taxLines[0];
    key := GroupKey(taxLine.rate, taxLine.title);
    if taxesIncluded {
      basePrice := NetCents(subtotal, taxLine.rate);
      tax := subtotal - basePrice;
    } else {
      basePrice := subtotal;
      tax := GetMoneyAmount(taxLine.priceSet, t).cents;
    }
  }

  /** `groupRefundLineItemsByTaxRate`: fails on the first line without a tax
      line; otherwise yields the groups of `Grouped`. */
  method GroupRefundLineItemsByTaxRate(refund: RefundPayload, t: MoneyType, taxesIncluded: bool)
    returns (r: Result<seq<Group<GroupKey>>, SummaryError>)
    ensures r.Success? <==> AllHaveTaxLines(refund.lineItems)
    ensures r.Success? ==> r.value == Grouped(EntriesOf(refund.lineItems, t, taxesIncluded))
    ensures r.Failure? ==> r.error == MissingTaxLine
  {
    var items := refund.lineItems;
    var taxGroups: seq<Group<GroupKey>> := [];
    for n := 0 to |items|
      invariant FirstHaveTaxLines(items, n)
      invariant taxGroups == Grouped(Entries(items, n, t, taxesIncluded))
    {
      if |items[n].taxLines| == 0 {
        return Failure(MissingTaxLine);
      }
      var key, basePrice, tax := LineAmounts(items[n], t, taxesIncluded);
      GroupedStep(items, n, t, taxesIncluded);
      taxGroups := AddToGroup(taxGroups, Entry(key, basePrice, tax));
    }
    assert AllHaveTaxLines(items);
    return Success(taxGroups);
  }

  /** One more line adds its entry to the groups of the lines before it. */
  lemma GroupedStep(items: seq<RefundLineItem>, n: nat, t: MoneyType, taxesIncluded: bool)
    requires FirstHaveTaxLines(items, n + 1)
    ensures Grouped(Entries(items, n + 1, t, taxesIncluded))
      == AddToGroup(Grouped(Entries(items, n, t, taxesIncluded)), EntryOf(items[n], t, taxesIncluded))
  {
    GroupedSnoc(Entries(items, n, t, taxesIncluded), EntryOf(items[n], t, taxesIncluded));
  }

  /** The `Array.from(taxGroups.entries()).map(...)` of the summary: one line
      per group, in insertion order (the rounding is exact on whole cents). */
  function ToSummaryLines(groups: seq<Group<GroupKey>>, currency: string): (lines: seq<SummaryTaxLine>)
    ensures |lines| == |groups|
    ensures forall i :: 0 <= i < |groups| ==>
      lines[i] == SummaryTaxLine(groups[i].price, groups[i].tax, groups[i].key.rate, groups[i].key.title, currency)
  {
    seq(|groups|, i requires 0 <= i < |groups| =>
      SummaryTaxLine(groups[i].price, groups[i].tax, groups[i].key.rate, groups[i].key.title, currency))
  }

  lemma {:induction false} SummaryLinesTotal(groups: seq<Group<GroupKey>>, currency: string)
    ensures LinesTotal(ToSummaryLines(groups, currency)) == GroupsTotal(groups)
  {
    if groups != [] {
      var n := |groups| - 1;
      SummaryLinesTotal(groups[..n], currency);
      assert ToSummaryLines(groups, currency)[..n] == ToSummaryLines(groups[..n], currency);
    }
  }

  /** Replacing one line changes the total by the difference of the two lines. */
  lemma {:induction false} LinesTotalUpdate(lines: seq<SummaryTaxLine>, i: nat, line: SummaryTaxLine)
    requires i < |lines|
    ensures LinesTotal(lines[i := line]) == LinesTotal(lines) - lines[i].price - lines[i].tax + line.price + line.tax
  {
    var n := |lines| - 1;
    if i < n {
      LinesTotalUpdate(lines[..n], i, line);
      assert lines[i := line][..n] == lines[..n][i := line];
    } else {
      assert lines[i := line][..n] == lines[..n];
    }
  }

  /** With taxes included the summary lines add up to the refund total. */
  lemma IncludedBalance(items: seq<RefundLineItem>, t: MoneyType, currency: string)
    requires AllHaveTaxLines(items)
    ensures LinesTotal(ToSummaryLines(Grouped(EntriesOf(items, t, true)), currency)) == CalculateTotalRefundAmount(items, t)
  {
    var es := EntriesOf(items, t, true);
    GroupedTotal(es);
    SummaryLinesTotal(Grouped(es), currency);
    IncludedEntriesSum(items, t);
  }

  /** The reduce that picks `largestGroup`: the first line with the largest
      price (a later line replaces the current one only when strictly larger). */
  function LargestPriceIndex(lines: seq<SummaryTaxLine>): (i: nat)
    requires |lines| > 0
    ensures i < |lines|
    ensures forall j :: 0 <= j < |lines| ==> lines[j].price <= lines[i].price
    ensures forall j :: 0 <= j < i ==> lines[j].price < lines[i].price
  {
    if |lines| == 1 then 0
    else
      var m := LargestPriceIndex(lines[..|lines| - 1]);
      if lines[|lines| - 1].price > lines[m].price then |lines| - 1 else m
  }

  /** The discrepancy `d` added to the price of the line `LargestPriceIndex`
      picks: only that line changes, and the total moves by `d`. */
  function MoveDiscrepancy(lines: seq<SummaryTaxLine>, d: int): (moved: seq<SummaryTaxLine>)
    requires |lines| > 0
    ensures |moved| == |lines|
    ensures LinesTotal(moved) == LinesTotal(lines) + d
    ensures forall j :: 0 <= j < |lines| && j != LargestPriceIndex(lines) ==> moved[j] == lines[j]
    ensures var m := LargestPriceIndex(lines);
      moved[m] == lines[m].(price := lines[m].price + d)
  {
    var m := LargestPriceIndex(lines);
    var line := lines[m].(price := lines[m].price + d);
    LinesTotalUpdate(lines, m, line);
    lines[m := line]
  }

  /** The rounding fix-up: when the lines miss the total by more than a
      cent, the whole discrepancy goes into the first line with the largest
      price, and the lines then add up to the total exactly. */
  function Rebalance(lines: seq<SummaryTaxLine>, total: int): (adjusted: seq<SummaryTaxLine>)
    requires |lines| > 0
    ensures |adjusted| == |lines|
    ensures -1 <= total - LinesTotal(lines) <= 1 ==> adjusted == lines
    ensures !(-1 <= total - LinesTotal(lines) <= 1) ==> LinesTotal(adjusted) == total
    ensures -1 <= total - LinesTotal(adjusted) <= 1
    ensures forall j :: 0 <= j < |lines| && j != LargestPriceIndex(lines) ==> adjusted[j] == lines[j]
  {
    var d := total - LinesTotal(lines);
    if -1 <= d <= 1 then lines else MoveDiscrepancy(lines, d)
  }

  /** The summary lines of `generateRefundSummary`: one per group, then the
      discrepancy check against the refund total and the fix-up. */
  method SummaryLines(taxGroups: seq<Group<GroupKey>>, currency: string, totalAmount: int)
    returns (taxLines: seq<SummaryTaxLine>)
    requires |taxGroups| > 0
    ensures taxLines == Rebalance(ToSummaryLines(taxGroups, currency), totalAmount)
    ensures -1 <= totalAmount - LinesTotal(taxLines) <= 1
  {
    taxLines := ToSummaryLines(taxGroups, currency);
    var calculatedTotal := LinesTotal(taxLines);
    var discrepancy := totalAmount - calculatedTotal;
    if discrepancy > 1 || discrepancy < -1 {
      var m := LargestPriceIndex(taxLines);
      taxLines := taxLines[m := taxLines[m].(price := taxLines[m].price + discrepancy)];
    }
  }

  /** `generateRefundSummary`. The summary copies the refund's identity,
      takes its currency from the first line, totals the subtotals, and lists
      one line per group in first-seen order, rebalanced so that the lines
      add up to the total to within a cent. */
  method GenerateRefundSummary(refund: RefundPayload, t: MoneyType, taxesIncluded: bool)
    returns (r: Result<RefundSummary, SummaryError>)
    ensures !AllHaveTaxLines(refund.lineItems) ==> r == Failure(MissingTaxLine)
    ensures AllHaveTaxLines(refund.lineItems) && refund.lineItems == [] ==> r == Failure(NoLineItems)
    ensures r.Success? <==> AllHaveTaxLines(refund.lineItems) && refund.lineItems != []
    ensures r.Success? ==>
      var s, items := r.value, refund.lineItems;
      && s.id == refund.id && s.orderId == refund.orderId && s.createdAt == refund.createdAt
      && s.currency == items[0].subtotalSet.Pick(t).currencyCode
      && s.totalAmount == CalculateTotalRefundAmount(items, t)
      && var lines := ToSummaryLines(Grouped(EntriesOf(items, t, taxesIncluded)), s.currency);
         |lines| > 0 && s.taxLines == Rebalance(lines, s.totalAmount)
    ensures r.Success? ==> -1 <= r.value.totalAmount - LinesTotal(r.value.taxLines) <= 1
    ensures r.Success? && taxesIncluded ==>
      && r.value.taxLines == ToSummaryLines(Grouped(EntriesOf(refund.lineItems, t, true)), r.value.currency)
      && LinesTotal(r.value.taxLines) == r.value.totalAmount
  {
    var grouped := GroupRefundLineItemsByTaxRate(refund, t, taxesIncluded);
    if grouped.Failure? {
      return Failure(grouped.error);
    }
    var items := refund.lineItems;
    var taxGroups := grouped.value;
    var totalAmount := CalculateTotalRefundAmount(items, t);
    if |items| == 0 {
      return Failure(NoLineItems);
    }
    var currency := items[0].subtotalSet.Pick(t).currencyCode;
    GroupedKeys(EntriesOf(items, t, taxesIncluded));
    var taxLines := SummaryLines(taxGroups, currency, totalAmount);
    if taxesIncluded {
      IncludedBalance(items, t, currency);
    }
    return Success(RefundSummary(refund.id, refund.orderId, refund.createdAt,
                                 totalAmount, currency, taxLines));
  }

  /** What `handle` does with a refund webhook: discards a refund without
      lines; otherwise builds the shop-currency summary and hands its ticket
      request to the (opaque) ticket lookup-or-generation. */
  datatype HandleOutcome = Discarded | Crashed(error: SummaryError) | Requested(request: TicketCreateRequest)

  method Handle(payload: RefundPayload, taxesIncluded: bool) returns (o: HandleOutcome)
    ensures payload.lineItems == [] <==> o == Discarded
    ensures payload.lineItems != [] ==> (o.Requested? <==> AllHaveTaxLines(payload.lineItems))
    ensures o.Requested? ==>
      && o.request.RefundRequest?
      && o.request.refundId == payload.id && o.request.orderId == payload.orderId
      && o.request.createdAt == DateOf(payload.createdAt)
      && o.request.totalAmount == CalculateTotalRefundAmount(payload.lineItems, ShopMoney)
      && -1 <= o.request.totalAmount - LinesTotal(o.request.taxLines) <= 1
      && o.request.currency == payload.lineItems[0].subtotalSet.shopMoney.currencyCode
  {
    if |payload.lineItems| == 0 {
      return Discarded;
    }
    var shopSummary := GenerateRefundSummary(payload, ShopMoney, taxesIncluded);
    if shopSummary.Failure? {
      return Crashed(shopSummary.error);
    }
    return Requested(MapToRefundTicketCreateRequest(shopSummary.value));
  }
}
