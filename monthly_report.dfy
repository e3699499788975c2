/** The monthly accounting report (MonthlyReportGenerator.ts, MonthlyReport.ts):
    the period's tickets are folded into one group per tax rate, refunds with
    their sign flipped; a period without tickets, or whose running total does
    not match its groups, is rejected; otherwise the report is a header, one
    customer position for the total, and an income and a tax position per
    rate with a non-zero amount, numbered consecutively from 1. Amounts are
    whole cents (on which roundToTwoDecimals is exact). */
module MonthlyReports {
  import opened Results
  import opened Decimal
  import opened TicketRequests
  import opened TaxGrouping

  /** The fields of a stored ticket that the report reads. */
  datatype Ticket = Ticket(id: string, kind: TicketType, totalAmount: int, currency: string, taxLines: seq<SummaryTaxLine>)

  datatype ReportError = NoTickets | TotalMismatch

  function Message(e: ReportError): string {
    match e
    case NoTickets => "No tickets found for the specified period"
    case TotalMismatch => "Report total and detail doesn't match"
  }

  /** `x * multiplier`, the multiplier being -1 for a refund and 1 otherwise. */
  function Signed(t: Ticket, x: int): int {
    if t.kind == RefundTicket then -x else x
  }

  /** What tax line `j` of a ticket adds to the group of its rate. */
  function LineEntry(t: Ticket, j: nat): Entry<TaxRate>
    requires j < |t.taxLines|
  {
    Entry(t.taxLines[j].rate, Signed(t, t.taxLines[j].price), Signed(t, t.taxLines[j].tax))
  }

  /** The entries of the first `j` tax lines of a ticket. */
  function LineEntries(t: Ticket, j: nat): (es: seq<Entry<TaxRate>>)
    requires j <= |t.taxLines|
    ensures |es| == j
  {
    if j == 0 then [] else LineEntries(t, j - 1) + [LineEntry(t, j - 1)]
  }

  /** The entries of the first `k` tickets, ticket by ticket and line by line. */
  function ReportEntries(tickets: seq<Ticket>, k: nat): seq<Entry<TaxRate>>
    requires k <= |tickets|
  {
    if k == 0 then [] else ReportEntries(tickets, k - 1) + LineEntries(tickets[k - 1], |tickets[k - 1].taxLines|)
  }

  /** `totalWithTax` after the first `k` tickets: their signed totals. */
  function SignedTotal(tickets: seq<Ticket>, k: nat): int
    requires k <= |tickets|
  {
    if k == 0 then 0 else SignedTotal(tickets, k - 1) + Signed(tickets[k - 1], tickets[k - 1].totalAmount)
  }

  /** The signed price-plus-tax of the tax lines of the first `k` tickets. */
  function SignedLinesTotal(tickets: seq<Ticket>, k: nat): int
    requires k <= |tickets|
  {
    if k == 0 then 0 else SignedLinesTotal(tickets, k - 1) + Signed(tickets[k - 1], LinesTotal(tickets[k - 1].taxLines))
  }

  lemma {:induction false} LineEntriesSum(t: Ticket, j: nat)
    requires j <= |t.taxLines|
    ensures EntriesSum(LineEntries(t, j)) == Signed(t, LinesTotal(t.taxLines[..j]))
  {
    if j > 0 {
      LineEntriesSum(t, j - 1);
      var es := LineEntries(t, j);
      assert es[..j - 1] == LineEntries(t, j - 1);
      assert t.taxLines[..j][..j - 1] == t.taxLines[..j - 1];
    }
  }

  /** The entries add up to the signed price-plus-tax of the tickets' lines. */
  lemma {:induction false} ReportEntriesSum(tickets: seq<Ticket>, k: nat)
    requires k <= |tickets|
    ensures EntriesSum(ReportEntries(tickets, k)) == SignedLinesTotal(tickets, k)
  {
    if k > 0 {
      var t := tickets[k - 1];
      ReportEntriesSum(tickets, k - 1);
      LineEntriesSum(t, |t.taxLines|);
      assert t.taxLines[..|t.taxLines|] == t.taxLines;
      EntriesSumAppend(ReportEntries(tickets, k - 1), LineEntries(t, |t.taxLines|));
    }
  }

  /** The groups add up to the signed lines, so the total check compares the
      tickets' signed totals with their lines' signed price-plus-tax. */
  lemma GroupsMatchLines(tickets: seq<Ticket>)
    ensures GroupsTotal(Grouped(ReportEntries(tickets, |tickets|))) == SignedLinesTotal(tickets, |tickets|)
  {
    GroupedTotal(ReportEntries(tickets, |tickets|));
    ReportEntriesSum(tickets, |tickets|);
  }

  /** A ticket whose total is the price plus tax of its lines. */
  predicate Balanced(t: Ticket) {
    t.totalAmount == LinesTotal(t.taxLines)
  }

  /** When every ticket balances, the total check passes. */
  lemma {:induction false} BalancedTicketsMatch(tickets: seq<Ticket>, k: nat)
    requires k <= |tickets|
    requires forall i :: 0 <= i < k ==> Balanced(tickets[i])
    ensures SignedTotal(tickets, k) == SignedLinesTotal(tickets, k)
  {
    if k > 0 {
      BalancedTicketsMatch(tickets, k - 1);
    }
  }

  /** `TaxLineGrouping`. */
  datatype TaxLineGrouping = TaxLineGrouping(
    firstTicket: Ticket, lastTicket: Ticket, currency: string,
    taxGroups: seq<Group<TaxRate>>, totalWithTax: int)

  /** The inner loop of `groupTicketsAndTaxLines`: every tax line of one
      ticket, signed, added to the group of its rate. */
  method AddTicketLines(taxGroups: seq<Group<TaxRate>>, ticket: Ticket, ghost before: seq<Entry<TaxRate>>)
    returns (grouped: seq<Group<TaxRate>>)
    requires taxGroups == Grouped(before)
    ensures grouped == Grouped(before + LineEntries(ticket, |ticket.taxLines|))
  {
    grouped := taxGroups;
    assert before + LineEntries(ticket, 0) == before;
    for j := 0 to |ticket.taxLines|
      invariant grouped == Grouped(before + LineEntries(ticket, j))
    {
      var taxLine := ticket.taxLines[j];
      var e := Entry(taxLine.rate, Signed(ticket, taxLine.price), Signed(ticket, taxLine.tax));
      GroupedSnoc(before + LineEntries(ticket, j), e);
      assert before + LineEntries(ticket, j + 1) == before + LineEntries(ticket, j) + [e];
      grouped := AddToGroup(grouped, e);
    }
  }

  /** The totals loop of `groupTicketsAndTaxLines`: price plus tax over the
      groups. */
  method SumGroups(taxGroups: seq<Group<TaxRate>>) returns (totalAmount: int)
    ensures totalAmount == GroupsTotal(taxGroups)
  {
    totalAmount := 0;
    for i := 0 to |taxGroups|
      invariant totalAmount == GroupsTotal(taxGroups[..i])
    {
      assert taxGroups[..i + 1][..i] == taxGroups[..i];
      totalAmount := totalAmount + taxGroups[i].price + taxGroups[i].tax;
    }
    assert taxGroups[..|taxGroups|] == taxGroups;
  }

  /** `groupTicketsAndTaxLines`. */
  method GroupTicketsAndTaxLines(tickets: seq<Ticket>) returns (r: Result<TaxLineGrouping, ReportError>)
    ensures tickets == [] ==> r == Failure(NoTickets)
    ensures tickets != [] ==>
      (r.Success? <==> SignedTotal(tickets, |tickets|) == SignedLinesTotal(tickets, |tickets|))
    ensures tickets != [] && r.Failure? ==> r.error == TotalMismatch
    ensures r.Success? ==>
      && r.value.firstTicket == tickets[0]
      && r.value.lastTicket == tickets[|tickets| - 1]
      && r.value.currency == tickets[0].currency
      && r.value.taxGroups == Grouped(ReportEntries(tickets, |tickets|))
      && r.value.totalWithTax == SignedTotal(tickets, |tickets|)
      && r.value.totalWithTax == GroupsTotal(r.value.taxGroups)
  {
    var firstTicket: Option<Ticket> := None;
    var lastTicket: Option<Ticket> := None;
    var currency := "";
    var totalWithTax := 0;
    var taxGroups: seq<Group<TaxRate>> := [];
    for k := 0 to |tickets|
      invariant k == 0 ==> firstTicket.None? && lastTicket.None?
      invariant k > 0 ==> firstTicket == Some(tickets[0]) && lastTicket == Some(tickets[k - 1])
      invariant k > 0 ==> currency == tickets[0].currency
      invariant totalWithTax == SignedTotal(tickets, k)
      invariant taxGroups == Grouped(ReportEntries(tickets, k))
    {
      var ticket := tickets[k];
      if firstTicket.None? {
        firstTicket := Some(ticket);
        currency := ticket.currency;
      }
      lastTicket := Some(ticket);
      totalWithTax := totalWithTax + Signed(ticket, ticket.totalAmount);
      taxGroups := AddTicketLines(taxGroups, ticket, ReportEntries(tickets, k));
    }
    if firstTicket.None? || lastTicket.None? {
      return Failure(NoTickets);
    }
    var totalAmount := SumGroups(taxGroups);
    GroupsMatchLines(tickets);
    if totalWithTax != totalAmount {
      return Failure(TotalMismatch);
    }
    return Success(TaxLineGrouping(firstTicket.value, lastTicket.value, currency, taxGroups, totalWithTax));
  }

  /** The fixed values of the posting. */
  const Sociedad := "H002"
  const ClaseDocumento := "Factura"
  const CuentaCliente := "Cliente"
  const CentroBeneficio := "CEBE"
  const CuentaIngreso := "7050000000"
  const CuentaImpuestos := "4770000000"
  const ElementoPep := "IMPUTACI\U{00C3}\U{201C}N"

  /** `Cabecera`; the identifier is assigned when the report is stored. */
  datatype MonthlyReportHeader = MonthlyReportHeader(
    identificador: Option<string>, fechaDocumento: string, fechaContable: string,
    ejercicio: string, periodo: string, sociedad: string, claseDocumento: string,
    referencia: string, textoCabecera: string, fechaIva: string)

  datatype CustomerPosition = CustomerPosition(
    posicion: string, cuentaCliente: string, cuenta: string, importe: string,
    moneda: string, numAsignacion: string, textoExplicativo: string, centroBeneficio: string)

  datatype IncomePosition = IncomePosition(
    posicion: string, cuentaIngreso: string, importe: string, moneda: string,
    indicadorIva: string, centroBeneficio: string, elementoPep: string,
    numAsignacion: string, textoExplicativo: string)

  datatype TaxPosition = TaxPosition(
    posicion: string, cuentaImpuestos: string, importe: string, moneda: string,
    indicadorIva: string, numAsignacion: string, textoExplicativo: string,
    centroBeneficio: string, baseImponibleIva: string)

  /** `MonthlyReport`, the `Factura` object. */
  datatype MonthlyReport = MonthlyReport(
    cabecera: MonthlyReportHeader, posicionCliente: CustomerPosition,
    posicionIngreso: seq<IncomePosition>, posicionImpuestos: seq<TaxPosition>)

  /** `(rate * 100).toFixed(0)` for a rate in millionths: the whole percent
      nearest the rate, halves rounding up. */
  function Percent(rate: TaxRate): (p: nat)
    ensures p * 10_000 - 5_000 <= rate < p * 10_000 + 5_000
  {
    (rate + 5_000) / 10_000
  }

  /** `formatTaxRate`: digits then "%", the digits reading back as the
      rate's percent. */
  function FormatTaxRate(rate: TaxRate): (s: string)
    ensures |s| >= 2 && s[|s| - 1] == '%'
    ensures AllDigits(s[..|s| - 1]) && DigitsValue(s[..|s| - 1]) == Percent(rate)
  {
    var s := NatToString(Percent(rate)) + "%";
    assert s[..|s| - 1] == NatToString(Percent(rate));
    NatToStringRoundTrip(Percent(rate));
    s
  }

  /** A rate of exactly `p` percent is shown as `p%`. */
  lemma TaxRatePercent(p: nat)
    ensures FormatTaxRate(p * 10_000) == NatToString(p) + "%"
  {
    PercentOfWhole(p);
  }

  /** A whole percent in millionths is shown as that percent. */
  lemma PercentOfWhole(p: nat)
    ensures Percent(p * 10_000) == p
  {
    assert (p * 10_000 + 5_000) / 10_000 == p;
  }

  /** A map entry that gets positions: price or tax not zero. */
  predicate NonZero(g: Group<TaxRate>) {
    g.price != 0 || g.tax != 0
  }

  /** The groups that get positions, in map order. */
  function NonZeroGroups(groups: seq<Group<TaxRate>>): (nz: seq<Group<TaxRate>>)
    ensures |nz| <= |groups|
    ensures forall i :: 0 <= i < |nz| ==> NonZero(nz[i])
  {
    if groups == [] then []
    else
      var g := groups[|groups| - 1];
      NonZeroGroups(groups[..|groups| - 1]) + (if NonZero(g) then [g] else [])
  }

  function IncomePositionOf(g: Group<TaxRate>, posicion: nat, currency: string, range: string): IncomePosition {
    IncomePosition(NatToString(posicion), CuentaIngreso, FormatCents(-g.price), currency,
                   FormatTaxRate(g.key), CentroBeneficio, ElementoPep, range, "")
  }

  function TaxPositionOf(g: Group<TaxRate>, posicion: nat, currency: string, range: string): TaxPosition {
    TaxPosition(NatToString(posicion), CuentaImpuestos, FormatCents(-g.tax), currency,
                FormatTaxRate(g.key), range, "", "", FormatCents(Abs(g.price)))
  }

  /** One income position per group, numbered from `first`. */
  function IncomePositions(nz: seq<Group<TaxRate>>, first: nat, currency: string, range: string): (ps: seq<IncomePosition>)
    ensures |ps| == |nz|
    ensures forall i :: 0 <= i < |nz| ==> ps[i] == IncomePositionOf(nz[i], first + i, currency, range)
  {
    seq(|nz|, i requires 0 <= i < |nz| => IncomePositionOf(nz[i], first + i, currency, range))
  }

  /** One tax position per group, numbered from `first`. */
  function TaxPositions(nz: seq<Group<TaxRate>>, first: nat, currency: string, range: string): (ps: seq<TaxPosition>)
    ensures |ps| == |nz|
    ensures forall i :: 0 <= i < |nz| ==> ps[i] == TaxPositionOf(nz[i], first + i, currency, range)
  {
    seq(|nz|, i requires 0 <= i < |nz| => TaxPositionOf(nz[i], first + i, currency, range))
  }

  lemma NonZeroSnoc(groups: seq<Group<TaxRate>>, k: nat)
    requires k < |groups|
    ensures NonZeroGroups(groups[..k + 1]) == NonZeroGroups(groups[..k]) + (if NonZero(groups[k]) then [groups[k]] else [])
  {
    assert groups[..k + 1][..k] == groups[..k];
  }

  lemma IncomePositionsSnoc(nz: seq<Group<TaxRate>>, g: Group<TaxRate>, first: nat, currency: string, range: string)
    ensures IncomePositions(nz + [g], first, currency, range)
      == IncomePositions(nz, first, currency, range) + [IncomePositionOf(g, first + |nz|, currency, range)]
  {
  }

  lemma TaxPositionsSnoc(nz: seq<Group<TaxRate>>, g: Group<TaxRate>, first: nat, currency: string, range: string)
    ensures TaxPositions(nz + [g], first, currency, range)
      == TaxPositions(nz, first, currency, range) + [TaxPositionOf(g, first + |nz|, currency, range)]
  {
  }

  lemma IncomePositionsPrefix(nz: seq<Group<TaxRate>>, first: nat, currency: string, range: string)
    requires nz != []
    ensures IncomePositions(nz, first, currency, range)[..|nz| - 1] == IncomePositions(nz[..|nz| - 1], first, currency, range)
  {
  }

  /** The last group's position adds minus its price to the total. */
  lemma IncomeTotalSnoc(nz: seq<Group<TaxRate>>, first: nat, currency: string, range: string)
    requires nz != []
    ensures IncomeTotal(IncomePositions(nz, first, currency, range))
      == IncomeTotal(IncomePositions(nz[..|nz| - 1], first, currency, range)) - nz[|nz| - 1].price
  {
    var n := |nz| - 1;
    var ps := IncomePositions(nz, first, currency, range);
    IncomePositionsPrefix(nz, first, currency, range);
    assert ps[..n] == IncomePositions(nz[..n], first, currency, range);
    assert ps[n].importe == FormatCents(-nz[n].price);
    ImporteOfAmount(ps[n].importe, -nz[n].price);
    assert IncomeTotal(ps) == IncomeTotal(ps[..n]) + ImporteValue(ps[n].importe);
  }

  lemma TaxPositionsPrefix(nz: seq<Group<TaxRate>>, first: nat, currency: string, range: string)
    requires nz != []
    ensures TaxPositions(nz, first, currency, range)[..|nz| - 1] == TaxPositions(nz[..|nz| - 1], first, currency, range)
  {
  }

  /** The last group's position adds minus its tax to the total. */
  lemma TaxTotalSnoc(nz: seq<Group<TaxRate>>, first: nat, currency: string, range: string)
    requires nz != []
    ensures TaxTotal(TaxPositions(nz, first, currency, range))
      == TaxTotal(TaxPositions(nz[..|nz| - 1], first, currency, range)) - nz[|nz| - 1].tax
  {
    var n := |nz| - 1;
    var ps := TaxPositions(nz, first, currency, range);
    TaxPositionsPrefix(nz, first, currency, range);
    assert ps[..n] == TaxPositions(nz[..n], first, currency, range);
    assert ps[n].importe == FormatCents(-nz[n].tax);
    ImporteOfAmount(ps[n].importe, -nz[n].tax);
    assert TaxTotal(ps) == TaxTotal(ps[..n]) + ImporteValue(ps[n].importe);
  }

  /** The amount an `Importe` string stands for. */
  function ImporteValue(s: string): int {
    match ParseCents(s)
    case Some(v) => v
    case None => 0
  }

  /** An `Importe` written by `formatAmount` stands for its amount. */
  lemma ImporteOfAmount(s: string, x: int)
    requires s == FormatCents(x)
    ensures ImporteValue(s) == x
  {
    FormatCentsRoundTrip(x);
  }

  function IncomeTotal(ps: seq<IncomePosition>): int {
    if ps == [] then 0 else IncomeTotal(ps[..|ps| - 1]) + ImporteValue(ps[|ps| - 1].importe)
  }

  function TaxTotal(ps: seq<TaxPosition>): int {
    if ps == [] then 0 else TaxTotal(ps[..|ps| - 1]) + ImporteValue(ps[|ps| - 1].importe)
  }

  function PricesTotal(groups: seq<Group<TaxRate>>): int {
    if groups == [] then 0 else PricesTotal(groups[..|groups| - 1]) + groups[|groups| - 1].price
  }

  function TaxesTotal(groups: seq<Group<TaxRate>>): int {
    if groups == [] then 0 else TaxesTotal(groups[..|groups| - 1]) + groups[|groups| - 1].tax
  }

  /** Skipping the zero groups loses nothing from the totals. */
  lemma {:induction false} NonZeroTotals(groups: seq<Group<TaxRate>>)
    ensures PricesTotal(NonZeroGroups(groups)) + TaxesTotal(NonZeroGroups(groups)) == GroupsTotal(groups)
  {
    if groups != [] {
      var p, g := groups[..|groups| - 1], groups[|groups| - 1];
      NonZeroTotals(p);
      var nz := NonZeroGroups(groups);
      if NonZero(g) {
        assert nz[..|nz| - 1] == NonZeroGroups(p);
      } else {
        assert nz == NonZeroGroups(p);
      }
    }
  }

  /** The income amounts add up to minus the prices. */
  lemma {:induction false} IncomeTotalIs(nz: seq<Group<TaxRate>>, first: nat, currency: string, range: string)
    ensures IncomeTotal(IncomePositions(nz, first, currency, range)) == -PricesTotal(nz)
  {
    if nz != [] {
      IncomeTotalIs(nz[..|nz| - 1], first, currency, range);
      IncomeTotalSnoc(nz, first, currency, range);
    }
  }

  /** The tax amounts add up to minus the taxes. */
  lemma {:induction false} TaxTotalIs(nz: seq<Group<TaxRate>>, first: nat, currency: string, range: string)
    ensures TaxTotal(TaxPositions(nz, first, currency, range)) == -TaxesTotal(nz)
  {
    if nz != [] {
      TaxTotalIs(nz[..|nz| - 1], first, currency, range);
      TaxTotalSnoc(nz, first, currency, range);
    }
  }

  /** The positions of a report in order: customer, income, tax. */
  function PositionNumbers(rep: MonthlyReport): seq<string> {
    [rep.posicionCliente.posicion] + IncomeNumbers(rep.posicionIngreso) + TaxNumbers(rep.posicionImpuestos)
  }

  function IncomeNumbers(ps: seq<IncomePosition>): seq<string> {
    seq(|ps|, i requires 0 <= i < |ps| => ps[i].posicion)
  }

  function TaxNumbers(ps: seq<TaxPosition>): seq<string> {
    seq(|ps|, i requires 0 <= i < |ps| => ps[i].posicion)
  }

  /** The income loop of `generateReport`: a position for every group with a
      non-zero price or tax, numbered on from `positionIndex`. */
  method PushIncomePositions(groups: seq<Group<TaxRate>>, positionIndex: nat, currency: string, range: string)
    returns (posicionIngreso: seq<IncomePosition>, index: nat)
    ensures posicionIngreso == IncomePositions(NonZeroGroups(groups), positionIndex + 1, currency, range)
    ensures index == positionIndex + |posicionIngreso|
  {
    posicionIngreso, index := [], positionIndex;
    for k := 0 to |groups|
      invariant posicionIngreso == IncomePositions(NonZeroGroups(groups[..k]), positionIndex + 1, currency, range)
      invariant index == positionIndex + |posicionIngreso|
    {
      var group := groups[k];
      NonZeroSnoc(groups, k);
      if group.price != 0 || group.tax != 0 {
        IncomePositionsSnoc(NonZeroGroups(groups[..k]), group, positionIndex + 1, currency, range);
        index := index + 1;
        posicionIngreso := posicionIngreso + [IncomePositionOf(group, index, currency, range)];
      }
    }
    assert groups[..|groups|] == groups;
  }

  /** The tax loop of `generateReport`, numbered on after the income
      positions. */
  method PushTaxPositions(groups: seq<Group<TaxRate>>, positionIndex: nat, currency: string, range: string)
    returns (posicionImpuestos: seq<TaxPosition>, index: nat)
    ensures posicionImpuestos == TaxPositions(NonZeroGroups(groups), positionIndex + 1, currency, range)
    ensures index == positionIndex + |posicionImpuestos|
  {
    posicionImpuestos, index := [], positionIndex;
    for k := 0 to |groups|
      invariant posicionImpuestos == TaxPositions(NonZeroGroups(groups[..k]), positionIndex + 1, currency, range)
      invariant index == positionIndex + |posicionImpuestos|
    {
      var group := groups[k];
      NonZeroSnoc(groups, k);
      if group.price != 0 || group.tax != 0 {
        TaxPositionsSnoc(NonZeroGroups(groups[..k]), group, positionIndex + 1, currency, range);
        index := index + 1;
        posicionImpuestos := posicionImpuestos + [TaxPositionOf(group, index, currency, range)];
      }
    }
    assert groups[..|groups|] == groups;
  }

  /** The income and tax amounts of the report together cancel the groups'
      total. */
  lemma PositionsBalance(groups: seq<Group<TaxRate>>, currency: string, range: string)
    ensures var nz := NonZeroGroups(groups);
      IncomeTotal(IncomePositions(nz, 2, currency, range)) + TaxTotal(TaxPositions(nz, 2 + |nz|, currency, range))
        == -GroupsTotal(groups)
  {
    var nz := NonZeroGroups(groups);
    IncomeTotalIs(nz, 2, currency, range);
    TaxTotalIs(nz, 2 + |nz|, currency, range);
    NonZeroTotals(groups);
  }

  /** The header: both dates and the VAT date are the last day of the month,
      the period is the month on two digits, the reference the last ticket
      and the header text the first ticket followed by `_`. */
  function HeaderOf(year: nat, month: nat, lastDayFormatted: string, first: Ticket, last: Ticket): MonthlyReportHeader {
    MonthlyReportHeader(
      None, lastDayFormatted, lastDayFormatted, NatToString(year),
      PadStart(NatToString(month), 2, '0'), Sociedad, ClaseDocumento,
      last.id, first.id + "_", lastDayFormatted)
  }

  /** The customer position, always number 1, for the whole total. */
  function CustomerPositionOf(total: int, currency: string, range: string): CustomerPosition {
    CustomerPosition("1", CuentaCliente, "", FormatCents(total), currency, range, "", CentroBeneficio)
  }

  /** The report `generateReport` writes for the period's first and last
      ticket, rate groups and total. */
  function ReportOf(year: nat, month: nat, lastDayFormatted: string, first: Ticket, last: Ticket,
                    groups: seq<Group<TaxRate>>, total: int): MonthlyReport
  {
    var range := first.id + "_" + last.id;
    var nz := NonZeroGroups(groups);
    MonthlyReport(
      HeaderOf(year, month, lastDayFormatted, first, last),
      CustomerPositionOf(total, first.currency, range),
      IncomePositions(nz, 2, first.currency, range),
      TaxPositions(nz, 2 + |nz|, first.currency, range))
  }

  /** A report whose total is its groups' total balances: the customer
      amount cancels the income and tax amounts together. */
  lemma ReportBalances(year: nat, month: nat, lastDayFormatted: string, first: Ticket, last: Ticket,
                       groups: seq<Group<TaxRate>>)
    ensures var rep := ReportOf(year, month, lastDayFormatted, first, last, groups, GroupsTotal(groups));
      ImporteValue(rep.posicionCliente.importe) == -(IncomeTotal(rep.posicionIngreso) + TaxTotal(rep.posicionImpuestos))
  {
    PositionsBalance(groups, first.currency, first.id + "_" + last.id);
    ImporteOfAmount(FormatCents(GroupsTotal(groups)), GroupsTotal(groups));
  }

  /** The position loops of `generateReport`: the customer position takes
      number 1, then the income positions, then the tax positions. */
  method WritePositions(groups: seq<Group<TaxRate>>, currency: string, range: string)
    returns (posicionIngreso: seq<IncomePosition>, posicionImpuestos: seq<TaxPosition>)
    ensures posicionIngreso == IncomePositions(NonZeroGroups(groups), 2, currency, range)
    ensures posicionImpuestos == TaxPositions(NonZeroGroups(groups), 2 + |NonZeroGroups(groups)|, currency, range)
  {
    var positionIndex := 1;
    posicionIngreso, positionIndex := PushIncomePositions(groups, positionIndex, currency, range);
    posicionImpuestos, positionIndex := PushTaxPositions(groups, positionIndex, currency, range);
  }

  /** `generateReport`, with the tickets of the period and the formatted last
      day of the month given. */
  method GenerateReport(year: nat, month: nat, lastDayFormatted: string, tickets: seq<Ticket>)
    returns (r: Result<MonthlyReport, ReportError>)
    ensures tickets == [] ==> r == Failure(NoTickets)
    ensures tickets != [] ==>
      (r.Success? <==> SignedTotal(tickets, |tickets|) == SignedLinesTotal(tickets, |tickets|))
    ensures tickets != [] && r.Failure? ==> r.error == TotalMismatch
    ensures r.Success? ==>
      r.value == ReportOf(year, month, lastDayFormatted, tickets[0], tickets[|tickets| - 1],
                          Grouped(ReportEntries(tickets, |tickets|)), SignedTotal(tickets, |tickets|))
    ensures r.Success? ==>
      ImporteValue(r.value.posicionCliente.importe)
        == -(IncomeTotal(r.value.posicionIngreso) + TaxTotal(r.value.posicionImpuestos))
  {
    var grouping := GroupTicketsAndTaxLines(tickets);
    if grouping.Failure? {
      return Failure(grouping.error);
    }
    var g := grouping.value;
    var ticketRange := g.firstTicket.id + "_" + g.lastTicket.id;
    var header := HeaderOf(year, month, lastDayFormatted, g.firstTicket, g.lastTicket);
    var customerPosition := CustomerPositionOf(g.totalWithTax, g.currency, ticketRange);
    var posicionIngreso, posicionImpuestos := WritePositions(g.taxGroups, g.currency, ticketRange);
    var report := MonthlyReport(header, customerPosition, posicionIngreso, posicionImpuestos);
    assert report == ReportOf(year, month, lastDayFormatted, g.firstTicket, g.lastTicket, g.taxGroups, g.totalWithTax);
    ReportBalances(year, month, lastDayFormatted, g.firstTicket, g.lastTicket, g.taxGroups);
    return Success(report);
  }

  /** The position numbers `first`, `first + 1`, … as strings, `n` of them. */
  function Numbered(first: nat, n: nat): (ps: seq<string>)
    ensures |ps| == n
    ensures forall i :: 0 <= i < n ==> ps[i] == NatToString(first + i)
  {
    seq(n, i requires 0 <= i < n => NatToString(first + i))
  }

  /** Numbered position strings are pairwise distinct. */
  lemma NumberedDistinct(first: nat, n: nat)
    ensures forall i, j :: 0 <= i < j < n ==> Numbered(first, n)[i] != Numbered(first, n)[j]
  {
    var ps := Numbered(first, n);
    forall i, j | 0 <= i < j < n
      ensures ps[i] != ps[j]
    {
      if ps[i] == ps[j] {
        NatToStringInjective(first + i, first + j);
      }
    }
  }

  lemma IncomeNumbered(nz: seq<Group<TaxRate>>, first: nat, currency: string, range: string)
    ensures IncomeNumbers(IncomePositions(nz, first, currency, range)) == Numbered(first, |nz|)
  {
  }

  lemma TaxNumbered(nz: seq<Group<TaxRate>>, first: nat, currency: string, range: string)
    ensures TaxNumbers(TaxPositions(nz, first, currency, range)) == Numbered(first, |nz|)
  {
  }

  lemma NumberedSplit(n: nat)
    ensures ["1"] + Numbered(2, n) + Numbered(2 + n, n) == Numbered(1, 1 + 2 * n)
  {
    var ps, qs := ["1"] + Numbered(2, n) + Numbered(2 + n, n), Numbered(1, 1 + 2 * n);
    assert "1" == NatToString(1);
    forall i | 0 <= i < |qs|
      ensures ps[i] == qs[i]
    {
      if 1 <= i < 1 + n {
        assert ps[i] == Numbered(2, n)[i - 1];
      } else if i >= 1 + n {
        assert ps[i] == Numbered(2 + n, n)[i - 1 - n];
      }
    }
  }

  /** The positions of a report are numbered "1", "2", … in order (customer,
      income, tax); with `NumberedDistinct`, no two share a number. */
  lemma PositionsConsecutive(year: nat, month: nat, lastDayFormatted: string, first: Ticket, last: Ticket,
                             groups: seq<Group<TaxRate>>, total: int)
    ensures PositionNumbers(ReportOf(year, month, lastDayFormatted, first, last, groups, total))
      == Numbered(1, 1 + 2 * |NonZeroGroups(groups)|)
  {
    var nz, range := NonZeroGroups(groups), first.id + "_" + last.id;
    var rep := ReportOf(year, month, lastDayFormatted, first, last, groups, total);
    assert rep.posicionCliente.posicion == "1";
    assert rep.posicionIngreso == IncomePositions(nz, 2, first.currency, range);
    assert rep.posicionImpuestos == TaxPositions(nz, 2 + |nz|, first.currency, range);
    IncomeNumbered(nz, 2, first.currency, range);
    TaxNumbered(nz, 2 + |nz|, first.currency, range);
    NumberedSplit(|nz|);
  }
}
