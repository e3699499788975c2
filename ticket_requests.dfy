/** Order and refund summaries and the tagged ticket-creation request they
    are mapped to (OrderSummary.ts, RefundSummary.ts, TicketCreateRequest.ts). */
module TicketRequests {
  import opened Results

  /** The denominator tax rates are counted in: millionths. */
  const RateScale: nat := 1_000_000

  /** A tax rate in millionths (0.21, that is 21%, is 210000). Rates are never
      negative and are taken to have at most six decimals. */
  type TaxRate = nat

  /** The number a rate stands for (0.21 for 210000). */
  function RateValue(r: TaxRate): real {
    r as real / RateScale as real
  }

  /** `SummaryTaxLine`: net price and tax of one tax group. Amounts here and
      below are whole cents, counted as integers. */
  datatype SummaryTaxLine = SummaryTaxLine(price: int, tax: int, rate: TaxRate, title: string, currency: string)

  /** Sum of price plus tax over tax lines. */
  function LinesTotal(lines: seq<SummaryTaxLine>): int {
    if lines == [] then 0
    else LinesTotal(lines[..|lines| - 1]) + lines[|lines| - 1].price + lines[|lines| - 1].tax
  }

  datatype RefundSummary = RefundSummary(
    id: int, orderId: int, createdAt: string,
    totalAmount: int, currency: string, taxLines: seq<SummaryTaxLine>)

  datatype OrderSummary = OrderSummary(
    id: int, createdAt: string,
    totalAmount: int, currency: string, taxLines: seq<SummaryTaxLine>)

  /** `new Date(text)`: an instant determined by the text alone. */
  datatype Instant = DateOf(text: string)

  datatype TicketType = OrderTicket | RefundTicket

  /** `TicketCreateRequest`: the order variant, or the refund variant with its
      refund id. */
  datatype TicketCreateRequest =
    | OrderRequest(orderId: int, createdAt: Instant, totalAmount: int, currency: string, taxLines: seq<SummaryTaxLine>)
    | RefundRequest(orderId: int, refundId: int, createdAt: Instant, totalAmount: int, currency: string, taxLines: seq<SummaryTaxLine>)
  {
    function Type(): TicketType {
      if OrderRequest? then OrderTicket else RefundTicket
    }
  }

  /** What a ticket document holds under the tickets container's two unique
      keys: (order_id, type) and (refund_id, type). An order ticket has no
      refund_id. */
  datatype UniqueKeys = UniqueKeys(orderKey: (int, TicketType), refundKey: (Option<int>, TicketType))

  function KeysOf(r: TicketCreateRequest): UniqueKeys {
    match r
    case OrderRequest(o, _, _, _, _) => UniqueKeys((o, OrderTicket), (None, OrderTicket))
    case RefundRequest(o, f, _, _, _, _) => UniqueKeys((o, RefundTicket), (Some(f), RefundTicket))
  }

  /** `mapToRefundTicketCreateRequest`. */
  function MapToRefundTicketCreateRequest(summary: RefundSummary): (r: TicketCreateRequest)
    ensures r.RefundRequest? && r.Type() == RefundTicket
    ensures r.refundId == summary.id && r.orderId == summary.orderId
    ensures r.createdAt == DateOf(summary.createdAt)
    ensures r.currency == summary.currency && r.totalAmount == summary.totalAmount
    ensures r.taxLines == summary.taxLines
  {
    RefundRequest(summary.orderId, summary.id, DateOf(summary.createdAt),
                  summary.totalAmount, summary.currency, summary.taxLines)
  }

  /** `mapToOrderTicketCreateRequest`. */
  function MapToOrderTicketCreateRequest(summary: OrderSummary): (r: TicketCreateRequest)
    ensures r.OrderRequest? && r.Type() == OrderTicket
    ensures r.orderId == summary.id
    ensures r.createdAt == DateOf(summary.createdAt)
    ensures r.currency == summary.currency && r.totalAmount == summary.totalAmount
    ensures r.taxLines == summary.taxLines
  {
    OrderRequest(summary.id, DateOf(summary.createdAt),
                 summary.totalAmount, summary.currency, summary.taxLines)
  }

  /** Under the container's unique keys, two refund tickets collide on the
      refund key exactly when they come from the same refund, and on the
      order key exactly when they refund the same order; two order tickets
      collide on the order key exactly for the same order; an order ticket
      and a refund ticket never share a key value. */
  lemma UniqueKeysOfRequests(r1: RefundSummary, r2: RefundSummary, o1: OrderSummary, o2: OrderSummary)
    ensures KeysOf(MapToRefundTicketCreateRequest(r1)).refundKey == KeysOf(MapToRefundTicketCreateRequest(r2)).refundKey
      <==> r1.id == r2.id
    ensures KeysOf(MapToRefundTicketCreateRequest(r1)).orderKey == KeysOf(MapToRefundTicketCreateRequest(r2)).orderKey
      <==> r1.orderId == r2.orderId
    ensures KeysOf(MapToOrderTicketCreateRequest(o1)).orderKey == KeysOf(MapToOrderTicketCreateRequest(o2)).orderKey
      <==> o1.id == o2.id
    ensures KeysOf(MapToOrderTicketCreateRequest(o1)).orderKey != KeysOf(MapToRefundTicketCreateRequest(r1)).orderKey
    ensures KeysOf(MapToOrderTicketCreateRequest(o1)).refundKey != KeysOf(MapToRefundTicketCreateRequest(r1)).refundKey
  {
  }
}
