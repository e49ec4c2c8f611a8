/**
 * The invoice builder: the values derived from an order record (short
 * order id, paid flag, subtotal, shipping fee, coupon discount, total,
 * status label) and the invoice document assembled from them, as a tree
 * of sections and rows rather than as markup. Every optional field of the
 * order is an Option; `||` defaults (empty text counts as absent) and `??`
 * defaults (only an absent value counts) are kept apart as in the source.
 */
module Invoice {
  import opened Wrappers
  import opened Text
  import Money

  /** The six configurable strings of the invoice, already resolved by the caller. */
  datatype Config = Config(
    companyName: string,
    addressLine1: string,
    addressLine2: string,
    contact: string,
    currencySymbol: string,
    thankYouLine: string)

  /** The literal defaults used when no environment value is supplied. */
  const DefaultConfig := Config("Qui", "Dubai, UAE", "", "Email: support@qui.ae", "₹", "We hope you love your purchase!")

  /** One order item; `productName` stands for `item.product.name` (a missing product reads as a missing name). */
  datatype Item = Item(productName: Option<string>, price: Option<real>, quantity: Option<int>)

  datatype Coupon = Coupon(discountType: Option<string>, discount: Option<real>)

  datatype Address = Address(
    name: Option<string>,
    street: Option<string>,
    city: Option<string>,
    state: Option<string>,
    zip: Option<string>,
    country: Option<string>,
    phone: Option<string>)

  const NoAddress := Address(None, None, None, None, None, None, None)

  datatype Order = Order(
    id: Option<string>,
    paymentMethod: Option<string>,
    isPaid: Option<bool>,
    status: Option<string>,
    orderItems: Option<seq<Item>>,
    address: Option<Address>,
    shippingFee: Option<real>,
    shipping: Option<real>,
    isCouponUsed: Option<bool>,
    coupon: Option<Coupon>,
    trackingId: Option<string>,
    trackingUrl: Option<string>,
    courier: Option<string>,
    total: Option<real>)

  /** An absent order: every field is missing. */
  const NoOrder := Order(None, None, None, None, None, None, None, None, None, None, None, None, None, None)

  // ---------------------------------------------------------------------------
  // Derived values

  function IdText(order: Order): string { OrDefault(order.id, "") }

  /** The first eight characters of the id, upper-cased. */
  function OrderIdShort(order: Order): (r: string)
    ensures |r| == Min(8, |IdText(order)|)
    ensures forall i :: 0 <= i < |r| ==> r[i] == UpperChar(IdText(order)[i])
    ensures !Truthy(order.id) ==> r == ""
  {
    Upper(Take(IdText(order), 8))
  }

  /** The payment method as shown: upper-cased, empty when absent. */
  function PaymentMethodText(order: Order): string { Upper(OrDefault(order.paymentMethod, "")) }

  /** The paid flag: an explicit `isPaid` wins; otherwise it is true for Stripe payments only. */
  function Paid(order: Order): bool {
    if PaymentMethodText(order) == "STRIPE" then order.isPaid.GetOr(true) else order.isPaid.GetOr(false)
  }

  function Items(order: Order): seq<Item> { order.orderItems.GetOr([]) }

  /** Price times quantity, each defaulted to 0 when absent. */
  function LineTotal(item: Item): real { item.price.GetOr(0.0) * (item.quantity.GetOr(0) as real) }

  /** The `reduce` that accumulates the line totals from the left, starting from `acc`. */
  function SubtotalFrom(acc: real, items: seq<Item>): real
    decreases |items|
  {
    if items == [] then acc else SubtotalFrom(acc + LineTotal(items[0]), items[1..])
  }

  function Subtotal(order: Order): real { SubtotalFrom(0.0, Items(order)) }

  /** The sum of the line totals, as a reference definition independent of the fold. */
  function SumLineTotals(items: seq<Item>): real {
    if items == [] then 0.0 else SumLineTotals(items[..|items| - 1]) + LineTotal(items[|items| - 1])
  }

  /** `shippingFee ?? shipping ?? 0`. */
  function ShippingFee(order: Order): real { order.shippingFee.GetOr(order.shipping.GetOr(0.0)) }

  predicate CouponApplies(order: Order) { order.isCouponUsed == Some(true) && order.coupon.Some? }

  /** The coupon discount: a percentage of the subtotal, or a flat amount; 0 without an applied coupon. */
  function Discount(order: Order): real {
    if CouponApplies(order) then
      var c := order.coupon.value;
      if c.discountType == Some("percentage") then (c.discount.GetOr(0.0) / 100.0) * Subtotal(order)
      else c.discount.GetOr(0.0)
    else 0.0
  }

  /** `total ?? (subtotal + shippingFee - discount)`. */
  function Total(order: Order): real {
    order.total.GetOr(Subtotal(order) + ShippingFee(order) - Discount(order))
  }

  /** The order status with every '_' turned into a space, then upper-cased. */
  function StatusLabel(order: Order): (r: string)
    ensures |r| == |OrDefault(order.status, "")|
    ensures '_' !in r
    ensures forall i :: 0 <= i < |r| ==>
      var c := OrDefault(order.status, "")[i];
      r[i] == (if c == '_' then ' ' else UpperChar(c))
    ensures !Truthy(order.status) ==> r == ""
  {
    var s := OrDefault(order.status, "");
    var r := Upper(ReplaceAll(s, '_', ' '));
    assert forall i :: 0 <= i < |r| ==> r[i] != '_';
    r
  }

  // ---------------------------------------------------------------------------
  // The document tree

  datatype CompanyHeader = CompanyHeader(name: string, addressLine: string, contact: string, invoiceNumber: string)

  datatype MetaInfo = MetaInfo(invoiceDate: string, paymentMethod: string, paymentStatus: string, orderStatus: string)

  datatype BillTo = BillTo(name: string, street: string, cityLine: string, country: string, phoneLine: string)

  /** The tracking block: the id line always, the courier and link lines each only when present. */
  datatype TrackingBlock = TrackingBlock(trackingId: string, courier: Option<string>, trackingUrl: Option<string>)

  /** One row of the items table: position, name, quantity, unit price and line total. */
  datatype ItemRow = ItemRow(number: nat, name: string, quantity: string, price: string, lineTotal: string)

  datatype TotalsBlock = TotalsBlock(subtotal: string, shipping: string, discount: Option<string>, total: string)

  datatype InvoiceDoc = InvoiceDoc(
    title: string,
    header: CompanyHeader,
    meta: MetaInfo,
    billTo: BillTo,
    tracking: Option<TrackingBlock>,
    rows: seq<ItemRow>,
    totals: TotalsBlock,
    footer: string)

  function RowOf(symbol: string, number: nat, item: Item): ItemRow {
    ItemRow(
      number,
      OrDefault(item.productName, "Product"),
      Money.IntToString(item.quantity.GetOr(0)),
      Money.FormatCurrency(symbol, item.price.GetOr(0.0)),
      Money.FormatCurrency(symbol, LineTotal(item)))
  }

  /** The `map(...).join('')` over the items: one row per item, numbered from `start + 1`. */
  function ItemRows(symbol: string, items: seq<Item>, start: nat): (rows: seq<ItemRow>)
    ensures |rows| == |items|
    ensures forall i :: 0 <= i < |items| ==> rows[i] == RowOf(symbol, start + i + 1, items[i])
    decreases |items|
  {
    if items == [] then [] else
      var rest := ItemRows(symbol, items[1..], start + 1);
      assert forall i :: 1 <= i < |items| ==> items[i] == items[1..][i - 1];
      [RowOf(symbol, start + 1, items[0])] + rest
  }

  function BillToOf(order: Order): BillTo {
    var a := order.address.GetOr(NoAddress);
    BillTo(
      OrDefault(a.name, "Customer"),
      OrDefault(a.street, ""),
      OrDefault(a.city, "") + ", " + OrDefault(a.state, "") + " - " + OrDefault(a.zip, ""),
      OrDefault(a.country, "India"),
      "Phone: " + OrDefault(a.phone, "N/A"))
  }

  function OptionalLine(o: Option<string>): Option<string> {
    if Truthy(o) then Some(o.value) else None
  }

  function TrackingOf(order: Order): Option<TrackingBlock> {
    if Truthy(order.trackingId) then
      Some(TrackingBlock(order.trackingId.value, OptionalLine(order.courier), OptionalLine(order.trackingUrl)))
    else None
  }

  function TotalsOf(symbol: string, order: Order): TotalsBlock {
    var discount := Discount(order);
    TotalsBlock(
      Money.FormatCurrency(symbol, Subtotal(order)),
      Money.FormatCurrency(symbol, ShippingFee(order)),
      if discount > 0.0 then Some("-" + Money.FormatCurrency(symbol, discount)) else None,
      Money.FormatCurrency(symbol, Total(order)))
  }

  /** `generateInvoiceHTML`: the invoice for `order`; `invoiceDate` is the creation date already formatted. */
  function GenerateInvoice(cfg: Config, order: Order, invoiceDate: string): InvoiceDoc {
    var short := OrderIdShort(order);
    InvoiceDoc(
      "Invoice #" + short,
      CompanyHeader(cfg.companyName, cfg.addressLine1 + ", " + cfg.addressLine2, cfg.contact, "#" + short),
      MetaInfo(invoiceDate, PaymentMethodText(order), if Paid(order) then "PAID" else "UNPAID", StatusLabel(order)),
      BillToOf(order),
      TrackingOf(order),
      ItemRows(cfg.currencySymbol, Items(order), 0),
      TotalsOf(cfg.currencySymbol, order),
      cfg.thankYouLine)
  }

  /** The file name `downloadInvoiceHTML` saves under. */
  function InvoiceFilename(order: Order): string { "Invoice_" + OrderIdShort(order) + ".pdf" }

  // ---------------------------------------------------------------------------
  // Properties

  /** The download file name is "Invoice_", the upper-cased first eight characters of the id, ".pdf". */
  lemma InvoiceFilenameSpec(order: Order)
    ensures var name := InvoiceFilename(order);
            && |name| == 12 + Min(8, |IdText(order)|)
            && name[..8] == "Invoice_" && name[|name| - 4..] == ".pdf"
            && name[8..|name| - 4] == Upper(Take(IdText(order), 8))
  {
    var short := OrderIdShort(order);
    var name := InvoiceFilename(order);
    assert name == "Invoice_" + (short + ".pdf");
    assert name[8..] == short + ".pdf";
    assert name[8..|name| - 4] == short;
  }

  /** The invoice number in the header and the title use the same short id as the file name. */
  lemma InvoiceNumberMatchesFilename(cfg: Config, order: Order, invoiceDate: string)
    ensures var doc := GenerateInvoice(cfg, order, invoiceDate);
            && doc.header.invoiceNumber == "#" + OrderIdShort(order)
            && doc.title == "Invoice " + doc.header.invoiceNumber
            && InvoiceFilename(order) == "Invoice_" + doc.header.invoiceNumber[1..] + ".pdf"
  {
    var short := OrderIdShort(order);
    assert ("#" + short)[1..] == short;
    assert "Invoice #" + short == "Invoice " + ("#" + short);
  }

  /** A long id is cut to eight characters and upper-cased. */
  lemma OrderIdShortExample()
    ensures OrderIdShort(NoOrder.(id := Some("abcdefghij"))) == "ABCDEFGH"
  {
    var order := NoOrder.(id := Some("abcdefghij"));
    assert Take(IdText(order), 8) == "abcdefgh";
    var u := Upper("abcdefgh");
    assert u[0] == 'A' && u[1] == 'B' && u[2] == 'C' && u[3] == 'D';
    assert u[4] == 'E' && u[5] == 'F' && u[6] == 'G' && u[7] == 'H';
  }

  /** An absent id gives an empty short id and the file name "Invoice_.pdf". */
  lemma AbsentIdExample()
    ensures OrderIdShort(NoOrder) == ""
    ensures InvoiceFilename(NoOrder) == "Invoice_.pdf"
  {
  }

  /** An explicit paid flag is never overridden; without one, only a Stripe payment counts as paid. */
  lemma PaidSpec(order: Order)
    ensures order.isPaid.Some? ==> Paid(order) == order.isPaid.value
    ensures order.isPaid.None? ==> (Paid(order) <==> Upper(OrDefault(order.paymentMethod, "")) == "STRIPE")
  {
  }

  lemma PaidExamples()
    ensures Paid(NoOrder.(paymentMethod := Some("stripe")))
    ensures !Paid(NoOrder.(paymentMethod := Some("cod")))
    ensures !Paid(NoOrder.(paymentMethod := Some("stripe"), isPaid := Some(false)))
  {
    var u := Upper("stripe");
    assert u[0] == 'S' && u[1] == 'T' && u[2] == 'R' && u[3] == 'I' && u[4] == 'P' && u[5] == 'E';
    assert Upper("cod")[0] == 'C';
  }

  lemma {:induction false} SubtotalFromIsSum(acc: real, items: seq<Item>)
    ensures SubtotalFrom(acc, items) == acc + SumLineTotals(items)
    decreases |items|
  {
    if items != [] {
      SubtotalFromIsSum(acc + LineTotal(items[0]), items[1..]);
      SumLineTotalsCons(items);
    }
  }

  lemma {:induction false} SumLineTotalsCons(items: seq<Item>)
    requires items != []
    ensures SumLineTotals(items) == LineTotal(items[0]) + SumLineTotals(items[1..])
    decreases |items|
  {
    if |items| > 1 {
      var init := items[..|items| - 1];
      SumLineTotalsCons(init);
      assert init[1..] == items[1..][..|items[1..]| - 1];
      assert init[0] == items[0];
    }
  }

  /**
   * The subtotal is the sum of the line totals, and row i shows exactly the
   * line total of item i: the table and the subtotal agree.
   */
  lemma SubtotalMatchesRows(cfg: Config, order: Order, invoiceDate: string)
    ensures Subtotal(order) == SumLineTotals(Items(order))
    ensures Items(order) == [] ==> Subtotal(order) == 0.0
    ensures var doc := GenerateInvoice(cfg, order, invoiceDate);
            |doc.rows| == |Items(order)| &&
            forall i :: 0 <= i < |doc.rows| ==>
              doc.rows[i].lineTotal == Money.FormatCurrency(cfg.currencySymbol, LineTotal(Items(order)[i]))
  {
    SubtotalFromIsSum(0.0, Items(order));
  }

  /** The items table: one row per item in input order, numbered from 1, with the defaults for a missing name or quantity. */
  lemma ItemTableSpec(cfg: Config, order: Order, invoiceDate: string)
    ensures var doc := GenerateInvoice(cfg, order, invoiceDate);
            var items := Items(order);
            |doc.rows| == |items| &&
            forall i :: 0 <= i < |items| ==>
              && doc.rows[i].number == i + 1
              && doc.rows[i].name == OrDefault(items[i].productName, "Product")
              && (items[i].quantity.None? ==> doc.rows[i].quantity == "0")
              && doc.rows[i].price == Money.FormatCurrency(cfg.currencySymbol, items[i].price.GetOr(0.0))
  {
    var items := Items(order);
    forall i | 0 <= i < |items| && items[i].quantity.None?
      ensures Money.IntToString(items[i].quantity.GetOr(0)) == "0"
    {
      assert Money.NatToString(0) == "0";
    }
  }

  /** The two sums of the worked order: 100 x 2 + 50 x 1, then 20 shipping without a coupon. */
  lemma SubtotalExample()
    ensures var order := NoOrder.(orderItems := Some([Item(None, Some(100.0), Some(2)), Item(None, Some(50.0), Some(1))]),
                                  shippingFee := Some(20.0));
            Subtotal(order) == 250.0 && Total(order) == 270.0
  {
  }

  /** The discount: nothing without an applied coupon; a share of the subtotal for a percentage coupon; the flat value otherwise. */
  lemma DiscountSpec(order: Order)
    ensures !CouponApplies(order) ==> Discount(order) == 0.0
    ensures CouponApplies(order) && order.coupon.value.discountType == Some("percentage") ==>
      Discount(order) == order.coupon.value.discount.GetOr(0.0) * Subtotal(order) / 100.0
    ensures CouponApplies(order) && order.coupon.value.discountType != Some("percentage") ==>
      Discount(order) == order.coupon.value.discount.GetOr(0.0)
  {
  }

  lemma DiscountExamples(order: Order)
    requires Subtotal(order) == 250.0 && order.isCouponUsed == Some(true)
    ensures Discount(order.(coupon := Some(Coupon(Some("percentage"), Some(10.0))))) == 25.0
    ensures Discount(order.(coupon := Some(Coupon(Some("flat"), Some(30.0))))) == 30.0
    ensures Discount(order.(coupon := Some(Coupon(None, Some(30.0))))) == 30.0
    ensures Discount(order.(isCouponUsed := Some(false), coupon := Some(Coupon(None, Some(30.0))))) == 0.0
  {
    assert Subtotal(order.(coupon := Some(Coupon(Some("percentage"), Some(10.0))))) == 250.0 by {
      assert Items(order.(coupon := Some(Coupon(Some("percentage"), Some(10.0))))) == Items(order);
    }
  }

  /** Shipping falls back from `shippingFee` to `shipping` to 0; an explicit total, even 0, overrides the computed one. */
  lemma ShippingAndTotalSpec(order: Order)
    ensures order.shippingFee.Some? ==> ShippingFee(order) == order.shippingFee.value
    ensures order.shippingFee.None? && order.shipping.Some? ==> ShippingFee(order) == order.shipping.value
    ensures order.shippingFee.None? && order.shipping.None? ==> ShippingFee(order) == 0.0
    ensures order.total.Some? ==> Total(order) == order.total.value
    ensures order.total.None? ==> Total(order) == SumLineTotals(Items(order)) + ShippingFee(order) - Discount(order)
  {
    SubtotalFromIsSum(0.0, Items(order));
  }

  /** The conditional sections: discount row, tracking block, and the courier and link lines inside it. */
  lemma ConditionalSectionsSpec(cfg: Config, order: Order, invoiceDate: string)
    ensures var doc := GenerateInvoice(cfg, order, invoiceDate);
            && (doc.totals.discount.Some? <==> Discount(order) > 0.0)
            && (doc.totals.discount.Some? ==>
                  doc.totals.discount.value == "-" + Money.FormatCurrency(cfg.currencySymbol, Discount(order)))
            && (doc.tracking.Some? <==> Truthy(order.trackingId))
            && (doc.tracking.Some? ==>
                  && doc.tracking.value.trackingId == order.trackingId.value
                  && (doc.tracking.value.courier.Some? <==> Truthy(order.courier))
                  && (doc.tracking.value.courier.Some? ==> doc.tracking.value.courier.value == order.courier.value)
                  && (doc.tracking.value.trackingUrl.Some? <==> Truthy(order.trackingUrl))
                  && (doc.tracking.value.trackingUrl.Some? ==> doc.tracking.value.trackingUrl.value == order.trackingUrl.value))
  {
  }

  /** The header, meta and bill-to sections show the configured strings and the derived values. */
  lemma HeaderAndMetaSpec(cfg: Config, order: Order, invoiceDate: string)
    ensures var doc := GenerateInvoice(cfg, order, invoiceDate);
            && doc.header.name == cfg.companyName
            && doc.header.addressLine == cfg.addressLine1 + ", " + cfg.addressLine2
            && doc.header.contact == cfg.contact
            && doc.footer == cfg.thankYouLine
            && doc.meta.invoiceDate == invoiceDate
            && doc.meta.paymentMethod == Upper(OrDefault(order.paymentMethod, ""))
            && doc.meta.paymentStatus == (if Paid(order) then "PAID" else "UNPAID")
            && doc.meta.orderStatus == StatusLabel(order)
            && doc.billTo == BillToOf(order)
  {
  }

  /** Without an address the bill-to block shows its defaults: "Customer", "India" and phone "N/A". */
  lemma BillToDefaults(order: Order)
    requires order.address.None?
    ensures BillToOf(order) == BillTo("Customer", "", ",  - ", "India", "Phone: N/A")
  {
  }
}
