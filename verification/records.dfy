/** The records the import wizard reads and writes, reduced to the fields its decisions use.
    Identifiers of host records are natural numbers; an unset many-to-one field is `None`. */
module Records {
  import opened Results

  /** Who a tax applies to (`type_tax_use`). */
  datatype TaxUse = Sale | Purchase | AllUses

  /** How a tax amount is computed (`type`). */
  datatype TaxKind = Percent | Fixed | NoAmount | Code | Balance

  /** A tax of the host accounting; `amount` is the rate (0.2 for 20 %), `None` when unset. */
  datatype Tax = Tax(id: nat, name: string, amount: Option<real>, use: TaxUse, kind: TaxKind, priceInclude: bool)

  /** A product whose internal code names an OVH service prefix (`OVH-voip.sms.` and so on).
      `lineAccount` and `purchaseTaxes` are what the host proposes for a supplier invoice line
      of this product from OVH: the expense account and the purchase taxes, in order. */
  datatype Product = Product(id: nat, defaultCode: string, lineAccount: Option<nat>, purchaseTaxes: seq<Tax>)

  /** How an OVH account turns remote lines into invoice lines (`invoice_line_method`). */
  datatype LineMethod = NoProduct | ByProduct

  /** An OVH account as configured in the host: login, line method, and for the no-product
      method the expense account and analytic account to book on. */
  datatype OvhAccount = OvhAccount(login: string, lineMethod: LineMethod, accountId: Option<nat>, analyticId: Option<nat>)

  /** What identifies a remote invoice in messages: its number, its 10-character date and the account. */
  datatype InvoiceDesc = InvoiceDesc(number: string, date: string, account: OvhAccount)

  /** One detail line of a remote invoice; a field the webservice leaves out is `None`. */
  datatype RemoteLine = RemoteLine(
    description: string,
    service: Option<string>,
    baseprice: Option<real>,
    quantity: real,
    start: Option<string>,
    end: Option<string>)

  /** The detail lines of a remote invoice: the webservice sends a list, or a bare item when there is only one. */
  datatype Details = Items(lines: seq<RemoteLine>) | OneItem(line: RemoteLine)

  /** The reply to `billingInvoiceInfo`: full date, total with taxes, tax rate (0.2 for 20 %) and lines. */
  datatype InvoiceInfo = InvoiceInfo(date: string, finalprice: real, taxrate: real, details: Details)

  /** One entry of the reply to `billingInvoiceList`. A missing number is the empty string. */
  datatype InvoiceSummary = InvoiceSummary(billnum: string, date: string, totalPrice: real, totalPriceWithVat: real)

  /** The values of one supplier invoice line to create. */
  datatype LineVals = LineVals(
    accountId: nat,
    analyticId: Option<nat>,
    taxIds: seq<nat>,
    productId: Option<nat>,
    quantity: real,
    priceUnit: real,
    name: string,
    startDate: Option<string>,
    endDate: Option<string>)

  /** The values of one supplier invoice to create (partner, journal and company are the host's). */
  datatype InvoiceVals = InvoiceVals(
    supplierNumber: string,
    origin: string,
    dateInvoice: string,
    checkTotal: real,
    lines: seq<LineVals>)

  /** Every way the import stops with an error instead of creating invoices. */
  datatype ImportError =
    | MissingCountry
    | MissingSupplier
    | LoginRefused(login: string)
    | MissingService
    | NoMatchingProduct(number: string, service: string)
    | TaxRateMismatch(number: string, productCode: string, taxAmount: real, rate: real)
    | NoPurchaseTax(number: string, rate: real)
    | MissingAccount(number: string, lineName: string)
}
