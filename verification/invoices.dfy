/** Turning the reply to `billingInvoiceInfo` into the values of one supplier invoice. */
module Invoices {
  import opened Results
  import opened Text
  import opened Records
  import opened Catalogue
  import opened InvoiceLines

  /** The prefix of the origin of every imported invoice, followed by the OVH login. */
  const OriginPrefix: string := "OVH SoAPI "

  /** The search domain for the no-product method: a purchase tax, of the given rate, computed
      as a percentage, not included in the price. */
  predicate IsPurchaseTaxOfRate(t: Tax, rate: real) {
    && t.use == Purchase
    && t.amount == Some(rate)
    && t.kind == Percent
    && !t.priceInclude
  }

  /** The first tax, in the host's search order, that the no-product domain selects. */
  function FindPurchaseTax(taxes: seq<Tax>, rate: real): (r: Option<Tax>)
    ensures r.None? <==> forall t :: t in taxes ==> !IsPurchaseTaxOfRate(t, rate)
    ensures r.Some? ==> r.value in taxes && IsPurchaseTaxOfRate(r.value, rate)
    ensures r.Some? ==> exists i :: 0 <= i < |taxes| && taxes[i] == r.value &&
                          forall j :: 0 <= j < i ==> !IsPurchaseTaxOfRate(taxes[j], rate)
  {
    if taxes == [] then None
    else if IsPurchaseTaxOfRate(taxes[0], rate) then Some(taxes[0])
    else
      var r := FindPurchaseTax(taxes[1..], rate);
      assert r.Some? ==> forall i :: 0 <= i < |taxes[1..]| && taxes[1..][i] == r.value ==> taxes[i + 1] == r.value;
      r
  }

  /** The remote lines that yield an invoice line: those with a base price, in order. */
  function PricedLines(lines: seq<RemoteLine>): (r: seq<RemoteLine>)
    ensures forall l :: l in r ==> l in lines && HasBasePrice(l)
  {
    if lines == [] then []
    else (if HasBasePrice(lines[0]) then [lines[0]] else []) + PricedLines(lines[1..])
  }

  /** Prepares the lines one after another, keeping the non-`None` values, and stops at the
      first error. */
  function PrepareLines(ctx: LineContext, lines: seq<RemoteLine>): (r: Result<seq<LineVals>, ImportError>)
    requires ctx.desc.account.lineMethod == NoProduct ==> ctx.taxId.Some?
  {
    if lines == [] then Ok([])
    else
      match PrepareLine(ctx, lines[0])
      case Err(e) => Err(e)
      case Ok(v) =>
        match PrepareLines(ctx, lines[1..])
        case Err(e) => Err(e)
        case Ok(rest) => Ok((if v.Some? then [v.value] else []) + rest)
  }

  /** One step of a successful preparation: the first line succeeds, so do the others, and
      the first line's value, if any, comes first. */
  lemma PrepareLinesStep(ctx: LineContext, lines: seq<RemoteLine>)
    requires ctx.desc.account.lineMethod == NoProduct ==> ctx.taxId.Some?
    requires lines != [] && PrepareLines(ctx, lines).Ok?
    ensures PrepareLine(ctx, lines[0]).Ok? && PrepareLines(ctx, lines[1..]).Ok?
    ensures HasBasePrice(lines[0]) ==>
              PrepareLines(ctx, lines).value == [PrepareLine(ctx, lines[0]).value.value] + PrepareLines(ctx, lines[1..]).value
    ensures !HasBasePrice(lines[0]) ==> PrepareLines(ctx, lines).value == PrepareLines(ctx, lines[1..]).value
  {
  }

  /** Putting a prepared line in front keeps the pairing of priced lines with their values. */
  lemma PricedHead(ctx: LineContext, line: RemoteLine, v: LineVals, pricedRest: seq<RemoteLine>, rest: seq<LineVals>)
    requires ctx.desc.account.lineMethod == NoProduct ==> ctx.taxId.Some?
    requires PrepareLine(ctx, line) == Ok(Some(v))
    requires |rest| == |pricedRest|
    requires forall i :: 0 <= i < |rest| ==> PrepareLine(ctx, pricedRest[i]) == Ok(Some(rest[i]))
    ensures forall i :: 0 <= i < |rest| + 1 ==> PrepareLine(ctx, ([line] + pricedRest)[i]) == Ok(Some(([v] + rest)[i]))
  {
  }

  /** On success there is one invoice line per priced remote line, in the same order, and each
      is that remote line's prepared values. */
  lemma {:induction false} PrepareLinesKeepsPricedLines(ctx: LineContext, lines: seq<RemoteLine>)
    requires ctx.desc.account.lineMethod == NoProduct ==> ctx.taxId.Some?
    requires PrepareLines(ctx, lines).Ok?
    ensures var out := PrepareLines(ctx, lines).value;
            && |out| == |PricedLines(lines)|
            && forall i :: 0 <= i < |out| ==> PrepareLine(ctx, PricedLines(lines)[i]) == Ok(Some(out[i]))
  {
    if lines != [] {
      PrepareLinesStep(ctx, lines);
      PrepareLinesKeepsPricedLines(ctx, lines[1..]);
      var out := PrepareLines(ctx, lines).value;
      var rest := PrepareLines(ctx, lines[1..]).value;
      var priced := PricedLines(lines);
      var pricedRest := PricedLines(lines[1..]);
      if HasBasePrice(lines[0]) {
        assert priced == [lines[0]] + pricedRest;
        PricedHead(ctx, lines[0], PrepareLine(ctx, lines[0]).value.value, pricedRest, rest);
      } else {
        assert priced == pricedRest;
      }
    }
  }

  /** Preparation fails exactly when some line fails, and then with the error of the first
      failing line. */
  lemma {:induction false} PrepareLinesFailsOnFirstError(ctx: LineContext, lines: seq<RemoteLine>)
    requires ctx.desc.account.lineMethod == NoProduct ==> ctx.taxId.Some?
    ensures PrepareLines(ctx, lines).Err? <==> exists i :: 0 <= i < |lines| && PrepareLine(ctx, lines[i]).Err?
    ensures PrepareLines(ctx, lines).Err? ==>
              exists i :: 0 <= i < |lines| && PrepareLine(ctx, lines[i]) == Err(PrepareLines(ctx, lines).error) &&
                          forall j :: 0 <= j < i ==> PrepareLine(ctx, lines[j]).Ok?
  {
    if lines != [] {
      PrepareLinesFailsOnFirstError(ctx, lines[1..]);
      if PrepareLine(ctx, lines[0]).Ok? {
        if PrepareLines(ctx, lines[1..]).Err? {
          var i :| 0 <= i < |lines[1..]| && PrepareLine(ctx, lines[1..][i]) == Err(PrepareLines(ctx, lines[1..]).error) &&
                   forall j :: 0 <= j < i ==> PrepareLine(ctx, lines[1..][j]).Ok?;
          assert PrepareLine(ctx, lines[i + 1]) == Err(PrepareLines(ctx, lines).error);
          assert forall j :: 0 <= j < i + 1 ==> PrepareLine(ctx, lines[j]).Ok? by {
            forall j | 0 <= j < i + 1 ensures PrepareLine(ctx, lines[j]).Ok? {
              if j > 0 { assert lines[j] == lines[1..][j - 1]; }
            }
          }
        } else {
          forall i | 0 <= i < |lines| ensures PrepareLine(ctx, lines[i]).Ok? {
            if i > 0 { assert lines[i] == lines[1..][i - 1]; }
          }
        }
      }
    }
  }

  /** The remote lines of an invoice, whether the webservice sent a list or a single item. */
  function RemoteLines(d: Details): seq<RemoteLine> {
    match d
    case Items(ls) => ls
    case OneItem(l) => [l]
  }

  /** The purchase tax every line of a no-product invoice carries; the product method needs none. */
  function InvoiceTax(desc: InvoiceDesc, info: InvoiceInfo, taxes: seq<Tax>): (r: Result<Option<nat>, ImportError>)
    ensures desc.account.lineMethod == ByProduct ==> r == Ok(None)
    ensures desc.account.lineMethod == NoProduct ==>
              (r.Err? <==> forall t :: t in taxes ==> !IsPurchaseTaxOfRate(t, info.taxrate))
    ensures r.Err? ==> r.error == NoPurchaseTax(desc.number, info.taxrate)
    ensures desc.account.lineMethod == NoProduct && r.Ok? ==>
              exists i :: 0 <= i < |taxes| && IsPurchaseTaxOfRate(taxes[i], info.taxrate) &&
                          r.value == Some(taxes[i].id) &&
                          forall j :: 0 <= j < i ==> !IsPurchaseTaxOfRate(taxes[j], info.taxrate)
  {
    match desc.account.lineMethod
    case ByProduct => Ok(None)
    case NoProduct =>
      match FindPurchaseTax(taxes, info.taxrate)
      case None => Err(NoPurchaseTax(desc.number, info.taxrate))
      case Some(t) => Ok(Some(t.id))
  }

  /** `_prepare_invoice_vals`: the invoice header from the reply and the list of its lines. */
  function PrepareInvoice(
    desc: InvoiceDesc, info: InvoiceInfo, entries: seq<Entry>, taxes: seq<Tax>,
    prevDay: string -> string, periodFields: bool): (r: Result<InvoiceVals, ImportError>)
    ensures desc.account.lineMethod == NoProduct && FindPurchaseTax(taxes, info.taxrate).None? ==>
              r == Err(NoPurchaseTax(desc.number, info.taxrate))
    ensures r.Ok? ==>
              && r.value.supplierNumber == desc.number
              && r.value.origin == OriginPrefix + desc.account.login
              && |r.value.dateInvoice| == (if |info.date| < 10 then |info.date| else 10)
              && StartsWith(info.date, r.value.dateInvoice)
              && r.value.checkTotal == info.finalprice
    ensures r.Ok? && desc.account.lineMethod == NoProduct ==>
              forall v :: v in r.value.lines ==> v.taxIds == [FindPurchaseTax(taxes, info.taxrate).value.id]
    ensures InvoiceTax(desc, info, taxes).Ok? ==>
              var ctx := LineContext(desc, entries, InvoiceTax(desc, info, taxes).value, info.taxrate, prevDay, periodFields);
              match PrepareLines(ctx, RemoteLines(info.details))
              case Err(e) => r == Err(e)
              case Ok(ls) => r.Ok? && r.value.lines == ls
  {
    match InvoiceTax(desc, info, taxes)
    case Err(e) => Err(e)
    case Ok(taxId) =>
      var ctx := LineContext(desc, entries, taxId, info.taxrate, prevDay, periodFields);
      match PrepareLines(ctx, RemoteLines(info.details))
      case Err(e) => Err(e)
      case Ok(ls) =>
        PrepareLinesKeepsPricedLines(ctx, RemoteLines(info.details));
        Ok(InvoiceVals(desc.number, OriginPrefix + desc.account.login, Take(info.date, 10), info.finalprice, ls))
  }

  /** A bare item is prepared exactly as a list holding that one line would be. */
  lemma SingleItemIsOneLineList(
    desc: InvoiceDesc, info: InvoiceInfo, line: RemoteLine, entries: seq<Entry>, taxes: seq<Tax>,
    prevDay: string -> string, periodFields: bool)
    ensures PrepareInvoice(desc, info.(details := OneItem(line)), entries, taxes, prevDay, periodFields) ==
            PrepareInvoice(desc, info.(details := Items([line])), entries, taxes, prevDay, periodFields)
  {
  }
}
