/** Turning one remote invoice line into the values of a supplier invoice line. */
module InvoiceLines {
  import opened Results
  import opened Text
  import opened Records
  import opened Catalogue

  /** What every line of one remote invoice is prepared with. `taxId` is the purchase tax found
      for the no-product method; `prevDay` is the calendar step "one day earlier" on a
      `YYYY-MM-DD` string; `periodFields` says whether invoice lines carry start and end dates. */
  datatype LineContext = LineContext(
    desc: InvoiceDesc,
    entries: seq<Entry>,
    taxId: Option<nat>,
    taxrate: real,
    prevDay: string -> string,
    periodFields: bool)

  /** The part of a line's values that depends on the account's line method. */
  datatype MethodVals = MethodVals(accountId: Option<nat>, analyticId: Option<nat>, taxIds: seq<nat>, productId: Option<nat>)

  /** Python truthiness of an optional string: present and not empty. */
  predicate Present(s: Option<string>) {
    s.Some? && s.value != []
  }

  /** A line is kept exactly when its base price is given and not zero. */
  predicate HasBasePrice(line: RemoteLine) {
    line.baseprice.Some? && line.baseprice.value != 0.0
  }

  /** The rate of a tax, an unset amount counting as 0. */
  function EffectiveAmount(t: Tax): (a: real)
    ensures t.amount.Some? ==> a == t.amount.value
    ensures t.amount.None? ==> a == 0.0
  {
    match t.amount
    case Some(x) => x
    case None => 0.0
  }

  function TaxIds(taxes: seq<Tax>): (ids: seq<nat>)
    ensures |ids| == |taxes|
    ensures forall i :: 0 <= i < |taxes| ==> ids[i] == taxes[i].id
  {
    if taxes == [] then [] else [taxes[0].id] + TaxIds(taxes[1..])
  }

  /** The product method: match the line's service against the catalogue, then check the
      product's first purchase tax against the rate the webservice gave. */
  function ProductVals(ctx: LineContext, line: RemoteLine): (r: Result<MethodVals, ImportError>)
    ensures !Present(line.service) ==> r == Err(MissingService)
    ensures Present(line.service) && FirstMatch(ctx.entries, line.service.value).None? ==>
              r == Err(NoMatchingProduct(ctx.desc.number, line.service.value))
    ensures r.Ok? ==>
              && Present(line.service)
              && var m := FirstMatch(ctx.entries, line.service.value);
              && m.Some?
              && StartsWith(line.service.value, m.value.service)
              && r.value.productId == Some(m.value.product.id)
              && r.value.accountId == m.value.product.lineAccount
              && r.value.taxIds == TaxIds(m.value.product.purchaseTaxes)
              && r.value.analyticId.None?
    ensures Present(line.service) && FirstMatch(ctx.entries, line.service.value).Some? ==>
              var p := FirstMatch(ctx.entries, line.service.value).value.product;
              && (r.Err? <==> |p.purchaseTaxes| > 0 && EffectiveAmount(p.purchaseTaxes[0]) != ctx.taxrate)
              && (r.Err? ==> r == Err(TaxRateMismatch(ctx.desc.number, p.defaultCode, EffectiveAmount(p.purchaseTaxes[0]), ctx.taxrate)))
  {
    if !Present(line.service) then Err(MissingService)
    else
      match FirstMatch(ctx.entries, line.service.value)
      case None => Err(NoMatchingProduct(ctx.desc.number, line.service.value))
      case Some(m) =>
        var p := m.product;
        if |p.purchaseTaxes| > 0 && EffectiveAmount(p.purchaseTaxes[0]) != ctx.taxrate then
          Err(TaxRateMismatch(ctx.desc.number, p.defaultCode, EffectiveAmount(p.purchaseTaxes[0]), ctx.taxrate))
        else
          Ok(MethodVals(p.lineAccount, None, TaxIds(p.purchaseTaxes), Some(p.id)))
  }

  /** The service period of a line that has both timestamps: the first 10 characters of the
      start, and the day before the first 10 characters of the end. */
  function Period(ctx: LineContext, line: RemoteLine): (p: Option<(string, string)>)
    ensures p.Some? <==> Present(line.start) && Present(line.end)
    ensures p.Some? ==> |p.value.0| == (if |line.start.value| < 10 then |line.start.value| else 10)
    ensures p.Some? ==> StartsWith(line.start.value, p.value.0)
    ensures p.Some? ==> p.value.1 == ctx.prevDay(Take(line.end.value, 10))
  {
    if Present(line.start) && Present(line.end) then
      Some((Take(line.start.value, 10), ctx.prevDay(Take(line.end.value, 10))))
    else None
  }

  /** The line label: the description, followed by the period in French when there is one. */
  function LineName(description: string, period: Option<(string, string)>): (name: string)
    ensures period.None? ==> name == description
    ensures period.Some? ==> StartsWith(name, description)
    ensures period.Some? ==> name[|description|..] == " du " + period.value.0 + " au " + period.value.1
  {
    match period
    case None => description
    case Some((s, e)) => description + " du " + s + " au " + e
  }

  /** `_prepare_invoice_line_vals`: `None` for a line without base price, the line's values,
      or the error that stops the import. */
  function PrepareLine(ctx: LineContext, line: RemoteLine): (r: Result<Option<LineVals>, ImportError>)
    requires ctx.desc.account.lineMethod == NoProduct ==> ctx.taxId.Some?
    ensures r == Ok(None) <==> !HasBasePrice(line)
    ensures r.Ok? && r.value.Some? ==>
              var v := r.value.value;
              && v.priceUnit == line.baseprice.value
              && v.quantity == line.quantity
              && v.name == LineName(line.description, Period(ctx, line))
              && (v.startDate.Some? <==> ctx.periodFields && Period(ctx, line).Some?)
              && (v.startDate.Some? ==> v.startDate == Some(Period(ctx, line).value.0) && v.endDate == Some(Period(ctx, line).value.1))
              && (v.startDate.None? ==> v.endDate.None?)
    ensures HasBasePrice(line) && ctx.desc.account.lineMethod == NoProduct ==>
              if ctx.desc.account.accountId.None? then
                r == Err(MissingAccount(ctx.desc.number, LineName(line.description, Period(ctx, line))))
              else
                && r.Ok? && r.value.Some?
                && r.value.value.accountId == ctx.desc.account.accountId.value
                && r.value.value.analyticId == ctx.desc.account.analyticId
                && r.value.value.taxIds == [ctx.taxId.value]
                && r.value.value.productId.None?
    ensures HasBasePrice(line) && ctx.desc.account.lineMethod == ByProduct ==>
              match ProductVals(ctx, line)
              case Err(e) => r == Err(e)
              case Ok(mv) =>
                if mv.accountId.None? then
                  r == Err(MissingAccount(ctx.desc.number, LineName(line.description, Period(ctx, line))))
                else
                  && r.Ok? && r.value.Some?
                  && r.value.value.accountId == mv.accountId.value
                  && r.value.value.analyticId == mv.analyticId
                  && r.value.value.productId == mv.productId
                  && r.value.value.taxIds == mv.taxIds
  {
    if !HasBasePrice(line) then Ok(None)
    else
      var mr := match ctx.desc.account.lineMethod
                case NoProduct =>
                  Ok(MethodVals(ctx.desc.account.accountId, ctx.desc.account.analyticId, [ctx.taxId.value], None))
                case ByProduct => ProductVals(ctx, line);
      match mr
      case Err(e) => Err(e)
      case Ok(mv) =>
        var period := Period(ctx, line);
        var name := LineName(line.description, period);
        if mv.accountId.None? then Err(MissingAccount(ctx.desc.number, name))
        else
          var dates := if ctx.periodFields then period else None;
          Ok(Some(LineVals(
            mv.accountId.value, mv.analyticId, mv.taxIds, mv.productId,
            line.quantity, line.baseprice.value, name,
            if dates.Some? then Some(dates.value.0) else None,
            if dates.Some? then Some(dates.value.1) else None)))
  }

  /** With the sorted catalogue, the product method picks the product of a longest service
      prefix that starts the line's service. */
  lemma ProductLineUsesLongestPrefix(ctx: LineContext, line: RemoteLine, products: seq<Product>)
    requires ctx.entries == OvhProducts(products)
    requires ProductVals(ctx, line).Ok?
    ensures Present(line.service)
    ensures exists p :: p in products && ProductVals(ctx, line).value.productId == Some(p.id) &&
              StartsWith(line.service.value, EntryOf(p).service) &&
              forall q :: q in products && StartsWith(line.service.value, EntryOf(q).service) ==>
                |EntryOf(q).service| <= |EntryOf(p).service|
  {
    var m := FirstMatch(ctx.entries, line.service.value).value;
    LongestPrefixMatch(products, line.service.value);
    assert m == EntryOf(m.product);
  }
}
