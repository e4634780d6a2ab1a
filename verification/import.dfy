/** The wizard's `get`: for every OVH account, walk the remote invoice list, skip what must not
    be imported, and prepare the others; any error stops the whole import. */
module InvoiceImport {
  import opened Results
  import opened Text
  import opened Records
  import opened Catalogue
  import opened Invoices

  /** Numbers of OVH's special pre-paid invoices start with this. */
  const PrepaidPrefix: string := "PP_"

  /** Why a remote invoice is not imported, in the order the checks are made. */
  datatype SkipReason = TooOld | ZeroAmount | Prepaid | AlreadyImported

  /** What the wizard was started with, and what the host provides for the whole run. */
  datatype Settings = Settings(
    fromDate: Option<string>,
    entries: seq<Entry>,
    taxes: seq<Tax>,
    prevDay: string -> string,
    periodFields: bool)

  /** A remote invoice: its list entry and the reply to `billingInvoiceInfo` about it. */
  datatype RemoteInvoice = RemoteInvoice(summary: InvoiceSummary, info: InvoiceInfo)

  /** An OVH account of the wizard and what its session returned: `None` when the login was refused. */
  datatype AccountBatch = AccountBatch(account: OvhAccount, reply: Option<seq<RemoteInvoice>>)

  /** The company running the import: its country, and whether the OVH supplier (VAT number
      FR22424761419) exists. */
  datatype Company = Company(country: Option<string>, hasOvhSupplier: bool)

  /** The first 10 characters of the invoice date, `YYYY-MM-DD`. */
  function InvoiceDay(s: InvoiceSummary): (d: string)
    ensures |d| == (if |s.date| < 10 then |s.date| else 10)
    ensures StartsWith(s.date, d)
  {
    Take(s.date, 10)
  }

  /** The four conditions under which a listed invoice is imported, stated positively: dated on
      or after the start date when there is one, some total not zero, not a pre-paid invoice, and
      no supplier invoice from OVH with that number yet. */
  predicate Importable(s: InvoiceSummary, fromDate: Option<string>, known: set<string>) {
    && (fromDate.Some? ==> InvoiceDay(s) == fromDate.value || Less(fromDate.value, InvoiceDay(s)))
    && (s.totalPrice != 0.0 || s.totalPriceWithVat != 0.0)
    && !StartsWith(s.billnum, PrepaidPrefix)
    && s.billnum !in known
  }

  /** The chain of `continue` checks of `get`: the first reason to skip, if any. */
  function SkipReasonOf(s: InvoiceSummary, fromDate: Option<string>, known: set<string>): (r: Option<SkipReason>)
    ensures r == Some(TooOld) <==> fromDate.Some? && Less(InvoiceDay(s), fromDate.value)
    ensures r == Some(ZeroAmount) ==> s.totalPrice == 0.0 && s.totalPriceWithVat == 0.0
    ensures r == Some(Prepaid) ==> StartsWith(s.billnum, PrepaidPrefix)
    ensures r == Some(AlreadyImported) ==> s.billnum in known
  {
    if fromDate.Some? && Less(InvoiceDay(s), fromDate.value) then Some(TooOld)
    else if s.totalPrice == 0.0 && s.totalPriceWithVat == 0.0 then Some(ZeroAmount)
    else if s.billnum != [] && StartsWith(s.billnum, PrepaidPrefix) then Some(Prepaid)
    else if s.billnum in known then Some(AlreadyImported)
    else None
  }

  /** An invoice is skipped for no reason exactly when all four import conditions hold. */
  lemma ImportedIffAllConditions(s: InvoiceSummary, fromDate: Option<string>, known: set<string>)
    ensures SkipReasonOf(s, fromDate, known).None? <==> Importable(s, fromDate, known)
  {
    if fromDate.Some? {
      NotLessMeansAtOrAfter(InvoiceDay(s), fromDate.value);
    }
  }

  /** The supplier invoice numbers of some invoice values. */
  function Numbers(vs: seq<InvoiceVals>): (ns: set<string>)
    ensures forall v :: v in vs ==> v.supplierNumber in ns
    ensures forall n :: n in ns ==> exists v :: v in vs && v.supplierNumber == n
  {
    set v | v in vs :: v.supplierNumber
  }

  /** No two invoice values carry the same supplier invoice number. */
  ghost predicate DistinctNumbers(vs: seq<InvoiceVals>) {
    forall i, j :: 0 <= i < j < |vs| ==> vs[i].supplierNumber != vs[j].supplierNumber
  }

  /** Putting in front an invoice whose number none of the others has keeps numbers distinct. */
  lemma DistinctCons(v: InvoiceVals, rest: seq<InvoiceVals>)
    requires DistinctNumbers(rest)
    requires forall w :: w in rest ==> w.supplierNumber != v.supplierNumber
    ensures DistinctNumbers([v] + rest)
  {
    forall i, j | 0 <= i < j < |[v] + rest|
      ensures ([v] + rest)[i].supplierNumber != ([v] + rest)[j].supplierNumber
    {
      assert ([v] + rest)[j] == rest[j - 1];
      if i > 0 {
        assert ([v] + rest)[i] == rest[i - 1];
      } else {
        assert rest[j - 1] in rest;
      }
    }
  }

  /** The invoice values prepared for one listed invoice of an account. */
  function Prepared(st: Settings, account: OvhAccount, inv: RemoteInvoice): (r: Result<InvoiceVals, ImportError>)
    ensures r.Ok? ==> r.value.supplierNumber == inv.summary.billnum
  {
    PrepareInvoice(InvoiceDesc(inv.summary.billnum, InvoiceDay(inv.summary), account), inv.info,
                   st.entries, st.taxes, st.prevDay, st.periodFields)
  }

  /** The invoice loop of one account. `known` holds the numbers of the supplier invoices from
      OVH that exist already, including those created earlier in the same run. */
  function ImportInvoices(st: Settings, account: OvhAccount, invs: seq<RemoteInvoice>, known: set<string>)
    : (r: Result<seq<InvoiceVals>, ImportError>)
    ensures r.Ok? ==> |r.value| <= |invs|
    ensures r.Ok? ==> DistinctNumbers(r.value)
    ensures r.Ok? ==> forall v :: v in r.value ==> v.supplierNumber !in known
    ensures r.Ok? ==> forall v :: v in r.value ==>
              exists inv :: inv in invs && Importable(inv.summary, st.fromDate, known) &&
                            Prepared(st, account, inv) == Ok(v)
  {
    if invs == [] then Ok([])
    else
      var s := invs[0].summary;
      if SkipReasonOf(s, st.fromDate, known).Some? then
        ImportInvoices(st, account, invs[1..], known)
      else
        ImportedIffAllConditions(s, st.fromDate, known);
        ImportedIffAllConditions(s, st.fromDate, {});
        match Prepared(st, account, invs[0])
        case Err(e) => Err(e)
        case Ok(v) =>
          match ImportInvoices(st, account, invs[1..], known + {s.billnum})
          case Err(e) => Err(e)
          case Ok(rest) =>
            assert invs[0] in invs;
            assert forall inv :: inv in invs[1..] ==> inv in invs;
            assert forall w :: w in [v] + rest <==> w == v || w in rest;
            DistinctCons(v, rest);
            Ok([v] + rest)
  }

  /** The numbers of the listed invoices that pass the four import conditions against `known`. */
  ghost function EligibleNumbers(invs: seq<RemoteInvoice>, fromDate: Option<string>, known: set<string>): set<string> {
    set inv | inv in invs && Importable(inv.summary, fromDate, known) :: inv.summary.billnum
  }

  /** How the eligible numbers of a list split at its first invoice. */
  lemma EligibleAtHead(invs: seq<RemoteInvoice>, fromDate: Option<string>, known: set<string>)
    requires invs != []
    ensures Importable(invs[0].summary, fromDate, known) ==>
              EligibleNumbers(invs, fromDate, known) ==
              {invs[0].summary.billnum} + EligibleNumbers(invs[1..], fromDate, known + {invs[0].summary.billnum})
    ensures !Importable(invs[0].summary, fromDate, known) ==>
              EligibleNumbers(invs, fromDate, known) == EligibleNumbers(invs[1..], fromDate, known)
  {
    assert forall inv :: inv in invs <==> inv == invs[0] || inv in invs[1..] by {
      assert invs == [invs[0]] + invs[1..];
    }
  }

  /** On success the loop of one account imports exactly the numbers that pass the conditions
      against what existed before the loop: a number repeated in the list is imported once. */
  lemma {:induction false} ImportsExactlyEligible(st: Settings, account: OvhAccount, invs: seq<RemoteInvoice>, known: set<string>)
    requires ImportInvoices(st, account, invs, known).Ok?
    ensures Numbers(ImportInvoices(st, account, invs, known).value) == EligibleNumbers(invs, st.fromDate, known)
  {
    if invs != [] {
      var s := invs[0].summary;
      ImportedIffAllConditions(s, st.fromDate, known);
      EligibleAtHead(invs, st.fromDate, known);
      if SkipReasonOf(s, st.fromDate, known).Some? {
        ImportsExactlyEligible(st, account, invs[1..], known);
      } else {
        var out := ImportInvoices(st, account, invs, known).value;
        var known' := known + {s.billnum};
        ImportsExactlyEligible(st, account, invs[1..], known');
        var rest := ImportInvoices(st, account, invs[1..], known').value;
        assert out == [out[0]] + rest;
        assert out[0].supplierNumber == s.billnum;
        assert forall v :: v in out <==> v == out[0] || v in rest;
      }
    }
  }

  /** The account loop: the numbers imported for one account are known to the next. */
  function ImportAccounts(st: Settings, batches: seq<AccountBatch>, known: set<string>)
    : (r: Result<seq<InvoiceVals>, ImportError>)
    ensures r.Ok? ==> DistinctNumbers(r.value)
    ensures r.Ok? ==> forall v :: v in r.value ==> v.supplierNumber !in known
    ensures (exists b :: b in batches && b.reply.None?) ==> r.Err?
    ensures r.Ok? ==> forall v :: v in r.value ==>
              exists b, inv :: b in batches && b.reply.Some? && inv in b.reply.value &&
                               Importable(inv.summary, st.fromDate, known) && Prepared(st, b.account, inv) == Ok(v)
  {
    if batches == [] then Ok([])
    else
      match batches[0].reply
      case None => Err(LoginRefused(batches[0].account.login))
      case Some(invs) =>
        match ImportInvoices(st, batches[0].account, invs, known)
        case Err(e) => Err(e)
        case Ok(first) =>
          match ImportAccounts(st, batches[1..], known + Numbers(first))
          case Err(e) => Err(e)
          case Ok(rest) =>
            assert forall b :: b in batches[1..] ==> b in batches;
            Ok(first + rest)
  }

  /** Every listed invoice of the accounts, account after account. */
  function AllInvoices(batches: seq<AccountBatch>): (invs: seq<RemoteInvoice>)
    ensures forall inv :: inv in invs <==> exists b :: b in batches && b.reply.Some? && inv in b.reply.value
  {
    if batches == [] then []
    else
      assert forall b :: b in batches ==> b == batches[0] || b in batches[1..];
      (if batches[0].reply.Some? then batches[0].reply.value else []) + AllInvoices(batches[1..])
  }

  /** The eligible numbers of two lists in a row: those of the first, and those of the second
      against what the first adds. */
  lemma EligibleConcat(a: seq<RemoteInvoice>, b: seq<RemoteInvoice>, fromDate: Option<string>, known: set<string>)
    ensures EligibleNumbers(a + b, fromDate, known) ==
            EligibleNumbers(a, fromDate, known) + EligibleNumbers(b, fromDate, known + EligibleNumbers(a, fromDate, known))
  {
    assert forall inv :: inv in a + b <==> inv in a || inv in b;
  }

  /** On success the whole run imports exactly the numbers, over all accounts, that pass the
      conditions against the supplier invoices that existed before it. */
  lemma {:induction false} ImportsExactlyEligibleAcrossAccounts(st: Settings, batches: seq<AccountBatch>, known: set<string>)
    requires ImportAccounts(st, batches, known).Ok?
    ensures Numbers(ImportAccounts(st, batches, known).value) == EligibleNumbers(AllInvoices(batches), st.fromDate, known)
  {
    if batches != [] {
      var invs := batches[0].reply.value;
      var first := ImportInvoices(st, batches[0].account, invs, known).value;
      var known' := known + Numbers(first);
      var rest := ImportAccounts(st, batches[1..], known').value;
      ImportsExactlyEligible(st, batches[0].account, invs, known);
      ImportsExactlyEligibleAcrossAccounts(st, batches[1..], known');
      assert ImportAccounts(st, batches, known).value == first + rest;
      assert Numbers(first + rest) == Numbers(first) + Numbers(rest) by {
        assert forall v :: v in first + rest <==> v in first || v in rest;
      }
      var tail := AllInvoices(batches[1..]);
      assert AllInvoices(batches) == invs + tail;
      EligibleConcat(invs, tail, st.fromDate, known);
    }
  }

  /** One account's loop stops only on the preparation error of a listed invoice that passed the
      skip chain, and it runs through when every listed invoice prepares. */
  lemma {:induction false} ImportInvoicesFailsOnlyOnPreparation(
    st: Settings, account: OvhAccount, invs: seq<RemoteInvoice>, known: set<string>)
    ensures (forall inv :: inv in invs && Importable(inv.summary, st.fromDate, known) ==>
               Prepared(st, account, inv).Ok?) ==>
              ImportInvoices(st, account, invs, known).Ok?
    ensures ImportInvoices(st, account, invs, known).Err? ==>
              exists inv :: inv in invs && Importable(inv.summary, st.fromDate, known) &&
                            Prepared(st, account, inv) == Err(ImportInvoices(st, account, invs, known).error)
  {
    if invs != [] {
      var s := invs[0].summary;
      var r := ImportInvoices(st, account, invs, known);
      ImportedIffAllConditions(s, st.fromDate, known);
      assert forall inv :: inv in invs[1..] ==> inv in invs;
      if SkipReasonOf(s, st.fromDate, known).Some? {
        ImportInvoicesFailsOnlyOnPreparation(st, account, invs[1..], known);
      } else {
        var known' := known + {s.billnum};
        ImportInvoicesFailsOnlyOnPreparation(st, account, invs[1..], known');
        if Prepared(st, account, invs[0]).Ok? && r.Err? {
          var inv :| inv in invs[1..] && Importable(inv.summary, st.fromDate, known') &&
                     Prepared(st, account, inv) == Err(r.error);
          assert Importable(inv.summary, st.fromDate, known);
        }
      }
    }
  }

  /** The login of an account succeeded, and every listed invoice of it that passes the four
      conditions against `known` prepares without error. */
  ghost predicate AccountPrepares(st: Settings, b: AccountBatch, known: set<string>) {
    && b.reply.Some?
    && forall inv :: inv in b.reply.value && Importable(inv.summary, st.fromDate, known) ==>
         Prepared(st, b.account, inv).Ok?
  }

  /** The account loop stops only on a refused login or on a preparation error, and runs through
      when every login succeeds and every listed invoice prepares. */
  lemma {:induction false} ImportAccountsFailsOnlyOnLoginOrPreparation(
    st: Settings, batches: seq<AccountBatch>, known: set<string>)
    ensures (forall b :: b in batches ==> AccountPrepares(st, b, known)) ==> ImportAccounts(st, batches, known).Ok?
    ensures ImportAccounts(st, batches, known).Err? ==>
              var e := ImportAccounts(st, batches, known).error;
              || (exists b :: b in batches && b.reply.None? && e == LoginRefused(b.account.login))
              || (exists b, inv :: b in batches && b.reply.Some? && inv in b.reply.value &&
                                   Importable(inv.summary, st.fromDate, known) && Prepared(st, b.account, inv) == Err(e))
  {
    if batches != [] {
      var b := batches[0];
      assert b in batches;
      assert forall b' :: b' in batches[1..] ==> b' in batches;
      if b.reply.Some? {
        var invs := b.reply.value;
        ImportInvoicesFailsOnlyOnPreparation(st, b.account, invs, known);
        var first := ImportInvoices(st, b.account, invs, known);
        if first.Ok? {
          var known' := known + Numbers(first.value);
          ImportAccountsFailsOnlyOnLoginOrPreparation(st, batches[1..], known');
          assert forall b' :: AccountPrepares(st, b', known) ==> AccountPrepares(st, b', known');
          var r := ImportAccounts(st, batches, known);
          if r.Err? && !(exists b' :: b' in batches && b'.reply.None? && r.error == LoginRefused(b'.account.login)) {
            var b', inv :| b' in batches[1..] && b'.reply.Some? && inv in b'.reply.value &&
                           Importable(inv.summary, st.fromDate, known') && Prepared(st, b'.account, inv) == Err(r.error);
            assert Importable(inv.summary, st.fromDate, known);
          }
        }
      }
    }
  }

  /** The settings of one run of `get`: the catalogue is built once from the products. */
  function RunSettings(
    fromDate: Option<string>, products: seq<Product>, taxes: seq<Tax>,
    prevDay: string -> string, periodFields: bool): Settings
  {
    Settings(fromDate, OvhProducts(products), taxes, prevDay, periodFields)
  }

  /** `get` as a whole: the company and supplier checks, the catalogue built once, then every
      account in turn. `existing` holds the numbers of the supplier invoices from OVH already
      in the host. */
  function Import(
    company: Company, batches: seq<AccountBatch>, fromDate: Option<string>, existing: set<string>,
    products: seq<Product>, taxes: seq<Tax>, prevDay: string -> string, periodFields: bool)
    : (r: Result<seq<InvoiceVals>, ImportError>)
    ensures company.country.None? ==> r == Err(MissingCountry)
    ensures company.country.Some? && !company.hasOvhSupplier ==> r == Err(MissingSupplier)
    ensures company.country.Some? && company.hasOvhSupplier && (exists b :: b in batches && b.reply.None?) ==> r.Err?
    ensures r.Ok? ==> DistinctNumbers(r.value)
    ensures r.Ok? ==> forall v :: v in r.value ==> v.supplierNumber !in existing
    ensures r.Ok? ==> Numbers(r.value) == EligibleNumbers(AllInvoices(batches), fromDate, existing)
    ensures r.Ok? ==> forall v :: v in r.value ==>
              exists b, inv :: b in batches && b.reply.Some? && inv in b.reply.value &&
                               Importable(inv.summary, fromDate, existing) &&
                               Prepared(RunSettings(fromDate, products, taxes, prevDay, periodFields), b.account, inv) == Ok(v)
    ensures company.country.Some? && company.hasOvhSupplier &&
            (forall b :: b in batches ==> AccountPrepares(RunSettings(fromDate, products, taxes, prevDay, periodFields), b, existing)) ==>
              r.Ok?
    ensures r.Err? ==>
              || (company.country.None? && r.error == MissingCountry)
              || (!company.hasOvhSupplier && r.error == MissingSupplier)
              || (exists b :: b in batches && b.reply.None? && r.error == LoginRefused(b.account.login))
              || (exists b, inv :: b in batches && b.reply.Some? && inv in b.reply.value &&
                    Importable(inv.summary, fromDate, existing) &&
                    Prepared(RunSettings(fromDate, products, taxes, prevDay, periodFields), b.account, inv) == Err(r.error))
  {
    if company.country.None? then Err(MissingCountry)
    else if !company.hasOvhSupplier then Err(MissingSupplier)
    else
      var st := RunSettings(fromDate, products, taxes, prevDay, periodFields);
      var r := ImportAccounts(st, batches, existing);
      ImportAccountsFailsOnlyOnLoginOrPreparation(st, batches, existing);
      if r.Ok? then ImportsExactlyEligibleAcrossAccounts(st, batches, existing); r else r
  }
}
