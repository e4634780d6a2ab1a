# OVH supplier invoice import — decision logic

This project models the pure decision logic of the OVH invoice import wizard of the
`ovh_supplier_invoice` module, an add-on for the Odoo ERP. Given the replies of OVH's billing
webservice, the wizard does three things:

- it decides which remote invoices to import;
- it maps each remote detail line onto a supplier invoice line, either through a catalogue of
  products coded `OVH-<service prefix>` (the *product* method) or through the OVH account's own
  expense account and one purchase tax of the right rate (the *no-product* method);
- it stops the whole import with an error when a mapping rule fails.

The ERP, the SOAP session and the PDF download are outside the model. What they supply becomes
plain data: the product list with its proposed accounts and taxes, the tax table in search
order, the numbers of the supplier invoices that already exist, and the webservice replies.

Modules, one per component of `ovh_supplier_invoice/wizard/ovh_invoice_get.py`:

- `Results` (`results.dfy`) holds `Option` and `Result`.
- `Text` (`text.dfy`) holds the Python string operations used: slices, `startswith` and `<`.
- `Records` (`records.dfy`) holds the records read and written, and every import error.
- `Catalogue` (`catalogue.dfy`) models `get_ovh_products`, a stable sort by descending prefix
  length, and the product-matching loop. Together they give a longest-prefix match.
- `InvoiceLines` (`lines.dfy`) models `_prepare_invoice_line_vals`.
- `Invoices` (`invoices.dfy`) models `_prepare_invoice_vals`.
- `InvoiceImport` (`import.dfy`) models the loops and the chain of skip checks of `get`.
  Duplicates are detected against a set of known numbers. That set grows with every invoice
  created in the run, because the wizard's search also sees invoices created earlier in the
  same transaction.

Python falsiness is modelled explicitly:

- an optional string is "present" when it is `Some` and not empty;
- a base price is "given" when it is `Some` and not zero;
- an unset tax amount counts as 0.

Amounts are `real` and are compared exactly, as the wizard compares them with `!=`.

## Model

| member | source | states |
|---|---|---|
| Text.StripPrefix | ovh_supplier_invoice/wizard/ovh_invoice_get.py:259-261 | Cutting a prefix off a string that starts with it, then putting the prefix back, restores the string. |
| Text.LessIsLexicographic | ovh_supplier_invoice/wizard/ovh_invoice_get.py:321-322 | The string `<` used on dates is the textbook lexicographic order: a proper prefix comes first, otherwise the first differing character decides. |
| Text.NotLessMeansAtOrAfter | ovh_supplier_invoice/wizard/ovh_invoice_get.py:321-322 | A date string that is not before another one is equal to it or after it. |
| Catalogue.EntryOf | ovh_supplier_invoice/wizard/ovh_invoice_get.py:259-261 | Each entry pairs a product with itself. A code shorter than four characters gives the empty prefix. For any longer code, the code's first four characters followed by the service prefix give back the whole code. |
| Catalogue.CodeRoundTrip | ovh_supplier_invoice/wizard/ovh_invoice_get.py:254-261 | For a code starting with `OVH-`, `OVH-` followed by the entry's service prefix is the code again. |
| Catalogue.Insert | ovh_supplier_invoice/wizard/ovh_invoice_get.py:264-267 | One insertion step adds exactly the new entry to the multiset of entries. |
| Catalogue.InsertKeepsSorted | ovh_supplier_invoice/wizard/ovh_invoice_get.py:264-267 | Inserting into a list ordered by non-increasing prefix length keeps it ordered. |
| Catalogue.InsertWithLength | ovh_supplier_invoice/wizard/ovh_invoice_get.py:264-267 | The inserted entry goes before every entry of its own length. Entries of every other length keep their order. |
| Catalogue.SortByLength | ovh_supplier_invoice/wizard/ovh_invoice_get.py:264-267 | The result is a permutation of the input, ordered by non-increasing prefix length. It is stable: for every length, the entries of that length appear in input order. |
| Catalogue.OvhProducts | ovh_supplier_invoice/wizard/ovh_invoice_get.py:253-268 | The catalogue is a permutation of the products' entries. Every listed product appears, paired with its code minus four characters, and nothing else appears. The catalogue is sorted longest prefix first, with equal lengths in search order. |
| Catalogue.FirstMatchIndex | ovh_supplier_invoice/wizard/ovh_invoice_get.py:86-89 | The index found holds an entry whose prefix starts the service, or it is the end of the list. No earlier entry's prefix starts the service. |
| Catalogue.FirstMatch | ovh_supplier_invoice/wizard/ovh_invoice_get.py:85-90 | The match is absent exactly when no entry's prefix starts the service. Otherwise it is a catalogue entry whose prefix starts the service. On a list sorted longest prefix first, no matching prefix is longer than the match's. |
| Catalogue.LongestPrefixMatch | ovh_supplier_invoice/wizard/ovh_invoice_get.py:262-267 | On the sorted catalogue there is no match exactly when no product's prefix matches. Otherwise the match is a listed product whose prefix starts the service and is at least as long as every matching prefix. |
| Catalogue.FirstMatchWithinLength | ovh_supplier_invoice/wizard/ovh_invoice_get.py:86-89 | The first match in a list is also the first match among the list's entries of the same prefix length. |
| Catalogue.TieGoesToSearchOrder | ovh_supplier_invoice/wizard/ovh_invoice_get.py:264-267 | Among products whose matching prefixes have the maximal length, the chosen one comes first in the host's search order. |
| InvoiceLines.ProductVals | ovh_supplier_invoice/wizard/ovh_invoice_get.py:83-135 | An absent or empty service fails. A service no prefix matches fails with that service. Otherwise the matched product supplies the product, account and taxes, and no analytic account is set. The step fails exactly when the product's first purchase tax rate, unset counting as 0, differs from the webservice rate. It then fails with the invoice number, the product code, that tax rate and the webservice rate. |
| InvoiceLines.Period | ovh_supplier_invoice/wizard/ovh_invoice_get.py:141-146 | A period exists exactly when both timestamps are present. Its start is exactly the first 10 characters of the start timestamp, or all of it when shorter. Its end is the day before the first 10 characters of the end timestamp. |
| InvoiceLines.LineName | ovh_supplier_invoice/wizard/ovh_invoice_get.py:139-148 | Without a period the label is the description. With one, the label begins with the description and continues with " du <start> au <end>". |
| InvoiceLines.PrepareLine | ovh_supplier_invoice/wizard/ovh_invoice_get.py:66-162 | A line yields nothing exactly when its base price is missing or zero. Price, quantity, label and period dates come from the line. No-product lines fail with the line's label when the OVH account has no expense account. Otherwise they carry that account, the OVH account's analytic account, the invoice's tax and no product. Product lines fail with the product step's error. They also fail with the line's label when the product has no account. Otherwise they carry the product's account, taxes and id. |
| InvoiceLines.ProductLineUsesLongestPrefix | ovh_supplier_invoice/wizard/ovh_invoice_get.py:86-89 | With the sorted catalogue, the product method needs a service. It picks a listed product whose prefix starts the service and is a longest matching prefix. |
| Invoices.FindPurchaseTax | ovh_supplier_invoice/wizard/ovh_invoice_get.py:186-202 | Finds nothing exactly when no tax is a percent purchase tax of the rate that is not price-included. Otherwise it returns the first such tax in search order. |
| Invoices.InvoiceTax | ovh_supplier_invoice/wizard/ovh_invoice_get.py:183-202 | The product method needs no invoice-level tax. The no-product method fails exactly when no tax in the table is a percent purchase tax of the webservice rate that is not price-included. It then fails with the invoice number and the rate. Otherwise it uses the id of the first such tax in search order. |
| Invoices.PrepareLinesKeepsPricedLines | ovh_supplier_invoice/wizard/ovh_invoice_get.py:203-216 | On success there is one invoice line per remote line with a nonzero base price, in input order. Each is that line's prepared values. |
| Invoices.PrepareLinesFailsOnFirstError | ovh_supplier_invoice/wizard/ovh_invoice_get.py:203-216 | Line preparation fails exactly when some line fails, and then with the first failing line's error. |
| Invoices.SingleItemIsOneLineList | ovh_supplier_invoice/wizard/ovh_invoice_get.py:203-216 | An invoice whose details are one bare item is prepared exactly like one whose details list that single item. |
| Invoices.PrepareInvoice | ovh_supplier_invoice/wizard/ovh_invoice_get.py:164-217 | A missing no-product tax fails before any line is looked at. The invoice takes the remote number, the origin `OVH SoAPI <login>`, exactly the first 10 characters of the date (all of it when shorter) and the final price. Its lines are exactly the prepared lines, or their first error. No-product lines all carry the found tax. |
| InvoiceImport.SkipReasonOf | ovh_supplier_invoice/wizard/ovh_invoice_get.py:321-360 | "Too old" is given exactly when a start date is set and the invoice's 10-character date is before it. Each other reason implies its condition: both totals zero, a `PP_` number, or a number already known. |
| InvoiceImport.ImportedIffAllConditions | ovh_supplier_invoice/wizard/ovh_invoice_get.py:321-360 | An invoice passes the skip chain exactly when all four conditions hold: dated on or after the start date when one is set, not both totals zero, no `PP_` prefix, and its number not already present. |
| InvoiceImport.ImportInvoices | ovh_supplier_invoice/wizard/ovh_invoice_get.py:313-372 | On success no two invoices of one account share a number, and none had a number already known. Each invoice is the prepared invoice of one listed invoice, and that same listing passes all four conditions against the numbers known before the loop. |
| InvoiceImport.ImportsExactlyEligible | ovh_supplier_invoice/wizard/ovh_invoice_get.py:349-360 | On success, an account imports exactly the numbers of its listed invoices that pass all four conditions against the invoices existing before the loop. |
| InvoiceImport.ImportInvoicesFailsOnlyOnPreparation | ovh_supplier_invoice/wizard/ovh_invoice_get.py:313-372 | An account's loop succeeds when every listed invoice that passes all four conditions prepares. Skipped invoices never block it. When it fails, the error is the preparation error of a listed invoice that passes all four conditions. |
| InvoiceImport.ImportAccounts | ovh_supplier_invoice/wizard/ovh_invoice_get.py:292-310 | A refused login anywhere fails the run. On success, numbers are distinct across all accounts and none was known before. Each invoice is the prepared invoice of one listed invoice of some account, prepared with that account, and that listing passes all four conditions against the numbers known before the run. |
| InvoiceImport.ImportAccountsFailsOnlyOnLoginOrPreparation | ovh_supplier_invoice/wizard/ovh_invoice_get.py:292-372 | The run over all accounts succeeds when every login succeeds and every listed invoice that passes all four conditions prepares. When it fails, the error is a refused login of a listed account, or the preparation error of a listed invoice that passes all four conditions against the numbers known before the run. |
| InvoiceImport.ImportsExactlyEligibleAcrossAccounts | ovh_supplier_invoice/wizard/ovh_invoice_get.py:292-372 | On success the run imports exactly the numbers, over all accounts' lists, that pass the four conditions against the invoices existing before it. |
| InvoiceImport.Import | ovh_supplier_invoice/wizard/ovh_invoice_get.py:276-372 | A company without a country fails first, then a missing OVH supplier. With both, a refused login of any account fails the run. With a country and a supplier, it succeeds when every login succeeds and every listed invoice that passes all four conditions prepares. Any other failure is a refused login, or the preparation error of a listed invoice that passes all four conditions against the invoices existing before the run. On success the numbers are distinct and new, and are exactly the eligible ones. Each created invoice is the prepared invoice of one listed invoice of some account, and that listing passes all four conditions. |

## Left out

- SOAP login and the `billingInvoiceList`/`billingInvoiceInfo` calls are foreign-library and network I/O. Their replies are data: `AccountBatch.reply` is `None` when the login is refused. Each listed invoice comes with its info reply, which is used only when the invoice is imported.
- The PDF download and attachment (`ovh_invoice_attach_pdf`) are HTTP I/O.
- Chatter messages and logging are I/O.
- Auto-validation through the workflow engine, the returned window action and the wizard's `unlink` are host-framework behaviour or persistence.
- `default_get` and `_default_from_date` read the host and the clock. `fromDate` is a parameter.
- The ORM searches are host behaviour. The product search is the input product list. The tax search is a filter over a tax table given in search order. The duplicate search is a set of existing numbers.
- `product_id_change` and `onchange_partner_id` are host helpers. A product carries the expense account and purchase taxes the host proposes, with fiscal-position mapping applied. No analytic account is set on product lines.
- The journal, partner and company fields of the invoice are host defaults and are not modelled.
- The calendar arithmetic of "end date minus one day" is the parameter `prevDay`, an uninterpreted predecessor-date function. Only the 10-character truncation and the label format are modelled. A malformed date that would fail to parse is not modelled.
- The lower-casing of the company's country code is not modelled: it only feeds the SOAP calls and logging.
- The translation of messages through `_()` is not modelled. Error messages are reduced to an `ImportError` variant with its key values.
- InvoiceImport.Import: does not model the float-precision reconciliation after invoice creation, which is floating point over totals the host computes. So a run the model accepts can still stop in the wizard, either on the untaxed-total mismatch or on the missing-tax-line assertion before the VAT amount is forced. The forced VAT amount on a total mismatch is not reflected in the invoice values.
- InvoiceLines.PrepareLine: `float()` conversions of quantity and base price are identities on `real`. The type error that a missing quantity would raise is not modelled.
