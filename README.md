# Sales Invoice Generator — a verified model of its invoice logic

Sales Invoice Generator is a small invoicing application. An Express and
Mongoose back end stores the invoices of each signed-in user. A React front
end creates, lists, filters and totals those invoices, and a sign-up form
validates new accounts. A Gemini-backed endpoint turns free text into invoice
data and writes dashboard insights.

This project models that logic in Dafny and proves what it promises.

Back end:
- the Mongoose invoice schema: required paths, defaults and the status enum (`InvoiceSchema`);
- line-item normalisation with running totals;
- the create, get-by-id and update endpoints;
- the in-place field merge of an update on the loaded document, as the class `InvoiceDocument` (`InvoiceController`);
- the `Number(x) || 0` coercion and `parseInt` (`JsNumber`);
- the string primitives the code uses (`JsString`);
- the order-keeping filter (`Seqs`);
- the pure parts of the AI endpoints: the text check, the cleanup of the model's reply, and the dashboard summary (`AiController`).

Front end:
- the create-invoice form: live totals, next-invoice-number generation, adding, removing and editing rows (`CreateInvoiceForm`);
- the invoice list: newest-first sort, status and search filters, status toggle, delete and replace-by-id (`InvoiceList`);
- the dashboard statistics and recent invoices (`Dashboard`, sharing the NaN-aware sums of `InvoiceSums`);
- the e-mail and password validators (`Validators`);
- the sign-up form's own validators and its submit check (`Signup`).

Conventions of the model:
- Numbers are `real`. A raw numeric input is `Num(r)`, `Malformed` (where `Number(x)` is NaN) or `Absent` (undefined).
- A stored total is `Option<real>`. A sum that meets a missing total is `None`, which stands for the NaN that JavaScript produces.
- Dates are integers (milliseconds), and identifiers are strings.
- The three inputs from outside (the fetched invoice list, the model's reply and the clock) are parameters.

The model follows the code where the two differ:
- `validateName` rejects a blank name after trimming, but compares the untrimmed length with 3.
- The dashboard summary's "Recent invoices (last 5)" are the first five in stored order, not the newest.
- `updateInvoice` re-normalises the stored items when the request brings none.

## Model

| member | source | states |
|---|---|---|
| InvoiceSchema.ParseStatus | backend/models/Invoice.js:36 | a parsed status name maps back to the same string |
| InvoiceSchema.StatusRoundTrip | backend/models/Invoice.js:36 | exactly "Paid" and "Unpaid" are enum values, and each value round-trips through its name |
| InvoiceSchema.Save | backend/models/Invoice.js:11-42 | saving succeeds exactly for a conforming document (required strings non-empty, status in the enum) and returns it unchanged |
| InvoiceSchema.ApplyItemSchema | backend/models/Invoice.js:3-9 | an item is accepted exactly when name, unitPrice, quantity and total are present; the values are kept, and taxPercentage defaults to 0 |
| InvoiceSchema.ApplyItemsSchema | backend/models/Invoice.js:33 | the list is accepted exactly when every item is, and then it holds each item's schema result in order |
| InvoiceSchema.ApplyInvoiceSchema | backend/models/Invoice.js:11-42 | building a document succeeds exactly when the required paths are present and the status is in the enum; the result conforms, status defaults to "Unpaid", paymentTerms to "Net 15", invoiceDate to now; the invoice number, due date, both parties, notes, totals and ids are kept |
| JsNumber.CoerceNumber | backend/controllers/invoiceController.js:24-25 | `Number(x)`, falling back to 0, keeps a finite number and gives 0 for NaN and undefined |
| JsNumber.LeadingDigits | frontend/src/pages/Invoice/CreateInvoice.jsx:90 | parseInt's digit run is the longest prefix of digits of the radix |
| JsNumber.NatToString | frontend/src/pages/Invoice/CreateInvoice.jsx:95-96 | `toString` of a natural is non-empty, all decimal digits, with no leading zero |
| JsNumber.PadStart | frontend/src/pages/Invoice/CreateInvoice.jsx:97 | the result has the target width (or the input's length), ends with the input and is filled with the pad character before it |
| JsNumber.DigitsValueOfDecimal | frontend/src/pages/Invoice/CreateInvoice.jsx:95-96 | reading the decimal string of n gives back n |
| JsNumber.LeadingZerosIgnored | frontend/src/pages/Invoice/CreateInvoice.jsx:90 | leading zeros do not change a decimal value |
| JsNumber.ParseDecimalDigits | frontend/src/pages/Invoice/CreateInvoice.jsx:90 | parseInt of a non-empty run of decimal digits is its value |
| JsNumber.ParsePaddedDecimal | frontend/src/pages/Invoice/CreateInvoice.jsx:90-97 | parseInt of a zero-padded `toString` gives back the number |
| JsString.TrimStart | backend/controllers/aiController.js:54 | the result is a suffix of the input, everything dropped is white space, and it starts with a non-space |
| JsString.TrimEnd | backend/controllers/aiController.js:54 | the result is a prefix of the input, everything dropped is white space, and it ends with a non-space |
| JsString.Trim | backend/controllers/aiController.js:54 | the result is a slice with white space only around it, and it begins and ends with a non-space |
| JsString.TrimNoSpace | frontend/src/pages/Auth/Signup.jsx:41 | trimming a string without white space changes nothing |
| JsString.IncludesEmpty | frontend/src/pages/Invoice/AllInvoices.jsx:117-122 | every string includes the empty search term |
| JsString.RemoveAllWithoutStart | backend/controllers/aiController.js:51-53 | `replace(/p/g, "")` leaves a string unchanged when the pattern's first character does not occur in it |
| JsString.RemoveAllKeepsPrefix | backend/controllers/aiController.js:51-53 | text in which the pattern cannot start passes through `replace(/p/g, "")` untouched, ahead of whatever the rest becomes |
| JsString.RemoveAllAbsent | backend/controllers/aiController.js:51-53 | a string that does not include the pattern is left as it is |
| JsString.SliceExcludes | backend/controllers/aiController.js:51-54 | a slice of a string without the pattern is also without it |
| JsString.NoFenceAfterRemoval | backend/controllers/aiController.js:53 | after removing every "```" left to right, no "```" is left, even where removal joins backticks |
| JsString.PrefixBefore | frontend/src/pages/Invoice/CreateInvoice.jsx:90 | the first field of `split` is the longest prefix without the separator |
| JsString.SecondField | frontend/src/pages/Invoice/CreateInvoice.jsx:90 | `split(sep)[1]` is undefined exactly when the separator is absent, and it never contains the separator |
| JsString.SecondFieldOf | frontend/src/pages/Invoice/CreateInvoice.jsx:90 | the second field of `a-b-…` is b |
| Seqs.Filter | frontend/src/pages/Invoice/AllInvoices.jsx:111-123 | `filter` keeps exactly the elements that pass the test, and is no longer than its input |
| Seqs.FilterPositions | frontend/src/pages/Invoice/AllInvoices.jsx:111-123 | the kept elements sit at strictly increasing positions of the input |
| Seqs.FilterIsSubsequence | frontend/src/pages/Invoice/AllInvoices.jsx:111-123 | `filter` keeps the input's order |
| Seqs.FilterCounts | frontend/src/pages/Invoice/AllInvoices.jsx:63-65 | `filter` keeps every copy of a passing element and none of a failing one |
| Seqs.FilterAll | frontend/src/pages/Invoice/AllInvoices.jsx:113 | a test every element passes keeps the whole list |
| Seqs.SubsequenceTransitive | frontend/src/pages/Invoice/AllInvoices.jsx:111-123 | two filters in a row still keep the original order |
| InvoiceController.NormalizeItem | backend/controllers/invoiceController.js:24-46 | the name is kept; the numbers are coerced; the rate comes from taxPercentage when it is defined and from taxPercent otherwise; the stored total is subtotal plus tax |
| InvoiceController.NormalizeItems | backend/controllers/invoiceController.js:23-47 | one normalised item per input item, in order |
| InvoiceController.Normalize | backend/controllers/invoiceController.js:21-49 | the loop with running `+=` sums returns the normalised items, their subtotal and tax sums, and total = subtotal + taxTotal |
| InvoiceController.EmptyItems | backend/controllers/invoiceController.js:21-23 | no items give no lines and zero totals |
| InvoiceController.LineTotalFactored | backend/controllers/invoiceController.js:33-35 | a line total is price × quantity × (1 + rate/100) |
| InvoiceController.SumsOfConcat | backend/controllers/invoiceController.js:37-38 | the running sums over two lists joined are the sums of the parts |
| InvoiceController.RenormalizeConsistent | backend/controllers/invoiceController.js:135-162 | re-normalising stored items with consistent totals gives the same items |
| InvoiceController.NormalizeIdempotent | backend/controllers/invoiceController.js:138-170 | normalising already normalised items changes neither the items nor the totals |
| InvoiceController.UpdateSource | backend/controllers/invoiceController.js:135 | a non-empty request list is used; otherwise the stored items are used |
| InvoiceController.CreateInvoice | backend/controllers/invoiceController.js:6-71 | creation succeeds exactly when the required strings are present; the stored items are the normalised request items; the three totals are their sums; invoice number, due date, both parties and notes are the request's, the invoice date is the request's or now; status is "Unpaid", terms default to "Net 15", the record conforms, and every failure is a 500 |
| InvoiceController.GetInvoiceById | backend/controllers/invoiceController.js:88-105 | an invoice is returned exactly when it exists and belongs to the requesting user; a missing invoice and another user's invoice are the same 404 |
| InvoiceController.UpdateMergeRule | backend/controllers/invoiceController.js:126-170 | each falsy request field keeps the stored value and a truthy one replaces it; ids and invoice date never change; items come from the non-empty request list or from the stored list; the totals are recomputed from them |
| InvoiceController.UpdateWithoutItemsKeepsItems | backend/controllers/invoiceController.js:135-170 | an update without items keeps consistent stored items and their total |
| InvoiceController.UpdateIdempotent | backend/controllers/invoiceController.js:110-180 | the same update applied twice equals it applied once |
| InvoiceController.InvoiceDocument.Load | backend/controllers/invoiceController.js:112 | a loaded document holds the stored record |
| InvoiceController.InvoiceDocument.MergeFields | backend/controllers/invoiceController.js:126-132 | the in-place assignments that fall back to the stored value leave the merged record |
| InvoiceController.InvoiceDocument.RecomputeItems | backend/controllers/invoiceController.js:135-170 | the in-place item and total assignments leave the re-normalised items and their sums |
| InvoiceController.InvoiceDocument.ApplyUpdate | backend/controllers/invoiceController.js:115-170 | after the assignments, the document holds the updated record of its old state |
| InvoiceController.UpdateInvoice | backend/controllers/invoiceController.js:110-180 | a missing document or another user's document is a 404 and stays untouched; otherwise the document holds the updated record, which is returned if it validates and is a 500 if not |
| InvoiceSums.AddTotal | frontend/src/pages/Dashboard/Dashboard.jsx:31 | `acc + inv.total` is a number exactly when both sides are, and is then their sum |
| InvoiceSums.SumDefinedIffAllTotals | frontend/src/pages/Dashboard/Dashboard.jsx:29-34 | a sum of totals is a number exactly when every invoice has a total |
| InvoiceSums.SumAppend | frontend/src/pages/Dashboard/Dashboard.jsx:31 | appending an invoice adds its total to the sum |
| InvoiceSums.PaidInvoices | frontend/src/pages/Dashboard/Dashboard.jsx:29-30 | keeps exactly the invoices whose status is "Paid" |
| InvoiceSums.UnpaidInvoices | frontend/src/pages/Dashboard/Dashboard.jsx:32-33 | keeps exactly the invoices whose status is not "Paid" |
| InvoiceSums.PaidSumsStep | frontend/src/pages/Dashboard/Dashboard.jsx:29-34 | appending a "Paid" invoice adds its total to the paid sum and leaves the other sum unchanged; any other invoice does the reverse |
| InvoiceSums.PartitionCounts | backend/controllers/aiController.js:147-149 | every invoice is counted once, as paid or as not paid |
| InvoiceSums.PartitionSums | backend/controllers/aiController.js:150-154 | the paid sum plus the unpaid sum is the sum of all totals, NaN included |
| Dashboard.ComputeStats | frontend/src/pages/Dashboard/Dashboard.jsx:26-40 | the count is the number of invoices; the paid figure is the sum of the "Paid" totals and the unpaid figure the sum of the others; paid plus unpaid is the sum of all totals; the paid figure is a number exactly when every paid invoice has a total |
| Dashboard.PaidTotalsDefined | frontend/src/pages/Dashboard/Dashboard.jsx:29-31 | the paid sum is a number exactly when every paid invoice has a total |
| Dashboard.RecentInvoices | frontend/src/pages/Dashboard/Dashboard.jsx:42-46 | at most five invoices, sorted newest first, all drawn from the fetched list |
| Dashboard.RecentAreLatest | frontend/src/pages/Dashboard/Dashboard.jsx:42-46 | every invoice left out is no newer than any invoice shown |
| Dashboard.EmptyDashboard | frontend/src/pages/Dashboard/Dashboard.jsx:10-15 | no invoices give zero statistics and no recent list |
| InvoiceList.Insert | frontend/src/pages/Invoice/AllInvoices.jsx:43-45 | inserting adds exactly one copy of the invoice |
| InvoiceList.InsertSorted | frontend/src/pages/Invoice/AllInvoices.jsx:43-45 | inserting into a newest-first list keeps it newest first |
| InvoiceList.SortByDateDesc | frontend/src/pages/Invoice/AllInvoices.jsx:42-46 | the sorted list is newest first and a permutation of the fetched list |
| InvoiceList.FilterInvoices | frontend/src/pages/Invoice/AllInvoices.jsx:110-124 | an invoice is shown exactly when it matches the status filter ("All" or equal status) and its number or client name includes the search term, case-insensitively |
| InvoiceList.FilteredIsSubsequence | frontend/src/pages/Invoice/AllInvoices.jsx:110-124 | the filtered list keeps the list's order |
| InvoiceList.ShowAllByDefault | frontend/src/pages/Invoice/AllInvoices.jsx:28-29 | with status "All" and an empty search, every invoice is shown in order |
| InvoiceList.NextStatus | frontend/src/pages/Invoice/AllInvoices.jsx:80 | the new status is an enum value different from the old one, and it is "Unpaid" exactly when the old one was "Paid" |
| InvoiceList.ToggleTwice | frontend/src/pages/Invoice/AllInvoices.jsx:80 | toggling an enum status twice restores it |
| InvoiceList.DeleteById | frontend/src/pages/Invoice/AllInvoices.jsx:63-65 | keeps exactly the invoices with another id |
| InvoiceList.DeleteKeepsOthers | frontend/src/pages/Invoice/AllInvoices.jsx:63-65 | deletion keeps the order and every copy of the other invoices |
| InvoiceList.ReplaceById | frontend/src/pages/Invoice/AllInvoices.jsx:90-94 | the same length and ids; invoices with the updated id are replaced, and the others are untouched |
| InvoiceList.ReplaceIdempotent | frontend/src/pages/Invoice/AllInvoices.jsx:90-94 | replacing twice equals replacing once |
| InvoiceList.ReplaceAbsentId | frontend/src/pages/Invoice/AllInvoices.jsx:90-94 | an update whose id is not listed changes nothing |
| CreateInvoiceForm.RowTotalIsSubtotalPlusTax | frontend/src/pages/Invoice/CreateInvoice.jsx:380-385 | a row's displayed total is its subtotal plus its tax |
| CreateInvoiceForm.RowTotalMatchesServer | frontend/src/pages/Invoice/CreateInvoice.jsx:380-385 | the row total shown equals the line total the server stores for that row |
| CreateInvoiceForm.RowAmountsMatchServer | frontend/src/pages/Invoice/CreateInvoice.jsx:114-124 | a row's subtotal and tax equal the server's line subtotal and line tax |
| CreateInvoiceForm.FormTotalsMatchServer | frontend/src/pages/Invoice/CreateInvoice.jsx:114-129 | the form's subtotal and tax total equal the totals the server computes for the submitted items |
| CreateInvoiceForm.EmptyFormTotals | frontend/src/pages/Invoice/CreateInvoice.jsx:114-129 | no rows give zero subtotal, tax and total |
| CreateInvoiceForm.Suffixes | frontend/src/pages/Invoice/CreateInvoice.jsx:89-90 | one parsed suffix per invoice number, in order |
| CreateInvoiceForm.MaxPositiveBounds | frontend/src/pages/Invoice/CreateInvoice.jsx:88-94 | the running maximum bounds every parsed suffix |
| CreateInvoiceForm.MaxPositiveAttained | frontend/src/pages/Invoice/CreateInvoice.jsx:88-94 | the running maximum is 0 or one of the parsed suffixes |
| CreateInvoiceForm.MaxSuffixBounds | frontend/src/pages/Invoice/CreateInvoice.jsx:88-94 | the largest suffix bounds the suffix of every invoice number |
| CreateInvoiceForm.MaxSuffixAttained | frontend/src/pages/Invoice/CreateInvoice.jsx:88-94 | the largest suffix is 0 or the suffix of some invoice number |
| CreateInvoiceForm.InvoiceNumberReadsBack | frontend/src/pages/Invoice/CreateInvoice.jsx:90-97 | the suffix of "INV-" + the zero-padded n parses back to n |
| CreateInvoiceForm.MaxSuffixStep | frontend/src/pages/Invoice/CreateInvoice.jsx:90-93 | one more invoice raises the maximum exactly when its suffix parses to a larger number |
| CreateInvoiceForm.LargestSuffix | frontend/src/pages/Invoice/CreateInvoice.jsx:88-94 | the `forEach` loop returns the largest parsed suffix, or 0 |
| CreateInvoiceForm.NextInvoiceNumber | frontend/src/pages/Invoice/CreateInvoice.jsx:88-97 | the new number is "INV-" followed by the largest suffix plus one, zero-padded to four digits |
| CreateInvoiceForm.NextNumberAboveAll | frontend/src/pages/Invoice/CreateInvoice.jsx:88-97 | the new number's suffix reads back and is larger than every existing parsed suffix |
| CreateInvoiceForm.GenerateInvoiceNumber | frontend/src/pages/Invoice/CreateInvoice.jsx:81-108 | a failed fetch gives "INV-0001"; otherwise the next number after the fetched ones |
| CreateInvoiceForm.FirstInvoiceNumber | frontend/src/pages/Invoice/CreateInvoice.jsx:95-97 | with no invoices, the first number is "INV-0001" |
| CreateInvoiceForm.AddItem | frontend/src/pages/Invoice/CreateInvoice.jsx:165-173 | the rows are kept and one blank row (quantity 1, price 0, tax 0) is appended |
| CreateInvoiceForm.AddItemKeepsTotals | frontend/src/pages/Invoice/CreateInvoice.jsx:165-173 | a blank row changes neither subtotal nor tax |
| CreateInvoiceForm.WithoutIndex | frontend/src/pages/Invoice/CreateInvoice.jsx:182 | `filter((_, i) => i !== index)` never lengthens the list |
| CreateInvoiceForm.WithoutIndexRemovesOne | frontend/src/pages/Invoice/CreateInvoice.jsx:182 | the index's row is removed, or nothing is when the index is out of range |
| CreateInvoiceForm.RemoveItem | frontend/src/pages/Invoice/CreateInvoice.jsx:175-184 | removal is refused with "At least one item is required" exactly when one row is left; otherwise that row alone is removed |
| CreateInvoiceForm.RemoveItemPermutes | frontend/src/pages/Invoice/CreateInvoice.jsx:175-184 | the remaining rows plus the removed one are the original rows |
| CreateInvoiceForm.EditField | frontend/src/pages/Invoice/CreateInvoice.jsx:147-150 | an edit sets the named field and keeps the other three |
| CreateInvoiceForm.EditItem | frontend/src/pages/Invoice/CreateInvoice.jsx:143-155 | only the row at the index changes |
| CreateInvoiceForm.RenameKeepsTotals | frontend/src/pages/Invoice/CreateInvoice.jsx:143-155 | renaming a row leaves the totals unchanged |
| AiController.CleanJson | backend/controllers/aiController.js:51-54 | the cleaned reply neither begins nor ends with white space |
| AiController.CleanedHasNoFence | backend/controllers/aiController.js:51-54 | no "```" survives the cleanup |
| AiController.NoBackticksOnlyTrimmed | backend/controllers/aiController.js:51-54 | a reply without backticks is only trimmed |
| AiController.JsonFencedReply | backend/controllers/aiController.js:51-54 | a reply "```json" + body + "```", with no backtick in the body, cleans up to the trimmed body |
| AiController.BareFencedReply | backend/controllers/aiController.js:51-54 | a reply "```" + body + "```", with no backtick in the body and the body not starting with "json", cleans up to the trimmed body |
| AiController.ParseInvoiceFromText | backend/controllers/aiController.js:8-57 | a missing or empty text is a 400 "Text is required"; otherwise the text handed to `JSON.parse` is the cleaned reply, which has no fence |
| AiController.MissingTextIgnoresReply | backend/controllers/aiController.js:9-12 | the 400 comes before the model is asked |
| AiController.RecentLines | backend/controllers/aiController.js:163-171 | the recent lines exist exactly when every recent invoice has a total, and then carry each one's number, total and status |
| AiController.DashboardSummary | backend/controllers/aiController.js:138-172 | no invoices is a 404; a missing recent total is a 500; otherwise the paid and unpaid counts are the sizes of the two filters and the revenue and outstanding figures their sums; the counts add up, the revenue and outstanding sums add up to the sum of all totals, and the recent entries are the first five stored invoices |
| AiController.SummaryFailsOnMissingRecentTotal | backend/controllers/aiController.js:163-171 | the summary fails exactly when one of the first five stored invoices has no total |
| Validators.MatchIsWellFormed | frontend/src/utils/helper.js:2 | a match of `^[^\s@]+@[^\s@]+\.[^\s@]+$` has no white space, one "@" with something before it, and an inner "." after it |
| Validators.WellFormedMatches | frontend/src/utils/helper.js:2 | every such address matches the pattern |
| Validators.PatternMeansWellFormed | frontend/src/utils/helper.js:2 | the pattern accepts exactly the well-formed addresses |
| Validators.ValidateEmail | frontend/src/utils/helper.js:1-6 | "Email is required" exactly for the empty string, "Invalid email format" exactly for a non-empty malformed address, and "" exactly for a well-formed one |
| Validators.ValidatePassword | frontend/src/utils/helper.js:8-12 | "Password is required" exactly for the empty string, the length message exactly for 1 to 5 characters, and "" exactly from 6 characters on |
| Validators.EmailExamples | frontend/src/utils/helper.js:1-6 | "a@b.co" is accepted; "a@bco" and "a b@c.d" are rejected as malformed |
| Signup.ValidateName | frontend/src/pages/Auth/Signup.jsx:40-44 | "Name is required" exactly when the trimmed name is empty; the length message exactly when it is not but the untrimmed name is under 3 characters; otherwise "" |
| Signup.BlankNameIsMissing | frontend/src/pages/Auth/Signup.jsx:41 | a name made only of white space is missing, whatever its length |
| Signup.ValidateConfirmPassword | frontend/src/pages/Auth/Signup.jsx:46-50 | required first, then equal to the password; "" exactly when non-empty and equal |
| Signup.ValidateTermsAgreed | frontend/src/pages/Auth/Signup.jsx:53-55 | "" exactly when the terms are agreed |
| Signup.FormValidMeans | frontend/src/pages/Auth/Signup.jsx:99-107 | the form is valid exactly when the name, e-mail, password, confirmation and terms each pass |
| Signup.Submit | frontend/src/pages/Auth/Signup.jsx:109-134 | submit shows all five errors, marks every field touched, and sends the request exactly for a valid form |
| Signup.SubmitSendsOnlyValid | frontend/src/pages/Auth/Signup.jsx:109-134 | the request is sent exactly when every field condition holds |

## Left out

- HTTP, Express routing, authentication middleware, MongoDB queries and axios calls are left out. The fetched invoice list, the loaded document and the current time are parameters.
- The Gemini calls, `JSON.parse` and the response's JSON body are left out. The model's reply is an input string, and parsing stops at the cleaned text handed to `JSON.parse`.
- `parseInvoiceFromText`'s fallback to `response.text()` for a non-string reply is left out, because the reply is modelled as a string.
- Request `items` are taken to be an array of objects. The 500 that createInvoice and updateInvoice answer when `items` is a truthy non-array (no `.map`), or when an entry is null or undefined (reading `item.unitPrice` throws), is not modelled.
- `generateRemainderEmail` is a prompt built around a model call and holds no logic to model.
- `deleteInvoice` on the back end is a single database call with its own 404.
- Numbers are exact reals. IEEE-754 rounding, `toFixed(2)` and the Intl currency formatting on display are left out.
- JavaScript's `toString` of very large numbers (exponent form) is left out.
- Invalid dates (`new Date(x)` giving NaN in the sort comparator) are left out, because dates are integers.
- Strings are sequences of characters, not UTF-16 code units. Lowercasing covers ASCII letters only.
- The Mongoose validation messages, and the `error.message` in a 500 body, are left out. A failure is an error value.
- An invoice number that is undefined (where `split` would throw) is left out, because invoice numbers are strings.
- The create form's `handleInputChange` is modelled only for row edits. The branches for top-level fields and for `billFrom`/`billTo` are plain record updates.
- The form stores typed input strings. They are modelled by their `Number(...)` reading as a raw number.
- The sign-up form's `handleInputChange` and `handleBlur`, which re-run a single validator on a touched field, are left out.
- The submitted request and the login after sign-up are left out.
- InvoiceList.SortByDateDesc: proves sorted and a permutation, but not the stability that `Array.prototype.sort` guarantees for equal dates.
- Dashboard.RecentInvoices: states that the shown invoices come from the fetched list and are newest first; which of several equal-date invoices appear is not fixed.
