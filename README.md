# Invoice import: the batch loop of `POST /import/invoice`

The service takes a list of uploaded PDF invoices. Each PDF goes to a
language model, which replies with the invoice's fields as JSON. The service
gathers every reply into one Excel workbook:

- a "Számlák" (invoices) sheet with one row per invoice under 12 fixed
  headers;
- a "Tételek" (items) sheet with one row per line item under 6 fixed
  headers. Each item row starts with the number of the invoice it belongs to.

The first file that fails aborts the whole request, and no workbook is
returned.

This project models the part of `import_invoice` that validates the uploads
and builds the rows. The model call and the JSON parser are abstracted: each
upload arrives as an `Upload(filename, contentType, parsed)`. Here `parsed`
is the parsed reply, or `None` when `json.loads` raised `JSONDecodeError`.

Files:

- `json.dfy` (module `Json`): the JSON value a reply parses to, and
  `dict.get(key, default)`.
- `sheets.dfy` (module `Sheets`):
  - the worksheet as a class whose `rows` grow by `append`;
  - the finished workbook as a value.
- `invoice_import.dfy` (module `InvoiceImport`): what the endpoint computes,
  as functions. It covers:
  - the per-file checks (`CheckFile`);
  - the rows one file contributes (`FileRows`);
  - the batch folded over the files (`Batch`);
  - the whole request (`Import`), which returns either the workbook or an
    `Error`.
- `import_properties.dfy` (module `ImportProperties`): lemmas about that
  specification:
  - the first failing file decides the error;
  - row counts;
  - column alignment;
  - rows in submission order;
  - every item row is tagged with its own invoice's number.
- `import_endpoint.dfy` (module `ImportEndpoint`): the endpoint as the loop
  it is. It creates two `Worksheet` objects, appends the header rows, then
  loops over the files, appending rows and returning early on the first
  error. Each method is proved against the functions above, and
  `ImportInvoice` ensures `r == Import(files)`.

The model distinguishes two kinds of error:

- `HttpError(status, detail)`: an `HTTPException` the endpoint raises on
  purpose. The status is 400 for no files or a non-PDF, and 500 for an
  invalid JSON reply. `Message` gives the detail text.
- `Unhandled(fault)`: a Python exception the endpoint lets escape while it
  reads a reply of an unexpected shape. FastAPI turns these into a 500:
  - a reply that is not an object has no `.get`;
  - a `tetelek` that is null, a boolean or a number is not iterable;
  - a `tetelek` element that is not an object has no `.get`.

`data.get(h, "")` only substitutes `""` for a missing key. A key that is
present with `null`, a number, an array or an object passes through
unchanged.

## Model

| member | source | states |
|---|---|---|
| Json.Get | main.py:153 | `dict.get` with a default: the stored value when the key is present, whatever it is, and the default only when the key is absent |
| Sheets.Worksheet.constructor | main.py:89-92 | a new worksheet has the given title and no rows |
| Sheets.Worksheet.Append | main.py:109 | `append` adds the row at the end, leaves the earlier rows as they were and keeps the title |
| InvoiceImport.Message | main.py:86-150 | the text of an `HTTPException`. A non-PDF or invalid-JSON message starts with the offending file's name |
| InvoiceImport.HeaderRow | main.py:95-112 | a header row has one string cell per header name, in the given order |
| InvoiceImport.InvoiceRow | main.py:153 | an invoice row has exactly 12 cells. Cell i is the reply's value under header i when present, and "" only when absent |
| InvoiceImport.ItemRow | main.py:156-166 | an item row has 6 cells. The first is the invoice number passed in. Cells 1-5 are the item's megnevezes, netto, afa, afakulcs and brutto, with "" for a missing field |
| InvoiceImport.InvoiceNumber | main.py:156 | the number item rows are tagged with: the reply's `szamlaszam` when present, whatever its value, and "" only when absent |
| InvoiceImport.ItemRows | main.py:157-167 | one item row per line item, in order: row k is line item k's `ItemRow` under the given invoice number. Each row is 6 wide and starts with that number |
| InvoiceImport.ArrayItems | main.py:157-161 | iterating a `tetelek` array gets through exactly when every element is an object, yielding each element's fields in array order. Otherwise it fails with the missing-`get` fault |
| InvoiceImport.ItemsOf | main.py:157 | iterating `tetelek` and calling `.get` on each element gets through exactly for an array of objects, an empty string or an empty object. An array yields its elements' fields in order; "" and {} yield no items. null, a boolean or a number is not iterable; any other string, object or array fails on the missing `.get` |
| InvoiceImport.CheckFile | main.py:115-157 | a non-PDF content type is a 400 naming the file, checked before the reply. A PDF with an unparseable reply is a 500 naming the file. A reply that is not an object fails on `.get`. A file passes if and only if it is a PDF whose reply is an object whose `tetelek` (an empty array when missing) gets through; otherwise it fails with that iteration's fault. A passing file's items are exactly what iterating its `tetelek` yields, so a missing `tetelek` yields none and an array yields one per element |
| InvoiceImport.FileRows | main.py:153-167 | a file fails exactly when its checks fail, with the same error. A passing file contributes exactly one invoice row and one item row per line item. Every item row is 6 wide and starts with that file's invoice-row number cell |
| InvoiceImport.Join | main.py:115-167 | two consecutive stretches of the loop go through exactly when both do. An error in the first wins; otherwise the second's error; otherwise the rows of both in order (its algebra is in `JoinNoRows` and `JoinAssociative`) |
| InvoiceImport.Batch | main.py:115-167 | a batch that goes through contributes one invoice row per file |
| InvoiceImport.Import | main.py:86-112 | no files gives a 400 and no workbook. Otherwise the request fails exactly when the batch fails, with the batch's error. On success the sheets are titled "Számlák" and "Tételek", their first rows are the 12 and 6 header names, the batch's rows follow, and the invoice sheet has one row more than there are files |
| ImportProperties.JoinNoRows | main.py:115-167 | a stretch of no files adds no rows and no error on either side |
| ImportProperties.JoinAssociative | main.py:115-167 | running three consecutive stretches of the loop does not depend on how they are grouped |
| ImportProperties.BatchConcat | main.py:115-167 | the batch over two lists one after the other is the first list's batch followed by the second's |
| ImportProperties.BatchSnoc | main.py:115-167 | one more file at the end of the list adds its own rows after the rows so far, or its error |
| ImportProperties.ErrorStopsBatch | main.py:115-150 | once a prefix of the files fails, the files after it change nothing |
| ImportProperties.BatchOkIff | main.py:115-150 | the batch goes through if and only if every file passes its checks |
| ImportProperties.FailureAt | main.py:115-150 | when all files before file k went through and file k fails, the batch fails with file k's error |
| ImportProperties.FirstFailureDecides | main.py:115-150 | when file k is the first that fails, the request fails with file k's error, whatever the later files hold |
| ImportProperties.NonPdfAborts | main.py:116-119 | the first non-PDF aborts the request with a 400 naming that file, and nothing after it is processed |
| ImportProperties.InvalidJsonAborts | main.py:144-150 | the first PDF with an unparseable reply aborts the request with a 500 naming that file, and nothing after it is processed |
| ImportProperties.InvoiceRowsInOrder | main.py:115-153 | on success every file passes, and invoice row i is built from file i's reply |
| ImportProperties.FileItemRows | main.py:156-167 | for a reply with a `tetelek` array, item row k belongs to element k. It starts with the reply's `szamlaszam` (or ""), and its other cells are element k's fields under their headers |
| ImportProperties.BatchItemCount | main.py:157-167 | on success the item rows number the sum of the files' line-item counts |
| ImportProperties.RowCounts | main.py:109-167 | on success the invoice sheet has 1 + the number of files rows, and the item sheet has 1 + the total number of line items |
| ImportProperties.BatchColumnsAligned | main.py:153-166 | every invoice row the batch contributes is 12 wide and every item row 6 wide |
| ImportProperties.ColumnsAligned | main.py:109-166 | on success every row of the invoice sheet, header included, is 12 wide, and every row of the item sheet is 6 wide |
| ImportProperties.ItemsBefore | main.py:115-167 | the item rows of the files before file o, which is where file o's item rows start, fit within the total. Past the last file it is the total line-item count |
| ImportProperties.ItemRowsInOrder | main.py:115-167 | on success item row k of file o is on the item sheet at position `ItemsBefore(files, o) + k`: each file's item rows sit together, in array order, after the item rows of every earlier file |
| ImportProperties.FirstFileItemRow | main.py:157-167 | on success the first file's item rows open the item sheet |
| ImportProperties.LaterFileItemRow | main.py:115-167 | on success the item rows of a later file follow the first file's, in the place they have among the remaining files |
| ImportProperties.OwnersInOrder | main.py:115-167 | the owner list has one entry per line item. Each entry is a file index, and entries never decrease. `OwnerOfItem` ties the entries to the sheet's item rows |
| ImportProperties.OwnerOfItem | main.py:115-167 | the owner entry at item row k of file o's stretch is o, so the owner list tells which file each item row came from |
| ImportProperties.ItemsTagged | main.py:156-160 | on success the first cell of every item row equals the first cell of its owning file's invoice row, so it carries its own invoice's `szamlaszam` |
| ImportProperties.TaggedAt | main.py:156-160 | on success item row j is 6 wide, its owner is a file of the batch whose invoice row is 12 wide, and the two rows share their first cell |
| ImportProperties.TwoInvoicesScenario | main.py:86-167 | two PDFs, "INV-1" with two line items and "INV-2" with none, give a workbook with three rows on each sheet, and both item rows carry "INV-1" |
| ImportEndpoint.DownloadName | main.py:174-176 | the attachment name is `invoices_` + the timestamp + `.xlsx`, and the timestamp can be read back from it |
| ImportEndpoint.ImportInvoice | main.py:84-167 | the imperative endpoint: two worksheets, header rows, the file loop with early exits. It returns exactly what `Import` specifies |
| ImportEndpoint.AddFiles | main.py:115-167 | the loop over the files stops with the batch's error when a file fails. Otherwise both sheets hold their earlier rows followed by the batch's rows, and the titles are unchanged |
| ImportEndpoint.AddNext | main.py:115-167 | one pass of the loop: either the whole batch fails with this file's error, or the prefix one file longer goes through and the sheets hold exactly its rows |
| ImportEndpoint.BatchStep | main.py:115-167 | after the prefix before file i, a passing file i extends the batch's rows with its own |
| ImportEndpoint.AddFile | main.py:116-167 | one file: the content-type check, the parse outcome, the reply's shape, then its invoice row and item rows appended. It fails exactly when `FileRows` fails, with the same error, and otherwise appends exactly `FileRows`' rows |
| ImportEndpoint.AppendItems | main.py:157-167 | the inner loop appends one item row per element of the `tetelek` array, in order. It reports failure exactly when some element is not an object |

## Left out

- The language-model call and its prompt (main.py:17-80, 121-142): a remote service. Its reply is an input, `Upload.parsed`.
- `json.loads` (main.py:145): a library parser. Its outcome is part of the input (`None` for `JSONDecodeError`).
- Base64 encoding and `await file.read()` (main.py:121-122): they only feed the remote request.
- FastAPI request and response plumbing, `StreamingResponse` and its headers (main.py:83-84, 178-182): I/O. `DownloadName` takes the formatted timestamp as a parameter.
- A failing model call or file read (main.py:121, 125-140): it would abort the batch, but `Upload` has no outcome for it, so the model does not represent it.
- `datetime.now()` and `strftime` (main.py:174): a clock. The timestamp is a parameter of `DownloadName`.
- Workbook serialisation with openpyxl, `BytesIO` and `wb.save` (main.py:170-172): a binary file format. A sheet is its title and its sequence of rows.
- Loading the environment and creating the API client (main.py:1-3, 17): configuration.
- InvoiceImport.InvoiceRow: a reply value becomes a cell as it is. openpyxl validates and converts cell values in `append`: it refuses arrays, objects and strings with control characters, and it converts others. None of this is part of this model, so a reply that openpyxl would refuse still goes through here.
- InvoiceImport.ItemRow: the same holds for the values of an item's fields.
- InvoiceImport.CheckFile: a missing content type or filename (`None` in Python) is not modelled. Both are strings here.
- Json.Get: the key order of Python dicts is not modelled. `Get` only looks keys up, so no result depends on it.
- JSON numbers are mathematical reals. `NaN` and `Infinity`, which Python's `json.loads` accepts, are not representable.
- Partial rows appended before a failure stay in the in-memory sheets, but the failure discards the workbook. `AddFile` and `AddFiles` therefore state the sheets' rows only on success.
