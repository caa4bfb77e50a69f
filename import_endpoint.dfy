/** The `/import/invoice` handler as the loop it is: two worksheets filled
    row by row, file by file, with an early exit on the first error. */
module ImportEndpoint {
  import opened Json
  import opened Sheets
  import opened InvoiceImport
  import opened ImportProperties

  /** The attachment name for a given formatted timestamp: `invoices_<ts>.xlsx`,
      from which the timestamp can be read back. */
  function DownloadName(timestamp: string): (name: string)
    ensures |name| == |timestamp| + 14
    ensures name[..9] == "invoices_" && name[|name| - 5..] == ".xlsx"
    ensures name[9..|name| - 5] == timestamp
  {
    "invoices_" + timestamp + ".xlsx"
  }

  /** Validates the uploads and fills the invoice and item sheets in one pass.
      Returns the finished workbook only when every file went through; the
      first failing file's error otherwise. */
  method ImportInvoice(files: seq<Upload>) returns (r: Result<Workbook, Error>)
    ensures r == Import(files)
  {
    if files == [] {
      return Err(HttpError(400, NoFiles));
    }

    var wsInvoices := new Worksheet(DefaultSheetTitle);
    wsInvoices.title := InvoiceSheetTitle;
    var wsItems := new Worksheet(ItemSheetTitle);

    wsInvoices.Append(HeaderRow(InvoiceHeaders));
    wsItems.Append(HeaderRow(ItemHeaders));
    assert wsInvoices.rows == [HeaderRow(InvoiceHeaders)] && wsItems.rows == [HeaderRow(ItemHeaders)];

    var failure := AddFiles(files, wsInvoices, wsItems);
    if failure.Some? {
      return Err(failure.value);
    }
    return Ok(Workbook(Sheet(wsInvoices.title, wsInvoices.rows), Sheet(wsItems.title, wsItems.rows)));
  }

  /** The loop over the uploads, in submission order, stopping at the first
      file that fails. When none fails, both sheets have gained the batch's
      rows. */
  method AddFiles(files: seq<Upload>, wsInvoices: Worksheet, wsItems: Worksheet) returns (failure: Option<Error>)
    requires wsInvoices != wsItems
    modifies wsInvoices, wsItems
    ensures wsInvoices.title == old(wsInvoices.title) && wsItems.title == old(wsItems.title)
    ensures failure.None? <==> Batch(files).Ok?
    ensures failure.Some? ==> failure.value == Batch(files).error
    ensures failure.None? ==> wsInvoices.rows == old(wsInvoices.rows) + Batch(files).value.invoices
    ensures failure.None? ==> wsItems.rows == old(wsItems.rows) + Batch(files).value.items
  {
    var i := 0;
    ghost var done := Tables([], []);
    PrefixGrows(files, 0);
    while i < |files|
      invariant 0 <= i <= |files|
      invariant Batch(files[..i]) == Ok(done)
      invariant wsInvoices.title == old(wsInvoices.title) && wsItems.title == old(wsItems.title)
      invariant wsInvoices.rows == old(wsInvoices.rows) + done.invoices
      invariant wsItems.rows == old(wsItems.rows) + done.items
    {
      ghost var next;
      failure, next := AddNext(files, i, done, old(wsInvoices.rows), old(wsItems.rows), wsInvoices, wsItems);
      if failure.Some? {
        return;
      }
      done := next;
      i := i + 1;
    }
    PrefixGrows(files, i);
    return None;
  }

  /** One pass of the loop on top of the rows of the files before it: either
      the batch fails with this file's error, or the prefix one longer
      succeeds and the sheets hold exactly its rows. */
  method AddNext(files: seq<Upload>, i: nat, ghost done: Tables, ghost baseInvoices: seq<Row>, ghost baseItems: seq<Row>,
                 wsInvoices: Worksheet, wsItems: Worksheet) returns (failure: Option<Error>, ghost next: Tables)
    requires wsInvoices != wsItems
    requires i < |files| && Batch(files[..i]) == Ok(done)
    requires wsInvoices.rows == baseInvoices + done.invoices && wsItems.rows == baseItems + done.items
    modifies wsInvoices, wsItems
    ensures wsInvoices.title == old(wsInvoices.title) && wsItems.title == old(wsItems.title)
    ensures failure.Some? ==> Batch(files).Err? && failure.value == Batch(files).error
    ensures failure.None? ==> Batch(files[..i + 1]) == Ok(next)
    ensures failure.None? ==> wsInvoices.rows == baseInvoices + next.invoices && wsItems.rows == baseItems + next.items
  {
    failure := AddFile(files[i], wsInvoices, wsItems);
    if failure.Some? {
      FailureAt(files, i);
      next := done;
      return;
    }
    ghost var added := FileRows(files[i]).value;
    BatchStep(files, i, done, added);
    next := Tables(done.invoices + added.invoices, done.items + added.items);
    Regroup(baseInvoices, done.invoices, added.invoices);
    Regroup(baseItems, done.items, added.items);
  }

  /** Rows appended in two steps are the rows appended at once. */
  lemma Regroup(base: seq<Row>, earlier: seq<Row>, later: seq<Row>)
    ensures base + earlier + later == base + (earlier + later)
  {
  }

  /** One more file that passes adds its rows after the rows so far. */
  lemma BatchStep(files: seq<Upload>, i: nat, done: Tables, added: Tables)
    requires i < |files|
    requires Batch(files[..i]) == Ok(done) && FileRows(files[i]) == Ok(added)
    ensures Batch(files[..i + 1]) == Ok(Tables(done.invoices + added.invoices, done.items + added.items))
  {
    PrefixGrows(files, i);
    BatchSnoc(files[..i], files[i]);
  }

  /** One pass of the loop: checks the file, then appends its invoice row and
      its item rows. On a failure it reports the error that aborts the batch;
      what it appended before failing is never returned. */
  method AddFile(file: Upload, wsInvoices: Worksheet, wsItems: Worksheet) returns (failure: Option<Error>)
    requires wsInvoices != wsItems
    modifies wsInvoices, wsItems
    ensures wsInvoices.title == old(wsInvoices.title) && wsItems.title == old(wsItems.title)
    ensures failure.None? <==> FileRows(file).Ok?
    ensures failure.Some? ==> failure.value == FileRows(file).error
    ensures failure.None? ==> wsInvoices.rows == old(wsInvoices.rows) + FileRows(file).value.invoices
    ensures failure.None? ==> wsItems.rows == old(wsItems.rows) + FileRows(file).value.items
  {
    if file.contentType != PdfType {
      return Some(HttpError(400, NotPdf(file.filename)));
    }

    // The file is read and sent for extraction here; `parsed` is the outcome.
    if file.parsed.None? {
      return Some(HttpError(500, InvalidJson(file.filename)));
    }
    var reply := file.parsed.value;
    if !reply.JObject? {
      return Some(Unhandled(NotAnObject));
    }
    var data := reply.fields;

    wsInvoices.Append(InvoiceRow(data));

    var szamlaszam := InvoiceNumber(data);
    match Get(data, ItemsKey, JArray([])) {
      case JArray(elems) =>
        var ok := AppendItems(wsItems, szamlaszam, elems);
        if !ok {
          return Some(Unhandled(ItemNotAnObject));
        }
      case JString(s) =>
        if s != "" {
          return Some(Unhandled(ItemNotAnObject));
        }
      case JObject(m) =>
        if m != map[] {
          return Some(Unhandled(ItemNotAnObject));
        }
      case _ =>
        return Some(Unhandled(NotIterable));
    }
    return None;
  }

  /** `for item in tetelek: ws_items.append([...])` over an array: one item
      row per element, in array order, until an element is not an object. */
  method AppendItems(wsItems: Worksheet, szamlaszam: Json, elems: seq<Json>) returns (ok: bool)
    modifies wsItems
    ensures wsItems.title == old(wsItems.title)
    ensures ok == ArrayItems(elems).Ok?
    ensures ok ==> wsItems.rows == old(wsItems.rows) + ItemRows(szamlaszam, ArrayItems(elems).value)
  {
    var j := 0;
    while j < |elems|
      invariant 0 <= j <= |elems|
      invariant forall m :: 0 <= m < j ==> elems[m].JObject?
      invariant wsItems.title == old(wsItems.title)
      invariant wsItems.rows == old(wsItems.rows) + ItemRows(szamlaszam, seq(j, m requires 0 <= m < j => elems[m].fields))
    {
      if !elems[j].JObject? {
        return false;
      }
      wsItems.Append(ItemRow(szamlaszam, elems[j].fields));
      ghost var upTo := seq(j, m requires 0 <= m < j => elems[m].fields);
      assert seq(j + 1, m requires 0 <= m < j + 1 => elems[m].fields) == upTo + [elems[j].fields];
      assert ItemRows(szamlaszam, upTo + [elems[j].fields])
          == ItemRows(szamlaszam, upTo) + [ItemRow(szamlaszam, elems[j].fields)];
      j := j + 1;
    }
    assert ArrayItems(elems).value == seq(|elems|, m requires 0 <= m < |elems| => elems[m].fields);
    return true;
  }
}
