/** What `import_invoice` computes from one batch of uploads, stated as
    functions: the per-file checks, the rows each accepted file contributes,
    the batch as a whole, and the finished workbook or the error that aborts it.
    The language-model call and `json.loads` are not modelled: each upload
    arrives with the outcome of parsing the model's reply. */
module InvoiceImport {
  import opened Json
  import opened Sheets

  datatype Option<+T> = None | Some(value: T)

  datatype Result<+T, +E> = Ok(value: T) | Err(error: E)

  /** An uncaught Python exception raised while reading the parsed reply. */
  datatype Fault =
    | NotAnObject      // the reply is not a JSON object: it has no `get`
    | NotIterable      // `tetelek` is null, a boolean or a number
    | ItemNotAnObject  // an element of `tetelek` is not an object: it has no `get`

  /** The detail of an `HTTPException` the endpoint raises; `Message` gives
      its text, which names the offending file. */
  datatype Detail =
    | NoFiles
    | NotPdf(filename: string)
    | InvalidJson(filename: string)

  /** Why a batch produced no workbook. */
  datatype Error =
    | HttpError(status: nat, detail: Detail)  // an `HTTPException` the endpoint raises
    | Unhandled(fault: Fault)                 // an exception the endpoint lets escape

  /** One uploaded file: its name, its declared content type, and the model's
      reply for it as `json.loads` parsed it (`None` when that raised
      `JSONDecodeError`). */
  datatype Upload = Upload(filename: string, contentType: string, parsed: Option<Json>)

  /** The fields an accepted file yields: the reply object and its line items. */
  datatype Extracted = Extracted(data: map<string, Json>, items: seq<map<string, Json>>)

  /** The data rows of both sheets, below their header rows. */
  datatype Tables = Tables(invoices: seq<Row>, items: seq<Row>)

  const PdfType := "application/pdf"

  const DefaultSheetTitle := "Sheet"
  const InvoiceSheetTitle := "Számlák"
  const ItemSheetTitle := "Tételek"

  const InvoiceHeaders: seq<string> := [
    "szamlaszam",
    "vevo_neve",
    "szallito_neve",
    "vevo_adoszam",
    "szallito_adoszam",
    "teljesites_datuma",
    "szamla_keltee",
    "fizetesi_hatarido",
    "brutto_osszeg",
    "netto_osszeg",
    "afa_osszeg",
    "devizanem"
  ]

  const ItemHeaders: seq<string> := ["szamlaszam", "megnevezes", "netto", "afa", "afakulcs", "brutto"]

  /** The key of the line-item array, and the key both sheets start with. */
  const ItemsKey := "tetelek"
  const InvoiceNumberKey := "szamlaszam"

  const Empty := JString("")

  /** The text of an `HTTPException`'s detail. */
  function Message(d: Detail): (m: string)
    ensures d.NotPdf? || d.InvalidJson? ==> |m| > |d.filename| && m[..|d.filename|] == d.filename
  {
    match d
    case NoFiles => "Legalább egy PDF fájlt tölts fel!"
    case NotPdf(filename) => filename + " nem PDF fájl!"
    case InvalidJson(filename) => filename + " feldolgozása sikertelen, nem érvényes JSON."
  }

  /** A header row: the column names as string cells, in order. */
  function HeaderRow(names: seq<string>): (r: Row)
    ensures |r| == |names|
    ensures forall i :: 0 <= i < |r| ==> r[i] == JString(names[i])
  {
    seq(|names|, i requires 0 <= i < |names| => JString(names[i]))
  }

  /** The invoice row of one reply: column i holds the reply's value under
      header i, whatever that value is, and "" when the key is absent. */
  function InvoiceRow(data: map<string, Json>): (r: Row)
    ensures |r| == |InvoiceHeaders|
    ensures forall i :: 0 <= i < |r| && InvoiceHeaders[i] in data ==> r[i] == data[InvoiceHeaders[i]]
    ensures forall i :: 0 <= i < |r| && InvoiceHeaders[i] !in data ==> r[i] == Empty
  {
    seq(|InvoiceHeaders|, i requires 0 <= i < |InvoiceHeaders| => Get(data, InvoiceHeaders[i], Empty))
  }

  /** The invoice number every item row of a reply is tagged with. */
  function InvoiceNumber(data: map<string, Json>): (r: Json)
    ensures InvoiceNumberKey in data ==> r == data[InvoiceNumberKey]
    ensures InvoiceNumberKey !in data ==> r == Empty
  {
    Get(data, InvoiceNumberKey, Empty)
  }

  /** The item row of one line item: the parent invoice number first, then the
      item's five fields, each under the item header of the same name, with ""
      for a field the item lacks. */
  function ItemRow(invoiceNumber: Json, item: map<string, Json>): (r: Row)
    ensures |r| == |ItemHeaders| && r[0] == invoiceNumber
    ensures forall i :: 1 <= i < |r| && ItemHeaders[i] in item ==> r[i] == item[ItemHeaders[i]]
    ensures forall i :: 1 <= i < |r| && ItemHeaders[i] !in item ==> r[i] == Empty
  {
    [ invoiceNumber,
      Get(item, "megnevezes", Empty),
      Get(item, "netto", Empty),
      Get(item, "afa", Empty),
      Get(item, "afakulcs", Empty),
      Get(item, "brutto", Empty) ]
  }

  /** The item rows of one reply, one per line item, all tagged with the same
      invoice number and aligned with the item header. */
  function ItemRows(invoiceNumber: Json, items: seq<map<string, Json>>): (r: seq<Row>)
    ensures |r| == |items|
    ensures forall k :: 0 <= k < |r| ==> |r[k]| == |ItemHeaders| && r[k][0] == invoiceNumber
    ensures forall k :: 0 <= k < |r| ==> r[k] == ItemRow(invoiceNumber, items[k])
  {
    seq(|items|, k requires 0 <= k < |items| => ItemRow(invoiceNumber, items[k]))
  }

  /** The elements of a `tetelek` array as objects; the loop fails at the first
      element that is not an object. */
  function ArrayItems(elems: seq<Json>): (r: Result<seq<map<string, Json>>, Fault>)
    ensures r.Ok? <==> forall k :: 0 <= k < |elems| ==> elems[k].JObject?
    ensures r.Ok? ==> |r.value| == |elems|
    ensures r.Ok? ==> forall k :: 0 <= k < |elems| ==> r.value[k] == elems[k].fields
    ensures r.Err? ==> r.error == ItemNotAnObject
  {
    if elems == [] then Ok([])
    else if !elems[0].JObject? then Err(ItemNotAnObject)
    else
      match ArrayItems(elems[1..])
      case Err(f) => Err(f)
      case Ok(rest) => Ok([elems[0].fields] + rest)
  }

  /** What `for item in tetelek: item.get(...)` gets through. Iterating a
      string yields strings and iterating an object yields its keys, neither
      of which has `get`, so only an empty string or object gets through. */
  function ItemsOf(tetelek: Json): (r: Result<seq<map<string, Json>>, Fault>)
    ensures r.Ok? <==> (tetelek.JArray? && forall k :: 0 <= k < |tetelek.elems| ==> tetelek.elems[k].JObject?)
                       || tetelek == JString("") || tetelek == JObject(map[])
    ensures r.Ok? && tetelek.JArray? ==>
              |r.value| == |tetelek.elems| && forall k :: 0 <= k < |tetelek.elems| ==> r.value[k] == tetelek.elems[k].fields
    ensures r.Ok? && !tetelek.JArray? ==> r.value == []
    ensures tetelek.JNull? || tetelek.JBool? || tetelek.JNumber? ==> r == Err(NotIterable)
    ensures r.Err? && (tetelek.JArray? || tetelek.JString? || tetelek.JObject?) ==> r.error == ItemNotAnObject
  {
    match tetelek
    case JArray(elems) => ArrayItems(elems)
    case JString(s) => if s == "" then Ok([]) else Err(ItemNotAnObject)
    case JObject(m) => if m == map[] then Ok([]) else Err(ItemNotAnObject)
    case _ => Err(NotIterable)
  }

  /** One pass of the loop over a single upload, up to the rows it yields:
      the content-type check first, then the parse outcome, then the reads
      of the reply. */
  function CheckFile(f: Upload): (r: Result<Extracted, Error>)
    ensures f.contentType != PdfType ==> r == Err(HttpError(400, NotPdf(f.filename)))
    ensures f.contentType == PdfType && f.parsed.None? ==> r == Err(HttpError(500, InvalidJson(f.filename)))
    ensures r.Ok? <==> f.contentType == PdfType && f.parsed.Some? && f.parsed.value.JObject? &&
                       ItemsOf(Get(f.parsed.value.fields, ItemsKey, JArray([]))).Ok?
    ensures r.Ok? ==> f.contentType == PdfType && f.parsed == Some(JObject(r.value.data))
    ensures f.contentType == PdfType && f.parsed.Some? && !f.parsed.value.JObject? ==> r == Err(Unhandled(NotAnObject))
    ensures f.contentType == PdfType && f.parsed.Some? && f.parsed.value.JObject? &&
            ItemsOf(Get(f.parsed.value.fields, ItemsKey, JArray([]))).Err? ==>
              r == Err(Unhandled(ItemsOf(Get(f.parsed.value.fields, ItemsKey, JArray([]))).error))
    ensures r.Ok? ==> r.value.items == ItemsOf(Get(r.value.data, ItemsKey, JArray([]))).value
    ensures r.Ok? && ItemsKey !in r.value.data ==> r.value.items == []
    ensures r.Ok? && ItemsKey in r.value.data && r.value.data[ItemsKey].JArray? ==>
              |r.value.items| == |r.value.data[ItemsKey].elems|
  {
    if f.contentType != PdfType then Err(HttpError(400, NotPdf(f.filename)))
    else
      match f.parsed
      case None => Err(HttpError(500, InvalidJson(f.filename)))
      case Some(JObject(data)) =>
        (match ItemsOf(Get(data, ItemsKey, JArray([])))
         case Err(fault) => Err(Unhandled(fault))
         case Ok(items) => Ok(Extracted(data, items)))
      case Some(_) => Err(Unhandled(NotAnObject))
  }

  /** The rows one upload contributes: its invoice row and one item row per
      line item, all tagged with its invoice number; or its error. */
  function FileRows(f: Upload): (r: Result<Tables, Error>)
    ensures r.Err? <==> CheckFile(f).Err?
    ensures r.Err? ==> r.error == CheckFile(f).error
    ensures r.Ok? ==> |r.value.invoices| == 1 && |r.value.items| == |CheckFile(f).value.items|
    ensures r.Ok? ==> r.value.invoices == [InvoiceRow(CheckFile(f).value.data)]
    ensures r.Ok? ==> forall k :: 0 <= k < |r.value.items| ==>
              |r.value.items[k]| == |ItemHeaders| && r.value.items[k][0] == InvoiceRow(CheckFile(f).value.data)[0]
  {
    match CheckFile(f)
    case Err(e) => Err(e)
    case Ok(x) => Ok(Tables([InvoiceRow(x.data)], ItemRows(InvoiceNumber(x.data), x.items)))
  }

  /** Two consecutive stretches of the batch run as one: the first error, or
      both stretches' rows one after the other. */
  function Join(a: Result<Tables, Error>, b: Result<Tables, Error>): (r: Result<Tables, Error>)
    ensures r.Ok? <==> a.Ok? && b.Ok?
    ensures a.Err? ==> r == a
    ensures a.Ok? && b.Err? ==> r == b
    ensures r.Ok? ==> r.value == Tables(a.value.invoices + b.value.invoices, a.value.items + b.value.items)
  {
    match a
    case Err(e) => Err(e)
    case Ok(x) =>
      match b
      case Err(e) => Err(e)
      case Ok(y) => Ok(Tables(x.invoices + y.invoices, x.items + y.items))
  }

  /** The rows of the files, in submission order, or the error of the first
      file that fails; files after it are not looked at. */
  function Batch(files: seq<Upload>): (r: Result<Tables, Error>)
    ensures r.Ok? ==> |r.value.invoices| == |files|
  {
    if files == [] then Ok(Tables([], []))
    else Join(FileRows(files[0]), Batch(files[1..]))
  }

  /** The whole request: an empty upload list is refused; otherwise the
      workbook holds both header rows followed by the batch's rows, and any
      failure leaves no workbook at all. */
  function Import(files: seq<Upload>): (r: Result<Workbook, Error>)
    ensures files == [] ==> r == Err(HttpError(400, NoFiles))
    ensures r.Err? <==> files == [] || Batch(files).Err?
    ensures r.Err? && files != [] ==> r.error == Batch(files).error
    ensures r.Ok? ==> r.value.invoices.title == InvoiceSheetTitle && r.value.items.title == ItemSheetTitle
    ensures r.Ok? ==> |r.value.invoices.rows| == |files| + 1 && |r.value.items.rows| >= 1
    ensures r.Ok? ==> r.value.invoices.rows[0] == HeaderRow(InvoiceHeaders)
    ensures r.Ok? ==> r.value.items.rows[0] == HeaderRow(ItemHeaders)
    ensures r.Ok? ==> r.value.invoices.rows[1..] == Batch(files).value.invoices
    ensures r.Ok? ==> r.value.items.rows[1..] == Batch(files).value.items
  {
    if files == [] then Err(HttpError(400, NoFiles))
    else
      match Batch(files)
      case Err(e) => Err(e)
      case Ok(t) =>
        Ok(Workbook(Sheet(InvoiceSheetTitle, [HeaderRow(InvoiceHeaders)] + t.invoices),
                    Sheet(ItemSheetTitle, [HeaderRow(ItemHeaders)] + t.items)))
  }
}
