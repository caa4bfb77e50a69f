/** Properties of a batch import: how the batch splits over its files, which
    file's error aborts it, how many rows each sheet gets, and which invoice
    every item row belongs to. */
module ImportProperties {
  import opened Json
  import opened Sheets
  import opened InvoiceImport

  const NoRows := Ok(Tables([], []))

  /** An empty stretch of the batch changes nothing on either side. */
  lemma JoinNoRows(a: Result<Tables, Error>)
    ensures Join(NoRows, a) == a && Join(a, NoRows) == a
  {
    if a.Ok? {
      var x := a.value;
      assert [] + x.invoices == x.invoices + [] == x.invoices;
      assert [] + x.items == x.items + [] == x.items;
    }
  }

  /** Joining is associative: how stretches of a batch are grouped does not
      matter. */
  lemma JoinAssociative(a: Result<Tables, Error>, b: Result<Tables, Error>, c: Result<Tables, Error>)
    ensures Join(Join(a, b), c) == Join(a, Join(b, c))
  {
    if a.Ok? && b.Ok? && c.Ok? {
      var x, y, z := a.value, b.value, c.value;
      assert (x.invoices + y.invoices) + z.invoices == x.invoices + (y.invoices + z.invoices);
      assert (x.items + y.items) + z.items == x.items + (y.items + z.items);
    }
  }

  /** Running a batch is the same as running its first part and then its
      second: rows keep submission order and the first error wins. */
  lemma {:induction false} BatchConcat(p: seq<Upload>, q: seq<Upload>)
    ensures Batch(p + q) == Join(Batch(p), Batch(q))
  {
    if p == [] {
      assert p + q == q;
      JoinNoRows(Batch(q));
    } else {
      assert (p + q)[0] == p[0] && (p + q)[1..] == p[1..] + q;
      BatchConcat(p[1..], q);
      JoinAssociative(FileRows(p[0]), Batch(p[1..]), Batch(q));
    }
  }

  /** Adding one file at the end of a batch joins that file's rows, or its
      error, on after the rows so far. */
  lemma BatchSnoc(init: seq<Upload>, f: Upload)
    ensures Batch(init + [f]) == Join(Batch(init), FileRows(f))
  {
    BatchConcat(init, [f]);
    assert [f][1..] == [];
    JoinNoRows(FileRows(f));
  }

  /** Once a prefix of the uploads has failed, the files after it change
      nothing: they are never processed. */
  lemma ErrorStopsBatch(p: seq<Upload>, q: seq<Upload>)
    requires Batch(p).Err?
    ensures Batch(p + q) == Batch(p)
  {
    BatchConcat(p, q);
  }

  /** A batch succeeds exactly when every one of its files passes. */
  lemma {:induction false} BatchOkIff(files: seq<Upload>)
    ensures Batch(files).Ok? <==> forall i :: 0 <= i < |files| ==> CheckFile(files[i]).Ok?
  {
    if files != [] {
      var rest := files[1..];
      BatchOkIff(rest);
      assert forall i :: 1 <= i < |files| ==> files[i] == rest[i - 1];
    }
  }

  /** How a list of uploads splits at position k. */
  lemma SplitAt(files: seq<Upload>, k: nat)
    requires k < |files|
    ensures files == files[..k] + files[k..]
    ensures files[k..][0] == files[k]
    ensures forall i :: 0 <= i < k ==> files[..k][i] == files[i]
  {
  }

  /** How the prefix of the uploads a loop has gone through grows. */
  lemma PrefixGrows(files: seq<Upload>, k: nat)
    requires k <= |files|
    ensures k == 0 ==> files[..k] == []
    ensures k == |files| ==> files[..k] == files
    ensures k < |files| ==> files[..k + 1] == files[..k] + [files[k]]
  {
  }

  /** When the files before file k have all passed and file k fails, the batch
      fails with file k's error, whatever the files after it hold. */
  lemma FailureAt(files: seq<Upload>, k: nat)
    requires k < |files|
    requires Batch(files[..k]).Ok?
    requires FileRows(files[k]).Err?
    ensures Batch(files) == FileRows(files[k])
  {
    SplitAt(files, k);
    var from := files[k..];
    assert Batch(from) == Join(FileRows(files[k]), Batch(from[1..]));
    BatchConcat(files[..k], from);
  }

  /** When every file before file k passes and file k fails, the request fails
      with file k's error, whatever the files after it hold. */
  lemma FirstFailureDecides(files: seq<Upload>, k: nat)
    requires k < |files|
    requires forall i :: 0 <= i < k ==> CheckFile(files[i]).Ok?
    requires CheckFile(files[k]).Err?
    ensures Batch(files) == Err(CheckFile(files[k]).error)
    ensures Import(files) == Err(CheckFile(files[k]).error)
  {
    SplitAt(files, k);
    BatchOkIff(files[..k]);
    FailureAt(files, k);
  }

  /** A file that is not declared as a PDF aborts the request with a 400 that
      names it, before its reply is consulted and before any later file. */
  lemma NonPdfAborts(files: seq<Upload>, k: nat)
    requires k < |files|
    requires forall i :: 0 <= i < k ==> CheckFile(files[i]).Ok?
    requires files[k].contentType != PdfType
    ensures Import(files) == Err(HttpError(400, NotPdf(files[k].filename)))
  {
    FirstFailureDecides(files, k);
  }

  /** A PDF whose reply is not valid JSON aborts the request with a 500 that
      names it; no later file is processed. */
  lemma InvalidJsonAborts(files: seq<Upload>, k: nat)
    requires k < |files|
    requires forall i :: 0 <= i < k ==> CheckFile(files[i]).Ok?
    requires files[k].contentType == PdfType && files[k].parsed.None?
    ensures Import(files) == Err(HttpError(500, InvalidJson(files[k].filename)))
  {
    FirstFailureDecides(files, k);
  }

  /** On success, invoice row i is the row of file i. */
  lemma {:induction false} InvoiceRowsInOrder(files: seq<Upload>)
    requires Batch(files).Ok?
    ensures forall i :: 0 <= i < |files| ==>
              CheckFile(files[i]).Ok? &&
              Batch(files).value.invoices[i] == InvoiceRow(CheckFile(files[i]).value.data)
  {
    if files != [] {
      var rest := files[1..];
      InvoiceRowsInOrder(rest);
      assert forall i :: 1 <= i < |files| ==> files[i] == rest[i - 1];
    }
  }

  /** The item rows of an accepted file whose reply holds a `tetelek` array:
      one per element, in array order, each starting with the reply's invoice
      number (or "") and holding the element's fields under their headers. */
  lemma FileItemRows(f: Upload, data: map<string, Json>, elems: seq<Json>)
    requires FileRows(f).Ok?
    requires f.parsed == Some(JObject(data)) && ItemsKey in data && data[ItemsKey] == JArray(elems)
    ensures |FileRows(f).value.items| == |elems|
    ensures forall k :: 0 <= k < |elems| ==>
              elems[k].JObject? && |FileRows(f).value.items[k]| == |ItemHeaders| &&
              FileRows(f).value.items[k][0] == Get(data, InvoiceNumberKey, Empty)
    ensures forall k, c :: 0 <= k < |elems| && 1 <= c < |ItemHeaders| ==>
              elems[k].JObject? && |FileRows(f).value.items[k]| == |ItemHeaders| &&
              FileRows(f).value.items[k][c] == Get(elems[k].fields, ItemHeaders[c], Empty)
  {
    var x := CheckFile(f).value;
    assert x.data == data;
    assert x.items == ArrayItems(elems).value;
  }

  /** The number of line items a file contributes: 0 when it does not pass. */
  function ItemCount(f: Upload): nat {
    match CheckFile(f)
    case Ok(x) => |x.items|
    case Err(_) => 0
  }

  /** The line items of all the files together. */
  function TotalItems(files: seq<Upload>): nat {
    if files == [] then 0 else ItemCount(files[0]) + TotalItems(files[1..])
  }

  lemma {:induction false} BatchItemCount(files: seq<Upload>)
    requires Batch(files).Ok?
    ensures |Batch(files).value.items| == TotalItems(files)
  {
    if files != [] {
      BatchItemCount(files[1..]);
    }
  }

  /** On success the invoice sheet has one row per file and the item sheet one
      row per line item of all files, each below its header row. */
  lemma RowCounts(files: seq<Upload>)
    requires Import(files).Ok?
    ensures |Import(files).value.invoices.rows| == 1 + |files|
    ensures |Import(files).value.items.rows| == 1 + TotalItems(files)
  {
    BatchItemCount(files);
  }

  /** Every data row of a batch has exactly as many cells as its sheet's
      header row. */
  lemma {:induction false} BatchColumnsAligned(files: seq<Upload>)
    requires Batch(files).Ok?
    ensures forall k :: 0 <= k < |Batch(files).value.invoices| ==> |Batch(files).value.invoices[k]| == |InvoiceHeaders|
    ensures forall k :: 0 <= k < |Batch(files).value.items| ==> |Batch(files).value.items[k]| == |ItemHeaders|
  {
    if files != [] {
      BatchColumnsAligned(files[1..]);
    }
  }

  /** On success, every row of the invoice sheet, its header row included,
      has 12 cells, and every row of the item sheet has 6: columns line up
      with the headers. */
  lemma ColumnsAligned(files: seq<Upload>)
    requires Import(files).Ok?
    ensures forall k :: 0 <= k < |Import(files).value.invoices.rows| ==> |Import(files).value.invoices.rows[k]| == 12
    ensures forall k :: 0 <= k < |Import(files).value.items.rows| ==> |Import(files).value.items.rows[k]| == 6
  {
    BatchColumnsAligned(files);
  }

  /** For each item row, the index of the file it came from. */
  function ItemOwners(files: seq<Upload>): seq<nat> {
    if files == [] then []
    else
      var later := ItemOwners(files[1..]);
      seq(ItemCount(files[0]), _ => 0) + seq(|later|, j requires 0 <= j < |later| => later[j] + 1)
  }

  /** The owner list has one entry per line item; owners are file indexes
      and never go backwards: each file's items sit together, in submission
      order. */
  lemma {:induction false} OwnersInOrder(files: seq<Upload>)
    ensures |ItemOwners(files)| == TotalItems(files)
    ensures forall j :: 0 <= j < |ItemOwners(files)| ==> ItemOwners(files)[j] < |files|
    ensures forall j, j' :: 0 <= j <= j' < |ItemOwners(files)| ==> ItemOwners(files)[j] <= ItemOwners(files)[j']
  {
    if files != [] {
      OwnersInOrder(files[1..]);
    }
  }

  /** The number of item rows the files before file o contribute: where file
      o's item rows start on the item sheet. Past the last file it is the
      total. */
  function ItemsBefore(files: seq<Upload>, o: nat): (r: nat)
    requires o <= |files|
    ensures o < |files| ==> r + ItemCount(files[o]) <= TotalItems(files)
    ensures o == |files| ==> r == TotalItems(files)
  {
    if o == 0 then 0 else ItemCount(files[0]) + ItemsBefore(files[1..], o - 1)
  }

  /** On success the item sheet lists the files' item rows file by file, in
      submission order: item row k of file o sits right after the item rows
      of the files before it. */
  lemma {:induction false} ItemRowsInOrder(files: seq<Upload>, o: nat, k: nat)
    requires Batch(files).Ok?
    requires o < |files| && k < ItemCount(files[o])
    ensures FileRows(files[o]).Ok? && k < |FileRows(files[o]).value.items|
    ensures ItemsBefore(files, o) + k < |Batch(files).value.items|
    ensures Batch(files).value.items[ItemsBefore(files, o) + k] == FileRows(files[o]).value.items[k]
    decreases |files|, 1
  {
    if o == 0 {
      FirstFileItemRow(files, k);
    } else {
      LaterFileItemRow(files, o, k);
    }
  }

  /** The first file's item rows open the item sheet. */
  lemma FirstFileItemRow(files: seq<Upload>, k: nat)
    requires Batch(files).Ok?
    requires 0 < |files| && k < ItemCount(files[0])
    ensures FileRows(files[0]).Ok? && k < |FileRows(files[0]).value.items|
    ensures k < |Batch(files).value.items|
    ensures Batch(files).value.items[k] == FileRows(files[0]).value.items[k]
  {
    var first, later := FileRows(files[0]).value, Batch(files[1..]).value;
    assert Batch(files).value.items == first.items + later.items;
    ConcatIndex(first.items, later.items, k);
  }

  /** A later file's item rows sit after the first file's, at the place they
      have among the rest of the files. */
  lemma {:induction false} LaterFileItemRow(files: seq<Upload>, o: nat, k: nat)
    requires Batch(files).Ok?
    requires 0 < o < |files| && k < ItemCount(files[o])
    ensures FileRows(files[o]).Ok? && k < |FileRows(files[o]).value.items|
    ensures ItemsBefore(files, o) + k < |Batch(files).value.items|
    ensures Batch(files).value.items[ItemsBefore(files, o) + k] == FileRows(files[o]).value.items[k]
    decreases |files|, 0
  {
    var rest := files[1..];
    TailIndex(files, o);
    ItemRowsInOrder(rest, o - 1, k);
    var first, later := FileRows(files[0]).value, Batch(rest).value;
    assert Batch(files).value.items == first.items + later.items;
    assert ItemsBefore(files, o) == |first.items| + ItemsBefore(rest, o - 1);
    ConcatIndex(first.items, later.items, ItemsBefore(files, o) + k);
  }

  /** The owner of item row k of file o is file o: the owner list marks each
      file's stretch of the item sheet with that file's index. */
  lemma {:induction false} OwnerOfItem(files: seq<Upload>, o: nat, k: nat)
    requires o < |files| && k < ItemCount(files[o])
    ensures ItemsBefore(files, o) + k < |ItemOwners(files)|
    ensures ItemOwners(files)[ItemsBefore(files, o) + k] == o
  {
    OwnersInOrder(files);
    var rest := files[1..];
    var laterOwners := ItemOwners(rest);
    var zeros := seq(ItemCount(files[0]), _ => 0);
    var shifted := seq(|laterOwners|, i requires 0 <= i < |laterOwners| => laterOwners[i] + 1);
    assert ItemOwners(files) == zeros + shifted;
    if o == 0 {
      ConcatIndex(zeros, shifted, k);
    } else {
      TailIndex(files, o);
      OwnerOfItem(rest, o - 1, k);
      ConcatIndex(zeros, shifted, ItemsBefore(files, o) + k);
    }
  }

  /** On success every item row is tagged with the invoice number of the file
      it came from: its first cell equals the first cell of that file's
      invoice row. */
  lemma ItemsTagged(files: seq<Upload>)
    requires Batch(files).Ok?
    ensures |ItemOwners(files)| == |Batch(files).value.items|
    ensures forall j :: 0 <= j < |ItemOwners(files)| ==>
              ItemOwners(files)[j] < |files| &&
              |Batch(files).value.items[j]| == |ItemHeaders| &&
              |Batch(files).value.invoices[ItemOwners(files)[j]]| == |InvoiceHeaders| &&
              Batch(files).value.items[j][0] == Batch(files).value.invoices[ItemOwners(files)[j]][0]
  {
    BatchItemCount(files);
    OwnersInOrder(files);
    forall j | 0 <= j < |ItemOwners(files)| {
      TaggedAt(files, j);
    }
  }

  /** Item row j is tagged with the invoice number of its owner. */
  lemma {:induction false} TaggedAt(files: seq<Upload>, j: nat)
    requires Batch(files).Ok? && j < |Batch(files).value.items|
    ensures |ItemOwners(files)| == |Batch(files).value.items| && ItemOwners(files)[j] < |files|
    ensures |Batch(files).value.items[j]| == |ItemHeaders|
    ensures |Batch(files).value.invoices[ItemOwners(files)[j]]| == |InvoiceHeaders|
    ensures Batch(files).value.items[j][0] == Batch(files).value.invoices[ItemOwners(files)[j]][0]
  {
    BatchItemCount(files);
    OwnersInOrder(files);
    var rest := files[1..];
    var first, later := FileRows(files[0]).value, Batch(rest).value;
    var owners, laterOwners := ItemOwners(files), ItemOwners(rest);
    var zeros := seq(ItemCount(files[0]), _ => 0);
    var shifted := seq(|laterOwners|, i requires 0 <= i < |laterOwners| => laterOwners[i] + 1);
    assert owners == zeros + shifted;
    var t := Batch(files).value;
    assert t.invoices == first.invoices + later.invoices;
    assert t.items == first.items + later.items;
    if |first.items| <= j {
      TaggedAt(rest, j - |first.items|);
    }
    ConcatIndex(zeros, shifted, j);
    ConcatIndex(first.items, later.items, j);
    ConcatIndex(first.invoices, later.invoices, owners[j]);
  }

  /** Dropping the first element shifts every index down by one. */
  lemma TailIndex<T>(s: seq<T>, i: nat)
    requires 0 < i < |s|
    ensures s[1..][i - 1] == s[i]
  {
  }

  /** Cell j of two sequences one after the other comes from the first when
      j is below its length, and from the second otherwise. */
  lemma ConcatIndex<T>(a: seq<T>, b: seq<T>, j: nat)
    requires j < |a| + |b|
    ensures j < |a| ==> (a + b)[j] == a[j]
    ensures |a| <= j ==> (a + b)[j] == b[j - |a|]
  {
  }

  /** Two PDFs: "INV-1" with two line items and "INV-2" with none. */
  const ScenarioFiles := [
    Upload("a.pdf", PdfType, Some(JObject(map[InvoiceNumberKey := JString("INV-1"),
                                                ItemsKey := JArray([JObject(map["megnevezes" := JString("a")]), JObject(map[])])]))),
    Upload("b.pdf", PdfType, Some(JObject(map[InvoiceNumberKey := JString("INV-2"), ItemsKey := JArray([])])))
  ]

  /** Both sheets of the two-PDF scenario end up with three rows, and both
      item rows carry "INV-1". */
  lemma TwoInvoicesScenario()
    ensures Import(ScenarioFiles).Ok?
    ensures |Import(ScenarioFiles).value.invoices.rows| == 3 && |Import(ScenarioFiles).value.items.rows| == 3
    ensures forall j :: 1 <= j < 3 ==>
              |Import(ScenarioFiles).value.items.rows[j]| == 6 && Import(ScenarioFiles).value.items.rows[j][0] == JString("INV-1")
  {
    var f1, f2 := ScenarioFiles[0], ScenarioFiles[1];
    var items1 := [map["megnevezes" := JString("a")], map[]];
    var parsed1 := ArrayItems([JObject(items1[0]), JObject(items1[1])]);
    assert parsed1.Ok? && |parsed1.value| == 2;
    assert CheckFile(f1).Ok? && |CheckFile(f1).value.items| == 2;
    assert InvoiceRow(CheckFile(f1).value.data)[0] == JString("INV-1");
    assert CheckFile(f2).Ok? && CheckFile(f2).value.items == [];
    var first, second := FileRows(f1).value, FileRows(f2).value;
    assert ScenarioFiles[1..] == [f2] && [f2][1..] == [];
    JoinNoRows(FileRows(f2));
    assert Batch([f2]) == FileRows(f2);
    assert Batch(ScenarioFiles) == Ok(Tables(first.invoices + second.invoices, first.items + second.items));
  }
}
