/**
 * The document model and its persisted form. A document is an ordered
 * mapping from sheet name to sheet, a sheet an ordered sequence of rows, a
 * row an ordered mapping from column name to a cell value. A project stores
 * its document as a JSON record (`data.json`) mapping each sheet name to the
 * list of its rows, each row a JSON object.
 */
module Records {
  import opened Wrappers
  import opened Dicts

  /** A cell: empty, a boolean, a number or a text. */
  datatype Value = Empty | Bool(b: bool) | Int(i: int) | Text(s: string)

  type Row = Dict<Value>
  type Sheet = seq<Row>
  type Document = Dict<Sheet>

  /** Parsed JSON, with objects as ordered dictionaries. */
  datatype Json =
    | JNull
    | JBool(b: bool)
    | JInt(i: int)
    | JString(s: string)
    | JArray(items: seq<Json>)
    | JObject(members: Dict<Json>)

  /** The state of a project's data record on disk. */
  datatype DataFile = Absent | Unparsable | Parsed(json: Json)

  function EncodeValue(v: Value): (j: Json)
    ensures DecodeValue(j) == Some(v)
  {
    match v
    case Empty => JNull
    case Bool(b) => JBool(b)
    case Int(i) => JInt(i)
    case Text(s) => JString(s)
  }

  /** Nested arrays and objects are not cell values. */
  function DecodeValue(j: Json): (r: Option<Value>)
    ensures r.None? <==> j.JArray? || j.JObject?
  {
    match j
    case JNull => Some(Empty)
    case JBool(b) => Some(Bool(b))
    case JInt(i) => Some(Int(i))
    case JString(s) => Some(Text(s))
    case JArray(_) => None
    case JObject(_) => None
  }

  /** One row as a record: the same columns, in the same order. */
  function EncodeRow(row: Row): (members: Dict<Json>)
    ensures |members| == |row|
    ensures DecodeRow(members) == Some(row)
  {
    if row == [] then []
    else
      var rest := EncodeRow(row[1..]);
      var members := [(row[0].0, EncodeValue(row[0].1))] + rest;
      assert members[0] == (row[0].0, EncodeValue(row[0].1)) && members[1..] == rest;
      assert [(row[0].0, row[0].1)] + row[1..] == row;
      members
  }

  function DecodeRow(members: Dict<Json>): (r: Option<Row>)
    ensures r.Some? ==> |r.value| == |members|
  {
    if members == [] then Some([])
    else
      match (DecodeValue(members[0].1), DecodeRow(members[1..]))
      case (Some(v), Some(rest)) => Some([(members[0].0, v)] + rest)
      case _ => None
  }

  /** A sheet as its list of row records (`to_dict('records')`). */
  function EncodeSheet(sheet: Sheet): (items: seq<Json>)
    ensures |items| == |sheet|
    ensures DecodeSheet(items) == Some(sheet)
  {
    if sheet == [] then []
    else
      var rest := EncodeSheet(sheet[1..]);
      var items := [JObject(EncodeRow(sheet[0]))] + rest;
      assert items[0] == JObject(EncodeRow(sheet[0])) && items[1..] == rest;
      assert [sheet[0]] + sheet[1..] == sheet;
      items
  }

  /** Rebuilds a sheet from a list of row records; anything else is unreadable. */
  function DecodeSheet(items: seq<Json>): (r: Option<Sheet>)
    ensures r.Some? ==> |r.value| == |items|
  {
    if items == [] then Some([])
    else
      match (items[0], DecodeSheet(items[1..]))
      case (JObject(members), Some(rest)) =>
        (match DecodeRow(members)
         case Some(row) => Some([row] + rest)
         case None => None)
      case _ => None
  }

  /** The record of a whole document, built item by item by dictionary assignment. */
  function EncodeSheets(doc: Document): Dict<Json> {
    if doc == [] then []
    else
      var n := |doc| - 1;
      Put(EncodeSheets(doc[..n]), doc[n].0, JArray(EncodeSheet(doc[n].1)))
  }

  /** Rebuilds a document from its record, sheet by sheet, by dictionary assignment. */
  function DecodeSheets(data: Dict<Json>): (r: Option<Document>)
    ensures r.Some? ==> UniqueKeys(r.value)
  {
    if data == [] then Some([])
    else
      var n := |data| - 1;
      match (DecodeSheets(data[..n]), data[n].1)
      case (Some(doc), JArray(items)) =>
        (match DecodeSheet(items)
         case Some(sheet) => PutUnique(doc, data[n].0, sheet); Some(Put(doc, data[n].0, sheet))
         case None => None)
      case _ => None
  }

  /** Writes the data record of a document (`_save_excel_data`). */
  function SaveDataFile(doc: Document): (f: DataFile)
    ensures f.Parsed? && f.json.JObject?
  {
    Parsed(JObject(EncodeSheets(doc)))
  }

  /**
   * Reads a data record back (`_load_excel_data`): a missing record is an
   * empty document; an unparsable or ill-shaped one is unreadable.
   */
  function LoadDataFile(f: DataFile): (r: Option<Document>)
    ensures f.Absent? ==> r == Some([])
    ensures f.Unparsable? ==> r.None?
    ensures f.Parsed? && !f.json.JObject? ==> r.None?
    ensures r.Some? ==> UniqueKeys(r.value)
  {
    match f
    case Absent => Some([])
    case Unparsable => None
    case Parsed(JObject(data)) => DecodeSheets(data)
    case Parsed(_) => None
  }

  /** The record of each sheet, one item per sheet, in document order. */
  function SheetRecords(doc: Document): (data: Dict<Json>)
    ensures |data| == |doc|
  {
    if doc == [] then []
    else
      var n := |doc| - 1;
      SheetRecords(doc[..n]) + [(doc[n].0, JArray(EncodeSheet(doc[n].1)))]
  }

  lemma {:induction false} SheetRecordsKeys(doc: Document)
    ensures Keys(SheetRecords(doc)) == Keys(doc)
  {
    if doc != [] {
      var n := |doc| - 1;
      SheetRecordsKeys(doc[..n]);
      KeysSnoc(SheetRecords(doc[..n]), (doc[n].0, JArray(EncodeSheet(doc[n].1))));
      KeysSnoc(doc[..n], doc[n]);
      assert doc[..n] + [doc[n]] == doc;
    }
  }

  /** In a dictionary without duplicates, the last key does not occur before it. */
  lemma LastKeyFresh<V>(d: Dict<V>)
    requires UniqueKeys(d) && d != []
    ensures d[|d| - 1].0 !in Keys(d[..|d| - 1])
  {
    var n := |d| - 1;
    forall i | 0 <= i < n ensures Keys(d[..n])[i] != d[n].0 {
      assert Keys(d[..n])[i] == d[i].0;
    }
  }

  /** Building the record by assignment adds each distinct sheet name once, in order. */
  lemma {:induction false} EncodeSheetsInOrder(doc: Document)
    requires UniqueKeys(doc)
    ensures EncodeSheets(doc) == SheetRecords(doc)
  {
    if doc != [] {
      var n := |doc| - 1;
      assert UniqueKeys(doc[..n]);
      EncodeSheetsInOrder(doc[..n]);
      SheetRecordsKeys(doc[..n]);
      LastKeyFresh(doc);
      PutAppends(SheetRecords(doc[..n]), doc[n].0, JArray(EncodeSheet(doc[n].1)));
    }
  }

  lemma {:induction false} DecodeSheetsInOrder(doc: Document)
    requires UniqueKeys(doc)
    ensures DecodeSheets(SheetRecords(doc)) == Some(doc)
  {
    if doc != [] {
      var n := |doc| - 1;
      var data := SheetRecords(doc);
      assert UniqueKeys(doc[..n]);
      DecodeSheetsInOrder(doc[..n]);
      assert data[..n] == SheetRecords(doc[..n]);
      assert data[n] == (doc[n].0, JArray(EncodeSheet(doc[n].1)));
      LastKeyFresh(doc);
      PutAppends(doc[..n], doc[n].0, doc[n].1);
      assert doc[..n] + [(doc[n].0, doc[n].1)] == doc;
    }
  }

  /**
   * Saving a document and loading it back gives the same document: the same
   * sheets, in the same order, with the same rows and cells.
   */
  lemma SaveLoadRoundTrip(doc: Document)
    requires UniqueKeys(doc)
    ensures LoadDataFile(SaveDataFile(doc)) == Some(doc)
  {
    EncodeSheetsInOrder(doc);
    DecodeSheetsInOrder(doc);
  }
}
