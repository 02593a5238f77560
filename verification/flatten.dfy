/** The flattening step of monitor_api.py's `append_to_excel`: one entity
    dict becomes one spreadsheet row. */
module Flatten {
  import opened Json
  import opened Columns
  import ApiPipeline

  /** The columns `for key, value in d.items(): flattened[prefix + key] = value`
      adds: one per key of `d`, holding its value. */
  function Block(s: Section, d: Object): Cells {
    map k | k in d :: Field(s, k) := d[k]
  }

  /** Each key of `d`, and nothing else, becomes a column of section `s`
      holding the key's value. */
  lemma BlockCells(s: Section, d: Object, k: string)
    ensures Within(Block(s, d), s)
    ensures Field(s, k) in Block(s, d) <==> k in d
    ensures k in d ==> Block(s, d)[Field(s, k)] == d[k]
  {
  }

  lemma BlockRemove(s: Section, d: Object, k: string)
    requires k in d
    ensures Block(s, d - {k}).Keys == Block(s, d).Keys - {Field(s, k)}
  {
    forall c | c in Block(s, d).Keys - {Field(s, k)} ensures c in Block(s, d - {k}).Keys {
      var j :| j in d && c == Field(s, j);
    }
  }

  /** Prefixing renames no two keys alike: a section adds as many columns as
      it has keys. */
  lemma {:induction false} BlockSize(s: Section, d: Object)
    ensures |Block(s, d)| == |d|
    decreases |d|
  {
    if |d| > 0 {
      var k :| k in d;
      var d' := d - {k};
      assert d'.Keys == d.Keys - {k};
      BlockSize(s, d');
      BlockRemove(s, d, k);
      assert Field(s, k) in Block(s, d).Keys;
    }
  }

  /** `d.items()` on a detail section: only an object has it; anything else
      raises. */
  function Items(j: Json): (r: Result<Object>)
    ensures r.Ok? <==> j.JObj?
    ensures r.Ok? ==> r.value == j.fields
  {
    match j
    case JObj(fields) => Ok(fields)
    case _ => Raised
  }

  /** The first line item's fields, or none when `line_items` is falsy.
      Indexing a truthy non-list, or calling `.items()` on a first item that
      is not an object, raises. Later items are never looked at. */
  function FirstLineItem(j: Json): (r: Result<Object>)
    ensures !Truthy(j) ==> r == Ok(map[])
    ensures Truthy(j) ==> (r.Ok? <==> j.JArr? && j.items[0].JObj?)
    ensures Truthy(j) && r.Ok? ==> r.value == j.items[0].fields
  {
    if !Truthy(j) then Ok(map[])
    else if j.JArr? && j.items[0].JObj? then Ok(j.items[0].fields)
    else Raised
  }

  /** The four sections of an entity once each is known to be an object. */
  datatype Details = Details(vendor: Object, customer: Object, invoice: Object, item: Object)

  function Of(d: Details, s: Section): Object {
    match s
    case Vendor => d.vendor
    case Customer => d.customer
    case Invoice => d.invoice
    case LineItem => d.item
  }

  /** The two columns every row starts with. */
  function Fixed(tag: string, fileName: string): Cells {
    map[DocumentType := JStr(tag), FileName := JStr(fileName)]
  }

  lemma FixedCells(tag: string, fileName: string)
    ensures |Fixed(tag, fileName)| == 2
    ensures forall c :: c in Fixed(tag, fileName) ==> !c.Field?
  {
    assert Fixed(tag, fileName).Keys == {DocumentType, FileName};
  }

  /** The row for one entity of category `tag`: the tag and the file name,
      then every section key under its prefix. The map union only decides
      which assignment wins (later ones would, but none ever collide); the
      order of the columns is not kept. */
  function Flattened(tag: string, fileName: string, d: Details): Cells {
    Fixed(tag, fileName)
      + Block(Vendor, d.vendor)
      + Block(Customer, d.customer)
      + Block(Invoice, d.invoice)
      + Block(LineItem, d.item)
  }

  /** The flattening loop body for one entity: the sections it reads, or the
      exception when a detail section is not an object or the line items are
      truthy but not a list whose first element is an object. */
  function EntityDetails(e: ApiPipeline.Entity): (r: Result<Details>)
    ensures r.Ok? <==>
      && e.vendor.JObj? && e.customer.JObj? && e.invoice.JObj?
      && (Truthy(e.lineItems) ==> e.lineItems.JArr? && e.lineItems.items[0].JObj?)
    ensures r.Ok? ==>
      && r.value.vendor == e.vendor.fields
      && r.value.customer == e.customer.fields
      && r.value.invoice == e.invoice.fields
      && r.value.item == (if Truthy(e.lineItems) then e.lineItems.items[0].fields else map[])
  {
    match (Items(e.vendor), Items(e.customer), Items(e.invoice), FirstLineItem(e.lineItems))
    case (Ok(vendor), Ok(customer), Ok(invoice), Ok(item)) => Ok(Details(vendor, customer, invoice, item))
    case _ => Raised
  }

  /** What the flattening loop leaves in the row for the sections `d` of an
      entity of category `tag`: the tag and the file name, a column for each
      key of each section and for nothing else, holding that key's value, and
      so exactly 2 + |vendor| + |customer| + |invoice| + |item| columns (no
      assignment ever overwrites another). */
  ghost predicate Describes(row: Cells, tag: string, fileName: string, d: Details) {
    && DocumentType in row && row[DocumentType] == JStr(tag)
    && FileName in row && row[FileName] == JStr(fileName)
    && (forall s, k :: Field(s, k) in row <==> k in Of(d, s))
    && (forall s, k :: k in Of(d, s) ==> row[Field(s, k)] == Of(d, s)[k])
    && |row| == 2 + |d.vendor| + |d.customer| + |d.invoice| + |d.item|
  }

  /** A row of a category sheet: a blank spacer row, or the flattened dict
      of one entity, kept in factored form (category tag, file name and the
      sections read); `CellsOf` gives the dict's contents, without its order. */
  datatype Row = Blank | Flat(tag: string, fileName: string, details: Details)

  function CellsOf(row: Row): Cells {
    match row
    case Blank => map[]
    case Flat(tag, fileName, d) => Flattened(tag, fileName, d)
  }

  /** The flattening loop body for one entity. */
  function FlattenEntity(tag: string, e: ApiPipeline.Entity): (r: Result<Row>)
    ensures r.Ok? <==> EntityDetails(e).Ok?
    ensures r.Ok? ==> r.value == Flat(tag, e.fileName, EntityDetails(e).value)
  {
    match EntityDetails(e)
    case Ok(d) => Ok(Flat(tag, e.fileName, d))
    case Raised => Raised
  }

  /** A well-formed entity flattens to the row `Describes` characterizes:
      the tag, the file name, each vendor, customer and invoice field and
      each field of the FIRST line item under its own column (none when
      `line_items` is empty or falsy, so fields only later items carry never
      appear), and nothing else. */
  lemma FlattenColumns(tag: string, e: ApiPipeline.Entity)
    requires FlattenEntity(tag, e).Ok?
    ensures Describes(CellsOf(FlattenEntity(tag, e).value), tag, e.fileName, EntityDetails(e).value)
  {
    RowDescribed(tag, e.fileName, EntityDetails(e).value);
  }

  /** The parts of a row: the fixed columns and one block per section. */
  lemma RowParts(tag: string, fileName: string, d: Details)
    ensures Parts(Fixed(tag, fileName), Block(Vendor, d.vendor), Block(Customer, d.customer),
                  Block(Invoice, d.invoice), Block(LineItem, d.item))
    ensures Flattened(tag, fileName, d) ==
      Fixed(tag, fileName) + Block(Vendor, d.vendor) + Block(Customer, d.customer)
        + Block(Invoice, d.invoice) + Block(LineItem, d.item)
  {
    FixedCells(tag, fileName);
    BlockCells(Vendor, d.vendor, "");
    BlockCells(Customer, d.customer, "");
    BlockCells(Invoice, d.invoice, "");
    BlockCells(LineItem, d.item, "");
  }

  lemma RowFixed(tag: string, fileName: string, d: Details)
    ensures DocumentType in Flattened(tag, fileName, d) && Flattened(tag, fileName, d)[DocumentType] == JStr(tag)
    ensures FileName in Flattened(tag, fileName, d) && Flattened(tag, fileName, d)[FileName] == JStr(fileName)
  {
    var f := Fixed(tag, fileName);
    var bv, bc, bi, bl := Block(Vendor, d.vendor), Block(Customer, d.customer), Block(Invoice, d.invoice), Block(LineItem, d.item);
    RowParts(tag, fileName, d);
    assert DocumentType in f && f[DocumentType] == JStr(tag);
    assert FileName in f && f[FileName] == JStr(fileName);
    AssembledFixed(f, bv, bc, bi, bl, DocumentType);
    AssembledFixed(f, bv, bc, bi, bl, FileName);
  }

  lemma PartOf(d: Details, s: Section)
    ensures Part(Block(Vendor, d.vendor), Block(Customer, d.customer), Block(Invoice, d.invoice), Block(LineItem, d.item), s)
      == Block(s, Of(d, s))
  {
  }

  lemma RowField(tag: string, fileName: string, d: Details, s: Section, k: string)
    ensures Field(s, k) in Flattened(tag, fileName, d) <==> k in Of(d, s)
    ensures k in Of(d, s) ==> Flattened(tag, fileName, d)[Field(s, k)] == Of(d, s)[k]
  {
    var f := Fixed(tag, fileName);
    var bv, bc, bi, bl := Block(Vendor, d.vendor), Block(Customer, d.customer), Block(Invoice, d.invoice), Block(LineItem, d.item);
    RowParts(tag, fileName, d);
    AssembledField(f, bv, bc, bi, bl, Field(s, k));
    PartOf(d, s);
    BlockCells(s, Of(d, s), k);
  }

  lemma RowSize(tag: string, fileName: string, d: Details)
    ensures |Flattened(tag, fileName, d)| == 2 + |d.vendor| + |d.customer| + |d.invoice| + |d.item|
  {
    var f := Fixed(tag, fileName);
    var bv, bc, bi, bl := Block(Vendor, d.vendor), Block(Customer, d.customer), Block(Invoice, d.invoice), Block(LineItem, d.item);
    RowParts(tag, fileName, d);
    FixedCells(tag, fileName);
    BlockSize(Vendor, d.vendor);
    BlockSize(Customer, d.customer);
    BlockSize(Invoice, d.invoice);
    BlockSize(LineItem, d.item);
    AssembledSize(f, bv, bc, bi, bl);
  }

  /** The assembled row holds exactly what the loop assigns. */
  lemma RowDescribed(tag: string, fileName: string, d: Details)
    ensures Describes(Flattened(tag, fileName, d), tag, fileName, d)
  {
    RowFixed(tag, fileName, d);
    RowSize(tag, fileName, d);
    forall s, k ensures Field(s, k) in Flattened(tag, fileName, d) <==> k in Of(d, s) {
      RowField(tag, fileName, d, s, k);
    }
    forall s, k | k in Of(d, s) ensures Flattened(tag, fileName, d)[Field(s, k)] == Of(d, s)[k] {
      RowField(tag, fileName, d, s, k);
    }
  }
}
