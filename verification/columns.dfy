/** The columns of a flattened spreadsheet row, and rows assembled from
    parts with disjoint columns.

    Columns are kept as structured names (`Column`) rather than the strings
    pandas sees; module Headers spells each one out and shows that distinct
    columns have distinct spellings, so a row keyed by `Column` has exactly
    the cells the Python dict has. */
module Columns {
  import opened Json

  /** The four detail sections an entity can contribute columns from. */
  datatype Section = Vendor | Customer | Invoice | LineItem

  /** A column of a flattened row. */
  datatype Column = DocumentType | FileName | Field(section: Section, key: string)

  /** The cells of a flattened row: column to value. */
  type Cells = map<Column, Json>

  /** A part of a row all of whose columns belong to section `s`. */
  predicate Within(r: Cells, s: Section) {
    forall c :: c in r ==> c.Field? && c.section == s
  }

  /** Five parts assembled in order: the fixed columns, then one part per
      section. */
  predicate Parts(f: Cells, bv: Cells, bc: Cells, bi: Cells, bl: Cells) {
    && (forall c :: c in f ==> !c.Field?)
    && Within(bv, Vendor) && Within(bc, Customer) && Within(bi, Invoice) && Within(bl, LineItem)
  }

  function Part(bv: Cells, bc: Cells, bi: Cells, bl: Cells, s: Section): Cells {
    match s
    case Vendor => bv
    case Customer => bc
    case Invoice => bi
    case LineItem => bl
  }

  /** The parts share no column, so the whole has as many as they do together. */
  lemma AssembledSize(f: Cells, bv: Cells, bc: Cells, bi: Cells, bl: Cells)
    requires Parts(f, bv, bc, bi, bl)
    ensures |f + bv + bc + bi + bl| == |f| + |bv| + |bc| + |bi| + |bl|
  {
    var w1 := f + bv;
    var w2 := w1 + bc;
    var w3 := w2 + bi;
    NextSection(f, bv, Vendor, Customer);
    NextSection(w1, bc, Customer, Invoice);
    NextSection(w2, bi, Invoice, LineItem);
    DisjointSize(w3, bl);
  }

  /** The columns of a row that has no column of section `s` or `t`, adding
      the columns of section `s`: the counts add up, and the result still has
      no column of section `t`. */
  lemma NextSection(a: Cells, b: Cells, s: Section, t: Section)
    requires s != t
    requires forall c :: c in a ==> !c.Field? || (c.section != s && c.section != t)
    requires Within(b, s)
    ensures |a + b| == |a| + |b|
    ensures forall c :: c in a + b ==> !c.Field? || c.section != t
  {
    DisjointSize(a, b);
  }

  /** A fixed column of the whole is the fixed part's. */
  lemma AssembledFixed(f: Cells, bv: Cells, bc: Cells, bi: Cells, bl: Cells, c: Column)
    requires Parts(f, bv, bc, bi, bl) && !c.Field?
    ensures var whole := f + bv + bc + bi + bl;
      (c in whole <==> c in f) && (c in f ==> whole[c] == f[c])
  {
    assert c !in bv && c !in bc && c !in bi && c !in bl;
  }

  /** A section column of the whole is its own section's, with the same value. */
  lemma AssembledField(f: Cells, bv: Cells, bc: Cells, bi: Cells, bl: Cells, c: Column)
    requires Parts(f, bv, bc, bi, bl) && c.Field?
    ensures var whole, own := f + bv + bc + bi + bl, Part(bv, bc, bi, bl, c.section);
      (c in whole <==> c in own) && (c in own ==> whole[c] == own[c])
  {
    assert c !in f;
    match c.section
    case Vendor => assert c !in bc && c !in bi && c !in bl;
    case Customer => assert c !in bv && c !in bi && c !in bl;
    case Invoice => assert c !in bv && c !in bc && c !in bl;
    case LineItem => assert c !in bv && c !in bc && c !in bi;
  }

  /** Two maps with disjoint keys: their union has as many keys as both. */
  lemma DisjointSize(a: Cells, b: Cells)
    requires forall c :: c in a ==> c !in b
    ensures |a + b| == |a| + |b|
  {
    assert (a + b).Keys == a.Keys + b.Keys;
  }
}
