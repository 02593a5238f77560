/** The header names of a flattened row's columns, as the flattening loop
    of monitor_api.py's `append_to_excel` spells them. */
module Headers {
  import opened Columns

  /** The string each section's keys are prefixed with. */
  function Prefix(s: Section): (p: string)
    ensures |p| > 0
  {
    match s
    case Vendor => "vendor_"
    case Customer => "customer_"
    case Invoice => "invoice_"
    case LineItem => "line_item_"
  }

  /** The column's name in the spreadsheet header. */
  function Name(c: Column): string {
    match c
    case DocumentType => "document_type"
    case FileName => "file_name"
    case Field(s, k) => Prefix(s) + k
  }

  /** The first letter of every column name: 'd', 'f', or the first letter of
      its prefix, and those six letters are distinct. */
  function Initial(c: Column): char {
    match c
    case DocumentType => 'd'
    case FileName => 'f'
    case Field(Vendor, _) => 'v'
    case Field(Customer, _) => 'c'
    case Field(Invoice, _) => 'i'
    case Field(LineItem, _) => 'l'
  }

  lemma NameInitial(c: Column)
    ensures |Name(c)| > 0 && Name(c)[0] == Initial(c)
  {
    if c.Field? {
      assert Name(c)[0] == Prefix(c.section)[0];
    }
  }

  /** Two columns are spelled alike only when they are the same column: no
      assignment of the flattening loop can overwrite another one. */
  lemma NameInjective(c1: Column, c2: Column)
    ensures Name(c1) == Name(c2) <==> c1 == c2
  {
    if Name(c1) == Name(c2) {
      NameInitial(c1);
      NameInitial(c2);
      if c1.Field? && c2.Field? {
        var p := Prefix(c1.section);
        assert c1.section == c2.section;
        assert Name(c1)[|p|..] == c1.key;
        assert Name(c2)[|p|..] == c2.key;
      }
    }
  }
}
