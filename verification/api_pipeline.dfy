/** `process_pdf` of the per-category watcher (monitor_api.py): run the two
    extraction stages, read the document-type label from stage 1, build one
    entity from stage 2 and route it into one of three category lists. */
module ApiPipeline {
  import opened Json
  import opened Text
  import Extraction

  /** The three categories, in the order of the dict process_pdf returns. */
  const Tags: seq<string> := ["ap_invoice", "outgoing_payments", "incoming_payments"]

  /** The entity dict built from a stage-2 response. Its detail sections are
      whatever JSON the service sent; flattening checks their shape. */
  datatype Entity = Entity(fileName: string, vendor: Json, customer: Json, invoice: Json, lineItems: Json)

  /** The dict of category lists, as (tag, entities) pairs in insertion order. */
  type Categories = seq<(string, seq<Entity>)>

  /** What process_pdf returns: `None`, the category dict, or an exception
      that escapes it. */
  datatype PdfResult = NoResult | Crashed | Classified(categories: Categories)

  /** One run of process_pdf: the stage-2 request it sent, if any, and its result. */
  datatype PdfRun = PdfRun(request: Option<Object>, result: PdfResult)

  /** `stage1.get("document_type", "").lower()`: a label that is present but
      not a string makes `.lower()` raise. */
  function DocumentType(stage1: Object): (r: Result<string>)
    ensures "document_type" !in stage1 ==> r == Ok("")
    ensures "document_type" in stage1 ==>
      (r.Ok? <==> stage1["document_type"].JStr?)
    ensures r.Ok? && "document_type" in stage1 ==>
      SameIgnoringCase(r.value, stage1["document_type"].s) && Lower(r.value) == r.value
  {
    match Get(stage1, "document_type", JStr(""))
    case JStr(raw) => LowerIdempotent(raw); assert Lower("") == ""; Ok(Lower(raw))
    case _ => Raised
  }

  /** The entity dict: the file's basename, and the four sections of the
      stage-2 response, with `{}` or `[]` standing in for a missing one. */
  function BuildEntity(path: string, stage2: Object): (e: Entity)
    ensures e.fileName == Basename(path)
    ensures "vendor_details" !in stage2 ==> e.vendor == JObj(map[])
    ensures "customer_details" !in stage2 ==> e.customer == JObj(map[])
    ensures "invoice_details" !in stage2 ==> e.invoice == JObj(map[])
    ensures "line_items" !in stage2 ==> e.lineItems == JArr([])
    ensures "vendor_details" in stage2 ==> e.vendor == stage2["vendor_details"]
    ensures "customer_details" in stage2 ==> e.customer == stage2["customer_details"]
    ensures "invoice_details" in stage2 ==> e.invoice == stage2["invoice_details"]
    ensures "line_items" in stage2 ==> e.lineItems == stage2["line_items"]
  {
    Entity(
      Basename(path),
      Get(stage2, "vendor_details", JObj(map[])),
      Get(stage2, "customer_details", JObj(map[])),
      Get(stage2, "invoice_details", JObj(map[])),
      Get(stage2, "line_items", JArr([])))
  }

  /** The tags are already lowercase, so the label comparisons are
      comparisons up to case. */
  lemma TagsLowercase()
    ensures forall k :: 0 <= k < |Tags| ==> Lower(Tags[k]) == Tags[k]
  {
    LowerOfLowercase(Tags[0]);
    LowerOfLowercase(Tags[1]);
    LowerOfLowercase(Tags[2]);
  }

  /** No two categories share a tag, so a label names at most one. */
  lemma TagsDistinct()
    ensures forall i, j :: 0 <= i < 3 && 0 <= j < 3 && i != j ==> Tags[i] != Tags[j]
  {
    forall i, j | 0 <= i < 3 && 0 <= j < 3 && i != j ensures Tags[i] != Tags[j] {
      assert Tags[i][0] != Tags[j][0] || |Tags[i]| != |Tags[j]|;
    }
  }

  /** The routing if/elif chain: the result always has exactly the three
      category keys in order; the entity is alone in the list whose tag equals
      the label and every other list is empty, so an unknown label drops it. */
  function Route(documentType: string, e: Entity): (r: Categories)
    ensures |r| == 3
    ensures forall k :: 0 <= k < 3 ==> r[k].0 == Tags[k]
    ensures forall k :: 0 <= k < 3 ==> r[k].1 == [] || r[k].1 == [e]
    ensures forall k :: 0 <= k < 3 ==> (e in r[k].1 <==> documentType == Tags[k])
    ensures documentType !in Tags ==> forall k :: 0 <= k < 3 ==> r[k].1 == []
  {
    [ ("ap_invoice", if documentType == "ap_invoice" then [e] else []),
      ("outgoing_payments", if documentType == "outgoing_payments" then [e] else []),
      ("incoming_payments", if documentType == "incoming_payments" then [e] else []) ]
  }

  /** A string label equal to tag k up to case reads as tag k. */
  lemma LabelNamesTag(stage1: Object, raw: string, k: nat)
    requires "document_type" in stage1 && stage1["document_type"] == JStr(raw)
    requires k < 3 && SameIgnoringCase(raw, Tags[k])
    ensures DocumentType(stage1) == Ok(Tags[k])
  {
    TagsLowercase();
    LowerEqualsIgnoringCase(raw, Tags[k]);
    assert DocumentType(stage1) == Ok(Lower(raw));
  }

  /** Routing under tag k puts the entity in list k alone. */
  lemma RouteToTag(k: nat, e: Entity)
    requires k < 3
    ensures var cats := Route(Tags[k], e);
      cats[k].1 == [e] && forall j :: 0 <= j < 3 && j != k ==> cats[j].1 == []
  {
    var cats := Route(Tags[k], e);
    TagsDistinct();
    forall j | 0 <= j < 3 && j != k ensures cats[j].1 == [] {
      assert e !in cats[j].1;
    }
    assert e in cats[k].1;
  }

  /** process_pdf. Stage 2 is called only when stage 1 answered with a usable
      label; a result comes back only when both stages answered. */
  function ProcessPdf(path: string, stage1: Option<Object>, stage2: Option<Object>): (run: PdfRun)
    ensures run.request.Some? <==> Answered(stage1) && DocumentType(stage1.value).Ok?
    ensures run.request.Some? ==> run.request.value == Extraction.Stage2Payload(stage1.value)
    ensures run.result.Crashed? <==> Answered(stage1) && DocumentType(stage1.value).Raised?
    ensures run.result.Classified? <==> run.request.Some? && Answered(stage2)
    ensures run.result.Classified? ==>
      run.result.categories == Route(DocumentType(stage1.value).value, BuildEntity(path, stage2.value))
  {
    if !Answered(stage1) then PdfRun(None, NoResult)
    else match DocumentType(stage1.value)
      case Raised => PdfRun(None, Crashed)
      case Ok(documentType) =>
        var request := Extraction.Stage2Payload(stage1.value);
        if !Answered(stage2) then PdfRun(Some(request), NoResult)
        else PdfRun(Some(request), Classified(Route(documentType, BuildEntity(path, stage2.value))))
  }

  /** Classification is case-insensitive and exclusive: when both stages
      answer, the entity (named after the file's basename) sits in the list of
      category k exactly when the raw label equals that tag up to case, in no
      other list, and in none at all for any other label, the empty one
      included. */
  lemma ClassifyCaseInsensitive(path: string, stage1: Object, stage2: Object, raw: string)
    requires |stage1| > 0 && |stage2| > 0
    requires "document_type" in stage1 && stage1["document_type"] == JStr(raw)
    ensures var run := ProcessPdf(path, Some(stage1), Some(stage2));
      && run.result.Classified?
      && (forall k :: 0 <= k < 3 ==>
            (run.result.categories[k].1 != [] <==> SameIgnoringCase(raw, Tags[k])))
      && (forall k :: 0 <= k < 3 && run.result.categories[k].1 != [] ==>
            run.result.categories[k].1 == [BuildEntity(path, stage2)]
            && run.result.categories[k].1[0].fileName == Basename(path))
  {
    var run := ProcessPdf(path, Some(stage1), Some(stage2));
    var e := BuildEntity(path, stage2);
    TagsLowercase();
    forall k | 0 <= k < 3
      ensures run.result.categories[k].1 != [] <==> SameIgnoringCase(raw, Tags[k])
    {
      LowerEqualsIgnoringCase(raw, Tags[k]);
      assert run.result.categories[k].1 != [] <==> e in run.result.categories[k].1;
    }
  }
}
