/** The single-workbook watcher (monitor.py): the same gate as the
    per-category one, a `process_pdf` that returns the service's entity list
    with each entity tagged by the file's basename, and an `append_to_excel`
    that adds those entities as rows to one workbook, with no spacer rows.

    The workbook path is a configuration constant, passed in as `output`;
    the filesystem is a map from workbook path to the rows of its sheet. */
module Monitor {
  import opened Json
  import opened Text
  import Watcher
  import Extraction
  import opened Sheets

  /** The column process_pdf adds to every entity. */
  const PdfFile: string := "pdf_file"

  /** `entity["pdf_file"] = name` on one element of the entity list: only an
      object accepts the assignment, which sets that one key and leaves every
      other key and value as it was. */
  function TagEntity(item: Json, name: string): (r: Result<Object>)
    ensures r.Ok? <==> item.JObj?
    ensures r.Ok? ==> PdfFile in r.value && r.value[PdfFile] == JStr(name)
    ensures r.Ok? ==> forall k :: k != PdfFile ==>
      (k in r.value <==> k in item.fields) && (k in r.value ==> r.value[k] == item.fields[k])
  {
    match item
    case JObj(fields) => Ok(fields[PdfFile := JStr(name)])
    case _ => Raised
  }

  /** The tagging loop over `entity_extract_response.get("entities", [])`.
      A list is tagged element by element, and raises at the first element
      that is not an object. Iterating any other value either raises (a
      number, a boolean, null, or a non-empty object or string, whose keys or
      characters reject item assignment) or does nothing (an empty object or
      string); such an empty value is falsy and is never written, exactly
      like an empty list, which stands for it here. */
  function TagEntities(value: Json, name: string): (r: Result<seq<Object>>)
    ensures value.JArr? ==> (r.Ok? <==> forall i :: 0 <= i < |value.items| ==> value.items[i].JObj?)
    ensures value.JArr? && r.Ok? ==>
      |r.value| == |value.items| && forall i :: 0 <= i < |value.items| ==> r.value[i] == TagEntity(value.items[i], name).value
    ensures !value.JArr? ==> (r.Ok? <==> (value.JObj? || value.JStr?) && !Truthy(value))
    ensures !value.JArr? && r.Ok? ==> r.value == []
  {
    match value
    case JArr(items) =>
      var calls := seq(|items|, i requires 0 <= i < |items| => TagEntity(items[i], name));
      assert forall i :: 0 <= i < |items| ==> calls[i] == TagEntity(items[i], name);
      Collect(calls)
    case JObj(fields) => if |fields| == 0 then Ok([]) else Raised
    case JStr(s) => if |s| == 0 then Ok([]) else Raised
    case _ => Raised
  }

  /** Every entity the tagging loop returns carries the basename under
      `pdf_file` and otherwise the keys and values the service sent. */
  lemma EveryEntityTagged(value: Json, name: string)
    requires TagEntities(value, name).Ok?
    ensures var tagged := TagEntities(value, name).value;
      forall i :: 0 <= i < |tagged| ==>
        && PdfFile in tagged[i] && tagged[i][PdfFile] == JStr(name)
        && value.JArr? && value.items[i].JObj?
        && forall k :: k != PdfFile ==>
             (k in tagged[i] <==> k in value.items[i].fields)
             && (k in tagged[i] ==> tagged[i][k] == value.items[i].fields[k])
  {
    var tagged := TagEntities(value, name).value;
    forall i | 0 <= i < |tagged|
      ensures PdfFile in tagged[i] && tagged[i][PdfFile] == JStr(name)
      ensures value.JArr? && value.items[i].JObj?
      ensures forall k :: k != PdfFile ==>
             (k in tagged[i] <==> k in value.items[i].fields)
             && (k in tagged[i] ==> tagged[i][k] == value.items[i].fields[k])
    {
      assert value.JArr?;
      assert tagged[i] == TagEntity(value.items[i], name).value;
    }
  }

  /** What process_pdf returns: `None`, the tagged entity list, or an
      exception that escapes it. */
  datatype PdfResult = NoResult | Crashed | Returned(entities: seq<Object>)

  /** One run of process_pdf: the stage-2 request it sent, if any, and its result. */
  datatype PdfRun = PdfRun(request: Option<Object>, result: PdfResult)

  /** process_pdf. Stage 2 is called exactly when stage 1 answered; a result
      comes back only when both answered and every entity took its tag. */
  function ProcessPdf(path: string, stage1: Option<Object>, stage2: Option<Object>): (run: PdfRun)
    ensures run.request.Some? <==> Answered(stage1)
    ensures run.request.Some? ==> run.request.value == Extraction.Stage2Payload(stage1.value)
    ensures !run.result.NoResult? <==> Answered(stage1) && Answered(stage2)
    ensures run.result.Returned? <==>
      Answered(stage1) && Answered(stage2) && TagEntities(Get(stage2.value, "entities", JArr([])), Basename(path)).Ok?
    ensures run.result.Returned? ==>
      run.result.entities == TagEntities(Get(stage2.value, "entities", JArr([])), Basename(path)).value
  {
    if !Answered(stage1) then PdfRun(None, NoResult)
    else
      var request := Extraction.Stage2Payload(stage1.value);
      if !Answered(stage2) then PdfRun(Some(request), NoResult)
      else match TagEntities(Get(stage2.value, "entities", JArr([])), Basename(path))
        case Raised => PdfRun(Some(request), Crashed)
        case Ok(entities) => PdfRun(Some(request), Returned(entities))
  }

  /** A response with no `entities` key yields an empty list. */
  lemma NoEntitiesKey(path: string, stage1: Object, stage2: Object)
    requires |stage1| > 0 && |stage2| > 0 && "entities" !in stage2
    ensures ProcessPdf(path, Some(stage1), Some(stage2)).result == Returned([])
  {
  }

  type Store = map<string, seq<Object>>

  /** `append_to_excel(entities, output_path)`: an empty list writes nothing;
      otherwise the workbook at `output` ends up holding its old rows, then
      one row per entity in order, and no other workbook changes. */
  function AppendToExcel(entities: seq<Object>, output: string, store: Store): (r: Store)
    ensures |entities| == 0 ==> r == store
    ensures |entities| > 0 ==>
      && output in r
      && Sheets.Extends(Existing(store, output), r[output])
      && r[output][|Existing(store, output)|..] == entities
    ensures forall p :: p != output ==> (p in r <==> p in store) && (p in store ==> r[p] == store[p])
  {
    if |entities| == 0 then store
    else store[output := Existing(store, output) + entities]
  }

  /** Two appends in a row are one append of both lists: no spacer or other
      row separates batches. */
  lemma AppendConcat(a: seq<Object>, b: seq<Object>, output: string, store: Store)
    ensures AppendToExcel(b, output, AppendToExcel(a, output, store)) == AppendToExcel(a + b, output, store)
  {
    var existing := Existing(store, output);
    if |a| == 0 {
      assert a + b == b;
    } else if |b| == 0 {
      assert a + b == a;
    } else {
      var once := AppendToExcel(a, output, store);
      assert Existing(once, output) == existing + a;
      assert existing + a + b == existing + (a + b);
    }
  }

  /** `processed_files` and the workbooks on disk. */
  datatype State = State(processed: set<string>, store: Store)

  /** One notification, the size polls made while it is handled, and the
      two service responses should its path be dispatched. */
  datatype Arrival = Arrival(notice: Watcher.Arrival, stage1: Option<Object>, stage2: Option<Object>)

  /** What `process_file` does with the value process_pdf hands back: a
      non-empty entity list is appended (`if entities:`); anything else is
      dropped, and an exception out of process_pdf ends the callback. */
  function Save(result: PdfResult, output: string, store: Store): (r: Store)
    ensures !result.Returned? || |result.entities| == 0 ==> r == store
  {
    match result
    case Returned(entities) => if |entities| > 0 then AppendToExcel(entities, output, store) else store
    case _ => store
  }

  /** The callbacks for one notification, with `OUTPUT_EXCEL_PATH` as
      `output`: the new state and the path dispatched, if any. The set and
      the dispatch are exactly the gate's; nothing is written unless a path
      was dispatched. */
  function HandleEvent(s: State, a: Arrival, output: string): (r: (State, Option<string>))
    ensures (r.0.processed, r.1) == Watcher.OnEvent(s.processed, a.notice.event, a.notice.probe)
    ensures r.1.None? ==> r.0.store == s.store
  {
    var (processed, dispatched) := Watcher.OnEvent(s.processed, a.notice.event, a.notice.probe);
    match dispatched
    case None => (State(processed, s.store), None)
    case Some(path) =>
      var run := ProcessPdf(path, a.stage1, a.stage2);
      (State(processed, Save(run.result, output, s.store)), Some(path))
  }

  /** The workbook side of one notification: what Save makes of
      process_pdf's result for the path dispatched, if any. */
  lemma HandleStore(s: State, a: Arrival, output: string)
    ensures var d := Watcher.OnEvent(s.processed, a.notice.event, a.notice.probe).1;
      HandleEvent(s, a, output).0.store ==
        if d.Some? then Save(ProcessPdf(d.value, a.stage1, a.stage2).result, output, s.store) else s.store
  {
    var (_, d) := Watcher.OnEvent(s.processed, a.notice.event, a.notice.probe);
    if d.Some? {
      var result := ProcessPdf(d.value, a.stage1, a.stage2).result;
      assert HandleEvent(s, a, output).0.store == Save(result, output, s.store);
    }
  }

  /** Every row a notification adds to the workbook carries the basename of
      the path that was dispatched, after the rows the workbook already had;
      no other workbook changes. */
  lemma HandleTagsRows(s: State, a: Arrival, output: string)
    ensures var (s', d) := HandleEvent(s, a, output);
      var before, after := Existing(s.store, output), Existing(s'.store, output);
      && (forall p :: p != output ==> (p in s'.store <==> p in s.store) && (p in s.store ==> s'.store[p] == s.store[p]))
      && Sheets.Extends(before, after)
      && (|after| > |before| ==>
            d.Some? && forall i :: |before| <= i < |after| ==> PdfFile in after[i] && after[i][PdfFile] == JStr(Basename(d.value)))
  {
    var (s', d) := HandleEvent(s, a, output);
    var before, after := Existing(s.store, output), Existing(s'.store, output);
    if d.Some? {
      var result := ProcessPdf(d.value, a.stage1, a.stage2).result;
      HandleStore(s, a, output);
      if result.Returned? && |result.entities| > 0 {
        var name := Basename(d.value);
        var value := Get(a.stage2.value, "entities", JArr([]));
        assert result.entities == TagEntities(value, name).value;
        EveryEntityTagged(value, name);
        assert after[|before|..] == result.entities;
        forall i | |before| <= i < |after|
          ensures PdfFile in after[i] && after[i][PdfFile] == JStr(name)
        {
          assert after[i] == after[|before|..][i - |before|] == result.entities[i - |before|];
        }
        return;
      }
    }
    assert after == before;
    Sheets.ExtendsRefl(before);
  }

  /** A dispatched path whose response holds no entities (no `entities` key,
      or an empty list, object or string under it) is recorded but writes
      nothing. */
  lemma EmptyNotWritten(s: State, a: Arrival, output: string, path: string, stage2: Object)
    requires Watcher.OnEvent(s.processed, a.notice.event, a.notice.probe).1 == Some(path)
    requires a.stage2 == Some(stage2)
    requires TagEntities(Get(stage2, "entities", JArr([])), Basename(path)) == Ok([])
    ensures HandleEvent(s, a, output) == (State(s.processed + {path}, s.store), Some(path))
  {
    HandleStore(s, a, output);
    var result := ProcessPdf(path, a.stage1, a.stage2).result;
    assert !result.Returned? || result.entities == [];
    assert HandleEvent(s, a, output).0.store == s.store;
  }

  /** The values under `entities` that tag to no entities are exactly the
      falsy ones Python iterates without error: an empty list, object or
      string. */
  lemma EmptyEntitiesValues(value: Json, name: string)
    ensures TagEntities(value, name) == Ok([]) <==>
      value == JArr([]) || value == JObj(map[]) || value == JStr("")
  {
    if value.JArr? && TagEntities(value, name) == Ok([]) {
      assert |value.items| == 0;
    }
  }

  /** The watcher over a sequence of notifications: the final state and the
      paths dispatched, in order. Every notification is handled, also after
      a callback whose process_pdf raised; the program's observer thread ends
      at the first such callback, so its run is this one over a prefix. */
  function Run(s: State, arrivals: seq<Arrival>, output: string): (r: (State, seq<string>))
    decreases |arrivals|
  {
    if |arrivals| == 0 then (s, [])
    else
      var (s1, d) := HandleEvent(s, arrivals[0], output);
      var (s2, rest) := Run(s1, arrivals[1..], output);
      (s2, (if d.Some? then [d.value] else []) + rest)
  }

  /** The notification an arrival carries. */
  function NoticeOf(a: Arrival): Watcher.Arrival {
    a.notice
  }

  /** The row carries the basename of one of the paths `sent`. */
  ghost predicate TaggedBy(row: Object, sent: seq<string>) {
    PdfFile in row && exists j :: 0 <= j < |sent| && row[PdfFile] == JStr(Basename(sent[j]))
  }

  /** One step of the induction below: rows tagged by the first dispatch,
      then rows tagged by later ones, are all tagged by the dispatches. */
  lemma TaggedStep(e0: seq<Object>, e1: seq<Object>, ef: seq<Object>, d: Option<string>, rest: seq<string>)
    requires Sheets.Extends(e0, e1) && Sheets.Extends(e1, ef)
    requires |e1| > |e0| ==>
      d.Some? && forall i :: |e0| <= i < |e1| ==> PdfFile in e1[i] && e1[i][PdfFile] == JStr(Basename(d.value))
    requires forall i :: |e1| <= i < |ef| ==> TaggedBy(ef[i], rest)
    ensures Sheets.Extends(e0, ef)
    ensures forall i :: |e0| <= i < |ef| ==> TaggedBy(ef[i], (if d.Some? then [d.value] else []) + rest)
  {
    var first := if d.Some? then [d.value] else [];
    Sheets.ExtendsTransitive(e0, e1, ef);
    forall i | |e0| <= i < |ef| ensures TaggedBy(ef[i], first + rest) {
      if i < |e1| {
        assert ef[i] == ef[..|e1|][i] == e1[i];
        TaggedByFirst(ef[i], d.value, rest);
      } else {
        TaggedByLater(ef[i], first, rest);
      }
    }
  }

  lemma TaggedByFirst(row: Object, p: string, rest: seq<string>)
    requires PdfFile in row && row[PdfFile] == JStr(Basename(p))
    ensures TaggedBy(row, [p] + rest)
  {
    assert ([p] + rest)[0] == p;
  }

  lemma TaggedByLater(row: Object, first: seq<string>, rest: seq<string>)
    requires TaggedBy(row, rest)
    ensures TaggedBy(row, first + rest)
  {
    var j :| 0 <= j < |rest| && row[PdfFile] == JStr(Basename(rest[j]));
    assert (first + rest)[|first| + j] == rest[j];
  }

  /** Over any sequence of notifications the workbook keeps its old rows as
      a prefix, and every row added carries the basename of a dispatched
      path. */
  lemma {:induction false} RunTagsRows(s: State, arrivals: seq<Arrival>, output: string)
    ensures var (final, sent) := Run(s, arrivals, output);
      var before, after := Existing(s.store, output), Existing(final.store, output);
      && Sheets.Extends(before, after)
      && (forall i :: |before| <= i < |after| ==> TaggedBy(after[i], sent))
    decreases |arrivals|
  {
    if |arrivals| > 0 {
      var step := HandleEvent(s, arrivals[0], output);
      HandleTagsRows(s, arrivals[0], output);
      RunTagsRows(step.0, arrivals[1..], output);
      var later := Run(step.0, arrivals[1..], output);
      assert Run(s, arrivals, output) == (later.0, (if step.1.Some? then [step.1.value] else []) + later.1);
      TaggedStep(Existing(s.store, output), Existing(step.0.store, output), Existing(later.0.store, output), step.1, later.1);
    } else {
      Sheets.ExtendsRefl(Existing(s.store, output));
    }
  }

  /** Over any sequence of notifications: the set and the dispatched paths
      are those of the gate alone, so no path reaches process_pdf twice; the
      workbook keeps its old rows as a prefix; and every row added carries
      the basename of a dispatched path. */
  lemma {:induction false} RunRecords(s: State, arrivals: seq<Arrival>, output: string)
    ensures var (final, sent) := Run(s, arrivals, output);
      var before, after := Existing(s.store, output), Existing(final.store, output);
      && (final.processed, sent) == Watcher.Run(s.processed, Watcher.Notices(arrivals, NoticeOf))
      && (forall i, j :: 0 <= i < j < |sent| ==> sent[i] != sent[j])
      && Sheets.Extends(before, after)
      && (forall i :: |before| <= i < |after| ==> TaggedBy(after[i], sent))
    decreases |arrivals|
  {
    RunTagsRows(s, arrivals, output);
    if |arrivals| > 0 {
      var notices := Watcher.Notices(arrivals, NoticeOf);
      var (s1, d) := HandleEvent(s, arrivals[0], output);
      assert (s1.processed, d) == Watcher.OnEvent(s.processed, notices[0].event, notices[0].probe);
      assert notices[1..] == Watcher.Notices(arrivals[1..], NoticeOf);
      RunRecords(s1, arrivals[1..], output);
    }
    Watcher.RunAtMostOnce(s.processed, Watcher.Notices(arrivals, NoticeOf));
  }
}
