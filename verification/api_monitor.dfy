/** The per-category watcher (monitor_api.py) end to end: `process_file`
    gates a notification, a dispatched path goes through `process_pdf`, and
    a category dict that comes back is handed to `append_to_excel`.

    The handler's set and the workbooks on disk are threaded through as one
    value; what the outside world answers while a notification is handled
    (size polls, the two service responses, the day) comes in with it. */
module ApiMonitor {
  import opened Json
  import opened Text
  import Watcher
  import ApiPipeline
  import Flatten
  import DailyStore
  import Sheets

  /** `processed_files` and the workbooks under the base output folder. */
  datatype State = State(processed: set<string>, store: DailyStore.Store)

  /** One notification, the size polls made while it is handled, the two
      service responses should its path be dispatched, and the date
      `datetime.now()` would format. */
  datatype Arrival = Arrival(notice: Watcher.Arrival, stage1: Option<Object>, stage2: Option<Object>, today: string)

  /** What `process_file` does with the value process_pdf hands back. The
      category dict always has three keys, so it is always truthy and always
      passed to `append_to_excel`; `None` is dropped; an exception out of
      process_pdf ends the callback before anything is written. */
  function Save(result: ApiPipeline.PdfResult, base: string, today: string, store: DailyStore.Store): (r: DailyStore.Store)
    ensures !result.Classified? ==> r == store
  {
    match result
    case Classified(cats) => DailyStore.AppendToExcel(cats, base, today, store).0
    case _ => store
  }

  /** The callbacks for one notification, with `BASE_OUTPUT_FOLDER` as `base`:
      the new state and the path dispatched, if any. The set and the dispatch
      are exactly the gate's; nothing is written unless a path was
      dispatched and process_pdf returned the category dict. A dispatched
      path stays recorded whatever process_pdf does. */
  function HandleEvent(s: State, a: Arrival, base: string): (r: (State, Option<string>))
    ensures (r.0.processed, r.1) == Watcher.OnEvent(s.processed, a.notice.event, a.notice.probe)
    ensures r.1.None? ==> r.0.store == s.store
    ensures r.1.Some? && !ApiPipeline.ProcessPdf(r.1.value, a.stage1, a.stage2).result.Classified? ==>
      r.0.store == s.store
  {
    var (processed, dispatched) := Watcher.OnEvent(s.processed, a.notice.event, a.notice.probe);
    match dispatched
    case None => (State(processed, s.store), None)
    case Some(path) =>
      var run := ApiPipeline.ProcessPdf(path, a.stage1, a.stage2);
      (State(processed, Save(run.result, base, a.today, s.store)), Some(path))
  }

  /** The workbooks after a notification: rewritten by the category loop
      when a dispatched path came back classified, untouched otherwise. */
  lemma HandleStore(s: State, a: Arrival, base: string)
    ensures var d := Watcher.OnEvent(s.processed, a.notice.event, a.notice.probe).1;
      var result := if d.Some? then ApiPipeline.ProcessPdf(d.value, a.stage1, a.stage2).result else ApiPipeline.NoResult;
      HandleEvent(s, a, base).0.store ==
        if result.Classified? then DailyStore.WriteCategories(result.categories, DailyStore.DailyFolder(base, a.today), s.store).0
        else s.store
  {
    var (_, d) := Watcher.OnEvent(s.processed, a.notice.event, a.notice.probe);
    if d.Some? {
      var result := ApiPipeline.ProcessPdf(d.value, a.stage1, a.stage2).result;
      assert HandleEvent(s, a, base).0.store == Save(result, base, a.today, s.store);
      if result.Classified? {
        assert |result.categories| == 3;
      }
    }
  }

  /** The workbook a category dict may write on a given day. */
  predicate DayTarget(base: string, today: string, path: string) {
    exists k :: 0 <= k < 3 && path == DailyStore.OutputPath(base, today, ApiPipeline.Tags[k])
  }

  /** Every workbook a category dict with the three category keys can touch
      is one of the day's three category workbooks. */
  lemma RouteTargets(cats: ApiPipeline.Categories, base: string, today: string, target: string)
    requires |cats| == 3 && forall k :: 0 <= k < 3 ==> cats[k].0 == ApiPipeline.Tags[k]
    requires target in DailyStore.Targets(cats, DailyStore.DailyFolder(base, today))
    ensures DayTarget(base, today, target)
  {
    DailyStore.TargetsMembers(cats, DailyStore.DailyFolder(base, today), target);
    var k :| 0 <= k < |cats| && |cats[k].1| > 0 && target == DailyStore.Target(DailyStore.DailyFolder(base, today), cats[k].0);
    assert cats[k].0 == ApiPipeline.Tags[k];
  }

  /** Handling a notification touches no workbook but the three of that
      day's categories: any other path is neither created nor changed. */
  lemma HandleScope(s: State, a: Arrival, base: string, path: string)
    requires !DayTarget(base, a.today, path)
    ensures var store' := HandleEvent(s, a, base).0.store;
      && (path in store' <==> path in s.store)
      && (path in s.store ==> store'[path] == s.store[path])
  {
    var (_, dispatched) := Watcher.OnEvent(s.processed, a.notice.event, a.notice.probe);
    HandleStore(s, a, base);
    if dispatched.Some? {
      var result := ApiPipeline.ProcessPdf(dispatched.value, a.stage1, a.stage2).result;
      if result.Classified? {
        var folder := DailyStore.DailyFolder(base, a.today);
        if path in DailyStore.Targets(result.categories, folder) {
          RouteTargets(result.categories, base, a.today, path);
        }
        DailyStore.WriteScope(result.categories, folder, s.store, path);
      }
    }
  }

  /** Handling a notification never drops a row: every workbook keeps its
      rows as a prefix. */
  lemma HandleKeeps(s: State, a: Arrival, base: string, path: string)
    requires path in s.store
    ensures var store' := HandleEvent(s, a, base).0.store;
      path in store' && Sheets.Extends(s.store[path], store'[path])
  {
    var (_, dispatched) := Watcher.OnEvent(s.processed, a.notice.event, a.notice.probe);
    HandleStore(s, a, base);
    if dispatched.Some? && ApiPipeline.ProcessPdf(dispatched.value, a.stage1, a.stage2).result.Classified? {
      var cats := ApiPipeline.ProcessPdf(dispatched.value, a.stage1, a.stage2).result.categories;
      var folder := DailyStore.DailyFolder(base, a.today);
      DailyStore.WriteKeeps(cats, folder, s.store, path);
    } else {
      Sheets.ExtendsRefl(s.store[path]);
    }
  }

  /** When both services answer and the label names category k up to case,
      process_pdf returns a dict whose only non-empty list is category k's,
      holding the one entity. */
  lemma ClassifiedAs(path: string, stage1: Object, stage2: Object, raw: string, k: nat)
    requires |stage1| > 0 && |stage2| > 0
    requires "document_type" in stage1 && stage1["document_type"] == JStr(raw)
    requires k < 3 && SameIgnoringCase(raw, ApiPipeline.Tags[k])
    ensures var run := ApiPipeline.ProcessPdf(path, Some(stage1), Some(stage2));
      && run.result.Classified?
      && |run.result.categories| == 3
      && run.result.categories[k] == (ApiPipeline.Tags[k], [ApiPipeline.BuildEntity(path, stage2)])
      && forall j :: 0 <= j < 3 && j != k ==> run.result.categories[j].1 == []
  {
    var e := ApiPipeline.BuildEntity(path, stage2);
    ApiPipeline.LabelNamesTag(stage1, raw, k);
    ApiPipeline.RouteToTag(k, e);
    var run := ApiPipeline.ProcessPdf(path, Some(stage1), Some(stage2));
    assert run.result == ApiPipeline.Classified(ApiPipeline.Route(ApiPipeline.Tags[k], e));
  }

  /** The flattened row for the entity process_pdf builds, under category `tag`. */
  function RowFor(tag: string, path: string, stage2: Object): Result<Flatten.Row> {
    Flatten.FlattenEntity(tag, ApiPipeline.BuildEntity(path, stage2))
  }

  /** A category dict whose only entity sits in category k's list, once
      appended: one row and two spacers at the end of that category's
      workbook for the day. */
  lemma SaveSingle(result: ApiPipeline.PdfResult, k: nat, e: ApiPipeline.Entity, base: string, today: string, store: DailyStore.Store)
    requires result.Classified? && |result.categories| == 3
    requires k < 3 && result.categories[k] == (ApiPipeline.Tags[k], [e])
    requires forall j :: 0 <= j < 3 && j != k ==> result.categories[j].1 == []
    requires Flatten.FlattenEntity(ApiPipeline.Tags[k], e).Ok?
    ensures var target := DailyStore.OutputPath(base, today, ApiPipeline.Tags[k]);
      Save(result, base, today, store)
        == store[target := Sheets.Existing(store, target) + [Flatten.FlattenEntity(ApiPipeline.Tags[k], e).value, DailyStore.Spacer, DailyStore.Spacer]]
  {
    DailyStore.AppendSingle(result.categories, base, today, store, k, e);
  }

  /** The category dict of a label naming category k, once appended. */
  lemma SavedAs(path: string, stage1: Object, stage2: Object, raw: string, k: nat, base: string, today: string, store: DailyStore.Store)
    requires |stage1| > 0 && |stage2| > 0
    requires "document_type" in stage1 && stage1["document_type"] == JStr(raw)
    requires k < 3 && SameIgnoringCase(raw, ApiPipeline.Tags[k])
    requires RowFor(ApiPipeline.Tags[k], path, stage2).Ok?
    ensures var target := DailyStore.OutputPath(base, today, ApiPipeline.Tags[k]);
      Save(ApiPipeline.ProcessPdf(path, Some(stage1), Some(stage2)).result, base, today, store)
        == store[target := Sheets.Existing(store, target) + [RowFor(ApiPipeline.Tags[k], path, stage2).value, DailyStore.Spacer, DailyStore.Spacer]]
  {
    ClassifiedAs(path, stage1, stage2, raw, k);
    SaveSingle(ApiPipeline.ProcessPdf(path, Some(stage1), Some(stage2)).result, k, ApiPipeline.BuildEntity(path, stage2), base, today, store);
  }

  /** End to end: a new, stable PDF whose label names category k up to case,
      and whose detail sections are well formed, is recorded and appends
      exactly one row to that category's workbook for the day, named after
      the file's basename and followed by the two spacer rows; every other
      workbook is left alone. */
  lemma FreshPdfSaved(s: State, path: string, probe: Watcher.Probe, stage1: Object, stage2: Object,
                      raw: string, k: nat, base: string, today: string)
    requires Watcher.IsPdf(path) && path !in s.processed && Watcher.Ready(probe)
    requires |stage1| > 0 && |stage2| > 0
    requires "document_type" in stage1 && stage1["document_type"] == JStr(raw)
    requires k < 3 && SameIgnoringCase(raw, ApiPipeline.Tags[k])
    requires RowFor(ApiPipeline.Tags[k], path, stage2).Ok?
    ensures var a := Arrival(Watcher.Arrival(Watcher.Created(false, path), probe), Some(stage1), Some(stage2), today);
      var target := DailyStore.OutputPath(base, today, ApiPipeline.Tags[k]);
      var row := RowFor(ApiPipeline.Tags[k], path, stage2).value;
      && row.Flat? && row.tag == ApiPipeline.Tags[k] && row.fileName == Basename(path)
      && HandleEvent(s, a, base) == (State(s.processed + {path},
           s.store[target := Sheets.Existing(s.store, target) + [row, DailyStore.Spacer, DailyStore.Spacer]]), Some(path))
  {
    var a := Arrival(Watcher.Arrival(Watcher.Created(false, path), probe), Some(stage1), Some(stage2), today);
    assert Watcher.OnEvent(s.processed, a.notice.event, a.notice.probe) == (s.processed + {path}, Some(path));
    SavedAs(path, stage1, stage2, raw, k, base, today, s.store);
  }

  /** A label that names none of the three categories, a missing one
      included, still records the path but writes nothing: the entity is
      dropped. */
  lemma UnknownLabelDropped(s: State, a: Arrival, base: string, path: string, stage1: Object, stage2: Object)
    requires Watcher.OnEvent(s.processed, a.notice.event, a.notice.probe).1 == Some(path)
    requires a.stage1 == Some(stage1) && a.stage2 == Some(stage2) && |stage1| > 0 && |stage2| > 0
    requires "document_type" !in stage1 ||
      (stage1["document_type"].JStr?
       && forall k :: 0 <= k < 3 ==> !SameIgnoringCase(stage1["document_type"].s, ApiPipeline.Tags[k]))
    ensures HandleEvent(s, a, base) == (State(s.processed + {path}, s.store), Some(path))
  {
    ApiPipeline.TagsLowercase();
    var documentType := ApiPipeline.DocumentType(stage1).value;
    if "document_type" in stage1 {
      forall k | 0 <= k < 3 ensures documentType != ApiPipeline.Tags[k] {
        LowerEqualsIgnoringCase(stage1["document_type"].s, ApiPipeline.Tags[k]);
      }
    }
    assert documentType !in ApiPipeline.Tags;
    var cats := ApiPipeline.ProcessPdf(path, Some(stage1), Some(stage2)).result.categories;
    DailyStore.WriteNothing(cats, DailyStore.DailyFolder(base, a.today), s.store);
  }

  /** The watcher over a sequence of notifications: the final state and the
      paths dispatched, in order. Every notification is handled, also after
      a callback whose process_pdf raised; the program's observer thread ends
      at the first such callback, so its run is this one over a prefix. */
  function Run(s: State, arrivals: seq<Arrival>, base: string): (r: (State, seq<string>))
    decreases |arrivals|
  {
    if |arrivals| == 0 then (s, [])
    else
      var (s1, d) := HandleEvent(s, arrivals[0], base);
      var (s2, rest) := Run(s1, arrivals[1..], base);
      (s2, (if d.Some? then [d.value] else []) + rest)
  }

  /** The notification an arrival carries. */
  function NoticeOf(a: Arrival): Watcher.Arrival {
    a.notice
  }

  /** The results of process_pdf and append_to_excel never change the set
      or a later gate decision: over the notifications handled, the set and
      the dispatched paths are those of the gate alone. */
  lemma {:induction false} RunFollowsGate(s: State, arrivals: seq<Arrival>, base: string)
    ensures var (final, sent) := Run(s, arrivals, base);
      (final.processed, sent) == Watcher.Run(s.processed, Watcher.Notices(arrivals, NoticeOf))
    decreases |arrivals|
  {
    if |arrivals| > 0 {
      var notices := Watcher.Notices(arrivals, NoticeOf);
      var (s1, d) := HandleEvent(s, arrivals[0], base);
      assert (s1.processed, d) == Watcher.OnEvent(s.processed, notices[0].event, notices[0].probe);
      assert notices[1..] == Watcher.Notices(arrivals[1..], NoticeOf);
      RunFollowsGate(s1, arrivals[1..], base);
    }
  }

  /** At-most-once processing for the whole watcher: no path reaches
      process_pdf twice, none that was already processed does, and every one
      that does is a PDF path. */
  lemma RunDispatchesOnce(s: State, arrivals: seq<Arrival>, base: string)
    ensures var (final, sent) := Run(s, arrivals, base);
      && (forall i, j :: 0 <= i < j < |sent| ==> sent[i] != sent[j])
      && (forall i :: 0 <= i < |sent| ==> sent[i] !in s.processed && Watcher.IsPdf(sent[i]))
      && s.processed <= final.processed
  {
    RunFollowsGate(s, arrivals, base);
    Watcher.RunAtMostOnce(s.processed, Watcher.Notices(arrivals, NoticeOf));
  }

  /** Over any sequence of notifications, every workbook keeps its rows as a
      prefix. */
  lemma {:induction false} RunKeeps(s: State, arrivals: seq<Arrival>, base: string, path: string)
    requires path in s.store
    ensures var final := Run(s, arrivals, base).0;
      path in final.store && Sheets.Extends(s.store[path], final.store[path])
    decreases |arrivals|
  {
    if |arrivals| > 0 {
      var (s1, _) := HandleEvent(s, arrivals[0], base);
      HandleKeeps(s, arrivals[0], base, path);
      RunKeeps(s1, arrivals[1..], base, path);
      Sheets.ExtendsTransitive(s.store[path], s1.store[path], Run(s1, arrivals[1..], base).0.store[path]);
    } else {
      Sheets.ExtendsRefl(s.store[path]);
    }
  }
}
