# PDF watcher: gating, classification, flattening and append semantics

This project models the decision logic of two PDF-watcher scripts.

- `monitor_api.py` watches a folder for new PDF files. For each one it calls
  two extraction services: stage 1 returns the text and a document-type label,
  and stage 2 returns vendor, customer, invoice and line-item details. It then
  routes the result into one of three categories (`ap_invoice`,
  `outgoing_payments`, `incoming_payments`), flattens it into one spreadsheet
  row, and appends the row to a per-day, per-category workbook. Each batch is
  followed by two blank spacer rows.
- `monitor.py` tags every entity the service returns with the PDF's
  basename and appends the entities to one fixed workbook, with no category
  split and no spacer rows.

Both scripts share the same event handler, `PdfFileHandler`. It ignores
directories. A creation hands over the source path and a move hands over the
destination path; a modification is ignored. A path must end in `.pdf`
(ignoring case), and its size must hold still across two consecutive polls.
The handler remembers every path it has dispatched in `processed_files`.

Everything runs as pure functions over immutable values:

- The handler's set and the workbooks on disk (a map from path to the rows of
  its sheet) are threaded through as state.
- What the outside world answers while one notification is handled comes in
  as a parameter. This covers the size polls, the two service responses
  (`Option` of a decoded JSON object, `None` when the call failed) and the
  date.
- A Python exception is `Raised`, a case of `Result`.
- Flattened rows are kept in factored form as `Flatten.Row`: the category,
  the file name, and the four detail sections. `Flatten.CellsOf` gives a row's
  column-to-value contents, as a map without the order of the dict the
  script builds. Spacer rows are
  `Flatten.Blank`.

Modules, one per file:

- `Json`: JSON values, truthiness, `dict.get`, and a stop-at-first-exception loop.
- `Text`: ASCII `lower`, `endswith`, and POSIX `basename` / `join`.
- `Sheets`: the prefix relation between a sheet before and after a write.
- `Stability`: `is_file_ready`.
- `Watcher`: the event gate and the `processed_files` dedup.
- `Extraction`: the stage-2 payload.
- `ApiPipeline`: `process_pdf` of `monitor_api.py`.
- `Columns`, `Headers` and `Flatten`: the flattening of one entity.
- `DailyStore`: the write half of `append_to_excel` in `monitor_api.py`.
- `ApiMonitor`: `monitor_api.py` end to end.
- `Monitor`: `monitor.py` end to end.

The model follows the code where it differs from the intended behaviour
(an "unknown" bucket, a temporary-file swap, isolation per category):

- An unrecognised document-type label is dropped, with a warning only
  (monitor_api.py:133-141), rather than routed to an "unknown" category.
- The workbook is rewritten in place (monitor_api.py:206-214), rather than
  written to a temporary file that then replaces it.
- A single `try` encloses the whole category loop (monitor_api.py:145-219),
  so an error in one category abandons the categories after it, rather than
  each category being written or failing on its own.
- Every batch is followed by its own two spacer rows. In the model, which
  takes a reloaded sheet to hold every row that was saved, two batches
  written to a fresh workbook give `B1, blank, blank, B2, blank, blank`
  (`DailyStore.AppendTwice`). What the program itself gives depends on
  whether `pd.read_excel` (monitor_api.py:208) keeps trailing blank rows; if
  it drops them, the result is `B1, B2, blank, blank`.
- A `document_type` that is present but not a string makes `.lower()` raise.
  That exception leaves `process_pdf` and the event callback, after the path
  has already been recorded, so the file is never retried. No `try` surrounds
  the callback, so the exception also ends watchdog's observer thread; see
  "Left out" for how the model treats the notifications after it.

## Model

| member | source | states |
|---|---|---|
| Text.LowerEqualsIgnoringCase | monitor_api.py:103 | Comparing the lowered label with an all-lowercase tag succeeds exactly when the label equals the tag up to ASCII case (both directions). |
| Text.Basename | monitor_api.py:118 | `os.path.basename` returns the longest suffix of the path that contains no '/'. Either it is the whole path, or a '/' comes right before it. |
| Text.JoinRelativeInjective | monitor_api.py:204 | Joining one folder with two relative names gives the same path exactly when the names are equal. |
| Stability.WaitUntilStable | monitor_api.py:268-279 | The polling loop, entered with a given `last_size`, returns true exactly when some poll within the budget repeats the size before it, and no lookup before that poll failed. |
| Stability.IsFileReadySpec | monitor_api.py:264-279 | `is_file_ready` is true exactly when, for some i ≥ 1 within the poll budget, polls i-1 and i report the same size and lookups 0..i all succeeded. The first poll can never match, because the loop starts from -1. |
| Stability.NotReadyCases | monitor_api.py:269-276 | A failed size lookup on the first poll, or a budget that allows at most one poll, means the file is not ready. |
| Stability.SteadyFileReady | monitor.py:204-208 | A file whose first two polls report the same size is ready whenever the budget allows two polls. |
| Watcher.OnEvent | monitor_api.py:227-262 | One notification dispatches a path exactly when it names a non-directory creation or move whose path is a PDF path, ready and not yet processed. That path is then the one added to the set, and otherwise the set is unchanged. |
| Watcher.Candidate | monitor_api.py:244-262 | A notification reaches `process_file` only if it is a creation or a move of a non-directory. A creation uses its source path and a move its destination. A modification never does. |
| Watcher.IsPdfSpec | monitor_api.py:228 | The extension test accepts exactly the paths whose last four characters are '.', 'p', 'd', 'f', each letter in either case. |
| Watcher.ProcessFile | monitor_api.py:227-237 | The checks run in order: extension, then readiness, then membership. A path is dispatched exactly when it is a PDF path, ready and new. Only a dispatched path is added to the set. |
| Watcher.RunAtMostOnce | monitor_api.py:234-237 | Over any sequence of notifications: no path is dispatched twice; none that was already processed is dispatched; every dispatched path is a PDF path; and the set grows by exactly the dispatched paths. |
| Watcher.NotReadyIsRetried | monitor_api.py:231-232 | A PDF path that is not yet stable is not recorded. A later notification, once the file is stable, dispatches it. |
| Watcher.CreatedThenBurstOnce | monitor.py:180-198 | A stable new PDF whose creation is followed by any burst of notifications for the same path (modifications, moves onto it) is dispatched exactly once. |
| Extraction.Stage2Payload | monitor_api.py:69-71 | The stage-2 body has the single key `text`. Its value is stage 1's `extracted_text` when present, and "" otherwise. |
| ApiPipeline.DocumentType | monitor_api.py:103 | A missing label gives "". A present label is an error unless it is a string. A string label gives an all-lowercase string that equals the raw label up to case. |
| ApiPipeline.BuildEntity | monitor_api.py:117-124 | The entity's file name is the basename of the path. Each detail section is the stage-2 value when the key is present, and `{}` (or `[]` for line items) when it is missing. |
| ApiPipeline.Route | monitor_api.py:126-141 | The result has exactly the three category keys, in order. The entity is in a category's list exactly when the label equals that tag, and every list holds either nothing or just the entity. Any other label leaves all three lists empty. |
| ApiPipeline.ProcessPdf | monitor_api.py:93-141 | Stage 2 is called exactly when stage 1 answered (non-empty) with a usable label, and its request is the stage-2 payload. The function raises exactly when the label is not a string. A category dict comes back exactly when stage 2 answered too. |
| ApiPipeline.LabelNamesTag | monitor_api.py:103 | A string label equal to a category's tag up to ASCII case reads as exactly that tag. |
| ApiPipeline.RouteToTag | monitor_api.py:126-141 | Routing under category k's tag puts the entity alone in k's list and leaves the other two lists empty. |
| ApiPipeline.ClassifyCaseInsensitive | monitor_api.py:103-141 | When both stages answer, category k's list is non-empty exactly when the raw label equals tag k up to case. Such a list holds only the entity, named after the basename. |
| Headers.NameInjective | monitor_api.py:164-189 | Two columns are spelled alike (`document_type`, `file_name`, or `vendor_`/`customer_`/`invoice_`/`line_item_` plus a key) only when they are the same column, so no assignment overwrites another. |
| Flatten.BlockSize | monitor_api.py:170-172 | A section adds exactly as many columns as it has keys. |
| Flatten.Items | monitor_api.py:170-182 | `.items()` succeeds exactly on an object, and yields its fields. |
| Flatten.FirstLineItem | monitor_api.py:185-189 | Falsy line items contribute nothing. Truthy ones succeed only as a list whose first element is an object, and contribute exactly that element's fields. |
| Flatten.EntityDetails | monitor_api.py:163-189 | An entity flattens exactly when its three detail sections are objects and its line items are falsy or a list starting with an object. The sections read are exactly those values. |
| Flatten.FlattenEntity | monitor_api.py:163-191 | The loop body raises exactly when the entity's sections are malformed. Otherwise the row is tagged with the category and the entity's file name. |
| Flatten.FlattenColumns | monitor_api.py:164-189 | A flattened row holds `document_type` = tag and `file_name`, plus a column for each key of each section, with that key's value. Only the first line item counts, and the row has nothing else. So it has exactly 2 + the section sizes columns. |
| Flatten.RowDescribed | monitor_api.py:164-189 | The assembled dict, for any four sections, satisfies the column description above. |
| DailyStore.OutputPathShape | monitor_api.py:204 | The workbook path is `<base>/excel_output_<today>/<tag>_output.xlsx`. The separator after `base` is omitted when `base` is empty or already ends in '/'. |
| DailyStore.OutputPathInjective | monitor_api.py:151-152 | Two days, or two categories, share a workbook only when they are equal. |
| DailyStore.TargetsDistinct | monitor_api.py:204 | The three categories always write three different workbooks. |
| DailyStore.AppendBatch | monitor_api.py:196-211 | The new sheet consists of the existing rows unchanged, then the batch in order, then exactly two blank rows. |
| DailyStore.AppendTwice | monitor_api.py:199-211 | Two successive batches are each followed by their own pair of spacer rows. |
| DailyStore.FlattenAll | monitor_api.py:163-191 | The inner loop succeeds exactly when every entity flattens. It yields one row per entity, in input order. |
| DailyStore.AppendToExcel | monitor_api.py:146-148 | An empty category dict writes nothing, and only an empty one reports nothing to save. |
| DailyStore.WriteScope | monitor_api.py:156-158 | A workbook that is not the target of a non-empty category is neither created nor changed. |
| DailyStore.WriteKeeps | monitor_api.py:206-214 | Every existing workbook keeps its rows as a prefix. |
| DailyStore.WriteFails | monitor_api.py:156-219 | The category loop ends early exactly when some non-empty category holds an entity that does not flatten. |
| DailyStore.WriteNothing | monitor_api.py:156-158 | A dict whose lists are all empty writes nothing and completes. |
| DailyStore.WriteSingle | monitor_api.py:156-214 | When exactly one category is non-empty and its entities flatten, the loop appends that batch and its spacers to that category's workbook, and changes nothing else. |
| DailyStore.AppendSingle | monitor_api.py:151-214 | A dict holding one entity that flattens appends that one row and two spacers to its category's workbook for the day. |
| ApiMonitor.Save | monitor_api.py:240-242 | Only a category dict is handed to `append_to_excel`. `None`, or an exception out of `process_pdf`, writes nothing. |
| ApiMonitor.HandleEvent | monitor_api.py:227-242 | The set and the dispatched path are exactly those of the gate. Nothing is written without a dispatch, or when `process_pdf` returns no category dict. |
| ApiMonitor.RouteTargets | monitor_api.py:204 | Every workbook the three-category dict can write is one of the day's three category workbooks. |
| ApiMonitor.HandleScope | monitor_api.py:240-242 | Handling a notification creates or changes no workbook other than the day's three category workbooks. |
| ApiMonitor.HandleKeeps | monitor_api.py:206-214 | Handling a notification never drops a row from any workbook. |
| ApiMonitor.ClassifiedAs | monitor_api.py:126-141 | A label naming category k up to case yields a dict whose only non-empty list is category k's, holding the one entity. |
| ApiMonitor.SaveSingle | monitor_api.py:196-214 | A category dict whose only entity sits in category k's list, once appended, adds that entity's row and two spacers to category k's workbook for the day, and nothing else. |
| ApiMonitor.SavedAs | monitor_api.py:144-215 | That dict, once appended, adds exactly one row and two spacers to category k's workbook for the day. |
| ApiMonitor.FreshPdfSaved | monitor_api.py:227-242 | End to end: a new, stable, well-formed PDF whose label names category k is recorded. It appends exactly one row, named after the file's basename and followed by two spacers, to that category's workbook for the day, and changes nothing else. |
| ApiMonitor.UnknownLabelDropped | monitor_api.py:133-134 | A missing label, or one naming no category, still records the path but writes nothing. |
| ApiMonitor.RunFollowsGate | monitor_api.py:237-240 | The results of `process_pdf` and `append_to_excel` never change the set or the later gate decisions. Over any sequence of handled notifications, the watcher's set and dispatches are the gate's alone. |
| ApiMonitor.RunDispatchesOnce | monitor_api.py:234-240 | No path reaches `process_pdf` twice, none that was already processed does, and each one that does is a PDF path. |
| ApiMonitor.RunKeeps | monitor_api.py:206-214 | Over any sequence of notifications, every workbook keeps its rows as a prefix. |
| Monitor.TagEntity | monitor.py:80 | Only an object takes the `pdf_file` assignment. It gains that key with the basename, and every other key keeps its value. |
| Monitor.TagEntities | monitor.py:78-80 | A list is tagged exactly when all its elements are objects, element by element and in order. Any other value passes only when it is an empty object or string, and then it yields no entities. |
| Monitor.EveryEntityTagged | monitor.py:78-82 | Every entity returned carries `pdf_file` = basename, and otherwise exactly the keys and values the service sent. |
| Monitor.ProcessPdf | monitor.py:62-82 | Stage 2 is called exactly when stage 1 answered, with the stage-2 payload. A result comes back exactly when both stages answered. Entities come back exactly when every entity could be tagged. |
| Monitor.NoEntitiesKey | monitor.py:78 | A response without `entities` yields the empty list. |
| Monitor.AppendToExcel | monitor.py:85-102 | An empty list writes nothing. Otherwise the workbook holds its old rows as a prefix, followed by exactly the entities in order, and no other workbook changes. |
| Monitor.AppendConcat | monitor.py:92-102 | Two appends equal one append of both lists, because nothing separates batches. |
| Monitor.Save | monitor.py:176-178 | Only a non-empty entity list is appended. |
| Monitor.HandleEvent | monitor.py:163-178 | The set and the dispatched path are exactly those of the gate, and nothing is written without a dispatch. |
| Monitor.HandleTagsRows | monitor.py:176-178 | Any rows a notification adds come after the workbook's old rows, and carry the basename of the path dispatched. No other workbook changes. |
| Monitor.EmptyNotWritten | monitor.py:87-89 | A dispatched path whose response holds no entities (no `entities` key, or an empty list, object or string under it) is recorded but writes nothing. |
| Monitor.EmptyEntitiesValues | monitor.py:78-80 | The values under `entities` that give an empty entity list are exactly an empty list, an empty object and an empty string (both directions). |
| Monitor.RunTagsRows | monitor.py:163-178 | Over any sequence of notifications the workbook keeps its old rows as a prefix, and every row added carries the basename of a dispatched path. |
| Monitor.RunRecords | monitor.py:163-178 | Over any sequence of notifications the set and the dispatched paths are the gate's alone, no path reaches `process_pdf` twice, the workbook keeps its old rows as a prefix, and every row added carries the basename of a dispatched path. |

## Left out

- The HTTP calls to the two services (monitor_api.py:28-90, monitor.py:25-59) are not modelled. Each stage is an `Option` input, `None` when the call failed; status codes, latency and exception types are not modelled.
- A service response that decodes to JSON other than an object is not modelled: the responses are objects or `None`.
- The watchdog `Observer`, `main`, `KeyboardInterrupt` handling, logging and printing are not modelled.
- ApiMonitor.Run and Monitor.Run keep handling every later notification after a callback whose `process_pdf` raised (the `Crashed` result). The program does not: the exception escapes the callback (monitor_api.py:240, monitor.py:176) and ends watchdog's observer thread, so no later notification is handled. The model over-approximates here. The program's run is the model's run over the notifications up to and including the first that raises, and the lemmas about `Run` hold for every sequence of notifications, so at-most-once dispatch, the gate reduction and the prefix results cover it.
- The clock and `time.sleep` in `is_file_ready`: a sample sequence and a poll budget stand in for `timeout / check_interval`.
- `datetime.now()`: the date string is a parameter, and the model assumes it contains no '/', as the "%Y-%m-%d" format guarantees.
- The filesystem side of the writes is not modelled: `os.makedirs`, `os.path.exists`, and the xlsx encoding through pandas/openpyxl. A workbook is the sequence of rows it holds; an absent path is a workbook that does not exist yet.
- The order of columns within a row, and so the sheet's column layout, is not modelled. A row is a map from column to value (`Flatten.Cells`, and `Json.Object` in monitor.py's model), while the script builds an ordered dict: `document_type` first, then `file_name`, then each section's keys in the service's order (monitor_api.py:164-189), and monitor.py adds `pdf_file` after the service's keys (monitor.py:80). `pd.DataFrame` takes the column order from these dicts.
- Also not modelled: how pandas orders and unions columns across batches, and whether blank rows at the end of a sheet survive a save-and-reload. The model assumes they do. So the spacer rows count as part of the prefix that DailyStore.WriteKeeps and ApiMonitor.RunKeeps keep only if they survive the reload; if `pd.read_excel` drops them, the prefix kept is the sheet without its trailing spacers.
- Concurrency is not modelled. Callbacks are handled one at a time, in order.
- `Text.LowerChar` lowers ASCII letters only. For the comparisons the scripts make, this decides what Unicode lowering decides, as argued at its definition.
- The commented-out handler in monitor.py:108-157 is dead code and is not modelled.
- The `folder_path` field of `PdfFileHandler` is stored but never read, so the model does not carry it.
