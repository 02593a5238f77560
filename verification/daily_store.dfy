/** The write half of monitor_api.py's `append_to_excel`: every non-empty
    category list becomes a batch of flattened rows appended, with two blank
    spacer rows, to that category's workbook in the day's output folder.

    The filesystem is a map from workbook path to the rows of its sheet; a
    path that is absent is a workbook that does not exist yet. */
module DailyStore {
  import opened Json
  import opened Text
  import Flatten
  import ApiPipeline
  import opened Sheets

  type Row = Flatten.Row
  type Store = map<string, seq<Row>>

  /** `pd.DataFrame([{} for _ in range(2)])` holds two rows with no cells. */
  const Spacer: Row := Flatten.Blank

  /** `os.path.join(base_output_folder, f"excel_output_{today}")` */
  function DailyFolder(base: string, today: string): string {
    Join(base, "excel_output_" + today)
  }

  /** `os.path.join(daily_folder, f"{doc_type}_output.xlsx")` */
  function Target(folder: string, tag: string): string {
    Join(folder, tag + "_output.xlsx")
  }

  function OutputPath(base: string, today: string, tag: string): string {
    Target(DailyFolder(base, today), tag)
  }

  /** The workbook path, split at the '/' that ends the folder name. */
  lemma OutputPathSplit(base: string, today: string, tag: string)
    requires '/' !in today
    requires |tag| == 0 || tag[0] != '/'
    ensures OutputPath(base, today, tag) == (JoinPrefix(base) + "excel_output_") + today + ("/" + (tag + "_output.xlsx"))
  {
    var folder := DailyFolder(base, today);
    var name := tag + "_output.xlsx";
    JoinRelative(base, "excel_output_" + today);
    assert folder == JoinPrefix(base) + "excel_output_" + today;
    assert folder[|folder| - 1] != '/' by {
      if |today| > 0 { assert folder[|folder| - 1] == today[|today| - 1]; }
    }
    assert name[0] != '/';
    assert Target(folder, tag) == folder + "/" + name;
  }

  /** For a date with no '/' (the "%Y-%m-%d" format has none) and a tag that
      is not an absolute path, the workbook is
      `<base>/excel_output_<today>/<tag>_output.xlsx`, with the separator
      after `base` left out when `base` is empty or already ends in '/'. */
  lemma OutputPathShape(base: string, today: string, tag: string)
    requires '/' !in today
    requires |tag| == 0 || tag[0] != '/'
    ensures OutputPath(base, today, tag) == JoinPrefix(base) + "excel_output_" + today + "/" + tag + "_output.xlsx"
  {
    OutputPathSplit(base, today, tag);
  }

  /** Different days, or different categories, never share a workbook. */
  lemma OutputPathInjective(base: string, d1: string, t1: string, d2: string, t2: string)
    requires '/' !in d1 && '/' !in d2
    requires |t1| == 0 || t1[0] != '/'
    requires |t2| == 0 || t2[0] != '/'
    ensures OutputPath(base, d1, t1) == OutputPath(base, d2, t2) <==> d1 == d2 && t1 == t2
  {
    if OutputPath(base, d1, t1) == OutputPath(base, d2, t2) {
      OutputPathSplit(base, d1, t1);
      OutputPathSplit(base, d2, t2);
      var n1, n2 := t1 + "_output.xlsx", t2 + "_output.xlsx";
      SplitAtSlash(JoinPrefix(base) + "excel_output_", d1, "/" + n1, d2, "/" + n2);
      assert n1 == ("/" + n1)[1..] == ("/" + n2)[1..] == n2;
      assert t1 == n1[..|t1|];
      assert t2 == n2[..|t2|];
    }
  }

  /** `pd.concat([df_existing, df_new])` where `df_new` is the flattened batch
      followed by two spacer rows. */
  function AppendBatch(existing: seq<Row>, rows: seq<Row>): (r: seq<Row>)
    ensures |r| == |existing| + |rows| + 2
    ensures r[..|existing|] == existing
    ensures r[|existing|..|existing| + |rows|] == rows
    ensures r[|existing| + |rows|] == Spacer && r[|existing| + |rows| + 1] == Spacer
  {
    existing + rows + [Spacer, Spacer]
  }

  /** Two batches appended one after the other keep both, each closed by its
      own pair of spacer rows. */
  lemma AppendTwice(existing: seq<Row>, b1: seq<Row>, b2: seq<Row>)
    ensures AppendBatch(AppendBatch(existing, b1), b2) == existing + b1 + [Spacer, Spacer] + b2 + [Spacer, Spacer]
  {
  }

  /** The inner loop over one category's entities: the flattened rows in
      input order, or the exception the first malformed entity raises. */
  function FlattenAll(tag: string, entities: seq<ApiPipeline.Entity>): (r: Result<seq<Row>>)
    ensures r.Ok? <==> forall i :: 0 <= i < |entities| ==> Flatten.FlattenEntity(tag, entities[i]).Ok?
    ensures r.Ok? ==> |r.value| == |entities|
    ensures r.Ok? ==> forall i :: 0 <= i < |entities| ==> r.value[i] == Flatten.FlattenEntity(tag, entities[i]).value
  {
    var calls := seq(|entities|, i requires 0 <= i < |entities| => Flatten.FlattenEntity(tag, entities[i]));
    assert forall i :: 0 <= i < |entities| ==> calls[i] == Flatten.FlattenEntity(tag, entities[i]);
    Collect(calls)
  }

  /** The loop over the categories, in dict order, writing into `folder`. A
      category with no entities is skipped; an exception while flattening
      ends the whole loop (one `try` encloses it), leaving the workbooks
      written so far. The flag says whether the loop ran to the end. */
  function WriteCategories(cats: ApiPipeline.Categories, folder: string, store: Store): (r: (Store, bool))
    decreases |cats|
  {
    if |cats| == 0 then (store, true)
    else
      var (tag, entities) := cats[0];
      if |entities| == 0 then WriteCategories(cats[1..], folder, store)
      else match FlattenAll(tag, entities)
        case Raised => (store, false)
        case Ok(rows) =>
          var path := Target(folder, tag);
          WriteCategories(cats[1..], folder, store[path := AppendBatch(Existing(store, path), rows)])
  }

  /** How a call of `append_to_excel` ended. */
  datatype Outcome = NothingToSave | Written | Failed

  /** `append_to_excel(entities, base_output_folder)` on the day `today`. */
  function AppendToExcel(cats: ApiPipeline.Categories, base: string, today: string, store: Store): (r: (Store, Outcome))
    ensures |cats| == 0 <==> r.1 == NothingToSave
    ensures r.1 == NothingToSave ==> r.0 == store
  {
    if |cats| == 0 then (store, NothingToSave)
    else
      var (store', completed) := WriteCategories(cats, DailyFolder(base, today), store);
      (store', if completed then Written else Failed)
  }

  /** The workbooks a category list can touch: its non-empty categories'. */
  function Targets(cats: ApiPipeline.Categories, folder: string): (t: set<string>)
    decreases |cats|
  {
    if |cats| == 0 then {}
    else (if |cats[0].1| > 0 then {Target(folder, cats[0].0)} else {}) + Targets(cats[1..], folder)
  }

  lemma {:induction false} TargetsMembers(cats: ApiPipeline.Categories, folder: string, path: string)
    ensures path in Targets(cats, folder) <==>
      exists k :: 0 <= k < |cats| && |cats[k].1| > 0 && path == Target(folder, cats[k].0)
    decreases |cats|
  {
    if |cats| > 0 {
      TargetsMembers(cats[1..], folder, path);
      if path in Targets(cats[1..], folder) {
        var k :| 0 <= k < |cats[1..]| && |cats[1..][k].1| > 0 && path == Target(folder, cats[1..][k].0);
        assert cats[k + 1] == cats[1..][k];
      }
      if exists k :: 0 <= k < |cats| && |cats[k].1| > 0 && path == Target(folder, cats[k].0) {
        var k :| 0 <= k < |cats| && |cats[k].1| > 0 && path == Target(folder, cats[k].0);
        if k > 0 { assert cats[1..][k - 1] == cats[k]; }
      }
    }
  }

  /** Write scope: a workbook that is not the target of a non-empty category
      is neither created nor changed. */
  lemma {:induction false} WriteScope(cats: ApiPipeline.Categories, folder: string, store: Store, path: string)
    requires path !in Targets(cats, folder)
    ensures var store' := WriteCategories(cats, folder, store).0;
      && (path in store' <==> path in store)
      && (path in store ==> store'[path] == store[path])
    decreases |cats|
  {
    if |cats| > 0 {
      var (tag, entities) := cats[0];
      if |entities| == 0 {
        WriteScope(cats[1..], folder, store, path);
      } else if FlattenAll(tag, entities).Ok? {
        var target := Target(folder, tag);
        WriteScope(cats[1..], folder, store[target := AppendBatch(Existing(store, target), FlattenAll(tag, entities).value)], path);
      }
    }
  }

  /** No rows are ever dropped: every workbook keeps its old rows as a prefix. */
  lemma {:induction false} WriteKeeps(cats: ApiPipeline.Categories, folder: string, store: Store, path: string)
    requires path in store
    ensures var store' := WriteCategories(cats, folder, store).0;
      path in store' && Extends(store[path], store'[path])
    decreases |cats|
  {
    if |cats| > 0 {
      var (tag, entities) := cats[0];
      if |entities| == 0 {
        WriteKeeps(cats[1..], folder, store, path);
      } else if FlattenAll(tag, entities).Ok? {
        var target := Target(folder, tag);
        var next := store[target := AppendBatch(Existing(store, target), FlattenAll(tag, entities).value)];
        WriteKeeps(cats[1..], folder, next, path);
        var final := WriteCategories(cats[1..], folder, next).0;
        assert Extends(store[path], next[path]);
        ExtendsTransitive(store[path], next[path], final[path]);
      } else {
        assert WriteCategories(cats, folder, store).0 == store;
      }
    } else {
      ExtendsRefl(store[path]);
    }
  }

  /** Category k holds an entity that does not flatten. */
  ghost predicate Malformed(cats: ApiPipeline.Categories, k: int) {
    0 <= k < |cats| && |cats[k].1| > 0 && FlattenAll(cats[k].0, cats[k].1).Raised?
  }

  lemma MalformedShift(cats: ApiPipeline.Categories)
    requires |cats| > 0
    ensures (exists k :: Malformed(cats, k)) <==> Malformed(cats, 0) || exists k :: Malformed(cats[1..], k)
  {
    if exists k :: Malformed(cats, k) {
      var k :| Malformed(cats, k);
      if k > 0 { assert cats[1..][k - 1] == cats[k]; assert Malformed(cats[1..], k - 1); }
    }
    if exists k :: Malformed(cats[1..], k) {
      var k :| Malformed(cats[1..], k);
      assert cats[k + 1] == cats[1..][k];
      assert Malformed(cats, k + 1);
    }
  }

  /** The loop fails exactly when some non-empty category holds an entity
      that does not flatten. */
  lemma {:induction false} WriteFails(cats: ApiPipeline.Categories, folder: string, store: Store)
    ensures !WriteCategories(cats, folder, store).1 <==> exists k :: Malformed(cats, k)
    decreases |cats|
  {
    if |cats| > 0 {
      var (tag, entities) := cats[0];
      MalformedShift(cats);
      if |entities| == 0 {
        WriteFails(cats[1..], folder, store);
      } else if FlattenAll(tag, entities).Ok? {
        var target := Target(folder, tag);
        WriteFails(cats[1..], folder, store[target := AppendBatch(Existing(store, target), FlattenAll(tag, entities).value)]);
      }
    }
  }

  /** A category list with nothing in it writes nothing and completes. */
  lemma {:induction false} WriteNothing(cats: ApiPipeline.Categories, folder: string, store: Store)
    requires forall j :: 0 <= j < |cats| ==> |cats[j].1| == 0
    ensures WriteCategories(cats, folder, store) == (store, true)
    decreases |cats|
  {
    if |cats| > 0 {
      assert forall j :: 0 <= j < |cats[1..]| ==> cats[1..][j] == cats[j + 1];
      WriteNothing(cats[1..], folder, store);
    }
  }

  /** A category list whose only non-empty category is k, and whose entities
      all flatten, appends exactly that batch, with its spacers, to that
      category's workbook and touches nothing else. */
  lemma {:induction false} WriteSingle(cats: ApiPipeline.Categories, folder: string, store: Store, k: nat)
    requires k < |cats| && |cats[k].1| > 0
    requires forall j :: 0 <= j < |cats| && j != k ==> |cats[j].1| == 0
    requires FlattenAll(cats[k].0, cats[k].1).Ok?
    ensures var target := Target(folder, cats[k].0);
      WriteCategories(cats, folder, store)
        == (store[target := AppendBatch(Existing(store, target), FlattenAll(cats[k].0, cats[k].1).value)], true)
    decreases |cats|
  {
    if k == 0 {
      var target := Target(folder, cats[0].0);
      var next := store[target := AppendBatch(Existing(store, target), FlattenAll(cats[0].0, cats[0].1).value)];
      assert forall j :: 0 <= j < |cats[1..]| ==> cats[1..][j] == cats[j + 1];
      WriteNothing(cats[1..], folder, next);
    } else {
      assert |cats[0].1| == 0;
      assert forall j :: 0 <= j < |cats[1..]| ==> cats[1..][j] == cats[j + 1];
      WriteSingle(cats[1..], folder, store, k - 1);
    }
  }

  /** A category dict holding a single entity, which flattens, appends that
      one row and the two spacers to its category's workbook for the day. */
  lemma AppendSingle(cats: ApiPipeline.Categories, base: string, today: string, store: Store, k: nat, e: ApiPipeline.Entity)
    requires k < |cats| && cats[k].1 == [e]
    requires forall j :: 0 <= j < |cats| && j != k ==> |cats[j].1| == 0
    requires Flatten.FlattenEntity(cats[k].0, e).Ok?
    ensures var target := OutputPath(base, today, cats[k].0);
      AppendToExcel(cats, base, today, store)
        == (store[target := Existing(store, target) + [Flatten.FlattenEntity(cats[k].0, e).value, Spacer, Spacer]], Written)
  {
    var target := OutputPath(base, today, cats[k].0);
    var row := Flatten.FlattenEntity(cats[k].0, e).value;
    assert FlattenAll(cats[k].0, cats[k].1).value == [row];
    WriteSingle(cats, DailyFolder(base, today), store, k);
    assert AppendBatch(Existing(store, target), [row]) == Existing(store, target) + [row, Spacer, Spacer];
  }

  /** The three categories of process_pdf, written into any folder, go to
      three different workbooks. */
  lemma TargetsDistinct(folder: string)
    ensures forall i, j :: 0 <= i < j < 3 ==> Target(folder, ApiPipeline.Tags[i]) != Target(folder, ApiPipeline.Tags[j])
  {
    forall i, j | 0 <= i < j < 3 ensures Target(folder, ApiPipeline.Tags[i]) != Target(folder, ApiPipeline.Tags[j]) {
      var n1, n2 := ApiPipeline.Tags[i] + "_output.xlsx", ApiPipeline.Tags[j] + "_output.xlsx";
      assert n1 != n2 by {
        assert n1[0] != n2[0] || |n1| != |n2|;
      }
      JoinRelativeInjective(folder, n1, n2);
    }
  }
}
