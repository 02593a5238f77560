/** `PdfFileHandler`: the gate between filesystem notifications and
    `process_pdf`. Both scripts carry the same handler; they differ only in
    what happens after a path is dispatched (see modules ApiMonitor and
    Monitor).

    The handler's one piece of state, `processed_files`, is threaded through
    as a value. The `folder_path` field is stored but never read. */
module Watcher {
  import opened Json
  import opened Text
  import Stability

  /** A watchdog notification. `Other` stands for the kinds the handler does
      not override (deleted, opened, closed), whose callbacks do nothing. */
  datatype Event =
    | Created(isDirectory: bool, srcPath: string)
    | Moved(isDirectory: bool, srcPath: string, destPath: string)
    | Modified(isDirectory: bool, srcPath: string)
    | Other(isDirectory: bool, srcPath: string)

  /** The path an event callback hands to `process_file`, if any: directory
      events are ignored, a creation uses its source path, a move its
      destination, and a modification never reaches `process_file`. */
  function Candidate(e: Event): (p: Option<string>)
    ensures p.Some? <==> !e.isDirectory && (e.Created? || e.Moved?)
    ensures p.Some? && e.Created? ==> p.value == e.srcPath
    ensures p.Some? && e.Moved? ==> p.value == e.destPath
  {
    if e.isDirectory then None
    else match e
      case Created(_, src) => Some(src)
      case Moved(_, _, dest) => Some(dest)
      case Modified(_, _) => None
      case Other(_, _) => None
  }

  /** `file_path.lower().endswith(".pdf")` */
  predicate IsPdf(path: string) {
    EndsWith(Lower(path), ".pdf")
  }

  /** The extension test accepts exactly the paths whose last four characters
      are '.', then 'p', 'd', 'f' in either case. */
  lemma IsPdfSpec(path: string)
    ensures IsPdf(path) <==>
      && |path| >= 4
      && path[|path| - 4] == '.'
      && path[|path| - 3] in "pP"
      && path[|path| - 2] in "dD"
      && path[|path| - 1] in "fF"
  {
    var n := |path|;
    if n >= 4 {
      var tail := Lower(path)[n - 4..];
      assert tail[0] == LowerChar(path[n - 4]);
      assert tail[1] == LowerChar(path[n - 3]);
      assert tail[2] == LowerChar(path[n - 2]);
      assert tail[3] == LowerChar(path[n - 1]);
      if IsPdf(path) {
        assert tail == ".pdf";
        assert tail[1] == 'p' && tail[2] == 'd' && tail[3] == 'f';
      }
    }
  }

  /** What the size polls observe during one call of `is_file_ready`. */
  datatype Probe = Probe(samples: seq<Option<nat>>, budget: nat)

  predicate Ready(probe: Probe) {
    Stability.IsFileReady(probe.samples, probe.budget)
  }

  /** Why `process_file` stopped, or that it went on to `process_pdf`. */
  datatype Decision = NotPdf | NotReady | AlreadyProcessed | Dispatch

  /** `process_file` up to the call of `process_pdf`: extension first, then
      the stability wait, then the membership test; a dispatched path is
      recorded before the pipeline runs. */
  function ProcessFile(processed: set<string>, path: string, probe: Probe): (r: (set<string>, Decision))
    ensures r.1 == Dispatch <==> IsPdf(path) && Ready(probe) && path !in processed
    ensures r.1 == NotReady <==> IsPdf(path) && !Ready(probe)
    ensures r.1 == AlreadyProcessed <==> IsPdf(path) && Ready(probe) && path in processed
    ensures r.0 == (if r.1 == Dispatch then processed + {path} else processed)
  {
    if !IsPdf(path) then (processed, NotPdf)
    else if !Ready(probe) then (processed, NotReady)
    else if path in processed then (processed, AlreadyProcessed)
    else (processed + {path}, Dispatch)
  }

  /** The handler's response to one notification: the new set and the path
      handed to `process_pdf`, if one was. */
  function OnEvent(processed: set<string>, e: Event, probe: Probe): (r: (set<string>, Option<string>))
    ensures r.1.Some? <==> Candidate(e).Some? && IsPdf(Candidate(e).value) && Ready(probe) && Candidate(e).value !in processed
    ensures r.1.Some? ==> r.1 == Candidate(e) && r.0 == processed + {r.1.value}
    ensures r.1.None? ==> r.0 == processed
  {
    match Candidate(e)
    case None => (processed, None)
    case Some(path) =>
      var (processed', d) := ProcessFile(processed, path, probe);
      (processed', if d == Dispatch then Some(path) else None)
  }

  /** A notification together with what the size polls observe while it is handled. */
  datatype Arrival = Arrival(event: Event, probe: Probe)

  /** The gate's view of a sequence of richer arrivals: `notice` picks the
      notification out of each one. */
  function Notices<A>(arrivals: seq<A>, notice: A -> Arrival): (r: seq<Arrival>)
    ensures |r| == |arrivals| && forall i :: 0 <= i < |arrivals| ==> r[i] == notice(arrivals[i])
  {
    seq(|arrivals|, i requires 0 <= i < |arrivals| => notice(arrivals[i]))
  }

  /** The handler run over a sequence of notifications, delivered one at a
      time: the final set and the paths dispatched, in order. */
  function Run(processed: set<string>, arrivals: seq<Arrival>): (r: (set<string>, seq<string>))
    decreases |arrivals|
  {
    if |arrivals| == 0 then (processed, [])
    else
      var (processed1, d) := OnEvent(processed, arrivals[0].event, arrivals[0].probe);
      var (processed2, rest) := Run(processed1, arrivals[1..]);
      (processed2, (if d.Some? then [d.value] else []) + rest)
  }

  /** The dispatch record of a run that started from `processed`: no path sent
      twice, none sent that was already processed, every one a PDF path, and
      the final set is the initial one plus exactly the paths sent. */
  ghost predicate SentOnce(processed: set<string>, final: set<string>, sent: seq<string>) {
    && (forall i, j :: 0 <= i < j < |sent| ==> sent[i] != sent[j])
    && (forall i :: 0 <= i < |sent| ==> sent[i] !in processed && IsPdf(sent[i]))
    && final == processed + (set p | p in sent)
  }

  /** At-most-once dispatch: over any sequence of notifications, no path is
      dispatched twice, none that was already processed is dispatched, every
      dispatched path is a PDF path, and `processed_files` only grows, by
      exactly the dispatched paths. */
  lemma {:induction false} RunAtMostOnce(processed: set<string>, arrivals: seq<Arrival>)
    ensures var (final, sent) := Run(processed, arrivals);
      && (forall i, j :: 0 <= i < j < |sent| ==> sent[i] != sent[j])
      && (forall i :: 0 <= i < |sent| ==> sent[i] !in processed && IsPdf(sent[i]))
      && processed <= final
      && final == processed + (set p | p in sent)
    decreases |arrivals|
  {
    if |arrivals| > 0 {
      var (processed1, d) := OnEvent(processed, arrivals[0].event, arrivals[0].probe);
      RunAtMostOnce(processed1, arrivals[1..]);
      var (final, rest) := Run(processed1, arrivals[1..]);
      var sent := (if d.Some? then [d.value] else []) + rest;
      assert Run(processed, arrivals) == (final, sent);
      assert SentOnce(processed1, final, rest);
      if d.Some? {
        assert processed1 == processed + {d.value} && IsPdf(d.value) && d.value !in processed;
        SentOnceCons(processed, d.value, final, rest);
      } else {
        assert processed1 == processed && sent == rest;
      }
    }
  }

  /** One fresh PDF path dispatched ahead of a run that started after it was
      recorded. */
  lemma SentOnceCons(processed: set<string>, p: string, final: set<string>, rest: seq<string>)
    requires p !in processed && IsPdf(p)
    requires SentOnce(processed + {p}, final, rest)
    ensures SentOnce(processed, final, [p] + rest)
  {
    var sent := [p] + rest;
    forall i | 0 <= i < |sent| ensures sent[i] !in processed && IsPdf(sent[i]) {
      if i > 0 { assert sent[i] == rest[i - 1]; }
    }
    forall i, j | 0 <= i < j < |sent| ensures sent[i] != sent[j] {
      assert sent[j] == rest[j - 1];
      if i > 0 { assert sent[i] == rest[i - 1]; }
    }
    assert (set q | q in sent) == {p} + (set q | q in rest);
  }

  /** A path that is not yet stable is not recorded, so a later notification
      for it, once it is stable, dispatches it. */
  lemma NotReadyIsRetried(processed: set<string>, path: string, first: Event, early: Probe, second: Event, later: Probe)
    requires IsPdf(path) && path !in processed
    requires Candidate(first) == Some(path) && Candidate(second) == Some(path)
    requires !Ready(early) && Ready(later)
    ensures var (processed1, d1) := OnEvent(processed, first, early);
      && d1 == None && processed1 == processed
      && OnEvent(processed1, second, later) == (processed + {path}, Some(path))
  {
  }

  /** A stable PDF whose creation is followed by a burst of other
      notifications for it (modifications, a move onto the same name) is
      dispatched exactly once. */
  lemma {:induction false} CreatedThenBurstOnce(processed: set<string>, path: string, probe: Probe, burst: seq<Arrival>)
    requires IsPdf(path) && path !in processed && Ready(probe)
    requires forall k :: 0 <= k < |burst| ==> Candidate(burst[k].event) in {None, Some(path)}
    ensures Run(processed, [Arrival(Created(false, path), probe)] + burst).1 == [path]
  {
    var arrivals := [Arrival(Created(false, path), probe)] + burst;
    assert arrivals[1..] == burst;
    BurstDispatchesNothing(processed + {path}, path, burst);
  }

  lemma {:induction false} BurstDispatchesNothing(processed: set<string>, path: string, burst: seq<Arrival>)
    requires path in processed
    requires forall k :: 0 <= k < |burst| ==> Candidate(burst[k].event) in {None, Some(path)}
    ensures Run(processed, burst) == (processed, [])
    decreases |burst|
  {
    if |burst| > 0 {
      assert Candidate(burst[0].event) in {None, Some(path)};
      assert OnEvent(processed, burst[0].event, burst[0].probe) == (processed, None);
      BurstDispatchesNothing(processed, path, burst[1..]);
      assert Run(processed, burst).0 == processed;
      assert Run(processed, burst).1 == [];
    }
  }
}
