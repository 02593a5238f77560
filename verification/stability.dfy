/** The stability wait `is_file_ready`: poll the file's size until two
    consecutive polls agree, give up when the timeout runs out or the size
    lookup raises.

    The clock is not modelled. `samples[i]` is what the i-th call of
    `os.path.getsize` returns (`None` when it raises) and `budget` is the
    number of polls the `timeout` / `check_interval` pair leaves room for;
    a sample sequence shorter than the budget means the deadline came first. */
module Stability {
  import opened Json

  function Min(a: nat, b: nat): nat {
    if a <= b then a else b
  }

  /** The polls that happen before the deadline. */
  function Polls(samples: seq<Option<nat>>, budget: nat): nat {
    Min(budget, |samples|)
  }

  /** Poll `i` succeeds, so do all polls before it, and it repeats the size
      seen just before it (`last` when it is the first poll). */
  ghost predicate RepeatsAt(samples: seq<Option<nat>>, last: int, i: nat)
    requires i < |samples|
  {
    && (forall j :: 0 <= j <= i ==> samples[j].Some?)
    && samples[i].value == (if i == 0 then last else samples[i - 1].value)
  }

  /** The polling loop, entered with `last_size == last`. It answers true
      exactly when some poll within the budget repeats the size before it,
      with no failed lookup on the way. */
  function WaitUntilStable(samples: seq<Option<nat>>, budget: nat, last: int): (ready: bool)
    ensures ready <==> exists i :: 0 <= i < Polls(samples, budget) && RepeatsAt(samples, last, i)
    decreases budget
  {
    if budget == 0 || |samples| == 0 then false
    else match samples[0]
      case None => false
      case Some(size) =>
        if size == last then
          assert RepeatsAt(samples, last, 0);
          true
        else
          ShiftRepeats(samples, budget, last);
          WaitUntilStable(samples[1..], budget - 1, size)
  }

  /** Dropping the first poll, whose size becomes the new `last`, shifts
      every later repeat down by one. */
  lemma ShiftRepeats(samples: seq<Option<nat>>, budget: nat, last: int)
    requires budget > 0 && |samples| > 0 && samples[0].Some? && samples[0].value != last
    ensures (exists i :: 0 <= i < Polls(samples, budget) && RepeatsAt(samples, last, i))
        <==> (exists i :: 0 <= i < Polls(samples[1..], budget - 1) && RepeatsAt(samples[1..], samples[0].value, i))
  {
    var rest := samples[1..];
    var size := samples[0].value;
    if i :| 0 <= i < Polls(samples, budget) && RepeatsAt(samples, last, i) {
      assert i > 0;
      assert RepeatsAt(rest, size, i - 1) by {
        forall j | 0 <= j <= i - 1 ensures rest[j].Some? {
          assert rest[j] == samples[j + 1];
        }
      }
    }
    if i :| 0 <= i < Polls(rest, budget - 1) && RepeatsAt(rest, size, i) {
      assert RepeatsAt(samples, last, i + 1) by {
        forall j | 0 <= j <= i + 1 ensures samples[j].Some? {
          if j > 0 { assert samples[j] == rest[j - 1]; }
        }
      }
    }
  }

  /** `is_file_ready`, which starts from `last_size = -1`. */
  function IsFileReady(samples: seq<Option<nat>>, budget: nat): bool {
    WaitUntilStable(samples, budget, -1)
  }

  /** The file is ready exactly when two consecutive polls within the budget
      report the same size and no lookup failed before them. The first poll
      can never match on its own, since no size equals -1. */
  lemma IsFileReadySpec(samples: seq<Option<nat>>, budget: nat)
    ensures IsFileReady(samples, budget) <==>
      exists i :: 1 <= i < Polls(samples, budget)
        && (forall j :: 0 <= j <= i ==> samples[j].Some?)
        && samples[i] == samples[i - 1]
  {
    if IsFileReady(samples, budget) {
      var i :| 0 <= i < Polls(samples, budget) && RepeatsAt(samples, -1, i);
      assert i != 0;
      assert samples[i] == samples[i - 1];
    }
    if i :| (1 <= i < Polls(samples, budget)
             && (forall j :: 0 <= j <= i ==> samples[j].Some?)
             && samples[i] == samples[i - 1]) {
      assert RepeatsAt(samples, -1, i);
    }
  }

  /** A lookup error on the first poll, or a budget that allows a single
      poll, means the file is never ready. */
  lemma NotReadyCases(samples: seq<Option<nat>>, budget: nat)
    requires budget <= 1 || (|samples| > 0 && samples[0].None?)
    ensures !IsFileReady(samples, budget)
  {
    IsFileReadySpec(samples, budget);
  }

  /** A file whose first two polls agree is ready if the budget allows two polls. */
  lemma SteadyFileReady(samples: seq<Option<nat>>, budget: nat, size: nat)
    requires budget >= 2 && |samples| >= 2 && samples[0] == samples[1] == Some(size)
    ensures IsFileReady(samples, budget)
  {
    IsFileReadySpec(samples, budget);
    assert forall j :: 0 <= j <= 1 ==> samples[j].Some?;
  }
}
