/**
 * Job-status polling of PrintKiosk.do_print: after submission the kiosk asks
 * CUPS for its job list once per second, forever, until a snapshot decides
 * the job's fate. Each answer of `getJobs()` is a snapshot; the model takes
 * the finite sequence of snapshots observed so far.
 *
 * The state codes are the IPP `job-state` values of section 5.3.7 of
 * RFC 8011: 9 is "completed" and 8 is "aborted", which the kiosk reports as a
 * cancelled job. Every other code (including 7, "canceled") keeps polling.
 */
module JobPolling {

  const JobCompleted: int := 9
  const JobAborted: int := 8

  /** One answer of `getJobs()`: job identifier to `job-state`, or a failed query. */
  datatype Snapshot = Listed(jobs: map<int, int>) | QueryFailed

  /** How a decisive snapshot ends the job. */
  datatype JobEnd =
    | Completed    // the job is no longer listed, or its state is 9
    | Cancelled    // its state is 8 ("Print job cancelled")
    | QueryError   // `getJobs()` raised

  /** The outcome of polling a finite run of snapshots. */
  datatype PollResult = Ended(end: JobEnd, at: nat) | StillPolling

  /** A snapshot after which the loop does not poll again. */
  predicate Decisive(jobId: int, s: Snapshot) {
    match s
    case QueryFailed => true
    case Listed(jobs) => jobId !in jobs || jobs[jobId] == JobCompleted || jobs[jobId] == JobAborted
  }

  function EndOf(jobId: int, s: Snapshot): JobEnd
    requires Decisive(jobId, s)
  {
    match s
    case QueryFailed => QueryError
    case Listed(jobs) =>
      if jobId !in jobs || jobs[jobId] == JobCompleted then Completed else Cancelled
  }

  /** Reference definition of the loop, one snapshot at a time. */
  function PollOutcome(jobId: int, snaps: seq<Snapshot>): PollResult
    decreases |snaps|
  {
    if snaps == [] then StillPolling
    else if Decisive(jobId, snaps[0]) then Ended(EndOf(jobId, snaps[0]), 0)
    else match PollOutcome(jobId, snaps[1..])
      case StillPolling => StillPolling
      case Ended(e, k) => Ended(e, k + 1)
  }

  /** "The first decisive snapshot is at index i, ending the job as e." */
  ghost predicate FirstDecisiveAt(jobId: int, snaps: seq<Snapshot>, i: nat, e: JobEnd) {
    && i < |snaps|
    && Decisive(jobId, snaps[i])
    && EndOf(jobId, snaps[i]) == e
    && forall j :: 0 <= j < i ==> !Decisive(jobId, snaps[j])
  }

  ghost predicate NoneDecisive(jobId: int, snaps: seq<Snapshot>) {
    forall j :: 0 <= j < |snaps| ==> !Decisive(jobId, snaps[j])
  }

  /** Polling ends at the first decisive snapshot, and only there; it goes on while none is decisive. */
  lemma {:induction false} PollOutcomeIsFirstDecisive(jobId: int, snaps: seq<Snapshot>)
    ensures PollOutcome(jobId, snaps) == StillPolling <==> NoneDecisive(jobId, snaps)
    ensures forall i: nat, e :: PollOutcome(jobId, snaps) == Ended(e, i) <==> FirstDecisiveAt(jobId, snaps, i, e)
    decreases |snaps|
  {
    if snaps != [] && !Decisive(jobId, snaps[0]) {
      var rest := snaps[1..];
      PollOutcomeIsFirstDecisive(jobId, rest);
      assert forall j :: 0 < j < |snaps| ==> snaps[j] == rest[j - 1];
      forall i: nat, e
        ensures PollOutcome(jobId, snaps) == Ended(e, i) <==> FirstDecisiveAt(jobId, snaps, i, e)
      {
        if FirstDecisiveAt(jobId, snaps, i, e) {
          assert i > 0;
          assert FirstDecisiveAt(jobId, rest, i - 1, e);
        }
        if i > 0 && PollOutcome(jobId, rest) == Ended(e, i - 1) {
          assert FirstDecisiveAt(jobId, rest, i - 1, e);
        }
      }
      if NoneDecisive(jobId, rest) {
        assert NoneDecisive(jobId, snaps);
      }
    }
  }

  /**
   * The kiosk's `while True` loop over the snapshots it receives: stop with
   * success when the job is gone or completed, with an error when it is
   * aborted or the query fails, and poll again otherwise.
   */
  method PollJob(jobId: int, snaps: seq<Snapshot>) returns (r: PollResult)
    ensures r == PollOutcome(jobId, snaps)
    ensures r == StillPolling <==> NoneDecisive(jobId, snaps)
    ensures r.Ended? ==> FirstDecisiveAt(jobId, snaps, r.at, r.end)
  {
    var i := 0;
    while i < |snaps|
      invariant 0 <= i <= |snaps|
      invariant forall j :: 0 <= j < i ==> !Decisive(jobId, snaps[j])
    {
      match snaps[i]
      case QueryFailed =>
        r := Ended(QueryError, i);
        break;
      case Listed(jobs) =>
        if jobId !in jobs {
          r := Ended(Completed, i);
          break;
        }
        var state := jobs[jobId];
        if state == JobCompleted {
          r := Ended(Completed, i);
          break;
        } else if state == JobAborted {
          r := Ended(Cancelled, i);
          break;
        }
      i := i + 1;
    }
    if i == |snaps| {
      r := StillPolling;
    }
    PollOutcomeIsFirstDecisive(jobId, snaps);
  }

  /** A job that is pending, then processing, then completed ends at the third poll. */
  lemma CompletesAfterProcessing(jobId: int)
    ensures PollOutcome(jobId, [Listed(map[jobId := 3]), Listed(map[jobId := 5]), Listed(map[jobId := 9])])
         == Ended(Completed, 2)
  {
    var snaps := [Listed(map[jobId := 3]), Listed(map[jobId := 5]), Listed(map[jobId := 9])];
    assert snaps[1..][1..] == [Listed(map[jobId := 9])];
    assert PollOutcome(jobId, snaps[1..][1..]) == Ended(Completed, 0);
  }

  /**
   * A job that leaves the list without a completed code counts as completed,
   * even after CUPS reported it as canceled (state 7).
   */
  lemma {:induction false} PurgedJobCountsAsCompleted(jobId: int, before: seq<Snapshot>, jobs: map<int, int>, after: seq<Snapshot>)
    requires NoneDecisive(jobId, before)
    requires jobId !in jobs
    ensures PollOutcome(jobId, before + [Listed(jobs)] + after) == Ended(Completed, |before|)
  {
    var snaps := before + [Listed(jobs)] + after;
    PollOutcomeIsFirstDecisive(jobId, snaps);
    assert snaps[|before|] == Listed(jobs);
    assert forall j :: 0 <= j < |before| ==> snaps[j] == before[j];
    assert FirstDecisiveAt(jobId, snaps, |before|, Completed);
  }
}
