/** Turning absolute progress reports into per-delta events, as the Android and BlueZ backends
    both do in their progress callbacks. */
module Progress {
  import opened Bytes
  import opened Events

  function Last(prev: nat, reports: seq<nat>): nat {
    if reports == [] then prev else reports[|reports| - 1]
  }

  predicate Nondecreasing(prev: nat, reports: seq<nat>)
    decreases |reports|
  {
    reports == [] || (prev <= reports[0] && Nondecreasing(reports[0], reports[1..]))
  }

  /** No report is smaller than an earlier one. */
  predicate Steady(reports: seq<nat>) {
    forall i, j :: 0 <= i < j < |reports| ==> reports[i] <= reports[j]
  }

  lemma {:induction false} NondecreasingIs(prev: nat, reports: seq<nat>)
    ensures Nondecreasing(prev, reports) <==> (reports == [] || prev <= reports[0]) && Steady(reports)
    decreases |reports|
  {
    if reports != [] {
      var rest := reports[1..];
      NondecreasingIs(reports[0], rest);
      assert forall j :: 0 < j < |reports| ==> reports[j] == rest[j - 1];
    }
  }

  /** One more report, not below the last. */
  lemma {:induction false} NondecreasingMore(prev: nat, reports: seq<nat>, next: nat)
    requires next >= Last(prev, reports)
    ensures Nondecreasing(prev, reports + [next]) <==> Nondecreasing(prev, reports)
    decreases |reports|
  {
    if reports == [] {
      assert reports + [next] == [next] && [next][1..] == [];
    } else {
      assert (reports + [next])[1..] == reports[1..] + [next];
      NondecreasingMore(reports[0], reports[1..], next);
    }
  }

  /** How many reports go beyond the one before. */
  function Advances(prev: nat, reports: seq<nat>): nat
    decreases |reports|
  {
    if reports == [] then 0 else (if reports[0] > prev then 1 else 0) + Advances(reports[0], reports[1..])
  }

  /** The events of one report: a chunk for the saturated difference when it is positive, and a
      progress event, always or only along with a chunk. */
  function ReportEvents(prev: nat, report: nat, total: nat, always: bool): seq<Kind> {
    if report > prev then [DataChunk(Outbound, report - prev), TransferProgress(report, total)]
    else if always then [TransferProgress(report, total)]
    else []
  }

  function DeltaEvents(prev: nat, reports: seq<nat>, total: nat, always: bool): seq<Kind>
    decreases |reports|
  {
    if reports == [] then []
    else ReportEvents(prev, reports[0], total, always) + DeltaEvents(reports[0], reports[1..], total, always)
  }

  lemma {:induction false} DeltaEventsAppend(prev: nat, reports: seq<nat>, next: nat, total: nat, always: bool)
    ensures DeltaEvents(prev, reports + [next], total, always)
         == DeltaEvents(prev, reports, total, always) + ReportEvents(Last(prev, reports), next, total, always)
    decreases |reports|
  {
    if reports == [] {
      assert reports + [next] == [next] && [next][1..] == [];
      assert DeltaEvents(next, [next][1..], total, always) == [];
    } else {
      assert (reports + [next])[1..] == reports[1..] + [next];
      DeltaEventsAppend(reports[0], reports[1..], next, total, always);
      assert Last(reports[0], reports[1..]) == Last(prev, reports);
    }
  }

  lemma ReportBytes(prev: nat, report: nat, total: nat, always: bool)
    ensures ChunkBytes(ReportEvents(prev, report, total, always)) == Max(report - prev, 0)
    ensures ChunkCount(ReportEvents(prev, report, total, always)) == if report > prev then 1 else 0
  {
    if report > prev {
      ChunksOne(DataChunk(Outbound, report - prev));
      ChunksAppend([DataChunk(Outbound, report - prev)], [TransferProgress(report, total)]);
    }
    ChunksOne(TransferProgress(report, total));
  }

  /** The deltas never fall short of the last report, and they add up to it exactly when no report
      was smaller than the one before. */
  lemma {:induction false} DeltasTelescope(prev: nat, reports: seq<nat>, total: nat, always: bool)
    ensures prev + ChunkBytes(DeltaEvents(prev, reports, total, always)) >= Last(prev, reports)
    ensures prev + ChunkBytes(DeltaEvents(prev, reports, total, always)) == Last(prev, reports)
       <==> Nondecreasing(prev, reports)
    ensures ChunkCount(DeltaEvents(prev, reports, total, always)) == Advances(prev, reports)
    decreases |reports|
  {
    if reports != [] {
      DeltasTelescope(reports[0], reports[1..], total, always);
      ReportBytes(prev, reports[0], total, always);
      ChunksAppend(ReportEvents(prev, reports[0], total, always),
                   DeltaEvents(reports[0], reports[1..], total, always));
      assert Last(reports[0], reports[1..]) == Last(prev, reports);
    }
  }

  /** The progress a list of events reports: bytes so far and the total. */
  function ProgressOf(ks: seq<Kind>): seq<(nat, nat)> {
    if ks == [] then []
    else (if ks[0].TransferProgress? then [(ks[0].transferred, ks[0].total)] else []) + ProgressOf(ks[1..])
  }

  lemma {:induction false} ProgressAppend(a: seq<Kind>, b: seq<Kind>)
    ensures ProgressOf(a + b) == ProgressOf(a) + ProgressOf(b)
  {
    if a == [] {
      assert a + b == b;
    } else {
      assert (a + b)[1..] == a[1..] + b;
      ProgressAppend(a[1..], b);
    }
  }

  /** The reports that go beyond the one before, or all of them. */
  function Passed(prev: nat, reports: seq<nat>, all: bool): seq<nat>
    decreases |reports|
  {
    if reports == [] then []
    else (if all || reports[0] > prev then [reports[0]] else []) + Passed(reports[0], reports[1..], all)
  }

  function WithTotal(reports: seq<nat>, total: nat): seq<(nat, nat)> {
    seq(|reports|, i requires 0 <= i < |reports| => (reports[i], total))
  }

  lemma {:induction false} AllPassed(prev: nat, reports: seq<nat>)
    ensures Passed(prev, reports, true) == reports
    decreases |reports|
  {
    if reports != [] {
      AllPassed(reports[0], reports[1..]);
    }
  }

  /** Every report, or every one that advances, gives one progress event with its own value and the
      file's size; all chunks are outbound, and there are no other events. */
  lemma {:induction false} ReportsPassedOn(prev: nat, reports: seq<nat>, total: nat, always: bool)
    ensures ProgressOf(DeltaEvents(prev, reports, total, always)) == WithTotal(Passed(prev, reports, always), total)
    ensures forall k <- DeltaEvents(prev, reports, total, always) ::
              k.TransferProgress? || (k.DataChunk? && k.direction == Outbound)
    decreases |reports|
  {
    if reports != [] {
      var first := ReportEvents(prev, reports[0], total, always);
      var later := DeltaEvents(reports[0], reports[1..], total, always);
      ReportsPassedOn(reports[0], reports[1..], total, always);
      ProgressAppend(first, later);
      ReportPassedOn(prev, reports[0], total, always);
      var head := if always || reports[0] > prev then [reports[0]] else [];
      assert WithTotal(head + Passed(reports[0], reports[1..], always), total)
          == WithTotal(head, total) + WithTotal(Passed(reports[0], reports[1..], always), total);
    }
  }

  lemma ReportPassedOn(prev: nat, report: nat, total: nat, always: bool)
    ensures ProgressOf(ReportEvents(prev, report, total, always))
         == WithTotal(if always || report > prev then [report] else [], total)
  {
    var ks := ReportEvents(prev, report, total, always);
    assert ProgressOf([TransferProgress(report, total)]) == [(report, total)] + ProgressOf([]);
    if report > prev {
      assert ks[1..] == [TransferProgress(report, total)];
    }
  }

  /** What a backend hands back for a completed push. */
  datatype Receipt = Receipt(name: string, bytes: nat, chunks: nat, duration: nat)
}
