/** The BlueZ backend's push: watching an obexd transfer to completion and accounting for its
    absolute progress reports. D-Bus is an arbitrary sequence of observations. */
module BluezPush {
  import opened Bytes
  import opened Events
  import opened Progress

  /** What one wait for a property change yields: nothing usable (stream ended, poll interval
      passed, arguments unreadable), or new values of the watched properties. */
  datatype Signal = Nothing | Changed(transferred: Option<nat>, status: Option<string>)

  /** One turn of the loop: the `Status` property read at its top, then the wait. */
  datatype Poll = Poll(status: Option<string>, signal: Signal)

  const FAILED: string := "obexd reported transfer error"

  datatype Watched = Watched(result: Result<nat, TransportError>, reports: seq<nat>)

  /** A status that ends the transfer, given the bytes reported so far. */
  function Terminal(status: Option<string>, total: nat, transferred: nat): Option<Watched> {
    if status == Some("complete") then Some(Watched(Ok(Max(total, transferred)), [Max(total, transferred)]))
    else if status == Some("error") then Some(Watched(Err(TransferFailed(transferred, FAILED)), []))
    else None
  }

  /** The watch from some turn on. `polls` are the turns begun before the overall deadline and
      `last` is the status read in the turn that finds the deadline passed. */
  function Watch(total: nat, transferred: nat, polls: seq<Poll>, last: Option<string>): Watched
    decreases |polls|
  {
    if polls == [] then
      match Terminal(last, total, transferred)
      case Some(w) => w
      case None => Watched(Err(Timeout("obex push exceeded 300s")), [])
    else
      match Terminal(polls[0].status, total, transferred)
      case Some(w) => w
      case None =>
        match polls[0].signal
        case Nothing => Watch(total, transferred, polls[1..], last)
        case Changed(bytes, status) =>
          var now := if bytes.Some? then bytes.value else transferred;
          var told := if bytes.Some? then [now] else [];
          match Terminal(status, total, now)
          case Some(w) => w.(reports := told + w.reports)
          case None =>
            var w := Watch(total, now, polls[1..], last);
            w.(reports := told + w.reports)
  }

  /** A watch that had passed on `reports` before. */
  function Told(reports: seq<nat>, w: Watched): Watched {
    w.(reports := reports + w.reports)
  }

  function TopStatus(polls: seq<Poll>, i: nat, last: Option<string>): Option<string> {
    if i < |polls| then polls[i].status else last
  }

  predicate Ends(status: Option<string>) {
    status == Some("complete") || status == Some("error")
  }

  /** The watch at a turn whose top status ends it. */
  lemma WatchEnds(total: nat, transferred: nat, polls: seq<Poll>, i: nat, last: Option<string>, reports: seq<nat>)
    requires i <= |polls| && (i < |polls| ==> Ends(polls[i].status))
    ensures var w := Told(reports, Watch(total, transferred, polls[i..], last));
            var status := TopStatus(polls, i, last);
            && (status == Some("complete") ==> w == Watched(Ok(Max(total, transferred)), reports + [Max(total, transferred)]))
            && (status == Some("error") ==> w == Watched(Err(TransferFailed(transferred, FAILED)), reports))
            && (!Ends(status) ==> w == Watched(Err(Timeout("obex push exceeded 300s")), reports))
  {
    assert reports + [] == reports;
  }

  /** The watch at a turn that waits for a signal. */
  lemma WatchTurn(total: nat, transferred: nat, polls: seq<Poll>, i: nat, last: Option<string>, reports: seq<nat>)
    requires i < |polls| && !Ends(polls[i].status)
    ensures var w := Told(reports, Watch(total, transferred, polls[i..], last));
            match polls[i].signal
            case Nothing => w == Told(reports, Watch(total, transferred, polls[i + 1..], last))
            case Changed(bytes, status) =>
              var now := if bytes.Some? then bytes.value else transferred;
              var told := if bytes.Some? then reports + [now] else reports;
              && (status == Some("complete") ==> w == Watched(Ok(Max(total, now)), told + [Max(total, now)]))
              && (status == Some("error") ==> w == Watched(Err(TransferFailed(now, FAILED)), told))
              && (!Ends(status) ==> w == Told(told, Watch(total, now, polls[i + 1..], last)))
  {
    assert polls[i..][1..] == polls[i + 1..];
    if polls[i].signal.Changed? {
      var bytes := polls[i].signal.transferred;
      var now := if bytes.Some? then bytes.value else transferred;
      var w := Watch(total, now, polls[i + 1..], last);
      assert reports + ([now] + w.reports) == reports + [now] + w.reports;
      assert reports + ([] + w.reports) == reports + w.reports;
      assert reports + ([now] + [Max(total, now)]) == reports + [now] + [Max(total, now)];
      assert reports + ([now] + []) == reports + [now] && reports + ([] + []) == reports;
      assert reports + ([] + [Max(total, now)]) == reports + [Max(total, now)];
    }
  }

  lemma NothingTold(w: Watched)
    ensures Told([], w) == w
  {
  }

  /** `run_transfer`: `reports` is what the progress callback was told. */
  method RunTransfer(total: nat, polls: seq<Poll>, last: Option<string>)
    returns (r: Result<nat, TransportError>, reports: seq<nat>)
    ensures Watched(r, reports) == Watch(total, 0, polls, last)
  {
    hide Watch, Told;
    var transferred: nat := 0;
    var i := 0;
    reports := [];
    assert polls[0..] == polls;
    NothingTold(Watch(total, 0, polls, last));
    while true
      invariant 0 <= i <= |polls|
      invariant Watch(total, 0, polls, last) == Told(reports, Watch(total, transferred, polls[i..], last))
      decreases |polls| - i
    {
      var status := if i < |polls| then polls[i].status else last;
      if i == |polls| || Ends(status) {
        WatchEnds(total, transferred, polls, i, last, reports);
      } else {
        WatchTurn(total, transferred, polls, i, last, reports);
      }
      if status == Some("complete") {
        reports := reports + [Max(total, transferred)];
        return Ok(Max(total, transferred)), reports;
      }
      if status == Some("error") {
        return Err(TransferFailed(transferred, FAILED)), reports;
      }
      if i == |polls| {
        return Err(Timeout("obex push exceeded 300s")), reports;
      }
      var signal := polls[i].signal;
      i := i + 1;
      if signal.Nothing? {
        continue;
      }
      if signal.transferred.Some? {
        transferred := signal.transferred.value;
        reports := reports + [transferred];
      }
      if signal.status == Some("complete") {
        reports := reports + [Max(total, transferred)];
        return Ok(Max(total, transferred)), reports;
      }
      if signal.status == Some("error") {
        return Err(TransferFailed(transferred, FAILED)), reports;
      }
    }
  }

  /** The `Transferred` values observed up to the turn that decides. */
  function Values(polls: seq<Poll>): seq<nat> {
    if polls == [] || Ends(polls[0].status) then []
    else match polls[0].signal
      case Nothing => Values(polls[1..])
      case Changed(bytes, status) =>
        (if bytes.Some? then [bytes.value] else []) + (if Ends(status) then [] else Values(polls[1..]))
  }

  /** The callback is told those values and, on completion, once more the larger of the last one and
      the announced size. */
  lemma {:induction false} ReportsAreValues(total: nat, transferred: nat, polls: seq<Poll>, last: Option<string>)
    ensures var w := Watch(total, transferred, polls, last);
            var end := Last(transferred, Values(polls));
            && w.reports == Values(polls) + (if w.result.Ok? then [Max(total, end)] else [])
            && match w.result
               case Ok(bytes) => bytes == Max(total, end)
               case Err(TransferFailed(bytes, _)) => bytes == end
               case Err(e) => e.Timeout?
    decreases |polls|
  {
    if polls != [] && !Ends(polls[0].status) {
      var signal := polls[0].signal;
      var now := if signal.Changed? && signal.transferred.Some? then signal.transferred.value else transferred;
      ReportsAreValues(total, now, polls[1..], last);
      assert [now] + [] == [now];
    }
  }

  /** A completed transfer returns its last report, which is at least the announced size; a failed
      one carries the last report as its byte count. */
  lemma {:induction false} WatchReports(total: nat, transferred: nat, polls: seq<Poll>, last: Option<string>)
    ensures var w := Watch(total, transferred, polls, last);
            match w.result
            case Ok(bytes) => w.reports != [] && bytes == Last(transferred, w.reports) >= total
            case Err(TransferFailed(bytes, _)) => bytes == Last(transferred, w.reports)
            case Err(e) => e.Timeout?
    decreases |polls|
  {
    if polls != [] && Terminal(polls[0].status, total, transferred).None? {
      var signal := polls[0].signal;
      var now := if signal.Changed? && signal.transferred.Some? then signal.transferred.value else transferred;
      WatchReports(total, now, polls[1..], last);
    }
  }

  /** Setting a transfer up over D-Bus: obexd's `Size` property, zero when it is missing, or the error
      of a call that failed. */
  type Setup = Result<nat, TransportError>

  function ObjectPush(setup: Setup, polls: seq<Poll>, last: Option<string>): Watched {
    match setup
    case Ok(size) => Watch(size, 0, polls, last)
    case Err(e) => Watched(Err(e), [])
  }

  /** `object_push`. */
  method RunObjectPush(setup: Setup, polls: seq<Poll>, last: Option<string>)
    returns (r: Result<nat, TransportError>, reports: seq<nat>)
    ensures Watched(r, reports) == ObjectPush(setup, polls, last)
  {
    match setup
    case Ok(size) => r, reports := RunTransfer(size, polls, last);
    case Err(e) => r, reports := Err(e), [];
  }

  class BluezBackend {
    var log: seq<Kind>  // kinds of the events emitted so far, in order

    constructor ()
      ensures log == []
    {
      log := [];
    }

    method Emit(kind: Kind)
      modifies this
      ensures log == old(log) + [kind]
    {
      log := log + [kind];
    }

    /** The progress callback, applied to the reports in order. */
    method OnProgress(reports: seq<nat>, total: nat) returns (chunks: nat)
      modifies this
      ensures log == old(log) + DeltaEvents(0, reports, total, true)
      ensures chunks == Advances(0, reports)
    {
      var last: nat := 0;
      chunks := 0;
      for i := 0 to |reports|
        invariant last == Last(0, reports[..i])
        invariant log == old(log) + DeltaEvents(0, reports[..i], total, true)
        invariant chunks == ChunkCount(DeltaEvents(0, reports[..i], total, true))
      {
        var transferred := reports[i];
        assert reports[..i + 1] == reports[..i] + [transferred];
        DeltaEventsAppend(0, reports[..i], transferred, total, true);
        ReportBytes(last, transferred, total, true);
        ChunksAppend(DeltaEvents(0, reports[..i], total, true), ReportEvents(last, transferred, total, true));
        var delta := Max(transferred - last, 0);
        last := transferred;
        if delta > 0 {
          chunks := chunks + 1;
          Emit(DataChunk(Outbound, delta));
        }
        Emit(TransferProgress(transferred, total));
      }
      assert reports[..|reports|] == reports;
      DeltasTelescope(0, reports, total, true);
    }

    /** `push_file` over the observations of one transfer. `staging` is the error of staging the file,
        if that fails; `setup` is what setting the transfer up came to. */
    method PushFile(name: string, len: nat, staging: Option<string>, setup: Setup, polls: seq<Poll>,
                    last: Option<string>, duration: nat)
      returns (r: Result<Receipt, TransportError>)
      modifies this
      ensures staging.Some? ==> log == old(log) && r == Err(Backend("staging temp file: " + staging.value))
      ensures staging.None? ==>
              var w := ObjectPush(setup, polls, last);
              var moved := [TransferStarted(name, len)] + DeltaEvents(0, w.reports, len, true);
              match w.result
              case Ok(bytes) =>
                && log == old(log) + moved + [TransferCompleted(bytes, duration)]
                && r == Ok(Receipt(name, bytes, Max(Advances(0, w.reports), 1), duration))
              case Err(e) =>
                && log == old(log) + moved + [Error(ErrorText(e))]
                && r == Err(e)
    {
      hide DeltaEvents, Watch, ErrorText;
      if staging.Some? {
        return Err(Backend("staging temp file: " + staging.value));
      }
      Emit(TransferStarted(name, len));
      var result, reports := RunObjectPush(setup, polls, last);
      var chunks := OnProgress(reports, len);
      match result
      case Ok(bytes) =>
        Emit(TransferCompleted(bytes, duration));
        return Ok(Receipt(name, bytes, Max(chunks, 1), duration));
      case Err(e) =>
        Emit(Error(ErrorText(e)));
        return Err(e);
    }
  }

  /** The statuses read, in order: at the top of each turn, then in its signal; at last the one read
      in the turn that finds the deadline passed. */
  function Statuses(polls: seq<Poll>, last: Option<string>): seq<Option<string>> {
    if polls == [] then [last]
    else
      [polls[0].status] + (match polls[0].signal case Nothing => [] case Changed(_, status) => [status])
      + Statuses(polls[1..], last)
  }

  /** The first status of either kind, in a list of them. */
  function Verdict(statuses: seq<Option<string>>): Option<string> {
    if statuses == [] then None
    else if statuses[0] == Some("complete") || statuses[0] == Some("error") then statuses[0]
    else Verdict(statuses[1..])
  }

  lemma VerdictCons(s: Option<string>, more: seq<Option<string>>)
    ensures Verdict([s] + more) == if s == Some("complete") || s == Some("error") then s else Verdict(more)
  {
    assert ([s] + more)[1..] == more;
  }

  /** The first status that is `complete` or `error` decides how a transfer ends; without one it times
      out. */
  lemma {:induction false} FirstStatusDecides(total: nat, transferred: nat, polls: seq<Poll>, last: Option<string>)
    ensures var r := Watch(total, transferred, polls, last).result;
            match Verdict(Statuses(polls, last))
            case None => r == Err(Timeout("obex push exceeded 300s"))
            case Some(status) =>
              && (status == "complete" ==> r.Ok?)
              && (status == "error" ==> r.Err? && r.error.TransferFailed? && r.error.reason == "obexd reported transfer error")
              && (status == "complete" || status == "error")
    decreases |polls|
  {
    hide Verdict;
    if polls == [] {
      NoVerdict();
      VerdictCons(last, []);
      assert [last] + [] == [last];
    } else {
      var signal := polls[0].signal;
      var rest := Statuses(polls[1..], last);
      var inner := match signal case Nothing => [] case Changed(_, status) => [status];
      assert Statuses(polls, last) == [polls[0].status] + (inner + rest);
      VerdictCons(polls[0].status, inner + rest);
      if signal.Changed? {
        VerdictCons(signal.status, rest);
      } else {
        assert inner + rest == rest;
      }
      var now := if signal.Changed? && signal.transferred.Some? then signal.transferred.value else transferred;
      FirstStatusDecides(total, now, polls[1..], last);
    }
  }

  lemma NoVerdict()
    ensures Verdict([]) == None
  {
  }

  /** The chunk events never fall short of the bytes a push ends with, whether it completes, with at
      least the announced size, or fails; and they add up to them exactly when none of the
      `Transferred` values observed went back. Every report is passed on as progress. A transfer that
      cannot be set up moves nothing and ends with that error. */
  lemma BluezAccounting(setup: Setup, polls: seq<Poll>, last: Option<string>, len: nat)
    ensures var w, vs := ObjectPush(setup, polls, last), Values(polls);
            var events := DeltaEvents(0, w.reports, len, true);
            var bytes := ChunkBytes(events);
            && ChunkCount(events) == Advances(0, w.reports)
            && ProgressOf(events) == WithTotal(w.reports, len)
            && (setup.Err? ==> w.result == setup && events == [])
            && (setup.Ok? ==>
                  match w.result
                  case Ok(end) =>
                    end == Max(setup.value, Last(0, vs)) && bytes >= end && (bytes == end <==> Steady(vs))
                  case Err(TransferFailed(end, _)) =>
                    end == Last(0, vs) && bytes >= end && (bytes == end <==> Steady(vs))
                  case Err(e) =>
                    e.Timeout? && bytes >= Last(0, vs) && (bytes == Last(0, vs) <==> Steady(vs)))
  {
    hide Watch, Values, DeltaEvents, Nondecreasing, ChunkBytes, ChunkCount, ProgressOf, Passed, WithTotal;
    var w, vs := ObjectPush(setup, polls, last), Values(polls);
    ReportsPassedOn(0, w.reports, len, true);
    AllPassed(0, w.reports);
    DeltasTelescope(0, w.reports, len, true);
    NothingMoved(len);
    if setup.Ok? {
      ReportsAreValues(setup.value, 0, polls, last);
      NondecreasingIs(0, vs);
      NondecreasingMore(0, vs, Max(setup.value, Last(0, vs)));
      assert vs + [] == vs;
    }
  }

  lemma NothingMoved(len: nat)
    ensures DeltaEvents(0, [], len, true) == []
  {
  }

  /** A report that goes back is counted again when the bytes come in a second time. */
  lemma GoingBackDoubleCounts()
    ensures var polls := [Poll(None, Changed(Some(10), None)), Poll(None, Changed(Some(4), Some("complete")))];
            var w := Watch(10, 0, polls, None);
            && w == Watched(Ok(10), [10, 4, 10])
            && ChunkBytes(DeltaEvents(0, w.reports, 10, true)) == 16
  {
    var second := [Poll(None, Changed(Some(4), Some("complete")))];
    var polls := [Poll(None, Changed(Some(10), None))] + second;
    assert polls[1..] == second;
    assert Watch(10, 10, second, None) == Watched(Ok(10), [4, 10]);
    DeltaSteps();
  }

  lemma DeltaSteps()
    ensures ChunkBytes(DeltaEvents(0, [10, 4, 10], 10, true)) == 16
  {
    assert [10, 4, 10][1..] == [4, 10] && [4, 10][1..] == [10] && [10][1..] == [];
    ReportBytes(0, 10, 10, true);
    ReportBytes(10, 4, 10, true);
    ReportBytes(4, 10, 10, true);
    assert DeltaEvents(10, [], 10, true) == [];
    assert DeltaEvents(4, [10], 10, true) == ReportEvents(4, 10, 10, true) + [];
    assert DeltaEvents(10, [4, 10], 10, true) == ReportEvents(10, 4, 10, true) + DeltaEvents(4, [10], 10, true);
    ChunksAppend(ReportEvents(4, 10, 10, true), []);
    ChunksAppend(ReportEvents(10, 4, 10, true), DeltaEvents(4, [10], 10, true));
    ChunksAppend(ReportEvents(0, 10, 10, true), DeltaEvents(10, [4, 10], 10, true));
  }
}
