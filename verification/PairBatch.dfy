/** The pairing workflow: one device with retries, and many devices in rounds over the concurrent
    fan-out of PairRound. A backend's answers may depend on the device and on how often that device
    has been asked, and on nothing else. */
module PairBatch {
  import opened Bytes
  import opened Events
  import opened Sums
  import opened PairRound

  datatype PairReport = PairReport(outcome: Bond, attempts: nat)

  type Report = Result<PairReport, TransportError>

  datatype PairItem = PairItem(id: DeviceId, outcome: Report, attempts: nat)

  datatype PairOptions = PairOptions(retries: nat, spoofLocal: Option<BdAddr>)

  datatype BatchOptions = BatchOptions(concurrency: Option<nat>, rounds: nat, perDevice: PairOptions)

  const U32_MAX: nat := 0xFFFF_FFFF

  /** `retries.saturating_add(1)`. */
  function Limit(retries: nat): (limit: nat)
    ensures limit >= 1
  {
    Min(retries + 1, U32_MAX)
  }

  function ReportOf(t: Tried): Report {
    match t.result
    case Ok(outcome) => Ok(PairReport(outcome, t.calls))
    case Err(e) => Err(e)
  }

  // ---------------------------------------------------------------- one device, all rounds

  /** A device that has been through some rounds on its own: its latest outcome, the rounds that
      attempted it, the backend calls made, and whether another round would attempt it. */
  datatype Alone = Alone(outcome: Report, attempts: nat, calls: nat, pending: bool)

  const NOT_ATTEMPTED: Report := Err(PairingFailure("not attempted"))

  function After(o: Oracle, d: DeviceId, from: nat, limit: nat, rounds: nat): Alone
    requires limit >= 1
  {
    if rounds == 0 then Alone(NOT_ATTEMPTED, 0, 0, true)
    else
      var a := After(o, d, from, limit, rounds - 1);
      if !a.pending then a
      else
        var t := Try(o, d, from + a.calls, limit);
        Alone(ReportOf(t), a.attempts + 1, a.calls + t.calls, !Conclusive(t.result))
  }

  lemma {:induction false} AfterStable(o: Oracle, d: DeviceId, from: nat, limit: nat, r: nat, rounds: nat)
    requires limit >= 1 && r <= rounds && !After(o, d, from, limit, r).pending
    ensures After(o, d, from, limit, rounds) == After(o, d, from, limit, r)
  {
    if r < rounds {
      AfterStable(o, d, from, limit, r, rounds - 1);
    }
  }

  /** Where `a` stands after `rounds` rounds, in terms of the plain sequence of backend results. */
  ghost predicate Stands(o: Oracle, d: DeviceId, from: nat, limit: nat, rounds: nat, a: Alone) {
    && a.attempts <= rounds && AllTransient(o, d, from, Max(a.calls - 1, 0))
    && (a.calls == 0 <==> rounds == 0) && (rounds == 0 ==> a.pending)
    && (a.calls > 0 ==>
          var last := o(d, from + a.calls - 1);
          && a.pending == !Conclusive(last)
          && limit * (a.attempts - 1) < a.calls <= limit * a.attempts
          && a.outcome == ReportOf(Tried(last, a.calls - limit * (a.attempts - 1))))
    && (a.pending ==> a.attempts == rounds && a.calls == limit * rounds && AllTransient(o, d, from, a.calls))
  }

  /** One more round: a decided device stays, a pending one is tried again. */
  lemma AfterOneMore(o: Oracle, d: DeviceId, from: nat, limit: nat, rounds: nat)
    requires limit >= 1 && rounds >= 1
    ensures var a := After(o, d, from, limit, rounds - 1);
            var t := Try(o, d, from + a.calls, limit);
            var b := Alone(ReportOf(t), a.attempts + 1, a.calls + t.calls, !Conclusive(t.result));
            After(o, d, from, limit, rounds) == if a.pending then b else a
  {
  }

  lemma {:induction false} AfterStands(o: Oracle, d: DeviceId, from: nat, limit: nat, rounds: nat)
    requires limit >= 1
    ensures Stands(o, d, from, limit, rounds, After(o, d, from, limit, rounds))
  {
    hide After, Try, ReportOf, Conclusive;
    if rounds == 0 {
      NoRounds(o, d, from, limit);
    } else {
      AfterStands(o, d, from, limit, rounds - 1);
      AfterOneMore(o, d, from, limit, rounds);
      var a := After(o, d, from, limit, rounds - 1);
      if a.pending {
        var t := Try(o, d, from + a.calls, limit);
        TryShape(o, d, from + a.calls, limit);
        assert limit * rounds == limit * (rounds - 1) + limit;
      }
    }
  }

  lemma NoRounds(o: Oracle, d: DeviceId, from: nat, limit: nat)
    requires limit >= 1
    ensures Stands(o, d, from, limit, 0, After(o, d, from, limit, 0))
  {
  }

  /** The nested loops flatten: rounds of `limit` attempts are one loop over `rounds * limit` calls.
      Its outcome is the first conclusive result among them, else the last error; no call follows a
      conclusive one; and `attempts` is the number of calls over `limit`, rounded up. */
  lemma RoundsFlatten(o: Oracle, d: DeviceId, from: nat, limit: nat, rounds: nat)
    requires limit >= 1 && rounds >= 1
    ensures rounds * limit >= 1
    ensures var a := After(o, d, from, limit, rounds);
            var t := Try(o, d, from, rounds * limit);
            && a.calls == t.calls
            && a.pending == !Conclusive(t.result)
            && limit * (a.attempts - 1) < t.calls <= limit * a.attempts
            && match t.result
               case Ok(bond) => a.outcome == Ok(PairReport(bond, t.calls - limit * (a.attempts - 1)))
               case Err(e) => a.outcome == Err(e)
  {
    hide Conclusive, Try, After, AllTransient;
    AfterStands(o, d, from, limit, rounds);
    StandsInOneLoop(o, d, from, limit, rounds, After(o, d, from, limit, rounds));
  }

  lemma StandsInOneLoop(o: Oracle, d: DeviceId, from: nat, limit: nat, rounds: nat, a: Alone)
    requires limit >= 1 && rounds >= 1 && Stands(o, d, from, limit, rounds, a)
    ensures rounds * limit >= 1 && a.calls >= 1
    ensures Try(o, d, from, rounds * limit) == Tried(o(d, from + a.calls - 1), a.calls)
  {
    hide Conclusive, Try;
    Products(limit, a.attempts, rounds);
    TryIs(o, d, from, rounds * limit, a.calls);
  }

  lemma Products(k: nat, a: nat, b: nat)
    requires a <= b
    ensures k * a <= k * b == b * k
    ensures k >= 1 && b >= 1 ==> b * k >= 1
  {
  }

  // ---------------------------------------------------------------- targets

  /** Targets without repetitions, in first-seen order. */
  function Dedup(targets: seq<DeviceId>): seq<DeviceId> {
    if targets == [] then []
    else
      var init := Dedup(targets[..|targets| - 1]);
      var t := targets[|targets| - 1];
      if t in init then init else init + [t]
  }

  function FirstIndex(targets: seq<DeviceId>, d: DeviceId): (i: nat)
    requires d in targets
    ensures i < |targets| && targets[i] == d && forall j :: 0 <= j < i ==> targets[j] != d
  {
    if targets[0] == d then 0 else 1 + FirstIndex(targets[1..], d)
  }

  /** Appending a target moves no first occurrence. */
  lemma FirstInFront(front: seq<DeviceId>, t: DeviceId)
    ensures forall d <- front :: FirstIndex(front + [t], d) == FirstIndex(front, d)
    ensures t !in front ==> FirstIndex(front + [t], t) == |front|
  {
    hide FirstIndex;
    var targets := front + [t];
    forall d | d in front
      ensures FirstIndex(targets, d) == FirstIndex(front, d)
    {
      var i, k := FirstIndex(targets, d), FirstIndex(front, d);
      assert targets[k] == d && forall j :: 0 <= j < k ==> targets[j] == front[j];
      assert i < |front| ==> front[i] == d;
    }
    assert t !in front ==> forall j :: 0 <= j < |front| ==> targets[j] != t;
  }

  lemma {:induction false} DedupMembers(targets: seq<DeviceId>)
    ensures Distinct(Dedup(targets)) && forall d :: d in Dedup(targets) <==> d in targets
  {
    if targets != [] {
      var n := |targets| - 1;
      DedupMembers(targets[..n]);
      assert targets == targets[..n] + [targets[n]];
    }
  }

  /** Ordered by where each was first seen. */
  predicate FirstSeenOrder(targets: seq<DeviceId>, order: seq<DeviceId>)
    requires forall d <- order :: d in targets
  {
    forall i, j :: 0 <= i < j < |order| ==> FirstIndex(targets, order[i]) < FirstIndex(targets, order[j])
  }

  /** One entry per distinct target, ordered by where each was first seen. */
  lemma {:induction false} DedupCorrect(targets: seq<DeviceId>)
    ensures var order := Dedup(targets);
            && Distinct(order)
            && (forall d :: d in order <==> d in targets)
            && FirstSeenOrder(targets, order)
  {
    hide FirstIndex, Distinct;
    DedupMembers(targets);
    if targets != [] {
      var n := |targets| - 1;
      var front := targets[..n];
      DedupCorrect(front);
      FirstInFront(front, targets[n]);
      assert targets == front + [targets[n]];
      var order := Dedup(front);
      assert forall i :: 0 <= i < |order| ==> order[i] in front;
    }
  }

  /** A result that settles a device: success, a refusal, or an unknown device. Every other error is worth
      another try. */
  predicate Settles(r: PairResult) {
    match r
    case Ok(_) => true
    case Err(PairingRejected(_)) => true
    case Err(DeviceNotFound(_)) => true
    case Err(_) => false
  }

  /** One device in numbers: of the `retries + 1` calls of each of the rounds, at most 2^32 - 1 in each, it
      gets as many as it takes to settle it; the outcome is that of the last, with the place of that call
      in its round; and the attempts are the rounds begun. */
  lemma ItemInNumbers(o: Oracle, log0: seq<Op>, retries: nat, rounds: nat, d: DeviceId) returns (n: nat)
    requires rounds >= 1
    ensures var limit := Min(retries + 1, 0xFFFF_FFFF);
            var item := ItemAfter(o, log0, limit, rounds, d);
            var from := Calls(log0, d);
            && 1 <= n <= rounds * limit && CallsAfterRounds(o, log0, limit, rounds, d) == from + n
            && (forall i :: from <= i < from + n - 1 ==> !Settles(o(d, i)))
            && (n < rounds * limit ==> Settles(o(d, from + n - 1)))
            && item.id == d && limit * (item.attempts - 1) < n <= limit * item.attempts
            && item.outcome == match o(d, from + n - 1)
                               case Ok(bond) => Ok(PairReport(bond, n - limit * (item.attempts - 1)))
                               case Err(e) => Err(e)
  {
    hide After, Try, Calls;
    var limit, from := Min(retries + 1, 0xFFFF_FFFF), Calls(log0, d);
    RoundsFlatten(o, d, from, limit, rounds);
    TryShape(o, d, from, rounds * limit);
    n := Try(o, d, from, rounds * limit).calls;
  }

  // ---------------------------------------------------------------- the backend

  class PairBackend {
    const oracle: Oracle
    const kind: string
    const maxConcurrent: nat  // the backend's own limit on concurrent pairings
    const canSpoof: bool
    const addressError: Option<TransportError>  // what programming the local address comes back with
    var log: seq<Op>
    var running: nat  // pair calls begun and not completed
    var peak: nat  // the most there have been at once

    constructor (oracle: Oracle, kind: string, maxConcurrent: nat, canSpoof: bool, addressError: Option<TransportError>)
      ensures this.oracle == oracle && this.kind == kind && this.maxConcurrent == maxConcurrent
      ensures this.canSpoof == canSpoof && this.addressError == addressError && log == []
      ensures running == 0 && peak == 0
    {
      this.oracle, this.kind, this.maxConcurrent := oracle, kind, maxConcurrent;
      this.canSpoof, this.addressError := canSpoof, addressError;
      log, running, peak := [], 0, 0;
    }

    method BeginPair(d: DeviceId)
      modifies this
      ensures log == old(log) + [Pair(d)]
      ensures running == old(running) + 1 && peak == Max(old(peak), running)
    {
      log := log + [Pair(d)];
      running := running + 1;
      peak := Max(peak, running);
    }

    method CompletePair(d: DeviceId) returns (r: PairResult)
      requires running > 0
      modifies this
      ensures r == oracle(d, Max(Calls(log, d) - 1, 0))
      ensures log == old(log) && running == old(running) - 1 && peak == old(peak)
    {
      running := running - 1;
      r := oracle(d, Max(Calls(log, d) - 1, 0));
    }

    /** Programs the address asked for, if any; fails without doing anything where that is not possible. */
    method ApplySpoof(spoof: Option<BdAddr>) returns (e: Option<TransportError>)
      modifies this
      ensures running == old(running) && peak == old(peak)
      ensures spoof.None? ==> log == old(log) && e == None
      ensures spoof.Some? && !canSpoof ==> log == old(log) && e == Some(Unsupported(kind, "set_local_address"))
      ensures spoof.Some? && canSpoof ==> log == old(log) + [SetAddress(spoof.value)] && e == addressError
    {
      if spoof.None? {
        return None;
      }
      if !canSpoof {
        return Some(Unsupported(kind, "set_local_address"));
      }
      log := log + [SetAddress(spoof.value)];
      return addressError;
    }
  }

  /** `n` pair calls for one device. */
  function Repeated(d: DeviceId, n: nat): seq<Op> {
    seq(n, _ => Pair(d))
  }

  // ---------------------------------------------------------------- one device

  /** Pairs with one target, retrying transient failures, one call at a time. An address asked for is
      programmed first; where that is not possible or fails there is no pair call. */
  method PairDevice(backend: PairBackend, target: DeviceId, options: PairOptions) returns (r: Report)
    modifies backend
    ensures backend.running == old(backend.running) && backend.peak <= Max(old(backend.peak), old(backend.running) + 1)
    ensures options.spoofLocal.Some? && !backend.canSpoof ==>
              r == Err(Unsupported(backend.kind, "set_local_address")) && backend.log == old(backend.log)
    ensures options.spoofLocal.Some? && backend.canSpoof && backend.addressError.Some? ==>
              && r == Err(backend.addressError.value)
              && backend.log == old(backend.log) + [SetAddress(options.spoofLocal.value)]
    ensures options.spoofLocal.None? || (backend.canSpoof && backend.addressError.None?) ==>
              var limit := Min(options.retries + 1, 0xFFFF_FFFF);
              var t := Try(backend.oracle, target, Calls(old(backend.log), target), limit);
              var first := if options.spoofLocal.Some? then [SetAddress(options.spoofLocal.value)] else [];
              r == ReportOf(t) && backend.log == old(backend.log) + first + Repeated(target, t.calls)
  {
    hide Try, Conclusive, Calls, AllTransient;
    var e := backend.ApplySpoof(options.spoofLocal);
    if e.Some? {
      return Err(e.value);
    }
    ghost var base := backend.log;
    ghost var from := Calls(old(backend.log), target);
    SpoofIsNoCall(old(backend.log), options.spoofLocal);
    var maxAttempts := Limit(options.retries);
    var lastErr: Option<TransportError> := None;
    var attempt := 1;
    assert AllTransient(backend.oracle, target, from, 0) by {
      NothingTransient(backend.oracle, target, from);
    }
    while attempt <= maxAttempts
      invariant 1 <= attempt <= maxAttempts + 1
      invariant backend.log == base + Repeated(target, attempt - 1)
      invariant backend.running == old(backend.running)
      invariant backend.peak <= Max(old(backend.peak), old(backend.running) + 1)
      invariant Calls(backend.log, target) == from + attempt - 1
      invariant AllTransient(backend.oracle, target, from, attempt - 1)
      invariant attempt > 1 ==> backend.oracle(target, from + attempt - 2) == Err(if lastErr.Some? then lastErr.value else Timeout(""))
      invariant attempt > 1 ==> lastErr.Some?
    {
      CallsPush(backend.log, Pair(target), target);
      backend.BeginPair(target);
      var result := backend.CompletePair(target);
      assert backend.log == base + Repeated(target, attempt);
      Classify(result);
      OneMoreTransient(backend.oracle, target, from, attempt);
      match result
      case Ok(outcome) =>
        TryIs(backend.oracle, target, from, maxAttempts, attempt);
        return Ok(PairReport(outcome, attempt));
      case Err(err) =>
        if err.PairingRejected? || err.DeviceNotFound? {
          TryIs(backend.oracle, target, from, maxAttempts, attempt);
          return Err(err);
        }
        lastErr := Some(err);
      attempt := attempt + 1;
    }
    FewerTransient(backend.oracle, target, from, maxAttempts);
    TryIs(backend.oracle, target, from, maxAttempts, maxAttempts);
    return Err(lastErr.value);
  }

  lemma OneMoreTransient(o: Oracle, d: DeviceId, from: nat, n: nat)
    requires n >= 1 && AllTransient(o, d, from, n - 1)
    ensures AllTransient(o, d, from, n) <==> !Conclusive(o(d, from + n - 1))
  {
    hide Conclusive;
  }

  lemma FewerTransient(o: Oracle, d: DeviceId, from: nat, n: nat)
    requires n >= 1 && AllTransient(o, d, from, n)
    ensures AllTransient(o, d, from, n - 1)
  {
    hide Conclusive;
  }

  lemma NothingTransient(o: Oracle, d: DeviceId, from: nat)
    ensures AllTransient(o, d, from, 0)
  {
  }

  lemma Classify(r: PairResult)
    ensures Conclusive(r) <==> r.Ok? || r.error.PairingRejected? || r.error.DeviceNotFound?
  {
  }

  // ---------------------------------------------------------------- many devices

  function Busy(f: Flight): int {
    if f.busy then 1 else 0
  }

  lemma NobodyBusy()
    ensures Sum([], Busy) == 0
  {
  }

  lemma {:induction false} BusyBounds(flight: seq<Flight>)
    ensures 0 <= Sum(flight, Busy) <= |flight|
  {
    if flight != [] {
      BusyBounds(flight[1..]);
    }
  }

  lemma BusyStarts(flight: seq<Flight>, id: DeviceId)
    ensures Sum(flight + [Flight(id, 0, false)], Busy) == Sum(flight, Busy)
  {
    SumAppend(flight, [Flight(id, 0, false)], Busy);
    SumOne(Flight(id, 0, false), Busy);
  }

  lemma BusyTurns(flight: seq<Flight>, i: nat, f: Flight)
    requires i < |flight|
    ensures Sum(flight[i := f], Busy) == Sum(flight, Busy) - Busy(flight[i]) + Busy(f) <= |flight|
    ensures Sum(flight, Busy) >= Busy(flight[i])
  {
    SumUpdate(flight, i, f, Busy);
    BusyBounds(flight[i := f]);
    BusyLeaves(flight, i);
  }

  lemma BusyLeaves(flight: seq<Flight>, i: nat)
    requires i < |flight|
    ensures Sum(Without(flight, i), Busy) == Sum(flight, Busy) - Busy(flight[i]) >= 0
    ensures |Without(flight, i)| == |flight| - 1
  {
    SumRemove(flight, i, Busy);
    BusyBounds(Without(flight, i));
  }

  /** One round over `pending`, with an arbitrary scheduler: any enabled step may be next. At most
      `active` pair calls are under way at once. */
  method RunRound(backend: PairBackend, pending: seq<DeviceId>, active: nat, limit: nat) returns (done: seq<Finished>)
    requires active >= 1 && limit >= 1 && Distinct(pending)
    modifies backend
    ensures RoundResult(backend.oracle, limit, old(backend.log), pending, done, backend.log)
    ensures backend.running == old(backend.running)
    ensures backend.peak <= Max(old(backend.peak), old(backend.running) + active)
  {
    hide Inv, RoundResult, Work, Conclusive, Calls, Distinct, Sum, Without;
    NobodyBusy();
    var queue := pending;
    var flight: seq<Flight> := [];
    done := [];
    ghost var s := Init(pending, backend.log);
    InitInv(backend.oracle, limit, backend.log, pending, active);
    InvWithinLimit(backend.oracle, limit, backend.log, s, pending, active);
    while queue != [] || flight != []
      invariant s == Round(queue, flight, done, backend.log)
      invariant Inv(backend.oracle, limit, old(backend.log), s, pending, active)
      invariant WithinLimit(limit, s) && Work(limit, s) >= 0
      invariant |flight| <= active && backend.running == old(backend.running) + Sum(flight, Busy)
      invariant backend.peak <= Max(old(backend.peak), old(backend.running) + active)
      decreases Work(limit, s)
    {
      ghost var step;
      if {
        case queue != [] && |flight| < active =>
          step := Start;
          BusyStarts(flight, queue[0]);
          flight := flight + [Flight(queue[0], 0, false)];
          queue := queue[1..];
        case flight != [] =>
          var i :| 0 <= i < |flight|;
          var f := flight[i];
          if !f.busy {
            step := Begin(i);
            BusyTurns(flight, i, Flight(f.id, f.made + 1, true));
            backend.BeginPair(f.id);
            flight := flight[i := Flight(f.id, f.made + 1, true)];
          } else {
            step := Complete(i);
            BusyTurns(flight, i, f.(busy := false));
            BusyLeaves(flight, i);
            var r := backend.CompletePair(f.id);
            if Conclusive(r) || f.made >= limit {
              flight := Without(flight, i);
              done := done + [Finished(f.id, Tried(r, f.made))];
            } else {
              flight := flight[i := f.(busy := false)];
            }
          }
      }
      StepInv(backend.oracle, limit, old(backend.log), s, pending, active, step);
      StepProgress(backend.oracle, limit, s, active, step);
      s := Apply(backend.oracle, limit, s, active, step);
      InvWithinLimit(backend.oracle, limit, old(backend.log), s, pending, active);
    }
    FinishedRound(backend.oracle, limit, old(backend.log), s, pending, active);
  }

  /** What a target's item is after `rounds` rounds. */
  function ItemAfter(o: Oracle, log0: seq<Op>, limit: nat, rounds: nat, d: DeviceId): PairItem
    requires limit >= 1
  {
    var a := After(o, d, Calls(log0, d), limit, rounds);
    PairItem(d, a.outcome, a.attempts)
  }

  function CallsAfterRounds(o: Oracle, log0: seq<Op>, limit: nat, rounds: nat, d: DeviceId): nat
    requires limit >= 1
  {
    Calls(log0, d) + After(o, d, Calls(log0, d), limit, rounds).calls
  }

  function PendingAfter(o: Oracle, log0: seq<Op>, limit: nat, rounds: nat, d: DeviceId): bool
    requires limit >= 1
  {
    After(o, d, Calls(log0, d), limit, rounds).pending
  }

  /** The batch after some rounds: every target's item and call count are what that target would
      have on its own, and the pending ones are those that another round would attempt. */
  ghost predicate BatchState(o: Oracle, limit: nat, log0: seq<Op>, rounds: nat, order: seq<DeviceId>,
                             results: map<DeviceId, PairItem>, pending: seq<DeviceId>, log: seq<Op>)
    requires limit >= 1
  {
    && Distinct(pending)
    && (forall d :: d in results <==> d in order)
    && (forall d <- order :: results[d] == ItemAfter(o, log0, limit, rounds, d))
    && (forall d <- order :: Calls(log, d) == CallsAfterRounds(o, log0, limit, rounds, d))
    && (forall d :: d in pending <==> d in order && PendingAfter(o, log0, limit, rounds, d))
    && (forall d :: d !in order ==> Calls(log, d) == Calls(log0, d))
  }

  /** The step from one round to the next, for one device that the round attempted. */
  lemma OneMoreRound(o: Oracle, limit: nat, log0: seq<Op>, r: nat, d: DeviceId, before: seq<Op>, after: seq<Op>, e: Finished)
    requires limit >= 1 && e.id == d
    requires PendingAfter(o, log0, limit, r, d)
    requires Calls(before, d) == CallsAfterRounds(o, log0, limit, r, d)
    requires AsAlone(o, limit, before, after, e)
    ensures ItemAfter(o, log0, limit, r + 1, d)
         == PairItem(d, ReportOf(e.tried), ItemAfter(o, log0, limit, r, d).attempts + 1)
    ensures Calls(after, d) == CallsAfterRounds(o, log0, limit, r + 1, d)
    ensures PendingAfter(o, log0, limit, r + 1, d) == !Conclusive(e.tried.result)
  {
  }

  lemma AlreadyDecided(o: Oracle, limit: nat, log0: seq<Op>, r: nat, d: DeviceId)
    requires limit >= 1 && !PendingAfter(o, log0, limit, r, d)
    ensures ItemAfter(o, log0, limit, r + 1, d) == ItemAfter(o, log0, limit, r, d)
    ensures CallsAfterRounds(o, log0, limit, r + 1, d) == CallsAfterRounds(o, log0, limit, r, d)
    ensures !PendingAfter(o, log0, limit, r + 1, d)
  {
  }

  /** What the results of a round come to: each of its devices has its new outcome and one attempt
      more, the others are as they were, and the retryable failures are next. */
  ghost predicate Collected(results0: map<DeviceId, PairItem>, done: seq<Finished>,
                            results: map<DeviceId, PairItem>, next: seq<DeviceId>)
    requires forall e <- done :: e.id in results0
  {
    && results.Keys == results0.Keys
    && (forall e <- done :: results[e.id] == PairItem(results0[e.id].id, ReportOf(e.tried), results0[e.id].attempts + 1))
    && (forall d <- results0 :: (forall e <- done :: e.id != d) ==> results[d] == results0[d])
    && Distinct(next)
    && (forall d :: d in next <==> exists e <- done :: e.id == d && !Conclusive(e.tried.result))
  }

  lemma CollectedOne(results0: map<DeviceId, PairItem>, done: seq<Finished>, e: Finished,
                     results: map<DeviceId, PairItem>, next: seq<DeviceId>)
    requires (forall f <- done :: f.id in results0 && f.id != e.id) && e.id in results0
    requires Collected(results0, done, results, next)
    ensures var item := PairItem(results0[e.id].id, ReportOf(e.tried), results0[e.id].attempts + 1);
            Collected(results0, done + [e], results[e.id := item], if Conclusive(e.tried.result) then next else next + [e.id])
  {
    hide ReportOf, Conclusive;
    assert forall f :: f in done + [e] <==> f in done || f == e;
    assert e.id !in next;
  }

  lemma AttemptsSoFar(results0: map<DeviceId, PairItem>, done: seq<Finished>, e: Finished,
                      results: map<DeviceId, PairItem>, next: seq<DeviceId>)
    requires (forall f <- done :: f.id in results0 && f.id != e.id) && e.id in results0
    requires Collected(results0, done, results, next)
    ensures e.id in results && results[e.id] == results0[e.id]
  {
    hide ReportOf, Conclusive, Distinct;
  }

  /** Folds the results of one round into the items; the order they arrive in is arbitrary. */
  method Collect(results0: map<DeviceId, PairItem>, done: seq<Finished>)
    returns (results: map<DeviceId, PairItem>, nextPending: seq<DeviceId>)
    requires forall e <- done :: e.id in results0
    requires forall i, j :: 0 <= i < j < |done| ==> done[i].id != done[j].id
    ensures Collected(results0, done, results, nextPending)
  {
    hide Collected;
    results, nextPending := results0, [];
    NothingCollected(results0);
    for i := 0 to |done|
      invariant forall e <- done[..i] :: e in done
      invariant Collected(results0, done[..i], results, nextPending)
    {
      assert done[i] in done && done[..i + 1] == done[..i] + [done[i]];
      AttemptsSoFar(results0, done[..i], done[i], results, nextPending);
      CollectedOne(results0, done[..i], done[i], results, nextPending);
      var id, outcome := done[i].id, ReportOf(done[i].tried);
      var item := results[id];
      var retryable := outcome.Err? && !IsFinal(outcome.error);
      results := results[id := item.(attempts := item.attempts + 1, outcome := outcome)];
      if retryable {
        nextPending := nextPending + [id];
      }
    }
    assert done[..|done|] == done;
  }

  lemma NothingCollected(results0: map<DeviceId, PairItem>)
    ensures Collected(results0, [], results0, [])
  {
  }

  lemma RoundAdvances(o: Oracle, limit: nat, log0: seq<Op>, r: nat, order: seq<DeviceId>,
                      results: map<DeviceId, PairItem>, pending: seq<DeviceId>, before: seq<Op>,
                      done: seq<Finished>, after: seq<Op>,
                      results': map<DeviceId, PairItem>, pending': seq<DeviceId>)
    requires limit >= 1
    requires BatchState(o, limit, log0, r, order, results, pending, before)
    requires RoundResult(o, limit, before, pending, done, after)
    requires (forall e <- done :: e.id in results) && Collected(results, done, results', pending')
    ensures BatchState(o, limit, log0, r + 1, order, results', pending', after)
  {
    hide AsAlone, ItemAfter, CallsAfterRounds, PendingAfter, Calls, Conclusive, Distinct;
    forall d | d in order
      ensures d in results' && results'[d] == ItemAfter(o, log0, limit, r + 1, d)
      ensures Calls(after, d) == CallsAfterRounds(o, log0, limit, r + 1, d)
      ensures d in pending' <==> PendingAfter(o, log0, limit, r + 1, d)
    {
      DeviceAdvances(o, limit, log0, r, order, results, pending, before, done, after, results', pending', d);
    }
  }

  lemma DeviceAdvances(o: Oracle, limit: nat, log0: seq<Op>, r: nat, order: seq<DeviceId>,
                       results: map<DeviceId, PairItem>, pending: seq<DeviceId>, before: seq<Op>,
                       done: seq<Finished>, after: seq<Op>,
                       results': map<DeviceId, PairItem>, pending': seq<DeviceId>, d: DeviceId)
    requires limit >= 1
    requires BatchState(o, limit, log0, r, order, results, pending, before)
    requires RoundResult(o, limit, before, pending, done, after)
    requires (forall e <- done :: e.id in results) && Collected(results, done, results', pending')
    requires d in order
    ensures d in results' && results'[d] == ItemAfter(o, log0, limit, r + 1, d)
    ensures Calls(after, d) == CallsAfterRounds(o, log0, limit, r + 1, d)
    ensures d in pending' <==> PendingAfter(o, log0, limit, r + 1, d)
  {
    hide AsAlone, CallsAfterRounds, PendingAfter, Calls, Conclusive, Distinct, After;
    if d in pending {
      var e :| e in done && e.id == d;
      OneMoreRound(o, limit, log0, r, d, before, after, e);
      assert forall g <- done :: g.id == d ==> g == e;
    } else {
      AlreadyDecided(o, limit, log0, r, d);
      assert forall e <- done :: e.id != d;
    }
  }

  /** What every batch promises of its pairing phase, the address being settled: from the log `log1` on,
      the items of each distinct target run on its own, in first-seen order, and exactly its calls. */
  ghost predicate PairedAlone(o: Oracle, log0: seq<Op>, log1: seq<Op>, log: seq<Op>, targets: seq<DeviceId>,
                              options: BatchOptions, items: seq<PairItem>) {
    var order := Dedup(targets);
    var limit, rounds := Min(options.perDevice.retries + 1, 0xFFFF_FFFF), Max(options.rounds, 1);
    && OnlyPairs(log1, log) && |items| == |order| && limit >= 1
    && (forall i :: 0 <= i < |order| ==> items[i] == ItemAfter(o, log0, limit, rounds, order[i]))
    && (forall d <- order :: Calls(log, d) == CallsAfterRounds(o, log0, limit, rounds, d))
    && (forall d :: d !in order ==> Calls(log, d) == Calls(log0, d))
  }

  /** Every target of a batch fails with the error of programming the address. */
  predicate AllFail(targets: seq<DeviceId>, e: TransportError, items: seq<PairItem>) {
    var order := Dedup(targets);
    && |items| == |order|
    && forall i :: 0 <= i < |order| ==> items[i] == PairItem(order[i], Err(LocalAddress(ErrorText(e))), 0)
  }

  /** Pairs with many devices. Whatever the scheduler did and whatever the concurrency, the items
      are those of each distinct target run on its own, in first-seen order. An address asked for is
      programmed once, before any pair call; where that is not possible or fails, no pair call is made
      and every item fails. No more pair calls than the concurrency are under way at once. */
  method PairDevices(backend: PairBackend, targets: seq<DeviceId>, options: BatchOptions) returns (items: seq<PairItem>)
    modifies backend
    ensures backend.running == old(backend.running)
    ensures var bound := if options.concurrency.Some? then options.concurrency.value else backend.maxConcurrent;
            backend.peak <= Max(old(backend.peak), old(backend.running) + Max(bound, 1))
    ensures var spoof := options.perDevice.spoofLocal;
            && (spoof.Some? && !backend.canSpoof ==>
                  backend.log == old(backend.log) && AllFail(targets, Unsupported(backend.kind, "set_local_address"), items))
            && (spoof.Some? && backend.canSpoof && backend.addressError.Some? ==>
                  && backend.log == old(backend.log) + [SetAddress(spoof.value)]
                  && AllFail(targets, backend.addressError.value, items))
            && (spoof.Some? && backend.canSpoof && backend.addressError.None? ==>
                  PairedAlone(backend.oracle, old(backend.log), old(backend.log) + [SetAddress(spoof.value)], backend.log,
                              targets, options, items))
            && (spoof.None? ==>
                  PairedAlone(backend.oracle, old(backend.log), old(backend.log), backend.log, targets, options, items))
  {
    hide After, AsAlone, ErrorText, ItemAfter, CallsAfterRounds, PendingAfter, Calls, Dedup, RoundResult;
    var concurrency := Max(if options.concurrency.Some? then options.concurrency.value else backend.maxConcurrent, 1);
    ghost var log0, o := backend.log, backend.oracle;
    var limit := Limit(options.perDevice.retries);
    var order, results := FirstSeen(targets);

    var e := backend.ApplySpoof(options.perDevice.spoofLocal);
    if e.Some? {
      return seq(|order|, i requires 0 <= i < |order| => PairItem(order[i], Err(LocalAddress(ErrorText(e.value))), 0));
    }
    SpoofIsNoCall(log0, options.perDevice.spoofLocal);

    BatchStart(o, limit, log0, order, results, backend.log);
    results := RunRounds(backend, order, results, concurrency, limit, Max(options.rounds, 1), log0);
    return seq(|order|, i requires 0 <= i < |order| && order[i] in results => results[order[i]]);
  }

  /** The rounds: each over what the one before left to retry. */
  method RunRounds(backend: PairBackend, order: seq<DeviceId>, results0: map<DeviceId, PairItem>,
                   concurrency: nat, limit: nat, rounds: nat, ghost log0: seq<Op>)
    returns (results: map<DeviceId, PairItem>)
    requires concurrency >= 1 && limit >= 1
    requires BatchState(backend.oracle, limit, log0, 0, order, results0, order, backend.log)
    modifies backend
    ensures exists pending :: BatchState(backend.oracle, limit, log0, rounds, order, results, pending, backend.log)
    ensures OnlyPairs(old(backend.log), backend.log)
    ensures backend.running == old(backend.running)
    ensures backend.peak <= Max(old(backend.peak), old(backend.running) + concurrency)
  {
    hide After, AsAlone, ItemAfter, CallsAfterRounds, PendingAfter, Calls, RoundResult, BatchState, OnlyPairs;
    ghost var o := backend.oracle;
    var pending := order;
    results := results0;
    NothingYet(backend.log);
    var round := 0;
    while round < rounds
      invariant 0 <= round <= rounds
      invariant BatchState(o, limit, log0, round, order, results, pending, backend.log)
      invariant OnlyPairs(old(backend.log), backend.log)
      invariant backend.running == old(backend.running)
      invariant backend.peak <= Max(old(backend.peak), old(backend.running) + concurrency)
    {
      if pending == [] {
        BatchDecided(o, limit, log0, round, rounds, order, results, backend.log);
        break;
      }
      StateIds(o, limit, log0, round, order, results, pending, backend.log);
      var active := Max(Min(concurrency, |pending|), 1);
      ghost var before := backend.log;
      var roundResults := RunRound(backend, pending, active, limit);
      RoundIds(o, limit, before, pending, roundResults, backend.log);
      var results', nextPending := Collect(results, roundResults);
      RoundAdvances(o, limit, log0, round, order, results, pending, before, roundResults, backend.log, results', nextPending);
      results, pending := results', nextPending;
      round := round + 1;
    }
  }

  lemma StateIds(o: Oracle, limit: nat, log0: seq<Op>, r: nat, order: seq<DeviceId>,
                 results: map<DeviceId, PairItem>, pending: seq<DeviceId>, log: seq<Op>)
    requires limit >= 1 && BatchState(o, limit, log0, r, order, results, pending, log)
    ensures Distinct(pending) && forall d <- pending :: d in results
  {
    hide Distinct, ItemAfter, CallsAfterRounds, PendingAfter, Calls;
  }

  lemma NothingYet(log: seq<Op>)
    ensures OnlyPairs(log, log)
  {
  }

  /** The targets to attempt and their initial items. */
  method FirstSeen(targets: seq<DeviceId>) returns (order: seq<DeviceId>, results: map<DeviceId, PairItem>)
    ensures order == Dedup(targets) && Distinct(order)
    ensures forall d :: d in results <==> d in order
    ensures forall d <- order :: results[d] == PairItem(d, NOT_ATTEMPTED, 0)
  {
    order, results := [], map[];
    for i := 0 to |targets|
      invariant order == Dedup(targets[..i])
      invariant forall d :: d in results <==> d in order
      invariant forall d <- order :: results[d] == PairItem(d, NOT_ATTEMPTED, 0)
    {
      assert targets[..i + 1][..i] == targets[..i];
      var id := targets[i];
      if id !in results {
        order := order + [id];
        results := results[id := PairItem(id, NOT_ATTEMPTED, 0)];
      }
    }
    assert targets[..|targets|] == targets;
    DedupCorrect(targets);
  }

  lemma SpoofIsNoCall(log: seq<Op>, spoof: Option<BdAddr>)
    ensures spoof.Some? ==> forall d :: Calls(log + [SetAddress(spoof.value)], d) == Calls(log, d)
  {
    if spoof.Some? {
      forall d
        ensures Calls(log + [SetAddress(spoof.value)], d) == Calls(log, d)
      {
        CallsPush(log, SetAddress(spoof.value), d);
      }
    }
  }

  lemma BatchStart(o: Oracle, limit: nat, log0: seq<Op>, order: seq<DeviceId>, results: map<DeviceId, PairItem>, log: seq<Op>)
    requires limit >= 1 && Distinct(order)
    requires forall d :: d in results <==> d in order
    requires forall d <- order :: results[d] == PairItem(d, NOT_ATTEMPTED, 0)
    requires forall d :: Calls(log, d) == Calls(log0, d)
    ensures BatchState(o, limit, log0, 0, order, results, order, log)
  {
    hide Calls, Distinct;
  }

  lemma BatchDecided(o: Oracle, limit: nat, log0: seq<Op>, r: nat, rounds: nat, order: seq<DeviceId>,
                     results: map<DeviceId, PairItem>, log: seq<Op>)
    requires limit >= 1 && r <= rounds && BatchState(o, limit, log0, r, order, results, [], log)
    ensures BatchState(o, limit, log0, rounds, order, results, [], log)
  {
    hide Calls, After;
    forall d | d in order
      ensures ItemAfter(o, log0, limit, rounds, d) == ItemAfter(o, log0, limit, r, d)
      ensures CallsAfterRounds(o, log0, limit, rounds, d) == CallsAfterRounds(o, log0, limit, r, d)
      ensures !PendingAfter(o, log0, limit, rounds, d)
    {
      AfterStable(o, d, Calls(log0, d), limit, r, rounds);
    }
  }

  lemma RoundIds(o: Oracle, limit: nat, before: seq<Op>, pending: seq<DeviceId>, done: seq<Finished>, after: seq<Op>)
    requires limit >= 1 && RoundResult(o, limit, before, pending, done, after)
    ensures forall e <- done :: e.id in pending
    ensures forall i, j :: 0 <= i < j < |done| ==> done[i].id != done[j].id
    ensures OnlyPairs(before, after)
    ensures forall log :: OnlyPairs(log, before) ==> OnlyPairs(log, after)
  {
    hide AsAlone, Calls;
  }

  /** Discovers, then pairs with everything found; `found` is what discovery comes back with. An address
      asked for is programmed before the scan and never again; where that is not possible or fails,
      nothing else is done. */
  method PairDiscovered(backend: PairBackend, found: Result<seq<DeviceId>, TransportError>, options: BatchOptions)
    returns (r: Result<seq<PairItem>, TransportError>)
    modifies backend
    ensures var spoof := options.perDevice.spoofLocal;
            var first := if spoof.Some? then [SetAddress(spoof.value)] else [];
            var plain := options.(perDevice := options.perDevice.(spoofLocal := None));
            && (spoof.Some? && !backend.canSpoof ==>
                  r == Err(Unsupported(backend.kind, "set_local_address")) && backend.log == old(backend.log))
            && (spoof.Some? && backend.canSpoof && backend.addressError.Some? ==>
                  r == Err(backend.addressError.value) && backend.log == old(backend.log) + first)
            && (spoof.None? || (backend.canSpoof && backend.addressError.None?) ==>
                  && (found.Err? ==> r == Err(found.error) && backend.log == old(backend.log) + first)
                  && (found.Ok? ==>
                        && r.Ok?
                        && PairedAlone(backend.oracle, old(backend.log), old(backend.log) + first, backend.log,
                                       found.value, plain, r.value)))
  {
    hide After, Calls, Dedup, Limit, ErrorText;
    var spoof := options.perDevice.spoofLocal;
    SpoofIsNoCall(backend.log, spoof);
    var e := backend.ApplySpoof(spoof);
    if e.Some? {
      return Err(e.value);
    }
    if found.Err? {
      return Err(found.error);
    }
    var items := PairDevices(backend, found.value, options.(perDevice := options.perDevice.(spoofLocal := None)));
    return Ok(items);
  }
}
