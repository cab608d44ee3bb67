/** One round of the batch pairing scheduler as a state machine. The round starts devices in
    order while fewer than `active` are in flight; every device in flight runs its own retry loop;
    the steps of different devices interleave in any way. */
module PairRound {
  import opened Bytes
  import opened Events
  import opened Sums

  datatype Bond = Bond(paired: bool, bonded: bool, method_: Method)

  type PairResult = Result<Bond, TransportError>

  /** A refusal or an unknown device; every other error is taken to be transient. */
  predicate IsFinal(e: TransportError) {
    e.PairingRejected? || e.DeviceNotFound?
  }

  predicate Conclusive(r: PairResult) {
    r.Ok? || IsFinal(r.error)
  }

  /** The backend: what the n-th pair call for a device (counting from zero) comes back with. */
  type Oracle = (DeviceId, nat) -> PairResult

  /** Everything a backend was asked to do, in the order it was asked. */
  datatype Op = SetAddress(addr: BdAddr) | Pair(id: DeviceId)

  /** Pair calls made for `d`. */
  function Calls(log: seq<Op>, d: DeviceId): nat {
    if log == [] then 0 else Calls(log[..|log| - 1], d) + if log[|log| - 1] == Pair(d) then 1 else 0
  }

  /** `log` is `log0` followed by pair calls only. */
  predicate OnlyPairs(log0: seq<Op>, log: seq<Op>) {
    log0 <= log && forall i :: |log0| <= i < |log| ==> log[i].Pair?
  }

  lemma CallsPush(log: seq<Op>, op: Op, d: DeviceId)
    ensures Calls(log + [op], d) == Calls(log, d) + if op == Pair(d) then 1 else 0
  {
    assert (log + [op])[..|log|] == log;
  }

  // ---------------------------------------------------------------- one device on its own

  datatype Tried = Tried(result: PairResult, calls: nat)

  /** The retry loop on its own: at most `left` calls from call number `from` on, stopping at the
      first conclusive one. */
  function Try(o: Oracle, d: DeviceId, from: nat, left: nat): Tried
    requires left >= 1
    decreases left
  {
    if Conclusive(o(d, from)) || left == 1 then Tried(o(d, from), 1)
    else
      var t := Try(o, d, from + 1, left - 1);
      t.(calls := 1 + t.calls)
  }

  /** The first `n` calls from `from` on all failed transiently. */
  predicate AllTransient(o: Oracle, d: DeviceId, from: nat, n: nat) {
    forall i :: from <= i < from + n ==> !Conclusive(o(d, i))
  }

  /** `Try` in closed form: the first conclusive result among the calls allowed, else the last one. */
  lemma {:induction false} TryIs(o: Oracle, d: DeviceId, from: nat, left: nat, n: nat)
    requires 1 <= n <= left
    requires AllTransient(o, d, from, n - 1)
    requires Conclusive(o(d, from + n - 1)) || n == left
    ensures Try(o, d, from, left) == Tried(o(d, from + n - 1), n)
    decreases left
  {
    if n > 1 {
      assert !Conclusive(o(d, from));
      TryIs(o, d, from + 1, left - 1, n - 1);
    }
  }

  lemma {:induction false} TryShape(o: Oracle, d: DeviceId, from: nat, left: nat)
    requires left >= 1
    ensures var t := Try(o, d, from, left);
            && 1 <= t.calls <= left
            && t.result == o(d, from + t.calls - 1)
            && AllTransient(o, d, from, t.calls - 1)
            && (!Conclusive(t.result) ==> t.calls == left)
    decreases left
  {
    if !Conclusive(o(d, from)) && left > 1 {
      TryShape(o, d, from + 1, left - 1);
    }
  }

  // ---------------------------------------------------------------- the round

  /** A device in flight: calls made so far, and whether one of them is still running. */
  datatype Flight = Flight(id: DeviceId, made: nat, busy: bool)

  datatype Finished = Finished(id: DeviceId, tried: Tried)

  datatype Round = Round(queue: seq<DeviceId>, flight: seq<Flight>, done: seq<Finished>, log: seq<Op>)

  /** Take the next device from the queue; begin a pair call of the i-th device in flight; or let
      that call complete. */
  datatype Step = Start | Begin(i: nat) | Complete(i: nat)

  predicate Enabled(s: Round, active: nat, step: Step) {
    match step
    case Start => s.queue != [] && |s.flight| < active
    case Begin(i) => i < |s.flight| && !s.flight[i].busy
    case Complete(i) => i < |s.flight| && s.flight[i].busy
  }

  function Without<T>(s: seq<T>, i: nat): seq<T>
    requires i < |s|
  {
    s[..i] + s[i + 1..]
  }

  function Apply(o: Oracle, limit: nat, s: Round, active: nat, step: Step): Round
    requires Enabled(s, active, step)
  {
    match step
    case Start => s.(queue := s.queue[1..], flight := s.flight + [Flight(s.queue[0], 0, false)])
    case Begin(i) =>
      var f := s.flight[i];
      s.(flight := s.flight[i := Flight(f.id, f.made + 1, true)], log := s.log + [Pair(f.id)])
    case Complete(i) =>
      var f := s.flight[i];
      var r := o(f.id, Max(Calls(s.log, f.id) - 1, 0));
      if Conclusive(r) || f.made >= limit then
        s.(flight := Without(s.flight, i), done := s.done + [Finished(f.id, Tried(r, f.made))])
      else s.(flight := s.flight[i := f.(busy := false)])
  }

  predicate Terminal(s: Round) {
    s.queue == [] && s.flight == []
  }

  predicate Distinct(ids: seq<DeviceId>) {
    forall i, j :: 0 <= i < j < |ids| ==> ids[i] != ids[j]
  }

  ghost predicate InFlight(s: Round, d: DeviceId) {
    exists f <- s.flight :: f.id == d
  }

  ghost predicate IsDone(s: Round, d: DeviceId) {
    exists e <- s.done :: e.id == d
  }

  /** The devices the round has taken from its queue. */
  ghost predicate Started(s: Round, pending: seq<DeviceId>, d: DeviceId)
    requires |s.queue| <= |pending|
  {
    d in pending[..|pending| - |s.queue|]
  }

  /** Who is where: every started device is in flight or done, never both and never twice; the
      rest wait in order; and no more than `active` are in flight. */
  ghost predicate Placed(s: Round, pending: seq<DeviceId>, active: nat) {
    && |s.queue| <= |pending| && s.queue == pending[|pending| - |s.queue|..]
    && |s.flight| <= active
    && |s.flight| + |s.done| == |pending| - |s.queue|
    && (forall i, j :: 0 <= i < j < |s.flight| ==> s.flight[i].id != s.flight[j].id)
    && (forall i, j :: 0 <= i < j < |s.done| ==> s.done[i].id != s.done[j].id)
    && (forall f <- s.flight, e <- s.done :: f.id != e.id)
    && (forall f <- s.flight :: Started(s, pending, f.id))
    && (forall e <- s.done :: Started(s, pending, e.id))
    && (forall d :: Started(s, pending, d) ==> InFlight(s, d) || IsDone(s, d))
  }

  /** One device in flight is part way through its own retry loop. */
  ghost predicate Midway(o: Oracle, limit: nat, log0: seq<Op>, log: seq<Op>, f: Flight) {
    && Calls(log, f.id) == Calls(log0, f.id) + f.made
    && (if f.busy then 1 <= f.made <= limit && AllTransient(o, f.id, Calls(log0, f.id), f.made - 1)
        else f.made < limit && AllTransient(o, f.id, Calls(log0, f.id), f.made))
  }

  /** A finished device got what it would have got on its own, with the same calls. */
  ghost predicate AsAlone(o: Oracle, limit: nat, log0: seq<Op>, log: seq<Op>, e: Finished)
    requires limit >= 1
  {
    && e.tried == Try(o, e.id, Calls(log0, e.id), limit)
    && Calls(log, e.id) == Calls(log0, e.id) + e.tried.calls
  }

  ghost predicate Inv(o: Oracle, limit: nat, log0: seq<Op>, s: Round, pending: seq<DeviceId>, active: nat)
    requires limit >= 1
  {
    && Placed(s, pending, active)
    && OnlyPairs(log0, s.log)
    && (forall f <- s.flight :: Midway(o, limit, log0, s.log, f))
    && (forall e <- s.done :: AsAlone(o, limit, log0, s.log, e))
    && (forall d :: !Started(s, pending, d) ==> Calls(s.log, d) == Calls(log0, d))
  }

  function Init(pending: seq<DeviceId>, log: seq<Op>): Round {
    Round(pending, [], [], log)
  }

  lemma InitInv(o: Oracle, limit: nat, log0: seq<Op>, pending: seq<DeviceId>, active: nat)
    requires limit >= 1
    ensures Inv(o, limit, log0, Init(pending, log0), pending, active)
  {
  }

  lemma StartPlaced(o: Oracle, limit: nat, s: Round, pending: seq<DeviceId>, active: nat)
    requires Distinct(pending) && Placed(s, pending, active) && Enabled(s, active, Start)
    ensures Placed(Apply(o, limit, s, active, Start), pending, active)
    ensures forall d :: Started(Apply(o, limit, s, active, Start), pending, d)
                   <==> Started(s, pending, d) || d == s.queue[0]
    ensures !Started(s, pending, s.queue[0])
  {
    var k := |pending| - |s.queue|;
    var s' := Apply(o, limit, s, active, Start);
    assert pending[..k + 1] == pending[..k] + [pending[k]];
    assert s.queue[0] == pending[k];
    forall d | Started(s', pending, d)
      ensures InFlight(s', d) || IsDone(s', d)
    {
      if d == s.queue[0] {
        assert s'.flight[|s.flight|].id == d;
      } else if InFlight(s, d) {
        var f :| f in s.flight && f.id == d;
        assert f in s'.flight;
      }
    }
  }

  lemma StartInv(o: Oracle, limit: nat, log0: seq<Op>, s: Round, pending: seq<DeviceId>, active: nat)
    requires limit >= 1 && Distinct(pending)
    requires Inv(o, limit, log0, s, pending, active) && Enabled(s, active, Start)
    ensures Inv(o, limit, log0, Apply(o, limit, s, active, Start), pending, active)
  {
    hide Placed, Started, AsAlone, Calls;
    StartPlaced(o, limit, s, pending, active);
  }

  /** Replacing a flight by one for the same device moves nobody. */
  lemma SameDevicePlaced(s: Round, pending: seq<DeviceId>, active: nat, i: nat, f: Flight, log: seq<Op>)
    requires Placed(s, pending, active) && i < |s.flight| && f.id == s.flight[i].id
    ensures Placed(s.(flight := s.flight[i := f], log := log), pending, active)
  {
    var s' := s.(flight := s.flight[i := f], log := log);
    forall d | Started(s', pending, d)
      ensures InFlight(s', d) || IsDone(s', d)
    {
      assert Started(s, pending, d);
      if InFlight(s, d) {
        var j :| 0 <= j < |s.flight| && s.flight[j].id == d;
        assert s'.flight[j].id == d;
      } else {
        assert IsDone(s', d);
      }
    }
  }

  lemma CallsAfter(log: seq<Op>, id: DeviceId)
    ensures forall d :: Calls(log + [Pair(id)], d) == Calls(log, d) + if d == id then 1 else 0
  {
    forall d
      ensures Calls(log + [Pair(id)], d) == Calls(log, d) + if d == id then 1 else 0
    {
      CallsPush(log, Pair(id), d);
    }
  }

  lemma BeginInv(o: Oracle, limit: nat, log0: seq<Op>, s: Round, pending: seq<DeviceId>, active: nat, i: nat)
    requires limit >= 1
    requires Inv(o, limit, log0, s, pending, active) && Enabled(s, active, Begin(i))
    ensures Inv(o, limit, log0, Apply(o, limit, s, active, Begin(i)), pending, active)
  {
    hide Started, Conclusive, Calls, Placed;
    var f := s.flight[i];
    var f' := Flight(f.id, f.made + 1, true);
    PlacedFlight(s, pending, active, i);
    var s' := Apply(o, limit, s, active, Begin(i));
    SameDevicePlaced(s, pending, active, i, f', s.log + [Pair(f.id)]);
    CallsAfter(s.log, f.id);
    assert f in s.flight;
    forall g | g in s'.flight
      ensures Midway(o, limit, log0, s'.log, g)
    {
      var j :| 0 <= j < |s'.flight| && s'.flight[j] == g;
      assert s.flight[j] in s.flight;
      assert Midway(o, limit, log0, s.log, s.flight[j]);
      assert j != i ==> g == s.flight[j] && g.id != f.id;
    }
    forall d | !Started(s', pending, d)
      ensures Calls(s'.log, d) == Calls(log0, d)
    {
      SameQueueStarted(s, s', pending);
    }
  }

  lemma PlacedFlight(s: Round, pending: seq<DeviceId>, active: nat, i: nat)
    requires Placed(s, pending, active) && i < |s.flight|
    ensures |s.queue| <= |pending| && Started(s, pending, s.flight[i].id)
    ensures forall j :: 0 <= j < |s.flight| && j != i ==> s.flight[j].id != s.flight[i].id
    ensures forall e <- s.done :: e.id != s.flight[i].id
  {
    hide Started;
    assert s.flight[i] in s.flight;
  }

  lemma SameQueueStarted(s: Round, s': Round, pending: seq<DeviceId>)
    requires |s.queue| <= |pending| && s.queue == s'.queue
    ensures forall d :: Started(s, pending, d) <==> Started(s', pending, d)
  {
  }

  lemma WithoutAt<T>(s: seq<T>, i: nat)
    requires i < |s|
    ensures |Without(s, i)| == |s| - 1
    ensures forall j :: 0 <= j < |s| - 1 ==> Without(s, i)[j] == s[if j < i then j else j + 1]
    ensures forall x <- Without(s, i) :: x in s
  {
  }

  lemma FinishDistinct(s: Round, pending: seq<DeviceId>, active: nat, i: nat, e: Finished)
    requires Placed(s, pending, active) && i < |s.flight| && e.id == s.flight[i].id
    ensures var flight, done := Without(s.flight, i), s.done + [e];
            && (forall i, j :: 0 <= i < j < |flight| ==> flight[i].id != flight[j].id)
            && (forall i, j :: 0 <= i < j < |done| ==> done[i].id != done[j].id)
            && (forall f <- flight, g <- done :: f.id != g.id)
  {
    hide Started, InFlight, IsDone, Without;
    WithoutAt(s.flight, i);
    assert s.flight[i] in s.flight;
    forall f | f in Without(s.flight, i)
      ensures f.id != e.id
    {
      var j :| 0 <= j < |s.flight| - 1 && Without(s.flight, i)[j] == f;
    }
  }

  lemma FinishCovers(s: Round, pending: seq<DeviceId>, active: nat, i: nat, e: Finished, d: DeviceId)
    requires Placed(s, pending, active) && i < |s.flight| && e.id == s.flight[i].id
    requires Started(s, pending, d)
    ensures var s' := s.(flight := Without(s.flight, i), done := s.done + [e]);
            InFlight(s', d) || IsDone(s', d)
  {
    hide Started, Without;
    WithoutAt(s.flight, i);
    var s' := s.(flight := Without(s.flight, i), done := s.done + [e]);
    if d == e.id {
      assert e in s'.done;
    } else if InFlight(s, d) {
      var j :| 0 <= j < |s.flight| && s.flight[j].id == d;
      assert s'.flight[if j < i then j else j - 1].id == d;
    } else {
      var g :| g in s.done && g.id == d;
      assert g in s'.done;
    }
  }

  /** Moving a flight to the finished list keeps everyone accounted for. */
  lemma FinishPlaced(s: Round, pending: seq<DeviceId>, active: nat, i: nat, t: Tried)
    requires Placed(s, pending, active) && i < |s.flight|
    ensures Placed(s.(flight := Without(s.flight, i), done := s.done + [Finished(s.flight[i].id, t)]), pending, active)
  {
    hide Started, InFlight, IsDone, Without;
    var e := Finished(s.flight[i].id, t);
    var s' := s.(flight := Without(s.flight, i), done := s.done + [e]);
    SameQueueStarted(s, s', pending);
    WithoutAt(s.flight, i);
    FinishDistinct(s, pending, active, i, e);
    assert s.flight[i] in s.flight;
    forall d | Started(s', pending, d)
      ensures InFlight(s', d) || IsDone(s', d)
    {
      FinishCovers(s, pending, active, i, e, d);
    }
  }

  /** The last call of a flight was conclusive, or was its last allowed one. */
  lemma FinishInv(o: Oracle, limit: nat, log0: seq<Op>, s: Round, pending: seq<DeviceId>, active: nat, i: nat)
    requires limit >= 1 && i < |s.flight| && s.flight[i].busy
    requires Inv(o, limit, log0, s, pending, active)
    requires var f := s.flight[i];
             Conclusive(o(f.id, Calls(log0, f.id) + f.made - 1)) || f.made >= limit
    ensures var f := s.flight[i];
            var r := o(f.id, Calls(log0, f.id) + f.made - 1);
            var s' := s.(flight := Without(s.flight, i), done := s.done + [Finished(f.id, Tried(r, f.made))]);
            Inv(o, limit, log0, s', pending, active)
  {
    hide Started, Placed, Conclusive, Calls, Without;
    var f := s.flight[i];
    var from := Calls(log0, f.id);
    assert Midway(o, limit, log0, s.log, f);
    var e := Finished(f.id, Tried(o(f.id, from + f.made - 1), f.made));
    var s' := s.(flight := Without(s.flight, i), done := s.done + [e]);
    assert Placed(s', pending, active) by {
      FinishPlaced(s, pending, active, i, e.tried);
    }
    TryIs(o, f.id, from, limit, f.made);
    assert AsAlone(o, limit, log0, s.log, e);
    WithoutAt(s.flight, i);
    assert |s.queue| <= |pending| by {
      PlacedQueue(s, pending, active);
    }
    SameQueueStarted(s, s', pending);
  }

  lemma PlacedQueue(s: Round, pending: seq<DeviceId>, active: nat)
    requires Placed(s, pending, active)
    ensures |s.queue| <= |pending|
  {
  }

  lemma CompleteInv(o: Oracle, limit: nat, log0: seq<Op>, s: Round, pending: seq<DeviceId>, active: nat, i: nat)
    requires limit >= 1
    requires Inv(o, limit, log0, s, pending, active) && Enabled(s, active, Complete(i))
    ensures Inv(o, limit, log0, Apply(o, limit, s, active, Complete(i)), pending, active)
  {
    hide Started, Placed, Conclusive, Calls;
    var f := s.flight[i];
    var s' := Apply(o, limit, s, active, Complete(i));
    assert Midway(o, limit, log0, s.log, f);
    if Conclusive(o(f.id, Calls(log0, f.id) + f.made - 1)) || f.made >= limit {
      FinishInv(o, limit, log0, s, pending, active, i);
    } else {
      var f' := f.(busy := false);
      SameDevicePlaced(s, pending, active, i, f', s.log);
      assert Midway(o, limit, log0, s.log, f');
      assert forall g <- s'.flight :: g == f' || g in s.flight;
      PlacedQueue(s, pending, active);
      SameQueueStarted(s, s', pending);
    }
  }

  lemma StepInv(o: Oracle, limit: nat, log0: seq<Op>, s: Round, pending: seq<DeviceId>, active: nat, step: Step)
    requires limit >= 1 && Distinct(pending)
    requires Inv(o, limit, log0, s, pending, active) && Enabled(s, active, step)
    ensures Inv(o, limit, log0, Apply(o, limit, s, active, step), pending, active)
  {
    hide Inv, Apply;
    match step
    case Start => StartInv(o, limit, log0, s, pending, active);
    case Begin(i) => BeginInv(o, limit, log0, s, pending, active, i);
    case Complete(i) => CompleteInv(o, limit, log0, s, pending, active, i);
  }

  // ---------------------------------------------------------------- whole rounds

  /** The round after a schedule; `None` when the schedule asks for a step that is not enabled. */
  function Follow(o: Oracle, limit: nat, s: Round, active: nat, schedule: seq<Step>): Option<Round>
    decreases |schedule|
  {
    if schedule == [] then Some(s)
    else if !Enabled(s, active, schedule[0]) then None
    else Follow(o, limit, Apply(o, limit, s, active, schedule[0]), active, schedule[1..])
  }

  /** Every reachable state of a round satisfies the invariant. */
  lemma {:induction false} Reachable(o: Oracle, limit: nat, log0: seq<Op>, s: Round, pending: seq<DeviceId>,
                                     active: nat, schedule: seq<Step>)
    requires limit >= 1 && Distinct(pending) && Inv(o, limit, log0, s, pending, active)
    ensures var r := Follow(o, limit, s, active, schedule);
            r.Some? ==> Inv(o, limit, log0, r.value, pending, active)
    decreases |schedule|
  {
    hide Inv, Apply;
    if schedule != [] && Enabled(s, active, schedule[0]) {
      StepInv(o, limit, log0, s, pending, active, schedule[0]);
      Reachable(o, limit, log0, Apply(o, limit, s, active, schedule[0]), pending, active, schedule[1..]);
    }
  }

  /** In every state any schedule can reach: at most `active` devices are in flight, no device is
      in flight twice or both in flight and finished, and none has more than `limit` calls. */
  lemma RoundSafety(o: Oracle, limit: nat, log0: seq<Op>, pending: seq<DeviceId>, active: nat, schedule: seq<Step>)
    requires limit >= 1 && Distinct(pending)
    ensures var r := Follow(o, limit, Init(pending, log0), active, schedule);
            r.Some? ==>
              && |r.value.flight| <= Min(active, |pending|)
              && (forall i, j :: 0 <= i < j < |r.value.flight| ==> r.value.flight[i].id != r.value.flight[j].id)
              && (forall f <- r.value.flight, e <- r.value.done :: f.id != e.id)
              && (forall d :: Calls(log0, d) <= Calls(r.value.log, d) <= Calls(log0, d) + limit)
              && (forall d :: d !in pending ==> Calls(r.value.log, d) == Calls(log0, d))
  {
    InitInv(o, limit, log0, pending, active);
    Reachable(o, limit, log0, Init(pending, log0), pending, active, schedule);
    var r := Follow(o, limit, Init(pending, log0), active, schedule);
    if r.Some? {
      CallBounds(o, limit, log0, r.value, pending, active);
    }
  }

  lemma CallBounds(o: Oracle, limit: nat, log0: seq<Op>, s: Round, pending: seq<DeviceId>, active: nat)
    requires limit >= 1 && Inv(o, limit, log0, s, pending, active)
    ensures forall d :: Calls(log0, d) <= Calls(s.log, d) <= Calls(log0, d) + limit
    ensures forall d :: d !in pending ==> Calls(s.log, d) == Calls(log0, d)
  {
    hide Calls, Try, Conclusive;
    forall d
      ensures Calls(log0, d) <= Calls(s.log, d) <= Calls(log0, d) + limit
      ensures d !in pending ==> Calls(s.log, d) == Calls(log0, d)
    {
      if Started(s, pending, d) {
        if InFlight(s, d) {
          var f :| f in s.flight && f.id == d;
          assert Midway(o, limit, log0, s.log, f);
        } else {
          var e :| e in s.done && e.id == d;
          assert AsAlone(o, limit, log0, s.log, e);
          TryShape(o, d, Calls(log0, d), limit);
        }
      }
    }
  }

  /** A finished round, whatever the schedule and the concurrency: every pending device finished
      exactly once, with the result and the calls of its own retry loop run alone, and nobody else
      was called. */
  ghost predicate RoundResult(o: Oracle, limit: nat, log0: seq<Op>, pending: seq<DeviceId>, done: seq<Finished>, log: seq<Op>)
    requires limit >= 1
  {
    && |done| == |pending|
    && OnlyPairs(log0, log)
    && (forall i, j :: 0 <= i < j < |done| ==> done[i].id != done[j].id)
    && (forall e <- done :: e.id in pending && AsAlone(o, limit, log0, log, e))
    && (forall d <- pending :: exists e <- done :: e.id == d)
    && (forall d :: d !in pending ==> Calls(log, d) == Calls(log0, d))
  }

  lemma FinishedRound(o: Oracle, limit: nat, log0: seq<Op>, s: Round, pending: seq<DeviceId>, active: nat)
    requires limit >= 1 && Inv(o, limit, log0, s, pending, active) && Terminal(s)
    ensures RoundResult(o, limit, log0, pending, s.done, s.log)
  {
    hide AsAlone, Calls;
    assert pending[..|pending|] == pending;
    forall d | d in pending
      ensures exists e <- s.done :: e.id == d
    {
      assert Started(s, pending, d);
      assert !InFlight(s, d);
    }
  }

  lemma EverySchedule(o: Oracle, limit: nat, log0: seq<Op>, pending: seq<DeviceId>, active: nat, schedule: seq<Step>)
    requires limit >= 1 && Distinct(pending)
    ensures var r := Follow(o, limit, Init(pending, log0), active, schedule);
            r.Some? && Terminal(r.value) ==>
              RoundResult(o, limit, log0, pending, r.value.done, r.value.log)
  {
    hide Inv, RoundResult;
    InitInv(o, limit, log0, pending, active);
    Reachable(o, limit, log0, Init(pending, log0), pending, active, schedule);
    var r := Follow(o, limit, Init(pending, log0), active, schedule);
    if r.Some? && Terminal(r.value) {
      FinishedRound(o, limit, log0, r.value, pending, active);
    }
  }

  // ---------------------------------------------------------------- rounds come to an end

  function FlightWork(limit: nat): Flight -> int {
    (f: Flight) => 2 * (limit - f.made) + (if f.busy then 1 else 0) + 1
  }

  /** Steps that can still be taken. */
  function Work(limit: nat, s: Round): int {
    (2 * limit + 2) * |s.queue| + Sum(s.flight, FlightWork(limit))
  }

  predicate WithinLimit(limit: nat, s: Round) {
    forall f <- s.flight :: f.made <= limit
  }

  lemma StepProgress(o: Oracle, limit: nat, s: Round, active: nat, step: Step)
    requires Enabled(s, active, step) && WithinLimit(limit, s)
    ensures Work(limit, Apply(o, limit, s, active, step)) < Work(limit, s)
  {
    var w := FlightWork(limit);
    match step
    case Start =>
      SumAppend(s.flight, [Flight(s.queue[0], 0, false)], w);
      SumOne(Flight(s.queue[0], 0, false), w);
      assert (2 * limit + 2) * |s.queue| == (2 * limit + 2) * (|s.queue| - 1) + (2 * limit + 2);
    case Begin(i) =>
      var f := s.flight[i];
      SumUpdate(s.flight, i, Flight(f.id, f.made + 1, true), w);
    case Complete(i) =>
      assert s.flight[i] in s.flight;
      SumUpdate(s.flight, i, s.flight[i].(busy := false), w);
      SumRemove(s.flight, i, w);
  }

  lemma InvWithinLimit(o: Oracle, limit: nat, log0: seq<Op>, s: Round, pending: seq<DeviceId>, active: nat)
    requires limit >= 1 && Inv(o, limit, log0, s, pending, active)
    ensures WithinLimit(limit, s) && Work(limit, s) >= 0
  {
    hide Placed, AsAlone, Calls;
    forall f | f in s.flight
      ensures f.made <= limit
    {
      assert Midway(o, limit, log0, s.log, f);
    }
    SumNonNegative(s.flight, FlightWork(limit));
  }

  /** Until a round has finished some step is enabled, and no schedule has more steps than two per
      call allowed and two more per device: every schedule that goes on as long as it can finishes. */
  lemma {:induction false} ScheduleBound(o: Oracle, limit: nat, log0: seq<Op>, s: Round, pending: seq<DeviceId>,
                                         active: nat, schedule: seq<Step>)
    requires limit >= 1 && active >= 1 && Distinct(pending) && Inv(o, limit, log0, s, pending, active)
    requires Follow(o, limit, s, active, schedule).Some?
    ensures |schedule| <= Work(limit, s)
    ensures var r := Follow(o, limit, s, active, schedule).value;
            !Terminal(r) ==> exists step :: Enabled(r, active, step)
    decreases |schedule|
  {
    hide Inv, Apply, Work;
    InvWithinLimit(o, limit, log0, s, pending, active);
    if schedule != [] {
      StepInv(o, limit, log0, s, pending, active, schedule[0]);
      StepProgress(o, limit, s, active, schedule[0]);
      ScheduleBound(o, limit, log0, Apply(o, limit, s, active, schedule[0]), pending, active, schedule[1..]);
    } else if !Terminal(s) {
      assert Enabled(s, active, Start) || Enabled(s, active, Begin(0)) || Enabled(s, active, Complete(0));
    }
  }
}
