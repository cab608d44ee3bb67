/** Batch pairing over the mock: the mock answers each pairing by the device and the agent alone,
    whatever else is going on, which is all the batch scheduler asks of a backend. */
module PairMock {
  import opened Bytes
  import opened Events
  import opened Mock
  import opened MockSystem
  import opened MockBackend
  import opened MockRuns
  import PairRound
  import PairBatch

  // ---------------------------------------------------------------- one answer per device

  /** How the mock answers a pairing with a target: by its script and the agent. */
  function Verdict(m: Config, agent: Agent, target: DeviceId): PairRound.PairResult {
    match Lookup(m.devices, target)
    case None => Err(DeviceNotFound(target))
    case Some(d) =>
      if TurnsDown(agent, d) then Err(PairingRejected("declined by pairing agent"))
      else match d.pairingFailure
        case Some(reason) => Err(PairingFailure(reason))
        case None => Ok(PairRound.Bond(true, true, d.pairingMethod))
  }

  /** The result of a pairing task that has ended this way. */
  function ResultOf(o: Outcome): Option<PairRound.PairResult> {
    match o
    case Bonded(method_) => Some(Ok(PairRound.Bond(true, true, method_)))
    case Failed(e) => Some(Err(e))
    case _ => None
  }

  /** A task on its way from a request to pair with `target` to the verdict on it. */
  predicate OnPath(m: Config, agent: Agent, target: DeviceId, t: Task) {
    match t
    case PairWith(id) => id == target
    case Pairing(d, stage) =>
      && Lookup(m.devices, target) == Some(d)
      && (stage.Refuse? ==> Verdict(m, agent, target) == Err(stage.error))
      && (stage.Remember? || stage.Confirming? ==> Verdict(m, agent, target).Ok?)
    case Done(o) => ResultOf(o) == Some(Verdict(m, agent, target))
    case _ => false
  }

  /** The target has been entered in the paired set on behalf of this task. */
  predicate Entered(t: Task) {
    (t.Pairing? && t.stage.Confirming?) || (t.Done? && t.outcome.Bonded?)
  }

  lemma PathStep(m: Config, agent: Agent, st: State, target: DeviceId, t: Task)
    requires OnPath(m, agent, target, t) && !Ended(t)
    ensures var n := Step(m, st, t, Reply(agent, t));
            && OnPath(m, agent, target, n.task)
            && n.st.paired == st.paired + (if Entered(n.task) && !Entered(t) then {target} else {})
            && (Entered(t) ==> Entered(n.task))
  {
    hide OriginOf, ConnectStep, DisconnectStep, AcceptStep, PushStep, DiscoverStep, RequestFor, Answered, Rejects, TurnsDown;
    if t.Pairing? {
      PromptsAndAnswers(agent, t.dev);
    }
  }

  /** A task that has nothing to do with pairing. */
  predicate Elsewhere(t: Task) {
    !t.PairWith? && !t.Pairing? && !t.AcceptAll? && !t.Accept?
  }

  lemma ElsewhereStep(m: Config, st: State, t: Task, r: Response)
    requires Elsewhere(t) && !Ended(t)
    ensures Elsewhere(Step(m, st, t, r).task) && Step(m, st, t, r).st.paired == st.paired
  {
    hide PairStep, AcceptStep, Lookup, OriginOf, LinkOrigin, AdapterOrigin, LinkFailure, Matches, NextChunk;
  }

  // ---------------------------------------------------------------- runs

  /** Every prompt in the run is answered by the agent. */
  predicate AnsweredBy(m: Config, agent: Agent, s: Sys, actions: seq<Action>)
    requires Follow(m, s, actions).Some?
    decreases |actions|
  {
    actions == []
    || (&& (actions[0].Run? ==> actions[0].r == Reply(agent, s.tasks[actions[0].i]))
        && AnsweredBy(m, agent, Apply(m, s, actions[0]), actions[1..]))
  }

  /** The operations a run starts, in order; the i-th is what the i-th task set out as. */
  function Spawned(actions: seq<Action>): seq<Task> {
    if actions == [] then []
    else (if actions[0].Spawn? then [actions[0].t] else []) + Spawned(actions[1..])
  }

  ghost predicate AllOnPath(m: Config, agent: Agent, origins: seq<Task>, ts: seq<Task>) {
    && |origins| == |ts|
    && forall i :: 0 <= i < |ts| && origins[i].PairWith? ==> OnPath(m, agent, origins[i].target, ts[i])
  }

  lemma AllOnPathStep(m: Config, agent: Agent, origins: seq<Task>, s: Sys, a: Action)
    requires AllOnPath(m, agent, origins, s.tasks) && Enabled(s, a)
    requires a.Run? ==> a.r == Reply(agent, s.tasks[a.i])
    ensures AllOnPath(m, agent, origins + Spawned([a]), Apply(m, s, a).tasks)
  {
    hide Step, OnPath, Entered;
    assert [a][1..] == [] && Spawned([]) == [];
    match a
    case Spawn(t) =>
      FreshOnPath(m, agent, t);
    case Run(i, r) =>
      assert origins + [] == origins;
      if origins[i].PairWith? {
        PathStep(m, agent, s.st, origins[i].target, s.tasks[i]);
      }
    case Deliver(_) =>
      assert origins + [] == origins;
  }

  lemma FreshOnPath(m: Config, agent: Agent, t: Task)
    ensures t.PairWith? ==> OnPath(m, agent, t.target, t)
  {
  }

  lemma {:induction false} RunOnPath(m: Config, agent: Agent, origins: seq<Task>, s: Sys, actions: seq<Action>)
    requires AllOnPath(m, agent, origins, s.tasks)
    requires Follow(m, s, actions).Some? && AnsweredBy(m, agent, s, actions)
    ensures AllOnPath(m, agent, origins + Spawned(actions), Follow(m, s, actions).value.tasks)
    decreases |actions|
  {
    hide AllOnPath, Apply;
    if actions == [] {
      assert origins + [] == origins;
    } else {
      AllOnPathStep(m, agent, origins, s, actions[0]);
      RunOnPath(m, agent, origins + Spawned([actions[0]]), Apply(m, s, actions[0]), actions[1..]);
      SpawnedCons(actions);
      assert origins + (Spawned([actions[0]]) + Spawned(actions[1..])) == origins + Spawned([actions[0]]) + Spawned(actions[1..]);
    }
  }

  lemma SpawnedCons(actions: seq<Action>)
    requires actions != []
    ensures Spawned(actions) == Spawned([actions[0]]) + Spawned(actions[1..])
  {
    assert [actions[0]][1..] == [] && Spawned([]) == [];
  }

  /** Whatever runs beside it and whenever it is asked, the mock answers a pairing with a target by
      the verdict on that target: what the scheduler requires of a backend. */
  lemma MockAnswersByDevice(m: Config, agent: Agent, actions: seq<Action>)
    requires Follow(m, START, actions).Some? && AnsweredBy(m, agent, START, actions)
    ensures var ts, origins := Follow(m, START, actions).value.tasks, Spawned(actions);
            && |ts| == |origins|
            && forall i :: 0 <= i < |ts| && origins[i].PairWith? && Ended(ts[i]) ==>
                 ts[i].Done? && ResultOf(ts[i].outcome) == Some(Verdict(m, agent, origins[i].target))
  {
    hide Verdict, ResultOf, Follow, AnsweredBy, Spawned;
    RunOnPath(m, agent, [], START, actions);
    assert [] + Spawned(actions) == Spawned(actions);
  }

  // ---------------------------------------------------------------- the paired set

  /** The paired set is what the pairing tasks have entered; no other kind of task pairs. */
  ghost predicate PairedBy(m: Config, agent: Agent, origins: seq<Task>, s: Sys) {
    && AllOnPath(m, agent, origins, s.tasks)
    && (forall i :: 0 <= i < |origins| && !origins[i].PairWith? ==> Elsewhere(s.tasks[i]))
    && (forall i :: 0 <= i < |origins| && origins[i].PairWith? && Entered(s.tasks[i]) ==> origins[i].target in s.st.paired)
    && (forall d :: d in s.st.paired ==> EnteredFor(origins, s.tasks, d))
  }

  ghost predicate EnteredFor(origins: seq<Task>, ts: seq<Task>, d: DeviceId)
    requires |origins| == |ts|
  {
    exists i :: 0 <= i < |ts| && origins[i].PairWith? && origins[i].target == d && Entered(ts[i])
  }

  predicate NoInbound(ts: seq<Task>) {
    forall t <- ts :: !t.AcceptAll?
  }

  lemma PairedBySpawn(m: Config, agent: Agent, origins: seq<Task>, s: Sys, t: Task)
    requires PairedBy(m, agent, origins, s) && Initial(t) && !t.AcceptAll?
    ensures PairedBy(m, agent, origins + [t], s.(tasks := s.tasks + [t]))
  {
    hide OnPath;
    FreshOnPath(m, agent, t);
    forall d | d in s.st.paired
      ensures EnteredFor(origins + [t], s.tasks + [t], d)
    {
      var i :| 0 <= i < |s.tasks| && origins[i].PairWith? && origins[i].target == d && Entered(s.tasks[i]);
      assert (origins + [t])[i] == origins[i] && (s.tasks + [t])[i] == s.tasks[i];
    }
  }

  /** A pairing task moves on. */
  lemma PairedByPair(m: Config, agent: Agent, origins: seq<Task>, s: Sys, i: nat, n: Next)
    requires PairedBy(m, agent, origins, s) && i < |s.tasks| && origins[i].PairWith?
    requires OnPath(m, agent, origins[i].target, n.task) && (Entered(s.tasks[i]) ==> Entered(n.task))
    requires n.st.paired == s.st.paired + (if Entered(n.task) && !Entered(s.tasks[i]) then {origins[i].target} else {})
    ensures PairedBy(m, agent, origins, s.(st := n.st, tasks := s.tasks[i := n.task]))
  {
    hide OnPath, Entered, Elsewhere;
    var ts := s.tasks[i := n.task];
    forall d | d in n.st.paired
      ensures EnteredFor(origins, ts, d)
    {
      if d in s.st.paired {
        var j :| 0 <= j < |s.tasks| && origins[j].PairWith? && origins[j].target == d && Entered(s.tasks[j]);
        assert Entered(ts[j]);
      } else {
        assert Entered(ts[i]);
      }
    }
  }

  /** A task that pairs nothing moves on. */
  lemma PairedByOther(m: Config, agent: Agent, origins: seq<Task>, s: Sys, i: nat, n: Next)
    requires PairedBy(m, agent, origins, s) && i < |s.tasks| && !origins[i].PairWith?
    requires Elsewhere(n.task) && n.st.paired == s.st.paired
    ensures PairedBy(m, agent, origins, s.(st := n.st, tasks := s.tasks[i := n.task]))
  {
    hide OnPath, Entered, Elsewhere;
    var ts := s.tasks[i := n.task];
    forall d | d in n.st.paired
      ensures EnteredFor(origins, ts, d)
    {
      var j :| 0 <= j < |s.tasks| && origins[j].PairWith? && origins[j].target == d && Entered(s.tasks[j]);
      assert ts[j] == s.tasks[j];
    }
  }

  lemma PairedByLogged(m: Config, agent: Agent, origins: seq<Task>, s: Sys, s': Sys)
    requires PairedBy(m, agent, origins, s) && s'.st == s.st && s'.tasks == s.tasks
    ensures PairedBy(m, agent, origins, s')
  {
    hide OnPath, Entered, Elsewhere;
  }

  lemma PairedByStep(m: Config, agent: Agent, origins: seq<Task>, s: Sys, a: Action)
    requires PairedBy(m, agent, origins, s) && Enabled(s, a)
    requires a.Run? ==> a.r == Reply(agent, s.tasks[a.i])
    requires a.Spawn? ==> !a.t.AcceptAll?
    ensures PairedBy(m, agent, origins + Spawned([a]), Apply(m, s, a))
  {
    hide Step, OnPath, Entered, Elsewhere, EnteredFor;
    assert [a][1..] == [] && Spawned([]) == [];
    match a
    case Spawn(t) =>
      assert Spawned([a]) == [t];
      PairedBySpawn(m, agent, origins, s, t);
    case Run(i, r) =>
      assert origins + [] == origins;
      var n := Step(m, s.st, s.tasks[i], r);
      if origins[i].PairWith? {
        PathStep(m, agent, s.st, origins[i].target, s.tasks[i]);
        PairedByPair(m, agent, origins, s, i, n);
      } else {
        ElsewhereStep(m, s.st, s.tasks[i], r);
        PairedByOther(m, agent, origins, s, i, n);
      }
      PairedByLogged(m, agent, origins, s.(st := n.st, tasks := s.tasks[i := n.task]), Apply(m, s, a));
    case Deliver(_) =>
      assert origins + [] == origins;
      PairedByLogged(m, agent, origins, s, Apply(m, s, a));
  }

  lemma {:induction false} RunPairs(m: Config, agent: Agent, origins: seq<Task>, s: Sys, actions: seq<Action>)
    requires PairedBy(m, agent, origins, s) && NoInbound(Spawned(actions))
    requires Follow(m, s, actions).Some? && AnsweredBy(m, agent, s, actions)
    ensures PairedBy(m, agent, origins + Spawned(actions), Follow(m, s, actions).value)
    decreases |actions|
  {
    hide PairedBy, Apply;
    if actions == [] {
      assert origins + [] == origins;
    } else {
      SpawnedCons(actions);
      assert actions[0].Spawn? ==> Spawned(actions)[0] == actions[0].t;
      PairedByStep(m, agent, origins, s, actions[0]);
      assert forall t <- Spawned(actions[1..]) :: t in Spawned(actions);
      RunPairs(m, agent, origins + Spawned([actions[0]]), Apply(m, s, actions[0]), actions[1..]);
      assert origins + (Spawned([actions[0]]) + Spawned(actions[1..])) == origins + Spawned([actions[0]]) + Spawned(actions[1..]);
    }
  }

  /** When everything has ended, and no pairing was inbound, the paired set is the targets that were
      asked for and whose verdict is good. */
  lemma PairedAreAccepted(m: Config, agent: Agent, actions: seq<Action>, d: DeviceId)
    requires Follow(m, START, actions).Some? && AnsweredBy(m, agent, START, actions) && NoInbound(Spawned(actions))
    requires forall t <- Follow(m, START, actions).value.tasks :: Ended(t)
    ensures d in Follow(m, START, actions).value.st.paired
       <==> PairWith(d) in Spawned(actions) && Verdict(m, agent, d).Ok?
  {
    hide PairedBy, Verdict, Follow, AnsweredBy, Spawned;
    NobodyPaired(m, agent);
    RunPairs(m, agent, [], START, actions);
    assert [] + Spawned(actions) == Spawned(actions);
    PairedAtEnd(m, agent, Spawned(actions), Follow(m, START, actions).value, d);
  }

  lemma EnteredAtEnd(m: Config, agent: Agent, target: DeviceId, t: Task)
    requires OnPath(m, agent, target, t) && Ended(t)
    ensures Entered(t) <==> Verdict(m, agent, target).Ok?
  {
    hide Verdict;
  }

  lemma PairedAtEnd(m: Config, agent: Agent, origins: seq<Task>, s: Sys, d: DeviceId)
    requires PairedBy(m, agent, origins, s) && forall t <- s.tasks :: Ended(t)
    ensures d in s.st.paired <==> PairWith(d) in origins && Verdict(m, agent, d).Ok?
  {
    hide OnPath, Verdict, Entered, Ended, Elsewhere;
    if d in s.st.paired {
      var i :| 0 <= i < |s.tasks| && origins[i].PairWith? && origins[i].target == d && Entered(s.tasks[i]);
      assert s.tasks[i] in s.tasks && origins[i] == PairWith(d);
      EnteredAtEnd(m, agent, d, s.tasks[i]);
    }
    if PairWith(d) in origins && Verdict(m, agent, d).Ok? {
      var i :| 0 <= i < |origins| && origins[i] == PairWith(d);
      assert s.tasks[i] in s.tasks;
      EnteredAtEnd(m, agent, d, s.tasks[i]);
    }
  }

  lemma NobodyPaired(m: Config, agent: Agent)
    ensures PairedBy(m, agent, [], START)
  {
  }

  // ---------------------------------------------------------------- a batch over the mock

  /** The mock as the scheduler sees it. */
  function AsOracle(m: Config, agent: Agent): PairRound.Oracle {
    (d: DeviceId, n: nat) => Verdict(m, agent, d)
  }

  /** How often a target is asked for. */
  function Asked(ts: seq<Task>, d: DeviceId): nat {
    if ts == [] then 0 else (if ts[0] == PairWith(d) then 1 else 0) + Asked(ts[1..], d)
  }

  lemma {:induction false} AskedIsThere(ts: seq<Task>, d: DeviceId)
    ensures Asked(ts, d) > 0 <==> PairWith(d) in ts
  {
    if ts != [] {
      AskedIsThere(ts[1..], d);
      assert ts == [ts[0]] + ts[1..];
    }
  }

  /** A target that is always answered alike: one call if the answer settles it, all of them if not;
      and the outcome is good exactly when the answer is. */
  lemma AlwaysAlike(o: PairRound.Oracle, d: DeviceId, from: nat, limit: nat, rounds: nat, v: PairRound.PairResult)
    requires limit >= 1 && rounds >= 1 && forall n :: o(d, n) == v
    ensures rounds * limit >= 1
    ensures var a := PairBatch.After(o, d, from, limit, rounds);
            && a.calls == (if PairRound.Conclusive(v) then 1 else rounds * limit)
            && (a.outcome.Ok? <==> v.Ok?)
  {
    PairBatch.RoundsFlatten(o, d, from, limit, rounds);
    PairRound.TryIs(o, d, from, rounds * limit, if PairRound.Conclusive(v) then 1 else rounds * limit);
  }

  /** A batch over the mock, told by what `PairDevices` promises of its items and its calls, beside
      any run of the mock that makes those calls and whatever else but inbound pairings: the paired
      set is the targets whose items are good, which are those with a good verdict; a target is asked
      once if the answer settles it, and in every attempt of every round if not. */
  lemma BatchOnMock(m: Config, agent: Agent, targets: seq<DeviceId>, options: PairBatch.BatchOptions,
                    log0: seq<PairRound.Op>, log1: seq<PairRound.Op>, log: seq<PairRound.Op>,
                    items: seq<PairBatch.PairItem>, actions: seq<Action>)
    requires PairBatch.PairedAlone(AsOracle(m, agent), log0, log1, log, targets, options, items)
    requires Follow(m, START, actions).Some? && AnsweredBy(m, agent, START, actions) && NoInbound(Spawned(actions))
    requires forall t <- Follow(m, START, actions).value.tasks :: Ended(t)
    requires forall e :: Asked(Spawned(actions), e) == PairRound.Calls(log, e) - PairRound.Calls(log0, e)
    ensures var paired := Follow(m, START, actions).value.st.paired;
            && (forall d :: d in paired <==> d in targets && Verdict(m, agent, d).Ok?)
            && (forall item <- items :: item.id in paired <==> item.outcome.Ok?)
            && (forall d <- targets :: Asked(Spawned(actions), d) == CallsNeeded(m, agent, d, options))
  {
    hide Verdict, Follow, AnsweredBy, Spawned, Asked, NoInbound, PairBatch.After, PairRound.Conclusive;
    PairBatch.DedupMembers(targets);
    var order := PairBatch.Dedup(targets);
    var limit, rounds := Min(options.perDevice.retries + 1, 0xFFFF_FFFF), Max(options.rounds, 1);
    forall d
      ensures d in Follow(m, START, actions).value.st.paired <==> d in targets && Verdict(m, agent, d).Ok?
      ensures d in targets ==> Asked(Spawned(actions), d) == CallsNeeded(m, agent, d, options)
      ensures PairBatch.ItemAfter(AsOracle(m, agent), log0, limit, rounds, d).outcome.Ok? <==> Verdict(m, agent, d).Ok?
    {
      PairedAreAccepted(m, agent, actions, d);
      AskedIsThere(Spawned(actions), d);
      AlwaysAlike(AsOracle(m, agent), d, PairRound.Calls(log0, d), limit, rounds, Verdict(m, agent, d));
      Settling(m, agent, d);
    }
    forall item | item in items
      ensures item.id in Follow(m, START, actions).value.st.paired <==> item.outcome.Ok?
    {
      var i :| 0 <= i < |items| && items[i] == item;
      assert item == PairBatch.ItemAfter(AsOracle(m, agent), log0, limit, rounds, order[i]);
      assert order[i] in order;
    }
  }

  /** A device that fails by its script alone is asked again each time; any other is asked once. */
  function CallsNeeded(m: Config, agent: Agent, d: DeviceId, options: PairBatch.BatchOptions): nat {
    match Lookup(m.devices, d)
    case None => 1
    case Some(dev) =>
      if TurnsDown(agent, dev) || dev.pairingFailure.None? then 1
      else Max(options.rounds, 1) * Min(options.perDevice.retries + 1, 0xFFFF_FFFF)
  }

  lemma Settling(m: Config, agent: Agent, d: DeviceId)
    ensures PairRound.Conclusive(Verdict(m, agent, d)) <==>
              Lookup(m.devices, d).None? || TurnsDown(agent, Lookup(m.devices, d).value)
              || Lookup(m.devices, d).value.pairingFailure.None?
  {
    hide Lookup, TurnsDown;
  }
}
