/** Any number of mock operations running concurrently, with event delivery to the observer
    outside the lock: a stamped event may be delivered at any later time, in any order. */
module MockSystem {
  import opened Bytes
  import opened Events
  import opened Progress
  import opened Sums
  import opened Metrics
  import opened Analyzer
  import opened Mock

  /** `stamped` is the history of stamped events; each is either still undelivered or has arrived
      at the recorder. Tasks are never forgotten, so `tasks` is the history of operations. */
  datatype Sys = Sys(st: State, tasks: seq<Task>, stamped: seq<Event>, undelivered: multiset<Event>, arrived: seq<Event>)

  const START := Sys(FRESH, [], [], multiset{}, [])

  datatype Action = Spawn(t: Task) | Run(i: nat, r: Response) | Deliver(e: Event)

  predicate Enabled(s: Sys, a: Action) {
    match a
    case Spawn(t) => Initial(t)
    case Run(i, _) => i < |s.tasks| && !Ended(s.tasks[i])
    case Deliver(e) => e in s.undelivered
  }

  function Logged(s: Sys, event: Option<Event>): Sys {
    if event.None? then s
    else s.(stamped := s.stamped + [event.value], undelivered := s.undelivered + multiset{event.value})
  }

  function Apply(m: Config, s: Sys, a: Action): Sys
    requires Enabled(s, a)
  {
    match a
    case Spawn(t) => s.(tasks := s.tasks + [t])
    case Run(i, r) =>
      var n := Step(m, s.st, s.tasks[i], r);
      Logged(s.(st := n.st, tasks := s.tasks[i := n.task]), n.event)
    case Deliver(e) => s.(undelivered := s.undelivered - multiset{e}, arrived := s.arrived + [e])
  }

  /** The system after some actions; `None` when one of them is not possible. */
  function Follow(m: Config, s: Sys, actions: seq<Action>): Option<Sys>
    decreases |actions|
  {
    if actions == [] then Some(s)
    else if !Enabled(s, actions[0]) then None
    else Follow(m, Apply(m, s, actions[0]), actions[1..])
  }

  /** Every operation has ended and every event has been delivered. */
  predicate Quiescent(s: Sys) {
    (forall t <- s.tasks :: Ended(t)) && s.undelivered == multiset{}
  }

  // ---------------------------------------------------------------- the event log

  /** Numbered 0, 1, 2, ... with times that never go back and never pass the clock. */
  predicate Chronicle(es: seq<Event>, next: nat, clock: nat) {
    && |es| == next && Stamped(es)
    && (forall i, j :: 0 <= i < j < |es| ==> es[i].at <= es[j].at)
    && (forall e <- es :: e.at <= clock)
  }

  predicate LogInv(s: Sys) {
    && Chronicle(s.stamped, s.st.seq_, s.st.clock)
    && multiset(s.stamped) == s.undelivered + multiset(s.arrived)
  }

  lemma ChronicleGoesOn(es: seq<Event>, next: nat, clock: nat, later: nat)
    requires Chronicle(es, next, clock) && clock <= later
    ensures Chronicle(es, next, later)
    ensures forall e: Event :: e.seq_ == next && e.at == clock ==> Chronicle(es + [e], next + 1, later)
  {
    forall e: Event | e.seq_ == next && e.at == clock
      ensures Chronicle(es + [e], next + 1, later)
    {
      assert forall i :: 0 <= i < |es| ==> es[i] in es;
    }
  }

  /** A step stamps at most one event, with the next number and the current time, and the clock
      never goes back. */
  lemma StepStamps(m: Config, st: State, t: Task, r: Response)
    ensures var n := Step(m, st, t, r);
            && n.st.clock >= st.clock
            && n.st.seq_ == st.seq_ + (if n.event.Some? then 1 else 0)
            && (n.event.Some? ==> n.event.value.seq_ == st.seq_ && n.event.value.at == st.clock)
  {
    hide Lookup, OriginOf, LinkOrigin, AdapterOrigin, LinkFailure, Matches, NextChunk, Answered;
  }

  lemma OneMoreEvent(es: seq<Event>, e: Event)
    ensures multiset(es + [e]) == multiset(es) + multiset{e}
  {
  }

  lemma LogStep(m: Config, s: Sys, a: Action)
    requires LogInv(s) && Enabled(s, a)
    ensures LogInv(Apply(m, s, a))
  {
    hide Step, Chronicle;
    match a
    case Run(i, r) =>
      var n := Step(m, s.st, s.tasks[i], r);
      StepStamps(m, s.st, s.tasks[i], r);
      ChronicleGoesOn(s.stamped, s.st.seq_, s.st.clock, n.st.clock);
      if n.event.Some? {
        OneMoreEvent(s.stamped, n.event.value);
      }
    case Spawn(_) =>
    case Deliver(_) =>
  }

  // ---------------------------------------------------------------- conservation

  type EventWeight = Event -> int
  type TaskWeight = Task -> int

  function WeightOf(e: Option<Event>, w: EventWeight): int {
    if e.Some? then w(e.value) else 0
  }

  /** What the stamped events weigh is what the tasks have contributed. */
  predicate Balanced(s: Sys, w: EventWeight, v: TaskWeight) {
    Sum(s.stamped, w) == Sum(s.tasks, v)
  }

  /** Local conservation is global conservation: if each step adds to the task what its event
      weighs, and operations start from nothing, the books always balance. */
  lemma BalancedStep(m: Config, s: Sys, a: Action, w: EventWeight, v: TaskWeight)
    requires Balanced(s, w, v) && Enabled(s, a)
    requires a.Spawn? ==> v(a.t) == 0
    requires a.Run? ==>
               var n := Step(m, s.st, s.tasks[a.i], a.r);
               WeightOf(n.event, w) == v(n.task) - v(s.tasks[a.i])
    ensures Balanced(Apply(m, s, a), w, v)
  {
    hide Step, Sum;
    match a
    case Spawn(t) =>
      SumAppend(s.tasks, [t], v);
      SumOne(t, v);
    case Run(i, r) =>
      var n := Step(m, s.st, s.tasks[i], r);
      SumUpdate(s.tasks, i, n.task, v);
      if n.event.Some? {
        SumAppend(s.stamped, [n.event.value], w);
        SumOne(n.event.value, w);
      }
    case Deliver(_) =>
  }

  function ChunkWeight(e: Event): int {
    PayloadBytes(e.kind)
  }

  /** Bytes of a push that succeeded, as its receipt says. */
  function ReceiptBytes(t: Task): int {
    if t.PushEnded? && t.result.Ok? then t.result.value.bytes else 0
  }

  /** Bytes of a push that failed, as its error says. */
  function FailureBytes(t: Task): int {
    if t.PushEnded? && t.result.Err? && t.result.error.TransferFailed? then t.result.error.transferred else 0
  }

  function MovedBytes(t: Task): int {
    if IsPush(t) then t.p.transferred else ReceiptBytes(t) + FailureBytes(t)
  }

  lemma BytesLocal(m: Config, st: State, t: Task, r: Response)
    requires !Ended(t)
    ensures var n := Step(m, st, t, r);
            WeightOf(n.event, ChunkWeight) == MovedBytes(n.task) - MovedBytes(t)
  {
    hide Lookup, OriginOf, LinkOrigin, AdapterOrigin, LinkFailure, Matches, NextChunk, Answered;
  }

  /** Payload as `payload_bytes` is documented: completed transfers counted along with data chunks. */
  function DocumentedWeight(e: Event): int {
    PayloadBytes(e.kind) + CompletedBytes(e.kind)
  }

  function CompletedWeight(e: Event): int {
    CompletedBytes(e.kind)
  }

  lemma CompletedLocal(m: Config, st: State, t: Task, r: Response)
    requires !Ended(t)
    ensures var n := Step(m, st, t, r);
            WeightOf(n.event, CompletedWeight) == ReceiptBytes(n.task) - ReceiptBytes(t)
  {
    hide Lookup, OriginOf, LinkOrigin, AdapterOrigin, LinkFailure, Matches, NextChunk, Answered;
  }

  function ConnectedWeight(e: Event): int {
    if e.kind.Connected? then 1 else 0
  }

  function LinkedWeight(t: Task): int {
    if t.Done? && t.outcome.Linked? then 1 else 0
  }

  function DisconnectedWeight(e: Event): int {
    if e.kind.Disconnected? then 1 else 0
  }

  function UnlinkedWeight(t: Task): int {
    if t.Done? && t.outcome.Unlinked? then 1 else 0
  }

  lemma LinksLocal(m: Config, st: State, t: Task, r: Response)
    requires !Ended(t)
    ensures var n := Step(m, st, t, r);
            && WeightOf(n.event, ConnectedWeight) == LinkedWeight(n.task) - LinkedWeight(t)
            && WeightOf(n.event, DisconnectedWeight) == UnlinkedWeight(n.task) - UnlinkedWeight(t)
  {
    hide Lookup, OriginOf, LinkOrigin, AdapterOrigin, LinkFailure, Matches, NextChunk, Answered;
  }

  /** Started pairings of a device count up, completed and failed ones down. */
  function PairingWeight(d: DeviceId): EventWeight {
    (e: Event) =>
      if e.origin.peer != d then 0
      else if e.kind.PairingStarted? then 1
      else if e.kind.PairingCompleted? || e.kind.PairingFailed? then -1
      else 0
  }

  /** The device a task is in the middle of pairing with. */
  function Underway(t: Task): Option<DeviceId> {
    if t.Pairing? && !t.stage.Announce? then Some(t.dev.id)
    else if t.Accept? && t.left != [] && !t.stage.Announce? then Some(t.left[0].id)
    else None
  }

  function UnderwayWeight(d: DeviceId): TaskWeight {
    (t: Task) => if Underway(t) == Some(d) then 1 else 0
  }

  lemma PairingLocal(m: Config, st: State, t: Task, r: Response, d: DeviceId)
    requires !Ended(t)
    ensures var n := Step(m, st, t, r);
            WeightOf(n.event, PairingWeight(d)) == UnderwayWeight(d)(n.task) - UnderwayWeight(d)(t)
  {
    hide Lookup, AdapterOrigin, LinkFailure, Matches, NextChunk;
  }

  ghost predicate Books(s: Sys) {
    && Balanced(s, ChunkWeight, MovedBytes)
    && Balanced(s, CompletedWeight, ReceiptBytes)
    && Balanced(s, ConnectedWeight, LinkedWeight)
    && Balanced(s, DisconnectedWeight, UnlinkedWeight)
    && forall d :: Balanced(s, PairingWeight(d), UnderwayWeight(d))
  }

  lemma BooksStep(m: Config, s: Sys, a: Action)
    requires Books(s) && Enabled(s, a)
    ensures Books(Apply(m, s, a))
  {
    hide Step, Balanced, Apply;
    if a.Run? {
      BytesLocal(m, s.st, s.tasks[a.i], a.r);
      CompletedLocal(m, s.st, s.tasks[a.i], a.r);
      LinksLocal(m, s.st, s.tasks[a.i], a.r);
    }
    BalancedStep(m, s, a, ChunkWeight, MovedBytes);
    BalancedStep(m, s, a, CompletedWeight, ReceiptBytes);
    BalancedStep(m, s, a, ConnectedWeight, LinkedWeight);
    BalancedStep(m, s, a, DisconnectedWeight, UnlinkedWeight);
    forall d
      ensures Balanced(Apply(m, s, a), PairingWeight(d), UnderwayWeight(d))
    {
      if a.Run? {
        PairingLocal(m, s.st, s.tasks[a.i], a.r, d);
      }
      BalancedStep(m, s, a, PairingWeight(d), UnderwayWeight(d));
    }
  }

  // ---------------------------------------------------------------- tokens

  /** The token a connect task was given, and the one a disconnect task removed. */
  function Issued(t: Task): Option<nat> {
    if t.ConnectAnnounce? then Some(t.token)
    else if t.Done? && t.outcome.Linked? then Some(t.outcome.conn.token)
    else None
  }

  function Removed(t: Task): Option<nat> {
    if t.DisconnectAnnounce? then Some(t.conn.token)
    else if t.Done? && t.outcome.Unlinked? then Some(t.outcome.token)
    else None
  }

  function IssuedWeight(t: Task): int {
    if Issued(t).Some? then 1 else 0
  }

  function RemovedWeight(t: Task): int {
    if Removed(t).Some? then 1 else 0
  }

  /** No token is issued twice or removed twice; the live connections are the tokens issued and not
      removed. */
  ghost predicate Tokens(s: Sys) {
    && s.st.nextToken >= 1 && s.st.nextToken == 1 + Sum(s.tasks, IssuedWeight)
    && |s.st.connections| == Sum(s.tasks, IssuedWeight) - Sum(s.tasks, RemovedWeight)
    && (forall t <- s.tasks :: Issued(t).Some? ==> 1 <= Issued(t).value < s.st.nextToken)
    && (forall t <- s.tasks :: Removed(t).Some? ==> Removed(t).value < s.st.nextToken && Removed(t).value !in s.st.connections)
    && (forall k :: k in s.st.connections ==> 1 <= k < s.st.nextToken)
    && (forall i, j :: 0 <= i < j < |s.tasks| && Issued(s.tasks[i]).Some? ==> Issued(s.tasks[i]) != Issued(s.tasks[j]))
    && (forall i, j :: 0 <= i < j < |s.tasks| && Removed(s.tasks[i]).Some? ==> Removed(s.tasks[i]) != Removed(s.tasks[j]))
    && Settled(s.tasks, s.st.connections)
  }

  /** The three ways a step can touch the connections. */
  lemma StepTokens(m: Config, st: State, t: Task, r: Response)
    requires !Ended(t)
    ensures var n := Step(m, st, t, r);
            if t.ConnectAlloc? then
              && n.st.nextToken == st.nextToken + 1 && n.st.connections == st.connections[st.nextToken := t.dev.id]
              && Issued(t).None? && Issued(n.task) == Some(st.nextToken) && Removed(t).None? && Removed(n.task).None?
            else if t.Disconnect? && t.conn.token in st.connections then
              && n.st.nextToken == st.nextToken && n.st.connections == st.connections - {t.conn.token}
              && Removed(t).None? && Removed(n.task) == Some(t.conn.token) && Issued(t).None? && Issued(n.task).None?
            else
              && n.st.nextToken == st.nextToken && n.st.connections == st.connections
              && Issued(n.task) == Issued(t) && Removed(n.task) == Removed(t)
  {
    hide Lookup, OriginOf, LinkOrigin, AdapterOrigin, LinkFailure, Matches, NextChunk, Answered;
  }

  lemma InitialTouchesNone(t: Task)
    requires Initial(t)
    ensures Issued(t).None? && Removed(t).None? && IssuedWeight(t) == 0 && RemovedWeight(t) == 0
  {
  }

  lemma SettledSpawn(ts: seq<Task>, t: Task, live: map<nat, DeviceId>)
    requires Settled(ts, live) && Issued(t).None?
    ensures Settled(ts + [t], live)
  {
    hide Issued, Removed;
    forall u | u in ts + [t] && Issued(u).Some? && Issued(u).value !in live
      ensures exists v <- ts + [t] :: Removed(v) == Issued(u)
    {
      assert u in ts;
      var v :| v in ts && Removed(v) == Issued(u);
      assert v in ts + [t];
    }
  }

  lemma TokensSpawn(s: Sys, t: Task)
    requires Tokens(s) && Initial(t)
    ensures Tokens(s.(tasks := s.tasks + [t]))
  {
    hide Sum, Issued, Removed, IssuedWeight, RemovedWeight, Settled;
    var s' := s.(tasks := s.tasks + [t]);
    SumAppend(s.tasks, [t], IssuedWeight);
    SumAppend(s.tasks, [t], RemovedWeight);
    SumOne(t, IssuedWeight);
    SumOne(t, RemovedWeight);
    InitialTouchesNone(t);
    SettledSpawn(s.tasks, t, s.st.connections);
    assert forall u <- s'.tasks :: u in s.tasks || u == t;
  }

  /** A task that changes without touching tokens. */
  lemma TokensSame(s: Sys, i: nat, t: Task, st: State)
    requires Tokens(s) && i < |s.tasks|
    requires st.nextToken == s.st.nextToken && st.connections == s.st.connections
    requires Issued(t) == Issued(s.tasks[i]) && Removed(t) == Removed(s.tasks[i])
    ensures Tokens(s.(st := st, tasks := s.tasks[i := t]))
  {
    hide Sum, Issued, Removed, Settled;
    var s' := s.(st := st, tasks := s.tasks[i := t]);
    SumUpdate(s.tasks, i, t, IssuedWeight);
    SumUpdate(s.tasks, i, t, RemovedWeight);
    SettledStep(s.tasks, i, t, s.st.connections, st.connections);
    assert s.tasks[i] in s.tasks;
    assert forall u <- s'.tasks :: u in s.tasks || u == t;
  }

  /** Every token issued and no longer live is one some task removed. */
  ghost predicate Settled(ts: seq<Task>, live: map<nat, DeviceId>) {
    forall t <- ts :: Issued(t).Some? && Issued(t).value !in live ==> exists u <- ts :: Removed(u) == Issued(t)
  }

  /** A task changes without forgetting what it removed; a token it announces anew is live, and one
      that ceases to be live is one it removed. */
  lemma SettledStep(ts: seq<Task>, i: nat, t: Task, live: map<nat, DeviceId>, live': map<nat, DeviceId>)
    requires Settled(ts, live) && i < |ts|
    requires Removed(ts[i]).None? || Removed(t) == Removed(ts[i])
    requires Issued(t).None? || Issued(t) == Issued(ts[i]) || Issued(t).value in live'
    requires forall k :: k in live && k !in live' ==> Removed(t) == Some(k)
    ensures Settled(ts[i := t], live')
  {
    hide Issued, Removed;
    var ts' := ts[i := t];
    assert ts'[i] == t && t in ts';
    forall u | u in ts' && Issued(u).Some? && Issued(u).value !in live'
      ensures exists v <- ts' :: Removed(v) == Issued(u)
    {
      var w := if u == t then ts[i] else u;
      assert w in ts && Issued(w) == Issued(u);
      if Issued(u).value !in live {
        var j :| 0 <= j < |ts| && Removed(ts[j]) == Issued(w);
        assert ts'[j] in ts' && Removed(ts'[j]) == Issued(u);
      }
    }
  }

  lemma TokensIssue(s: Sys, i: nat, t: Task, st: State, id: DeviceId)
    requires Tokens(s) && i < |s.tasks|
    requires st.nextToken == s.st.nextToken + 1 && st.connections == s.st.connections[s.st.nextToken := id]
    requires Issued(s.tasks[i]).None? && Issued(t) == Some(s.st.nextToken)
    requires Removed(s.tasks[i]).None? && Removed(t).None?
    ensures Tokens(s.(st := st, tasks := s.tasks[i := t]))
  {
    hide Sum, Issued, Removed, Settled;
    var s' := s.(st := st, tasks := s.tasks[i := t]);
    SumUpdate(s.tasks, i, t, IssuedWeight);
    SumUpdate(s.tasks, i, t, RemovedWeight);
    assert s.st.nextToken !in s.st.connections;
    assert st.connections.Keys == s.st.connections.Keys + {s.st.nextToken};
    assert forall u <- s'.tasks :: u in s.tasks || u == t;
    SettledStep(s.tasks, i, t, s.st.connections, st.connections);
    assert forall j :: 0 <= j < |s.tasks| ==> s.tasks[j] in s.tasks;
  }

  lemma TokensRemove(s: Sys, i: nat, t: Task, st: State, token: nat)
    requires Tokens(s) && i < |s.tasks| && token in s.st.connections
    requires st.nextToken == s.st.nextToken && st.connections == s.st.connections - {token}
    requires Issued(s.tasks[i]).None? && Issued(t).None?
    requires Removed(s.tasks[i]).None? && Removed(t) == Some(token)
    ensures Tokens(s.(st := st, tasks := s.tasks[i := t]))
  {
    hide Sum, Issued, Removed, Settled;
    var s' := s.(st := st, tasks := s.tasks[i := t]);
    SumUpdate(s.tasks, i, t, IssuedWeight);
    SumUpdate(s.tasks, i, t, RemovedWeight);
    assert s.st.connections.Keys == st.connections.Keys + {token};
    assert forall u <- s'.tasks :: u in s.tasks || u == t;
    assert forall j :: 0 <= j < |s.tasks| ==> s.tasks[j] in s.tasks;
    SettledStep(s.tasks, i, t, s.st.connections, st.connections);
  }

  lemma TokensStep(m: Config, s: Sys, a: Action)
    requires Tokens(s) && Enabled(s, a)
    ensures Tokens(Apply(m, s, a))
  {
    hide Step, Tokens, Issued, Removed;
    match a
    case Spawn(t) => TokensSpawn(s, t);
    case Run(i, r) =>
      var t := s.tasks[i];
      var n := Step(m, s.st, t, r);
      StepTokens(m, s.st, t, r);
      if t.ConnectAlloc? {
        TokensIssue(s, i, n.task, n.st, t.dev.id);
      } else if t.Disconnect? && t.conn.token in s.st.connections {
        TokensRemove(s, i, n.task, n.st, t.conn.token);
      } else {
        TokensSame(s, i, n.task, n.st);
      }
      TokensOnly(s.(st := n.st, tasks := s.tasks[i := n.task]), Apply(m, s, a));
    case Deliver(_) => TokensOnly(s, Apply(m, s, a));
  }

  lemma TokensOnly(s: Sys, s': Sys)
    requires Tokens(s) && s'.st == s.st && s'.tasks == s.tasks
    ensures Tokens(s')
  {
    hide Sum, Issued, Removed, Settled;
  }

  // ---------------------------------------------------------------- the paired set

  ghost predicate CompletedEvent(es: seq<Event>, d: DeviceId) {
    exists e <- es :: e.kind.PairingCompleted? && e.origin.peer == d
  }

  /** The device a task has entered in the paired set without having announced it yet. */
  function Confirms(t: Task): Option<DeviceId> {
    if t.Pairing? && t.stage.Confirming? then Some(t.dev.id)
    else if t.Accept? && t.left != [] && t.stage.Confirming? then Some(t.left[0].id)
    else None
  }

  ghost predicate AboutToConfirm(ts: seq<Task>, d: DeviceId) {
    exists t <- ts :: Confirms(t) == Some(d)
  }

  ghost predicate PairedInv(s: Sys) {
    forall d :: d in s.st.paired <==> CompletedEvent(s.stamped, d) || AboutToConfirm(s.tasks, d)
  }

  /** How a step bears on the paired set: it enters the device it is about to confirm, or announces
      the one it confirmed, or leaves both alone. */
  predicate PairsRight(st: State, t: Task, n: Next) {
    if Confirms(t).Some? then
      && n.st.paired == st.paired && Confirms(n.task).None?
      && n.event.Some? && n.event.value.kind.PairingCompleted? && n.event.value.origin.peer == Confirms(t).value
    else
      && (n.event.Some? ==> !n.event.value.kind.PairingCompleted?)
      && n.st.paired == st.paired + (if Confirms(n.task).Some? then {Confirms(n.task).value} else {})
  }

  lemma PairingPairs(m: Config, st: State, t: Task, r: Response)
    requires t.Pairing? || t.Accept?
    ensures PairsRight(st, t, Step(m, st, t, r))
  {
    hide ConnectStep, DisconnectStep, PushStep, DiscoverStep, OpenStep;
  }

  lemma OthersPair(m: Config, st: State, t: Task, r: Response)
    requires !Ended(t) && !t.Pairing? && !t.Accept?
    ensures PairsRight(st, t, Step(m, st, t, r))
  {
    hide PairStep, AcceptStep, Lookup, OriginOf, LinkOrigin, AdapterOrigin, LinkFailure, Matches, NextChunk;
  }

  lemma StepPairs(m: Config, st: State, t: Task, r: Response)
    requires !Ended(t)
    ensures PairsRight(st, t, Step(m, st, t, r))
  {
    hide Step, PairsRight;
    if t.Pairing? || t.Accept? {
      PairingPairs(m, st, t, r);
    } else {
      OthersPair(m, st, t, r);
    }
  }

  lemma PairedUpdate(s: Sys, i: nat, n: Next)
    requires PairedInv(s) && i < |s.tasks|
    requires PairsRight(s.st, s.tasks[i], n)
    ensures PairedInv(Logged(s.(st := n.st, tasks := s.tasks[i := n.task]), n.event))
  {
    hide Confirms;
    var s' := Logged(s.(st := n.st, tasks := s.tasks[i := n.task]), n.event);
    forall d
      ensures d in s'.st.paired <==> CompletedEvent(s'.stamped, d) || AboutToConfirm(s'.tasks, d)
    {
      CompletedPush(s.stamped, n.event, d);
      ConfirmUpdate(s.tasks, i, n.task, d);
    }
  }

  lemma CompletedPush(es: seq<Event>, event: Option<Event>, d: DeviceId)
    ensures CompletedEvent(if event.Some? then es + [event.value] else es, d)
       <==> CompletedEvent(es, d) || (event.Some? && event.value.kind.PairingCompleted? && event.value.origin.peer == d)
  {
    if event.Some? {
      assert forall e :: e in es + [event.value] <==> e in es || e == event.value;
    }
  }

  lemma ConfirmUpdate(ts: seq<Task>, i: nat, t: Task, d: DeviceId)
    requires i < |ts|
    ensures AboutToConfirm(ts[i := t], d) ==> AboutToConfirm(ts, d) || Confirms(t) == Some(d)
    ensures AboutToConfirm(ts, d) ==> AboutToConfirm(ts[i := t], d) || Confirms(ts[i]) == Some(d)
    ensures Confirms(t) == Some(d) ==> AboutToConfirm(ts[i := t], d)
    ensures Confirms(ts[i]) == Some(d) ==> AboutToConfirm(ts, d)
  {
    hide Confirms;
    assert ts[i := t][i] == t;
    if AboutToConfirm(ts, d) {
      var j :| 0 <= j < |ts| && Confirms(ts[j]) == Some(d);
      assert j != i ==> ts[i := t][j] == ts[j];
    }
  }

  lemma PairedStep(m: Config, s: Sys, a: Action)
    requires PairedInv(s) && Enabled(s, a)
    ensures PairedInv(Apply(m, s, a))
  {
    hide Step;
    match a
    case Run(i, r) =>
      StepPairs(m, s.st, s.tasks[i], r);
      PairedUpdate(s, i, Step(m, s.st, s.tasks[i], r));
    case Spawn(t) =>
      assert Confirms(t).None?;
      assert forall u :: u in s.tasks + [t] <==> u in s.tasks || u == t;
    case Deliver(_) =>
  }

  // ---------------------------------------------------------------- pushes

  /** How far a push has come: whole chunks, never past the scripted limit. */
  predicate OnCourse(p: Push) {
    var c := ChunkSize(p.dev);
    && p.transferred == Min(p.chunks * c, p.file.len)
    && (p.chunks > 0 ==> (p.chunks - 1) * c < p.transferred)
    && (p.dev.failAfter.Some? ==> p.transferred <= p.dev.failAfter.value)
  }

  /** What a push must come to, by its file and the device's script alone. */
  predicate EndsAsScripted(p: Push, result: Result<Receipt, TransportError>) {
    var c := Max(p.dev.chunkSize, 1);
    if p.dev.failAfter.Some? && p.file.len > p.dev.failAfter.value then
      result == Err(TransferFailed(p.dev.failAfter.value / c * c, LinkFailure(p.dev.failAfter.value)))
    else
      && result.Ok? && result.value.name == p.file.name && result.value.bytes == p.file.len
      && result.value.chunks == (p.file.len + c - 1) / c
  }

  predicate Scripted(m: Config, t: Task) {
    if t.PushEnded? then EndsAsScripted(t.p, t.result) && Lookup(m.devices, t.p.conn.peer) == Some(t.p.dev)
    else if IsPush(t) then
      && OnCourse(t.p) && Lookup(m.devices, t.p.conn.peer) == Some(t.p.dev)
      && (t.PushComplete? ==> t.p.transferred == t.p.file.len)
    else true
  }

  lemma ChunkStep(p: Push)
    requires OnCourse(p) && NextChunk(p) > 0
    ensures var p' := p.(transferred := p.transferred + NextChunk(p), chunks := p.chunks + 1);
            (p.dev.failAfter.Some? ==> p'.transferred <= p.dev.failAfter.value) ==> OnCourse(p')
    ensures p.transferred == p.chunks * ChunkSize(p.dev)
  {
    var c := ChunkSize(p.dev);
    assert (p.chunks + 1) * c == p.chunks * c + c;
  }

  lemma LimitReached(p: Push)
    requires OnCourse(p) && NextChunk(p) > 0
    requires p.dev.failAfter.Some? && p.transferred + NextChunk(p) > p.dev.failAfter.value
    ensures EndsAsScripted(p, Err(TransferFailed(p.transferred, LinkFailure(p.dev.failAfter.value))))
  {
    hide LinkFailure;
    ChunkStep(p);
    QuotientIs(p.dev.failAfter.value, ChunkSize(p.dev), p.chunks);
  }

  lemma AllChunks(p: Push, duration: nat)
    requires OnCourse(p) && p.transferred == p.file.len
    ensures EndsAsScripted(p, Ok(Receipt(p.file.name, p.transferred, p.chunks, duration)))
  {
    hide LinkFailure;
    var c := ChunkSize(p.dev);
    assert p.chunks > 0 ==> (p.chunks - 1) * c == p.chunks * c - c;
    QuotientIs(p.file.len + c - 1, c, p.chunks);
  }

  /** Every step of a push keeps it on course, and it ends as scripted, whatever runs beside it. */
  lemma StepScripted(m: Config, st: State, t: Task, r: Response)
    requires !Ended(t) && Scripted(m, t)
    ensures Scripted(m, Step(m, st, t, r).task)
  {
    hide Lookup, OriginOf, LinkOrigin, AdapterOrigin, LinkFailure, Matches, NextChunk, Answered, OnCourse, EndsAsScripted;
    if t.PushChunk? {
      if NextChunk(t.p) == 0 {
        NothingLeft(t.p);
      } else if t.p.dev.failAfter.Some? && t.p.transferred + NextChunk(t.p) > t.p.dev.failAfter.value {
        LimitReached(t.p);
      } else {
        ChunkStep(t.p);
      }
    } else if t.PushComplete? {
      AllChunks(t.p, t.duration);
    } else if t.PushFile? {
      FreshOnCourse(t);
    } else if t.PushClock? {
      StartDoesNotMatter(t.p, st.clock);
    }
  }

  lemma NothingLeft(p: Push)
    requires OnCourse(p) && NextChunk(p) == 0
    ensures p.transferred == p.file.len
  {
  }

  lemma FreshOnCourse(t: Task)
    requires t.PushFile?
    ensures forall d :: OnCourse(Push(t.conn, d, t.file, 0, 0, 0))
  {
  }

  lemma StartDoesNotMatter(p: Push, start: nat)
    requires OnCourse(p)
    ensures OnCourse(p.(start := start))
  {
  }

  ghost predicate AllScripted(m: Config, s: Sys) {
    forall t <- s.tasks :: Scripted(m, t)
  }

  lemma ScriptedStep(m: Config, s: Sys, a: Action)
    requires AllScripted(m, s) && Enabled(s, a)
    ensures AllScripted(m, Apply(m, s, a))
  {
    hide Step, Scripted;
    match a
    case Spawn(t) =>
      InitialScripted(m, t);
      assert forall u <- s.tasks + [t] :: u in s.tasks || u == t;
    case Run(i, r) =>
      assert s.tasks[i] in s.tasks;
      StepScripted(m, s.st, s.tasks[i], r);
      var t := Step(m, s.st, s.tasks[i], r).task;
      assert forall u <- s.tasks[i := t] :: u in s.tasks || u == t;
    case Deliver(_) =>
  }

  lemma InitialScripted(m: Config, t: Task)
    requires Initial(t)
    ensures Scripted(m, t)
  {
  }

  // ---------------------------------------------------------------- every reachable state

  ghost predicate Inv(m: Config, s: Sys) {
    LogInv(s) && Books(s) && Tokens(s) && PairedInv(s) && AllScripted(m, s)
  }

  lemma StartInv(m: Config)
    ensures Inv(m, START)
  {
  }

  lemma {:induction false} Reachable(m: Config, s: Sys, actions: seq<Action>)
    requires Inv(m, s) && Follow(m, s, actions).Some?
    ensures Inv(m, Follow(m, s, actions).value)
    decreases |actions|
  {
    hide LogInv, Books, Tokens, PairedInv, AllScripted, Apply;
    if actions != [] {
      LogStep(m, s, actions[0]);
      BooksStep(m, s, actions[0]);
      TokensStep(m, s, actions[0]);
      PairedStep(m, s, actions[0]);
      ScriptedStep(m, s, actions[0]);
      Reachable(m, Apply(m, s, actions[0]), actions[1..]);
    }
  }

  // ---------------------------------------------------------------- the main results

  /** In every state any interleaving can reach: tokens are issued and removed at most once and the
      live connections are exactly those issued and not removed. */
  lemma TokenSafety(m: Config, actions: seq<Action>)
    requires Follow(m, START, actions).Some?
    ensures Tokens(Follow(m, START, actions).value)
  {
    hide LogInv, Books, Tokens, PairedInv, AllScripted, Apply;
    StartInv(m);
    Reachable(m, START, actions);
  }

  /** In every state any interleaving can reach: the stamps are 0, 1, 2, ... at times that never go
      back, and every stamped event has arrived or is still to arrive, once. */
  lemma StampsInOrder(m: Config, actions: seq<Action>)
    requires Follow(m, START, actions).Some?
    ensures LogInv(Follow(m, START, actions).value)
  {
    hide LogInv, Books, Tokens, PairedInv, AllScripted, Apply;
    StartInv(m);
    Reachable(m, START, actions);
  }

  lemma {:induction false} SummaryBytes(es: seq<Event>)
    ensures SummaryOf(es).bytes == Sum(es, ChunkWeight)
  {
    hide Label, IsFailure, PayloadBytes;
    if es != [] {
      var front, e := es[..|es| - 1], es[|es| - 1];
      SummaryBytes(front);
      assert es == front + [e];
      SumAppend(front, [e], ChunkWeight);
      SumOne(e, ChunkWeight);
    }
  }

  /** The total as documented is the total as computed plus the bytes of all completed transfers. */
  lemma {:induction false} DocumentedSum(es: seq<Event>)
    ensures Sum(es, DocumentedWeight) == SummaryOf(es).bytes + Sum(es, CompletedWeight)
  {
    SummaryBytes(es);
    DocumentedSplit(es);
  }

  lemma {:induction false} DocumentedSplit(es: seq<Event>)
    ensures Sum(es, DocumentedWeight) == Sum(es, ChunkWeight) + Sum(es, CompletedWeight)
  {
    hide PayloadBytes, CompletedBytes;
    if es != [] {
      DocumentedSplit(es[1..]);
    }
  }

  /** The analyzer's byte total is the documented one exactly when no transfer of more than zero
      bytes has completed. */
  lemma DocumentedTotalIff(es: seq<Event>)
    ensures Sum(es, DocumentedWeight) == SummaryOf(es).bytes
       <==> forall e <- es :: CompletedBytes(e.kind) == 0
  {
    DocumentedSum(es);
    CompletedNothing(es);
  }

  lemma {:induction false} CompletedNothing(es: seq<Event>)
    ensures Sum(es, CompletedWeight) >= 0
    ensures Sum(es, CompletedWeight) == 0 <==> forall e <- es :: CompletedBytes(e.kind) == 0
  {
    hide CompletedBytes;
    if es != [] {
      CompletedNothing(es[1..]);
      assert es == [es[0]] + es[1..];
    }
  }

  /** When everything has ended, the documented reading counts every receipt twice. */
  lemma DocumentedCountsTwice(m: Config, actions: seq<Action>)
    requires Follow(m, START, actions).Some? && Quiescent(Follow(m, START, actions).value)
    ensures var s := Follow(m, START, actions).value;
            Sum(Analyze(s.arrived).events, DocumentedWeight) == 2 * Sum(s.tasks, ReceiptBytes) + Sum(s.tasks, FailureBytes)
  {
    hide Tokens, PairedInv, AllScripted, Apply, SummaryOf, SortBySeq, ReceiptBytes, FailureBytes, MovedBytes, Sum;
    StartInv(m);
    Reachable(m, START, actions);
    BytesConserved(m, actions);
    var s := Follow(m, START, actions).value;
    DocumentedSum(s.stamped);
    assert Balanced(s, CompletedWeight, ReceiptBytes);
  }

  lemma {:induction false} EndedWeights(ts: seq<Task>, d: DeviceId)
    requires forall t <- ts :: Ended(t)
    ensures Sum(ts, MovedBytes) == Sum(ts, ReceiptBytes) + Sum(ts, FailureBytes)
    ensures Sum(ts, LinkedWeight) == Sum(ts, IssuedWeight)
    ensures Sum(ts, UnlinkedWeight) == Sum(ts, RemovedWeight)
    ensures Sum(ts, UnderwayWeight(d)) == 0
  {
    if ts != [] {
      EndedWeights(ts[1..], d);
      assert Ended(ts[0]);
    }
  }

  /** When everything has ended and arrived, in any order: the analyzer recovers the stamp order,
      and its byte total is the bytes of all receipts plus the bytes of all failed transfers. */
  lemma BytesConserved(m: Config, actions: seq<Action>)
    requires Follow(m, START, actions).Some? && Quiescent(Follow(m, START, actions).value)
    ensures var s := Follow(m, START, actions).value;
            && Analyze(s.arrived) == Analysis(s.stamped)
            && Total(Analyze(s.arrived)).bytes == Sum(s.tasks, ReceiptBytes) + Sum(s.tasks, FailureBytes)
  {
    hide Tokens, PairedInv, AllScripted, Apply, SummaryOf, SortBySeq, ReceiptBytes, FailureBytes, MovedBytes;
    StartInv(m);
    Reachable(m, START, actions);
    var s := Follow(m, START, actions).value;
    ArrivalsRecoverStampOrder(s.stamped, s.arrived);
    SummaryBytes(s.stamped);
    EndedWeights(s.tasks, DeviceId([0, 0, 0, 0, 0, 0], Public));
  }

  /** At that point the connected events exceed the disconnected ones by the live connections, and
      every started pairing of every device has completed or failed, once. */
  lemma LinksAndPairingsSettled(m: Config, actions: seq<Action>, d: DeviceId)
    requires Follow(m, START, actions).Some? && Quiescent(Follow(m, START, actions).value)
    ensures var s := Follow(m, START, actions).value;
            && Sum(s.stamped, ConnectedWeight) - Sum(s.stamped, DisconnectedWeight) == |s.st.connections|
            && Sum(s.stamped, PairingWeight(d)) == 0
            && (d in s.st.paired <==> CompletedEvent(s.stamped, d))
  {
    hide LogInv, AllScripted, Apply, Issued, Removed, Confirms, LinkedWeight, UnlinkedWeight, IssuedWeight, RemovedWeight;
    StartInv(m);
    Reachable(m, START, actions);
    var s := Follow(m, START, actions).value;
    EndedWeights(s.tasks, d);
    EndedConfirmsNobody();
    assert Balanced(s, PairingWeight(d), UnderwayWeight(d));
  }

  lemma EndedConfirmsNobody()
    ensures forall t :: Ended(t) ==> Confirms(t).None?
  {
  }

  /** In every reachable state the pairings of a device that have started and not finished are those
      some task is in the middle of. */
  lemma PairingsUnderway(m: Config, actions: seq<Action>, d: DeviceId)
    requires Follow(m, START, actions).Some?
    ensures var s := Follow(m, START, actions).value;
            Sum(s.stamped, PairingWeight(d)) == Sum(s.tasks, UnderwayWeight(d))
  {
    hide LogInv, AllScripted, Tokens, PairedInv, Apply, Underway;
    StartInv(m);
    Reachable(m, START, actions);
    assert Balanced(Follow(m, START, actions).value, PairingWeight(d), UnderwayWeight(d));
  }

  /** Every push that ends does so as its file and the device's script say, whatever ran beside it. */
  lemma PushesEndAsScripted(m: Config, actions: seq<Action>, t: Task)
    requires Follow(m, START, actions).Some? && t in Follow(m, START, actions).value.tasks && t.PushEnded?
    ensures EndsAsScripted(t.p, t.result) && Lookup(m.devices, t.p.conn.peer) == Some(t.p.dev)
    ensures t.result.Err? <==> t.p.dev.failAfter.Some? && t.p.file.len > t.p.dev.failAfter.value
  {
    hide LogInv, Books, Tokens, PairedInv, Apply, OnCourse, LinkFailure;
    StartInv(m);
    Reachable(m, START, actions);
    assert Scripted(m, t);
  }

  /** Two runs that stamped the same events give the same report, however delivery went. */
  lemma ReportIgnoresDelivery(m: Config, one: seq<Action>, two: seq<Action>, d: SplitBy)
    requires Follow(m, START, one).Some? && Quiescent(Follow(m, START, one).value)
    requires Follow(m, START, two).Some? && Quiescent(Follow(m, START, two).value)
    requires Follow(m, START, one).value.stamped == Follow(m, START, two).value.stamped
    ensures var a, b := Analyze(Follow(m, START, one).value.arrived), Analyze(Follow(m, START, two).value.arrived);
            Total(a) == Total(b) && BreakdownBy(a, d) == BreakdownBy(b, d) && Anomalies(a.events) == Anomalies(b.events)
  {
    hide SummaryOf, SortBySeq, BreakdownBy, Follow, Anomalies;
    BytesConserved(m, one);
    BytesConserved(m, two);
  }
}
