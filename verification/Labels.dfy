/** Whose name progress updates carry when several pushes run side by side. */
module Labels {
  import opened Bytes
  import opened Events
  import opened Metrics
  import opened Analyzer
  import opened Mock
  import opened MockSystem
  import opened Observer

  /** An event kind and the operation that stamped it. */
  datatype Tagged = Tagged(owner: nat, kind: Kind)

  type Names = nat -> string

  function KindsOf(xs: seq<Tagged>): seq<Kind> {
    seq(|xs|, i requires 0 <= i < |xs| => xs[i].kind)
  }

  // ---------------------------------------------------------------- labels of tagged events

  /** The `j`-th event starts the transfer the `k`-th reports on. */
  predicate StartOf(xs: seq<Tagged>, j: nat, k: nat) {
    j <= k < |xs| && xs[j].kind.TransferStarted? && xs[j].owner == xs[k].owner
  }

  /** Starts carry the name of their push, no push starts twice, and every report follows a start. */
  ghost predicate WellTagged(xs: seq<Tagged>, name: Names) {
    && (forall k :: 0 <= k < |xs| && xs[k].kind.TransferStarted? ==> xs[k].kind.name == name(xs[k].owner))
    && (forall j, k :: 0 <= j < k < |xs| && xs[j].kind.TransferStarted? && xs[k].kind.TransferStarted? ==>
          xs[j].owner != xs[k].owner)
    && (forall k :: 0 <= k < |xs| && Reports(xs[k].kind) ==> exists j: nat :: StartOf(xs, j, k))
  }

  /** The `k`-th event makes an update under a name that is not that of the push it reports on. */
  predicate MislabelledAt(w: Watcher, xs: seq<Tagged>, name: Names, k: nat) {
    k < |xs| && Reports(xs[k].kind) && MadeAt(w, KindsOf(xs), k).name != name(xs[k].owner)
  }

  /** Every update carries the name of the push it reports on. */
  ghost predicate RightlyLabelled(w: Watcher, xs: seq<Tagged>, name: Names) {
    forall k: nat :: !MislabelledAt(w, xs, name, k)
  }

  /** The `l`-th event starts a transfer of another name between the start of a push and a report of
      it, and no start of its own name follows in time. */
  ghost predicate Misleads(xs: seq<Tagged>, name: Names, j: nat, l: nat, k: nat) {
    && StartOf(xs, j, k) && Reports(xs[k].kind)
    && j < l < k && xs[l].kind.TransferStarted? && name(xs[l].owner) != name(xs[k].owner)
    && forall i :: l < i < k && xs[i].kind.TransferStarted? ==> name(xs[i].owner) != name(xs[k].owner)
  }

  /** Another push starts between the start of a push and a report of it. */
  predicate Overlaps(xs: seq<Tagged>, j: nat, l: nat, k: nat) {
    && StartOf(xs, j, k) && Reports(xs[k].kind)
    && j < l < k && xs[l].kind.TransferStarted? && xs[l].owner != xs[k].owner
  }

  /** No two pushes that start have the same name. */
  predicate DistinctNames(xs: seq<Tagged>) {
    forall j, k :: 0 <= j < k < |xs| && xs[j].kind.TransferStarted? && xs[k].kind.TransferStarted? ==>
      xs[j].kind.name != xs[k].kind.name
  }

  /** The last start up to the `k`-th event is the `l`-th event. */
  predicate IsLatest(xs: seq<Tagged>, l: nat, k: nat) {
    && l <= k < |xs| && xs[l].kind.TransferStarted?
    && forall i :: l < i <= k ==> !xs[i].kind.TransferStarted?
  }

  lemma {:induction false} FindLatest(xs: seq<Tagged>, j: nat, k: nat) returns (l: nat)
    requires j <= k < |xs| && xs[j].kind.TransferStarted?
    ensures j <= l && IsLatest(xs, l, k)
    decreases k
  {
    if xs[k].kind.TransferStarted? {
      l := k;
    } else {
      l := FindLatest(xs, j, k - 1);
    }
  }

  lemma {:induction false} LatestNamed(before: string, ks: seq<Kind>, l: nat)
    requires l < |ks| && ks[l].TransferStarted? && forall i :: l < i < |ks| ==> !ks[i].TransferStarted?
    ensures LatestStart(before, ks) == ks[l].name
    decreases |ks|
  {
    if l < |ks| - 1 {
      LatestNamed(before, ks[..|ks| - 1], l);
    }
  }

  lemma LabelAt(w: Watcher, xs: seq<Tagged>, name: Names, l: nat, k: nat)
    requires WellTagged(xs, name) && IsLatest(xs, l, k) && Reports(xs[k].kind)
    ensures MadeAt(w, KindsOf(xs), k).name == name(xs[l].owner)
  {
    hide MadeAt;
    var ks := KindsOf(xs);
    LabelIsLatestStart(w, ks, k);
    LatestNamed(w.name, ks[..k + 1], l);
  }

  lemma StartedBefore(xs: seq<Tagged>, name: Names, j: nat, k: nat)
    requires WellTagged(xs, name) && StartOf(xs, j, k) && j < k
    ensures !xs[k].kind.TransferStarted?
  {
  }

  lemma MisleadingMislabels(w: Watcher, xs: seq<Tagged>, name: Names, j: nat, l: nat, k: nat)
    requires WellTagged(xs, name) && Misleads(xs, name, j, l, k)
    ensures MislabelledAt(w, xs, name, k)
  {
    hide MadeAt, WellTagged, KindsOf;
    StartedBefore(xs, name, j, k);
    var last := FindLatest(xs, l, k);
    LabelAt(w, xs, name, last, k);
  }

  lemma MislabelMisled(w: Watcher, xs: seq<Tagged>, name: Names, k: nat) returns (j: nat, l: nat)
    requires WellTagged(xs, name) && MislabelledAt(w, xs, name, k)
    ensures Misleads(xs, name, j, l, k)
  {
    hide MadeAt;
    j :| StartOf(xs, j, k);
    l := FindLatest(xs, j, k);
    LabelAt(w, xs, name, l, k);
  }

  /** Every update carries its own push's name exactly when no start misleads. */
  lemma LabelledIff(w: Watcher, xs: seq<Tagged>, name: Names)
    requires WellTagged(xs, name)
    ensures RightlyLabelled(w, xs, name) <==> !exists j: nat, l: nat, k: nat :: Misleads(xs, name, j, l, k)
  {
    hide WellTagged, Misleads, MislabelledAt;
    forall j: nat, l: nat, k: nat | Misleads(xs, name, j, l, k)
      ensures MislabelledAt(w, xs, name, k)
    {
      MisleadingMislabels(w, xs, name, j, l, k);
    }
    if !RightlyLabelled(w, xs, name) {
      var k: nat :| MislabelledAt(w, xs, name, k);
      var j, l := MislabelMisled(w, xs, name, k);
    }
  }

  /** Among pushes of different names that means: no other push starts between the start of a push
      and a report of it. */
  lemma DistinctLabelledIff(w: Watcher, xs: seq<Tagged>, name: Names)
    requires WellTagged(xs, name) && DistinctNames(xs)
    ensures RightlyLabelled(w, xs, name) <==> !exists j: nat, l: nat, k: nat :: Overlaps(xs, j, l, k)
  {
    hide RightlyLabelled, Reports;
    LabelledIff(w, xs, name);
    forall j: nat, l: nat, k: nat | Misleads(xs, name, j, l, k)
      ensures Overlaps(xs, j, l, k)
    {
    }
    forall j: nat, l: nat, k: nat | Overlaps(xs, j, l, k)
      ensures Misleads(xs, name, j, l, k)
    {
      assert xs[j].kind.name == name(xs[j].owner) == name(xs[k].owner);
    }
  }

  // ---------------------------------------------------------------- the tags of a run

  /** The event an action stamps, with the index of the task that stamped it. */
  function Stamps(m: Config, s: Sys, a: Action): seq<Tagged>
    requires Enabled(s, a)
  {
    if !a.Run? then []
    else match Step(m, s.st, s.tasks[a.i], a.r).event
      case None => []
      case Some(e) => [Tagged(a.i, e.kind)]
  }

  /** All events a run stamps, in stamp order. */
  function Tags(m: Config, s: Sys, actions: seq<Action>): seq<Tagged>
    requires Follow(m, s, actions).Some?
    decreases |actions|
  {
    if actions == [] then []
    else Stamps(m, s, actions[0]) + Tags(m, Apply(m, s, actions[0]), actions[1..])
  }

  /** The name of the file a task pushes. */
  function NameOf(t: Task): string {
    if t.PushFile? then t.file.name
    else if IsPush(t) || t.PushEnded? then t.p.file.name
    else ""
  }

  function NamesIn(ts: seq<Task>): Names {
    (i: nat) => if i < |ts| then NameOf(ts[i]) else ""
  }

  /** A push that has announced its start. */
  predicate Begun(t: Task) {
    t.PushChunk? || t.PushReport? || t.PushComplete? || t.PushEnded?
  }

  ghost predicate TagInv(ts: seq<Task>, xs: seq<Tagged>) {
    && WellTagged(xs, NamesIn(ts))
    && (forall k :: 0 <= k < |xs| && xs[k].kind.TransferStarted? ==> xs[k].owner < |ts| && Begun(ts[xs[k].owner]))
    && (forall i :: 0 <= i < |ts| && Begun(ts[i]) ==> HasStarted(xs, i))
  }

  ghost predicate HasStarted(xs: seq<Tagged>, i: nat) {
    exists k :: 0 <= k < |xs| && xs[k].kind.TransferStarted? && xs[k].owner == i
  }

  /** What a step of a task reports on, and that it keeps its name. */
  lemma StepReports(m: Config, st: State, t: Task, r: Response)
    requires !Ended(t)
    ensures var n := Step(m, st, t, r);
            && (Begun(t) ==> NameOf(n.task) == NameOf(t))
            && (Begun(t) ==> Begun(n.task))
            && (Begun(n.task) && !Begun(t) <==> n.event.Some? && n.event.value.kind.TransferStarted?)
            && (n.event.Some? && n.event.value.kind.TransferStarted? ==> n.event.value.kind.name == NameOf(n.task))
            && (n.event.Some? && Reports(n.event.value.kind) ==> Begun(n.task))
  {
    hide Lookup, OriginOf, LinkOrigin, AdapterOrigin, LinkFailure, Matches, NextChunk, Answered;
  }

  lemma TagQuiet(ts: seq<Task>, xs: seq<Tagged>, i: nat, t: Task)
    requires TagInv(ts, xs) && i < |ts|
    requires Begun(t) == Begun(ts[i]) && (Begun(t) ==> NameOf(t) == NameOf(ts[i]))
    ensures TagInv(ts[i := t], xs)
  {
    hide Begun, NameOf, Reports;
  }

  lemma StartsAfter(xs: seq<Tagged>, x: Tagged)
    ensures forall i: nat :: HasStarted(xs + [x], i) <==> HasStarted(xs, i) || (x.kind.TransferStarted? && x.owner == i)
    ensures forall j: nat, k: nat :: k < |xs| ==> (StartOf(xs + [x], j, k) <==> StartOf(xs, j, k))
  {
    forall i: nat
      ensures HasStarted(xs + [x], i) <==> HasStarted(xs, i) || (x.kind.TransferStarted? && x.owner == i)
    {
      assert (xs + [x])[|xs|] == x;
      if HasStarted(xs, i) {
        var k :| 0 <= k < |xs| && xs[k].kind.TransferStarted? && xs[k].owner == i;
        assert (xs + [x])[k] == xs[k];
      }
    }
  }

  /** An event is stamped by a task that, if the event reports, has begun. */
  lemma TagPush(ts: seq<Task>, xs: seq<Tagged>, x: Tagged)
    requires TagInv(ts, xs) && x.owner < |ts|
    requires !x.kind.TransferStarted? && (Reports(x.kind) ==> Begun(ts[x.owner]))
    ensures TagInv(ts, xs + [x])
  {
    hide Begun, NameOf, NamesIn, Reports, HasStarted;
    StartsAfter(xs, x);
    var ys := xs + [x];
    if Reports(x.kind) {
      FindStart(xs, x);
    }
  }

  lemma FindStart(xs: seq<Tagged>, x: Tagged)
    requires HasStarted(xs, x.owner)
    ensures exists j: nat :: StartOf(xs + [x], j, |xs|)
  {
    var j :| 0 <= j < |xs| && xs[j].kind.TransferStarted? && xs[j].owner == x.owner;
    assert StartOf(xs + [x], j, |xs|);
  }

  /** A push stamps its start. */
  lemma TagStart(ts: seq<Task>, xs: seq<Tagged>, i: nat, t: Task, x: Tagged)
    requires TagInv(ts, xs) && i < |ts| && !Begun(ts[i]) && Begun(t)
    requires x.owner == i && x.kind.TransferStarted? && x.kind.name == NameOf(t)
    ensures TagInv(ts[i := t], xs + [x])
  {
    hide Begun, NameOf, HasStarted;
    StartsAfter(xs, x);
    NobodyBegan(ts, xs, i);
    assert StartOf(xs + [x], |xs|, |xs|);
  }

  /** A task that has not begun owns no start and so no report. */
  lemma NobodyBegan(ts: seq<Task>, xs: seq<Tagged>, i: nat)
    requires TagInv(ts, xs) && i < |ts| && !Begun(ts[i])
    ensures forall k :: 0 <= k < |xs| && Reports(xs[k].kind) ==> xs[k].owner != i
  {
    hide Begun, NameOf, HasStarted;
  }

  lemma TagStep(m: Config, s: Sys, a: Action, xs: seq<Tagged>)
    requires TagInv(s.tasks, xs) && Enabled(s, a)
    ensures TagInv(Apply(m, s, a).tasks, xs + Stamps(m, s, a))
  {
    hide TagInv, Step, Begun, NameOf, Reports;
    match a
    case Spawn(t) =>
      TagSpawn(s.tasks, xs, t);
      assert xs + [] == xs;
    case Run(i, r) =>
      var t := s.tasks[i];
      var n := Step(m, s.st, t, r);
      StepReports(m, s.st, t, r);
      if n.event.None? {
        TagQuiet(s.tasks, xs, i, n.task);
        assert xs + [] == xs;
      } else if n.event.value.kind.TransferStarted? {
        TagStart(s.tasks, xs, i, n.task, Tagged(i, n.event.value.kind));
      } else {
        TagQuiet(s.tasks, xs, i, n.task);
        TagPush(s.tasks[i := n.task], xs, Tagged(i, n.event.value.kind));
      }
    case Deliver(_) =>
      assert xs + [] == xs;
  }

  lemma TagSpawn(ts: seq<Task>, xs: seq<Tagged>, t: Task)
    requires TagInv(ts, xs) && Initial(t)
    ensures TagInv(ts + [t], xs)
  {
    hide NameOf, Reports, HasStarted;
    assert forall i :: 0 <= i < |ts| ==> (ts + [t])[i] == ts[i];
    assert !Begun(t);
  }

  lemma {:induction false} TagsInv(m: Config, s: Sys, actions: seq<Action>, xs: seq<Tagged>)
    requires TagInv(s.tasks, xs) && Kinds(s.stamped) == KindsOf(xs) && Follow(m, s, actions).Some?
    ensures var s' := Follow(m, s, actions).value;
            var xs' := xs + Tags(m, s, actions);
            TagInv(s'.tasks, xs') && Kinds(s'.stamped) == KindsOf(xs')
    decreases |actions|
  {
    hide TagInv, Kinds, KindsOf, Apply, Stamps;
    if actions == [] {
      assert xs + [] == xs;
    } else {
      var now := Stamps(m, s, actions[0]);
      var later := Tags(m, Apply(m, s, actions[0]), actions[1..]);
      TagStep(m, s, actions[0], xs);
      KindsStamped(m, s, actions[0], xs);
      TagsInv(m, Apply(m, s, actions[0]), actions[1..], xs + now);
      assert xs + (now + later) == xs + now + later;
    }
  }

  lemma KindsStamped(m: Config, s: Sys, a: Action, xs: seq<Tagged>)
    requires Enabled(s, a) && Kinds(s.stamped) == KindsOf(xs)
    ensures Kinds(Apply(m, s, a).stamped) == KindsOf(xs + Stamps(m, s, a))
  {
    hide Step;
    if a.Run? && Step(m, s.st, s.tasks[a.i], a.r).event.Some? {
      var e := Step(m, s.st, s.tasks[a.i], a.r).event.value;
      assert Kinds(s.stamped + [e]) == Kinds(s.stamped) + [e.kind];
      assert KindsOf(xs + [Tagged(a.i, e.kind)]) == KindsOf(xs) + [e.kind];
    } else {
      assert xs + [] == xs;
    }
  }

  // ---------------------------------------------------------------- the main results

  /** Who stamped each event that has arrived, in arrival order; events are looked up by number. */
  function ArrivedTags(xs: seq<Tagged>, arrived: seq<Event>): seq<Tagged>
    requires forall e <- arrived :: e.seq_ < |xs|
  {
    seq(|arrived|, k requires 0 <= k < |arrived| => Tagged(xs[arrived[k].seq_].owner, arrived[k].kind))
  }

  predicate Known(xs: seq<Tagged>, arrived: seq<Event>) {
    forall e <- arrived :: e.seq_ < |xs|
  }

  /** Some event before the `k`-th to arrive is number `i`. */
  predicate ArrivedBefore(arrived: seq<Event>, i: nat, k: nat) {
    exists j :: 0 <= j < k && j < |arrived| && arrived[j].seq_ == i
  }

  /** Each operation's own events arrive in the order it stamped them, as they do when an operation
      hands each event over before its next step; events of different operations arrive anyhow. */
  ghost predicate InOwnOrder(xs: seq<Tagged>, arrived: seq<Event>) {
    && Known(xs, arrived)
    && forall k: nat, i: nat :: k < |arrived| && i < arrived[k].seq_ && xs[i].owner == xs[arrived[k].seq_].owner ==>
         ArrivedBefore(arrived, i, k)
  }

  /** Every arrived event is the stamped one of its number, and none arrives twice. */
  ghost predicate Genuine(xs: seq<Tagged>, arrived: seq<Event>) {
    && Known(xs, arrived)
    && (forall k :: 0 <= k < |arrived| ==> arrived[k].kind == xs[arrived[k].seq_].kind)
    && (forall j, k :: 0 <= j < k < |arrived| ==> arrived[j].seq_ != arrived[k].seq_)
  }

  lemma ArrivedOnce(s: Sys, j: nat, k: nat)
    requires LogInv(s) && j < k < |s.arrived|
    ensures s.arrived[j].seq_ != s.arrived[k].seq_
  {
    var e, f := s.arrived[j], s.arrived[k];
    assert e in multiset(s.arrived) && f in multiset(s.arrived);
    assert e in multiset(s.stamped) && f in multiset(s.stamped);
    if e.seq_ == f.seq_ {
      assert e == f;
      TwiceThere(s.arrived, j, k);
      OnceThere(s.stamped, e);
    }
  }

  lemma TwiceThere(es: seq<Event>, j: nat, k: nat)
    requires j < k < |es| && es[j] == es[k]
    ensures multiset(es)[es[j]] >= 2
  {
    assert es == es[..k] + ([es[k]] + es[k + 1..]);
    assert es[..k][j] == es[j] && es[j] in multiset(es[..k]);
  }

  lemma OnceThere(es: seq<Event>, e: Event)
    requires Stamped(es)
    ensures multiset(es)[e] <= 1
  {
    if e in multiset(es) {
      var i :| 0 <= i < |es| && es[i] == e;
      assert es == es[..i] + ([e] + es[i + 1..]);
      assert e !in es[..i] && e !in es[i + 1..];
    }
  }

  lemma ArrivalsGenuine(s: Sys, xs: seq<Tagged>)
    requires LogInv(s) && Kinds(s.stamped) == KindsOf(xs)
    ensures Genuine(xs, s.arrived)
  {
    hide LogInv;
    forall k | 0 <= k < |s.arrived|
      ensures s.arrived[k].seq_ < |xs| && s.arrived[k].kind == xs[s.arrived[k].seq_].kind
    {
      ArrivedWasStamped(s, k);
      assert Kinds(s.stamped)[s.arrived[k].seq_] == KindsOf(xs)[s.arrived[k].seq_];
    }
    forall j, k | 0 <= j < k < |s.arrived|
      ensures s.arrived[j].seq_ != s.arrived[k].seq_
    {
      ArrivedOnce(s, j, k);
    }
  }

  lemma ArrivedWasStamped(s: Sys, k: nat)
    requires LogInv(s) && k < |s.arrived|
    ensures s.arrived[k].seq_ < |s.stamped| && s.stamped[s.arrived[k].seq_] == s.arrived[k]
  {
    var e := s.arrived[k];
    assert e in multiset(s.arrived);
    assert e in multiset(s.stamped);
    var i :| 0 <= i < |s.stamped| && s.stamped[i] == e;
  }

  /** Arrivals that keep each operation's own order are as well tagged as the stamps. */
  lemma ArrivalsWellTagged(xs: seq<Tagged>, arrived: seq<Event>, name: Names)
    requires WellTagged(xs, name) && Genuine(xs, arrived) && InOwnOrder(xs, arrived)
    ensures WellTagged(ArrivedTags(xs, arrived), name)
  {
    hide Reports;
    var ys := ArrivedTags(xs, arrived);
    forall k | 0 <= k < |ys| && Reports(ys[k].kind)
      ensures exists j: nat :: StartOf(ys, j, k)
    {
      ReportFollowsStart(xs, arrived, name, k);
    }
    forall j, k | 0 <= j < k < |ys| && ys[j].kind.TransferStarted? && ys[k].kind.TransferStarted?
      ensures ys[j].owner != ys[k].owner
    {
      var a, b := arrived[j].seq_, arrived[k].seq_;
      assert a != b;
    }
  }

  lemma ReportFollowsStart(xs: seq<Tagged>, arrived: seq<Event>, name: Names, k: nat)
    requires WellTagged(xs, name) && Genuine(xs, arrived) && InOwnOrder(xs, arrived)
    requires k < |arrived| && Reports(arrived[k].kind)
    ensures exists j: nat :: StartOf(ArrivedTags(xs, arrived), j, k)
  {
    hide Reports;
    var ys := ArrivedTags(xs, arrived);
    var n := arrived[k].seq_;
    var i: nat :| StartOf(xs, i, n);
    if i == n {
      assert StartOf(ys, k, k);
    } else {
      assert ArrivedBefore(arrived, i, k);
      var j: nat :| j < k && arrived[j].seq_ == i;
      assert StartOf(ys, j, k);
    }
  }

  /** The tags of a run's stamps and of its arrivals. */
  lemma RunTagged(m: Config, actions: seq<Action>)
    requires Follow(m, START, actions).Some?
    ensures var s := Follow(m, START, actions).value;
            var xs := Tags(m, START, actions);
            && WellTagged(xs, NamesIn(s.tasks)) && KindsOf(xs) == Kinds(s.stamped)
            && Genuine(xs, s.arrived)
  {
    hide Follow, Tags, Kinds, KindsOf, NamesIn, WellTagged, LogInv, Genuine;
    NothingTagged();
    TagsInv(m, START, actions, []);
    var xs := Tags(m, START, actions);
    assert [] + xs == xs;
    StampsInOrder(m, actions);
    ArrivalsGenuine(Follow(m, START, actions).value, xs);
    TagInvTags(Follow(m, START, actions).value.tasks, xs);
  }

  lemma TagInvTags(ts: seq<Task>, xs: seq<Tagged>)
    requires TagInv(ts, xs)
    ensures WellTagged(xs, NamesIn(ts))
  {
    hide WellTagged;
  }

  /** Any run of the mock, and any order of arrival that keeps each operation's own events in order:
      every update carries the name of its own push exactly when no start misleads, and among pushes
      of different names exactly when none arrives to start between the start of another and a report
      of it. */
  lemma RunLabelledIff(m: Config, actions: seq<Action>, w: Watcher)
    requires Follow(m, START, actions).Some?
    requires InOwnOrder(Tags(m, START, actions), Follow(m, START, actions).value.arrived)
    ensures var s := Follow(m, START, actions).value;
            var ys, name := ArrivedTags(Tags(m, START, actions), s.arrived), NamesIn(s.tasks);
            && KindsOf(ys) == Kinds(s.arrived) && WellTagged(ys, name)
            && (RightlyLabelled(w, ys, name) <==> !exists j: nat, l: nat, k: nat :: Misleads(ys, name, j, l, k))
            && (DistinctNames(ys) ==>
                  (RightlyLabelled(w, ys, name) <==> !exists j: nat, l: nat, k: nat :: Overlaps(ys, j, l, k)))
  {
    hide Follow, Tags, RightlyLabelled, Misleads, Overlaps, DistinctNames, NamesIn, WellTagged, Genuine;
    RunTagged(m, actions);
    var s, xs := Follow(m, START, actions).value, Tags(m, START, actions);
    var ys, name := ArrivedTags(xs, s.arrived), NamesIn(s.tasks);
    ArrivalsWellTagged(xs, s.arrived, name);
    assert KindsOf(ys) == Kinds(s.arrived);
    LabelledIff(w, ys, name);
    if DistinctNames(ys) {
      DistinctLabelledIff(w, ys, name);
    }
  }

  /** Arrival in stamp order is one such order, and the tags are then those of the stamps. */
  lemma StampOrderIsOwnOrder(m: Config, actions: seq<Action>)
    requires Follow(m, START, actions).Some?
    requires Follow(m, START, actions).value.arrived == Follow(m, START, actions).value.stamped
    ensures var s, xs := Follow(m, START, actions).value, Tags(m, START, actions);
            InOwnOrder(xs, s.arrived) && ArrivedTags(xs, s.arrived) == xs
  {
    hide Follow, Tags, WellTagged;
    RunTagged(m, actions);
    StampsInOrder(m, actions);
    var s, xs := Follow(m, START, actions).value, Tags(m, START, actions);
    StampedNumbers(s);
    assert |Kinds(s.stamped)| == |KindsOf(xs)|;
    forall k: nat, i: nat | k < |s.arrived| && i < s.arrived[k].seq_
      ensures ArrivedBefore(s.arrived, i, k)
    {
      assert s.arrived[i].seq_ == i;
    }
  }

  lemma StampedNumbers(s: Sys)
    requires LogInv(s)
    ensures forall k :: 0 <= k < |s.stamped| ==> s.stamped[k].seq_ == k
  {
  }

  // ---------------------------------------------------------------- pushes one after another

  /** Each operation is started only when every earlier one has ended and its events have arrived. */
  predicate OneByOne(m: Config, s: Sys, actions: seq<Action>)
    requires Follow(m, s, actions).Some?
    decreases |actions|
  {
    actions == []
    || ((actions[0].Spawn? ==> Quiescent(s)) && OneByOne(m, Apply(m, s, actions[0]), actions[1..]))
  }

  /** Operations have stamped and delivered their events in turn; only the last may be under way. */
  ghost predicate InTurn(s: Sys, xs: seq<Tagged>) {
    && |xs| == |s.stamped|
    && (forall i :: 0 <= i < |s.tasks| - 1 ==> Ended(s.tasks[i]))
    && (forall x <- xs :: x.owner < |s.tasks|)
    && Known(xs, s.arrived)
    && (forall e :: e in s.undelivered ==> e.seq_ < |xs| && xs[e.seq_].owner == |s.tasks| - 1)
    && (forall j, k :: 0 <= j < k < |s.arrived| ==> xs[s.arrived[j].seq_].owner <= xs[s.arrived[k].seq_].owner)
  }

  lemma InTurnSpawn(s: Sys, xs: seq<Tagged>, t: Task)
    requires InTurn(s, xs) && Quiescent(s)
    ensures InTurn(s.(tasks := s.tasks + [t]), xs)
  {
    hide Ended;
  }

  lemma InTurnRun(s: Sys, xs: seq<Tagged>, i: nat, n: Next)
    requires InTurn(s, xs) && LogInv(s) && i < |s.tasks| && !Ended(s.tasks[i])
    requires n.event.Some? ==> n.event.value.seq_ == s.st.seq_
    ensures InTurn(Logged(s.(st := n.st, tasks := s.tasks[i := n.task]), n.event),
                   xs + if n.event.Some? then [Tagged(i, n.event.value.kind)] else [])
  {
    hide Ended;
    assert i == |s.tasks| - 1;
    if n.event.None? {
      assert xs + [] == xs;
    } else {
      var ys := xs + [Tagged(i, n.event.value.kind)];
      assert forall k :: 0 <= k < |xs| ==> ys[k] == xs[k];
      assert forall e <- s.arrived :: e.seq_ < |xs|;
    }
  }

  lemma InTurnDeliver(s: Sys, xs: seq<Tagged>, e: Event)
    requires InTurn(s, xs) && e in s.undelivered
    requires forall x <- s.arrived :: xs[x.seq_].owner < |s.tasks|
    ensures InTurn(s.(undelivered := s.undelivered - multiset{e}, arrived := s.arrived + [e]), xs)
  {
    hide Ended;
    assert forall k :: 0 <= k < |s.arrived| ==> s.arrived[k] in s.arrived;
  }

  lemma InTurnStep(m: Config, s: Sys, a: Action, xs: seq<Tagged>)
    requires InTurn(s, xs) && LogInv(s) && Enabled(s, a) && (a.Spawn? ==> Quiescent(s))
    ensures InTurn(Apply(m, s, a), xs + Stamps(m, s, a))
  {
    hide Step, LogInv, InTurn, Quiescent;
    match a
    case Spawn(t) =>
      InTurnSpawn(s, xs, t);
      assert xs + [] == xs;
    case Run(i, r) =>
      StepStamps(m, s.st, s.tasks[i], r);
      InTurnRun(s, xs, i, Step(m, s.st, s.tasks[i], r));
    case Deliver(e) =>
      OwnersInRange(s, xs);
      InTurnDeliver(s, xs, e);
      assert xs + [] == xs;
  }

  lemma OwnersInRange(s: Sys, xs: seq<Tagged>)
    requires InTurn(s, xs)
    ensures Known(xs, s.arrived) && forall x <- s.arrived :: xs[x.seq_].owner < |s.tasks|
  {
    hide Ended;
  }

  lemma {:induction false} InTurnRuns(m: Config, s: Sys, actions: seq<Action>, xs: seq<Tagged>)
    requires InTurn(s, xs) && LogInv(s) && Follow(m, s, actions).Some? && OneByOne(m, s, actions)
    ensures InTurn(Follow(m, s, actions).value, xs + Tags(m, s, actions))
    decreases |actions|
  {
    hide InTurn, LogInv, Apply, Stamps, Quiescent;
    if actions == [] {
      assert xs + [] == xs;
    } else {
      var now := Stamps(m, s, actions[0]);
      var later := Tags(m, Apply(m, s, actions[0]), actions[1..]);
      InTurnStep(m, s, actions[0], xs);
      LogStep(m, s, actions[0]);
      InTurnRuns(m, Apply(m, s, actions[0]), actions[1..], xs + now);
      assert xs + (now + later) == xs + now + later;
    }
  }

  lemma NobodyMisleads(xs: seq<Tagged>, arrived: seq<Event>, name: Names, j: nat, l: nat, k: nat)
    requires Known(xs, arrived) && Misleads(ArrivedTags(xs, arrived), name, j, l, k)
    ensures j < l < k < |arrived|
    ensures xs[arrived[j].seq_].owner == xs[arrived[k].seq_].owner != xs[arrived[l].seq_].owner
  {
    hide Reports;
  }

  lemma InTurnUnmisled(s: Sys, xs: seq<Tagged>, name: Names)
    requires InTurn(s, xs)
    ensures !exists j: nat, l: nat, k: nat :: Misleads(ArrivedTags(xs, s.arrived), name, j, l, k)
  {
    hide Misleads, Ended;
    forall j: nat, l: nat, k: nat
      ensures !Misleads(ArrivedTags(xs, s.arrived), name, j, l, k)
    {
      if Misleads(ArrivedTags(xs, s.arrived), name, j, l, k) {
        NobodyMisleads(xs, s.arrived, name, j, l, k);
      }
    }
  }

  /** Pushes made one after another are always labelled rightly, whatever their names. */
  lemma OneByOneLabelled(m: Config, actions: seq<Action>, w: Watcher)
    requires Follow(m, START, actions).Some? && OneByOne(m, START, actions)
    requires InOwnOrder(Tags(m, START, actions), Follow(m, START, actions).value.arrived)
    ensures var s := Follow(m, START, actions).value;
            RightlyLabelled(w, ArrivedTags(Tags(m, START, actions), s.arrived), NamesIn(s.tasks))
  {
    hide Follow, Tags, RightlyLabelled, NamesIn, WellTagged, OneByOne, LogInv, Misleads, InTurn;
    StartsInTurn();
    InTurnRuns(m, START, actions, []);
    RunLabelledIff(m, actions, w);
    assert [] + Tags(m, START, actions) == Tags(m, START, actions);
    var s := Follow(m, START, actions).value;
    InTurnUnmisled(s, Tags(m, START, actions), NamesIn(s.tasks));
  }

  lemma StartsInTurn()
    ensures InTurn(START, []) && LogInv(START)
  {
  }

  lemma NothingTagged()
    ensures TagInv([], []) && Kinds([]) == KindsOf([])
  {
  }

  // ---------------------------------------------------------------- a run that mislabels

  /** These actions lead from one state to the other and stamp these events. */
  ghost predicate Leads(m: Config, s: Sys, actions: seq<Action>, s': Sys, xs: seq<Tagged>) {
    Follow(m, s, actions) == Some(s') && Tags(m, s, actions) == xs
  }

  lemma LeadsFirst(m: Config, s: Sys, a: Action, actions: seq<Action>, s': Sys, xs: seq<Tagged>)
    requires Enabled(s, a) && Leads(m, Apply(m, s, a), actions, s', xs)
    ensures Leads(m, s, [a] + actions, s', Stamps(m, s, a) + xs)
  {
    assert ([a] + actions)[1..] == actions;
  }

  lemma LeadsOne(m: Config, s: Sys, a: Action)
    requires Enabled(s, a)
    ensures Leads(m, s, [a], Apply(m, s, a), Stamps(m, s, a))
  {
    assert [a][1..] == [];
    assert Follow(m, Apply(m, s, a), []) == Some(Apply(m, s, a));
    assert Stamps(m, s, a) + [] == Stamps(m, s, a);
  }

  lemma {:induction false} LeadsOn(m: Config, s: Sys, as1: seq<Action>, s1: Sys, xs: seq<Tagged>, as2: seq<Action>, s2: Sys, ys: seq<Tagged>)
    requires Leads(m, s, as1, s1, xs) && Leads(m, s1, as2, s2, ys)
    ensures Leads(m, s, as1 + as2, s2, xs + ys)
    decreases |as1|
  {
    hide Apply, Stamps;
    if as1 == [] {
      assert as1 + as2 == as2;
      assert [] + ys == ys;
    } else {
      var later := Tags(m, Apply(m, s, as1[0]), as1[1..]);
      LeadsOn(m, Apply(m, s, as1[0]), as1[1..], s1, later, as2, s2, ys);
      assert as1 + as2 == [as1[0]] + (as1[1..] + as2);
      LeadsFirst(m, s, as1[0], as1[1..] + as2, s2, later + ys);
      assert Stamps(m, s, as1[0]) + (later + ys) == Stamps(m, s, as1[0]) + later + ys;
    }
  }

  /** One step of a task, with its event delivered at once. */
  function StepOf(i: nat): Action {
    Run(i, Cancel)
  }

  /** A state in which every event so far has been delivered as it was stamped. */
  predicate Prompt(s: Sys) {
    s.undelivered == multiset{} && s.arrived == s.stamped
  }

  /** A step that stamps nothing. */
  lemma QuietStep(m: Config, s: Sys, i: nat, n: Next)
    requires Prompt(s) && i < |s.tasks| && !Ended(s.tasks[i])
    requires Step(m, s.st, s.tasks[i], Cancel) == n && n.event.None?
    ensures var s' := s.(st := n.st, tasks := s.tasks[i := n.task]);
            Prompt(s') && Leads(m, s, [StepOf(i)], s', [])
  {
    hide Step;
    LeadsOne(m, s, StepOf(i));
  }

  /** A step that stamps an event, and its delivery. */
  lemma LoudStep(m: Config, s: Sys, i: nat, n: Next)
    requires Prompt(s) && i < |s.tasks| && !Ended(s.tasks[i])
    requires Step(m, s.st, s.tasks[i], Cancel) == n && n.event.Some?
    ensures var es := s.stamped + [n.event.value];
            var s' := s.(st := n.st, tasks := s.tasks[i := n.task], stamped := es, arrived := es);
            && Prompt(s')
            && Leads(m, s, [StepOf(i), Deliver(n.event.value)], s', [Tagged(i, n.event.value.kind)])
  {
    hide Step, Leads;
    var e := n.event.value;
    var s1 := Apply(m, s, StepOf(i));
    LeadsOne(m, s1, Deliver(e));
    LeadsFirst(m, s, StepOf(i), [Deliver(e)], Apply(m, s1, Deliver(e)), []);
    assert [StepOf(i)] + [Deliver(e)] == [StepOf(i), Deliver(e)];
    assert [Tagged(i, e.kind)] + [] == [Tagged(i, e.kind)];
    assert multiset{e} - multiset{e} == multiset{};
  }

  /** A task is spawned. */
  lemma SpawnStep(m: Config, s: Sys, t: Task)
    requires Prompt(s) && Initial(t)
    ensures Prompt(s.(tasks := s.tasks + [t])) && Leads(m, s, [Spawn(t)], s.(tasks := s.tasks + [t]), [])
  {
    LeadsOne(m, s, Spawn(t));
  }

  /** A push over a live link to a known device announces itself. */
  lemma PushStarts(m: Config, s: Sys, i: nat, conn: Connection, file: File)
    returns (actions: seq<Action>, s': Sys)
    requires Prompt(s) && i < |s.tasks| && s.tasks[i] == Task.PushFile(conn, file)
    requires conn.token in s.st.connections && Lookup(m.devices, conn.peer).Some?
    ensures var p := Push(conn, Lookup(m.devices, conn.peer).value, file, s.st.clock, 0, 0);
            && Prompt(s') && s'.tasks == s.tasks[i := PushChunk(p)] && s'.st.connections == s.st.connections
            && Leads(m, s, actions, s', [Tagged(i, TransferStarted(file.name, file.len))])
  {
    hide Leads, Lookup, LinkOrigin, ConnectStep, DisconnectStep, PairStep, AcceptStep, DiscoverStep;
    var p0 := Push(conn, Lookup(m.devices, conn.peer).value, file, 0, 0, 0);
    var s1 := s.(tasks := s.tasks[i := PushClock(p0)]);
    QuietStep(m, s, i, Next(s.st, PushClock(p0), None));
    var p := p0.(start := s.st.clock);
    var s2 := s.(tasks := s.tasks[i := PushAnnounce(p)]);
    assert s1.tasks[i := PushAnnounce(p)] == s2.tasks;
    QuietStep(m, s1, i, Next(s.st, PushAnnounce(p), None));
    var n := Stamp(s.st, LinkOrigin(conn), TransferStarted(file.name, file.len), TICK, PushChunk(p));
    LoudStep(m, s2, i, n);
    assert s2.tasks[i := n.task] == s.tasks[i := PushChunk(p)];
    var es := s.stamped + [n.event.value];
    s' := s2.(st := n.st, tasks := s.tasks[i := PushChunk(p)], stamped := es, arrived := es);
    LeadsOn(m, s, [StepOf(i)], s1, [], [StepOf(i)], s2, []);
    LeadsOn(m, s, [StepOf(i)] + [StepOf(i)], s2, [] + [], [StepOf(i), Deliver(n.event.value)], s', [Tagged(i, n.event.value.kind)]);
    actions := [StepOf(i)] + [StepOf(i)] + [StepOf(i), Deliver(n.event.value)];
    assert [] + [] + [Tagged(i, n.event.value.kind)] == [Tagged(i, n.event.value.kind)];
  }

  /** A push sends its first chunk and reports it. */
  lemma ChunkGoes(m: Config, s: Sys, i: nat) returns (actions: seq<Action>, s': Sys, sent: nat)
    requires Prompt(s) && i < |s.tasks| && s.tasks[i].PushChunk? && s.tasks[i].p.dev.failAfter.None?
    requires s.tasks[i].p.transferred < s.tasks[i].p.file.len
    ensures Prompt(s') && forall j: nat :: NamesIn(s'.tasks)(j) == NamesIn(s.tasks)(j)
    ensures Leads(m, s, actions, s', [Tagged(i, DataChunk(Outbound, NextChunk(s.tasks[i].p))),
                                      Tagged(i, TransferProgress(sent, s.tasks[i].p.file.len))])
  {
    hide Leads, Lookup, LinkOrigin, LinkFailure, ConnectStep, DisconnectStep, PairStep, AcceptStep, DiscoverStep;
    var p := s.tasks[i].p;
    var size := NextChunk(p);
    sent := p.transferred + size;
    var p' := p.(transferred := sent, chunks := p.chunks + 1);
    var n := Stamp(s.st, LinkOrigin(p.conn), DataChunk(Outbound, size), p.dev.perChunk, PushReport(p'));
    LoudStep(m, s, i, n);
    var es := s.stamped + [n.event.value];
    var s1 := s.(st := n.st, tasks := s.tasks[i := n.task], stamped := es, arrived := es);
    var n' := Stamp(n.st, LinkOrigin(p.conn), TransferProgress(sent, p.file.len), 0, PushChunk(p'));
    LoudStep(m, s1, i, n');
    var es' := es + [n'.event.value];
    s' := s1.(st := n'.st, tasks := s1.tasks[i := n'.task], stamped := es', arrived := es');
    LeadsOn(m, s, [StepOf(i), Deliver(n.event.value)], s1, [Tagged(i, n.event.value.kind)],
            [StepOf(i), Deliver(n'.event.value)], s', [Tagged(i, n'.event.value.kind)]);
    actions := [StepOf(i), Deliver(n.event.value)] + [StepOf(i), Deliver(n'.event.value)];
    assert [Tagged(i, n.event.value.kind)] + [Tagged(i, n'.event.value.kind)]
        == [Tagged(i, n.event.value.kind), Tagged(i, n'.event.value.kind)];
    SameNames(s.tasks, s'.tasks);
  }

  lemma SameNames(ts: seq<Task>, us: seq<Task>)
    requires |ts| == |us| && forall i :: 0 <= i < |ts| ==> NameOf(ts[i]) == NameOf(us[i])
    ensures forall i: nat :: NamesIn(ts)(i) == NamesIn(us)(i)
  {
  }

  /** A connection to a known device, from nothing. */
  lemma Connects(m: Config, d: Device) returns (actions: seq<Action>, s: Sys, conn: Connection)
    requires Lookup(m.devices, d.id) == Some(d)
    ensures Prompt(s) && |s.tasks| == 1 && conn.token in s.st.connections && conn.peer == d.id
    ensures Leads(m, START, actions, s, [Tagged(0, Connected)])
  {
    hide Leads, Lookup, OriginOf, DisconnectStep, PairStep, AcceptStep, PushStep, DiscoverStep;
    conn := Connection(d.id, m.local, d.spec, d.radio, d.portAuth, 1);
    var s1 := START.(tasks := [ConnectTo(d.id)]);
    SpawnStep(m, START, ConnectTo(d.id));
    assert START.tasks + [ConnectTo(d.id)] == s1.tasks;
    var s2 := s1.(tasks := [ConnectAlloc(d)]);
    QuietStep(m, s1, 0, Next(FRESH, ConnectAlloc(d), None));
    assert s1.tasks[0 := ConnectAlloc(d)] == s2.tasks;
    var st := FRESH.(nextToken := 2, connections := FRESH.connections[1 := d.id]);
    var s3 := s1.(st := st, tasks := [ConnectAnnounce(d, 1)]);
    QuietStep(m, s2, 0, Next(st, ConnectAnnounce(d, 1), None));
    assert s2.tasks[0 := ConnectAnnounce(d, 1)] == s3.tasks;
    var n := Stamp(st, OriginOf(m, d), Connected, TICK, Done(Linked(conn)));
    LoudStep(m, s3, 0, n);
    var es := [] + [n.event.value];
    s := s3.(st := n.st, tasks := s3.tasks[0 := n.task], stamped := es, arrived := es);
    var last := [StepOf(0), Deliver(n.event.value)];
    LeadsOn(m, START, [Spawn(ConnectTo(d.id))], s1, [], [StepOf(0)], s2, []);
    LeadsOn(m, START, [Spawn(ConnectTo(d.id))] + [StepOf(0)], s2, [] + [], [StepOf(0)], s3, []);
    LeadsOn(m, START, [Spawn(ConnectTo(d.id))] + [StepOf(0)] + [StepOf(0)], s3, [] + [] + [], last, s, [Tagged(0, Connected)]);
    actions := [Spawn(ConnectTo(d.id))] + [StepOf(0)] + [StepOf(0)] + last;
    assert [] + [] + [] + [Tagged(0, Connected)] == [Tagged(0, Connected)];
  }

  /** Two pushes side by side over one link. */
  lemma SideBySide(m: Config, s: Sys, conn: Connection, a: File, b: File)
    returns (actions: seq<Action>, s': Sys, size: nat, sent: nat)
    requires Prompt(s) && |s.tasks| == 1 && a.len > 0
    requires conn.token in s.st.connections && Lookup(m.devices, conn.peer).Some?
    requires Lookup(m.devices, conn.peer).value.failAfter.None?
    ensures Prompt(s') && NamesIn(s'.tasks)(1) == a.name && NamesIn(s'.tasks)(2) == b.name
    ensures Leads(m, s, actions, s',
                  [Tagged(1, TransferStarted(a.name, a.len)), Tagged(2, TransferStarted(b.name, b.len)),
                   Tagged(1, DataChunk(Outbound, size)), Tagged(1, TransferProgress(sent, a.len))])
  {
    hide Leads, Lookup;
    var ta, tb := Task.PushFile(conn, a), Task.PushFile(conn, b);
    var s1 := s.(tasks := s.tasks + [ta]);
    SpawnStep(m, s, ta);
    var s2 := s1.(tasks := s1.tasks + [tb]);
    SpawnStep(m, s1, tb);
    var as3, s3 := PushStarts(m, s2, 1, conn, a);
    var as4, s4 := PushStarts(m, s3, 2, conn, b);
    var as5, s5, n := ChunkGoes(m, s4, 1);
    var xa, xb := [Tagged(1, TransferStarted(a.name, a.len))], [Tagged(2, TransferStarted(b.name, b.len))];
    size, sent, s' := NextChunk(s4.tasks[1].p), n, s5;
    var xc := [Tagged(1, DataChunk(Outbound, size)), Tagged(1, TransferProgress(sent, a.len))];
    LeadsOn(m, s, [Spawn(ta)], s1, [], [Spawn(tb)], s2, []);
    LeadsOn(m, s, [Spawn(ta)] + [Spawn(tb)], s2, [] + [], as3, s3, xa);
    LeadsOn(m, s, [Spawn(ta)] + [Spawn(tb)] + as3, s3, [] + [] + xa, as4, s4, xb);
    LeadsOn(m, s, [Spawn(ta)] + [Spawn(tb)] + as3 + as4, s4, [] + [] + xa + xb, as5, s5, xc);
    actions := [Spawn(ta)] + [Spawn(tb)] + as3 + as4 + as5;
    assert [] + [] + xa + xb + xc == [xa[0], xb[0], xc[0], xc[1]];
  }

  /** With any device that aborts nothing and any two files of different names, the first not empty,
      some run delivered in stamp order passes on the first one's progress under the second one's
      name. */
  lemma SomeRunMislabels(m: Config, d: Device, a: File, b: File, w: Watcher) returns (actions: seq<Action>)
    requires Lookup(m.devices, d.id) == Some(d) && d.failAfter.None?
    requires a.name != b.name && a.len > 0
    ensures Follow(m, START, actions).Some?
    ensures var s := Follow(m, START, actions).value;
            var xs := Tags(m, START, actions);
            && s.arrived == s.stamped && KindsOf(xs) == Kinds(s.arrived)
            && MislabelledAt(w, xs, NamesIn(s.tasks), 4)
            && MadeAt(w, KindsOf(xs), 4).name == b.name && NamesIn(s.tasks)(xs[4].owner) == a.name
  {
    hide Follow, Tags, Lookup, KindsOf, Kinds, NamesIn, MadeAt, WellTagged, RightlyLabelled;
    var as1, s1, conn := Connects(m, d);
    var as2, s2, size, sent := SideBySide(m, s1, conn, a, b);
    var xs1, xs2 := Tags(m, START, as1), Tags(m, s1, as2);
    LeadsOn(m, START, as1, s1, xs1, as2, s2, xs2);
    actions := as1 + as2;
    var xs := xs1 + xs2;
    RunTagged(m, actions);
    StampOrderIsOwnOrder(m, actions);
    var name := NamesIn(s2.tasks);
    assert StartOf(xs, 1, 4) && IsLatest(xs, 2, 4);
    LabelAt(w, xs, name, 2, 4);
  }

  /** One such run: `a`, of ten bytes, and `b` beside it. */
  lemma MislabelledRun() returns (actions: seq<Action>)
    ensures var d := Device(DeviceId([1, 2, 3, 4, 5, 6], Public), None, SpecContext("5.0", BrEdr), "", "", None, JustWorks, None, 10, 0, None);
            var m := Config("", d.spec, "", "", [d], [], s => s);
            && Follow(m, START, actions).Some?
            && MislabelledAt(Watcher("", 0, []), Tags(m, START, actions), NamesIn(Follow(m, START, actions).value.tasks), 4)
            && MadeAt(Watcher("", 0, []), KindsOf(Tags(m, START, actions)), 4).name == "b"
            && NamesIn(Follow(m, START, actions).value.tasks)(Tags(m, START, actions)[4].owner) == "a"
  {
    var d := Device(DeviceId([1, 2, 3, 4, 5, 6], Public), None, SpecContext("5.0", BrEdr), "", "", None, JustWorks, None, 10, 0, None);
    actions := SomeRunMislabels(Config("", d.spec, "", "", [d], [], s => s), d, File("a", 10), File("b", 4), Watcher("", 0, []));
  }
}
