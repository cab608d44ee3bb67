/** The recorder that collects events as they arrive, and the analyzer that sorts, totals and
    groups them. */
module Analyzer {
  import opened Bytes
  import opened Events
  import opened Metrics
  import opened Breakdown
  import Address

  // ---------------------------------------------------------------- the recorder

  class Recorder {
    var events: seq<Event>  // in arrival order

    constructor ()
      ensures events == []
    {
      events := [];
    }

    method OnEvent(e: Event)
      modifies this
      ensures events == old(events) + [e]
    {
      events := events + [e];
    }

    method Snapshot() returns (es: seq<Event>)
      ensures es == events
    {
      es := events;
    }

    method Drain() returns (es: seq<Event>)
      modifies this
      ensures es == old(events) && events == []
    {
      es, events := events, [];
    }
  }

  // ---------------------------------------------------------------- sorting by seq

  /** Puts an event behind every event whose sequence number is not greater. */
  function Insert(es: seq<Event>, e: Event): seq<Event> {
    if es == [] || es[|es| - 1].seq_ <= e.seq_ then es + [e]
    else Insert(es[..|es| - 1], e) + [es[|es| - 1]]
  }

  /** `sort_by_key(|e| e.seq)`: a stable sort. */
  function SortBySeq(es: seq<Event>): seq<Event> {
    if es == [] then [] else Insert(SortBySeq(es[..|es| - 1]), es[|es| - 1])
  }

  predicate Sorted(es: seq<Event>) {
    forall i, j :: 0 <= i < j < |es| ==> es[i].seq_ <= es[j].seq_
  }

  /** Events with one sequence number, in order. */
  function Numbered(es: seq<Event>, n: nat): seq<Event> {
    if es == [] then []
    else Numbered(es[..|es| - 1], n) + if es[|es| - 1].seq_ == n then [es[|es| - 1]] else []
  }

  lemma NumberedPush(es: seq<Event>, e: Event, n: nat)
    ensures Numbered(es + [e], n) == Numbered(es, n) + if e.seq_ == n then [e] else []
  {
    assert (es + [e])[..|es|] == es;
  }

  lemma SortedPush(es: seq<Event>, e: Event)
    ensures Sorted(es + [e]) <==> Sorted(es) && forall x <- es :: x.seq_ <= e.seq_
  {
    if Sorted(es + [e]) {
      forall i, j | 0 <= i < j < |es|
        ensures es[i].seq_ <= es[j].seq_
      {
        assert (es + [e])[i].seq_ <= (es + [e])[j].seq_;
      }
      forall x | x in es
        ensures x.seq_ <= e.seq_
      {
        var i :| 0 <= i < |es| && es[i] == x;
        assert (es + [e])[i].seq_ <= (es + [e])[|es|].seq_;
      }
    }
  }

  lemma InsertMembers(es: seq<Event>, e: Event, x: Event)
    requires multiset(Insert(es, e)) == multiset(es) + multiset{e}
    ensures x in Insert(es, e) <==> x in es || x == e
  {
    hide Insert;
    assert x in Insert(es, e) <==> x in multiset(Insert(es, e));
  }

  lemma {:induction false} InsertSorted(es: seq<Event>, e: Event)
    requires Sorted(es)
    ensures Sorted(Insert(es, e))
    ensures multiset(Insert(es, e)) == multiset(es) + multiset{e}
  {
    hide Sorted;
    if es == [] || es[|es| - 1].seq_ <= e.seq_ {
      InsertLast(es, e);
    } else {
      var front, last := es[..|es| - 1], es[|es| - 1];
      assert es == front + [last];
      SortedPush(front, last);
      InsertSorted(front, e);
      forall x | x in Insert(front, e)
        ensures x.seq_ <= last.seq_
      {
        InsertMembers(front, e, x);
      }
      SortedPush(Insert(front, e), last);
    }
  }

  lemma InsertLast(es: seq<Event>, e: Event)
    requires Sorted(es) && (es == [] || es[|es| - 1].seq_ <= e.seq_)
    ensures Sorted(es + [e]) && multiset(es + [e]) == multiset(es) + multiset{e}
  {
  }

  lemma {:induction false} InsertStable(es: seq<Event>, e: Event, n: nat)
    requires Sorted(es)
    ensures Numbered(Insert(es, e), n) == Numbered(es, n) + if e.seq_ == n then [e] else []
  {
    hide Numbered;
    NumberedPush(es, e, n);
    if es != [] && es[|es| - 1].seq_ > e.seq_ {
      var front, last := es[..|es| - 1], es[|es| - 1];
      InsertStable(front, e, n);
      assert es == front + [last];
      NumberedPush(Insert(front, e), last, n);
      NumberedPush(front, last, n);
    }
  }

  /** The sort is sorted, keeps every event, and keeps the order of events that share a number. */
  lemma {:induction false} SortCorrect(es: seq<Event>, n: nat)
    ensures Sorted(SortBySeq(es)) && multiset(SortBySeq(es)) == multiset(es)
    ensures Numbered(SortBySeq(es), n) == Numbered(es, n)
  {
    hide Insert, Numbered;
    if es != [] {
      var front, e := es[..|es| - 1], es[|es| - 1];
      SortCorrect(front, n);
      InsertSorted(SortBySeq(front), e);
      InsertStable(SortBySeq(front), e, n);
      assert es == front + [e];
      NumberedPush(front, e, n);
    }
  }

  /** Numbered in stamp order: 0, 1, 2, ... */
  predicate Stamped(es: seq<Event>) {
    forall i :: 0 <= i < |es| ==> es[i].seq_ == i
  }

  lemma {:induction false} SortedPermutationOfStamped(s: seq<Event>, h: seq<Event>)
    requires Sorted(s) && Stamped(h) && multiset(s) == multiset(h)
    ensures s == h
    decreases |h|
  {
    hide Sorted, Stamped;
    assert |multiset(s)| == |s| && |multiset(h)| == |h|;
    if h != [] {
      var n := |h| - 1;
      LastIsGreatest(s, h);
      PopLast(s);
      PopLast(h);
      SortedPermutationOfStamped(s[..n], h[..n]);
    }
  }

  lemma PopLast(s: seq<Event>)
    requires s != []
    ensures s == s[..|s| - 1] + [s[|s| - 1]]
    ensures multiset(s[..|s| - 1]) == multiset(s) - multiset([s[|s| - 1]])
    ensures Sorted(s) ==> Sorted(s[..|s| - 1])
    ensures Stamped(s) ==> Stamped(s[..|s| - 1])
  {
    assert s == s[..|s| - 1] + [s[|s| - 1]];
  }

  lemma LastIsGreatest(s: seq<Event>, h: seq<Event>)
    requires Sorted(s) && Stamped(h) && multiset(s) == multiset(h) && |s| == |h| && h != []
    ensures s[|s| - 1] == h[|h| - 1]
  {
    var n := |h| - 1;
    assert h[n] in multiset(h);
    assert h[n] in s;
    assert s[n] in multiset(s);
    assert s[n] in h;
    var i :| 0 <= i < |s| && s[i] == h[n];
    var j :| 0 <= j < |h| && h[j] == s[n];
  }

  // ---------------------------------------------------------------- anomalies

  datatype Anomaly = Anomaly(code: string, detail: string, seq_: nat)

  function AnomalyOf(e: Event): Option<Anomaly> {
    var peer := DeviceText(e.origin.peer);
    match e.kind
    case Error(detail) =>
      Some(Anomaly("error", detail + " (peer " + peer + ", controller " + e.origin.local + ")", e.seq_))
    case PairingFailed(reason) => Some(Anomaly("pairing-failed", reason + " (peer " + peer + ")", e.seq_))
    case Warning(code, detail) => Some(Anomaly(code, detail + " (peer " + peer + ")", e.seq_))
    case _ => None
  }

  function Anomalies(es: seq<Event>): seq<Anomaly> {
    if es == [] then []
    else
      var a := AnomalyOf(es[|es| - 1]);
      Anomalies(es[..|es| - 1]) + if a.Some? then [a.value] else []
  }

  lemma AnomalyKeepsSeq(e: Event)
    ensures AnomalyOf(e).Some? ==> AnomalyOf(e).value.seq_ == e.seq_
    ensures AnomalyOf(e).Some? <==> e.kind.Error? || e.kind.PairingFailed? || e.kind.Warning?
  {
  }

  /** An anomaly carries the code of its event, opens with the event's own words, and names the peer. */
  lemma AnomalyTells(e: Event)
    requires AnomalyOf(e).Some?
    ensures var a, tail := AnomalyOf(e).value, " (peer " + DeviceText(e.origin.peer);
            match e.kind
            case Error(detail) =>
              a.code == "error" && a.detail == detail + tail + ", controller " + e.origin.local + ")"
            case PairingFailed(reason) => a.code == "pairing-failed" && a.detail == reason + tail + ")"
            case Warning(code, detail) => a.code == code && a.detail == detail + tail + ")"
  {
    hide DeviceText;
    var peer := DeviceText(e.origin.peer);
    match e.kind
    case Error(detail) =>
      var rest := ", controller " + e.origin.local + ")";
      assert detail + (" (peer " + peer) + rest == detail + " (peer " + peer + rest;
    case PairingFailed(reason) =>
      assert reason + (" (peer " + peer) == reason + " (peer " + peer;
    case Warning(_, detail) =>
      assert detail + (" (peer " + peer) == detail + " (peer " + peer;
  }

  /** One anomaly per failure or warning, in sequence order when the events are. */
  lemma {:induction false} AnomaliesCounted(es: seq<Event>)
    requires Sorted(es)
    ensures |Anomalies(es)| == SummaryOf(es).failures + SummaryOf(es).warnings
    ensures forall i, j :: 0 <= i < j < |Anomalies(es)| ==> Anomalies(es)[i].seq_ <= Anomalies(es)[j].seq_
    ensures forall a <- Anomalies(es) :: exists e <- es :: AnomalyOf(e) == Some(a)
    ensures forall e <- es :: AnomalyOf(e).Some? ==> AnomalyOf(e).value in Anomalies(es)
  {
    hide DeviceText, Label, AnomalyOf;
    if es != [] {
      var front, e := es[..|es| - 1], es[|es| - 1];
      AnomaliesCounted(front);
      LabelWarning(e.kind);
      assert es == front + [e];
      AnomalyKeepsSeq(e);
      forall a | a in Anomalies(front)
        ensures a.seq_ <= e.seq_
      {
        var x :| x in front && AnomalyOf(x) == Some(a);
        AnomalyKeepsSeq(x);
      }
    }
  }

  // ---------------------------------------------------------------- the analyzer

  /** The events under analysis, sorted. */
  datatype Analysis = Analysis(events: seq<Event>)

  function Analyze(events: seq<Event>): Analysis {
    Analysis(SortBySeq(events))
  }

  /** `from_recorder`: a snapshot, so the recorder keeps its events. */
  method FromRecorder(recorder: Recorder) returns (a: Analysis)
    ensures a == Analyze(recorder.events)
  {
    var events := recorder.Snapshot();
    a := Analyze(events);
  }

  function Total(a: Analysis): Summary {
    SummaryOf(a.events)
  }

  function KeyBy(d: SplitBy): Keying {
    (e: Event) => Key(d, e)
  }

  function BreakdownBy(a: Analysis, d: SplitBy): seq<Bucket> {
    Group(a.events, KeyBy(d))
  }

  /** The loop of the source: one upsert per event. */
  method ComputeBreakdown(a: Analysis, d: SplitBy) returns (buckets: seq<Bucket>)
    ensures buckets == BreakdownBy(a, d)
  {
    hide Upsert;
    buckets := [];
    var es := a.events;
    for i := 0 to |es|
      invariant buckets == Group(es[..i], KeyBy(d))
    {
      assert es[..i + 1][..i] == es[..i];
      buckets := Upsert(buckets, Key(d, es[i]), es[i]);
    }
    assert es[..|es|] == es;
  }

  method ComputeAnomalies(a: Analysis) returns (out: seq<Anomaly>)
    ensures out == Anomalies(a.events)
  {
    hide AnomalyOf;
    out := [];
    var es := a.events;
    for i := 0 to |es|
      invariant out == Anomalies(es[..i])
    {
      assert es[..i + 1][..i] == es[..i];
      var found := AnomalyOf(es[i]);
      if found.Some? {
        out := out + [found.value];
      }
    }
    assert es[..|es|] == es;
  }

  /** The order in which events arrived has no influence on the total or on any breakdown, whatever
      their sequence numbers. */
  lemma OrderDoesNotMatter(a: seq<Event>, b: seq<Event>, d: SplitBy)
    requires multiset(a) == multiset(b)
    ensures Total(Analyze(a)) == Total(Analyze(b))
    ensures BreakdownBy(Analyze(a), d) == BreakdownBy(Analyze(b), d)
  {
    hide SortBySeq, SummaryOf, Group, Sorted, Get, Ascending;
    SortCorrect(a, 0);
    SortCorrect(b, 0);
    var x, y := SortBySeq(a), SortBySeq(b);
    SummaryPermutation(x, y);
    var k := KeyBy(d);
    GroupGet(x, k, "");
    GroupGet(y, k, "");
    forall key
      ensures Get(Group(x, k), key) == Get(Group(y, k), key)
    {
      GroupGet(x, k, key);
      GroupGet(y, k, key);
      WithKeyPermutation(x, y, k, key);
      SummaryPermutation(WithKey(x, k, key), WithKey(y, k, key));
    }
    SameContents(Group(x, k), Group(y, k));
  }

  lemma {:induction false} WithKeyCounts(es: seq<Event>, k: Keying, key: string, e: Event)
    ensures multiset(WithKey(es, k, key))[e] == if k(e) == key then multiset(es)[e] else 0
  {
    if es != [] {
      var front, last := es[..|es| - 1], es[|es| - 1];
      WithKeyCounts(front, k, key, e);
      assert es == front + [last];
    }
  }

  lemma WithKeyPermutation(a: seq<Event>, b: seq<Event>, k: Keying, key: string)
    requires multiset(a) == multiset(b)
    ensures multiset(WithKey(a, k, key)) == multiset(WithKey(b, k, key))
    ensures WithKey(a, k, key) == [] <==> WithKey(b, k, key) == []
  {
    hide WithKey;
    forall e
      ensures multiset(WithKey(a, k, key))[e] == multiset(WithKey(b, k, key))[e]
    {
      WithKeyCounts(a, k, key, e);
      WithKeyCounts(b, k, key, e);
    }
    assert |multiset(WithKey(a, k, key))| == |WithKey(a, k, key)|;
    assert |multiset(WithKey(b, k, key))| == |WithKey(b, k, key)|;
  }

  /** Sorting arrivals recovers the stamp order, so the whole report is that of the stamp order. */
  lemma ArrivalsRecoverStampOrder(stamped: seq<Event>, arrived: seq<Event>)
    requires Stamped(stamped) && multiset(arrived) == multiset(stamped)
    ensures Analyze(arrived) == Analysis(stamped)
  {
    hide SortBySeq;
    SortCorrect(arrived, 0);
    SortedPermutationOfStamped(SortBySeq(arrived), stamped);
  }

  // ---------------------------------------------------------------- what shares a bucket

  /** The number of a kind of event, whatever it carries. */
  function KindNumber(k: Kind): nat {
    match k
    case DiscoveryStarted => 0
    case DeviceDiscovered(_) => 1
    case PairingStarted(_) => 2
    case PairingCompleted => 3
    case PairingFailed(_) => 4
    case Connected => 5
    case Disconnected(_) => 6
    case TransferStarted(_, _) => 7
    case TransferProgress(_, _) => 8
    case TransferCompleted(_, _) => 9
    case DataChunk(_, _) => 10
    case Warning(_, _) => 11
    case Error(_) => 12
  }

  /** Labels tell kinds apart, by their length and first letters. */
  function LabelNumber(s: string): nat {
    if |s| == 17 then
      if s[0] == 'p' then 3 else if s[0] == 't' then 8 else if s[1] == 'i' then 0 else 1
    else if |s| == 15 then 2 else if |s| == 14 then 4 else if |s| == 9 then 5 else if |s| == 12 then 6
    else if |s| == 16 then 7 else if |s| == 18 then 9 else if |s| == 10 then 10 else if |s| == 7 then 11 else 12
  }

  lemma LabelsDiffer(k: Kind)
    ensures LabelNumber(Label(k)) == KindNumber(k)
  {
  }

  lemma LabelSame(a: Kind, b: Kind)
    ensures Label(a) == Label(b) <==> KindNumber(a) == KindNumber(b)
  {
    LabelsDiffer(a);
    LabelsDiffer(b);
  }

  lemma {:induction false} AddrTextLength(a: seq<byte>)
    requires a != []
    ensures |AddrText(a)| == 3 * |a| - 1
  {
    if |a| > 1 {
      AddrTextLength(a[1..]);
    }
  }

  lemma DeviceTextSame(a: DeviceId, b: DeviceId)
    ensures DeviceText(a) == DeviceText(b) <==> a == b
  {
    hide AddrText;
    AddrTextLength(a.addr);
    AddrTextLength(b.addr);
    if DeviceText(a) == DeviceText(b) {
      assert |DeviceText(a)| == |DeviceText(b)|;
      assert a.addrType == b.addrType;
      assert AddrText(a.addr) == DeviceText(a)[..17] == DeviceText(b)[..17] == AddrText(b.addr);
      Address.PrintThenParse(a.addr);
      Address.PrintThenParse(b.addr);
    }
  }

  lemma SpecTextSame(a: SpecContext, b: SpecContext)
    ensures SpecText(a) == SpecText(b) <==> a == b
    ensures TransportText(a.transport) == TransportText(b.transport) <==> a.transport == b.transport
  {
    var s, t := SpecText(a), SpecText(b);
    assert s == a.version + (" over " + TransportText(a.transport));
    assert t == b.version + (" over " + TransportText(b.transport));
    if s == t {
      assert s[|s| - 1] == t[|t| - 1];
      assert a.transport == b.transport;
      assert |a.version| == |b.version|;
      assert a.version == s[..|a.version|] == t[..|b.version|] == b.version;
    }
  }

  /** Two events share a bucket along a dimension exactly when they agree in it: in controller, spec,
      transport, radio standard or port authentication of their origin, in peer, or in kind. */
  lemma SameBucket(e: Event, f: Event)
    ensures Key(ByController, e) == Key(ByController, f) <==> e.origin.local == f.origin.local
    ensures Key(BySpec, e) == Key(BySpec, f) <==> e.origin.spec == f.origin.spec
    ensures Key(ByTransport, e) == Key(ByTransport, f) <==> e.origin.spec.transport == f.origin.spec.transport
    ensures Key(ByRadioStandard, e) == Key(ByRadioStandard, f) <==> e.origin.radio == f.origin.radio
    ensures Key(ByPortAuth, e) == Key(ByPortAuth, f) <==> e.origin.portAuth == f.origin.portAuth
    ensures Key(ByPeer, e) == Key(ByPeer, f) <==> e.origin.peer == f.origin.peer
    ensures Key(ByEventKind, e) == Key(ByEventKind, f) <==> KindNumber(e.kind) == KindNumber(f.kind)
  {
    hide DeviceText, SpecText, TransportText, Label, KindNumber;
    SpecTextSame(e.origin.spec, f.origin.spec);
    DeviceTextSame(e.origin.peer, f.origin.peer);
    LabelSame(e.kind, f.kind);
  }

  // ---------------------------------------------------------------- transport and spec

  /** The transport at the end of a spec key, told by its last letter. */
  function TransportOfSpec(key: string): string {
    if key == "" then ""
    else if key[|key| - 1] == 'R' then "BR/EDR"
    else if key[|key| - 1] == 'E' then "LE"
    else "dual-mode"
  }

  lemma SpecDeterminesTransport(e: Event)
    ensures TransportOfSpec(Key(BySpec, e)) == Key(ByTransport, e)
  {
    var spec := e.origin.spec;
    var t := TransportText(spec.transport);
    assert SpecText(spec)[|SpecText(spec)| - 1] == t[|t| - 1];
  }

  /** Each transport bucket is the merge of the spec buckets over that transport. */
  lemma TransportIsMergeOfSpec(a: Analysis, key: string)
    ensures OrNothing(Get(BreakdownBy(a, ByTransport), key))
         == MergeBuckets(BreakdownBy(a, BySpec), ProjectsTo(TransportOfSpec, key))
  {
    hide Get, MergeBuckets, Group, TransportOfSpec, Key;
    forall e
      ensures TransportOfSpec(KeyBy(BySpec)(e)) == KeyBy(ByTransport)(e)
    {
      SpecDeterminesTransport(e);
    }
    CoarseIsMergeOfFine(a.events, KeyBy(BySpec), KeyBy(ByTransport), TransportOfSpec, key);
  }
}
