/** The per-bucket summary of events, and the keys events are grouped by. */
module Metrics {
  import opened Bytes
  import opened Events
  import opened Sums

  datatype SplitBy = ByController | BySpec | ByTransport | ByRadioStandard | ByPortAuth | ByEventKind | ByPeer

  /** The bucket key of an event along a dimension. */
  function Key(d: SplitBy, e: Event): string {
    match d
    case ByController => e.origin.local
    case BySpec => SpecText(e.origin.spec)
    case ByTransport => TransportText(e.origin.spec.transport)
    case ByRadioStandard => e.origin.radio
    case ByPortAuth => e.origin.portAuth
    case ByEventKind => Label(e.kind)
    case ByPeer => DeviceText(e.origin.peer)
  }

  datatype Summary = Summary(events: nat, bytes: nat, failures: nat, warnings: nat, firstAt: Option<nat>, lastAt: Option<nat>)

  const NO_EVENTS := Summary(0, 0, 0, 0, None, None)

  /** Folds one event into a summary. */
  function Record(m: Summary, e: Event): Summary {
    Summary(
      m.events + 1,
      m.bytes + PayloadBytes(e.kind),
      m.failures + if IsFailure(e.kind) then 1 else 0,
      m.warnings + if Label(e.kind) == "warning" then 1 else 0,
      Some(match m.firstAt case Some(t) => Min(t, e.at) case None => e.at),
      Some(match m.lastAt case Some(t) => Max(t, e.at) case None => e.at))
  }

  function SummaryOf(es: seq<Event>): Summary {
    if es == [] then NO_EVENTS else Record(SummaryOf(es[..|es| - 1]), es[|es| - 1])
  }

  method FromEvents(es: seq<Event>) returns (m: Summary)
    ensures m == SummaryOf(es)
  {
    m := NO_EVENTS;
    for i := 0 to |es|
      invariant m == SummaryOf(es[..i])
    {
      assert es[..i + 1][..i] == es[..i];
      m := Record(m, es[i]);
    }
    assert es[..|es|] == es;
  }

  /** Last minus first, zero without events. */
  function Span(m: Summary): nat {
    if m.firstAt.Some? && m.lastAt.Some? then Max(m.lastAt.value - m.firstAt.value, 0) else 0
  }

  predicate FailureEvent(e: Event) {
    e.kind.Error? || e.kind.PairingFailed?
  }

  predicate WarningEvent(e: Event) {
    e.kind.Warning?
  }

  /** What a summary says, without reference to how it was accumulated: `failures` and `warnings`
      count the events of those kinds, `firstAt` and `lastAt` are attained bounds. */
  ghost predicate Describes(m: Summary, es: seq<Event>) {
    && m.events == |es|
    && m.bytes == ChunkBytes(Kinds(es))
    && m.failures == |Selected(es, FailureEvent)|
    && m.warnings == |Selected(es, WarningEvent)|
    && (m.firstAt.None? <==> es == []) && (m.lastAt.None? <==> es == [])
    && (forall e <- es :: m.firstAt.value <= e.at <= m.lastAt.value)
    && (es != [] ==> exists e <- es :: e.at == m.firstAt.value)
    && (es != [] ==> exists e <- es :: e.at == m.lastAt.value)
  }

  function Selected(es: seq<Event>, p: Event -> bool): seq<Event> {
    if es == [] then []
    else Selected(es[..|es| - 1], p) + if p(es[|es| - 1]) then [es[|es| - 1]] else []
  }

  lemma LabelWarning(k: Kind)
    ensures Label(k) == "warning" <==> k.Warning?
  {
    if !k.Warning? {
      assert Label(k)[0] == 'w' ==> |Label(k)| != 7;
    }
  }

  function Kinds(es: seq<Event>): seq<Kind> {
    seq(|es|, i requires 0 <= i < |es| => es[i].kind)
  }

  lemma KindsBytes(front: seq<Event>, e: Event)
    ensures ChunkBytes(Kinds(front + [e])) == ChunkBytes(Kinds(front)) + PayloadBytes(e.kind)
  {
    assert Kinds(front + [e]) == Kinds(front) + [e.kind];
    ChunksAppend(Kinds(front), [e.kind]);
    ChunksOne(e.kind);
  }

  lemma RecordDescribes(front: seq<Event>, e: Event, m: Summary)
    requires Describes(m, front)
    ensures Describes(Record(m, e), front + [e])
  {
    hide Label, Kinds, ChunkBytes, PayloadBytes;
    var es := front + [e];
    assert es[..|es| - 1] == front && es[|es| - 1] == e;
    LabelWarning(e.kind);
    KindsBytes(front, e);
    assert forall x :: x in es <==> x in front || x == e;
    assert e in es;
    if front != [] {
      var x, y :| x in front && y in front && x.at == m.firstAt.value && y.at == m.lastAt.value;
      assert x in es && y in es;
    }
  }

  lemma {:induction false} SummaryDescribes(es: seq<Event>)
    ensures Describes(SummaryOf(es), es)
  {
    hide Describes, Record;
    if es == [] {
      NothingDescribed();
    } else {
      var front := es[..|es| - 1];
      SummaryDescribes(front);
      RecordDescribes(front, es[|es| - 1], SummaryOf(front));
      assert es == front + [es[|es| - 1]];
    }
  }

  /** The span is the longest time between two of the events. */
  lemma SpanIsLongestGap(es: seq<Event>)
    ensures forall e <- es, f <- es :: f.at - e.at <= Span(SummaryOf(es))
    ensures es != [] ==> exists e <- es, f <- es :: f.at - e.at == Span(SummaryOf(es))
    ensures es == [] ==> Span(SummaryOf(es)) == 0
  {
    hide SummaryOf, ChunkBytes, Selected;
    SummaryDescribes(es);
    var m := SummaryOf(es);
    if es != [] {
      var e :| e in es && e.at == m.firstAt.value;
      var f :| f in es && f.at == m.lastAt.value;
      assert f.at - e.at == Span(m);
    }
  }

  lemma NothingDescribed()
    ensures Describes(NO_EVENTS, [])
  {
  }

  // ---------------------------------------------------------------- merging

  function MinOpt(a: Option<nat>, b: Option<nat>): Option<nat> {
    if a.None? then b else if b.None? then a else Some(Min(a.value, b.value))
  }

  function MaxOpt(a: Option<nat>, b: Option<nat>): Option<nat> {
    if a.None? then b else if b.None? then a else Some(Max(a.value, b.value))
  }

  /** The summary of two disjoint sets of events. */
  function Merge(a: Summary, b: Summary): Summary {
    Summary(a.events + b.events, a.bytes + b.bytes, a.failures + b.failures, a.warnings + b.warnings,
            MinOpt(a.firstAt, b.firstAt), MaxOpt(a.lastAt, b.lastAt))
  }

  lemma MergeLaws(a: Summary, b: Summary, c: Summary)
    ensures Merge(a, b) == Merge(b, a)
    ensures Merge(Merge(a, b), c) == Merge(a, Merge(b, c))
    ensures Merge(a, NO_EVENTS) == a
  {
  }

  lemma RecordMerges(a: Summary, b: Summary, e: Event)
    ensures Record(Merge(a, b), e) == Merge(a, Record(b, e)) == Merge(Record(a, e), b)
  {
    hide Label, PayloadBytes, IsFailure;
  }

  lemma {:induction false} SummaryAppend(a: seq<Event>, b: seq<Event>)
    ensures SummaryOf(a + b) == Merge(SummaryOf(a), SummaryOf(b))
  {
    hide Record;
    if b == [] {
      assert a + b == a;
      MergeLaws(SummaryOf(a), NO_EVENTS, NO_EVENTS);
    } else {
      var n := |b| - 1;
      assert (a + b)[..|a + b| - 1] == a + b[..n];
      SummaryAppend(a, b[..n]);
      RecordMerges(SummaryOf(a), SummaryOf(b[..n]), b[n]);
    }
  }

  /** A summary does not depend on the order of the events. */
  lemma {:induction false} SummaryPermutation(a: seq<Event>, b: seq<Event>)
    requires multiset(a) == multiset(b)
    ensures SummaryOf(a) == SummaryOf(b)
    decreases |a|
  {
    hide Record, Merge;
    if a == [] {
      assert multiset(b) == multiset{};
      assert b == [];
    } else {
      var e := a[0];
      var i := Locate(a, b);
      var b1, b2 := b[..i], b[i + 1..];
      assert a == [e] + a[1..] && b == b1 + ([e] + b2);
      SummaryPermutation(a[1..], b1 + b2);
      SummaryAppend([e], a[1..]);
      SummaryAppend(b1, [e] + b2);
      SummaryAppend([e], b2);
      SummaryAppend(b1, b2);
      MergeRotates(SummaryOf([e]), SummaryOf(b1), SummaryOf(b2));
    }
  }

  lemma MergeRotates(e: Summary, x: Summary, y: Summary)
    ensures Merge(x, Merge(e, y)) == Merge(e, Merge(x, y))
  {
    MergeLaws(x, e, y);
    MergeLaws(e, x, y);
  }
}
