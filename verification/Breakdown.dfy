/** Grouping events into an ordered map from key to summary, as the analyzer's breakdowns do. */
module Breakdown {
  import opened Bytes
  import opened Events
  import opened Metrics

  // ---------------------------------------------------------------- string order

  /** Lexicographic order, as `String` compares. */
  predicate Less(a: string, b: string) {
    b != "" && (a == "" || a[0] < b[0] || (a[0] == b[0] && Less(a[1..], b[1..])))
  }

  /** The two agree up to some place, where the first ends or has the smaller character. */
  predicate DiffersAt(a: string, b: string, k: nat) {
    && k <= |a| && k < |b| && a[..k] == b[..k]
    && (k < |a| ==> a[k] < b[k])
  }

  /** The order is decided at the first difference, and a proper prefix comes first. */
  lemma {:induction false} LessIs(a: string, b: string)
    ensures Less(a, b) <==> exists k: nat :: DiffersAt(a, b, k)
  {
    if a == "" || b == "" {
      assert b != "" ==> DiffersAt(a, b, 0);
    } else {
      LessIs(a[1..], b[1..]);
      assert a[0] < b[0] ==> DiffersAt(a, b, 0);
      if a[0] == b[0] && Less(a[1..], b[1..]) {
        var k: nat :| DiffersAt(a[1..], b[1..], k);
        assert a[..k + 1] == [a[0]] + a[1..][..k] && b[..k + 1] == [b[0]] + b[1..][..k];
        assert DiffersAt(a, b, k + 1);
      }
      if k: nat :| DiffersAt(a, b, k) && k > 0 {
        assert a[..k][0] == b[..k][0];
        assert a[1..][..k - 1] == a[..k][1..] && b[1..][..k - 1] == b[..k][1..];
        assert DiffersAt(a[1..], b[1..], k - 1);
      }
    }
  }

  lemma {:induction false} LessTotal(a: string, b: string)
    ensures a == b || Less(a, b) || Less(b, a)
    ensures !(Less(a, b) && Less(b, a)) && !Less(a, a)
  {
    if a != "" && b != "" && a[0] == b[0] {
      LessTotal(a[1..], b[1..]);
      assert a == [a[0]] + a[1..] && b == [b[0]] + b[1..];
    }
    LessIrreflexive(a);
  }

  lemma {:induction false} LessIrreflexive(a: string)
    ensures !Less(a, a)
  {
    if a != "" {
      LessIrreflexive(a[1..]);
    }
  }

  lemma {:induction false} LessTransitive(a: string, b: string, c: string)
    requires Less(a, b) && Less(b, c)
    ensures Less(a, c)
  {
    if a != "" && a[0] == b[0] == c[0] {
      LessTransitive(a[1..], b[1..], c[1..]);
    }
  }

  // ---------------------------------------------------------------- the ordered map

  datatype Bucket = Bucket(key: string, summary: Summary)

  predicate Ascending(bs: seq<Bucket>) {
    forall i, j :: 0 <= i < j < |bs| ==> Less(bs[i].key, bs[j].key)
  }

  function Get(bs: seq<Bucket>, key: string): Option<Summary> {
    if bs == [] then None
    else if bs[0].key == key then Some(bs[0].summary)
    else Get(bs[1..], key)
  }

  function OrNothing(m: Option<Summary>): Summary {
    if m.Some? then m.value else NO_EVENTS
  }

  /** `entry(key).or_default().record(event)`. */
  function Upsert(bs: seq<Bucket>, key: string, e: Event): seq<Bucket> {
    if bs == [] then [Bucket(key, Record(NO_EVENTS, e))]
    else if bs[0].key == key then [Bucket(key, Record(bs[0].summary, e))] + bs[1..]
    else if Less(key, bs[0].key) then [Bucket(key, Record(NO_EVENTS, e))] + bs
    else [bs[0]] + Upsert(bs[1..], key, e)
  }

  lemma {:induction false} UpsertAscending(bs: seq<Bucket>, key: string, e: Event)
    requires Ascending(bs)
    ensures Ascending(Upsert(bs, key, e))
    ensures forall b <- Upsert(bs, key, e) :: b.key == key || exists c <- bs :: c.key == b.key
  {
    hide Record, Less;
    if bs != [] && bs[0].key != key {
      LessTotal(key, bs[0].key);
      if Less(key, bs[0].key) {
        forall i | 0 <= i < |bs|
          ensures Less(key, bs[i].key)
        {
          if i > 0 {
            LessTransitive(key, bs[0].key, bs[i].key);
          }
        }
      } else {
        UpsertAscending(bs[1..], key, e);
        forall b | b in Upsert(bs[1..], key, e)
          ensures Less(bs[0].key, b.key)
        {
        }
      }
    }
  }

  lemma {:induction false} UpsertGet(bs: seq<Bucket>, key: string, e: Event, x: string)
    requires Ascending(bs)
    ensures Get(Upsert(bs, key, e), x)
         == (if x == key then Some(Record(OrNothing(Get(bs, key)), e)) else Get(bs, x))
  {
    hide Record, Less;
    if bs != [] {
      var u := Upsert(bs, key, e);
      if bs[0].key == key {
        assert u[1..] == bs[1..];
      } else if Less(key, bs[0].key) {
        assert u[1..] == bs;
        SmallKeyAbsent(bs, key);
      } else {
        assert u[1..] == Upsert(bs[1..], key, e);
        UpsertGet(bs[1..], key, e, x);
      }
    }
  }

  lemma {:induction false} SmallKeyAbsent(bs: seq<Bucket>, key: string)
    requires Ascending(bs) && (bs != [] ==> Less(key, bs[0].key))
    ensures Get(bs, key).None?
  {
    hide Less;
    if bs != [] {
      LessTotal(key, bs[0].key);
      if |bs| > 1 {
        LessTransitive(key, bs[0].key, bs[1].key);
      }
      SmallKeyAbsent(bs[1..], key);
    }
  }

  lemma {:induction false} GetIsMembership(bs: seq<Bucket>, b: Bucket)
    requires Ascending(bs)
    ensures b in bs <==> Get(bs, b.key) == Some(b.summary)
  {
    hide Less;
    if bs != [] {
      GetIsMembership(bs[1..], b);
      assert forall c <- bs[1..] :: Less(bs[0].key, c.key);
      LessIrreflexive(bs[0].key);
    }
  }

  /** Two ordered maps with the same contents are the same. */
  lemma {:induction false} SameContents(a: seq<Bucket>, b: seq<Bucket>)
    requires Ascending(a) && Ascending(b)
    requires forall x :: Get(a, x) == Get(b, x)
    ensures a == b
    decreases |a|
  {
    hide Less;
    if b != [] {
      assert Get(a, b[0].key) == Get(b, b[0].key);
    }
    if a != [] {
      assert Get(a, a[0].key) == Get(b, a[0].key);
      assert b != [];
      LessTotal(a[0].key, b[0].key);
      if Less(a[0].key, b[0].key) {
        SmallKeyAbsent(b, a[0].key);
      } else if Less(b[0].key, a[0].key) {
        SmallKeyAbsent(a, b[0].key);
      }
      assert a[0] == b[0];
      forall x
        ensures Get(a[1..], x) == Get(b[1..], x)
      {
        assert Get(a, x) == Get(b, x);
        if x == a[0].key {
          SmallKeyAbsent(a[1..], x);
          SmallKeyAbsent(b[1..], x);
        }
      }
      SameContents(a[1..], b[1..]);
    }
  }

  // ---------------------------------------------------------------- grouping

  type Keying = Event -> string

  function Group(es: seq<Event>, k: Keying): seq<Bucket> {
    if es == [] then [] else Upsert(Group(es[..|es| - 1], k), k(es[|es| - 1]), es[|es| - 1])
  }

  /** The events with one key, in order. */
  function WithKey(es: seq<Event>, k: Keying, key: string): seq<Event> {
    if es == [] then []
    else WithKey(es[..|es| - 1], k, key) + if k(es[|es| - 1]) == key then [es[|es| - 1]] else []
  }

  /** Each bucket holds the summary of exactly the events with its key, a key has a bucket exactly
      when some event has it, and the buckets are in ascending key order. */
  lemma GroupPartitions(es: seq<Event>, k: Keying)
    ensures Ascending(Group(es, k))
    ensures forall b <- Group(es, k) :: WithKey(es, k, b.key) != [] && b.summary == SummaryOf(WithKey(es, k, b.key))
    ensures forall key :: WithKey(es, k, key) != [] ==> Bucket(key, SummaryOf(WithKey(es, k, key))) in Group(es, k)
  {
    hide Ascending, Group, WithKey, Get, SummaryOf;
    GroupGet(es, k, "");
    forall b | b in Group(es, k)
      ensures WithKey(es, k, b.key) != [] && b.summary == SummaryOf(WithKey(es, k, b.key))
    {
      GroupGet(es, k, b.key);
      GetIsMembership(Group(es, k), b);
    }
    forall key | WithKey(es, k, key) != []
      ensures Bucket(key, SummaryOf(WithKey(es, k, key))) in Group(es, k)
    {
      GroupGet(es, k, key);
      GetIsMembership(Group(es, k), Bucket(key, SummaryOf(WithKey(es, k, key))));
    }
  }

  /** The same, of what looking a key up finds. */
  lemma {:induction false} GroupGet(es: seq<Event>, k: Keying, key: string)
    ensures Ascending(Group(es, k))
    ensures Get(Group(es, k), key)
         == (if WithKey(es, k, key) == [] then None else Some(SummaryOf(WithKey(es, k, key))))
  {
    hide Record, Less, Upsert, Get, Ascending;
    if es == [] {
      EmptyMap(key);
    } else {
      var front, e := es[..|es| - 1], es[|es| - 1];
      GroupGet(front, k, key);
      UpsertAscending(Group(front, k), k(e), e);
      UpsertGet(Group(front, k), k(e), e, key);
      SummaryPush(WithKey(front, k, key), e);
      assert WithKey(front, k, key) + [] == WithKey(front, k, key);
    }
  }

  lemma EmptyMap(key: string)
    ensures Ascending([]) && Get([], key).None?
  {
  }

  lemma SummaryPush(es: seq<Event>, e: Event)
    ensures SummaryOf(es + [e]) == Record(SummaryOf(es), e)
    ensures SummaryOf([]) == NO_EVENTS
  {
    hide Record;
    assert (es + [e])[..|es|] == es;
  }

  // ---------------------------------------------------------------- merging buckets

  type KeySet = string -> bool

  function MergeBuckets(bs: seq<Bucket>, p: KeySet): Summary {
    if bs == [] then NO_EVENTS
    else Merge(if p(bs[0].key) then bs[0].summary else NO_EVENTS, MergeBuckets(bs[1..], p))
  }

  lemma {:induction false} MergeUpsert(bs: seq<Bucket>, key: string, e: Event, p: KeySet)
    ensures MergeBuckets(Upsert(bs, key, e), p)
         == (if p(key) then Record(MergeBuckets(bs, p), e) else MergeBuckets(bs, p))
  {
    hide Record, Less, Merge;
    var u := Upsert(bs, key, e);
    RecordMerges(NO_EVENTS, MergeBuckets(bs, p), e);
    MergeLaws(MergeBuckets(bs, p), NO_EVENTS, NO_EVENTS);
    if bs == [] {
      assert u[1..] == [];
      MergeLaws(Record(NO_EVENTS, e), NO_EVENTS, NO_EVENTS);
      MergeLaws(NO_EVENTS, NO_EVENTS, NO_EVENTS);
    } else {
      var tail := MergeBuckets(bs[1..], p);
      RecordMerges(if p(bs[0].key) then bs[0].summary else NO_EVENTS, tail, e);
      if bs[0].key == key {
        assert u[1..] == bs[1..];
      } else if Less(key, bs[0].key) {
        assert u[1..] == bs;
      } else {
        assert u[1..] == Upsert(bs[1..], key, e);
        MergeUpsert(bs[1..], key, e, p);
      }
    }
  }

  /** Events whose key is in a set. */
  function KeyIn(es: seq<Event>, k: Keying, p: KeySet): seq<Event> {
    if es == [] then []
    else KeyIn(es[..|es| - 1], k, p) + if p(k(es[|es| - 1])) then [es[|es| - 1]] else []
  }

  /** Merging any selection of buckets gives the summary of the events that fall into them. */
  lemma {:induction false} MergedGroup(es: seq<Event>, k: Keying, p: KeySet)
    ensures MergeBuckets(Group(es, k), p) == SummaryOf(KeyIn(es, k, p))
  {
    hide Record, Upsert, Less;
    if es != [] {
      var front, e := es[..|es| - 1], es[|es| - 1];
      MergedGroup(front, k, p);
      MergeUpsert(Group(front, k), k(e), e, p);
      SummaryPush(KeyIn(front, k, p), e);
      assert KeyIn(front, k, p) + [] == KeyIn(front, k, p);
    }
  }

  lemma {:induction false} KeyInAll(es: seq<Event>, k: Keying, p: KeySet)
    requires forall key :: p(key)
    ensures KeyIn(es, k, p) == es
  {
    if es != [] {
      KeyInAll(es[..|es| - 1], k, p);
    }
  }

  /** Merging all buckets of any breakdown gives the total. */
  lemma BucketsMergeToTotal(es: seq<Event>, k: Keying)
    ensures MergeBuckets(Group(es, k), _ => true) == SummaryOf(es)
  {
    MergedGroup(es, k, _ => true);
    KeyInAll(es, k, _ => true);
  }

  /** The keys that project to `key`. */
  function ProjectsTo(project: string -> string, key: string): KeySet {
    (f: string) => project(f) == key
  }

  lemma {:induction false} KeyInCoarse(es: seq<Event>, fine: Keying, coarse: Keying, project: string -> string, key: string)
    requires forall e :: project(fine(e)) == coarse(e)
    ensures KeyIn(es, fine, ProjectsTo(project, key)) == WithKey(es, coarse, key)
  {
    if es != [] {
      KeyInCoarse(es[..|es| - 1], fine, coarse, project, key);
    }
  }

  /** When one key determines another, each coarse bucket is the merge of the fine buckets in it. */
  lemma CoarseIsMergeOfFine(es: seq<Event>, fine: Keying, coarse: Keying, project: string -> string, key: string)
    requires forall e :: project(fine(e)) == coarse(e)
    ensures OrNothing(Get(Group(es, coarse), key)) == MergeBuckets(Group(es, fine), ProjectsTo(project, key))
  {
    hide Get, Group, MergeBuckets, Record;
    GroupGet(es, coarse, key);
    MergedGroup(es, fine, ProjectsTo(project, key));
    KeyInCoarse(es, fine, coarse, project, key);
    SummaryPush([], Event(0, 0, Origin("", DeviceId([0, 0, 0, 0, 0, 0], Public), SpecContext("", BrEdr), "", ""), Connected));
  }

  // ---------------------------------------------------------------- the busiest bucket

  /** `max_by_key` over the buckets in key order: of equal maxima the last one wins. */
  function Busiest(bs: seq<Bucket>): Option<Bucket> {
    if bs == [] then None
    else match Busiest(bs[..|bs| - 1])
      case None => Some(bs[|bs| - 1])
      case Some(b) => Some(if bs[|bs| - 1].summary.bytes >= b.summary.bytes then bs[|bs| - 1] else b)
  }

  /** It carries the most bytes, and of the buckets that do it has the greatest key. */
  lemma {:induction false} BusiestIsMaximal(bs: seq<Bucket>)
    requires Ascending(bs) && bs != []
    ensures var m := Busiest(bs);
            && m.Some? && m.value in bs
            && (forall b <- bs :: b.summary.bytes <= m.value.summary.bytes)
            && (forall b <- bs :: b.summary.bytes == m.value.summary.bytes && b != m.value ==> Less(b.key, m.value.key))
  {
    hide Less;
    var n := |bs| - 1;
    var front, last := bs[..n], bs[n];
    assert bs == front + [last];
    if front != [] {
      BusiestIsMaximal(front);
      forall b | b in front
        ensures Less(b.key, last.key)
      {
        var i :| 0 <= i < n && front[i] == b;
        assert bs[i] == b;
      }
    }
  }
}
