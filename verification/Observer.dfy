/** Progress updates distilled from the event stream. */
module Observer {
  import opened Bytes
  import opened Events
  import opened Progress
  import opened Metrics
  import opened Mock
  import opened MockSystem
  import opened MockBackend
  import opened MockRuns

  datatype Update = Update(name: string, transferred: nat, total: nat, done: bool)

  /** Completion as a fraction; an exact quotient. */
  function Fraction(u: Update): (f: real)
    ensures 0.0 <= f <= 1.0
  {
    if u.total == 0 then if u.done then 1.0 else 0.0
    else if u.transferred >= u.total then 1.0
    else (Scaled(u.transferred, u.total); u.transferred as real / u.total as real)
  }

  lemma Scaled(a: nat, b: nat)
    requires a < b
    ensures 0.0 <= a as real / b as real <= 1.0
  {
  }

  /** The fraction is the transferred part of the total, capped; of an empty object, all once it is done. */
  lemma FractionIs(u: Update)
    ensures u.total > 0 ==> Fraction(u) * (u.total as real) == Min(u.transferred, u.total) as real
    ensures u.total == 0 ==> Fraction(u) == if u.done then 1.0 else 0.0
  {
  }

  /** What the observer remembers, and every update it has passed on. */
  datatype Watcher = Watcher(name: string, total: nat, updates: seq<Update>)

  function See(w: Watcher, k: Kind): Watcher {
    match k
    case TransferStarted(name, total) => Watcher(name, total, w.updates + [Update(name, 0, total, false)])
    case TransferProgress(transferred, total) =>
      w.(updates := w.updates + [Update(w.name, transferred, total, false)])
    case TransferCompleted(bytes, _) => w.(updates := w.updates + [Update(w.name, bytes, bytes, true)])
    case _ => w
  }

  function SeeAll(w: Watcher, ks: seq<Kind>): Watcher
    decreases |ks|
  {
    if ks == [] then w else SeeAll(See(w, ks[0]), ks[1..])
  }

  class ProgressObserver {
    var name: string
    var total: nat
    var updates: seq<Update>  // what the callback was given, in order

    constructor ()
      ensures Seen() == Watcher("", 0, [])
    {
      name, total, updates := "", 0, [];
    }

    function Seen(): Watcher
      reads this
    {
      Watcher(name, total, updates)
    }

    /** `on_event`. */
    method OnEvent(k: Kind)
      modifies this
      ensures Seen() == See(old(Seen()), k)
    {
      match k
      case TransferStarted(started, bytes) =>
        name, total := started, bytes;
        updates := updates + [Update(name, 0, bytes, false)];
      case TransferProgress(transferred, bytes) =>
        updates := updates + [Update(name, transferred, bytes, false)];
      case TransferCompleted(bytes, _) =>
        updates := updates + [Update(name, bytes, bytes, true)];
      case _ =>
    }
  }

  lemma {:induction false} SeeAllAppend(w: Watcher, a: seq<Kind>, b: seq<Kind>)
    ensures SeeAll(w, a + b) == SeeAll(SeeAll(w, a), b)
    decreases |a|
  {
    hide See;
    if a == [] {
      assert a + b == b;
    } else {
      assert (a + b)[1..] == a[1..] + b;
      SeeAllAppend(See(w, a[0]), a[1..], b);
    }
  }

  // ---------------------------------------------------------------- labels

  /** The kinds of event that make an update. */
  predicate Reports(k: Kind) {
    k.TransferStarted? || k.TransferProgress? || k.TransferCompleted?
  }

  /** The update made at the `k`-th event. */
  function MadeAt(w: Watcher, ks: seq<Kind>, k: nat): Update
    requires k < |ks| && Reports(ks[k])
  {
    var before := SeeAll(w, ks[..k]);
    See(before, ks[k]).updates[|before.updates|]
  }

  /** The name of the transfer started last, or `before` if none was. */
  function LatestStart(before: string, ks: seq<Kind>): string {
    if ks == [] then before
    else if ks[|ks| - 1].TransferStarted? then ks[|ks| - 1].name
    else LatestStart(before, ks[..|ks| - 1])
  }

  lemma SeenUpTo(w: Watcher, ks: seq<Kind>, k: nat)
    requires k < |ks|
    ensures SeeAll(w, ks[..k + 1]) == See(SeeAll(w, ks[..k]), ks[k])
  {
    hide See;
    assert ks[..k + 1] == ks[..k] + [ks[k]];
    SeeAllAppend(w, ks[..k], [ks[k]]);
    assert [ks[k]][1..] == [];
  }

  lemma {:induction false} RemembersLatestStart(w: Watcher, ks: seq<Kind>)
    ensures SeeAll(w, ks).name == LatestStart(w.name, ks)
  {
    if ks != [] {
      RemembersLatestStart(w, ks[..|ks| - 1]);
      SeenUpTo(w, ks, |ks| - 1);
      assert ks[..|ks| - 1 + 1] == ks;
    }
  }

  lemma {:induction false} UpdatesStay(w: Watcher, ks: seq<Kind>)
    ensures w.updates <= SeeAll(w, ks).updates
    decreases |ks|
  {
    if ks != [] {
      UpdatesStay(See(w, ks[0]), ks[1..]);
    }
  }

  /** Progress and completion carry no name: each reporting event makes one update, and the update
      carries the name of whichever transfer started last. No other event makes any. */
  lemma LabelIsLatestStart(w: Watcher, ks: seq<Kind>, k: nat)
    requires k < |ks|
    ensures var before, after := SeeAll(w, ks[..k]).updates, SeeAll(w, ks[..k + 1]).updates;
            && after == before + (if Reports(ks[k]) then [MadeAt(w, ks, k)] else [])
            && after <= SeeAll(w, ks).updates
    ensures Reports(ks[k]) ==> MadeAt(w, ks, k).name == LatestStart(w.name, ks[..k + 1])
  {
    hide SeeAll;
    SeenUpTo(w, ks, k);
    RemembersLatestStart(w, ks[..k + 1]);
    SeeAllAppend(w, ks[..k + 1], ks[k + 1..]);
    assert ks[..k + 1] + ks[k + 1..] == ks;
    UpdatesStay(SeeAll(w, ks[..k + 1]), ks[k + 1..]);
  }

  // ---------------------------------------------------------------- one push

  /** Updates that tell the story of one transfer: from zero, never back, under its own name, up to
      what the result says, done at the end of a success and never otherwise. */
  predicate TellsOf(us: seq<Update>, file: File, result: Result<Receipt, TransportError>) {
    && us != [] && us[0].transferred == 0
    && (forall u <- us :: u.name == file.name && u.total == file.len && u.transferred <= file.len)
    && (forall i, j :: 0 <= i < j < |us| ==> us[i].transferred <= us[j].transferred)
    && (forall i, j :: 0 <= i < j < |us| ==> Fraction(us[i]) <= Fraction(us[j]))
    && (forall i :: 0 <= i < |us| - 1 ==> !us[i].done)
    && var last := us[|us| - 1];
       && last.done == result.Ok? && (result.Ok? ==> Fraction(last) == 1.0)
       && match result
          case Ok(receipt) => last.transferred == receipt.bytes
          case Err(error) => error.TransferFailed? && last.transferred == error.transferred
  }

  function ChunkUpdates(name: string, c: nat, len: nat, j: nat, k: nat): seq<Update>
    requires j <= k
  {
    seq(k - j, i requires 0 <= i < k - j => Update(name, Min((j + i + 1) * c, len), len, false))
  }

  lemma {:induction false} ChunksSeen(w: Watcher, c: nat, len: nat, j: nat, k: nat)
    requires j <= k
    ensures SeeAll(w, ChunkKinds(c, len, j, k)) == w.(updates := w.updates + ChunkUpdates(w.name, c, len, j, k))
    decreases k - j
  {
    hide See;
    if j == k {
      assert w.updates + ChunkUpdates(w.name, c, len, j, k) == w.updates;
    } else {
      var chunk := DataChunk(Outbound, Max(Min(c, len - j * c), 0));
      var report := TransferProgress(Min((j + 1) * c, len), len);
      var ks := ChunkKinds(c, len, j, k);
      assert ks[1..] == [report] + ChunkKinds(c, len, j + 1, k);
      assert ks[1..][1..] == ChunkKinds(c, len, j + 1, k);
      var u := Update(w.name, Min((j + 1) * c, len), len, false);
      var w' := w.(updates := w.updates + [u]);
      SeeChunk(w, Max(Min(c, len - j * c), 0), Min((j + 1) * c, len), len);
      ChunksSeen(w', c, len, j + 1, k);
      assert ChunkUpdates(w.name, c, len, j, k) == [u] + ChunkUpdates(w.name, c, len, j + 1, k);
    }
  }

  lemma SeeChunk(w: Watcher, size: nat, transferred: nat, total: nat)
    ensures See(See(w, DataChunk(Outbound, size)), TransferProgress(transferred, total))
         == w.(updates := w.updates + [Update(w.name, transferred, total, false)])
  {
  }

  function PushUpdates(name: string, c: nat, len: nat, k: nat, ok: bool): seq<Update> {
    [Update(name, 0, len, false)] + ChunkUpdates(name, c, len, 0, k)
    + if ok then [Update(name, len, len, true)] else []
  }

  lemma PushSeen(w: Watcher, d: Device, name: string, len: nat, k: nat, duration: nat)
    ensures SeeAll(w, [TransferStarted(name, len)] + ChunkKinds(ChunkSize(d), len, 0, k) + [LastKind(d, len, duration)])
         == Watcher(name, len, w.updates + PushUpdates(name, ChunkSize(d), len, k, LetsThrough(d, len)))
  {
    hide SeeAll, See, ChunkKinds, LastKind, ChunkSize, ChunkUpdates, LetsThrough;
    var start := TransferStarted(name, len);
    var chunks := ChunkKinds(ChunkSize(d), len, 0, k);
    var last := LastKind(d, len, duration);
    var w1 := Watcher(name, len, w.updates + [Update(name, 0, len, false)]);
    SeeAllAppend(w, [start] + chunks, [last]);
    SeeAllAppend(w, [start], chunks);
    SeeOne(w, start);
    EndsSeen(w, name, len);
    ChunksSeen(w1, ChunkSize(d), len, 0, k);
    var w2 := SeeAll(w1, chunks);
    SeeOne(w2, last);
    LastSeen(w2, d, len, duration);
    var made := ChunkUpdates(name, ChunkSize(d), len, 0, k);
    var end := if LetsThrough(d, len) then [Update(name, len, len, true)] else [];
    assert w.updates + ([Update(name, 0, len, false)] + made + end) == w1.updates + made + end;
  }

  lemma SeeOne(w: Watcher, k: Kind)
    ensures SeeAll(w, [k]) == See(w, k)
  {
    assert [k][1..] == [];
  }

  lemma EndsSeen(w: Watcher, name: string, len: nat)
    ensures See(w, TransferStarted(name, len)) == Watcher(name, len, w.updates + [Update(name, 0, len, false)])
  {
  }

  lemma LastSeen(w: Watcher, d: Device, len: nat, duration: nat)
    ensures See(w, LastKind(d, len, duration))
         == w.(updates := w.updates + if LetsThrough(d, len) then [Update(w.name, len, len, true)] else [])
  {
    hide LinkFailure;
    assert w.updates + [] == w.updates;
  }

  /** The fraction never falls while the bytes do not and a finished update stays finished. */
  lemma FractionGrows(u: Update, v: Update)
    requires u.total == v.total && u.transferred <= v.transferred && (u.done ==> v.done)
    ensures Fraction(u) <= Fraction(v)
  {
    if 0 < u.total && v.transferred < v.total {
      Quotients(u.transferred, v.transferred, u.total);
    }
  }

  lemma Quotients(a: nat, b: nat, d: nat)
    requires a <= b && d > 0
    ensures a as real / d as real <= b as real / d as real
  {
  }

  lemma Stretched(i: nat, j: nat, c: nat)
    requires i <= j
    ensures i * c <= j * c
  {
  }

  lemma UpdateIs(name: string, c: nat, len: nat, k: nat, ok: bool, i: nat)
    requires i < k + 1 + if ok then 1 else 0
    ensures var us := PushUpdates(name, c, len, k, ok);
            && |us| == k + 1 + (if ok then 1 else 0)
            && us[i] == Update(name, if i <= k then Min(i * c, len) else len, len, i > k)
  {
  }

  lemma UpdatesOrdered(name: string, c: nat, len: nat, k: nat, ok: bool, i: nat, j: nat)
    requires i < j < k + 1 + if ok then 1 else 0
    ensures var us := PushUpdates(name, c, len, k, ok);
            && j < |us| && us[i].transferred <= us[j].transferred && Fraction(us[i]) <= Fraction(us[j])
  {
    hide PushUpdates, Fraction;
    UpdateIs(name, c, len, k, ok, i);
    UpdateIs(name, c, len, k, ok, j);
    Stretched(i, j, c);
    FractionGrows(PushUpdates(name, c, len, k, ok)[i], PushUpdates(name, c, len, k, ok)[j]);
  }

  /** Bytes of the whole chunks sent before the scripted limit. */
  lemma SentByLimit(d: Device, len: nat)
    requires !LetsThrough(d, len)
    ensures Min(ChunksSent(d, len) * ChunkSize(d), len) == d.failAfter.value / ChunkSize(d) * ChunkSize(d)
  {
    assert d.failAfter.value / ChunkSize(d) * ChunkSize(d) <= d.failAfter.value;
  }

  lemma FractionAtEnd(u: Update)
    requires u.done && u.transferred == u.total
    ensures Fraction(u) == 1.0
  {
  }

  lemma PushTells(d: Device, file: File, result: Result<Receipt, TransportError>, p: Push)
    requires EndsAsScripted(p, result) && p.dev == d && p.file == file
    ensures TellsOf(PushUpdates(file.name, ChunkSize(d), file.len, ChunksSent(d, file.len), LetsThrough(d, file.len)), file, result)
  {
    hide LinkFailure, PushUpdates, Fraction, ChunksSent, ChunkSize;
    ChunkSizeIs(d);
    var c, len, k, ok := ChunkSize(d), file.len, ChunksSent(d, file.len), LetsThrough(d, file.len);
    var us := PushUpdates(file.name, c, len, k, ok);
    forall i | 0 <= i < k + 1 + if ok then 1 else 0
      ensures |us| == k + 1 + (if ok then 1 else 0)
      ensures us[i] == Update(file.name, if i <= k then Min(i * c, len) else len, len, i > k)
    {
      UpdateIs(file.name, c, len, k, ok, i);
    }
    UpdateIs(file.name, c, len, k, ok, 0);
    forall i, j | 0 <= i < j < |us|
      ensures us[i].transferred <= us[j].transferred && Fraction(us[i]) <= Fraction(us[j])
    {
      UpdatesOrdered(file.name, c, len, k, ok, i, j);
    }
    if ok {
      FractionAtEnd(us[|us| - 1]);
    } else {
      SentByLimit(d, len);
    }
  }

  /** A push with nothing beside it, seen through the observer: its updates tell its story, however
      it ends. */
  lemma PushIsTold(m: Config, agent: Agent, st: State, conn: Connection, file: File, es: seq<Event>, w: Watcher)
    requires conn.token in st.connections && Lookup(m.devices, conn.peer).Some?
    ensures var ran := Alone(m, agent, st, Task.PushFile(conn, file), es);
            var before, after := SeeAll(w, Kinds(es)), SeeAll(w, Kinds(ran.events));
            && ran.task.PushEnded? && before.updates <= after.updates
            && TellsOf(after.updates[|before.updates|..], file, ran.task.result)
  {
    hide Alone, EndsAsScripted, TellsOf, PushUpdates, ChunkKinds, LastKind, SeeAll, See, Kinds, Lookup, ChunksSent;
    var d := Lookup(m.devices, conn.peer).value;
    var ran := Alone(m, agent, st, Task.PushFile(conn, file), es);
    PushClosedForm(m, agent, st, conn, file, es);
    var k := ChunksSent(d, file.len);
    var duration := TICK + k * d.perChunk;
    var news := [TransferStarted(file.name, file.len)] + ChunkKinds(ChunkSize(d), file.len, 0, k) + [LastKind(d, file.len, duration)];
    assert Kinds(ran.events) == Kinds(es) + news;
    SeeAllAppend(w, Kinds(es), news);
    PushSeen(SeeAll(w, Kinds(es)), d, file.name, file.len, k, duration);
    PushTells(d, file, ran.task.result, ran.task.p);
  }
}
