/** Choosing where a request body is kept, counting what is kept, and handing it out again
    for every attempt of a request. */
module BodyCache {

  import opened Wrappers
  import opened BodyStorage

  datatype Config = Config(enabled: bool, threshold: int, maxDisk: int)

  datatype Storage = Memory(m: MemoryStorage) | Disk(d: DiskStorage)

  function Objects(s: Storage): set<object> {
    match s case Memory(m) => {m} case Disk(d) => {d, d.file}
  }

  ghost function View(s: Storage): Reader
    reads Objects(s)
  {
    match s case Memory(m) => m.Abstract() case Disk(d) => d.Abstract()
  }

  /** Which system calls of a creation succeed. */
  datatype Io = Io(create: bool, write: bool, rewind: bool, read: bool)

  datatype Failure = TooLarge | IoFailed

  datatype Result = Stored(storage: Storage) | Failed(failure: Failure)

  predicate Available(cfg: Config, s: Stats, size: int) {
    cfg.enabled && s.diskBytes + size <= cfg.maxDisk
  }

  /** Where a body of known size goes: to disk if it is large, fits and can be written, else to memory. */
  predicate GoesToDisk(cfg: Config, s: Stats, size: nat, io: Io) {
    cfg.enabled && size >= cfg.threshold && Available(cfg, s, size) && io.create && io.write && io.rewind
  }

  datatype Decision = Keep(disk: bool) | Refuse(failure: Failure)

  predicate Streams(cfg: Config, s: Stats, declared: int) {
    cfg.enabled && declared > 0 && declared >= cfg.threshold && Available(cfg, s, declared)
  }

  /** Where a streamed body goes. A declared length that promises a large body sends it straight to
      disk, with no way back. */
  function Decide(cfg: Config, s: Stats, size: nat, declared: int, maxBytes: nat, io: Io): Decision {
    if Streams(cfg, s, declared) then
      if !io.create || !io.write || !io.read then Refuse(IoFailed)
      else if size > maxBytes then Refuse(TooLarge)
      else if !io.rewind then Refuse(IoFailed)
      else Keep(true)
    else if !io.read then Refuse(IoFailed)
    else if size > maxBytes then Refuse(TooLarge)
    else Keep(GoesToDisk(cfg, s, size, io))
  }

  method CreateBodyStorage(cfg: Config, stats: CacheStats, data: seq<byte>, io: Io) returns (s: Storage)
    modifies stats
    ensures fresh(Objects(s)) && Sound(s, stats) && View(s) == Reader(data, 0, false)
    ensures s.Disk? <==> GoesToDisk(cfg, old(stats.value), |data|, io)
    ensures stats.value == Opened(old(stats.value), Entry(s.Disk?, |data|, false))
  {
    if cfg.enabled && |data| >= cfg.threshold && Available(cfg, stats.value, |data|) {
      if io.create && io.write && io.rewind {
        var file := new File(data);
        var d := new DiskStorage(file, stats);
        return Disk(d);
      }
      var fallback := new MemoryStorage(data, stats);
      return Memory(fallback);
    }
    var m := new MemoryStorage(data, stats);
    return Memory(m);
  }

  method CreateBodyStorageFromReader(cfg: Config, stats: CacheStats, content: seq<byte>, declared: int, maxBytes: nat,
                                     io: Io)
    returns (r: Result)
    modifies stats
    ensures r.Stored? ==> && fresh(Objects(r.storage)) && Sound(r.storage, stats) && |content| <= maxBytes
                          && View(r.storage) == Reader(content, 0, false)
    ensures Decide(cfg, old(stats.value), |content|, declared, maxBytes, io) ==
            if r.Stored? then Keep(r.storage.Disk?) else Refuse(r.failure)
    ensures stats.value == if r.Stored? then Opened(old(stats.value), Entry(r.storage.Disk?, |content|, false))
                           else old(stats.value)
  {
    var limited := if |content| <= maxBytes + 1 then content else content[..maxBytes + 1];
    if cfg.enabled && declared > 0 && declared >= cfg.threshold && Available(cfg, stats.value, declared) {
      if !io.create { return Failed(IoFailed); }
      if !io.write || !io.read { return Failed(IoFailed); }
      if |limited| > maxBytes { return Failed(TooLarge); }
      if !io.rewind { return Failed(IoFailed); }
      var file := new File(limited);
      var d := new DiskStorage(file, stats);
      return Stored(Disk(d));
    }
    if !io.read { return Failed(IoFailed); }
    if |limited| > maxBytes { return Failed(TooLarge); }
    var s := CreateBodyStorage(cfg, stats, limited, io);
    return Stored(s);
  }

  ghost predicate Sound(s: Storage, stats: CacheStats) {
    match s
    case Memory(m) => m.stats == stats && m.size == |m.data|
    case Disk(d) => d.stats == stats && d.size == |d.file.contents|
  }

  // ----- the body of a request

  /** A request whose body has these bytes; the storage is made when the body is first asked for. */
  class RequestBody {
    const content: seq<byte>
    const stats: CacheStats
    var storage: Option<Storage>
    var consumed: bool

    ghost predicate Valid()
      reads this, if storage.Some? then Objects(storage.value) else {}
    {
      storage.Some? ==> && Sound(storage.value, stats) && View(storage.value).body == content
                        && this !in Objects(storage.value) && stats !in Objects(storage.value)
    }

    constructor (content: seq<byte>, stats: CacheStats)
      ensures Valid() && storage == None && !consumed && this.content == content && this.stats == stats
    {
      this.content, this.stats, storage, consumed := content, stats, None, false;
    }

    /** Rewinds the stored body, or stores it first. A stored body that was closed is an error, and the
        request's own body can be read only once. */
    method GetBodyStorage(cfg: Config, declared: int, maxBytes: nat, io: Io) returns (ok: bool)
      requires Valid()
      modifies this, stats, if storage.Some? then Objects(storage.value) else {}
      ensures Valid()
      ensures ok ==> storage.Some? && View(storage.value) == Reader(content, 0, false)
      ensures old(storage.Some?) ==> storage == old(storage) && stats.value == old(stats.value) &&
                                     ok == !old(View(storage.value).closed)
      ensures old(storage.None?) ==>
                && ok == (!old(consumed) && Decide(cfg, old(stats.value), |content|, declared, maxBytes, io).Keep?)
                && (storage.Some? <==> ok) && consumed
    {
      if storage.Some? {
        var at, err;
        match storage.value {
          case Memory(m) => at, err := m.Seek(0, 0);
          case Disk(d) => at, err := d.Seek(0, 0);
        }
        return err == Err.Ok;
      }
      var r := CreateBodyStorageFromReader(cfg, stats, content, declared, maxBytes, io.(read := io.read && !consumed));
      consumed := true;
      if r.Failed? { return false; }
      storage := Some(r.storage);
      return true;
    }
  }

  lemma {:induction false} BodyNeverChanges(disk: bool, r: Reader, ops: seq<Op>)
    ensures Finally(disk, r, ops).body == r.body
    ensures (forall i :: 0 <= i < |ops| ==> ops[i] != Close) ==> Finally(disk, r, ops).closed == r.closed
  {
    if ops != [] { BodyNeverChanges(disk, r, ops[..|ops| - 1]); }
  }

  /** Whatever earlier attempts did with an open body short of closing it, after the rewind enough reads of any
      sizes give the complete original body. */
  lemma EveryAttemptReadsTheWholeBody(disk: bool, r: Reader, earlier: seq<Op>, lengths: seq<nat>)
    requires !r.closed && (forall i :: 0 <= i < |earlier| ==> earlier[i] != Close) && Total(lengths) >= |r.body|
    ensures var (rewound, answer) := Respond(disk, Finally(disk, r, earlier), Seek(0, 0));
            answer.err == Err.Ok && Received(Answers(disk, rewound, Reads(lengths))) == r.body
  {
    BodyNeverChanges(disk, r, earlier);
    ReadsGiveTheBody(disk, Respond(disk, Finally(disk, r, earlier), Seek(0, 0)).0, lengths);
  }

  // ----- runs of creations and closes, by any number of requests at once

  /** A creation looks at the counters when it begins and changes them when it finishes. */
  datatype Event = Begin(size: nat, declared: int, maxBytes: nat, io: Io) | BeginWithData(size: nat, io: Io)
                 | Finish(index: nat) | CloseAt(index: nat)

  /** All storages ever made, the ones being made, and the counters. */
  datatype Books = Books(entries: seq<Entry>, pending: seq<Entry>, stats: Stats)

  const NoBooks := Books([], [], Stats(0, 0, 0, 0))

  function Await(b: Books, disk: bool, size: nat): Books {
    b.(pending := b.pending + [Entry(disk, size, false)])
  }

  function Happen(cfg: Config, b: Books, e: Event): Books {
    match e
    case Begin(size, declared, maxBytes, io) =>
      (match Decide(cfg, b.stats, size, declared, maxBytes, io)
       case Refuse(_) => b
       case Keep(disk) => Await(b, disk, size))
    case BeginWithData(size, io) => Await(b, GoesToDisk(cfg, b.stats, size, io), size)
    case Finish(j) =>
      if j >= |b.pending| then b
      else Books(b.entries + [b.pending[j]], b.pending[..j] + b.pending[j + 1..], Opened(b.stats, b.pending[j]))
    case CloseAt(i) =>
      if i >= |b.entries| || b.entries[i].closed then b
      else Books(b.entries[i := b.entries[i].(closed := true)], b.pending, Released(b.stats, b.entries[i]))
  }

  /** The books after the first i events. */
  function After(cfg: Config, events: seq<Event>, i: nat): Books
    requires i <= |events|
  {
    if i == 0 then NoBooks else Happen(cfg, After(cfg, events, i - 1), events[i - 1])
  }

  lemma {:induction false} SamePrefix(cfg: Config, events: seq<Event>, more: seq<Event>, i: nat)
    requires i <= |events|
    ensures After(cfg, events + more, i) == After(cfg, events, i)
  {
    if i > 0 { SamePrefix(cfg, events, more, i - 1); }
  }

  /** The books after all events. */
  function HappenAll(cfg: Config, events: seq<Event>): Books {
    After(cfg, events, |events|)
  }

  predicate Live(e: Entry, disk: bool) { e.disk == disk && !e.closed }

  function Count(entries: seq<Entry>, disk: bool): nat {
    if entries == [] then 0
    else Count(entries[..|entries| - 1], disk) + if Live(entries[|entries| - 1], disk) then 1 else 0
  }

  function Sum(entries: seq<Entry>, disk: bool): nat {
    if entries == [] then 0
    else
      var last := entries[|entries| - 1];
      Sum(entries[..|entries| - 1], disk) + if Live(last, disk) then last.size else 0
  }

  /** The counters are the numbers and sizes of the open storages. */
  predicate Exact(b: Books) {
    && b.stats == Stats(Count(b.entries, true), Sum(b.entries, true), Count(b.entries, false), Sum(b.entries, false))
    && forall j :: 0 <= j < |b.pending| ==> !b.pending[j].closed
  }

  lemma CountsAdd(entries: seq<Entry>, e: Entry, disk: bool)
    ensures Count(entries + [e], disk) == Count(entries, disk) + if Live(e, disk) then 1 else 0
    ensures Sum(entries + [e], disk) == Sum(entries, disk) + if Live(e, disk) then e.size else 0
  {
    assert (entries + [e])[..|entries|] == entries;
  }

  lemma {:induction false} CountsClose(entries: seq<Entry>, i: nat, disk: bool)
    requires i < |entries| && !entries[i].closed
    ensures var closed := entries[i := entries[i].(closed := true)];
            && Count(entries, disk) == Count(closed, disk) + (if entries[i].disk == disk then 1 else 0)
            && Sum(entries, disk) == Sum(closed, disk) + if entries[i].disk == disk then entries[i].size else 0
  {
    var n, closed := |entries| - 1, entries[i := entries[i].(closed := true)];
    if i < n {
      CountsClose(entries[..n], i, disk);
      assert closed[..n] == entries[..n][i := entries[i].(closed := true)];
    } else {
      assert closed[..n] == entries[..n];
    }
  }

  lemma FinishKeepsExact(cfg: Config, b: Books, j: nat)
    requires Exact(b) && j < |b.pending|
    ensures Exact(Happen(cfg, b, Finish(j)))
  {
    CountsAdd(b.entries, b.pending[j], true);
    CountsAdd(b.entries, b.pending[j], false);
    var rest := b.pending[..j] + b.pending[j + 1..];
    forall i | 0 <= i < |rest| ensures !rest[i].closed { assert rest[i] == b.pending[if i < j then i else i + 1]; }
  }

  lemma CloseKeepsExact(cfg: Config, b: Books, i: nat)
    requires Exact(b) && i < |b.entries| && !b.entries[i].closed
    ensures Exact(Happen(cfg, b, CloseAt(i)))
  {
    CountsClose(b.entries, i, true);
    CountsClose(b.entries, i, false);
  }

  lemma KeepExact(cfg: Config, b: Books, e: Event)
    requires Exact(b)
    ensures Exact(Happen(cfg, b, e))
  {
    match e
    case Finish(j) => if j < |b.pending| { FinishKeepsExact(cfg, b, j); }
    case CloseAt(i) => if i < |b.entries| && !b.entries[i].closed { CloseKeepsExact(cfg, b, i); }
    case _ =>
  }

  /** After every interleaving of creations and closes, with double closes and failed creations, each counter is
      the number or the total size of the storages still open. */
  lemma {:induction false} CountersAreExact(cfg: Config, events: seq<Event>, i: nat)
    requires i <= |events|
    ensures Exact(After(cfg, events, i))
  {
    if i > 0 {
      CountersAreExact(cfg, events, i - 1);
      KeepExact(cfg, After(cfg, events, i - 1), events[i - 1]);
    }
  }

  /** So closing a file never needs the clamp at zero. */
  lemma ClampNeverFires(cfg: Config, events: seq<Event>, i: nat)
    requires var b := HappenAll(cfg, events); i < |b.entries| && Live(b.entries[i], true)
    ensures var b := HappenAll(cfg, events);
            b.stats.diskFiles - 1 >= 0 && b.stats.diskBytes - b.entries[i].size >= 0
  {
    var b := HappenAll(cfg, events);
    CountersAreExact(cfg, events, |events|);
    CountsClose(b.entries, i, true);
  }

  // ----- the bound on disk usage

  function Times(k: nat, max: nat): nat { if k == 0 then 0 else Times(k - 1, max) + max }

  /** A streamed body is no longer than it said. */
  predicate Honest(e: Event) { e.Begin? ==> e.size <= e.declared || e.declared <= 0 }

  predicate Small(pending: seq<Entry>, max: int) {
    forall j :: 0 <= j < |pending| ==> pending[j].disk ==> pending[j].size <= max
  }

  /** What is used or about to be is within k times the maximum. */
  predicate Bounded(cfg: Config, b: Books, k: nat)
    requires cfg.maxDisk >= 0
  {
    Small(b.pending, cfg.maxDisk) && b.stats.diskBytes + Sum(b.pending, true) <= Times(k, cfg.maxDisk)
  }

  lemma {:induction false} SumAtMost(pending: seq<Entry>, max: nat)
    requires Small(pending, max)
    ensures Sum(pending, true) <= Times(|pending|, max)
  {
    if pending != [] {
      var init, last := pending[..|pending| - 1], pending[|pending| - 1];
      forall j | 0 <= j < |init| && init[j].disk ensures init[j].size <= max { assert init[j] == pending[j]; }
      SumAtMost(init, max);
    }
  }

  lemma {:induction false} SumRemoved(pending: seq<Entry>, j: nat)
    requires j < |pending|
    ensures Sum(pending[..j] + pending[j + 1..], true) + (if Live(pending[j], true) then pending[j].size else 0) ==
            Sum(pending, true)
  {
    var n := |pending| - 1;
    if j == n {
      assert pending[..j] + pending[j + 1..] == pending[..n];
    } else {
      SumRemoved(pending[..n], j);
      var rest := pending[..j] + pending[j + 1..];
      assert rest == pending[..n][..j] + pending[..n][j + 1..] + [pending[n]];
      CountsAdd(pending[..n][..j] + pending[..n][j + 1..], pending[n], true);
    }
  }

  lemma {:induction false} TimesGrows(a: nat, b: nat, max: nat)
    requires a <= b
    ensures Times(a, max) <= Times(b, max)
  {
    if a < b { TimesGrows(a, b - 1, max); }
  }

  lemma AwaitKeepsBound(cfg: Config, b: Books, disk: bool, size: nat, k: nat)
    requires cfg.maxDisk >= 0 && Exact(b) && Bounded(cfg, b, k) && |b.pending| < k
    requires disk ==> b.stats.diskBytes + size <= cfg.maxDisk
    ensures Bounded(cfg, Await(b, disk, size), k)
  {
    CountsAdd(b.pending, Entry(disk, size, false), true);
    SumAtMost(b.pending, cfg.maxDisk);
    TimesGrows(|b.pending|, k - 1, cfg.maxDisk);
  }

  lemma FinishKeepsBound(cfg: Config, b: Books, j: nat, k: nat)
    requires cfg.maxDisk >= 0 && Exact(b) && Bounded(cfg, b, k) && j < |b.pending|
    ensures Bounded(cfg, Happen(cfg, b, Finish(j)), k)
  {
    SumRemoved(b.pending, j);
    var rest := b.pending[..j] + b.pending[j + 1..];
    forall i | 0 <= i < |rest| && rest[i].disk ensures rest[i].size <= cfg.maxDisk {
      assert rest[i] == b.pending[if i < j then i else i + 1];
    }
  }

  lemma KeepBounded(cfg: Config, b: Books, e: Event, k: nat)
    requires cfg.maxDisk >= 0 && Exact(b) && Bounded(cfg, b, k) && Honest(e)
    requires |Happen(cfg, b, e).pending| <= k
    ensures Bounded(cfg, Happen(cfg, b, e), k)
  {
    match e
    case Begin(size, declared, maxBytes, io) =>
      var d := Decide(cfg, b.stats, size, declared, maxBytes, io);
      if d.Keep? { AwaitKeepsBound(cfg, b, d.disk, size, k); }
    case BeginWithData(size, io) => AwaitKeepsBound(cfg, b, GoesToDisk(cfg, b.stats, size, io), size, k);
    case Finish(j) => if j < |b.pending| { FinishKeepsBound(cfg, b, j, k); }
    case CloseAt(i) => if i < |b.entries| && !b.entries[i].closed { CountsClose(b.entries, i, true); }
  }

  /** Never more than k creations overlap during the first n events. */
  ghost predicate AtMostInFlight(cfg: Config, events: seq<Event>, n: nat, k: nat)
    requires n <= |events|
  {
    forall i :: 0 <= i <= n ==> |After(cfg, events, i).pending| <= k
  }

  /** In every interleaving of honest creations of which at most k overlap, disk usage stays within k times the
      configured maximum; in sequential runs, k being one, within the maximum itself. */
  lemma {:induction false} DiskUsageIsBounded(cfg: Config, events: seq<Event>, n: nat, k: nat)
    requires cfg.maxDisk >= 0 && n <= |events| && AtMostInFlight(cfg, events, n, k)
    requires forall i :: 0 <= i < |events| ==> Honest(events[i])
    ensures Bounded(cfg, After(cfg, events, n), k) && After(cfg, events, n).stats.diskBytes <= Times(k, cfg.maxDisk)
  {
    if n > 0 {
      DiskUsageIsBounded(cfg, events, n - 1, k);
      CountersAreExact(cfg, events, n - 1);
      KeepBounded(cfg, After(cfg, events, n - 1), events[n - 1], k);
    }
  }

  function Repeat<T>(x: T, n: nat): seq<T> { if n == 0 then [] else Repeat(x, n - 1) + [x] }

  lemma {:induction false} RepeatIs<T>(x: T, n: nat)
    ensures |Repeat(x, n)| == n && forall i :: 0 <= i < n ==> Repeat(x, n)[i] == x
  {
    if n > 0 { RepeatIs(x, n - 1); }
  }

  lemma HappensNext(cfg: Config, events: seq<Event>, e: Event)
    ensures HappenAll(cfg, events + [e]) == Happen(cfg, HappenAll(cfg, events), e)
  {
    SamePrefix(cfg, events, [e], |events|);
  }

  /** Everything goes to disk, and a body as large as the maximum fits an empty cache. */
  predicate Roomy(cfg: Config, io: Io) {
    && io.create && io.write && io.read && io.rewind
    && cfg.enabled && cfg.maxDisk > 0 && cfg.threshold <= cfg.maxDisk
  }

  lemma BeginsOnEmpty(cfg: Config, io: Io, b: Books)
    requires Roomy(cfg, io) && b.stats.diskBytes == 0
    ensures Happen(cfg, b, BeginWithData(cfg.maxDisk, io)) ==
            b.(pending := b.pending + [Entry(true, cfg.maxDisk, false)])
  {
  }

  lemma {:induction false} AllBegin(cfg: Config, io: Io, k: nat)
    requires Roomy(cfg, io)
    ensures HappenAll(cfg, Repeat(BeginWithData(cfg.maxDisk, io), k)) ==
            Books([], Repeat(Entry(true, cfg.maxDisk, false), k), Stats(0, 0, 0, 0))
  {
    if k > 0 {
      AllBegin(cfg, io, k - 1);
      HappensNext(cfg, Repeat(BeginWithData(cfg.maxDisk, io), k - 1), BeginWithData(cfg.maxDisk, io));
      BeginsOnEmpty(cfg, io, HappenAll(cfg, Repeat(BeginWithData(cfg.maxDisk, io), k - 1)));
    }
  }

  lemma FinishFirst(cfg: Config, b: Books, max: nat, n: nat)
    requires b.pending == Repeat(Entry(true, max, false), n + 1)
    ensures var b' := Happen(cfg, b, Finish(0));
            b'.pending == Repeat(Entry(true, max, false), n) && b'.stats.diskBytes == b.stats.diskBytes + max
  {
    var entry := Entry(true, max, false);
    RepeatIs(entry, n + 1);
    RepeatIs(entry, n);
    assert b.pending[..0] + b.pending[0 + 1..] == Repeat(entry, n);
  }

  /** k creations have begun, and j of them are finished. */
  function Overlapping(io: Io, max: nat, k: nat, j: nat): seq<Event> {
    Repeat(BeginWithData(max, io), k) + Repeat(Finish(0), j)
  }

  lemma OverlappingNext(cfg: Config, io: Io, max: nat, k: nat, j: nat)
    ensures HappenAll(cfg, Overlapping(io, max, k, j + 1)) ==
            Happen(cfg, HappenAll(cfg, Overlapping(io, max, k, j)), Finish(0))
  {
    HappensNext(cfg, Overlapping(io, max, k, j), Finish(0));
    assert Overlapping(io, max, k, j + 1) == Overlapping(io, max, k, j) + [Finish(0)];
  }

  lemma {:induction false} SomeFinish(cfg: Config, io: Io, k: nat, j: nat)
    requires Roomy(cfg, io) && j <= k
    ensures var b := HappenAll(cfg, Overlapping(io, cfg.maxDisk, k, j));
            b.pending == Repeat(Entry(true, cfg.maxDisk, false), k - j) && b.stats.diskBytes == Times(j, cfg.maxDisk)
  {
    if j == 0 {
      assert Overlapping(io, cfg.maxDisk, k, 0) == Repeat(BeginWithData(cfg.maxDisk, io), k);
      AllBegin(cfg, io, k);
    } else {
      var b := HappenAll(cfg, Overlapping(io, cfg.maxDisk, k, j - 1));
      SomeFinish(cfg, io, k, j - 1);
      OverlappingNext(cfg, io, cfg.maxDisk, k, j - 1);
      FinishFirst(cfg, b, cfg.maxDisk, k - j);
    }
  }

  /** The bound is met for every k and every configuration that keeps bodies on disk: k overlapping creations that
      each fit use k times the maximum. */
  lemma OverlappingCreationsExceed(cfg: Config, io: Io, k: nat)
    requires Roomy(cfg, io)
    ensures HappenAll(cfg, Overlapping(io, cfg.maxDisk, k, k)).stats.diskBytes == Times(k, cfg.maxDisk)
  {
    SomeFinish(cfg, io, k, k);
  }

  // ----- sequential runs

  /** One creation from its beginning to its end, or a close. */
  datatype Turn =
    | Make(size: nat, declared: int, maxBytes: nat, io: Io)
    | MakeWithData(size: nat, io: Io)
    | Drop(index: nat)

  function Turn1(cfg: Config, b: Books, t: Turn): Books {
    match t
    case Make(size, declared, maxBytes, io) =>
      Happen(cfg, Happen(cfg, b, Begin(size, declared, maxBytes, io)), Finish(0))
    case MakeWithData(size, io) => Happen(cfg, Happen(cfg, b, BeginWithData(size, io)), Finish(0))
    case Drop(i) => Happen(cfg, b, CloseAt(i))
  }

  /** The books after the first i turns. */
  function Turned(cfg: Config, turns: seq<Turn>, i: nat): Books
    requires i <= |turns|
  {
    if i == 0 then NoBooks else Turn1(cfg, Turned(cfg, turns, i - 1), turns[i - 1])
  }

  function EventsOf(t: Turn): seq<Event> {
    match t
    case Make(size, declared, maxBytes, io) => [Begin(size, declared, maxBytes, io), Finish(0)]
    case MakeWithData(size, io) => [BeginWithData(size, io), Finish(0)]
    case Drop(i) => [CloseAt(i)]
  }

  function Events(turns: seq<Turn>, i: nat): seq<Event>
    requires i <= |turns|
  {
    if i == 0 then [] else Events(turns, i - 1) + EventsOf(turns[i - 1])
  }

  lemma HappenPair(cfg: Config, events: seq<Event>, e: Event, f: Event, b: Books)
    requires b == Happen(cfg, HappenAll(cfg, events), e)
    ensures HappenAll(cfg, events + [e, f]) == Happen(cfg, b, f)
  {
    HappensNext(cfg, events, e);
    HappensNext(cfg, events + [e], f);
    assert events + [e] + [f] == events + [e, f];
  }

  /** A sequential run is a run in which every creation finishes before anything else happens. */
  lemma {:induction false} TurnsAreRun(cfg: Config, turns: seq<Turn>, i: nat)
    requires i <= |turns|
    ensures Turned(cfg, turns, i) == HappenAll(cfg, Events(turns, i))
  {
    if i > 0 {
      TurnsAreRun(cfg, turns, i - 1);
      match turns[i - 1]
      case Make(size, declared, maxBytes, io) =>
        var e := Begin(size, declared, maxBytes, io);
        HappenPair(cfg, Events(turns, i - 1), e, Finish(0), Happen(cfg, Turned(cfg, turns, i - 1), e));
      case MakeWithData(size, io) =>
        var e := BeginWithData(size, io);
        HappenPair(cfg, Events(turns, i - 1), e, Finish(0), Happen(cfg, Turned(cfg, turns, i - 1), e));
      case Drop(j) => HappensNext(cfg, Events(turns, i - 1), CloseAt(j));
    }
  }

  /** If the body goes to disk on its declared length, its real size fits. */
  predicate Fits(cfg: Config, s: Stats, t: Turn) {
    t.Make? && Streams(cfg, s, t.declared) && Decide(cfg, s, t.size, t.declared, t.maxBytes, t.io).Keep? ==>
      s.diskBytes + t.size <= cfg.maxDisk
  }

  lemma FinishesAlone(cfg: Config, b: Books, disk: bool, size: nat)
    requires b.pending == []
    ensures var end := Happen(cfg, Await(b, disk, size), Finish(0));
            end.pending == [] && end.stats == Opened(b.stats, Entry(disk, size, false))
  {
  }

  lemma DropFrees(cfg: Config, b: Books, i: nat)
    requires Exact(b)
    ensures Happen(cfg, b, CloseAt(i)).pending == b.pending
    ensures Happen(cfg, b, CloseAt(i)).stats.diskBytes <= b.stats.diskBytes
  {
    if i < |b.entries| && !b.entries[i].closed { CountsClose(b.entries, i, true); }
  }

  lemma MakeKeepsBoundIff(cfg: Config, b: Books, size: nat, declared: int, maxBytes: nat, io: Io)
    requires b.pending == [] && b.stats.diskBytes <= cfg.maxDisk
    ensures var t := Make(size, declared, maxBytes, io);
            && Turn1(cfg, b, t).pending == []
            && (Turn1(cfg, b, t).stats.diskBytes <= cfg.maxDisk <==> Fits(cfg, b.stats, t))
  {
    var d := Decide(cfg, b.stats, size, declared, maxBytes, io);
    if d.Keep? { FinishesAlone(cfg, b, d.disk, size); }
  }

  /** A turn leaves nothing pending, and stays within the maximum exactly when it fits. */
  lemma TurnKeepsBoundIff(cfg: Config, b: Books, t: Turn)
    requires Exact(b) && b.pending == [] && b.stats.diskBytes <= cfg.maxDisk
    ensures Turn1(cfg, b, t).pending == []
    ensures Turn1(cfg, b, t).stats.diskBytes <= cfg.maxDisk <==> Fits(cfg, b.stats, t)
  {
    match t
    case Make(size, declared, maxBytes, io) => MakeKeepsBoundIff(cfg, b, size, declared, maxBytes, io);
    case MakeWithData(size, io) => FinishesAlone(cfg, b, GoesToDisk(cfg, b.stats, size, io), size);
    case Drop(i) => DropFrees(cfg, b, i);
  }

  predicate Within(cfg: Config, turns: seq<Turn>, i: nat)
    requires i <= |turns|
  {
    Turned(cfg, turns, i).stats.diskBytes <= cfg.maxDisk
  }

  predicate FitsAt(cfg: Config, turns: seq<Turn>, i: nat)
    requires i < |turns|
  {
    Fits(cfg, Turned(cfg, turns, i).stats, turns[i])
  }

  lemma NextTurn(cfg: Config, turns: seq<Turn>, n: nat)
    requires n < |turns| && Within(cfg, turns, n) && Turned(cfg, turns, n).pending == []
    ensures Turned(cfg, turns, n + 1).pending == [] && (Within(cfg, turns, n + 1) <==> FitsAt(cfg, turns, n))
  {
    TurnsAreRun(cfg, turns, n);
    CountersAreExact(cfg, Events(turns, n), |Events(turns, n)|);
    TurnKeepsBoundIff(cfg, Turned(cfg, turns, n), turns[n]);
  }

  lemma {:induction false} FittingStaysWithin(cfg: Config, turns: seq<Turn>, n: nat)
    requires cfg.maxDisk >= 0 && n <= |turns| && forall i :: 0 <= i < n ==> FitsAt(cfg, turns, i)
    ensures Within(cfg, turns, n) && Turned(cfg, turns, n).pending == []
  {
    if n > 0 {
      FittingStaysWithin(cfg, turns, n - 1);
      NextTurn(cfg, turns, n - 1);
    }
  }

  lemma {:induction false} WithinLeavesNothing(cfg: Config, turns: seq<Turn>, n: nat)
    requires n <= |turns| && forall i :: 0 <= i <= n ==> Within(cfg, turns, i)
    ensures Turned(cfg, turns, n).pending == []
  {
    if n > 0 {
      WithinLeavesNothing(cfg, turns, n - 1);
      NextTurn(cfg, turns, n - 1);
    }
  }

  lemma WithinFits(cfg: Config, turns: seq<Turn>, n: nat)
    requires n < |turns| && forall i :: 0 <= i <= n + 1 ==> Within(cfg, turns, i)
    ensures FitsAt(cfg, turns, n)
  {
    WithinLeavesNothing(cfg, turns, n);
    NextTurn(cfg, turns, n);
  }

  /** In every sequential run disk usage stays within the maximum, after every turn, exactly when every body that
      goes to disk on its declared length fits at its turn. */
  lemma StreamsKeepBoundIff(cfg: Config, turns: seq<Turn>)
    requires cfg.maxDisk >= 0
    ensures (forall i :: 0 <= i <= |turns| ==> Within(cfg, turns, i)) <==>
            (forall i :: 0 <= i < |turns| ==> FitsAt(cfg, turns, i))
  {
    if forall i :: 0 <= i < |turns| ==> FitsAt(cfg, turns, i) {
      forall n | 0 <= n <= |turns| ensures Within(cfg, turns, n) { FittingStaysWithin(cfg, turns, n); }
    }
    if forall i :: 0 <= i <= |turns| ==> Within(cfg, turns, i) {
      forall n | 0 <= n < |turns| ensures FitsAt(cfg, turns, n) { WithinFits(cfg, turns, n); }
    }
  }

  /** A body that declares one byte and has more than the maximum. */
  lemma OverlongBodyExceeds(cfg: Config, io: Io)
    requires Roomy(cfg, io) && cfg.threshold <= 1
    ensures var turns := [Make(cfg.maxDisk + 1, 1, cfg.maxDisk + 1, io)];
            Turned(cfg, turns, 1).stats.diskBytes == cfg.maxDisk + 1 && !Within(cfg, turns, 1)
  {
    var turns := [Make(cfg.maxDisk + 1, 1, cfg.maxDisk + 1, io)];
    assert Turned(cfg, turns, 0) == NoBooks && Turned(cfg, turns, 1) == Turn1(cfg, NoBooks, turns[0]);
    FinishesAlone(cfg, NoBooks, true, cfg.maxDisk + 1);
  }
}
