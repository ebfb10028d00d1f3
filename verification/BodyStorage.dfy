/** Request bodies kept for replay, in memory or in a file behind the same interface. */
module BodyStorage {

  newtype byte = x: int | 0 <= x < 256

  datatype Err = Ok | Eof | Closed | Invalid

  // ----- the abstract seekable reader

  datatype Reader = Reader(body: seq<byte>, pos: nat, closed: bool)

  datatype Op = Read(length: nat) | Seek(offset: int, whence: int) | Bytes | Close

  datatype Answer = Answer(bytes: seq<byte>, pos: int, err: Err)

  /** What is left to read, up to a length. */
  function Rest(r: Reader, length: nat): seq<byte> {
    if r.pos >= |r.body| then []
    else if r.pos + length <= |r.body| then r.body[r.pos..r.pos + length]
    else r.body[r.pos..]
  }

  function Target(r: Reader, offset: int, whence: int): int {
    if whence == 0 then offset else if whence == 1 then r.pos + offset else |r.body| + offset
  }

  predicate AtEnd(r: Reader) { !r.closed && r.pos >= |r.body| }

  /** The two kinds differ only in what a zero-length read says at the end. */
  function Respond(disk: bool, r: Reader, op: Op): (Reader, Answer) {
    if op == Close then (r.(closed := true), Answer([], 0, Ok))
    else if r.closed then (r, Answer([], 0, Closed))
    else match op
      case Read(length) =>
        var bytes := Rest(r, length);
        var eof := r.pos >= |r.body| && (length > 0 || !disk);
        (r.(pos := r.pos + |bytes|), Answer(bytes, 0, if eof then Eof else Ok))
      case Seek(offset, whence) =>
        if whence !in {0, 1, 2} || Target(r, offset, whence) < 0 then (r, Answer([], 0, Invalid))
        else (r.(pos := Target(r, offset, whence)), Answer([], Target(r, offset, whence), Ok))
      case _ => (r, Answer(r.body, 0, Ok))
  }

  function Finally(disk: bool, r: Reader, ops: seq<Op>): Reader {
    if ops == [] then r else Respond(disk, Finally(disk, r, ops[..|ops| - 1]), ops[|ops| - 1]).0
  }

  function Answers(disk: bool, r: Reader, ops: seq<Op>): seq<Answer> {
    if ops == [] then []
    else Answers(disk, r, ops[..|ops| - 1]) + [Respond(disk, Finally(disk, r, ops[..|ops| - 1]), ops[|ops| - 1]).1]
  }

  /** Some operation is a zero-length read at the end. */
  predicate ReadsNothingAtEnd(r: Reader, ops: seq<Op>) {
    exists i :: 0 <= i < |ops| && ops[i] == Read(0) && AtEnd(Finally(false, r, ops[..i]))
  }

  lemma {:induction false} SameState(r: Reader, ops: seq<Op>)
    ensures Finally(true, r, ops) == Finally(false, r, ops)
  {
    if ops != [] { SameState(r, ops[..|ops| - 1]); }
  }

  lemma {:induction false} AnswerCount(disk: bool, r: Reader, ops: seq<Op>)
    ensures |Answers(disk, r, ops)| == |ops|
  {
    if ops != [] { AnswerCount(disk, r, ops[..|ops| - 1]); }
  }

  /** Memory and file storage answer every sequence of operations alike, except for zero-length
      reads at the end: the answers are equal exactly when there is none. */
  lemma {:induction false} SameAnswersIff(r: Reader, ops: seq<Op>)
    ensures Answers(true, r, ops) == Answers(false, r, ops) <==> !ReadsNothingAtEnd(r, ops)
  {
    if ops != [] {
      var prefix, n := ops[..|ops| - 1], |ops| - 1;
      SameAnswersIff(r, prefix);
      SameState(r, prefix);
      AnswerCount(true, r, prefix);
      AnswerCount(false, r, prefix);
      LastOrEarlier(r, ops);
      assert Answers(true, r, ops)[..n] == Answers(true, r, prefix);
      assert Answers(false, r, ops)[..n] == Answers(false, r, prefix);
      assert Answers(true, r, ops)[n] == Respond(true, Finally(false, r, prefix), ops[n]).1;
      assert Answers(false, r, ops)[n] == Respond(false, Finally(false, r, prefix), ops[n]).1;
    }
  }

  lemma LastOrEarlier(r: Reader, ops: seq<Op>)
    requires ops != []
    ensures var prefix := ops[..|ops| - 1];
            ReadsNothingAtEnd(r, ops) <==>
            ReadsNothingAtEnd(r, prefix) || (ops[|ops| - 1] == Read(0) && AtEnd(Finally(false, r, prefix)))
  {
    var prefix := ops[..|ops| - 1];
    forall i | 0 <= i < |prefix| ensures ops[..i] == prefix[..i] && ops[i] == prefix[i] {}
    if ReadsNothingAtEnd(r, prefix) {
      var i :| 0 <= i < |prefix| && prefix[i] == Read(0) && AtEnd(Finally(false, r, prefix[..i]));
      assert ops[i] == Read(0) && ops[..i] == prefix[..i];
    }
    if ops[|ops| - 1] == Read(0) && AtEnd(Finally(false, r, prefix)) {
      assert ops[|ops| - 1] == Read(0) && ops[..|ops| - 1] == prefix;
    }
  }

  // ----- replaying

  function Total(lengths: seq<nat>): nat {
    if lengths == [] then 0 else Total(lengths[..|lengths| - 1]) + lengths[|lengths| - 1]
  }

  function Reads(lengths: seq<nat>): seq<Op> {
    seq(|lengths|, i requires 0 <= i < |lengths| => Read(lengths[i]))
  }

  function Received(answers: seq<Answer>): seq<byte> {
    if answers == [] then [] else Received(answers[..|answers| - 1]) + answers[|answers| - 1].bytes
  }

  function Prefix(body: seq<byte>, n: nat): seq<byte> { if n <= |body| then body[..n] else body }

  lemma ReadStep(disk: bool, r: Reader, total: nat, length: nat)
    requires !r.closed
    ensures var before := r.(pos := |Prefix(r.body, total)|);
            && Respond(disk, before, Read(length)).0 == r.(pos := |Prefix(r.body, total + length)|)
            && Prefix(r.body, total) + Respond(disk, before, Read(length)).1.bytes == Prefix(r.body, total + length)
  {
  }

  lemma ReadsSnoc(disk: bool, r: Reader, ops: seq<Op>)
    requires ops != []
    ensures var before := Finally(disk, r, ops[..|ops| - 1]);
            Received(Answers(disk, r, ops)) ==
            Received(Answers(disk, r, ops[..|ops| - 1])) + Respond(disk, before, ops[|ops| - 1]).1.bytes
  {
    var answers, prefix := Answers(disk, r, ops), Answers(disk, r, ops[..|ops| - 1]);
    assert answers[..|answers| - 1] == prefix;
  }

  /** However a reader at the start is read, what arrives is the beginning of the body; enough
      reads give all of it. */
  lemma {:induction false} ReadsGiveTheBody(disk: bool, r: Reader, lengths: seq<nat>)
    requires r.pos == 0 && !r.closed
    ensures Finally(disk, r, Reads(lengths)) == r.(pos := |Prefix(r.body, Total(lengths))|)
    ensures Received(Answers(disk, r, Reads(lengths))) == Prefix(r.body, Total(lengths))
  {
    if lengths != [] {
      var n := |lengths| - 1;
      ReadsGiveTheBody(disk, r, lengths[..n]);
      assert Reads(lengths)[..n] == Reads(lengths[..n]);
      ReadsSnoc(disk, r, Reads(lengths));
      ReadStep(disk, r, Total(lengths[..n]), lengths[n]);
    }
  }

  // ----- usage counters

  datatype Stats = Stats(diskFiles: int, diskBytes: int, memoryBuffers: int, memoryBytes: int)

  function Clamped(x: int): int { if x < 0 then 0 else x }

  class CacheStats {
    var value: Stats

    method IncrementDiskFiles(size: nat)
      modifies this
      ensures value == Opened(old(value), Entry(true, size, false))
    {
      value := value.(diskFiles := value.diskFiles + 1, diskBytes := value.diskBytes + size);
    }

    method DecrementDiskFiles(size: nat)
      modifies this
      ensures value == Released(old(value), Entry(true, size, false))
    {
      value := value.(diskFiles := value.diskFiles - 1);
      if value.diskFiles < 0 { value := value.(diskFiles := 0); }
      value := value.(diskBytes := value.diskBytes - size);
      if value.diskBytes < 0 { value := value.(diskBytes := 0); }
    }

    method IncrementMemoryBuffers(size: nat)
      modifies this
      ensures value == Opened(old(value), Entry(false, size, false))
    {
      value := value.(memoryBuffers := value.memoryBuffers + 1, memoryBytes := value.memoryBytes + size);
    }

    method DecrementMemoryBuffers(size: nat)
      modifies this
      ensures value == Released(old(value), Entry(false, size, false))
    {
      value := value.(memoryBuffers := value.memoryBuffers - 1, memoryBytes := value.memoryBytes - size);
    }
  }

  /** A storage as the counters see it. */
  datatype Entry = Entry(disk: bool, size: nat, closed: bool)

  function Opened(s: Stats, e: Entry): Stats {
    if e.disk then s.(diskFiles := s.diskFiles + 1, diskBytes := s.diskBytes + e.size)
    else s.(memoryBuffers := s.memoryBuffers + 1, memoryBytes := s.memoryBytes + e.size)
  }

  function Released(s: Stats, e: Entry): Stats {
    if e.disk then s.(diskFiles := Clamped(s.diskFiles - 1), diskBytes := Clamped(s.diskBytes - e.size))
    else s.(memoryBuffers := s.memoryBuffers - 1, memoryBytes := s.memoryBytes - e.size)
  }

  // ----- the two storages

  class MemoryStorage {
    const data: seq<byte>
    const size: nat
    const stats: CacheStats
    var pos: nat
    var closed: bool

    ghost function Abstract(): Reader
      reads this
    {
      Reader(data, pos, closed)
    }

    constructor (data: seq<byte>, stats: CacheStats)
      modifies stats
      ensures Abstract() == Reader(data, 0, false) && this.stats == stats && size == |data|
      ensures stats.value == Opened(old(stats.value), Entry(false, |data|, false))
    {
      this.data, this.stats, size, pos, closed := data, stats, |data|, 0, false;
      new;
      stats.IncrementMemoryBuffers(|data|);
    }

    method Read(p: array<byte>) returns (n: nat, err: Err)
      modifies this, p
      ensures n <= p.Length && p[n..] == old(p[n..])
      ensures (Abstract(), Answer(p[..n], 0, err)) == Respond(false, old(Abstract()), Op.Read(p.Length))
    {
      n := 0;
      assert p[..0] == [];
      if closed { return 0, Closed; }
      if pos >= |data| { return 0, Eof; }
      n := if pos + p.Length <= |data| then p.Length else |data| - pos;
      forall i | 0 <= i < n { p[i] := data[pos + i]; }
      assert p[..n] == Rest(old(Abstract()), p.Length);
      pos := pos + n;
      err := Ok;
    }

    method Seek(offset: int, whence: int) returns (at: int, err: Err)
      modifies this
      ensures (Abstract(), Answer([], at, err)) == Respond(false, old(Abstract()), Op.Seek(offset, whence))
    {
      if closed { return 0, Closed; }
      match whence {
        case 0 => at := offset;
        case 1 => at := pos + offset;
        case 2 => at := |data| + offset;
        case _ => return 0, Invalid;
      }
      if at < 0 { return 0, Invalid; }
      pos := at;
      return at, Ok;
    }

    method Bytes() returns (bytes: seq<byte>, err: Err)
      ensures (Abstract(), Answer(bytes, 0, err)) == Respond(false, old(Abstract()), Op.Bytes)
    {
      if closed { return [], Closed; }
      return data, Ok;
    }

    method Close()
      requires size == |data|
      modifies this, stats
      ensures Abstract() == Respond(false, old(Abstract()), Op.Close).0
      ensures stats.value == if old(closed) then old(stats.value)
                             else Released(old(stats.value), Entry(false, |data|, false))
    {
      if !closed {
        closed := true;
        stats.DecrementMemoryBuffers(size);
      }
    }
  }

  /** An open file: reads stop at the end, seeks may go past it. */
  class File {
    const contents: seq<byte>
    var pos: nat

    constructor (contents: seq<byte>)
      ensures this.contents == contents && pos == 0
    {
      this.contents, pos := contents, 0;
    }

    ghost function Open(): Reader
      reads this
    {
      Reader(contents, pos, false)
    }

    method Read(p: array<byte>) returns (n: nat, err: Err)
      modifies this, p
      ensures n <= p.Length && p[n..] == old(p[n..])
      ensures (Open(), Answer(p[..n], 0, err)) == Respond(true, old(Open()), Op.Read(p.Length))
    {
      n := 0;
      assert p[..0] == [];
      if p.Length == 0 { return 0, Ok; }
      if pos >= |contents| { return 0, Eof; }
      n := if pos + p.Length <= |contents| then p.Length else |contents| - pos;
      forall i | 0 <= i < n { p[i] := contents[pos + i]; }
      assert p[..n] == Rest(old(Open()), p.Length);
      pos := pos + n;
      err := Ok;
    }

    method Seek(offset: int, whence: int) returns (at: int, err: Err)
      modifies this
      ensures (Open(), Answer([], at, err)) == Respond(true, old(Open()), Op.Seek(offset, whence))
    {
      if whence < 0 || whence > 2 { return 0, Invalid; }
      at := (if whence == 0 then 0 else if whence == 1 then pos else |contents|) + offset;
      if at < 0 { return 0, Invalid; }
      pos := at;
      return at, Ok;
    }
  }

  class DiskStorage {
    const file: File
    const size: nat
    const stats: CacheStats
    var closed: bool

    ghost function Abstract(): Reader
      reads this, file
    {
      Reader(file.contents, file.pos, closed)
    }

    constructor (file: File, stats: CacheStats)
      modifies stats
      ensures this.file == file && this.stats == stats && size == |file.contents|
      ensures Abstract() == Reader(file.contents, file.pos, false)
      ensures stats.value == Opened(old(stats.value), Entry(true, |file.contents|, false))
    {
      this.file, this.stats, size, closed := file, stats, |file.contents|, false;
      new;
      stats.IncrementDiskFiles(|file.contents|);
    }

    method Read(p: array<byte>) returns (n: nat, err: Err)
      modifies file, p
      ensures n <= p.Length && p[n..] == old(p[n..])
      ensures (Abstract(), Answer(p[..n], 0, err)) == Respond(true, old(Abstract()), Op.Read(p.Length))
    {
      n := 0;
      assert p[..0] == [];
      if closed { return 0, Closed; }
      n, err := file.Read(p);
    }

    method Seek(offset: int, whence: int) returns (at: int, err: Err)
      modifies file
      ensures (Abstract(), Answer([], at, err)) == Respond(true, old(Abstract()), Op.Seek(offset, whence))
    {
      if closed { return 0, Closed; }
      at, err := file.Seek(offset, whence);
    }

    /** Remembers the position, reads the whole file from the start, and goes back. */
    method Bytes() returns (bytes: seq<byte>, err: Err)
      requires size == |file.contents|
      modifies file
      ensures (Abstract(), Answer(bytes, 0, err)) == Respond(true, old(Abstract()), Op.Bytes)
    {
      if closed { return [], Closed; }
      var current, e := file.Seek(0, 1);
      if e != Ok { return [], e; }
      var zero;
      zero, e := file.Seek(0, 0);
      if e != Ok { return [], e; }
      bytes, err := ReadFull();
      if err != Ok { return [], err; }
      zero, e := file.Seek(current, 0);
      if e != Ok { return [], e; }
      return bytes, Ok;
    }

    /** Reads until the buffer of the recorded size is full. */
    method ReadFull() returns (bytes: seq<byte>, err: Err)
      requires size == |file.contents| && file.pos == 0
      modifies file
      ensures err == Ok && bytes == file.contents
    {
      bytes := [];
      while |bytes| < size
        invariant file.pos == |bytes| <= size && bytes == file.contents[..|bytes|]
      {
        var p := new byte[size - |bytes|];
        var n;
        n, err := file.Read(p);
        if err != Ok { return bytes, err; }
        bytes := bytes + p[..n];
      }
      err := Ok;
    }

    method Close()
      requires size == |file.contents|
      modifies this, stats
      ensures Abstract() == Respond(true, old(Abstract()), Op.Close).0
      ensures stats.value == if old(closed) then old(stats.value)
                             else Released(old(stats.value), Entry(true, size, false))
    {
      if !closed {
        closed := true;
        stats.DecrementDiskFiles(size);
      }
    }
  }
}
