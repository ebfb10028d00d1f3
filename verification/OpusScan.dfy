/** The scanner that finds the duration of an Opus file by walking the pages of its
    Ogg container (section 6 of RFC 3533) and keeping the largest granule position.

    The input is a byte sequence and a read position: a read returns as many bytes as
    asked for unless the input ends, and a seek may go past the end. */
module OpusScan {

  type byte = b: int | 0 <= b < 256

  const Marker: seq<byte> := [79, 103, 103, 83]  // "OggS"

  const HeaderSize := 27

  // ----- little-endian signed 64-bit numbers

  const Two63 := 0x8000_0000_0000_0000
  const Two64 := 0x1_0000_0000_0000_0000

  /** The number in the n bytes that start at a position, least significant first. */
  function FromLittleEndian(data: seq<byte>, a: nat, n: nat): nat
    requires a + n <= |data|
    decreases n
  {
    if n == 0 then 0 else data[a] + 256 * FromLittleEndian(data, a + 1, n - 1)
  }

  function ToLittleEndian(n: nat, size: nat): (bytes: seq<byte>)
    ensures |bytes| == size
  {
    if size == 0 then [] else [n % 256] + ToLittleEndian(n / 256, size - 1)
  }

  function Power256(k: nat): nat {
    if k == 0 then 1 else 256 * Power256(k - 1)
  }

  lemma {:induction false} LittleEndianRoundTrip(data: seq<byte>, a: nat, n: nat, size: nat)
    requires n < Power256(size) && a + size <= |data| && data[a..a + size] == ToLittleEndian(n, size)
    ensures FromLittleEndian(data, a, size) == n
    decreases size
  {
    if size > 0 {
      assert data[a] == data[a..a + size][0];
      assert data[a + 1..a + size] == data[a..a + size][1..];
      LittleEndianRoundTrip(data, a + 1, n / 256, size - 1);
    }
  }

  function ToSigned(u: nat): int { if u >= Two63 then u - Two64 else u }

  function ToUnsigned(g: int): int { if g < 0 then g + Two64 else g }

  lemma SliceOfSlice(data: seq<byte>, a: nat, b: nat, i: nat, j: nat)
    requires a <= b <= |data| && i <= j <= b - a
    ensures data[a..b][i..j] == data[a + i..a + j]
  {
    assert forall k :: 0 <= k < j - i ==> data[a..b][i..j][k] == data[a + i..a + j][k];
  }

  // ----- scanning

  /** A page recognised by the scanner: where it starts and its granule position. */
  datatype Found = Found(at: nat, granule: int)

  predicate MarkerAt(data: seq<byte>, pos: nat) {
    && pos + 4 <= |data|
    && data[pos] == Marker[0] && data[pos + 1] == Marker[1] && data[pos + 2] == Marker[2] && data[pos + 3] == Marker[3]
  }

  function GranuleAt(data: seq<byte>, pos: nat): int
    requires pos + HeaderSize <= |data|
  {
    ToSigned(FromLittleEndian(data, pos + 6, 8))
  }

  function Sum(data: seq<byte>, a: nat, b: nat): nat
    requires a <= b <= |data|
    decreases b - a
  {
    if a == b then 0 else data[a] + Sum(data, a + 1, b)
  }

  /** Where the page that starts at pos ends, by its segment table. */
  function PageEnd(data: seq<byte>, pos: nat): (end: nat)
    requires pos + HeaderSize <= |data| && pos + HeaderSize + data[pos + 26] <= |data|
    ensures end >= pos + HeaderSize
  {
    var table := pos + HeaderSize + data[pos + 26];
    table + Sum(data, pos + HeaderSize, table)
  }

  /** The pages recognised from a position on. */
  function Pages(data: seq<byte>, pos: nat): seq<Found>
    decreases |data| - pos
  {
    if pos + HeaderSize > |data| then []
    else if !MarkerAt(data, pos) then Pages(data, pos + 1)
    else
      [Found(pos, GranuleAt(data, pos))] +
      if pos + HeaderSize + data[pos + 26] > |data| then [] else Pages(data, PageEnd(data, pos))
  }

  function Largest(start: int, pages: seq<Found>): int
    decreases |pages|
  {
    if pages == [] then start
    else Largest(if pages[0].granule > start then pages[0].granule else start, pages[1..])
  }

  lemma {:induction false} SameSum(data: seq<byte>, a: nat, b: nat, sizes: seq<byte>, i: nat)
    requires a <= b <= |data| && i <= |sizes| && data[a..b] == sizes[i..]
    ensures Sum(data, a, b) == Sum(sizes, i, |sizes|)
    decreases b - a
  {
    assert |data[a..b]| == |sizes[i..]|;
    if a < b {
      assert data[a] == data[a..b][0] == sizes[i];
      assert data[a + 1..b] == data[a..b][1..] == sizes[i + 1..];
      SameSum(data, a + 1, b, sizes, i + 1);
    }
  }

  lemma {:induction false} SameNumber(data: seq<byte>, a: nat, buf: seq<byte>, i: nat, n: nat)
    requires a + n <= |data| && i + n <= |buf| && data[a..a + n] == buf[i..i + n]
    ensures FromLittleEndian(data, a, n) == FromLittleEndian(buf, i, n)
    decreases n
  {
    if n > 0 {
      assert data[a] == data[a..a + n][0] == buf[i];
      assert data[a + 1..a + n] == data[a..a + n][1..] == buf[i + 1..i + n];
      SameNumber(data, a + 1, buf, i + 1, n - 1);
    }
  }

  method PayloadSize(table: seq<byte>) returns (pageSize: nat)
    ensures pageSize == Sum(table, 0, |table|)
  {
    pageSize := 0;
    for i := 0 to |table|
      invariant pageSize + Sum(table, i, |table|) == Sum(table, 0, |table|)
    {
      pageSize := pageSize + table[i];
    }
  }

  lemma LargestOfPage(data: seq<byte>, pos: nat, total: int)
    requires pos + HeaderSize <= |data| && MarkerAt(data, pos)
    ensures var total' := if GranuleAt(data, pos) > total then GranuleAt(data, pos) else total;
            Largest(total, Pages(data, pos)) ==
            Largest(total', if pos + HeaderSize + data[pos + 26] > |data| then [] else Pages(data, PageEnd(data, pos)))
  {
    var rest := if pos + HeaderSize + data[pos + 26] > |data| then [] else Pages(data, PageEnd(data, pos));
    assert ([Found(pos, GranuleAt(data, pos))] + rest)[1..] == rest;
  }

  /** One turn of the scanning loop; more is false where the loop ends. */
  method ScanOnce(data: seq<byte>, at: nat, sofar: int) returns (more: bool, pos: nat, total: int)
    ensures more ==> at < |data| && at < pos
    ensures Largest(sofar, Pages(data, at)) == Largest(total, if more then Pages(data, pos) else [])
  {
    pos, total := at, sofar;
    var n := if pos >= |data| then 0 else if |data| - pos < HeaderSize then |data| - pos else HeaderSize;
    if n < HeaderSize { return false, pos, total; }
    var buf := data[pos..pos + n];
    pos := pos + n;
    assert buf[0..4] == [data[at], data[at + 1], data[at + 2], data[at + 3]];
    if buf[0..4] != Marker {
      return true, pos - 26, total;
    }
    LargestOfPage(data, at, sofar);
    SliceOfSlice(data, at, pos, 6, 14);
    SameNumber(data, at + 6, buf, 6, 8);
    var granule := ToSigned(FromLittleEndian(buf, 6, 8));
    if granule > total { total := granule; }
    var segments := buf[26];
    if pos + segments > |data| { return false, pos, total; }
    var table := data[pos..pos + segments];
    SameSum(data, pos, pos + segments, table, 0);
    pos := pos + segments;
    var pageSize := PayloadSize(table);
    return true, pos + pageSize, total;
  }

  method GetOpusDuration(data: seq<byte>) returns (duration: real)
    ensures duration == Largest(0, Pages(data, 0)) as real / 48000.0
  {
    var more, pos, total := true, 0, 0;
    while more
      invariant Largest(0, Pages(data, 0)) == Largest(total, if more then Pages(data, pos) else [])
      decreases more, |data| - pos
    {
      more, pos, total := ScanOnce(data, pos, total);
    }
    duration := total as real / 48000.0;
  }

  // ----- well-formed streams

  /** A page: its 27-byte header (of which the scanner reads the marker, the granule
      position and the number of segments), its segment table and its payload. */
  datatype Page = Page(header: seq<byte>, segments: seq<byte>, payload: seq<byte>)

  predicate ValidPage(p: Page) {
    && |p.header| == HeaderSize
    && MarkerAt(p.header, 0)
    && p.header[26] == |p.segments|
    && |p.payload| == Sum(p.segments, 0, |p.segments|)
  }

  /** A page's granule position as the signed number it stands for. */
  function Granule(p: Page): int
    requires ValidPage(p)
  {
    ToSigned(FromLittleEndian(p.header, 6, 8))
  }

  lemma Two64IsPower256()
    ensures Power256(8) == Two64
  {
    assert Power256(2) == 65536;
    assert Power256(4) == 65536 * 65536;
    assert Power256(6) == 65536 * Power256(4);
    assert Power256(8) == 65536 * Power256(6);
  }

  /** Every signed 64-bit granule position is read back from its eight bytes. */
  lemma GranuleRoundTrip(p: Page, g: int)
    requires ValidPage(p) && -Two63 <= g < Two63 && p.header[6..14] == ToLittleEndian(ToUnsigned(g), 8)
    ensures Granule(p) == g
  {
    Two64IsPower256();
    LittleEndianRoundTrip(p.header, 6, ToUnsigned(g), 8);
  }

  function Encode(p: Page): (bytes: seq<byte>)
    requires ValidPage(p)
  {
    p.header + p.segments + p.payload
  }

  /** A stream mixes pages with bytes that belong to no page. */
  datatype Chunk = Junk(bytes: seq<byte>) | APage(page: Page)

  ghost predicate ValidChunks(chunks: seq<Chunk>) {
    forall i :: 0 <= i < |chunks| && chunks[i].APage? ==> ValidPage(chunks[i].page)
  }

  function Size(c: Chunk): nat {
    match c
    case Junk(b) => |b|
    case APage(p) => HeaderSize + |p.segments| + |p.payload|
  }

  function Bytes(c: Chunk): (bytes: seq<byte>)
    requires c.APage? ==> ValidPage(c.page)
    ensures |bytes| == Size(c)
  {
    match c
    case Junk(b) => b
    case APage(p) => Encode(p)
  }

  /** Where chunk k starts. */
  function Offset(chunks: seq<Chunk>, k: nat): nat
    requires k <= |chunks|
  {
    if k == 0 then 0 else Offset(chunks, k - 1) + Size(chunks[k - 1])
  }

  /** The bytes of the first k chunks. */
  function StreamTo(chunks: seq<Chunk>, k: nat): (data: seq<byte>)
    requires ValidChunks(chunks) && k <= |chunks|
    ensures |data| == Offset(chunks, k)
  {
    if k == 0 then [] else StreamTo(chunks, k - 1) + Bytes(chunks[k - 1])
  }

  function Stream(chunks: seq<Chunk>): seq<byte>
    requires ValidChunks(chunks)
  {
    StreamTo(chunks, |chunks|)
  }

  ghost predicate Quiet(data: seq<byte>, from: nat, to: nat) {
    forall i :: from <= i < to ==> !MarkerAt(data, i)
  }

  /** No marker starts inside junk, not even one that runs on into a page. */
  ghost predicate JunkIsQuiet(chunks: seq<Chunk>)
    requires ValidChunks(chunks)
  {
    forall k :: 0 <= k < |chunks| && chunks[k].Junk? ==>
      Quiet(Stream(chunks), Offset(chunks, k), Offset(chunks, k + 1))
  }

  function First(c: Chunk, at: nat): seq<Found>
    requires c.APage? ==> ValidPage(c.page)
  {
    if c.APage? then [Found(at, Granule(c.page))] else []
  }

  /** Where the pages from chunk k on start, and their granule positions. */
  function Boundaries(chunks: seq<Chunk>, k: nat): seq<Found>
    requires ValidChunks(chunks) && k <= |chunks|
    decreases |chunks| - k
  {
    if k == |chunks| then [] else First(chunks[k], Offset(chunks, k)) + Boundaries(chunks, k + 1)
  }

  ghost predicate StandsAt(data: seq<byte>, at: nat, bytes: seq<byte>) {
    at + |bytes| <= |data| && data[at..at + |bytes|] == bytes
  }

  lemma {:induction false} ChunkStands(chunks: seq<Chunk>, k: nat, n: nat)
    requires ValidChunks(chunks) && k < n <= |chunks|
    ensures StandsAt(StreamTo(chunks, n), Offset(chunks, k), Bytes(chunks[k]))
    decreases n
  {
    var before, at, b := StreamTo(chunks, n - 1), Offset(chunks, k), Bytes(chunks[k]);
    if k < n - 1 {
      ChunkStands(chunks, k, n - 1);
      assert (before + Bytes(chunks[n - 1]))[at..at + |b|] == before[at..at + |b|];
    } else {
      assert (before + b)[at..at + |b|] == b;
    }
  }

  /** The page's fields stand where the scanner looks for them. */
  ghost predicate PageAt(data: seq<byte>, at: nat, p: Page)
    requires ValidPage(p)
  {
    var table := at + HeaderSize + |p.segments|;
    && table + |p.payload| <= |data|
    && MarkerAt(data, at) && GranuleAt(data, at) == Granule(p) && data[at + 26] == |p.segments|
    && Sum(data, at + HeaderSize, table) == |p.payload|
  }

  lemma EncodedPageAt(data: seq<byte>, at: nat, p: Page)
    requires ValidPage(p) && StandsAt(data, at, Encode(p))
    ensures PageAt(data, at, p)
  {
    var end, table := at + |Encode(p)|, HeaderSize + |p.segments|;
    SliceOfSlice(data, at, end, 0, HeaderSize);
    assert data[at..at + HeaderSize] == p.header;
    assert forall k :: 0 <= k < HeaderSize ==> data[at + k] == p.header[k];
    SliceOfSlice(data, at, at + HeaderSize, 6, 14);
    SameNumber(data, at + 6, p.header, 6, 8);
    SliceOfSlice(data, at, end, HeaderSize, table);
    assert Encode(p)[HeaderSize..table] == p.segments == p.segments[0..];
    SameSum(data, at + HeaderSize, at + table, p.segments, 0);
  }

  /** The scanner steps from the start of a page exactly to its end. */
  lemma PageRecognised(data: seq<byte>, at: nat, p: Page)
    requires ValidPage(p) && PageAt(data, at, p)
    ensures Pages(data, at) == [Found(at, Granule(p))] + Pages(data, at + Size(APage(p)))
  {
    assert PageEnd(data, at) == at + Size(APage(p));
  }

  /** The scanner walks over quiet bytes one at a time. */
  lemma {:induction false} JunkSkipped(data: seq<byte>, at: nat, end: nat)
    requires at <= end <= |data| && Quiet(data, at, end)
    ensures Pages(data, at) == Pages(data, end)
    decreases end - at
  {
    if at < end && at + HeaderSize <= |data| {
      JunkSkipped(data, at + 1, end);
    }
  }

  lemma ChunkRecognised(data: seq<byte>, c: Chunk, at: nat)
    requires (c.APage? ==> ValidPage(c.page)) && StandsAt(data, at, Bytes(c))
    requires c.Junk? ==> Quiet(data, at, at + Size(c))
    ensures Pages(data, at) == First(c, at) + Pages(data, at + Size(c))
  {
    match c {
      case Junk(b) =>
        JunkSkipped(data, at, at + |b|);
      case APage(p) =>
        EncodedPageAt(data, at, p);
        PageRecognised(data, at, p);
    }
  }

  /** From the start of chunk k the scan gets to its end, taking note of a page. */
  ghost predicate Steps(scan: nat -> seq<Found>, chunks: seq<Chunk>, k: nat)
    requires ValidChunks(chunks) && k < |chunks|
  {
    scan(Offset(chunks, k)) == First(chunks[k], Offset(chunks, k)) + scan(Offset(chunks, k + 1))
  }

  lemma {:induction false} StepsReachBoundaries(scan: nat -> seq<Found>, chunks: seq<Chunk>, k: nat)
    requires ValidChunks(chunks) && k <= |chunks| && scan(Offset(chunks, |chunks|)) == []
    requires forall j :: 0 <= j < |chunks| ==> Steps(scan, chunks, j)
    ensures scan(Offset(chunks, k)) == Boundaries(chunks, k)
    decreases |chunks| - k
  {
    if k < |chunks| {
      assert Steps(scan, chunks, k);
      StepsReachBoundaries(scan, chunks, k + 1);
    }
  }

  function Scanner(data: seq<byte>): nat -> seq<Found> {
    (pos: nat) => Pages(data, pos)
  }

  lemma ScannerSteps(chunks: seq<Chunk>, k: nat)
    requires ValidChunks(chunks) && JunkIsQuiet(chunks) && k < |chunks|
    ensures Steps(Scanner(Stream(chunks)), chunks, k)
  {
    ChunkStands(chunks, k, |chunks|);
    assert Offset(chunks, k + 1) == Offset(chunks, k) + Size(chunks[k]);
    ChunkRecognised(Stream(chunks), chunks[k], Offset(chunks, k));
  }

  /** On every mix of pages and quiet junk the scanner recognises exactly the pages,
      at their boundaries. */
  lemma RecognisesExactlyThePages(chunks: seq<Chunk>)
    requires ValidChunks(chunks) && JunkIsQuiet(chunks)
    ensures Pages(Stream(chunks), 0) == Boundaries(chunks, 0)
  {
    var scan := Scanner(Stream(chunks));
    forall j | 0 <= j < |chunks| ensures Steps(scan, chunks, j) {
      ScannerSteps(chunks, j);
    }
    StepsReachBoundaries(scan, chunks, 0);
  }

  /** The largest granule position of the pages from chunk k on, or start if none is
      larger. */
  function LargestGranule(chunks: seq<Chunk>, k: nat, start: int): int
    requires ValidChunks(chunks) && k <= |chunks|
    decreases |chunks| - k
  {
    if k == |chunks| then start
    else
      var c := chunks[k];
      LargestGranule(chunks, k + 1, if c.APage? && Granule(c.page) > start then Granule(c.page) else start)
  }

  lemma {:induction false} LargestOfBoundaries(chunks: seq<Chunk>, k: nat, start: int)
    requires ValidChunks(chunks) && k <= |chunks|
    ensures Largest(start, Boundaries(chunks, k)) == LargestGranule(chunks, k, start)
    decreases |chunks| - k
  {
    if k < |chunks| {
      var c, rest := chunks[k], Boundaries(chunks, k + 1);
      LargestOfBoundaries(chunks, k + 1, if c.APage? && Granule(c.page) > start then Granule(c.page) else start);
      if c.APage? {
        assert Boundaries(chunks, k)[1..] == rest;
      } else {
        assert Boundaries(chunks, k) == rest;
      }
    }
  }

  /** The scanner's result on such a stream: the largest of 0 and all granule positions. */
  lemma DurationOfStream(chunks: seq<Chunk>)
    requires ValidChunks(chunks) && JunkIsQuiet(chunks)
    ensures Largest(0, Pages(Stream(chunks), 0)) == LargestGranule(chunks, 0, 0)
  {
    RecognisesExactlyThePages(chunks);
    LargestOfBoundaries(chunks, 0, 0);
  }

  /** On any input at all, recognised pages carry the marker and the granule position that
      stands in the header, and none begins before the one before it ends. */
  lemma {:induction false} PagesAreSound(data: seq<byte>, pos: nat, i: nat)
    requires i < |Pages(data, pos)|
    ensures var ps := Pages(data, pos);
            && pos <= ps[i].at && ps[i].at + HeaderSize <= |data| && MarkerAt(data, ps[i].at)
            && ps[i].granule == GranuleAt(data, ps[i].at)
            && (i > 0 ==> && ps[i - 1].at + HeaderSize <= |data|
                          && ps[i - 1].at + HeaderSize + data[ps[i - 1].at + 26] <= |data|
                          && ps[i].at >= PageEnd(data, ps[i - 1].at))
    decreases |data| - pos
  {
    if !MarkerAt(data, pos) {
      PagesAreSound(data, pos + 1, i);
    } else if i > 0 {
      PagesAreSound(data, PageEnd(data, pos), i - 1);
    }
  }

  /** Where the scanner goes on after a page, or starts. */
  function Resumes(data: seq<byte>, pos: nat, i: nat): nat
    requires i <= |Pages(data, pos)|
    requires i > 0 ==> var at := Pages(data, pos)[i - 1].at;
               at + HeaderSize <= |data| && at + HeaderSize + data[at + 26] <= |data|
  {
    if i == 0 then pos else PageEnd(data, Pages(data, pos)[i - 1].at)
  }

  /** On any input no page is missed: no marker starts between the end of one recognised page and the start of the
      next, nor before the first. */
  lemma {:induction false} NoPageIsMissed(data: seq<byte>, pos: nat, i: nat)
    requires i < |Pages(data, pos)|
    ensures var ps := Pages(data, pos);
            && (i > 0 ==> && ps[i - 1].at + HeaderSize <= |data|
                          && ps[i - 1].at + HeaderSize + data[ps[i - 1].at + 26] <= |data|)
            && Quiet(data, Resumes(data, pos, i), ps[i].at)
    decreases |data| - pos
  {
    PagesAreSound(data, pos, i);
    if !MarkerAt(data, pos) {
      NoPageIsMissed(data, pos + 1, i);
    } else if i > 0 {
      NoPageIsMissed(data, PageEnd(data, pos), i - 1);
    }
  }

  /** Nor after the last one, where a whole header could still stand, unless that page breaks off in its
      segment table. */
  lemma {:induction false} NoPageIsLeft(data: seq<byte>, pos: nat, p: nat)
    requires var ps := Pages(data, pos);
             ps != [] ==> var at := ps[|ps| - 1].at;
               at + HeaderSize <= |data| && at + HeaderSize + data[at + 26] <= |data|
    requires p + HeaderSize <= |data| && p >= Resumes(data, pos, |Pages(data, pos)|)
    ensures !MarkerAt(data, p)
    decreases |data| - pos
  {
    if pos + HeaderSize <= |data| {
      if !MarkerAt(data, pos) {
        var n := |Pages(data, pos)|;
        if n > 0 { PagesAreSound(data, pos, n - 1); }
        if p > pos { NoPageIsLeft(data, pos + 1, p); }
      } else {
        var rest := Pages(data, PageEnd(data, pos));
        assert Pages(data, pos) == [Found(pos, GranuleAt(data, pos))] + rest;
        NoPageIsLeft(data, PageEnd(data, pos), p);
      }
    }
  }
}
