/** Managing the keys of a multi-key channel: a key list, its recorded size, and three
    sparse maps from key index to status, disabling time and reason. Keys are byte strings: a
    character of a key stands for one byte. */
module MultiKey {

  import opened Wrappers

  const Enabled := 1
  const ManuallyDisabled := 2
  const AutoDisabled := 3

  /** All that the channel knows about one key. */
  datatype Row = Row(key: string, status: int, time: Option<int>, reason: Option<string>)

  datatype Info = Info(keys: seq<string>, size: int, statusList: map<int, int>,
                       disabledTime: map<int, int>, disabledReason: map<int, string>)

  function Lookup<T>(m: map<int, T>, i: int): Option<T> {
    if i in m then Some(m[i]) else None
  }

  function StatusOf(info: Info, i: int): int {
    if i in info.statusList then info.statusList[i] else Enabled
  }

  function RowAt(info: Info, i: nat): Row
    requires i < |info.keys|
  {
    Row(info.keys[i], StatusOf(info, i), Lookup(info.disabledTime, i), Lookup(info.disabledReason, i))
  }

  /** The channel's keys as a list of rows: what its index maps stand for. */
  function Rows(info: Info): seq<Row> {
    seq(|info.keys|, i requires 0 <= i < |info.keys| => RowAt(info, i))
  }

  /** The size is the number of keys, every index is one of a key, and every status is
      one of the three. */
  ghost predicate Valid(info: Info) {
    && info.size == |info.keys|
    && (forall i <- info.statusList :: 0 <= i < info.size && Enabled <= info.statusList[i] <= AutoDisabled)
    && (forall i <- info.disabledTime :: 0 <= i < info.size)
    && (forall i <- info.disabledReason :: 0 <= i < info.size)
  }

  // ----- re-indexing

  /** What is known of a key, ready to be stored at another index. */
  function Push(info: Info, row: Row): Info {
    var n := |info.keys|;
    Info(info.keys + [row.key], info.size + 1,
         if row.status != Enabled then info.statusList[n := row.status] else info.statusList,
         if row.time.Some? then info.disabledTime[n := row.time.value] else info.disabledTime,
         if row.reason.Some? then info.disabledReason[n := row.reason.value] else info.disabledReason)
  }

  lemma PushAddsRow(info: Info, row: Row)
    requires Valid(info) && Enabled <= row.status <= AutoDisabled
    ensures Valid(Push(info, row)) && Rows(Push(info, row)) == Rows(info) + [row]
  {
    var info' := Push(info, row);
    forall i | 0 <= i < |info.keys| ensures RowAt(info', i) == RowAt(info, i) {}
    assert RowAt(info', |info.keys|) == row;
  }

  /** Rows that are not automatically disabled; enabled ones lose their old time and reason. */
  function Surviving(rows: seq<Row>): seq<Row> {
    if rows == [] then []
    else
      var row := rows[|rows| - 1];
      Surviving(rows[..|rows| - 1]) +
      if row.status == AutoDisabled then []
      else if row.status == Enabled then [Row(row.key, Enabled, None, None)]
      else [row]
  }

  function Renewed(rows: seq<Row>): seq<Row> {
    seq(|rows|, i requires 0 <= i < |rows| => Row(rows[i].key, Enabled, None, None))
  }

  function Stopped(rows: seq<Row>): seq<Row> {
    seq(|rows|, i requires 0 <= i < |rows| =>
      if rows[i].status == Enabled then rows[i].(status := ManuallyDisabled) else rows[i])
  }

  /** A save skips empty columns: an emptied key list stays as it was, its maps do not. */
  function Saved(before: Info, next: Info): Info {
    if next.keys != [] then next else next.(keys := before.keys, size := |before.keys|)
  }

  function Purged(rows: seq<Row>): seq<Row> {
    if Surviving(rows) == [] then Renewed(rows) else Surviving(rows)
  }

  /** The first i rows, without row k. */
  function Except(rows: seq<Row>, k: nat, i: nat): seq<Row>
    requires k < |rows| && i <= |rows|
  {
    if i <= k then rows[..i] else rows[..k] + rows[k + 1..i]
  }

  lemma ExceptStep(rows: seq<Row>, k: nat, i: nat)
    requires k < |rows| && i < |rows|
    ensures Except(rows, k, i + 1) == Except(rows, k, i) + if i == k then [] else [rows[i]]
  {
    if i == k {
      assert rows[k + 1..k + 1] == [];
    } else if i < k {
      assert rows[..i + 1] == rows[..i] + [rows[i]];
    } else {
      assert rows[k + 1..i + 1] == rows[k + 1..i] + [rows[i]];
    }
  }

  const Empty := Info([], 0, map[], map[], map[])

  datatype Reply = Done | NoIndex | OutOfRange | LastKey | NothingToDo | NotSaved | HalfSaved

  /** What the database makes of the new row: the channel row is stored before its abilities are updated, and
      an error of either is the reply. */
  datatype Write = Refused | Stored | RowOnly

  function Replied(write: Write): Reply {
    match write
    case Refused => NotSaved
    case Stored => Done
    case RowOnly => HalfSaved
  }

  /** The channel row has changed. */
  predicate Stores(r: Reply) { r == Done || r == HalfSaved }

  /** The loop of disable_all_keys: every enabled key gets a status, and is counted. */
  method StopAll(info: Info) returns (list: map<int, int>, count: nat)
    requires Valid(info)
    ensures count == 0 <==> forall row <- Rows(info) :: row.status != Enabled
    ensures Valid(info.(statusList := list)) && Rows(info.(statusList := list)) == Stopped(Rows(info))
  {
    list, count := info.statusList, 0;
    ghost var found := 0;
    for i := 0 to info.size
      invariant forall j <- list :: 0 <= j < info.size && Enabled <= list[j] <= AutoDisabled
      invariant forall j :: 0 <= j < info.size ==>
        (if j in list then list[j] else Enabled) ==
        if j < i && StatusOf(info, j) == Enabled then ManuallyDisabled else StatusOf(info, j)
      invariant if count > 0 then 0 <= found < i && StatusOf(info, found) == Enabled
                else forall j :: 0 <= j < i ==> StatusOf(info, j) != Enabled
    {
      var status := if i in list then list[i] else Enabled;
      if status == Enabled {
        list := list[i := ManuallyDisabled];
        count, found := count + 1, i;
      }
    }
    forall row | row in Rows(info) ensures count == 0 ==> row.status != Enabled {
      var j :| 0 <= j < info.size && row == RowAt(info, j);
    }
    if count > 0 { assert Rows(info)[found] == RowAt(info, found) && Rows(info)[found] in Rows(info); }
  }

  /** The loop of delete_disabled_keys: the surviving keys, re-indexed. */
  method Purge(info: Info) returns (next: Info, deleted: nat)
    requires Valid(info)
    ensures Valid(next) && Rows(next) == Surviving(Rows(info)) && deleted + |Surviving(Rows(info))| == |Rows(info)|
  {
    next, deleted := Empty, 0;
    var rows := Rows(info);
    assert Rows(next) == [] && rows[..0] == [];
    for i := 0 to |info.keys|
      invariant Valid(next) && Rows(next) == Surviving(rows[..i]) && deleted + |Surviving(rows[..i])| == i
    {
      var status := if i in info.statusList then info.statusList[i] else Enabled;
      assert rows[..i + 1][..i] == rows[..i] && rows[..i + 1][i] == RowAt(info, i);
      if status == AutoDisabled {
        deleted := deleted + 1;
      } else {
        var hidden := status == Enabled;
        PushAddsRow(next, if hidden then Row(info.keys[i], Enabled, None, None) else RowAt(info, i));
        next := Info(next.keys + [info.keys[i]], next.size + 1,
                     if !hidden then next.statusList[|next.keys| := status] else next.statusList,
                     if !hidden && i in info.disabledTime
                     then next.disabledTime[|next.keys| := info.disabledTime[i]] else next.disabledTime,
                     if !hidden && i in info.disabledReason
                     then next.disabledReason[|next.keys| := info.disabledReason[i]] else next.disabledReason);
      }
    }
    assert rows[..|rows|] == rows;
  }

  class MultiKeyChannel {
    var info: Info

    method DisableKey(index: Option<int>, write: Write) returns (r: Reply)
      requires Valid(info)
      modifies this
      ensures Valid(info)
      ensures r == if index == None then NoIndex
                   else if !(0 <= index.value < |old(info).keys|) then OutOfRange
                   else Replied(write)
      ensures Rows(info) == if Stores(r)
                            then var rows := Rows(old(info));
                                 rows[index.value := rows[index.value].(status := ManuallyDisabled)]
                            else Rows(old(info))
    {
      if index == None { return NoIndex; }
      var k := index.value;
      if k < 0 || k >= info.size { return OutOfRange; }
      if write == Refused { return NotSaved; }
      info := info.(statusList := info.statusList[k := ManuallyDisabled]);
      return Replied(write);
    }

    method EnableKey(index: Option<int>, write: Write) returns (r: Reply)
      requires Valid(info)
      modifies this
      ensures Valid(info)
      ensures r == if index == None then NoIndex
                   else if !(0 <= index.value < |old(info).keys|) then OutOfRange
                   else Replied(write)
      ensures Rows(info) == if Stores(r)
                            then Rows(old(info))[index.value := Row(old(info).keys[index.value], Enabled, None, None)]
                            else Rows(old(info))
    {
      if index == None { return NoIndex; }
      var k := index.value;
      if k < 0 || k >= info.size { return OutOfRange; }
      if write == Refused { return NotSaved; }
      info := info.(statusList := info.statusList - {k}, disabledTime := info.disabledTime - {k},
                    disabledReason := info.disabledReason - {k});
      return Replied(write);
    }

    method EnableAllKeys(write: Write) returns (r: Reply)
      requires Valid(info)
      modifies this
      ensures Valid(info) && r == Replied(write)
      ensures Rows(info) == if Stores(r) then Renewed(Rows(old(info))) else Rows(old(info))
    {
      if write == Refused { return NotSaved; }
      info := info.(statusList := map[], disabledTime := map[], disabledReason := map[]);
      return Replied(write);
    }

    method DisableAllKeys(write: Write) returns (r: Reply)
      requires Valid(info)
      modifies this
      ensures Valid(info)
      ensures r == if forall row <- Rows(old(info)) :: row.status != Enabled then NothingToDo
                   else Replied(write)
      ensures Rows(info) == if Stores(r) then Stopped(Rows(old(info))) else Rows(old(info))
    {
      var list, count := StopAll(info);
      if count == 0 { return NothingToDo; }
      if write == Refused { return NotSaved; }
      info := info.(statusList := list);
      return Replied(write);
    }

    method DeleteKey(index: Option<int>, write: Write) returns (r: Reply)
      requires Valid(info)
      modifies this
      ensures Valid(info)
      ensures r == if index == None then NoIndex
                   else if !(0 <= index.value < |old(info).keys|) then OutOfRange
                   else if |old(info).keys| == 1 then LastKey
                   else Replied(write)
      ensures Rows(info) == if Stores(r)
                            then Rows(old(info))[..index.value] + Rows(old(info))[index.value + 1..]
                            else Rows(old(info))
    {
      if index == None { return NoIndex; }
      var k := index.value;
      if k < 0 || k >= info.size { return OutOfRange; }
      var next := Empty;
      var rows := Rows(info);
      assert Rows(next) == [];
      for i := 0 to |info.keys|
        invariant info == old(info) && Valid(next)
        invariant Rows(next) == Except(rows, k, i)
      {
        ExceptStep(rows, k, i);
        if i == k { continue; }
        var status := if i in info.statusList then info.statusList[i] else Enabled;
        PushAddsRow(next, RowAt(info, i));
        next := Info(next.keys + [info.keys[i]], next.size + 1,
                     if status != Enabled then next.statusList[|next.keys| := status] else next.statusList,
                     if i in info.disabledTime
                     then next.disabledTime[|next.keys| := info.disabledTime[i]] else next.disabledTime,
                     if i in info.disabledReason
                     then next.disabledReason[|next.keys| := info.disabledReason[i]] else next.disabledReason);
      }
      assert |Rows(next)| == |next.keys|;
      if |next.keys| == 0 { return LastKey; }
      if write == Refused { return NotSaved; }
      assert rows[k + 1..|rows|] == rows[k + 1..];
      info := next;
      return Replied(write);
    }

    method DeleteDisabledKeys(write: Write) returns (r: Reply, deleted: nat)
      requires Valid(info)
      modifies this
      ensures Valid(info)
      ensures deleted == |Rows(old(info))| - |Surviving(Rows(old(info)))|
      ensures r == if deleted == 0 then NothingToDo else Replied(write)
      ensures Rows(info) == if Stores(r) then Purged(Rows(old(info))) else Rows(old(info))
    {
      var next;
      next, deleted := Purge(info);
      ghost var rows := Rows(info);
      assert |Rows(next)| == |next.keys|;
      if deleted == 0 { return NothingToDo, deleted; }
      if write == Refused { return NotSaved, deleted; }
      assert next.keys == [] <==> Surviving(rows) == [];
      assert next.keys == [] ==> Rows(Saved(info, next)) == Renewed(rows);
      info := Saved(info, next);
      return Replied(write), deleted;
    }

    /** A request about one key. */
    method ManageOne(request: Request, write: Write) returns (r: Reply)
      requires Valid(info) && (request.Disable? || request.Enable? || request.Delete?)
      modifies this
      ensures Valid(info)
      ensures Stores(r) <==> write != Refused && Accepted(Rows(old(info)), request)
      ensures Stores(r) ==> r == Replied(write)
      ensures Rows(info) == if Stores(r) then Acted(Rows(old(info)), request) else Rows(old(info))
    {
      if request.Disable? {
        r := DisableKey(request.index, write);
      } else if request.Enable? {
        r := EnableKey(request.index, write);
      } else {
        r := DeleteKey(request.index, write);
      }
    }

    /** One request, answered: the rows change as Acted says, or not at all. */
    method Manage(request: Request, write: Write) returns (r: Reply)
      requires Valid(info)
      modifies this
      ensures Valid(info)
      ensures Stores(r) <==> write != Refused && Accepted(Rows(old(info)), request)
      ensures Stores(r) ==> r == Replied(write)
      ensures Rows(info) == if Stores(r) then Acted(Rows(old(info)), request) else Rows(old(info))
    {
      match request
      case EnableAll => r := EnableAllKeys(write);
      case DisableAll => r := DisableAllKeys(write);
      case DeleteDisabled =>
        var deleted;
        SurvivorsAreFewerIff(Rows(info));
        r, deleted := DeleteDisabledKeys(write);
      case _ => r := ManageOne(request, write);
    }
  }

  // ----- sequences of requests

  datatype Request = Disable(index: Option<int>) | Enable(index: Option<int>) | EnableAll | DisableAll
                   | Delete(index: Option<int>) | DeleteDisabled

  predicate InRange(index: Option<int>, rows: seq<Row>) {
    index.Some? && 0 <= index.value < |rows|
  }

  predicate Accepted(rows: seq<Row>, request: Request) {
    match request
    case Disable(index) => InRange(index, rows)
    case Enable(index) => InRange(index, rows)
    case EnableAll => true
    case DisableAll => exists row <- rows :: row.status == Enabled
    case Delete(index) => InRange(index, rows) && |rows| > 1
    case DeleteDisabled => exists row <- rows :: row.status == AutoDisabled
  }

  /** What an accepted request makes of the list of keys. */
  function Acted(rows: seq<Row>, request: Request): seq<Row>
    requires Accepted(rows, request)
  {
    match request
    case Disable(index) => rows[index.value := rows[index.value].(status := ManuallyDisabled)]
    case Enable(index) => rows[index.value := Row(rows[index.value].key, Enabled, None, None)]
    case EnableAll => Renewed(rows)
    case DisableAll => Stopped(rows)
    case Delete(index) => rows[..index.value] + rows[index.value + 1..]
    case DeleteDisabled => Purged(rows)
  }

  lemma {:induction false} SurvivorsAreFewerIff(rows: seq<Row>)
    ensures |Surviving(rows)| <= |rows|
    ensures |Surviving(rows)| < |rows| <==> exists row <- rows :: row.status == AutoDisabled
    ensures Surviving(rows) == [] <==> forall row <- rows :: row.status == AutoDisabled
  {
    if rows != [] {
      var init, last := rows[..|rows| - 1], rows[|rows| - 1];
      SurvivorsAreFewerIff(init);
      assert rows == init + [last];
    }
  }

  function Answered(rows: seq<Row>, requests: seq<(Request, Write)>): seq<Row> {
    if requests == [] then rows
    else
      var before := Answered(rows, requests[..|requests| - 1]);
      var (request, write) := requests[|requests| - 1];
      if write != Refused && Accepted(before, request) then Acted(before, request) else before
  }

  predicate HasKey(rows: seq<Row>, key: string) {
    exists i :: 0 <= i < |rows| && rows[i].key == key
  }

  predicate KeysFrom(after: seq<Row>, before: seq<Row>) {
    forall i :: 0 <= i < |after| ==> HasKey(before, after[i].key)
  }

  lemma KeysFromStep(last: seq<Row>, middle: seq<Row>, first: seq<Row>)
    requires KeysFrom(last, middle) && KeysFrom(middle, first)
    ensures KeysFrom(last, first)
  {
    forall i | 0 <= i < |last| ensures HasKey(first, last[i].key) {
      assert HasKey(middle, last[i].key);
      var j :| 0 <= j < |middle| && middle[j].key == last[i].key;
      assert HasKey(first, middle[j].key);
    }
  }

  lemma {:induction false} SurvivorsKeepKeys(rows: seq<Row>)
    ensures KeysFrom(Surviving(rows), rows)
  {
    if rows != [] {
      var init, last := rows[..|rows| - 1], rows[|rows| - 1];
      SurvivorsKeepKeys(init);
      forall i | 0 <= i < |Surviving(rows)| ensures HasKey(rows, Surviving(rows)[i].key) {
        if i < |Surviving(init)| {
          assert HasKey(init, Surviving(init)[i].key);
          var j :| 0 <= j < |init| && Surviving(init)[i].key == init[j].key;
          assert rows[j] == init[j];
        } else {
          assert Surviving(rows)[i].key == last.key;
        }
      }
    }
  }

  lemma ActedKeepsKeys(rows: seq<Row>, request: Request)
    requires rows != [] && Accepted(rows, request)
    ensures Acted(rows, request) != [] && KeysFrom(Acted(rows, request), rows)
  {
    var after := Acted(rows, request);
    match request
    case Delete(index) =>
      forall i | 0 <= i < |after| ensures HasKey(rows, after[i].key) {
        assert after[i].key == rows[if i < index.value then i else i + 1].key;
      }
    case DeleteDisabled =>
      SurvivorsKeepKeys(rows);
      assert Surviving(rows) == [] ==> forall i :: 0 <= i < |after| ==> after[i].key == rows[i].key;
    case _ =>
      assert |after| == |rows| && forall i :: 0 <= i < |after| ==> after[i].key == rows[i].key;
  }

  /** However a channel is managed, it never runs out of keys and never gets a key it did not have. */
  lemma {:induction false} ManagingNeverEmpties(rows: seq<Row>, requests: seq<(Request, Write)>)
    requires rows != []
    ensures Answered(rows, requests) != [] && KeysFrom(Answered(rows, requests), rows)
  {
    if requests != [] {
      var before := Answered(rows, requests[..|requests| - 1]);
      ManagingNeverEmpties(rows, requests[..|requests| - 1]);
      var (request, write) := requests[|requests| - 1];
      if write != Refused && Accepted(before, request) {
        ActedKeepsKeys(before, request);
        KeysFromStep(Acted(before, request), before, rows);
      }
    }
  }

  // ----- the status view

  datatype KeyStatus = KeyStatus(index: int, status: int, disabledTime: int, reason: string, preview: string)

  function Preview(key: string): string { if |key| > 10 then key[..10] + "..." else key }

  function Display(row: Row, i: int): KeyStatus {
    var disabled := row.status != Enabled;
    KeyStatus(i, row.status,
              if disabled && row.time.Some? then row.time.value else 0,
              if disabled && row.reason.Some? then row.reason.value else "",
              Preview(row.key))
  }

  function View(rows: seq<Row>): seq<KeyStatus> {
    seq(|rows|, i requires 0 <= i < |rows| => Display(rows[i], i))
  }

  function Reindexed(view: seq<KeyStatus>): seq<KeyStatus> {
    seq(|view|, i requires 0 <= i < |view| => view[i].(index := i))
  }

  datatype Filter = All | Only(status: int) | AllBut(status: int)

  predicate Keeps(f: Filter, status: int) {
    match f
    case All => true
    case Only(s) => status == s
    case AllBut(s) => status != s
  }

  function Filtered(view: seq<KeyStatus>, f: Filter): seq<KeyStatus> {
    if view == [] then []
    else Filtered(view[..|view| - 1], f) + if Keeps(f, view[|view| - 1].status) then [view[|view| - 1]] else []
  }

  /** Deleting a key shows as its row removed and the rest re-indexed. */
  lemma DeleteCommutesWithView(rows: seq<Row>, k: nat)
    requires k < |rows|
    ensures View(rows[..k] + rows[k + 1..]) == Reindexed(View(rows)[..k] + View(rows)[k + 1..])
  {
    var after, shown := rows[..k] + rows[k + 1..], View(rows)[..k] + View(rows)[k + 1..];
    forall i | 0 <= i < |after| ensures View(after)[i] == Reindexed(shown)[i] {
      if i < k { assert shown[i] == View(rows)[i]; } else { assert shown[i] == View(rows)[i + 1]; }
    }
  }

  /** Deleting the automatically disabled keys shows as their rows filtered out and the
      rest re-indexed. */
  lemma {:induction false} DeleteDisabledCommutesWithView(rows: seq<Row>)
    ensures View(Surviving(rows)) == Reindexed(Filtered(View(rows), AllBut(AutoDisabled)))
  {
    if rows != [] {
      var n, init := |rows| - 1, rows[..|rows| - 1];
      DeleteDisabledCommutesWithView(init);
      assert View(rows)[..n] == View(init);
      var before, kept := Surviving(init), Filtered(View(init), AllBut(AutoDisabled));
      assert |before| == |View(before)| == |kept|;
      var after, kept' := Surviving(rows), Filtered(View(rows), AllBut(AutoDisabled));
      forall i | 0 <= i < |after| ensures View(after)[i] == Reindexed(kept')[i] {
        if i < |before| { assert View(before)[i] == Reindexed(kept)[i]; }
      }
    }
  }

  /** So the accepted request shows as that filter exactly when some key survives it:
      with none left, the save keeps every key and enables it. */
  lemma PurgeShowsFilteredIff(rows: seq<Row>)
    requires rows != []
    ensures View(Purged(rows)) == Reindexed(Filtered(View(rows), AllBut(AutoDisabled))) <==>
            exists row <- rows :: row.status != AutoDisabled
    ensures (forall row <- rows :: row.status == AutoDisabled) ==> Purged(rows) == Renewed(rows)
  {
    DeleteDisabledCommutesWithView(rows);
    SurvivorsAreFewerIff(rows);
    assert |View(Purged(rows))| == |Purged(rows)| && |View(Surviving(rows))| == |Surviving(rows)|;
  }

  // ----- the status query

  function CountStatus(rows: seq<Row>, status: int): nat {
    if rows == [] then 0
    else CountStatus(rows[..|rows| - 1], status) + if rows[|rows| - 1].status == status then 1 else 0
  }

  /** The three statistics add up to the number of keys. */
  lemma {:induction false} CountsAddUp(rows: seq<Row>)
    requires forall row <- rows :: Enabled <= row.status <= AutoDisabled
    ensures CountStatus(rows, Enabled) + CountStatus(rows, ManuallyDisabled) + CountStatus(rows, AutoDisabled) == |rows|
  {
    if rows != [] {
      assert forall row <- rows[..|rows| - 1] :: row in rows;
      assert rows[|rows| - 1] in rows;
      CountsAddUp(rows[..|rows| - 1]);
    }
  }

  function PageSize(requested: int): nat { if requested <= 0 then 50 else requested }

  function TotalPages(total: nat, pageSize: nat): nat
    requires pageSize > 0
  {
    var pages := (total + pageSize - 1) / pageSize;
    if pages == 0 then 1 else pages
  }

  /** The page shown for a requested page number: at least 1, at most the last. */
  function ShownPage(requested: int, pages: nat): nat
    requires pages >= 1
  {
    if requested <= 0 then 1 else if requested > pages then pages else requested
  }

  function SliceFrom(list: seq<KeyStatus>, start: nat, pageSize: nat): seq<KeyStatus> {
    var end := if start + pageSize > |list| then |list| else start + pageSize;
    if start < |list| then list[start..end] else []
  }

  function PageOf(list: seq<KeyStatus>, page: nat, pageSize: nat): seq<KeyStatus>
    requires page >= 1
  {
    SliceFrom(list, Product(page - 1, pageSize), pageSize)
  }

  function Product(a: nat, b: nat): nat { a * b }

  datatype StatusResponse = StatusResponse(keys: seq<KeyStatus>, total: nat, page: nat, pageSize: nat, totalPages: nat,
                                           enabled: nat, manual: nat, auto: nat)

  method GetKeyStatus(info: Info, page: int, pageSize: int, only: Option<int>) returns (r: StatusResponse)
    ensures var rows := Rows(info);
            var list := Filtered(View(rows), if only.Some? then Only(only.value) else All);
            var size := PageSize(pageSize);
            var pages := TotalPages(|list|, size);
            r == StatusResponse(PageOf(list, ShownPage(page, pages), size), |list|, ShownPage(page, pages), size, pages,
                                CountStatus(rows, Enabled), CountStatus(rows, ManuallyDisabled),
                                CountStatus(rows, AutoDisabled))
  {
    var all, enabled, manual, auto := BuildView(info);
    var list := all;
    if only.Some? {
      list := FilterView(all, only.value);
    } else {
      AllKeepsAll(all);
    }
    var keys, p, size, totalPages := Paginate(list, page, pageSize);
    r := StatusResponse(keys, |list|, p, size, totalPages, enabled, manual, auto);
  }

  method Paginate(list: seq<KeyStatus>, page: int, pageSize: int)
    returns (keys: seq<KeyStatus>, p: nat, size: nat, totalPages: nat)
    ensures size == PageSize(pageSize) && totalPages == TotalPages(|list|, size) && p == ShownPage(page, totalPages)
    ensures keys == PageOf(list, p, size)
  {
    size := if pageSize <= 0 then 50 else pageSize;
    var total := |list|;
    totalPages := (total + size - 1) / size;
    if totalPages == 0 { totalPages := 1; }
    p := if page <= 0 then 1 else page;
    if p > totalPages { p := totalPages; }
    var start := Product(p - 1, size);
    var end := start + size;
    if end > total { end := total; }
    keys := [];
    if start < total { keys := list[start..end]; }
  }

  method BuildView(info: Info) returns (all: seq<KeyStatus>, enabled: nat, manual: nat, auto: nat)
    ensures all == View(Rows(info))
    ensures enabled == CountStatus(Rows(info), Enabled)
    ensures manual == CountStatus(Rows(info), ManuallyDisabled)
    ensures auto == CountStatus(Rows(info), AutoDisabled)
  {
    var rows := Rows(info);
    all, enabled, manual, auto := [], 0, 0, 0;
    assert rows[..0] == [];
    for i := 0 to |info.keys|
      invariant all == View(rows)[..i]
      invariant enabled == CountStatus(rows[..i], Enabled)
      invariant manual == CountStatus(rows[..i], ManuallyDisabled)
      invariant auto == CountStatus(rows[..i], AutoDisabled)
    {
      var status := if i in info.statusList then info.statusList[i] else Enabled;
      var time, reason := 0, "";
      if status == Enabled { enabled := enabled + 1; }
      else if status == ManuallyDisabled { manual := manual + 1; }
      else if status == AutoDisabled { auto := auto + 1; }
      if status != Enabled {
        time := if i in info.disabledTime then info.disabledTime[i] else 0;
        reason := if i in info.disabledReason then info.disabledReason[i] else "";
      }
      var key := info.keys[i];
      var preview := key;
      if |key| > 10 { preview := key[..10] + "..."; }
      assert rows[..i + 1][..i] == rows[..i] && rows[..i + 1][i] == RowAt(info, i);
      assert View(rows)[i] == KeyStatus(i, status, time, reason, preview);
      assert View(rows)[..i + 1] == View(rows)[..i] + [View(rows)[i]];
      all := all + [KeyStatus(i, status, time, reason, preview)];
    }
    assert rows[..|rows|] == rows && View(rows)[..|rows|] == View(rows);
  }

  method FilterView(all: seq<KeyStatus>, status: int) returns (list: seq<KeyStatus>)
    ensures list == Filtered(all, Only(status))
  {
    list := [];
    assert all[..0] == [];
    for i := 0 to |all|
      invariant list == Filtered(all[..i], Only(status))
    {
      assert all[..i + 1][..i] == all[..i];
      if all[i].status == status { list := list + [all[i]]; }
    }
    assert all[..|all|] == all;
  }

  lemma {:induction false} AllKeepsAll(view: seq<KeyStatus>)
    ensures Filtered(view, All) == view
  {
    if view != [] {
      var init, last := view[..|view| - 1], view[|view| - 1];
      AllKeepsAll(init);
      assert Filtered(view, All) == Filtered(init, All) + [last];
      assert view == init + [last];
    }
  }

  /** Pages 1 to n, one after the other. */
  function FirstPages(list: seq<KeyStatus>, pageSize: nat, n: nat): seq<KeyStatus> {
    if n == 0 then [] else FirstPages(list, pageSize, n - 1) + PageOf(list, n, pageSize)
  }

  lemma ProductStep(n: nat, size: nat)
    requires n > 0
    ensures Product(n, size) == Product(n - 1, size) + size
  {
  }

  lemma SliceExtends(list: seq<KeyStatus>, start: nat, size: nat)
    ensures (if start <= |list| then list[..start] else list) + SliceFrom(list, start, size) ==
            if start + size <= |list| then list[..start + size] else list
  {
  }

  lemma {:induction false} FirstPagesArePrefix(list: seq<KeyStatus>, pageSize: nat, n: nat)
    ensures FirstPages(list, pageSize, n) ==
            if Product(n, pageSize) <= |list| then list[..Product(n, pageSize)] else list
  {
    if n > 0 {
      FirstPagesArePrefix(list, pageSize, n - 1);
      ProductStep(n, pageSize);
      SliceExtends(list, Product(n - 1, pageSize), pageSize);
    }
  }

  lemma LastPageReachesEnd(total: nat, pageSize: nat)
    requires pageSize > 0
    ensures Product(TotalPages(total, pageSize), pageSize) >= total
  {
    var q := (total + pageSize - 1) / pageSize;
    assert total + pageSize - 1 == q * pageSize + (total + pageSize - 1) % pageSize;
  }

  /** For every page size and filter, the pages together are exactly the filtered list. */
  lemma PagesCoverTheList(list: seq<KeyStatus>, pageSize: int)
    ensures FirstPages(list, PageSize(pageSize), TotalPages(|list|, PageSize(pageSize))) == list
  {
    var size := PageSize(pageSize);
    var n := TotalPages(|list|, size);
    FirstPagesArePrefix(list, size, n);
    LastPageReachesEnd(|list|, size);
    assert list[..|list|] == list;
  }
}
