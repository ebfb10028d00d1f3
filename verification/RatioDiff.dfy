/** The table of price differences between the local ratios and those of upstream channels,
    built in one pass and pruned in a second one. */
module RatioDiff {

  import opened Wrappers

  datatype RatioType = ModelRatio | CompletionRatio | CacheRatio | ModelPrice

  const RatioTypes := [ModelRatio, CompletionRatio, CacheRatio, ModelPrice]

  /** A decoded upstream value; Null is also an absent local value, and Other a boolean, list or object. */
  datatype Value = Null | Num(x: real) | Text(s: string) | Other(json: string)

  /** The marker of a cell that agrees with the local value. */
  const Same := Text("same")

  datatype Channel = Channel(name: string, data: map<RatioType, map<string, Value>>)

  datatype Data = Data(local: map<RatioType, map<string, real>>, channels: seq<Channel>)

  datatype Item = Item(current: Value, upstreams: map<string, Value>, confidence: map<string, bool>)

  const Epsilon := 0.000000001

  predicate NearlyEqual(a: real, b: real) {
    if a > b then a - b < Epsilon else b - a < Epsilon
  }

  predicate ValuesEqual(a: Value, b: Value) {
    if a.Num? && b.Num? then NearlyEqual(a.x, b.x) else a == b
  }

  // ----- what one cell says

  function LocalValue(d: Data, m: string, t: RatioType): Value {
    if t in d.local && m in d.local[t] then Num(d.local[t][m]) else Null
  }

  function Given(c: Channel, m: string, t: RatioType): Option<Value> {
    if t in c.data && m in c.data[t] then Some(c.data[t][m]) else None
  }

  function Cell(local: Value, given: Option<Value>): Value {
    var upstream := if given.None? then Null else if ValuesEqual(local, given.value) then Same else given.value;
    if upstream == Null && local == Null then Same else upstream
  }

  predicate Shows(cell: Value) { cell != Null && cell != Same }

  /** Cells of the first n channels for a model and a ratio type, by channel name. */
  function Cells(d: Data, n: nat, m: string, t: RatioType): map<string, Value>
    requires n <= |d.channels|
  {
    if n == 0 then map[]
    else Cells(d, n - 1, m, t)[d.channels[n - 1].name := Cell(LocalValue(d, m, t), Given(d.channels[n - 1], m, t))]
  }

  /** 37.5 with 1.0 is what an unpriced model looks like. */
  predicate Trusted(c: Channel, m: string) {
    !(Given(c, m, ModelRatio) == Some(Num(37.5)) && Given(c, m, CompletionRatio) == Some(Num(1.0)))
  }

  function Trusts(d: Data, n: nat, m: string): map<string, bool>
    requires n <= |d.channels|
  {
    if n == 0 then map[] else Trusts(d, n - 1, m)[d.channels[n - 1].name := Trusted(d.channels[n - 1], m)]
  }

  predicate Offers(d: Data, i: nat, m: string, t: RatioType)
    requires i < |d.channels|
  {
    var given := Given(d.channels[i], m, t);
    given.Some? && (LocalValue(d, m, t) == Null || !ValuesEqual(LocalValue(d, m, t), given.value))
  }

  predicate Included(d: Data, n: nat, m: string, t: RatioType)
    requires n <= |d.channels|
  {
    exists i :: 0 <= i < n && Offers(d, i, m, t)
  }

  function Row(d: Data, m: string, t: RatioType): Item {
    Item(LocalValue(d, m, t), Cells(d, |d.channels|, m, t), Trusts(d, |d.channels|, m))
  }

  /** The rows of one model before pruning. */
  function Rows(d: Data, m: string): map<RatioType, Item> {
    map t: RatioType | Included(d, |d.channels|, m, t) :: Row(d, m, t)
  }

  predicate HasModel(d: Data, m: string, t: RatioType) {
    (t in d.local && m in d.local[t]) || exists i :: 0 <= i < |d.channels| && Given(d.channels[i], m, t).Some?
  }

  // ----- pruning

  function Restricted(item: Item, names: set<string>): Item {
    Item(item.current, map c | c in item.upstreams && c in names :: item.upstreams[c],
         map c | c in item.confidence && c in names :: item.confidence[c])
  }

  predicate Kept(item: Item, names: set<string>) {
    exists c :: c in item.upstreams && c in names && item.upstreams[c] != Same
  }

  function Pruned(rows: map<RatioType, Item>, names: set<string>): map<RatioType, Item> {
    map t: RatioType | t in rows && Kept(rows[t], names) :: Restricted(rows[t], names)
  }

  /** Channel c shows a difference in some row. */
  ghost predicate ShowsIn(rows: map<RatioType, Item>, c: string) {
    exists t :: t in rows && c in rows[t].upstreams && Shows(rows[t].upstreams[c])
  }

  ghost predicate ShowsSomewhere(d: Data, c: string) {
    exists m :: ShowsIn(Rows(d, m), c)
  }

  // ----- the passes

  method AllModels(d: Data) returns (models: set<string>)
    ensures forall m :: m in models <==> exists t :: HasModel(d, m, t)
  {
    models := {};
    for k := 0 to |RatioTypes|
      invariant forall m :: m in models <==> exists t :: t in RatioTypes[..k] && t in d.local && m in d.local[t]
    {
      var t := RatioTypes[k];
      if t in d.local { models := models + d.local[t].Keys; }
    }
    ghost var ofLocal := models;
    for i := 0 to |d.channels|
      invariant forall m :: m in models <==>
                  (m in ofLocal || exists j, t :: 0 <= j < i && Given(d.channels[j], m, t).Some?)
    {
      var more := ChannelModels(d.channels[i]);
      models := models + more;
    }
    forall m ensures m in models <==> exists t :: HasModel(d, m, t) {
      if m in ofLocal {
        var t :| t in RatioTypes[..|RatioTypes|] && t in d.local && m in d.local[t];
        assert HasModel(d, m, t);
      } else if m in models {
        var j, t :| 0 <= j < |d.channels| && Given(d.channels[j], m, t).Some?;
        assert HasModel(d, m, t);
      }
      if t :| HasModel(d, m, t) {
        EveryType(t);
        if t in d.local && m in d.local[t] { assert m in ofLocal; }
      }
    }
  }

  lemma EveryType(t: RatioType)
    ensures t in RatioTypes && t in RatioTypes[..|RatioTypes|]
  {
    match t
    case ModelRatio => assert RatioTypes[0] == t;
    case CompletionRatio => assert RatioTypes[1] == t;
    case CacheRatio => assert RatioTypes[2] == t;
    case ModelPrice => assert RatioTypes[3] == t;
  }

  method ChannelModels(c: Channel) returns (models: set<string>)
    ensures forall m :: m in models <==> exists t :: Given(c, m, t).Some?
  {
    models := {};
    for k := 0 to |RatioTypes|
      invariant forall m :: m in models <==> exists t :: t in RatioTypes[..k] && Given(c, m, t).Some?
    {
      var t := RatioTypes[k];
      var before := models;
      if t in c.data { models := models + c.data[t].Keys; }
      assert RatioTypes[..k + 1] == RatioTypes[..k] + [t];
      assert forall m :: m in models <==> m in before || Given(c, m, t).Some?;
    }
    forall m, t | Given(c, m, t).Some? ensures m in models { EveryType(t); }
  }

  method Confidence(d: Data, models: set<string>) returns (conf: map<string, map<string, bool>>)
    ensures forall m <- models :: Holds(conf, d, m)
  {
    conf := map[];
    for i := 0 to |d.channels|
      invariant forall m <- models, c <- Trusts(d, i, m) :: Looked(conf, c, m) == Trusts(d, i, m)[c]
    {
      var ofChannel := ChannelConfidence(d.channels[i], models);
      conf := conf[d.channels[i].name := ofChannel];
    }
  }

  /** The fast test: only channels with both tables can be distrusted. */
  method ChannelConfidence(c: Channel, models: set<string>) returns (conf: map<string, bool>)
    ensures conf == map m | m in models :: Trusted(c, m)
  {
    conf := map[];
    var left := models;
    var both := ModelRatio in c.data && CompletionRatio in c.data;
    while left != {}
      invariant left <= models && conf.Keys == models - left
      invariant forall m <- conf :: conf[m] == Trusted(c, m)
      decreases |left|
    {
      var m :| m in left;
      left := left - {m};
      conf := conf[m := true];
      if both && m in c.data[ModelRatio] && m in c.data[CompletionRatio] {
        var ratio, completion := c.data[ModelRatio][m], c.data[CompletionRatio][m];
        if ratio.Num? && completion.Num? && ratio.x == 37.5 && completion.x == 1.0 { conf := conf[m := false]; }
      }
    }
  }

  /** One cell, and whether the channel has a value and differs. */
  method BuildCell(c: Channel, local: Value, m: string, t: RatioType)
    returns (upstream: Value, present: bool, differs: bool)
    ensures upstream == Cell(local, Given(c, m, t)) && present == Given(c, m, t).Some?
    ensures local != Null ==> differs == (present && !ValuesEqual(local, Given(c, m, t).value))
  {
    upstream, present, differs := Null, false, false;
    if t in c.data && m in c.data[t] {
      var val := c.data[t][m];
      upstream, present := val, true;
      if local != Null && !ValuesEqual(local, val) {
        differs := true;
      } else if ValuesEqual(local, val) {
        upstream := Same;
      }
    }
    if upstream == Null && local == Null { upstream := Same; }
    if local == Null && upstream != Null && upstream != Same { differs := true; }
  }

  /** A missing entry reads as false. */
  predicate Looked(conf: map<string, map<string, bool>>, c: string, m: string) {
    c in conf && m in conf[c] && conf[c][m]
  }

  function LookedUp(d: Data, conf: map<string, map<string, bool>>, n: nat, m: string): map<string, bool>
    requires n <= |d.channels|
  {
    if n == 0 then map[]
    else LookedUp(d, conf, n - 1, m)[d.channels[n - 1].name := Looked(conf, d.channels[n - 1].name, m)]
  }

  ghost predicate Holds(conf: map<string, map<string, bool>>, d: Data, m: string) {
    forall c <- Trusts(d, |d.channels|, m) :: Looked(conf, c, m) == Trusts(d, |d.channels|, m)[c]
  }

  lemma {:induction false} LookupIsTrust(d: Data, conf: map<string, map<string, bool>>, n: nat, m: string)
    requires n <= |d.channels| && Holds(conf, d, m)
    ensures LookedUp(d, conf, n, m).Keys == Trusts(d, n, m).Keys
    ensures forall c <- LookedUp(d, conf, n, m) ::
              c in Trusts(d, |d.channels|, m) && LookedUp(d, conf, n, m)[c] == Trusts(d, |d.channels|, m)[c]
  {
    if n > 0 {
      LookupIsTrust(d, conf, n - 1, m);
      TrustsGrow(d, n, |d.channels|, m, d.channels[n - 1].name);
    }
  }

  /** What the loop over the channels has collected for one row. */
  datatype Collected = Collected(upstreams: map<string, Value>, confidence: map<string, bool>,
                                 hasUpstreamValue: bool, hasDifference: bool)

  ghost predicate CollectedUpTo(d: Data, conf: map<string, map<string, bool>>, m: string, t: RatioType, i: nat,
                                row: Collected)
    requires i <= |d.channels|
  {
    && row.upstreams == Cells(d, i, m, t) && row.confidence == LookedUp(d, conf, i, m)
    && (Included(d, i, m, t) <==> if LocalValue(d, m, t) != Null then row.hasDifference else row.hasUpstreamValue)
  }

  method CollectChannel(d: Data, conf: map<string, map<string, bool>>, m: string, t: RatioType, i: nat, row: Collected)
    returns (row': Collected)
    requires i < |d.channels| && CollectedUpTo(d, conf, m, t, i, row)
    ensures CollectedUpTo(d, conf, m, t, i + 1, row')
  {
    var c := d.channels[i];
    var upstream, present, differs := BuildCell(c, LocalValue(d, m, t), m, t);
    row' := Collected(row.upstreams[c.name := upstream], row.confidence[c.name := Looked(conf, c.name, m)],
                      row.hasUpstreamValue || present, row.hasDifference || differs);
    IncludedStep(d, i, m, t);
  }

  /** One row: the loop over the channels. */
  method BuildRow(d: Data, conf: map<string, map<string, bool>>, m: string, t: RatioType)
    returns (item: Item, wanted: bool)
    requires Holds(conf, d, m)
    ensures wanted == Included(d, |d.channels|, m, t) && item == Row(d, m, t)
  {
    var row := Collected(map[], map[], false, false);
    for i := 0 to |d.channels|
      invariant CollectedUpTo(d, conf, m, t, i, row)
    {
      row := CollectChannel(d, conf, m, t, i, row);
    }
    var local := LocalValue(d, m, t);
    wanted := if local != Null then row.hasDifference else row.hasUpstreamValue;
    LookupIsTrust(d, conf, |d.channels|, m);
    assert row.confidence == Trusts(d, |d.channels|, m);
    item := Item(local, row.upstreams, row.confidence);
  }

  lemma IncludedStep(d: Data, i: nat, m: string, t: RatioType)
    requires i < |d.channels|
    ensures Included(d, i + 1, m, t) <==> Included(d, i, m, t) || Offers(d, i, m, t)
  {
    if Included(d, i, m, t) {
      var j :| 0 <= j < i && Offers(d, j, m, t);
      assert 0 <= j < i + 1;
    }
  }

  lemma {:induction false} TrustsGrow(d: Data, n: nat, k: nat, m: string, name: string)
    requires n <= k <= |d.channels| && name in Trusts(d, n, m)
    ensures name in Trusts(d, k, m)
    decreases k
  {
    if n < k { TrustsGrow(d, n, k - 1, m, name); }
  }

  method BuildRows(d: Data, conf: map<string, map<string, bool>>, m: string) returns (rows: map<RatioType, Item>)
    requires Holds(conf, d, m)
    ensures rows == Rows(d, m)
  {
    rows := map[];
    for k := 0 to |RatioTypes|
      invariant forall t :: t in rows <==> t in RatioTypes[..k] && Included(d, |d.channels|, m, t)
      invariant forall t <- rows :: rows[t] == Row(d, m, t)
    {
      var item, wanted := BuildRow(d, conf, m, RatioTypes[k]);
      if wanted { rows := rows[RatioTypes[k] := item]; }
    }
    forall t: RatioType { EveryType(t); }
  }

  /** Deletes the channels that show nothing, in both maps. */
  method DeleteChannels(item: Item, names: set<string>) returns (item': Item)
    requires item.confidence.Keys == item.upstreams.Keys
    ensures item' == Restricted(item, names)
  {
    var upstreams, confidence := item.upstreams, item.confidence;
    var left := item.upstreams.Keys;
    while left != {}
      invariant left <= item.upstreams.Keys
      invariant upstreams == map c | c in item.upstreams && (c in left || c in names) :: item.upstreams[c]
      invariant confidence == map c | c in item.confidence && (c in left || c in names) :: item.confidence[c]
      decreases |left|
    {
      var c :| c in left;
      left := left - {c};
      if c !in names { upstreams, confidence := upstreams - {c}, confidence - {c}; }
    }
    item' := item.(upstreams := upstreams, confidence := confidence);
  }

  method PruneRow(item: Item, names: set<string>) returns (item': Item, keep: bool)
    requires item.confidence.Keys == item.upstreams.Keys
    ensures keep == Kept(item, names) && item' == Restricted(item, names)
  {
    item' := DeleteChannels(item, names);
    assert forall c :: c in item'.upstreams <==> c in item.upstreams && c in names;
    var allSame := forall c <- item'.upstreams :: item'.upstreams[c] == Same;
    keep := !(|item'.upstreams| == 0 || allSame);
  }

  method PruneRows(rows: map<RatioType, Item>, names: set<string>) returns (rows': map<RatioType, Item>)
    requires EqualKeys(rows)
    ensures rows' == Pruned(rows, names)
  {
    rows' := rows;
    var left := rows.Keys;
    while left != {}
      invariant left <= rows.Keys
      invariant forall t :: t in rows' <==> t in rows && (t in left || Kept(rows[t], names))
      invariant forall t <- rows' :: rows'[t] == if t in left then rows[t] else Restricted(rows[t], names)
      decreases |left|
    {
      var t :| t in left;
      left := left - {t};
      var item, keep := PruneRow(rows[t], names);
      if keep { rows' := rows'[t := item]; } else { rows' := rows' - {t}; }
    }
  }

  method ModelDiffs(rows: map<RatioType, Item>) returns (names: set<string>)
    ensures forall c :: c in names <==> ShowsIn(rows, c)
  {
    names := {};
    var left := rows.Keys;
    while left != {}
      invariant left <= rows.Keys
      invariant forall c :: c in names <==>
                  exists t :: t in rows && t !in left && c in rows[t].upstreams && Shows(rows[t].upstreams[c])
      decreases |left|
    {
      var t :| t in left;
      left := left - {t};
      names := names + set c | c in rows[t].upstreams && Shows(rows[t].upstreams[c]);
    }
  }

  method ChannelsWithDiff(table: map<string, map<RatioType, Item>>) returns (names: set<string>)
    ensures forall c :: c in names <==> exists m :: m in table && ShowsIn(table[m], c)
  {
    names := {};
    var left := table.Keys;
    while left != {}
      invariant left <= table.Keys
      invariant forall c :: c in names <==> exists m :: m in table && m !in left && ShowsIn(table[m], c)
      decreases |left|
    {
      var m :| m in left;
      left := left - {m};
      var more := ModelDiffs(table[m]);
      names := names + more;
    }
  }

  method BuildTable(d: Data) returns (table: map<string, map<RatioType, Item>>)
    ensures forall m :: m in table <==> Rows(d, m) != map[]
    ensures forall m <- table :: table[m] == Rows(d, m)
  {
    var models := AllModels(d);
    var conf := Confidence(d, models);
    table := map[];
    var left := models;
    while left != {}
      invariant left <= models
      invariant forall m :: m in table <==> m in models && m !in left && Rows(d, m) != map[]
      invariant forall m <- table :: table[m] == Rows(d, m)
      decreases |left|
    {
      var m :| m in left;
      left := left - {m};
      var rows := BuildRows(d, conf, m);
      if rows != map[] { table := table[m := rows]; }
    }
    forall m | Rows(d, m) != map[] ensures m in models { IncludedIsModel(d, m); }
  }

  lemma IncludedIsModel(d: Data, m: string)
    requires Rows(d, m) != map[]
    ensures exists t :: HasModel(d, m, t)
  {
    var t :| t in Rows(d, m);
    var i :| 0 <= i < |d.channels| && Offers(d, i, m, t);
    assert HasModel(d, m, t);
  }

  /** The channels that show a difference somewhere. */
  ghost function Showing(d: Data): set<string> {
    set i | 0 <= i < |d.channels| && ShowsSomewhere(d, d.channels[i].name) :: d.channels[i].name
  }

  /** The whole computation: what is left of a model is its rows pruned to the channels that
      show a difference somewhere, and a model is there exactly if something is left. */
  method BuildDifferences(d: Data) returns (differences: map<string, map<RatioType, Item>>)
    ensures forall m :: m in differences <==> Pruned(Rows(d, m), Showing(d)) != map[]
    ensures forall m <- differences :: differences[m] == Pruned(Rows(d, m), Showing(d))
  {
    var table := BuildTable(d);
    var names := ChannelsWithDiff(table);
    NamesShow(d, table, names);
    forall m | m in table ensures EqualKeys(table[m]) { RowsHaveEqualKeys(d, m); }
    differences := PruneTable(table, names);
  }

  predicate EqualKeys(rows: map<RatioType, Item>) {
    forall t <- rows :: rows[t].confidence.Keys == rows[t].upstreams.Keys
  }

  method PruneTable(table: map<string, map<RatioType, Item>>, names: set<string>)
    returns (pruned: map<string, map<RatioType, Item>>)
    requires forall m <- table :: EqualKeys(table[m])
    ensures forall m :: m in pruned <==> m in table && Pruned(table[m], names) != map[]
    ensures forall m <- pruned :: pruned[m] == Pruned(table[m], names)
  {
    pruned := table;
    var left := table.Keys;
    while left != {}
      invariant left <= table.Keys
      invariant forall m :: m in pruned <==> m in table && (m in left || Pruned(table[m], names) != map[])
      invariant forall m <- pruned :: pruned[m] == if m in left then table[m] else Pruned(table[m], names)
      decreases |left|
    {
      var m :| m in left;
      left := left - {m};
      var rows := PruneRows(table[m], names);
      if rows == map[] { pruned := pruned - {m}; } else { pruned := pruned[m := rows]; }
    }
  }

  lemma {:induction false} CellNames(d: Data, n: nat, m: string, t: RatioType)
    requires n <= |d.channels|
    ensures Cells(d, n, m, t).Keys == Trusts(d, n, m).Keys
    ensures forall c <- Cells(d, n, m, t) :: exists i :: 0 <= i < |d.channels| && d.channels[i].name == c
  {
    if n > 0 {
      CellNames(d, n - 1, m, t);
      assert d.channels[n - 1].name == d.channels[n - 1].name;
    }
  }

  lemma RowsHaveEqualKeys(d: Data, m: string)
    ensures EqualKeys(Rows(d, m))
  {
    forall t | t in Rows(d, m) ensures Rows(d, m)[t].confidence.Keys == Rows(d, m)[t].upstreams.Keys {
      CellNames(d, |d.channels|, m, t);
    }
  }

  lemma NamesShow(d: Data, table: map<string, map<RatioType, Item>>, names: set<string>)
    requires forall m :: m in table <==> Rows(d, m) != map[]
    requires forall m <- table :: table[m] == Rows(d, m)
    requires forall c :: c in names <==> exists m :: m in table && ShowsIn(table[m], c)
    ensures names == Showing(d)
  {
    forall c | c in names ensures c in Showing(d) {
      var m :| m in table && ShowsIn(table[m], c);
      ShownIsShowing(d, m, c);
    }
    forall c | c in Showing(d) ensures c in names {
      var m :| ShowsIn(Rows(d, m), c);
      var t :| t in Rows(d, m);
      assert Rows(d, m) != map[];
    }
  }

  lemma ShownIsShowing(d: Data, m: string, c: string)
    requires ShowsIn(Rows(d, m), c)
    ensures c in Showing(d)
  {
    var t :| t in Rows(d, m) && c in Rows(d, m)[t].upstreams && Shows(Rows(d, m)[t].upstreams[c]);
    CellNames(d, |d.channels|, m, t);
    var i :| 0 <= i < |d.channels| && d.channels[i].name == c;
    assert ShowsSomewhere(d, d.channels[i].name);
  }

  // ----- the declarative diff

  /** Every upstream value is a number. */
  ghost predicate Numeric(d: Data) {
    forall i, m, t :: 0 <= i < |d.channels| && Given(d.channels[i], m, t).Some? ==>
      Given(d.channels[i], m, t).value.Num?
  }

  predicate Distinct(d: Data) {
    forall i, j :: 0 <= i < j < |d.channels| ==> d.channels[i].name != d.channels[j].name
  }

  function Distance(a: real, b: real): real { if a < b then b - a else a - b }

  /** Channel i has a price, and there is no local one or it is at least epsilon away. */
  predicate Differs(d: Data, i: nat, m: string, t: RatioType)
    requires i < |d.channels|
  {
    var given := Given(d.channels[i], m, t);
    given.Some? && given.value.Num? &&
    (LocalValue(d, m, t) == Null || Distance(LocalValue(d, m, t).x, given.value.x) >= Epsilon)
  }

  ghost predicate DiffersSomewhere(d: Data, i: nat)
    requires i < |d.channels|
  {
    exists m, t :: Differs(d, i, m, t)
  }

  lemma DiffersIsOffered(d: Data, i: nat, m: string, t: RatioType)
    requires i < |d.channels| && Numeric(d)
    ensures Differs(d, i, m, t) <==> Offers(d, i, m, t)
    ensures Differs(d, i, m, t) <==> Shows(Cell(LocalValue(d, m, t), Given(d.channels[i], m, t)))
  {
  }

  lemma {:induction false} CellOf(d: Data, n: nat, i: nat, m: string, t: RatioType)
    requires i < n <= |d.channels| && Distinct(d)
    ensures var c := d.channels[i];
            && c.name in Cells(d, n, m, t) && Cells(d, n, m, t)[c.name] == Cell(LocalValue(d, m, t), Given(c, m, t))
            && c.name in Trusts(d, n, m) && Trusts(d, n, m)[c.name] == Trusted(c, m)
  {
    if i < n - 1 { CellOf(d, n - 1, i, m, t); }
  }

  lemma NameShows(d: Data, i: nat)
    requires i < |d.channels| && Numeric(d) && Distinct(d)
    ensures d.channels[i].name in Showing(d) <==> DiffersSomewhere(d, i)
  {
    var c := d.channels[i].name;
    if DiffersSomewhere(d, i) {
      var m, t :| Differs(d, i, m, t);
      DiffersIsOffered(d, i, m, t);
      CellOf(d, |d.channels|, i, m, t);
      assert t in Rows(d, m);
      assert ShowsIn(Rows(d, m), c);
    }
    if c in Showing(d) {
      var j :| 0 <= j < |d.channels| && ShowsSomewhere(d, d.channels[j].name) && d.channels[j].name == c;
      var m :| ShowsIn(Rows(d, m), c);
      var t :| t in Rows(d, m) && c in Rows(d, m)[t].upstreams && Shows(Rows(d, m)[t].upstreams[c]);
      CellOf(d, |d.channels|, i, m, t);
      DiffersIsOffered(d, i, m, t);
    }
  }

  /** For numeric data and distinct channel names: a model and ratio type have a row exactly when some
      channel's price differs there, and the pruning pass deletes no row. */
  lemma RowIffDiffers(d: Data, m: string, t: RatioType)
    requires Numeric(d) && Distinct(d)
    ensures t in Pruned(Rows(d, m), Showing(d)) <==> exists i :: 0 <= i < |d.channels| && Differs(d, i, m, t)
    ensures t in Rows(d, m) <==> t in Pruned(Rows(d, m), Showing(d))
  {
    if i :| 0 <= i < |d.channels| && Differs(d, i, m, t) {
      DiffersIsOffered(d, i, m, t);
      assert t in Rows(d, m);
      CellOf(d, |d.channels|, i, m, t);
      NameShows(d, i);
      var c := d.channels[i].name;
      assert c in Rows(d, m)[t].upstreams && Rows(d, m)[t].upstreams[c] != Same && c in Showing(d);
    }
    if t in Rows(d, m) {
      var i :| 0 <= i < |d.channels| && Offers(d, i, m, t);
      DiffersIsOffered(d, i, m, t);
    }
  }

  /** And a row keeps exactly the channels that differ somewhere, each with its price where it differs,
      "same" where it agrees or neither side has one, and null where only it has none. */
  lemma RowContents(d: Data, m: string, t: RatioType, i: nat, j: nat)
    requires Numeric(d) && Distinct(d) && i < |d.channels| && j < |d.channels| && Differs(d, j, m, t)
    ensures t in Pruned(Rows(d, m), Showing(d))
    ensures var row, c := Pruned(Rows(d, m), Showing(d))[t], d.channels[i];
            && row.current == LocalValue(d, m, t)
            && (c.name in row.upstreams <==> DiffersSomewhere(d, i))
            && (c.name in row.confidence <==> DiffersSomewhere(d, i))
            && (DiffersSomewhere(d, i) ==>
                  && row.confidence[c.name] == Trusted(c, m)
                  && row.upstreams[c.name] == if Differs(d, i, m, t) then Given(c, m, t).value
                                              else if Given(c, m, t).Some? || LocalValue(d, m, t) == Null then Same
                                              else Null)
  {
    RowIffDiffers(d, m, t);
    CellOf(d, |d.channels|, i, m, t);
    NameShows(d, i);
    DiffersIsOffered(d, i, m, t);
  }

  /** Channel i offers something that can be shown: not null, and not the text "same". */
  predicate OffersValue(d: Data, i: nat, m: string, t: RatioType)
    requires i < |d.channels|
  {
    Offers(d, i, m, t) && Given(d.channels[i], m, t).value !in {Null, Same}
  }

  ghost predicate OffersSomewhere(d: Data, i: nat)
    requires i < |d.channels|
  {
    exists m, t :: OffersValue(d, i, m, t)
  }

  lemma OfferIsShown(d: Data, i: nat, m: string, t: RatioType)
    requires i < |d.channels|
    ensures OffersValue(d, i, m, t) <==> Shows(Cell(LocalValue(d, m, t), Given(d.channels[i], m, t)))
  {
  }

  lemma NameOffers(d: Data, i: nat)
    requires i < |d.channels| && Distinct(d)
    ensures d.channels[i].name in Showing(d) <==> OffersSomewhere(d, i)
  {
    var c := d.channels[i].name;
    if OffersSomewhere(d, i) {
      var m, t :| OffersValue(d, i, m, t);
      OfferIsShown(d, i, m, t);
      CellOf(d, |d.channels|, i, m, t);
      assert t in Rows(d, m);
      assert ShowsIn(Rows(d, m), c);
    }
    if c in Showing(d) {
      var j :| 0 <= j < |d.channels| && ShowsSomewhere(d, d.channels[j].name) && d.channels[j].name == c;
      var m :| ShowsIn(Rows(d, m), c);
      var t :| t in Rows(d, m) && c in Rows(d, m)[t].upstreams && Shows(Rows(d, m)[t].upstreams[c]);
      CellOf(d, |d.channels|, i, m, t);
      OfferIsShown(d, i, m, t);
    }
  }

  /** Channel i has nothing for a model that is priced locally, or an explicit null. */
  predicate Blank(d: Data, i: nat, m: string, t: RatioType)
    requires i < |d.channels|
  {
    LocalValue(d, m, t) != Null && (Given(d.channels[i], m, t).None? || Given(d.channels[i], m, t).value == Null)
  }

  /** In an included row, the cell of channel i keeps it exactly if the channel offers a value there, or is blank
      there and offers one somewhere else. */
  lemma CellKeepsRow(d: Data, i: nat, m: string, t: RatioType)
    requires i < |d.channels| && Distinct(d) && Included(d, |d.channels|, m, t)
    ensures t in Rows(d, m) && d.channels[i].name in Rows(d, m)[t].upstreams
    ensures d.channels[i].name in Showing(d) && Rows(d, m)[t].upstreams[d.channels[i].name] != Same <==>
            OffersValue(d, i, m, t) || (OffersSomewhere(d, i) && Blank(d, i, m, t))
  {
    CellOf(d, |d.channels|, i, m, t);
    NameOffers(d, i);
    OfferIsShown(d, i, m, t);
  }

  /** For any data with distinct names: an included row outlives the pruning exactly when some channel offers a
      value there, or some channel that offers one elsewhere has none there while there is a local one. */
  lemma RowKeptIff(d: Data, m: string, t: RatioType)
    requires Distinct(d)
    ensures t in Pruned(Rows(d, m), Showing(d)) <==>
            && Included(d, |d.channels|, m, t)
            && exists i :: 0 <= i < |d.channels| &&
                           (OffersValue(d, i, m, t) || (OffersSomewhere(d, i) && Blank(d, i, m, t)))
  {
    if Included(d, |d.channels|, m, t) {
      if t in Pruned(Rows(d, m), Showing(d)) {
        var c :| c in Rows(d, m)[t].upstreams && c in Showing(d) && Rows(d, m)[t].upstreams[c] != Same;
        CellNames(d, |d.channels|, m, t);
        var i :| 0 <= i < |d.channels| && d.channels[i].name == c;
        CellKeepsRow(d, i, m, t);
      }
      if i :| 0 <= i < |d.channels| && (OffersValue(d, i, m, t) || (OffersSomewhere(d, i) && Blank(d, i, m, t))) {
        CellKeepsRow(d, i, m, t);
        assert Kept(Rows(d, m)[t], Showing(d));
      }
    }
  }

  /** A row whose only upstream value is null or the text "same" is included and deleted. */
  lemma HiddenRowIsPruned(m: string, name: string, v: Value)
    requires v in {Null, Same}
    ensures var d := Data(map[ModelRatio := map[m := 1.0]], [Channel(name, map[ModelRatio := map[m := v]])]);
            ModelRatio in Rows(d, m) && ModelRatio !in Pruned(Rows(d, m), Showing(d))
  {
    var d := Data(map[ModelRatio := map[m := 1.0]], [Channel(name, map[ModelRatio := map[m := v]])]);
    assert Offers(d, 0, m, ModelRatio);
    forall i, k, t | 0 <= i < |d.channels| ensures !OffersValue(d, i, k, t) {}
    RowKeptIff(d, m, ModelRatio);
  }

  /** With an explicit null upstream the pruning pass does delete a row that was included. */
  lemma NullRowIsPruned(m: string, name: string)
    ensures var d := Data(map[ModelRatio := map[m := 1.0]], [Channel(name, map[ModelRatio := map[m := Null]])]);
            ModelRatio in Rows(d, m) && Pruned(Rows(d, m), Showing(d)) == map[]
  {
    var d := Data(map[ModelRatio := map[m := 1.0]], [Channel(name, map[ModelRatio := map[m := Null]])]);
    assert Offers(d, 0, m, ModelRatio);
    forall k, t | t in Rows(d, k) ensures Rows(d, k)[t].upstreams == map[name := Null] {
      var i :| 0 <= i < |d.channels| && Offers(d, i, k, t);
      assert k == m && t == ModelRatio;
      assert Cells(d, 0, k, t) == map[];
    }
    assert Showing(d) == {};
  }
}
