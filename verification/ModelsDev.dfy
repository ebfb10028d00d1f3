/** Choosing one price per model among the providers of a models.dev price table. */
module ModelsDev {

  import opened RatioDiff
  import opened Wrappers

  /** A decoded price: a number, or one of the floating-point values that are none. */
  datatype Price = Finite(x: real) | NotFinite

  datatype Cost = Cost(input: Option<Price>, output: Option<Price>, cacheRead: Option<Price>)

  datatype Candidate = Candidate(provider: string, input: real, output: Option<real>, cacheRead: Option<real>)

  predicate Usable(p: Price) { p.Finite? && p.x >= 0.0 }

  function Build(provider: string, cost: Cost): Option<Candidate> {
    if cost.input.None? || !Usable(cost.input.value) then None
    else if cost.output.Some? && !Usable(cost.output.value) then None
    else if cost.input.value.x == 0.0 && cost.output.Some? && cost.output.value.x > 0.0 then None
    else
      Some(Candidate(provider, cost.input.value.x,
                     if cost.output.Some? then Some(cost.output.value.x) else None,
                     if cost.cacheRead.Some? && Usable(cost.cacheRead.value)
                     then Some(cost.cacheRead.value.x) else None))
  }

  /** String order, character by character. */
  predicate Less(a: string, b: string) {
    if b == "" then false
    else if a == "" then true
    else if a[0] != b[0] then a[0] < b[0]
    else Less(a[1..], b[1..])
  }

  predicate ShouldReplace(current: Candidate, next: Candidate) {
    var currentNonZero, nextNonZero := current.input > 0.0, next.input > 0.0;
    if currentNonZero != nextNonZero then nextNonZero
    else if nextNonZero && !NearlyEqual(next.input, current.input) then next.input < current.input
    else Less(next.provider, current.provider)
  }

  // ----- the order

  lemma {:induction false} LessTransitive(a: string, b: string, c: string)
    requires Less(a, b) && Less(b, c)
    ensures Less(a, c)
  {
    if a != "" && a[0] == b[0] && b[0] == c[0] { LessTransitive(a[1..], b[1..], c[1..]); }
  }

  lemma {:induction false} LessTotal(a: string, b: string)
    ensures Less(a, b) || Less(b, a) || a == b
    ensures !(Less(a, b) && Less(b, a)) && !Less(a, a)
  {
    if a != "" {
      LessTotal(a[1..], a[1..]);
      if b != "" && a[0] == b[0] {
        LessTotal(a[1..], b[1..]);
        assert a[1..] == b[1..] ==> a == [a[0]] + a[1..] == b;
      }
    }
  }

  predicate Sorted(names: seq<string>) {
    forall i, j :: 0 <= i < j < |names| ==> Less(names[i], names[j])
  }

  method Least(names: set<string>) returns (least: string)
    requires names != {}
    ensures least in names && forall n <- names :: n == least || Less(least, n)
  {
    least :| least in names;
    var left := names - {least};
    while left != {}
      invariant left <= names && least in names && least !in left
      invariant forall n <- names :: n in left || n == least || Less(least, n)
      decreases |left|
    {
      var n :| n in left;
      left := left - {n};
      LessTotal(n, least);
      if Less(n, least) {
        forall k | k in names && k !in left && k != n && k != least ensures Less(n, k) { LessTransitive(n, least, k); }
        least := n;
      }
    }
  }

  method SortedKeys(names: set<string>) returns (sorted: seq<string>)
    ensures Sorted(sorted) && forall n :: n in sorted <==> n in names
  {
    sorted := [];
    var left := names;
    while left != {}
      invariant left <= names && Sorted(sorted)
      invariant forall n :: n in sorted <==> n in names && n !in left
      invariant forall n <- sorted, k <- left :: Less(n, k)
      decreases |left|
    {
      var n := Least(left);
      left := left - {n};
      forall i | 0 <= i < |sorted| ensures Less(sorted[i], n) { assert sorted[i] in sorted; }
      sorted := sorted + [n];
    }
  }

  // ----- the selection

  type Table = map<string, map<string, Cost>>

  function CandidateOf(table: Table, provider: string, m: string): Option<Candidate> {
    if provider in table && m in table[provider] then Build(provider, table[provider][m]) else None
  }

  function Better(current: Option<Candidate>, next: Option<Candidate>): Option<Candidate> {
    if next.None? then current
    else if current.None? || ShouldReplace(current.value, next.value) then next
    else current
  }

  /** What is selected for a model after the first n providers. */
  function Chosen(table: Table, providers: seq<string>, n: nat, m: string): Option<Candidate>
    requires n <= |providers|
  {
    if n == 0 then None
    else Better(Chosen(table, providers, n - 1, m), CandidateOf(table, providers[n - 1], m))
  }

  /** One provider's models, in order. */
  method SelectFrom(table: Table, provider: string, selected: map<string, Candidate>)
    returns (selected': map<string, Candidate>)
    requires provider in table
    ensures forall m :: Lookup(selected', m) == Better(Lookup(selected, m), CandidateOf(table, provider, m))
  {
    selected' := selected;
    var names := SortedKeys(table[provider].Keys);
    for k := 0 to |names|
      invariant forall m <- names[..k] ::
                  Lookup(selected', m) == Better(Lookup(selected, m), CandidateOf(table, provider, m))
      invariant forall m :: m !in names[..k] ==> Lookup(selected', m) == Lookup(selected, m)
    {
      var name := names[k];
      NotBefore(names, k);
      var candidate := Build(provider, table[provider][name]);
      if candidate.None? { continue; }
      if name !in selected' || ShouldReplace(selected'[name], candidate.value) {
        selected' := selected'[name := candidate.value];
      }
    }
    assert names[..|names|] == names;
  }

  function Lookup(selected: map<string, Candidate>, m: string): Option<Candidate> {
    if m in selected then Some(selected[m]) else None
  }

  lemma NotBefore(names: seq<string>, k: nat)
    requires Sorted(names) && k < |names|
    ensures names[k] !in names[..k]
  {
    LessTotal(names[k], names[k]);
  }

  method Select(table: Table) returns (r: Option<map<string, Candidate>>, providers: seq<string>)
    ensures Sorted(providers) && forall p :: p in providers <==> p in table
    ensures forall m :: (if r.Some? then Lookup(r.value, m) else None) == Chosen(table, providers, |providers|, m)
    ensures r.Some? ==> r.value != map[]
  {
    providers := SortedKeys(table.Keys);
    var selected: map<string, Candidate> := map[];
    for i := 0 to |providers|
      invariant forall m :: Lookup(selected, m) == Chosen(table, providers, i, m)
    {
      assert providers[i] in providers;
      selected := SelectFrom(table, providers[i], selected);
    }
    r := if selected == map[] then None else Some(selected);
  }

  /** In sorted order the tie-break never replaces: the selected candidate comes from an earlier provider. */
  lemma {:induction false} ChosenIsEarlier(table: Table, providers: seq<string>, n: nat, m: string)
    requires Sorted(providers) && n <= |providers| && Chosen(table, providers, n, m).Some?
    ensures exists i :: 0 <= i < n && CandidateOf(table, providers[i], m) == Chosen(table, providers, n, m)
    ensures n < |providers| ==> !Less(providers[n], Chosen(table, providers, n, m).value.provider)
  {
    var before, next := Chosen(table, providers, n - 1, m), CandidateOf(table, providers[n - 1], m);
    if before.Some? { ChosenIsEarlier(table, providers, n - 1, m); }
    assert Chosen(table, providers, n, m) == next || Chosen(table, providers, n, m) == before;
    if n < |providers| {
      var i :| 0 <= i < n && CandidateOf(table, providers[i], m) == Chosen(table, providers, n, m);
      LessTotal(providers[n], providers[i]);
    }
  }

  /** What is known of the choice against the i-th provider's candidate. */
  predicate Beats(chosen: Option<Candidate>, c: Candidate) {
    && chosen.Some?
    && (c.input > 0.0 ==> 0.0 < chosen.value.input < c.input + Epsilon)
    && (chosen.value.input == 0.0 ==> chosen.value.provider == c.provider || Less(chosen.value.provider, c.provider))
  }

  lemma BetterStep(chosen: Option<Candidate>, next: Option<Candidate>, c: Candidate)
    requires Beats(chosen, c)
    requires next.Some? ==> next.value.input >= 0.0 && !Less(next.value.provider, chosen.value.provider)
    ensures Beats(Better(chosen, next), c)
  {
  }

  lemma {:induction false} ChosenBeats(table: Table, providers: seq<string>, n: nat, m: string, i: nat)
    requires Sorted(providers) && i < n <= |providers| && CandidateOf(table, providers[i], m).Some?
    ensures Beats(Chosen(table, providers, n, m), CandidateOf(table, providers[i], m).value)
  {
    var before, next := Chosen(table, providers, n - 1, m), CandidateOf(table, providers[n - 1], m);
    if before.Some? { ChosenIsEarlier(table, providers, n - 1, m); }
    if i < n - 1 {
      ChosenBeats(table, providers, n - 1, m, i);
      BetterStep(before, next, CandidateOf(table, providers[i], m).value);
    } else if before.Some? {
      var j :| 0 <= j < n - 1 && CandidateOf(table, providers[j], m) == before;
      assert Less(providers[j], providers[i]);
    }
  }

  /** For every price table and model: something is selected exactly when some provider has a usable price;
      it is one of those prices; it is non-zero whenever one of them is, and then less than epsilon above
      each non-zero one; a zero price is that of the first provider by name. */
  lemma SelectsNearMinimum(table: Table, providers: seq<string>, m: string)
    requires Sorted(providers) && forall p :: p in providers <==> p in table
    ensures var chosen := Chosen(table, providers, |providers|, m);
            && (chosen.Some? <==> exists p :: CandidateOf(table, p, m).Some?)
            && (chosen.Some? ==> CandidateOf(table, chosen.value.provider, m) == chosen)
            && (forall p :: CandidateOf(table, p, m).Some? ==> Beats(chosen, CandidateOf(table, p, m).value))
  {
    var chosen := Chosen(table, providers, |providers|, m);
    if chosen.Some? { ChosenIsEarlier(table, providers, |providers|, m); }
    forall p | CandidateOf(table, p, m).Some? ensures Beats(chosen, CandidateOf(table, p, m).value) {
      assert p in providers;
      var i :| 0 <= i < |providers| && providers[i] == p;
      ChosenBeats(table, providers, |providers|, m, i);
    }
  }

  /** The sorting matters: epsilon equality is not transitive, and against the order each tie-break can climb
      by almost epsilon. Here the choice ends above the minimum by more than that. */
  lemma UnsortedDrifts(a: Candidate, b: Candidate, c: Candidate)
    requires Less(b.provider, a.provider) && Less(c.provider, b.provider)
    requires a.input == 1.0 && b.input == 1.0 + 0.9 * Epsilon && c.input == 1.0 + 1.8 * Epsilon
    ensures Better(Better(Some(a), Some(b)), Some(c)) == Some(c) && c.input >= a.input + Epsilon
  {
  }

  // ----- the ratios made of a selected price

  const USD := 500.0
  const InputCostRatioBase := 1000.0

  /** Half away from zero at the sixth decimal; ratios are never negative. */
  function Rounded(x: real): real
    requires x >= 0.0
  {
    (x * 1000000.0 + 0.5).Floor as real / 1000000.0
  }

  datatype Ratios = Ratios(model: real, completion: Option<real>, cache: Option<real>)

  predicate Priced(c: Candidate) {
    && c.input >= 0.0
    && (c.output.Some? ==> c.output.value >= 0.0 && (c.input == 0.0 ==> c.output.value == 0.0))
    && (c.cacheRead.Some? ==> c.cacheRead.value >= 0.0)
  }

  function Quotient(a: real, b: real): (q: real)
    requires a >= 0.0 && b > 0.0
    ensures q >= 0.0 && q * b == a
  {
    a / b
  }

  function Convert(c: Candidate): Ratios
    requires Priced(c)
  {
    if c.input == 0.0 then Ratios(0.0, None, None)
    else
      Ratios(Rounded(c.input * USD / InputCostRatioBase),
             if c.output.Some? then Some(Rounded(Quotient(c.output.value, c.input))) else None,
             if c.cacheRead.Some? then Some(Rounded(Quotient(c.cacheRead.value, c.input))) else None)
  }

  lemma RoundedIsNear(x: real)
    requires x >= 0.0
    ensures Distance(Rounded(x), x) <= 0.0000005
  {
    var y := x * 1000000.0 + 0.5;
    assert y.Floor as real <= y < y.Floor as real + 1.0;
  }

  lemma ScaledOrder(x: real, y: real, b: real)
    requires x <= y && b > 0.0
    ensures x * b <= y * b
  {
    assert (y - x) * b >= 0.0;
  }

  lemma Distribute(x: real, y: real, b: real)
    ensures (x - y) * b == x * b - y * b
  {
  }

  lemma ScaledGap(low: real, high: real, gap: real, b: real)
    requires b > 0.0 && low <= high && high - low <= gap
    ensures 0.0 <= high * b - low * b <= gap * b
  {
    Distribute(high, low, b);
    ScaledOrder(low, high, b);
    ScaledOrder(high - low, gap, b);
  }

  lemma ScaledDistance(r: real, q: real, gap: real, b: real)
    requires b > 0.0 && Distance(r, q) <= gap
    ensures Distance(r * b, q * b) <= gap * b
  {
    if r < q { ScaledGap(r, q, gap, b); } else { ScaledGap(q, r, gap, b); }
  }

  /** The price that a ratio stands for, and when that is the given one up to rounding. */
  predicate Recovers(ratio: real, input: real, price: real) {
    Distance(ratio * input, price) <= 0.0000005 * input
  }

  lemma QuotientRecovers(price: real, input: real)
    requires price >= 0.0 && input > 0.0
    ensures Recovers(Rounded(Quotient(price, input)), input, price)
  {
    RoundedIsNear(Quotient(price, input));
    ScaledDistance(Rounded(Quotient(price, input)), Quotient(price, input), 0.0000005, input);
  }

  lemma ModelRatioRecovers(input: real)
    requires input >= 0.0
    ensures Distance(Rounded(input * USD / InputCostRatioBase) * InputCostRatioBase / USD, input) <= 0.000001
  {
    RoundedIsNear(input * USD / InputCostRatioBase);
  }

  lemma BuiltIsPriced(provider: string, cost: Cost)
    requires Build(provider, cost).Some?
    ensures Priced(Build(provider, cost).value)
  {
  }

  /** The prices of a candidate can be computed back from its ratios: the input price to a millionth, the others
      to half a millionth of it. A zero price has no output price to lose. */
  lemma RatiosRecoverPrices(c: Candidate)
    requires Priced(c)
    ensures var r := Convert(c);
            && Distance(r.model * InputCostRatioBase / USD, c.input) <= 0.000001
            && (if r.completion.Some? then c.output.Some? && Recovers(r.completion.value, c.input, c.output.value)
                else c.output.None? || c.output.value == 0.0)
            && (r.cache.Some? ==> c.cacheRead.Some? && Recovers(r.cache.value, c.input, c.cacheRead.value))
  {
    if c.input > 0.0 {
      ModelRatioRecovers(c.input);
      if c.output.Some? { QuotientRecovers(c.output.value, c.input); }
      if c.cacheRead.Some? { QuotientRecovers(c.cacheRead.value, c.input); }
    }
  }
}
