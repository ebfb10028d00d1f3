/** Order-preserving algebra on lists of model names. */
module ModelNames {

  // ----- trimming

  predicate IsSpace(c: char) {
    '\t' <= c <= '\r' || c == ' ' || c == '\U{85}' || c == '\U{A0}' || c == '\U{1680}' ||
    '\U{2000}' <= c <= '\U{200A}' || c == '\U{2028}' || c == '\U{2029}' || c == '\U{202F}' ||
    c == '\U{205F}' || c == '\U{3000}'
  }

  function TrimSpace(s: string): string {
    if s == "" then s
    else if IsSpace(s[0]) then TrimSpace(s[1..])
    else if IsSpace(s[|s| - 1]) then TrimSpace(s[..|s| - 1])
    else s
  }

  predicate IsName(s: string) {
    s != "" && !IsSpace(s[0]) && !IsSpace(s[|s| - 1])
  }

  lemma {:induction false} TrimmedIsName(s: string)
    ensures TrimSpace(s) == "" || IsName(TrimSpace(s))
    ensures IsName(s) ==> TrimSpace(s) == s
    ensures forall c <- TrimSpace(s) :: c in s
    decreases |s|
  {
    if s != "" {
      if IsSpace(s[0]) {
        TrimmedIsName(s[1..]);
      } else if IsSpace(s[|s| - 1]) {
        TrimmedIsName(s[..|s| - 1]);
      }
    }
  }

  // ----- lists

  /** The trimmed, non-blank members, in order. */
  function NonBlank(xs: seq<string>): seq<string> {
    if xs == [] then []
    else
      var t := TrimSpace(xs[|xs| - 1]);
      NonBlank(xs[..|xs| - 1]) + if t == "" then [] else [t]
  }

  /** Each member once, at its first position. */
  function Uniq(xs: seq<string>): seq<string> {
    if xs == [] then []
    else
      var rest, x := Uniq(xs[..|xs| - 1]), xs[|xs| - 1];
      if x in rest then rest else rest + [x]
  }

  function Normalize(xs: seq<string>): seq<string> {
    Uniq(NonBlank(xs))
  }

  function Without(xs: seq<string>, s: set<string>): seq<string> {
    if xs == [] then []
    else Without(xs[..|xs| - 1], s) + if xs[|xs| - 1] in s then [] else [xs[|xs| - 1]]
  }

  function Within(xs: seq<string>, s: set<string>): seq<string> {
    if xs == [] then []
    else Within(xs[..|xs| - 1], s) + if xs[|xs| - 1] in s then [xs[|xs| - 1]] else []
  }

  function Set(xs: seq<string>): set<string> { set x | x in xs }

  function Merge(base: seq<string>, appended: seq<string>): seq<string> {
    Normalize(base) + Without(Normalize(appended), Set(Normalize(base)))
  }

  function Subtract(base: seq<string>, removed: seq<string>): seq<string> {
    Without(Normalize(base), Set(Normalize(removed)))
  }

  function Intersect(base: seq<string>, allowed: seq<string>): seq<string> {
    Within(Normalize(base), Set(Normalize(allowed)))
  }

  /** Add wins when a name is in both lists. */
  function ApplySelected(origin: seq<string>, add: seq<string>, remove: seq<string>): seq<string> {
    var normalizedAdd := Normalize(add);
    var normalizedRemove := Subtract(Normalize(remove), normalizedAdd);
    Subtract(Merge(origin, normalizedAdd), normalizedRemove)
  }

  method MergeModelNames(base: seq<string>, appended: seq<string>) returns (merged: seq<string>)
    ensures merged == Merge(base, appended)
  {
    NormalizedIsClean(appended);
    merged := AppendMissing(Normalize(base), Normalize(appended));
  }

  method AppendMissing(base: seq<string>, names: seq<string>) returns (merged: seq<string>)
    requires NoDuplicates(names)
    ensures merged == base + Without(names, Set(base))
  {
    merged := base;
    var seen := Set(base);
    for i := 0 to |names|
      invariant merged == base + Without(names[..i], Set(base))
      invariant seen == Set(base) + Set(names[..i])
    {
      assert names[..i + 1][..i] == names[..i];
      assert names[i] !in names[..i];
      if names[i] !in seen {
        seen := seen + {names[i]};
        merged := merged + [names[i]];
      }
    }
    assert names[..|names|] == names;
  }

  // ----- clean lists: what normalisation produces and leaves alone

  ghost predicate NoDuplicates(xs: seq<string>) {
    forall i, j :: 0 <= i < j < |xs| ==> xs[i] != xs[j]
  }

  ghost predicate Clean(xs: seq<string>) {
    NoDuplicates(xs) && forall x <- xs :: IsName(x)
  }

  lemma {:induction false} NonBlankAreNames(xs: seq<string>)
    ensures forall x <- NonBlank(xs) :: IsName(x)
    ensures (forall x <- xs :: IsName(x)) ==> NonBlank(xs) == xs
  {
    if xs != [] {
      var init := xs[..|xs| - 1];
      NonBlankAreNames(init);
      TrimmedIsName(xs[|xs| - 1]);
      assert xs == init + [xs[|xs| - 1]];
      assert forall x <- init :: x in xs;
      assert xs[|xs| - 1] in xs;
    }
  }

  lemma {:induction false} UniqMembers(xs: seq<string>)
    ensures NoDuplicates(Uniq(xs)) && (forall x :: x in Uniq(xs) <==> x in xs)
    ensures NoDuplicates(xs) ==> Uniq(xs) == xs
  {
    if xs != [] {
      var init := xs[..|xs| - 1];
      UniqMembers(init);
      assert xs == init + [xs[|xs| - 1]];
    }
  }

  lemma NormalizedIsClean(xs: seq<string>)
    ensures Clean(Normalize(xs))
    ensures Clean(xs) ==> Normalize(xs) == xs
  {
    NonBlankAreNames(xs);
    UniqMembers(NonBlank(xs));
  }

  lemma {:induction false} WithoutMembers(xs: seq<string>, s: set<string>)
    ensures forall x :: x in Without(xs, s) <==> x in xs && x !in s
    ensures NoDuplicates(xs) ==> NoDuplicates(Without(xs, s))
    ensures Clean(xs) ==> Clean(Without(xs, s))
  {
    if xs != [] {
      var init := xs[..|xs| - 1];
      WithoutMembers(init, s);
      assert xs == init + [xs[|xs| - 1]];
    }
  }

  lemma {:induction false} WithoutOthers(xs: seq<string>, s: set<string>)
    requires Set(xs) !! s
    ensures Without(xs, s) == xs
  {
    if xs != [] {
      var init := xs[..|xs| - 1];
      assert xs == init + [xs[|xs| - 1]];
      assert Set(init) <= Set(xs) && xs[|xs| - 1] in Set(xs);
      WithoutOthers(init, s);
    }
  }

  lemma {:induction false} WithinMembers(xs: seq<string>, s: set<string>)
    ensures forall x :: x in Within(xs, s) <==> x in xs && x in s
    ensures NoDuplicates(xs) ==> NoDuplicates(Within(xs, s))
    ensures Clean(xs) ==> Clean(Within(xs, s))
  {
    if xs != [] {
      var init := xs[..|xs| - 1];
      WithinMembers(init, s);
      assert xs == init + [xs[|xs| - 1]];
    }
  }

  lemma {:induction false} WithinAll(xs: seq<string>, s: set<string>)
    requires Set(xs) <= s
    ensures Within(xs, s) == xs
  {
    if xs != [] {
      var init := xs[..|xs| - 1];
      assert xs == init + [xs[|xs| - 1]];
      assert Set(init) <= Set(xs) && xs[|xs| - 1] in Set(xs);
      WithinAll(init, s);
    }
  }

  lemma {:induction false} WithoutConcat(xs: seq<string>, ys: seq<string>, s: set<string>)
    ensures Without(xs + ys, s) == Without(xs, s) + Without(ys, s)
  {
    if ys == [] {
      assert xs + ys == xs;
    } else {
      assert (xs + ys)[..|xs + ys| - 1] == xs + ys[..|ys| - 1];
      WithoutConcat(xs, ys[..|ys| - 1], s);
    }
  }

  lemma CleanConcat(xs: seq<string>, ys: seq<string>)
    requires Clean(xs) && Clean(ys) && Set(xs) !! Set(ys)
    ensures Clean(xs + ys)
  {
    forall i, j | 0 <= i < j < |xs + ys| ensures (xs + ys)[i] != (xs + ys)[j] {
      if i < |xs| <= j { assert xs[i] in Set(xs) && ys[j - |xs|] in Set(ys); }
    }
  }

  /** Selected changes on a clean list: the survivors keep their order and come first,
      the additions that are new follow in theirs. */
  lemma ApplySelectedShape(origin: seq<string>, add: seq<string>, remove: seq<string>)
    requires Clean(origin) && Clean(add) && Clean(remove) && Set(add) !! Set(remove)
    ensures ApplySelected(origin, add, remove) == Without(origin, Set(remove)) + Without(add, Set(origin))
    ensures Clean(ApplySelected(origin, add, remove))
    ensures forall x :: x in ApplySelected(origin, add, remove) <==> x in add || (x in origin && x !in remove)
  {
    var additions := Without(add, Set(origin));
    NormalizedIsClean(origin); NormalizedIsClean(add); NormalizedIsClean(remove);
    WithoutOthers(remove, Set(add));
    WithoutMembers(add, Set(origin));
    CleanConcat(origin, additions);
    NormalizedIsClean(origin + additions);
    WithoutConcat(origin, additions, Set(remove));
    WithoutOthers(additions, Set(remove));
    WithoutMembers(origin, Set(remove));
    WithoutMembers(origin + additions, Set(remove));
  }

  lemma {:induction false} WithoutNone(xs: seq<string>, s: set<string>)
    requires forall x <- xs :: x in s
    ensures Without(xs, s) == []
  {
    if xs != [] {
      assert forall x <- xs[..|xs| - 1] :: x in xs;
      WithoutNone(xs[..|xs| - 1], s);
    }
  }

  /** The list changes iff the set of its members does. */
  lemma UnchangedIffSameSet(origin: seq<string>, add: seq<string>, remove: seq<string>)
    requires Clean(origin) && Clean(add) && Clean(remove) && Set(add) !! Set(remove)
    ensures ApplySelected(origin, add, remove) == origin <==> Set(ApplySelected(origin, add, remove)) == Set(origin)
  {
    ApplySelectedShape(origin, add, remove);
    var next := ApplySelected(origin, add, remove);
    if Set(next) == Set(origin) {
      forall x <- add ensures x in Set(origin) { assert x in Set(next); }
      WithoutNone(add, Set(origin));
      forall x <- remove ensures x !in Set(origin) { assert x !in Set(add) && x !in next; }
      WithoutOthers(origin, Set(remove));
    }
  }
}
