/** Reconciling a channel's model list with its upstream's: detecting pending changes
    and applying them.  The channel stores its models as one comma-separated string. */
module UpstreamUpdate {
  import opened ModelNames

  // ----- the stored string

  function Join(names: seq<string>): string {
    if names == [] then ""
    else if |names| == 1 then names[0]
    else Join(names[..|names| - 1]) + "," + names[|names| - 1]
  }

  function Split(s: string): (pieces: seq<string>)
    ensures |pieces| >= 1
  {
    if s == "" then [""]
    else
      var pieces := Split(s[..|s| - 1]);
      if s[|s| - 1] == ',' then pieces + [""]
      else pieces[..|pieces| - 1] + [pieces[|pieces| - 1] + [s[|s| - 1]]]
  }

  function TrimCommas(s: string): string {
    if s == "" then s
    else if s[0] == ',' then TrimCommas(s[1..])
    else if s[|s| - 1] == ',' then TrimCommas(s[..|s| - 1])
    else s
  }

  function GetModels(models: string): seq<string> {
    if models == "" then [] else Split(TrimCommas(models))
  }

  lemma {:induction false} PiecesHaveNoComma(s: string)
    ensures forall piece <- Split(s) :: ',' !in piece
  {
    if s != "" {
      PiecesHaveNoComma(s[..|s| - 1]);
      var pieces := Split(s[..|s| - 1]);
      assert forall piece <- pieces[..|pieces| - 1] :: piece in pieces;
      assert pieces[|pieces| - 1] in pieces;
    }
  }

  lemma {:induction false} SplitAppend(s: string, t: string)
    requires ',' !in t
    ensures Split(s + t) == Split(s)[..|Split(s)| - 1] + [Split(s)[|Split(s)| - 1] + t]
  {
    var pieces := Split(s);
    if t == "" {
      assert s + t == s;
      assert pieces[|pieces| - 1] + t == pieces[|pieces| - 1];
    } else {
      var init, c := t[..|t| - 1], t[|t| - 1];
      assert t == init + [c];
      SplitAppend(s, init);
      assert (s + t)[..|s + t| - 1] == s + init && (s + t)[|s + t| - 1] == c;
      assert pieces[|pieces| - 1] + init + [c] == pieces[|pieces| - 1] + t;
    }
  }

  lemma SplitComma(s: string)
    ensures Split(s + ",") == Split(s) + [""]
  {
    assert (s + ",")[..|s + ","| - 1] == s;
  }

  lemma {:induction false} SplitUndoesJoin(names: seq<string>)
    requires names != [] && AllPlain(names)
    ensures Split(Join(names)) == names
  {
    var init, last := names[..|names| - 1], names[|names| - 1];
    assert names == init + [last] && Plain(last);
    if |names| == 1 {
      SplitAppend("", last);
      assert "" + last == last && [""][..0] == [];
    } else {
      assert forall name <- init :: name in names;
      SplitUndoesJoin(init);
      SplitComma(Join(init));
      SplitAppend(Join(init) + ",", last);
      assert (init + [""])[..|init|] == init;
      assert "" + last == last;
    }
  }

  predicate Plain(name: string) { name != "" && ',' !in name }

  ghost predicate AllPlain(names: seq<string>) { forall name <- names :: Plain(name) }

  lemma {:induction false} JoinEnds(names: seq<string>)
    requires names != [] && AllPlain(names)
    ensures var s := Join(names); s != "" && s[0] != ',' && s[|s| - 1] != ','
  {
    assert Plain(names[|names| - 1]);
    if |names| > 1 {
      assert forall name <- names[..|names| - 1] :: name in names;
      JoinEnds(names[..|names| - 1]);
    }
  }

  /** What is stored reads back as the same list, for names without commas. */
  lemma StoredListRoundTrip(names: seq<string>)
    requires AllPlain(names)
    ensures GetModels(Join(names)) == names
  {
    if names != [] {
      JoinEnds(names);
      SplitUndoesJoin(names);
    }
  }

  lemma {:induction false} NonBlankHasNoComma(xs: seq<string>)
    requires forall x <- xs :: ',' !in x
    ensures forall x <- NonBlank(xs) :: ',' !in x
  {
    if xs != [] {
      assert forall x <- xs[..|xs| - 1] :: x in xs;
      NonBlankHasNoComma(xs[..|xs| - 1]);
      assert xs[|xs| - 1] in xs;
      TrimmedIsName(xs[|xs| - 1]);
    }
  }

  /** No name read back from the stored string contains a comma. */
  lemma StoredNamesArePlain(models: string)
    ensures AllPlain(Normalize(GetModels(models)))
  {
    var pieces := GetModels(models);
    if models != "" { PiecesHaveNoComma(TrimCommas(models)); }
    NonBlankHasNoComma(pieces);
    NonBlankAreNames(pieces);
    UniqMembers(NonBlank(pieces));
  }

  // ----- detection

  const RegexPrefix := "regex:"

  /** matches stands for the regular-expression library: the pattern compiles and
      matches the name. */
  predicate Ignores(entry: string, name: string, matches: (string, string) -> bool) {
    if RegexPrefix <= entry then matches(TrimSpace(entry[|RegexPrefix|..]), name) else entry == name
  }

  predicate IsIgnored(ignored: seq<string>, name: string, matches: (string, string) -> bool) {
    exists entry <- ignored :: Ignores(entry, name, matches)
  }

  /** What upstream offers is covered by a local model or by a redirect to it. */
  predicate Covered(local: seq<string>, mapping: map<string, string>, name: string) {
    name in local || name in mapping.Values
  }

  function PendingAdds(local: seq<string>, upstream: seq<string>, ignored: seq<string>, mapping: map<string, string>,
                       matches: (string, string) -> bool): seq<string>
  {
    if upstream == [] then []
    else
      var name := upstream[|upstream| - 1];
      PendingAdds(local, upstream[..|upstream| - 1], ignored, mapping, matches) +
      if Covered(local, mapping, name) || IsIgnored(ignored, name, matches) then [] else [name]
  }

  /** The pending additions and removals. */
  function Detect(local: seq<string>, upstream: seq<string>, ignored: seq<string>, mapping: map<string, string>,
                  matches: (string, string) -> bool): (seq<string>, seq<string>)
  {
    var localNames, upstreamNames := Normalize(local), Normalize(upstream);
    var adds := PendingAdds(localNames, upstreamNames, Normalize(ignored), mapping, matches);
    var removes := Without(localNames, mapping.Keys + Set(upstreamNames));
    (Normalize(adds), Normalize(removes))
  }

  lemma {:induction false} PendingAddsMembers(local: seq<string>, upstream: seq<string>, ignored: seq<string>,
                                              mapping: map<string, string>, matches: (string, string) -> bool)
    ensures forall x :: x in PendingAdds(local, upstream, ignored, mapping, matches) <==>
              x in upstream && !Covered(local, mapping, x) && !IsIgnored(ignored, x, matches)
    ensures Clean(upstream) ==> Clean(PendingAdds(local, upstream, ignored, mapping, matches))
  {
    if upstream != [] {
      var init := upstream[..|upstream| - 1];
      PendingAddsMembers(local, init, ignored, mapping, matches);
      assert upstream == init + [upstream[|upstream| - 1]];
    }
  }

  /** Exactly the uncovered, unignored upstream names are to be added, and exactly the
      local names that are neither upstream nor redirect sources are to be removed. */
  lemma DetectMembers(local: seq<string>, upstream: seq<string>, ignored: seq<string>, mapping: map<string, string>,
                      matches: (string, string) -> bool)
    ensures var (adds, removes) := Detect(local, upstream, ignored, mapping, matches);
            && Clean(adds) && Clean(removes)
            && (forall x :: x in adds <==>
                  x in Normalize(upstream) && !Covered(Normalize(local), mapping, x) &&
                  !IsIgnored(Normalize(ignored), x, matches))
            && (forall x :: x in removes <==>
                  x in Normalize(local) && x !in mapping && x !in Normalize(upstream))
  {
    var l, u := Normalize(local), Normalize(upstream);
    NormalizedIsClean(local);
    NormalizedIsClean(upstream);
    PendingAddsMembers(l, u, Normalize(ignored), mapping, matches);
    NormalizedIsClean(PendingAdds(l, u, Normalize(ignored), mapping, matches));
    WithoutMembers(l, mapping.Keys + Set(u));
    NormalizedIsClean(Without(l, mapping.Keys + Set(u)));
  }

  // ----- applying a selection

  datatype Settings = Settings(ignored: seq<string>, detected: seq<string>, removed: seq<string>, lastCheck: int)

  datatype Applied = Applied(added: seq<string>, removed: seq<string>, remaining: seq<string>,
                             remainingRemove: seq<string>, changed: bool, models: string, settings: Settings)

  function Apply(models: string, st: Settings, addInput: seq<string>, ignoreInput: seq<string>,
                 removeInput: seq<string>, now: int): Applied
  {
    var pendingAdd, pendingRemove := Normalize(st.detected), Normalize(st.removed);
    var add := Intersect(addInput, pendingAdd);
    var ignore := Intersect(ignoreInput, pendingAdd);
    var remove := Subtract(Intersect(removeInput, pendingRemove), add);
    var origin := Normalize(GetModels(models));
    var next := ApplySelected(origin, add, remove);
    var ignored := Merge(st.ignored, ignore);
    var remaining := Subtract(pendingAdd, add + ignore);
    var remainingRemove := Subtract(pendingRemove, remove);
    Applied(add, remove, remaining, remainingRemove, origin != next,
            if origin != next then Join(next) else models,
            Settings(if |add| > 0 then Subtract(ignored, add) else ignored, remaining, remainingRemove, now))
  }

  datatype ApplyResult = ApplyResult(added: seq<string>, removed: seq<string>, remaining: seq<string>,
                                     remainingRemove: seq<string>, changed: bool, failed: bool)

  class Channel {
    var models: string
    var settings: Settings

    /** saved and abilitiesUpdated say whether the two database writes succeed. */
    method ApplyUpdates(addInput: seq<string>, ignoreInput: seq<string>, removeInput: seq<string>, now: int,
                        saved: bool, abilitiesUpdated: bool) returns (r: ApplyResult)
      modifies this
      ensures var a := Apply(old(models), old(settings), addInput, ignoreInput, removeInput, now);
              && models == a.models && settings == a.settings
              && r == if saved
                      then ApplyResult(a.added, a.removed, a.remaining, a.remainingRemove, a.changed,
                                       a.changed && !abilitiesUpdated)
                      else ApplyResult([], [], [], [], false, true)
    {
      var pendingAdd := Normalize(settings.detected);
      var pendingRemove := Normalize(settings.removed);
      var addModels := Intersect(addInput, pendingAdd);
      var ignoreModels := Intersect(ignoreInput, pendingAdd);
      var removeModels := Intersect(removeInput, pendingRemove);
      removeModels := Subtract(removeModels, addModels);
      var originModels := Normalize(GetModels(models));
      var nextModels := ApplySelected(originModels, addModels, removeModels);
      var modelsChanged := originModels != nextModels;
      if modelsChanged {
        models := Join(nextModels);
      }
      var merged := MergeModelNames(settings.ignored, ignoreModels);
      settings := settings.(ignored := merged);
      if |addModels| > 0 {
        settings := settings.(ignored := Subtract(settings.ignored, addModels));
      }
      var remaining := Subtract(pendingAdd, addModels + ignoreModels);
      var remainingRemove := Subtract(pendingRemove, removeModels);
      settings := settings.(detected := remaining, removed := remainingRemove, lastCheck := now);
      if !saved {
        return ApplyResult([], [], [], [], false, true);
      }
      if modelsChanged && !abilitiesUpdated {
        return ApplyResult(addModels, removeModels, remaining, remainingRemove, true, true);
      }
      return ApplyResult(addModels, removeModels, remaining, remainingRemove, modelsChanged, false);
    }
  }

  // ----- what applying a selection does

  lemma SubtractMembers(base: seq<string>, removed: seq<string>)
    requires Clean(base)
    ensures Subtract(base, removed) == Without(base, Set(Normalize(removed)))
    ensures Clean(Subtract(base, removed))
    ensures forall x :: x in Subtract(base, removed) <==> x in base && x !in Normalize(removed)
  {
    NormalizedIsClean(base);
    WithoutMembers(base, Set(Normalize(removed)));
  }

  lemma IntersectMembers(base: seq<string>, allowed: seq<string>)
    requires Clean(allowed)
    ensures Clean(Intersect(base, allowed))
    ensures forall x :: x in Intersect(base, allowed) <==> x in Normalize(base) && x in allowed
  {
    NormalizedIsClean(allowed);
    NormalizedIsClean(base);
    WithinMembers(Normalize(base), Set(allowed));
  }

  lemma MergeMembers(base: seq<string>, appended: seq<string>)
    ensures Clean(Merge(base, appended))
    ensures forall x :: x in Merge(base, appended) <==> x in Normalize(base) || x in Normalize(appended)
  {
    NormalizedIsClean(base);
    NormalizedIsClean(appended);
    WithoutMembers(Normalize(appended), Set(Normalize(base)));
    CleanConcat(Normalize(base), Without(Normalize(appended), Set(Normalize(base))));
  }

  lemma SplitAdds(addInput: seq<string>, ignoreInput: seq<string>, pending: seq<string>)
    requires Clean(pending)
    ensures var add, ignore := Intersect(addInput, pending), Intersect(ignoreInput, pending);
            var remaining := Subtract(pending, add + ignore);
            && Clean(add) && remaining == Without(pending, Set(add) + Set(ignore))
            && Set(pending) == Set(add) + Set(ignore) + Set(remaining)
            && Set(remaining) !! Set(add) + Set(ignore)
  {
    IntersectMembers(addInput, pending);
    IntersectMembers(ignoreInput, pending);
    var add, ignore := Intersect(addInput, pending), Intersect(ignoreInput, pending);
    NormalizedSet(add + ignore);
    assert Set(add + ignore) == Set(add) + Set(ignore);
    SubtractMembers(pending, add + ignore);
  }

  lemma SplitRemoves(removeInput: seq<string>, add: seq<string>, pending: seq<string>)
    requires Clean(pending) && Clean(add)
    ensures var remove := Subtract(Intersect(removeInput, pending), add);
            var remaining := Subtract(pending, remove);
            && Clean(remove) && remaining == Without(pending, Set(remove))
            && Set(pending) == Set(remove) + Set(remaining)
            && Set(remove) !! Set(remaining) && Set(add) !! Set(remove)
  {
    IntersectMembers(removeInput, pending);
    NormalizedIsClean(add);
    SubtractMembers(Intersect(removeInput, pending), add);
    var remove := Subtract(Intersect(removeInput, pending), add);
    NormalizedIsClean(remove);
    SubtractMembers(pending, remove);
  }

  /** The selection splits the pending additions into those added or ignored and those
      that remain, and the pending removals into those removed and those that remain. */
  lemma SelectionPartitionsPending(models: string, st: Settings, addInput: seq<string>, ignoreInput: seq<string>,
                                   removeInput: seq<string>, now: int)
    ensures var a := Apply(models, st, addInput, ignoreInput, removeInput, now);
            var pa, pr := Normalize(st.detected), Normalize(st.removed);
            var ignore := Intersect(ignoreInput, pa);
            && Set(pa) == Set(a.added) + Set(ignore) + Set(a.remaining)
            && Set(a.remaining) !! Set(a.added) + Set(ignore)
            && a.remaining == Without(pa, Set(a.added) + Set(ignore))
            && Set(pr) == Set(a.removed) + Set(a.remainingRemove)
            && Set(a.removed) !! Set(a.remainingRemove)
            && a.remainingRemove == Without(pr, Set(a.removed))
            && Set(a.added) !! Set(a.removed)
            && Clean(a.added) && Clean(a.removed)
  {
    var pa, pr := Normalize(st.detected), Normalize(st.removed);
    NormalizedIsClean(st.detected);
    NormalizedIsClean(st.removed);
    SplitAdds(addInput, ignoreInput, pa);
    SplitRemoves(removeInput, Intersect(addInput, pa), pr);
  }

  /** Normalising a list of names keeps its members. */
  lemma NormalizedSet(xs: seq<string>)
    requires forall x <- xs :: IsName(x)
    ensures Set(Normalize(xs)) == Set(xs)
  {
    NonBlankAreNames(xs);
    UniqMembers(xs);
  }

  /** Added names are never left ignored; every other name is ignored afterwards iff it
      was before or was selected to be. */
  lemma AddedIsNeverIgnored(models: string, st: Settings, addInput: seq<string>, ignoreInput: seq<string>,
                            removeInput: seq<string>, now: int, x: string)
    ensures var a := Apply(models, st, addInput, ignoreInput, removeInput, now);
            x in a.settings.ignored <==>
            x !in a.added && (x in Normalize(st.ignored) || x in Intersect(ignoreInput, Normalize(st.detected)))
  {
    var pa := Normalize(st.detected);
    NormalizedIsClean(st.detected);
    IntersectMembers(addInput, pa);
    IntersectMembers(ignoreInput, pa);
    var add, ignore := Intersect(addInput, pa), Intersect(ignoreInput, pa);
    NormalizedIsClean(add);
    NormalizedIsClean(ignore);
    MergeMembers(st.ignored, ignore);
    SubtractMembers(Merge(st.ignored, ignore), add);
  }

  /** The new list keeps the surviving names in order as a prefix, appends the new ones,
      has no duplicates, and the change flag is raised iff the set of models changed. */
  lemma NextModels(models: string, st: Settings, addInput: seq<string>, ignoreInput: seq<string>,
                   removeInput: seq<string>, now: int)
    ensures var a := Apply(models, st, addInput, ignoreInput, removeInput, now);
            var origin := Normalize(GetModels(models));
            var next := ApplySelected(origin, a.added, a.removed);
            && next == Without(origin, Set(a.removed)) + Without(a.added, Set(origin))
            && Clean(next)
            && (forall x :: x in next <==> x in a.added || (x in origin && x !in a.removed))
            && (a.changed <==> Set(origin) != Set(next))
            && a.models == if a.changed then Join(next) else models
  {
    var a := Apply(models, st, addInput, ignoreInput, removeInput, now);
    var origin := Normalize(GetModels(models));
    SelectionPartitionsPending(models, st, addInput, ignoreInput, removeInput, now);
    NormalizedIsClean(GetModels(models));
    ApplySelectedShape(origin, a.added, a.removed);
    UnchangedIffSameSet(origin, a.added, a.removed);
  }

  // ----- detect, apply everything, detect again

  function DetectChannel(models: string, st: Settings, upstream: seq<string>, mapping: map<string, string>,
                         matches: (string, string) -> bool): (seq<string>, seq<string>)
  {
    Detect(GetModels(models), upstream, st.ignored, mapping, matches)
  }

  /** Every pending change is applied and none is ignored. */
  function ApplyAll(models: string, st: Settings, now: int): Applied {
    Apply(models, st, Normalize(st.detected), [], Normalize(st.removed), now)
  }

  lemma EverythingIsApplied(models: string, st: Settings, now: int)
    requires Clean(st.detected) && Clean(st.removed) && Set(st.detected) !! Set(st.removed)
    ensures ApplyAll(models, st, now).added == st.detected
    ensures ApplyAll(models, st, now).removed == st.removed
    ensures Clean(ApplyAll(models, st, now).settings.ignored)
    ensures forall x :: x in ApplyAll(models, st, now).settings.ignored <==>
              x in Without(Normalize(st.ignored), Set(st.detected))
  {
    NormalizedIsClean(st.detected);
    NormalizedIsClean(st.removed);
    WithinAll(st.detected, Set(st.detected));
    WithinAll(st.removed, Set(st.removed));
    WithoutOthers(st.removed, Set(st.detected));
    NormalizedIsClean([]);
    IntersectMembers([], st.detected);
    WithoutMembers(Normalize(st.ignored), Set(st.detected));
    MergeMembers(st.ignored, []);
    SubtractMembers(Merge(st.ignored, Intersect([], st.detected)), st.detected);
    forall x ensures x in ApplyAll(models, st, now).settings.ignored <==>
                     x in Without(Normalize(st.ignored), Set(st.detected))
    {
      AddedIsNeverIgnored(models, st, st.detected, [], st.removed, now, x);
    }
  }

  /** The local list as it reads back after everything was applied. */
  lemma LocalAfter(models: string, st: Settings, now: int)
    requires Clean(st.detected) && Clean(st.removed) && Set(st.detected) !! Set(st.removed)
    ensures var local' := Normalize(GetModels(ApplyAll(models, st, now).models));
            && AllPlain(local')
            && (AllPlain(st.detected) ==>
                  forall x :: x in local' <==>
                    (x in st.detected || (x in Normalize(GetModels(models)) && x !in st.removed)))
  {
    var a := ApplyAll(models, st, now);
    EverythingIsApplied(models, st, now);
    StoredNamesArePlain(models);
    StoredNamesArePlain(a.models);
    NextModels(models, st, Normalize(st.detected), [], Normalize(st.removed), now);
    var next := ApplySelected(Normalize(GetModels(models)), st.detected, st.removed);
    if AllPlain(st.detected) && a.changed {
      assert AllPlain(next);
      StoredListRoundTrip(next);
      NormalizedIsClean(next);
    }
  }

  lemma IgnoredByMembers(a: seq<string>, b: seq<string>, x: string, matches: (string, string) -> bool)
    requires forall e :: e in a <==> e in b
    ensures IsIgnored(a, x, matches) == IsIgnored(b, x, matches)
  {
  }

  /** Names that were ignored stay ignored when the entries equal to an addition go.
      This fails only if an addition is itself a regular-expression entry. */
  ghost predicate StaysIgnored(models: string, st: Settings, upstream: seq<string>, mapping: map<string, string>,
                               matches: (string, string) -> bool)
  {
    var adds := DetectChannel(models, st, upstream, mapping, matches).0;
    forall x <- Normalize(upstream) ::
      !Covered(Normalize(GetModels(models)), mapping, x) && IsIgnored(Normalize(st.ignored), x, matches) ==>
      IsIgnored(Without(Normalize(st.ignored), Set(adds)), x, matches)
  }

  /** What the second detection finds, in terms of the first. */
  lemma SecondDetection(models: string, st: Settings, upstream: seq<string>, mapping: map<string, string>,
                        matches: (string, string) -> bool, now: int)
    ensures var (adds, removes) := DetectChannel(models, st, upstream, mapping, matches);
            var a := ApplyAll(models, st.(detected := adds, removed := removes), now);
            var (adds', removes') := DetectChannel(a.models, a.settings, upstream, mapping, matches);
            var local, local' := Normalize(GetModels(models)), Normalize(GetModels(a.models));
            var left := Without(Normalize(st.ignored), Set(adds));
            && (forall x :: x in adds' <==>
                  x in Normalize(upstream) && !Covered(local', mapping, x) && !IsIgnored(left, x, matches))
            && (forall x :: x in removes' <==> x in local' && x !in mapping && x !in Normalize(upstream))
            && (forall x <- local' :: Plain(x))
            && (AllPlain(adds) ==> forall x :: x in local' <==> x in adds || (x in local && x !in removes))
  {
    var (adds, removes) := DetectChannel(models, st, upstream, mapping, matches);
    var st1 := st.(detected := adds, removed := removes);
    var a := ApplyAll(models, st1, now);
    DetectMembers(GetModels(models), upstream, st.ignored, mapping, matches);
    DetectMembers(GetModels(a.models), upstream, a.settings.ignored, mapping, matches);
    EverythingIsApplied(models, st1, now);
    LocalAfter(models, st1, now);
    NormalizedIsClean(a.settings.ignored);
    forall x ensures IsIgnored(Normalize(a.settings.ignored), x, matches) ==
                     IsIgnored(Without(Normalize(st.ignored), Set(adds)), x, matches)
    {
      IgnoredByMembers(a.settings.ignored, Without(Normalize(st.ignored), Set(adds)), x, matches);
    }
  }

  lemma FewerEntriesIgnoreLess(ignored: seq<string>, s: set<string>, x: string, matches: (string, string) -> bool)
    requires IsIgnored(Without(ignored, s), x, matches)
    ensures IsIgnored(ignored, x, matches)
  {
    WithoutMembers(ignored, s);
  }

  lemma EmptyIffNoMember(xs: seq<string>)
    ensures xs == [] <==> forall x :: x !in xs
  {
    if xs != [] { assert xs[0] in xs; }
  }

  /** The argument on members alone: primed lists are those of the second detection. */
  lemma FixpointMembers(local: seq<string>, local': seq<string>, adds: seq<string>, adds': seq<string>,
                        removes: seq<string>, removes': seq<string>, upstream: seq<string>, ignored: seq<string>,
                        left: seq<string>, mapping: map<string, string>, matches: (string, string) -> bool)
    requires forall x :: x in adds <==> x in upstream && !Covered(local, mapping, x) && !IsIgnored(ignored, x, matches)
    requires forall x :: x in removes <==> x in local && x !in mapping && x !in upstream
    requires forall x :: x in adds' <==> x in upstream && !Covered(local', mapping, x) && !IsIgnored(left, x, matches)
    requires forall x :: x in removes' <==> x in local' && x !in mapping && x !in upstream
    requires forall x <- local' :: Plain(x)
    requires AllPlain(adds) ==> forall x :: x in local' <==> x in adds || (x in local && x !in removes)
    requires forall x :: IsIgnored(left, x, matches) ==> IsIgnored(ignored, x, matches)
    ensures adds' == [] && removes' == [] <==>
            AllPlain(adds) &&
            forall x <- upstream ::
              !Covered(local, mapping, x) && IsIgnored(ignored, x, matches) ==> IsIgnored(left, x, matches)
  {
    EmptyIffNoMember(adds');
    EmptyIffNoMember(removes');
    if !AllPlain(adds) {
      var x :| x in adds && !Plain(x);
      assert x in adds';
    }
  }

  /** Detecting again after applying all that was detected finds nothing iff no name to
      be added contains a comma and the ignored names stay ignored. */
  lemma FixpointIff(models: string, st: Settings, upstream: seq<string>, mapping: map<string, string>,
                    matches: (string, string) -> bool, now: int)
    ensures var (adds, removes) := DetectChannel(models, st, upstream, mapping, matches);
            var a := ApplyAll(models, st.(detected := adds, removed := removes), now);
            var (adds', removes') := DetectChannel(a.models, a.settings, upstream, mapping, matches);
            adds' == [] && removes' == [] <==> AllPlain(adds) && StaysIgnored(models, st, upstream, mapping, matches)
  {
    var (adds, removes) := DetectChannel(models, st, upstream, mapping, matches);
    var a := ApplyAll(models, st.(detected := adds, removed := removes), now);
    var (adds', removes') := DetectChannel(a.models, a.settings, upstream, mapping, matches);
    var ignored := Normalize(st.ignored);
    DetectMembers(GetModels(models), upstream, st.ignored, mapping, matches);
    SecondDetection(models, st, upstream, mapping, matches, now);
    forall x | IsIgnored(Without(ignored, Set(adds)), x, matches) ensures IsIgnored(ignored, x, matches) {
      FewerEntriesIgnoreLess(ignored, Set(adds), x, matches);
    }
    FixpointMembers(Normalize(GetModels(models)), Normalize(GetModels(a.models)), adds, adds', removes, removes',
                    Normalize(upstream), ignored, Without(ignored, Set(adds)), mapping, matches);
  }

  /** A condition on the upstream list alone that is enough for the second half. */
  lemma NoRegexNamesStayIgnored(models: string, st: Settings, upstream: seq<string>, mapping: map<string, string>,
                                matches: (string, string) -> bool)
    requires forall x <- Normalize(upstream) :: !(RegexPrefix <= x)
    ensures StaysIgnored(models, st, upstream, mapping, matches)
  {
    var adds := DetectChannel(models, st, upstream, mapping, matches).0;
    var ignored := Normalize(st.ignored);
    DetectMembers(GetModels(models), upstream, st.ignored, mapping, matches);
    WithoutMembers(ignored, Set(adds));
    forall x <- Normalize(upstream) | IsIgnored(ignored, x, matches)
      ensures IsIgnored(Without(ignored, Set(adds)), x, matches)
    {
      var entry :| entry in ignored && Ignores(entry, x, matches);
      if entry in adds {
        assert false;
      }
    }
  }

  // ----- the two ways a second detection does find something

  lemma SingletonIsNormal(x: string)
    requires IsName(x)
    ensures Normalize([x]) == [x] && Normalize([]) == []
  {
    NormalizedIsClean([x]);
    NormalizedIsClean([]);
  }

  /** What a second detection finds after all that the first found was applied. */
  function DetectAgain(models: string, st: Settings, upstream: seq<string>, mapping: map<string, string>,
                       matches: (string, string) -> bool, now: int): (seq<string>, seq<string>)
  {
    var (adds, removes) := DetectChannel(models, st, upstream, mapping, matches);
    var a := ApplyAll(models, st.(detected := adds, removed := removes), now);
    DetectChannel(a.models, a.settings, upstream, mapping, matches)
  }

  lemma NothingStored()
    ensures Normalize(GetModels("")) == [] && Normalize([]) == []
  {
    NormalizedIsClean([]);
  }

  lemma UncoveredIsFoundAgain(x: string, matches: (string, string) -> bool, now: int)
    requires IsName(x) && !Plain(x)
    ensures x in DetectAgain("", Settings([], [], [], now), [x], map[], matches, now).0
  {
    SingletonIsNormal(x);
    NothingStored();
    var st := Settings([], [], [], now);
    DetectMembers(GetModels(""), [x], [], map[], matches);
    SecondDetection("", st, [x], map[], matches, now);
    WithoutMembers([], Set(DetectChannel("", st, [x], map[], matches).0));
  }

  /** A name with a comma is split when it is read back, so the second detection finds it again. */
  lemma CommaIsFoundAgain(matches: (string, string) -> bool, now: int)
    ensures "a,b" in DetectAgain("", Settings([], [], [], now), ["a,b"], map[], matches, now).0
  {
    var x := "a,b";
    assert x[1] == ',' && IsName(x) && !Plain(x);
    UncoveredIsFoundAgain(x, matches, now);
  }

  /** Adding a model that is named like an ignore rule drops the rule, so an upstream name
      that only this rule ignored is found next. */
  lemma RuleIsDropped(models: string, st: Settings, upstream: seq<string>, mapping: map<string, string>,
                      matches: (string, string) -> bool, rule: string, name: string)
    requires rule in DetectChannel(models, st, upstream, mapping, matches).0
    requires name in Normalize(upstream) && !Covered(Normalize(GetModels(models)), mapping, name)
    requires rule in Normalize(st.ignored) && Ignores(rule, name, matches)
    requires forall entry <- Normalize(st.ignored) :: Ignores(entry, name, matches) ==> entry == rule
    ensures !StaysIgnored(models, st, upstream, mapping, matches)
  {
    var adds := DetectChannel(models, st, upstream, mapping, matches).0;
    WithoutMembers(Normalize(st.ignored), Set(adds));
    assert IsIgnored(Normalize(st.ignored), name, matches);
  }

  lemma PairIsNormal(x: string, y: string)
    requires IsName(x) && IsName(y) && x != y
    ensures Normalize([x, y]) == [x, y]
  {
    NormalizedIsClean([x, y]);
  }

  lemma OnlyRuleIsAdded(rule: string, name: string, matches: (string, string) -> bool, now: int)
    requires IsName(rule) && IsName(name) && rule != name
    requires !Ignores(rule, rule, matches) && Ignores(rule, name, matches)
    ensures var adds := DetectChannel("", Settings([rule], [], [], now), [rule, name], map[], matches).0;
            forall x :: x in adds <==> x == rule
  {
    PairIsNormal(rule, name);
    SingletonIsNormal(rule);
    NothingStored();
    DetectMembers(GetModels(""), [rule, name], [rule], map[], matches);
    assert rule in [rule] && rule in [rule, name];
    assert !IsIgnored([rule], rule, matches) && IsIgnored([rule], name, matches);
  }

  /** A name that was not to be added, and that no remaining entry ignores, is found next. */
  lemma FoundNext(models: string, st: Settings, upstream: seq<string>, mapping: map<string, string>,
                  matches: (string, string) -> bool, now: int, name: string)
    requires var adds := DetectChannel(models, st, upstream, mapping, matches).0;
             && AllPlain(adds) && name !in adds && name !in Normalize(GetModels(models))
             && !IsIgnored(Without(Normalize(st.ignored), Set(adds)), name, matches)
    requires name in Normalize(upstream) && name !in mapping.Values
    ensures name in DetectAgain(models, st, upstream, mapping, matches, now).0
  {
    SecondDetection(models, st, upstream, mapping, matches, now);
  }

  lemma RuleIsGone(rule: string, adds: seq<string>, name: string, matches: (string, string) -> bool)
    requires rule in adds
    ensures !IsIgnored(Without([rule], Set(adds)), name, matches)
  {
    WithoutMembers([rule], Set(adds));
  }

  lemma DroppedRuleFindsName(rule: string, name: string, matches: (string, string) -> bool, now: int)
    requires IsName(rule) && IsName(name) && rule != name && Plain(rule)
    requires !Ignores(rule, rule, matches) && Ignores(rule, name, matches)
    ensures name in DetectAgain("", Settings([rule], [], [], now), [rule, name], map[], matches, now).0
  {
    var st, upstream := Settings([rule], [], [], now), [rule, name];
    var adds := DetectChannel("", st, upstream, map[], matches).0;
    OnlyRuleIsAdded(rule, name, matches, now);
    PairIsNormal(rule, name);
    SingletonIsNormal(rule);
    NothingStored();
    RuleIsGone(rule, adds, name, matches);
    assert name in upstream;
    FoundNext("", st, upstream, map[], matches, now, name);
  }

  /** The pattern ^g matches gpt and not regex:^g, so both names are upstream, the rule regex:^g ignores the
      one and does not cover the other; once that is added, the second detection finds gpt. */
  lemma RuleIsDroppedAtInput(matches: (string, string) -> bool, now: int)
    requires matches("^g", "gpt") && !matches("^g", "regex:^g")
    ensures "gpt" in DetectAgain("", Settings(["regex:^g"], [], [], now), ["regex:^g", "gpt"], map[], matches, now).0
  {
    var rule, name := "regex:^g", "gpt";
    assert RegexPrefix <= rule && rule[|RegexPrefix|..] == "^g";
    assert TrimSpace("^g") == "^g";
    assert IsName(rule) && IsName(name) && rule[0] != name[0];
    assert Plain(rule);
    DroppedRuleFindsName(rule, name, matches, now);
  }
}
