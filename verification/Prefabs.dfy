/** Item definitions that build on shared ones: merging, and the walk over prefabs that refer to further prefabs. */
module Prefabs {
  import opened Prelude

  /** A text, or a section of named values. */
  datatype Value = Leaf(text: string) | Node(fields: map<string, Value>)

  const EMPTY := Node(map[])

  function Fields(v: Value): map<string, Value> { if v.Node? then v.fields else map[] }

  /** `deepMerge`: the second on top of the first; sections are merged, everything else is replaced. */
  function DeepMerge(base: Value, extra: Value): (merged: Value)
    ensures merged.Node?
    decreases extra
  {
    var left := Fields(base);
    match extra
    case Leaf(_) => Node(left)
    case Node(right) =>
      Node(map k | k in left.Keys + right.Keys ::
             if k !in right then left[k]
             else if right[k].Leaf? then right[k]
             else DeepMerge(if k in left && left[k].Node? then left[k] else EMPTY, right[k]))
  }

  // ----- What merging means, path by path -----

  datatype Found = Text(text: string) | Section | Missing

  /** What stands at a path of names. */
  function At(v: Value, path: seq<string>): Found
    decreases |path|
  {
    if path == [] then (if v.Node? then Section else Text(v.text))
    else if path[0] in Fields(v) then At(Fields(v)[path[0]], path[1..])
    else Missing
  }

  /** A text stands on the way to a path. */
  predicate CutOff(v: Value, path: seq<string>)
    decreases |path|
  {
    path != [] && (v.Leaf? || (path[0] in v.fields && CutOff(v.fields[path[0]], path[1..])))
  }

  /** What stands at a path of the merged is what the second has there; if it has nothing, and no text on the way, what the first has. */
  lemma {:induction false} MergedAt(base: Value, extra: Value, path: seq<string>)
    requires base.Node? && extra.Node?
    ensures At(DeepMerge(base, extra), path) ==
              if At(extra, path) != Missing || CutOff(extra, path) then At(extra, path) else At(base, path)
    decreases |path|
  {
    if path != [] {
      var k, rest := path[0], path[1..];
      if k in extra.fields && extra.fields[k].Node? {
        var under := if k in base.fields && base.fields[k].Node? then base.fields[k] else EMPTY;
        MergedAt(under, extra.fields[k], rest);
        if rest != [] && under == EMPTY && k in base.fields {
          assert base.fields[k].Leaf? || base.fields[k] == EMPTY;
        }
      }
    }
  }

  lemma {:induction false} OnTopOfNothing(v: Value)
    requires v.Node?
    ensures DeepMerge(EMPTY, v) == v
    decreases v
  {
    forall k | k in v.fields && v.fields[k].Node? ensures DeepMerge(EMPTY, v.fields[k]) == v.fields[k] {
      OnTopOfNothing(v.fields[k]);
    }
    assert DeepMerge(EMPTY, v).fields == v.fields;
  }

  /** Merging the same on top once more changes nothing. */
  lemma {:induction false} MergedTwice(base: Value, extra: Value)
    requires base.Node? && extra.Node?
    ensures DeepMerge(DeepMerge(base, extra), extra) == DeepMerge(base, extra)
    decreases extra
  {
    var once := DeepMerge(base, extra);
    forall k | k in extra.fields && extra.fields[k].Node?
      ensures DeepMerge(once.fields[k], extra.fields[k]) == once.fields[k]
    {
      MergedTwice(if k in base.fields && base.fields[k].Node? then base.fields[k] else EMPTY, extra.fields[k]);
    }
    assert DeepMerge(once, extra).fields == once.fields;
  }

  /** Three are the same put together from the left as from the right. */
  ghost predicate GroupsFreely(a: Value, b: Value, c: Value) {
    DeepMerge(DeepMerge(a, b), c) == DeepMerge(a, DeepMerge(b, c))
  }

  /** Nowhere does the first have a text where the second, on top of it, has a section. */
  ghost predicate NoTextUnderSection(b: Value, c: Value)
    decreases c
  {
    c.Node? ==> b.Node? && forall k :: k in b.fields && k in c.fields ==> NoTextUnderSection(b.fields[k], c.fields[k])
  }

  lemma {:induction false} MergeAssociates(a: Value, b: Value, c: Value)
    requires a.Node? && b.Node? && c.Node? && NoTextUnderSection(b, c)
    ensures GroupsFreely(a, b, c)
    decreases c, 1
  {
    var left, right := DeepMerge(DeepMerge(a, b), c), DeepMerge(a, DeepMerge(b, c));
    forall k | k in left.fields ensures left.fields[k] == right.fields[k] {
      MergeAssociatesUnder(a, b, c, k);
    }
    assert left.fields == right.fields;
  }

  lemma {:induction false} MergeAssociatesUnder(a: Value, b: Value, c: Value, k: string)
    requires a.Node? && b.Node? && c.Node? && NoTextUnderSection(b, c) && k in DeepMerge(DeepMerge(a, b), c).fields
    ensures DeepMerge(DeepMerge(a, b), c).fields[k] == DeepMerge(a, DeepMerge(b, c)).fields[k]
    decreases c, 0
  {
    if k in c.fields && c.fields[k].Node? {
      if k in b.fields {
        MergeAssociates(Under(a, k), b.fields[k], c.fields[k]);
      } else {
        OnTopOfNothing(c.fields[k]);
      }
    }
  }

  /** The section under a name, empty if there is none. */
  function Under(v: Value, k: string): Value {
    if k in Fields(v) && Fields(v)[k].Node? then Fields(v)[k] else EMPTY
  }

  lemma {:induction false} FreshName(taken: set<string>) returns (name: string)
    ensures name !in taken && forall other :: other in taken ==> |other| < |name|
  {
    if taken == {} {
      return "x";
    }
    var other :| other in taken;
    var shorter := FreshName(taken - {other});
    name := shorter + other + "x";
  }

  /** Where a text in the middle lies under a section in the last, some first one shows in which order they were merged. */
  lemma {:induction false} GroupingShows(b: Value, c: Value) returns (a: Value)
    requires b.Node? && c.Node? && !NoTextUnderSection(b, c)
    ensures a.Node? && !GroupsFreely(a, b, c)
    decreases c
  {
    var k :| k in b.fields && k in c.fields && !NoTextUnderSection(b.fields[k], c.fields[k]);
    var under;
    if b.fields[k].Leaf? {
      var name := FreshName(c.fields[k].fields.Keys);
      under := Node(map[name := Leaf("")]);
      OnTopOfNothing(c.fields[k]);
      assert name in DeepMerge(under, c.fields[k]).fields;
    } else {
      under := GroupingShows(b.fields[k], c.fields[k]);
    }
    a := Node(map[k := under]);
    assert DeepMerge(DeepMerge(a, b), c).fields[k] != DeepMerge(a, DeepMerge(b, c)).fields[k];
  }

  /** Whatever comes first, the grouping is free. */
  ghost predicate AlwaysGroupsFreely(b: Value, c: Value) {
    forall a: Value | a.Node? :: GroupsFreely(a, b, c)
  }

  lemma {:induction false} FreeWithoutText(b: Value, c: Value)
    requires b.Node? && c.Node? && NoTextUnderSection(b, c)
    ensures AlwaysGroupsFreely(b, c)
  {
    forall a: Value | a.Node? ensures GroupsFreely(a, b, c) {
      MergeAssociates(a, b, c);
    }
  }

  lemma {:induction false} NotFreeWithText(b: Value, c: Value)
    requires b.Node? && c.Node? && !NoTextUnderSection(b, c)
    ensures !AlwaysGroupsFreely(b, c)
  {
    var a := GroupingShows(b, c);
  }

  /** Grouping is free, whatever the first is, exactly if nowhere the middle has a text where the last has a section. */
  lemma {:induction false} GroupingIsFree(b: Value, c: Value)
    requires b.Node? && c.Node?
    ensures AlwaysGroupsFreely(b, c) <==> NoTextUnderSection(b, c)
  {
    if NoTextUnderSection(b, c) {
      FreeWithoutText(b, c);
    } else {
      NotFreeWithText(b, c);
    }
  }

  // ----- The walk over prefabs -----

  /** There is something under the name. */
  predicate Exists(prefabs: map<string, Value>, name: string) {
    name in prefabs && prefabs[name] != Leaf("")
  }

  /** The definition built from the named prefabs, and the names seen by then; `refs` gives the names a prefab refers to. */
  function Resolve(prefabs: map<string, Value>, refs: Value -> seq<string>, names: seq<string>, seen: set<string>): (r: (Value, set<string>))
    ensures r.0.Node? && seen <= r.1
    decreases prefabs.Keys - seen, |names|
  {
    if names == [] then (EMPTY, seen)
    else
      var (before, seenBefore) := Resolve(prefabs, refs, names[..|names| - 1], seen);
      var name := names[|names| - 1];
      if name in seenBefore || !Exists(prefabs, name) then (before, seenBefore)
      else
        assert name in prefabs.Keys - seen;
        var (under, seenUnder) := Resolve(prefabs, refs, refs(prefabs[name]), seenBefore + {name});
        (DeepMerge(DeepMerge(before, under), prefabs[name]), seenUnder)
  }

  /** The loop of `resolvePrefabs`, and its calls of itself; `seen` is shared by all of them. */
  method ResolvePrefabs(prefabs: map<string, Value>, refs: Value -> seq<string>, names: seq<string>, seen: set<string>)
    returns (merged: Value, seenAfter: set<string>)
    ensures (merged, seenAfter) == Resolve(prefabs, refs, names, seen)
    decreases prefabs.Keys - seen, |names|
  {
    merged, seenAfter := EMPTY, seen;
    for i := 0 to |names|
      invariant (merged, seenAfter) == Resolve(prefabs, refs, names[..i], seen)
    {
      var name := names[i];
      assert names[..i + 1][..i] == names[..i];
      if name in seenAfter || !Exists(prefabs, name) {
        continue;
      }
      assert name in prefabs.Keys - seen;
      var under, seenUnder := ResolvePrefabs(prefabs, refs, refs(prefabs[name]), seenAfter + {name});
      merged, seenAfter := DeepMerge(DeepMerge(merged, under), prefabs[name]), seenUnder;
    }
    assert names[..|names|] == names;
  }

  // ----- What the definition says, path by path -----

  /** The section a prefab stands for; a bare text counts as an empty one. */
  function Sections(v: Value): Value { if v.Node? then v else EMPTY }

  /** Something stands at the path, or a text on the way to it. */
  predicate Speaks(v: Value, path: seq<string>) { At(v, path) != Missing || CutOff(v, path) }

  lemma {:induction false} MergedSections(base: Value, extra: Value)
    requires base.Node?
    ensures DeepMerge(base, extra) == DeepMerge(base, Sections(extra))
  {
    assert DeepMerge(base, EMPTY).fields == base.fields;
  }

  /** A last name that was seen before, or that there is no prefab for, changes nothing. */
  lemma {:induction false} PassedOver(prefabs: map<string, Value>, refs: Value -> seq<string>, shorter: seq<string>, name: string, seen: set<string>)
    requires name in Resolve(prefabs, refs, shorter, seen).1 || name !in prefabs || prefabs[name] == Leaf("")
    ensures Resolve(prefabs, refs, shorter + [name], seen) == Resolve(prefabs, refs, shorter, seen)
  {
    assert (shorter + [name])[..|shorter|] == shorter;
  }

  /**
   * The last name wins: at every path the definition has what its prefab has; where that has nothing, nor a text on the
   * way, what the prefabs it refers to give; and where those have nothing either, what the names before give.
   */
  lemma {:induction false} LastNameWins(prefabs: map<string, Value>, refs: Value -> seq<string>, shorter: seq<string>, name: string, seen: set<string>,
                                        path: seq<string>)
    requires name in prefabs && prefabs[name] != Leaf("") && name !in Resolve(prefabs, refs, shorter, seen).1
    ensures var (before, seenBefore) := Resolve(prefabs, refs, shorter, seen);
            var (under, seenUnder) := Resolve(prefabs, refs, refs(prefabs[name]), seenBefore + {name});
            var (result, seenAfter) := Resolve(prefabs, refs, shorter + [name], seen);
            var own := Sections(prefabs[name]);
            && seenAfter == seenUnder
            && At(result, path) == if Speaks(own, path) then At(own, path) else if Speaks(under, path) then At(under, path) else At(before, path)
  {
    assert (shorter + [name])[..|shorter|] == shorter;
    var (before, seenBefore) := Resolve(prefabs, refs, shorter, seen);
    var under := Resolve(prefabs, refs, refs(prefabs[name]), seenBefore + {name}).0;
    MergedSections(DeepMerge(before, under), prefabs[name]);
    MergedAt(DeepMerge(before, under), Sections(prefabs[name]), path);
    MergedAt(before, under, path);
  }

  /** Nothing is made up: every text of the definition is the text at the same path in a prefab seen on the walk. */
  lemma {:induction false} TextsAreFromPrefabs(prefabs: map<string, Value>, refs: Value -> seq<string>, names: seq<string>, seen: set<string>, path: seq<string>)
    requires At(Resolve(prefabs, refs, names, seen).0, path).Text?
    ensures exists source ::
              && source in Resolve(prefabs, refs, names, seen).1 && source !in seen && source in prefabs
              && At(prefabs[source], path) == At(Resolve(prefabs, refs, names, seen).0, path)
    decreases prefabs.Keys - seen, |names|
  {
    if names != [] {
      var shorter, name := names[..|names| - 1], names[|names| - 1];
      assert names == shorter + [name];
      var (before, seenBefore) := Resolve(prefabs, refs, shorter, seen);
      if name in seenBefore || !Exists(prefabs, name) {
        TextsAreFromPrefabs(prefabs, refs, shorter, seen, path);
      } else {
        assert name in prefabs.Keys - seen;
        LastNameWins(prefabs, refs, shorter, name, seen, path);
        var under := Resolve(prefabs, refs, refs(prefabs[name]), seenBefore + {name});
        if Speaks(Sections(prefabs[name]), path) {
          assert name in under.1;
        } else if Speaks(under.0, path) {
          TextsAreFromPrefabs(prefabs, refs, refs(prefabs[name]), seenBefore + {name}, path);
        } else {
          TextsAreFromPrefabs(prefabs, refs, shorter, seen, path);
        }
      }
    }
  }

  // ----- Which prefabs the walk comes to -----

  /** Every prefab the names speak of is in the set. */
  ghost predicate Covers(prefabs: map<string, Value>, names: seq<string>, found: set<string>) {
    forall name :: name in names && Exists(prefabs, name) ==> name in found
  }

  /** The set holds only prefabs there are, and with each those it refers to. */
  ghost predicate Closed(prefabs: map<string, Value>, refs: Value -> seq<string>, found: set<string>, since: set<string>) {
    forall name :: name in found && name !in since ==> Exists(prefabs, name) && Covers(prefabs, refs(prefabs[name]), found)
  }

  /** The walk ends with every prefab referred to, near or far, also around circles. */
  lemma {:induction false} WalkFindsAll(prefabs: map<string, Value>, refs: Value -> seq<string>, names: seq<string>, seen: set<string>)
    ensures var found := Resolve(prefabs, refs, names, seen).1;
            Covers(prefabs, names, found) && Closed(prefabs, refs, found, seen)
    decreases prefabs.Keys - seen, |names|
  {
    if names != [] {
      var shorter, name := names[..|names| - 1], names[|names| - 1];
      WalkFindsAll(prefabs, refs, shorter, seen);
      var seenBefore := Resolve(prefabs, refs, shorter, seen).1;
      assert names == shorter + [name];
      if name !in seenBefore && Exists(prefabs, name) {
        assert name in prefabs.Keys - seen;
        WalkFindsAll(prefabs, refs, refs(prefabs[name]), seenBefore + {name});
      }
    }
  }

  /** And with no others: any closed set that has the names has all the walk finds. */
  lemma {:induction false} WalkFindsNoMore(prefabs: map<string, Value>, refs: Value -> seq<string>, names: seq<string>, seen: set<string>, closed: set<string>)
    requires Covers(prefabs, names, closed) && Closed(prefabs, refs, closed, {})
    ensures Resolve(prefabs, refs, names, seen).1 <= seen + closed
    decreases prefabs.Keys - seen, |names|
  {
    if names != [] {
      var shorter, name := names[..|names| - 1], names[|names| - 1];
      WalkFindsNoMore(prefabs, refs, shorter, seen, closed);
      var seenBefore := Resolve(prefabs, refs, shorter, seen).1;
      if name !in seenBefore && Exists(prefabs, name) {
        assert name in prefabs.Keys - seen;
        assert name in names && name in closed;
        WalkFindsNoMore(prefabs, refs, refs(prefabs[name]), seenBefore + {name}, closed);
      }
    }
  }

  /** `resolveItem`: the item on top of its prefabs. Its own texts are never overridden, at any depth. */
  lemma {:induction false} OwnTextsWin(prefabs: map<string, Value>, refs: Value -> seq<string>, item: Value, path: seq<string>)
    requires item.Node? && At(item, path).Text?
    ensures At(DeepMerge(Resolve(prefabs, refs, refs(item), {}).0, item), path) == At(item, path)
  {
    MergedAt(Resolve(prefabs, refs, refs(item), {}).0, item, path);
  }
}
