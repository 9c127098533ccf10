/** The memory of a dataset, split into components that count every shared object once. */
module Components {
  import opened Prelude
  import opened Measure
  import opened Traversal

  const PROPERTIES := 1
  const STOCKS := 2
  const PRICES := 3

  /** The heap of one dataset: its objects, the text of the string objects, and the object None. */
  datatype World = World(g: Graph, text: map<Id, Text>, none: Id)

  predicate Proper(w: World)
  {
    && Complete(w.g) && w.none in w.g && w.g[w.none].content == Atom
    && forall x :: x in w.g && w.g[x].content.Dict? ==> |w.g[x].content.keys| == |w.g[x].content.values|
  }

  predicate IsDataset(g: Graph, v: Id)
  {
    && v in g && g[v].content.Tuple? && |g[v].content.items| == 4
    && g[v].content.items[0] in g && g[g[v].content.items[0]].content.Group?
    && forall i :: 0 <= i < |RowsOf(g, v)| ==> RowsOf(g, v)[i] in g && g[RowsOf(g, v)[i]].content.Dict?
  }

  function RowsOf(g: Graph, v: Id): seq<Id>
    requires v in g && g[v].content.Tuple? && |g[v].content.items| == 4
    requires g[v].content.items[0] in g && g[g[v].content.items[0]].content.Group?
  {
    g[g[v].content.items[0]].content.items
  }

  /** The value under a key, None when the row has no such key. */
  function Get(w: World, row: Id, field: Text, from: nat): Id
    requires Proper(w) && row in w.g && w.g[row].content.Dict? && from <= |w.g[row].content.keys|
    decreases |w.g[row].content.keys| - from
  {
    var c := w.g[row].content;
    if from == |c.keys| then w.none
    else if c.keys[from] in w.text && w.text[c.keys[from]] == field then c.values[from]
    else Get(w, row, field, from + 1)
  }

  predicate Has(w: World, row: Id, field: Text)
    requires row in w.g && w.g[row].content.Dict?
  {
    exists i :: 0 <= i < |w.g[row].content.keys| && w.g[row].content.keys[i] in w.text
                && w.text[w.g[row].content.keys[i]] == field
  }

  predicate DictRows(g: Graph, rows: seq<Id>)
  {
    forall i :: 0 <= i < |rows| ==> rows[i] in g && g[rows[i]].content.Dict?
  }

  function Gets(w: World, rows: seq<Id>, field: Text): seq<Id>
    requires Proper(w) && DictRows(w.g, rows)
  {
    if rows == [] then [] else Gets(w, rows[..|rows| - 1], field) + [Get(w, rows[|rows| - 1], field, 0)]
  }

  predicate AllHave(w: World, rows: seq<Id>, field: Text)
    requires DictRows(w.g, rows)
  {
    forall i :: 0 <= i < |rows| ==> Has(w, rows[i], field)
  }

  /** Keys and values of a row, pair by pair. */
  function Pairs(keys: seq<Id>, values: seq<Id>): seq<Id>
    requires |keys| == |values|
  {
    if keys == [] then [] else
      var n := |keys| - 1;
      Pairs(keys[..n], values[..n]) + [keys[n], values[n]]
  }

  function RowItems(w: World, rows: seq<Id>): seq<Id>
    requires Proper(w) && DictRows(w.g, rows)
  {
    if rows == [] then [] else
      var n := |rows| - 1;
      RowItems(w, rows[..n]) + Pairs(w.g[rows[n]].content.keys, w.g[rows[n]].content.values)
  }

  function Sum(sizes: seq<nat>, n: nat): nat
    requires n <= |sizes|
  {
    if n == 0 then 0 else Sum(sizes, n - 1) + sizes[n - 1]
  }

  /** Everything a value holds on to, itself included. */
  ghost function Deep(g: Graph, v: Id): set<Id>
  {
    Reach(g, [v], {})
  }

  // ---------------------------------------------------------------- reachability

  ghost predicate ClosedBut(g: Graph, exempt: set<Id>, s: set<Id>)
  {
    s <= g.Keys && forall x :: x in s && x !in exempt ==> ChildrenOf(g, x) <= s
  }

  lemma {:induction false} PathStays(g: Graph, roots: seq<Id>, avoid: set<Id>, s: set<Id>, p: seq<Id>)
    requires Complete(g) && ClosedBut(g, avoid, s) && Elements(roots) <= s && Path(g, roots, avoid, p)
    ensures p[|p| - 1] in s
    decreases |p|
  {
    var n := |p| - 1;
    if n == 0 {
      assert p[0] in Elements(roots);
    } else {
      assert Path(g, roots, avoid, p[..n]);
      PathStays(g, roots, avoid, s, p[..n]);
      assert p[n] in ChildrenOf(g, p[n - 1]);
    }
  }

  /** A set that holds the roots and is closed under references holds everything reachable. */
  lemma ReachStays(g: Graph, roots: seq<Id>, avoid: set<Id>, s: set<Id>)
    requires Complete(g) && ClosedBut(g, avoid, s) && Elements(roots) <= s
    ensures Reach(g, roots, avoid) <= s
  {
    forall x | x in Reach(g, roots, avoid)
      ensures x in s
    {
      var p :| Path(g, roots, avoid, p) && p[|p| - 1] == x;
      PathStays(g, roots, avoid, s, p);
    }
  }

  /** What a traversal adds is closed: nothing it visited points outside. */
  lemma ReachCloses(g: Graph, roots: seq<Id>, exempt: set<Id>, s: set<Id>)
    requires Complete(g) && Known(g, roots) && ClosedBut(g, exempt, s)
    ensures ClosedBut(g, exempt, s + Reach(g, roots, s)) && Elements(roots) <= s + Reach(g, roots, s)
    ensures s !! Reach(g, roots, s)
  {
    var t := s + Reach(g, roots, s);
    forall x | x in t && x !in exempt
      ensures ChildrenOf(g, x) <= t
    {
      if x !in s { ChildrenReached(g, roots, s, x); }
    }
    forall x | x in Elements(roots)
      ensures x in t
    {
      if x !in s { RootReached(g, roots, s, x); }
    }
    assert s !! Reach(g, roots, s) by {
      forall x | x in Reach(g, roots, s)
        ensures x !in s
      {
        var p :| Path(g, roots, s, p) && p[|p| - 1] == x;
      }
    }
  }

  // ---------------------------------------------------------------- components

  /** `sum` bytes so far: what was counted, all of it within `bound`; only the skeleton may still have
      references that were not followed. */
  ghost predicate Gathered(g: Graph, skeleton: set<Id>, bound: set<Id>, contents: set<Id>, sum: nat)
  {
    && skeleton <= contents <= bound && ClosedBut(g, skeleton, contents) && ClosedBut(g, {}, bound)
    && sum == Total(g, contents)
  }

  lemma GatherMore(g: Graph, skeleton: set<Id>, bound: set<Id>, contents: set<Id>, sum: nat, roots: seq<Id>)
    requires Complete(g) && Gathered(g, skeleton, bound, contents, sum) && Known(g, roots) && Elements(roots) <= bound
    ensures var more := Reach(g, roots, contents);
      && Gathered(g, skeleton, bound, contents + more, sum + Total(g, more))
      && Elements(roots) <= contents + more && contents !! more
  {
    ReachCloses(g, roots, skeleton, contents);
    ReachStays(g, roots, contents, bound);
    TotalUnion(g, contents, Reach(g, roots, contents));
  }

  // ---------------------------------------------------------------- the fields of the rows

  /** The i-th key of the row is the field. */
  predicate Names(w: World, row: Id, field: Text, i: nat)
    requires row in w.g && w.g[row].content.Dict? && i < |w.g[row].content.keys|
  {
    w.g[row].content.keys[i] in w.text && w.text[w.g[row].content.keys[i]] == field
  }

  /** Either no key from here on is the field, or the value of one that is. */
  lemma {:induction false} GetIs(w: World, row: Id, field: Text, from: nat) returns (i: nat)
    requires Proper(w) && row in w.g && w.g[row].content.Dict? && from <= |w.g[row].content.keys|
    ensures from <= i <= |w.g[row].content.keys|
    ensures forall j :: from <= j < i ==> !Names(w, row, field, j)
    ensures if i == |w.g[row].content.keys| then Get(w, row, field, from) == w.none
            else Names(w, row, field, i) && Get(w, row, field, from) == w.g[row].content.values[i]
    decreases |w.g[row].content.keys| - from
  {
    i := from;
    if from < |w.g[row].content.keys| && !Names(w, row, field, from) {
      i := GetIs(w, row, field, from + 1);
    }
  }

  lemma HasIs(w: World, row: Id, field: Text)
    requires row in w.g && w.g[row].content.Dict?
    ensures Has(w, row, field) <==> exists i :: 0 <= i < |w.g[row].content.keys| && Names(w, row, field, i)
  {
    if Has(w, row, field) {
      var i :| 0 <= i < |w.g[row].content.keys| && w.g[row].content.keys[i] in w.text
               && w.text[w.g[row].content.keys[i]] == field;
      assert Names(w, row, field, i);
    }
    if i :| 0 <= i < |w.g[row].content.keys| && Names(w, row, field, i) {
      assert w.g[row].content.keys[i] in w.text && w.text[w.g[row].content.keys[i]] == field;
    }
  }

  lemma GetHeld(w: World, row: Id, field: Text)
    requires Proper(w) && row in w.g && w.g[row].content.Dict?
    ensures Has(w, row, field) ==> Get(w, row, field, 0) in ChildrenOf(w.g, row)
    ensures !Has(w, row, field) ==> Get(w, row, field, 0) == w.none
    ensures Get(w, row, field, 0) in ChildrenOf(w.g, row) + {w.none}
  {
    var c := w.g[row].content;
    HasIs(w, row, field);
    hide Has, Names;
    var i := GetIs(w, row, field, 0);
    if i < |c.keys| {
      assert c.values[i] in c.values;
      assert Get(w, row, field, 0) in Children(c);
    }
  }

  ghost function RowChildren(g: Graph, rows: seq<Id>): set<Id>
    requires DictRows(g, rows)
  {
    if rows == [] then {} else RowChildren(g, rows[..|rows| - 1]) + ChildrenOf(g, rows[|rows| - 1])
  }

  /** Looking a field up in every row yields values of the rows, and None exactly for the rows without it. */
  lemma {:induction false} GetsAre(w: World, rows: seq<Id>, field: Text)
    requires Proper(w) && DictRows(w.g, rows)
    ensures Elements(Gets(w, rows, field)) <= RowChildren(w.g, rows) + (if AllHave(w, rows, field) then {} else {w.none})
    ensures !AllHave(w, rows, field) ==> w.none in Elements(Gets(w, rows, field))
  {
    hide Proper, Has, ChildrenOf, Get;
    if rows != [] {
      var n := |rows| - 1;
      GetsAre(w, rows[..n], field);
      GetHeld(w, rows[n], field);
      assert Elements(Gets(w, rows, field)) == Elements(Gets(w, rows[..n], field)) + {Get(w, rows[n], field, 0)} by {
        ElementsAppend(Gets(w, rows[..n], field), [Get(w, rows[n], field, 0)]);
        Single(Get(w, rows[n], field, 0));
      }
      hide Elements, Gets;
      assert AllHave(w, rows, field) <==> AllHave(w, rows[..n], field) && Has(w, rows[n], field) by {
        assert rows == rows[..n] + [rows[n]];
      }
    }
  }

  lemma ElementsAppend(a: seq<Id>, b: seq<Id>)
    ensures Elements(a + b) == Elements(a) + Elements(b)
  {
    forall x | x in Elements(a) + Elements(b)
      ensures x in Elements(a + b)
    {
      assert x in a + b;
    }
  }

  lemma Single(x: Id)
    ensures Elements([x]) == {x}
  {
    assert [x][0] == x;
  }

  lemma {:induction false} PairsAre(keys: seq<Id>, values: seq<Id>)
    requires |keys| == |values|
    ensures Elements(Pairs(keys, values)) == Elements(keys + values)
  {
    if keys != [] {
      var n := |keys| - 1;
      PairsAre(keys[..n], values[..n]);
      ElementsAppend(keys, values);
      ElementsAppend(keys[..n], values[..n]);
      ElementsAppend(Pairs(keys[..n], values[..n]), [keys[n], values[n]]);
      ElementsAppend(keys[..n], [keys[n]]);
      ElementsAppend(values[..n], [values[n]]);
      assert keys == keys[..n] + [keys[n]] && values == values[..n] + [values[n]];
      assert Elements([keys[n], values[n]]) == {keys[n], values[n]} by {
        assert [keys[n], values[n]][0] == keys[n] && [keys[n], values[n]][1] == values[n];
      }
      Single(keys[n]);
      Single(values[n]);
    }
  }

  lemma {:induction false} ItemsAre(w: World, rows: seq<Id>)
    requires Proper(w) && DictRows(w.g, rows)
    ensures Elements(RowItems(w, rows)) == RowChildren(w.g, rows)
  {
    if rows != [] {
      var n := |rows| - 1;
      ItemsAre(w, rows[..n]);
      var c := w.g[rows[n]].content;
      PairsAre(c.keys, c.values);
      ElementsAppend(RowItems(w, rows[..n]), Pairs(c.keys, c.values));
      hide Elements, Pairs;
      assert ChildrenOf(w.g, rows[n]) == Elements(c.keys + c.values);
    }
  }

  lemma {:induction false} RowChildrenHold(g: Graph, rows: seq<Id>, x: Id)
    requires DictRows(g, rows) && x in Elements(rows)
    ensures ChildrenOf(g, x) <= RowChildren(g, rows)
  {
    hide ChildrenOf;
    if rows != [] {
      var n := |rows| - 1;
      if x != rows[n] {
        assert rows == rows[..n] + [rows[n]];
        assert x in rows[..n];
        RowChildrenHold(g, rows[..n], x);
      }
    }
  }

  lemma {:induction false} RowChildrenWithin(g: Graph, rows: seq<Id>, s: set<Id>)
    requires DictRows(g, rows) && ClosedBut(g, {}, s) && Elements(rows) <= s
    ensures RowChildren(g, rows) <= s
  {
    if rows != [] {
      var n := |rows| - 1;
      assert rows[n] in Elements(rows);
      assert Elements(rows[..n]) <= Elements(rows);
      RowChildrenWithin(g, rows[..n], s);
    }
  }

  // ---------------------------------------------------------------- the dataset

  predicate AllFields(w: World, rows: seq<Id>)
    requires DictRows(w.g, rows)
  {
    AllHave(w, rows, PROPERTIES) && AllHave(w, rows, STOCKS) && AllHave(w, rows, PRICES)
  }

  /** The tuple, its list and the rows themselves. */
  function Skeleton(g: Graph, v: Id): set<Id>
    requires IsDataset(g, v)
  {
    {v, g[v].content.items[0]} + Elements(RowsOf(g, v))
  }

  /** What the components add up to: the whole dataset, and None if some row lacks a nested field. */
  ghost function Accounted(w: World, v: Id): set<Id>
    requires Proper(w) && IsDataset(w.g, v)
  {
    Deep(w.g, v) + if AllFields(w, RowsOf(w.g, v)) then {} else {w.none}
  }

  lemma DeepHolds(w: World, v: Id)
    requires Proper(w) && IsDataset(w.g, v)
    ensures ClosedBut(w.g, {}, Deep(w.g, v)) && ClosedBut(w.g, {}, Accounted(w, v))
    ensures Skeleton(w.g, v) <= Deep(w.g, v) && Elements(w.g[v].content.items) <= Deep(w.g, v)
    ensures RowChildren(w.g, RowsOf(w.g, v)) <= Deep(w.g, v)
  {
    var g, deep := w.g, Deep(w.g, v);
    ReachCloses(g, [v], {}, {});
    assert {} + deep == deep;
    Single(v);
    assert v in deep;
    assert ChildrenOf(g, w.none) == {};
    var rows := g[v].content.items[0];
    assert ChildrenOf(g, v) == Elements(g[v].content.items) <= deep;
    assert rows in ChildrenOf(g, v);
    assert ChildrenOf(g, rows) == Elements(RowsOf(g, v));
    RowChildrenWithin(g, RowsOf(g, v), deep);
    hide Reach, ChildrenOf;
    assert ClosedBut(g, {}, Accounted(w, v));
  }

  /** Once the rows, the dates and the managers were followed, nothing reachable is missing. */
  lemma AllCounted(w: World, v: Id, contents: set<Id>)
    requires Proper(w) && IsDataset(w.g, v)
    requires Skeleton(w.g, v) <= contents && ClosedBut(w.g, Skeleton(w.g, v), contents)
    requires RowChildren(w.g, RowsOf(w.g, v)) <= contents && Elements(w.g[v].content.items) <= contents
    ensures Deep(w.g, v) <= contents
  {
    var g, rows := w.g, w.g[v].content.items[0];
    forall x | x in contents
      ensures ChildrenOf(g, x) <= contents
    {
      if x == v {
        assert ChildrenOf(g, v) == Elements(g[v].content.items);
      } else if x == rows {
        assert ChildrenOf(g, rows) == Elements(RowsOf(g, v));
      } else if x in Elements(RowsOf(g, v)) {
        RowChildrenHold(g, RowsOf(g, v), x);
      }
    }
    Single(v);
    ReachStays(g, [v], {}, contents);
  }

  lemma KnownWithin(g: Graph, roots: seq<Id>, s: set<Id>)
    requires Elements(roots) <= s <= g.Keys
    ensures Known(g, roots)
  {
    forall i | 0 <= i < |roots|
      ensures roots[i] in g
    {
      assert roots[i] in Elements(roots);
    }
  }

  lemma GetsWithin(w: World, v: Id, field: Text)
    requires Proper(w) && IsDataset(w.g, v) && field in {PROPERTIES, STOCKS, PRICES}
    ensures Elements(Gets(w, RowsOf(w.g, v), field)) <= Accounted(w, v) <= w.g.Keys
    ensures Known(w.g, Gets(w, RowsOf(w.g, v), field))
  {
    DeepHolds(w, v);
    GetsAre(w, RowsOf(w.g, v), field);
    hide Deep, Elements, RowChildren, Gets, AllHave;
    KnownWithin(w.g, Gets(w, RowsOf(w.g, v), field), Accounted(w, v));
  }

  /** Every list of roots lies within what is accounted for. */
  lemma RootsWithin(w: World, v: Id)
    requires Proper(w) && IsDataset(w.g, v)
    ensures DictRows(w.g, RowsOf(w.g, v))
    ensures var items := w.g[v].content.items;
      && Elements(RowItems(w, RowsOf(w.g, v))) <= Accounted(w, v) && Known(w.g, RowItems(w, RowsOf(w.g, v)))
      && Elements([items[1], items[2]]) <= Accounted(w, v) && Known(w.g, [items[1], items[2]])
      && Elements([items[3]]) <= Accounted(w, v) && Known(w.g, [items[3]])
  {
    var items := w.g[v].content.items;
    DeepHolds(w, v);
    ItemsAre(w, RowsOf(w.g, v));
    assert items[1] in Elements(items) && items[2] in Elements(items) && items[3] in Elements(items);
    hide Deep, RowChildren, RowItems;
    KnownWithin(w.g, RowItems(w, RowsOf(w.g, v)), Accounted(w, v));
  }

  /** So much was counted, all of it part of the dataset or None. */
  ghost predicate Partial(w: World, v: Id, contents: set<Id>, sum: nat)
  {
    && Proper(w) && IsDataset(w.g, v)
    && Gathered(w.g, Skeleton(w.g, v), Accounted(w, v), contents, sum)
  }

  /** Roots that a component may start from. */
  ghost predicate Rooted(w: World, v: Id, roots: seq<Id>)
  {
    Proper(w) && IsDataset(w.g, v) && Known(w.g, roots) && Elements(roots) <= Accounted(w, v)
  }

  ghost predicate Covers(contents: set<Id>, roots: seq<Id>)
  {
    Elements(roots) <= contents
  }

  ghost predicate Grown(before: set<Id>, after: set<Id>)
  {
    before <= after
  }

  /** The nested fields of the rows were followed. */
  ghost predicate FieldsCovered(w: World, v: Id, contents: set<Id>)
    requires Proper(w) && IsDataset(w.g, v)
  {
    var rows := RowsOf(w.g, v);
    && Covers(contents, Gets(w, rows, PROPERTIES)) && Covers(contents, Gets(w, rows, STOCKS))
    && Covers(contents, Gets(w, rows, PRICES))
  }

  /** Row keys and values, dates and managers were followed. */
  ghost predicate ValuesCovered(w: World, v: Id, contents: set<Id>)
    requires Proper(w) && IsDataset(w.g, v)
  {
    var items := w.g[v].content.items;
    && Covers(contents, RowItems(w, RowsOf(w.g, v))) && Covers(contents, [items[1], items[2]])
    && Covers(contents, [items[3]])
  }

  lemma Unlimited(size: nat)
    ensures Under(size, None)
  {
  }

  lemma ComponentEnds(w: World, v: Id, before: set<Id>, after: set<Id>, sum: nat, roots: seq<Id>)
    requires Proper(w) && IsDataset(w.g, v) && Gathered(w.g, Skeleton(w.g, v), Accounted(w, v), after, sum)
    requires before <= after && Elements(roots) <= after
    ensures Partial(w, v, after, sum) && Grown(before, after) && Covers(after, roots)
  {
    hide Gathered, Skeleton, Accounted, Elements;
  }

  method Component(w: World, v: Id, roots: seq<Id>, seen: SeenObjects, ghost sum: nat) returns (size: nat)
    requires Rooted(w, v, roots) && seen.Valid() && Partial(w, v, seen.Contents, sum)
    modifies seen, seen.pages.Values
    ensures seen.Valid() && fresh(seen.pages.Values - old(seen.pages.Values))
    ensures Partial(w, v, seen.Contents, sum + size)
    ensures Grown(old(seen.Contents), seen.Contents) && Covers(seen.Contents, roots)
  {
    ghost var before := seen.Contents;
    GatherMore(w.g, Skeleton(w.g, v), Accounted(w, v), before, sum, roots);
    assert Complete(w.g) && Known(w.g, roots);
    hide *;
    size := MeasureFrom(w.g, roots, None, seen);
    Unlimited(size);
    assert seen.Contents == before + (seen.Contents - before);
    ComponentEnds(w, v, before, seen.Contents, sum + size, roots);
  }

  lemma FieldRoots(w: World, v: Id)
    requires Proper(w) && IsDataset(w.g, v)
    ensures var rows := RowsOf(w.g, v);
      && Rooted(w, v, Gets(w, rows, PROPERTIES)) && Rooted(w, v, Gets(w, rows, STOCKS))
      && Rooted(w, v, Gets(w, rows, PRICES))
  {
    GetsWithin(w, v, PROPERTIES);
    GetsWithin(w, v, STOCKS);
    GetsWithin(w, v, PRICES);
    hide Gets, Elements, Known, Deep, AllFields, RowsOf;
  }

  lemma ValueRoots(w: World, v: Id)
    requires Proper(w) && IsDataset(w.g, v)
    ensures var items := w.g[v].content.items;
      && Rooted(w, v, RowItems(w, RowsOf(w.g, v))) && Rooted(w, v, [items[1], items[2]]) && Rooted(w, v, [items[3]])
  {
    RootsWithin(w, v);
    hide RowItems, Elements, Known, Deep, AllFields, RowsOf;
  }

  /** Two traversals one after the other. */
  method Both(w: World, v: Id, first: seq<Id>, second: seq<Id>, seen: SeenObjects, ghost sum: nat)
      returns (size1: nat, size2: nat)
    requires Rooted(w, v, first) && Rooted(w, v, second) && seen.Valid() && Partial(w, v, seen.Contents, sum)
    modifies seen, seen.pages.Values
    ensures seen.Valid() && fresh(seen.pages.Values - old(seen.pages.Values))
    ensures Partial(w, v, seen.Contents, sum + size1 + size2)
    ensures Grown(old(seen.Contents), seen.Contents)
    ensures Covers(seen.Contents, first) && Covers(seen.Contents, second)
  {
    ghost var start := seen.Contents;
    hide *;
    size1 := Component(w, v, first, seen, sum);
    ghost var middle := seen.Contents;
    size2 := Component(w, v, second, seen, sum + size1);
    StillCovers(middle, seen.Contents, first);
    GrownTwice(start, middle, seen.Contents);
  }

  /** The three nested fields. */
  method FieldComponents(w: World, v: Id, seen: SeenObjects, ghost sum: nat)
      returns (properties: nat, stocks: nat, prices: nat)
    requires seen.Valid() && Partial(w, v, seen.Contents, sum)
    modifies seen, seen.pages.Values
    ensures seen.Valid() && fresh(seen.pages.Values - old(seen.pages.Values))
    ensures Partial(w, v, seen.Contents, sum + properties + stocks + prices)
    ensures FieldsCovered(w, v, seen.Contents)
  {
    FieldRoots(w, v);
    var rows := RowsOf(w.g, v);
    var roots1, roots2, roots3 := Gets(w, rows, PROPERTIES), Gets(w, rows, STOCKS), Gets(w, rows, PRICES);
    hide *;
    properties, stocks := Both(w, v, roots1, roots2, seen, sum);
    ghost var middle := seen.Contents;
    prices := Component(w, v, roots3, seen, sum + properties + stocks);
    StillCovers(middle, seen.Contents, roots1);
    StillCovers(middle, seen.Contents, roots2);
    FieldsDone(w, v, seen.Contents);
  }

  lemma FieldsDone(w: World, v: Id, contents: set<Id>)
    requires Proper(w) && IsDataset(w.g, v)
    requires var rows := RowsOf(w.g, v);
      && Covers(contents, Gets(w, rows, PROPERTIES)) && Covers(contents, Gets(w, rows, STOCKS))
      && Covers(contents, Gets(w, rows, PRICES))
    ensures FieldsCovered(w, v, contents)
  {
    hide Covers, Gets;
  }

  lemma ValuesDone(w: World, v: Id, contents: set<Id>)
    requires Proper(w) && IsDataset(w.g, v)
    requires var items := w.g[v].content.items;
      && Covers(contents, RowItems(w, RowsOf(w.g, v))) && Covers(contents, [items[1], items[2]])
      && Covers(contents, [items[3]])
    ensures ValuesCovered(w, v, contents)
  {
    hide Covers, RowItems;
  }

  lemma StillCovers(before: set<Id>, after: set<Id>, roots: seq<Id>)
    requires Covers(before, roots) && Grown(before, after)
    ensures Covers(after, roots)
  {
  }

  /** Row keys and values, dates, managers. */
  method ValueComponents(w: World, v: Id, seen: SeenObjects, ghost sum: nat)
      returns (values: nat, dates: nat, managers: nat)
    requires seen.Valid() && Partial(w, v, seen.Contents, sum)
    modifies seen, seen.pages.Values
    ensures seen.Valid() && fresh(seen.pages.Values - old(seen.pages.Values))
    ensures Partial(w, v, seen.Contents, sum + values + dates + managers)
    ensures Grown(old(seen.Contents), seen.Contents) && ValuesCovered(w, v, seen.Contents)
  {
    ghost var start := seen.Contents;
    ValueRoots(w, v);
    var items := w.g[v].content.items;
    var rowRoots, dateRoots, managerRoots := RowItems(w, RowsOf(w.g, v)), [items[1], items[2]], [items[3]];
    hide *;
    values, dates := Both(w, v, rowRoots, dateRoots, seen, sum);
    ghost var middle := seen.Contents;
    managers := Component(w, v, managerRoots, seen, sum + values + dates);
    StillCovers(middle, seen.Contents, rowRoots);
    StillCovers(middle, seen.Contents, dateRoots);
    GrownTwice(start, middle, seen.Contents);
    ValuesDone(w, v, seen.Contents);
  }

  lemma GrownTwice(a: set<Id>, b: set<Id>, c: set<Id>)
    requires Grown(a, b) && Grown(b, c)
    ensures Grown(a, c)
  {
  }

  lemma Finished(w: World, v: Id, contents: set<Id>, sum: nat)
    requires Partial(w, v, contents, sum)
    requires FieldsCovered(w, v, contents) && ValuesCovered(w, v, contents)
    ensures Accounted(w, v) <= w.g.Keys && sum == Total(w.g, Accounted(w, v))
  {
    var rows := RowsOf(w.g, v);
    ItemsAre(w, rows);
    ItemsCounted(w.g[v].content.items, contents);
    AllCounted(w, v, contents);
    if !AllFields(w, rows) {
      NoneCounted(w, rows);
    }
    hide Deep, Elements, RowChildren, Gets, AllHave, ClosedBut, AllFields, RowItems;
    assert contents == Accounted(w, v);
  }

  lemma NoneCounted(w: World, rows: seq<Id>)
    requires Proper(w) && DictRows(w.g, rows) && !AllFields(w, rows)
    ensures || w.none in Elements(Gets(w, rows, PROPERTIES)) || w.none in Elements(Gets(w, rows, STOCKS))
            || w.none in Elements(Gets(w, rows, PRICES))
  {
    GetsAre(w, rows, PROPERTIES);
    GetsAre(w, rows, STOCKS);
    GetsAre(w, rows, PRICES);
    hide Gets, Elements, AllHave;
  }

  lemma ItemsCounted(items: seq<Id>, contents: set<Id>)
    requires |items| == 4 && items[0] in contents
    requires Elements([items[1], items[2]]) <= contents && Elements([items[3]]) <= contents
    ensures Elements(items) <= contents
  {
    assert items == [items[0]] + ([items[1], items[2]] + [items[3]]);
    ElementsAppend([items[0]], [items[1], items[2]] + [items[3]]);
    ElementsAppend([items[1], items[2]], [items[3]]);
    Single(items[0]);
    hide Elements;
  }

  lemma SumSeven(a: nat, b: nat, c: nat, d: nat, e: nat, f: nat, h: nat)
    ensures Sum([a, b, c, d, e, f, h], 7) == a + b + c + d + e + f + h
  {
    var s: seq<nat> := [a, b, c, d, e, f, h];
    assert Sum(s, 1) == Sum(s, 0) + a;
    assert Sum(s, 2) == Sum(s, 1) + b;
    assert Sum(s, 3) == Sum(s, 2) + c;
    assert Sum(s, 4) == Sum(s, 3) + d;
    assert Sum(s, 5) == Sum(s, 4) + e;
    assert Sum(s, 6) == Sum(s, 5) + f;
  }

  /** The components add up to the deep size exactly when every row has its three nested fields, or None is
      part of the dataset anyway. */
  lemma ExactWhen(w: World, v: Id)
    requires Proper(w) && IsDataset(w.g, v) && w.g[w.none].size > 0
    ensures Deep(w.g, v) <= w.g.Keys && Accounted(w, v) <= w.g.Keys
    ensures Total(w.g, Accounted(w, v)) == Total(w.g, Deep(w.g, v))
            <==> AllFields(w, RowsOf(w.g, v)) || w.none in Deep(w.g, v)
  {
    DeepHolds(w, v);
    hide Deep, AllFields;
    var deep := Deep(w.g, v);
    if AllFields(w, RowsOf(w.g, v)) {
      assert Accounted(w, v) == deep;
    } else if w.none in deep {
      assert Accounted(w, v) == deep;
    } else {
      TotalAdd(w.g, deep, w.none);
    }
  }

  /** One row without any field: the components exceed the deep size by the size of None. */
  lemma MissingField()
    ensures var w := World(map[0 := Object(16, Atom), 1 := Object(88, Tuple([2, 3, 3, 4])),
                               2 := Object(64, Group([5])), 3 := Object(32, Atom), 4 := Object(48, Atom),
                               5 := Object(64, Dict([], []))], map[], 0);
      && Proper(w) && IsDataset(w.g, 1) && Deep(w.g, 1) <= w.g.Keys && Accounted(w, 1) <= w.g.Keys
      && Total(w.g, Accounted(w, 1)) != Total(w.g, Deep(w.g, 1))
  {
    var w := World(map[0 := Object(16, Atom), 1 := Object(88, Tuple([2, 3, 3, 4])),
                       2 := Object(64, Group([5])), 3 := Object(32, Atom), 4 := Object(48, Atom),
                       5 := Object(64, Dict([], []))], map[], 0);
    assert RowsOf(w.g, 1) == [5];
    assert !Has(w, 5, PROPERTIES);
    assert !AllHave(w, [5], PROPERTIES) by { assert [5][0] == 5; }
    Single(1);
    ReachStays(w.g, [1], {}, {1, 2, 3, 4, 5});
    ExactWhen(w, 1);
  }

  /** The bytes of the containers: each row once, however often it is listed. */
  method Containers(g: Graph, v: Id, seen: SeenObjects) returns (containers: nat)
    requires IsDataset(g, v) && seen.Valid() && seen.Contents == {}
    modifies seen, seen.pages.Values
    ensures seen.Valid() && fresh(seen.pages.Values - old(seen.pages.Values))
    ensures seen.Contents == Skeleton(g, v) && Skeleton(g, v) <= g.Keys && containers == Total(g, Skeleton(g, v))
  {
    var list := g[v].content.items[0];
    var rows := RowsOf(g, v);
    seen.Add(v);
    seen.Add(list);
    containers := g[v].size + g[list].size;
    FirstTwo(g, v);
    assert seen.Contents == {v} + {list};
    var i := 0;
    hide *;
    while i < |rows|
      invariant 0 <= i <= |rows|
      invariant seen.Valid() && fresh(seen.pages.Values - old(seen.pages.Values))
      invariant RowsCounted(g, v, seen.Contents, i, containers)
    {
      var known := seen.Contains(rows[i]);
      NextRow(g, v, seen.Contents, i, containers);
      if !known {
        containers := containers + g[rows[i]].size;
        seen.Add(rows[i]);
      }
      i := i + 1;
    }
    assert i == |rows|;
    RowsDone(g, v, seen.Contents, containers);
  }

  ghost predicate RowsCounted(g: Graph, v: Id, contents: set<Id>, i: nat, sum: nat)
    requires IsDataset(g, v)
  {
    && i <= |RowsOf(g, v)|
    && contents == {v, g[v].content.items[0]} + Elements(RowsOf(g, v)[..i])
    && contents <= g.Keys && sum == Total(g, contents)
  }

  lemma RowsDone(g: Graph, v: Id, contents: set<Id>, sum: nat)
    requires IsDataset(g, v) && RowsCounted(g, v, contents, |RowsOf(g, v)|, sum)
    ensures contents == Skeleton(g, v) && contents <= g.Keys && sum == Total(g, contents)
  {
    assert RowsOf(g, v)[..|RowsOf(g, v)|] == RowsOf(g, v);
  }

  lemma FirstTwo(g: Graph, v: Id)
    requires IsDataset(g, v)
    ensures var list := g[v].content.items[0]; RowsCounted(g, v, {v} + {list}, 0, g[v].size + g[list].size)
  {
    var list := g[v].content.items[0];
    TotalAdd(g, {}, v);
    TotalAdd(g, {v}, list);
    assert {} + {v} == {v} && Total(g, {}) == 0;
    assert RowsOf(g, v)[..0] == [] && Elements([]) == {};
  }

  lemma NextRow(g: Graph, v: Id, contents: set<Id>, i: nat, sum: nat)
    requires IsDataset(g, v) && i < |RowsOf(g, v)| && RowsCounted(g, v, contents, i, sum)
    ensures var row := RowsOf(g, v)[i];
      && row in g
      && RowsCounted(g, v, contents + {row}, i + 1, if row in contents then sum else sum + g[row].size)
      && (row in contents ==> RowsCounted(g, v, contents, i + 1, sum))
  {
    var row := RowsOf(g, v)[i];
    RowAdded(RowsOf(g, v), i);
    hide Elements;
    if row in contents {
      assert contents + {row} == contents;
    } else {
      TotalAdd(g, contents, row);
    }
  }

  lemma RowAdded(rows: seq<Id>, i: nat)
    requires i < |rows|
    ensures Elements(rows[..i + 1]) == Elements(rows[..i]) + {rows[i]}
  {
    assert rows[..i + 1] == rows[..i] + [rows[i]];
    ElementsAppend(rows[..i], [rows[i]]);
    Single(rows[i]);
  }

  /** Containers first, then the nested fields, then everything else. */
  method Profile(w: World, v: Id) returns (containers: nat, properties: nat, stocks: nat, prices: nat,
                                           values: nat, dates: nat, managers: nat)
    requires Proper(w) && IsDataset(w.g, v)
    ensures Accounted(w, v) <= w.g.Keys
    ensures containers + properties + stocks + prices + values + dates + managers == Total(w.g, Accounted(w, v))
  {
    var seen := new SeenObjects();
    containers := Containers(w.g, v, seen);
    BeginPartial(w, v);
    hide *;
    properties, stocks, prices := FieldComponents(w, v, seen, containers);
    ghost var middle := seen.Contents;
    values, dates, managers := ValueComponents(w, v, seen, containers + properties + stocks + prices);
    FieldsStay(w, v, middle, seen.Contents);
    Finished(w, v, seen.Contents, containers + properties + stocks + prices + values + dates + managers);
  }

  lemma BeginPartial(w: World, v: Id)
    requires Proper(w) && IsDataset(w.g, v)
    ensures Skeleton(w.g, v) <= w.g.Keys && Partial(w, v, Skeleton(w.g, v), Total(w.g, Skeleton(w.g, v)))
  {
    DeepHolds(w, v);
    hide Deep, AllFields;
  }

  /** The component sizes, in the order row containers, properties, stocks, prices, row values, dates,
      managers: they add up to the whole dataset, plus None if some row lacks one of the nested fields. */
  method MemoryComponents(w: World, v: Id) returns (sizes: seq<nat>)
    requires Proper(w) && v in w.g
    ensures !IsDataset(w.g, v) ==> sizes == []
    ensures IsDataset(w.g, v) ==>
              |sizes| == 7 && Accounted(w, v) <= w.g.Keys && Sum(sizes, 7) == Total(w.g, Accounted(w, v))
  {
    if !IsDataset(w.g, v) {
      return [];
    }
    var containers, properties, stocks, prices, values, dates, managers := Profile(w, v);
    sizes := [containers, properties, stocks, prices, values, dates, managers];
    hide *;
    SumSeven(containers, properties, stocks, prices, values, dates, managers);
  }

  lemma FieldsStay(w: World, v: Id, before: set<Id>, after: set<Id>)
    requires Proper(w) && IsDataset(w.g, v) && FieldsCovered(w, v, before) && Grown(before, after)
    ensures FieldsCovered(w, v, after)
  {
    hide Gets, Elements;
  }

  /** The size of one value: exact within the limit, a lower bound beyond it. */
  method BoundedSize(g: Graph, v: Id, limit: Option<nat>) returns (size: nat)
    requires Complete(g) && v in g
    ensures Deep(g, v) <= g.Keys
    ensures Under(size, limit) ==> size == Total(g, Deep(g, v))
    ensures !Under(size, limit) ==> limit.value < size <= Total(g, Deep(g, v))
  {
    var seen := new SeenObjects();
    size := MeasureFrom(g, [v], limit, seen);
    assert seen.Contents - {} == seen.Contents;
    TotalSubset(g, seen.Contents, Deep(g, v));
    hide Reach;
  }
}
