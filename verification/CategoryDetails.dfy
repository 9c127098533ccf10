/** The category drilldown: rows arrive in pages, each page is aggregated alone and merged. The result is the
    aggregation of all rows at once, whatever the pages. */
module CategoryDetails {
  import opened Prelude

  /** A row with what the catalogue says about it. Empty texts are None; `folded` is the case-folded name. */
  datatype Row = Row(catalogCategory: Option<Text>, category: Option<Text>, section: Option<Text>,
                     product: Option<nat>, code: Option<Text>, article: Option<Text>, name: Option<Text>,
                     folded: Text, revenue: Option<real>, quantity: Option<real>)

  datatype Request = Request(category: Text, subcategory: Option<Text>)

  datatype Key = Section(section: Text) | Product(id: nat) | Source(code: Option<Text>, article: Option<Text>, folded: Text)

  datatype Label = Label(name: Text, code: Option<Text>, article: Option<Text>, product: Option<nat>)

  datatype Group = Group(title: Label, revenue: real, quantity: real)

  type Groups = map<Key, Group>

  const NO_CATEGORY: Text := -3
  const NO_SECTION: Text := -2
  const NO_NAME: Text := -1

  function Or(a: Option<Text>, b: Text): Text
  {
    if a.Some? then a.value else b
  }

  function CategoryOf(r: Row): Text { Or(r.catalogCategory, Or(r.category, NO_CATEGORY)) }

  function SectionOf(r: Row): Text { Or(r.section, NO_SECTION) }

  predicate Selected(q: Request, r: Row)
  {
    CategoryOf(r) == q.category && (q.subcategory.Some? ==> SectionOf(r) == q.subcategory.value)
  }

  function KeyOf(q: Request, r: Row): Key
  {
    if q.subcategory.None? then Section(SectionOf(r))
    else if r.product.Some? then Product(r.product.value)
    else Source(r.code, r.article, r.folded)
  }

  function LabelOf(q: Request, r: Row): Label
  {
    if q.subcategory.None? then Label(SectionOf(r), None, None, None)
    else Label(Or(r.name, Or(r.article, Or(r.code, NO_NAME))), r.code, r.article, r.product)
  }

  function Amount(v: Option<real>): real
  {
    if v.Some? then v.value else 0.0
  }

  // ---------------------------------------------------------------- one pass

  /** Totals add up; the smaller label wins, and of equal ones the earlier. */
  function Joined(a: Group, b: Group): Group
  {
    Group(if b.title.name < a.title.name then b.title else a.title, a.revenue + b.revenue, a.quantity + b.quantity)
  }

  function Single(q: Request, r: Row): Group
  {
    Group(LabelOf(q, r), Amount(r.revenue), Amount(r.quantity))
  }

  function Put(g: Groups, k: Key, v: Group): Groups
  {
    g[k := if k in g then Joined(g[k], v) else v]
  }

  function Add(g: Groups, q: Request, r: Row): Groups
  {
    if Selected(q, r) then Put(g, KeyOf(q, r), Single(q, r)) else g
  }

  function OnePass(q: Request, rows: seq<Row>): Groups
  {
    if rows == [] then map[] else Add(OnePass(q, rows[..|rows| - 1]), q, rows[|rows| - 1])
  }

  function Revenue(q: Request, rows: seq<Row>): real
  {
    if rows == [] then 0.0 else
      var r := rows[|rows| - 1];
      Revenue(q, rows[..|rows| - 1]) + if Selected(q, r) then Amount(r.revenue) else 0.0
  }

  function Quantity(q: Request, rows: seq<Row>): real
  {
    if rows == [] then 0.0 else
      var r := rows[|rows| - 1];
      Quantity(q, rows[..|rows| - 1]) + if Selected(q, r) then Amount(r.quantity) else 0.0
  }

  // ---------------------------------------------------------------- what a group is

  predicate Belongs(q: Request, r: Row, k: Key)
  {
    Selected(q, r) && KeyOf(q, r) == k
  }

  function RevenueOf(q: Request, rows: seq<Row>, k: Key): real
  {
    if rows == [] then 0.0 else
      var r := rows[|rows| - 1];
      RevenueOf(q, rows[..|rows| - 1], k) + if Belongs(q, r, k) then Amount(r.revenue) else 0.0
  }

  function QuantityOf(q: Request, rows: seq<Row>, k: Key): real
  {
    if rows == [] then 0.0 else
      var r := rows[|rows| - 1];
      QuantityOf(q, rows[..|rows| - 1], k) + if Belongs(q, r, k) then Amount(r.quantity) else 0.0
  }

  /** The label of the first of the rows with the smallest name. */
  predicate FirstSmallest(q: Request, rows: seq<Row>, k: Key, l: Label)
  {
    exists i :: 0 <= i < |rows| && Belongs(q, rows[i], k) && LabelOf(q, rows[i]) == l && Smallest(q, rows, k, i)
  }

  predicate Smallest(q: Request, rows: seq<Row>, k: Key, i: nat)
    requires i < |rows|
  {
    forall j :: 0 <= j < |rows| && Belongs(q, rows[j], k) ==>
      && LabelOf(q, rows[i]).name <= LabelOf(q, rows[j]).name
      && (j < i ==> LabelOf(q, rows[i]).name < LabelOf(q, rows[j]).name)
  }

  lemma FirstSmallestStep(q: Request, rows: seq<Row>, k: Key, l: Label)
    requires rows != []
    requires var front := rows[..|rows| - 1]; var r := rows[|rows| - 1];
      if exists i :: 0 <= i < |front| && Belongs(q, front[i], k) then
        FirstSmallest(q, front, k, l)
      else Belongs(q, r, k) && l == LabelOf(q, r)
    ensures var r := rows[|rows| - 1];
      FirstSmallest(q, rows, k, if Belongs(q, r, k) && LabelOf(q, r).name < l.name then LabelOf(q, r) else l)
  {
    var n := |rows| - 1;
    var front, r := rows[..n], rows[n];
    hide Belongs, LabelOf;
    assert forall i :: 0 <= i < n ==> front[i] == rows[i];
    if exists i :: 0 <= i < |front| && Belongs(q, front[i], k) {
      var i :| 0 <= i < n && Belongs(q, front[i], k) && LabelOf(q, front[i]) == l && Smallest(q, front, k, i);
      if Belongs(q, r, k) && LabelOf(q, r).name < l.name {
        assert Smallest(q, rows, k, n);
      } else {
        assert Smallest(q, rows, k, i);
      }
    } else {
      assert Smallest(q, rows, k, n);
    }
  }

  predicate Present(q: Request, rows: seq<Row>, k: Key)
  {
    exists i :: 0 <= i < |rows| && Belongs(q, rows[i], k)
  }

  lemma PresentStep(q: Request, rows: seq<Row>, k: Key)
    requires rows != []
    ensures Present(q, rows, k) <==> Present(q, rows[..|rows| - 1], k) || Belongs(q, rows[|rows| - 1], k)
  {
    var front := rows[..|rows| - 1];
    hide Belongs;
    assert forall i :: 0 <= i < |front| ==> front[i] == rows[i];
  }

  lemma AddIs(g: Groups, q: Request, r: Row, k: Key)
    ensures k in Add(g, q, r) <==> k in g || Belongs(q, r, k)
    ensures k in Add(g, q, r) ==>
      Add(g, q, r)[k] ==
        if !Belongs(q, r, k) then g[k] else if k in g then Joined(g[k], Single(q, r)) else Single(q, r)
  {
    hide Selected, KeyOf, Single;
  }

  /** Every group has the exact sums of its rows and the first of their smallest labels. */
  lemma {:induction false} GroupIs(q: Request, rows: seq<Row>, k: Key)
    ensures k in OnePass(q, rows) <==> Present(q, rows, k)
    ensures k in OnePass(q, rows) ==>
              && OnePass(q, rows)[k].revenue == RevenueOf(q, rows, k)
              && OnePass(q, rows)[k].quantity == QuantityOf(q, rows, k)
              && FirstSmallest(q, rows, k, OnePass(q, rows)[k].title)
    ensures k !in OnePass(q, rows) ==> RevenueOf(q, rows, k) == 0.0 && QuantityOf(q, rows, k) == 0.0
  {
    if rows != [] {
      var front, r := rows[..|rows| - 1], rows[|rows| - 1];
      GroupIs(q, front, k);
      PresentStep(q, rows, k);
      AddIs(OnePass(q, front), q, r, k);
      if k in OnePass(q, rows) {
        var before := if k in OnePass(q, front) then OnePass(q, front)[k].title else LabelOf(q, r);
        FirstSmallestStep(q, rows, k, before);
      }
      hide Belongs, LabelOf, FirstSmallest, Present, Add;
    }
  }

  // ---------------------------------------------------------------- pages

  /** The groups of a page go into those of the pages before it. */
  function Merge(a: Groups, b: Groups): Groups
  {
    map k | k in a.Keys + b.Keys :: if k in a && k in b then Joined(a[k], b[k]) else if k in a then a[k] else b[k]
  }

  lemma MergePut(a: Groups, b: Groups, k: Key, v: Group)
    ensures Merge(a, Put(b, k, v)) == Put(Merge(a, b), k, v)
  {
    var l, r := Merge(a, Put(b, k, v)), Put(Merge(a, b), k, v);
    assert l.Keys == r.Keys;
    forall j | j in l
      ensures l[j] == r[j]
    {
    }
  }

  /** Aggregating two parts and merging them is aggregating the whole. */
  lemma {:induction false} MergeIsOnePass(q: Request, x: seq<Row>, y: seq<Row>)
    ensures Merge(OnePass(q, x), OnePass(q, y)) == OnePass(q, x + y)
    ensures Revenue(q, x + y) == Revenue(q, x) + Revenue(q, y)
    ensures Quantity(q, x + y) == Quantity(q, x) + Quantity(q, y)
  {
    if y == [] {
      assert x + y == x;
      assert Merge(OnePass(q, x), map[]) == OnePass(q, x);
    } else {
      var front, r := y[..|y| - 1], y[|y| - 1];
      MergeIsOnePass(q, x, front);
      assert (x + y)[..|x + y| - 1] == x + front;
      hide Selected, KeyOf, Single, Merge, Put;
      MergePut(OnePass(q, x), OnePass(q, front), KeyOf(q, r), Single(q, r));
    }
  }

  function Flatten(pages: seq<seq<Row>>): seq<Row>
  {
    if pages == [] then [] else Flatten(pages[..|pages| - 1]) + pages[|pages| - 1]
  }

  // ---------------------------------------------------------------- the groups add up

  lemma InhabitedKeys(s: set<Key>)
    ensures (forall k :: k !in s) ==> s == {}
  {
  }

  /** The revenue or the quantity of some groups. */
  ghost function Total(g: Groups, keys: set<Key>, money: bool): real
    requires keys <= g.Keys
  {
    if keys == {} then 0.0 else
      InhabitedKeys(keys);
      var k :| k in keys;
      Total(g, keys - {k}, money) + Part(g[k], money)
  }

  function Part(g: Group, money: bool): real
  {
    if money then g.revenue else g.quantity
  }

  lemma {:induction false} TotalAdd(g: Groups, keys: set<Key>, k: Key, money: bool)
    requires keys <= g.Keys && k in g && k !in keys
    ensures Total(g, keys + {k}, money) == Total(g, keys, money) + Part(g[k], money)
    decreases keys
  {
    hide Part;
    var t := keys + {k};
    InhabitedKeys(t);
    var j :| j in t && Total(g, t, money) == Total(g, t - {j}, money) + Part(g[j], money);
    if j == k {
      assert t - {k} == keys;
    } else {
      assert t - {j} == (keys - {j}) + {k};
      TotalAdd(g, keys - {j}, k, money);
      assert keys == (keys - {j}) + {j};
      TotalAdd(g, keys - {j}, j, money);
    }
  }

  lemma {:induction false} TotalSame(g: Groups, h: Groups, keys: set<Key>, money: bool)
    requires keys <= g.Keys && keys <= h.Keys && forall k :: k in keys ==> g[k] == h[k]
    ensures Total(g, keys, money) == Total(h, keys, money)
    decreases keys
  {
    hide Part;
    if keys != {} {
      InhabitedKeys(keys);
      var k :| k in keys;
      TotalSame(g, h, keys - {k}, money);
      assert keys == (keys - {k}) + {k};
      TotalAdd(g, keys - {k}, k, money);
      TotalAdd(h, keys - {k}, k, money);
    }
  }

  lemma TotalPut(g: Groups, k: Key, v: Group, money: bool)
    ensures Total(Put(g, k, v), Put(g, k, v).Keys, money) == Total(g, g.Keys, money) + Part(v, money)
  {
    var h := Put(g, k, v);
    var others := g.Keys - {k};
    TotalSame(g, h, others, money);
    TotalAdd(h, others, k, money);
    assert h.Keys == others + {k};
    if k in g {
      TotalAdd(g, others, k, money);
      assert g.Keys == others + {k};
    } else {
      assert g.Keys == others;
    }
  }

  /** The groups account for the parent totals, to the last unit. */
  lemma {:induction false} GroupsAddUp(q: Request, rows: seq<Row>)
    ensures Total(OnePass(q, rows), OnePass(q, rows).Keys, true) == Revenue(q, rows)
    ensures Total(OnePass(q, rows), OnePass(q, rows).Keys, false) == Quantity(q, rows)
  {
    if rows != [] {
      var front, r := rows[..|rows| - 1], rows[|rows| - 1];
      GroupsAddUp(q, front);
      hide Selected, KeyOf, Put, Total;
      TotalPut(OnePass(q, front), KeyOf(q, r), Single(q, r), true);
      TotalPut(OnePass(q, front), KeyOf(q, r), Single(q, r), false);
    } else {
      assert OnePass(q, rows).Keys == {};
    }
  }

  // ---------------------------------------------------------------- the loops

  /** One page, row by row, into a dictionary of its own. */
  method AggregateDetails(q: Request, rows: seq<Row>) returns (groups: Groups, revenue: real, quantity: real)
    ensures groups == OnePass(q, rows) && revenue == Revenue(q, rows) && quantity == Quantity(q, rows)
  {
    groups, revenue, quantity := map[], 0.0, 0.0;
    assert rows[..0] == [];
    hide KeyOf, LabelOf;
    var i := 0;
    while i < |rows|
      invariant 0 <= i <= |rows|
      invariant groups == OnePass(q, rows[..i])
      invariant revenue == Revenue(q, rows[..i]) && quantity == Quantity(q, rows[..i])
    {
      var r := rows[i];
      assert rows[..i + 1][..i] == rows[..i];
      i := i + 1;
      if !Selected(q, r) {
        continue;
      }
      revenue := revenue + Amount(r.revenue);
      quantity := quantity + Amount(r.quantity);
      var key, title := KeyOf(q, r), LabelOf(q, r);
      var group := if key in groups then groups[key] else Group(title, 0.0, 0.0);
      if title.name < group.title.name {
        group := group.(title := title);
      }
      groups := groups[key := Group(group.title, group.revenue + Amount(r.revenue), group.quantity + Amount(r.quantity))];
    }
    assert rows[..i] == rows;
  }

  /** Merge one page into the groups so far, key by key. */
  method MergePage(before: Groups, part: Groups) returns (groups: Groups)
    ensures groups == Merge(before, part)
  {
    groups := before;
    var rest := part.Keys;
    while rest != {}
      invariant rest <= part.Keys && groups.Keys == before.Keys + (part.Keys - rest)
      invariant forall k :: k in groups ==> groups[k] == if k in part && k !in rest then Merge(before, part)[k] else before[k]
    {
      InhabitedKeys(rest);
      var key :| key in rest;
      var row := part[key];
      if key !in groups {
        groups := groups[key := row];
      } else {
        var existing := groups[key];
        var title := if row.title.name < existing.title.name then row.title else existing.title;
        groups := groups[key := Group(title, existing.revenue + row.revenue, existing.quantity + row.quantity)];
      }
      rest := rest - {key};
    }
    assert groups.Keys == Merge(before, part).Keys;
  }

  /** All pages: the same groups and totals as one pass over all rows. */
  method Details(q: Request, pages: seq<seq<Row>>) returns (groups: Groups, total: real, quantity: real)
    ensures groups == OnePass(q, Flatten(pages))
    ensures total == Revenue(q, Flatten(pages)) && quantity == Quantity(q, Flatten(pages))
  {
    groups, total, quantity := map[], 0.0, 0.0;
    assert pages[..0] == [];
    assert OnePass(q, []) == map[] && Revenue(q, []) == 0.0 && Quantity(q, []) == 0.0;
    hide OnePass, Revenue, Quantity, Merge;
    var i := 0;
    while i < |pages|
      invariant 0 <= i <= |pages|
      invariant groups == OnePass(q, Flatten(pages[..i]))
      invariant total == Revenue(q, Flatten(pages[..i])) && quantity == Quantity(q, Flatten(pages[..i]))
    {
      assert pages[..i + 1][..i] == pages[..i];
      var part, revenue, units := AggregateDetails(q, pages[i]);
      MergeIsOnePass(q, Flatten(pages[..i]), pages[i]);
      total := total + revenue;
      quantity := quantity + units;
      groups := MergePage(groups, part);
      i := i + 1;
    }
    assert pages[..i] == pages;
  }
}
