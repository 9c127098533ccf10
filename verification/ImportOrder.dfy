/** When the order of the rows of a file decides which sales a first import stores, and when it does not. */
module ImportOrder {
  import opened Prelude
  import opened Imports

  /** A larger amount is never printed as a smaller one. */
  ghost predicate Monotone(shown: Printer)
  {
    forall a: real, b: real :: a <= b ==> shown(a) <= shown(b)
  }

  function Whole(rows: seq<Row>): seq<Step>
  {
    if rows == [] then [] else Whole(rows[..|rows| - 1]) + [Mine(rows[|rows| - 1], false)]
  }

  /** The prints that are stored after importing a whole file without a database error. */
  function After(shown: Printer, sales: seq<Print>, rows: seq<Row>): seq<Print>
  {
    Import(shown, State(sales, NEW_BATCH), Whole(rows)).sales
  }

  function Set(prints: seq<Print>): set<Print>
  {
    set p | p in prints
  }

  predicate Reordered(a: seq<Row>, b: seq<Row>)
  {
    multiset(a) == multiset(b)
  }

  /** Every order of the rows stores the same sales. */
  ghost predicate OrderFree(shown: Printer, sales: seq<Print>, rows: seq<Row>)
  {
    forall other: seq<Row> :: Reordered(rows, other) ==> Set(After(shown, sales, other)) == Set(After(shown, sales, rows))
  }

  function Net(shown: Printer, r: Row): Print
    requires Normalises(r)
  {
    Fingerprint(shown, r)
  }

  /** The print of the amount without taking a certificate off. */
  function Gross(shown: Printer, r: Row): Print
    requires Normalises(r)
  {
    PrintOf(shown, r.document, r.document.gross.value)
  }

  predicate Unknown(shown: Printer, sales: seq<Print>, r: Row)
  {
    Normalises(r) && !Known(shown, sales, r)
  }

  function Nets(shown: Printer, sales: seq<Print>, rows: seq<Row>): set<Print>
  {
    set r | r in rows && Unknown(shown, sales, r) :: Net(shown, r)
  }

  /** Nothing that this file stores can hide the row: its gross print is its own, or nobody's. */
  predicate Unhidden(shown: Printer, sales: seq<Print>, rows: seq<Row>, r: Row)
  {
    && r in rows && Unknown(shown, sales, r)
    && (Gross(shown, r) == Net(shown, r) || Gross(shown, r) !in Nets(shown, sales, rows))
  }

  /** Every new print of the file has a row that nothing in the file can hide. */
  predicate OrderSafe(shown: Printer, sales: seq<Print>, rows: seq<Row>)
  {
    forall p :: p in Nets(shown, sales, rows) ==> exists r :: r in rows && Unhidden(shown, sales, rows, r) && Net(shown, r) == p
  }

  // ---------------------------------------------------------------- one row after the other

  lemma KnownBy(shown: Printer, sales: seq<Print>, r: Row)
    requires Normalises(r)
    ensures Known(shown, sales, r) <==> Net(shown, r) in sales || Gross(shown, r) in sales
  {
    var prints := Fingerprints(shown, r);
    assert prints[0] == Net(shown, r);
    assert |prints| == 2 ==> prints[1] == Gross(shown, r);
    assert |prints| == 1 ==> Gross(shown, r) == Net(shown, r);
  }

  lemma AfterMore(shown: Printer, sales: seq<Print>, front: seq<Row>, r: Row)
    ensures var before := After(shown, sales, front);
      After(shown, sales, front + [r]) == if Unknown(shown, before, r) then before + [Net(shown, r)] else before
  {
    assert (front + [r])[..|front|] == front;
    var s := State(sales, NEW_BATCH);
    ImportStep(shown, s, Whole(front), Mine(r, false));
    hide Import, Whole, Fingerprints, Fingerprint, Exists;
  }

  lemma AfterNone(shown: Printer, sales: seq<Print>)
    ensures After(shown, sales, []) == sales
  {
  }

  /** Nothing but prints of rows that were unknown at the start is added. */
  lemma {:induction false} AfterWithin(shown: Printer, sales: seq<Print>, rows: seq<Row>)
    ensures sales <= After(shown, sales, rows)
    ensures forall p :: p in After(shown, sales, rows) ==> p in sales || p in Nets(shown, sales, rows)
  {
    hide After, Unknown;
    if rows == [] {
      AfterNone(shown, sales);
    } else {
      var front, r := rows[..|rows| - 1], rows[|rows| - 1];
      assert rows == front + [r];
      AfterWithin(shown, sales, front);
      AfterMore(shown, sales, front, r);
      UnknownBefore(shown, sales, After(shown, sales, front), r);
      assert Nets(shown, sales, front) <= Nets(shown, sales, rows);
    }
  }

  lemma UnknownBefore(shown: Printer, sales: seq<Print>, later: seq<Print>, r: Row)
    requires sales <= later
    ensures Unknown(shown, later, r) ==> Unknown(shown, sales, r)
  {
    if Unknown(shown, later, r) && Known(shown, sales, r) {
      KnownLater(shown, sales, later, r);
    }
    hide Known;
  }

  // ---------------------------------------------------------------- when the order does not matter

  lemma SameRows(a: seq<Row>, b: seq<Row>)
    requires Reordered(a, b)
    ensures forall r :: r in a <==> r in b
  {
    forall r
      ensures r in a <==> r in b
    {
      assert r in multiset(a) <==> r in multiset(b);
    }
  }

  lemma SameNets(shown: Printer, sales: seq<Print>, a: seq<Row>, b: seq<Row>)
    requires Reordered(a, b)
    ensures Nets(shown, sales, a) == Nets(shown, sales, b)
  {
    SameRows(a, b);
    hide Unknown;
  }

  /** A row that nothing hides leaves its print stored, wherever it stands. */
  lemma {:induction false} UnhiddenIsStored(shown: Printer, sales: seq<Print>, rows: seq<Row>, order: seq<Row>, r: Row)
    requires Nets(shown, sales, order) <= Nets(shown, sales, rows) && r in order && Unhidden(shown, sales, rows, r)
    ensures Net(shown, r) in After(shown, sales, order)
  {
    hide After, Nets;
    var front, last := order[..|order| - 1], order[|order| - 1];
    assert order == front + [last];
    NetsGrow(shown, sales, front, last);
    AfterMore(shown, sales, front, last);
    if r in front {
      UnhiddenIsStored(shown, sales, rows, front, r);
    } else {
      var before := After(shown, sales, front);
      AfterWithin(shown, sales, front);
      KnownBy(shown, before, r);
      KnownBy(shown, sales, r);
      hide Known;
    }
  }

  lemma NetsGrow(shown: Printer, sales: seq<Print>, front: seq<Row>, last: Row)
    ensures Nets(shown, sales, front) <= Nets(shown, sales, front + [last])
  {
    hide Unknown;
  }

  /** Under the condition the stored sales are the old ones and every new print, in any order. */
  lemma SafeStores(shown: Printer, sales: seq<Print>, rows: seq<Row>, order: seq<Row>)
    requires OrderSafe(shown, sales, rows) && Reordered(rows, order)
    ensures Set(After(shown, sales, order)) == Set(sales) + Nets(shown, sales, rows)
  {
    SameRows(rows, order);
    SameNets(shown, sales, rows, order);
    AfterWithin(shown, sales, order);
    hide After;
    forall p | p in Nets(shown, sales, rows)
      ensures p in After(shown, sales, order)
    {
      var r :| r in rows && Unhidden(shown, sales, rows, r) && Net(shown, r) == p;
      UnhiddenIsStored(shown, sales, rows, order, r);
    }
  }

  // ---------------------------------------------------------------- when it does

  predicate Bad(shown: Printer, sales: seq<Print>, r: Row, p: Print)
  {
    Unknown(shown, sales, r) && Net(shown, r) == p
  }

  function Filter(shown: Printer, sales: seq<Print>, rows: seq<Row>, p: Print, bad: bool): seq<Row>
  {
    if rows == [] then [] else
      var front, r := Filter(shown, sales, rows[..|rows| - 1], p, bad), rows[|rows| - 1];
      if Bad(shown, sales, r, p) == bad then front + [r] else front
  }

  lemma FilterMore(shown: Printer, sales: seq<Print>, front: seq<Row>, r: Row, p: Print, bad: bool)
    ensures Filter(shown, sales, front + [r], p, bad)
         == Filter(shown, sales, front, p, bad) + if Bad(shown, sales, r, p) == bad then [r] else []
  {
    hide Bad;
    assert (front + [r])[..|front|] == front;
  }

  lemma {:induction false} FilterIs(shown: Printer, sales: seq<Print>, rows: seq<Row>, p: Print)
    ensures multiset(Filter(shown, sales, rows, p, false)) + multiset(Filter(shown, sales, rows, p, true)) == multiset(rows)
  {
    hide Bad;
    if rows != [] {
      var front, r := rows[..|rows| - 1], rows[|rows| - 1];
      assert rows == front + [r];
      FilterIs(shown, sales, front, p);
      FilterMore(shown, sales, front, r, p, false);
      FilterMore(shown, sales, front, r, p, true);
      hide Filter;
    }
  }

  lemma {:induction false} FilterHas(shown: Printer, sales: seq<Print>, rows: seq<Row>, p: Print, bad: bool, x: Row)
    ensures x in Filter(shown, sales, rows, p, bad) <==> x in rows && Bad(shown, sales, x, p) == bad
  {
    hide Bad;
    if rows != [] {
      var front, r := rows[..|rows| - 1], rows[|rows| - 1];
      assert rows == front + [r];
      FilterHas(shown, sales, front, p, bad, x);
      FilterMore(shown, sales, front, r, p, bad);
      hide Filter;
    }
  }

  /** By the amount that would be stored. */
  function Rank(shown: Printer, r: Row): int
  {
    if Normalises(r) then Net(shown, r).cents else 0
  }

  predicate Rising(shown: Printer, rows: seq<Row>)
  {
    forall i, j :: 0 <= i < j < |rows| ==> Rank(shown, rows[i]) <= Rank(shown, rows[j])
  }

  function Insert(shown: Printer, rows: seq<Row>, r: Row): seq<Row>
  {
    if rows == [] || Rank(shown, rows[|rows| - 1]) <= Rank(shown, r) then rows + [r]
    else Insert(shown, rows[..|rows| - 1], r) + [rows[|rows| - 1]]
  }

  lemma RisingMore(shown: Printer, rows: seq<Row>, r: Row)
    requires Rising(shown, rows) && forall x :: x in rows ==> Rank(shown, x) <= Rank(shown, r)
    ensures Rising(shown, rows + [r])
  {
    hide Rank;
    assert forall i :: 0 <= i < |rows| ==> rows[i] in rows;
  }

  lemma {:induction false} InsertHas(shown: Printer, rows: seq<Row>, r: Row)
    ensures multiset(Insert(shown, rows, r)) == multiset(rows) + multiset{r}
  {
    hide Rank;
    if rows != [] && Rank(shown, rows[|rows| - 1]) > Rank(shown, r) {
      InsertHas(shown, rows[..|rows| - 1], r);
      assert rows == rows[..|rows| - 1] + [rows[|rows| - 1]];
    }
  }

  lemma InsertBelow(shown: Printer, rows: seq<Row>, r: Row, top: int)
    requires Rank(shown, r) <= top && forall x :: x in rows ==> Rank(shown, x) <= top
    ensures forall x :: x in Insert(shown, rows, r) ==> Rank(shown, x) <= top
  {
    InsertHas(shown, rows, r);
    hide Rank, Insert;
    forall x | x in Insert(shown, rows, r)
      ensures Rank(shown, x) <= top
    {
      assert x in multiset(Insert(shown, rows, r));
    }
  }

  lemma RisingTop(shown: Printer, rows: seq<Row>)
    requires Rising(shown, rows) && rows != []
    ensures Rising(shown, rows[..|rows| - 1])
    ensures forall x :: x in rows ==> Rank(shown, x) <= Rank(shown, rows[|rows| - 1])
  {
    hide Rank;
  }

  lemma {:induction false} InsertIs(shown: Printer, rows: seq<Row>, r: Row)
    requires Rising(shown, rows)
    ensures Rising(shown, Insert(shown, rows, r))
  {
    hide Rank;
    if rows == [] {
      RisingMore(shown, rows, r);
    } else {
      var front, last := rows[..|rows| - 1], rows[|rows| - 1];
      RisingTop(shown, rows);
      hide Rising;
      if Rank(shown, last) > Rank(shown, r) {
        InsertIs(shown, front, r);
        InsertBelow(shown, front, r, Rank(shown, last));
        RisingMore(shown, Insert(shown, front, r), last);
      } else {
        RisingMore(shown, rows, r);
      }
    }
  }

  function Sort(shown: Printer, rows: seq<Row>): seq<Row>
  {
    if rows == [] then [] else Insert(shown, Sort(shown, rows[..|rows| - 1]), rows[|rows| - 1])
  }

  lemma {:induction false} SortIs(shown: Printer, rows: seq<Row>)
    ensures Rising(shown, Sort(shown, rows)) && Reordered(rows, Sort(shown, rows))
  {
    hide Insert, Rank;
    if rows != [] {
      var front, last := rows[..|rows| - 1], rows[|rows| - 1];
      SortIs(shown, front);
      InsertIs(shown, Sort(shown, front), last);
      InsertHas(shown, Sort(shown, front), last);
      hide Rising;
      assert multiset(rows) == multiset(front) + multiset{last} by {
        assert rows == front + [last];
      }
    }
  }

  lemma NetBelowGross(shown: Printer, r: Row)
    requires Monotone(shown) && Normalises(r)
    ensures Net(shown, r).cents <= Gross(shown, r).cents
    ensures Net(shown, r).cents == Gross(shown, r).cents ==> Net(shown, r) == Gross(shown, r)
  {
  }

  /** By rising amounts nothing is hidden: every unknown row finds its print stored after it. */
  lemma {:induction false} RisingStoresAll(shown: Printer, sales: seq<Print>, rows: seq<Row>, r: Row)
    requires Monotone(shown) && Rising(shown, rows) && r in rows && Unknown(shown, sales, r)
    ensures Net(shown, r) in After(shown, sales, rows)
  {
    var front, last := rows[..|rows| - 1], rows[|rows| - 1];
    assert rows == front + [last];
    hide After, Monotone;
    AfterMore(shown, sales, front, last);
    if r in front {
      RisingStoresAll(shown, sales, front, r);
    } else {
      var before := After(shown, sales, front);
      AfterWithin(shown, sales, front);
      KnownBy(shown, before, r);
      KnownBy(shown, sales, r);
      if Gross(shown, r) in before {
        var w :| w in front && Unknown(shown, sales, w) && Net(shown, w) == Gross(shown, r);
        NetBelowGross(shown, r);
        assert Rank(shown, w) <= Rank(shown, r);
      }
      hide Known;
    }
  }

  /** Rows that are known already can follow without adding anything. */
  lemma {:induction false} KnownRowsAddNothing(shown: Printer, sales: seq<Print>, front: seq<Row>, more: seq<Row>)
    requires forall r :: r in more ==> Known(shown, After(shown, sales, front), r)
    ensures After(shown, sales, front + more) == After(shown, sales, front)
  {
    hide After, Known;
    if more == [] {
      assert front + more == front;
    } else {
      var some, last := more[..|more| - 1], more[|more| - 1];
      KnownRowsAddNothing(shown, sales, front, some);
      AfterMore(shown, sales, front + some, last);
      assert front + more == (front + some) + [last];
    }
  }

  /** One row first, the others in their order. */
  function Promoted(rows: seq<Row>, i: nat): seq<Row>
    requires i < |rows|
  {
    [rows[i]] + (rows[..i] + rows[i + 1..])
  }

  lemma PromotedIs(rows: seq<Row>, i: nat)
    requires i < |rows|
    ensures Reordered(rows, Promoted(rows, i))
  {
    assert rows == rows[..i] + [rows[i]] + rows[i + 1..];
  }

  lemma PromotedStores(shown: Printer, sales: seq<Print>, rows: seq<Row>, i: nat)
    requires i < |rows| && Unknown(shown, sales, rows[i])
    ensures Net(shown, rows[i]) in After(shown, sales, Promoted(rows, i))
  {
    var first, rest := rows[i], rows[..i] + rows[i + 1..];
    assert Promoted(rows, i) == [first] + rest && [] + [first] == [first];
    hide After, Unknown, Promoted;
    AfterNone(shown, sales);
    AfterMore(shown, sales, [], first);
    AfterGrows(shown, sales, [first], rest);
    var after := After(shown, sales, [first] + rest);
    assert after[|sales|] == After(shown, sales, [first])[|sales|] == Net(shown, first);
  }

  lemma {:induction false} AfterGrows(shown: Printer, sales: seq<Print>, front: seq<Row>, more: seq<Row>)
    ensures After(shown, sales, front) <= After(shown, sales, front + more)
  {
    hide After, Unknown;
    if more == [] {
      assert front + more == front;
    } else {
      var some, last := more[..|more| - 1], more[|more| - 1];
      AfterGrows(shown, sales, front, some);
      AfterMore(shown, sales, front + some, last);
      assert front + more == (front + some) + [last];
    }
  }

  lemma HiddenIsKnown(shown: Printer, sales: seq<Print>, rows: seq<Row>, front: seq<Row>, p: Print, r: Row)
    requires Monotone(shown) && Rising(shown, front) && r in rows && Bad(shown, sales, r, p)
    requires !Unhidden(shown, sales, rows, r)
    requires forall w :: w in rows && !Bad(shown, sales, w, p) ==> w in front
    ensures Known(shown, After(shown, sales, front), r)
  {
    var g := Gross(shown, r);
    hide After, Monotone, Rising;
    var i := SomeRow(shown, sales, rows, g);
    RisingStoresAll(shown, sales, front, rows[i]);
    KnownBy(shown, After(shown, sales, front), r);
  }

  /** The rows of one print last, the others by rising amounts. */
  function Late(shown: Printer, sales: seq<Print>, rows: seq<Row>, p: Print): seq<Row>
  {
    Sort(shown, Filter(shown, sales, rows, p, false)) + Filter(shown, sales, rows, p, true)
  }

  lemma LateIs(shown: Printer, sales: seq<Print>, rows: seq<Row>, p: Print)
    ensures Reordered(rows, Late(shown, sales, rows, p))
  {
    var others, bads := Filter(shown, sales, rows, p, false), Filter(shown, sales, rows, p, true);
    FilterIs(shown, sales, rows, p);
    SortIs(shown, others);
    hide Sort, Filter, Rising;
    assert multiset(Sort(shown, others) + bads) == multiset(Sort(shown, others)) + multiset(bads);
  }

  lemma PartsAre(shown: Printer, sales: seq<Print>, rows: seq<Row>, p: Print)
    ensures Rising(shown, Sort(shown, Filter(shown, sales, rows, p, false)))
    ensures forall r :: r in Sort(shown, Filter(shown, sales, rows, p, false)) <==> r in rows && !Bad(shown, sales, r, p)
    ensures forall r :: r in Filter(shown, sales, rows, p, true) ==> r in rows && Bad(shown, sales, r, p)
  {
    var others, bads := Filter(shown, sales, rows, p, false), Filter(shown, sales, rows, p, true);
    SortIs(shown, others);
    SameRows(others, Sort(shown, others));
    hide *;
    forall r
      ensures r in others <==> r in rows && !Bad(shown, sales, r, p)
      ensures r in bads <==> r in rows && Bad(shown, sales, r, p)
    {
      FilterHas(shown, sales, rows, p, false, r);
      FilterHas(shown, sales, rows, p, true, r);
    }
  }

  /** No row of a print whose rows can all be hidden is new any more after the others by rising amounts. */
  lemma BadsAreKnown(shown: Printer, sales: seq<Print>, rows: seq<Row>, front: seq<Row>, bads: seq<Row>, p: Print)
    requires Monotone(shown) && Rising(shown, front)
    requires forall r :: r in rows && Unhidden(shown, sales, rows, r) ==> Net(shown, r) != p
    requires forall r :: r in front <==> r in rows && !Bad(shown, sales, r, p)
    requires forall r :: r in bads ==> r in rows && Bad(shown, sales, r, p)
    ensures After(shown, sales, front + bads) == After(shown, sales, front)
  {
    hide After, Monotone, Rising, Known;
    forall r | r in bads
      ensures Known(shown, After(shown, sales, front), r)
    {
      assert !Unhidden(shown, sales, rows, r);
      HiddenIsKnown(shown, sales, rows, front, p, r);
    }
    KnownRowsAddNothing(shown, sales, front, bads);
  }

  lemma NeverStored(shown: Printer, sales: seq<Print>, front: seq<Row>, p: Print)
    requires p !in sales && forall r :: r in front ==> !Bad(shown, sales, r, p)
    ensures p !in After(shown, sales, front)
  {
    AfterWithin(shown, sales, front);
    hide After, Unknown;
    assert p !in Nets(shown, sales, front);
  }

  lemma NetsAreNew(shown: Printer, sales: seq<Print>, rows: seq<Row>, p: Print)
    requires p in Nets(shown, sales, rows)
    ensures p !in sales
  {
    var i := SomeRow(shown, sales, rows, p);
    KnownBy(shown, sales, rows[i]);
  }

  lemma HiddenIsMissing(shown: Printer, sales: seq<Print>, rows: seq<Row>, p: Print)
    requires Monotone(shown) && p in Nets(shown, sales, rows)
    requires forall r :: r in rows && Unhidden(shown, sales, rows, r) ==> Net(shown, r) != p
    ensures p !in After(shown, sales, Late(shown, sales, rows, p))
  {
    var front, bads := Sort(shown, Filter(shown, sales, rows, p, false)), Filter(shown, sales, rows, p, true);
    assert Late(shown, sales, rows, p) == front + bads;
    hide *;
    PartsAre(shown, sales, rows, p);
    NetsAreNew(shown, sales, rows, p);
    BadsAreKnown(shown, sales, rows, front, bads, p);
    NeverStored(shown, sales, front, p);
  }

  lemma SomeRow(shown: Printer, sales: seq<Print>, rows: seq<Row>, p: Print) returns (i: nat)
    requires p in Nets(shown, sales, rows)
    ensures i < |rows| && Unknown(shown, sales, rows[i]) && Net(shown, rows[i]) == p
  {
    var r :| r in rows && Unknown(shown, sales, r) && Net(shown, r) == p;
    i :| 0 <= i < |rows| && rows[i] == r;
  }

  /** Two orders, one that stores a print and one that does not. */
  lemma Differs(shown: Printer, sales: seq<Print>, rows: seq<Row>, a: seq<Row>, b: seq<Row>, p: Print)
    requires Reordered(rows, a) && Reordered(rows, b)
    requires p in After(shown, sales, a) && p !in After(shown, sales, b)
    ensures !OrderFree(shown, sales, rows)
  {
    hide After, Reordered;
    assert p in Set(After(shown, sales, a)) && p !in Set(After(shown, sales, b));
  }

  lemma UnsafeDiffers(shown: Printer, sales: seq<Print>, rows: seq<Row>)
    requires Monotone(shown) && !OrderSafe(shown, sales, rows)
    ensures !OrderFree(shown, sales, rows)
  {
    var p := UnsafePrint(shown, sales, rows);
    hide *;
    HiddenIsMissing(shown, sales, rows, p);
    LateIs(shown, sales, rows, p);
    var i := SomeRow(shown, sales, rows, p);
    PromotedIs(rows, i);
    PromotedStores(shown, sales, rows, i);
    Differs(shown, sales, rows, Promoted(rows, i), Late(shown, sales, rows, p), p);
  }

  lemma UnsafePrint(shown: Printer, sales: seq<Print>, rows: seq<Row>) returns (p: Print)
    requires !OrderSafe(shown, sales, rows)
    ensures p in Nets(shown, sales, rows)
    ensures forall r :: r in rows && Unhidden(shown, sales, rows, r) ==> Net(shown, r) != p
  {
    p :| p in Nets(shown, sales, rows) && forall r :: r in rows && Unhidden(shown, sales, rows, r) ==> Net(shown, r) != p;
  }

  /** The order of the rows does not matter to what is stored exactly when every new print of the file has a row
      whose gross print is its own, or the print of no new row of the file. */
  lemma OrderMattersExactly(shown: Printer, sales: seq<Print>, rows: seq<Row>)
    requires Monotone(shown)
    ensures OrderFree(shown, sales, rows) <==> OrderSafe(shown, sales, rows)
  {
    if OrderSafe(shown, sales, rows) {
      forall other: seq<Row> | Reordered(rows, other)
        ensures Set(After(shown, sales, other)) == Set(After(shown, sales, rows))
      {
        SafeStores(shown, sales, rows, other);
        SafeStores(shown, sales, rows, rows);
      }
    } else {
      UnsafeDiffers(shown, sales, rows);
    }
  }
}
