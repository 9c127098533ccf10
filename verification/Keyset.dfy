/** Reading tables in key order by bounded batches: sales by primary key, clients by client key. */
module Keyset {
  import opened Prelude
  import opened Projection

  // ---------------------------------------------------------------- sales by primary key

  predicate Sorted(sales: seq<Sale>)
  {
    && (forall i :: 0 <= i < |sales| ==> sales[i].id > 0)
    && (forall i, j :: 0 <= i < j < |sales| ==> sales[i].id < sales[j].id)
  }

  function MaxId(sales: seq<Sale>): nat
  {
    if sales == [] then 0 else sales[|sales| - 1].id
  }

  /** How many leading rows have an id up to c. */
  function CountUpTo(sales: seq<Sale>, c: int): (n: nat)
    ensures n <= |sales|
    ensures n > 0 ==> sales[n - 1].id <= c
    ensures forall i :: n <= i < |sales| ==> sales[i].id > c
  {
    if sales == [] then 0
    else if sales[|sales| - 1].id <= c then |sales|
    else CountUpTo(sales[..|sales| - 1], c)
  }

  function UpTo(sales: seq<Sale>, c: int): seq<Sale>
  {
    sales[..CountUpTo(sales, c)]
  }

  lemma {:induction false} CutIsUnique(sales: seq<Sale>, c: int, n: nat)
    requires Sorted(sales) && n <= |sales|
    requires n > 0 ==> sales[n - 1].id <= c
    requires n < |sales| ==> sales[n].id > c
    ensures n == CountUpTo(sales, c)
  {
    var m := CountUpTo(sales, c);
    assert forall i :: 0 <= i < m ==> sales[i].id <= c;
    assert forall i :: n <= i < |sales| ==> sales[i].id > c;
  }

  /** The next batch of a scan. */
  function Window(sales: seq<Sale>, cursor: nat, upper: nat, size: nat): seq<Sale>
  {
    var low, high := CountUpTo(sales, cursor), CountUpTo(sales, upper);
    if high <= low then [] else sales[low..Min(low + size, high)]
  }

  /** Scanning the window moves the scanned prefix to the window's last row. */
  lemma {:induction false} WindowExtends(sales: seq<Sale>, cursor: nat, upper: nat, size: nat)
    requires Sorted(sales) && cursor <= upper && size > 0
    ensures var w := Window(sales, cursor, upper, size);
      if w == [] then UpTo(sales, cursor) == UpTo(sales, upper)
      else cursor < w[|w| - 1].id <= upper && UpTo(sales, w[|w| - 1].id) == UpTo(sales, cursor) + w
  {
    hide CountUpTo;
    CutOrder(sales, cursor, upper);
    if Window(sales, cursor, upper, size) != [] {
      WindowCut(sales, cursor, upper, size);
    }
  }

  lemma {:induction false} WindowCut(sales: seq<Sale>, cursor: nat, upper: nat, size: nat)
    requires Sorted(sales) && cursor <= upper && size > 0
    requires Window(sales, cursor, upper, size) != []
    ensures var w := Window(sales, cursor, upper, size);
      cursor < w[|w| - 1].id <= upper && UpTo(sales, w[|w| - 1].id) == UpTo(sales, cursor) + w
  {
    hide CountUpTo;
    var low, high := CountUpTo(sales, cursor), CountUpTo(sales, upper);
    var w := Window(sales, cursor, upper, size);
    var cut := low + |w|;
    var last := sales[cut - 1];
    assert w[|w| - 1] == last;
    assert last == sales[high - 1] || last.id < sales[high - 1].id;
    CutIsUnique(sales, last.id, cut);
    assert sales[..cut] == sales[..low] + w;
  }

  lemma {:induction false} CutOrder(sales: seq<Sale>, c: int, d: int)
    requires c <= d
    ensures CountUpTo(sales, c) <= CountUpTo(sales, d)
  {
    var n, m := CountUpTo(sales, d), CountUpTo(sales, c);
    assert forall i :: n <= i < |sales| ==> sales[i].id > d;
  }

  function Insert(sales: seq<Sale>, s: Sale): seq<Sale>
  {
    var n := CountUpTo(sales, s.id);
    sales[..n] + [s] + sales[n..]
  }

  /** A row that arrives above c changes nothing up to c. */
  lemma {:induction false} InsertAbove(sales: seq<Sale>, s: Sale, c: nat)
    requires Sorted(sales) && c < s.id && (forall i :: 0 <= i < |sales| ==> sales[i].id != s.id)
    ensures Sorted(Insert(sales, s)) && UpTo(Insert(sales, s), c) == UpTo(sales, c)
    ensures MaxId(Insert(sales, s)) == Max(MaxId(sales), s.id)
  {
    var n, m := CountUpTo(sales, s.id), CountUpTo(sales, c);
    CutOrder(sales, c, s.id);
    InsertSorted(sales, s);
    CutIsUnique(Insert(sales, s), c, m);
  }

  lemma {:induction false} InsertSorted(sales: seq<Sale>, s: Sale)
    requires Sorted(sales) && s.id > 0 && (forall i :: 0 <= i < |sales| ==> sales[i].id != s.id)
    ensures Sorted(Insert(sales, s))
  {
    var n := CountUpTo(sales, s.id);
    assert forall i :: 0 <= i < n ==> sales[i].id <= sales[n - 1].id;
  }

  lemma {:induction false} UpToMax(sales: seq<Sale>, c: nat)
    requires Sorted(sales) && MaxId(sales) <= c
    ensures UpTo(sales, c) == sales
  {
    CutIsUnique(sales, c, |sales|);
  }

  /** The rows that survive a deletion. */
  function Remove(sales: seq<Sale>, ids: set<nat>): seq<Sale>
  {
    if sales == [] then [] else
      var rest := Remove(sales[..|sales| - 1], ids);
      if sales[|sales| - 1].id in ids then rest else rest + [sales[|sales| - 1]]
  }

  lemma {:induction false} RemoveSorted(sales: seq<Sale>, ids: set<nat>)
    requires Sorted(sales)
    ensures Sorted(Remove(sales, ids)) && MaxId(Remove(sales, ids)) <= MaxId(sales)
    ensures forall s :: s in Remove(sales, ids) ==> s in sales
  {
    if sales != [] {
      var front := sales[..|sales| - 1];
      RemoveSorted(front, ids);
      assert forall s :: s in front ==> s.id < sales[|sales| - 1].id;
    }
  }

  // ---------------------------------------------------------------- clients by key

  predicate Ascending(ks: seq<Text>)
  {
    forall i, j :: 0 <= i < j < |ks| ==> ks[i] < ks[j]
  }

  function Members(ks: seq<Text>): set<Text>
  {
    set k | k in ks
  }

  /** The keys up to a cursor; no cursor is before every key. */
  function KeysUpTo(all: set<Text>, cursor: Option<Text>): set<Text>
  {
    set k | k in all && cursor.Some? && k <= cursor.value
  }

  lemma {:induction false} LeastExists(s: set<Text>)
    requires s != {}
    ensures exists m :: m in s && forall k :: k in s ==> m <= k
  {
    Inhabited(s);
    var x :| x in s;
    var rest := s - {x};
    hide *;
    assert forall k :: k in s ==> k == x || k in rest;
    if rest == {} {
      assert forall k :: k in s ==> x <= k;
    } else {
      LeastExists(rest);
      var m :| m in rest && forall k :: k in rest ==> m <= k;
      var least := if m <= x then m else x;
      assert least in s && forall k :: k in s ==> least <= k;
    }
  }

  function Least(s: set<Text>): (m: Text)
    requires s != {}
    ensures m in s && forall k :: k in s ==> m <= k
  {
    LeastExists(s);
    var m :| m in s && forall k :: k in s ==> m <= k;
    m
  }

  /** ORDER BY key LIMIT size. */
  function FirstKeys(s: set<Text>, size: nat): (ks: seq<Text>)
    ensures |ks| <= size && (size > 0 && s != {} ==> ks != [])
  {
    if size == 0 || s == {} then [] else
      var m := Least(s);
      [m] + FirstKeys(s - {m}, size - 1)
  }

  lemma {:induction false} FirstKeysIn(s: set<Text>, size: nat, k: Text)
    requires k in FirstKeys(s, size)
    ensures k in s
  {
    var m := Least(s);
    if k != m {
      FirstKeysIn(s - {m}, size - 1, k);
    }
  }

  lemma {:induction false} FirstKeysAscend(s: set<Text>, size: nat)
    ensures Ascending(FirstKeys(s, size))
  {
    if size > 0 && s != {} {
      var m := Least(s);
      var rest := FirstKeys(s - {m}, size - 1);
      FirstKeysAscend(s - {m}, size - 1);
      forall i | 0 <= i < |rest|
        ensures m < rest[i]
      {
        FirstKeysIn(s - {m}, size - 1, rest[i]);
      }
    }
  }

  /** What the limit cuts off is larger than everything that was read. */
  lemma {:induction false} FirstKeysCut(s: set<Text>, size: nat, k: Text, x: Text)
    requires k in s && k !in FirstKeys(s, size) && x in FirstKeys(s, size)
    ensures x < k
  {
    var m := Least(s);
    assert k != m;
    if x != m {
      FirstKeysCut(s - {m}, size - 1, k, x);
    }
  }

  function NextKeys(all: set<Text>, cursor: Option<Text>, size: nat): seq<Text>
  {
    FirstKeys(all - KeysUpTo(all, cursor), size)
  }

  /** What was read so far, followed by the next batch, is again everything up to the new cursor, each
      key once and in order; an empty batch means that everything was read. */
  lemma {:induction false} NextKeysExtend(all: set<Text>, done: seq<Text>, cursor: Option<Text>, size: nat)
    requires size > 0 && Ascending(done) && Members(done) == KeysUpTo(all, cursor)
    ensures var ks := NextKeys(all, cursor, size);
      && Ascending(ks) && Ascending(done + ks)
      && (if ks == [] then Members(done) == all
          else Members(done + ks) == KeysUpTo(all, Some(ks[|ks| - 1])))
  {
    var left := all - KeysUpTo(all, cursor);
    var ks := NextKeys(all, cursor, size);
    FirstKeysAscend(left, size);
    assert forall k :: k in done <==> k in Members(done);
    if ks == [] {
      assert left == {};
      assert forall k :: k in all ==> k in KeysUpTo(all, cursor) || k in left;
    } else {
      var last := ks[|ks| - 1];
      forall i, j | 0 <= i < |done| && 0 <= j < |ks|
        ensures done[i] < ks[j]
      {
        assert done[i] in Members(done);
        FirstKeysIn(left, size, ks[j]);
      }
      forall k
        ensures k in Members(done + ks) <==> k in KeysUpTo(all, Some(last))
      {
        ReadSoFar(all, done, cursor, size, k);
      }
    }
  }

  lemma {:induction false} ReadSoFar(all: set<Text>, done: seq<Text>, cursor: Option<Text>, size: nat, k: Text)
    requires Members(done) == KeysUpTo(all, cursor) && NextKeys(all, cursor, size) != []
    ensures var ks := NextKeys(all, cursor, size);
      k in done + ks <==> k in all && k <= ks[|ks| - 1]
  {
    var left := all - KeysUpTo(all, cursor);
    var ks := NextKeys(all, cursor, size);
    var last := ks[|ks| - 1];
    FirstKeysIn(left, size, last);
    FirstKeysAscend(left, size);
    if k in ks {
      FirstKeysIn(left, size, k);
    } else if k in left {
      FirstKeysCut(left, size, k, last);
    } else {
      assert k in done <==> k in Members(done);
    }
  }
}
