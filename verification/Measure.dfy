/** Memory accounting of the analytics cache: a set of object identities kept in paged bitmaps, a lazy
    traversal of an object graph that may be cyclic and shared, and the component sizes of a dataset. */
module Measure {
  import opened Prelude

  // ---------------------------------------------------------------- the object graph

  type Id = nat

  /** A `Group` is a list or a set, frozen or not. */
  datatype Content =
    | Atom
    | Dict(keys: seq<Id>, values: seq<Id>)
    | Group(items: seq<Id>)
    | Tuple(items: seq<Id>)
    | Compressed(payload: Id)

  datatype Object = Object(size: nat, content: Content)

  type Graph = map<Id, Object>

  /** The objects that a container holds on to, in the order in which they are visited. */
  function Children(c: Content): seq<Id>
  {
    match c
    case Atom => []
    case Dict(keys, values) => keys + values
    case Group(items) => items
    case Tuple(items) => items
    case Compressed(payload) => [payload]
  }

  predicate Known(g: Graph, ids: seq<Id>)
  {
    forall i :: 0 <= i < |ids| ==> ids[i] in g
  }

  predicate Complete(g: Graph)
  {
    forall x :: x in g ==> Known(g, Children(g[x].content))
  }

  /** The definition of "reachable": a path of references that starts at a root and avoids what was seen. */
  ghost predicate Path(g: Graph, roots: seq<Id>, avoid: set<Id>, p: seq<Id>)
  {
    && p != [] && p[0] in roots
    && (forall i :: 0 <= i < |p| ==> p[i] in g && p[i] !in avoid)
    && (forall i :: 0 < i < |p| ==> p[i] in Children(g[p[i - 1]].content))
  }

  ghost predicate Reached(g: Graph, roots: seq<Id>, avoid: set<Id>, x: Id)
  {
    exists p :: Path(g, roots, avoid, p) && p[|p| - 1] == x
  }

  ghost function Reach(g: Graph, roots: seq<Id>, avoid: set<Id>): set<Id>
  {
    set x | x in g && Reached(g, roots, avoid, x)
  }

  ghost function Total(g: Graph, s: set<Id>): nat
    requires s <= g.Keys
  {
    if s == {} then 0 else
      Inhabited(s);
      var x :| x in s;
      g[x].size + Total(g, s - {x})
  }

  lemma {:induction false} TotalAdd(g: Graph, s: set<Id>, x: Id)
    requires s <= g.Keys && x in g && x !in s
    ensures Total(g, s + {x}) == Total(g, s) + g[x].size
    decreases s
  {
    var t := s + {x};
    Inhabited(t);
    var y :| y in t && Total(g, t) == g[y].size + Total(g, t - {y});
    if y == x {
      assert t - {x} == s;
    } else {
      assert t - {y} == (s - {y}) + {x};
      TotalAdd(g, s - {y}, x);
      assert s == (s - {y}) + {y};
      TotalAdd(g, s - {y}, y);
    }
  }

  lemma {:induction false} TotalUnion(g: Graph, s: set<Id>, t: set<Id>)
    requires s <= g.Keys && t <= g.Keys && s !! t
    ensures Total(g, s + t) == Total(g, s) + Total(g, t)
    decreases t
  {
    if t == {} {
      assert s + t == s;
    } else {
      Inhabited(t);
      var x :| x in t;
      TotalUnion(g, s, t - {x});
      TotalAdd(g, s + (t - {x}), x);
      TotalAdd(g, t - {x}, x);
      assert s + t == s + (t - {x}) + {x};
      assert t == t - {x} + {x};
    }
  }

  lemma TotalSubset(g: Graph, s: set<Id>, t: set<Id>)
    requires s <= t <= g.Keys
    ensures Total(g, s) <= Total(g, t)
  {
    TotalUnion(g, s, t - s);
    assert s + (t - s) == t;
  }

  // ---------------------------------------------------------------- identities in paged bitmaps

  const PAGE_BYTES := 512
  const PAGE_SPAN := 32768

  predicate Aligned(id: Id)
  {
    id % 8 == 0
  }

  function Mask(bit: nat): bv8
    requires bit < 8
  {
    match bit
    case 0 => 1
    case 1 => 2
    case 2 => 4
    case 3 => 8
    case 4 => 16
    case 5 => 32
    case 6 => 64
    case _ => 128
  }

  lemma SetBit(b: bv8, j: nat, k: nat)
    requires j < 8 && k < 8
    ensures (b | Mask(j)) & Mask(k) != 0 <==> j == k || b & Mask(k) != 0
  {
  }

  lemma NoBit(k: nat)
    requires k < 8
    ensures (0 as bv8) & Mask(k) == 0
  {
  }

  function PageOf(id: Id): nat { id / PAGE_SPAN }

  function SlotOf(id: Id): nat { id % PAGE_SPAN / 8 }

  function ByteOf(id: Id): (b: nat)
    ensures b < PAGE_BYTES
  {
    SlotOf(id) / 8
  }

  function BitOf(id: Id): (b: nat)
    ensures b < 8
  {
    SlotOf(id) % 8
  }

  lemma Rebuild(x: Id)
    requires Aligned(x)
    ensures x == PageOf(x) * PAGE_SPAN + (ByteOf(x) * 8 + BitOf(x)) * 8
  {
    var r := x % PAGE_SPAN;
    assert x == PageOf(x) * PAGE_SPAN + r;
    assert r % 8 == 0 && r == SlotOf(x) * 8;
  }

  /** Two aligned identities never share a bit. */
  lemma OwnBit(x: Id, y: Id)
    requires Aligned(x) && Aligned(y)
    requires PageOf(x) == PageOf(y) && ByteOf(x) == ByteOf(y) && BitOf(x) == BitOf(y)
    ensures x == y
  {
    Rebuild(x);
    Rebuild(y);
    hide *;
  }

  lemma NewValue(m: map<nat, array<bv8>>, key: nat, value: array<bv8>)
    requires key !in m
    ensures m[key := value].Values == m.Values + {value}
  {
    var m' := m[key := value];
    assert m'[key] == value;
    forall v | v in m.Values
      ensures v in m'.Values
    {
      var k :| k in m && m[k] == v;
      assert m'[k] == v;
    }
  }

  class SeenObjects {
    var pages: map<nat, array<bv8>>
    var unaligned: set<Id>
    ghost var Contents: set<Id>

    ghost predicate Pages()
      reads this
    {
      && (forall i :: i in pages ==> pages[i].Length == PAGE_BYTES)
      && (forall i, j :: i in pages && j in pages && i != j ==> pages[i] != pages[j])
    }

    ghost predicate Marked(id: Id)
      requires Pages()
      reads this, pages.Values
    {
      if !Aligned(id) then id in unaligned
      else PageOf(id) in pages && pages[PageOf(id)][ByteOf(id)] & Mask(BitOf(id)) != 0
    }

    /** The bitmaps and the extra set together behave as the plain set `Contents`. */
    ghost predicate Valid()
      reads this, pages.Values
    {
      Pages() && forall id: Id :: id in Contents <==> Marked(id)
    }

    constructor ()
      ensures Valid() && Contents == {} && fresh(pages.Values)
    {
      pages, unaligned, Contents := map[], {}, {};
    }

    method Contains(id: Id) returns (found: bool)
      requires Valid()
      ensures found <==> id in Contents
    {
      if id % 8 != 0 {
        return id in unaligned;
      }
      var index := id / PAGE_SPAN;
      if index !in pages {
        return false;
      }
      var slot := id % PAGE_SPAN / 8;
      found := pages[index][slot / 8] & Mask(slot % 8) != 0;
    }

    method Add(id: Id)
      requires Valid()
      modifies this, pages.Values
      ensures Valid() && Contents == old(Contents) + {id}
      ensures fresh(pages.Values - old(pages.Values))
    {
      if id % 8 != 0 {
        unaligned := unaligned + {id};
        Contents := Contents + {id};
        return;
      }
      var index := id / PAGE_SPAN;
      if index !in pages {
        NewPage(index);
      }
      var slot := id % PAGE_SPAN / 8;
      SetMark(id, index, slot);
    }

    method NewPage(index: nat)
      requires Valid() && index !in pages
      modifies this`pages
      ensures Valid() && index in pages && fresh(pages[index])
      ensures pages.Values == old(pages.Values) + {pages[index]}
    {
      var page := new bv8[PAGE_BYTES](_ => 0);
      NewValue(pages, index, page);
      forall other: Id
        ensures other in Contents <==> (if Aligned(other) && PageOf(other) == index then false else old(Marked(other)))
      {
        assert other in Contents <==> old(Marked(other));
      }
      pages := pages[index := page];
      forall other: Id
        ensures other in Contents <==> Marked(other)
      {
        NoBit(BitOf(other));
      }
    }

    method SetMark(id: Id, index: nat, slot: nat)
      requires Valid() && Aligned(id) && index == PageOf(id) && slot == SlotOf(id) && index in pages
      modifies this`Contents, pages[index]
      ensures Valid() && Contents == old(Contents) + {id}
    {
      var page := pages[index];
      page[slot / 8] := page[slot / 8] | Mask(slot % 8);
      Contents := Contents + {id};
      forall other: Id
        ensures other in Contents <==> Marked(other)
      {
        assert other in old(Contents) <==> old(Marked(other));
        if Aligned(other) && PageOf(other) == index && ByteOf(other) == slot / 8 {
          SetBit(old(page[slot / 8]), slot % 8, BitOf(other));
          if BitOf(other) == slot % 8 {
            OwnBit(id, other);
          }
        }
      }
    }
  }
}
