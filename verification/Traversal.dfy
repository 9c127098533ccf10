/** The lazy traversal that adds up object sizes, and the component sizes of a dataset. */
module Traversal {
  import opened Prelude
  import opened Measure

  // ---------------------------------------------------------------- what the traversal keeps

  function Elements(s: seq<Id>): set<Id>
  {
    set i | 0 <= i < |s| :: s[i]
  }

  /** What the iterators on the stack still have to yield. */
  function Pending(stack: seq<seq<Id>>): set<Id>
  {
    if stack == [] then {} else Pending(stack[..|stack| - 1]) + Elements(stack[|stack| - 1])
  }

  function Remaining(stack: seq<seq<Id>>): nat
  {
    if stack == [] then 0 else Remaining(stack[..|stack| - 1]) + |stack[|stack| - 1]| + 1
  }

  function ChildrenOf(g: Graph, x: Id): set<Id>
    requires x in g
  {
    Elements(Children(g[x].content))
  }

  /** Only reachable objects are counted, and everything reachable is counted or still to come. */
  ghost predicate Underway(g: Graph, roots: seq<Id>, start: set<Id>, contents: set<Id>, pending: set<Id>)
  {
    && start <= contents
    && contents - start <= Reach(g, roots, start)
    && pending <= g.Keys && pending - start <= Reach(g, roots, start)
    && Elements(roots) <= contents + pending
    && forall v :: v in contents && v !in start ==> v in g && ChildrenOf(g, v) <= contents + pending
  }

  ghost predicate Counted(g: Graph, roots: seq<Id>, start: set<Id>, contents: set<Id>, pending: set<Id>, total: nat)
  {
    && Underway(g, roots, start, contents, pending)
    && contents - start <= g.Keys && total == Total(g, contents - start)
  }

  lemma RootReached(g: Graph, roots: seq<Id>, start: set<Id>, x: Id)
    requires x in roots && x in g && x !in start
    ensures Reached(g, roots, start, x)
  {
    assert Path(g, roots, start, [x]);
  }

  lemma ChildReached(g: Graph, roots: seq<Id>, start: set<Id>, x: Id, c: Id)
    requires x in g && Reached(g, roots, start, x) && c in Children(g[x].content) && c in g && c !in start
    ensures Reached(g, roots, start, c)
  {
    var p :| Path(g, roots, start, p) && p[|p| - 1] == x;
    assert Path(g, roots, start, p + [c]);
    assert (p + [c])[|p + [c]| - 1] == c;
  }

  lemma Begin(g: Graph, roots: seq<Id>, start: set<Id>)
    requires Known(g, roots)
    ensures Underway(g, roots, start, start, Elements(roots))
  {
    forall x | x in Elements(roots) && x !in start
      ensures x in Reach(g, roots, start)
    {
      RootReached(g, roots, start, x);
    }
  }

  lemma ChildrenReached(g: Graph, roots: seq<Id>, start: set<Id>, x: Id)
    requires Complete(g) && x in Reach(g, roots, start)
    ensures ChildrenOf(g, x) <= g.Keys && ChildrenOf(g, x) - start <= Reach(g, roots, start)
  {
    assert Known(g, Children(g[x].content));
    forall c | c in ChildrenOf(g, x) && c !in start
      ensures c in Reach(g, roots, start)
    {
      ChildReached(g, roots, start, x, c);
    }
  }

  lemma Visit(g: Graph, roots: seq<Id>, start: set<Id>, contents: set<Id>, rest: set<Id>, x: Id)
    requires Complete(g) && x in g && x !in contents && Underway(g, roots, start, contents, rest + {x})
    ensures Underway(g, roots, start, contents + {x}, rest + ChildrenOf(g, x))
  {
    assert x in rest + {x};
    ChildrenReached(g, roots, start, x);
    hide Complete, ChildrenOf, Reach, Elements;
    assert (contents + {x}) + (rest + ChildrenOf(g, x)) >= contents + (rest + {x});
  }

  lemma Forget(g: Graph, roots: seq<Id>, start: set<Id>, contents: set<Id>, pending: set<Id>, less: set<Id>)
    requires Underway(g, roots, start, contents, pending)
    requires less <= pending <= less + contents
    ensures Underway(g, roots, start, contents, less)
  {
    assert contents + less == contents + pending;
  }

  lemma {:induction false} PathCounted(g: Graph, roots: seq<Id>, start: set<Id>, contents: set<Id>, p: seq<Id>)
    requires Underway(g, roots, start, contents, {}) && Path(g, roots, start, p)
    ensures p[|p| - 1] in contents
    decreases |p|
  {
    var n := |p| - 1;
    if n == 0 {
      assert p[0] in Elements(roots);
    } else {
      assert Path(g, roots, start, p[..n]);
      PathCounted(g, roots, start, contents, p[..n]);
      assert p[n] in Elements(Children(g[p[n - 1]].content));
    }
  }

  lemma Done(g: Graph, roots: seq<Id>, start: set<Id>, contents: set<Id>, total: nat)
    requires Counted(g, roots, start, contents, Pending([]), total)
    ensures start <= contents && contents - start == Reach(g, roots, start)
    ensures total == Total(g, contents - start)
  {
    forall x | x in Reach(g, roots, start)
      ensures x in contents && x !in start
    {
      var p :| Path(g, roots, start, p) && p[|p| - 1] == x;
      PathCounted(g, roots, start, contents, p);
    }
  }

  // ---------------------------------------------------------------- the traversal

  /** `limit` None is an infinite one. */
  predicate Under(total: nat, limit: Option<nat>)
  {
    limit.Some? ==> total <= limit.value
  }

  /** The next object of the innermost iterator, or None when it is exhausted and dropped. */
  method Next(stack: seq<seq<Id>>) returns (item: Option<Id>, later: seq<seq<Id>>)
    requires stack != []
    ensures Remaining(later) < Remaining(stack)
    ensures Pending(stack) == if item.None? then Pending(later) else Pending(later) + {item.value}
  {
    var top := stack[|stack| - 1];
    var below := stack[..|stack| - 1];
    assert stack == below + [top];
    if top == [] {
      Exhausted(below);
      return None, below;
    }
    Taken(below, top);
    item, later := Some(top[0]), below + [top[1..]];
  }

  /** Add up sizes from the roots, skipping what was seen before. On any graph, cyclic or shared, it ends;
      a result within the limit counts every reachable object exactly once, and a larger one counts only
      reachable objects, each once. */
  method MeasureFrom(g: Graph, roots: seq<Id>, limit: Option<nat>, seen: SeenObjects) returns (total: nat)
    requires Complete(g) && Known(g, roots) && seen.Valid()
    modifies seen, seen.pages.Values
    ensures seen.Valid() && fresh(seen.pages.Values - old(seen.pages.Values))
    ensures old(seen.Contents) <= seen.Contents
    ensures seen.Contents - old(seen.Contents) <= Reach(g, roots, old(seen.Contents))
    ensures total == Total(g, seen.Contents - old(seen.Contents))
    ensures Under(total, limit) ==> seen.Contents - old(seen.Contents) == Reach(g, roots, old(seen.Contents))
  {
    ghost var start := seen.Contents;
    var stack := [roots];
    total := 0;
    Start(g, roots, start);
    hide Reach, Complete, Known, Underway, Counted, Pending, Remaining, Elements, Total, Children, ChildrenOf,
      SeenObjects.Marked, SeenObjects.Valid, SeenObjects.Pages, Path, Reached;
    while stack != [] && Under(total, limit)
      invariant seen.Valid() && fresh(seen.pages.Values - old(seen.pages.Values))
      invariant Counted(g, roots, start, seen.Contents, Pending(stack), total)
      decreases g.Keys - seen.Contents, Remaining(stack)
    {
      var item, later := Next(stack);
      if item.None? {
        stack := later;
        continue;
      }
      var known := seen.Contains(item.value);
      if known {
        Skip(g, roots, start, seen.Contents, Pending(later), total, item.value);
        stack := later;
        continue;
      }
      Count(g, roots, start, seen.Contents, later, total, item.value);
      seen.Add(item.value);
      total := total + g[item.value].size;
      stack := if g[item.value].content.Atom? then later else later + [Children(g[item.value].content)];
    }
    if stack == [] {
      Done(g, roots, start, seen.Contents, total);
    } else {
      Within(g, roots, start, seen.Contents, Pending(stack), total);
    }
  }

  lemma Start(g: Graph, roots: seq<Id>, start: set<Id>)
    requires Known(g, roots)
    ensures Counted(g, roots, start, start, Pending([roots]), 0)
  {
    Begin(g, roots, start);
    assert [roots][..0] == [];
    assert start - start == {};
  }

  lemma Exhausted(below: seq<seq<Id>>)
    ensures Pending(below + [[]]) == Pending(below) && Remaining(below) < Remaining(below + [[]])
  {
    Popped(below, []);
  }

  lemma Taken(below: seq<seq<Id>>, top: seq<Id>)
    requires top != []
    ensures Pending(below + [top]) == Pending(below + [top[1..]]) + {top[0]}
    ensures Remaining(below + [top[1..]]) < Remaining(below + [top])
  {
    Popped(below, top);
    Popped(below, top[1..]);
    assert Elements(top) == Elements(top[1..]) + {top[0]};
  }

  lemma Skip(g: Graph, roots: seq<Id>, start: set<Id>, contents: set<Id>, rest: set<Id>, total: nat, x: Id)
    requires Counted(g, roots, start, contents, rest + {x}, total) && x in contents
    ensures Counted(g, roots, start, contents, rest, total)
  {
    Forget(g, roots, start, contents, rest + {x}, rest);
  }

  lemma Count(g: Graph, roots: seq<Id>, start: set<Id>, contents: set<Id>, stack: seq<seq<Id>>, total: nat, x: Id)
    requires Complete(g) && Counted(g, roots, start, contents, Pending(stack) + {x}, total) && x !in contents
    ensures x in g && g.Keys - (contents + {x}) < g.Keys - contents
    ensures Counted(g, roots, start, contents + {x},
                    Pending(if g[x].content.Atom? then stack else stack + [Children(g[x].content)]),
                    total + g[x].size)
  {
    var rest := Pending(stack);
    assert x in rest + {x};
    Visit(g, roots, start, contents, rest, x);
    TotalAdd(g, contents - start, x);
    assert contents + {x} - start == (contents - start) + {x};
    assert x in g.Keys - contents;
    Popped(stack, Children(g[x].content));
    assert g[x].content.Atom? ==> rest + ChildrenOf(g, x) == rest;
  }

  lemma Within(g: Graph, roots: seq<Id>, start: set<Id>, contents: set<Id>, pending: set<Id>, total: nat)
    requires Counted(g, roots, start, contents, pending, total)
    ensures start <= contents && contents - start <= Reach(g, roots, start)
    ensures contents - start <= g.Keys && total == Total(g, contents - start)
  {
  }

  lemma Popped(below: seq<seq<Id>>, last: seq<Id>)
    ensures Pending(below + [last]) == Pending(below) + Elements(last)
    ensures Remaining(below + [last]) == Remaining(below) + |last| + 1
  {
    assert (below + [last])[..|below|] == below;
  }
}
