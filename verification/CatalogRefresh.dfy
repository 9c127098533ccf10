/** Looking all known identities up again, by pages in the order of their digests, and the retry loop around
    every page. */
module CatalogRefresh {
  import opened Prelude
  import opened Keyset

  type Identity = Text

  /** `invalid` identities are never asked for again. `goal` is what was known when the refresh began and `barred`
      what was invalid then; `lookedUp` got a new answer since, `skipped` were passed without a request. */
  datatype State = State(keys: set<Identity>, invalid: set<Identity>, cursor: Option<Identity>, upper: Option<Identity>,
                         completed: bool, goal: set<Identity>, barred: set<Identity>,
                         lookedUp: seq<Identity>, skipped: set<Identity>)

  function Greatest(s: set<Identity>): (m: Option<Identity>)
    ensures m.None? <==> s == {}
    ensures m.Some? ==> m.value in s && forall k :: k in s ==> k <= m.value
  {
    if s == {} then None else
      var negated := set k | k in s :: -k;
      assert forall k :: k in s ==> -k in negated;
      assert negated != {} by { Inhabited(s); var k :| k in s; assert -k in negated; }
      Some(-Least(negated))
  }

  function Bounded(keys: set<Identity>, upper: Option<Identity>): set<Identity>
  {
    set k | k in keys && upper.Some? && k <= upper.value
  }

  /** The next page: known identities after the cursor and up to the bound. */
  function PageOf(s: State, size: nat): seq<Identity>
  {
    NextKeys(Bounded(s.keys, s.upper), s.cursor, size)
  }

  /** The rows of a page that are asked for. */
  function Asked(rows: seq<Identity>, refused: set<Identity>): seq<Identity>
  {
    if rows == [] then [] else
      Asked(rows[..|rows| - 1], refused) + if rows[|rows| - 1] in refused then [] else [rows[|rows| - 1]]
  }

  /** A page of which some rows turn out to be malformed, and which may fail as a whole; meanwhile others discover
      identities and find some of them invalid. */
  datatype Step =
    | Prepare
    | Page(size: nat, ok: bool, malformed: set<Identity>)
    | Discovered(key: Identity)
    | Marked(key: Identity)

  function Apply(s: State, step: Step): State
  {
    match step
    case Prepare =>
      if s.completed then State(s.keys, s.invalid, None, Greatest(s.keys), false, s.keys, s.invalid, [], {}) else s
    case Page(size, ok, malformed) =>
      if s.completed || size == 0 then s
      else
        var rows := PageOf(s, size);
        if rows == [] then s.(completed := true)
        else if !ok then s
        else TakePage(s, rows, malformed)
    case Discovered(k) => s.(keys := s.keys + {k})
    case Marked(k) => s.(invalid := s.invalid + {k})
  }

  /** A page of rows that did not fail. */
  function TakePage(s: State, rows: seq<Identity>, malformed: set<Identity>): State
    requires rows != []
  {
    var last := rows[|rows| - 1];
    var passed := set k | k in rows && k in s.invalid + malformed;
    s.(lookedUp := s.lookedUp + Asked(rows, s.invalid + malformed), skipped := s.skipped + passed,
       invalid := s.invalid + passed, cursor := Some(last), completed := s.upper.Some? && last >= s.upper.value)
  }

  const EMPTY := State({}, {}, None, None, true, {}, {}, [], {})

  function Play(steps: seq<Step>): State
  {
    if steps == [] then EMPTY else Apply(Play(steps[..|steps| - 1]), steps[|steps| - 1])
  }

  predicate Passed(cursor: Option<Identity>, k: Identity)
  {
    cursor.Some? && k <= cursor.value
  }

  /** What was known before the cursor had its turn: it was looked up, once, or skipped as invalid. */
  predicate Handled(s: State)
  {
    && Ascending(s.lookedUp) && s.skipped <= s.invalid && s.barred <= s.invalid
    && (forall i :: 0 <= i < |s.lookedUp| ==> Passed(s.cursor, s.lookedUp[i]))
    && (forall k :: k in s.skipped ==> Passed(s.cursor, k))
    && (forall k :: k in s.lookedUp ==> k !in s.barred && k !in s.skipped)
  }

  predicate Inv(s: State)
  {
    && s.goal <= s.keys && Handled(s)
    && (forall k :: k in s.goal ==>
          s.upper.Some? && k <= s.upper.value && (Passed(s.cursor, k) ==> k in s.lookedUp || k in s.skipped))
    && (s.completed ==> forall k :: k in s.goal ==> k in s.lookedUp || k in s.skipped)
  }

  lemma AskedMore(front: seq<Identity>, last: Identity, refused: set<Identity>)
    ensures Asked(front + [last], refused) == Asked(front, refused) + if last in refused then [] else [last]
  {
    assert (front + [last])[..|front|] == front;
  }

  lemma {:induction false} AskedIs(rows: seq<Identity>, refused: set<Identity>)
    requires Ascending(rows)
    ensures Ascending(Asked(rows, refused))
    ensures forall k :: k in Asked(rows, refused) <==> k in rows && k !in refused
  {
    if rows != [] {
      var front, last := rows[..|rows| - 1], rows[|rows| - 1];
      assert rows == front + [last];
      AskedIs(front, refused);
      AskedMore(front, last, refused);
      hide Asked;
      forall i | 0 <= i < |Asked(front, refused)|
        ensures Asked(front, refused)[i] < last
      {
        assert Asked(front, refused)[i] in front;
      }
    }
  }

  /** A page contains everything between the old and the new cursor. */
  lemma PageCovers(s: State, size: nat, k: Identity)
    requires size > 0 && PageOf(s, size) != []
    requires k in s.keys && s.upper.Some? && k <= s.upper.value && !Passed(s.cursor, k)
    ensures var rows := PageOf(s, size); k <= rows[|rows| - 1] ==> k in rows
  {
    var all := Bounded(s.keys, s.upper);
    var left := all - KeysUpTo(all, s.cursor);
    var rows := PageOf(s, size);
    assert k in left;
    if k !in rows {
      FirstKeysCut(left, size, k, rows[|rows| - 1]);
    }
  }

  lemma PageIs(s: State, size: nat)
    ensures Ascending(PageOf(s, size))
    ensures forall k :: k in PageOf(s, size) ==> k in s.keys && !Passed(s.cursor, k) && s.upper.Some? && k <= s.upper.value
  {
    var all := Bounded(s.keys, s.upper);
    var left := all - KeysUpTo(all, s.cursor);
    FirstKeysAscend(left, size);
    forall k | k in PageOf(s, size)
      ensures k in left
    {
      FirstKeysIn(left, size, k);
    }
  }

  lemma NothingLeft(s: State, size: nat, k: Identity)
    requires size > 0 && PageOf(s, size) == [] && k in s.keys && s.upper.Some? && k <= s.upper.value
    ensures Passed(s.cursor, k)
  {
    var all := Bounded(s.keys, s.upper);
    assert k in all;
    assert FirstKeys(all - KeysUpTo(all, s.cursor), size) == [];
    assert k !in all - KeysUpTo(all, s.cursor);
  }

  /** The rows of a page come after everything looked up before it. */
  lemma TakePageHandled(s: State, rows: seq<Identity>, malformed: set<Identity>)
    requires Handled(s) && rows != [] && Ascending(rows)
    requires forall k :: k in rows ==> !Passed(s.cursor, k)
    ensures Handled(TakePage(s, rows, malformed))
    ensures forall k :: k in rows ==>
              k in TakePage(s, rows, malformed).lookedUp || k in TakePage(s, rows, malformed).skipped
  {
    var s' := TakePage(s, rows, malformed);
    var asked, last := Asked(rows, s.invalid + malformed), rows[|rows| - 1];
    AskedIs(rows, s.invalid + malformed);
    hide Asked;
    assert last in rows;
    forall k | k in rows
      ensures k <= last
    {
      var i :| 0 <= i < |rows| && rows[i] == k;
    }
    forall i, j | 0 <= i < |s.lookedUp| && 0 <= j < |asked|
      ensures s.lookedUp[i] < asked[j] <= last
    {
      assert asked[j] in asked;
    }
    assert Ascending(s'.lookedUp);
    forall i | 0 <= i < |s'.lookedUp|
      ensures s'.lookedUp[i] <= last
    {
      assert i >= |s.lookedUp| ==> asked[i - |s.lookedUp|] in asked;
    }
    assert forall k :: k in s.lookedUp ==> Passed(s.cursor, k);
    forall k | k in s'.lookedUp
      ensures k !in s'.barred && k !in s'.skipped
    {
      assert k in s.lookedUp || k in asked;
    }
  }

  lemma PageKeeps(s: State, size: nat, malformed: set<Identity>)
    requires Inv(s) && !s.completed && size > 0
    ensures Inv(Apply(s, Page(size, true, malformed)))
  {
    var rows := PageOf(s, size);
    PageIs(s, size);
    if rows == [] {
      forall k | k in s.goal
        ensures k in s.lookedUp || k in s.skipped
      {
        NothingLeft(s, size, k);
      }
      hide PageOf, Handled;
    } else {
      var s' := TakePage(s, rows, malformed);
      TakePageHandled(s, rows, malformed);
      forall k | k in s.goal && k <= rows[|rows| - 1]
        ensures k in s'.lookedUp || k in s'.skipped
      {
        if !Passed(s.cursor, k) { PageCovers(s, size, k); }
      }
      hide PageOf, Handled;
    }
  }

  /** Whatever fails, stops, is discovered or found invalid between the pages: in a refresh an identity gets a new
      answer at most once, and none if it was invalid at the beginning. At the end everything that was known at the
      beginning has its new answer, except what was invalid or malformed when its page was read. */
  lemma {:induction false} EachOnce(steps: seq<Step>)
    ensures Inv(Play(steps))
    ensures var s := Play(steps);
      && Ascending(s.lookedUp) && (forall k :: k in s.lookedUp ==> k !in s.barred && k !in s.skipped)
      && s.skipped <= s.invalid
      && (s.completed ==> forall k :: k in s.goal ==> (k in s.lookedUp <==> k !in s.skipped))
  {
    if steps != [] {
      var front, last := steps[..|steps| - 1], steps[|steps| - 1];
      EachOnce(front);
      if last.Page? && last.size > 0 && !Play(front).completed {
        PageKeeps(Play(front), last.size, last.malformed);
      }
      hide PageOf, Ascending, TakePage;
      assert last.Prepare? ==> Inv(Apply(Play(front), last)) by { NoneVisited(); }
    }
  }

  lemma NoneVisited()
    ensures Ascending([])
  {
  }

  // ---------------------------------------------------------------- the retry loop

  /** How one turn of a request ended: done or not yet, a failure, or an end of the operator's wish. */
  datatype Turn = Progress(completed: bool) | Failure(retryable: bool, memory: bool)

  datatype Result = Completed | Failed | Paused

  predicate Repeated(turns: seq<Turn>, limit: nat, k: nat)
    requires k < |turns|
  {
    k >= limit && forall j :: k - limit <= j <= k ==> turns[j].Failure?
  }

  /** A turn that ends the request: the work is done, the failure is not worth repeating, or it is one too many
      in a row. Short memory is always worth repeating. */
  predicate Ends(turns: seq<Turn>, limit: nat, k: nat)
    requires k < |turns|
  {
    match turns[k]
    case Progress(completed) => completed
    case Failure(retryable, memory) => (!retryable && !memory) || Repeated(turns, limit, k)
  }

  function ResultOf(t: Turn): Result
  {
    if t.Progress? then Completed else if t.memory then Paused else Failed
  }

  /** The command loop: turns until one ends it; when the operator stops asking first, the request is paused. */
  method RunRequest(turns: seq<Turn>, limit: nat) returns (result: Result)
    ensures (exists k :: 0 <= k < |turns| && Ends(turns, limit, k) && (forall j :: 0 <= j < k ==> !Ends(turns, limit, j))
                         && result == ResultOf(turns[k]))
            || (result == Paused && forall j :: 0 <= j < |turns| ==> !Ends(turns, limit, j))
  {
    var failures, i := 0, 0;
    while i < |turns|
      invariant 0 <= failures <= i <= |turns| && failures <= limit
      invariant forall j :: i - failures <= j < i ==> turns[j].Failure?
      invariant failures < i ==> turns[i - failures - 1].Progress?
      invariant forall j :: 0 <= j < i ==> !Ends(turns, limit, j)
    {
      match turns[i] {
        case Progress(completed) =>
          failures := 0;
          if completed {
            return Completed;
          }
        case Failure(retryable, memory) =>
          failures := failures + 1;
          assert Repeated(turns, limit, i) <==> failures > limit;
          if !(retryable || memory) || failures > limit {
            assert Ends(turns, limit, i);
            return if memory then Paused else Failed;
          }
      }
      i := i + 1;
    }
    result := Paused;
  }
}
