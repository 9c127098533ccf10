/** Catalogue reconciliation: a cursor over sale items, a cycle number, and lookups stamped with the cycle. */
module CatalogSync {
  import opened Prelude

  type Identity = Text

  datatype LookupStatus = Pending | Matched | NotFound | Ambiguous | Invalid

  datatype Lookup = Lookup(status: LookupStatus, product: Option<nat>, cycle: nat)

  type Lookups = map<Identity, Lookup>

  /** `valid` says that the code and article of the item pass the checks of a lookup request. */
  datatype Item = Item(id: nat, key: Identity, valid: bool)

  /** What the catalogue answered for one request. */
  datatype Answer = Hit(id: nat) | Miss | Several

  datatype Counts = Counts(processed: nat, matched: nat, notFound: nat, ambiguous: nat, invalid: nat)

  /** What one pass will look up, and how far it has read. */
  datatype Plan = Plan(pending: seq<Identity>, invalid: seq<Identity>, checkpoint: nat, visited: nat, stopped: bool)

  /** `lookedUp` records every successful lookup of the discovery scan, with the cycle it was made in. */
  datatype State = State(items: seq<Item>, lastId: nat, lookups: Lookups, cycle: nat, cursor: nat, upper: nat,
                         completed: bool, plan: Option<Plan>, counts: Counts, lookedUp: seq<(Identity, nat)>)

  // ---------------------------------------------------------------- one pass

  function Rows(items: seq<Item>, after: nat, upto: nat): seq<Item>
  {
    if items == [] then [] else
      var rest := Rows(items[1..], after, upto);
      if after < items[0].id <= upto then [items[0]] + rest else rest
  }

  predicate Stamped(lookups: Lookups, key: Identity, cycle: nat)
  {
    key in lookups && lookups[key].cycle == cycle
  }

  /** One row of a pass: skip what this cycle or this pass already has, stop when there is no more room. */
  function Consider(p: Plan, row: Item, lookups: Lookups, cycle: nat, room: nat): Plan
  {
    if p.stopped then p
    else if Stamped(lookups, row.key, cycle) || row.key in p.pending || row.key in p.invalid then
      p.(checkpoint := row.id, visited := p.visited + 1)
    else if |p.pending| + |p.invalid| >= room then p.(stopped := true)
    else if row.valid then
      p.(pending := p.pending + [row.key], checkpoint := row.id, visited := p.visited + 1)
    else p.(invalid := p.invalid + [row.key], checkpoint := row.id, visited := p.visited + 1)
  }

  function PlanOf(rows: seq<Item>, lookups: Lookups, cycle: nat, cursor: nat, room: nat): Plan
  {
    if rows == [] then Plan([], [], cursor, 0, false)
    else Consider(PlanOf(rows[..|rows| - 1], lookups, cycle, cursor, room), rows[|rows| - 1], lookups, cycle, room)
  }

  function Set(keys: seq<Identity>): set<Identity>
  {
    set k | k in keys
  }

  /** Newly discovered identities are stored as pending, in no cycle yet. */
  function WithNew(lookups: Lookups, keys: seq<Identity>): Lookups
  {
    map k | k in lookups.Keys + Set(keys) :: if k in lookups then lookups[k] else Lookup(Pending, None, 0)
  }

  /** Data of an earlier match is kept when an identity is no longer found; its status hides it. */
  function Settled(l: Lookup, a: Answer, cycle: nat): Lookup
  {
    match a
    case Hit(id) => Lookup(Matched, Some(id), cycle)
    case Miss => Lookup(NotFound, l.product, cycle)
    case Several => Lookup(Ambiguous, l.product, cycle)
  }

  function SaveResults(lookups: Lookups, pending: seq<Identity>, answers: seq<Answer>, cycle: nat): (r: Lookups)
    requires |pending| == |answers| && forall i :: 0 <= i < |pending| ==> pending[i] in lookups
    ensures r.Keys == lookups.Keys
  {
    if pending == [] then lookups else
      var n := |pending| - 1;
      var front := SaveResults(lookups, pending[..n], answers[..n], cycle);
      front[pending[n] := Settled(front[pending[n]], answers[n], cycle)]
  }

  function SaveInvalid(lookups: Lookups, invalid: seq<Identity>, cycle: nat): Lookups
  {
    map k | k in lookups :: if k in invalid then lookups[k].(status := Invalid, cycle := cycle) else lookups[k]
  }

  function Tally(answers: seq<Answer>, a: Answer -> bool): nat
  {
    if answers == [] then 0 else Tally(answers[..|answers| - 1], a) + if a(answers[|answers| - 1]) then 1 else 0
  }

  function Recount(c: Counts, answers: seq<Answer>, invalid: nat): Counts
  {
    Counts(c.processed + |answers| + invalid,
           c.matched + Tally(answers, (a: Answer) => a.Hit?),
           c.notFound + Tally(answers, (a: Answer) => a.Miss?),
           c.ambiguous + Tally(answers, (a: Answer) => a.Several?),
           c.invalid + invalid)
  }

  function Stamps(keys: seq<Identity>, cycle: nat): seq<(Identity, nat)>
  {
    seq(|keys|, i requires 0 <= i < |keys| => (keys[i], cycle))
  }

  // ---------------------------------------------------------------- the steps

  function MaxId(items: seq<Item>): nat
  {
    if items == [] then 0 else items[|items| - 1].id
  }

  datatype Step =
    | Append(gap: nat, key: Identity, valid: bool)
    | Delete(index: nat)
    | Start
    | Discover(room: nat, limit: nat)
    | Save(answers: seq<Answer>)
    | Drop
    | Extend
    | Refresh(batch: seq<Identity>, refused: seq<Identity>, answers: seq<Answer>)

  /** A started invocation opens a new cycle when the last one is complete, and otherwise goes on. */
  function Begin(s: State): State
  {
    if s.completed
    then s.(cycle := s.cycle + 1, cursor := 0, upper := MaxId(s.items), completed := false, plan := None)
    else s.(plan := None)
  }

  /** The first transaction of a pass: the newly discovered identities, but not the cursor. */
  function Discovered(s: State, room: nat, limit: nat): State
  {
    if s.completed || s.plan.Some? || room == 0 || limit == 0 then s else
      var rows := Rows(s.items, s.cursor, s.upper);
      if rows == [] then s.(completed := true)
      else
        var plan := PlanOf(rows[..Min(limit, |rows|)], s.lookups, s.cycle, s.cursor, room);
        s.(plan := Some(plan), lookups := WithNew(s.lookups, plan.pending + plan.invalid))
  }

  predicate Saveable(s: State, answers: seq<Answer>)
  {
    && s.plan.Some? && |answers| == |s.plan.value.pending|
    && forall i :: 0 <= i < |s.plan.value.pending| ==> s.plan.value.pending[i] in s.lookups
  }

  /** The second one, after the catalogue has answered: results, counters and the cursor together. */
  function Saved(s: State, answers: seq<Answer>): State
    requires Saveable(s, answers)
  {
    var p := s.plan.value;
    s.(lookups := SaveInvalid(SaveResults(s.lookups, p.pending, answers, s.cycle), p.invalid, s.cycle),
       cursor := p.checkpoint, completed := p.checkpoint >= s.upper, plan := None,
       counts := Recount(s.counts, answers, |p.invalid|),
       lookedUp := s.lookedUp + Stamps(p.pending, s.cycle))
  }

  /** The worker looks only at the tail of new items when a cycle is already complete. */
  function Extended(s: State): State
  {
    if s.cycle == 0 || !s.completed || MaxId(s.items) <= s.upper then s
    else s.(cursor := Max(s.cursor, s.upper), upper := MaxId(s.items), completed := false)
  }

  predicate Distinct(keys: seq<Identity>)
  {
    forall i, j :: 0 <= i < j < |keys| ==> keys[i] != keys[j]
  }

  predicate Refreshable(s: State, batch: seq<Identity>, refused: seq<Identity>, answers: seq<Answer>)
  {
    && s.completed && s.plan.None? && |batch| == |answers|
    && (forall i :: 0 <= i < |batch| ==> batch[i] in s.lookups)
  }

  /** A page of known identities is looked up again, in the same cycle. An identity that turns out to be
      malformed keeps its cycle. */
  function Refreshed(s: State, batch: seq<Identity>, refused: seq<Identity>, answers: seq<Answer>): State
    requires Refreshable(s, batch, refused, answers)
  {
    var saved := SaveResults(s.lookups, batch, answers, s.cycle);
    s.(lookups := map k | k in saved :: if k in refused then saved[k].(status := Invalid) else saved[k],
       counts := Recount(s.counts, answers, |refused|))
  }

  function Apply(s: State, step: Step): State
  {
    match step
    case Append(gap, key, valid) =>
      var id := s.lastId + 1 + gap;
      s.(items := s.items + [Item(id, key, valid)], lastId := id)
    case Delete(i) => if i < |s.items| then s.(items := s.items[..i] + s.items[i + 1..]) else s
    case Start => Begin(s)
    case Discover(room, limit) => Discovered(s, room, limit)
    case Save(answers) => if Saveable(s, answers) then Saved(s, answers) else s
    case Drop => s.(plan := None)
    case Extend => if s.plan.None? then Extended(s) else s
    case Refresh(batch, refused, answers) =>
      if Refreshable(s, batch, refused, answers) then Refreshed(s, batch, refused, answers) else s
  }

  const EMPTY := State([], 0, map[], 0, 0, 0, true, None, Counts(0, 0, 0, 0, 0), [])

  function Play(steps: seq<Step>): State
  {
    if steps == [] then EMPTY else Apply(Play(steps[..|steps| - 1]), steps[|steps| - 1])
  }

  // ---------------------------------------------------------------- what every history keeps

  ghost predicate SortedItems(items: seq<Item>, last: nat)
  {
    && (forall i, j :: 0 <= i < j < |items| ==> items[i].id < items[j].id)
    && (forall i :: 0 <= i < |items| ==> 0 < items[i].id <= last)
  }

  /** Every item up to an id has a lookup of the current cycle. */
  ghost predicate Covered(items: seq<Item>, lookups: Lookups, cycle: nat, upto: nat)
  {
    forall i :: 0 <= i < |items| && items[i].id <= upto ==> Stamped(lookups, items[i].key, cycle)
  }

  ghost predicate LookupsOk(lookups: Lookups, cycle: nat)
  {
    forall k :: k in lookups ==>
      && lookups[k].cycle <= cycle
      && (lookups[k].status == Pending ==> lookups[k].cycle == 0)
      && (lookups[k].status == Matched ==> lookups[k].product.Some?)
  }

  ghost predicate Listed(keys: seq<Identity>, lookups: Lookups, cycle: nat)
  {
    Distinct(keys) && forall i :: 0 <= i < |keys| ==> keys[i] in lookups && lookups[keys[i]].cycle != cycle
  }

  /** What is in flight: all items up to its checkpoint are done or about to be. */
  ghost predicate PlanOk(s: State, p: Plan)
  {
    && !s.completed && s.cursor < p.checkpoint <= s.upper
    && Listed(p.pending, s.lookups, s.cycle) && Listed(p.invalid, s.lookups, s.cycle)
    && (forall k :: k in p.pending ==> k !in p.invalid)
    && forall i :: 0 <= i < |s.items| && s.items[i].id <= p.checkpoint ==>
         Stamped(s.lookups, s.items[i].key, s.cycle) || s.items[i].key in p.pending || s.items[i].key in p.invalid
  }

  /** No identity was looked up twice in one cycle. */
  ghost predicate LogOk(lookedUp: seq<(Identity, nat)>, lookups: Lookups, cycle: nat)
  {
    && (forall i, j :: 0 <= i < j < |lookedUp| ==> lookedUp[i] != lookedUp[j])
    && (forall i :: 0 <= i < |lookedUp| ==>
          lookedUp[i].1 <= cycle && (lookedUp[i].1 == cycle ==> Stamped(lookups, lookedUp[i].0, cycle)))
  }

  ghost predicate Balanced(c: Counts)
  {
    c.processed == c.matched + c.notFound + c.ambiguous + c.invalid
  }

  ghost predicate Inv(s: State)
  {
    && SortedItems(s.items, s.lastId) && s.cursor <= s.upper <= s.lastId && (!s.completed ==> s.cycle > 0)
    && (s.cycle == 0 ==> s.upper == 0)
    && Covered(s.items, s.lookups, s.cycle, s.cursor)
    && (s.completed ==> Covered(s.items, s.lookups, s.cycle, s.upper))
    && LookupsOk(s.lookups, s.cycle) && LogOk(s.lookedUp, s.lookups, s.cycle) && Balanced(s.counts)
    && (s.plan.Some? ==> PlanOk(s, s.plan.value))
  }

  lemma {:induction false} RowsMembers(items: seq<Item>, after: nat, upto: nat, r: Item)
    ensures r in Rows(items, after, upto) <==> r in items && after < r.id <= upto
  {
    if items != [] {
      RowsMembers(items[1..], after, upto, r);
      assert r in items <==> r == items[0] || r in items[1..];
    }
  }

  lemma {:induction false} RowsSorted(items: seq<Item>, after: nat, upto: nat, last: nat)
    requires SortedItems(items, last)
    ensures SortedItems(Rows(items, after, upto), last)
  {
    if items != [] {
      RowsSorted(items[1..], after, upto, last);
      var rest := Rows(items[1..], after, upto);
      forall i | 0 <= i < |rest|
        ensures items[0].id < rest[i].id
      {
        RowsMembers(items[1..], after, upto, rest[i]);
        assert rest[i] in items[1..];
      }
      assert Rows(items, after, upto) == if after < items[0].id <= upto then [items[0]] + rest else rest;
      hide Rows;
    }
  }

  lemma RowsAre(items: seq<Item>, after: nat, upto: nat, last: nat)
    requires SortedItems(items, last)
    ensures SortedItems(Rows(items, after, upto), last)
    ensures forall r :: r in Rows(items, after, upto) <==> r in items && after < r.id <= upto
  {
    RowsSorted(items, after, upto, last);
    forall r
      ensures r in Rows(items, after, upto) <==> r in items && after < r.id <= upto
    {
      RowsMembers(items, after, upto, r);
    }
  }

  /** What a pass knows after considering some of its rows. */
  ghost predicate Planned(p: Plan, rows: seq<Item>, lookups: Lookups, cycle: nat, cursor: nat, room: nat)
  {
    && Distinct(p.pending) && Distinct(p.invalid) && (forall k :: k in p.pending ==> k !in p.invalid)
    && (forall k :: k in p.pending || k in p.invalid ==> !Stamped(lookups, k, cycle))
    && |p.pending| + |p.invalid| <= Min(room, p.visited) && p.visited <= |rows|
    && (forall i :: 0 <= i < |rows| && rows[i].id <= p.checkpoint ==>
          Stamped(lookups, rows[i].key, cycle) || rows[i].key in p.pending || rows[i].key in p.invalid)
    && p.checkpoint == (if p.visited == 0 then cursor else rows[p.visited - 1].id)
    && (!p.stopped ==> p.visited == |rows|)
    && (p.stopped ==> |p.pending| + |p.invalid| == room)
  }

  lemma {:induction false} PlanIs(rows: seq<Item>, lookups: Lookups, cycle: nat, cursor: nat, room: nat, last: nat)
    requires SortedItems(rows, last) && forall i :: 0 <= i < |rows| ==> cursor < rows[i].id
    ensures Planned(PlanOf(rows, lookups, cycle, cursor, room), rows, lookups, cycle, cursor, room)
  {
    if rows != [] {
      var n := |rows| - 1;
      PlanIs(rows[..n], lookups, cycle, cursor, room, last);
      var p, row := PlanOf(rows[..n], lookups, cycle, cursor, room), rows[n];
      ConsiderKeeps(p, rows, lookups, cycle, cursor, room, last);
    }
  }

  lemma ConsiderKeeps(p: Plan, rows: seq<Item>, lookups: Lookups, cycle: nat, cursor: nat, room: nat, last: nat)
    requires SortedItems(rows, last) && rows != [] && forall i :: 0 <= i < |rows| ==> cursor < rows[i].id
    requires Planned(p, rows[..|rows| - 1], lookups, cycle, cursor, room)
    ensures Planned(Consider(p, rows[|rows| - 1], lookups, cycle, room), rows, lookups, cycle, cursor, room)
  {
    var n := |rows| - 1;
    var row := rows[n];
    hide Stamped;
    assert forall i :: 0 <= i < n ==> rows[..n][i] == rows[i];
    if p.stopped {
      assert p.checkpoint < row.id;
    }
  }

  // ---------------------------------------------------------------- saving

  lemma {:induction false} SaveIs(lookups: Lookups, pending: seq<Identity>, answers: seq<Answer>, cycle: nat, k: Identity)
    requires |pending| == |answers| && (forall i :: 0 <= i < |pending| ==> pending[i] in lookups) && k in lookups
    requires LookupsOk(lookups, cycle)
    ensures var l := SaveResults(lookups, pending, answers, cycle)[k];
      && (k !in pending ==> l == lookups[k])
      && (k in pending ==> l.cycle == cycle && l.status != Pending)
      && (l.status == Matched ==> l.product.Some?)
  {
    if pending != [] {
      var n := |pending| - 1;
      SaveIs(lookups, pending[..n], answers[..n], cycle, k);
      assert pending == pending[..n] + [pending[n]];
    }
  }

  /** Every identity of a batch gets its own answer: a match its product, anything else its status only. */
  lemma {:induction false} EachGetsItsAnswer(lookups: Lookups, pending: seq<Identity>, answers: seq<Answer>, cycle: nat, i: nat)
    requires |pending| == |answers| && (forall j :: 0 <= j < |pending| ==> pending[j] in lookups)
    requires Distinct(pending) && i < |pending|
    ensures var l := SaveResults(lookups, pending, answers, cycle)[pending[i]];
      && l.cycle == cycle
      && (answers[i].Hit? <==> l.status == Matched) && (answers[i].Hit? ==> l.product == Some(answers[i].id))
      && (answers[i].Miss? <==> l.status == NotFound) && (answers[i].Several? <==> l.status == Ambiguous)
      && (!answers[i].Hit? ==> l.product == lookups[pending[i]].product)
  {
    var n := |pending| - 1;
    if i < n {
      EachGetsItsAnswer(lookups, pending[..n], answers[..n], cycle, i);
    } else {
      SaveKept(lookups, pending[..n], answers[..n], cycle, pending[n]);
    }
  }

  lemma {:induction false} SaveKept(lookups: Lookups, pending: seq<Identity>, answers: seq<Answer>, cycle: nat, k: Identity)
    requires |pending| == |answers| && (forall j :: 0 <= j < |pending| ==> pending[j] in lookups && pending[j] != k)
    requires k in lookups
    ensures SaveResults(lookups, pending, answers, cycle)[k] == lookups[k]
  {
    if pending != [] {
      SaveKept(lookups, pending[..|pending| - 1], answers[..|pending| - 1], cycle, k);
    }
  }

  /** After a save exactly the listed identities have changed, and carry the current cycle. */
  lemma SavedLookups(s: State, answers: seq<Answer>)
    requires Saveable(s, answers) && LookupsOk(s.lookups, s.cycle) && s.cycle > 0
    ensures var l, p := Saved(s, answers).lookups, s.plan.value;
      && l.Keys == s.lookups.Keys && LookupsOk(l, s.cycle)
      && (forall k :: k in l ==> l[k].cycle == if k in p.pending || k in p.invalid then s.cycle else s.lookups[k].cycle)
      && (forall k :: k in l && k !in p.pending && k !in p.invalid ==> l[k] == s.lookups[k])
  {
    var l, p := Saved(s, answers).lookups, s.plan.value;
    forall k | k in l
      ensures l[k].cycle == if k in p.pending || k in p.invalid then s.cycle else s.lookups[k].cycle
      ensures (l[k].status == Pending ==> l[k].cycle == 0) && (l[k].status == Matched ==> l[k].product.Some?)
      ensures k !in p.pending && k !in p.invalid ==> l[k] == s.lookups[k]
    {
      SaveIs(s.lookups, p.pending, answers, s.cycle, k);
    }
  }

  lemma {:induction false} TallySplit(answers: seq<Answer>)
    ensures |answers| == Tally(answers, (a: Answer) => a.Hit?) + Tally(answers, (a: Answer) => a.Miss?)
                         + Tally(answers, (a: Answer) => a.Several?)
  {
    if answers != [] {
      TallySplit(answers[..|answers| - 1]);
    }
  }

  lemma LogMore(s: State, keys: seq<Identity>, lookups: Lookups)
    requires LogOk(s.lookedUp, s.lookups, s.cycle) && Listed(keys, s.lookups, s.cycle)
    requires forall k :: k in s.lookups && Stamped(s.lookups, k, s.cycle) ==> Stamped(lookups, k, s.cycle)
    requires forall i :: 0 <= i < |keys| ==> Stamped(lookups, keys[i], s.cycle)
    ensures LogOk(s.lookedUp + Stamps(keys, s.cycle), lookups, s.cycle)
  {
  }

  lemma SaveKeeps(s: State, answers: seq<Answer>)
    requires Inv(s) && Saveable(s, answers)
    ensures Inv(Saved(s, answers))
  {
    var s', p := Saved(s, answers), s.plan.value;
    SavedLookups(s, answers);
    TallySplit(answers);
    hide SaveResults, SaveInvalid, Tally;
    LogMore(s, p.pending, s'.lookups);
    hide LogOk, LookupsOk;
  }

  lemma DiscoverKeeps(s: State, room: nat, limit: nat)
    requires Inv(s)
    ensures Inv(Discovered(s, room, limit))
  {
    var s' := Discovered(s, room, limit);
    if s' != s {
      var rows := Rows(s.items, s.cursor, s.upper);
      RowsAre(s.items, s.cursor, s.upper, s.lastId);
      if rows == [] {
        NothingLeft(s);
      } else {
        var m := Min(limit, |rows|);
        assert forall i :: 0 <= i < m ==> rows[..m][i] in rows;
        PlanIs(rows[..m], s.lookups, s.cycle, s.cursor, room, s.lastId);
        PlanFits(s, rows, m, PlanOf(rows[..m], s.lookups, s.cycle, s.cursor, room), room);
      }
    }
  }

  lemma NewAreUnstamped(lookups: Lookups, keys: seq<Identity>, cycle: nat)
    requires cycle > 0 && LookupsOk(lookups, cycle)
    ensures LookupsOk(WithNew(lookups, keys), cycle)
    ensures forall k :: Stamped(WithNew(lookups, keys), k, cycle) <==> Stamped(lookups, k, cycle)
    ensures forall k :: k in keys ==> k in WithNew(lookups, keys)
  {
    forall k | k in keys
      ensures k in WithNew(lookups, keys)
    {
      assert k in Set(keys);
    }
  }

  /** The items up to the checkpoint of a plan are all accounted for. */
  lemma PlanCovers(s: State, rows: seq<Item>, m: nat, p: Plan, room: nat)
    requires Inv(s) && rows == Rows(s.items, s.cursor, s.upper) && 0 < m <= |rows| && room > 0
    requires Planned(p, rows[..m], s.lookups, s.cycle, s.cursor, room)
    ensures s.cursor < p.checkpoint <= s.upper
    ensures forall i :: 0 <= i < |s.items| && s.items[i].id <= p.checkpoint ==>
      Stamped(s.lookups, s.items[i].key, s.cycle) || s.items[i].key in p.pending || s.items[i].key in p.invalid
  {
    RowsAre(s.items, s.cursor, s.upper, s.lastId);
    assert p.visited > 0;
    assert rows[p.visited - 1] in rows;
    forall i | 0 <= i < |s.items| && s.items[i].id <= p.checkpoint
      ensures Stamped(s.lookups, s.items[i].key, s.cycle) || s.items[i].key in p.pending || s.items[i].key in p.invalid
    {
      if s.items[i].id > s.cursor {
        assert s.items[i] in s.items;
        assert s.items[i] in rows;
        var j :| 0 <= j < |rows| && rows[j] == s.items[i];
        assert j < p.visited;
        assert rows[..m][j] == rows[j];
      }
    }
  }

  lemma ListedIs(keys: seq<Identity>, lookups: Lookups, cycle: nat)
    requires Distinct(keys) && forall k :: k in keys ==> k in lookups && !Stamped(lookups, k, cycle)
    ensures Listed(keys, lookups, cycle)
  {
    assert forall i :: 0 <= i < |keys| ==> keys[i] in keys;
  }

  lemma PlanFits(s: State, rows: seq<Item>, m: nat, p: Plan, room: nat)
    requires Inv(s) && !s.completed && rows == Rows(s.items, s.cursor, s.upper) && 0 < m <= |rows| && room > 0
    requires Planned(p, rows[..m], s.lookups, s.cycle, s.cursor, room)
    ensures Inv(s.(plan := Some(p), lookups := WithNew(s.lookups, p.pending + p.invalid)))
  {
    PlanCovers(s, rows, m, p, room);
    NewAreUnstamped(s.lookups, p.pending + p.invalid, s.cycle);
    assert forall k :: k in p.pending || k in p.invalid ==> k in p.pending + p.invalid;
    var l := WithNew(s.lookups, p.pending + p.invalid);
    hide WithNew, SortedItems;
    assert LogOk(s.lookedUp, l, s.cycle);
    hide Stamped;
    assert Covered(s.items, l, s.cycle, s.cursor);
    ListedIs(p.pending, l, s.cycle);
    ListedIs(p.invalid, l, s.cycle);
    hide Listed, LogOk, LookupsOk, Covered;
  }

  lemma NothingLeft(s: State)
    requires Inv(s) && Rows(s.items, s.cursor, s.upper) == []
    ensures Covered(s.items, s.lookups, s.cycle, s.upper)
  {
    RowsAre(s.items, s.cursor, s.upper, s.lastId);
    forall i | 0 <= i < |s.items| && s.items[i].id <= s.upper
      ensures Stamped(s.lookups, s.items[i].key, s.cycle)
    {
      assert s.items[i] in s.items;
      assert s.items[i] !in Rows(s.items, s.cursor, s.upper);
    }
  }

  // ---------------------------------------------------------------- every history

  lemma BeginKeeps(s: State)
    requires Inv(s)
    ensures Inv(Begin(s))
  {
    assert LogOk(s.lookedUp, s.lookups, s.cycle + 1);
    hide Stamped, Balanced;
    if s.items != [] {
      assert s.items[|s.items| - 1].id <= s.lastId;
    }
  }

  lemma ExtendKeeps(s: State)
    requires Inv(s) && s.plan.None?
    ensures Inv(Extended(s))
  {
    hide Stamped, Balanced, LogOk, LookupsOk;
  }

  lemma RefreshKeeps(s: State, batch: seq<Identity>, refused: seq<Identity>, answers: seq<Answer>)
    requires Inv(s) && Refreshable(s, batch, refused, answers)
    ensures Inv(Refreshed(s, batch, refused, answers))
  {
    var s' := Refreshed(s, batch, refused, answers);
    forall k | k in s.lookups
      ensures Stamped(s.lookups, k, s.cycle) ==> Stamped(s'.lookups, k, s.cycle)
      ensures s'.lookups[k].cycle <= s.cycle && (s'.lookups[k].status == Pending ==> s'.lookups[k].cycle == 0)
      ensures s'.lookups[k].status == Matched ==> s'.lookups[k].product.Some?
    {
      SaveIs(s.lookups, batch, answers, s.cycle, k);
    }
    TallySplit(answers);
    hide SaveResults, Tally, SortedItems;
    assert LookupsOk(s'.lookups, s.cycle);
  }

  lemma DeleteKeeps(s: State, i: nat)
    requires Inv(s) && i < |s.items|
    ensures Inv(s.(items := s.items[..i] + s.items[i + 1..]))
  {
    hide Stamped, LogOk, LookupsOk, Balanced, Listed;
    var items := s.items[..i] + s.items[i + 1..];
    assert forall j :: 0 <= j < |items| ==> items[j] == s.items[if j < i then j else j + 1];
  }

  /** Across limits, HTTP failures, crashes and restarts, new and deleted items, refreshes and tail scans:
      every item up to the cursor has a lookup of the current cycle, a completed scan has them all, and no
      identity is looked up twice in one cycle. */
  lemma {:induction false} StepKeeps(s: State, step: Step)
    requires Inv(s)
    ensures Inv(Apply(s, step))
  {
    hide Discovered, Begin, Extended, Saved, Refreshed;
    match step
    case Append(gap, key, valid) => hide Stamped, LogOk, LookupsOk, Balanced, Listed;
    case Delete(i) => if i < |s.items| { DeleteKeeps(s, i); }
    case Start => BeginKeeps(s);
    case Discover(room, limit) => DiscoverKeeps(s, room, limit);
    case Save(answers) => if Saveable(s, answers) { SaveKeeps(s, answers); }
    case Drop => hide Stamped, LogOk, LookupsOk, Balanced, Listed;
    case Extend => if s.plan.None? { ExtendKeeps(s); }
    case Refresh(batch, refused, answers) =>
      if Refreshable(s, batch, refused, answers) { RefreshKeeps(s, batch, refused, answers); }
  }

  lemma {:induction false} EveryHistory(steps: seq<Step>)
    ensures Inv(Play(steps))
  {
    hide *;
    if steps == [] {
      Initially();
    } else {
      var front, last := steps[..|steps| - 1], steps[|steps| - 1];
      EveryHistory(front);
      StepKeeps(Play(front), last);
      PlayMore(front, last);
      assert steps == front + [last];
    }
  }

  lemma Initially()
    ensures Inv(Play([]))
  {
  }

  lemma PlayMore(front: seq<Step>, last: Step)
    ensures Play(front + [last]) == Apply(Play(front), last)
  {
    hide Apply;
    assert (front + [last])[..|front|] == front;
  }

  /** What a finished scan is worth to a report: every sale item that existed when it began has a settled
      lookup, and a matched one names its product. */
  lemma CompleteMeans(steps: seq<Step>, i: nat)
    requires Play(steps).completed && i < |Play(steps).items| && Play(steps).items[i].id <= Play(steps).upper
    ensures var s := Play(steps); var key := s.items[i].key;
      && key in s.lookups && s.lookups[key].status != Pending && s.lookups[key].cycle == s.cycle
      && (s.lookups[key].status == Matched ==> s.lookups[key].product.Some?)
  {
    EveryHistory(steps);
  }

  /** Within one cycle the scan never pays for the same identity twice. */
  lemma LookedUpOnce(steps: seq<Step>, i: nat, j: nat)
    requires i < j < |Play(steps).lookedUp|
    ensures Play(steps).lookedUp[i].0 != Play(steps).lookedUp[j].0 || Play(steps).lookedUp[i].1 != Play(steps).lookedUp[j].1
  {
    EveryHistory(steps);
  }

  /** A pass whose lookups succeed moves the cursor or completes the scan, within both limits. */
  lemma PassAdvances(s: State, room: nat, limit: nat, answers: seq<Answer>)
    requires Inv(s) && !s.completed && s.plan.None? && room > 0 && limit > 0
    requires var d := Discovered(s, room, limit); d.plan.Some? ==> |answers| == |d.plan.value.pending|
    ensures var d := Discovered(s, room, limit);
      || (d.completed && d.plan.None? && d.cursor == s.cursor)
      || (d.plan.Some? && Saveable(d, answers) && s.cursor < Saved(d, answers).cursor <= s.upper
          && |answers| + |d.plan.value.invalid| <= room && 0 < d.plan.value.visited <= limit)
  {
    DiscoverKeeps(s, room, limit);
    PlanSize(s, room, limit);
    hide Rows, PlanOf, WithNew, SaveResults, SaveInvalid, Recount, Stamps, SortedItems, Covered, LookupsOk, LogOk,
      Balanced, Stamped, Distinct;
  }

  lemma PlanSize(s: State, room: nat, limit: nat)
    requires Inv(s) && !s.completed && s.plan.None? && room > 0 && limit > 0
    ensures var d := Discovered(s, room, limit);
      d.plan.Some? ==> |d.plan.value.pending| + |d.plan.value.invalid| <= room && 0 < d.plan.value.visited <= limit
  {
    var rows := Rows(s.items, s.cursor, s.upper);
    if rows != [] {
      var m := Min(limit, |rows|);
      RowsAre(s.items, s.cursor, s.upper, s.lastId);
      assert forall i :: 0 <= i < m ==> rows[..m][i] in rows;
      PlanIs(rows[..m], s.lookups, s.cycle, s.cursor, room, s.lastId);
    }
  }
}
