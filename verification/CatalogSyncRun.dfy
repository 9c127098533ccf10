/** One invocation of the catalogue reconciliation, as it updates its rows in place under its limits. */
module CatalogSyncRun {
  import opened Prelude
  import opened CatalogSync

  datatype Limits = Limits(products: nat, scanRows: nat, batch: nat)

  datatype Outcome = Outcome(state: State, handled: nat, scanned: nat, ok: bool)

  /** The catalogue's answer to a request of this size; anything else, or nothing at all, is a failure. */
  function Reply(reply: Option<seq<Answer>>, size: nat): Option<seq<Answer>>
  {
    if size == 0 then Some([])
    else if reply.None? || |reply.value| != size then None
    else reply
  }

  /** How a pass ended: what it looked up and read, whether the lookups succeeded, and whether to go on. */
  datatype PassEnd = PassEnd(state: State, used: nat, visited: nat, ok: bool, more: bool)

  /** One pass: discover, ask, save. A failed request leaves the discovered identities and nothing else. */
  function Pass(s: State, room: nat, limit: nat, reply: Option<seq<Answer>>): PassEnd
  {
    var d := Discovered(s, room, limit);
    if d.plan.None? then PassEnd(d, 0, 0, true, false)
    else
      var answers := Reply(reply, |d.plan.value.pending|);
      if answers.None? || !Saveable(d, answers.value) then PassEnd(d.(plan := None), 0, 0, false, false)
      else
        var next := Saved(d, answers.value);
        PassEnd(next, |answers.value| + |d.plan.value.invalid|, d.plan.value.visited, true, !next.completed)
  }

  /** A pass keeps every invariant and its limits; it goes on only from a later row. */
  ghost predicate PassFits(s: State, room: nat, limit: nat, e: PassEnd)
  {
    && Inv(e.state) && e.state.plan.None? && e.used <= room && e.visited <= limit
    && (e.more ==> !e.state.completed && s.cursor < e.state.cursor && e.visited > 0)
    && s.cursor <= e.state.cursor && e.state.cycle == s.cycle && e.state.upper == s.upper
    && |s.lookedUp| <= |e.state.lookedUp| <= |s.lookedUp| + e.used
  }

  lemma PassKeeps(s: State, room: nat, limit: nat, reply: Option<seq<Answer>>)
    requires Inv(s) && s.plan.None? && !s.completed && room > 0 && limit > 0
    ensures PassFits(s, room, limit, Pass(s, room, limit, reply))
  {
    DiscoverKeeps(s, room, limit);
    DiscoverFrame(s, room, limit);
    var d := Discovered(s, room, limit);
    if d.plan.Some? {
      var answers := Reply(reply, |d.plan.value.pending|);
      StepKeeps(d, Drop);
      if answers.Some? && Saveable(d, answers.value) {
        PassAdvances(s, room, limit, answers.value);
        SaveKeeps(d, answers.value);
        SaveFrame(d, answers.value);
      }
    }
    hide Inv, Discovered, Saved, Saveable;
  }

  /** Pass after pass until the scan is complete, a limit is reached, a lookup fails or a stop arrives;
      `replies` holds what the catalogue would answer to each pass before the stop. */
  function Invocation(s: State, limits: Limits, handled: nat, scanned: nat, replies: seq<Option<seq<Answer>>>): Outcome
    decreases |replies|
  {
    if handled >= limits.products || scanned >= limits.scanRows || replies == [] || limits.batch == 0
    then Outcome(s, handled, scanned, true)
    else
      var e := Pass(s, limits.products - handled, Min(limits.batch, limits.scanRows - scanned), replies[0]);
      if !e.more then Outcome(e.state, handled + e.used, scanned + e.visited, e.ok)
      else Invocation(e.state, limits, handled + e.used, scanned + e.visited, replies[1..])
  }

  /** An invocation keeps every invariant, stays within both limits, pays for no more lookups than it
      reports, and never moves the cursor back. */
  lemma {:induction false} WithinLimits(s: State, limits: Limits, handled: nat, scanned: nat,
                                        replies: seq<Option<seq<Answer>>>)
    requires Inv(s) && s.plan.None? && !s.completed
    requires handled <= limits.products && scanned <= limits.scanRows
    ensures var o := Invocation(s, limits, handled, scanned, replies);
      && Inv(o.state) && o.state.plan.None?
      && o.handled <= limits.products && o.scanned <= limits.scanRows
      && |o.state.lookedUp| - |s.lookedUp| <= o.handled - handled
      && s.cursor <= o.state.cursor && o.state.cycle == s.cycle && o.state.upper == s.upper
    decreases |replies|
  {
    hide Inv, Pass;
    if !(handled >= limits.products || scanned >= limits.scanRows || replies == [] || limits.batch == 0) {
      var room, limit := limits.products - handled, Min(limits.batch, limits.scanRows - scanned);
      PassKeeps(s, room, limit, replies[0]);
      var e := Pass(s, room, limit, replies[0]);
      if e.more {
        WithinLimits(e.state, limits, handled + e.used, scanned + e.visited, replies[1..]);
      }
    }
  }

  lemma DiscoverFrame(s: State, room: nat, limit: nat)
    ensures var d := Discovered(s, room, limit);
      d.cursor == s.cursor && d.upper == s.upper && d.cycle == s.cycle && d.lookedUp == s.lookedUp
  {
    hide PlanOf, Rows, WithNew;
  }

  lemma SaveFrame(s: State, answers: seq<Answer>)
    requires Saveable(s, answers)
    ensures var d := Saved(s, answers);
      && d.upper == s.upper && d.cycle == s.cycle && d.cursor == s.plan.value.checkpoint && d.plan.None?
      && |d.lookedUp| == |s.lookedUp| + |answers|
  {
    hide SaveResults, SaveInvalid, Recount;
  }

  class Synchronizer {
    var items: seq<Item>
    var lastId: nat
    var lookups: Lookups
    var cycle: nat
    var cursor: nat
    var upper: nat
    var completed: bool
    var counts: Counts
    ghost var lookedUp: seq<(Identity, nat)>

    ghost function Now(): State
      reads this
    {
      State(items, lastId, lookups, cycle, cursor, upper, completed, None, counts, lookedUp)
    }

    method StartCycle()
      modifies this
      ensures Now() == Begin(old(Now()))
    {
      if completed {
        cycle := cycle + 1;
        cursor := 0;
        upper := if items == [] then 0 else items[|items| - 1].id;
        completed := false;
      }
    }

    method TailScan() returns (wanted: bool)
      modifies this
      ensures Now() == Extended(old(Now()))
      ensures wanted <==> old(cycle) == 0 || !old(completed) || MaxId(items) > old(upper)
    {
      if cycle == 0 {
        return true;
      }
      if completed {
        var newest := if items == [] then 0 else items[|items| - 1].id;
        if newest <= upper {
          return false;
        }
        cursor := if cursor >= upper then cursor else upper;
        upper := newest;
        completed := false;
      }
      wanted := true;
    }

    /** Read some rows and decide which of their identities this pass looks up. */
    method ReadRows(rows: seq<Item>, room: nat) returns (plan: Plan)
      requires cycle > 0
      modifies this`lookups
      ensures plan == PlanOf(rows, old(lookups), cycle, cursor, room)
      ensures lookups == WithNew(old(lookups), plan.pending + plan.invalid)
    {
      var pending, invalid: seq<Identity> := [], [];
      var checkpoint, visited, i := cursor, 0, 0;
      ghost var before := lookups;
      assert rows[..0] == [];
      NoneNew(before);
      while i < |rows|
        invariant 0 <= i <= |rows|
        invariant PlanOf(rows[..i], before, cycle, cursor, room) == Plan(pending, invalid, checkpoint, visited, false)
        invariant lookups == WithNew(before, pending + invalid)
      {
        var row := rows[i];
        assert rows[..i + 1][..i] == rows[..i];
        assert Stamped(lookups, row.key, cycle) <==> Stamped(before, row.key, cycle);
        if (row.key in lookups && lookups[row.key].cycle == cycle) || row.key in pending || row.key in invalid {
          checkpoint, visited := row.id, visited + 1;
        } else if |pending| + |invalid| >= room {
          PlanStopped(rows, before, cycle, cursor, room, i + 1);
          return Plan(pending, invalid, checkpoint, visited, true);
        } else {
          NewToo(before, pending, invalid, row.key);
          if row.key !in lookups {
            lookups := lookups[row.key := Lookup(Pending, None, 0)];
          }
          if row.valid {
            pending := pending + [row.key];
          } else {
            invalid := invalid + [row.key];
          }
          checkpoint, visited := row.id, visited + 1;
        }
        i := i + 1;
      }
      assert rows[..i] == rows;
      plan := Plan(pending, invalid, checkpoint, visited, false);
    }

    /** Every lookup of the pass gets its answer and the stamp of the cycle. */
    method SaveAnswers(pending: seq<Identity>, answers: seq<Answer>)
      requires |pending| == |answers| && forall i :: 0 <= i < |pending| ==> pending[i] in lookups
      modifies this`lookups
      ensures lookups == SaveResults(old(lookups), pending, answers, cycle)
    {
      ghost var before := lookups;
      var i := 0;
      assert pending[..0] == [] && answers[..0] == [];
      while i < |pending|
        invariant 0 <= i <= |pending|
        invariant lookups == SaveResults(before, pending[..i], answers[..i], cycle)
      {
        SaveStep(before, pending, answers, i, cycle);
        hide SaveResults;
        var key := pending[i];
        var lookup := lookups[key];
        match answers[i] {
          case Hit(id) => lookup := lookup.(product := Some(id), status := Matched);
          case Miss => lookup := lookup.(status := NotFound);
          case Several => lookup := lookup.(status := Ambiguous);
        }
        lookups := lookups[key := lookup.(cycle := cycle)];
        i := i + 1;
      }
      assert pending[..i] == pending && answers[..i] == answers;
    }

    /** Data and checkpoint of a pass in one transaction. */
    method SavePass(plan: Plan, answers: seq<Answer>)
      requires Saveable(Now().(plan := Some(plan)), answers)
      modifies this
      ensures Now() == Saved(old(Now()).(plan := Some(plan)), answers)
    {
      hide SaveResults, SaveInvalid, Recount, Stamps;
      SaveAnswers(plan.pending, answers);
      lookups := SaveInvalid(lookups, plan.invalid, cycle);
      cursor := plan.checkpoint;
      if plan.checkpoint >= upper {
        completed := true;
      } else {
        completed := false;
      }
      counts := Recount(counts, answers, |plan.invalid|);
      lookedUp := lookedUp + Stamps(plan.pending, cycle);
    }

    method OnePass(room: nat, limit: nat, reply: Option<seq<Answer>>)
        returns (used: nat, visited: nat, ok: bool, more: bool)
      requires Inv(Now()) && !Now().completed && room > 0 && limit > 0
      modifies this
      ensures Now().plan.None?
      ensures PassEnd(Now(), used, visited, ok, more) == Pass(old(Now()), room, limit, reply)
    {
      var rows := Rows(items, cursor, upper);
      if rows == [] {
        completed := true;
        return 0, 0, true, false;
      }
      ghost var before := Now();
      DiscoverKeeps(before, room, limit);
      var plan := ReadRows(rows[..Min(limit, |rows|)], room);
      assert Now().(plan := Some(plan)) == Discovered(before, room, limit) by {
        hide Inv, PlanOf, Rows, WithNew;
      }
      hide Discovered, PlanOf, Rows, WithNew, Saved;
      var answers := Reply(reply, |plan.pending|);
      if answers.None? {
        return 0, 0, false, false;
      }
      PassAdvances(before, room, limit, answers.value);
      SavePass(plan, answers.value);
      used, visited, ok, more := |answers.value| + |plan.invalid|, plan.visited, true, !completed;
    }

    /** One turn of the loop below. */
    method Turn(limits: Limits, replies: seq<Option<seq<Answer>>>, n: nat, handled: nat, scanned: nat, ghost start: State)
        returns (handled': nat, scanned': nat, ok: bool, more: bool)
      requires handled < limits.products && scanned < limits.scanRows && n < |replies| && limits.batch > 0
      requires Inv(Now()) && Now().plan.None? && !Now().completed
      requires OnTrack(start, limits, replies, Now(), handled, scanned, n, true, true)
      modifies this
      ensures Inv(Now()) && Now().plan.None? && (more ==> !Now().completed && ok)
      ensures OnTrack(start, limits, replies, Now(), handled', scanned', n + 1, more, ok)
    {
      hide *;
      var room, limit := limits.products - handled, Min(limits.batch, limits.scanRows - scanned);
      TurnFacts(start, limits, replies, Now(), handled, scanned, n, room, limit);
      var used, visited;
      used, visited, ok, more := OnePass(room, limit, replies[n]);
      handled', scanned' := handled + used, scanned + visited;
    }

    /** One invocation; `replies` holds the catalogue's answer to every pass before a stop is requested. */
    method Synchronize(limits: Limits, replies: seq<Option<seq<Answer>>>) returns (handled: nat, scanned: nat, ok: bool)
      requires Inv(Now())
      modifies this
      ensures Outcome(Now(), handled, scanned, ok) == Invocation(Begin(old(Now())), limits, 0, 0, replies)
      ensures Inv(Now()) && handled <= limits.products && scanned <= limits.scanRows
    {
      BeginKeeps(Now());
      StartCycle();
      WithinLimits(Now(), limits, 0, 0, replies);
      hide Inv, Invocation;
      handled, scanned, ok := Passes(limits, replies);
    }

    method Passes(limits: Limits, replies: seq<Option<seq<Answer>>>) returns (handled: nat, scanned: nat, ok: bool)
      requires Inv(Now()) && !Now().completed
      modifies this
      ensures Inv(Now())
      ensures Outcome(Now(), handled, scanned, ok) == Invocation(old(Now()), limits, 0, 0, replies)
    {
      handled, scanned, ok := 0, 0, true;
      ghost var start := Now();
      var n, more := 0, true;
      assert replies[0..] == replies;
      assert OnTrack(start, limits, replies, Now(), handled, scanned, n, more, ok);
      hide *;
      while more && handled < limits.products && scanned < limits.scanRows && n < |replies| && limits.batch > 0
        invariant n <= |replies| && Inv(Now()) && Now().plan.None? && (more ==> !Now().completed && ok)
        invariant OnTrack(start, limits, replies, Now(), handled, scanned, n, more, ok)
        decreases |replies| - n
      {
        handled, scanned, ok, more := Turn(limits, replies, n, handled, scanned, start);
        n := n + 1;
      }
      Arrived(start, limits, replies, Now(), handled, scanned, n, more, ok);
    }
  }

  /** What is left of the invocation after `n` passes gives the result of the whole one. */
  ghost predicate OnTrack(start: State, limits: Limits, replies: seq<Option<seq<Answer>>>,
                          s: State, handled: nat, scanned: nat, n: nat, more: bool, ok: bool)
    requires n <= |replies|
  {
    if more
    then ok && Invocation(start, limits, 0, 0, replies) == Invocation(s, limits, handled, scanned, replies[n..])
    else Invocation(start, limits, 0, 0, replies) == Outcome(s, handled, scanned, ok)
  }

  lemma Advance(start: State, limits: Limits, replies: seq<Option<seq<Answer>>>,
                s: State, handled: nat, scanned: nat, n: nat, ok: bool)
    requires handled < limits.products && scanned < limits.scanRows && n < |replies| && limits.batch > 0
    requires OnTrack(start, limits, replies, s, handled, scanned, n, true, ok)
    ensures var e := Pass(s, limits.products - handled, Min(limits.batch, limits.scanRows - scanned), replies[n]);
      OnTrack(start, limits, replies, e.state, handled + e.used, scanned + e.visited, n + 1, e.more, e.ok)
  {
    Unfold(s, limits, handled, scanned, replies, n);
    hide Invocation;
    MoreIsOk(s, limits.products - handled, Min(limits.batch, limits.scanRows - scanned), replies[n]);
    hide Pass;
  }

  lemma TurnFacts(start: State, limits: Limits, replies: seq<Option<seq<Answer>>>,
                  s: State, handled: nat, scanned: nat, n: nat, room: int, limit: int)
    requires handled < limits.products && scanned < limits.scanRows && n < |replies| && limits.batch > 0
    requires room == limits.products - handled && limit == Min(limits.batch, limits.scanRows - scanned)
    requires Inv(s) && s.plan.None? && !s.completed
    requires OnTrack(start, limits, replies, s, handled, scanned, n, true, true)
    ensures room > 0 && limit > 0
    ensures var e := Pass(s, room, limit, replies[n]);
      && Inv(e.state) && e.state.plan.None? && (e.more ==> !e.state.completed && e.ok)
      && OnTrack(start, limits, replies, e.state, handled + e.used, scanned + e.visited, n + 1, e.more, e.ok)
  {
    hide *;
    RoomIsLeft(limits, scanned);
    PassKeeps(s, room, limit, replies[n]);
    Advance(start, limits, replies, s, handled, scanned, n, true);
    MoreIsOk(s, room, limit, replies[n]);
    var e := Pass(s, room, limit, replies[n]);
    FitsMeans(s, room, limit, e);
  }

  lemma RoomIsLeft(limits: Limits, scanned: nat)
    requires scanned < limits.scanRows && limits.batch > 0
    ensures Min(limits.batch, limits.scanRows - scanned) > 0
  {
  }

  lemma FitsMeans(s: State, room: nat, limit: nat, e: PassEnd)
    requires PassFits(s, room, limit, e)
    ensures Inv(e.state) && e.state.plan.None? && (e.more ==> !e.state.completed)
  {
    hide Inv;
  }

  lemma MoreIsOk(s: State, room: nat, limit: nat, reply: Option<seq<Answer>>)
    ensures Pass(s, room, limit, reply).more ==> Pass(s, room, limit, reply).ok
  {
    hide Discovered, Saved, Saveable;
  }

  lemma Arrived(start: State, limits: Limits, replies: seq<Option<seq<Answer>>>,
                s: State, handled: nat, scanned: nat, n: nat, more: bool, ok: bool)
    requires n <= |replies| && OnTrack(start, limits, replies, s, handled, scanned, n, more, ok)
    requires !(more && handled < limits.products && scanned < limits.scanRows && n < |replies| && limits.batch > 0)
    ensures Invocation(start, limits, 0, 0, replies) == Outcome(s, handled, scanned, ok)
  {
    hide Pass;
  }

  lemma Unfold(s: State, limits: Limits, handled: nat, scanned: nat, replies: seq<Option<seq<Answer>>>, n: nat)
    requires handled < limits.products && scanned < limits.scanRows && n < |replies| && limits.batch > 0
    ensures var e := Pass(s, limits.products - handled, Min(limits.batch, limits.scanRows - scanned), replies[n]);
      Invocation(s, limits, handled, scanned, replies[n..]) ==
        if !e.more then Outcome(e.state, handled + e.used, scanned + e.visited, e.ok)
        else Invocation(e.state, limits, handled + e.used, scanned + e.visited, replies[n + 1..])
  {
    hide Pass;
    assert replies[n..][0] == replies[n] && replies[n..][1..] == replies[n + 1..];
  }

  lemma NoneNew(lookups: Lookups)
    ensures WithNew(lookups, [] + []) == lookups
  {
  }

  lemma NewToo(lookups: Lookups, pending: seq<Identity>, invalid: seq<Identity>, key: Identity)
    ensures var l := WithNew(lookups, pending + invalid);
      var l' := if key in l then l else l[key := Lookup(Pending, None, 0)];
      && l' == WithNew(lookups, pending + [key] + invalid)
      && l' == WithNew(lookups, pending + (invalid + [key]))
  {
    assert Set(pending + [key] + invalid) == Set(pending + invalid) + {key};
    assert Set(pending + (invalid + [key])) == Set(pending + invalid) + {key};
  }

  lemma {:induction false} PlanStopped(rows: seq<Item>, lookups: Lookups, cycle: nat, cursor: nat, room: nat, n: nat)
    requires n <= |rows| && PlanOf(rows[..n], lookups, cycle, cursor, room).stopped
    ensures PlanOf(rows, lookups, cycle, cursor, room) == PlanOf(rows[..n], lookups, cycle, cursor, room)
    decreases |rows| - n
  {
    if n == |rows| {
      assert rows[..n] == rows;
    } else {
      assert rows[..n + 1][..n] == rows[..n];
      PlanStopped(rows, lookups, cycle, cursor, room, n + 1);
    }
  }

  lemma SaveStep(before: Lookups, pending: seq<Identity>, answers: seq<Answer>, i: nat, cycle: nat)
    requires i < |pending| == |answers| && forall j :: 0 <= j < |pending| ==> pending[j] in before
    ensures var front := SaveResults(before, pending[..i], answers[..i], cycle);
      && pending[i] in front
      && SaveResults(before, pending[..i + 1], answers[..i + 1], cycle)
         == front[pending[i] := Settled(front[pending[i]], answers[i], cycle)]
  {
    assert pending[..i + 1][..i] == pending[..i] && answers[..i + 1][..i] == answers[..i];
  }
}
