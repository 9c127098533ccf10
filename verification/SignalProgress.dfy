/** Which runs in flight can still succeed: an accepted run does, after enough calls of the worker, unless a client it
    has yet to evaluate carries an episode of a later cutoff; then it never does. */
module SignalProgress {
  import opened Prelude
  import opened Projection
  import opened Keyset
  import opened Source
  import opened Inactivity
  import opened Episodes
  import opened EpisodeStore
  import opened SignalRun
  import opened SignalRunSafety

  // ---------------------------------------------------------------- ended runs stay ended

  predicate Ended(r: Run)
  {
    r.status == Succeeded || r.status == Superseded
  }

  /** Whatever happens: a run that has ended stays as it is. */
  lemma {:induction false} EndedStays(db: Db, e: Action, i: nat)
    requires Inv(db) && i < |db.runs| && Ended(db.runs[i])
    ensures i < |Apply(db, e).runs| && Apply(db, e).runs[i] == db.runs[i]
  {
    ActiveIsNotEnded(db, i);
    if e.WorkerCall? {
      var call, m := e.call, e.maths;
      hide *;
      WorkerMay(db, call, m);
      if m.log1p(VALUE_CEILING) > 0.0 && call.now > db.clock {
        OthersUntouched(db, call, m, i);
      }
    } else {
      hide Inv, Ended;
      OuterOthers(db, e, i);
    }
  }

  lemma ActiveIsNotEnded(db: Db, i: nat)
    requires Inv(db) && i < |db.runs| && Ended(db.runs[i])
    ensures db.active != Some(i)
  {
  }

  lemma OuterOthers(db: Db, e: Action, i: nat)
    requires i < |db.runs| && !e.WorkerCall? && db.active != Some(i)
    ensures i < |Apply(db, e).runs| && Apply(db, e).runs[i] == db.runs[i]
  {
    hide RunBatch, Insertable, Insert, Remove;
  }

  /** A call of the worker changes the active run and adds new ones, and nothing else. */
  lemma {:induction false} OthersUntouched(db: Db, call: Call, m: Maths, i: nat)
    requires m.log1p(VALUE_CEILING) > 0.0 && i < |db.runs| && db.active != Some(i)
    ensures var db' := RunBatch(db, call, m).0;
      i < |db'.runs| && db'.runs[i] == db.runs[i]
  {
    StartFrame(db, call, m, i);
    if db.active.Some? && db.active.value < |db.runs| {
      ResumeFrame(db, db.active.value, call, m, i);
    }
    hide Resume, Start;
  }

  lemma {:induction false} ResumeFrame(db: Db, id: nat, call: Call, m: Maths, i: nat)
    requires m.log1p(VALUE_CEILING) > 0.0 && i < |db.runs| && id < |db.runs| && i != id
    ensures var db' := Resume(db, id, call, m).0;
      i < |db'.runs| && db'.runs[i] == db.runs[i]
  {
    AdvanceFrame(WithRun(db, id, db.runs[id].(status := Running, error := None)), id, call, m);
    hide Advance, Incompatible, ResumeBlocker, ContextOf, ScopeInUse;
  }

  lemma {:induction false} EndedForGood(db: Db, i: nat, events: seq<Action>)
    requires Inv(db) && i < |db.runs| && Ended(db.runs[i])
    ensures i < |Play(db, events).runs| && Play(db, events).runs[i] == db.runs[i]
  {
    if events != [] {
      var front := events[..|events| - 1];
      EndedForGood(db, i, front);
      HistoryKeeps(db, front);
      hide Inv, Apply;
      EndedStays(Play(db, front), events[|events| - 1], i);
    }
  }

  // ---------------------------------------------------------------- runs that cannot succeed

  /** The last episode of the client has a cutoff after the one of the run. */
  predicate Late(book: Book, k: Text, asOf: Day)
  {
    HistoryOf(book, k) != [] && HistoryOf(book, k)[|HistoryOf(book, k)| - 1].row.asOf > asOf
  }

  predicate InScope(scope: Scope, k: Text)
  {
    scope.clients.Some? ==> k in scope.clients.value
  }

  /** The run has still to evaluate a client with an episode of a later cutoff. */
  predicate Blocking(book: Book, r: Run, k: Text)
  {
    InScope(r.scope, k) && !(r.clientCursor.Some? && k <= r.clientCursor.value) && Late(book, k, r.asOf)
  }

  predicate Doomed(book: Book, r: Run)
  {
    exists k :: k in book && Blocking(book, r, k)
  }

  /** A blocking client stays ahead of the next batch, unless the batch fails on it. */
  lemma {:induction false} BlockingAhead(book: Book, r: Run, size: nat, k: Text)
    requires size > 0 && k in book && Blocking(book, r, k)
    ensures var ks := NextKeys(Universe(book, r), r.clientCursor, size);
      ks != [] && (k in ks || ks[|ks| - 1] < k)
  {
    var all := Universe(book, r);
    var left := all - KeysUpTo(all, r.clientCursor);
    assert k in left;
    hide Late, Universe;
    var ks := FirstKeys(left, size);
    if k !in ks {
      FirstKeysCut(left, size, k, ks[|ks| - 1]);
    }
  }

  lemma BlockingFails(book: Book, r: Run, cases: seq<Case>, ks: seq<Text>, b: Batch, k: Text)
    requires KeysOf(cases) == ks && k in ks && Late(book, k, r.asOf) && b.asOf == r.asOf
    ensures !Forward(book, cases, b)
  {
    ClientsAre(cases, ks);
    hide KeysOf;
    var j :| 0 <= j < |ks| && ks[j] == k;
    assert Backwards(HistoryOf(book, cases[j].f.client), b);
  }

  lemma BlockingLater(r: Run, book: Book, cases: seq<Case>, ks: seq<Text>, b: Batch, now: int, k: Text)
    requires Sane(cases) && KeysOf(cases) == ks && ks != []
    requires Blocking(book, r, k) && k !in ks && ks[|ks| - 1] < k
    ensures Doomed(OneByOne(book, cases, b), AfterBatch(r, book, cases, ks, b, now))
  {
    HistoryOutsideBatch(book, cases, b, k);
    hide OneByOne, CountAll, KeysOf, Sane;
    assert k in OneByOne(book, cases, b);
    assert Blocking(OneByOne(book, cases, b), AfterBatch(r, book, cases, ks, b, now), k);
  }

  lemma {:induction false} AssessDoomed(db: Db, i: nat, call: Call, m: Maths)
    requires m.log1p(VALUE_CEILING) > 0.0 && i < |db.runs| && call.clientSize > 0 && db.runs[i].phase != Scan
    requires db.runs[i].status == Running && Doomed(db.book, db.runs[i])
    ensures var next := Advance(db, i, call, m);
      next.Some? ==> next.value.runs[i].status == Running && Doomed(next.value.book, next.value.runs[i])
  {
    var r := db.runs[i];
    var k :| k in db.book && Blocking(db.book, r, k);
    BlockingAhead(db.book, r, call.clientSize, k);
    var ks := NextKeys(Universe(db.book, r), r.clientCursor, call.clientSize);
    var b := Batch(i, r.asOf, call.now, r.scope.pilot, r.decision);
    var cases := CasesFor(r, ks, m);
    AssessIs(db, i, call, m, ks);
    if k in ks {
      BlockingFails(db.book, r, cases, ks, b, k);
    } else {
      BlockingLater(r, db.book, cases, ks, b, call.now, k);
    }
    hide OneByOne, CountAll, Forward, NextKeys, Universe, CasesFor, Advance, Doomed;
  }

  lemma {:induction false} AdvanceDoomed(db: Db, i: nat, call: Call, m: Maths)
    requires m.log1p(VALUE_CEILING) > 0.0 && i < |db.runs| && call.clientSize > 0
    requires db.runs[i].status == Running && Doomed(db.book, db.runs[i])
    ensures var next := Advance(db, i, call, m);
      next.Some? ==> next.value.runs[i].status == Running && Doomed(next.value.book, next.value.runs[i])
  {
    if db.runs[i].phase != Scan {
      AssessDoomed(db, i, call, m);
    } else {
      ScanIs(db, i, call, m);
      hide Advance, Doomed, Window, MergeDays, MergePhones, OnePassDays, CountMissing;
      SameBlocking(db.book, db.runs[i], Advance(db, i, call, m).value.runs[i]);
    }
  }

  /** Everything but the worker leaves the episodes and the checkpoint of a run as they are. */
  lemma {:induction false} OuterRun(db: Db, e: Action, i: nat)
    requires i < |db.runs| && !e.WorkerCall?
    ensures Apply(db, e).book == db.book && i < |Apply(db, e).runs|
    ensures var r, r' := db.runs[i], Apply(db, e).runs[i];
      && r'.asOf == r.asOf && r'.scope == r.scope && r'.clientCursor == r.clientCursor && (InFlight(r) ==> InFlight(r'))
  {
    hide Insertable, RunBatch, Insert, Remove;
  }

  lemma SameBlocking(book: Book, r: Run, r': Run)
    requires r'.asOf == r.asOf && r'.scope == r.scope && r'.clientCursor == r.clientCursor
    ensures Doomed(book, r) <==> Doomed(book, r')
  {
    hide Late, InScope;
    assert forall k :: k in book ==> (Blocking(book, r, k) <==> Blocking(book, r', k));
  }

  function Taken(db: Db, i: nat): Db
    requires i < |db.runs|
  {
    WithRun(db, i, db.runs[i].(status := Running, error := None))
  }

  lemma TakenDoomed(db: Db, i: nat)
    requires i < |db.runs|
    ensures i < |Taken(db, i).runs| && Taken(db, i).deployed == db.deployed
    ensures Doomed(Taken(db, i).book, Taken(db, i).runs[i]) <==> Doomed(db.book, db.runs[i])
  {
    SameBlocking(db.book, db.runs[i], Taken(db, i).runs[i]);
    hide Doomed;
  }

  /** Still in flight and doomed, or superseded. */
  predicate NoSuccess(db: Db, i: nat)
  {
    && i < |db.runs|
    && (db.runs[i].status == Superseded || (InFlight(db.runs[i]) && Doomed(db.book, db.runs[i])))
  }

  /** Only being superseded ends a doomed run. */
  lemma {:induction false} DoomedStays(db: Db, e: Action, i: nat)
    requires Inv(db) && i < |db.runs| && InFlight(db.runs[i]) && Doomed(db.book, db.runs[i])
    ensures NoSuccess(Apply(db, e), i)
  {
    assert NoSuccess(db, i);
    OneInFlight(db, i);
    if e.WorkerCall? {
      var call, m := e.call, e.maths;
      hide *;
      WorkerMay(db, call, m);
      if m.log1p(VALUE_CEILING) > 0.0 && call.now > db.clock {
        WorkerDoomed(db, call, m, i);
      }
    } else {
      OuterRun(db, e, i);
      hide Inv, Apply, Doomed;
      SameBlocking(db.book, db.runs[i], Apply(db, e).runs[i]);
    }
  }

  lemma {:induction false} WorkerDoomed(db: Db, call: Call, m: Maths, i: nat)
    requires m.log1p(VALUE_CEILING) > 0.0 && i < |db.runs| && db.active == Some(i)
    requires InFlight(db.runs[i]) && Doomed(db.book, db.runs[i])
    ensures NoSuccess(RunBatch(db, call, m).0, i)
  {
    if call.clientSize > 0 {
      ResumeDoomed(db, call, m, i);
    }
    hide Resume, Start, Doomed;
  }

  lemma {:induction false} AgainDoomed(db: Db, call: Call, m: Maths, i: nat)
    requires m.log1p(VALUE_CEILING) > 0.0 && i < |db.runs| && call.clientSize > 0 && Doomed(db.book, db.runs[i])
    ensures var next := Advance(Taken(db, i), i, call, m);
      next.Some? ==> NoSuccess(next.value, i)
  {
    TakenDoomed(db, i);
    hide Advance, Doomed;
    AdvanceDoomed(Taken(db, i), i, call, m);
    AdvanceFrame(Taken(db, i), i, call, m);
  }

  lemma {:induction false} ResumeDoomed(db: Db, call: Call, m: Maths, i: nat)
    requires m.log1p(VALUE_CEILING) > 0.0 && i < |db.runs| && call.clientSize > 0
    requires InFlight(db.runs[i]) && Doomed(db.book, db.runs[i])
    ensures NoSuccess(Resume(db, i, call, m).0, i)
  {
    assert NoSuccess(db, i);
    assert forall e :: NoSuccess(Supersede(db, i, e, call.now), i);
    AgainDoomed(db, call, m, i);
    hide Advance, Incompatible, ResumeBlocker, ContextOf, ScopeInUse, Doomed, NoSuccess, Supersede;
  }

  lemma NoSuccessIs(db: Db, i: nat)
    requires NoSuccess(db, i)
    ensures i < |db.runs| && db.runs[i].status != Succeeded
  {
    hide Doomed;
  }

  lemma {:induction false} NoSuccessStays(db: Db, e: Action, i: nat)
    requires Inv(db) && NoSuccess(db, i)
    ensures NoSuccess(Apply(db, e), i)
  {
    hide Inv, Apply, Doomed;
    if InFlight(db.runs[i]) {
      DoomedStays(db, e, i);
    } else {
      EndedStays(db, e, i);
    }
  }

  /** A doomed run succeeds in no later history, whatever happens in it. */
  lemma {:induction false} DoomedNeverSucceeds(db: Db, i: nat, events: seq<Action>)
    requires Inv(db) && i < |db.runs| && InFlight(db.runs[i]) && Doomed(db.book, db.runs[i])
    ensures NoSuccess(Play(db, events), i) && Play(db, events).runs[i].status != Succeeded
  {
    if events == [] {
      assert Play(db, events) == db && NoSuccess(db, i);
    } else {
      var front, e := events[..|events| - 1], events[|events| - 1];
      assert events == front + [e];
      hide *;
      DoomedNeverSucceeds(db, i, front);
      HistoryKeeps(db, front);
      PlayMore(db, front, e);
      NoSuccessStays(Play(db, front), e, i);
      NoSuccessIs(Play(db, events), i);
    }
  }

  // ---------------------------------------------------------------- what is left to do

  /** The clients that the run will have to evaluate, once all sales are scanned. */
  function Goal(book: Book, r: Run, sales: seq<Sale>): set<Text>
  {
    Universe(book, r.(days := OnePassDays(sales, ViewOf(r))))
  }

  function Remaining(book: Book, r: Run): set<Text>
  {
    Universe(book, r) - KeysUpTo(Universe(book, r), r.clientCursor)
  }

  /** An upper bound for the batches to come: one a row, one a client, and the ends of both phases. */
  function Left(book: Book, r: Run, sales: seq<Sale>): nat
  {
    if r.phase == Scan then |sales| - CountUpTo(sales, r.saleCursor) + |Goal(book, r, sales)| + 2
    else |Remaining(book, r)| + 1
  }

  lemma {:induction false} ScanLeft(book: Book, r: Run, sales: seq<Sale>, size: nat)
    requires Snapshotted(r, sales) && r.phase == Scan && r.clientCursor.None? && size > 0
    ensures Left(book, ScanBatch(r, sales, size), sales) < Left(book, r, sales)
  {
    var rows, r' := Window(sales, r.saleCursor, r.upper, size), ScanBatch(r, sales, size);
    WindowExtends(sales, r.saleCursor, r.upper, size);
    if rows == [] {
      ScanKeepsSnapshot(r, sales, size);
      hide Window, OnePassDays, OnePassPhones, CountMissing, Sorted, MaxId, CountUpTo;
      ScanEnds(book, r, sales);
    } else {
      hide Window, OnePassDays, OnePassPhones, CountMissing, Sorted, MaxId, CountUpTo, MergeDays, MergePhones, Universe;
      assert |UpTo(sales, r'.saleCursor)| == |UpTo(sales, r.saleCursor)| + |rows|;
      assert ViewOf(r') == ViewOf(r);
      SameGoal(book, r, r', sales);
    }
  }

  lemma ScanEnds(book: Book, r: Run, sales: seq<Sale>)
    requires Snapshotted(r.(phase := Assess), sales) && r.clientCursor.None?
    ensures Remaining(book, r.(phase := Assess)) == Goal(book, r, sales)
  {
    var r' := r.(phase := Assess);
    assert ViewOf(r') == ViewOf(r);
    hide OnePassDays, OnePassPhones, CountMissing, Sorted, MaxId, UpTo;
    assert r'.days == OnePassDays(sales, ViewOf(r));
    SameUniverse(book, r', r.(days := OnePassDays(sales, ViewOf(r))));
    assert KeysUpTo(Universe(book, r'), None) == {};
  }

  lemma SameUniverse(book: Book, r: Run, r': Run)
    requires r'.days == r.days && r'.scope == r.scope
    ensures Universe(book, r') == Universe(book, r)
  {
  }

  lemma SameGoal(book: Book, r: Run, r': Run, sales: seq<Sale>)
    requires r'.asOf == r.asOf && r'.scope == r.scope
    ensures Goal(book, r', sales) == Goal(book, r, sales)
  {
    assert ViewOf(r') == ViewOf(r);
    hide OnePassDays, Universe;
    SameUniverse(book, r.(days := OnePassDays(sales, ViewOf(r))), r'.(days := OnePassDays(sales, ViewOf(r))));
  }

  /** An evaluation batch takes its clients off. */
  lemma {:induction false} RemainingShrinks(all: set<Text>, cursor: Option<Text>, size: nat)
    requires NextKeys(all, cursor, size) != []
    ensures var ks := NextKeys(all, cursor, size);
      |all - KeysUpTo(all, Some(ks[|ks| - 1]))| < |all - KeysUpTo(all, cursor)|
  {
    var left := all - KeysUpTo(all, cursor);
    var ks := NextKeys(all, cursor, size);
    var last := ks[|ks| - 1];
    FirstKeysIn(left, size, last);
    var after := all - KeysUpTo(all, Some(last));
    hide FirstKeys, NextKeys;
    assert after <= left;
    assert last !in after;
    Without(left, after);
  }

  // ---------------------------------------------------------------- one call of the worker

  /** The call finds the checkpoint as it left it, and its evidence still stands. */
  predicate Accepts(db: Db, i: nat, call: Call)
    requires i < |db.runs|
  {
    var r := db.runs[i];
    var requested := if call.asOf.Some? then call.asOf.value else r.decision.requested;
    && 1 <= call.scanSize <= 5000 && 1 <= call.clientSize <= 1000
    && db.holders == 0 && db.enabled && db.active == Some(i) && InFlight(r)
    && Incompatible(r, db.deployed).None? && requested == r.decision.requested
    && ResumeBlocker(r, ContextOf(db, call, requested), ScopeInUse(db.pending > 0, call.scope)).None?
  }

  /** Nothing changed that decides whether a checkpoint may go on. */
  predicate SameGround(db: Db, db': Db, i: nat)
    requires i < |db.runs|
  {
    && db'.sales == db.sales && db'.revision == db.revision && db'.pending == db.pending && db'.holders == db.holders
    && db'.enabled == db.enabled && db'.deployed == db.deployed && db'.active == db.active
    && i < |db'.runs|
    && var r, r' := db.runs[i], db'.runs[i];
       && InFlight(r') && (r'.phase == Scan || r'.phase == Assess)
       && r'.decision == r.decision && r'.revision == r.revision && r'.upper == r.upper && r'.asOf == r.asOf
       && r'.scope == r.scope && r'.algorithm == r.algorithm
  }

  lemma {:induction false} AcceptsStays(db: Db, db': Db, i: nat, call: Call)
    requires i < |db.runs| && SameGround(db, db', i) && Accepts(db, i, call)
    ensures Accepts(db', i, call)
  {
    hide Context, MaxId, ScopeInUse;
  }

  lemma {:induction false} AcceptedCall(db: Db, i: nat, call: Call, m: Maths)
    requires m.log1p(VALUE_CEILING) > 0.0 && i < |db.runs| && Accepts(db, i, call)
    ensures RunBatch(db, call, m) ==
      var next := Advance(Taken(db, i), i, call, m);
      if next.None? then (db, Raised) else (next.value, Done(i, next.value.runs[i].status))
  {
    hide Advance, ResumeBlocker, Incompatible, ContextOf, ScopeInUse;
  }

  /** What an accepted call makes of a run that is not doomed: it is finished, or nearer to it. */
  predicate Nearer(db: Db, db': Db, i: nat)
    requires i < |db.runs|
  {
    && i < |db'.runs|
    && (db'.runs[i].status == Succeeded
        || (SameGround(db, db', i) && !Doomed(db'.book, db'.runs[i])
            && Left(db'.book, db'.runs[i], db'.sales) < Left(db.book, db.runs[i], db.sales)))
  }

  lemma NearerByRun(db: Db, i: nat, r': Run, book': Book, now: int)
    requires i < |db.runs|
    requires var r := db.runs[i];
      && InFlight(r') && (r'.phase == Scan || r'.phase == Assess) && r'.decision == r.decision && r'.revision == r.revision
      && r'.upper == r.upper && r'.asOf == r.asOf && r'.scope == r.scope && r'.algorithm == r.algorithm
      && !Doomed(book', r') && Left(book', r', db.sales) < Left(db.book, r, db.sales)
    ensures Nearer(db, WithRun(db, i, r').(book := book', clock := now), i)
  {
    hide Doomed, Left;
  }

  lemma {:induction false} InFlightFacts(db: Db, i: nat)
    requires Inv(db) && i < |db.runs| && Current(db, i)
    ensures Snapshotted(db.runs[i], db.sales) && Progress(db.book, db.runs[i]) && Admitted(db.runs[i])
  {
    assert RunOk(db, i) && FlightOk(db, i);
    CurrentSales(db, i);
    hide Snapshotted, Progress, Admitted, UpTo, GoodBook;
  }

  /** A scan batch on the run alone. */
  lemma {:induction false} ScanRunNearer(book: Book, r: Run, sales: seq<Sale>, size: nat, now: int)
    requires Snapshotted(r, sales) && r.phase == Scan && r.clientCursor.None? && size > 0 && !Doomed(book, r)
    ensures var r' := ScanBatch(r, sales, size).(heartbeat := now);
      && !Doomed(book, r') && Left(book, r', sales) < Left(book, r, sales)
      && r'.status == r.status && (r'.phase == Scan || r'.phase == Assess) && r'.decision == r.decision
      && r'.revision == r.revision && r'.upper == r.upper && r'.asOf == r.asOf && r'.scope == r.scope
      && r'.algorithm == r.algorithm
  {
    ScanLeft(book, r, sales, size);
    var scanned := ScanBatch(r, sales, size);
    hide Left, Doomed, Window, MergeDays, MergePhones, OnePassDays, CountMissing, Snapshotted;
    SameLeft(book, scanned, scanned.(heartbeat := now), sales);
    SameBlocking(book, r, scanned.(heartbeat := now));
  }

  lemma {:induction false} ScanNearer(db: Db, i: nat, call: Call, m: Maths)
    requires m.log1p(VALUE_CEILING) > 0.0 && Ready(db, i, call) && Inv(db) && db.runs[i].phase == Scan
    requires !Doomed(db.book, db.runs[i])
    ensures Advance(db, i, call, m).Some? && Nearer(db, Advance(db, i, call, m).value, i)
  {
    var r := db.runs[i];
    InFlightFacts(db, i);
    assert r.clientCursor.None? && forall r': Run :: r'.status == r.status ==> InFlight(r');
    hide *;
    ScanIs(db, i, call, m);
    ScanRunNearer(db.book, r, db.sales, call.scanSize, call.now);
    NearerByRun(db, i, ScanBatch(r, db.sales, call.scanSize).(heartbeat := call.now), db.book, call.now);
  }

  lemma SameLeft(book: Book, r: Run, r': Run, sales: seq<Sale>)
    requires r' == r.(status := r'.status, error := r'.error, heartbeat := r'.heartbeat)
    ensures Left(book, r', sales) == Left(book, r, sales)
  {
    SameGoal(book, r, r', sales);
    SameUniverse(book, r, r');
    hide Universe, Goal, KeysUpTo, CountUpTo;
  }

  /** No client of the next batch blocks it, if none of those to come does. */
  lemma {:induction false} GoesForward(r: Run, book: Book, sales: seq<Sale>, size: nat, cases: seq<Case>, ks: seq<Text>, b: Batch)
    requires Snapshotted(r, sales) && !Doomed(book, r) && b.asOf == r.asOf
    requires ks == NextKeys(Universe(book, r), r.clientCursor, size) && KeysOf(cases) == ks
    ensures Forward(book, cases, b)
  {
    DaysInScope(r, sales);
    ClientsAre(cases, ks);
    hide Snapshotted, KeysOf, NextKeys;
    forall j | 0 <= j < |cases|
      ensures !Backwards(HistoryOf(book, cases[j].f.client), b)
    {
      AheadInUniverse(book, r, size, ks, j);
      var k := ks[j];
      assert k in book ==> !Blocking(book, r, k);
    }
  }

  lemma AheadInUniverse(book: Book, r: Run, size: nat, ks: seq<Text>, j: nat)
    requires ks == NextKeys(Universe(book, r), r.clientCursor, size) && j < |ks|
    ensures ks[j] in Universe(book, r) && !(r.clientCursor.Some? && ks[j] <= r.clientCursor.value)
  {
    FirstKeysIn(Universe(book, r) - KeysUpTo(Universe(book, r), r.clientCursor), size, ks[j]);
    hide Universe;
  }

  lemma BatchUpToLast(book: Book, r: Run, size: nat, ks: seq<Text>, k: Text)
    requires ks == NextKeys(Universe(book, r), r.clientCursor, size) && ks != [] && k > ks[|ks| - 1]
    ensures k !in ks && !(r.clientCursor.Some? && k <= r.clientCursor.value)
  {
    AheadInUniverse(book, r, size, ks, |ks| - 1);
    FirstKeysAscend(Universe(book, r) - KeysUpTo(Universe(book, r), r.clientCursor), size);
    hide Universe, FirstKeys;
  }

  lemma StillClearOf(r: Run, book: Book, size: nat, cases: seq<Case>, ks: seq<Text>, b: Batch, now: int, k: Text)
    requires !Doomed(book, r) && Sane(cases) && KeysOf(cases) == ks && ks != []
    requires ks == NextKeys(Universe(book, r), r.clientCursor, size)
    ensures !Blocking(OneByOne(book, cases, b), AfterBatch(r, book, cases, ks, b, now), k)
  {
    assert k in book ==> !Blocking(book, r, k);
    hide OneByOne, AfterBatch, NextKeys, Universe, KeysOf, Sane, InScope, Doomed, CountAll, Forward;
    AfterBatchIs(r, book, cases, ks, b, now);
    if k > ks[|ks| - 1] {
      BatchUpToLast(book, r, size, ks, k);
      HistoryOutsideBatch(book, cases, b, k);
    }
  }

  /** A batch leaves nothing behind that blocks the next ones. */
  lemma {:induction false} StillClear(r: Run, book: Book, size: nat, cases: seq<Case>, ks: seq<Text>, b: Batch, now: int)
    requires !Doomed(book, r) && Sane(cases) && KeysOf(cases) == ks && ks != []
    requires ks == NextKeys(Universe(book, r), r.clientCursor, size)
    ensures !Doomed(OneByOne(book, cases, b), AfterBatch(r, book, cases, ks, b, now))
  {
    hide OneByOne, AfterBatch, NextKeys, Universe, KeysOf, Sane, Blocking;
    forall k
      ensures !Blocking(OneByOne(book, cases, b), AfterBatch(r, book, cases, ks, b, now), k)
    {
      StillClearOf(r, book, size, cases, ks, b, now, k);
    }
  }

  lemma {:induction false} BatchInUniverse(r: Run, book: Book, sales: seq<Sale>, size: nat, cases: seq<Case>, ks: seq<Text>,
                                           b: Batch)
    requires Snapshotted(r, sales) && Sane(cases) && KeysOf(cases) == ks
    requires ks == NextKeys(Universe(book, r), r.clientCursor, size)
    ensures Universe(OneByOne(book, cases, b), r) == Universe(book, r)
  {
    DaysInScope(r, sales);
    forall k | k in ks
      ensures k in Universe(book, r)
    {
      FirstKeysIn(Universe(book, r) - KeysUpTo(Universe(book, r), r.clientCursor), size, k);
    }
    hide Snapshotted, Universe, OneByOne, KeysUpTo, FirstKeys, NextKeys;
    UniverseStable(book, r, cases, b);
  }

  lemma LeftAfter(book: Book, book': Book, r: Run, r': Run, sales: seq<Sale>, size: nat, ks: seq<Text>)
    requires ks == NextKeys(Universe(book, r), r.clientCursor, size) && ks != []
    requires Universe(book', r') == Universe(book, r) && r'.clientCursor == Some(ks[|ks| - 1])
    requires r.phase == r'.phase == Assess
    ensures Left(book', r', sales) < Left(book, r, sales)
  {
    hide Universe, NextKeys, KeysUpTo, Goal, CountUpTo;
    RemainingShrinks(Universe(book, r), r.clientCursor, size);
  }

  lemma {:induction false} BatchNearer(r: Run, book: Book, sales: seq<Sale>, size: nat, cases: seq<Case>, ks: seq<Text>,
                                       b: Batch, now: int)
    requires Snapshotted(r, sales) && r.phase == Assess && !Doomed(book, r) && b.asOf == r.asOf
    requires Sane(cases) && KeysOf(cases) == ks && ks != []
    requires ks == NextKeys(Universe(book, r), r.clientCursor, size)
    ensures Forward(book, cases, b)
    ensures !Doomed(OneByOne(book, cases, b), AfterBatch(r, book, cases, ks, b, now))
    ensures Left(OneByOne(book, cases, b), AfterBatch(r, book, cases, ks, b, now), sales) < Left(book, r, sales)
  {
    hide *;
    var book', r' := OneByOne(book, cases, b), AfterBatch(r, book, cases, ks, b, now);
    GoesForward(r, book, sales, size, cases, ks, b);
    StillClear(r, book, size, cases, ks, b, now);
    BatchInUniverse(r, book, sales, size, cases, ks, b);
    AfterBatchIs(r, book, cases, ks, b, now);
    SameUniverse(book', r, r');
    LeftAfter(book, book', r, r', sales, size, ks);
  }

  lemma {:induction false} AssessNearer(db: Db, i: nat, call: Call, m: Maths, ks: seq<Text>)
    requires m.log1p(VALUE_CEILING) > 0.0 && Ready(db, i, call) && Inv(db) && db.runs[i].phase == Assess
    requires ks == NextKeys(Universe(db.book, db.runs[i]), db.runs[i].clientCursor, call.clientSize) && ks != []
    requires !Doomed(db.book, db.runs[i])
    ensures Advance(db, i, call, m).Some? && Nearer(db, Advance(db, i, call, m).value, i)
  {
    var r := db.runs[i];
    var b := Batch(i, r.asOf, call.now, r.scope.pilot, r.decision);
    var cases := CasesFor(r, ks, m);
    assert Snapshotted(r, db.sales) && InFlight(r) by {
      assert RunOk(db, i);
      CurrentSales(db, i);
    }
    assert forall r': Run :: r'.status == r.status ==> InFlight(r');
    hide *;
    AssessIs(db, i, call, m, ks);
    BatchNearer(r, db.book, db.sales, call.clientSize, cases, ks, b, call.now);
    AfterBatchIs(r, db.book, cases, ks, b, call.now);
    NearerByRun(db, i, AfterBatch(r, db.book, cases, ks, b, call.now), OneByOne(db.book, cases, b), call.now);
  }

  lemma {:induction false} DoneNearer(db: Db, i: nat, call: Call, m: Maths)
    requires m.log1p(VALUE_CEILING) > 0.0 && Ready(db, i, call) && Inv(db) && db.runs[i].phase == Assess
    requires NextKeys(Universe(db.book, db.runs[i]), db.runs[i].clientCursor, call.clientSize) == []
    requires Incompatible(db.runs[i], db.deployed).None?
    ensures Advance(db, i, call, m).Some? && Nearer(db, Advance(db, i, call, m).value, i)
  {
    InFlightFacts(db, i);
    DoneIs(db, i, call, m);
    hide Inv, NextKeys, Universe, Advance, Left, Doomed, Balanced, Snapshotted, Progress, SameGround, Publish;
  }

  lemma {:induction false} AdvanceNearer(db: Db, i: nat, call: Call, m: Maths)
    requires m.log1p(VALUE_CEILING) > 0.0 && Ready(db, i, call) && Inv(db)
    requires Incompatible(db.runs[i], db.deployed).None? && !Doomed(db.book, db.runs[i])
    ensures Advance(db, i, call, m).Some? && Nearer(db, Advance(db, i, call, m).value, i)
  {
    hide Inv, Advance, NextKeys, Universe, Nearer, Doomed, Current;
    if db.runs[i].phase == Scan {
      ScanNearer(db, i, call, m);
    } else {
      var ks := NextKeys(Universe(db.book, db.runs[i]), db.runs[i].clientCursor, call.clientSize);
      if ks == [] {
        DoneNearer(db, i, call, m);
      } else {
        AssessNearer(db, i, call, m, ks);
      }
    }
  }

  lemma {:induction false} TakenReady(db: Db, i: nat, call: Call)
    requires Inv(db) && i < |db.runs| && Accepts(db, i, call) && call.now > db.clock
    ensures Inv(Taken(db, i)) && Ready(Taken(db, i), i, call) && Incompatible(Taken(db, i).runs[i], db.deployed).None?
  {
    var r := db.runs[i];
    var requested := if call.asOf.Some? then call.asOf.value else r.decision.requested;
    BlockerNone(db, i, call, requested);
    assert r.heartbeat <= db.clock by { assert RunOk(db, i); }
    hide Inv, ResumeBlocker, ContextOf, ScopeInUse, Current;
    CheckpointKept(db, i, Taken(db, i).runs[i], Taken(db, i));
  }

  lemma NearerFromTaken(db: Db, i: nat, next: Db)
    requires i < |db.runs| && Nearer(Taken(db, i), next, i)
    ensures Nearer(db, next, i)
  {
    SameLeft(db.book, db.runs[i], Taken(db, i).runs[i], db.sales);
    hide Left, Doomed;
  }

  lemma AdvanceClock(db: Db, i: nat, call: Call, m: Maths)
    requires m.log1p(VALUE_CEILING) > 0.0 && i < |db.runs|
    ensures Advance(db, i, call, m).Some? ==> Advance(db, i, call, m).value.clock == call.now
  {
    hide ScanBatch, NextKeys, Universe, CasesFor, Forward, OneByOne, CountAll, Publish, Publishable;
  }

  /** An accepted call brings a run that is not doomed nearer to its end. */
  lemma {:induction false} CallNearer(db: Db, i: nat, call: Call, m: Maths)
    requires m.log1p(VALUE_CEILING) > 0.0 && Inv(db) && i < |db.runs| && Accepts(db, i, call) && call.now > db.clock
    requires !Doomed(db.book, db.runs[i])
    ensures Nearer(db, Apply(db, WorkerCall(call, m)), i) && Apply(db, WorkerCall(call, m)).clock == call.now
  {
    hide *;
    TakenReady(db, i, call);
    TakenDoomed(db, i);
    AdvanceNearer(Taken(db, i), i, call, m);
    AdvanceClock(Taken(db, i), i, call, m);
    AcceptedCall(db, i, call, m);
    WorkerMay(db, call, m);
    NearerFromTaken(db, i, Advance(Taken(db, i), i, call, m).value);
  }

  // ---------------------------------------------------------------- enough calls

  /** Calls one after the other, each of which finds that the evidence still stands, with nothing in between. */
  predicate Undisturbed(db: Db, i: nat, events: seq<Action>)
    requires i < |db.runs|
  {
    && (forall j :: 0 <= j < |events| ==>
          events[j].WorkerCall? && events[j].maths.log1p(VALUE_CEILING) > 0.0 && events[j].call.now > db.clock
          && Accepts(db, i, events[j].call))
    && (forall j, k :: 0 <= j < k < |events| ==> events[j].call.now < events[k].call.now)
  }

  /** The state after some of the calls. */
  predicate Underway(db: Db, i: nat, later: Db, calls: nat, now: int)
    requires i < |db.runs|
  {
    && i < |later.runs|
    && (later.runs[i].status == Succeeded
        || (SameGround(db, later, i) && later.clock <= now && !Doomed(later.book, later.runs[i])
            && Left(later.book, later.runs[i], later.sales) + calls <= Left(db.book, db.runs[i], db.sales)))
  }

  lemma {:induction false} CallUnderway(db: Db, i: nat, before: Db, calls: nat, call: Call, m: Maths)
    requires i < |db.runs| && Inv(before) && m.log1p(VALUE_CEILING) > 0.0
    requires Underway(db, i, before, calls, call.now - 1) && Accepts(db, i, call)
    ensures Underway(db, i, Apply(before, WorkerCall(call, m)), calls + 1, call.now)
  {
    if before.runs[i].status == Succeeded {
      EndedStays(before, WorkerCall(call, m), i);
    } else {
      AcceptsStays(db, before, i, call);
      CallNearer(before, i, call, m);
    }
    hide Inv, Accepts, Apply, Left, Doomed;
  }

  lemma FrontUndisturbed(db: Db, i: nat, front: seq<Action>, e: Action)
    requires i < |db.runs| && Undisturbed(db, i, front + [e])
    ensures Undisturbed(db, i, front)
    ensures e.WorkerCall? && e.maths.log1p(VALUE_CEILING) > 0.0 && e.call.now > db.clock && Accepts(db, i, e.call)
    ensures front != [] ==> front[|front| - 1].WorkerCall? && front[|front| - 1].call.now < e.call.now
  {
    hide Accepts;
    var events := front + [e];
    assert events[|front|] == e;
    assert forall j :: 0 <= j < |front| ==> front[j] == events[j];
  }

  lemma PlayNone(db: Db)
    ensures Play(db, []) == db
  {
  }

  lemma {:induction false} CallsUnderway(db: Db, i: nat, front: seq<Action>, e: Action)
    requires Inv(db) && i < |db.runs| && Undisturbed(db, i, front + [e]) && !Doomed(db.book, db.runs[i])
    ensures e.WorkerCall? && Underway(db, i, Play(db, front + [e]), |front| + 1, e.call.now)
    decreases |front|
  {
    hide *;
    FrontUndisturbed(db, i, front, e);
    PlayMore(db, front, e);
    HistoryKeeps(db, front);
    if front == [] {
      PlayNone(db);
      Admits(db, i, e.call);
    } else {
      var before, last := front[..|front| - 1], front[|front| - 1];
      assert front == before + [last];
      CallsUnderway(db, i, before, last);
      Later(db, i, Play(db, front), |front|, last.call.now, e.call.now - 1);
    }
    CallUnderway(db, i, Play(db, front), |front|, e.call, e.maths);
  }

  lemma Later(db: Db, i: nat, later: Db, calls: nat, now: int, until: int)
    requires i < |db.runs| && Underway(db, i, later, calls, now) && now <= until
    ensures Underway(db, i, later, calls, until)
  {
    hide SameGround, Left, Doomed;
  }

  lemma Admits(db: Db, i: nat, call: Call)
    requires i < |db.runs| && Accepts(db, i, call) && call.now > db.clock && !Doomed(db.book, db.runs[i])
    ensures Underway(db, i, db, 0, call.now - 1)
  {
    hide Left, Doomed;
    hide ResumeBlocker, ContextOf, ScopeInUse;
  }

  lemma EnoughCalls(db: Db, i: nat, later: Db, calls: nat, now: int)
    requires i < |db.runs| && Underway(db, i, later, calls, now) && calls >= Left(db.book, db.runs[i], db.sales)
    ensures i < |later.runs| && later.runs[i].status == Succeeded
  {
    LeftIsPositive(later, i);
    hide Left, SameGround, Doomed;
  }

  lemma LeftIsPositive(db: Db, i: nat)
    ensures i < |db.runs| ==> Left(db.book, db.runs[i], db.sales) > 0
  {
    hide Goal, Remaining, CountUpTo;
  }

  lemma LeftNeedsCalls(db: Db, i: nat, events: seq<Action>)
    requires i < |db.runs| && Undisturbed(db, i, events) && |events| >= Left(db.book, db.runs[i], db.sales)
    ensures events != [] && InFlight(db.runs[i])
  {
    LeftIsPositive(db, i);
    hide Left;
    assert Accepts(db, i, events[0].call);
    hide ResumeBlocker, ContextOf, ScopeInUse, Incompatible;
  }

  /** Exactly when an accepted run succeeds: as many undisturbed calls as there are batches left, whatever their sizes,
      publish it, unless a client still to evaluate has an episode of a later cutoff. */
  lemma {:induction false} SucceedsExactly(db: Db, i: nat, events: seq<Action>)
    requires Inv(db) && i < |db.runs| && Undisturbed(db, i, events)
    requires |events| >= Left(db.book, db.runs[i], db.sales)
    ensures i < |Play(db, events).runs|
    ensures Play(db, events).runs[i].status == Succeeded <==> !Doomed(db.book, db.runs[i])
  {
    hide *;
    LeftNeedsCalls(db, i, events);
    if Doomed(db.book, db.runs[i]) {
      DoomedNeverSucceeds(db, i, events);
      NoSuccessIs(Play(db, events), i);
    } else {
      var front, e := events[..|events| - 1], events[|events| - 1];
      assert events == front + [e];
      CallsUnderway(db, i, front, e);
      EnoughCalls(db, i, Play(db, events), |events|, e.call.now);
    }
  }
}
