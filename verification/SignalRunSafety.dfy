/** What every reachable state of the signal database satisfies, and what a published run therefore is. */
module SignalRunSafety {
  import opened Prelude
  import opened Projection
  import opened Keyset
  import opened Source
  import opened Inactivity
  import opened Episodes
  import opened EpisodeStore
  import opened SignalRun

  // ---------------------------------------------------------------- the invariant

  /** The tables of a run are the one-pass tables of the scanned prefix of its snapshot. */
  predicate Snapshotted(r: Run, sales: seq<Sale>)
  {
    var prefix := UpTo(sales, r.saleCursor);
    && Sorted(sales) && MaxId(sales) == r.upper && r.saleCursor <= r.upper
    && r.days == OnePassDays(prefix, ViewOf(r))
    && r.phones == OnePassPhones(prefix, ViewOf(r))
    && r.scanned == |prefix| && r.missing == CountMissing(prefix, ViewOf(r))
    && (r.phase != Scan ==> prefix == sales)
  }

  /** An accepted run carries the evidence it was accepted with; its counters describe its evaluations. */
  predicate Admitted(r: Run)
  {
    && r.decision.allowed && r.decision.effective == Some(r.asOf)
    && r.decision.revision == r.revision && r.decision.upper == r.upper
    && (InFlight(r) ==> r.phase == Scan || r.phase == Assess)
    && (r.status == Succeeded ==> r.phase == Complete)
    && Ascending(r.evaluated) && r.counts[Processed] == |r.evaluated| && Balanced(r.counts)
  }

  predicate RunOk(db: Db, i: nat)
    requires i < |db.runs| == |db.origins|
  {
    var r := db.runs[i];
    && r.heartbeat <= db.clock
    && (r.status != Blocked ==>
          && Admitted(r) && Snapshotted(r, db.origins[i].sales)
          && r.revision <= db.revision && r.upper <= db.lastId && (db.holders > 0 ==> r.upper <= db.floor))
  }

  /** The clients evaluated so far are exactly those up to the cursor. */
  predicate Progress(book: Book, r: Run)
  {
    && (r.phase == Scan ==> r.evaluated == [] && r.clientCursor == None)
    && (r.phase == Assess ==> Members(r.evaluated) == KeysUpTo(Universe(book, r), r.clientCursor))
  }

  predicate FlightOk(db: Db, i: nat)
    requires i < |db.runs| == |db.origins|
  {
    var r := db.runs[i];
    InFlight(r) ==>
      && db.active == Some(i)
      && (r.revision == db.revision ==> UpTo(db.sales, r.upper) == db.origins[i].sales)
      && Progress(db.book, r)
      && Gain(r.counts) == |OpenClients(db.book)| - db.origins[i].open
      && (forall p :: p in db.publications && p < |db.runs| ==> db.runs[p].asOf <= r.asOf)
  }

  /** Sequence numbers are positions: 1..n without gaps, one per succeeded run, cutoffs never going back. */
  predicate PublicationsOk(db: Db)
  {
    && (forall j :: 0 <= j < |db.publications| ==>
          db.publications[j] < |db.runs| && db.runs[db.publications[j]].status == Succeeded)
    && (forall j, k :: 0 <= j < k < |db.publications| ==>
          db.publications[j] != db.publications[k]
          && db.runs[db.publications[j]].asOf <= db.runs[db.publications[k]].asOf)
    && (forall i :: 0 <= i < |db.runs| && db.runs[i].status == Succeeded ==> i in db.publications)
    && db.published == (if db.publications == [] then None else Some(db.publications[|db.publications| - 1]))
  }

  predicate TablesOk(db: Db)
  {
    && Sorted(db.sales) && MaxId(db.sales) <= db.lastId && GoodBook(db.book)
    && |db.runs| == |db.origins|
    && (db.active.Some? ==>
          && db.active.value < |db.runs|
          && (InFlight(db.runs[db.active.value]) || db.runs[db.active.value].status == Blocked))
  }

  predicate Inv(db: Db)
  {
    && TablesOk(db) && PublicationsOk(db)
    && (forall i :: 0 <= i < |db.runs| ==> RunOk(db, i))
    && (forall i :: 0 <= i < |db.runs| ==> FlightOk(db, i))
  }

  // ---------------------------------------------------------------- the environment keeps it

  /** Nothing but the named outer facts changed. */
  predicate SameRuns(db: Db, db': Db)
  {
    && db'.runs == db.runs && db'.origins == db.origins && db'.active == db.active && db'.book == db.book
    && db'.publications == db.publications && db'.published == db.published && db'.clock >= db.clock
    && db'.revision >= db.revision && db'.lastId >= db.lastId
  }

  lemma {:induction false} OuterChange(db: Db, db': Db)
    requires Inv(db) && SameRuns(db, db')
    requires Sorted(db'.sales) && MaxId(db'.sales) <= db'.lastId
    requires db'.holders > 0 ==> db'.floor == (if db.holders > 0 then db.floor else db.lastId)
    requires db'.revision > db.revision || forall i :: 0 <= i < |db.runs| && InFlight(db.runs[i]) ==>
      UpTo(db'.sales, db.runs[i].upper) == UpTo(db.sales, db.runs[i].upper)
    ensures Inv(db')
  {
    hide GoodBook, Admitted, Snapshotted, Progress, Gain, OpenClients;
    forall i | 0 <= i < |db.runs|
      ensures RunOk(db', i) && FlightOk(db', i)
    {
      assert RunOk(db, i) && FlightOk(db, i);
    }
  }

  lemma {:induction false} RowArrives(db: Db, s: Sale)
    requires Inv(db) && Insertable(db, s)
    ensures Inv(Apply(db, ImportRow(s)))
  {
    hide GoodBook, Admitted, Snapshotted, Progress, Gain, OpenClients, Insert;
    InsertSorted(db.sales, s);
    InsertAbove(db.sales, s, db.floor);
    forall i | 0 <= i < |db.runs| && InFlight(db.runs[i])
      ensures UpTo(Insert(db.sales, s), db.runs[i].upper) == UpTo(db.sales, db.runs[i].upper)
    {
      assert RunOk(db, i);
      InsertAbove(db.sales, s, db.runs[i].upper);
    }
    OuterChange(db, Apply(db, ImportRow(s)));
  }

  // ---------------------------------------------------------------- a run in flight changes

  lemma OneInFlight(db: Db, i: nat)
    requires Inv(db) && i < |db.runs| && InFlight(db.runs[i])
    ensures db.active == Some(i)
  {
    assert FlightOk(db, i);
  }

  /** The publications do not notice a change of a run that is not among them. */
  lemma {:induction false} PublicationsUntouched(db: Db, db': Db, i: nat)
    requires PublicationsOk(db) && i < |db.runs| && i !in db.publications
    requires db'.publications == db.publications && db'.published == db.published && |db'.runs| == |db.runs|
    requires forall j :: 0 <= j < |db.runs| && j != i ==> db'.runs[j] == db.runs[j]
    requires db'.runs[i].status != Succeeded
    ensures PublicationsOk(db')
  {
    var pubs := db.publications;
    forall j | 0 <= j < |pubs|
      ensures pubs[j] < |db.runs| && db'.runs[pubs[j]] == db.runs[pubs[j]] && db.runs[pubs[j]].status == Succeeded
    {
      assert pubs[j] in pubs;
    }
    forall k | 0 <= k < |db'.runs| && db'.runs[k].status == Succeeded
      ensures k in pubs
    {
      assert k != i && db'.runs[k] == db.runs[k];
    }
  }

  /** The same checkpoint with another in-flight status: paused, failed, or taken up again. */
  predicate SameCheckpoint(r: Run, r': Run)
  {
    InFlight(r) && InFlight(r')
    && r' == r.(status := r'.status, error := r'.error, errors := r'.errors, heartbeat := r'.heartbeat)
  }

  /** A run that is in the middle of nothing else: its checkpoint is as good as before. */
  lemma {:induction false} SameCheckpointOk(db: Db, i: nat, r': Run)
    requires Inv(db) && i < |db.runs| && SameCheckpoint(db.runs[i], r')
    ensures Admitted(r') && Snapshotted(r', db.origins[i].sales) && Progress(db.book, r')
  {
    assert RunOk(db, i) && FlightOk(db, i);
    assert ViewOf(r') == ViewOf(db.runs[i]);
    hide Inv, RunOk, FlightOk, KeysUpTo, OnePassDays, OnePassPhones, UpTo, CountMissing, Balanced, Sorted, MaxId;
  }

  lemma {:induction false} CheckpointFlight(db: Db, i: nat, r': Run, db': Db, j: nat)
    requires Inv(db) && i < |db.runs| && SameCheckpoint(db.runs[i], r') && j < |db.runs|
    requires db.clock <= db'.clock && r'.heartbeat <= db'.clock
    requires db' == WithRun(db, i, r').(clock := db'.clock, enabled := db'.enabled)
    ensures RunOk(db', j) && FlightOk(db', j)
  {
    SameCheckpointOk(db, i, r');
    OthersOut(db, i);
    assert RunOk(db, i) && FlightOk(db, i) && RunOk(db, j);
    assert forall p :: p in db.publications ==> p != i;
    hide Inv, GoodBook, Gain, OpenClients, UpTo, Admitted, Snapshotted, Progress, Sorted, MaxId;
  }

  lemma {:induction false} CheckpointKept(db: Db, i: nat, r': Run, db': Db)
    requires Inv(db) && i < |db.runs| && SameCheckpoint(db.runs[i], r')
    requires db.clock <= db'.clock && r'.heartbeat <= db'.clock
    requires db' == WithRun(db, i, r').(clock := db'.clock, enabled := db'.enabled)
    ensures Inv(db')
  {
    OthersOut(db, i);
    hide GoodBook, RunOk, FlightOk, Sorted, MaxId;
    PublicationsUntouched(db, db', i);
    assert TablesOk(db') by { OneInFlight(db, i); }
    hide PublicationsOk, TablesOk;
    forall j | 0 <= j < |db.runs|
      ensures RunOk(db', j) && FlightOk(db', j)
    {
      CheckpointFlight(db, i, r', db', j);
    }
  }

  lemma {:induction false} SupersededOk(r: Run, sales: seq<Sale>, e: Error, now: int)
    requires Admitted(r) && Snapshotted(r, sales) && InFlight(r)
    ensures Admitted(r.(status := Superseded, error := Some(e), heartbeat := now))
    ensures Snapshotted(r.(status := Superseded, error := Some(e), heartbeat := now), sales)
  {
    assert ViewOf(r.(status := Superseded, error := Some(e), heartbeat := now)) == ViewOf(r);
    hide OnePassDays, OnePassPhones, UpTo, CountMissing, Balanced, Sorted, MaxId;
  }

  lemma RestingOk(db: Db, j: nat)
    requires j < |db.runs| == |db.origins| && !InFlight(db.runs[j])
    ensures FlightOk(db, j)
  {
  }

  lemma {:induction false} SupersededRunOk(db: Db, i: nat, e: Error, now: int, j: nat)
    requires Inv(db) && i < |db.runs| && InFlight(db.runs[i]) && now > db.clock && j < |db.runs|
    ensures RunOk(Supersede(db, i, e, now), j)
  {
    assert RunOk(db, i) && RunOk(db, j);
    SupersededOk(db.runs[i], db.origins[i].sales, e, now);
    hide Inv, FlightOk, Admitted, Snapshotted;
  }

  lemma {:induction false} SupersedeKeeps(db: Db, i: nat, e: Error, now: int)
    requires Inv(db) && i < |db.runs| && InFlight(db.runs[i]) && now > db.clock
    ensures Inv(Supersede(db, i, e, now))
  {
    var db' := Supersede(db, i, e, now);
    OthersOut(db, i);
    hide GoodBook, RunOk, FlightOk, Sorted, MaxId;
    PublicationsUntouched(db, db', i);
    hide PublicationsOk;
    forall j | 0 <= j < |db.runs|
      ensures RunOk(db', j) && FlightOk(db', j)
    {
      SupersededRunOk(db, i, e, now, j);
      RestingOk(db', j);
    }
  }

  predicate Idle(db: Db)
    requires db.active.Some? ==> db.active.value < |db.runs|
  {
    db.active.None? || db.runs[db.active.value].status == Blocked
  }

  lemma {:induction false} NothingInFlight(db: Db, i: nat)
    requires Inv(db) && i < |db.runs| && Idle(db)
    ensures !InFlight(db.runs[i])
  {
    assert FlightOk(db, i);
  }

  lemma {:induction false} PublishedIsLatest(db: Db, p: nat)
    requires PublicationsOk(db) && p in db.publications
    ensures db.published.Some? && db.published.value < |db.runs| && p < |db.runs|
    ensures db.runs[p].asOf <= db.runs[db.published.value].asOf
  {
    var j :| 0 <= j < |db.publications| && db.publications[j] == p;
    assert db.publications[|db.publications| - 1] == db.published.value;
  }

  lemma {:induction false} StartFacts(db: Db, call: Call, requested: Day)
    ensures var scope := ScopeInUse(db.pending > 0, call.scope);
      var d := Guarded(db, ContextOf(db, call, requested), scope);
      && d.revision == db.revision && d.upper == MaxId(db.sales)
      && (d.allowed ==> d.effective.Some? && d.upper > 0)
      && (d.allowed && db.published.Some? && db.published.value < |db.runs| ==>
            db.runs[db.published.value].asOf <= d.effective.value)
  {
  }

  lemma {:induction false} PublicationsAppended(db: Db, r: Run, now: int)
    requires PublicationsOk(db) && r.status != Succeeded
    ensures PublicationsOk(Append(db, r, now))
  {
    hide OpenClients;
  }

  /** A new run starts from the database of this very transaction. */
  lemma {:induction false} AppendKeeps(db: Db, d: SourceDecision, scope: Scope, now: int)
    requires Inv(db) && Idle(db) && db.holders == 0 && now > db.clock
    requires d.revision == db.revision && d.upper == MaxId(db.sales)
    requires d.allowed ==> d.effective.Some?
    requires d.allowed ==> forall p :: p in db.publications && p < |db.runs| ==> db.runs[p].asOf <= d.effective.value
    ensures Inv(Append(db, FreshRun(db, d, scope, now), now))
  {
    hide GoodBook, OpenClients, Admitted, Snapshotted, Progress, Gain, UpTo;
    var r := FreshRun(db, d, scope, now);
    var db' := Append(db, r, now);
    FreshRunIsEmpty(db, d, scope, now);
    UpToMax(db.sales, r.upper);
    PublicationsAppended(db, r, now);
    hide PublicationsOk;
    forall i | 0 <= i < |db'.runs|
      ensures RunOk(db', i) && FlightOk(db', i)
    {
      if i < |db.runs| {
        assert RunOk(db, i) && FlightOk(db, i);
        NothingInFlight(db, i);
      }
    }
  }

  lemma {:induction false} FreshRunIsEmpty(db: Db, d: SourceDecision, scope: Scope, now: int)
    requires Sorted(db.sales) && d.revision == db.revision && d.upper == MaxId(db.sales)
    requires d.allowed ==> d.effective.Some?
    ensures var r := FreshRun(db, d, scope, now);
      d.allowed ==> Admitted(r) && Snapshotted(r, db.sales) && Progress(db.book, r) && Gain(r.counts) == 0
  {
    var r := FreshRun(db, d, scope, now);
    assert UpTo(db.sales, 0) == [];
    EmptyProjection(ViewOf(r));
    hide OnePassDays, OnePassPhones, UpTo;
  }

  lemma EmptyProjection(v: View)
    ensures OnePassDays([], v) == map[] && OnePassPhones([], v) == map[] && CountMissing([], v) == 0
  {
    assert Groups([], v) == {};
    assert Clients([], v) == {};
  }

  // ---------------------------------------------------------------- one batch of an accepted run

  lemma {:induction false} MissingAppend(a: seq<Sale>, b: seq<Sale>, v: View)
    ensures CountMissing(a + b, v) == CountMissing(a, v) + CountMissing(b, v)
  {
    if b == [] {
      assert a + b == a;
    } else {
      assert (a + b)[..|a + b| - 1] == a + b[..|b| - 1];
      MissingAppend(a, b[..|b| - 1], v);
    }
  }

  /** A scan batch of any size keeps the tables equal to one pass over the scanned prefix. */
  lemma {:induction false} ScanKeepsSnapshot(r: Run, sales: seq<Sale>, size: nat)
    requires Snapshotted(r, sales) && r.phase == Scan && size > 0
    ensures Snapshotted(ScanBatch(r, sales, size), sales)
  {
    var prefix, rows, v := UpTo(sales, r.saleCursor), Window(sales, r.saleCursor, r.upper, size), ViewOf(r);
    WindowExtends(sales, r.saleCursor, r.upper, size);
    UpToMax(sales, r.upper);
    if rows != [] {
      DaysStream(prefix, rows, v);
      PhonesStream(prefix, rows, v);
      MissingAppend(prefix, rows, v);
      hide Window, UpTo, OnePassDays, OnePassPhones, MergeDays, MergePhones, CountMissing;
    }
  }

  /** The transaction sees the very sales that the run began with. */
  predicate Current(db: Db, i: nat)
    requires i < |db.runs|
  {
    var r := db.runs[i];
    r.status == Running && r.revision == db.revision && r.upper == MaxId(db.sales) && db.holders == 0
  }

  lemma {:induction false} CurrentSales(db: Db, i: nat)
    requires Inv(db) && i < |db.runs| && Current(db, i)
    ensures db.origins[i].sales == db.sales
  {
    assert FlightOk(db, i);
    UpToMax(db.sales, db.runs[i].upper);
  }

  lemma {:induction false} OthersAtRest(db: Db, i: nat, j: nat)
    requires Inv(db) && i < |db.runs| && j < |db.runs| && i != j && InFlight(db.runs[i])
    ensures !InFlight(db.runs[j]) && i !in db.publications
  {
    assert FlightOk(db, i) && FlightOk(db, j);
  }

  /** The run in flight is replaced, and possibly the episodes with it. */
  lemma {:induction false} FlightReplaced(db: Db, i: nat, r': Run, book: Book, now: int)
    requires Inv(db) && i < |db.runs| && InFlight(db.runs[i]) && InFlight(r') && db.clock <= now
    requires r'.asOf == db.runs[i].asOf && r'.revision == db.runs[i].revision && r'.upper == db.runs[i].upper
    requires r'.heartbeat <= now && Admitted(r') && Snapshotted(r', db.origins[i].sales)
    requires GoodBook(book) && Progress(book, r') && Gain(r'.counts) == |OpenClients(book)| - db.origins[i].open
    ensures Inv(WithRun(db, i, r').(book := book, clock := now))
  {
    hide Snapshotted, Admitted, Progress, Gain, OpenClients, GoodBook, UpTo, Sorted, MaxId;
    var db' := WithRun(db, i, r').(book := book, clock := now);
    OthersOut(db, i);
    assert RunOk(db, i) && FlightOk(db, i);
    PublicationsUntouched(db, db', i);
    hide PublicationsOk;
    forall j | 0 <= j < |db.runs|
      ensures RunOk(db', j) && FlightOk(db', j)
    {
      assert RunOk(db, j);
    }
  }

  lemma {:induction false} OthersOut(db: Db, i: nat)
    requires Inv(db) && i < |db.runs| && InFlight(db.runs[i])
    ensures forall j :: 0 <= j < |db.runs| && j != i ==> !InFlight(db.runs[j])
    ensures i !in db.publications
  {
    forall j | 0 <= j < |db.runs| && j != i
      ensures !InFlight(db.runs[j])
    {
      OthersAtRest(db, i, j);
    }
  }

  lemma {:induction false} ScanKeeps(db: Db, i: nat, size: nat, now: int)
    requires Inv(db) && i < |db.runs| && Current(db, i) && db.runs[i].phase == Scan && size > 0 && now >= db.clock
    ensures Inv(WithRun(db, i, ScanBatch(db.runs[i], db.sales, size).(heartbeat := now)).(clock := now))
  {
    var r := db.runs[i];
    var r' := ScanBatch(r, db.sales, size).(heartbeat := now);
    CurrentSales(db, i);
    assert RunOk(db, i) && FlightOk(db, i);
    ScanKeepsRun(r, db.book, db.sales, size, now);
    hide Snapshotted, Admitted, Progress, Gain, OpenClients, GoodBook, UpTo, Sorted, MaxId, Inv, FlightOk, RunOk;
    assert WithRun(db, i, r').(clock := now) == WithRun(db, i, r').(book := db.book, clock := now);
    FlightReplaced(db, i, r', db.book, now);
  }

  lemma {:induction false} ScanKeepsRun(r: Run, book: Book, sales: seq<Sale>, size: nat, now: int)
    requires Admitted(r) && Snapshotted(r, sales) && Progress(book, r) && r.status == Running && r.phase == Scan && size > 0
    ensures var r' := ScanBatch(r, sales, size).(heartbeat := now);
      && Admitted(r') && Snapshotted(r', sales) && Progress(book, r') && r'.counts == r.counts && InFlight(r')
      && r'.asOf == r.asOf && r'.revision == r.revision && r'.upper == r.upper
  {
    var scanned := ScanBatch(r, sales, size);
    ScanKeepsSnapshot(r, sales, size);
    assert ViewOf(scanned.(heartbeat := now)) == ViewOf(scanned);
    assert KeysUpTo(Universe(book, scanned), None) == {};
    hide Balanced, UpTo, OnePassDays, OnePassPhones, CountMissing, Window, MergeDays, MergePhones, Universe;
  }

  // ---------------------------------------------------------------- evaluating clients

  lemma {:induction false} BookKeys(book: Book, ks: seq<Text>, hs: seq<History>, n: nat, k: Text)
    requires n <= |ks| == |hs|
    ensures k in PutAll(book, ks, hs, n) ==> k in book || k in ks
    ensures k in book ==> k in PutAll(book, ks, hs, n)
  {
    if n > 0 {
      BookKeys(book, ks, hs, n - 1, k);
    }
  }

  /** New episodes belong to clients that were to be evaluated anyway. */
  lemma {:induction false} UniverseStable(book: Book, r: Run, cases: seq<Case>, b: Batch)
    requires Sane(cases) && forall k :: k in KeysOf(cases) ==> k in Universe(book, r)
    requires r.scope.clients.Some? ==> forall g :: g in r.days ==> g.0 in r.scope.clients.value
    ensures Universe(OneByOne(book, cases, b), r) == Universe(book, r)
  {
    hide Reconcile, Reconciled;
    forall k
      ensures k in Universe(OneByOne(book, cases, b), r) <==> k in Universe(book, r)
    {
      BookKeys(book, KeysOf(cases), Reconciled(book, cases, b), |cases|, k);
    }
  }

  lemma {:induction false} DaysInScope(r: Run, sales: seq<Sale>)
    requires Snapshotted(r, sales)
    ensures r.scope.clients.Some? ==> forall g :: g in r.days ==> g.0 in r.scope.clients.value
  {
    hide Sorted, MaxId, OnePassPhones, CountMissing, UpTo;
    var prefix := UpTo(sales, r.saleCursor);
    assert r.days.Keys == Groups(prefix, ViewOf(r));
  }

  lemma {:induction false} AscendingDistinct(ks: seq<Text>)
    requires Ascending(ks)
    ensures Distinct(ks)
  {
  }

  /** The effect of an evaluation batch on the run alone. */
  function AfterBatch(r: Run, book: Book, cases: seq<Case>, ks: seq<Text>, b: Batch, now: int): Run
    requires Sane(cases) && ks != []
  {
    r.(counts := CountAll(r.counts, book, cases, b), evaluated := r.evaluated + ks,
       clientCursor := Some(ks[|ks| - 1]), heartbeat := now)
  }

  lemma AfterBatchIs(r: Run, book: Book, cases: seq<Case>, ks: seq<Text>, b: Batch, now: int)
    requires Sane(cases) && ks != []
    ensures var r' := AfterBatch(r, book, cases, ks, b, now);
      && r'.status == r.status && r'.phase == r.phase && r'.decision == r.decision && r'.revision == r.revision
      && r'.upper == r.upper && r'.asOf == r.asOf && r'.scope == r.scope && r'.algorithm == r.algorithm
      && r'.days == r.days && r'.clientCursor == Some(ks[|ks| - 1])
  {
    hide CountAll;
  }

  lemma {:induction false} AssessKeepsRun(r: Run, book: Book, sales: seq<Sale>, size: nat, cases: seq<Case>, ks: seq<Text>,
                                          b: Batch, now: int)
    requires Admitted(r) && Snapshotted(r, sales) && Progress(book, r) && r.status == Running && r.phase == Assess && size > 0
    requires ks == NextKeys(Universe(book, r), r.clientCursor, size) && ks != []
    requires Sane(cases) && KeysOf(cases) == ks
    ensures var r' := AfterBatch(r, book, cases, ks, b, now);
      && Admitted(r') && Snapshotted(r', sales) && Progress(OneByOne(book, cases, b), r') && InFlight(r')
      && Gain(r'.counts) - Gain(r.counts) == |OpenClients(OneByOne(book, cases, b))| - |OpenClients(book)|
      && r'.asOf == r.asOf && r'.revision == r.revision && r'.upper == r.upper
      && Distinct(ks)
  {
    var all := Universe(book, r);
    NextKeysExtend(all, r.evaluated, r.clientCursor, size);
    forall k | k in ks
      ensures k in all
    {
      FirstKeysIn(all - KeysUpTo(all, r.clientCursor), size, k);
    }
    AscendingDistinct(ks);
    DaysInScope(r, sales);
    UniverseStable(book, r, cases, b);
    BatchBalance(r.counts, book, cases, b);
    var r' := AfterBatch(r, book, cases, ks, b, now);
    assert ViewOf(r') == ViewOf(r);
    assert Universe(OneByOne(book, cases, b), r') == Universe(OneByOne(book, cases, b), r);
    hide Balanced, UpTo, OnePassDays, OnePassPhones, CountMissing, Universe, OneByOne, CountAll, Gain, OpenClients, Members,
      KeysUpTo, NextKeys;
  }

  lemma {:induction false} AssessKeeps(db: Db, i: nat, size: nat, cases: seq<Case>, ks: seq<Text>, b: Batch, now: int)
    requires Inv(db) && i < |db.runs| && Current(db, i) && db.runs[i].phase == Assess && size > 0 && now >= db.clock
    requires ks == NextKeys(Universe(db.book, db.runs[i]), db.runs[i].clientCursor, size) && ks != []
    requires Sane(cases) && KeysOf(cases) == ks && Forward(db.book, cases, b)
    ensures Inv(WithRun(db, i, AfterBatch(db.runs[i], db.book, cases, ks, b, now))
                  .(book := OneByOne(db.book, cases, b), clock := now))
    ensures BookEvolves(db.book, OneByOne(db.book, cases, b))
  {
    var r := db.runs[i];
    assert RunOk(db, i) && FlightOk(db, i);
    AssessKeepsRun(r, db.book, db.origins[i].sales, size, cases, ks, b, now);
    BatchKeeps(db.book, cases, b);
    hide Snapshotted, Admitted, Progress, Gain, OpenClients, GoodBook, UpTo, Sorted, MaxId, Inv, FlightOk, RunOk,
      OneByOne, CountAll, NextKeys, Universe, Forward;
    FlightReplaced(db, i, AfterBatch(r, db.book, cases, ks, b, now), OneByOne(db.book, cases, b), now);
  }

  // ---------------------------------------------------------------- publication

  function Finish(db: Db, i: nat, now: int): Db
    requires i < |db.runs|
  {
    WithRun(db, i, db.runs[i].(phase := Complete, status := Succeeded, heartbeat := now))
      .(published := Some(i), active := None, publications := Publish(db.publications, i), clock := now)
  }

  /** The whole of a run that completes: one pass over one snapshot, which is the current table; every
      client of the universe evaluated once; counters that add up. */
  predicate CompleteRun(r: Run, sales: seq<Sale>, book: Book, atStart: int)
  {
    && r.status == Succeeded && r.phase == Complete
    && r.days == OnePassDays(sales, ViewOf(r))
    && r.phones == OnePassPhones(sales, ViewOf(r))
    && r.scanned == |sales| && r.missing == CountMissing(sales, ViewOf(r))
    && Ascending(r.evaluated) && Members(r.evaluated) == Universe(book, r)
    && r.counts[Processed] == |r.evaluated| == r.counts[EligibleClient] + r.counts[NotEligibleClient]
    && Gain(r.counts) == |OpenClients(book)| - atStart
  }

  lemma {:induction false} AllEvaluated(r: Run, book: Book, size: nat)
    requires Ascending(r.evaluated) && Progress(book, r) && r.phase == Assess && size > 0
    requires NextKeys(Universe(book, r), r.clientCursor, size) == []
    ensures Members(r.evaluated) == Universe(book, r)
  {
    hide Universe, NextKeys, KeysUpTo, Members;
    NextKeysExtend(Universe(book, r), r.evaluated, r.clientCursor, size);
  }

  lemma {:induction false} FinishedRunComplete(r: Run, book: Book, sales: seq<Sale>, atStart: int, size: nat, now: int)
    requires Admitted(r) && Snapshotted(r, sales) && Progress(book, r) && r.phase == Assess && size > 0
    requires Gain(r.counts) == |OpenClients(book)| - atStart && NextKeys(Universe(book, r), r.clientCursor, size) == []
    ensures CompleteRun(r.(phase := Complete, status := Succeeded, heartbeat := now), sales, book, atStart)
  {
    AllEvaluated(r, book, size);
    var r' := r.(phase := Complete, status := Succeeded, heartbeat := now);
    assert ViewOf(r') == ViewOf(r) && Universe(book, r') == Universe(book, r);
    hide UpTo, OnePassDays, OnePassPhones, CountMissing, OpenClients, Universe, KeysUpTo, Members, NextKeys, Gain, Progress,
      Sorted, MaxId, Ascending;
  }

  lemma {:induction false} FinishIsComplete(db: Db, i: nat, size: nat, now: int)
    requires Inv(db) && i < |db.runs| && Current(db, i) && db.runs[i].phase == Assess && size > 0
    requires NextKeys(Universe(db.book, db.runs[i]), db.runs[i].clientCursor, size) == []
    ensures CompleteRun(Finish(db, i, now).runs[i], db.sales, db.book, db.origins[i].open)
    ensures db.origins[i].sales == db.sales
  {
    assert RunOk(db, i) && FlightOk(db, i);
    CurrentSales(db, i);
    hide Inv, Snapshotted, Admitted, Progress, Gain, OpenClients, Universe, NextKeys, CompleteRun, UpTo;
    FinishedRunComplete(db.runs[i], db.book, db.sales, db.origins[i].open, size, now);
  }

  lemma {:induction false} PublishedOrder(db: Db, i: nat, now: int)
    requires Inv(db) && i < |db.runs| && InFlight(db.runs[i])
    ensures PublicationsOk(Finish(db, i, now))
    ensures Finish(db, i, now).publications == db.publications + [i]
  {
    OthersOut(db, i);
    assert FlightOk(db, i);
    hide RunOk, FlightOk, TablesOk;
    var db' := Finish(db, i, now);
    assert forall j :: 0 <= j < |db.publications| ==> db.publications[j] in db.publications;
  }

  lemma {:induction false} FinishKeeps(db: Db, i: nat, now: int)
    requires Inv(db) && i < |db.runs| && Current(db, i) && db.runs[i].phase == Assess && now >= db.clock
    ensures Inv(Finish(db, i, now))
  {
    var db' := Finish(db, i, now);
    PublishedOrder(db, i, now);
    OthersOut(db, i);
    assert RunOk(db, i);
    FinishedRunOk(db.runs[i], db.origins[i].sales, now);
    hide Snapshotted, Admitted, Progress, Gain, OpenClients, GoodBook, UpTo, Sorted, MaxId, PublicationsOk;
    forall j | 0 <= j < |db.runs|
      ensures RunOk(db', j) && FlightOk(db', j)
    {
      assert RunOk(db, j);
    }
  }

  lemma {:induction false} FinishedRunOk(r: Run, sales: seq<Sale>, now: int)
    requires Admitted(r) && Snapshotted(r, sales) && r.phase == Assess
    ensures var r' := r.(phase := Complete, status := Succeeded, heartbeat := now);
      Admitted(r') && Snapshotted(r', sales)
  {
    var r' := r.(phase := Complete, status := Succeeded, heartbeat := now);
    assert ViewOf(r') == ViewOf(r);
    hide Balanced, UpTo, OnePassDays, OnePassPhones, CountMissing;
  }

  // ---------------------------------------------------------------- the three forms of a batch

  lemma {:induction false} ScanIs(db: Db, i: nat, call: Call, m: Maths)
    requires m.log1p(VALUE_CEILING) > 0.0 && i < |db.runs| && db.runs[i].phase == Scan
    ensures Advance(db, i, call, m) ==
              Some(WithRun(db, i, ScanBatch(db.runs[i], db.sales, call.scanSize).(heartbeat := call.now)).(clock := call.now))
  {
    hide ScanBatch, Forward, CountAll, OneByOne, NextKeys, Universe, CasesFor, Publish;
  }

  /** One evaluation batch, when there are clients left: it fails as a whole or writes all of them. */
  lemma {:induction false} AssessIs(db: Db, i: nat, call: Call, m: Maths, ks: seq<Text>)
    requires m.log1p(VALUE_CEILING) > 0.0 && i < |db.runs| && db.runs[i].phase != Scan
    requires ks == NextKeys(Universe(db.book, db.runs[i]), db.runs[i].clientCursor, call.clientSize) && ks != []
    ensures var r := db.runs[i];
      var b, cases := Batch(i, r.asOf, call.now, r.scope.pilot, r.decision), CasesFor(r, ks, m);
      Advance(db, i, call, m) ==
        if !Forward(db.book, cases, b) then None
        else Some(WithRun(db, i, AfterBatch(r, db.book, cases, ks, b, call.now))
                    .(book := OneByOne(db.book, cases, b), clock := call.now))
  {
    hide Forward, CountAll, OneByOne, NextKeys, Universe, CasesFor, ScanBatch, Publish;
  }

  lemma {:induction false} DoneIs(db: Db, i: nat, call: Call, m: Maths)
    requires m.log1p(VALUE_CEILING) > 0.0 && i < |db.runs| && db.runs[i].phase != Scan
    requires NextKeys(Universe(db.book, db.runs[i]), db.runs[i].clientCursor, call.clientSize) == []
    ensures Advance(db, i, call, m) ==
              if Publishable(Finish(db, i, call.now).runs[i], db.deployed) then Some(Finish(db, i, call.now)) else None
  {
    hide Forward, CountAll, OneByOne, NextKeys, Universe, CasesFor, ScanBatch, Publish, Publishable;
  }

  // ---------------------------------------------------------------- every event

  predicate Ready(db: Db, i: nat, call: Call)
  {
    call.scanSize > 0 && call.clientSize > 0 && call.now >= db.clock && i < |db.runs| && Current(db, i)
  }

  lemma {:induction false} AdvanceScan(db: Db, i: nat, call: Call, m: Maths)
    requires m.log1p(VALUE_CEILING) > 0.0 && Ready(db, i, call) && Inv(db) && db.runs[i].phase == Scan
    ensures var next := Advance(db, i, call, m);
      next.Some? && Inv(next.value) && next.value.runs[i].status == Running
  {
    ScanKeeps(db, i, call.scanSize, call.now);
    ScanIs(db, i, call, m);
    hide Inv, Advance, Window, MergeDays, MergePhones, OnePassDays, CountMissing;
  }

  lemma {:induction false} AdvanceAssess(db: Db, i: nat, call: Call, m: Maths, ks: seq<Text>)
    requires m.log1p(VALUE_CEILING) > 0.0 && Ready(db, i, call) && Inv(db) && db.runs[i].phase == Assess
    requires ks == NextKeys(Universe(db.book, db.runs[i]), db.runs[i].clientCursor, call.clientSize) && ks != []
    ensures var next := Advance(db, i, call, m);
      next.Some? ==> Inv(next.value) && next.value.runs[i].status == Running
  {
    AssessIs(db, i, call, m, ks);
    hide Inv, CountAll, OneByOne, Forward, NextKeys, Universe, CasesFor, Advance;
    var r := db.runs[i];
    var b := Batch(i, r.asOf, call.now, r.scope.pilot, r.decision);
    var cases := CasesFor(r, ks, m);
    if Forward(db.book, cases, b) {
      AssessKeeps(db, i, call.clientSize, cases, ks, b, call.now);
    }
  }

  lemma {:induction false} AdvanceDone(db: Db, i: nat, call: Call, m: Maths)
    requires m.log1p(VALUE_CEILING) > 0.0 && Ready(db, i, call) && Inv(db) && db.runs[i].phase == Assess
    requires NextKeys(Universe(db.book, db.runs[i]), db.runs[i].clientCursor, call.clientSize) == []
    ensures var next := Advance(db, i, call, m);
      next.Some? ==> next.value == Finish(db, i, call.now) && Inv(next.value)
  {
    FinishKeeps(db, i, call.now);
    DoneIs(db, i, call, m);
    hide Inv, Finish, NextKeys, Universe, Advance, Publishable;
  }

  lemma {:induction false} AdvanceKeeps(db: Db, i: nat, call: Call, m: Maths)
    requires m.log1p(VALUE_CEILING) > 0.0 && Ready(db, i, call) && Inv(db)
    ensures var next := Advance(db, i, call, m);
      next.Some? ==>
        && Inv(next.value) && i < |next.value.runs|
        && (next.value.runs[i].status == Succeeded ==>
              CompleteRun(next.value.runs[i], next.value.sales, next.value.book, next.value.origins[i].open)
              && next.value.origins[i].sales == next.value.sales
              && next.value.publications == db.publications + [i])
  {
    assert db.runs[i].phase == Scan || db.runs[i].phase == Assess by { assert RunOk(db, i); }
    hide Inv, Advance, CompleteRun, NextKeys, Universe, Publish;
    if db.runs[i].phase == Scan {
      AdvanceScan(db, i, call, m);
    } else {
      var ks := NextKeys(Universe(db.book, db.runs[i]), db.runs[i].clientCursor, call.clientSize);
      if ks != [] {
        AdvanceAssess(db, i, call, m, ks);
      } else {
        AdvanceDone(db, i, call, m);
        FinishIsComplete(db, i, call.clientSize, call.now);
        PublishedOrder(db, i, call.now);
      }
    }
  }

  /** The run has just become a succeeded one. */
  predicate NewlyPublished(db: Db, db': Db, i: nat)
  {
    i < |db'.runs| && db'.runs[i].status == Succeeded && (i >= |db.runs| || db.runs[i].status != Succeeded)
  }

  /** What publication means: the run is the one-pass computation on the snapshot it began with, this is
      still the table of sales, and the run gets the next sequence number. */
  predicate PublishedWell(db: Db, db': Db, i: nat)
    requires i < |db'.runs|
  {
    && i < |db'.origins| && db'.sales == db.sales && db'.origins[i].sales == db'.sales
    && CompleteRun(db'.runs[i], db'.sales, db'.book, db'.origins[i].open)
    && db'.publications == db.publications + [i] && db'.published == Some(i)
  }

  lemma {:induction false} BlockerNone(db: Db, i: nat, call: Call, requested: Day)
    requires Inv(db) && i < |db.runs| && InFlight(db.runs[i]) && db.holders == 0
    requires ResumeBlocker(db.runs[i], ContextOf(db, call, requested), ScopeInUse(db.pending > 0, call.scope)) == None
    ensures Current(WithRun(db, i, db.runs[i].(status := Running, error := None)), i)
  {
    assert RunOk(db, i);
    hide Context, Snapshotted, Inv;
    assert ContextOf(db, call, requested).revision == db.revision && ContextOf(db, call, requested).upper == MaxId(db.sales) by {
      ContextEvidence(db, call, requested);
    }
  }

  lemma ContextEvidence(db: Db, call: Call, requested: Day)
    ensures ContextOf(db, call, requested).revision == db.revision
    ensures ContextOf(db, call, requested).upper == MaxId(db.sales)
  {
  }

  /** If a run was published, it is this one, and well. */
  ghost predicate PublishesOnly(db: Db, db': Db, i: nat)
  {
    forall j :: NewlyPublished(db, db', j) ==> j == i && PublishedWell(db, db', j)
  }

  lemma {:induction false} SupersedePublishesNothing(db: Db, i: nat, e: Error, now: int)
    requires i < |db.runs|
    ensures PublishesOnly(db, Supersede(db, i, e, now), i) && PublishesOnly(db, db, i)
  {
    hide PublishedWell;
  }

  lemma {:induction false} SupersededKeeps(db: Db, i: nat, e: Error, now: int)
    requires Inv(db) && i < |db.runs| && InFlight(db.runs[i]) && now > db.clock
    ensures Inv(Supersede(db, i, e, now)) && PublishesOnly(db, Supersede(db, i, e, now), i)
  {
    hide *;
    SupersedeKeeps(db, i, e, now);
    SupersedePublishesNothing(db, i, e, now);
  }

  lemma {:induction false} ResumeKeeps(db: Db, i: nat, call: Call, m: Maths)
    requires m.log1p(VALUE_CEILING) > 0.0 && call.scanSize > 0 && call.clientSize > 0 && call.now > db.clock
    requires Inv(db) && i < |db.runs| && InFlight(db.runs[i]) && db.holders == 0
    ensures var db' := Resume(db, i, call, m).0;
      Inv(db') && PublishesOnly(db, db', i)
  {
    var r := db.runs[i];
    var requested := if call.asOf.Some? then call.asOf.value else r.decision.requested;
    var stale := Incompatible(r, db.deployed);
    var blocker := ResumeBlocker(r, ContextOf(db, call, requested), ScopeInUse(db.pending > 0, call.scope));
    hide Inv, ResumeBlocker, Incompatible, Advance, Current, ContextOf, ScopeInUse, InFlight, Supersede, PublishesOnly;
    SupersedePublishesNothing(db, i, EvidenceChanged, call.now);
    if stale.Some? {
      SupersededKeeps(db, i, stale.value, call.now);
    } else if blocker.Some? {
      SupersededKeeps(db, i, blocker.value, call.now);
    } else {
      BlockerNone(db, i, call, requested);
      ResumedKeeps(db, i, call, m);
    }
  }

  lemma {:induction false} ResumedKeeps(db: Db, i: nat, call: Call, m: Maths)
    requires m.log1p(VALUE_CEILING) > 0.0 && call.scanSize > 0 && call.clientSize > 0 && call.now > db.clock
    requires Inv(db) && i < |db.runs| && InFlight(db.runs[i])
    requires Current(WithRun(db, i, db.runs[i].(status := Running, error := None)), i)
    ensures var next := Advance(WithRun(db, i, db.runs[i].(status := Running, error := None)), i, call, m);
      next.Some? ==> Inv(next.value) && PublishesOnly(db, next.value, i)
  {
    var r' := db.runs[i].(status := Running, error := None);
    var again := WithRun(db, i, r');
    assert r'.heartbeat <= db.clock by { assert RunOk(db, i); }
    CheckpointKept(db, i, r', again);
    AdvanceKeeps(again, i, call, m);
    AdvanceFrame(again, i, call, m);
    assert Advance(again, i, call, m).Some? ==> |Advance(again, i, call, m).value.origins| == |db.runs|;
    hide Inv, Advance, CompleteRun, Current;
  }

  /** A batch touches only its own run, and never the sales. */
  lemma {:induction false} AdvanceFrame(db: Db, i: nat, call: Call, m: Maths)
    requires m.log1p(VALUE_CEILING) > 0.0 && i < |db.runs|
    ensures var next := Advance(db, i, call, m);
      next.Some? ==>
        && next.value.sales == db.sales && |next.value.runs| == |db.runs| && next.value.origins == db.origins
        && (forall j :: 0 <= j < |db.runs| && j != i ==> next.value.runs[j] == db.runs[j])
        && (next.value.runs[i].status == Succeeded && db.runs[i].status != Succeeded ==> next.value.published == Some(i))
  {
    hide CountAll, OneByOne, Forward, NextKeys, Universe, CasesFor, Publish, Window, MergeDays, MergePhones;
  }

  lemma {:induction false} BeginKeeps(db: Db, d: SourceDecision, scope: Scope, call: Call, m: Maths)
    requires m.log1p(VALUE_CEILING) > 0.0 && call.scanSize > 0 && call.clientSize > 0 && call.now > db.clock
    requires Inv(db) && Idle(db) && db.holders == 0
    requires d.revision == db.revision && d.upper == MaxId(db.sales)
    requires d.allowed ==> d.effective.Some?
    requires d.allowed ==> forall p :: p in db.publications && p < |db.runs| ==> db.runs[p].asOf <= d.effective.value
    ensures var db' := SignalRun.Begin(db, d, scope, call, m).0;
      Inv(db') && forall j :: !NewlyPublished(db, db', j)
  {
    var begun := Append(db, FreshRun(db, d, scope, call.now), call.now);
    AppendKeeps(db, d, scope, call.now);
    BegunFacts(db, d, scope, call.now);
    hide Inv, Advance, FreshRun;
    if d.allowed {
      AdvanceScan(begun, |db.runs|, call, m);
      AdvanceFrame(begun, |db.runs|, call, m);
    }
  }

  lemma {:induction false} StartKeeps(db: Db, call: Call, m: Maths)
    requires m.log1p(VALUE_CEILING) > 0.0 && call.scanSize > 0 && call.clientSize > 0 && call.now > db.clock
    requires Inv(db) && Idle(db) && db.holders == 0
    ensures var db' := Start(db, call, m).0;
      Inv(db') && forall j :: !NewlyPublished(db, db', j)
  {
    var requested := if call.asOf.Some? then call.asOf.value else call.closed;
    var scope := ScopeInUse(db.pending > 0, call.scope);
    var d := Guarded(db, ContextOf(db, call, requested), scope);
    StartFacts(db, call, requested);
    forall p | p in db.publications && p < |db.runs|
      ensures d.allowed ==> db.runs[p].asOf <= d.effective.value
    {
      PublishedIsLatest(db, p);
    }
    BeginKeeps(db, d, scope, call, m);
    hide Inv, Guarded, ContextOf, SignalRun.Begin, Reusable, Idle, RunOk, FlightOk, PublicationsOk, TablesOk;
  }

  lemma {:induction false} BegunFacts(db: Db, d: SourceDecision, scope: Scope, now: int)
    requires |db.runs| == |db.origins| && d.revision == db.revision && db.holders == 0
    ensures var begun := Append(db, FreshRun(db, d, scope, now), now);
      && (d.allowed ==> Current(begun, |db.runs|) && begun.runs[|db.runs|].phase == Scan)
      && (!d.allowed ==> begun.runs[|db.runs|].status == Blocked)
  {
  }

  lemma {:induction false} WorkerKeeps(db: Db, call: Call, m: Maths)
    requires m.log1p(VALUE_CEILING) > 0.0 && call.now > db.clock && Inv(db)
    ensures var db' := RunBatch(db, call, m).0;
      Inv(db') && forall j :: NewlyPublished(db, db', j) ==> PublishedWell(db, db', j)
  {
    hide Inv, Resume, Start, PublishedWell;
    if 1 <= call.scanSize <= 5000 && 1 <= call.clientSize <= 1000 && db.holders == 0 && db.enabled {
      ActiveOrIdle(db);
      if db.active.Some? && db.active.value < |db.runs| && InFlight(db.runs[db.active.value]) {
        ResumeKeeps(db, db.active.value, call, m);
      } else {
        StartKeeps(db, call, m);
      }
    }
  }

  lemma ActiveOrIdle(db: Db)
    requires Inv(db)
    ensures db.active.Some? ==> db.active.value < |db.runs|
    ensures Idle(db) || InFlight(db.runs[db.active.value])
  {
  }

  lemma {:induction false} FailureKeeps(db: Db, i: nat, heartbeat: int, code: Text, now: int)
    requires Inv(db) && now > db.clock
    ensures Inv(RecordFailure(db, i, heartbeat, code, now))
  {
    var db' := RecordFailure(db, i, heartbeat, code, now);
    hide Inv;
    if db' != db {
      CheckpointKept(db, i, db'.runs[i], db');
    }
  }

  lemma {:induction false} ShutdownKeeps(db: Db, i: nat, heartbeat: int)
    requires Inv(db)
    ensures Inv(RecordShutdown(db, i, heartbeat))
  {
    var db' := RecordShutdown(db, i, heartbeat);
    if db' != db {
      assert db'.runs[i].heartbeat <= db.clock by { assert RunOk(db, i); }
      hide Inv;
      CheckpointKept(db, i, db'.runs[i], db');
    }
  }

  lemma {:induction false} PauseKeeps(db: Db)
    requires Inv(db)
    ensures Inv(PauseRun(db))
  {
    var db' := PauseRun(db);
    EnablementKept(db, false);
    if db'.runs != db.runs {
      var i := db.active.value;
      assert db'.runs[i].heartbeat <= db.clock by { assert RunOk(db, i); }
      hide Inv;
      CheckpointKept(db, i, db'.runs[i], db');
    }
  }

  lemma {:induction false} EnablementKept(db: Db, enabled: bool)
    requires Inv(db)
    ensures Inv(db.(enabled := enabled))
  {
    OuterChange(db, db.(enabled := enabled));
  }

  lemma {:induction false} OuterEventKeeps(db: Db, e: Action)
    requires Inv(db)
    requires e.QueueImport? || e.BeginImport? || e.FinishImport? || e.AbortImport? || e.KillImport?
          || e.DeleteSales? || e.Deploy? || e.Enable?
    ensures Inv(Apply(db, e))
  {
    hide RunOk, FlightOk, PublicationsOk;
    if e.DeleteSales? {
      RemoveSorted(db.sales, e.ids);
    }
    OuterChange(db, Apply(db, e));
  }

  /** Every event keeps the invariant, and whatever becomes a succeeded run is published well. */
  lemma {:induction false} EventKeeps(db: Db, e: Action)
    requires Inv(db)
    ensures Inv(Apply(db, e))
    ensures forall j :: NewlyPublished(db, Apply(db, e), j) ==> PublishedWell(db, Apply(db, e), j)
  {
    hide Inv, RunBatch, PublishedWell, Insertable, RecordFailure, RecordShutdown, PauseRun;
    match e
    case ImportRow(s) =>
      if Insertable(db, s) {
        RowArrives(db, s);
      }
    case WorkerCall(call, m) =>
      if m.log1p(VALUE_CEILING) > 0.0 && call.now > db.clock {
        WorkerKeeps(db, call, m);
      }
    case ReportFailure(i, heartbeat, code, now) =>
      if now > db.clock {
        FailureKeeps(db, i, heartbeat, code, now);
        ReportsPublishNothing(db, i, heartbeat, code, now);
      }
    case ReportShutdown(i, heartbeat) =>
      ShutdownKeeps(db, i, heartbeat);
      ReportsPublishNothing(db, i, heartbeat, 0, db.clock);
    case Pause =>
      PauseKeeps(db);
      ReportsPublishNothing(db, 0, 0, 0, db.clock);
    case _ =>
      OuterEventKeeps(db, e);
  }

  lemma ReportsPublishNothing(db: Db, i: nat, heartbeat: int, code: Text, now: int)
    ensures forall j :: !NewlyPublished(db, RecordFailure(db, i, heartbeat, code, now), j)
    ensures forall j :: !NewlyPublished(db, RecordShutdown(db, i, heartbeat), j)
    ensures forall j :: !NewlyPublished(db, PauseRun(db), j)
  {
  }

  // ---------------------------------------------------------------- whole histories

  lemma PlayMore(db: Db, events: seq<Action>, e: Action)
    ensures Play(db, events + [e]) == Apply(Play(db, events), e)
  {
    assert (events + [e])[..|events|] == events;
    hide Apply;
  }

  lemma {:induction false} HistoryKeeps(db: Db, events: seq<Action>)
    requires Inv(db)
    ensures Inv(Play(db, events))
  {
    if events != [] {
      hide Inv, Apply;
      HistoryKeeps(db, events[..|events| - 1]);
      EventKeeps(Play(db, events[..|events| - 1]), events[|events| - 1]);
    }
  }

  lemma InitialOk(sales: seq<Sale>, book: Book, deployed: Deployed, clock: int)
    requires Sorted(sales) && GoodBook(book)
    ensures Inv(Initial(sales, book, deployed, clock))
  {
  }

  /** A succeeded run still is the one-pass computation on the sales it began with. */
  predicate OnePassResult(r: Run, sales: seq<Sale>)
  {
    && r.days == OnePassDays(sales, ViewOf(r))
    && r.phones == OnePassPhones(sales, ViewOf(r))
    && r.scanned == |sales| && r.missing == CountMissing(sales, ViewOf(r))
    && Ascending(r.evaluated) && r.counts[Processed] == |r.evaluated| && Balanced(r.counts)
  }

  lemma {:induction false} SucceededResult(db: Db, i: nat)
    requires Inv(db) && i < |db.runs| && db.runs[i].status == Succeeded
    ensures OnePassResult(db.runs[i], db.origins[i].sales)
  {
    assert RunOk(db, i);
    hide Inv, OnePassDays, OnePassPhones, UpTo, CountMissing, Balanced;
  }

  /** Whatever the batch sizes and whatever happens between the batches: a succeeded run is the one-pass
      computation on the sales it began with, it has exactly one sequence number, cutoffs never go back
      along the sequence, and at most one run is in flight. */
  lemma {:induction false} EveryHistory(sales: seq<Sale>, book: Book, deployed: Deployed, clock: int, events: seq<Action>)
    requires Sorted(sales) && GoodBook(book)
    ensures var db := Play(Initial(sales, book, deployed, clock), events);
      && |db.origins| == |db.runs| && GoodBook(db.book) && PublicationsOk(db)
      && (forall i :: 0 <= i < |db.runs| && db.runs[i].status == Succeeded ==> OnePassResult(db.runs[i], db.origins[i].sales))
      && (forall i, j :: 0 <= i < |db.runs| && 0 <= j < |db.runs| && InFlight(db.runs[i]) && InFlight(db.runs[j]) ==> i == j)
  {
    var db := Play(Initial(sales, book, deployed, clock), events);
    InitialOk(sales, book, deployed, clock);
    HistoryKeeps(Initial(sales, book, deployed, clock), events);
    hide GoodBook, PublicationsOk, OnePassResult, Play, Initial, RunOk, FlightOk;
    forall i | 0 <= i < |db.runs|
      ensures db.runs[i].status == Succeeded ==> OnePassResult(db.runs[i], db.origins[i].sales)
    {
      if db.runs[i].status == Succeeded {
        SucceededResult(db, i);
      }
    }
    forall i, j | 0 <= i < |db.runs| && 0 <= j < |db.runs| && InFlight(db.runs[i]) && InFlight(db.runs[j])
      ensures i == j
    {
      if i != j {
        OthersAtRest(db, i, j);
      }
    }
  }

  /** The moment of publication, after any history. */
  lemma {:induction false} PublishedOnItsSnapshot(sales: seq<Sale>, book: Book, deployed: Deployed, clock: int,
                                                  events: seq<Action>, e: Action, i: nat)
    requires Sorted(sales) && GoodBook(book)
    requires var db := Play(Initial(sales, book, deployed, clock), events); NewlyPublished(db, Apply(db, e), i)
    ensures var db := Play(Initial(sales, book, deployed, clock), events); PublishedWell(db, Apply(db, e), i)
  {
    hide PublishedWell, NewlyPublished, Apply, Inv, Initial;
    InitialOk(sales, book, deployed, clock);
    HistoryKeeps(Initial(sales, book, deployed, clock), events);
    EventKeeps(Play(Initial(sales, book, deployed, clock), events), e);
  }

  // ---------------------------------------------------------------- reports that come late

  /** The row of a run is untouched, except that it may have been paused. */
  predicate SameButStatus(r: Run, r': Run)
  {
    r' == r.(status := r'.status)
  }

  /** A worker whose clock did not move on is no event. */
  lemma WorkerMay(db: Db, call: Call, m: Maths)
    ensures Apply(db, WorkerCall(call, m)) ==
              if m.log1p(VALUE_CEILING) > 0.0 && call.now > db.clock then RunBatch(db, call, m).0 else db
  {
    hide RunBatch;
  }

  /** Every event either leaves a run as it is, except for its status, or moves its heartbeat forward. */
  lemma {:induction false} HeartbeatMoves(db: Db, e: Action, i: nat)
    requires Inv(db) && i < |db.runs|
    ensures i < |Apply(db, e).runs|
    ensures var r, r' := db.runs[i], Apply(db, e).runs[i]; SameButStatus(r, r') || r'.heartbeat > r.heartbeat
  {
    assert db.runs[i].heartbeat <= db.clock by { assert RunOk(db, i); }
    hide Inv;
    if e.WorkerCall? {
      var call, m := e.call, e.maths;
      WorkerMay(db, call, m);
      hide Apply, RunBatch;
      if m.log1p(VALUE_CEILING) > 0.0 && call.now > db.clock {
        WorkerHeartbeat(db, call, m, i);
      }
    } else {
      OuterHeartbeat(db, e, i);
    }
  }

  lemma OuterHeartbeat(db: Db, e: Action, i: nat)
    requires i < |db.runs| && db.runs[i].heartbeat <= db.clock && !e.WorkerCall?
    ensures i < |Apply(db, e).runs|
    ensures var r, r' := db.runs[i], Apply(db, e).runs[i]; SameButStatus(r, r') || r'.heartbeat > r.heartbeat
  {
    hide RunBatch, Insertable, Insert, Remove;
  }

  /** A run that a call of the worker changes carries the time of the call. */
  predicate Stamped(db: Db, db': Db, i: nat, now: int)
    requires i < |db.runs|
  {
    i < |db'.runs| && (db'.runs[i] == db.runs[i] || db'.runs[i].heartbeat == now)
  }

  lemma {:induction false} WorkerHeartbeat(db: Db, call: Call, m: Maths, i: nat)
    requires m.log1p(VALUE_CEILING) > 0.0 && i < |db.runs|
    ensures Stamped(db, RunBatch(db, call, m).0, i, call.now)
  {
    assert Stamped(db, db, i, call.now);
    hide Resume, Start, Stamped, InFlight;
    StartHeartbeat(db, call, m, i);
    if db.active.Some? && db.active.value < |db.runs| {
      ResumeHeartbeat(db, db.active.value, call, m, i);
    }
  }

  lemma {:induction false} AdvanceHeartbeat(db: Db, id: nat, call: Call, m: Maths)
    requires m.log1p(VALUE_CEILING) > 0.0 && id < |db.runs|
    ensures Advance(db, id, call, m).Some? ==>
              |Advance(db, id, call, m).value.runs| == |db.runs| && Advance(db, id, call, m).value.runs[id].heartbeat == call.now
  {
    hide CountAll, OneByOne, Forward, NextKeys, Universe, CasesFor, Publish, ScanBatch;
  }

  lemma {:induction false} AgainHeartbeat(db: Db, id: nat, call: Call, m: Maths, i: nat)
    requires m.log1p(VALUE_CEILING) > 0.0 && id < |db.runs| && i < |db.runs|
    ensures var next := Advance(WithRun(db, id, db.runs[id].(status := Running, error := None)), id, call, m);
      next.Some? ==> Stamped(db, next.value, i, call.now)
  {
    var again := WithRun(db, id, db.runs[id].(status := Running, error := None));
    AdvanceHeartbeat(again, id, call, m);
    AdvanceFrame(again, id, call, m);
    hide Advance;
  }

  lemma {:induction false} ResumeHeartbeat(db: Db, id: nat, call: Call, m: Maths, i: nat)
    requires m.log1p(VALUE_CEILING) > 0.0 && id < |db.runs| && i < |db.runs|
    ensures Stamped(db, Resume(db, id, call, m).0, i, call.now)
  {
    assert Stamped(db, db, i, call.now) && forall e :: Stamped(db, Supersede(db, id, e, call.now), i, call.now);
    AgainHeartbeat(db, id, call, m, i);
    hide Advance, ResumeBlocker, Incompatible, ContextOf, ScopeInUse, Stamped, Supersede;
  }

  lemma {:induction false} StartHeartbeat(db: Db, call: Call, m: Maths, i: nat)
    requires m.log1p(VALUE_CEILING) > 0.0 && i < |db.runs|
    ensures Stamped(db, Start(db, call, m).0, i, call.now)
  {
    StartFrame(db, call, m, i);
    hide Start;
  }

  /** A call without a checkpoint adds at most a run. */
  lemma {:induction false} StartFrame(db: Db, call: Call, m: Maths, i: nat)
    requires m.log1p(VALUE_CEILING) > 0.0 && i < |db.runs|
    ensures var db' := Start(db, call, m).0;
      i < |db'.runs| && db'.runs[i] == db.runs[i]
  {
    var requested := if call.asOf.Some? then call.asOf.value else call.closed;
    var scope := ScopeInUse(db.pending > 0, call.scope);
    var decision := Guarded(db, ContextOf(db, call, requested), scope);
    BeginFrame(db, decision, scope, call, m, i);
    hide SignalRun.Begin, Guarded, ContextOf, ScopeInUse, Reusable;
  }

  lemma {:induction false} BeginFrame(db: Db, decision: SourceDecision, scope: Scope, call: Call, m: Maths, i: nat)
    requires m.log1p(VALUE_CEILING) > 0.0 && i < |db.runs|
    ensures var db' := SignalRun.Begin(db, decision, scope, call, m).0;
      i < |db'.runs| && db'.runs[i] == db.runs[i]
  {
    AdvanceFrame(Append(db, FreshRun(db, decision, scope, call.now), call.now), |db.runs|, call, m);
    hide Advance, FreshRun;
  }

  lemma {:induction false} HeartbeatOverHistory(db: Db, events: seq<Action>, i: nat)
    requires Inv(db) && i < |db.runs|
    ensures i < |Play(db, events).runs|
    ensures var r, r' := db.runs[i], Play(db, events).runs[i]; SameButStatus(r, r') || r'.heartbeat > r.heartbeat
  {
    if events != [] {
      hide Inv, Apply;
      var front := events[..|events| - 1];
      HistoryKeeps(db, front);
      HeartbeatOverHistory(db, front, i);
      HeartbeatMoves(Play(db, front), events[|events| - 1], i);
    }
  }

  /** A failure or shutdown report names the run and heartbeat that were read before the failing batch. If it
      changes anything when it finally arrives, then nothing was committed for that run in between. */
  lemma {:induction false} LateReportIsHarmless(db: Db, events: seq<Action>, i: nat, code: Text, now: int)
    requires Inv(db) && i < |db.runs|
    ensures var later, token := Play(db, events), db.runs[i].heartbeat;
      (RecordFailure(later, i, token, code, now) != later || RecordShutdown(later, i, token) != later) ==>
        i < |later.runs| && later.active == Some(i) && SameButStatus(db.runs[i], later.runs[i])
  {
    hide Inv, Play;
    HeartbeatOverHistory(db, events, i);
  }

  /** A batch of an accepted run fails only on an episode that another run left behind with a later cutoff:
      a superseded run at a later cutoff does that, and publication order does not prevent it. */
  lemma {:induction false} BatchFailsExactly(db: Db, i: nat, call: Call, m: Maths)
    requires m.log1p(VALUE_CEILING) > 0.0 && Ready(db, i, call) && Inv(db) && Incompatible(db.runs[i], db.deployed).None?
    ensures var r := db.runs[i];
      Advance(db, i, call, m).None? <==>
        r.phase == Assess
        && exists k :: k in NextKeys(Universe(db.book, r), r.clientCursor, call.clientSize)
                       && HistoryOf(db.book, k) != []
                       && HistoryOf(db.book, k)[|HistoryOf(db.book, k)| - 1].row.asOf > r.asOf
  {
    var r := db.runs[i];
    assert Admitted(r) by { assert RunOk(db, i); }
    hide Inv, CountAll, OneByOne, NextKeys, Universe, Publish, ScanBatch, Current, CasesFor, KeysOf;
    var ks := NextKeys(Universe(db.book, r), r.clientCursor, call.clientSize);
    var cases := CasesFor(r, ks, m);
    ClientsAre(cases, ks);
    if r.phase != Scan && ks != [] {
      AssessIs(db, i, call, m, ks);
      LateInBatch(db.book, cases, ks, Batch(i, r.asOf, call.now, r.scope.pilot, r.decision));
    } else if r.phase == Scan {
      ScanIs(db, i, call, m);
    } else {
      DoneIs(db, i, call, m);
    }
    hide Advance, Forward;
  }

  lemma LateInBatch(book: Book, cases: seq<Case>, ks: seq<Text>, b: Batch)
    requires KeysOf(cases) == ks
    ensures !Forward(book, cases, b) <==>
              exists k :: k in ks && HistoryOf(book, k) != []
                             && HistoryOf(book, k)[|HistoryOf(book, k)| - 1].row.asOf > b.asOf
  {
    ClientsAre(cases, ks);
    hide KeysOf, HistoryOf;
    if j :| 0 <= j < |cases| && Backwards(HistoryOf(book, cases[j].f.client), b) {
      assert ks[j] in ks;
    }
  }

  lemma ClientsAre(cases: seq<Case>, ks: seq<Text>)
    requires KeysOf(cases) == ks
    ensures |cases| == |ks| && forall j :: 0 <= j < |ks| ==> cases[j].f.client == ks[j]
  {
    assert forall j :: 0 <= j < |ks| ==> KeysOf(cases)[j] == cases[j].f.client;
  }
}
