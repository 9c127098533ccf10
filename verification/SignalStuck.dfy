/** A history after which a run can never succeed, although every rule of the protocol was kept: a run at a later cutoff
    left an episode behind when it was superseded, and the next request was for an earlier cutoff. */
module SignalStuck {
  import opened Prelude
  import opened Projection
  import opened Keyset
  import opened Source
  import opened Inactivity
  import opened Episodes
  import opened EpisodeStore
  import opened SignalRun
  import opened SignalRunSafety
  import opened SignalProgress

  const CLIENT: Text := 7
  const SCOPE := Scope(0, None, None, true)
  const DEPLOYED := Deployed(1, 1, 1)

  /** Three purchases of one client, two days apart. */
  const SALES := [Purchase(1, 1), Purchase(2, 3), Purchase(3, 5)]

  function Purchase(id: nat, day: Day): Sale
  {
    Sale(id, day, 0, Some(CLIENT), 5, None, 100, false)
  }

  /** What the feature query says about them at any later cutoff. */
  const FEATURES := Features(CLIENT, 5, [], Some(5), 3, 2, 4, Some(2.0), Some(2.0), Some(0.0), 300.0)

  function MathsOf(log1p: real -> real): Maths
  {
    Maths((days: map<Group, DayRow>, k: Text, asOf: Day) => FEATURES, log1p)
  }

  /** A request for a cutoff, on day one hundred. */
  function At(asOf: Day, now: int): Call
  {
    Call(Some(asOf), 3, 10, 100, Some(SCOPE), 0, now)
  }

  function DecisionAt(asOf: Day, revision: nat): SourceDecision
  {
    SourceDecision(1, asOf, 100, Some(asOf), revision, 3, 0, true, [CompletenessUnknown])
  }

  /** Nothing is under way but the sales are there. */
  predicate Ground(db: Db, revision: nat)
  {
    && db.sales == SALES && db.pending == 0 && db.holders == 0 && db.enabled && db.published == None
    && db.deployed == DEPLOYED && db.revision == revision
  }

  /** The run has read all the sales. */
  predicate Scanned(r: Run, asOf: Day, revision: nat, phase: Phase)
  {
    && r.status == Running && r.error == None && r.phase == phase && r.asOf == asOf && r.revision == revision && r.upper == 3
    && r.saleCursor == 3 && r.clientCursor == None && r.decision == DecisionAt(asOf, revision)
    && r.scope == SCOPE && r.algorithm == 1
    && (set g | g in r.days :: g.0) == {CLIENT}
  }

  lemma SalesAre()
    ensures SalesSorted() && MaxId(SALES) == 3
    ensures CountUpTo(SALES, 0) == 0 && CountUpTo(SALES, 3) == 3
  {
    CutIsUnique(SALES, 0, 0);
    CutIsUnique(SALES, 3, 3);
  }

  predicate SalesSorted()
  {
    Keyset.Sorted(SALES)
  }

  lemma ContextIs(db: Db, asOf: Day, revision: nat, now: int)
    requires Ground(db, revision) && 1 <= asOf <= 100
    ensures ContextOf(db, At(asOf, now), asOf) == DecisionAt(asOf, revision)
    ensures ScopeInUse(db.pending > 0, At(asOf, now).scope) == SCOPE
  {
    SalesAre();
    assert SALES[0] in SALES && Named(SALES[0], View(Min(asOf, 100), SCOPE));
    hide CountUpTo;
  }

  lemma WindowIs()
    ensures Window(SALES, 0, 3, 3) == SALES && Window(SALES, 3, 3, 3) == []
  {
    SalesAre();
    hide CountUpTo;
    assert SALES[0..3] == SALES;
  }

  lemma AllOfOne()
    ensures |SALES| == 3 && forall s :: s in SALES ==> s.client == Some(CLIENT)
  {
    forall s | s in SALES
      ensures s.client == Some(CLIENT)
    {
      var i :| 0 <= i < 3 && SALES[i] == s;
    }
  }

  lemma GroupsAre(v: View)
    requires v.asOf >= 5 && v.scope == SCOPE
    ensures (CLIENT, 1) in Groups(SALES, v) && forall g :: g in Groups(SALES, v) ==> g.0 == CLIENT
  {
    AllOfOne();
    assert SALES[0] in SALES && Named(SALES[0], v) && SALES[0].day == 1;
    hide InBase;
  }

  lemma MergedKeysAre(v: View)
    ensures MergeDays(map[], OnePassDays(SALES, v)).Keys == Groups(SALES, v)
  {
    hide Groups;
  }

  lemma ClientsOf(v: View, days: map<Group, DayRow>)
    requires v.asOf >= 5 && v.scope == SCOPE && days == MergeDays(map[], OnePassDays(SALES, v))
    ensures (set g | g in days :: g.0) == {CLIENT}
  {
    GroupsAre(v);
    MergedKeysAre(v);
    hide *;
    assert (CLIENT, 1) in days;
  }

  /** The first batch reads everything. */
  lemma ScansAll(r: Run, asOf: Day, revision: nat, now: int)
    requires asOf >= 5 && r.days == map[] && r.saleCursor == 0 && r.phase == Scan
    requires r.status == Running && r.error == None && r.asOf == asOf && r.revision == revision && r.upper == 3
    requires r.clientCursor == None && r.decision == DecisionAt(asOf, revision) && r.scope == SCOPE && r.algorithm == 1
    ensures Scanned(ScanBatch(r, SALES, 3).(heartbeat := now), asOf, revision, Scan)
  {
    WindowIs();
    var r' := ScanBatch(r, SALES, 3);
    hide Window, CountMissing, MergePhones, MergeDays, OnePassDays;
    ClientsOf(ViewOf(r), r'.days);
    assert SALES[2].id == 3;
  }

  lemma EmptyBatchEnds(r: Run, asOf: Day, revision: nat, now: int)
    requires Scanned(r, asOf, revision, Scan)
    ensures Scanned(ScanBatch(r, SALES, 3).(heartbeat := now), asOf, revision, Assess)
  {
    WindowIs();
    hide Window, CountMissing, MergePhones, MergeDays, OnePassDays;
  }

  /** What the first call for a cutoff makes of an idle database. */
  predicate Begun(db: Db, db': Db, asOf: Day, revision: nat, now: int)
  {
    && Ground(db', revision) && db'.book == db.book && db'.clock == now
    && db'.active == Some(|db.runs|) && |db'.runs| == |db.runs| + 1
    && Scanned(db'.runs[|db.runs|], asOf, revision, Scan)
    && forall j :: 0 <= j < |db.runs| ==> db'.runs[j] == db.runs[j]
  }

  lemma StartsWith(db: Db, asOf: Day, revision: nat, now: int, m: Maths)
    requires Ground(db, revision) && db.active == None && 1 <= asOf <= 100
    requires m.log1p(VALUE_CEILING) > 0.0
    ensures RunBatch(db, At(asOf, now), m) == SignalRun.Begin(db, DecisionAt(asOf, revision), SCOPE, At(asOf, now), m)
  {
    ContextIs(db, asOf, revision, now);
    hide SignalRun.Begin, ContextOf, ScopeInUse;
  }

  lemma BegunIs(db: Db, r: Run, r': Run, asOf: Day, revision: nat, now: int)
    requires Ground(db, revision) && Scanned(r', asOf, revision, Scan)
    ensures Begun(db, WithRun(Append(db, r, now), |db.runs|, r').(clock := now), asOf, revision, now)
  {
    hide Scanned, SALES, OpenClients;
  }

  lemma FreshIs(db: Db, asOf: Day, revision: nat, now: int)
    requires Ground(db, revision) && 5 <= asOf
    ensures var r := FreshRun(db, DecisionAt(asOf, revision), SCOPE, now);
      && Scanned(ScanBatch(r, SALES, 3).(heartbeat := now), asOf, revision, Scan) && r.phase == Scan
      && Append(db, r, now).runs == db.runs + [r] && Append(db, r, now).sales == SALES
  {
    SalesAre();
    var r := FreshRun(db, DecisionAt(asOf, revision), SCOPE, now);
    ScansAll(r, asOf, revision, now);
    hide ScanBatch, CountUpTo, SALES, MaxId, Scanned;
  }

  /** The database after inserting a run and its first batch. */
  lemma BeginsWith(db: Db, asOf: Day, revision: nat, now: int, m: Maths)
    requires Ground(db, revision) && 5 <= asOf <= 100 && m.log1p(VALUE_CEILING) > 0.0
    ensures Begun(db, SignalRun.Begin(db, DecisionAt(asOf, revision), SCOPE, At(asOf, now), m).0, asOf, revision, now)
  {
    var r := FreshRun(db, DecisionAt(asOf, revision), SCOPE, now);
    var begun := Append(db, r, now);
    FreshIs(db, asOf, revision, now);
    assert DecisionAt(asOf, revision).allowed && At(asOf, now).now == now && At(asOf, now).scanSize == 3;
    hide ScanBatch, SALES, Advance, Scanned, Ground, DecisionAt, At, FreshRun, Append, Begun, WithRun;
    ScanIs(begun, |db.runs|, At(asOf, now), m);
    BegunIs(db, r, ScanBatch(r, SALES, 3).(heartbeat := now), asOf, revision, now);
  }

  lemma Starts(db: Db, asOf: Day, revision: nat, now: int, m: Maths)
    requires Ground(db, revision) && db.active == None && 5 <= asOf <= 100 && now > db.clock
    requires m.log1p(VALUE_CEILING) > 0.0
    ensures Begun(db, Apply(db, WorkerCall(At(asOf, now), m)), asOf, revision, now)
  {
    WorkerMay(db, At(asOf, now), m);
    StartsWith(db, asOf, revision, now, m);
    BeginsWith(db, asOf, revision, now, m);
    hide *;
  }

  // ---------------------------------------------------------------- the calls that follow

  lemma ScannedAccepts(db: Db, i: nat, asOf: Day, revision: nat, phase: Phase, now: int)
    requires Ground(db, revision) && db.active == Some(i) && i < |db.runs| && 1 <= asOf <= 100
    requires phase == Scan || phase == Assess
    requires Scanned(db.runs[i], asOf, revision, phase)
    ensures Accepts(db, i, At(asOf, now)) && Taken(db, i) == db
  {
    ContextIs(db, asOf, revision, now);
    hide ContextOf, ScopeInUse, SALES;
    assert db.runs[i := db.runs[i]] == db.runs;
  }

  /** A call goes on with the run. */
  lemma GoesOn(db: Db, i: nat, asOf: Day, revision: nat, phase: Phase, now: int, m: Maths)
    requires Ground(db, revision) && db.active == Some(i) && i < |db.runs| && 1 <= asOf <= 100
    requires (phase == Scan || phase == Assess) && now > db.clock && m.log1p(VALUE_CEILING) > 0.0
    requires Scanned(db.runs[i], asOf, revision, phase)
    ensures var next := Advance(db, i, At(asOf, now), m);
      Apply(db, WorkerCall(At(asOf, now), m)) == if next.None? then db else next.value
    ensures Advance(db, i, At(asOf, now), m).None? ==> RunBatch(db, At(asOf, now), m) == (db, Raised)
  {
    ScannedAccepts(db, i, asOf, revision, phase, now);
    WorkerMay(db, At(asOf, now), m);
    AcceptedCall(db, i, At(asOf, now), m);
    hide *;
  }

  /** The same database, but for the run and perhaps the episodes. */
  predicate OnlyRun(db: Db, db': Db, i: nat, now: int)
  {
    && db'.sales == db.sales && db'.pending == db.pending && db'.holders == db.holders && db'.enabled == db.enabled
    && db'.published == db.published && db'.deployed == db.deployed && db'.revision == db.revision
    && db'.active == db.active && db'.clock == now && |db'.runs| == |db.runs|
    && forall j :: 0 <= j < |db.runs| && j != i ==> db'.runs[j] == db.runs[j]
  }

  lemma EndsScan(db: Db, i: nat, asOf: Day, revision: nat, now: int, m: Maths)
    requires Ground(db, revision) && db.active == Some(i) && i < |db.runs| && 5 <= asOf <= 100
    requires now > db.clock && m.log1p(VALUE_CEILING) > 0.0 && Scanned(db.runs[i], asOf, revision, Scan)
    ensures var db' := Apply(db, WorkerCall(At(asOf, now), m));
      OnlyRun(db, db', i, now) && db'.book == db.book && Scanned(db'.runs[i], asOf, revision, Assess)
  {
    GoesOn(db, i, asOf, revision, Scan, now, m);
    EmptyBatchEnds(db.runs[i], asOf, revision, now);
    ScanIs(db, i, At(asOf, now), m);
    hide Apply, ScanBatch, SALES, RunBatch, Advance;
  }

  lemma OnlyClient(r: Run, book: Book)
    requires (set g | g in r.days :: g.0) == {CLIENT} && r.scope == SCOPE && forall k :: k in book ==> k == CLIENT
    ensures Universe(book, r) == {CLIENT} && NextKeys({CLIENT}, None, 10) == [CLIENT]
  {
    assert {CLIENT} - KeysUpTo({CLIENT}, None) == {CLIENT};
    FirstOfOne(10);
    hide FirstKeys;
    var clients := set g | g in r.days :: g.0;
    assert CLIENT in clients;
    var one :| one in r.days && one.0 == CLIENT;
    forall k
      ensures k in Universe(book, r) <==> k == CLIENT
    {
      assert k != CLIENT ==> k !in clients;
    }
  }

  lemma FirstOfOne(size: nat)
    requires size > 0
    ensures FirstKeys({CLIENT}, size) == [CLIENT]
  {
    assert Least({CLIENT}) == CLIENT;
    assert {CLIENT} - {CLIENT} == {};
    assert FirstKeys({}, size - 1) == [];
  }

  /** At the later cutoff the client has been inactive for too long. */
  lemma IsInactive(r: Run, asOf: Day, revision: nat, log1p: real -> real)
    requires log1p(VALUE_CEILING) > 0.0 && asOf >= 8 && Scanned(r, asOf, revision, Assess)
    ensures CaseOf(r, CLIENT, MathsOf(log1p)).d.kind.Some? && CaseOf(r, CLIENT, MathsOf(log1p)).f.client == CLIENT
  {
    hide FirstKeys, ScoreComponents, Score, Confidence, ChurnThreshold, OverdueThreshold;
    assert (2.0).Floor == 2;
  }

  lemma NewHistory(c: Case, b: Batch)
    requires Meaningful(c.f, c.d) && c.d.kind.Some?
    ensures var h := Reconcile([], c, b); |h| == 1 && h[0].row.asOf == b.asOf
  {
  }

  /** The book after the client's evaluation at the later cutoff. */
  predicate OneEpisode(book: Book, asOf: Day)
  {
    CLIENT in book && (forall k :: k in book ==> k == CLIENT) && |book[CLIENT]| == 1 && book[CLIENT][0].row.asOf == asOf
  }

  lemma BookAfter(cases: seq<Case>, b: Batch)
    requires Sane(cases) && KeysOf(cases) == [CLIENT] && |cases| == 1 && cases[0].f.client == CLIENT
    requires cases[0].d.kind.Some?
    ensures OneEpisode(OneByOne(map[], cases, b), b.asOf)
  {
    HistoryInBatch(map[], cases, b, 0);
    NewHistory(cases[0], b);
    hide Reconcile, Reconciled;
    forall k | k in OneByOne(map[], cases, b)
      ensures k == CLIENT
    {
      BookKeys(map[], KeysOf(cases), Reconciled(map[], cases, b), |cases|, k);
    }
  }

  /** The evaluation batch of the only client. */
  lemma EvaluatesClient(db: Db, i: nat, asOf: Day, revision: nat, now: int, log1p: real -> real)
    requires i < |db.runs| && log1p(VALUE_CEILING) > 0.0 && db.book == map[] && asOf >= 8
    requires Scanned(db.runs[i], asOf, revision, Assess)
    ensures var next := Advance(db, i, At(asOf, now), MathsOf(log1p));
      && next.Some? && OneEpisode(next.value.book, asOf)
      && next.value == WithRun(db, i, next.value.runs[i]).(book := next.value.book, clock := now)
      && var r := next.value.runs[i];
         && r.status == Running && r.phase == Assess && r.revision == revision
         && r.decision == DecisionAt(asOf, revision) && r.scope == SCOPE && r.algorithm == 1
  {
    var m, r, call := MathsOf(log1p), db.runs[i], At(asOf, now);
    var ks := [CLIENT];
    OnlyClient(r, db.book);
    AssessIs(db, i, call, m, ks);
    var b, cases := Batch(i, asOf, now, true, r.decision), CasesFor(r, ks, m);
    assert cases[0] == CaseOf(r, CLIENT, m);
    IsInactive(r, asOf, revision, log1p);
    assert Forward(db.book, cases, b);
    assert b == Batch(i, r.asOf, call.now, r.scope.pilot, r.decision);
    hide CasesFor, CaseOf, MathsOf, OneByOne, NextKeys, Universe, Advance, CountAll, KeysOf, Sane, SALES, Forward, At, DecisionAt;
    BookAfter(cases, b);
    hide OneEpisode;
    AfterBatchIs(r, db.book, cases, ks, b, now);
    hide AfterBatch;
  }

  lemma CreatesEpisode(db: Db, i: nat, asOf: Day, revision: nat, now: int, log1p: real -> real)
    requires Ground(db, revision) && db.active == Some(i) && i < |db.runs| && 8 <= asOf <= 100
    requires now > db.clock && log1p(VALUE_CEILING) > 0.0 && db.book == map[]
    requires Scanned(db.runs[i], asOf, revision, Assess)
    ensures var db' := Apply(db, WorkerCall(At(asOf, now), MathsOf(log1p)));
      && OnlyRun(db, db', i, now) && OneEpisode(db'.book, asOf)
      && db'.runs[i].status == Running && db'.runs[i].phase == Assess && db'.runs[i].revision == revision
      && db'.runs[i].decision == DecisionAt(asOf, revision) && db'.runs[i].scope == SCOPE && db'.runs[i].algorithm == 1
  {
    assert MathsOf(log1p).log1p == log1p;
    EvaluatesClient(db, i, asOf, revision, now, log1p);
    hide MathsOf, Apply, RunBatch, Advance, SALES, At, DecisionAt, OneEpisode, Scanned, Ground;
    GoesOn(db, i, asOf, revision, Assess, now, MathsOf(log1p));
  }

  lemma {:induction false} RemoveNothing(sales: seq<Sale>)
    ensures Remove(sales, {}) == sales
  {
    if sales != [] {
      RemoveNothing(sales[..|sales| - 1]);
    }
  }

  /** An edit of the sales, even one that removes nothing, ends the run. */
  lemma Supersedes(db: Db, i: nat, asOf: Day, revision: nat, now: int, m: Maths)
    requires Ground(db, revision + 1) && db.active == Some(i) && i < |db.runs| && 1 <= asOf <= 100
    requires now > db.clock && m.log1p(VALUE_CEILING) > 0.0
    requires var r := db.runs[i];
      && r.status == Running && r.phase == Assess && r.revision == revision && r.decision == DecisionAt(asOf, revision)
      && r.scope == SCOPE && r.algorithm == 1
    ensures Apply(db, WorkerCall(At(asOf, now), m)) == Supersede(db, i, EvidenceChanged, now)
  {
    ContextIs(db, asOf, revision + 1, now);
    WorkerMay(db, At(asOf, now), m);
    hide Advance, ContextOf, ScopeInUse, SALES, Apply, Supersede;
  }

  /** At the earlier cutoff every call fails on the episode. */
  lemma FailsNow(db: Db, i: nat, asOf: Day, later: Day, revision: nat, now: int, m: Maths)
    requires Ground(db, revision) && db.active == Some(i) && i < |db.runs| && 1 <= asOf <= 100 && asOf < later
    requires now > db.clock && m.log1p(VALUE_CEILING) > 0.0
    requires Scanned(db.runs[i], asOf, revision, Assess) && OneEpisode(db.book, later)
    ensures Doomed(db.book, db.runs[i]) && Advance(db, i, At(asOf, now), m).None?
    ensures RunBatch(db, At(asOf, now), m) == (db, Raised)
  {
    var r, call, ks := db.runs[i], At(asOf, now), [CLIENT];
    assert Blocking(db.book, r, CLIENT) && Doomed(db.book, r);
    OnlyClient(r, db.book);
    assert ks == NextKeys(Universe(db.book, r), r.clientCursor, call.clientSize) && r.asOf == asOf && call.now == now
        && r.phase != Scan && Late(db.book, CLIENT, asOf) && CLIENT in ks;
    hide *;
    GoesOn(db, i, asOf, revision, Assess, now, m);
    AssessIs(db, i, call, m, ks);
    BlockingFails(db.book, r, CasesFor(r, ks, m), ks, Batch(i, asOf, now, r.scope.pilot, r.decision), CLIENT);
  }

  // ---------------------------------------------------------------- the history

  const LATER: Day := 20
  const EARLIER: Day := 10

  /** A run at the later cutoff evaluates the client; the sales are edited; the next call supersedes it; and then the
      earlier cutoff is asked for. */
  function Story(m: Maths): seq<Action>
  {
    [Enable] + [WorkerCall(At(LATER, 1), m)] + [WorkerCall(At(LATER, 2), m)] + [WorkerCall(At(LATER, 3), m)]
    + [DeleteSales({})] + [WorkerCall(At(LATER, 4), m)] + [WorkerCall(At(EARLIER, 5), m)] + [WorkerCall(At(EARLIER, 6), m)]
  }

  /** The events one by one. */
  function FirstRun(m: Maths): Db
  {
    var enabled := Apply(Initial(SALES, map[], DEPLOYED, 0), Enable);
    var begun := Apply(enabled, WorkerCall(At(LATER, 1), m));
    var scanned := Apply(begun, WorkerCall(At(LATER, 2), m));
    Apply(scanned, WorkerCall(At(LATER, 3), m))
  }

  function SecondRun(db: Db, m: Maths): Db
  {
    var edited := Apply(db, DeleteSales({}));
    var superseded := Apply(edited, WorkerCall(At(LATER, 4), m));
    var begun := Apply(superseded, WorkerCall(At(EARLIER, 5), m));
    Apply(begun, WorkerCall(At(EARLIER, 6), m))
  }

  lemma PlayFour(db: Db, events: seq<Action>, a: Action, b: Action, c: Action, d: Action)
    ensures Play(db, events + [a] + [b] + [c] + [d]) == Apply(Apply(Apply(Apply(Play(db, events), a), b), c), d)
  {
    PlayMore(db, events, a);
    PlayMore(db, events + [a], b);
    PlayMore(db, events + [a] + [b], c);
    PlayMore(db, events + [a] + [b] + [c], d);
    hide *;
  }

  lemma StoryIs(m: Maths)
    ensures Play(Initial(SALES, map[], DEPLOYED, 0), Story(m)) == SecondRun(FirstRun(m), m)
  {
    var db := Initial(SALES, map[], DEPLOYED, 0);
    var first := [Enable] + [WorkerCall(At(LATER, 1), m)] + [WorkerCall(At(LATER, 2), m)] + [WorkerCall(At(LATER, 3), m)];
    assert Play(db, []) == db;
    assert [] + [Enable] == [Enable];
    hide Apply, Play, Initial, SALES, At;
    PlayFour(db, [], Enable, WorkerCall(At(LATER, 1), m), WorkerCall(At(LATER, 2), m), WorkerCall(At(LATER, 3), m));
    PlayFour(db, first, DeleteSales({}), WorkerCall(At(LATER, 4), m), WorkerCall(At(EARLIER, 5), m), WorkerCall(At(EARLIER, 6), m));
  }

  lemma StillGround(db: Db, db': Db, i: nat, revision: nat, now: int)
    requires Ground(db, revision) && OnlyRun(db, db', i, now)
    ensures Ground(db', revision)
  {
    hide SALES;
  }

  /** The client has its episode from the first run. */
  predicate Evaluated(db: Db)
  {
    && Ground(db, 0) && db.active == Some(0) && db.clock == 3 && |db.runs| == 1 && OneEpisode(db.book, LATER)
    && db.runs[0].status == Running && db.runs[0].phase == Assess && db.runs[0].revision == 0
    && db.runs[0].decision == DecisionAt(LATER, 0) && db.runs[0].scope == SCOPE && db.runs[0].algorithm == 1
  }

  lemma FirstRunIs(log1p: real -> real)
    requires log1p(VALUE_CEILING) > 0.0
    ensures Evaluated(FirstRun(MathsOf(log1p)))
  {
    var m := MathsOf(log1p);
    var enabled := Apply(Initial(SALES, map[], DEPLOYED, 0), Enable);
    assert Ground(enabled, 0) && enabled.active == None && enabled.clock == 0 && enabled.runs == [] && enabled.book == map[];
    assert m.log1p == log1p;
    hide Apply, Initial, SALES, At, Scanned, Ground, MathsOf, DecisionAt, OneEpisode;
    Starts(enabled, LATER, 0, 1, m);
    var begun := Apply(enabled, WorkerCall(At(LATER, 1), m));
    EndsScan(begun, 0, LATER, 0, 2, m);
    var scanned := Apply(begun, WorkerCall(At(LATER, 2), m));
    StillGround(begun, scanned, 0, 0, 2);
    CreatesEpisode(scanned, 0, LATER, 0, 3, log1p);
    StillGround(scanned, Apply(scanned, WorkerCall(At(LATER, 3), m)), 0, 0, 3);
  }

  lemma Edits(db: Db, revision: nat)
    requires Ground(db, revision)
    ensures Apply(db, DeleteSales({})) == db.(revision := revision + 1) && Ground(db.(revision := revision + 1), revision + 1)
  {
    RemoveNothing(SALES);
    hide SALES, Remove;
  }

  lemma SupersededGround(db: Db, i: nat, e: Error, now: int, revision: nat)
    requires i < |db.runs| && Ground(db, revision)
    ensures Ground(Supersede(db, i, e, now), revision)
  {
    hide SALES;
  }

  /** The database at the end of the story. */
  predicate AtTheEnd(db: Db)
  {
    && Ground(db, 1) && db.active == Some(1) && db.clock == 6 && |db.runs| == 2 && OneEpisode(db.book, LATER)
    && db.runs[0].status == Superseded && Scanned(db.runs[1], EARLIER, 1, Assess)
  }

  lemma SecondRunIs(db: Db, m: Maths)
    requires m.log1p(VALUE_CEILING) > 0.0 && Evaluated(db)
    ensures AtTheEnd(SecondRun(db, m))
  {
    Edits(db, 0);
    var edited := Apply(db, DeleteSales({}));
    SupersededGround(edited, 0, EvidenceChanged, 4, 1);
    var superseded := Supersede(edited, 0, EvidenceChanged, 4);
    assert superseded.active == None && superseded.clock == 4 && |superseded.runs| == 1 && superseded.book == db.book
        && superseded.runs[0].status == Superseded;
    hide Apply, SALES, At, Scanned, Ground, DecisionAt, OneEpisode, Supersede;
    Supersedes(edited, 0, LATER, 0, 4, m);
    Starts(superseded, EARLIER, 1, 5, m);
    var begun := Apply(superseded, WorkerCall(At(EARLIER, 5), m));
    EndsScan(begun, 1, EARLIER, 1, 6, m);
    StillGround(begun, Apply(begun, WorkerCall(At(EARLIER, 6), m)), 1, 1, 6);
  }

  lemma SalesAreSorted()
    ensures Keyset.Sorted(SALES)
  {
  }

  /** The run is in flight and accepted, fails at the call, and never succeeds. */
  predicate Stuck(db: Db, call: Call, m: Maths, later: Db)
    requires m.log1p(VALUE_CEILING) > 0.0
  {
    && |db.runs| == 2 && db.runs[0].status == Superseded && InFlight(db.runs[1]) && db.runs[1].asOf == EARLIER
    && Accepts(db, 1, call) && Advance(db, 1, call, m).None? && RunBatch(db, call, m) == (db, Raised)
    && 1 < |later.runs| && later.runs[1].status != Succeeded
  }

  lemma EndIsStuck(db: Db, now: int, m: Maths, events: seq<Action>)
    requires m.log1p(VALUE_CEILING) > 0.0 && Inv(db) && AtTheEnd(db) && now > 6
    ensures Stuck(db, At(EARLIER, now), m, Play(db, events))
  {
    assert InFlight(db.runs[1]) && db.runs[1].asOf == EARLIER;
    hide At, Ground, DecisionAt, OneEpisode, Inv, Accepts, RunBatch, Advance, Doomed, Scanned, Play;
    FailsNow(db, 1, EARLIER, LATER, 1, now, m);
    ScannedAccepts(db, 1, EARLIER, 1, Assess, now);
    DoomedNeverSucceeds(db, 1, events);
  }

  /** A history of ordinary events after which the only run in flight is accepted by every rule, fails at every call of
      the worker, and succeeds in no continuation. */
  lemma StuckForGood(log1p: real -> real, now: int, events: seq<Action>)
    requires log1p(VALUE_CEILING) > 0.0 && now > 6
    ensures var m := MathsOf(log1p);
      var db := Play(Initial(SALES, map[], DEPLOYED, 0), Story(m));
      Stuck(db, At(EARLIER, now), m, Play(db, events))
  {
    var m := MathsOf(log1p);
    assert m.log1p == log1p;
    SalesAreSorted();
    assert GoodBook(map[]);
    hide *;
    InitialOk(SALES, map[], DEPLOYED, 0);
    HistoryKeeps(Initial(SALES, map[], DEPLOYED, 0), Story(m));
    StoryIs(m);
    FirstRunIs(log1p);
    SecondRunIs(FirstRun(m), m);
    EndIsStuck(SecondRun(FirstRun(m), m), now, m, events);
  }
}
