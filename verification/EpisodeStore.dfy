/** A reconciliation batch over many clients. The source walks the batch twice, first resolving the
    purchases of all clients and then reassessing and creating; the specification handles one client
    at a time. */
module EpisodeStore {
  import opened Prelude
  import opened Inactivity
  import opened Episodes

  /** One line of the evaluation report; `status` is None for a client without any episode. */
  datatype Outcome = Outcome(run: nat, client: Text, eligible: bool, reason: Reason,
                             kind: Option<Kind>, status: Option<Status>, score: int, confidence: int)

  function HistoryOf(book: Book, k: Text): History
  {
    if k in book then book[k] else []
  }

  function Put(book: Book, k: Text, h: History): Book
  {
    if h == [] then book else book[k := h]
  }

  predicate Distinct(ks: seq<Text>)
  {
    forall i, j :: 0 <= i < j < |ks| ==> ks[i] != ks[j]
  }

  predicate Sane(cases: seq<Case>)
  {
    forall i :: 0 <= i < |cases| ==> Meaningful(cases[i].f, cases[i].d)
  }

  predicate Forward(book: Book, cases: seq<Case>, b: Batch)
  {
    forall i :: 0 <= i < |cases| ==> !Backwards(HistoryOf(book, cases[i].f.client), b)
  }

  function KeysOf(cases: seq<Case>): seq<Text>
  {
    seq(|cases|, i requires 0 <= i < |cases| => cases[i].f.client)
  }

  // ---------------------------------------------------------------- specification

  /** Write the histories of the first i clients. */
  function PutAll(book: Book, ks: seq<Text>, hs: seq<History>, i: nat): Book
    requires i <= |ks| == |hs|
  {
    if i == 0 then book else Put(PutAll(book, ks, hs, i - 1), ks[i - 1], hs[i - 1])
  }

  /** The counters after the first i increments. */
  function Sum(counts: multiset<Tally>, ts: seq<multiset<Tally>>, i: nat): multiset<Tally>
    requires i <= |ts|
  {
    if i == 0 then counts else Sum(counts, ts, i - 1) + ts[i - 1]
  }

  /** What every client of the batch becomes, starting from its stored history. */
  function Reconciled(book: Book, cases: seq<Case>, b: Batch): (hs: seq<History>)
    requires Sane(cases)
    ensures |hs| == |cases|
  {
    seq(|cases|, i requires 0 <= i < |cases| => Reconcile(HistoryOf(book, cases[i].f.client), cases[i], b))
  }

  function AllTallies(book: Book, cases: seq<Case>, b: Batch): (ts: seq<multiset<Tally>>)
    requires Sane(cases)
    ensures |ts| == |cases|
  {
    seq(|cases|, i requires 0 <= i < |cases| => Tallies(HistoryOf(book, cases[i].f.client), cases[i], b))
  }

  /** The simple form: every client of the batch is reconciled on its own. */
  function OneByOne(book: Book, cases: seq<Case>, b: Batch): Book
    requires Sane(cases)
  {
    PutAll(book, KeysOf(cases), Reconciled(book, cases, b), |cases|)
  }

  function CountAll(counts: multiset<Tally>, book: Book, cases: seq<Case>, b: Batch): multiset<Tally>
    requires Sane(cases)
  {
    Sum(counts, AllTallies(book, cases, b), |cases|)
  }

  function OutcomeOf(h: History, c: Case, b: Batch): Outcome
  {
    if h == [] then Outcome(b.run, c.f.client, c.d.eligible, c.d.reason, None, None, 0, c.d.confidence)
    else
      var r := h[|h| - 1].row;
      Outcome(b.run, c.f.client, c.d.eligible, c.d.reason, Some(r.kind), Some(r.status), r.evidence.score, c.d.confidence)
  }

  /** The report lines of a batch. */
  function Outcomes(book: Book, cases: seq<Case>, b: Batch): (lines: seq<Outcome>)
    requires Sane(cases)
    ensures |lines| == |cases|
  {
    var hs := Reconciled(book, cases, b);
    seq(|cases|, i requires 0 <= i < |cases| => OutcomeOf(hs[i], cases[i], b))
  }

  // ---------------------------------------------------------------- reading what was written

  lemma {:induction false} ReadOther(book: Book, ks: seq<Text>, hs: seq<History>, i: nat, k: Text)
    requires i <= |ks| == |hs|
    requires forall j :: 0 <= j < i ==> ks[j] != k
    ensures HistoryOf(PutAll(book, ks, hs, i), k) == HistoryOf(book, k)
  {
    if i > 0 {
      ReadOther(book, ks, hs, i - 1, k);
    }
  }

  lemma {:induction false} ReadWritten(book: Book, ks: seq<Text>, hs: seq<History>, i: nat, j: nat)
    requires j < i <= |ks| == |hs| && Distinct(ks)
    requires |HistoryOf(book, ks[j])| <= |hs[j]|
    ensures HistoryOf(PutAll(book, ks, hs, i), ks[j]) == hs[j]
  {
    if j < i - 1 {
      ReadWritten(book, ks, hs, i - 1, j);
    } else {
      ReadOther(book, ks, hs, j, ks[j]);
    }
  }

  predicate NoBlank(book: Book)
  {
    forall k :: k in book ==> book[k] != []
  }

  lemma {:induction false} PutAllNoBlank(book: Book, ks: seq<Text>, hs: seq<History>, i: nat)
    requires i <= |ks| == |hs| && NoBlank(book)
    ensures NoBlank(PutAll(book, ks, hs, i))
  {
    if i > 0 {
      PutAllNoBlank(book, ks, hs, i - 1);
    }
  }

  lemma SameHistories(x: Book, y: Book)
    requires NoBlank(x) && NoBlank(y)
    requires forall k :: HistoryOf(x, k) == HistoryOf(y, k)
    ensures x == y
  {
    forall k
      ensures k in x <==> k in y
      ensures k in x ==> x[k] == y[k]
    {
      assert HistoryOf(x, k) == HistoryOf(y, k);
    }
  }

  /** Histories that are written twice keep what was written last. */
  lemma Overwrite(book: Book, ks: seq<Text>, once: seq<History>, twice: seq<History>)
    requires |ks| == |once| == |twice| && Distinct(ks) && NoBlank(book)
    requires forall j :: 0 <= j < |ks| ==> |HistoryOf(book, ks[j])| <= |once[j]| <= |twice[j]|
    ensures PutAll(PutAll(book, ks, once, |ks|), ks, twice, |ks|) == PutAll(book, ks, twice, |ks|)
  {
    var n := |ks|;
    var first := PutAll(book, ks, once, n);
    forall k
      ensures HistoryOf(PutAll(first, ks, twice, n), k) == HistoryOf(PutAll(book, ks, twice, n), k)
    {
      if j :| 0 <= j < n && ks[j] == k {
        ReadWritten(book, ks, once, n, j);
        ReadWritten(first, ks, twice, n, j);
        ReadWritten(book, ks, twice, n, j);
      } else {
        ReadOther(book, ks, once, n, k);
        ReadOther(first, ks, twice, n, k);
        ReadOther(book, ks, twice, n, k);
      }
    }
    PutAllNoBlank(book, ks, once, n);
    PutAllNoBlank(first, ks, twice, n);
    PutAllNoBlank(book, ks, twice, n);
    SameHistories(PutAll(first, ks, twice, n), PutAll(book, ks, twice, n));
  }

  lemma SizesGrow(h: History, c: Case, b: Batch)
    requires Meaningful(c.f, c.d)
    ensures |h| == |Close(h, c, b)| <= |Reconcile(h, c, b)|
  {
  }

  // ---------------------------------------------------------------- what a batch keeps

  lemma HistoryInBatch(book: Book, cases: seq<Case>, b: Batch, j: nat)
    requires Sane(cases) && Distinct(KeysOf(cases)) && j < |cases|
    ensures var k := cases[j].f.client;
      HistoryOf(OneByOne(book, cases, b), k) == Reconcile(HistoryOf(book, k), cases[j], b)
  {
    hide Reconcile;
    SizesGrow(HistoryOf(book, cases[j].f.client), cases[j], b);
    ReadWritten(book, KeysOf(cases), Reconciled(book, cases, b), |cases|, j);
  }

  lemma HistoryOutsideBatch(book: Book, cases: seq<Case>, b: Batch, k: Text)
    requires Sane(cases) && k !in KeysOf(cases)
    ensures HistoryOf(OneByOne(book, cases, b), k) == HistoryOf(book, k)
  {
    hide Reconcile;
    ReadOther(book, KeysOf(cases), Reconciled(book, cases, b), |cases|, k);
  }

  /** A batch keeps the invariant of every client: at most one open episode and it is the last, numbers
      and revisions without gaps, a legal path of events, a log that matches the stored row. Nothing
      that was logged or resolved ever changes, anchors stay and no cutoff goes back. */
  lemma BatchKeepsClient(book: Book, cases: seq<Case>, b: Batch, k: Text)
    requires Sane(cases) && Distinct(KeysOf(cases)) && Forward(book, cases, b)
    requires Good(HistoryOf(book, k), k)
    ensures Good(HistoryOf(OneByOne(book, cases, b), k), k)
    ensures Evolves(HistoryOf(book, k), HistoryOf(OneByOne(book, cases, b), k))
  {
    hide Reconcile, Good, EpisodeEvolves, OneByOne;
    if j :| 0 <= j < |cases| && cases[j].f.client == k {
      HistoryInBatch(book, cases, b, j);
      ReconcileKeeps(HistoryOf(book, k), cases[j], b);
    } else {
      HistoryOutsideBatch(book, cases, b, k);
      Unchanged(HistoryOf(book, k));
    }
  }

  lemma Unchanged(h: History)
    ensures Evolves(h, h)
  {
  }

  ghost predicate BookEvolves(before: Book, after: Book)
  {
    forall k :: Evolves(HistoryOf(before, k), HistoryOf(after, k))
  }

  lemma BatchKeeps(book: Book, cases: seq<Case>, b: Batch)
    requires Sane(cases) && Distinct(KeysOf(cases)) && GoodBook(book) && Forward(book, cases, b)
    ensures GoodBook(OneByOne(book, cases, b)) && BookEvolves(book, OneByOne(book, cases, b))
  {
    hide Reconcile, GoodEpisode, EpisodeEvolves;
    var after := OneByOne(book, cases, b);
    PutAllNoBlank(book, KeysOf(cases), Reconciled(book, cases, b), |cases|);
    forall k
      ensures Good(HistoryOf(after, k), k) && Evolves(HistoryOf(book, k), HistoryOf(after, k))
    {
      BatchKeepsClient(book, cases, b, k);
    }
    forall k | k in after
      ensures Good(after[k], k)
    {
      assert HistoryOf(after, k) == after[k];
    }
  }

  function OpenClients(book: Book): set<Text>
  {
    set k | k in book && Open(book[k])
  }

  lemma OpenClientsAfterPut(book: Book, k: Text, h: History)
    requires |HistoryOf(book, k)| <= |h|
    ensures |OpenClients(Put(book, k, h))| - |OpenClients(book)| == OpenCount(h) - OpenCount(HistoryOf(book, k))
  {
    var before, after := OpenClients(book), OpenClients(Put(book, k, h));
    assert after == if Open(h) then before + {k} else before - {k};
  }

  lemma {:induction false} BalanceUpTo(counts: multiset<Tally>, book: Book, cases: seq<Case>, b: Batch, i: nat)
    requires Sane(cases) && Distinct(KeysOf(cases)) && i <= |cases|
    ensures var all := Sum(counts, AllTallies(book, cases, b), i);
      var after := PutAll(book, KeysOf(cases), Reconciled(book, cases, b), i);
      && Gain(all) - Gain(counts) == |OpenClients(after)| - |OpenClients(book)|
      && all[Processed] == counts[Processed] + i
      && (Balanced(counts) ==> Balanced(all))
  {
    hide Gain, Balanced, OpenClients, Reconciled, AllTallies;
    if i > 0 {
      hide *;
      BalanceUpTo(counts, book, cases, b, i - 1);
      BalanceStep(counts, book, cases, b, i - 1);
    }
  }

  lemma BalanceStep(counts: multiset<Tally>, book: Book, cases: seq<Case>, b: Batch, i: nat)
    requires Sane(cases) && Distinct(KeysOf(cases)) && i < |cases|
    ensures var ks, hs, ts := KeysOf(cases), Reconciled(book, cases, b), AllTallies(book, cases, b);
      var before, after := PutAll(book, ks, hs, i), PutAll(book, ks, hs, i + 1);
      && Gain(Sum(counts, ts, i + 1)) - Gain(Sum(counts, ts, i)) == |OpenClients(after)| - |OpenClients(before)|
      && Sum(counts, ts, i + 1)[Processed] == Sum(counts, ts, i)[Processed] + 1
      && (Balanced(Sum(counts, ts, i)) ==> Balanced(Sum(counts, ts, i + 1)))
  {
    hide Reconcile, Tallies, Gain, Balanced, OpenClients, OpenCount;
    var ks, hs := KeysOf(cases), Reconciled(book, cases, b);
    var c := cases[i];
    var h := HistoryOf(book, c.f.client);
    ReadOther(book, ks, hs, i, ks[i]);
    SizesGrow(h, c, b);
    OpenClientsAfterPut(PutAll(book, ks, hs, i), c.f.client, hs[i]);
    ClientBalance(h, c, b);
    GainAdds(Sum(counts, AllTallies(book, cases, b), i), Tallies(h, c, b));
  }

  /** Over a whole batch, created minus closed episodes is the change in open episodes, every client is
      processed once, and processed stays eligible plus not eligible. */
  lemma BatchBalance(counts: multiset<Tally>, book: Book, cases: seq<Case>, b: Batch)
    requires Sane(cases) && Distinct(KeysOf(cases))
    ensures var all := CountAll(counts, book, cases, b);
      && Gain(all) - Gain(counts) == |OpenClients(OneByOne(book, cases, b))| - |OpenClients(book)|
      && all[Processed] == counts[Processed] + |cases|
      && (Balanced(counts) ==> Balanced(all))
  {
    BalanceUpTo(counts, book, cases, b, |cases|);
  }

  /** Repeating a whole batch with the same facts leaves every log as it is. */
  lemma BatchRepeats(book: Book, cases: seq<Case>, b: Batch, again: Batch, k: Text)
    requires Sane(cases) && Distinct(KeysOf(cases)) && Good(HistoryOf(book, k), k) && SameFacts(b, again)
    ensures var once := OneByOne(book, cases, b);
      var h, h' := HistoryOf(once, k), HistoryOf(OneByOne(once, cases, again), k);
      |h| == |h'| && forall i :: 0 <= i < |h| ==> h[i].log == h'[i].log
  {
    hide Reconcile, Good, OneByOne;
    var once := OneByOne(book, cases, b);
    if j :| 0 <= j < |cases| && cases[j].f.client == k {
      HistoryInBatch(book, cases, b, j);
      HistoryInBatch(once, cases, again, j);
      RepeatLogsNothing(HistoryOf(book, k), cases[j], b, again);
    } else {
      HistoryOutsideBatch(once, cases, again, k);
    }
  }

  // ---------------------------------------------------------------- the two loops of the source

  function Originals(book: Book, cases: seq<Case>): seq<History>
  {
    seq(|cases|, i requires 0 <= i < |cases| => HistoryOf(book, cases[i].f.client))
  }

  function AfterClosing(book: Book, cases: seq<Case>, b: Batch): (hs: seq<History>)
    ensures |hs| == |cases|
  {
    seq(|cases|, i requires 0 <= i < |cases| => Close(HistoryOf(book, cases[i].f.client), cases[i], b))
  }

  /** What the first loop counts, client by client. */
  function FirstTallies(book: Book, cases: seq<Case>): (ts: seq<multiset<Tally>>)
    ensures |ts| == |cases|
  {
    seq(|cases|, i requires 0 <= i < |cases| => CloseTallies(HistoryOf(book, cases[i].f.client), cases[i]))
  }

  function LaterTallies(h: History, c: Case, b: Batch): multiset<Tally>
    requires Meaningful(c.f, c.d)
  {
    var h1 := Close(h, c, b);
    var h2 := ReassessLast(h1, c, b);
    ReviewTallies(h1, c, b) + BeginTallies(h2, c) + FinalTallies(Begin(h2, c, b), c)
  }

  /** What the second loop counts, client by client. */
  function SecondTallies(book: Book, cases: seq<Case>, b: Batch): (ts: seq<multiset<Tally>>)
    requires Sane(cases)
    ensures |ts| == |cases|
  {
    seq(|cases|, i requires 0 <= i < |cases| => LaterTallies(HistoryOf(book, cases[i].f.client), cases[i], b))
  }

  lemma TalliesSplit(h: History, c: Case, b: Batch)
    requires Meaningful(c.f, c.d)
    ensures Tallies(h, c, b) == CloseTallies(h, c) + LaterTallies(h, c, b)
  {
    hide CloseTallies, ReviewTallies, BeginTallies, FinalTallies, Close, ReassessLast, Begin;
    var h1 := Close(h, c, b);
    var h2 := ReassessLast(h1, c, b);
    var x, y, z, w := CloseTallies(h, c), ReviewTallies(h1, c, b), BeginTallies(h2, c), FinalTallies(Begin(h2, c, b), c);
    assert x + y + z + w == x + (y + z + w);
  }

  lemma Exchange(x: multiset<Tally>, y: multiset<Tally>, z: multiset<Tally>)
    ensures x + y + z == x + z + y == x + (y + z)
  {
  }

  lemma {:induction false} SumFrom(counts: multiset<Tally>, t: multiset<Tally>, ts: seq<multiset<Tally>>, i: nat)
    requires i <= |ts|
    ensures Sum(counts + t, ts, i) == Sum(counts, ts, i) + t
  {
    if i > 0 {
      SumFrom(counts, t, ts, i - 1);
      Exchange(Sum(counts, ts, i - 1), t, ts[i - 1]);
    }
  }

  /** Two rounds of increments add up to one round of the combined increments. */
  lemma {:induction false} SumTwice(counts: multiset<Tally>, first: seq<multiset<Tally>>,
                                    second: seq<multiset<Tally>>, both: seq<multiset<Tally>>, i: nat)
    requires i <= |first| == |second| == |both|
    requires forall j :: 0 <= j < |both| ==> both[j] == first[j] + second[j]
    ensures Sum(Sum(counts, first, i), second, i) == Sum(counts, both, i)
  {
    if i > 0 {
      SumTwice(counts, first, second, both, i - 1);
      SumFrom(Sum(counts, first, i - 1), first[i - 1], second, i - 1);
      Exchange(Sum(counts, both, i - 1), first[i - 1], second[i - 1]);
    }
  }

  /** Counting loop by loop and counting client by client give the same counters. */
  lemma TalliesAgree(counts: multiset<Tally>, book: Book, cases: seq<Case>, b: Batch)
    requires Sane(cases)
    ensures Sum(Sum(counts, FirstTallies(book, cases), |cases|), SecondTallies(book, cases, b), |cases|)
         == CountAll(counts, book, cases, b)
  {
    hide CloseTallies, LaterTallies, Tallies;
    var first, second, both := FirstTallies(book, cases), SecondTallies(book, cases, b), AllTallies(book, cases, b);
    forall j | 0 <= j < |cases|
      ensures both[j] == first[j] + second[j]
    {
      TalliesSplit(HistoryOf(book, cases[j].f.client), cases[j], b);
    }
    SumTwice(counts, first, second, both, |cases|);
  }

  /** Both loops together do to the book what one client at a time would do. */
  lemma TwoLoopsAgree(book: Book, cases: seq<Case>, b: Batch)
    requires Sane(cases) && Distinct(KeysOf(cases)) && NoBlank(book)
    ensures PutAll(PutAll(book, KeysOf(cases), AfterClosing(book, cases, b), |cases|),
                   KeysOf(cases), Reconciled(book, cases, b), |cases|)
         == OneByOne(book, cases, b)
  {
    hide Close, Reconcile;
    forall j | 0 <= j < |cases|
      ensures |HistoryOf(book, KeysOf(cases)[j])| <= |AfterClosing(book, cases, b)[j]| <= |Reconciled(book, cases, b)[j]|
    {
      SizesGrow(HistoryOf(book, cases[j].f.client), cases[j], b);
    }
    Overwrite(book, KeysOf(cases), AfterClosing(book, cases, b), Reconciled(book, cases, b));
  }

  /** What the second loop reads is the closed history. */
  lemma SecondLoopReads(book: Book, cases: seq<Case>, b: Batch, to: seq<History>, i: nat)
    requires Distinct(KeysOf(cases)) && i < |cases| == |to|
    ensures var ks, once := KeysOf(cases), AfterClosing(book, cases, b);
      HistoryOf(PutAll(PutAll(book, ks, once, |cases|), ks, to, i), cases[i].f.client)
      == Close(HistoryOf(book, cases[i].f.client), cases[i], b)
  {
    var ks, once := KeysOf(cases), AfterClosing(book, cases, b);
    ReadOther(PutAll(book, ks, once, |cases|), ks, to, i, ks[i]);
    ReadWritten(book, ks, once, |cases|, i);
  }

  /** What the second loop has to write, count and report for the i-th client. */
  lemma SecondLoopWrites(book: Book, cases: seq<Case>, b: Batch, i: nat)
    requires Sane(cases) && i < |cases|
    ensures var c := cases[i];
      var h := HistoryOf(book, c.f.client);
      && Reconciled(book, cases, b)[i] == Reconcile(h, c, b)
      && SecondTallies(book, cases, b)[i] == LaterTallies(h, c, b)
      && Outcomes(book, cases, b)[i] == OutcomeOf(Reconcile(h, c, b), c, b)
  {
    hide Reconcile, LaterTallies, OutcomeOf;
  }

  /** No history among the first i was last evaluated for a later cutoff. */
  predicate Steady(hs: seq<History>, b: Batch, i: nat)
    requires i <= |hs|
  {
    i == 0 || (Steady(hs, b, i - 1) && !Backwards(hs[i - 1], b))
  }

  lemma {:induction false} SteadyMeans(hs: seq<History>, b: Batch, i: nat)
    requires i <= |hs|
    ensures Steady(hs, b, i) <==> forall j :: 0 <= j < i ==> !Backwards(hs[j], b)
  {
    if i > 0 {
      SteadyMeans(hs, b, i - 1);
    }
  }

  lemma NotSteady(hs: seq<History>, b: Batch, i: nat)
    requires i < |hs| && Backwards(hs[i], b)
    ensures !Steady(hs, b, |hs|)
  {
    SteadyMeans(hs, b, |hs|);
  }

  lemma SteadyForward(book: Book, cases: seq<Case>, b: Batch)
    ensures Steady(Originals(book, cases), b, |cases|) <==> Forward(book, cases, b)
  {
    SteadyMeans(Originals(book, cases), b, |cases|);
    assert forall j :: 0 <= j < |cases| ==> Originals(book, cases)[j] == HistoryOf(book, cases[j].f.client);
  }

  /** The report after the first i lines. */
  function Appended(report: seq<Outcome>, lines: seq<Outcome>, i: nat): seq<Outcome>
    requires i <= |lines|
  {
    if i == 0 then report else Appended(report, lines, i - 1) + [lines[i - 1]]
  }

  lemma {:induction false} AppendedAll(report: seq<Outcome>, lines: seq<Outcome>, i: nat)
    requires i <= |lines|
    ensures Appended(report, lines, i) == report + lines[..i]
  {
    if i > 0 {
      AppendedAll(report, lines, i - 1);
      assert lines[..i] == lines[..i - 1] + [lines[i - 1]];
    }
  }

  class SignalStore {
    var book: Book
    var counts: multiset<Tally>
    var evaluations: seq<Outcome>

    predicate Valid()
      reads this
    {
      GoodBook(book)
    }

    constructor ()
      ensures Valid() && book == map[] && counts == multiset{} && evaluations == []
    {
      book, counts, evaluations := map[], multiset{}, [];
    }

    /** The body of the first loop for one client. */
    method CloseClient(h: History, c: Case, b: Batch) returns (h': History, t: multiset<Tally>)
      ensures h' == Close(h, c, b) && t == CloseTallies(h, c)
    {
      h', t := h, multiset{};
      if Bought(h, c) {
        h' := WithLast(h, ResolvePurchase(h[|h| - 1], c, b));
        t := One(OfEvent(Closure));
      }
    }

    /** First loop. It fails on an episode that was evaluated for a later cutoff. */
    method ResolvePurchases(cases: seq<Case>, b: Batch) returns (ok: bool)
      requires Distinct(KeysOf(cases))
      modifies this`book, this`counts
      ensures ok <==> Steady(Originals(old(book), cases), b, |cases|)
      ensures ok ==> book == PutAll(old(book), KeysOf(cases), AfterClosing(old(book), cases, b), |cases|)
      ensures ok ==> counts == Sum(old(counts), FirstTallies(old(book), cases), |cases|)
    {
      hide Close, CloseTallies, Backwards;
      ghost var start, from, to := book, Originals(book, cases), AfterClosing(book, cases, b);
      ghost var ks, ts := KeysOf(cases), FirstTallies(book, cases);
      var i := 0;
      while i < |cases|
        invariant i <= |cases|
        invariant Steady(from, b, i)
        invariant book == PutAll(start, ks, to, i)
        invariant counts == Sum(old(counts), ts, i)
      {
        ReadOther(start, ks, to, i, ks[i]);
        var h := HistoryOf(book, cases[i].f.client);
        if Backwards(h, b) {
          NotSteady(from, b, i);
          return false;
        }
        var h', t := CloseClient(h, cases[i], b);
        book := Put(book, cases[i].f.client, h');
        counts := counts + t;
        i := i + 1;
      }
      ok := true;
    }

    /** The first half of the second loop for one client: reassess what is still open. */
    method ReassessClient(h: History, c: Case, b: Batch) returns (h': History, t: multiset<Tally>)
      requires Meaningful(c.f, c.d)
      ensures h' == ReassessLast(h, c, b) && t == ReviewTallies(h, c, b)
    {
      h', t := h, multiset{};
      if Open(h) {
        var last := h[|h| - 1];
        var r := Assessed(last.row, c, b);
        if Moved(last.row, c, b) {
          t := One(OfEvent(EventOf(last.row, r)));
          h' := WithLast(h, Record(Episode(r, last.log), EventOf(last.row, r), b));
        } else {
          h' := WithLast(h, Episode(r, last.log));
        }
      }
    }

    /** The second half: create what is due. */
    method BeginClient(h: History, c: Case, b: Batch) returns (h': History, t: multiset<Tally>)
      requires Meaningful(c.f, c.d)
      ensures h' == Begin(h, c, b) && t == BeginTallies(h, c)
    {
      h', t := h, multiset{};
      if !Open(h) && c.d.kind.Some? {
        t := One(OfEvent(Created));
        h' := h + [NewEpisode(if h == [] then 1 else h[|h| - 1].row.episode + 1, c, b)];
      }
    }

    method ReviewClient(h: History, c: Case, b: Batch, ghost start: History)
      returns (h': History, t: multiset<Tally>)
      requires Meaningful(c.f, c.d)
      requires h == Close(start, c, b)
      ensures h' == Reconcile(start, c, b) && t == LaterTallies(start, c, b)
    {
      hide Close, ReassessLast, Begin, ReviewTallies, BeginTallies, FinalTallies;
      var h2, t2 := ReassessClient(h, c, b);
      var h3, t3 := BeginClient(h2, c, b);
      h', t := h3, t2 + t3 + FinalTallies(h3, c);
    }

    /** Second loop: reassess, create, report every client. */
    method Review(cases: seq<Case>, b: Batch, ghost start: Book)
      requires Distinct(KeysOf(cases)) && Sane(cases)
      requires book == PutAll(start, KeysOf(cases), AfterClosing(start, cases, b), |cases|)
      modifies this
      ensures book == PutAll(old(book), KeysOf(cases), Reconciled(start, cases, b), |cases|)
      ensures counts == Sum(old(counts), SecondTallies(start, cases, b), |cases|)
      ensures evaluations == Appended(old(evaluations), Outcomes(start, cases, b), |cases|)
    {
      hide Close, Reconcile, LaterTallies, OutcomeOf, Reconciled, SecondTallies, Outcomes, AfterClosing;
      ghost var ks, to := KeysOf(cases), Reconciled(start, cases, b);
      ghost var ts, report := SecondTallies(start, cases, b), Outcomes(start, cases, b);
      var i := 0;
      while i < |cases|
        invariant i <= |cases|
        invariant book == PutAll(old(book), ks, to, i)
        invariant counts == Sum(old(counts), ts, i)
        invariant evaluations == Appended(old(evaluations), report, i)
      {
        SecondLoopReads(start, cases, b, to, i);
        SecondLoopWrites(start, cases, b, i);
        var h := HistoryOf(book, cases[i].f.client);
        var h', t := ReviewClient(h, cases[i], b, HistoryOf(start, cases[i].f.client));
        book := Put(book, cases[i].f.client, h');
        evaluations := evaluations + [OutcomeOf(h', cases[i], b)];
        counts := counts + t;
        i := i + 1;
      }
    }

    /** One transaction: when the first loop fails, everything is rolled back. */
    method ReconcileBatch(cases: seq<Case>, b: Batch) returns (ok: bool)
      requires Valid()
      requires Distinct(KeysOf(cases)) && Sane(cases)
      modifies this
      ensures Valid()
      ensures ok <==> Forward(old(book), cases, b)
      ensures ok ==> book == OneByOne(old(book), cases, b)
      ensures ok ==> counts == CountAll(old(counts), old(book), cases, b)
      ensures ok ==> evaluations == old(evaluations) + Outcomes(old(book), cases, b)
      ensures !ok ==> book == old(book) && counts == old(counts) && evaluations == old(evaluations)
    {
      hide GoodBook, OneByOne, CountAll, Outcomes, Reconciled, AfterClosing, FirstTallies, SecondTallies;
      var savedBook, savedCounts := book, counts;
      SteadyForward(book, cases, b);
      ok := ResolvePurchases(cases, b);
      if ok {
        Review(cases, b, savedBook);
        GoodHasNoBlank(savedBook);
        TwoLoopsAgree(savedBook, cases, b);
        BatchKeeps(savedBook, cases, b);
        TalliesAgree(savedCounts, savedBook, cases, b);
        AppendedLines(old(evaluations), savedBook, cases, b);
      } else {
        book, counts := savedBook, savedCounts;
      }
    }
  }

  lemma AppendedLines(report: seq<Outcome>, book: Book, cases: seq<Case>, b: Batch)
    requires Sane(cases)
    ensures Appended(report, Outcomes(book, cases, b), |cases|) == report + Outcomes(book, cases, b)
  {
    var lines := Outcomes(book, cases, b);
    AppendedAll(report, lines, |cases|);
    assert lines[..|cases|] == lines;
  }

  lemma GoodHasNoBlank(book: Book)
    requires GoodBook(book)
    ensures NoBlank(book)
  {
  }
}
