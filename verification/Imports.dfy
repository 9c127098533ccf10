/** Importing a sales file row by row, one transaction a row: the counters, the fingerprints and the period. */
module Imports {
  import opened Prelude

  /** A recognised document line: what identifies the sale, the amount of the receipt and, if part of it was
      paid by certificate, that part. */
  datatype Document = Document(date: Day, number: Text, department: Text, gross: Option<real>, certificate: Option<real>)

  /** A line of the file: left out by its name or kind, unreadable, or a document. */
  datatype Row = Excluded | Unreadable | Line(document: Document)

  /** What is hashed: equal texts exactly for equal parts. `cents` is the amount as printed. */
  datatype Print = Print(date: Day, number: Text, department: Text, cents: int)

  /** How an amount is printed with two decimals. */
  type Printer = real -> int

  function Net(d: Document): real
    requires d.gross.Some?
  {
    if d.certificate.Some? && d.certificate.value > 0.0 then d.gross.value - d.certificate.value else d.gross.value
  }

  function PrintOf(shown: Printer, d: Document, amount: real): Print
  {
    Print(d.date, d.number, d.department, shown(amount))
  }

  predicate Normalises(r: Row)
  {
    r.Line? && r.document.gross.Some?
  }

  /** The fingerprint that is stored: of the amount without the certificate. */
  function Fingerprint(shown: Printer, r: Row): Print
    requires Normalises(r)
  {
    PrintOf(shown, r.document, Net(r.document))
  }

  /** Earlier imports stored the amount with the certificate; both count as known. */
  function Fingerprints(shown: Printer, r: Row): seq<Print>
    requires Normalises(r)
  {
    var d := r.document;
    if d.certificate.Some? && d.certificate.value > 0.0
    then [Fingerprint(shown, r), PrintOf(shown, d, d.gross.value)]
    else [Fingerprint(shown, r)]
  }

  predicate Exists(sales: seq<Print>, prints: seq<Print>)
  {
    exists i :: 0 <= i < |prints| && prints[i] in sales
  }

  datatype Batch = Batch(total: nat, processed: nat, added: nat, duplicate: nat, skipped: nat, error: nat)

  const NEW_BATCH := Batch(0, 0, 0, 0, 0, 0)

  datatype State = State(sales: seq<Print>, batch: Batch)

  /** One row, committed. `fails` is any error of the database on the way; it undoes the row and counts it. */
  function ImportRow(shown: Printer, s: State, r: Row, fails: bool): State
  {
    var b := s.batch.(total := s.batch.total + 1, processed := s.batch.processed + 1);
    if fails || (r != Excluded && !Normalises(r)) then s.(batch := b.(error := b.error + 1))
    else if r == Excluded then s.(batch := b.(skipped := b.skipped + 1))
    else if Exists(s.sales, Fingerprints(shown, r)) then s.(batch := b.(duplicate := b.duplicate + 1))
    else State(s.sales + [Fingerprint(shown, r)], b.(added := b.added + 1))
  }

  /** A row of this import, or a sale stored by another import meanwhile. */
  datatype Step = Mine(row: Row, fails: bool) | Other(sale: Print)

  function Apply(shown: Printer, s: State, step: Step): State
  {
    match step
    case Mine(row, fails) => ImportRow(shown, s, row, fails)
    case Other(sale) => if sale in s.sales then s else s.(sales := s.sales + [sale])
  }

  function Import(shown: Printer, s: State, steps: seq<Step>): State
  {
    if steps == [] then s else Apply(shown, Import(shown, s, steps[..|steps| - 1]), steps[|steps| - 1])
  }

  // ---------------------------------------------------------------- accounting

  predicate Accounted(b: Batch)
  {
    b.total == b.processed == b.added + b.duplicate + b.skipped + b.error
  }

  predicate Unique(sales: seq<Print>)
  {
    forall i, j :: 0 <= i < j < |sales| ==> sales[i] != sales[j]
  }

  /** A sale stored by another import. */
  function Extra(sales: seq<Print>, step: Step): nat
  {
    if step.Other? && step.sale !in sales then 1 else 0
  }

  function Others(shown: Printer, s: State, steps: seq<Step>): nat
  {
    if steps == [] then 0 else
      var front, last := steps[..|steps| - 1], steps[|steps| - 1];
      Others(shown, s, front) + Extra(Import(shown, s, front).sales, last)
  }

  function Lines(steps: seq<Step>): nat
  {
    if steps == [] then 0 else Lines(steps[..|steps| - 1]) + if steps[|steps| - 1].Mine? then 1 else 0
  }

  /** `lines` rows were counted, each once, and every added row is one more sale; no two sales share a
      fingerprint. */
  predicate Counted(s: State, s': State, lines: nat, others: nat)
  {
    && Accounted(s'.batch) && s'.batch.total == lines && Unique(s'.sales)
    && |s'.sales| == |s.sales| + s'.batch.added + others
  }

  lemma CountedStep(shown: Printer, s: State, before: State, last: Step, lines: nat, others: nat)
    requires Counted(s, before, lines, others)
    ensures Counted(s, Apply(shown, before, last), lines + (if last.Mine? then 1 else 0), others + Extra(before.sales, last))
  {
    StepKeeps(shown, before, last);
    hide Apply, Unique, Extra;
  }

  lemma OthersStep(shown: Printer, s: State, front: seq<Step>, last: Step)
    ensures Others(shown, s, front + [last]) == Others(shown, s, front) + Extra(Import(shown, s, front).sales, last)
  {
    hide Import, Extra;
    assert (front + [last])[..|front|] == front;
  }

  lemma ImportStep(shown: Printer, s: State, front: seq<Step>, last: Step)
    ensures Import(shown, s, front + [last]) == Apply(shown, Import(shown, s, front), last)
    ensures Lines(front + [last]) == Lines(front) + if last.Mine? then 1 else 0
  {
    hide Apply;
    assert (front + [last])[..|front|] == front;
  }

  /** After every committed row, whatever failed and was undone. */
  lemma {:induction false} EveryRowCounted(shown: Printer, s: State, steps: seq<Step>)
    requires Unique(s.sales) && s.batch == NEW_BATCH
    ensures Counted(s, Import(shown, s, steps), Lines(steps), Others(shown, s, steps))
  {
    if steps == [] {
      assert Import(shown, s, steps) == s && Lines(steps) == 0 && Others(shown, s, steps) == 0;
    } else {
      var front, last := steps[..|steps| - 1], steps[|steps| - 1];
      hide *;
      EveryRowCounted(shown, s, front);
      CountedStep(shown, s, Import(shown, s, front), last, Lines(front), Others(shown, s, front));
      ImportStep(shown, s, front, last);
      OthersStep(shown, s, front, last);
      assert steps == front + [last];
    }
  }

  lemma StepKeeps(shown: Printer, s: State, step: Step)
    requires Unique(s.sales) && Accounted(s.batch)
    ensures var s' := Apply(shown, s, step);
      && Accounted(s'.batch) && Unique(s'.sales)
      && s'.batch.total == s.batch.total + (if step.Mine? then 1 else 0)
      && |s'.sales| == |s.sales| + (s'.batch.added - s.batch.added)
                       + Extra(s.sales, step)
  {
    if step.Mine? && Normalises(step.row) {
      var prints := Fingerprints(shown, step.row);
      assert prints[0] == Fingerprint(shown, step.row);
    }
    hide Fingerprints, Fingerprint;
  }

  /** The rows of a history of one kind: left out and committed, or failed for whatever reason. */
  function Lost(steps: seq<Step>, skipped: bool): nat
  {
    if steps == [] then 0 else
      var step := steps[|steps| - 1];
      var counts := step.Mine? && if skipped then !step.fails && step.row == Excluded
                                  else step.fails || (step.row != Excluded && !Normalises(step.row));
      Lost(steps[..|steps| - 1], skipped) + if counts then 1 else 0
  }

  /** The counters of an import tell what happened to its file: how many rows were left out and how many failed
      depends on the rows alone, the new sales are the growth of the table, and the rest were duplicates. */
  lemma CountersTell(shown: Printer, s: State, steps: seq<Step>)
    requires Unique(s.sales) && s.batch == NEW_BATCH
    ensures var s' := Import(shown, s, steps);
      && s'.batch.skipped == Lost(steps, true) && s'.batch.error == Lost(steps, false)
      && s'.batch.added == |s'.sales| - |s.sales| - Others(shown, s, steps)
      && s'.batch.duplicate == Lines(steps) - Lost(steps, true) - Lost(steps, false) - s'.batch.added
  {
    EveryRowCounted(shown, s, steps);
    LostAre(shown, s, steps);
    hide Import, Lost, Lines, Others, Unique;
  }

  lemma {:induction false} LostAre(shown: Printer, s: State, steps: seq<Step>)
    requires s.batch == NEW_BATCH
    ensures var s' := Import(shown, s, steps);
      s'.batch.skipped == Lost(steps, true) && s'.batch.error == Lost(steps, false)
  {
    if steps != [] {
      LostAre(shown, s, steps[..|steps| - 1]);
      hide Exists, Fingerprints, Fingerprint;
    }
  }

  // ---------------------------------------------------------------- importing again

  /** A row that can add nothing: it is left out, unreadable, or one of its fingerprints is stored. */
  predicate Known(shown: Printer, sales: seq<Print>, r: Row)
  {
    !Normalises(r) || Exists(sales, Fingerprints(shown, r))
  }

  lemma KnownAfter(shown: Printer, s: State, r: Row)
    ensures Known(shown, ImportRow(shown, s, r, false).sales, r)
  {
    if Normalises(r) {
      assert Fingerprints(shown, r)[0] == Fingerprint(shown, r);
    }
  }

  lemma KnownLater(shown: Printer, sales: seq<Print>, later: seq<Print>, r: Row)
    requires Known(shown, sales, r) && sales <= later
    ensures Known(shown, later, r)
  {
    if Normalises(r) {
      var prints := Fingerprints(shown, r);
      var i :| 0 <= i < |prints| && prints[i] in sales;
      assert prints[i] in later;
    }
  }

  lemma KnownAddsNothing(shown: Printer, s: State, r: Row, fails: bool)
    requires Known(shown, s.sales, r)
    ensures ImportRow(shown, s, r, fails).sales == s.sales
    ensures ImportRow(shown, s, r, fails).batch.added == s.batch.added
  {
  }

  lemma {:induction false} Grows(shown: Printer, s: State, steps: seq<Step>)
    ensures s.sales <= Import(shown, s, steps).sales
  {
    if steps != [] {
      Grows(shown, s, steps[..|steps| - 1]);
      var before := Import(shown, s, steps[..|steps| - 1]);
      assert before.sales <= Apply(shown, before, steps[|steps| - 1]).sales;
      hide ImportRow;
    }
  }

  /** Every row that did not fail in the database is known from then on. */
  lemma {:induction false} KnownFromThenOn(shown: Printer, s: State, steps: seq<Step>, i: nat)
    requires i < |steps| && steps[i].Mine? && !steps[i].fails
    ensures Known(shown, Import(shown, s, steps).sales, steps[i].row)
  {
    var n := |steps| - 1;
    var before := Import(shown, s, steps[..n]);
    if i == n {
      KnownAfter(shown, before, steps[i].row);
    } else {
      KnownFromThenOn(shown, s, steps[..n], i);
      Grows(shown, s, steps);
      assert before.sales <= Import(shown, s, steps).sales;
      KnownLater(shown, before.sales, Import(shown, s, steps).sales, steps[i].row);
    }
  }

  /** Importing rows again adds nothing, in any order and selection, with both kinds of fingerprints, whatever
      is stored or fails in between: provided each was taken in once without a database error. */
  lemma {:induction false} AgainAddsNothing(shown: Printer, s: State, first: seq<Step>, later: State, again: seq<Step>)
    requires Import(shown, s, first).sales <= later.sales
    requires forall j :: 0 <= j < |again| && again[j].Mine? ==>
      exists i :: 0 <= i < |first| && first[i].Mine? && !first[i].fails && first[i].row == again[j].row
    ensures Import(shown, later, again).batch.added == later.batch.added
  {
    if again != [] {
      var n := |again| - 1;
      AgainAddsNothing(shown, s, first, later, again[..n]);
      var before := Import(shown, later, again[..n]);
      hide ImportRow, Known;
      if again[n].Mine? {
        var i :| 0 <= i < |first| && first[i].Mine? && !first[i].fails && first[i].row == again[n].row;
        KnownFromThenOn(shown, s, first, i);
        Grows(shown, later, again[..n]);
        KnownLater(shown, Import(shown, s, first).sales, before.sales, again[n].row);
        KnownAddsNothing(shown, before, again[n].row, again[n].fails);
      }
    }
  }

  /** Which sales a first import stores does depend on the order: a receipt of the same document and gross
      amount hides one partly paid by certificate, but not the other way round. */
  lemma OrderMatters(shown: Printer)
    requires shown(100.0) != shown(80.0)
    ensures var plain := Line(Document(1, 7, 3, Some(100.0), None));
      var partly := Line(Document(1, 7, 3, Some(100.0), Some(20.0)));
      var empty := State([], NEW_BATCH);
      && |Import(shown, empty, [Mine(plain, false), Mine(partly, false)]).sales| == 1
      && |Import(shown, empty, [Mine(partly, false), Mine(plain, false)]).sales| == 2
  {
    var plain := Line(Document(1, 7, 3, Some(100.0), None));
    var partly := Line(Document(1, 7, 3, Some(100.0), Some(20.0)));
    var empty := State([], NEW_BATCH);
    TwoSteps(shown, empty, Mine(plain, false), Mine(partly, false));
    TwoSteps(shown, empty, Mine(partly, false), Mine(plain, false));
    assert Fingerprints(shown, plain) == [Print(1, 7, 3, shown(100.0))];
    assert Fingerprints(shown, partly) == [Print(1, 7, 3, shown(80.0)), Print(1, 7, 3, shown(100.0))];
    assert Fingerprints(shown, partly)[1] in [Print(1, 7, 3, shown(100.0))];
  }

  lemma TwoSteps(shown: Printer, s: State, a: Step, b: Step)
    ensures Import(shown, s, [a, b]) == Apply(shown, Apply(shown, s, a), b)
  {
    hide Apply;
    var steps := [a, b];
    assert steps[..1] == [a] && steps[1] == b && [a][..0] == [];
    assert Import(shown, s, [a]) == Apply(shown, s, a);
    assert Import(shown, s, steps) == Apply(shown, Import(shown, s, steps[..1]), b);
  }

  // ---------------------------------------------------------------- the loop

  function Dates(rows: seq<Row>): seq<Day>
  {
    if rows == [] then [] else
      Dates(rows[..|rows| - 1]) + if Normalises(rows[|rows| - 1]) then [rows[|rows| - 1].document.date] else []
  }

  predicate Spans(dates: seq<Day>, start: Option<Day>, end: Option<Day>)
  {
    if dates == [] then start.None? && end.None?
    else
      && start.Some? && end.Some? && start.value in dates && end.value in dates
      && forall i :: 0 <= i < |dates| ==> start.value <= dates[i] <= end.value
  }

  function Steps(rows: seq<Row>, fails: seq<bool>): seq<Step>
    requires |rows| == |fails|
  {
    seq(|rows|, i requires 0 <= i < |rows| => Mine(rows[i], fails[i]))
  }

  /** The import of one file. The database holds what was committed; `batch` and `sales` are the session, which a
      rollback throws away. */
  class Session {
    const shown: Printer
    var committed: State
    var batch: Batch
    var sales: seq<Print>

    constructor (shown: Printer, stored: seq<Print>)
      ensures this.shown == shown && committed == State(stored, NEW_BATCH) && batch == NEW_BATCH && sales == stored
    {
      this.shown := shown;
      committed := State(stored, NEW_BATCH);
      batch, sales := NEW_BATCH, stored;
    }

    method Commit()
      modifies this`committed
      ensures committed == State(sales, batch)
    {
      committed := State(sales, batch);
    }

    method Rollback()
      modifies this`batch, this`sales
      ensures batch == committed.batch && sales == committed.sales
    {
      batch, sales := committed.batch, committed.sales;
    }

    /** One row. Any failure on the way ends in the handler, which counts the row on the reloaded batch. */
    method TakeRow(row: Row, fails: bool)
      requires committed == State(sales, batch)
      modifies this
      ensures committed == ImportRow(shown, old(committed), row, fails) && committed == State(sales, batch)
    {
      batch := batch.(total := batch.total + 1);
      var failed := fails;
      if row == Excluded {
        batch := batch.(skipped := batch.skipped + 1, processed := batch.processed + 1);
      } else if !Normalises(row) {
        failed := true;
      } else if Exists(sales, Fingerprints(shown, row)) {
        batch := batch.(duplicate := batch.duplicate + 1, processed := batch.processed + 1);
      } else {
        sales := sales + [Fingerprint(shown, row)];
        batch := batch.(added := batch.added + 1, processed := batch.processed + 1);
      }
      if failed {
        Rollback();
        batch := batch.(total := batch.total + 1);
        batch := batch.(error := batch.error + 1, processed := batch.processed + 1);
      }
      Commit();
    }

    /** The whole file: counters as row by row, and the period of all dates that were read. */
    method Process(rows: seq<Row>, fails: seq<bool>) returns (start: Option<Day>, end: Option<Day>)
      requires |rows| == |fails| && committed == State(sales, batch)
      modifies this
      ensures committed == Import(shown, old(committed), Steps(rows, fails)) && committed == State(sales, batch)
      ensures Spans(Dates(rows), start, end)
    {
      start, end := None, None;
      hide ImportRow;
      assert rows[..0] == [] && Steps(rows, fails)[..0] == [];
      var i := 0;
      while i < |rows|
        invariant 0 <= i <= |rows| && committed == State(sales, batch)
        invariant committed == Import(shown, old(committed), Steps(rows, fails)[..i])
        invariant Spans(Dates(rows[..i]), start, end)
      {
        var row := rows[i];
        assert rows[..i + 1][..i] == rows[..i];
        assert Steps(rows, fails)[..i + 1][..i] == Steps(rows, fails)[..i];
        if Normalises(row) {
          SpansMore(Dates(rows[..i]), start, end, row.document.date);
          var date := row.document.date;
          start := if start.None? || date < start.value then Some(date) else start;
          end := if end.None? || date > end.value then Some(date) else end;
        }
        TakeRow(row, fails[i]);
        i := i + 1;
      }
      assert rows[..i] == rows && Steps(rows, fails)[..i] == Steps(rows, fails);
    }
  }

  lemma SpansMore(dates: seq<Day>, start: Option<Day>, end: Option<Day>, date: Day)
    requires Spans(dates, start, end)
    ensures Spans(dates + [date], if start.None? || date < start.value then Some(date) else start,
                  if end.None? || date > end.value then Some(date) else end)
  {
    assert date in dates + [date];
  }
}
