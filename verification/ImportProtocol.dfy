/** The CSV import loop as a fold, its idempotence, and importers racing on one ledger. */
module ImportProtocol {
  import opened Records
  import opened Wrappers
  import opened Ledger
  import opened LedgerSafety

  /** A CSV row that failed to parse, or its normalized form. */
  datatype CsvRow = Malformed | Parsed(row: Row)

  datatype Progress = Progress(books: Books, seen: set<nat>, imported: seq<nat>, skipped: nat, failed: nat)

  datatype ImportStatus = ImportFailed | ImportPartial | ImportCompleted

  function Start(s: Books): Progress {
    Progress(s, {}, [], 0, 0)
  }

  function ImportRow(o: Progress, r: CsvRow): Progress {
    match r
    case Malformed => o.(failed := o.failed + 1)
    case Parsed(row) =>
      if row.key in o.seen || HasFill(o.books.fills, row.key) then
        o.(skipped := o.skipped + 1, seen := o.seen + {row.key})
      else
        match InsertRow(o.books, row)
        case Inserted(s') => o.(books := s', imported := o.imported + [row.key], seen := o.seen + {row.key})
        case Duplicate => o.(skipped := o.skipped + 1, seen := o.seen + {row.key})
        case Rejected(_) => o.(failed := o.failed + 1)
  }

  function ImportRows(o: Progress, rows: seq<CsvRow>): Progress {
    if rows == [] then o
    else ImportRow(ImportRows(o, rows[..|rows| - 1]), rows[|rows| - 1])
  }

  /** A CSV without data rows is itself one error. */
  function ImportCsv(s: Books, rows: seq<CsvRow>): Progress {
    if rows == [] then Start(s).(failed := 1) else ImportRows(Start(s), rows)
  }

  function Status(imported: nat, skipped: nat, failed: nat): ImportStatus {
    if failed != 0 && imported == 0 && skipped == 0 then ImportFailed
    else if failed != 0 then ImportPartial
    else ImportCompleted
  }

  // ----- the loop visits every row once

  lemma {:induction false} EveryRowIsCounted(o: Progress, rows: seq<CsvRow>)
    ensures var r := ImportRows(o, rows);
      |r.imported| + r.skipped + r.failed == |o.imported| + o.skipped + o.failed + |rows|
  {
    if rows != [] {
      EveryRowIsCounted(o, rows[..|rows| - 1]);
    }
  }

  /** The reported status tells exactly which kinds of rows there were. */
  lemma StatusTells(s: Books, rows: seq<CsvRow>)
    ensures var r := ImportCsv(s, rows);
      var status := Status(|r.imported|, r.skipped, r.failed);
      && (status.ImportCompleted? <==> |r.imported| + r.skipped == |rows| && rows != [])
      && (status.ImportFailed? <==> r.imported == [] && r.skipped == 0)
      && (rows == [] ==> r.failed == 1 && r.books == s)
  {
    EveryRowIsCounted(Start(s), rows);
  }

  /** What is counted as imported is what was stored: one new fill for each, in that order. */
  lemma {:induction false} ImportedAreStored(s: Books, rows: seq<CsvRow>)
    ensures var r, n := ImportRows(Start(s), rows), |s.fills|;
      && |r.books.fills| == n + |r.imported| && r.books.fills[..n] == s.fills
      && forall i :: 0 <= i < |r.imported| ==> r.books.fills[n + i].key == r.imported[i]
  {
    if rows != [] {
      ImportedAreStored(s, rows[..|rows| - 1]);
      var before, row := ImportRows(Start(s), rows[..|rows| - 1]), rows[|rows| - 1];
      if row.Parsed? && InsertRow(before.books, row.row).Inserted? {
        OneFillIsStored(before.books, row.row);
      }
      hide InsertRow;
    }
  }

  lemma OneFillIsStored(s: Books, row: Row)
    requires InsertRow(s, row).Inserted?
    ensures var fills := InsertRow(s, row).books.fills;
      |fills| == |s.fills| + 1 && fills[..|s.fills|] == s.fills && fills[|s.fills|].key == row.key
  {
    hide ApplyFill;
  }

  lemma {:induction false} ImportRowsAppend(o: Progress, a: seq<CsvRow>, b: seq<CsvRow>)
    ensures ImportRows(o, a + b) == ImportRows(ImportRows(o, a), b)
  {
    if b == [] {
      assert a + b == a;
    } else {
      var n := |b| - 1;
      ImportRowsAppend(o, a, b[..n]);
      assert (a + b)[..|a + b| - 1] == a + b[..n];
    }
  }

  function StepsOf(rows: seq<CsvRow>): seq<Step> {
    if rows == [] then []
    else
      var r := rows[|rows| - 1];
      StepsOf(rows[..|rows| - 1]) + (if r.Parsed? then [Import(r.row)] else [])
  }

  ghost predicate SeenAreStored(o: Progress) {
    forall key :: key in o.seen ==> HasFill(o.books.fills, key)
  }

  lemma FillsGrow(s: Books, row: Row)
    requires InsertRow(s, row).Inserted?
    ensures HasFill(InsertRow(s, row).books.fills, row.key)
    ensures forall key :: HasFill(s.fills, key) ==> HasFill(InsertRow(s, row).books.fills, key)
  {
    var fills' := InsertRow(s, row).books.fills;
    assert fills'[|s.fills|].key == row.key;
    forall key | HasFill(s.fills, key)
      ensures HasFill(fills', key)
    {
      var i :| 0 <= i < |s.fills| && s.fills[i].key == key;
      assert fills'[i].key == key;
    }
  }

  /** No review position exists whose fill does not. */
  ghost predicate ReviewsHaveFills(s: Books) {
    forall pid :: pid in s.positions && pid.ReviewOf? ==> HasFill(s.fills, pid.key)
  }

  lemma InsertKeepsReviewsHaveFills(s: Books, row: Row)
    requires ReviewsHaveFills(s) && InsertRow(s, row).Inserted?
    ensures ReviewsHaveFills(InsertRow(s, row).books)
  {
    FillsGrow(s, row);
  }

  lemma {:induction false} ImportRowsStored(o: Progress, rows: seq<CsvRow>)
    requires SeenAreStored(o) && ReviewsHaveFills(o.books)
    ensures SeenAreStored(ImportRows(o, rows)) && ReviewsHaveFills(ImportRows(o, rows).books)
    ensures forall key :: HasFill(o.books.fills, key) ==> HasFill(ImportRows(o, rows).books.fills, key)
  {
    if rows != [] {
      ImportRowsStored(o, rows[..|rows| - 1]);
      var before := ImportRows(o, rows[..|rows| - 1]);
      var r := rows[|rows| - 1];
      if r.Parsed? && InsertRow(before.books, r.row).Inserted? {
        FillsGrow(before.books, r.row);
        InsertKeepsReviewsHaveFills(before.books, r.row);
      }
    }
  }

  lemma RowIsStep(o: Progress, row: Row)
    requires SeenAreStored(o)
    ensures ImportRow(o, Parsed(row)).books == After(o.books, Import(row))
  {
  }

  lemma RunAppend(s: Books, steps: seq<Step>, step: Step)
    ensures Run(s, steps + [step]) == After(Run(s, steps), step)
  {
    assert (steps + [step])[..|steps|] == steps;
  }

  lemma {:induction false} RunJoins(s: Books, a: seq<Step>, b: seq<Step>)
    ensures Run(s, a + b) == Run(Run(s, a), b)
  {
    if b == [] {
      assert a + b == a;
    } else {
      RunJoins(s, a, b[..|b| - 1]);
      assert (a + b)[..|a + b| - 1] == a + b[..|b| - 1];
    }
  }

  /** A CSV import is a run of single-row imports, so everything proved of runs holds of it. */
  lemma {:induction false} ImportIsRun(s: Books, rows: seq<CsvRow>)
    requires ReviewsHaveFills(s)
    ensures ImportRows(Start(s), rows).books == Run(s, StepsOf(rows))
  {
    if rows != [] {
      var before := rows[..|rows| - 1];
      ImportIsRun(s, before);
      ImportRowsStored(Start(s), before);
      match rows[|rows| - 1]
      case Malformed =>
        assert StepsOf(rows) == StepsOf(before);
      case Parsed(row) =>
        RowIsStep(ImportRows(Start(s), before), row);
        RunAppend(s, StepsOf(before), Import(row));
    }
  }

  /** Every ledger a run can reach has the fill of each review position. */
  lemma {:induction false} RunKeepsReviewsHaveFills(steps: seq<Step>)
    ensures ReviewsHaveFills(Run(EMPTY, steps))
  {
    if steps != [] {
      RunKeepsReviewsHaveFills(steps[..|steps| - 1]);
      var s := Run(EMPTY, steps[..|steps| - 1]);
      var step := steps[|steps| - 1];
      StepAdvancesFills(s, step);
      forall pid | pid in After(s, step).positions && pid.ReviewOf?
        ensures HasFill(After(s, step).fills, pid.key)
      {
        if pid in s.positions {
          var i :| 0 <= i < |s.fills| && s.fills[i].key == pid.key;
          assert FillAdvances(s.fills[i], After(s, step).fills[i]);
          assert After(s, step).fills[i].key == pid.key;
        } else {
          assert step.Import? && step.row.key == pid.key;
          FillsGrow(s, step.row);
        }
      }
    }
  }

  // ----- importing overlapping files

  /** Every parsed row of the file ends up stored: none was rejected by the ledger. */
  ghost predicate AllStored(s: Books, rows: seq<CsvRow>) {
    forall i :: 0 <= i < |rows| && rows[i].Parsed? ==> HasFill(s.fills, rows[i].row.key)
  }

  lemma {:induction false} ImportingStoredRowsIsNoop(o: Progress, rows: seq<CsvRow>)
    requires AllStored(o.books, rows)
    ensures ImportRows(o, rows).books == o.books && ImportRows(o, rows).imported == o.imported
  {
    if rows != [] {
      ImportingStoredRowsIsNoop(o, rows[..|rows| - 1]);
    }
  }

  /** The books an import leaves depend on the stored keys, not on the seen ones. */
  lemma {:induction false} SeenIsRedundant(o: Progress, o': Progress, rows: seq<CsvRow>)
    requires o.books == o'.books && SeenAreStored(o) && SeenAreStored(o') && ReviewsHaveFills(o.books)
    ensures ImportRows(o, rows).books == ImportRows(o', rows).books
  {
    if rows != [] {
      SeenIsRedundant(o, o', rows[..|rows| - 1]);
      ImportRowsStored(o, rows[..|rows| - 1]);
      ImportRowsStored(o', rows[..|rows| - 1]);
    }
  }

  lemma {:induction false} UnrejectedRowsAreStored(o: Progress, rows: seq<CsvRow>)
    requires SeenAreStored(o) && ReviewsHaveFills(o.books)
    requires ImportRows(o, rows).failed == o.failed
    ensures AllStored(ImportRows(o, rows).books, rows)
  {
    if rows != [] {
      var before := rows[..|rows| - 1];
      FailuresOnlyGrow(o, before);
      UnrejectedRowsAreStored(o, before);
      ImportRowsStored(o, before);
      var mid := ImportRows(o, before);
      ImportRowsStored(mid, [rows[|rows| - 1]]);
      assert [rows[|rows| - 1]][..0] == [];
      assert ImportRows(mid, [rows[|rows| - 1]]) == ImportRows(o, rows);
      forall i | 0 <= i < |rows| && rows[i].Parsed?
        ensures HasFill(ImportRows(o, rows).books.fills, rows[i].row.key)
      {
        if i < |before| {
          assert before[i] == rows[i];
        } else if InsertRow(mid.books, rows[i].row).Inserted? {
          FillsGrow(mid.books, rows[i].row);
        }
      }
    }
  }

  lemma {:induction false} FailuresOnlyGrow(o: Progress, rows: seq<CsvRow>)
    ensures ImportRows(o, rows).failed >= o.failed
  {
    if rows != [] {
      FailuresOnlyGrow(o, rows[..|rows| - 1]);
    }
  }

  /** Importing the row again would change nothing: it is stored, or is rejected again. */
  predicate Spent(s: Books, row: Row) {
    HasFill(s.fills, row.key) || InsertRow(s, row).Rejected?
  }

  ghost predicate AllSpent(s: Books, rows: seq<CsvRow>) {
    forall i :: 0 <= i < |rows| && rows[i].Parsed? ==> Spent(s, rows[i].row)
  }

  /** Until an import changes the books, it has seen only stored keys; once it does, the
      fill table has grown and never shrinks again. */
  lemma {:induction false} ImportGrows(o: Progress, rows: seq<CsvRow>)
    requires SeenAreStored(o) && ReviewsHaveFills(o.books)
    ensures |ImportRows(o, rows).books.fills| >= |o.books.fills|
    ensures ImportRows(o, rows).books == o.books || |ImportRows(o, rows).books.fills| > |o.books.fills|
  {
    if rows != [] {
      ImportGrows(o, rows[..|rows| - 1]);
    }
  }

  lemma RowChangesExactly(o: Progress, row: Row)
    requires SeenAreStored(o) && ReviewsHaveFills(o.books)
    ensures ImportRow(o, Parsed(row)).books == o.books <==> Spent(o.books, row)
  {
    InsertOutcome(o.books, row);
  }

  /** Importing a file changes nothing exactly if each of its rows is spent. */
  lemma {:induction false} NoopExactly(o: Progress, rows: seq<CsvRow>)
    requires SeenAreStored(o) && ReviewsHaveFills(o.books)
    ensures ImportRows(o, rows).books == o.books <==> AllSpent(o.books, rows)
  {
    if rows != [] {
      var front, last := rows[..|rows| - 1], rows[|rows| - 1];
      var mid := ImportRows(o, front);
      NoopExactly(o, front);
      ImportRowsStored(o, front);
      ImportGrows(o, front);
      OneRow(mid, last);
      ImportGrows(mid, [last]);
      if last.Parsed? {
        RowChangesExactly(mid, last.row);
      }
      SpentParts(o.books, rows);
    }
  }

  lemma SpentParts(s: Books, rows: seq<CsvRow>)
    requires rows != []
    ensures var last := rows[|rows| - 1];
      AllSpent(s, rows) <==> (AllSpent(s, rows[..|rows| - 1]) && (last.Parsed? ==> Spent(s, last.row)))
  {
    hide Spent;
    var front := rows[..|rows| - 1];
    assert forall i :: 0 <= i < |front| ==> front[i] == rows[i];
  }

  lemma OneRow(o: Progress, r: CsvRow)
    ensures ImportRows(o, [r]) == ImportRow(o, r)
  {
    assert [r][..0] == [];
    assert ImportRows(o, []) == o;
  }

  /** Importing `a` and then `a + b` leaves the same books as importing `a + b` once. */
  ghost predicate OverlapIsSafe(s: Books, a: seq<CsvRow>, b: seq<CsvRow>) {
    ImportRows(Start(ImportRows(Start(s), a).books), a + b).books == ImportRows(Start(s), a + b).books
  }

  /** Overlap safety is exact: it holds for every continuation `b` if and only if, after the
      first import, every parsed row of `a` is stored or would be rejected again. */
  lemma OverlapSafeExactly(s: Books, a: seq<CsvRow>)
    requires ReviewsHaveFills(s)
    ensures (forall b :: OverlapIsSafe(s, a, b)) <==> AllSpent(ImportRows(Start(s), a).books, a)
  {
    var first := ImportRows(Start(s), a).books;
    ImportRowsStored(Start(s), a);
    NoopExactly(Start(first), a);
    if AllSpent(first, a) {
      forall b
        ensures OverlapIsSafe(s, a, b)
      {
        SpentOverlap(s, a, b);
      }
    } else {
      assert a + [] == a;
      assert !OverlapIsSafe(s, a, []);
    }
  }

  lemma SpentOverlap(s: Books, a: seq<CsvRow>, b: seq<CsvRow>)
    requires ReviewsHaveFills(s) && AllSpent(ImportRows(Start(s), a).books, a)
    ensures OverlapIsSafe(s, a, b)
  {
    var once := ImportRows(Start(s), a);
    ImportRowsStored(Start(s), a);
    var again := ImportRows(Start(once.books), a);
    ImportRowsStored(Start(once.books), a);
    NoopExactly(Start(once.books), a);
    ImportRowsAppend(Start(once.books), a, b);
    ImportRowsAppend(Start(s), a, b);
    SeenIsRedundant(again, once, b);
  }

  /** So it is safe for a file that imported without failed rows. */
  lemma CleanImportIsOverlapSafe(s: Books, a: seq<CsvRow>, b: seq<CsvRow>)
    requires ReviewsHaveFills(s) && ImportRows(Start(s), a).failed == 0
    ensures OverlapIsSafe(s, a, b)
  {
    UnrejectedRowsAreStored(Start(s), a);
    SpentOverlap(s, a, b);
  }

  lemma {:induction false} StoredRowsAreSkipped(o: Progress, rows: seq<CsvRow>)
    requires AllStored(o.books, rows) && forall i :: 0 <= i < |rows| ==> rows[i].Parsed?
    ensures ImportRows(o, rows).skipped == o.skipped + |rows|
  {
    if rows != [] {
      ImportingStoredRowsIsNoop(o, rows[..|rows| - 1]);
      StoredRowsAreSkipped(o, rows[..|rows| - 1]);
    }
  }

  lemma {:induction false} CleanMeansParsed(o: Progress, rows: seq<CsvRow>)
    requires ImportRows(o, rows).failed == o.failed
    ensures forall i :: 0 <= i < |rows| ==> rows[i].Parsed?
  {
    if rows != [] {
      FailuresOnlyGrow(o, rows[..|rows| - 1]);
      CleanMeansParsed(o, rows[..|rows| - 1]);
    }
  }

  /** Importing a clean file again skips every row and changes nothing. */
  lemma ReimportSkipsEverything(s: Books, a: seq<CsvRow>)
    requires ReviewsHaveFills(s) && ImportRows(Start(s), a).failed == 0
    ensures var first := ImportRows(Start(s), a).books;
      var second := ImportRows(Start(first), a);
      second.books == first && second.imported == [] && second.skipped == |a| && second.failed == 0
  {
    var first := ImportRows(Start(s), a).books;
    UnrejectedRowsAreStored(Start(s), a);
    ImportingStoredRowsIsNoop(Start(first), a);
    CleanMeansParsed(Start(s), a);
    StoredRowsAreSkipped(Start(first), a);
    EveryRowIsCounted(Start(first), a);
  }

  const PLANNED_TEN := Position(
    "X", Planned, None, Some(10.0), Some(2.0), Some(9.0), Some(9.0), Some(0.0), Some(0.0), None)
  const EARLY_SELL: RowData := RowData(1, "X", Sell, 1.0, 11.0, 0.0, 1, Some(Manual("P")))
  const LATER_BUY: RowData := RowData(2, "X", Buy, 2.0, 10.0, 0.0, 2, Some(Manual("P")))

  lemma ImportTwo(o: Progress, a: CsvRow, b: CsvRow)
    ensures ImportRows(o, [a, b]) == ImportRow(ImportRow(o, a), b)
  {
    hide ImportRow;
    assert [a, b][..1] == [a] && [a][..0] == [];
    assert ImportRows(o, [a]) == ImportRow(o, a);
  }

  /** The sell fails on the planned position, and the buy opens it. */
  lemma FirstPass(s: Books)
    requires s == Books(map[Manual("P") := PLANNED_TEN], [], [])
    ensures InsertRow(s, EARLY_SELL).Rejected? && InsertRow(s, LATER_BUY).Inserted?
    ensures var after := InsertRow(s, LATER_BUY).books;
      && Manual("P") in after.positions && after.positions[Manual("P")].symbol == "X"
      && after.positions[Manual("P")].status == Open && after.positions[Manual("P")].entryPrice.Some?
      && after.positions[Manual("P")].quantity.Some? && after.positions[Manual("P")].quantity.value >= 1.0
      && |after.fills| == 1 && after.fills[0].key == LATER_BUY.key
  {
    assert Upper("X") == "X";
    assert ApplyFill(PLANNED_TEN, EARLY_SELL) == Failure(SellOnPlanned);
    assert ApplyFill(PLANNED_TEN, LATER_BUY).Success?;
  }

  lemma SecondPass(s: Books)
    requires Manual("P") in s.positions && s.positions[Manual("P")].symbol == "X"
    requires s.positions[Manual("P")].status == Open && s.positions[Manual("P")].entryPrice.Some?
    requires s.positions[Manual("P")].quantity.Some? && s.positions[Manual("P")].quantity.value >= 1.0
    requires |s.fills| == 1 && s.fills[0].key == LATER_BUY.key
    ensures InsertRow(s, EARLY_SELL).Inserted?
  {
    assert Upper("X") == "X";
    assert ApplyFill(s.positions[Manual("P")], EARLY_SELL).Success?;
  }

  /** A rejected row is retried by the next import: a sell listed before the buy that opens
      its plan fails at first, and is applied when the same file is imported again. */
  lemma RejectedRowsAreRetried()
    ensures var s, a := Books(map[Manual("P") := PLANNED_TEN], [], []), [Parsed(EARLY_SELL), Parsed(LATER_BUY)];
      var once := ImportRows(Start(s), a).books;
      && ReviewsHaveFills(s) && !HasFill(once.fills, EARLY_SELL.key)
      && HasFill(ImportRows(Start(once), a).books.fills, EARLY_SELL.key)
      && !OverlapIsSafe(s, a, [])
  {
    var s, sell, buy := Books(map[Manual("P") := PLANNED_TEN], [], []), Parsed(EARLY_SELL), Parsed(LATER_BUY);
    FirstPass(s);
    var once := InsertRow(s, LATER_BUY).books;
    SecondPass(once);
    FillsGrow(once, EARLY_SELL);
    hide InsertRow;
    ImportTwo(Start(s), sell, buy);
    assert ImportRow(Start(s), sell).books == s;
    assert ImportRows(Start(s), [sell, buy]).books == once;
    ImportTwo(Start(once), sell, buy);
    assert [sell, buy] + [] == [sell, buy];
    var sold := ImportRow(Start(once), sell);
    assert HasFill(sold.books.fills, EARLY_SELL.key);
    LaterRowsKeepFills(sold, buy);
  }

  lemma LaterRowsKeepFills(o: Progress, r: CsvRow)
    ensures forall key :: HasFill(o.books.fills, key) ==> HasFill(ImportRow(o, r).books.fills, key)
  {
    if r.Parsed? && InsertRow(o.books, r.row).Inserted? {
      FillsGrow(o.books, r.row);
    }
  }

  // ----- importers racing on one ledger

  /** `checked` says the existence check of the next row answered no and its insert is due. */
  datatype Importer = Importer(rows: seq<Row>, next: nat, seen: set<nat>, checked: bool, rejected: set<nat>)

  /** `log` is history: the rows whose insert succeeded, in order. */
  datatype World = World(books: Books, importers: seq<Importer>, log: seq<Row>)

  /** An importer checks whether its next row is stored (the answer may be a stale no), or
      performs the atomic apply-and-insert under the unique key. */
  datatype Move = Check(who: nat, found: bool) | Insert(who: nat)

  predicate Enabled(w: World, m: Move) {
    && m.who < |w.importers|
    && var p := w.importers[m.who];
       && p.next < |p.rows|
       && (m.Insert? <==> p.checked)
       && (m.Check? && m.found ==> HasFill(w.books.fills, p.rows[p.next].key))
  }

  function Moved(w: World, m: Move): World
    requires Enabled(w, m)
  {
    var p := w.importers[m.who];
    var row := p.rows[p.next];
    var skip := p.(next := p.next + 1, seen := p.seen + {row.key}, checked := false);
    match m
    case Check(_, found) =>
      if row.key in p.seen || found then w.(importers := w.importers[m.who := skip])
      else w.(importers := w.importers[m.who := p.(checked := true)])
    case Insert(_) =>
      match InsertRow(w.books, row)
      case Inserted(s') => World(s', w.importers[m.who := skip], w.log + [row])
      case Duplicate => w.(importers := w.importers[m.who := skip])
      case Rejected(_) =>
        w.(importers := w.importers[m.who :=
          p.(next := p.next + 1, checked := false, rejected := p.rejected + {p.next})])
  }

  ghost predicate Fresh(w: World) {
    w.log == [] && forall i :: 0 <= i < |w.importers| ==>
      w.importers[i].next == 0 && w.importers[i].seen == {} && !w.importers[i].checked && w.importers[i].rejected == {}
  }

  /** A schedule: any interleaving of enabled moves. */
  ghost predicate Schedule(w: World, moves: seq<Move>)
    decreases |moves|, 0
  {
    moves == [] || (Schedule(w, moves[..|moves| - 1])
                    && Enabled(Played(w, moves[..|moves| - 1]), moves[|moves| - 1]))
  }

  ghost function Played(w: World, moves: seq<Move>): World
    requires Schedule(w, moves)
    decreases |moves|, 1
  {
    if moves == [] then w
    else Moved(Played(w, moves[..|moves| - 1]), moves[|moves| - 1])
  }

  function AsCsv(log: seq<Row>): seq<CsvRow> {
    seq(|log|, i requires 0 <= i < |log| => Parsed(log[i]))
  }

  /** What every interleaving keeps, relative to the ledger it started from. */
  ghost predicate Serializable(s: Books, w: World) {
    var serial := ImportRows(Start(s), AsCsv(w.log));
    && w.books == serial.books && serial.skipped == 0 && serial.failed == 0
    && (forall i, j :: 0 <= i < j < |w.log| ==> w.log[i].key != w.log[j].key)
    && (forall i :: 0 <= i < |w.log| ==> !HasFill(s.fills, w.log[i].key) && HasFill(w.books.fills, w.log[i].key))
  }

  /** An importer has dealt with its rows so far: each is stored or was rejected. */
  ghost predicate Handled(books: Books, p: Importer) {
    && p.next <= |p.rows|
    && (forall key :: key in p.seen ==> HasFill(books.fills, key))
    && (forall j :: 0 <= j < p.next ==> HasFill(books.fills, p.rows[j].key) || j in p.rejected)
  }

  lemma InsertOutcome(s: Books, row: Row)
    requires ReviewsHaveFills(s)
    ensures InsertRow(s, row).Duplicate? ==> HasFill(s.fills, row.key)
    ensures HasFill(s.fills, row.key) ==> !InsertRow(s, row).Inserted?
  {
  }

  lemma AsCsvAppend(log: seq<Row>, row: Row)
    ensures AsCsv(log + [row]) == AsCsv(log) + [Parsed(row)]
  {
  }

  /** The ledger part of one move: unless a row is logged, nothing changes. */
  lemma MoveOnLedger(w: World, m: Move)
    requires Enabled(w, m) && ReviewsHaveFills(w.books)
    ensures ReviewsHaveFills(Moved(w, m).books)
    ensures forall key :: HasFill(w.books.fills, key) ==> HasFill(Moved(w, m).books.fills, key)
    ensures Moved(w, m).log == w.log ==> Moved(w, m).books == w.books
    ensures Moved(w, m).log != w.log ==>
      var row := w.importers[m.who].rows[w.importers[m.who].next];
      && m.Insert? && Moved(w, m).log == w.log + [row]
      && InsertRow(w.books, row) == Inserted(Moved(w, m).books)
      && !HasFill(w.books.fills, row.key) && HasFill(Moved(w, m).books.fills, row.key)
  {
    var row := w.importers[m.who].rows[w.importers[m.who].next];
    if m.Insert? && InsertRow(w.books, row).Inserted? {
      FillsGrow(w.books, row);
      InsertKeepsReviewsHaveFills(w.books, row);
      InsertOutcome(w.books, row);
    }
  }

  ghost predicate Supplies(importers: seq<Importer>, row: Row) {
    exists k :: 0 <= k < |importers| && row in importers[k].rows
  }

  /** Every logged row comes from some importer's file. */
  ghost predicate LogComesFrom(log: seq<Row>, importers: seq<Importer>) {
    forall i :: 0 <= i < |log| ==> Supplies(importers, log[i])
  }

  lemma MoveKeepsSources(w: World, m: Move)
    requires Enabled(w, m) && ReviewsHaveFills(w.books) && LogComesFrom(w.log, w.importers)
    ensures LogComesFrom(Moved(w, m).log, Moved(w, m).importers)
  {
    hide InsertRow;
    var w' := Moved(w, m);
    MoveOnLedger(w, m);
    forall i | 0 <= i < |w'.log|
      ensures Supplies(w'.importers, w'.log[i])
    {
      if i < |w.log| {
        assert Supplies(w.importers, w.log[i]);
        var k :| 0 <= k < |w.importers| && w.log[i] in w.importers[k].rows;
        assert w'.log[i] in w'.importers[k].rows;
      } else {
        assert w'.log[i] in w'.importers[m.who].rows;
      }
    }
  }

  lemma MoveSerializable(s: Books, w: World, m: Move)
    requires Enabled(w, m) && ReviewsHaveFills(s) && ReviewsHaveFills(w.books) && Serializable(s, w)
    ensures Serializable(s, Moved(w, m))
  {
    var w' := Moved(w, m);
    MoveOnLedger(w, m);
    if w'.log != w.log {
      var row := w'.log[|w.log|];
      ImportRowsStored(Start(s), AsCsv(w.log));
      AsCsvAppend(w.log, row);
      var csv := AsCsv(w'.log);
      assert csv[..|csv| - 1] == AsCsv(w.log);
      LogDistinct(s, w, row);
    }
  }

  lemma LogDistinct(s: Books, w: World, row: Row)
    requires Serializable(s, w) && !HasFill(w.books.fills, row.key)
    ensures forall i :: 0 <= i < |w.log| ==> w.log[i].key != row.key
  {
  }

  lemma MoveHandles(w: World, m: Move, k: nat)
    requires Enabled(w, m) && ReviewsHaveFills(w.books)
    requires k < |w.importers| && Handled(w.books, w.importers[k])
    ensures Handled(Moved(w, m).books, Moved(w, m).importers[k])
  {
    MoveOnLedger(w, m);
    InsertOutcome(w.books, w.importers[m.who].rows[w.importers[m.who].next]);
  }

  /** Exactly once under races: whatever the interleaving of any number of importers, the
      ledger equals one serial import, without a skip or a failure, of a log of distinct
      new rows taken from them; and each importer's passed rows are stored or rejected. */
  lemma {:induction false} RacesAreSerializable(w: World, moves: seq<Move>)
    requires Fresh(w) && ReviewsHaveFills(w.books) && Schedule(w, moves)
    ensures ReviewsHaveFills(Played(w, moves).books)
    ensures Serializable(w.books, Played(w, moves))
    ensures LogComesFrom(Played(w, moves).log, Played(w, moves).importers)
    ensures |Played(w, moves).importers| == |w.importers|
    ensures forall k :: 0 <= k < |w.importers| ==> Handled(Played(w, moves).books, Played(w, moves).importers[k])
    decreases |moves|
  {
    if moves == [] {
      assert AsCsv(w.log) == [];
    } else {
      var before := moves[..|moves| - 1];
      var m := moves[|moves| - 1];
      RacesAreSerializable(w, before);
      MoveOnLedger(Played(w, before), m);
      MoveSerializable(w.books, Played(w, before), m);
      MoveKeepsSources(Played(w, before), m);
      forall k | 0 <= k < |w.importers| {
        MoveHandles(Played(w, before), m, k);
      }
    }
  }

  /** The serial log stores each key once, also next to what was there before. */
  lemma {:induction false} RacesKeepKeysUnique(w: World, moves: seq<Move>)
    requires Fresh(w) && ReviewsHaveFills(w.books) && Schedule(w, moves) && Safe(w.books)
    ensures Safe(Played(w, moves).books)
    decreases |moves|
  {
    if moves != [] {
      var before := moves[..|moves| - 1];
      RacesKeepKeysUnique(w, before);
      RacesAreSerializable(w, before);
      var mid := Played(w, before);
      var m := moves[|moves| - 1];
      MoveOnLedger(mid, m);
      if Moved(mid, m).log != mid.log {
        ImportSafe(mid.books, mid.importers[m.who].rows[mid.importers[m.who].next]);
      }
    }
  }
}
