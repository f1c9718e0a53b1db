/** The services that update the tables in place. Each method is proved against the value
    ledger: it performs the step, or reports the step's error and changes nothing; and the
    tables always are what the run of all steps so far makes of an empty ledger. */
module LedgerService {
  import opened Records
  import opened Rounding
  import opened Wrappers
  import opened Ledger
  import opened LedgerSafety
  import opened ImportProtocol

  /** What a method reports and leaves, compared with the step it implements. */
  ghost predicate Performs(before: Books, step: Step, after: Books, error: Option<Error>) {
    match Next(before, step)
    case Success(s) => error == None && after == s
    case Failure(e) => error == Some(e) && after == before
  }

  lemma InsertIsStep(s: Books, row: Row)
    ensures After(s, Import(row)) == if InsertRow(s, row).Inserted? then InsertRow(s, row).books else s
  {
  }

  class TradeLedger {
    var positions: map<PositionId, Position>
    var fills: seq<Fill>
    var trades: seq<Trade>
    ghost var history: seq<Step>

    ghost function View(): Books
      reads this
    {
      Books(positions, fills, trades)
    }

    /** The tables are those of the run of everything done so far. */
    ghost predicate Valid()
      reads this
    {
      View() == Run(EMPTY, history)
    }

    constructor ()
      ensures Valid() && View() == EMPTY && history == []
    {
      positions, fills, trades, history := map[], [], [], [];
    }

    ghost method Record(step: Step)
      modifies this`history
      ensures history == old(history) + [step]
      ensures Run(EMPTY, history) == After(Run(EMPTY, old(history)), step)
    {
      RunAppend(EMPTY, history, step);
      history := history + [step];
    }

    // ----- execution import

    /** `_apply_fill_to_position`: a raise leaves the position as it was. */
    method ApplyFillToPosition(pid: PositionId, row: RowData) returns (error: Option<Error>)
      requires pid in positions
      modifies this`positions
      ensures match ApplyFill(old(positions[pid]), row)
              case Success(p) => error == None && positions == old(positions)[pid := p]
              case Failure(e) => error == Some(e) && positions == old(positions)
    {
      var p := positions[pid];
      if row.side.Buy? {
        var held := if p.status.Planned? then 0.0 else p.quantity.GetOr(0.0);
        var newQuantity := Round6(held + row.quantity);
        if newQuantity == 0.0 {
          return Some(DivisionByZero);
        }
        var mean := MeanPrice(held, OrElse(p.entryPrice, row.price), row.quantity, row.price, newQuantity);
        p := p.(entryPrice := Some(Round6(mean)));
        if p.entryDate.None? {
          p := p.(entryDate := Some(row.executedAt));
        }
        p := p.(quantity := Some(newQuantity));
        p := p.(status := Open);
      } else {
        if p.status.Planned? {
          return Some(SellOnPlanned);
        }
        if p.entryPrice.None? || p.quantity.None? {
          return Some(MissingEntryData);
        }
        if row.quantity > p.quantity.value {
          return Some(SellExceedsQuantity);
        }
        var realized := SellPnl(p.entryPrice.value, row);
        var remaining := Round6(p.quantity.value - row.quantity);
        p := p.(realizedPnl := Some(Round6(p.realizedPnl.GetOr(0.0) + realized)));
        p := p.(quantity := Some(remaining));
        p := p.(status := if remaining == 0.0 then Closed else Reduced);
      }
      positions := positions[pid := p];
      return None;
    }

    /** `_create_fill` inside its savepoint. */
    method CreateFillAtomically(row: Row) returns (attempt: Attempt)
      requires Valid()
      modifies this
      ensures Valid() && history == old(history) + [Import(row)]
      ensures attempt == InsertRow(old(View()), row)
      ensures View() == if attempt.Inserted? then attempt.books else old(View())
    {
      Record(Import(row));
      InsertIsStep(View(), row);
      var savepoint := positions;
      var target := ResolvePosition(positions, row);
      if target.None? && row.positionId.Some? {
        return Rejected(PositionNotFound);
      }
      var pid: PositionId;
      var conflict := HasFill(fills, row.key);
      if target.None? {
        pid := ReviewOf(row.key);
        conflict := conflict || pid in positions;
        positions := positions[pid := ReviewPosition(row)];
      } else {
        pid := target.value;
        if Upper(positions[pid].symbol) != row.symbol {
          return Rejected(SymbolMismatch);
        }
        if positions[pid].status.Closed? || positions[pid].status.Cancelled? {
          return Rejected(PositionNotActive);
        }
        var error := ApplyFillToPosition(pid, row);
        if error.Some? {
          return Rejected(error.value);
        }
      }
      if conflict {
        positions := savepoint;
        return Duplicate;
      }
      fills := fills + [FillOfRow(row, pid, if target.None? then ReviewRequired else Matched)];
      return Inserted(Books(positions, fills, trades));
    }

    /** `import_csv` after parsing: the loop over the rows and the report. */
    method ImportFile(rows: seq<CsvRow>)
      returns (imported: seq<nat>, skipped: nat, failed: nat, status: ImportStatus)
      requires Valid()
      modifies this
      ensures Valid() && history == old(history) + StepsOf(rows)
      ensures var p := ImportCsv(old(View()), rows);
        && View() == p.books && imported == p.imported && skipped == p.skipped && failed == p.failed
        && status == Status(|imported|, skipped, failed)
    {
      imported, skipped, failed := [], 0, 0;
      var seen: set<nat> := {};
      if rows == [] {
        failed := 1;
      }
      for i := 0 to |rows|
        invariant Valid()
        invariant rows == [] ==> imported == [] && skipped == 0 && failed == 1 && View() == old(View())
        invariant rows != [] ==>
          ImportRows(Start(old(View())), rows[..i]) == Progress(View(), seen, imported, skipped, failed)
      {
        assert rows[..i + 1][..i] == rows[..i];
        match rows[i] {
          case Malformed =>
            failed := failed + 1;
          case Parsed(row) =>
            if row.key in seen || HasFill(fills, row.key) {
              skipped := skipped + 1;
              seen := seen + {row.key};
            } else {
              var attempt := CreateFillAtomically(row);
              match attempt {
                case Inserted(_) =>
                  imported := imported + [row.key];
                  seen := seen + {row.key};
                case Duplicate =>
                  skipped := skipped + 1;
                  seen := seen + {row.key};
                case Rejected(_) =>
                  failed := failed + 1;
              }
            }
        }
      }
      assert rows[..|rows|] == rows;
      RunKeepsReviewsHaveFills(old(history));
      ImportIsRun(old(View()), rows);
      RunJoins(EMPTY, old(history), StepsOf(rows));
      history := old(history) + StepsOf(rows);
      status := Status(|imported|, skipped, failed);
    }

    // ----- reconciliation

    /** `reconcile_fill` with its three actions. */
    method ReconcileFillWith(key: nat, action: Action) returns (error: Option<Error>)
      requires Valid()
      modifies this
      ensures Valid() && history == old(history) + [Reconcile(key, action)]
      ensures Performs(old(View()), Reconcile(key, action), View(), error)
    {
      Record(Reconcile(key, action));
      var at := FindFill(fills, key);
      if at.None? {
        return Some(FillNotFound);
      }
      var i := at.value;
      var fill := fills[i];
      if !fill.active {
        return Some(AlreadyIgnored);
      }
      var source := fill.positionId;
      if source !in positions || !positions[source].status.ReviewNeeded? || !fill.reconciliation.ReviewRequired? {
        return Some(NotReviewNeeded);
      }
      match action {
        case ConfirmPosition =>
          var p := positions[source];
          if !fill.side.Buy? {
            return Some(NotABuy);
          }
          if p.entryPrice.None? || p.quantity.None? || p.quantity.value <= 0.0 {
            return Some(MissingEntryData);
          }
          p := p.(status := Open);
          p := p.(realizedPnl := Some(p.realizedPnl.GetOr(0.0)));
          p := p.(unrealizedPnl := Some(p.unrealizedPnl.GetOr(0.0)));
          positions := positions[source := p];
          fills := fills[i := fill.(reconciliation := Confirmed, active := true)];
        case BindPosition(target) =>
          if target !in positions {
            return Some(TargetNotFound);
          }
          if target == source {
            return Some(TargetIsSource);
          }
          if Upper(positions[target].symbol) != Upper(fill.symbol) {
            return Some(TargetSymbolMismatch);
          }
          if !IsLive(positions[target].status) {
            return Some(TargetNotActive);
          }
          error := ApplyFillToPosition(target, RowOfFill(fill, target));
          if error.Some? {
            return;
          }
          fills := fills[i := fill.(positionId := target, reconciliation := Bound, active := true)];
          CancelHolding(source);
        case IgnoreFill =>
          fills := fills[i := fill.(reconciliation := Ignored, active := false)];
          CancelHolding(source);
      }
      return None;
    }

    method CancelHolding(pid: PositionId)
      requires pid in positions
      modifies this`positions
      ensures positions == old(positions)[pid := CancelledReview(old(positions[pid]))]
    {
      var p := positions[pid];
      p := p.(status := Cancelled);
      p := p.(quantity := Some(0.0));
      p := p.(realizedPnl := Some(p.realizedPnl.GetOr(0.0)));
      p := p.(unrealizedPnl := Some(0.0));
      positions := positions[pid := p];
    }

    // ----- position lifecycle

    method AddCandidatePlan(r: PlanRequest) returns (error: Option<Error>)
      requires Valid()
      modifies this`positions, this`history
      ensures Valid() && history == old(history) + [Plan(r)]
      ensures Performs(old(View()), Plan(r), View(), error)
    {
      Record(Plan(r));
      if r.entryPrice.None? || r.initialStop.None? {
        return Some(MissingPlanLevels);
      }
      var pid := PlanOf(r.candidate);
      if pid in positions && !PlanNeedsFill(positions[pid], r) {
        return None;
      }
      if r.blocked {
        return Some(PlanBlocked);
      }
      if pid in positions {
        var p := positions[pid];
        if p.entryPrice.None? {
          p := p.(entryPrice := r.entryPrice);
        }
        if p.initialStop.None? {
          p := p.(initialStop := r.initialStop);
        }
        if p.currentStop.None? {
          p := p.(currentStop := r.initialStop);
        }
        if p.exitProfile.None? {
          p := p.(exitProfile := r.exitProfile);
        }
        if p.quantity.None? {
          p := p.(quantity := r.quantity);
        }
        positions := positions[pid := p];
        return None;
      }
      positions := positions[pid := Position(
        r.symbol, Planned, None, r.entryPrice, r.quantity, r.initialStop, r.initialStop, Some(0.0), Some(0.0),
        r.exitProfile)];
      return None;
    }

    method ActivatePlan(pid: PositionId, entryPrice: real, requested: Option<real>, entryDate: int)
      returns (error: Option<Error>)
      requires Valid()
      modifies this`positions, this`history
      ensures Valid() && history == old(history) + [Activate(pid, entryPrice, requested, entryDate)]
      ensures Performs(old(View()), Activate(pid, entryPrice, requested, entryDate), View(), error)
    {
      Record(Activate(pid, entryPrice, requested, entryDate));
      if pid !in positions {
        return Some(PositionNotFound);
      }
      var p := positions[pid];
      if !p.status.Planned? {
        return Some(WrongStatus);
      }
      var quantity := if requested.Some? then requested else p.quantity;
      if quantity.None? || quantity.value <= 0.0 {
        return Some(QuantityRequired);
      }
      var stop := Or(p.currentStop, p.initialStop);
      if stop.None? {
        return Some(StopRequired);
      }
      if stop.value >= entryPrice {
        return Some(StopNotBelowEntry);
      }
      p := p.(status := Open);
      p := p.(entryPrice := Some(entryPrice));
      p := p.(quantity := quantity);
      p := p.(entryDate := Some(entryDate));
      p := p.(realizedPnl := Some(p.realizedPnl.GetOr(0.0)));
      p := p.(unrealizedPnl := Some(0.0));
      positions := positions[pid := p];
      return None;
    }

    method MoveStop(pid: PositionId, newStop: real) returns (error: Option<Error>)
      requires Valid()
      modifies this`positions, this`history
      ensures Valid() && history == old(history) + [UpdateStop(pid, newStop)]
      ensures Performs(old(View()), UpdateStop(pid, newStop), View(), error)
    {
      Record(UpdateStop(pid, newStop));
      if pid !in positions {
        return Some(PositionNotFound);
      }
      var p := positions[pid];
      if p.status.Closed? || p.status.Cancelled? {
        return Some(WrongStatus);
      }
      p := p.(currentStop := Some(newStop));
      if p.status.Planned? || p.initialStop.None? {
        p := p.(initialStop := Some(newStop));
      }
      positions := positions[pid := p];
      return None;
    }

    method CancelPlan(pid: PositionId) returns (error: Option<Error>)
      requires Valid()
      modifies this`positions, this`history
      ensures Valid() && history == old(history) + [Cancel(pid)]
      ensures Performs(old(View()), Cancel(pid), View(), error)
    {
      Record(Cancel(pid));
      if pid !in positions {
        return Some(PositionNotFound);
      }
      if !positions[pid].status.Planned? {
        return Some(WrongStatus);
      }
      CancelHolding(pid);
      return None;
    }

    method Trim(pid: PositionId, exitPrice: real, quantity: Option<real>, stop: Option<real>, exitTs: int, nonce: nat)
      returns (error: Option<Error>)
      requires Valid()
      modifies this`positions, this`trades, this`history
      ensures Valid() && history == old(history) + [Reduce(pid, exitPrice, quantity, stop, exitTs, nonce)]
      ensures Performs(old(View()), Reduce(pid, exitPrice, quantity, stop, exitTs, nonce), View(), error)
    {
      Record(Reduce(pid, exitPrice, quantity, stop, exitTs, nonce));
      if pid !in positions {
        return Some(PositionNotFound);
      }
      var p := positions[pid];
      if !p.status.Open? && !p.status.Reduced? {
        return Some(WrongStatus);
      }
      if p.entryPrice.None? {
        return Some(MissingEntryData);
      }
      if p.quantity.None? || p.quantity.value <= 0.0 || quantity.None? {
        return Some(QuantityRequired);
      }
      if quantity.value >= p.quantity.value {
        return Some(ReduceTooLarge);
      }
      if HasTrade(trades, TrimOf(pid, nonce)) {
        return Some(DuplicateId);
      }
      trades := trades + [ExitTrade(TrimOf(pid, nonce), pid, p, exitPrice, quantity.value, exitTs)];
      var gain := PositionPnl(p.entryPrice.value, exitPrice, quantity.value);
      p := p.(realizedPnl := Some(Round6(p.realizedPnl.GetOr(0.0) + gain)));
      p := p.(quantity := Some(Round6(p.quantity.value - quantity.value)));
      if stop.Some? {
        p := p.(currentStop := stop);
      }
      p := p.(status := Reduced);
      positions := positions[pid := p];
      return None;
    }

    method CloseOut(pid: PositionId, exitPrice: real, quantity: Option<real>, exitTs: int)
      returns (error: Option<Error>)
      requires Valid()
      modifies this`positions, this`trades, this`history
      ensures Valid() && history == old(history) + [Close(pid, exitPrice, quantity, exitTs)]
      ensures Performs(old(View()), Close(pid, exitPrice, quantity, exitTs), View(), error)
    {
      Record(Close(pid, exitPrice, quantity, exitTs));
      if pid !in positions {
        return Some(PositionNotFound);
      }
      var p := positions[pid];
      if p.status.Closed? || p.status.Planned? || p.status.Cancelled? {
        return Some(WrongStatus);
      }
      if p.entryPrice.None? {
        return Some(MissingEntryData);
      }
      if p.quantity.None? || p.quantity.value <= 0.0 {
        return Some(QuantityRequired);
      }
      if quantity.Some? && quantity.value != p.quantity.value {
        return Some(CloseQuantityMismatch);
      }
      if HasTrade(trades, CloseOf(pid)) {
        return Some(DuplicateId);
      }
      var closeQuantity := if quantity.Some? then quantity.value else p.quantity.value;
      trades := trades + [ExitTrade(CloseOf(pid), pid, p, exitPrice, closeQuantity, exitTs)];
      var gain := PositionPnl(p.entryPrice.value, exitPrice, closeQuantity);
      p := p.(status := Closed);
      p := p.(realizedPnl := Some(Round6(p.realizedPnl.GetOr(0.0) + gain)));
      p := p.(unrealizedPnl := Some(0.0));
      p := p.(quantity := Some(0.0));
      positions := positions[pid := p];
      return None;
    }
  }

  /** So whatever is proved of runs holds of the tables: if every step so far passed request
      validation, they are safe. */
  lemma TablesAreSafe(ledger: TradeLedger)
    requires ledger.Valid() && ValidRun(ledger.history)
    ensures Safe(ledger.View())
  {
    RunSafe(ledger.history);
  }
}
