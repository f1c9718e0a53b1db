/** The ledger as values: what each operation of the execution import and of the position
    lifecycle does to the three tables. An operation that raises leaves them as they were. */
module Ledger {
  import opened Numbers
  import opened Records
  import opened Rounding
  import opened Wrappers

  datatype Error =
    | PositionNotFound | SymbolMismatch | PositionNotActive
    | SellOnPlanned | MissingEntryData | SellExceedsQuantity | DivisionByZero
    | FillNotFound | AlreadyIgnored | NotReviewNeeded | NotABuy
    | TargetNotFound | TargetIsSource | TargetSymbolMismatch | TargetNotActive
    | MissingPlanLevels | PlanBlocked | DuplicateId | WrongStatus
    | QuantityRequired | StopRequired | StopNotBelowEntry | ReduceTooLarge | CloseQuantityMismatch

  datatype Books = Books(positions: map<PositionId, Position>, fills: seq<Fill>, trades: seq<Trade>)

  const EMPTY := Books(map[], [], [])

  predicate IsLive(status: PositionStatus) {
    status in {Planned, Open, Reduced}
  }

  predicate HasFill(fills: seq<Fill>, key: nat) {
    exists i :: 0 <= i < |fills| && fills[i].key == key
  }

  predicate HasTrade(trades: seq<Trade>, id: TradeId) {
    exists i :: 0 <= i < |trades| && trades[i].id == id
  }

  function FindFill(fills: seq<Fill>, key: nat): (r: Option<nat>)
    ensures r.Some? ==> r.value < |fills| && fills[r.value].key == key
    ensures r.None? <==> !HasFill(fills, key)
  {
    if fills == [] then None
    else if fills[|fills| - 1].key == key then Some(|fills| - 1)
    else
      var r := FindFill(fills[..|fills| - 1], key);
      assert fills == fills[..|fills| - 1] + [fills[|fills| - 1]];
      r
  }

  // ----- applying a fill

  function ApplyFill(p: Position, row: RowData): Result<Position, Error> {
    if row.side.Buy? then
      var held := if p.status.Planned? then 0.0 else p.quantity.GetOr(0.0);
      var quantity := Round6(held + row.quantity);
      if quantity == 0.0 then Failure(DivisionByZero)
      else Success(p.(
        entryPrice := Some(Round6(MeanPrice(held, OrElse(p.entryPrice, row.price), row.quantity, row.price, quantity))),
        entryDate := if p.entryDate.Some? then p.entryDate else Some(row.executedAt),
        quantity := Some(quantity),
        status := Open))
    else if p.status.Planned? then Failure(SellOnPlanned)
    else if p.entryPrice.None? || p.quantity.None? then Failure(MissingEntryData)
    else if row.quantity > p.quantity.value then Failure(SellExceedsQuantity)
    else
      var remaining := Round6(p.quantity.value - row.quantity);
      Success(p.(
        realizedPnl := Some(Round6(p.realizedPnl.GetOr(0.0) + SellPnl(p.entryPrice.value, row))),
        quantity := Some(remaining),
        status := if remaining == 0.0 then Closed else Reduced))
  }

  /** What a sell adds to the stored realized PnL. */
  function SellPnl(entryPrice: real, row: RowData): real {
    Round6(NetGain(entryPrice, row.price, row.quantity, row.fees))
  }

  function NetGain(cost: real, price: real, quantity: real, fees: real): real {
    (price - cost) * quantity - fees
  }

  /** The cost of what is held plus that of the new shares, over the new total. */
  function MeanPrice(held: real, cost: real, quantity: real, price: real, total: real): real
    requires total != 0.0
  {
    (held * cost + quantity * price) / total
  }

  // ----- importing a row

  function SymbolMatches(positions: map<PositionId, Position>, symbol: string): set<PositionId> {
    set pid | pid in positions && positions[pid].symbol == symbol && IsLive(positions[pid].status)
  }

  /** A named position if it exists; else the one live position of the symbol, if only one. */
  function ResolvePosition(positions: map<PositionId, Position>, row: Row): (r: Option<PositionId>)
    ensures r.Some? ==> r.value in positions
  {
    if row.positionId.Some? then
      if row.positionId.value in positions then row.positionId else None
    else
      var matches := SymbolMatches(positions, row.symbol);
      if exists pid | pid in matches :: matches == {pid} then
        var pid :| pid in matches && matches == {pid};
        Some(pid)
      else None
  }

  function ReviewPosition(row: Row): Position {
    Position(
      row.symbol, ReviewNeeded,
      if row.side.Buy? then Some(row.executedAt) else None,
      if row.side.Buy? then Some(row.price) else None,
      Some(row.quantity), None, None, Some(0.0), Some(0.0), None)
  }

  function FillOfRow(row: Row, pid: PositionId, reconciliation: Reconciliation): Fill {
    var gross := Round6(Times(row.quantity, row.price));
    Fill(
      row.key, pid, row.symbol, row.side, row.quantity, row.price, row.fees,
      gross, if row.side.Buy? then Round6(gross + row.fees) else Round6(gross - row.fees),
      row.executedAt, true, reconciliation)
  }

  /** The savepoint's body: apply the row to its position and add the fill. */
  function CreateFill(s: Books, row: Row): Result<Books, Error> {
    var target := ResolvePosition(s.positions, row);
    if target.None? then
      if row.positionId.Some? then Failure(PositionNotFound)
      else
        var pid := ReviewOf(row.key);
        Success(s.(
          positions := s.positions[pid := ReviewPosition(row)],
          fills := s.fills + [FillOfRow(row, pid, ReviewRequired)]))
    else
      var pid := target.value;
      var p := s.positions[pid];
      if Upper(p.symbol) != row.symbol then Failure(SymbolMismatch)
      else if p.status.Closed? || p.status.Cancelled? then Failure(PositionNotActive)
      else
        var p' :- ApplyFill(p, row);
        Success(s.(
          positions := s.positions[pid := p'],
          fills := s.fills + [FillOfRow(row, pid, Matched)]))
  }

  datatype Attempt = Inserted(books: Books) | Duplicate | Rejected(error: Error)

  /** The savepoint as one atomic step: a unique-key conflict undoes the body. */
  function InsertRow(s: Books, row: Row): Attempt {
    match CreateFill(s, row)
    case Failure(e) => Rejected(e)
    case Success(s') =>
      if HasFill(s.fills, row.key) || (ResolvePosition(s.positions, row).None? && ReviewOf(row.key) in s.positions)
      then Duplicate
      else Inserted(s')
  }

  // ----- reconciling a fill

  datatype Action = ConfirmPosition | BindPosition(target: PositionId) | IgnoreFill

  function ReconcileFill(s: Books, key: nat, action: Action): Result<Books, Error> {
    var at := FindFill(s.fills, key);
    if at.None? then Failure(FillNotFound)
    else if !s.fills[at.value].active then Failure(AlreadyIgnored)
    else
      var fill := s.fills[at.value];
      if fill.positionId !in s.positions
         || !s.positions[fill.positionId].status.ReviewNeeded?
         || !fill.reconciliation.ReviewRequired?
      then Failure(NotReviewNeeded)
      else
        match action
        case ConfirmPosition => ConfirmReview(s, at.value)
        case BindPosition(target) => BindReview(s, at.value, target)
        case IgnoreFill => Success(IgnoreReview(s, at.value))
  }

  function ConfirmReview(s: Books, i: nat): Result<Books, Error>
    requires i < |s.fills| && s.fills[i].positionId in s.positions
  {
    var fill := s.fills[i];
    var p := s.positions[fill.positionId];
    if !fill.side.Buy? then Failure(NotABuy)
    else if p.entryPrice.None? || p.quantity.None? || p.quantity.value <= 0.0 then Failure(MissingEntryData)
    else Success(s.(
      positions := s.positions[fill.positionId := p.(
        status := Open,
        realizedPnl := Some(p.realizedPnl.GetOr(0.0)),
        unrealizedPnl := Some(p.unrealizedPnl.GetOr(0.0)))],
      fills := s.fills[i := fill.(reconciliation := Confirmed, active := true)]))
  }

  function CancelledReview(p: Position): Position {
    p.(status := Cancelled,
       quantity := Some(0.0),
       realizedPnl := Some(p.realizedPnl.GetOr(0.0)),
       unrealizedPnl := Some(0.0))
  }

  function RowOfFill(fill: Fill, pid: PositionId): RowData {
    RowData(fill.key, fill.symbol, fill.side, fill.quantity, fill.price, fill.fees, fill.executedAt, Some(pid))
  }

  function BindReview(s: Books, i: nat, target: PositionId): Result<Books, Error>
    requires i < |s.fills| && s.fills[i].positionId in s.positions
  {
    var fill := s.fills[i];
    var review := fill.positionId;
    if target !in s.positions then Failure(TargetNotFound)
    else if target == review then Failure(TargetIsSource)
    else if Upper(s.positions[target].symbol) != Upper(fill.symbol) then Failure(TargetSymbolMismatch)
    else if !IsLive(s.positions[target].status) then Failure(TargetNotActive)
    else
      var p :- ApplyFill(s.positions[target], RowOfFill(fill, target));
      Success(s.(
        positions := s.positions[target := p][review := CancelledReview(s.positions[review])],
        fills := s.fills[i := fill.(positionId := target, reconciliation := Bound, active := true)]))
  }

  function IgnoreReview(s: Books, i: nat): Books
    requires i < |s.fills| && s.fills[i].positionId in s.positions
  {
    var fill := s.fills[i];
    s.(
      positions := s.positions[fill.positionId := CancelledReview(s.positions[fill.positionId])],
      fills := s.fills[i := fill.(reconciliation := Ignored, active := false)])
  }

  // ----- plans and lifecycle actions

  /** The plan's entry, stop, quantity and exit profile after the fallbacks of the request,
      the candidate and the setup; `blocked` is the preview's verdict. */
  datatype PlanRequest = PlanRequest(
    candidate: string,
    symbol: string,
    entryPrice: Option<real>,
    initialStop: Option<real>,
    quantity: Option<real>,
    exitProfile: Option<string>,
    blocked: bool)

  predicate PlanNeedsFill(p: Position, r: PlanRequest) {
    p.status.Planned?
    && (p.entryPrice.None? || p.initialStop.None? || p.currentStop.None? || p.quantity.None?
        || (r.exitProfile.Some? && p.exitProfile.None?))
  }

  function FillMissing(p: Position, r: PlanRequest): Position {
    p.(entryPrice := if p.entryPrice.None? then r.entryPrice else p.entryPrice,
       initialStop := if p.initialStop.None? then r.initialStop else p.initialStop,
       currentStop := if p.currentStop.None? then r.initialStop else p.currentStop,
       exitProfile := if p.exitProfile.None? then r.exitProfile else p.exitProfile,
       quantity := if p.quantity.None? then r.quantity else p.quantity)
  }

  function NewPlan(r: PlanRequest): Position {
    Position(
      r.symbol, Planned, None, r.entryPrice, r.quantity, r.initialStop, r.initialStop, Some(0.0), Some(0.0),
      r.exitProfile)
  }

  function CreateCandidatePlan(s: Books, r: PlanRequest): Result<Books, Error> {
    var pid := PlanOf(r.candidate);
    if r.entryPrice.None? || r.initialStop.None? then Failure(MissingPlanLevels)
    else if pid in s.positions && !PlanNeedsFill(s.positions[pid], r) then Success(s)
    else if r.blocked then Failure(PlanBlocked)
    else if pid in s.positions then
      Success(s.(positions := s.positions[pid := FillMissing(s.positions[pid], r)]))
    else
      Success(s.(positions := s.positions[pid := NewPlan(r)]))
  }

  function CreatePosition(s: Books, name: string, p: Position): Result<Books, Error> {
    if Manual(name) in s.positions then Failure(DuplicateId)
    else Success(s.(positions := s.positions[Manual(name) := p]))
  }

  function ActivatePosition(s: Books, pid: PositionId, entryPrice: real, quantity: Option<real>, entryDate: int)
    : Result<Books, Error>
  {
    if pid !in s.positions then Failure(PositionNotFound)
    else
      var p := s.positions[pid];
      var quantity := if quantity.Some? then quantity else p.quantity;
      var stop := Or(p.currentStop, p.initialStop);
      if !p.status.Planned? then Failure(WrongStatus)
      else if quantity.None? || quantity.value <= 0.0 then Failure(QuantityRequired)
      else if stop.None? then Failure(StopRequired)
      else if stop.value >= entryPrice then Failure(StopNotBelowEntry)
      else Success(s.(positions := s.positions[pid := p.(
        status := Open,
        entryPrice := Some(entryPrice),
        quantity := quantity,
        entryDate := Some(entryDate),
        realizedPnl := Some(p.realizedPnl.GetOr(0.0)),
        unrealizedPnl := Some(0.0))]))
  }

  function UpdatePositionStop(s: Books, pid: PositionId, newStop: real): Result<Books, Error> {
    if pid !in s.positions then Failure(PositionNotFound)
    else
      var p := s.positions[pid];
      if p.status.Closed? || p.status.Cancelled? then Failure(WrongStatus)
      else Success(s.(positions := s.positions[pid := p.(
        currentStop := Some(newStop),
        initialStop := if p.status.Planned? || p.initialStop.None? then Some(newStop) else p.initialStop)]))
  }

  function CancelPosition(s: Books, pid: PositionId): Result<Books, Error> {
    if pid !in s.positions then Failure(PositionNotFound)
    else if !s.positions[pid].status.Planned? then Failure(WrongStatus)
    else Success(s.(positions := s.positions[pid := CancelledReview(s.positions[pid])]))
  }

  /** `_position_pnl` once entry price and quantity are known. */
  function PositionPnl(entryPrice: real, exitPrice: real, quantity: real): real {
    Round6(NetGain(entryPrice, exitPrice, quantity, 0.0))
  }

  function PositionRMultiple(p: Position, exitPrice: real): Option<real> {
    var stop := Or(p.initialStop, p.currentStop);
    if p.entryPrice.None? || stop.None? || p.entryPrice.value - stop.value <= 0.0 then None
    else Some(Round6((exitPrice - p.entryPrice.value) / (p.entryPrice.value - stop.value)))
  }

  function ExitTrade(id: TradeId, pid: PositionId, p: Position, exitPrice: real, quantity: real, exitTs: int): Trade
    requires p.entryPrice.Some?
  {
    var pnl := PositionPnl(p.entryPrice.value, exitPrice, quantity);
    Trade(id, Some(pid), p.entryDate, Some(exitTs), p.entryPrice, Some(exitPrice), Some(quantity),
          Some(pnl), Some(pnl), PositionRMultiple(p, exitPrice))
  }

  function ReducePosition(
    s: Books, pid: PositionId, exitPrice: real, quantity: Option<real>, stop: Option<real>, exitTs: int, nonce: nat)
    : Result<Books, Error>
  {
    if pid !in s.positions then Failure(PositionNotFound)
    else
      var p := s.positions[pid];
      if !p.status.Open? && !p.status.Reduced? then Failure(WrongStatus)
      else if p.entryPrice.None? then Failure(MissingEntryData)
      else if p.quantity.None? || p.quantity.value <= 0.0 || quantity.None? then Failure(QuantityRequired)
      else if quantity.value >= p.quantity.value then Failure(ReduceTooLarge)
      else if HasTrade(s.trades, TrimOf(pid, nonce)) then Failure(DuplicateId)
      else
        var pnl := PositionPnl(p.entryPrice.value, exitPrice, quantity.value);
        Success(s.(
          positions := s.positions[pid := p.(
            realizedPnl := Some(Round6(p.realizedPnl.GetOr(0.0) + pnl)),
            quantity := Some(Round6(p.quantity.value - quantity.value)),
            currentStop := if stop.Some? then stop else p.currentStop,
            status := Reduced)],
          trades := s.trades + [ExitTrade(TrimOf(pid, nonce), pid, p, exitPrice, quantity.value, exitTs)]))
  }

  function ClosePosition(s: Books, pid: PositionId, exitPrice: real, quantity: Option<real>, exitTs: int)
    : Result<Books, Error>
  {
    if pid !in s.positions then Failure(PositionNotFound)
    else
      var p := s.positions[pid];
      if p.status.Closed? || p.status.Planned? || p.status.Cancelled? then Failure(WrongStatus)
      else if p.entryPrice.None? then Failure(MissingEntryData)
      else if p.quantity.None? || p.quantity.value <= 0.0 then Failure(QuantityRequired)
      else if quantity.Some? && quantity.value != p.quantity.value then Failure(CloseQuantityMismatch)
      else if HasTrade(s.trades, CloseOf(pid)) then Failure(DuplicateId)
      else
        var pnl := PositionPnl(p.entryPrice.value, exitPrice, p.quantity.value);
        Success(s.(
          positions := s.positions[pid := p.(
            status := Closed,
            realizedPnl := Some(Round6(p.realizedPnl.GetOr(0.0) + pnl)),
            unrealizedPnl := Some(0.0),
            quantity := Some(0.0))],
          trades := s.trades + [ExitTrade(CloseOf(pid), pid, p, exitPrice, p.quantity.value, exitTs)]))
  }

  // ----- runs

  datatype Step =
    | Import(row: Row)
    | Reconcile(key: nat, action: Action)
    | Plan(request: PlanRequest)
    | Create(name: string, position: Position)
    | Activate(pid: PositionId, entryPrice: real, activated: Option<real>, entryDate: int)
    | UpdateStop(pid: PositionId, newStop: real)
    | Cancel(pid: PositionId)
    | Reduce(pid: PositionId, exitPrice: real, reduced: Option<real>, stop: Option<real>, exitTs: int, nonce: nat)
    | Close(pid: PositionId, exitPrice: real, closed: Option<real>, exitTs: int)

  /** The tables after one step, or the error it raises. Importing an already known key
      is a skip: it changes nothing and raises nothing. */
  function Next(s: Books, step: Step): Result<Books, Error> {
    match step
    case Import(row) =>
      if HasFill(s.fills, row.key) then Success(s)
      else
        (match InsertRow(s, row)
         case Inserted(s') => Success(s')
         case Duplicate => Success(s)
         case Rejected(e) => Failure(e))
    case Reconcile(key, action) => ReconcileFill(s, key, action)
    case Plan(request) => CreateCandidatePlan(s, request)
    case Create(name, p) => CreatePosition(s, name, p)
    case Activate(pid, entryPrice, quantity, entryDate) => ActivatePosition(s, pid, entryPrice, quantity, entryDate)
    case UpdateStop(pid, newStop) => UpdatePositionStop(s, pid, newStop)
    case Cancel(pid) => CancelPosition(s, pid)
    case Reduce(pid, exitPrice, quantity, stop, exitTs, nonce) =>
      ReducePosition(s, pid, exitPrice, quantity, stop, exitTs, nonce)
    case Close(pid, exitPrice, quantity, exitTs) => ClosePosition(s, pid, exitPrice, quantity, exitTs)
  }

  function After(s: Books, step: Step): Books {
    var r := Next(s, step);
    if r.Success? then r.value else s
  }

  function Run(s: Books, steps: seq<Step>): Books {
    if steps == [] then s
    else After(Run(s, steps[..|steps| - 1]), steps[|steps| - 1])
  }
}
