/** The rows of the trade ledger: positions, execution fills and journal trades. */
module Records {
  import opened Rounding
  import opened Wrappers

  /** Position ids: `plan_<candidate>`, `exec_review_<digest of the fill's key>`, or
      any other id given to a hand-made position. */
  datatype PositionId = PlanOf(candidate: string) | ReviewOf(key: nat) | Manual(name: string)

  /** Journal ids: `trade_<position>`, `trade_<position>_trim_<uuid>`, or hand-written. */
  datatype TradeId = CloseOf(position: PositionId) | TrimOf(position: PositionId, nonce: nat) | Written(name: string)

  datatype PositionStatus = Planned | Open | Reduced | Closed | Cancelled | ReviewNeeded

  datatype Side = Buy | Sell

  datatype Reconciliation = Matched | ReviewRequired | Confirmed | Bound | Ignored

  datatype Position = Position(
    symbol: string,
    status: PositionStatus,
    entryDate: Option<int>,
    entryPrice: Option<real>,
    quantity: Option<real>,
    initialStop: Option<real>,
    currentStop: Option<real>,
    realizedPnl: Option<real>,
    unrealizedPnl: Option<real>,
    exitProfile: Option<string>)

  /** `key` is the idempotency key's digest; the fill id is derived from it one to one. */
  datatype Fill = Fill(
    key: nat,
    positionId: PositionId,
    symbol: string,
    side: Side,
    quantity: real,
    price: real,
    fees: real,
    grossAmount: real,
    netAmount: real,
    executedAt: int,
    active: bool,
    reconciliation: Reconciliation)

  datatype Trade = Trade(
    id: TradeId,
    positionId: Option<PositionId>,
    entryTs: Option<int>,
    exitTs: Option<int>,
    entryPrice: Option<real>,
    exitPrice: Option<real>,
    quantity: Option<real>,
    grossPnl: Option<real>,
    netPnl: Option<real>,
    rMultiple: Option<real>)

  /** A normalized CSV row. */
  datatype RowData = RowData(
    key: nat,
    symbol: string,
    side: Side,
    quantity: real,
    price: real,
    fees: real,
    executedAt: int,
    positionId: Option<PositionId>)

  /** Quantity and price are positive, as row parsing demands; quantities are
      multiples of the stored unit. Fees may have either sign. */
  predicate WellFormedRow(row: RowData) {
    row.quantity > 0.0 && OnGrid(row.quantity) && row.price > 0.0
  }

  type Row = row: RowData | WellFormedRow(row)
    witness RowData(0, "", Buy, 1.0, 1.0, 0.0, 0, None)

  function UpperChar(c: char): char {
    if 'a' <= c <= 'z' then (c as int - 'a' as int + 'A' as int) as char else c
  }

  function Upper(s: string): string {
    seq(|s|, i requires 0 <= i < |s| => UpperChar(s[i]))
  }
}
