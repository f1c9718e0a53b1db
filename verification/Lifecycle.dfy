/** When the lifecycle operations succeed, and what they change, in terms of the row they act on. */
module Lifecycle {
  import opened Records
  import opened Wrappers
  import opened Ledger
  import opened LedgerSafety

  /** Only this position changes, into the given row; fills and journal stay. */
  predicate OnlyChanges(s: Books, s': Books, pid: PositionId, p': Position) {
    s'.positions == s.positions[pid := p'] && s'.fills == s.fills && s'.trades == s.trades
  }

  /** The stop in force; one of zero counts as none. */
  function InForce(p: Position): Option<real> {
    match p.currentStop
    case Some(stop) => if stop == 0.0 then p.initialStop else p.currentStop
    case None => p.initialStop
  }

  /** Activation opens a plan with a positive quantity, its own or the one given, and a stop
      below the entry price, and nothing else. */
  lemma ActivationTells(s: Books, pid: PositionId, price: real, given: Option<real>, date: int)
    ensures var r := Next(s, Activate(pid, price, given, date));
      && (r.Success? <==>
            && pid in s.positions && s.positions[pid].status.Planned?
            && (match given
                case Some(q) => q > 0.0
                case None => s.positions[pid].quantity.Some? && s.positions[pid].quantity.value > 0.0)
            && InForce(s.positions[pid]).Some? && InForce(s.positions[pid]).value < price)
      && (r.Success? ==>
            var p := s.positions[pid];
            OnlyChanges(s, r.value, pid, p.(
              status := Open, entryPrice := Some(price), entryDate := Some(date),
              quantity := (if given.Some? then given else p.quantity),
              realizedPnl := Some(p.realizedPnl.GetOr(0.0)), unrealizedPnl := Some(0.0))))
  {
  }

  /** A stop moves on every unfinished position; the first stop moves with it only on a plan, or
      if there was none. */
  lemma StopTells(s: Books, pid: PositionId, stop: real)
    ensures var r := Next(s, UpdateStop(pid, stop));
      && (r.Success? <==> pid in s.positions && s.positions[pid].status !in {Closed, Cancelled})
      && (r.Success? ==>
            var p, p' := s.positions[pid], r.value.positions[pid];
            && OnlyChanges(s, r.value, pid, p')
            && p' == p.(currentStop := Some(stop), initialStop := p'.initialStop)
            && p'.initialStop
               == (if p.status == Planned || p.initialStop == None then Some(stop) else p.initialStop))
  {
  }

  /** Only plans are cancelled, and a cancelled one holds nothing. */
  lemma CancelTells(s: Books, pid: PositionId)
    ensures var r := Next(s, Cancel(pid));
      && (r.Success? <==> pid in s.positions && s.positions[pid].status == Planned)
      && (r.Success? ==>
            var p := s.positions[pid];
            OnlyChanges(s, r.value, pid, p.(
              status := Cancelled, quantity := Some(0.0), realizedPnl := Some(p.realizedPnl.GetOr(0.0)),
              unrealizedPnl := Some(0.0))))
  {
  }

  /** A trim succeeds on an open or reduced position that is priced and holds more. */
  lemma TrimSucceedsExactly(
    s: Books, pid: PositionId, price: real, quantity: real, stop: Option<real>, ts: int, n: nat)
    ensures Next(s, Reduce(pid, price, Some(quantity), stop, ts, n)).Success? <==>
      && pid in s.positions && s.positions[pid].status in {Open, Reduced} && s.positions[pid].entryPrice.Some?
      && s.positions[pid].quantity.Some? && s.positions[pid].quantity.value > 0.0
      && quantity < s.positions[pid].quantity.value
      && forall i :: 0 <= i < |s.trades| ==> s.trades[i].id != TrimOf(pid, n)
  {
  }

  /** A close succeeds on any priced position with shares that is neither planned nor finished,
      for all of its shares. */
  lemma CloseSucceedsExactly(s: Books, pid: PositionId, price: real, closed: Option<real>, ts: int)
    ensures Next(s, Close(pid, price, closed, ts)).Success? <==>
      && pid in s.positions && s.positions[pid].status in {Open, Reduced, ReviewNeeded}
      && s.positions[pid].entryPrice.Some?
      && s.positions[pid].quantity.Some? && s.positions[pid].quantity.value > 0.0
      && (closed.Some? ==> closed == s.positions[pid].quantity)
      && forall i :: 0 <= i < |s.trades| ==> s.trades[i].id != CloseOf(pid)
  {
  }

  // ----- plans

  /** What the request adds to a row that lacks it. */
  function Filled(p: Position, r: PlanRequest): Position {
    p.(entryPrice := (if p.entryPrice == None then r.entryPrice else p.entryPrice),
       initialStop := (if p.initialStop == None then r.initialStop else p.initialStop),
       currentStop := (if p.currentStop == None then r.initialStop else p.currentStop),
       exitProfile := (if p.exitProfile == None then r.exitProfile else p.exitProfile),
       quantity := (if p.quantity == None then r.quantity else p.quantity))
  }

  /** A plan request on a row already there changes a plan only, and of it only what it lacks;
      without a row it creates the plan asked for. */
  lemma PlanTells(s: Books, r: PlanRequest)
    ensures var pid, result := PlanOf(r.candidate), Next(s, Plan(r));
      && (result.Success? ==>
            && r.entryPrice.Some? && r.initialStop.Some?
            && (pid in s.positions ==>
                  OnlyChanges(s, result.value, pid,
                    if s.positions[pid].status == Planned then Filled(s.positions[pid], r) else s.positions[pid]))
            && (pid !in s.positions ==>
                  OnlyChanges(s, result.value, pid, Position(
                    r.symbol, Planned, None, r.entryPrice, r.quantity, r.initialStop, r.initialStop,
                    Some(0.0), Some(0.0), r.exitProfile))))
      && (r.entryPrice.Some? && r.initialStop.Some? && !r.blocked ==> result.Success?)
      && (result.Success? && r.blocked ==> result.value == s)
  {
    var pid := PlanOf(r.candidate);
    if pid in s.positions {
      assert s.positions[pid := s.positions[pid]] == s.positions;
    }
  }

  /** Asking twice is asking once, whatever the preview says the second time. */
  lemma PlanIsIdempotent(s: Books, r: PlanRequest, again: bool)
    requires Next(s, Plan(r)).Success? && r.quantity.Some?
    ensures Next(After(s, Plan(r)), Plan(r.(blocked := again))) == Next(s, Plan(r))
  {
  }

  // ----- reconciliation

  /** The fill under a key, if it is still undecided on a position under review. */
  predicate Undecided(s: Books, key: nat, i: nat) {
    && i < |s.fills| && s.fills[i].key == key && s.fills[i].active && s.fills[i].reconciliation == ReviewRequired
    && s.fills[i].positionId in s.positions && s.positions[s.fills[i].positionId].status == ReviewNeeded
  }

  /** Confirming keeps the review position of a priced buy as an open one, and decides the fill. */
  lemma ConfirmTells(s: Books, key: nat, i: nat)
    requires UniqueKeys(s.fills) && Undecided(s, key, i)
    ensures var r, pid := Next(s, Reconcile(key, ConfirmPosition)), s.fills[i].positionId;
      var p := s.positions[pid];
      && (r.Success? <==>
            s.fills[i].side == Buy && p.entryPrice.Some? && p.quantity.Some? && p.quantity.value > 0.0)
      && (r.Success? ==>
            && r.value.trades == s.trades
            && r.value.fills == s.fills[i := s.fills[i].(reconciliation := Confirmed)]
            && r.value.positions == s.positions[pid := p.(
                 status := Open, realizedPnl := Some(p.realizedPnl.GetOr(0.0)),
                 unrealizedPnl := Some(p.unrealizedPnl.GetOr(0.0)))])
  {
    FoundAt(s.fills, key, i);
  }

  /** Ignoring cancels the review position and leaves the fill out. */
  lemma IgnoreTells(s: Books, key: nat, i: nat)
    requires UniqueKeys(s.fills) && Undecided(s, key, i)
    ensures var r, pid := Next(s, Reconcile(key, IgnoreFill)), s.fills[i].positionId;
      var p := s.positions[pid];
      && r.Success? && r.value.trades == s.trades
      && r.value.fills == s.fills[i := s.fills[i].(reconciliation := Ignored, active := false)]
      && r.value.positions == s.positions[pid := p.(
           status := Cancelled, quantity := Some(0.0), realizedPnl := Some(p.realizedPnl.GetOr(0.0)),
           unrealizedPnl := Some(0.0))]
  {
    FoundAt(s.fills, key, i);
  }

  lemma FoundAt(fills: seq<Fill>, key: nat, i: nat)
    requires UniqueKeys(fills) && i < |fills| && fills[i].key == key
    ensures FindFill(fills, key) == Some(i)
  {
    assert HasFill(fills, key);
  }

  /** What has been decided, or was never under review, is not decided again. */
  lemma OnlyUndecidedAreReconciled(s: Books, key: nat, action: Action)
    ensures Next(s, Reconcile(key, action)).Success? ==> exists i: nat :: Undecided(s, key, i)
  {
    if Next(s, Reconcile(key, action)).Success? {
      assert Undecided(s, key, FindFill(s.fills, key).value);
    }
    hide ApplyFill;
  }
}
