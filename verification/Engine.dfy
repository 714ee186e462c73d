/** The per-bar trading state machine: resolve what is pending at this bar's open, then look at
    this bar's close. `State` and the functions on it say what each callback does; the class
    `Strategy.CrossoverStrategy` is the callback object itself, proved to do exactly that. */
module Engine {
  import opened Wrappers
  import opened Domain
  import opened Sequences
  import opened Sizing

  /** One indicator's entry and exit lines, as functions of the bars seen so far. */
  datatype SignalLine = SignalLine(entry: seq<Bar> -> bool, exit: seq<Bar> -> bool)

  /** An order as the broker holds it. */
  datatype BrokerOrder = BrokerOrder(ref: nat, side: Side, size: int)

  /** What the strategy remembers about an order it has submitted. */
  datatype OrderContext = OrderContext(orderId: nat, side: Side, intendedQuantity: int, createdAt: int)

  datatype State = State(
    cash: real,
    position: int,
    context: map<nat, OrderContext>,
    inbox: seq<BrokerOrder>,
    nextRef: nat,
    idsDrawn: nat,
    orders: seq<OrderEvent>,
    fills: seq<FillEvent>,
    positions: seq<PositionEvent>,
    cashEvents: seq<CashEvent>,
    warnings: seq<Warning>)

  /** The broker's verdict on an order, from the bars up to the one it is resolved on. */
  type Broker = (seq<Bar>, State, BrokerOrder) -> Outcome

  datatype Setup = Setup(params: Params, lines: seq<SignalLine>, broker: Broker)

  /** A combination enters when every line signals entry and leaves when any line signals exit; a
      single-indicator strategy is the combination of one line. */
  predicate EntrySignal(lines: seq<SignalLine>, seen: seq<Bar>) {
    forall i :: 0 <= i < |lines| ==> lines[i].entry(seen)
  }

  predicate ExitSignal(lines: seq<SignalLine>, seen: seq<Bar>) {
    exists i :: 0 <= i < |lines| && lines[i].exit(seen)
  }

  function Start(p: Params, firstId: nat): State {
    State(p.initialCash, 0, map[], [], 0, firstId, [], [], [], [], [])
  }

  function SubmitEntry(p: Params, s: State, bar: Bar): State
    requires ValidParams(p)
  {
    if bar.close <= 0.0 then s
    else
      var quantity := OrderQuantity(p, s.cash, bar.close);
      if quantity <= 0 then
        s.(warnings := s.warnings + [Warning(PositionSizingZeroQuantity, bar.timestamp)])
      else
        Submit(s, Buy, quantity, bar.timestamp)
  }

  function Submit(s: State, side: Side, quantity: int, createdAt: int): State {
    s.(idsDrawn := s.idsDrawn + 1,
       nextRef := s.nextRef + 1,
       inbox := s.inbox + [BrokerOrder(s.nextRef, side, quantity)],
       context := s.context[s.nextRef := OrderContext(s.idsDrawn, side, quantity, createdAt)])
  }

  function Next(u: Setup, seen: seq<Bar>, s: State): State
    requires ValidParams(u.params) && seen != []
  {
    if |seen| < u.params.eligibleAfterBars then s
    else if s.position == 0 && EntrySignal(u.lines, seen) then SubmitEntry(u.params, s, Last(seen))
    else if s.position > 0 && ExitSignal(u.lines, seen) then Submit(s, Sell, s.position, Last(seen).timestamp)
    else s
  }

  function HandleFill(s: State, ref: nat, bar: Bar): State
    requires ref in s.context
  {
    var c := s.context[ref];
    var tradeValue := Value(c.intendedQuantity, bar.open);
    var cashAfter := if c.side.Buy? then s.cash - tradeValue else s.cash + tradeValue;
    s.(cash := cashAfter,
       context := s.context - {ref},
       orders := s.orders + [OrderEvent(c.orderId, c.side, c.createdAt, c.intendedQuantity, Filled)],
       fills := s.fills + [FillEvent(c.orderId, c.side, bar.timestamp, c.intendedQuantity, bar.open, 0.0, 0.0, 0.0)],
       cashEvents := s.cashEvents + [CashEvent(bar.timestamp, s.cash, cashAfter, c.side)],
       positions := s.positions + [PositionEvent(bar.timestamp,
                                                 if c.side.Buy? then c.intendedQuantity else 0,
                                                 if c.side.Buy? then bar.open else 0.0, c.side)],
       warnings := s.warnings + if bar.volume == 0 then [Warning(ZeroVolumeFill, bar.timestamp)] else [])
  }

  function NotifyOrder(s: State, ref: nat, outcome: Outcome, bar: Bar): State {
    if ref !in s.context then s
    else if outcome.OrderCompleted? then HandleFill(s, ref, bar)
    else
      var c := s.context[ref];
      s.(context := s.context - {ref},
         orders := s.orders + [OrderEvent(c.orderId, c.side, c.createdAt, c.intendedQuantity, NotFilled(outcome))])
  }

  /** The broker executes its own order first, then notifies the strategy. */
  function Resolve(u: Setup, seen: seq<Bar>, s: State, o: BrokerOrder): State
    requires seen != []
  {
    var outcome := u.broker(seen, s, o);
    var position :=
      if !outcome.OrderCompleted? then s.position
      else if o.side.Buy? then s.position + o.size
      else s.position - o.size;
    NotifyOrder(s.(position := position), o.ref, outcome, Last(seen))
  }

  function Deliver(u: Setup, seen: seq<Bar>, s: State): State
    requires seen != []
    decreases |s.inbox|
  {
    if s.inbox == [] then s
    else Deliver(u, seen, Resolve(u, seen, s.(inbox := s.inbox[1..]), s.inbox[0]))
  }

  function OnBar(u: Setup, seen: seq<Bar>, s: State): State
    requires ValidParams(u.params) && seen != []
  {
    Next(u, seen, Deliver(u, seen, s))
  }

  /** The state after the first `k` bars. */
  function Run(u: Setup, bars: seq<Bar>, k: nat, firstId: nat): State
    requires ValidParams(u.params) && k <= |bars|
  {
    if k == 0 then Start(u.params, firstId) else OnBar(u, bars[..k], Run(u, bars, k - 1, firstId))
  }

  /** `stop` marks a run failed when an order was still waiting for its next bar. */
  function Conclude(s: State): ExecutionResult {
    ExecutionResult(s.orders, s.fills, s.positions, s.cashEvents, s.warnings,
                    if s.context == map[] then RunCompleted else RunFailed,
                    if s.context == map[] then None else Some(MissingNextBar))
  }

  function Execute(u: Setup, bars: seq<Bar>, firstId: nat): ExecutionResult
    requires ValidParams(u.params)
  {
    Conclude(Run(u, bars, |bars|, firstId))
  }

  /** What the adapter reports when the library raises: none of the events so far. */
  const ENGINE_FAILURE := ExecutionResult([], [], [], [], [], RunFailed, Some(EngineError))

  /** After how many bars the library raises an exception, if it does: 0 is before the first. */
  type Fault = Option<nat>

  predicate Raises(bars: seq<Bar>, fault: Fault) {
    fault.Some? && fault.value <= |bars|
  }

  /** The adapter's result: that of the run, unless the library raised on the way. */
  function ExecuteGuarded(u: Setup, bars: seq<Bar>, firstId: nat, fault: Fault): ExecutionResult
    requires ValidParams(u.params)
  {
    if Raises(bars, fault) then ENGINE_FAILURE else Execute(u, bars, firstId)
  }

  /** The next id to draw when the engine has stopped. */
  function IdsDrawn(u: Setup, bars: seq<Bar>, firstId: nat, fault: Fault): nat
    requires ValidParams(u.params)
  {
    Run(u, bars, if Raises(bars, fault) then fault.value else |bars|, firstId).idsDrawn
  }
}
