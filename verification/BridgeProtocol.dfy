/** The bridge's write protocol as a transition system. Requests and operator calls are threads
    that share one store and one broker. One atomic step is one store method or one backend call,
    which is where threads can be preempted. What the backend answers, when clocks are read and
    which thread moves next are all chosen by the action, so a statement about every sequence of
    actions is a statement about every interleaving, crash and restart. */
module BridgeProtocol {
  import opened Common
  import opened BridgeTable

  const TRADE_RETCODE_DONE := 10009

  /** An open position. `tag` is the client order id it carries, if the bridge opened it. */
  datatype BackendPosition = BackendPosition(ticket: nat, symbol: string, buy: bool, volume: string,
                                             tag: Option<string>)

  datatype TradeRequest = TradeRequest(
    symbol: string, volume: string, buy: bool, price: real, comment: string, positionTicket: Option<nat>)

  /** An order ready to be checked and sent, with the quote it was built from. */
  datatype Prepared = Prepared(request: TradeRequest, bid: real, ask: real)

  /** One order_send call: who made it for what, and how it was answered and when. */
  datatype SendCall = SendCall(clientOrderId: string, thread: nat, opens: bool, request: TradeRequest,
                               answer: BrokerAnswer)

  datatype BrokerAnswer = BrokerAnswer(reply: SendReply, order: nat, deal: nat, at: int)

  /** The broker: open positions, ticket counters, and every order_send call it ever received. */
  datatype Broker = Broker(positions: seq<BackendPosition>, nextTicket: nat, nextDeal: nat, calls: seq<SendCall>)

  const FRESH_BROKER := Broker([], 1000, 5000, [])

  datatype Job =
    | OpenJob(id: string, symbol: string, side: string, volume: string, maxPositions: nat)
    | CloseJob(id: string, positionId: nat)
    | ResolveJob(id: string)
    | ReconcileJob

  predicate IsRequest(job: Job) {
    job.OpenJob? || job.CloseJob?
  }

  function JobId(job: Job): string {
    if job.ReconcileJob? then "" else job.id
  }

  function PrintOf(job: Job): Fingerprint
    requires IsRequest(job)
  {
    match job
    case OpenJob(_, symbol, side, volume, _) => OpenPrint(symbol, side, volume)
    case CloseJob(_, positionId) => ClosePrint(positionId)
  }

  datatype Failure =
    | NotDemo | RequestConflict | ReconciliationRequired | PreSubmit(code: ErrorCode) | SendFailed
    | BackendFailed | ResolutionRefused | Aborted

  datatype Outcome =
    | Returned(payload: Payload, idempotentReplay: bool)
    | Reported(state: ReconciliationState)
    | Raised(failure: Failure)

  /** Where a thread stands: each constructor names the atomic step it takes next. */
  datatype Pc =
    | ReadAccount | ReadConnection | JournalBegin | BeginRow | JournalConflict | JournalReplay(payload: Payload)
    | ReadTerminal | ReadPermissions(terminalOk: bool) | ReadKillSwitch | ReadReconciliation | ReadPositions
    | ReadSymbol(position: Option<BackendPosition>) | ReadTick(position: Option<BackendPosition>)
    | JournalContext(order: Prepared) | CheckOrder(order: Prepared) | JournalCheck(order: Prepared, passed: bool)
    | RejectRow(code: ErrorCode) | JournalReject(code: ErrorCode)
    | SubmitRow(order: Prepared) | JournalSubmit(order: Prepared) | SendOrder(order: Prepared)
    | JournalCrash | RecordRejected(retcode: int) | JournalSendRejected
    | RecordFilled(payload: Payload) | JournalFilled(payload: Payload)
    | ReadRow | ReadJournal | ReadLivePositions | ReadLiveOrders(matched: bool) | AbortRow | JournalResolved
    | ReconcilePositions | ReconcileOrders | FindIncomplete | Persist(verdict: ReconciliationState)
    | Done(outcome: Outcome)

  /** How order_send ended: it raised or returned a code, and in either case it may have executed. */
  datatype SendReply = SendReply(raises: bool, retcode: int, executed: bool, volume: Option<string>,
                                 price: Option<real>)

  /** Everything the environment decides during one step: the clock, whether the backend call
      raises, whether the checked condition holds, the quote, the reply. */
  datatype Env = Env(
    now: int, raises: bool, ok: bool, volumeOk: bool, bid: real, ask: real, reply: SendReply)

  datatype World = World(
    store: StoreState,
    broker: Broker,
    // History only: the thread whose compare-and-set moved each row from RECEIVED to SUBMITTED.
    submitter: map<string, nat>,
    // History only: every position that was ever open.
    everOpen: set<BackendPosition>)

  datatype Thread = Thread(job: Job, pc: Pc)

  /** Writes are accepted only while Serving, which begins when the startup reconciliation ends. */
  datatype Phase = Starting(boot: nat) | Serving

  datatype Sys = Sys(world: World, threads: map<nat, Thread>, nextThread: nat, phase: Phase)

  /** What happens to the account outside the bridge: manual trades, stop-outs. */
  datatype BrokerMove = ForeignOpen(symbol: string, buy: bool, volume: string) | ForeignClose(ticket: nat)

  datatype Action =
    | Spawn(job: Job)
    | Step(thread: nat, env: Env)
    | Abort(thread: nat)          // an exception no handler catches ends the thread where it stands
    | SetKillSwitch(active: bool)
    | External(move: BrokerMove)
    | Crash                       // the process dies and is started again: threads vanish, data stays
    | Serve

  function FirstPc(job: Job): Pc {
    match job
    case ResolveJob(_) => ReadRow
    case ReconcileJob => ReconcilePositions
    case _ => ReadAccount
  }

  // ------------------------------------------------------------------ one thread, one step

  /** What the record returned by begin_idempotent_request makes the request do next. */
  function AfterBegin(outcome: BeginOutcome): Pc {
    match outcome
    case Conflict => JournalConflict
    case Record(row) =>
      if Terminal(row.state) && row.payload.Some? then JournalReplay(row.payload.value)
      else if row.state == Rejected then Done(Raised(ReconciliationRequired))
      else if (row.state == Received || row.state == Submitted) && row.updatedAt != row.createdAt then
        Done(Raised(ReconciliationRequired))
      else ReadTerminal
  }

  function PrepareOpen(job: Job, env: Env): Prepared
    requires job.OpenJob?
  {
    var buy := job.side == "buy";
    Prepared(TradeRequest(job.symbol, job.volume, buy, if buy then env.ask else env.bid, job.id, None), env.bid,
             env.ask)
  }

  /** The opposite side closes the position: a long sells at bid, a short buys at ask. */
  function PrepareClose(job: Job, position: BackendPosition, env: Env): Prepared
    requires job.CloseJob?
  {
    Prepared(
      TradeRequest(position.symbol, position.volume, !position.buy, if position.buy then env.bid else env.ask,
                   job.id, Some(position.ticket)),
      env.bid, env.ask)
  }

  function Slippage(request: TradeRequest, fillPrice: real): real {
    if request.buy then fillPrice - request.price else request.price - fillPrice
  }

  function FilledPayload(job: Job, order: Prepared, reply: SendReply, ticket: nat, deal: nat, now: int): Payload
    requires IsRequest(job)
  {
    var fillPrice := if reply.price.Some? then reply.price.value else order.request.price;
    var slippage := Slippage(order.request, fillPrice);
    match job
    case OpenJob(id, _, _, volume, _) =>
      OrderPayload(id, ticket, deal, ticket, volume, if reply.volume.Some? then reply.volume.value else volume,
                   order.bid, order.ask, order.request.price, fillPrice, slippage, now)
    case CloseJob(id, positionId) =>
      ClosePayload(id, positionId, order.request.volume, deal, order.bid, order.ask, order.request.price,
                   fillPrice, slippage, now)
  }

  function FilledPatch(payload: Payload): Patch {
    match payload
    case OrderPayload(_, orderId, dealId, positionId, _, _, _, _, _, _, _, _) =>
      Patch(Some(orderId), Some(dealId), Some(positionId), Some(payload), None)
    case ClosePayload(_, positionId, _, dealId, _, _, _, _, _, _) =>
      Patch(None, Some(dealId), Some(positionId), Some(payload), None)
  }

  /** The part of a request up to its submission: account checks, the idempotency record, the
      business checks and order_check. Every definite failure leads to RejectRow. */
  function CheckNext(w: World, job: Job, pc: Pc, env: Env): Pc
    requires IsRequest(job)
  {
    match pc
    case ReadAccount => if env.raises || !env.ok then Done(Raised(NotDemo)) else ReadConnection
    case ReadConnection => if !env.ok then Done(Raised(NotDemo)) else JournalBegin
    case JournalBegin => BeginRow
    case BeginRow => AfterBegin(BeginResult(w.store.rows, job.id, PrintOf(job), env.now))
    case JournalConflict => Done(Raised(RequestConflict))
    case JournalReplay(payload) => Done(Returned(payload, true))
    case ReadTerminal => if env.raises then RejectRow(AutotradingDisabled) else ReadPermissions(env.ok)
    case ReadPermissions(terminalOk) =>
      if env.raises || !terminalOk || !env.ok then RejectRow(AutotradingDisabled)
      else if job.OpenJob? then ReadKillSwitch else ReadPositions
    case ReadKillSwitch => if w.store.killActive then RejectRow(KillSwitchActive) else ReadReconciliation
    case ReadReconciliation =>
      if w.store.reconciliation != Some(ReconciliationOk) then RejectRow(ReconciliationNotOk) else ReadPositions
    case ReadPositions =>
      if env.raises then Done(Raised(BackendFailed))
      else if job.OpenJob? then
        if |w.broker.positions| < job.maxPositions then ReadSymbol(None) else RejectRow(TooManyPositions)
      else
        var position := PositionWith(w.broker.positions, job.positionId);
        if position.Some? then ReadSymbol(position) else RejectRow(PositionNotFound)
    case ReadSymbol(position) =>
      if env.raises then Done(Raised(BackendFailed))
      else if !env.ok then RejectRow(SymbolNotTradable)
      else if job.OpenJob? && !env.volumeOk then RejectRow(InvalidVolume)
      else ReadTick(position)
    case ReadTick(position) =>
      if env.raises then Done(Raised(BackendFailed))
      else if !env.ok then RejectRow(StaleQuote)
      else if job.OpenJob? then CheckOrder(PrepareOpen(job, env))
      else if position.Some? then JournalContext(PrepareClose(job, position.value, env))
      else Done(Raised(Aborted))
    case JournalContext(order) => CheckOrder(order)
    case CheckOrder(order) => if env.raises then Done(Raised(BackendFailed)) else JournalCheck(order, env.ok)
    case JournalCheck(order, passed) => if passed then SubmitRow(order) else RejectRow(OrderCheckFailed)
    case RejectRow(code) =>
      if CanTransition(w.store.rows, job.id, Received) then JournalReject(code)
      else Done(Raised(ReconciliationRequired))
    case JournalReject(code) => Done(Raised(PreSubmit(code)))
    case _ => pc
  }

  predicate SubmissionPc(pc: Pc) {
    pc.SubmitRow? || pc.JournalSubmit? || pc.SendOrder? || pc.JournalCrash? || pc.RecordRejected? ||
    pc.JournalSendRejected? || pc.RecordFilled? || pc.JournalFilled?
  }

  /** The part of a request from its compare-and-set to SUBMITTED onwards. */
  function SubmissionNext(w: World, job: Job, pc: Pc, env: Env): Pc
    requires IsRequest(job) && SubmissionPc(pc)
  {
    match pc
    case SubmitRow(order) =>
      if CanTransition(w.store.rows, job.id, Received) then JournalSubmit(order)
      else Done(Raised(ReconciliationRequired))
    case JournalSubmit(order) => SendOrder(order)
    case SendOrder(order) =>
      if env.reply.raises then JournalCrash
      else if env.reply.retcode != TRADE_RETCODE_DONE then RecordRejected(env.reply.retcode)
      else RecordFilled(FilledPayload(job, order, env.reply, w.broker.nextTicket, w.broker.nextDeal, env.now))
    case JournalCrash => Done(Raised(SendFailed))
    case RecordRejected(_) => JournalSendRejected
    case JournalSendRejected => Done(Raised(SendFailed))
    case RecordFilled(payload) => JournalFilled(payload)
    case JournalFilled(payload) => Done(Returned(payload, false))
  }

  function RequestNext(w: World, job: Job, pc: Pc, env: Env): Pc
    requires IsRequest(job)
  {
    if SubmissionPc(pc) then SubmissionNext(w, job, pc, env) else CheckNext(w, job, pc, env)
  }

  /** One step of a manual resolution or a reconciliation: where it goes next. */
  function OperatorNext(w: World, job: Job, pc: Pc, env: Env): Pc
    requires !IsRequest(job)
  {
    match pc
    case ReadRow =>
      if job.ResolveJob? && CanTransition(w.store.rows, job.id, Received) && !HasIdentifiers(w.store.rows[job.id])
      then ReadJournal else Done(Raised(ResolutionRefused))
    case ReadJournal =>
      if job.ResolveJob? && !HasSubmissionEvidence(w.store.journal, job.id)
      then ReadLivePositions else Done(Raised(ResolutionRefused))
    case ReadLivePositions =>
      if env.raises then Done(Raised(ResolutionRefused))
      else ReadLiveOrders(HasTag(w.broker.positions, JobId(job)))
    case ReadLiveOrders(matched) =>
      if env.raises || matched || !env.ok then Done(Raised(ResolutionRefused)) else AbortRow
    case AbortRow =>
      if job.ResolveJob? && CanTransition(w.store.rows, job.id, Received)
      then JournalResolved else Done(Raised(ResolutionRefused))
    case JournalResolved => ReconcilePositions
    case ReconcilePositions => if env.raises then Persist(Unknown) else ReconcileOrders
    case ReconcileOrders => if env.raises then Persist(Unknown) else FindIncomplete
    case FindIncomplete => Persist(if Incomplete(w.store.rows) then Mismatch else ReconciliationOk)
    case Persist(verdict) => Done(Reported(verdict))
    case _ => pc
  }

  function NextPc(w: World, th: Thread, env: Env): Pc {
    if IsRequest(th.job) then RequestNext(w, th.job, th.pc, env) else OperatorNext(w, th.job, th.pc, env)
  }

  function NewPosition(broker: Broker, request: TradeRequest): BackendPosition {
    BackendPosition(broker.nextTicket, request.symbol, request.buy, request.volume, Some(request.comment))
  }

  /** What an executed order does to the broker: open a position, or remove the one it closes. */
  function ExecutedPositions(broker: Broker, request: TradeRequest): seq<BackendPosition> {
    match request.positionTicket
    case None => broker.positions + [NewPosition(broker, request)]
    case Some(ticket) => WithoutTicket(broker.positions, ticket)
  }

  function WithoutTicket(positions: seq<BackendPosition>, ticket: nat): seq<BackendPosition> {
    if positions == [] then []
    else
      var last := positions[|positions| - 1];
      WithoutTicket(positions[..|positions| - 1], ticket) + if last.ticket == ticket then [] else [last]
  }

  /** The first position with a ticket. */
  function PositionWith(positions: seq<BackendPosition>, ticket: nat): Option<BackendPosition> {
    if positions == [] then None
    else if positions[0].ticket == ticket then Some(positions[0])
    else PositionWith(positions[1..], ticket)
  }

  /** Some open position carries the identity tag of a client order. */
  predicate HasTag(positions: seq<BackendPosition>, id: string) {
    exists p :: p in positions && p.tag == Some(id)
  }

  function Sent(broker: Broker, call: SendCall): Broker {
    if call.answer.reply.executed then
      Broker(ExecutedPositions(broker, call.request), broker.nextTicket + 1, broker.nextDeal + 1, broker.calls + [call])
    else broker.(calls := broker.calls + [call])
  }

  function JournalEvent(pc: Pc): Option<Event> {
    match pc
    case JournalBegin => Some(BeginEvent)
    case JournalConflict => Some(ConflictEvent)
    case JournalReplay(_) => Some(ReplayEvent)
    case JournalContext(_) => Some(ContextEvent)
    case JournalCheck(_, _) => Some(CheckEvent)
    case JournalReject(_) => Some(PreSubmitRejectedEvent)
    case JournalSubmit(_) => Some(SubmittingEvent)
    case JournalCrash => Some(CrashDuringSendEvent)
    case JournalSendRejected => Some(SendRejectedEvent)
    case JournalFilled(_) => Some(FilledEvent)
    case JournalResolved => Some(ResolvedEvent)
    case _ => None
  }

  /** One step: what it does to the idempotency table. */
  function RowsAfter(w: World, th: Thread, env: Env): Rows {
    var rows, id := w.store.rows, JobId(th.job);
    match th.pc
    case BeginRow => if IsRequest(th.job) then BeginRows(rows, id, PrintOf(th.job), env.now) else rows
    case RejectRow(code) => TransitionRows(rows, id, Received, Rejected, env.now, ErrorPatch(code))
    case SubmitRow(_) => TransitionRows(rows, id, Received, Submitted, env.now, NO_PATCH)
    case RecordRejected(retcode) => UpdateRows(rows, id, Rejected, env.now, ErrorPatch(BrokerRetcode(retcode)))
    case RecordFilled(payload) => UpdateRows(rows, id, Filled, env.now, FilledPatch(payload))
    case AbortRow => TransitionRows(rows, id, Received, Rejected, env.now, ErrorPatch(AbortedBeforeSubmission))
    case _ => rows
  }

  function SubmitterAfter(w: World, tid: nat, th: Thread): map<string, nat> {
    if th.pc.SubmitRow? && CanTransition(w.store.rows, JobId(th.job), Received)
    then w.submitter[JobId(th.job) := tid] else w.submitter
  }

  function JournalAfter(w: World, th: Thread): seq<Entry> {
    match JournalEvent(th.pc)
    case None => w.store.journal
    case Some(event) => w.store.journal + [Entry(JobId(th.job), event)]
  }

  /** The call a thread standing at order_send makes, and the answer it gets. */
  function CallOf(w: World, tid: nat, th: Thread, env: Env): SendCall
    requires th.pc.SendOrder?
  {
    SendCall(JobId(th.job), tid, th.job.OpenJob?, th.pc.order.request,
             BrokerAnswer(env.reply, w.broker.nextTicket, w.broker.nextDeal, env.now))
  }

  function BrokerAfter(w: World, tid: nat, th: Thread, env: Env): Broker {
    if th.pc.SendOrder? then Sent(w.broker, CallOf(w, tid, th, env)) else w.broker
  }

  function EverOpenAfter(w: World, th: Thread, env: Env): set<BackendPosition> {
    if th.pc.SendOrder? && env.reply.executed && th.pc.order.request.positionTicket.None?
    then w.everOpen + {NewPosition(w.broker, th.pc.order.request)} else w.everOpen
  }

  function ReconciliationAfter(w: World, th: Thread): Option<ReconciliationState> {
    if th.pc.Persist? then Some(th.pc.verdict) else w.store.reconciliation
  }

  /** One step: what it does to the store, the broker and the history. */
  function Effect(w: World, tid: nat, th: Thread, env: Env): World {
    World(StoreState(RowsAfter(w, th, env), JournalAfter(w, th), w.store.killActive, ReconciliationAfter(w, th)),
          BrokerAfter(w, tid, th, env), SubmitterAfter(w, tid, th), EverOpenAfter(w, th, env))
  }

  // ------------------------------------------------------------------ the whole system

  function Initial(): Sys {
    Sys(World(EMPTY_STORE, FRESH_BROKER, map[], {}), map[0 := Thread(ReconcileJob, ReconcilePositions)], 1, Starting(0))
  }

  predicate Enabled(s: Sys, action: Action) {
    match action
    case Spawn(_) => s.phase.Serving?
    case Step(tid, _) => tid in s.threads && !s.threads[tid].pc.Done?
    case Abort(tid) => tid in s.threads && !s.threads[tid].pc.Done?
    case SetKillSwitch(_) => s.phase.Serving?
    case External(_) => true
    case Crash => true
    case Serve => s.phase.Starting? && s.phase.boot in s.threads && s.threads[s.phase.boot].pc.Done? &&
                  s.threads[s.phase.boot].pc.outcome.Reported?
  }

  function StepThread(s: Sys, tid: nat, env: Env): Sys
    requires tid in s.threads
  {
    var th := s.threads[tid];
    s.(world := Effect(s.world, tid, th, env), threads := s.threads[tid := th.(pc := NextPc(s.world, th, env))])
  }

  function Moved(w: World, move: BrokerMove): World {
    match move
    case ForeignOpen(symbol, buy, volume) =>
      var position := BackendPosition(w.broker.nextTicket, symbol, buy, volume, None);
      w.(broker := w.broker.(positions := w.broker.positions + [position], nextTicket := w.broker.nextTicket + 1),
         everOpen := w.everOpen + {position})
    case ForeignClose(ticket) =>
      w.(broker := w.broker.(positions := WithoutTicket(w.broker.positions, ticket)))
  }

  /** The effect of one action; an action that is not enabled changes nothing. */
  function Exec(s: Sys, action: Action): Sys {
    if !Enabled(s, action) then s
    else match action
      case Spawn(job) => s.(threads := s.threads[s.nextThread := Thread(job, FirstPc(job))],
                            nextThread := s.nextThread + 1)
      case Step(tid, env) => StepThread(s, tid, env)
      case Abort(tid) => s.(threads := s.threads[tid := s.threads[tid].(pc := Done(Raised(Aborted)))])
      case SetKillSwitch(active) => s.(world := s.world.(store := s.world.store.(killActive := active)))
      case External(move) => s.(world := Moved(s.world, move))
      case Crash =>
        Sys(s.world, map[s.nextThread := Thread(ReconcileJob, ReconcilePositions)], s.nextThread + 1,
            Starting(s.nextThread))
      case Serve => s.(phase := Serving)
  }

  /** The state after a whole sequence of actions. */
  function Run(s: Sys, actions: seq<Action>): Sys {
    if actions == [] then s else Exec(Run(s, actions[..|actions| - 1]), actions[|actions| - 1])
  }

  lemma {:induction false} RunConcat(s: Sys, first: seq<Action>, second: seq<Action>)
    ensures Run(s, first + second) == Run(Run(s, first), second)
  {
    if second == [] {
      assert first + second == first;
    } else {
      var last := |second| - 1;
      RunConcat(s, first, second[..last]);
      assert (first + second)[..|first + second| - 1] == first + second[..last];
    }
  }
}
