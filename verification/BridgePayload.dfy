/** What the bridge sends and what a FILLED row says: in every run each order_send carries out its own
    request, and each stored result agrees with that request, with the row's columns, with the position
    it closed and with the quote it was sent at. */
module BridgePayload {
  import opened Common
  import opened BridgeTable
  import opened BridgeProtocol
  import opened BridgeSafety
  import opened BridgeTheorems
  import opened BridgeBroker

  /** Sent at the ask and slipped upwards, or sent at the bid and slipped downwards: a positive slippage
      is always a loss. */
  predicate Quoted(buy: bool, bid: real, ask: real, reference: real, fill: real, slippage: real) {
    reference == (if buy then ask else bid) && slippage == if buy then fill - reference else reference - fill
  }

  /** The close of `p`, and the result of one: the volume it had, dealt on the opposite side. */
  predicate ClosedAs(p: BackendPosition, positionId: nat, payload: Payload)
    requires payload.ClosePayload?
  {
    && p.ticket == positionId && payload.closedVolume == p.volume
    && Quoted(!p.buy, payload.bid, payload.ask, payload.referencePrice, payload.fillPrice, payload.slippage)
  }

  /** The payload answers the request with this id and fingerprint. */
  predicate Answers(everOpen: set<BackendPosition>, id: string, hash: Fingerprint, payload: Payload) {
    match hash
    case OpenPrint(_, side, volume) =>
      && payload.OrderPayload? && payload.clientOrderId == id && payload.requestedVolume == volume
      && payload.positionId == payload.brokerOrderId
      && Quoted(side == "buy", payload.bid, payload.ask, payload.referencePrice, payload.fillPrice, payload.slippage)
    case ClosePrint(positionId) =>
      && payload.ClosePayload? && payload.clientOrderId == id && payload.positionId == positionId
      && exists p :: p in everOpen && ClosedAs(p, positionId, payload)
  }

  /** The identifier columns of a FILLED row are those of its payload, which answers its request. */
  predicate RowAnswers(everOpen: set<BackendPosition>, id: string, row: Row) {
    row.state == Filled ==>
      (&& row.payload.Some? && Answers(everOpen, id, row.requestHash, row.payload.value)
       && row.dealId == Some(row.payload.value.dealId) && row.positionId == Some(row.payload.value.positionId)
       && (row.payload.value.OrderPayload? ==> row.brokerOrderId == Some(row.payload.value.brokerOrderId)))
  }

  /** The order that closes position p and nothing else. */
  predicate Closes(p: BackendPosition, positionId: nat, request: TradeRequest) {
    && p.ticket == positionId && request.positionTicket == Some(positionId)
    && request.symbol == p.symbol && request.volume == p.volume && request.buy == !p.buy
  }

  /** The order a fingerprint asks for. */
  predicate CarriesOut(everOpen: set<BackendPosition>, hash: Fingerprint, request: TradeRequest) {
    match hash
    case OpenPrint(symbol, side, volume) =>
      && request.symbol == symbol && request.volume == volume && request.buy == (side == "buy")
      && request.positionTicket.None?
    case ClosePrint(positionId) => exists p :: p in everOpen && Closes(p, positionId, request)
  }

  predicate CallAnswers(rows: Rows, everOpen: set<BackendPosition>, call: SendCall) {
    && call.clientOrderId in rows && CarriesOut(everOpen, rows[call.clientOrderId].requestHash, call.request)
    && call.opens == rows[call.clientOrderId].requestHash.OpenPrint? && call.request.comment == call.clientOrderId
  }

  /** The request has been given the row of its id, and has not failed. */
  predicate HasRow(pc: Pc) {
    || pc.ReadTerminal? || pc.ReadPermissions? || pc.ReadKillSwitch? || pc.ReadReconciliation? || pc.ReadPositions?
    || pc.ReadSymbol? || pc.ReadTick? || pc.JournalContext? || pc.CheckOrder? || pc.JournalCheck? || pc.RejectRow?
    || pc.JournalReject? || SubmissionPc(pc) || pc.JournalReplay? || (pc.Done? && pc.outcome.Returned?)
  }

  /** An order in preparation is the request's, priced on the side of the quote it trades at. */
  predicate OrderFits(everOpen: set<BackendPosition>, job: Job, order: Prepared)
    requires IsRequest(job)
  {
    && order.request.price == (if order.request.buy then order.ask else order.bid)
    && order.request.comment == job.id && CarriesOut(everOpen, PrintOf(job), order.request)
  }

  /** The position a close has found is the one it was asked to close. */
  predicate FoundFits(everOpen: set<BackendPosition>, job: Job, pc: Pc) {
    job.CloseJob? && (pc.ReadSymbol? || pc.ReadTick?) && pc.position.Some? ==>
      pc.position.value in everOpen && pc.position.value.ticket == job.positionId
  }

  predicate ThreadAnswers(rows: Rows, everOpen: set<BackendPosition>, th: Thread) {
    IsRequest(th.job) ==>
      (&& (HasRow(th.pc) ==> th.job.id in rows && rows[th.job.id].requestHash == PrintOf(th.job))
       && FoundFits(everOpen, th.job, th.pc)
       && (HasOrder(th.pc) ==> OrderFits(everOpen, th.job, th.pc.order))
       && (th.pc.RecordFilled? ==> Answers(everOpen, th.job.id, PrintOf(th.job), th.pc.payload)))
  }

  /** Every position was seen when it opened, and no ticket is ever given twice. */
  predicate HistoryOk(broker: Broker, everOpen: set<BackendPosition>) {
    && (forall i :: 0 <= i < |broker.positions| ==> broker.positions[i] in everOpen)
    && (forall p :: p in everOpen ==> p.ticket < broker.nextTicket)
    && (forall p, q :: p in everOpen && q in everOpen && p.ticket == q.ticket ==> p == q)
  }

  predicate AllAnswer(s: Sys) {
    && (forall id :: id in s.world.store.rows ==> RowAnswers(s.world.everOpen, id, s.world.store.rows[id]))
    && (forall tid :: tid in s.threads ==> ThreadAnswers(s.world.store.rows, s.world.everOpen, s.threads[tid]))
    && (forall i :: 0 <= i < |s.world.broker.calls| ==>
          CallAnswers(s.world.store.rows, s.world.everOpen, s.world.broker.calls[i]))
    && HistoryOk(s.world.broker, s.world.everOpen)
  }

  // ------------------------------------------------------------------ one step

  lemma {:induction false} FoundInPositions(positions: seq<BackendPosition>, ticket: nat)
    ensures var found := PositionWith(positions, ticket);
            found.Some? ==> found.value in positions && found.value.ticket == ticket
    ensures PositionWith(positions, ticket).None? ==> forall p :: p in positions ==> p.ticket != ticket
  {
    if positions != [] {
      FoundInPositions(positions[1..], ticket);
      assert positions == [positions[0]] + positions[1..];
    }
  }

  lemma FilledAnswers(everOpen: set<BackendPosition>, job: Job, order: Prepared, reply: SendReply, ticket: nat,
                      deal: nat, now: int)
    requires IsRequest(job) && OrderFits(everOpen, job, order)
    ensures Answers(everOpen, job.id, PrintOf(job), FilledPayload(job, order, reply, ticket, deal, now))
  {
    if job.CloseJob? {
      var payload := FilledPayload(job, order, reply, ticket, deal, now);
      var p :| p in everOpen && Closes(p, job.positionId, order.request);
      assert ClosedAs(p, job.positionId, payload);
    }
  }

  lemma PreparedFits(everOpen: set<BackendPosition>, job: Job, pc: Pc, env: Env)
    requires IsRequest(job) && pc.ReadTick? && FoundFits(everOpen, job, pc)
    ensures job.OpenJob? ==> OrderFits(everOpen, job, PrepareOpen(job, env))
    ensures job.CloseJob? && pc.position.Some? ==> OrderFits(everOpen, job, PrepareClose(job, pc.position.value, env))
  {
    if job.CloseJob? && pc.position.Some? {
      assert Closes(pc.position.value, job.positionId, PrepareClose(job, pc.position.value, env).request);
    }
  }

  /** The requesting thread keeps the row it was given. */
  lemma CheckKeepsRow(w: World, job: Job, pc: Pc, env: Env)
    requires IsRequest(job) && !SubmissionPc(pc)
    ensures var pc' := CheckNext(w, job, pc, env);
            && (HasRow(pc') && !pc.BeginRow? ==> HasRow(pc)) && !pc'.RecordFilled?
            && (HasRow(pc') && pc.BeginRow? ==> !BeginResult(w.store.rows, job.id, PrintOf(job), env.now).Conflict?)
  {
    hide PositionWith, PrepareOpen, PrepareClose;
  }

  /** What it finds is what it was asked for. */
  lemma CheckKeepsFound(w: World, job: Job, pc: Pc, env: Env)
    requires IsRequest(job) && !SubmissionPc(pc) && FoundFits(w.everOpen, job, pc) && HistoryOk(w.broker, w.everOpen)
    ensures FoundFits(w.everOpen, job, CheckNext(w, job, pc, env))
  {
    if job.CloseJob? { FoundInPositions(w.broker.positions, job.positionId); }
    hide PositionWith, PrepareOpen, PrepareClose, AfterBegin;
  }

  /** And so is what it prepares. */
  lemma CheckKeepsOrder(w: World, job: Job, pc: Pc, env: Env)
    requires IsRequest(job) && !SubmissionPc(pc) && FoundFits(w.everOpen, job, pc)
    requires HasOrder(pc) ==> OrderFits(w.everOpen, job, pc.order)
    ensures var pc' := CheckNext(w, job, pc, env); HasOrder(pc') ==> OrderFits(w.everOpen, job, pc'.order)
  {
    if pc.ReadTick? { PreparedFits(w.everOpen, job, pc, env); }
    hide PositionWith, OrderFits, PrepareOpen, PrepareClose, AfterBegin, FoundFits;
  }

  lemma SubmissionStepAnswers(w: World, job: Job, pc: Pc, env: Env)
    requires IsRequest(job) && SubmissionPc(pc) && ThreadAnswers(w.store.rows, w.everOpen, Thread(job, pc))
    ensures var pc' := SubmissionNext(w, job, pc, env);
            && !pc'.ReadSymbol? && !pc'.ReadTick?
            && (HasOrder(pc') ==> OrderFits(w.everOpen, job, pc'.order))
            && (pc'.RecordFilled? ==> Answers(w.everOpen, job.id, PrintOf(job), pc'.payload))
  {
    if pc.SendOrder? {
      FilledAnswers(w.everOpen, job, pc.order, env.reply, w.broker.nextTicket, w.broker.nextDeal, env.now);
    }
  }

  /** More history never takes an answer back. */
  lemma MoreHistory(rows: Rows, everOpen: set<BackendPosition>, everOpen': set<BackendPosition>, th: Thread)
    requires everOpen <= everOpen' && ThreadAnswers(rows, everOpen, th)
    ensures ThreadAnswers(rows, everOpen', th)
  {
    if IsRequest(th.job) {
      if HasOrder(th.pc) { MoreCarriesOut(everOpen, everOpen', PrintOf(th.job), th.pc.order.request); }
      if th.pc.RecordFilled? { MoreAnswers(everOpen, everOpen', th.job.id, PrintOf(th.job), th.pc.payload); }
    }
  }

  lemma MoreAnswers(everOpen: set<BackendPosition>, everOpen': set<BackendPosition>, id: string, hash: Fingerprint,
                    payload: Payload)
    requires everOpen <= everOpen' && Answers(everOpen, id, hash, payload)
    ensures Answers(everOpen', id, hash, payload)
  {
    if hash.ClosePrint? {
      var p :| p in everOpen && ClosedAs(p, hash.positionId, payload);
      assert p in everOpen';
    }
  }

  lemma MoreCarriesOut(everOpen: set<BackendPosition>, everOpen': set<BackendPosition>, hash: Fingerprint,
                       request: TradeRequest)
    requires everOpen <= everOpen' && CarriesOut(everOpen, hash, request)
    ensures CarriesOut(everOpen', hash, request)
  {
    if hash.ClosePrint? {
      var p :| p in everOpen && Closes(p, hash.positionId, request);
      assert p in everOpen';
    }
  }

  lemma OwnRowAnswers(w: World, tid: nat, th: Thread, env: Env)
    requires ThreadAnswers(w.store.rows, w.everOpen, th) && JobId(th.job) in RowsAfter(w, th, env)
    requires ThreadOk(w, tid, th)
    requires JobId(th.job) in w.store.rows ==> RowAnswers(w.everOpen, JobId(th.job), w.store.rows[JobId(th.job)])
    ensures RowAnswers(w.everOpen, JobId(th.job), RowsAfter(w, th, env)[JobId(th.job)])
  {
    hide Answers;
  }

  lemma OwnThreadAnswers(w: World, tid: nat, th: Thread, env: Env)
    requires ThreadAnswers(w.store.rows, w.everOpen, th) && RowsOk(w.store.rows, w.submitter) && ThreadOk(w, tid, th)
    requires HistoryOk(w.broker, w.everOpen)
    ensures ThreadAnswers(RowsAfter(w, th, env), w.everOpen, th.(pc := NextPc(w, th, env)))
  {
    if IsRequest(th.job) {
      EffectOnTable(w, tid, th, env);
      if SubmissionPc(th.pc) {
        SubmissionStepAnswers(w, th.job, th.pc, env);
      } else {
        CheckKeepsRow(w, th.job, th.pc, env);
        CheckKeepsFound(w, th.job, th.pc, env);
        CheckKeepsOrder(w, th.job, th.pc, env);
      }
      hide CheckNext, SubmissionNext, Answers, OrderFits, FilledPayload;
    }
  }

  lemma WithoutTicketKeepsHistory(broker: Broker, everOpen: set<BackendPosition>, ticket: nat)
    requires HistoryOk(broker, everOpen)
    ensures forall p :: p in WithoutTicket(broker.positions, ticket) ==> p in everOpen
  {
    WithoutTicketMembers(broker.positions, ticket);
  }

  lemma SendKeepsHistory(w: World, tid: nat, th: Thread, env: Env)
    requires HistoryOk(w.broker, w.everOpen)
    ensures HistoryOk(BrokerAfter(w, tid, th, env), EverOpenAfter(w, th, env))
    ensures w.everOpen <= EverOpenAfter(w, th, env)
  {
    if th.pc.SendOrder? && env.reply.executed && th.pc.order.request.positionTicket.Some? {
      WithoutTicketKeepsHistory(w.broker, w.everOpen, th.pc.order.request.positionTicket.value);
    }
  }

  lemma MoveKeepsHistory(w: World, move: BrokerMove)
    requires HistoryOk(w.broker, w.everOpen)
    ensures var w' := Moved(w, move);
            HistoryOk(w'.broker, w'.everOpen) && w.everOpen <= w'.everOpen && w'.store == w.store &&
              w'.broker.calls == w.broker.calls
  {
    if move.ForeignClose? { WithoutTicketKeepsHistory(w.broker, w.everOpen, move.ticket); }
  }

  /** The calls a step adds are those of a thread standing at order_send. */
  lemma StepCallAnswers(w: World, tid: nat, th: Thread, env: Env)
    requires ThreadAnswers(w.store.rows, w.everOpen, th) && RightPc(th.job, th.pc)
    ensures var calls' := BrokerAfter(w, tid, th, env).calls;
            calls' == w.broker.calls ||
            (th.pc.SendOrder? && calls' == w.broker.calls + [calls'[|w.broker.calls|]] &&
             CallAnswers(w.store.rows, w.everOpen, calls'[|w.broker.calls|]))
  {
  }

  lemma CallStays(rows: Rows, rows': Rows, everOpen: set<BackendPosition>, everOpen': set<BackendPosition>,
                  call: SendCall)
    requires CallAnswers(rows, everOpen, call) && RowsEvolve(rows, rows') && everOpen <= everOpen'
    ensures CallAnswers(rows', everOpen', call)
  {
    MoreCarriesOut(everOpen, everOpen', rows[call.clientOrderId].requestHash, call.request);
  }

  lemma RowStays(everOpen: set<BackendPosition>, everOpen': set<BackendPosition>, id: string, row: Row)
    requires everOpen <= everOpen' && RowAnswers(everOpen, id, row)
    ensures RowAnswers(everOpen', id, row)
  {
    if row.state == Filled { MoreAnswers(everOpen, everOpen', id, row.requestHash, row.payload.value); }
  }

  lemma StepRowsAnswer(w: World, tid: nat, th: Thread, env: Env, id: string)
    requires ThreadAnswers(w.store.rows, w.everOpen, th) && ThreadOk(w, tid, th) && id in RowsAfter(w, th, env)
    requires forall i :: i in w.store.rows ==> RowAnswers(w.everOpen, i, w.store.rows[i])
    ensures RowAnswers(w.everOpen, id, RowsAfter(w, th, env)[id])
  {
    hide RowsAfter, RowAnswers, ThreadAnswers, ThreadOk;
    if id == JobId(th.job) { OwnRowAnswers(w, tid, th, env); } else { EffectIsLocal(w, tid, th, env, id); }
  }

  lemma StepAnswers(s: Sys, tid: nat, env: Env)
    requires Inv(s) && AllAnswer(s) && tid in s.threads
    ensures AllAnswer(StepThread(s, tid, env))
  {
    hide NextPc, RowsAfter, BrokerAfter, EverOpenAfter, RowAnswers, CallAnswers, HistoryOk, ThreadOk;
    var w, th, s' := s.world, s.threads[tid], StepThread(s, tid, env);
    var rows', ever' := s'.world.store.rows, s'.world.everOpen;
    assert ThreadOk(w, tid, th);
    assert RightPc(th.job, th.pc) by { OkIsRight(w, tid, th); }
    TableEvolves(w, tid, th, env);
    OwnThreadAnswers(w, tid, th, env);
    SendKeepsHistory(w, tid, th, env);
    StepCallAnswers(w, tid, th, env);
    forall id | id in rows' ensures RowAnswers(ever', id, rows'[id]) {
      StepRowsAnswer(w, tid, th, env, id);
      RowStays(w.everOpen, ever', id, rows'[id]);
    }
    forall i | 0 <= i < |s'.world.broker.calls| ensures CallAnswers(rows', ever', s'.world.broker.calls[i]) {
      CallStays(w.store.rows, rows', w.everOpen, ever', s'.world.broker.calls[i]);
    }
    forall other | other in s'.threads ensures ThreadAnswers(rows', ever', s'.threads[other]) {
      if other != tid { ThreadStays(w.store.rows, rows', w.everOpen, s.threads[other]); }
      MoreHistory(rows', w.everOpen, ever', s'.threads[other]);
    }
  }

  lemma OkIsRight(w: World, tid: nat, th: Thread)
    requires ThreadOk(w, tid, th)
    ensures RightPc(th.job, th.pc)
  {
  }

  lemma TableEvolves(w: World, tid: nat, th: Thread, env: Env)
    requires RowsOk(w.store.rows, w.submitter) && ThreadOk(w, tid, th)
    ensures RowsEvolve(w.store.rows, RowsAfter(w, th, env))
  {
    EffectOnTable(w, tid, th, env);
  }

  lemma ThreadStays(rows: Rows, rows': Rows, everOpen: set<BackendPosition>, th: Thread)
    requires ThreadAnswers(rows, everOpen, th) && RowsEvolve(rows, rows')
    ensures ThreadAnswers(rows', everOpen, th)
  {
    hide OrderFits, Answers, FoundFits;
  }

  lemma OtherActionsAnswer(s: Sys, action: Action)
    requires AllAnswer(s) && !action.Step?
    ensures AllAnswer(Exec(s, action))
  {
    hide StepThread, RowAnswers, CallAnswers, HistoryOk, Moved;
    var s' := Exec(s, action);
    var rows, ever, ever' := s.world.store.rows, s.world.everOpen, s'.world.everOpen;
    if action.External? { MoveKeepsHistory(s.world, action.move); }
    assert s'.world.store.rows == rows && s'.world.broker.calls == s.world.broker.calls && ever <= ever';
    forall id | id in rows ensures RowAnswers(ever', id, rows[id]) { RowStays(ever, ever', id, rows[id]); }
    forall i | 0 <= i < |s.world.broker.calls| ensures CallAnswers(rows, ever', s.world.broker.calls[i]) {
      CallStays(rows, rows, ever, ever', s.world.broker.calls[i]);
    }
    forall tid | tid in s'.threads ensures ThreadAnswers(rows, ever', s'.threads[tid]) {
      if tid in s.threads && s'.threads[tid] == s.threads[tid] {
        MoreHistory(rows, ever, ever', s.threads[tid]);
      } else {
        AtRestAnswers(rows, ever', s'.threads[tid]);
      }
    }
  }

  lemma AtRestAnswers(rows: Rows, everOpen: set<BackendPosition>, th: Thread)
    requires th.pc == FirstPc(th.job) || th.pc == Done(Raised(Aborted))
    ensures ThreadAnswers(rows, everOpen, th)
  {
  }

  lemma {:induction false} RunAnswers(actions: seq<Action>)
    ensures AllAnswer(Run(Initial(), actions))
  {
    hide Inv, AllAnswer, StepThread;
    if actions == [] {
      InitialAnswers();
    } else {
      var init, action := actions[..|actions| - 1], actions[|actions| - 1];
      RunAnswers(init);
      Reachable(init);
      if action.Step? && Enabled(Run(Initial(), init), action) {
        StepAnswers(Run(Initial(), init), action.thread, action.env);
      } else if !action.Step? {
        OtherActionsAnswer(Run(Initial(), init), action);
      }
    }
  }

  lemma InitialAnswers()
    ensures AllAnswer(Initial())
  {
  }

  // ------------------------------------------------------------------ in every run

  /** Every order_send carries out the request of its own row: an open asks for that symbol, side and
      volume; a close names exactly the ticket it was asked to close, and deals the whole volume of that
      position on the opposite side. */
  lemma {:induction false} EveryCallCarriesOut(actions: seq<Action>, i: nat)
    requires i < |Run(Initial(), actions).world.broker.calls|
    ensures var w := Run(Initial(), actions).world;
            CallAnswers(w.store.rows, w.everOpen, w.broker.calls[i])
  {
    hide Run;
    RunAnswers(actions);
  }

  /** Tickets identify positions over the whole run, so the position a close names is unique. */
  lemma {:induction false} TicketsIdentify(actions: seq<Action>, p: BackendPosition, q: BackendPosition)
    requires var ever := Run(Initial(), actions).world.everOpen; p in ever && q in ever && p.ticket == q.ticket
    ensures p == q
  {
    hide Run;
    RunAnswers(actions);
  }

  /** In every run a FILLED row holds the result of its own request: id, volume or position as asked for,
      identifiers equal to its columns, and slippage measured against the side of the quote it was sent at,
      which for a close is the side opposite to the position's. */
  lemma {:induction false} FilledRowsAnswer(actions: seq<Action>, id: string)
    requires CanTransition(Run(Initial(), actions).world.store.rows, id, Filled)
    ensures var w := Run(Initial(), actions).world; RowAnswers(w.everOpen, id, w.store.rows[id])
  {
    hide Run;
    RunAnswers(actions);
  }

  /** In every run a request that returns a result returns one that answers its own fields, replayed or not. */
  lemma {:induction false} ResultsAnswer(actions: seq<Action>, tid: nat)
    requires var s := Run(Initial(), actions);
             tid in s.threads && IsRequest(s.threads[tid].job) && s.threads[tid].pc.Done? &&
               s.threads[tid].pc.outcome.Returned?
    ensures var s := Run(Initial(), actions);
            var id := s.threads[tid].job.id;
            Answers(s.world.everOpen, id, PrintOf(s.threads[tid].job), s.threads[tid].pc.outcome.payload)
  {
    hide Run;
    var s := Run(Initial(), actions);
    RunAnswers(actions);
    Reachable(actions);
    assert ThreadOk(s.world, tid, s.threads[tid]);
    assert RowAnswers(s.world.everOpen, s.threads[tid].job.id, s.world.store.rows[s.threads[tid].job.id]);
  }
}
