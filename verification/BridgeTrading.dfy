/** The request programs as they are written: early exits, one call after another, over one store
    and one backend that other threads keep changing between any two calls. Each method is proved to
    end where the schedule of its surroundings drives the protocol, so every theorem about runs holds
    of it, and nothing but the protocol's own steps can bring it there. */
module BridgeTrading {
  import opened Common
  import opened BridgeTable
  import opened BridgeProtocol
  import opened BridgeSafety
  import opened BridgeTheorems
  import opened BridgeDriver
  import opened BridgePayload
  import opened BridgeGates
  import opened BridgeReport
  import opened BridgeBroker

  /** The in-memory backend: positions, ticket counters and the current market. */
  class Backend {
    var positions: seq<BackendPosition>
    var nextTicket: nat
    var nextDeal: nat
    var calls: seq<SendCall>
    var market: Market

    constructor (market: Market)
      ensures View() == FRESH_BROKER && this.market == market
    {
      positions, nextTicket, nextDeal, calls := [], 1000, 5000, [];
      this.market := market;
    }

    function View(): Broker
      reads this
    {
      Broker(positions, nextTicket, nextDeal, calls)
    }

    /** An executed order opens a position or removes the one it closes. */
    method OrderSend(id: string, thread: nat, opens: bool, request: TradeRequest, at: int)
      returns (answer: BrokerAnswer)
      modifies this
      ensures answer == BrokerAnswer(old(market).reply, old(nextTicket), old(nextDeal), at) && market == old(market)
      ensures View() == Sent(old(View()), SendCall(id, thread, opens, request, answer))
    {
      answer := BrokerAnswer(market.reply, nextTicket, nextDeal, at);
      calls := calls + [SendCall(id, thread, opens, request, answer)];
      if market.reply.executed {
        nextTicket, nextDeal := nextTicket + 1, nextDeal + 1;
        match request.positionTicket
        case None =>
          positions := positions +
            [BackendPosition(answer.order, request.symbol, request.buy, request.volume, Some(request.comment))];
        case Some(ticket) =>
          positions := Remaining(positions, ticket);
      }
    }

    static method Remaining(positions: seq<BackendPosition>, ticket: nat) returns (kept: seq<BackendPosition>)
      ensures kept == WithoutTicket(positions, ticket)
    {
      kept := [];
      for i := 0 to |positions|
        invariant kept == WithoutTicket(positions[..i], ticket)
      {
        assert positions[..i + 1][..i] == positions[..i];
        if positions[i].ticket != ticket {
          kept := kept + [positions[i]];
        }
      }
      assert positions[..|positions|] == positions;
    }
  }

  /** One request or operator thread at work on the shared store and backend. `sys` is the state of the whole
      process: this thread and all the others. */
  class BridgeThread {
    const store: BridgeStore
    const backend: Backend
    const tid: nat
    const schedule: nat -> Turn
    var turn: nat
    var now: int
    var sys: Sys

    constructor (store: BridgeStore, backend: Backend, sys: Sys, job: Job, schedule: nat -> Turn)
      requires store.View() == sys.world.store && backend.View() == sys.world.broker && sys.phase.Serving?
      ensures Valid() && this.store == store && this.backend == backend && this.sys == Exec(sys, Spawn(job))
      ensures At(job, FirstPc(job))
    {
      this.store, this.backend, this.schedule := store, backend, schedule;
      this.tid, this.turn, this.now, this.sys := sys.nextThread, 0, 0, Exec(sys, Spawn(job));
    }

    ghost predicate Valid()
      reads this, store, backend
    {
      && store.View() == sys.world.store && backend.View() == sys.world.broker
      && tid in sys.threads && tid < sys.nextThread
    }

    ghost predicate At(job: Job, pc: Pc)
      reads this
    {
      tid in sys.threads && sys.threads[tid] == Thread(job, pc)
    }

    /** From state `s`, at turn `from`, the schedule has driven this thread to where it is now. */
    ghost predicate Drove(s: Sys, from: nat)
      reads this
    {
      from <= turn && sys == Driven(s, tid, schedule, from, turn)
    }

    /** The world this thread meets, and the terminal it sees, when it takes its step number k from `from` on. */
    ghost function Met(s: Sys, from: nat, k: nat): World {
      Others(Driven(s, tid, schedule, from, from + k), tid, schedule(from + k)).world
    }

    function Seen(from: nat, k: nat): Market {
      schedule(from + k).market
    }

    lemma MetOnward(s: Sys, from: nat, mid: Sys, at: nat)
      requires from <= at && mid == Driven(s, tid, schedule, from, at)
      ensures forall k: nat :: Met(mid, at, k) == Met(s, from, at - from + k)
    {
      forall k: nat ensures Met(mid, at, k) == Met(s, from, at - from + k) {
        DrivenAdds(s, tid, schedule, from, at, at + k);
      }
    }

    lemma Onward(s: Sys, from: nat, mid: Sys, at: nat)
      requires from <= at && mid == Driven(s, tid, schedule, from, at) && Drove(mid, at)
      ensures Drove(s, from)
    {
      DrivenAdds(s, tid, schedule, from, at, turn);
    }

    // What the requests answer, in terms of what they meet and see at each of their steps.

    predicate AccountOk(from: nat) {
      !Seen(from, 0).raises && Seen(from, 0).account.demo && Seen(from, 1).connected
    }

    predicate PermissionsOk(from: nat) {
      && !Seen(from, 0).raises && Seen(from, 0).terminal.connected && Seen(from, 0).terminal.tradeAllowed
      && !Seen(from, 1).raises && Seen(from, 1).account.tradeAllowed && Seen(from, 1).account.tradeExpert
    }

    /** Symbol, quote and order_check, at their three steps. */
    predicate QuoteAndOrderChecks(from: nat, job: Job, symbol: string, check: Check<Prepared>) {
      var checkAt := if job.OpenJob? then 2 else 3;
      var info, market := Seen(from, 0), Seen(from, checkAt);
      if info.raises then check == Failed
      else if symbol !in info.symbols ||
        (job.OpenJob? && !(info.symbols[symbol].visible && info.symbols[symbol].tradeEnabled))
      then check == Rejection(SymbolNotTradable)
      else if job.OpenJob? && job.volume != info.symbols[symbol].volumeMin then check == Rejection(InvalidVolume)
      else if Seen(from, 1).raises then check == Failed
      else if !FreshTick(Seen(from, 1), symbol) then check == Rejection(StaleQuote)
      else if market.raises then check == Failed
      else if !market.checkPasses then check == Rejection(OrderCheckFailed)
      else check.Passed? && QuotedFrom(Seen(from, 1), symbol, check.value.bid, check.value.ask)
    }

    /** The gates of an open: the first one that fails decides. */
    ghost predicate GateChecks(s: Sys, from: nat, job: Job, gate: Check<()>)
      requires job.OpenJob?
    {
      if !PermissionsOk(from) then gate == Rejection(AutotradingDisabled)
      else if Met(s, from, 2).store.killActive then gate == Rejection(KillSwitchActive)
      else if Met(s, from, 3).store.reconciliation != Some(ReconciliationOk) then gate == Rejection(ReconciliationNotOk)
      else if Seen(from, 4).raises then gate == Failed
      else if |Met(s, from, 4).broker.positions| >= job.maxPositions then gate == Rejection(TooManyPositions)
      else gate == Passed(())
    }

    /** The business checks of an open: its gates, then symbol, quote and order_check. */
    ghost predicate OpenChecks(s: Sys, from: nat, job: Job, check: Check<Prepared>)
      requires job.OpenJob?
    {
      || (check.Rejection? && GateChecks(s, from, job, Rejection(check.code)))
      || (check.Failed? && GateChecks(s, from, job, Failed))
      || (GateChecks(s, from, job, Passed(())) && QuoteAndOrderChecks(from + 5, job, job.symbol, check))
    }

    /** The business checks of a close: neither kill switch nor reconciliation is among them. */
    ghost predicate CloseChecks(s: Sys, from: nat, job: Job, check: Check<Prepared>)
      requires job.CloseJob?
    {
      var positions := Met(s, from, 2).broker.positions;
      if !PermissionsOk(from) then check == Rejection(AutotradingDisabled)
      else if Seen(from, 2).raises then check == Failed
      else if forall p :: p in positions ==> p.ticket != job.positionId then check == Rejection(PositionNotFound)
      else
        exists p ::
          p in positions && p.ticket == job.positionId && QuoteAndOrderChecks(from + 3, job, p.symbol, check)
    }

    /** From the checks on: a rejection is recorded, an order is submitted and sent once, if the row is
        still RECEIVED. */
    ghost predicate FinishAnswers(s: Sys, from: nat, job: Job, check: Check<Prepared>, outcome: Outcome)
      requires IsRequest(job)
    {
      match check
      case Failed => outcome == Raised(BackendFailed)
      case Rejection(code) => Refused(outcome, code)
      case Passed(order) =>
        if !CanTransition(Met(s, from, 0).store.rows, job.id, Received) then outcome == Raised(ReconciliationRequired)
        else SentAnswers(Seen(from, 2).reply, order, outcome)
    }

    /** place_demo_order as a whole: the first condition that fails decides, and otherwise the order is sent. */
    ghost predicate OpenAnswers(s: Sys, from: nat, job: Job, outcome: Outcome)
      requires job.OpenJob?
    {
      if !AccountOk(from) then outcome == Raised(NotDemo)
      else if !RowAnswersAlone(Met(s, from, 3).store.rows, job, None) then
        RowAnswersAlone(Met(s, from, 3).store.rows, job, Some(outcome))
      else exists check :: OpenEnds(s, from, job, check, outcome)
    }

    ghost predicate OpenEnds(s: Sys, from: nat, job: Job, check: Check<Prepared>, outcome: Outcome)
      requires job.OpenJob?
    {
      && OpenChecks(Driven(s, tid, schedule, from, from + 4), from + 4, job, check)
      && FinishAnswers(Driven(s, tid, schedule, from, from + 13), from + 13, job, check, outcome)
    }

    ghost predicate CloseAnswers(s: Sys, from: nat, job: Job, outcome: Outcome)
      requires job.CloseJob?
    {
      if !AccountOk(from) then outcome == Raised(NotDemo)
      else if !RowAnswersAlone(Met(s, from, 3).store.rows, job, None) then
        RowAnswersAlone(Met(s, from, 3).store.rows, job, Some(outcome))
      else exists check :: CloseEnds(s, from, job, check, outcome)
    }

    ghost predicate CloseEnds(s: Sys, from: nat, job: Job, check: Check<Prepared>, outcome: Outcome)
      requires job.CloseJob?
    {
      && CloseChecks(Driven(s, tid, schedule, from, from + 4), from + 4, job, check)
      && FinishAnswers(Driven(s, tid, schedule, from, from + 12), from + 12, job, check, outcome)
    }

    /** The symbol, the quote and order_check are all right; an open needs more of its symbol than a close. */
    predicate QuoteStands(from: nat, job: Job, symbol: string) {
      var info, checked := Seen(from, 0), Seen(from, if job.OpenJob? then 2 else 3);
      && !info.raises && symbol in info.symbols
      && (job.OpenJob? ==> info.symbols[symbol].visible && info.symbols[symbol].tradeEnabled &&
                           job.volume == info.symbols[symbol].volumeMin)
      && !Seen(from, 1).raises && FreshTick(Seen(from, 1), symbol) && !checked.raises && checked.checkPasses
    }

    lemma QuotePassesExactlyWhen(from: nat, job: Job, symbol: string, check: Check<Prepared>)
      requires QuoteAndOrderChecks(from, job, symbol, check)
      ensures check.Passed? <==> QuoteStands(from, job, symbol)
    {
      hide FreshTick, QuotedFrom;
    }

    /** Every condition under which place_demo_order comes to call order_send: all of them, and nothing else. */
    ghost predicate OpenIsSent(s: Sys, from: nat, job: Job)
      requires job.OpenJob?
    {
      && AccountOk(from) && RowAnswersAlone(Met(s, from, 3).store.rows, job, None) && PermissionsOk(from + 4)
      && !Met(s, from, 6).store.killActive && Met(s, from, 7).store.reconciliation == Some(ReconciliationOk)
      && !Seen(from, 8).raises && |Met(s, from, 8).broker.positions| < job.maxPositions
      && QuoteStands(from + 9, job, job.symbol)
      && CanTransition(Met(s, from, 13).store.rows, job.id, Received)
    }

    /** And close_demo_position: p is the position it was asked to close, as it meets it. */
    ghost predicate CloseIsSent(s: Sys, from: nat, job: Job, p: BackendPosition)
      requires job.CloseJob?
    {
      && AccountOk(from) && RowAnswersAlone(Met(s, from, 3).store.rows, job, None) && PermissionsOk(from + 4)
      && !Seen(from, 6).raises && p in Met(s, from, 6).broker.positions && p.ticket == job.positionId
      && QuoteStands(from + 7, job, p.symbol)
      && CanTransition(Met(s, from, 12).store.rows, job.id, Received)
    }

    lemma SentOpenExactlyWhen(s: Sys, from: nat, job: Job, outcome: Outcome)
      requires job.OpenJob? && OpenAnswers(s, from, job, outcome)
      ensures WasSent(outcome) <==> OpenIsSent(s, from, job)
    {
      var checks, finish := Driven(s, tid, schedule, from, from + 4), Driven(s, tid, schedule, from, from + 13);
      MetOnward(s, from, checks, from + 4);
      MetOnward(s, from, finish, from + 13);
      hide Driven, Met, RowAnswersAlone, CanTransition, PermissionsOk, AccountOk, FinishAnswers, QuoteAndOrderChecks,
        QuoteStands;
      if AccountOk(from) && RowAnswersAlone(Met(s, from, 3).store.rows, job, None) {
        var check :| OpenChecks(checks, from + 4, job, check) && FinishAnswers(finish, from + 13, job, check, outcome);
        OpenPassesExactlyWhen(checks, from + 4, job, check);
        FinishSendsExactlyWhen(finish, from + 13, job, check, outcome);
      } else {
        AnsweredAloneIsNotSent(Met(s, from, 3).store.rows, job, outcome);
      }
    }

    lemma OpenPassesExactlyWhen(s: Sys, from: nat, job: Job, check: Check<Prepared>)
      requires job.OpenJob? && OpenChecks(s, from, job, check)
      ensures check.Passed? <==>
                && PermissionsOk(from) && !Met(s, from, 2).store.killActive
                && Met(s, from, 3).store.reconciliation == Some(ReconciliationOk)
                && !Seen(from, 4).raises && |Met(s, from, 4).broker.positions| < job.maxPositions
                && QuoteStands(from + 5, job, job.symbol)
    {
      hide Met, PermissionsOk, QuoteAndOrderChecks, QuoteStands;
      if QuoteAndOrderChecks(from + 5, job, job.symbol, check) {
        QuotePassesExactlyWhen(from + 5, job, job.symbol, check);
      }
    }

    /** Whatever the others do, the positions met have tickets of their own. */
    lemma TicketsDifferWhenMet(s: Sys, from: nat, k: nat)
      requires Inv(s) && BooksOk(s)
      ensures TicketsDiffer(Met(s, from, k).broker.positions)
    {
      var actions := DrivenIsRun(s, tid, schedule, from, from + k);
      var s', others := Run(s, actions), ForeignOnly(schedule(from + k).others, tid);
      RunKeepsInv(s, actions);
      BooksKept(s, actions);
      BooksKept(s', others);
      assert Met(s, from, k) == Run(s', others).world;
      hide Inv, Run, Driven;
    }

    /** For tickets that name one position each, as they do in every run. */
    lemma SentCloseExactlyWhen(s: Sys, from: nat, job: Job, outcome: Outcome)
      requires job.CloseJob? && CloseAnswers(s, from, job, outcome)
      requires TicketsDiffer(Met(s, from, 6).broker.positions)
      ensures WasSent(outcome) <==> exists p :: CloseIsSent(s, from, job, p)
    {
      var checks, finish := Driven(s, tid, schedule, from, from + 4), Driven(s, tid, schedule, from, from + 12);
      MetOnward(s, from, checks, from + 4);
      MetOnward(s, from, finish, from + 12);
      hide Driven, Met, RowAnswersAlone, CanTransition, PermissionsOk, AccountOk, FinishAnswers, QuoteAndOrderChecks,
        QuoteStands;
      if AccountOk(from) && RowAnswersAlone(Met(s, from, 3).store.rows, job, None) {
        var check :| CloseChecks(checks, from + 4, job, check) && FinishAnswers(finish, from + 12, job, check, outcome);
        FinishSendsExactlyWhen(finish, from + 12, job, check, outcome);
        assert Met(checks, from + 4, 2) == Met(s, from, 6) && Met(finish, from + 12, 0) == Met(s, from, 12);
        if p :| p in Met(s, from, 6).broker.positions && p.ticket == job.positionId {
          ClosePassesExactlyWhen(checks, from + 4, job, p, check);
          assert WasSent(outcome) ==> CloseIsSent(s, from, job, p);
        }
      } else {
        AnsweredAloneIsNotSent(Met(s, from, 3).store.rows, job, outcome);
      }
    }

    lemma ClosePassesExactlyWhen(s: Sys, from: nat, job: Job, p: BackendPosition, check: Check<Prepared>)
      requires job.CloseJob? && CloseChecks(s, from, job, check)
      requires TicketsDiffer(Met(s, from, 2).broker.positions)
      requires p in Met(s, from, 2).broker.positions && p.ticket == job.positionId
      ensures check.Passed? <==> PermissionsOk(from) && !Seen(from, 2).raises && QuoteStands(from + 3, job, p.symbol)
    {
      hide Met, PermissionsOk, QuoteAndOrderChecks, QuoteStands;
      if QuoteAndOrderChecks(from + 3, job, p.symbol, check) {
        QuotePassesExactlyWhen(from + 3, job, p.symbol, check);
      }
    }

    lemma FinishSendsExactlyWhen(s: Sys, from: nat, job: Job, check: Check<Prepared>, outcome: Outcome)
      requires IsRequest(job) && FinishAnswers(s, from, job, check, outcome)
      ensures WasSent(outcome) <==> check.Passed? && CanTransition(Met(s, from, 0).store.rows, job.id, Received)
    {
      hide Met, CanTransition, Quotes;
    }

    lemma AnsweredAloneIsNotSent(rows: Rows, job: Job, outcome: Outcome)
      requires IsRequest(job) && (outcome == Raised(NotDemo) || RowAnswersAlone(rows, job, Some(outcome)))
      ensures !WasSent(outcome)
    {
    }

    /** Every condition under which a manual resolution goes through: nowhere is there a sign that the order
        may have been submitted. */
    ghost predicate ResolutionStands(s: Sys, from: nat, job: Job)
      requires job.ResolveJob?
    {
      NoEvidence(s, from, job) && CanTransition(Met(s, from, 4).store.rows, job.id, Received)
    }

    /** Neither the row, nor the journal, nor a live position, nor a working order shows anything. */
    ghost predicate NoEvidence(s: Sys, from: nat, job: Job)
      requires job.ResolveJob?
    {
      NothingStored(s, from, job) && NothingLive(Driven(s, tid, schedule, from, from + 2), from + 2, job)
    }

    ghost predicate NothingStored(s: Sys, from: nat, job: Job)
      requires job.ResolveJob?
    {
      NoIdentifiers(Met(s, from, 0).store.rows, job.id) && !HasSubmissionEvidence(Met(s, from, 1).store.journal, job.id)
    }

    ghost predicate NothingLive(s: Sys, from: nat, job: Job)
      requires job.ResolveJob?
    {
      && !Seen(from, 0).raises && NoTag(Met(s, from, 0).broker.positions, job.id)
      && !Seen(from, 1).raises && job.id !in Seen(from, 1).orders
    }

    ghost predicate Verdict(s: Sys, from: nat, state: ReconciliationState) {
      state == if Seen(from, 0).raises || Seen(from, 1).raises then Unknown
               else if Incomplete(Met(s, from, 2).store.rows) then Mismatch else ReconciliationOk
    }

    lemma OpenIsAnsweredAlone(s: Sys, from: nat, job: Job, outcome: Outcome)
      requires job.OpenJob?
      requires if !AccountOk(from) then outcome == Raised(NotDemo)
               else RowAnswersAlone(Met(s, from, 3).store.rows, job, Some(outcome))
      ensures OpenAnswers(s, from, job, outcome)
    {
      hide Met;
    }

    lemma OpenIsAnswered(s: Sys, from: nat, mid: Sys, at: nat, job: Job, check: Check<Prepared>, outcome: Outcome)
      requires job.OpenJob? && AccountOk(from) && RowAnswersAlone(Met(s, from, 3).store.rows, job, None)
      requires OpenChecks(Driven(s, tid, schedule, from, from + 4), from + 4, job, check)
      requires check.Passed? ==> at == from + 13
      requires mid == Driven(s, tid, schedule, from, at) && FinishAnswers(mid, at, job, check, outcome)
      ensures OpenAnswers(s, from, job, outcome)
    {
      hide Met, OpenChecks;
      assert OpenEnds(s, from, job, check, outcome);
    }

    lemma CloseIsAnsweredAlone(s: Sys, from: nat, job: Job, outcome: Outcome)
      requires job.CloseJob?
      requires if !AccountOk(from) then outcome == Raised(NotDemo)
               else RowAnswersAlone(Met(s, from, 3).store.rows, job, Some(outcome))
      ensures CloseAnswers(s, from, job, outcome)
    {
      hide Met;
    }

    lemma CloseIsAnswered(s: Sys, from: nat, mid: Sys, at: nat, job: Job, check: Check<Prepared>, outcome: Outcome)
      requires job.CloseJob? && AccountOk(from) && RowAnswersAlone(Met(s, from, 3).store.rows, job, None)
      requires CloseChecks(Driven(s, tid, schedule, from, from + 4), from + 4, job, check)
      requires check.Passed? ==> at == from + 12
      requires mid == Driven(s, tid, schedule, from, at) && FinishAnswers(mid, at, job, check, outcome)
      ensures CloseAnswers(s, from, job, outcome)
    {
      hide Met, CloseChecks;
      assert CloseEnds(s, from, job, check, outcome);
    }

    lemma KeepsInv(s: Sys, from: nat)
      requires Drove(s, from)
      ensures Inv(s) ==> Inv(sys) && (tid in sys.threads ==> ThreadOk(sys.world, tid, sys.threads[tid]))
    {
      if Inv(s) { DrivenKeepsInv(s, tid, schedule, from, turn); }
    }

    /** A thread that did not come to call order_send has made no call. */
    lemma KeepsCallers(s: Sys, from: nat, outcome: Outcome)
      requires Drove(s, from) && tid in sys.threads && sys.threads[tid].pc == Done(outcome)
      requires outcome != Raised(Aborted) && !WasSent(outcome)
      ensures Inv(s) && CallersOk(s) ==> NoCallOf(sys.world.broker.calls, tid)
    {
      if Inv(s) && CallersOk(s) {
        var actions := DrivenIsRun(s, tid, schedule, from, turn);
        hide Inv, Driven, Run;
        RunKeepsCallers(s, actions);
        forall call | call in sys.world.broker.calls ensures call.thread != tid {
          var i :| 0 <= i < |sys.world.broker.calls| && sys.world.broker.calls[i] == call;
          assert CallerOk(sys, sys.world.broker.calls[i]);
        }
      }
    }

    /** The other threads take their part of the turn; this one stays where it is. */
    method Interleave()
      requires Valid()
      modifies this`sys, this`now, store, backend
      ensures Valid() && sys == Others(old(sys), tid, schedule(turn)) && sys.threads[tid] == old(sys.threads[tid])
      ensures now == schedule(turn).now && backend.market == schedule(turn).market
    {
      var t := schedule(turn);
      var others := ForeignOnly(t.others, tid);
      ForeignKeepsThread(sys, t.others, tid);
      now, sys := t.now, Run(sys, others);
      store.rows, store.journal := sys.world.store.rows, sys.world.store.journal;
      store.killActive, store.reconciliation := sys.world.store.killActive, sys.world.store.reconciliation;
      backend.positions, backend.nextTicket := sys.world.broker.positions, sys.world.broker.nextTicket;
      backend.nextDeal, backend.calls := sys.world.broker.nextDeal, sys.world.broker.calls;
      backend.market := t.market;
    }

    /** The step just taken on the store or the backend is the protocol's step in this turn's market. */
    method Took(ghost was: Sys)
      requires sys == Others(was, tid, schedule(turn))
      requires tid in sys.threads && tid < sys.nextThread && !sys.threads[tid].pc.Done?
      requires store.View() == Effect(sys.world, tid, sys.threads[tid],
                                      Observed(sys.threads[tid], schedule(turn))).store
      requires backend.View() == Effect(sys.world, tid, sys.threads[tid],
                                        Observed(sys.threads[tid], schedule(turn))).broker
      modifies this`sys, this`turn
      ensures Valid() && turn == old(turn) + 1 && Drove(was, old(turn))
      ensures sys == StepThread(old(sys), tid, Observed(old(sys).threads[tid], schedule(old(turn))))
    {
      OneTurn(was, tid, schedule, turn);
      sys, turn := StepThread(sys, tid, Observed(sys.threads[tid], schedule(turn))), turn + 1;
    }

    method Journal(job: Job, pc: Pc, event: Event, next: Pc)
      requires Valid() && At(job, pc) && IsRequest(job) && JournalEvent(pc) == Some(event)
      requires next == AfterJournal(job, pc)
      modifies this`sys, this`turn, this`now, store, backend
      ensures Valid() && Drove(old(sys), old(turn)) && At(job, next) && turn == old(turn) + 1
      ensures |store.journal| > 0 && store.journal[|store.journal| - 1] == Entry(job.id, event)
      ensures sys == TurnOn(old(sys), tid, schedule(old(turn)))
    {
      hide Run, TurnOn, Exec;
      Interleave();
      JournalStep(sys.world, tid, job, pc, Observed(sys.threads[tid], schedule(turn)));
      hide Effect, NextPc, AfterJournal, Observed, JournalEvent;
      store.AppendJournal(job.id, event);
      Took(old(sys));
      OneTurn(old(sys), tid, schedule, old(turn));
    }

    method ReadDemoFlag(job: Job) returns (ok: bool)
      requires Valid() && IsRequest(job) && At(job, ReadAccount)
      modifies this`sys, this`turn, this`now, store, backend
      ensures Valid() && Drove(old(sys), old(turn))
      ensures At(job, if ok then ReadConnection else Done(Raised(NotDemo)))
      ensures ok == (!Seen(old(turn), 0).raises && Seen(old(turn), 0).account.demo) && turn == old(turn) + 1
    {
      hide Run, TurnOn, Exec;
      Interleave();
      var raises, demo := backend.market.raises, backend.market.account.demo;
      ok := !raises && demo;
      Took(old(sys));
    }

    method ReadConnected(job: Job) returns (ok: bool)
      requires Valid() && IsRequest(job) && At(job, ReadConnection)
      modifies this`sys, this`turn, this`now, store, backend
      ensures Valid() && Drove(old(sys), old(turn))
      ensures At(job, if ok then JournalBegin else Done(Raised(NotDemo)))
      ensures ok == Seen(old(turn), 0).connected && turn == old(turn) + 1
    {
      hide Run, TurnOn, Exec;
      Interleave();
      ok := backend.market.connected;
      Took(old(sys));
    }

    /** _require_fresh_demo_account: a fresh account_info, then the connection. */
    method RequireFreshDemoAccount(job: Job) returns (ok: bool)
      requires Valid() && IsRequest(job) && At(job, ReadAccount)
      modifies this`sys, this`turn, this`now, store, backend
      ensures Valid() && Drove(old(sys), old(turn))
      ensures At(job, if ok then JournalBegin else Done(Raised(NotDemo)))
      ensures ok == AccountOk(old(turn)) && (ok ==> turn == old(turn) + 2)
    {
      hide Run, Exec, TurnOn, Observed;
      ok := ReadDemoFlag(job);
      if ok {
        ghost var mid, at := sys, turn;
        ok := ReadConnected(job);
        Onward(old(sys), old(turn), mid, at);
      }
    }

    method BeginIdempotentRequest(job: Job) returns (outcome: BeginOutcome)
      requires Valid() && IsRequest(job) && At(job, BeginRow)
      modifies this`sys, this`turn, this`now, store, backend
      ensures Valid() && Drove(old(sys), old(turn)) && At(job, AfterBegin(outcome))
      ensures outcome == BeginResult(Met(old(sys), old(turn), 0).store.rows, job.id, PrintOf(job),
                                     schedule(old(turn)).now)
      ensures turn == old(turn) + 1
    {
      hide Run, TurnOn, Exec;
      Interleave();
      outcome := store.BeginIdempotentRequest(job.id, PrintOf(job), now);
      Took(old(sys));
    }

    method ReadTerminalInfo(job: Job) returns (raises: bool, ok: bool)
      requires Valid() && IsRequest(job) && At(job, ReadTerminal)
      modifies this`sys, this`turn, this`now, store, backend
      ensures Valid() && Drove(old(sys), old(turn))
      ensures At(job, if raises then RejectRow(AutotradingDisabled) else ReadPermissions(ok))
      ensures turn == old(turn) + 1
      ensures raises == schedule(old(turn)).market.raises && ok == TerminalOk(schedule(old(turn)).market)
    {
      hide Run, TurnOn, Exec;
      Interleave();
      raises, ok := backend.market.raises, backend.market.terminal.connected && backend.market.terminal.tradeAllowed;
      Took(old(sys));
    }

    method ReadAccountFlags(job: Job, terminalOk: bool) returns (ok: bool)
      requires Valid() && IsRequest(job) && At(job, ReadPermissions(terminalOk))
      modifies this`sys, this`turn, this`now, store, backend
      ensures Valid() && Drove(old(sys), old(turn))
      ensures At(job, if !ok then RejectRow(AutotradingDisabled) else if job.OpenJob? then ReadKillSwitch
                 else ReadPositions)
      ensures ok == (!schedule(old(turn)).market.raises && terminalOk && FlagsOk(schedule(old(turn)).market))
      ensures turn == old(turn) + 1
    {
      hide Run, TurnOn, Exec;
      Interleave();
      var raises := backend.market.raises;
      var allowed := backend.market.account.tradeAllowed && backend.market.account.tradeExpert;
      ok := !raises && terminalOk && allowed;
      Took(old(sys));
    }

    /** _require_trading_permissions: every flag must be explicitly set, read afresh. */
    method RequireTradingPermissions(job: Job) returns (rejection: Option<ErrorCode>)
      requires Valid() && IsRequest(job) && At(job, ReadTerminal)
      modifies this`sys, this`turn, this`now, store, backend
      ensures Valid() && Drove(old(sys), old(turn))
      ensures At(job, if rejection.Some? then RejectRow(rejection.value)
                      else if job.OpenJob? then ReadKillSwitch else ReadPositions)
      ensures var first, second := schedule(old(turn)).market, schedule(old(turn) + 1).market;
              rejection == if first.raises || second.raises || !TerminalOk(first) || !FlagsOk(second)
                           then Some(AutotradingDisabled) else None
      ensures rejection.None? ==> turn == old(turn) + 2
    {
      hide Run, Exec, TurnOn, TerminalOk, FlagsOk;
      var raises, terminalOk := ReadTerminalInfo(job);
      if raises {
        return Some(AutotradingDisabled);
      }
      ghost var mid, at := sys, turn;
      var ok := ReadAccountFlags(job, terminalOk);
      Onward(old(sys), old(turn), mid, at);
      rejection := if ok then None else Some(AutotradingDisabled);
    }

    method ReadKill(job: Job) returns (active: bool)
      requires Valid() && job.OpenJob? && At(job, ReadKillSwitch)
      modifies this`sys, this`turn, this`now, store, backend
      ensures Valid() && Drove(old(sys), old(turn))
      ensures At(job, if active then RejectRow(KillSwitchActive) else BridgeProtocol.ReadReconciliation)
      ensures active == Met(old(sys), old(turn), 0).store.killActive && turn == old(turn) + 1
    {
      hide Run, TurnOn, Exec;
      Interleave();
      active := store.killActive;
      Took(old(sys));
    }

    /** get_reconciliation_status: the last stored state; never having run counts as UNKNOWN. */
    method ReadReconciled(job: Job) returns (ok: bool)
      requires Valid() && job.OpenJob? && At(job, BridgeProtocol.ReadReconciliation)
      modifies this`sys, this`turn, this`now, store, backend
      ensures Valid() && Drove(old(sys), old(turn))
      ensures At(job, if ok then ReadPositions else RejectRow(ReconciliationNotOk))
      ensures ok == (Met(old(sys), old(turn), 0).store.reconciliation == Some(ReconciliationOk))
      ensures turn == old(turn) + 1
    {
      hide Run, TurnOn, Exec;
      Interleave();
      ok := store.reconciliation == Some(ReconciliationOk);
      Took(old(sys));
    }

    /** The two gates only an open has to pass. */
    method RequireOpenGates(job: Job) returns (rejection: Option<ErrorCode>)
      requires Valid() && job.OpenJob? && At(job, ReadKillSwitch)
      modifies this`sys, this`turn, this`now, store, backend
      ensures Valid() && Drove(old(sys), old(turn))
      ensures At(job, if rejection.Some? then RejectRow(rejection.value) else ReadPositions)
      ensures rejection == if Met(old(sys), old(turn), 0).store.killActive then Some(KillSwitchActive)
                           else if Met(old(sys), old(turn), 1).store.reconciliation != Some(ReconciliationOk)
                           then Some(ReconciliationNotOk) else None
      ensures rejection.None? ==> turn == old(turn) + 2
    {
      hide Run, Exec, TurnOn, Met;
      var active := ReadKill(job);
      if active {
        return Some(KillSwitchActive);
      }
      ghost var mid, at := sys, turn;
      var ok := ReadReconciled(job);
      Onward(old(sys), old(turn), mid, at);
      MetOnward(old(sys), old(turn), mid, at);
      rejection := if ok then None else Some(ReconciliationNotOk);
    }

    /** positions_get for an open: the position count. A backend error is not a TradingError, so it
        ends the request and leaves the row RECEIVED. */
    method RequireFreeSlot(job: Job) returns (check: Check<()>)
      requires Valid() && job.OpenJob? && At(job, ReadPositions)
      modifies this`sys, this`turn, this`now, store, backend
      ensures Valid() && Drove(old(sys), old(turn)) && At(job, AfterCheck(check, ReadSymbol(None)))
      ensures check == if Seen(old(turn), 0).raises then Failed
                       else if |Met(old(sys), old(turn), 0).broker.positions| < job.maxPositions then Passed(())
                       else Rejection(TooManyPositions)
      ensures turn == old(turn) + 1
    {
      hide Run, TurnOn, Exec;
      Interleave();
      var raises, free := backend.market.raises, |backend.positions| < job.maxPositions;
      Took(old(sys));
      check := if raises then Failed else if free then Passed(()) else Rejection(TooManyPositions);
    }

    /** positions_get for a close: the position with the requested ticket. */
    method RequirePosition(job: Job) returns (check: Check<BackendPosition>)
      requires Valid() && job.CloseJob? && At(job, ReadPositions)
      modifies this`sys, this`turn, this`now, store, backend
      ensures Valid() && Drove(old(sys), old(turn))
      ensures At(job, AfterCheck(check, ReadSymbol(if check.Passed? then Some(check.value) else None)))
      ensures check.Passed? ==> check.value.ticket == job.positionId
      ensures var positions := Met(old(sys), old(turn), 0).broker.positions;
              && (check.Failed? <==> Seen(old(turn), 0).raises)
              && (check.Passed? ==> check.value in positions)
              && (check.Rejection? ==>
                    check.code == PositionNotFound && forall p :: p in positions ==> p.ticket != job.positionId)
      ensures turn == old(turn) + 1
    {
      hide Run, TurnOn, Exec;
      Interleave();
      var raises, i := backend.market.raises, 0;
      assert backend.positions[0..] == backend.positions;
      while i < |backend.positions| && backend.positions[i].ticket != job.positionId
        invariant 0 <= i <= |backend.positions|
        invariant PositionWith(backend.positions[i..], job.positionId) ==
                  PositionWith(backend.positions, job.positionId)
      {
        assert backend.positions[i..][1..] == backend.positions[i + 1..];
        i := i + 1;
      }
      check :=
        if raises then Failed
        else if i < |backend.positions| then Passed(backend.positions[i])
        else Rejection(PositionNotFound);
      FoundInPositions(backend.positions, job.positionId);
      Took(old(sys));
    }

    /** Symbol metadata; an open also needs full trading enabled and exactly the minimum volume. */
    method RequireSymbol(job: Job, symbol: string, position: Option<BackendPosition>) returns (check: Check<()>)
      requires Valid() && IsRequest(job) && At(job, ReadSymbol(position))
      requires symbol == SymbolOf(Thread(job, ReadSymbol(position)))
      modifies this`sys, this`turn, this`now, store, backend
      ensures Valid() && Drove(old(sys), old(turn)) && At(job, AfterCheck(check, ReadTick(position)))
      ensures SymbolAnswers(Seen(old(turn), 0), job, symbol, check) && turn == old(turn) + 1
    {
      hide Run, TurnOn, Exec;
      Interleave();
      var raises, symbols := backend.market.raises, backend.market.symbols;
      var tradable := symbol in symbols && (job.CloseJob? || (symbols[symbol].visible && symbols[symbol].tradeEnabled));
      var volumeOk := symbol in symbols && job.OpenJob? && job.volume == symbols[symbol].volumeMin;
      Took(old(sys));
      check :=
        if raises then Failed
        else if !tradable then Rejection(SymbolNotTradable)
        else if job.OpenJob? && !volumeOk then Rejection(InvalidVolume)
        else Passed(());
    }

    /** _require_fresh_quote, and the order built from the quote. */
    method RequireFreshQuote(job: Job, symbol: string, position: Option<BackendPosition>)
      returns (check: Check<Prepared>)
      requires Valid() && IsRequest(job) && At(job, ReadTick(position)) && (job.CloseJob? ==> position.Some?)
      requires symbol == SymbolOf(Thread(job, ReadTick(position)))
      requires job.CloseJob? ==> position.value.ticket == job.positionId
      modifies this`sys, this`turn, this`now, store, backend
      ensures Valid() && Drove(old(sys), old(turn))
      ensures check.Passed? ==> At(job, if job.OpenJob? then CheckOrder(check.value) else JournalContext(check.value))
      ensures !check.Passed? ==> At(job, AfterCheck(check, ReadTick(position)))
      ensures QuoteAnswers(Seen(old(turn), 0), symbol, check) && turn == old(turn) + 1
      ensures check.Passed? ==> OrderOf(job, check.value)
    {
      hide Run, TurnOn, Exec;
      Interleave();
      var raises, ticks := backend.market.raises, backend.market.ticks;
      var usable := symbol in ticks && ticks[symbol].isFresh;
      var env := IDLE.(raises := raises, ok := usable);
      if usable {
        env := env.(bid := ticks[symbol].bid, ask := ticks[symbol].ask);
      }
      Took(old(sys));
      check :=
        if raises then Failed
        else if !usable then Rejection(StaleQuote)
        else Passed(if job.OpenJob? then PrepareOpen(job, env) else PrepareClose(job, position.value, env));
    }

    method OrderCheck(job: Job, order: Prepared) returns (raises: bool, passed: bool)
      requires Valid() && IsRequest(job) && At(job, CheckOrder(order))
      modifies this`sys, this`turn, this`now, store, backend
      ensures Valid() && Drove(old(sys), old(turn))
      ensures At(job, if raises then Done(Raised(BackendFailed)) else JournalCheck(order, passed))
      ensures raises == Seen(old(turn), 0).raises && passed == Seen(old(turn), 0).checkPasses
      ensures turn == old(turn) + 1
    {
      hide Run, TurnOn, Exec;
      Interleave();
      raises, passed := backend.market.raises, backend.market.checkPasses;
      Took(old(sys));
    }

    /** order_check and its journal entry: order_send is never called after a failed check. */
    method RequireOrderCheck(job: Job, order: Prepared) returns (check: Check<()>)
      requires Valid() && IsRequest(job) && At(job, CheckOrder(order))
      modifies this`sys, this`turn, this`now, store, backend
      ensures Valid() && Drove(old(sys), old(turn)) && At(job, AfterCheck(check, SubmitRow(order)))
      ensures check == if Seen(old(turn), 0).raises then Failed
                       else if Seen(old(turn), 0).checkPasses then Passed(()) else Rejection(OrderCheckFailed)
      ensures check.Passed? ==> turn == old(turn) + 2
    {
      hide Run, Exec, TurnOn, Observed;
      var raises, passed := OrderCheck(job, order);
      if raises {
        return Failed;
      }
      ghost var mid, at := sys, turn;
      Journal(job, JournalCheck(order, passed), CheckEvent, if passed then SubmitRow(order)
              else RejectRow(OrderCheckFailed));
      Onward(old(sys), old(turn), mid, at);
      check := if passed then Passed(()) else Rejection(OrderCheckFailed);
    }

    /** A close journals what it is about to do first. */
    method ConfirmOrder(job: Job, order: Prepared) returns (check: Check<()>)
      requires Valid() && IsRequest(job) && At(job, if job.OpenJob? then CheckOrder(order) else JournalContext(order))
      modifies this`sys, this`turn, this`now, store, backend
      ensures Valid() && Drove(old(sys), old(turn)) && At(job, AfterCheck(check, SubmitRow(order)))
      ensures var checked := Seen(old(turn), if job.OpenJob? then 0 else 1);
              check == if checked.raises then Failed
                       else if checked.checkPasses then Passed(()) else Rejection(OrderCheckFailed)
      ensures check.Passed? ==> turn == old(turn) + if job.OpenJob? then 2 else 3
    {
      hide Run, Exec, TurnOn, Observed;
      if job.CloseJob? {
        Journal(job, JournalContext(order), ContextEvent, CheckOrder(order));
      }
      ghost var mid, at := sys, turn;
      check := RequireOrderCheck(job, order);
      Onward(old(sys), old(turn), mid, at);
    }

    method RejectReceived(job: Job, code: ErrorCode) returns (moved: bool)
      requires Valid() && IsRequest(job) && At(job, RejectRow(code))
      modifies this`sys, this`turn, this`now, store, backend
      ensures Valid() && Drove(old(sys), old(turn))
      ensures At(job, if moved then JournalReject(code) else Done(Raised(ReconciliationRequired)))
      ensures turn == old(turn) + 1
      ensures var rows := Others(old(sys), tid, schedule(old(turn))).world.store.rows;
              && moved == CanTransition(rows, job.id, Received)
              && store.rows == TransitionRows(rows, job.id, Received, Rejected, now, ErrorPatch(code))
    {
      hide Run, TurnOn, Exec;
      Interleave();
      moved := store.TransitionIdempotencyState(job.id, Received, Rejected, now, ErrorPatch(code));
      Took(old(sys));
    }

    /** _terminalize_pre_submission_reject: the failure is recorded only if the row is still RECEIVED. */
    method TerminalizePreSubmissionReject(job: Job, code: ErrorCode) returns (failure: Failure)
      requires Valid() && IsRequest(job) && At(job, RejectRow(code))
      modifies this`sys, this`turn, this`now, store, backend
      ensures Valid() && Drove(old(sys), old(turn)) && At(job, Done(Raised(failure)))
      // The row the compare-and-set met decides which of the two failures is raised.
      ensures var rows := Others(old(sys), tid, schedule(old(turn))).world.store.rows;
              if CanTransition(rows, job.id, Received) then failure == PreSubmit(code)
              else failure == ReconciliationRequired && store.rows == rows
      ensures failure == PreSubmit(code) ==>
                |store.journal| > 0 && store.journal[|store.journal| - 1] == Entry(job.id, PreSubmitRejectedEvent)
      ensures failure == PreSubmit(code) && old(Inv(sys)) ==>
                job.id in store.rows && store.rows[job.id].state == Rejected &&
                  store.rows[job.id].errorCode == Some(code)
    {
      hide Inv, TurnOn, Observed, Others, Run, Exec;
      var moved := RejectReceived(job, code);
      KeepsInv(old(sys), old(turn));
      if !moved {
        return ReconciliationRequired;
      }
      ghost var mid, at := sys, turn;
      Journal(job, JournalReject(code), PreSubmitRejectedEvent, Done(Raised(PreSubmit(code))));
      Onward(old(sys), old(turn), mid, at);
      if Inv(mid) { TerminalStays(mid, tid, schedule, at, turn, job.id); }
      failure := PreSubmit(code);
    }

    method SubmitReceived(job: Job, order: Prepared) returns (moved: bool)
      requires Valid() && IsRequest(job) && At(job, SubmitRow(order))
      modifies this`sys, this`turn, this`now, store, backend
      ensures Valid() && Drove(old(sys), old(turn))
      ensures At(job, if moved then JournalSubmit(order) else Done(Raised(ReconciliationRequired)))
      ensures moved == CanTransition(Met(old(sys), old(turn), 0).store.rows, job.id, Received)
      ensures turn == old(turn) + 1
    {
      hide Run, TurnOn, Exec;
      Interleave();
      moved := store.TransitionIdempotencyState(job.id, Received, Submitted, now, NO_PATCH);
      Took(old(sys));
    }

    /** The submission boundary: the compare-and-set and the journal entry behind it. */
    method Submit(job: Job, order: Prepared) returns (ok: bool)
      requires Valid() && IsRequest(job) && At(job, SubmitRow(order))
      modifies this`sys, this`turn, this`now, store, backend
      ensures Valid() && Drove(old(sys), old(turn))
      ensures At(job, if ok then SendOrder(order) else Done(Raised(ReconciliationRequired)))
      ensures ok == CanTransition(Met(old(sys), old(turn), 0).store.rows, job.id, Received)
      ensures ok ==> turn == old(turn) + 2
    {
      hide Run, Exec, TurnOn, Observed;
      ok := SubmitReceived(job, order);
      if ok {
        ghost var mid, at := sys, turn;
        Journal(job, JournalSubmit(order), SubmittingEvent, SendOrder(order));
        Onward(old(sys), old(turn), mid, at);
      }
    }

    /** order_send itself; the result, if any, is what must be recorded next. */
    method Send(job: Job, order: Prepared) returns (next: Pc)
      requires Valid() && IsRequest(job) && At(job, SendOrder(order)) && OrderOf(job, order)
      modifies this`sys, this`turn, this`now, store, backend
      ensures Valid() && Drove(old(sys), old(turn)) && At(job, next) && turn == old(turn) + 1
      ensures var met := Others(old(sys), tid, schedule(old(turn))).world.broker;
              var reply := schedule(old(turn)).market.reply;
              var answer := BrokerAnswer(reply, met.nextTicket, met.nextDeal, schedule(old(turn)).now);
              var call := SendCall(job.id, tid, job.OpenJob?, order.request, answer);
              && backend.calls == met.calls + [call]
              && (if reply.raises then next == JournalCrash
                  else if reply.retcode != TRADE_RETCODE_DONE then next == RecordRejected(reply.retcode)
                  else next.RecordFilled? && Reports(next.payload, call) && Quotes(next.payload, order))
    {
      hide Run, TurnOn, Exec;
      Interleave();
      var answer := backend.OrderSend(job.id, tid, job.OpenJob?, order.request, now);
      next :=
        if answer.reply.raises then JournalCrash
        else if answer.reply.retcode != TRADE_RETCODE_DONE then RecordRejected(answer.reply.retcode)
        else RecordFilled(FilledPayload(job, order, answer.reply, answer.order, answer.deal, now));
      Took(old(sys));
    }

    /** The post-send update after another return code: unconditional, whatever state the row is in. */
    method RecordRejection(job: Job, retcode: int)
      requires Valid() && IsRequest(job) && At(job, RecordRejected(retcode))
      modifies this`sys, this`turn, this`now, store, backend
      ensures Valid() && Drove(old(sys), old(turn)) && At(job, JournalSendRejected)
      ensures sys == TurnOn(old(sys), tid, schedule(old(turn)))
    {
      hide Run, TurnOn, Exec;
      Interleave();
      store.UpdateIdempotencyState(job.id, Rejected, now, ErrorPatch(BrokerRetcode(retcode)));
      Took(old(sys));
      OneTurn(old(sys), tid, schedule, old(turn));
    }

    /** The post-send update after a fill: unconditional, whatever state the row is in. */
    method RecordFill(job: Job, payload: Payload)
      requires Valid() && IsRequest(job) && At(job, RecordFilled(payload))
      modifies this`sys, this`turn, this`now, store, backend
      ensures Valid() && Drove(old(sys), old(turn)) && At(job, JournalFilled(payload))
      ensures sys == TurnOn(old(sys), tid, schedule(old(turn)))
    {
      hide Run, TurnOn, Exec;
      Interleave();
      store.UpdateIdempotencyState(job.id, Filled, now, FilledPatch(payload));
      Took(old(sys));
      OneTurn(old(sys), tid, schedule, old(turn));
    }

    /** From order_send to the end of the request. */
    method SendAndRecord(job: Job, order: Prepared) returns (outcome: Outcome)
      requires Valid() && IsRequest(job) && At(job, SendOrder(order)) && OrderOf(job, order)
      modifies this`sys, this`turn, this`now, store, backend
      ensures Valid() && Drove(old(sys), old(turn)) && At(job, Done(outcome))
      // The reply of order_send decides the outcome and the row that is left.
      ensures var reply := schedule(old(turn)).market.reply;
              && (if reply.raises || reply.retcode != TRADE_RETCODE_DONE then outcome == Raised(SendFailed)
                  else outcome.Returned? && !outcome.idempotentReplay)
              && (old(Inv(sys)) ==> SentRow(store.rows, job.id, reply, outcome))
      ensures |store.journal| > 0 && store.journal[|store.journal| - 1] ==
                Entry(job.id, SentEvent(schedule(old(turn)).market.reply))
      ensures outcome.Returned? ==>
                (var met := Met(old(sys), old(turn), 0).broker;
                 var answer := BrokerAnswer(schedule(old(turn)).market.reply, met.nextTicket, met.nextDeal,
                                            schedule(old(turn)).now);
                 Reports(outcome.payload, SendCall(job.id, tid, job.OpenJob?, order.request, answer)) &&
                 Quotes(outcome.payload, order))
    {
      hide Run, NextPc, Exec, TurnOn, Inv;
      var next := Send(job, order);
      KeepsInv(old(sys), old(turn));
      ghost var mid, at := sys, turn;
      match next {
        case JournalCrash => outcome := RecordCrash(job);
        case RecordRejected(retcode) => outcome := RecordAndJournalRejection(job, retcode);
        case RecordFilled(payload) => outcome := RecordAndJournalFill(job, payload);
      }
      Onward(old(sys), old(turn), mid, at);
    }

    /** The crash window: the row is left SUBMITTED deliberately. */
    method RecordCrash(job: Job) returns (outcome: Outcome)
      requires Valid() && IsRequest(job) && At(job, JournalCrash)
      modifies this`sys, this`turn, this`now, store, backend
      ensures Valid() && Drove(old(sys), old(turn)) && At(job, Done(outcome)) && outcome == Raised(SendFailed)
      ensures |store.journal| > 0 && store.journal[|store.journal| - 1] == Entry(job.id, CrashDuringSendEvent)
      ensures old(Inv(sys)) ==> job.id in store.rows && store.rows[job.id].state == Submitted
    {
      hide Inv, TurnOn, Observed;
      Journal(job, JournalCrash, CrashDuringSendEvent, Done(Raised(SendFailed)));
      outcome := Raised(SendFailed);
      if old(Inv(sys)) { OwnedTurn(old(sys), tid, schedule(old(turn))); }
    }

    method RecordAndJournalRejection(job: Job, retcode: int) returns (outcome: Outcome)
      requires Valid() && IsRequest(job) && At(job, RecordRejected(retcode))
      modifies this`sys, this`turn, this`now, store, backend
      ensures Valid() && Drove(old(sys), old(turn)) && At(job, Done(outcome)) && outcome == Raised(SendFailed)
      ensures |store.journal| > 0 && store.journal[|store.journal| - 1] == Entry(job.id, SendRejectedEvent)
      ensures old(Inv(sys)) ==> job.id in store.rows && store.rows[job.id].state == Rejected &&
                                store.rows[job.id].errorCode == Some(BrokerRetcode(retcode))
    {
      hide Inv, TurnOn, Observed;
      RecordRejection(job, retcode);
      if old(Inv(sys)) { OwnedTurn(old(sys), tid, schedule(old(turn))); }
      KeepsInv(old(sys), old(turn));
      ghost var mid, at := sys, turn;
      Journal(job, JournalSendRejected, SendRejectedEvent, Done(Raised(SendFailed)));
      Onward(old(sys), old(turn), mid, at);
      if old(Inv(sys)) { TerminalStays(mid, tid, schedule, at, turn, job.id); }
      outcome := Raised(SendFailed);
    }

    method RecordAndJournalFill(job: Job, payload: Payload) returns (outcome: Outcome)
      requires Valid() && IsRequest(job) && At(job, RecordFilled(payload))
      modifies this`sys, this`turn, this`now, store, backend
      ensures Valid() && Drove(old(sys), old(turn)) && At(job, Done(outcome)) && outcome == Returned(payload, false)
      ensures |store.journal| > 0 && store.journal[|store.journal| - 1] == Entry(job.id, FilledEvent)
      ensures old(Inv(sys)) ==> RowHolds(store.rows, job.id, payload)
    {
      hide Inv, TurnOn, Observed;
      RecordFill(job, payload);
      if old(Inv(sys)) { OwnedTurn(old(sys), tid, schedule(old(turn))); }
      KeepsInv(old(sys), old(turn));
      ghost var mid, at := sys, turn;
      Journal(job, JournalFilled(payload), FilledEvent, Done(Returned(payload, false)));
      Onward(old(sys), old(turn), mid, at);
      if old(Inv(sys)) { TerminalStays(mid, tid, schedule, at, turn, job.id); }
      outcome := Returned(payload, false);
    }

    /** From the idempotency record to the outcome that needs no business check, if there is one. */
    method Admit(job: Job) returns (outcome: Option<Outcome>)
      requires Valid() && IsRequest(job) && At(job, ReadAccount)
      modifies this`sys, this`turn, this`now, store, backend
      ensures Valid() && Drove(old(sys), old(turn))
      ensures At(job, if outcome.Some? then Done(outcome.value) else ReadTerminal)
      ensures outcome.Some? ==> outcome.value != Raised(Aborted)
      ensures if !AccountOk(old(turn)) then outcome == Some(Raised(NotDemo))
              else RowAnswersAlone(Met(old(sys), old(turn), 3).store.rows, job, outcome)
      ensures outcome.None? ==> turn == old(turn) + 4
    {
      hide Run, Exec, TurnOn, Observed, RowAnswersAlone, Met;
      var demo := RequireFreshDemoAccount(job);
      if !demo {
        return Some(Raised(NotDemo));
      }
      ghost var mid, at := sys, turn;
      Journal(job, JournalBegin, BeginEvent, BeginRow);
      Onward(old(sys), old(turn), mid, at);
      mid, at := sys, turn;
      outcome := BeginAndAnswer(job);
      Onward(old(sys), old(turn), mid, at);
      MetOnward(old(sys), old(turn), mid, at);
    }

    /** The idempotency record, and what it decides. */
    method BeginAndAnswer(job: Job) returns (outcome: Option<Outcome>)
      requires Valid() && IsRequest(job) && At(job, BeginRow)
      modifies this`sys, this`turn, this`now, store, backend
      ensures Valid() && Drove(old(sys), old(turn))
      ensures At(job, if outcome.Some? then Done(outcome.value) else ReadTerminal)
      ensures outcome.Some? ==> outcome.value != Raised(Aborted)
      ensures RowAnswersAlone(Met(old(sys), old(turn), 0).store.rows, job, outcome)
      ensures outcome.None? ==> turn == old(turn) + 1
    {
      hide Run, Exec, TurnOn, Observed, Met;
      var record := BeginIdempotentRequest(job);
      ghost var mid, at := sys, turn;
      outcome := Answer(job, record);
      Onward(old(sys), old(turn), mid, at);
    }

    /** What the idempotency record decides on its own: a conflict, a replay, a terminal or a stuck row. */
    method Answer(job: Job, record: BeginOutcome) returns (outcome: Option<Outcome>)
      requires Valid() && IsRequest(job) && At(job, AfterBegin(record))
      modifies this`sys, this`turn, this`now, store, backend
      ensures Valid() && Drove(old(sys), old(turn))
      ensures At(job, if outcome.Some? then Done(outcome.value) else ReadTerminal)
      ensures outcome.Some? ==> outcome.value != Raised(Aborted)
      ensures outcome == match record
                         case Conflict => Some(Raised(RequestConflict))
                         case Record(row) => RowAnswer(row)
      ensures outcome.None? ==> turn == old(turn)
    {
      match record
      case Conflict =>
        Journal(job, JournalConflict, ConflictEvent, Done(Raised(RequestConflict)));
        outcome := Some(Raised(RequestConflict));
      case Record(row) =>
        if Terminal(row.state) && row.payload.Some? {
          Journal(job, JournalReplay(row.payload.value), ReplayEvent, Done(Returned(row.payload.value, true)));
          outcome := Some(Returned(row.payload.value, true));
        } else if row.state == Rejected {
          outcome := Some(Raised(ReconciliationRequired));
        } else if (row.state == Received || row.state == Submitted) && row.updatedAt != row.createdAt {
          outcome := Some(Raised(ReconciliationRequired));
        } else {
          outcome := None;
        }
    }

    /** The business checks of an open, in the order the original makes them. */
    method CheckOpen(job: Job) returns (check: Check<Prepared>)
      requires Valid() && job.OpenJob? && At(job, ReadTerminal)
      modifies this`sys, this`turn, this`now, store, backend
      ensures Valid() && Drove(old(sys), old(turn))
      ensures check.Passed? ==> At(job, SubmitRow(check.value))
      ensures !check.Passed? ==> At(job, AfterCheck(check, ReadTerminal))
      ensures OpenChecks(old(sys), old(turn), job, check)
      ensures check.Passed? ==> turn == old(turn) + 9 && OrderOf(job, check.value)
    {
      hide Run, Exec, TurnOn, Met, QuoteAndOrderChecks, GateChecks, OrderOf;
      var gate := RequireOpenable(job);
      if !gate.Passed? {
        return if gate.Rejection? then Rejection(gate.code) else Failed;
      }
      ghost var mid, at := sys, turn;
      check := CheckQuoteAndOrder(job, job.symbol, None);
      Onward(old(sys), old(turn), mid, at);
    }

    /** Permissions, the two gates and a free slot. */
    method RequireOpenable(job: Job) returns (gate: Check<()>)
      requires Valid() && job.OpenJob? && At(job, ReadTerminal)
      modifies this`sys, this`turn, this`now, store, backend
      ensures Valid() && Drove(old(sys), old(turn)) && At(job, AfterCheck(gate, ReadSymbol(None)))
      ensures GateChecks(old(sys), old(turn), job, gate)
      ensures gate.Passed? ==> gate == Passed(()) && turn == old(turn) + 5
    {
      hide Run, Exec, TurnOn, Met;
      var rejection := RequireTradingPermissions(job);
      assert rejection == if PermissionsOk(old(turn)) then None else Some(AutotradingDisabled);
      hide PermissionsOk, TerminalOk, FlagsOk;
      if rejection.Some? {
        return Rejection(rejection.value);
      }
      ghost var mid, at := sys, turn;
      rejection := RequireOpenGates(job);
      Onward(old(sys), old(turn), mid, at);
      MetOnward(old(sys), old(turn), mid, at);
      if rejection.Some? {
        return Rejection(rejection.value);
      }
      mid, at := sys, turn;
      gate := RequireFreeSlot(job);
      Onward(old(sys), old(turn), mid, at);
      MetOnward(old(sys), old(turn), mid, at);
    }

    /** The business checks of a close: neither the kill switch nor reconciliation is consulted. */
    method CheckClose(job: Job) returns (check: Check<Prepared>)
      requires Valid() && job.CloseJob? && At(job, ReadTerminal)
      modifies this`sys, this`turn, this`now, store, backend
      ensures Valid() && Drove(old(sys), old(turn))
      ensures check.Passed? ==> At(job, SubmitRow(check.value))
      ensures !check.Passed? ==> At(job, AfterCheck(check, ReadTerminal))
      ensures CloseChecks(old(sys), old(turn), job, check)
      ensures check.Passed? ==> turn == old(turn) + 8 && OrderOf(job, check.value)
    {
      hide Run, Exec, TurnOn, Met, QuoteAndOrderChecks;
      var rejection := RequireTradingPermissions(job);
      if rejection.Some? {
        return Rejection(rejection.value);
      }
      ghost var mid, at := sys, turn;
      var position := RequirePosition(job);
      Onward(old(sys), old(turn), mid, at);
      MetOnward(old(sys), old(turn), mid, at);
      if !position.Passed? {
        return if position.Rejection? then Rejection(position.code) else Failed;
      }
      mid, at := sys, turn;
      check := CheckQuoteAndOrder(job, position.value.symbol, Some(position.value));
      Onward(old(sys), old(turn), mid, at);
    }

    /** Symbol, quote and order_check, common to both requests. */
    method CheckQuoteAndOrder(job: Job, symbol: string, position: Option<BackendPosition>)
      returns (check: Check<Prepared>)
      requires Valid() && IsRequest(job) && At(job, ReadSymbol(position)) && (job.CloseJob? ==> position.Some?)
      requires symbol == SymbolOf(Thread(job, ReadSymbol(position)))
      requires job.CloseJob? ==> position.value.ticket == job.positionId
      modifies this`sys, this`turn, this`now, store, backend
      ensures Valid() && Drove(old(sys), old(turn))
      ensures check.Passed? ==> At(job, SubmitRow(check.value))
      ensures !check.Passed? ==> At(job, AfterCheck(check, ReadTerminal))
      ensures QuoteAndOrderChecks(old(turn), job, symbol, check)
      ensures check.Passed? ==> OrderOf(job, check.value) && turn == old(turn) + if job.OpenJob? then 4 else 5
    {
      hide Run, Exec, TurnOn, Observed, QuotedFrom, FreshTick, OrderOf;
      var info := RequireSymbol(job, symbol, position);
      if !info.Passed? {
        return if info.Rejection? then Rejection(info.code) else Failed;
      }
      ghost var mid, at := sys, turn;
      var quote := RequireFreshQuote(job, symbol, position);
      Onward(old(sys), old(turn), mid, at);
      if !quote.Passed? {
        return quote;
      }
      mid, at := sys, turn;
      var checked := ConfirmOrder(job, quote.value);
      Onward(old(sys), old(turn), mid, at);
      check := if checked.Passed? then Passed(quote.value)
               else if checked.Rejection? then Rejection(checked.code) else Failed;
    }

    /** What follows the business checks, common to both requests. */
    method Finish(job: Job, check: Check<Prepared>) returns (outcome: Outcome)
      requires Valid() && IsRequest(job)
      requires check.Passed? ==> At(job, SubmitRow(check.value)) && OrderOf(job, check.value)
      requires !check.Passed? ==> At(job, AfterCheck(check, ReadTerminal))
      modifies this`sys, this`turn, this`now, store, backend
      ensures Valid() && Drove(old(sys), old(turn)) && At(job, Done(outcome))
      ensures outcome != Raised(Aborted)
      ensures FinishAnswers(old(sys), old(turn), job, check, outcome)
    {
      hide Run, Exec, TurnOn, Observed, Met, Inv, SentRow, SentEvent;
      match check
      case Failed =>
        outcome := Raised(BackendFailed);
      case Rejection(code) =>
        var failure := TerminalizePreSubmissionReject(job, code);
        outcome := Raised(failure);
      case Passed(order) =>
        var ok := Submit(job, order);
        if !ok {
          return Raised(ReconciliationRequired);
        }
        ghost var mid, at := sys, turn;
        outcome := SendAndRecord(job, order);
        Onward(old(sys), old(turn), mid, at);
    }

    /** place_demo_order. Whatever the other threads do in between, the request is a run of the
        protocol that ends in the outcome returned; a result is returned only for a FILLED row. */
    method PlaceDemoOrder(job: Job) returns (outcome: Outcome)
      requires Valid() && job.OpenJob? && At(job, ReadAccount)
      modifies this`sys, this`turn, this`now, store, backend
      ensures Valid() && Drove(old(sys), old(turn)) && At(job, Done(outcome))
      ensures outcome != Raised(Aborted)
      ensures old(Inv(sys)) ==> Inv(sys) && (outcome.Returned? ==> RowHolds(store.rows, job.id, outcome.payload))
      ensures OpenAnswers(old(sys), old(turn), job, outcome)
      // order_send is called when every gate lets the request through, and otherwise it is not called at all.
      ensures WasSent(outcome) <==> OpenIsSent(old(sys), old(turn), job)
      ensures old(Inv(sys) && CallersOk(sys)) && !WasSent(outcome) ==> NoCallOf(backend.calls, tid)
    {
      hide Run, Exec, TurnOn, Inv, CallersOk, BooksOk, Met, RowAnswersAlone, OpenChecks, CloseChecks, FinishAnswers,
        OpenIsSent, CloseIsSent, OpenAnswers, CloseAnswers;
      var admitted := Admit(job);
      if admitted.Some? {
        KeepsInv(old(sys), old(turn));
        OpenIsAnsweredAlone(old(sys), old(turn), job, admitted.value);
        SentOpenExactlyWhen(old(sys), old(turn), job, admitted.value);
        if !WasSent(admitted.value) { KeepsCallers(old(sys), old(turn), admitted.value); }
        return admitted.value;
      }
      ghost var mid, at := sys, turn;
      var check := CheckOpen(job);
      Onward(old(sys), old(turn), mid, at);
      mid, at := sys, turn;
      outcome := Finish(job, check);
      OpenIsAnswered(old(sys), old(turn), mid, at, job, check, outcome);
      Onward(old(sys), old(turn), mid, at);
      KeepsInv(old(sys), old(turn));
      SentOpenExactlyWhen(old(sys), old(turn), job, outcome);
      if !WasSent(outcome) { KeepsCallers(old(sys), old(turn), outcome); }
    }

    /** close_demo_position: full close of one position, never gated by kill switch or reconciliation. */
    method CloseDemoPosition(job: Job) returns (outcome: Outcome)
      requires Valid() && job.CloseJob? && At(job, ReadAccount)
      modifies this`sys, this`turn, this`now, store, backend
      ensures Valid() && Drove(old(sys), old(turn)) && At(job, Done(outcome))
      ensures outcome != Raised(Aborted)
      ensures old(Inv(sys)) ==> Inv(sys) && (outcome.Returned? ==> RowHolds(store.rows, job.id, outcome.payload))
      ensures CloseAnswers(old(sys), old(turn), job, outcome)
      ensures old(Inv(sys) && BooksOk(sys)) ==>
                (WasSent(outcome) <==> exists p :: CloseIsSent(old(sys), old(turn), job, p))
      ensures old(Inv(sys) && CallersOk(sys)) && !WasSent(outcome) ==> NoCallOf(backend.calls, tid)
    {
      hide Run, Exec, TurnOn, Inv, CallersOk, BooksOk, Met, RowAnswersAlone, OpenChecks, CloseChecks, FinishAnswers,
        OpenIsSent, CloseIsSent, OpenAnswers, CloseAnswers;
      var admitted := Admit(job);
      if admitted.Some? {
        KeepsInv(old(sys), old(turn));
        CloseIsAnsweredAlone(old(sys), old(turn), job, admitted.value);
        if old(Inv(sys) && BooksOk(sys)) {
          TicketsDifferWhenMet(old(sys), old(turn), 6);
          SentCloseExactlyWhen(old(sys), old(turn), job, admitted.value);
        }
        if !WasSent(admitted.value) { KeepsCallers(old(sys), old(turn), admitted.value); }
        return admitted.value;
      }
      ghost var mid, at := sys, turn;
      var check := CheckClose(job);
      Onward(old(sys), old(turn), mid, at);
      mid, at := sys, turn;
      outcome := Finish(job, check);
      CloseIsAnswered(old(sys), old(turn), mid, at, job, check, outcome);
      Onward(old(sys), old(turn), mid, at);
      KeepsInv(old(sys), old(turn));
      if old(Inv(sys) && BooksOk(sys)) {
        TicketsDifferWhenMet(old(sys), old(turn), 6);
        SentCloseExactlyWhen(old(sys), old(turn), job, outcome);
      }
      if !WasSent(outcome) { KeepsCallers(old(sys), old(turn), outcome); }
    }

    method MatchesIdentity(job: Job, matched: bool) returns (refused: bool)
      requires Valid() && job.ResolveJob? && At(job, ReadLiveOrders(matched))
      modifies this`sys, this`turn, this`now, store, backend
      ensures Valid() && Drove(old(sys), old(turn))
      ensures At(job, if refused then Done(Raised(ResolutionRefused)) else AbortRow)
      ensures refused == (Seen(old(turn), 0).raises || matched || job.id in Seen(old(turn), 0).orders)
      ensures turn == old(turn) + 1
    {
      hide Run, TurnOn, Exec;
      Interleave();
      var raises, clear := backend.market.raises, job.id !in backend.market.orders;
      Took(old(sys));
      refused := raises || matched || !clear;
    }

    method ReadReceivedRow(job: Job) returns (refused: bool)
      requires Valid() && job.ResolveJob? && At(job, BridgeProtocol.ReadRow)
      modifies this`sys, this`turn, this`now, store, backend
      ensures Valid() && Drove(old(sys), old(turn))
      ensures At(job, if refused then Done(Raised(ResolutionRefused)) else BridgeProtocol.ReadJournal)
      ensures refused == !NoIdentifiers(Met(old(sys), old(turn), 0).store.rows, job.id) && turn == old(turn) + 1
    {
      hide Run, TurnOn, Exec;
      Interleave();
      var record := store.GetIdempotencyRecord(job.id);
      refused := record.None? || record.value.state != Received || HasIdentifiers(record.value);
      Took(old(sys));
    }

    method ReadHistory(job: Job) returns (refused: bool)
      requires Valid() && job.ResolveJob? && At(job, BridgeProtocol.ReadJournal)
      modifies this`sys, this`turn, this`now, store, backend
      ensures Valid() && Drove(old(sys), old(turn))
      ensures At(job, if refused then Done(Raised(ResolutionRefused)) else ReadLivePositions)
      ensures refused == HasSubmissionEvidence(Met(old(sys), old(turn), 0).store.journal, job.id)
      ensures turn == old(turn) + 1
    {
      hide Run, TurnOn, Exec, HistoryAt;
      Interleave();
      var history := store.ReadJournalForClientOrderId(job.id);
      refused := exists e :: e in history && SubmissionEvidence(e.event);
      HistoryShowsEvidence(store.journal, job.id);
      Took(old(sys));
    }

    method MatchesPositions(job: Job) returns (raises: bool, matched: bool)
      requires Valid() && job.ResolveJob? && At(job, ReadLivePositions)
      modifies this`sys, this`turn, this`now, store, backend
      ensures Valid() && Drove(old(sys), old(turn))
      ensures At(job, if raises then Done(Raised(ResolutionRefused)) else ReadLiveOrders(matched))
      ensures raises == Seen(old(turn), 0).raises && turn == old(turn) + 1
      ensures matched == !NoTag(Met(old(sys), old(turn), 0).broker.positions, job.id)
    {
      hide Run, TurnOn, Exec;
      Interleave();
      raises, matched := backend.market.raises, HasTag(backend.positions, job.id);
      Took(old(sys));
    }

    /** The row and the journal. */
    method ReadStoredEvidence(job: Job) returns (refused: bool)
      requires Valid() && job.ResolveJob? && At(job, BridgeProtocol.ReadRow)
      modifies this`sys, this`turn, this`now, store, backend
      ensures Valid() && Drove(old(sys), old(turn))
      ensures At(job, if refused then Done(Raised(ResolutionRefused)) else ReadLivePositions)
      ensures refused == !NothingStored(old(sys), old(turn), job)
      ensures !refused ==> turn == old(turn) + 2
    {
      hide Met, HasSubmissionEvidence, NoIdentifiers, Run, Exec, TurnOn;
      refused := ReadReceivedRow(job);
      if refused {
        return;
      }
      ghost var mid, at := sys, turn;
      refused := ReadHistory(job);
      Onward(old(sys), old(turn), mid, at);
      MetOnward(old(sys), old(turn), mid, at);
    }

    /** A matching identity among the live positions and working orders. */
    method ReadLiveEvidence(job: Job) returns (refused: bool)
      requires Valid() && job.ResolveJob? && At(job, ReadLivePositions)
      modifies this`sys, this`turn, this`now, store, backend
      ensures Valid() && Drove(old(sys), old(turn))
      ensures At(job, if refused then Done(Raised(ResolutionRefused)) else AbortRow)
      ensures refused == !NothingLive(old(sys), old(turn), job)
      ensures !refused ==> turn == old(turn) + 2
    {
      hide Met, NoTag, Run, Exec, TurnOn;
      var matched;
      refused, matched := MatchesPositions(job);
      if refused {
        return;
      }
      ghost var mid, at := sys, turn;
      refused := MatchesIdentity(job, matched);
      Onward(old(sys), old(turn), mid, at);
      MetOnward(old(sys), old(turn), mid, at);
    }

    /** The evidence a manual resolution collects before it touches the row. */
    method CollectEvidence(job: Job) returns (refused: bool)
      requires Valid() && job.ResolveJob? && At(job, BridgeProtocol.ReadRow)
      modifies this`sys, this`turn, this`now, store, backend
      ensures Valid() && Drove(old(sys), old(turn))
      ensures At(job, if refused then Done(Raised(ResolutionRefused)) else AbortRow)
      ensures refused == !NoEvidence(old(sys), old(turn), job)
      ensures !refused ==> turn == old(turn) + 4
    {
      hide Met, NothingStored, Run, Exec, TurnOn;
      refused := ReadStoredEvidence(job);
      if refused {
        return;
      }
      ghost var mid, at := sys, turn;
      refused := ReadLiveEvidence(job);
      Onward(old(sys), old(turn), mid, at);
      MetOnward(old(sys), old(turn), mid, at);
    }

    /** resolve_received_attempt. It goes through exactly when no evidence of a submission is found anywhere, and a
        success proves that order_send was never called for this id. */
    method ResolveReceivedAttempt(job: Job) returns (outcome: Outcome)
      requires Valid() && job.ResolveJob? && At(job, BridgeProtocol.ReadRow)
      modifies this`sys, this`turn, this`now, store, backend
      ensures Valid() && Drove(old(sys), old(turn)) && At(job, Done(outcome))
      ensures if outcome.Reported? then store.reconciliation == Some(outcome.state)
              else outcome == Raised(ResolutionRefused)
      ensures outcome.Reported? <==> ResolutionStands(old(sys), old(turn), job)
      ensures outcome.Reported? ==>
                Verdict(Driven(old(sys), tid, schedule, old(turn), old(turn) + 6), old(turn) + 6, outcome.state)
      ensures old(Inv(sys)) && outcome.Reported? ==> NotCalled(backend.calls, job.id) && AbortedRow(store.rows, job.id)
    {
      hide Run, Exec, TurnOn, Inv, Met, NoEvidence, Verdict, NotCalled, CanTransition, AbortedRow;
      var refused := CollectEvidence(job);
      if refused {
        return Raised(ResolutionRefused);
      }
      ghost var mid, at := sys, turn;
      KeepsInv(old(sys), old(turn));
      outcome := AbortReceived(job);
      Onward(old(sys), old(turn), mid, at);
      MetOnward(old(sys), old(turn), mid, at);
      DrivenAdds(old(sys), tid, schedule, old(turn), at, at + 2);
      KeepsInv(old(sys), old(turn));
      if Inv(sys) && outcome.Reported? { ResolvedNeverCalled(sys, tid); }
    }

    method RejectUnsubmitted(job: Job) returns (moved: bool)
      requires Valid() && job.ResolveJob? && At(job, AbortRow)
      modifies this`sys, this`turn, this`now, store, backend
      ensures Valid() && Drove(old(sys), old(turn))
      ensures At(job, if moved then JournalResolved else Done(Raised(ResolutionRefused)))
      ensures moved == CanTransition(Met(old(sys), old(turn), 0).store.rows, job.id, Received) && turn == old(turn) + 1
      ensures moved ==> AbortedRow(store.rows, job.id)
    {
      hide Run, TurnOn, Exec;
      Interleave();
      moved := store.TransitionIdempotencyState(job.id, Received, Rejected, now, ErrorPatch(AbortedBeforeSubmission));
      Took(old(sys));
    }

    method JournalResolution(job: Job)
      requires Valid() && job.ResolveJob? && At(job, JournalResolved)
      modifies this`sys, this`turn, this`now, store, backend
      ensures Valid() && Drove(old(sys), old(turn)) && At(job, ReconcilePositions) && turn == old(turn) + 1
      ensures |store.journal| > 0 && store.journal[|store.journal| - 1] == Entry(job.id, ResolvedEvent)
    {
      hide Run, TurnOn, Exec;
      Interleave();
      store.AppendJournal(job.id, ResolvedEvent);
      Took(old(sys));
    }

    /** The resolution's own compare-and-set, its journal entry, and the new reconciliation. */
    method AbortReceived(job: Job) returns (outcome: Outcome)
      requires Valid() && job.ResolveJob? && At(job, AbortRow)
      modifies this`sys, this`turn, this`now, store, backend
      ensures Valid() && Drove(old(sys), old(turn)) && At(job, Done(outcome))
      ensures if outcome.Reported? then store.reconciliation == Some(outcome.state)
              else outcome == Raised(ResolutionRefused)
      ensures outcome.Reported? <==> CanTransition(Met(old(sys), old(turn), 0).store.rows, job.id, Received)
      ensures outcome.Reported? ==> Verdict(Driven(old(sys), tid, schedule, old(turn), old(turn) + 2), old(turn) + 2,
                                            outcome.state)
      ensures old(Inv(sys)) && outcome.Reported? ==> AbortedRow(store.rows, job.id)
    {
      hide Run, Exec, TurnOn, Inv, Met;
      var moved := RejectUnsubmitted(job);
      KeepsInv(old(sys), old(turn));
      if !moved {
        return Raised(ResolutionRefused);
      }
      ghost var moment, rejected := sys, turn;
      JournalResolution(job);
      Onward(old(sys), old(turn), moment, rejected);
      ghost var mid, at := sys, turn;
      var state := RunReconciliation(job);
      Onward(moment, rejected, mid, at);
      if Inv(moment) { TerminalStays(moment, tid, schedule, rejected, turn, job.id); }
      Onward(old(sys), old(turn), mid, at);
      outcome := Reported(state);
    }

    /** positions_get and orders_get: is the backend reachable right now? */
    method QueryBackend(job: Job) returns (reachable: bool)
      requires Valid() && !IsRequest(job) && At(job, ReconcilePositions)
      modifies this`sys, this`turn, this`now, store, backend
      ensures Valid() && Drove(old(sys), old(turn)) && At(job, if reachable then FindIncomplete else Persist(Unknown))
      ensures reachable == (!schedule(old(turn)).market.raises && !schedule(old(turn) + 1).market.raises)
      ensures reachable ==> turn == old(turn) + 2
    {
      hide Run, TurnOn, Exec;
      Interleave();
      reachable := !backend.market.raises;
      Took(old(sys));
      if reachable {
        ghost var mid, at := sys, turn;
        reachable := QueryOrders(job);
        Onward(old(sys), old(turn), mid, at);
      }
    }

    method QueryOrders(job: Job) returns (reachable: bool)
      requires Valid() && !IsRequest(job) && At(job, ReconcileOrders)
      modifies this`sys, this`turn, this`now, store, backend
      ensures Valid() && Drove(old(sys), old(turn)) && At(job, if reachable then FindIncomplete else Persist(Unknown))
      ensures reachable == !schedule(old(turn)).market.raises && turn == old(turn) + 1
    {
      hide Run, TurnOn, Exec;
      Interleave();
      reachable := !backend.market.raises;
      Took(old(sys));
    }

    method JudgeRows(job: Job) returns (verdict: ReconciliationState)
      requires Valid() && !IsRequest(job) && At(job, FindIncomplete)
      modifies this`sys, this`turn, this`now, store, backend
      ensures Valid() && Drove(old(sys), old(turn)) && At(job, Persist(verdict))
      ensures verdict == if Incomplete(Met(old(sys), old(turn), 0).store.rows) then Mismatch else ReconciliationOk
    {
      hide Run, TurnOn, Exec;
      Interleave();
      var incomplete := store.FindIncompleteAtStartup();
      verdict := if incomplete != {} then Mismatch else ReconciliationOk;
      Took(old(sys));
    }

    method PersistVerdict(job: Job, verdict: ReconciliationState)
      requires Valid() && !IsRequest(job) && At(job, Persist(verdict))
      modifies this`sys, this`turn, this`now, store, backend
      ensures Valid() && Drove(old(sys), old(turn)) && At(job, Done(Reported(verdict)))
      ensures store.reconciliation == Some(verdict)
    {
      hide Run, TurnOn, Exec;
      Interleave();
      store.SetLastReconciliation(verdict);
      Took(old(sys));
    }

    /** run_reconciliation: UNKNOWN without the backend, MISMATCH with a stuck row, otherwise OK. */
    method RunReconciliation(job: Job) returns (state: ReconciliationState)
      requires Valid() && !IsRequest(job) && At(job, ReconcilePositions)
      modifies this`sys, this`turn, this`now, store, backend
      ensures Valid() && Drove(old(sys), old(turn)) && At(job, Done(Reported(state)))
      ensures store.reconciliation == Some(state)
      ensures Verdict(old(sys), old(turn), state)
    {
      hide Run, Exec, TurnOn, Met, Incomplete;
      var reachable := QueryBackend(job);
      state := Unknown;
      ghost var mid, at := sys, turn;
      if reachable {
        state := JudgeRows(job);
        Onward(old(sys), old(turn), mid, at);
        MetOnward(old(sys), old(turn), mid, at);
      }
      mid, at := sys, turn;
      PersistVerdict(job, state);
      Onward(old(sys), old(turn), mid, at);
    }
  }

  lemma {:induction false} EntriesMembers(journal: seq<Entry>, id: string)
    ensures forall e :: e in EntriesFor(journal, id) <==> e in journal && e.clientOrderId == id
  {
    if journal != [] {
      EntriesMembers(journal[..|journal| - 1], id);
      assert journal == journal[..|journal| - 1] + [journal[|journal| - 1]];
    }
  }

  lemma HistoryShowsEvidence(journal: seq<Entry>, id: string)
    ensures HasSubmissionEvidence(journal, id) <==>
              exists e :: e in EntriesFor(journal, id) && SubmissionEvidence(e.event)
  {
    EntriesMembers(journal, id);
  }

  /** The outcome an existing row decides on its own, if it does. */
  function RowAnswer(row: Row): Option<Outcome> {
    if Terminal(row.state) && row.payload.Some? then Some(Returned(row.payload.value, true))
    else if row.state == Rejected then Some(Raised(ReconciliationRequired))
    else if (row.state == Received || row.state == Submitted) && row.updatedAt != row.createdAt then
      Some(Raised(ReconciliationRequired))
    else None
  }

  /** What the table decides on its own for a request: nothing for a new id. */
  predicate RowAnswersAlone(rows: Rows, job: Job, outcome: Option<Outcome>)
    requires IsRequest(job)
  {
    if job.id !in rows then outcome.None?
    else if rows[job.id].requestHash != PrintOf(job) then outcome == Some(Raised(RequestConflict))
    else outcome == RowAnswer(rows[job.id])
  }

  predicate NoCallOf(calls: seq<SendCall>, tid: nat) {
    forall call :: call in calls ==> call.thread != tid
  }

  predicate TicketsDiffer(positions: seq<BackendPosition>) {
    forall p, q :: p in positions && q in positions && p.ticket == q.ticket ==> p == q
  }

  lemma ResolvedNeverCalled(s: Sys, tid: nat)
    requires Inv(s) && tid in s.threads && s.threads[tid].job.ResolveJob? && s.threads[tid].pc.Done?
    requires s.threads[tid].pc.outcome.Reported?
    ensures NotCalled(s.world.broker.calls, s.threads[tid].job.id)
  {
    assert ThreadOk(s.world, tid, s.threads[tid]);
  }

  predicate NoTag(positions: seq<BackendPosition>, id: string) {
    forall p :: p in positions ==> p.tag != Some(id)
  }

  predicate AbortedRow(rows: Rows, id: string) {
    id in rows && rows[id].state == Rejected && rows[id].errorCode == Some(AbortedBeforeSubmission)
  }

  predicate NoIdentifiers(rows: Rows, id: string) {
    && id in rows && rows[id].state == Received && rows[id].payload.None?
    && rows[id].brokerOrderId.None? && rows[id].dealId.None? && rows[id].positionId.None?
  }

  /** A rejection before submission is raised as such, or as a lost race if the row had moved on. */
  predicate Refused(outcome: Outcome, code: ErrorCode) {
    outcome == Raised(PreSubmit(code)) || outcome == Raised(ReconciliationRequired)
  }

  predicate FreshTick(market: Market, symbol: string) {
    symbol in market.ticks && market.ticks[symbol].isFresh
  }

  predicate QuotedFrom(market: Market, symbol: string, bid: real, ask: real) {
    symbol in market.ticks && bid == market.ticks[symbol].bid && ask == market.ticks[symbol].ask
  }

  predicate SymbolAnswers(market: Market, job: Job, symbol: string, check: Check<()>) {
    if market.raises then check == Failed
    else if symbol !in market.symbols ||
            (job.OpenJob? && !(market.symbols[symbol].visible && market.symbols[symbol].tradeEnabled))
    then check == Rejection(SymbolNotTradable)
    else if job.OpenJob? && job.volume != market.symbols[symbol].volumeMin then check == Rejection(InvalidVolume)
    else check == Passed(())
  }

  predicate QuoteAnswers(market: Market, symbol: string, check: Check<Prepared>) {
    if market.raises then check == Failed
    else if !FreshTick(market, symbol) then check == Rejection(StaleQuote)
    else check.Passed? && QuotedFrom(market, symbol, check.value.bid, check.value.ask)
  }

  /** What an order_send that was made is answered with. */
  predicate SentAnswers(reply: SendReply, order: Prepared, outcome: Outcome) {
    if reply.raises || reply.retcode != TRADE_RETCODE_DONE then outcome == Raised(SendFailed)
    else
      && outcome.Returned? && !outcome.idempotentReplay && Quotes(outcome.payload, order)
      && outcome.payload.fillPrice == (if reply.price.Some? then reply.price.value else order.request.price)
      && outcome.payload.referencePrice == order.request.price
  }

  /** What order_send leaves in the table: nothing new if it raised, else how it ended. */
  predicate SentRow(rows: Rows, id: string, reply: SendReply, outcome: Outcome) {
    && id in rows
    && (if reply.raises then rows[id].state == Submitted
        else if reply.retcode != TRADE_RETCODE_DONE then
          rows[id].state == Rejected && rows[id].errorCode == Some(BrokerRetcode(reply.retcode))
        else outcome.Returned? && RowHolds(rows, id, outcome.payload))
  }

  function SentEvent(reply: SendReply): Event {
    if reply.raises then CrashDuringSendEvent
    else if reply.retcode != TRADE_RETCODE_DONE then SendRejectedEvent
    else FilledEvent
  }

  /** How a business check ends: passed, a TradingError to be recorded, or a backend
      error that nobody catches. */
  datatype Check<T> = Passed(value: T) | Rejection(code: ErrorCode) | Failed

  function AfterCheck<T>(check: Check<T>, passed: Pc): Pc {
    match check
    case Passed(_) => passed
    case Rejection(code) => RejectRow(code)
    case Failed => Done(Raised(BackendFailed))
  }

  /** Where a request goes after a journal entry: nothing in the store or the backend matters. */
  function AfterJournal(job: Job, pc: Pc): Pc
    requires IsRequest(job)
  {
    RequestNext(World(EMPTY_STORE, FRESH_BROKER, map[], {}), job, pc, IDLE)
  }

  lemma JournalStep(w: World, tid: nat, job: Job, pc: Pc, env: Env)
    requires IsRequest(job) && JournalEvent(pc).Some?
    ensures NextPc(w, Thread(job, pc), env) == AfterJournal(job, pc) && !pc.Done?
    ensures var w' := Effect(w, tid, Thread(job, pc), env);
            && w'.store == w.store.(journal := w.store.journal + [Entry(job.id, JournalEvent(pc).value)])
            && w'.broker == w.broker
  {
  }

  /** Answers a step that asks nothing does not look at. */
  const IDLE := Env(0, false, true, true, 1.0, 1.0, SendReply(false, TRADE_RETCODE_DONE, true, None, None))
}
