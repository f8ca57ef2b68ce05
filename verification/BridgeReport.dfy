/** What a result reports: every stored or returned result is the broker's answer to the one order_send
    of its id, and an executed open is the position that result names. */
module BridgeReport {
  import opened Common
  import opened BridgeTable
  import opened BridgeProtocol
  import opened BridgeSafety
  import opened BridgeTheorems
  import opened BridgePayload
  import opened BridgeBroker

  /** The payload is the broker's own answer to this call: the price and volume it filled at, where it
      names them, its order and deal numbers, and the moment it answered. */
  predicate Reports(payload: Payload, call: SendCall) {
    var reply := call.answer.reply;
    && payload.clientOrderId == call.clientOrderId && !reply.raises && reply.retcode == TRADE_RETCODE_DONE
    && payload.referencePrice == call.request.price
    && (reply.price.Some? ==> payload.fillPrice == reply.price.value)
    && (reply.price.None? ==> payload.fillPrice == call.request.price)
    && payload.dealId == call.answer.deal && payload.timestamp == call.answer.at
    && payload.OrderPayload? == call.opens
    && (payload.OrderPayload? ==>
          (&& payload.brokerOrderId == call.answer.order && payload.positionId == call.answer.order
           && payload.requestedVolume == call.request.volume
           && (reply.volume.Some? ==> payload.filledVolume == reply.volume.value)
           && (reply.volume.None? ==> payload.filledVolume == call.request.volume)))
    && (payload.ClosePayload? ==>
          call.request.positionTicket == Some(payload.positionId) && payload.closedVolume == call.request.volume)
  }

  /** The quote in the payload is the one its order was built from. */
  predicate Quotes(payload: Payload, order: Prepared) {
    payload.bid == order.bid && payload.ask == order.ask
  }

  predicate Reported(calls: seq<SendCall>, id: string, payload: Payload) {
    exists i :: 0 <= i < |calls| && calls[i].clientOrderId == id && Reports(payload, calls[i])
  }

  /** An executed open left the position its answer names, under its own tag. */
  predicate Opened(everOpen: set<BackendPosition>, call: SendCall) {
    call.opens && call.answer.reply.executed ==>
      BackendPosition(call.answer.order, call.request.symbol, call.request.buy, call.request.volume,
                      Some(call.clientOrderId)) in everOpen
  }

  /** What an order in preparation has in common with the job it is for. */
  predicate OrderOf(job: Job, order: Prepared) {
    && (job.OpenJob? ==> order.request.positionTicket.None? && order.request.volume == job.volume)
    && (job.CloseJob? ==> order.request.positionTicket == Some(job.positionId))
  }

  predicate AllReport(s: Sys) {
    var w := s.world;
    && (forall id :: id in w.store.rows && w.store.rows[id].state == Filled ==>
          w.store.rows[id].payload.Some? && Reported(w.broker.calls, id, w.store.rows[id].payload.value))
    && (forall tid :: tid in s.threads ==> ThreadReports(w.broker.calls, s.threads[tid]))
    && (forall i :: 0 <= i < |w.broker.calls| ==> Opened(w.everOpen, w.broker.calls[i]))
  }

  predicate ThreadReports(calls: seq<SendCall>, th: Thread) {
    th.pc.RecordFilled? ==> Reported(calls, JobId(th.job), th.pc.payload)
  }

  lemma FilledReports(everOpen: set<BackendPosition>, w: World, tid: nat, th: Thread, env: Env)
    requires IsRequest(th.job) && th.pc.SendOrder? && OrderFits(everOpen, th.job, th.pc.order)
    requires !env.reply.raises && env.reply.retcode == TRADE_RETCODE_DONE
    ensures Reports(FilledPayload(th.job, th.pc.order, env.reply, w.broker.nextTicket, w.broker.nextDeal, env.now),
                    CallOf(w, tid, th, env))
  {
  }

  lemma MoreCalls(calls: seq<SendCall>, calls': seq<SendCall>, id: string, payload: Payload)
    requires calls <= calls' && Reported(calls, id, payload)
    ensures Reported(calls', id, payload)
  {
    var i :| 0 <= i < |calls| && calls[i].clientOrderId == id && Reports(payload, calls[i]);
    assert calls'[i] == calls[i];
  }

  lemma OwnThreadReports(w: World, tid: nat, th: Thread, env: Env)
    requires ThreadReports(w.broker.calls, th) && ThreadAnswers(w.store.rows, w.everOpen, th) && RightPc(th.job, th.pc)
    ensures ThreadReports(BrokerAfter(w, tid, th, env).calls, th.(pc := NextPc(w, th, env)))
  {
    if IsRequest(th.job) && !SubmissionPc(th.pc) { CheckKeepsRow(w, th.job, th.pc, env); }
    hide CheckNext, Reports, FilledPayload;
    if th.pc.SendOrder? && NextPc(w, th, env).RecordFilled? {
      FilledReports(w.everOpen, w, tid, th, env);
      var calls' := BrokerAfter(w, tid, th, env).calls;
      assert calls'[|w.broker.calls|] == CallOf(w, tid, th, env);
    }
  }

  lemma CallsGrow(w: World, tid: nat, th: Thread, env: Env)
    ensures w.broker.calls <= BrokerAfter(w, tid, th, env).calls
  {
  }

  lemma OwnRowReports(w: World, tid: nat, th: Thread, env: Env)
    requires ThreadOk(w, tid, th) && ThreadReports(w.broker.calls, th) && JobId(th.job) in RowsAfter(w, th, env)
    requires RowsAfter(w, th, env)[JobId(th.job)].state == Filled
    requires JobId(th.job) in w.store.rows && w.store.rows[JobId(th.job)].state == Filled ==>
               w.store.rows[JobId(th.job)].payload.Some? &&
               Reported(w.broker.calls, JobId(th.job), w.store.rows[JobId(th.job)].payload.value)
    ensures var row := RowsAfter(w, th, env)[JobId(th.job)];
            row.payload.Some? && Reported(w.broker.calls, JobId(th.job), row.payload.value)
  {
    hide Reported;
  }

  lemma CallsOpened(w: World, tid: nat, th: Thread, env: Env, i: nat)
    requires forall k :: 0 <= k < |w.broker.calls| ==> Opened(w.everOpen, w.broker.calls[k])
    requires ThreadAnswers(w.store.rows, w.everOpen, th) && RightPc(th.job, th.pc)
    requires i < |BrokerAfter(w, tid, th, env).calls|
    ensures Opened(EverOpenAfter(w, th, env), BrokerAfter(w, tid, th, env).calls[i])
  {
    if i < |w.broker.calls| {
      assert Opened(w.everOpen, w.broker.calls[i]);
    } else {
      assert BrokerAfter(w, tid, th, env).calls[i] == CallOf(w, tid, th, env);
    }
  }

  lemma StepReports(s: Sys, tid: nat, env: Env)
    requires Inv(s) && AllAnswer(s) && AllReport(s) && tid in s.threads
    ensures AllReport(StepThread(s, tid, env))
  {
    hide NextPc, RowsAfter, BrokerAfter, EverOpenAfter, Reported, Opened, ThreadAnswers, ThreadOk;
    var w, th, s' := s.world, s.threads[tid], StepThread(s, tid, env);
    var rows', calls, calls' := s'.world.store.rows, w.broker.calls, s'.world.broker.calls;
    assert ThreadOk(w, tid, th);
    OkIsRight(w, tid, th);
    CallsGrow(w, tid, th, env);
    forall id | id in rows' && rows'[id].state == Filled
      ensures rows'[id].payload.Some? && Reported(calls', id, rows'[id].payload.value)
    {
      if id == JobId(th.job) { OwnRowReports(w, tid, th, env); } else { EffectIsLocal(w, tid, th, env, id); }
      MoreCalls(calls, calls', id, rows'[id].payload.value);
    }
    forall other | other in s'.threads ensures ThreadReports(calls', s'.threads[other]) {
      if other == tid {
        OwnThreadReports(w, tid, th, env);
      } else if s.threads[other].pc.RecordFilled? {
        MoreCalls(calls, calls', JobId(s.threads[other].job), s.threads[other].pc.payload);
      }
    }
    forall i | 0 <= i < |calls'| ensures Opened(s'.world.everOpen, calls'[i]) { CallsOpened(w, tid, th, env, i); }
  }

  lemma OtherActionsReport(s: Sys, action: Action)
    requires AllReport(s) && AllAnswer(s) && !action.Step?
    ensures AllReport(Exec(s, action))
  {
    hide StepThread, Reported, Moved, AllAnswer;
    var s' := Exec(s, action);
    if action.External? {
      assert HistoryOk(s.world.broker, s.world.everOpen) by { HistoryOfAnswers(s); }
      MoveKeepsHistory(s.world, action.move);
    }
    forall i | 0 <= i < |s'.world.broker.calls| ensures Opened(s'.world.everOpen, s'.world.broker.calls[i]) {
      assert Opened(s.world.everOpen, s.world.broker.calls[i]);
    }
  }

  lemma HistoryOfAnswers(s: Sys)
    requires AllAnswer(s)
    ensures HistoryOk(s.world.broker, s.world.everOpen)
  {
  }

  lemma {:induction false} RunReports(actions: seq<Action>)
    ensures AllReport(Run(Initial(), actions))
  {
    hide Inv, AllAnswer, AllReport, StepThread;
    if actions == [] {
      InitialReports();
    } else {
      var init, action := actions[..|actions| - 1], actions[|actions| - 1];
      RunReports(init);
      RunAnswers(init);
      Reachable(init);
      if action.Step? && Enabled(Run(Initial(), init), action) {
        StepReports(Run(Initial(), init), action.thread, action.env);
      } else if !action.Step? {
        OtherActionsReport(Run(Initial(), init), action);
      }
    }
  }

  lemma InitialReports()
    ensures AllReport(Initial())
  {
  }

  // ------------------------------------------------------------------ in every run

  /** Every FILLED row stores the broker's answer to the call of its id: the price it filled at, or the
      reference price if it named none, its volume, its numbers and its time. */
  lemma {:induction false} FilledRowsReport(actions: seq<Action>, id: string)
    requires CanTransition(Run(Initial(), actions).world.store.rows, id, Filled)
    ensures var w := Run(Initial(), actions).world;
            w.store.rows[id].payload.Some? && Reported(w.broker.calls, id, w.store.rows[id].payload.value)
  {
    hide Run;
    RunReports(actions);
  }

  /** And so does every returned result, new or replayed. */
  lemma {:induction false} ResultsReport(actions: seq<Action>, tid: nat)
    requires var s := Run(Initial(), actions);
             tid in s.threads && s.threads[tid].pc.Done? && s.threads[tid].pc.outcome.Returned?
    ensures var s := Run(Initial(), actions);
            Reported(s.world.broker.calls, JobId(s.threads[tid].job), s.threads[tid].pc.outcome.payload)
  {
    hide Run;
    var s := Run(Initial(), actions);
    RunReports(actions);
    Reachable(actions);
    assert ThreadOk(s.world, tid, s.threads[tid]);
  }

  /** The position id in the result of an executed open is the ticket of the position opened under its tag. */
  lemma {:induction false} ResultNamesItsPosition(actions: seq<Action>, i: nat, payload: Payload)
    requires var w := Run(Initial(), actions).world;
             && i < |w.broker.calls| && Reports(payload, w.broker.calls[i])
             && w.broker.calls[i].opens && w.broker.calls[i].answer.reply.executed
    ensures var w := Run(Initial(), actions).world;
            exists p :: p in w.everOpen && p.ticket == payload.positionId && p.tag == Some(payload.clientOrderId)
  {
    hide Run;
    RunReports(actions);
    var w := Run(Initial(), actions).world;
    assert Opened(w.everOpen, w.broker.calls[i]);
  }
}
