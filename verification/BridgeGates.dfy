/** What stands before order_send: over every run, no open that has not passed the kill switch is sent
    while it is active, who has called order_send shows in where its thread stands, and nothing is
    sent, stored or answered without its journal entry. */
module BridgeGates {
  import opened Common
  import opened BridgeTable
  import opened BridgeProtocol
  import opened BridgeSafety
  import opened BridgeTheorems

  // ------------------------------------------------------------------ the kill switch

  /** Where an open stands between reading the kill switch and calling order_send. */
  predicate PastSwitch(th: Thread) {
    th.job.OpenJob? && (th.pc.ReadReconciliation? || PastGate(th.pc))
  }

  /** The opens that had already passed the switch. */
  predicate HadPassed(s: Sys, tid: nat) {
    tid in s.threads && PastSwitch(s.threads[tid])
  }

  predicate NeverReleased(actions: seq<Action>) {
    forall i :: 0 <= i < |actions| ==> actions[i] != SetKillSwitch(false)
  }

  /** The switch is active, and only those who had passed it at s0 are past it. */
  predicate Held(s0: Sys, s: Sys) {
    s.world.store.killActive && forall tid :: tid in s.threads && PastSwitch(s.threads[tid]) ==> HadPassed(s0, tid)
  }

  predicate OnlyPassedOpen(s0: Sys, calls: seq<SendCall>, calls': seq<SendCall>) {
    calls <= calls' && forall k :: |calls| <= k < |calls'| && calls'[k].opens ==> HadPassed(s0, calls'[k].thread)
  }

  lemma SwitchStops(w: World, th: Thread, env: Env)
    requires w.store.killActive && th.job.OpenJob? && !PastSwitch(th)
    ensures !PastSwitch(th.(pc := RequestNext(w, th.job, th.pc, env)))
  {
  }

  lemma StepHeld(s0: Sys, s: Sys, tid: nat, env: Env)
    requires Held(s0, s) && tid in s.threads && !s.threads[tid].pc.Done?
    ensures Held(s0, StepThread(s, tid, env))
    ensures OnlyPassedOpen(s0, s.world.broker.calls, StepThread(s, tid, env).world.broker.calls)
  {
    var th := s.threads[tid];
    if th.job.OpenJob? && !PastSwitch(th) { SwitchStops(s.world, th, env); }
    hide NextPc, RowsAfter, JournalAfter, SubmitterAfter, EverOpenAfter;
    if th.job.OpenJob? { NextOfRequest(s.world, th, env); }
  }

  lemma NextOfRequest(w: World, th: Thread, env: Env)
    requires IsRequest(th.job)
    ensures NextPc(w, th, env) == RequestNext(w, th.job, th.pc, env)
  {
  }

  lemma OtherActionHeld(s0: Sys, s: Sys, action: Action)
    requires Held(s0, s) && !action.Step? && action != SetKillSwitch(false)
    ensures Held(s0, Exec(s, action)) && Exec(s, action).world.broker.calls == s.world.broker.calls
  {
    hide StepThread, Moved;
    if action.External? { MovesSendNothing(s.world, action.move); }
  }

  lemma {:induction false} RunHeld(s: Sys, more: seq<Action>)
    requires s.world.store.killActive && NeverReleased(more)
    ensures Held(s, Run(s, more)) && OnlyPassedOpen(s, s.world.broker.calls, Run(s, more).world.broker.calls)
  {
    hide StepThread, PastSwitch;
    if more != [] {
      var init, action := more[..|more| - 1], more[|more| - 1];
      RunHeld(s, init);
      var m := Run(s, init);
      if action.Step? && Enabled(m, action) {
        StepHeld(s, m, action.thread, action.env);
      } else if !action.Step? {
        OtherActionHeld(s, m, action);
      }
    }
  }

  /** While the kill switch is active and nobody releases it, whatever else happens, crashes and restarts
      included, every open that is sent was past the switch before. */
  lemma {:induction false} ActiveSwitchStopsOpens(s: Sys, more: seq<Action>)
    requires s.world.store.killActive && NeverReleased(more)
    ensures var calls, calls' := s.world.broker.calls, Run(s, more).world.broker.calls;
            calls <= calls' && forall k :: |calls| <= k < |calls'| && calls'[k].opens ==> HadPassed(s, calls'[k].thread)
  {
    RunHeld(s, more);
  }

  // ------------------------------------------------------------------ who has called

  /** Where a thread stands that has called order_send. */
  predicate HasCalled(pc: Pc) {
    || pc.JournalCrash? || pc.RecordRejected? || pc.JournalSendRejected? || pc.RecordFilled? || pc.JournalFilled?
    || (pc.Done? && WasSent(pc.outcome)) || pc == Done(Raised(Aborted))
  }

  /** The outcomes of a request that called order_send. */
  predicate WasSent(outcome: Outcome) {
    outcome == Raised(SendFailed) || (outcome.Returned? && !outcome.idempotentReplay)
  }

  predicate CallersOk(s: Sys) {
    forall i :: 0 <= i < |s.world.broker.calls| ==> CallerOk(s, s.world.broker.calls[i])
  }

  predicate CallerOk(s: Sys, call: SendCall) {
    && call.thread < s.nextThread
    && (call.thread in s.threads ==>
          HasCalled(s.threads[call.thread].pc) && JobId(s.threads[call.thread].job) == call.clientOrderId)
  }

  lemma CalledStays(w: World, th: Thread, env: Env)
    requires HasCalled(th.pc) || th.pc.SendOrder?
    requires IsRequest(th.job) && !th.pc.Done?
    ensures HasCalled(NextPc(w, th, env))
  {
  }

  lemma StepKeepsCallers(s: Sys, tid: nat, env: Env)
    requires Inv(s) && CallersOk(s) && tid in s.threads && !s.threads[tid].pc.Done?
    ensures CallersOk(StepThread(s, tid, env))
  {
    var th, s' := s.threads[tid], StepThread(s, tid, env);
    assert tid < s.nextThread && ThreadOk(s.world, tid, th);
    if HasCalled(th.pc) || th.pc.SendOrder? {
      CalledIsRequest(s.world, tid, th);
      CalledStays(s.world, th, env);
    }
    hide NextPc, Inv, HasCalled, RowsAfter, ThreadOk;
    forall i | 0 <= i < |s'.world.broker.calls| ensures CallerOk(s', s'.world.broker.calls[i]) {
      if i < |s.world.broker.calls| { assert CallerOk(s, s.world.broker.calls[i]); }
    }
  }

  lemma CalledIsRequest(w: World, tid: nat, th: Thread)
    requires ThreadOk(w, tid, th) && !th.pc.Done? && (HasCalled(th.pc) || th.pc.SendOrder?)
    ensures IsRequest(th.job)
  {
  }

  lemma OtherActionKeepsCallers(s: Sys, action: Action)
    requires CallersOk(s) && Inv(s) && !action.Step?
    ensures CallersOk(Exec(s, action))
  {
    hide StepThread, Moved;
    var s' := Exec(s, action);
    if action.External? { MovesSendNothing(s.world, action.move); }
    forall i | 0 <= i < |s'.world.broker.calls| ensures CallerOk(s', s'.world.broker.calls[i]) {
      assert CallerOk(s, s.world.broker.calls[i]);
    }
  }

  lemma {:induction false} RunKeepsCallers(s: Sys, more: seq<Action>)
    requires Inv(s) && CallersOk(s)
    ensures Inv(Run(s, more)) && CallersOk(Run(s, more))
  {
    hide Inv, CallersOk, StepThread;
    if more != [] {
      var init, action := more[..|more| - 1], more[|more| - 1];
      RunKeepsCallers(s, init);
      var m := Run(s, init);
      ExecKeepsInv(m, action);
      if action.Step? && Enabled(m, action) {
        StepKeepsCallers(m, action.thread, action.env);
      } else if !action.Step? {
        OtherActionKeepsCallers(m, action);
      }
    }
  }

  /** In every run the outcome of a thread tells whether it called order_send: an outcome that is not one
      of a sent request, and not that of a thread that was cut off, means it made no call. */
  lemma {:induction false} OutcomeTellsWhetherSent(actions: seq<Action>, tid: nat, i: nat)
    requires var s := Run(Initial(), actions);
             && tid in s.threads && s.threads[tid].pc.Done? && i < |s.world.broker.calls|
             && s.world.broker.calls[i].thread == tid
    ensures var outcome := Run(Initial(), actions).threads[tid].pc.outcome;
            WasSent(outcome) || outcome == Raised(Aborted)
  {
    hide Run;
    Reachable([]);
    RunKeepsCallers(Initial(), actions) by { EmptyRun(); }
    assert CallerOk(Run(Initial(), actions), Run(Initial(), actions).world.broker.calls[i]);
  }

  lemma EmptyRun()
    ensures Inv(Initial()) && CallersOk(Initial())
  {
    Reachable([]);
    assert Run(Initial(), []) == Initial();
  }

  // ------------------------------------------------------------------ the journal

  predicate Logged(journal: seq<Entry>, id: string, event: Event) {
    Entry(id, event) in journal
  }

  /** A close that has a quote has journaled what it is about to do. */
  predicate PastContext(th: Thread) {
    th.job.CloseJob? &&
    (th.pc.CheckOrder? || th.pc.JournalCheck? || th.pc.SubmitRow? || th.pc.JournalSubmit? || th.pc.SendOrder?)
  }

  predicate Reconciling(pc: Pc) {
    || pc.ReconcilePositions? || pc.ReconcileOrders? || pc.FindIncomplete? || pc.Persist?
    || (pc.Done? && pc.outcome.Reported?)
  }

  /** The entries every order_send has behind it. */
  predicate CallLogged(journal: seq<Entry>, call: SendCall) {
    && Logged(journal, call.clientOrderId, CheckEvent) && Logged(journal, call.clientOrderId, SubmittingEvent)
    && (!call.opens ==> Logged(journal, call.clientOrderId, ContextEvent))
  }

  /** What a thread's own past must have left in the journal. */
  predicate ThreadLogged(journal: seq<Entry>, th: Thread) {
    var id := JobId(th.job);
    && (th.pc.BeginRow? ==> Logged(journal, id, BeginEvent))
    && (PastContext(th) ==> Logged(journal, id, ContextEvent))
    && (th.pc.SubmitRow? || th.pc.JournalSubmit? || th.pc.SendOrder? ==> Logged(journal, id, CheckEvent))
    && (th.pc.SendOrder? ==> Logged(journal, id, SubmittingEvent))
    && (th.job.ResolveJob? && Reconciling(th.pc) ==> Logged(journal, id, ResolvedEvent))
    && (th.pc.Done? ==> OutcomeLogged(journal, th.job, th.pc.outcome))
  }

  predicate OutcomeLogged(journal: seq<Entry>, job: Job, outcome: Outcome) {
    var id := JobId(job);
    match outcome
    case Returned(_, idempotentReplay) => Logged(journal, id, if idempotentReplay then ReplayEvent else FilledEvent)
    case Reported(_) => job.ResolveJob? ==> Logged(journal, id, ResolvedEvent)
    case Raised(failure) =>
      && (failure == RequestConflict ==> Logged(journal, id, ConflictEvent))
      && (failure.PreSubmit? ==> Logged(journal, id, PreSubmitRejectedEvent))
      && (failure == SendFailed ==> Logged(journal, id, CrashDuringSendEvent) || Logged(journal, id, SendRejectedEvent))
  }

  predicate AllLogged(s: Sys) {
    var w := s.world;
    && (forall id :: id in w.store.rows ==> Logged(w.store.journal, id, BeginEvent))
    && (forall i :: 0 <= i < |w.broker.calls| ==> CallLogged(w.store.journal, w.broker.calls[i]))
    && (forall tid :: tid in s.threads ==> ThreadLogged(w.store.journal, s.threads[tid]))
  }

  lemma LoggedStays(journal: seq<Entry>, journal': seq<Entry>, th: Thread)
    requires journal <= journal' && ThreadLogged(journal, th)
    ensures ThreadLogged(journal', th)
  {
  }

  lemma OwnStepLogged(w: World, th: Thread, env: Env)
    requires ThreadLogged(w.store.journal, th) && (IsRequest(th.job) || OperatorPc(th.pc) || th.pc.Done?)
    requires !th.pc.Done? && (th.job.ResolveJob? || th.job.ReconcileJob? ==> RightPc(th.job, th.pc))
    ensures ThreadLogged(JournalAfter(w, th), th.(pc := NextPc(w, th, env)))
  {
    if IsRequest(th.job) { RequestStepLogged(w, th, env); } else { OperatorStepLogged(w, th, env); }
  }

  lemma RequestStepLogged(w: World, th: Thread, env: Env)
    requires ThreadLogged(w.store.journal, th) && IsRequest(th.job) && !th.pc.Done?
    ensures ThreadLogged(JournalAfter(w, th), th.(pc := RequestNext(w, th.job, th.pc, env)))
  {
    if SubmissionPc(th.pc) { SubmissionStepLogged(w, th, env); } else { CheckStepLogged(w, th, env); }
    hide CheckNext, SubmissionNext, JournalAfter, ThreadLogged;
  }

  lemma CheckStepLogged(w: World, th: Thread, env: Env)
    requires ThreadLogged(w.store.journal, th) && IsRequest(th.job) && !th.pc.Done? && !SubmissionPc(th.pc)
    ensures ThreadLogged(JournalAfter(w, th), th.(pc := CheckNext(w, th.job, th.pc, env)))
  {
    hide PositionWith, PrepareOpen, PrepareClose;
  }

  lemma SubmissionStepLogged(w: World, th: Thread, env: Env)
    requires ThreadLogged(w.store.journal, th) && IsRequest(th.job) && SubmissionPc(th.pc)
    ensures ThreadLogged(JournalAfter(w, th), th.(pc := SubmissionNext(w, th.job, th.pc, env)))
  {
    hide FilledPayload;
  }

  lemma OperatorStepLogged(w: World, th: Thread, env: Env)
    requires ThreadLogged(w.store.journal, th) && !IsRequest(th.job) && !th.pc.Done?
    ensures ThreadLogged(JournalAfter(w, th), th.(pc := OperatorNext(w, th.job, th.pc, env)))
  {
  }

  lemma RowsLogged(w: World, th: Thread, env: Env, id: string)
    requires ThreadLogged(w.store.journal, th) && id in RowsAfter(w, th, env) && id !in w.store.rows
    ensures Logged(w.store.journal, id, BeginEvent)
  {
  }

  lemma CallsLogged(w: World, tid: nat, th: Thread, env: Env, i: nat)
    requires forall k :: 0 <= k < |w.broker.calls| ==> CallLogged(w.store.journal, w.broker.calls[k])
    requires ThreadLogged(w.store.journal, th) && i < |BrokerAfter(w, tid, th, env).calls|
    requires th.pc.SendOrder? ==> IsRequest(th.job)
    ensures CallLogged(w.store.journal, BrokerAfter(w, tid, th, env).calls[i])
  {
    hide ExecutedPositions;
  }

  lemma ThreadsLogged(s: Sys, tid: nat, env: Env)
    requires AllLogged(s) && tid in s.threads && !s.threads[tid].pc.Done? && ThreadOk(s.world, tid, s.threads[tid])
    ensures var s' := StepThread(s, tid, env);
            forall other :: other in s'.threads ==> ThreadLogged(s'.world.store.journal, s'.threads[other])
  {
    var s' := StepThread(s, tid, env);
    OwnStepLogged(s.world, s.threads[tid], env);
    JournalGrowsBy(s.world, s.threads[tid]);
    hide NextPc, RowsAfter, BrokerAfter, EverOpenAfter, JournalAfter, ThreadLogged, ThreadOk, CallLogged;
    forall other | other in s'.threads ensures ThreadLogged(s'.world.store.journal, s'.threads[other]) {
      if other != tid { LoggedStays(s.world.store.journal, s'.world.store.journal, s.threads[other]); }
    }
  }

  lemma StepLogged(s: Sys, tid: nat, env: Env)
    requires Inv(s) && AllLogged(s) && tid in s.threads && !s.threads[tid].pc.Done?
    ensures AllLogged(StepThread(s, tid, env))
  {
    var w, th, s' := s.world, s.threads[tid], StepThread(s, tid, env);
    assert ThreadOk(w, tid, th);
    ThreadsLogged(s, tid, env);
    JournalGrowsBy(w, th);
    hide NextPc, RowsAfter, BrokerAfter, EverOpenAfter, JournalAfter, ThreadLogged, CallLogged, Inv, ThreadOk;
    forall id | id in s'.world.store.rows ensures Logged(s'.world.store.journal, id, BeginEvent) {
      if id !in w.store.rows { RowsLogged(w, th, env, id); }
    }
    forall i | 0 <= i < |s'.world.broker.calls| ensures CallLogged(s'.world.store.journal, s'.world.broker.calls[i]) {
      if th.pc.SendOrder? { CalledIsRequest(w, tid, th); }
      CallsLogged(w, tid, th, env, i);
      CallLoggedStays(w.store.journal, s'.world.store.journal, s'.world.broker.calls[i]);
    }
  }

  lemma CallLoggedStays(journal: seq<Entry>, journal': seq<Entry>, call: SendCall)
    requires journal <= journal' && CallLogged(journal, call)
    ensures CallLogged(journal', call)
  {
  }

  lemma JournalGrowsBy(w: World, th: Thread)
    ensures w.store.journal <= JournalAfter(w, th)
  {
  }

  lemma OtherActionLogged(s: Sys, action: Action)
    requires AllLogged(s) && !action.Step?
    ensures AllLogged(Exec(s, action))
  {
    hide StepThread, Moved;
    if action.External? { MovesSendNothing(s.world, action.move); }
  }

  lemma {:induction false} RunLogged(actions: seq<Action>)
    ensures AllLogged(Run(Initial(), actions))
  {
    hide Inv, AllLogged, StepThread;
    if actions == [] {
      InitialLogged();
    } else {
      var init, action := actions[..|actions| - 1], actions[|actions| - 1];
      RunLogged(init);
      Reachable(init);
      if action.Step? && Enabled(Run(Initial(), init), action) {
        StepLogged(Run(Initial(), init), action.thread, action.env);
      } else if !action.Step? {
        OtherActionLogged(Run(Initial(), init), action);
      }
    }
  }

  lemma InitialLogged()
    ensures AllLogged(Initial())
  {
  }

  /** The journal tells the story: in every run each row has its begin entry, each order_send the entries of
      its check and its submission, and of its context if it is a close, and each answered request or
      finished resolution the entry of its outcome. */
  lemma {:induction false} NothingHappensUnlogged(actions: seq<Action>)
    ensures var s := Run(Initial(), actions);
            && (forall id :: id in s.world.store.rows ==> Logged(s.world.store.journal, id, BeginEvent))
            && (forall i :: 0 <= i < |s.world.broker.calls| ==>
                  CallLogged(s.world.store.journal, s.world.broker.calls[i]))
            && (forall tid :: tid in s.threads && s.threads[tid].pc.Done? ==>
                  OutcomeLogged(s.world.store.journal, s.threads[tid].job, s.threads[tid].pc.outcome))
  {
    hide Run;
    RunLogged(actions);
  }
}
