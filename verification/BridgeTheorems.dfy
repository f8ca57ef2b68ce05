/** What the write protocol promises over every run. */
module BridgeTheorems {
  import opened Common
  import opened BridgeTable
  import opened BridgeProtocol
  import opened BridgeSafety
  import opened BridgeBroker

  // ------------------------------------------------------------------ at most one order_send

  /** order_send is called at most once per client order id, and only by the thread whose
      compare-and-set moved that row to SUBMITTED. */
  lemma {:induction false} AtMostOneSend(actions: seq<Action>)
    ensures var w := Run(Initial(), actions).world;
            && (forall i, j :: 0 <= i < j < |w.broker.calls| ==>
                  w.broker.calls[i].clientOrderId != w.broker.calls[j].clientOrderId)
            && (forall i :: 0 <= i < |w.broker.calls| ==>
                  var call := w.broker.calls[i];
                  call.clientOrderId in w.submitter && w.submitter[call.clientOrderId] == call.thread)
  {
    Reachable(actions);
  }

  /** `submitter` is what its name says: it gains an entry exactly when a row moves from RECEIVED to
      SUBMITTED, the new entry names the thread that moved it, and no entry is ever replaced. */
  lemma {:induction false} SubmitterIsTheMover(actions: seq<Action>, action: Action, id: string)
    ensures var s := Run(Initial(), actions);
            var w, w' := s.world, Exec(s, action).world;
            && ((id in w'.submitter && id !in w.submitter) <==>
                  (id in w.store.rows && w.store.rows[id].state == Received && w'.store.rows[id].state == Submitted))
            && (id in w'.submitter && id !in w.submitter ==> action.Step? && w'.submitter[id] == action.thread)
            && (id in w.submitter ==> id in w'.submitter && w'.submitter[id] == w.submitter[id])
  {
    Reachable(actions);
    var s := Run(Initial(), actions);
    hide Run, NextPc, JournalAfter, BrokerAfter, EverOpenAfter;
    if action.Step? && Enabled(s, action) {
      var th := s.threads[action.thread];
      EffectOnTable(s.world, action.thread, th, action.env);
      if id in s.world.store.rows { assert RowOk(s.world.store.rows[id], id in s.world.submitter); }
      var rows', submitter' := RowsAfter(s.world, th, action.env), SubmitterAfter(s.world, action.thread, th);
      if id in rows' { assert RowOk(rows'[id], id in submitter'); }
      if id in submitter' && id !in s.world.submitter {
        assert th.pc.SubmitRow? && id == JobId(th.job);
      }
    }
  }

  // ------------------------------------------------------------------ the row's life

  predicate StateReaches(before: OrderState, after: OrderState) {
    || before == after
    || (before == Received && (after == Submitted || Terminal(after)))
    || (before == Submitted && Terminal(after))
  }

  predicate RowReaches(before: Row, after: Row) {
    && StateReaches(before.state, after.state)
    && after.requestHash == before.requestHash
    && after.createdAt == before.createdAt
    && (Terminal(before.state) ==> after == before)
  }

  lemma ExecOnRows(s: Sys, action: Action)
    requires Inv(s)
    ensures RowsEvolve(s.world.store.rows, Exec(s, action).world.store.rows)
    ensures s.world.broker.calls <= Exec(s, action).world.broker.calls
  {
    if action.Step? && Enabled(s, action) {
      EffectOnTable(s.world, action.thread, s.threads[action.thread], action.env);
      EffectOnCalls(s.world, action.thread, s.threads[action.thread], action.env);
    }
  }

  /** One action moves a row along RECEIVED -> REJECTED, RECEIVED -> SUBMITTED or
      SUBMITTED -> FILLED | REJECTED, and otherwise leaves it exactly as it is. */
  lemma {:induction false} EveryMoveIsAnEdge(actions: seq<Action>, action: Action, id: string)
    requires id in Run(Initial(), actions).world.store.rows
    ensures var s := Run(Initial(), actions);
            var before, after := s.world.store.rows, Exec(s, action).world.store.rows;
            && id in after
            && after[id].requestHash == before[id].requestHash
            && (after[id] == before[id] ||
                (before[id].state == Received && (after[id].state == Rejected || after[id].state == Submitted)) ||
                (before[id].state == Submitted && (after[id].state == Filled || after[id].state == Rejected)))
  {
    Reachable(actions);
    ExecOnRows(Run(Initial(), actions), action);
  }

  /** Every change of a row carries the clock reading of the step that made it, and a row begins with
      both its stamps the same: what the guard against duplicates compares. */
  lemma {:induction false} RowsAreStamped(s: Sys, action: Action, id: string)
    ensures var before, after := s.world.store.rows, Exec(s, action).world.store.rows;
            && (id in before ==> id in after && after[id].createdAt == before[id].createdAt)
            && (id in after && id !in before ==>
                  action.Step? && after[id].createdAt == action.env.now && after[id].updatedAt == action.env.now)
            && (id in before && after[id] != before[id] ==> action.Step? && after[id].updatedAt == action.env.now)
  {
    if action.Step? && Enabled(s, action) {
      EffectParts(s.world, action.thread, s.threads[action.thread], action.env);
      StampedStep(s.world, s.threads[action.thread], action.env, id);
      hide RowsAfter, Effect, NextPc;
    }
  }

  lemma StampedStep(w: World, th: Thread, env: Env, id: string)
    ensures var before, after := w.store.rows, RowsAfter(w, th, env);
            && (id in before ==> id in after && after[id].createdAt == before[id].createdAt)
            && (id in after && id !in before ==> after[id].createdAt == env.now && after[id].updatedAt == env.now)
            && (id in before && after[id] != before[id] ==> after[id].updatedAt == env.now)
  {
  }

  lemma {:induction false} RunOnRows(s: Sys, more: seq<Action>, id: string)
    requires Inv(s) && id in s.world.store.rows
    ensures id in Run(s, more).world.store.rows
    ensures RowReaches(s.world.store.rows[id], Run(s, more).world.store.rows[id])
    ensures s.world.broker.calls <= Run(s, more).world.broker.calls
  {
    if more != [] {
      var init := more[..|more| - 1];
      RunOnRows(s, init, id);
      RunKeepsInv(s, init);
      ExecOnRows(Run(s, init), more[|more| - 1]);
    }
  }

  /** Over any continuation a row keeps its request, moves forward only, and once terminal keeps
      its state, its payload and every other column for ever. */
  lemma {:induction false} RowLifecycle(actions: seq<Action>, more: seq<Action>, id: string)
    requires id in Run(Initial(), actions).world.store.rows
    ensures var s := Run(Initial(), actions);
            id in Run(s, more).world.store.rows && RowReaches(s.world.store.rows[id], Run(s, more).world.store.rows[id])
  {
    Reachable(actions);
    RunOnRows(Run(Initial(), actions), more, id);
  }

  // ------------------------------------------------------------------ manual resolution

  lemma {:induction false} ResolvedForEver(s: Sys, more: seq<Action>, id: string)
    requires Inv(s) && Resolved(s.world.store.rows, s.world.submitter, id)
    ensures Resolved(Run(s, more).world.store.rows, Run(s, more).world.submitter, id)
  {
    if more != [] {
      var init, action := more[..|more| - 1], more[|more| - 1];
      ResolvedForEver(s, init, id);
      RunKeepsInv(s, init);
      var m := Run(s, init);
      ExecOnRows(m, action);
      if action.Step? && Enabled(m, action) {
        EffectOnTable(m.world, action.thread, m.threads[action.thread], action.env);
      }
    }
  }

  /** Once a manual resolution of an id has succeeded, no order_send for that id has happened and
      none ever will, whatever requests for it were already in flight. */
  lemma {:induction false} ResolutionExcludesSend(actions: seq<Action>, more: seq<Action>, tid: nat)
    requires var s := Run(Initial(), actions);
             tid in s.threads && s.threads[tid].job.ResolveJob? && ResolutionDone(s.threads[tid].pc)
    ensures var s := Run(Initial(), actions);
            var id, s' := s.threads[tid].job.id, Run(s, more);
            && NotCalled(s.world.broker.calls, id)
            && NotCalled(s'.world.broker.calls, id)
            && id in s'.world.store.rows && s'.world.store.rows[id].state == Rejected
  {
    var s := Run(Initial(), actions);
    Reachable(actions);
    assert ThreadOk(s.world, tid, s.threads[tid]);
    ResolvedForEver(s, more, s.threads[tid].job.id);
    RunKeepsInv(s, more);
  }

  /** No check of a resolution on identifiers, journal or live positions ever refuses a row that is
      RECEIVED: in every run such a row carries no broker identifiers, its journal no submission
      evidence, and no open position its tag. */
  lemma {:induction false} ReceivedHasNoEvidence(actions: seq<Action>, id: string)
    requires CanTransition(Run(Initial(), actions).world.store.rows, id, Received)
    ensures var store := Run(Initial(), actions).world.store;
            !HasIdentifiers(store.rows[id]) && !HasSubmissionEvidence(store.journal, id)
    ensures !HasTag(Run(Initial(), actions).world.broker.positions, id)
  {
    Reachable(actions);
    OnePositionPerClientOrder(actions);
    hide Run;
    var w := Run(Initial(), actions).world;
    assert RowOk(w.store.rows[id], id in w.submitter);
    assert NotCalled(w.broker.calls, id);
    forall p | p in w.broker.positions ensures p.tag != Some(id) {
      var i :| 0 <= i < |w.broker.positions| && w.broker.positions[i] == p;
      assert p.tag.Some? ==> !NotCalled(w.broker.calls, p.tag.value);
    }
  }

  lemma ResolverRefused(w: World, tid: nat, th: Thread, env: Env)
    requires th.job.ResolveJob? && OperatorPc(th.pc) && !ResolutionDone(th.pc)
    requires !CanTransition(w.store.rows, th.job.id, Received)
    ensures !ResolutionDone(OperatorNext(w, th.job, th.pc, env))
    ensures RowsAfter(w, th, env) == w.store.rows
  {
  }

  /** The converse race: a request that already called order_send can no longer be resolved. */
  lemma {:induction false} SentCannotBeResolved(actions: seq<Action>, tid: nat, env: Env, i: nat)
    requires var s := Run(Initial(), actions);
             && tid in s.threads && s.threads[tid].job.ResolveJob? && OperatorPc(s.threads[tid].pc)
             && i < |s.world.broker.calls| && s.world.broker.calls[i].clientOrderId == s.threads[tid].job.id
    ensures var s := Run(Initial(), actions);
            var s' := Exec(s, Step(tid, env));
            && !ResolutionDone(s.threads[tid].pc) && !ResolutionDone(s'.threads[tid].pc)
            && s'.world.store.rows == s.world.store.rows
  {
    var s := Run(Initial(), actions);
    Reachable(actions);
    var th := s.threads[tid];
    assert ThreadOk(s.world, tid, th);
    assert RowOk(s.world.store.rows[th.job.id], true);
    ResolverRefused(s.world, tid, th, env);
  }

  // ------------------------------------------------------------------ the crash window

  /** A SUBMITTED row whose submitting thread is gone. */
  predicate Orphaned(s: Sys, id: string) {
    && id in s.world.store.rows && s.world.store.rows[id].state == Submitted
    && forall tid :: tid in s.threads && JobId(s.threads[tid].job) == id ==> !Owning(s.threads[tid].pc)
  }

  lemma OrphanStays(s: Sys, action: Action, id: string)
    requires Inv(s) && Orphaned(s, id)
    ensures Orphaned(Exec(s, action), id)
    ensures Exec(s, action).world.store.rows[id] == s.world.store.rows[id]
  {
    hide Effect, NextPc;
    if Enabled(s, action) {
      match action
      case Step(tid, env) =>
        var th := s.threads[tid];
        EffectParts(s.world, tid, th, env);
        assert ThreadOk(s.world, tid, th);
        if JobId(th.job) == id { OrphanStep(s.world, tid, th, env); }
        else { EffectIsLocal(s.world, tid, th, env, id); }
      case Spawn(job) => assert FirstPc(job).ReadAccount? || OperatorPc(FirstPc(job));
      case _ =>
    }
  }

  lemma EffectParts(w: World, tid: nat, th: Thread, env: Env)
    ensures Effect(w, tid, th, env).store.rows == RowsAfter(w, th, env)
  {
  }

  lemma OrphanStep(w: World, tid: nat, th: Thread, env: Env)
    requires ThreadOk(w, tid, th) && !Owning(th.pc)
    requires CanTransition(w.store.rows, JobId(th.job), Submitted)
    ensures !Owning(NextPc(w, th, env))
    ensures RowsAfter(w, th, env)[JobId(th.job)] == w.store.rows[JobId(th.job)]
  {
    if IsRequest(th.job) && !SubmissionPc(th.pc) { CheckNextClaims(w, th.job, th.pc, env); }
  }

  /** No OK verdict is stored and none is about to be. */
  predicate NoOkVerdict(s: Sys) {
    && s.world.store.reconciliation != Some(ReconciliationOk)
    && forall tid :: tid in s.threads ==> s.threads[tid].pc != Persist(ReconciliationOk)
  }

  /** A step that sees an incomplete row never decides OK. */
  lemma NextIsNotOk(w: World, tid: nat, th: Thread, env: Env)
    requires RowsOk(w.store.rows, w.submitter) && ThreadOk(w, tid, th) && Incomplete(w.store.rows)
    requires th.pc != Persist(ReconciliationOk)
    ensures NextPc(w, th, env) != Persist(ReconciliationOk)
  {
    if IsRequest(th.job) { RequestRowsFit(w, tid, th, env); }
  }

  lemma NoOkStep(s: Sys, action: Action, id: string)
    requires Inv(s) && Orphaned(s, id) && NoOkVerdict(s)
    ensures NoOkVerdict(Exec(s, action))
  {
    if action.Step? && Enabled(s, action) {
      assert Incomplete(s.world.store.rows);
      NextIsNotOk(s.world, action.thread, s.threads[action.thread], action.env);
      assert ReconciliationAfter(s.world, s.threads[action.thread]) != Some(ReconciliationOk);
    }
  }

  lemma {:induction false} NoOkRun(s: Sys, more: seq<Action>, id: string)
    requires Inv(s) && Orphaned(s, id) && NoOkVerdict(s)
    ensures Inv(Run(s, more)) && Orphaned(Run(s, more), id) && NoOkVerdict(Run(s, more))
    ensures Run(s, more).world.store.rows[id] == s.world.store.rows[id]
  {
    if more != [] {
      var init, action := more[..|more| - 1], more[|more| - 1];
      NoOkRun(s, init, id);
      ExecKeepsInv(Run(s, init), action);
      OrphanStays(Run(s, init), action, id);
      NoOkStep(Run(s, init), action, id);
    }
  }

  predicate StoresOkAfter(s: Sys, more: seq<Action>) {
    Run(s, more).world.store.reconciliation == Some(ReconciliationOk)
  }

  /** With an orphaned SUBMITTED row, the stored state can never be OK again if and only if it is
      not OK now and no reconciliation in flight already carries an OK verdict to store. */
  lemma {:induction false} OrphanBlocksOkExactlyWhen(actions: seq<Action>, id: string)
    requires Orphaned(Run(Initial(), actions), id)
    ensures var s := Run(Initial(), actions);
            (forall more :: !StoresOkAfter(s, more)) <==> NoOkVerdict(s)
  {
    var s := Run(Initial(), actions);
    Reachable(actions);
    if NoOkVerdict(s) {
      forall more ensures !StoresOkAfter(s, more) { NoOkRun(s, more, id); }
    } else if s.world.store.reconciliation == Some(ReconciliationOk) {
      assert StoresOkAfter(s, []);
    } else {
      var tid :| tid in s.threads && s.threads[tid].pc == Persist(ReconciliationOk);
      var last := Step(tid, COOPERATIVE);
      assert [last][..0] == [];
      assert StoresOkAfter(s, [last]);
    }
  }

  /** Steps an open takes between passing the reconciliation gate and calling order_send. */
  predicate PastGate(pc: Pc) {
    pc.ReadPositions? || pc.ReadSymbol? || pc.ReadTick? || pc.JournalContext? || pc.CheckOrder? || pc.JournalCheck? ||
    pc.SubmitRow? || BeforeSend(pc)
  }

  predicate NotOk(outcome: Outcome) {
    outcome.Reported? ==> outcome.state != ReconciliationOk
  }

  predicate Gated(s: Sys) {
    && (forall tid :: tid in s.threads ==>
          && (s.threads[tid].job.OpenJob? ==> !PastGate(s.threads[tid].pc))
          && s.threads[tid].pc != Persist(ReconciliationOk)
          && (s.threads[tid].pc.Done? ==> NotOk(s.threads[tid].pc.outcome)))
    && (s.phase.Serving? ==>
          s.world.store.reconciliation.Some? && s.world.store.reconciliation.value != ReconciliationOk)
    && (s.phase.Starting? ==>
          && s.threads.Keys == {s.phase.boot} && s.threads[s.phase.boot].job == ReconcileJob
          && (s.threads[s.phase.boot].pc.Done? && s.threads[s.phase.boot].pc.outcome.Reported? ==>
                s.world.store.reconciliation.Some? && s.world.store.reconciliation.value != ReconciliationOk))
  }

  lemma GatedNext(s: Sys, tid: nat, env: Env, id: string)
    requires Inv(s) && Orphaned(s, id) && Gated(s) && tid in s.threads
    ensures var th := s.threads[tid];
            var pc := NextPc(s.world, th, env);
            && (th.job.OpenJob? ==> !PastGate(pc))
            && pc != Persist(ReconciliationOk)
            && (pc.Done? ==> NotOk(pc.outcome))
  {
    hide RequestNext, OperatorNext;
    var th := s.threads[tid];
    assert ThreadOk(s.world, tid, th);
    assert Incomplete(s.world.store.rows);
    if IsRequest(th.job) {
      RequestRowsFit(s.world, tid, th, env);
      RequestReportsNothing(s.world, th, env);
      if th.job.OpenJob? { OpenStaysOut(s.world, th, env); }
    } else {
      ReconciliationIsNotOk(s.world, th, env);
    }
  }

  lemma RequestReportsNothing(w: World, th: Thread, env: Env)
    requires IsRequest(th.job) && !th.pc.Persist? && (th.pc.Done? ==> NotOk(th.pc.outcome))
    ensures var pc := RequestNext(w, th.job, th.pc, env); !pc.Persist? && (pc.Done? ==> NotOk(pc.outcome))
  {
  }

  lemma ReconciliationIsNotOk(w: World, th: Thread, env: Env)
    requires !IsRequest(th.job) && Incomplete(w.store.rows) && th.pc != Persist(ReconciliationOk)
    requires th.pc.Done? ==> NotOk(th.pc.outcome)
    ensures var pc := OperatorNext(w, th.job, th.pc, env);
            pc != Persist(ReconciliationOk) && (pc.Done? ==> NotOk(pc.outcome))
  {
  }

  lemma OpenStaysOut(w: World, th: Thread, env: Env)
    requires th.job.OpenJob? && !PastGate(th.pc) && w.store.reconciliation != Some(ReconciliationOk)
    ensures !PastGate(RequestNext(w, th.job, th.pc, env))
  {
  }

  predicate OnlyClosesAdded(calls: seq<SendCall>, calls': seq<SendCall>) {
    calls <= calls' && forall k :: |calls| <= k < |calls'| ==> !calls'[k].opens
  }

  lemma BootReportsLast(w: World, th: Thread, env: Env)
    requires th.job == ReconcileJob && !th.pc.Done?
    ensures var pc := NextPc(w, th, env); pc.Done? && pc.outcome.Reported? ==> th.pc.Persist?
  {
  }

  lemma GatedStep(s: Sys, tid: nat, env: Env, id: string)
    requires Inv(s) && Orphaned(s, id) && Gated(s) && Enabled(s, Step(tid, env))
    ensures Gated(StepThread(s, tid, env))
    ensures OnlyClosesAdded(s.world.broker.calls, BrokerAfter(s.world, tid, s.threads[tid], env).calls)
  {
    hide Inv, NextPc, RowsAfter, JournalAfter, SubmitterAfter, BrokerAfter, EverOpenAfter, OnlyClosesAdded;
    GatedNext(s, tid, env, id);
    var th := s.threads[tid];
    if s.phase.Starting? { BootReportsLast(s.world, th, env); }
    StepSendsNoOpen(s.world, tid, th, env);
  }

  lemma StepSendsNoOpen(w: World, tid: nat, th: Thread, env: Env)
    requires th.job.OpenJob? ==> !th.pc.SendOrder?
    ensures OnlyClosesAdded(w.broker.calls, BrokerAfter(w, tid, th, env).calls)
  {
  }

  lemma GatedExec(s: Sys, action: Action, id: string)
    requires Inv(s) && Orphaned(s, id) && Gated(s)
    ensures Gated(Exec(s, action))
    ensures OnlyClosesAdded(s.world.broker.calls, Exec(s, action).world.broker.calls)
  {
    hide Inv, Gated, BrokerAfter, RowsAfter, JournalAfter, SubmitterAfter, NextPc;
    if Enabled(s, action) {
      match action
      case Step(tid, env) => GatedStep(s, tid, env, id);
      case _ => GatedOther(s, action);
    }
  }

  lemma GatedOther(s: Sys, action: Action)
    requires Gated(s) && !action.Step?
    ensures Gated(Exec(s, action)) && Exec(s, action).world.broker.calls == s.world.broker.calls
  {
    hide StepThread, Moved;
    if action.Spawn? { assert !PastGate(FirstPc(action.job)) && !FirstPc(action.job).Persist?; }
    if action.External? { MovesSendNothing(s.world, action.move); }
  }

  lemma MovesSendNothing(w: World, move: BrokerMove)
    ensures var w' := Moved(w, move); w'.store == w.store && w'.broker.calls == w.broker.calls
  {
  }

  lemma {:induction false} GatedRun(s: Sys, more: seq<Action>, id: string)
    requires Inv(s) && Orphaned(s, id) && Gated(s)
    ensures Inv(Run(s, more)) && Orphaned(Run(s, more), id) && Gated(Run(s, more))
    ensures Run(s, more).world.store.rows[id] == s.world.store.rows[id]
    ensures OnlyClosesAdded(s.world.broker.calls, Run(s, more).world.broker.calls)
  {
    if more != [] {
      var init, action := more[..|more| - 1], more[|more| - 1];
      GatedRun(s, init, id);
      ExecKeepsInv(Run(s, init), action);
      OrphanStays(Run(s, init), action, id);
      GatedExec(Run(s, init), action, id);
    }
  }

  /** A row left SUBMITTED by a crash is absorbing: in every continuation, further crashes included,
      the row never changes, no reconciliation reports OK, the bridge serves only with a stored
      MISMATCH or UNKNOWN, and no open reaches order_send. */
  lemma {:induction false} CrashedSubmissionIsAbsorbing(actions: seq<Action>, more: seq<Action>, id: string)
    requires CanTransition(Run(Initial(), actions).world.store.rows, id, Submitted)
    ensures var s := Run(Initial(), actions);
            var s' := Run(Exec(s, Crash), more);
            && id in s'.world.store.rows && s'.world.store.rows[id] == s.world.store.rows[id]
            && (s'.phase.Serving? ==> s'.world.store.reconciliation == Some(Mismatch) ||
                                      s'.world.store.reconciliation == Some(Unknown))
            && (forall tid :: tid in s'.threads && s'.threads[tid].pc.Done? ==> NotOk(s'.threads[tid].pc.outcome))
            && (forall tid :: tid in s'.threads && s'.threads[tid].job.OpenJob? ==> !BeforeSend(s'.threads[tid].pc))
            && (forall k :: |s.world.broker.calls| <= k < |s'.world.broker.calls| ==> !s'.world.broker.calls[k].opens)
  {
    var s := Run(Initial(), actions);
    Reachable(actions);
    ExecKeepsInv(s, Crash);
    CrashGates(s, id);
    hide Inv, Exec, Run;
    GatedRun(Exec(s, Crash), more, id);
  }

  /** A crash leaves no thread but the startup reconciliation. */
  lemma CrashGates(s: Sys, id: string)
    requires CanTransition(s.world.store.rows, id, Submitted)
    ensures var s' := Exec(s, Crash); s'.world == s.world && Orphaned(s', id) && Gated(s')
  {
  }

  /** A cooperative environment: every call answers, every check passes, the broker fills. */
  const COOPERATIVE := Env(0, false, true, true, 1.0, 1.0, SendReply(false, TRADE_RETCODE_DONE, true, None, None))
}
