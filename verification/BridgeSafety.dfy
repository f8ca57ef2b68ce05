/** Safety of the write protocol over every run. */
module BridgeSafety {
  import opened Common
  import opened BridgeTable
  import opened BridgeProtocol

  // ------------------------------------------------------------------ the invariant

  /** Steps a request takes only after winning the compare-and-set and before recording the result. */
  predicate Owning(pc: Pc) {
    pc.JournalSubmit? || pc.SendOrder? || pc.JournalCrash? || pc.RecordRejected? || pc.RecordFilled?
  }

  predicate BeforeSend(pc: Pc) {
    pc.JournalSubmit? || pc.SendOrder?
  }

  predicate OperatorPc(pc: Pc) {
    pc.ReadRow? || pc.ReadJournal? || pc.ReadLivePositions? || pc.ReadLiveOrders? || pc.AbortRow? || ResolutionDone(pc)
  }

  /** Where a manual resolution stands once its own compare-and-set succeeded. */
  predicate ResolutionDone(pc: Pc) {
    pc.JournalResolved? || pc.ReconcilePositions? || pc.ReconcileOrders? || pc.FindIncomplete? || pc.Persist? ||
    (pc.Done? && pc.outcome.Reported?)
  }

  /** What holds of a row, given whether a thread ever moved it to SUBMITTED. */
  predicate RowOk(row: Row, submitted: bool) {
    && row.state != NeedsReconciliation
    && (row.state == Received ==> !submitted)
    && (row.state == Submitted || row.state == Filled ==> submitted)
    && (row.state == Filled <==> row.payload.Some?)
    && (row.state != Filled ==> !HasIdentifiers(row))
    && (row.state == Received || row.state == Submitted ==> row.errorCode.None?)
    && (row.errorCode == Some(AbortedBeforeSubmission) ==> !submitted)
  }

  predicate RowsOk(rows: Rows, submitter: map<string, nat>) {
    && (forall id :: id in rows ==> RowOk(rows[id], id in submitter))
    && (forall id :: id in submitter ==> id in rows)
  }

  predicate RowHolds(rows: Rows, id: string, payload: Payload) {
    id in rows && rows[id].state == Filled && rows[id].payload == Some(payload)
  }

  predicate NotCalled(calls: seq<SendCall>, id: string) {
    forall i :: 0 <= i < |calls| ==> calls[i].clientOrderId != id
  }

  predicate RightPc(job: Job, pc: Pc) {
    && (IsRequest(job) ==> !OperatorPc(pc))
    && (!IsRequest(job) ==> OperatorPc(pc) || pc.Done?)
    && (!IsRequest(job) && pc.Done? ==> !pc.outcome.Returned?)
  }

  /** What a thread relies on in the table. */
  predicate RowsFit(rows: Rows, submitter: map<string, nat>, tid: nat, id: string, pc: Pc) {
    && (Owning(pc) ==> id in rows && rows[id].state == Submitted && id in submitter && submitter[id] == tid)
    && (pc.JournalFilled? || pc.JournalSendRejected? ==> id in submitter)
    && (pc.JournalReplay? || pc.JournalFilled? ==> RowHolds(rows, id, pc.payload))
    && (pc.Done? && pc.outcome.Returned? ==> RowHolds(rows, id, pc.outcome.payload))
  }

  predicate Resolved(rows: Rows, submitter: map<string, nat>, id: string) {
    id in rows && rows[id].state == Rejected && id !in submitter
  }

  predicate ThreadOk(w: World, tid: nat, th: Thread) {
    && RightPc(th.job, th.pc)
    && RowsFit(w.store.rows, w.submitter, tid, JobId(th.job), th.pc)
    && (BeforeSend(th.pc) ==> NotCalled(w.broker.calls, JobId(th.job)))
    && (th.job.ResolveJob? && ResolutionDone(th.pc) ==> Resolved(w.store.rows, w.submitter, th.job.id))
  }

  predicate CallsOk(calls: seq<SendCall>, submitter: map<string, nat>) {
    && (forall i :: 0 <= i < |calls| ==>
          calls[i].clientOrderId in submitter && submitter[calls[i].clientOrderId] == calls[i].thread)
    && (forall i, j :: 0 <= i < j < |calls| ==> calls[i].clientOrderId != calls[j].clientOrderId)
  }

  predicate JournalOk(journal: seq<Entry>, submitter: map<string, nat>) {
    forall i :: 0 <= i < |journal| && SubmissionEvidence(journal[i].event) ==> journal[i].clientOrderId in submitter
  }

  predicate Inv(s: Sys) {
    && RowsOk(s.world.store.rows, s.world.submitter)
    && CallsOk(s.world.broker.calls, s.world.submitter)
    && JournalOk(s.world.store.journal, s.world.submitter)
    && (forall tid :: tid in s.threads ==> tid < s.nextThread && ThreadOk(s.world, tid, s.threads[tid]))
    && (forall id :: id in s.world.submitter ==> s.world.submitter[id] < s.nextThread)
  }

  // ------------------------------------------------------------------ what one step can do to a row

  /** The only moves a row makes. */
  predicate Edge(before: OrderState, after: OrderState) {
    || before == after
    || (before == Received && after == Rejected)
    || (before == Received && after == Submitted)
    || (before == Submitted && (after == Filled || after == Rejected))
  }

  predicate RowEvolves(before: Row, after: Row) {
    && Edge(before.state, after.state)
    && after.requestHash == before.requestHash
    && after.createdAt == before.createdAt
    && (Terminal(before.state) ==> after == before)
    && (before.state == after.state ==> after == before)
  }

  predicate RowsEvolve(before: Rows, after: Rows) {
    forall id :: id in before ==> id in after && RowEvolves(before[id], after[id])
  }

  /** A step touches no row but its own request's. */
  lemma EffectIsLocal(w: World, tid: nat, th: Thread, env: Env, id: string)
    requires id != JobId(th.job)
    ensures var rows' := RowsAfter(w, th, env);
            (id in rows' <==> id in w.store.rows) && (id in w.store.rows ==> rows'[id] == w.store.rows[id])
    ensures var submitter' := SubmitterAfter(w, tid, th);
            (id in submitter' <==> id in w.submitter) && (id in w.submitter ==> submitter'[id] == w.submitter[id])
  {
  }

  /** What a step does to its own request's row. */
  lemma EffectOnOwnRow(w: World, tid: nat, th: Thread, env: Env)
    requires RowsOk(w.store.rows, w.submitter) && RowsFit(w.store.rows, w.submitter, tid, JobId(th.job), th.pc)
    ensures var id, rows := JobId(th.job), w.store.rows;
            var rows', submitter' := RowsAfter(w, th, env), SubmitterAfter(w, tid, th);
            && (id in rows ==> id in rows' && RowEvolves(rows[id], rows'[id]))
            && (id in rows' ==> RowOk(rows'[id], id in submitter'))
            && (id in rows' && id !in rows ==> rows'[id].state == Received)
            && (id in w.submitter ==> id in submitter' && submitter'[id] == w.submitter[id])
            && (id in submitter' && id !in w.submitter ==>
                  id in rows && rows[id].state == Received && submitter'[id] == tid)
            && (id in rows && rows[id].state == Submitted && w.submitter[id] != tid ==> rows'[id] == rows[id])
  {
    var id, rows := JobId(th.job), w.store.rows;
    assert id in rows ==> RowOk(rows[id], id in w.submitter);
    match th.pc
    case BeginRow =>
    case RejectRow(_) =>
    case SubmitRow(_) =>
    case RecordRejected(_) =>
    case RecordFilled(payload) =>
    case AbortRow =>
    case _ => assert RowsAfter(w, th, env) == rows;
  }

  /** How the table and the record of submitters evolve in one step of thread tid. */
  predicate TableStep(rows: Rows, submitter: map<string, nat>, rows': Rows, submitter': map<string, nat>, tid: nat)
    requires RowsOk(rows, submitter)
  {
    && RowsEvolve(rows, rows')
    && RowsOk(rows', submitter')
    && (forall id :: id in rows' && id !in rows ==> rows'[id].state == Received)
    && (forall id :: id in submitter ==> id in submitter' && submitter'[id] == submitter[id])
    && (forall id :: id in submitter' && id !in submitter ==>
          id in rows && rows[id].state == Received && submitter'[id] == tid)
    && (forall id :: id in rows && rows[id].state == Submitted && submitter[id] != tid ==> rows'[id] == rows[id])
  }

  /** Only the row of the thread that moves can change, and only along an edge. */
  lemma EffectOnTable(w: World, tid: nat, th: Thread, env: Env)
    requires RowsOk(w.store.rows, w.submitter) && RowsFit(w.store.rows, w.submitter, tid, JobId(th.job), th.pc)
    ensures TableStep(w.store.rows, w.submitter, RowsAfter(w, th, env), SubmitterAfter(w, tid, th), tid)
  {
    EffectOnOwnRow(w, tid, th, env);
    forall id | id != JobId(th.job)
      ensures var rows' := RowsAfter(w, th, env);
              (id in rows' <==> id in w.store.rows) && (id in w.store.rows ==> rows'[id] == w.store.rows[id])
      ensures var submitter' := SubmitterAfter(w, tid, th);
              (id in submitter' <==> id in w.submitter) && (id in w.submitter ==> submitter'[id] == w.submitter[id])
    {
      EffectIsLocal(w, tid, th, env, id);
    }
  }

  /** The calls a step adds: none, or one made by the owner of that client order id. */
  predicate CallsStep(calls: seq<SendCall>, calls': seq<SendCall>, submitter: map<string, nat>, tid: nat) {
    || calls' == calls
    || (|calls'| == |calls| + 1 && calls'[..|calls|] == calls && calls'[|calls|].thread == tid &&
        calls'[|calls|].clientOrderId in submitter && submitter[calls'[|calls|].clientOrderId] == tid &&
        NotCalled(calls, calls'[|calls|].clientOrderId))
  }

  lemma EffectOnCalls(w: World, tid: nat, th: Thread, env: Env)
    requires ThreadOk(w, tid, th)
    ensures CallsStep(w.broker.calls, BrokerAfter(w, tid, th, env).calls, w.submitter, tid)
  {
  }

  lemma CallsKept(
    calls: seq<SendCall>, calls': seq<SendCall>, submitter: map<string, nat>, submitter': map<string, nat>, tid: nat)
    requires CallsOk(calls, submitter) && CallsStep(calls, calls', submitter, tid)
    requires forall id :: id in submitter ==> id in submitter' && submitter'[id] == submitter[id]
    ensures CallsOk(calls', submitter')
  {
    forall i | 0 <= i < |calls'| && i < |calls| ensures calls'[i] == calls[i] {
      if calls' != calls { assert calls'[..|calls|][i] == calls[i]; }
    }
  }

  lemma EffectKeepsJournal(w: World, tid: nat, th: Thread, env: Env)
    requires JournalOk(w.store.journal, w.submitter) && ThreadOk(w, tid, th)
    ensures JournalOk(JournalAfter(w, th), SubmitterAfter(w, tid, th))
  {
  }

  /** No step of another thread can disturb what a thread relies on. */
  lemma OthersFramed(w: World, w': World, tid: nat, other: nat, th: Thread)
    requires RowsOk(w.store.rows, w.submitter) && ThreadOk(w, other, th) && other != tid
    requires TableStep(w.store.rows, w.submitter, w'.store.rows, w'.submitter, tid)
    requires CallsStep(w.broker.calls, w'.broker.calls, w.submitter, tid)
    ensures ThreadOk(w', other, th)
  {
    RowsFramed(w.store.rows, w.submitter, w'.store.rows, w'.submitter, tid, other, JobId(th.job), th.pc);
    if BeforeSend(th.pc) { CallsFramed(w.broker.calls, w'.broker.calls, w.submitter, tid, JobId(th.job)); }
    hide RowsFit, NotCalled, CallsStep, RowsOk;
  }

  lemma RowsFramed(
    rows: Rows, submitter: map<string, nat>, rows': Rows, submitter': map<string, nat>,
    tid: nat, other: nat, id: string, pc: Pc)
    requires RowsOk(rows, submitter) && TableStep(rows, submitter, rows', submitter', tid) && other != tid
    requires RowsFit(rows, submitter, other, id, pc)
    ensures RowsFit(rows', submitter', other, id, pc)
    ensures Resolved(rows, submitter, id) ==> Resolved(rows', submitter', id)
    ensures BeforeSend(pc) ==> id in submitter && submitter[id] != tid
  {
  }

  lemma CallsFramed(calls: seq<SendCall>, calls': seq<SendCall>, submitter: map<string, nat>, tid: nat, id: string)
    requires CallsStep(calls, calls', submitter, tid) && id in submitter && submitter[id] != tid && NotCalled(calls, id)
    ensures NotCalled(calls', id)
  {
    forall i | 0 <= i < |calls'| ensures calls'[i].clientOrderId != id {
      if i < |calls| && calls' != calls { assert calls'[..|calls|][i] == calls[i]; }
    }
  }

  /** Before submission a request acquires no claim on the table but a replayed payload. */
  lemma CheckNextClaims(w: World, job: Job, pc: Pc, env: Env)
    requires IsRequest(job) && !SubmissionPc(pc) && RightPc(job, pc)
    ensures var pc' := CheckNext(w, job, pc, env);
            && !Owning(pc') && !pc'.JournalFilled? && !pc'.JournalSendRejected? && !OperatorPc(pc')
            && (pc'.Done? && pc'.outcome.Returned? ==> pc == pc' || pc == JournalReplay(pc'.outcome.payload))
            && (pc'.JournalReplay? ==>
                  pc == pc' || (pc.BeginRow? && job.id in w.store.rows && Terminal(w.store.rows[job.id].state) &&
                                w.store.rows[job.id].payload == Some(pc'.payload)))
  {
  }

  lemma RequestRowsFit(w: World, tid: nat, th: Thread, env: Env)
    requires RowsOk(w.store.rows, w.submitter) && ThreadOk(w, tid, th) && IsRequest(th.job)
    ensures RowsFit(RowsAfter(w, th, env), SubmitterAfter(w, tid, th), tid, th.job.id,
                    RequestNext(w, th.job, th.pc, env))
    ensures !OperatorPc(RequestNext(w, th.job, th.pc, env))
  {
    var id, rows := th.job.id, w.store.rows;
    assert id in rows ==> RowOk(rows[id], id in w.submitter);
    if SubmissionPc(th.pc) {
      SubmissionRowsFit(w, tid, th, env);
    } else {
      CheckNextClaims(w, th.job, th.pc, env);
      if th.pc.JournalReplay? || th.pc.Done? { assert RowsAfter(w, th, env) == rows; }
    }
  }

  lemma SubmissionRowsFit(w: World, tid: nat, th: Thread, env: Env)
    requires RowsOk(w.store.rows, w.submitter) && ThreadOk(w, tid, th) && IsRequest(th.job) && SubmissionPc(th.pc)
    ensures RowsFit(RowsAfter(w, th, env), SubmitterAfter(w, tid, th), tid, th.job.id,
                    SubmissionNext(w, th.job, th.pc, env))
  {
    match th.pc
    case SubmitRow(_) =>
    case JournalSubmit(_) =>
    case SendOrder(_) =>
    case JournalCrash =>
    case RecordRejected(_) =>
    case JournalSendRejected =>
    case RecordFilled(_) =>
    case JournalFilled(_) =>
  }

  lemma RequestKeepsSelf(w: World, tid: nat, th: Thread, env: Env)
    requires RowsOk(w.store.rows, w.submitter) && CallsOk(w.broker.calls, w.submitter)
    requires ThreadOk(w, tid, th) && IsRequest(th.job)
    ensures ThreadOk(Effect(w, tid, th, env), tid, th.(pc := NextPc(w, th, env)))
  {
    RequestRowsFit(w, tid, th, env);
    var pc := RequestNext(w, th.job, th.pc, env);
    if BeforeSend(pc) {
      if SubmissionPc(th.pc) {
        if th.pc.SubmitRow? { assert RowOk(w.store.rows[th.job.id], th.job.id in w.submitter); }
      } else {
        CheckNextClaims(w, th.job, th.pc, env);
      }
    }
  }

  /** An operator thread claims nothing but, after its own compare-and-set, the resolution. */
  lemma OperatorNextClaims(w: World, job: Job, pc: Pc, env: Env)
    requires !IsRequest(job) && RightPc(job, pc)
    ensures var pc' := OperatorNext(w, job, pc, env);
            && RightPc(job, pc') && (OperatorPc(pc') || pc'.Done?)
            && (job.ResolveJob? && ResolutionDone(pc') ==>
                  ResolutionDone(pc) || (pc.AbortRow? && CanTransition(w.store.rows, job.id, Received)))
  {
  }

  lemma OperatorFits(w: World, tid: nat, th: Thread)
    requires RightPc(th.job, th.pc) && !IsRequest(th.job)
    requires th.job.ResolveJob? && ResolutionDone(th.pc) ==> Resolved(w.store.rows, w.submitter, th.job.id)
    ensures ThreadOk(w, tid, th)
  {
  }

  lemma OperatorKeepsSelf(w: World, tid: nat, th: Thread, env: Env)
    requires RowsOk(w.store.rows, w.submitter) && ThreadOk(w, tid, th) && !IsRequest(th.job)
    ensures ThreadOk(Effect(w, tid, th, env), tid, th.(pc := NextPc(w, th, env)))
  {
    var pc := OperatorNext(w, th.job, th.pc, env);
    OperatorNextClaims(w, th.job, th.pc, env);
    if th.job.ResolveJob? && ResolutionDone(pc) {
      if th.pc.AbortRow? {
        assert RowOk(w.store.rows[th.job.id], th.job.id in w.submitter);
      } else {
        assert RowsAfter(w, th, env) == w.store.rows && SubmitterAfter(w, tid, th) == w.submitter;
      }
    }
    OperatorFits(Effect(w, tid, th, env), tid, th.(pc := pc));
  }

  lemma StepKeepsInv(s: Sys, tid: nat, env: Env)
    requires Inv(s) && tid in s.threads
    ensures Inv(StepThread(s, tid, env))
  {
    var w, th := s.world, s.threads[tid];
    EffectOnTable(w, tid, th, env);
    EffectOnCalls(w, tid, th, env);
    CallsKept(w.broker.calls, BrokerAfter(w, tid, th, env).calls, w.submitter, SubmitterAfter(w, tid, th), tid);
    EffectKeepsJournal(w, tid, th, env);
    if IsRequest(th.job) { RequestKeepsSelf(w, tid, th, env); } else { OperatorKeepsSelf(w, tid, th, env); }
    var s' := StepThread(s, tid, env);
    forall other | other in s'.threads ensures ThreadOk(s'.world, other, s'.threads[other]) {
      if other != tid { OthersFramed(w, s'.world, tid, other, s.threads[other]); }
    }
  }

  lemma ExecKeepsInv(s: Sys, action: Action)
    requires Inv(s)
    ensures Inv(Exec(s, action))
  {
    hide StepThread;
    if Enabled(s, action) {
      if action.Step? { StepKeepsInv(s, action.thread, action.env); } else { OtherActionsKeepInv(s, action); }
    }
  }

  /** Starting, ending and erasing threads leave table, broker and history alone. */
  lemma OtherActionsKeepInv(s: Sys, action: Action)
    requires Inv(s) && !action.Step?
    ensures Inv(Exec(s, action))
  {
    hide StepThread, RowsOk, CallsOk, JournalOk, ThreadOk;
    var s' := Exec(s, action);
    forall tid | tid in s'.threads ensures tid < s'.nextThread && ThreadOk(s'.world, tid, s'.threads[tid]) {
      if tid in s.threads && s'.threads[tid] == s.threads[tid] {
        SwitchIsIrrelevant(s.world, s'.world, tid, s.threads[tid]);
      } else {
        AtRestIsOk(s'.world, tid, s'.threads[tid]);
      }
    }
  }

  lemma SwitchIsIrrelevant(w: World, w': World, tid: nat, th: Thread)
    requires ThreadOk(w, tid, th) && w'.broker.calls == w.broker.calls && w'.submitter == w.submitter
    requires w'.store.rows == w.store.rows
    ensures ThreadOk(w', tid, th)
  {
  }

  lemma AtRestIsOk(w: World, tid: nat, th: Thread)
    requires th.pc == FirstPc(th.job) || th.pc == Done(Raised(Aborted))
    ensures ThreadOk(w, tid, th)
  {
  }

  lemma {:induction false} RunKeepsInv(s: Sys, actions: seq<Action>)
    requires Inv(s)
    ensures Inv(Run(s, actions))
  {
    if actions != [] {
      RunKeepsInv(s, actions[..|actions| - 1]);
      ExecKeepsInv(Run(s, actions[..|actions| - 1]), actions[|actions| - 1]);
    }
  }

  lemma Reachable(actions: seq<Action>)
    ensures Inv(Run(Initial(), actions))
  {
    RunKeepsInv(Initial(), actions);
  }
}
