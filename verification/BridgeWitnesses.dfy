/** Runs that show how tight the protocol's guarantees are: what the timestamp guard lets through,
    what a crash does not block, and how a stale OK verdict can hide a stuck row. */
module BridgeWitnesses {
  import opened Common
  import opened BridgeTable
  import opened BridgeProtocol
  import opened BridgeSafety
  import opened BridgeTheorems
  import opened BridgeGuard
  import opened BridgePayload

  /** Thread t, alone, has come from s0 to stand at pc; rows are as given, all else but the journal is unchanged. */
  predicate Stage(s0: Sys, s: Sys, t: nat, job: Job, pc: Pc, rows: Rows) {
    && s.threads == s0.threads[t := Thread(job, pc)]
    && s.phase == s0.phase && s.nextThread == s0.nextThread + 1 && t == s0.nextThread
    && s.world == World(StoreState(rows, s.world.store.journal, s0.world.store.killActive,
                                   s0.world.store.reconciliation),
                        s0.world.broker, s0.world.submitter, s0.world.everOpen)
  }

  predicate Writes(pc: Pc) {
    pc.BeginRow? || pc.RejectRow? || pc.SubmitRow? || pc.RecordRejected? || pc.RecordFilled? || pc.AbortRow? ||
    pc.Persist? || pc.SendOrder?
  }

  lemma Started(s0: Sys, job: Job) returns (s: Sys, trace: seq<Action>)
    requires s0.phase.Serving?
    ensures s == Run(s0, trace) && Stage(s0, s, s0.nextThread, job, FirstPc(job), s0.world.store.rows)
    ensures s.world.store.journal == s0.world.store.journal
  {
    trace := [Spawn(job)];
    assert trace[..0] == [];
    s := Exec(s0, Spawn(job));
  }

  /** One cooperative step that reads or journals. */
  lemma Advance(s0: Sys, s: Sys, trace: seq<Action>, t: nat, job: Job, pc: Pc, rows: Rows, pc': Pc)
    returns (s': Sys, trace': seq<Action>)
    requires s == Run(s0, trace) && Stage(s0, s, t, job, pc, rows) && !pc.Done? && !Writes(pc)
    requires NextPc(s.world, Thread(job, pc), COOPERATIVE) == pc'
    ensures s' == Run(s0, trace') && Stage(s0, s', t, job, pc', rows)
  {
    var a := Step(t, COOPERATIVE);
    trace' := trace + [a];
    assert trace'[..|trace'| - 1] == trace;
    s' := Exec(s, a);
  }

  /** The step at begin_idempotent_request. */
  lemma AdvanceBegin(s0: Sys, s: Sys, trace: seq<Action>, t: nat, job: Job, rows: Rows)
    returns (s': Sys, trace': seq<Action>)
    requires s == Run(s0, trace) && Stage(s0, s, t, job, BeginRow, rows) && IsRequest(job)
    ensures s' == Run(s0, trace')
    ensures Stage(s0, s', t, job, AfterBegin(BeginResult(rows, job.id, PrintOf(job), 0)),
                  BeginRows(rows, job.id, PrintOf(job), 0))
  {
    var a := Step(t, COOPERATIVE);
    trace' := trace + [a];
    assert trace'[..|trace'| - 1] == trace;
    s' := Exec(s, a);
  }

  /** From the start of a request to its idempotency record. */
  lemma ReachBegin(s0: Sys, job: Job) returns (s: Sys, trace: seq<Action>)
    requires s0.phase.Serving? && IsRequest(job)
    ensures s == Run(s0, trace) && Stage(s0, s, s0.nextThread, job, BeginRow, s0.world.store.rows)
  {
    var t, rows := s0.nextThread, s0.world.store.rows;
    s, trace := Started(s0, job);
    s, trace := Advance(s0, s, trace, t, job, ReadAccount, rows, ReadConnection);
    s, trace := Advance(s0, s, trace, t, job, ReadConnection, rows, JournalBegin);
    s, trace := Advance(s0, s, trace, t, job, JournalBegin, rows, BeginRow);
  }

  /** From the start of a request to just after its idempotency record was accepted. */
  lemma ReachPermissions(s0: Sys, job: Job) returns (s: Sys, trace: seq<Action>)
    requires s0.phase.Serving? && IsRequest(job)
    requires AfterBegin(BeginResult(s0.world.store.rows, job.id, PrintOf(job), 0)) == ReadTerminal
    ensures s == Run(s0, trace)
    ensures Stage(s0, s, s0.nextThread, job, ReadPermissions(true),
                  BeginRows(s0.world.store.rows, job.id, PrintOf(job), 0))
  {
    var t, rows := s0.nextThread, s0.world.store.rows;
    s, trace := ReachBegin(s0, job);
    s, trace := AdvanceBegin(s0, s, trace, t, job, rows);
    s, trace := Advance(s0, s, trace, t, job, ReadTerminal, BeginRows(rows, job.id, PrintOf(job), 0),
                        ReadPermissions(true));
  }

  /** Nothing stands in the way of this open: serving, no kill switch, OK stored, and a free slot. */
  predicate GatesOpen(s: Sys, job: Job) {
    && s.phase.Serving? && job.OpenJob? && !s.world.store.killActive
    && s.world.store.reconciliation == Some(ReconciliationOk) && |s.world.broker.positions| < job.maxPositions
  }

  /** From the permission checks of an open to its quote: both gates are passed on the way. */
  lemma PassGates(s0: Sys, s1: Sys, trace1: seq<Action>, job: Job, rows: Rows) returns (s: Sys, trace: seq<Action>)
    requires s1 == Run(s0, trace1) && Stage(s0, s1, s0.nextThread, job, ReadPermissions(true), rows) && job.OpenJob?
    requires GatesOpen(s0, job)
    ensures s == Run(s0, trace) && Stage(s0, s, s0.nextThread, job, ReadTick(None), rows)
  {
    hide Run;
    var t := s0.nextThread;
    s, trace := Advance(s0, s1, trace1, t, job, ReadPermissions(true), rows, ReadKillSwitch);
    s, trace := Advance(s0, s, trace, t, job, ReadKillSwitch, rows, ReadReconciliation);
    s, trace := Advance(s0, s, trace, t, job, ReadReconciliation, rows, ReadPositions);
    s, trace := Advance(s0, s, trace, t, job, ReadPositions, rows, ReadSymbol(None));
    s, trace := Advance(s0, s, trace, t, job, ReadSymbol(None), rows, ReadTick(None));
  }

  /** A checked order comes to the submission boundary. */
  lemma PassOrderCheck(s0: Sys, s1: Sys, trace1: seq<Action>, job: Job, order: Prepared, rows: Rows)
    returns (s: Sys, trace: seq<Action>)
    requires s1 == Run(s0, trace1) && Stage(s0, s1, s0.nextThread, job, CheckOrder(order), rows) && IsRequest(job)
    ensures s == Run(s0, trace) && Stage(s0, s, s0.nextThread, job, SubmitRow(order), rows)
  {
    var t := s0.nextThread;
    s, trace := Advance(s0, s1, trace1, t, job, CheckOrder(order), rows, JournalCheck(order, true));
    s, trace := Advance(s0, s, trace, t, job, JournalCheck(order, true), rows, SubmitRow(order));
  }

  /** With the kill switch off and reconciliation OK, an accepted open comes to the submission boundary. */
  lemma OpenReachesSubmission(s0: Sys, job: Job) returns (s: Sys, trace: seq<Action>, order: Prepared)
    requires GatesOpen(s0, job)
    requires AfterBegin(BeginResult(s0.world.store.rows, job.id, PrintOf(job), 0)) == ReadTerminal
    ensures s == Run(s0, trace)
    ensures Stage(s0, s, s0.nextThread, job, SubmitRow(order), BeginRows(s0.world.store.rows, job.id, PrintOf(job), 0))
  {
    var t, rows := s0.nextThread, BeginRows(s0.world.store.rows, job.id, PrintOf(job), 0);
    s, trace := ReachPermissions(s0, job);
    s, trace := PassGates(s0, s, trace, job, rows);
    order := PrepareOpen(job, COOPERATIVE);
    s, trace := Advance(s0, s, trace, t, job, ReadTick(None), rows, CheckOrder(order));
    s, trace := PassOrderCheck(s0, s, trace, job, order, rows);
  }

  /** From the permission checks of a close to its quote: no gate lies on the way. */
  lemma FindPosition(s0: Sys, s1: Sys, trace1: seq<Action>, job: Job, rows: Rows) returns (s: Sys, trace: seq<Action>)
    requires s1 == Run(s0, trace1) && Stage(s0, s1, s0.nextThread, job, ReadPermissions(true), rows) && job.CloseJob?
    requires PositionWith(s0.world.broker.positions, job.positionId).Some?
    ensures s == Run(s0, trace)
    ensures Stage(s0, s, s0.nextThread, job, ReadTick(PositionWith(s0.world.broker.positions, job.positionId)), rows)
  {
    var t, held := s0.nextThread, PositionWith(s0.world.broker.positions, job.positionId);
    s, trace := Advance(s0, s1, trace1, t, job, ReadPermissions(true), rows, ReadPositions);
    s, trace := Advance(s0, s, trace, t, job, ReadPositions, rows, ReadSymbol(held));
    s, trace := Advance(s0, s, trace, t, job, ReadSymbol(held), rows, ReadTick(held));
  }

  lemma PassQuote(s0: Sys, s1: Sys, trace1: seq<Action>, job: Job, held: Option<BackendPosition>, order: Prepared,
                  rows: Rows)
    returns (s: Sys, trace: seq<Action>)
    requires s1 == Run(s0, trace1) && Stage(s0, s1, s0.nextThread, job, ReadTick(held), rows)
    requires job.CloseJob? && held.Some? && order == PrepareClose(job, held.value, COOPERATIVE)
    ensures s == Run(s0, trace) && Stage(s0, s, s0.nextThread, job, CheckOrder(order), rows)
  {
    hide Run;
    s, trace := Advance(s0, s1, trace1, s0.nextThread, job, ReadTick(held), rows, JournalContext(order));
    s, trace := Advance(s0, s, trace, s0.nextThread, job, JournalContext(order), rows, CheckOrder(order));
  }

  /** A close needs neither the kill switch nor reconciliation. */
  lemma CloseReachesSubmission(s0: Sys, job: Job) returns (s: Sys, trace: seq<Action>, order: Prepared)
    requires s0.phase.Serving? && job.CloseJob? && PositionWith(s0.world.broker.positions, job.positionId).Some?
    requires AfterBegin(BeginResult(s0.world.store.rows, job.id, PrintOf(job), 0)) == ReadTerminal
    ensures s == Run(s0, trace)
    ensures Stage(s0, s, s0.nextThread, job, SubmitRow(order), BeginRows(s0.world.store.rows, job.id, PrintOf(job), 0))
    ensures order == PrepareClose(job, PositionWith(s0.world.broker.positions, job.positionId).value, COOPERATIVE)
  {
    var t, rows := s0.nextThread, BeginRows(s0.world.store.rows, job.id, PrintOf(job), 0);
    var held := PositionWith(s0.world.broker.positions, job.positionId);
    hide Run;
    s, trace := ReachPermissions(s0, job);
    s, trace := FindPosition(s0, s, trace, job, rows);
    order := PrepareClose(job, held.value, COOPERATIVE);
    s, trace := PassQuote(s0, s, trace, job, held, order, rows);
    s, trace := PassOrderCheck(s0, s, trace, job, order, rows);
  }

  lemma Extend(s0: Sys, s: Sys, trace: seq<Action>, a: Action) returns (s': Sys, trace': seq<Action>)
    requires s == Run(s0, trace)
    ensures s' == Exec(s, a) && s' == Run(s0, trace') && trace' == trace + [a]
  {
    trace' := trace + [a];
    assert trace'[..|trace'| - 1] == trace;
    s' := Exec(s, a);
  }

  /** The compare-and-set and its journal entry. */
  lemma PassBoundary(s0: Sys, s: Sys, trace: seq<Action>, t: nat, job: Job, order: Prepared, rows: Rows)
    returns (s': Sys, trace': seq<Action>)
    requires s == Run(s0, trace) && Stage(s0, s, t, job, SubmitRow(order), rows) && IsRequest(job)
    requires CanTransition(rows, job.id, Received)
    ensures s' == Run(s0, trace')
    ensures s'.world.broker == s0.world.broker && s'.threads == s0.threads[t := Thread(job, SendOrder(order))]
    ensures s'.phase == s0.phase && s'.nextThread == s0.nextThread + 1
    ensures s'.world.store.rows == TransitionRows(rows, job.id, Received, Submitted, 0, NO_PATCH)
    ensures s'.world.store.killActive == s0.world.store.killActive
    ensures s'.world.store.reconciliation == s0.world.store.reconciliation
  {
    s', trace' := Extend(s0, s, trace, Step(t, COOPERATIVE));
    assert s'.threads[t].pc == JournalSubmit(order);
    s', trace' := Extend(s0, s', trace', Step(t, COOPERATIVE));
  }

  /** From the boundary on: the compare-and-set, the journal entry and the call itself. */
  lemma SubmitAndSend(s0: Sys, s: Sys, trace: seq<Action>, t: nat, job: Job, order: Prepared, rows: Rows, env: Env)
    returns (s': Sys, trace': seq<Action>)
    requires s == Run(s0, trace) && Stage(s0, s, t, job, SubmitRow(order), rows) && IsRequest(job)
    requires CanTransition(rows, job.id, Received)
    ensures s' == Run(s0, trace')
    ensures exists answer ::
              s'.world.broker.calls == s0.world.broker.calls +
                [SendCall(job.id, t, job.OpenJob?, order.request, answer)]
    ensures t in s'.threads && s'.threads == s0.threads[t := Thread(job, s'.threads[t].pc)]
    ensures s'.phase == s0.phase && s'.nextThread == s0.nextThread + 1
    ensures s'.world.store.rows == TransitionRows(rows, job.id, Received, Submitted, 0, NO_PATCH)
    ensures s'.world.store.killActive == s0.world.store.killActive
    ensures s'.world.store.reconciliation == s0.world.store.reconciliation
    ensures env.reply.raises ==> s'.threads[t].pc == JournalCrash
    ensures !env.reply.executed ==> s'.world.broker.positions == s0.world.broker.positions
  {
    s', trace' := PassBoundary(s0, s, trace, t, job, order, rows);
    s', trace' := Extend(s0, s', trace', Step(t, env));
  }

  /** Whatever the stored reconciliation state and the kill switch, a close of an open position with a
      fresh id can still reach order_send, and what it sends is the close of that position: only opens
      are gated. */
  lemma ClosesAreNotGated(s: Sys, job: Job, p: BackendPosition) returns (s': Sys, trace: seq<Action>)
    requires s.phase.Serving? && job.CloseJob? && job.id !in s.world.store.rows
    requires PositionWith(s.world.broker.positions, job.positionId) == Some(p)
    ensures s' == Run(s, trace) && SendsClose(s, s', job, p)
    ensures s'.world.store.reconciliation == s.world.store.reconciliation
  {
    FoundInPositions(s.world.broker.positions, job.positionId);
    hide Run;
    var s1, trace1, order := CloseReachesSubmission(s, job);
    var rows := BeginRows(s.world.store.rows, job.id, PrintOf(job), 0);
    s', trace := SubmitAndSend(s, s1, trace1, s.nextThread, job, order, rows, COOPERATIVE);
    assert Closes(p, job.positionId, order.request);
  }

  /** The timestamp guard does not stop duplicates: two requests with one id can both pass every
      check and stand at the compare-and-set together. */
  lemma GuardAdmitsDuplicates(s: Sys, job: Job)
    requires GatesOpen(s, job) && job.id !in s.world.store.rows
    ensures exists trace :: TwoAtBoundary(s, Run(s, trace), job)
  {
    var s1, trace1, order1 := OpenReachesSubmission(s, job);
    var s2, trace2, order2 := OpenReachesSubmission(s1, job);
    RunConcat(s, trace1, trace2);
    assert s2 == Run(s, trace1 + trace2);
    assert TwoAtBoundary(s, s2, job);
  }

  predicate TwoAtBoundary(s: Sys, s': Sys, job: Job)
    requires job.OpenJob?
  {
    var a, b := s.nextThread, s.nextThread + 1;
    && a in s'.threads && s'.threads[a].job == job && s'.threads[a].pc.SubmitRow?
    && b in s'.threads && s'.threads[b].job == job && s'.threads[b].pc.SubmitRow?
    && CanTransition(s'.world.store.rows, job.id, Received)
  }

  // ------------------------------------------------------------------ a start

  /** The bridge has just been started, for the first time or after a crash. */
  predicate JustStarted(s: Sys, boot: nat) {
    s.phase == Starting(boot) && s.threads == map[boot := Thread(ReconcileJob, ReconcilePositions)]
  }

  function FirstVerdict(rows: Rows): ReconciliationState {
    if Incomplete(rows) then Mismatch else ReconciliationOk
  }

  /** The startup reconciliation judges the table it finds, and then the bridge serves. */
  lemma BootServes(s0: Sys, boot: nat) returns (s: Sys, trace: seq<Action>)
    requires JustStarted(s0, boot)
    ensures s == Run(s0, trace) && s.phase.Serving? && s.nextThread == s0.nextThread
    ensures s.world == s0.world.(store := s0.world.store.(reconciliation := Some(FirstVerdict(s0.world.store.rows))))
    ensures s.threads == map[boot := Thread(ReconcileJob, Done(Reported(FirstVerdict(s0.world.store.rows))))]
  {
    hide Run;
    s, trace := BootReads(s0, boot);
    s, trace := Extend(s0, s, trace, Step(boot, COOPERATIVE));
    assert s.world == s0.world;
    assert s.threads == map[boot := Thread(ReconcileJob, Persist(FirstVerdict(s0.world.store.rows)))];
    s, trace := BootStores(s0, s, trace, boot, FirstVerdict(s0.world.store.rows));
  }

  lemma BootStores(s0: Sys, s1: Sys, trace1: seq<Action>, boot: nat, verdict: ReconciliationState)
    returns (s: Sys, trace: seq<Action>)
    requires s1 == Run(s0, trace1) && s1.phase == Starting(boot)
    requires s1.threads == map[boot := Thread(ReconcileJob, Persist(verdict))]
    ensures s == Run(s0, trace) && s.phase.Serving? && s.nextThread == s1.nextThread
    ensures s.world == s1.world.(store := s1.world.store.(reconciliation := Some(verdict)))
    ensures s.threads == map[boot := Thread(ReconcileJob, Done(Reported(verdict)))]
  {
    hide Run;
    s, trace := Extend(s0, s1, trace1, Step(boot, COOPERATIVE));
    s, trace := Extend(s0, s, trace, Serve);
  }

  lemma BootReads(s0: Sys, boot: nat) returns (s: Sys, trace: seq<Action>)
    requires JustStarted(s0, boot)
    ensures s == Run(s0, trace) && s.world == s0.world && s.phase == s0.phase && s.nextThread == s0.nextThread
    ensures s.threads == map[boot := Thread(ReconcileJob, FindIncomplete)]
  {
    s, trace := s0, [];
    assert s == Run(s0, trace);
    hide Run;
    s, trace := Extend(s0, s, trace, Step(boot, COOPERATIVE));
    s, trace := Extend(s0, s, trace, Step(boot, COOPERATIVE));
  }

  predicate SendsClose(s: Sys, s': Sys, job: Job, p: BackendPosition)
    requires job.CloseJob?
  {
    var calls, calls' := s.world.broker.calls, s'.world.broker.calls;
    && |calls'| == |calls| + 1 && calls'[..|calls|] == calls && calls'[|calls|].clientOrderId == job.id
    && !calls'[|calls|].opens && Closes(p, job.positionId, calls'[|calls|].request)
  }

  /** After a crash that left a row SUBMITTED, the bridge comes back with MISMATCH stored, no open can be
      sent, and still every open position can be closed. */
  lemma {:induction false} CrashedBridgeStillCloses(actions: seq<Action>, id: string, job: Job, p: BackendPosition)
    requires var s := Run(Initial(), actions);
             && CanTransition(s.world.store.rows, id, Submitted)
             && job.CloseJob? && job.id !in s.world.store.rows
             && PositionWith(s.world.broker.positions, job.positionId) == Some(p)
    ensures var s := Run(Initial(), actions);
            exists trace ::
              && Run(Exec(s, Crash), trace).world.store.reconciliation == Some(Mismatch)
              && SendsClose(s, Run(Exec(s, Crash), trace), job, p)
  {
    var s := Run(Initial(), actions);
    var crashed := Exec(s, Crash);
    hide Run;
    var served, boot := BootServes(crashed, s.nextThread);
    assert Incomplete(served.world.store.rows);
    var last, trace := ClosesAreNotGated(served, job, p);
    RunConcat(crashed, boot, trace);
    assert Run(crashed, boot + trace) == last;
  }

  /** An order_send that raises, and did not take effect. */
  const RAISING := COOPERATIVE.(reply := SendReply(true, 0, false, None, None))

  /** A reconciliation reads an empty backlog and is preempted before it stores OK. */
  lemma EarlyVerdict(s: Sys) returns (s': Sys, trace: seq<Action>)
    requires s.phase.Serving? && !Incomplete(s.world.store.rows)
    ensures s' == Run(s, trace)
    ensures Stage(s, s', s.nextThread, ReconcileJob, Persist(ReconciliationOk), s.world.store.rows)
  {
    var t, rows := s.nextThread, s.world.store.rows;
    s', trace := Started(s, ReconcileJob);
    s', trace := Advance(s, s', trace, t, ReconcileJob, ReconcilePositions, rows, ReconcileOrders);
    s', trace := Advance(s, s', trace, t, ReconcileJob, ReconcileOrders, rows, FindIncomplete);
    s', trace := Advance(s, s', trace, t, ReconcileJob, FindIncomplete, rows, Persist(ReconciliationOk));
  }

  /** A request is submitted and order_send raises without effect: its row stays SUBMITTED, its thread is over. */
  lemma StuckRequest(s: Sys, job: Job) returns (s': Sys, trace: seq<Action>)
    requires GatesOpen(s, job) && job.id !in s.world.store.rows
    ensures s' == Run(s, trace)
    ensures s'.threads == s.threads[s.nextThread := Thread(job, Done(Raised(SendFailed)))]
    ensures s'.phase == s.phase && s'.nextThread == s.nextThread + 1 && !s'.world.store.killActive
    ensures CanTransition(s'.world.store.rows, job.id, Submitted)
    ensures s'.world.broker.positions == s.world.broker.positions
    ensures s'.world.store.rows.Keys == s.world.store.rows.Keys + {job.id}
    ensures s'.world.store.reconciliation == s.world.store.reconciliation
    ensures var row := s'.world.store.rows[job.id]; LetsDuplicatePass(row) && row.requestHash == PrintOf(job)
  {
    hide Run;
    s', trace := SendRaises(s, job);
    s', trace := Extend(s, s', trace, Step(s.nextThread, COOPERATIVE));
  }

  lemma SendRaises(s: Sys, job: Job) returns (s': Sys, trace: seq<Action>)
    requires GatesOpen(s, job) && job.id !in s.world.store.rows
    ensures s' == Run(s, trace)
    ensures s'.threads == s.threads[s.nextThread := Thread(job, JournalCrash)]
    ensures s'.phase == s.phase && s'.nextThread == s.nextThread + 1 && !s'.world.store.killActive
    ensures CanTransition(s'.world.store.rows, job.id, Submitted)
    ensures s'.world.broker.positions == s.world.broker.positions
    ensures s'.world.store.rows.Keys == s.world.store.rows.Keys + {job.id}
    ensures s'.world.store.reconciliation == s.world.store.reconciliation
    ensures var row := s'.world.store.rows[job.id]; LetsDuplicatePass(row) && row.requestHash == PrintOf(job)
  {
    hide Run;
    var order;
    s', trace, order := OpenReachesSubmission(s, job);
    s', trace := SubmitAndSend(s, s', trace, s.nextThread, job, order,
                               BeginRows(s.world.store.rows, job.id, PrintOf(job), 0), RAISING);
  }

  /** The other kind of row the guard lets through: when the clock reads the same at creation and at
      submission, a duplicate of a request that is already SUBMITTED comes to the compare-and-set, too. */
  lemma GuardAdmitsSubmittedDuplicate(s: Sys, job: Job)
    requires GatesOpen(s, job) && job.id !in s.world.store.rows
    ensures exists trace :: DuplicateOfSubmitted(s, Run(s, trace), job)
  {
    hide Run;
    var s1, trace1 := StuckRequest(s, job);
    var s2, trace2, order := OpenReachesSubmission(s1, job);
    RunConcat(s, trace1, trace2);
    assert s2 == Run(s, trace1 + trace2);
    assert DuplicateOfSubmitted(s, s2, job);
  }

  predicate DuplicateOfSubmitted(s: Sys, s': Sys, job: Job)
    requires job.OpenJob?
  {
    var b := s.nextThread + 1;
    && b in s'.threads && s'.threads[b].job == job && s'.threads[b].pc.SubmitRow?
    && CanTransition(s'.world.store.rows, job.id, Submitted)
  }

  lemma OpenReachesBroker(s: Sys, job: Job) returns (s': Sys, trace: seq<Action>)
    requires GatesOpen(s, job) && job.id !in s.world.store.rows
    ensures s' == Run(s, trace)
    ensures forall tid :: tid in s.threads && tid < s.nextThread ==>
              tid in s'.threads && s'.threads[tid] == s.threads[tid]
    ensures exists i :: 0 <= i < |s'.world.broker.calls| && s'.world.broker.calls[i].clientOrderId == job.id &&
                        s'.world.broker.calls[i].opens
    ensures s'.world.store.reconciliation == Some(ReconciliationOk)
    ensures forall id :: id in s.world.store.rows ==>
              id in s'.world.store.rows && s'.world.store.rows[id] == s.world.store.rows[id]
  {
    var t, rows := s.nextThread, BeginRows(s.world.store.rows, job.id, PrintOf(job), 0);
    var order;
    s', trace, order := OpenReachesSubmission(s, job);
    s', trace := SubmitAndSend(s, s', trace, t, job, order, rows, COOPERATIVE);
    assert s'.world.broker.calls[|s.world.broker.calls|].clientOrderId == job.id;
  }

  /** The early verdict is still waiting when the request gets stuck. */
  lemma EarlyThenStuck(s: Sys, job: Job) returns (s': Sys, trace: seq<Action>)
    requires GatesOpen(s, job) && job.id !in s.world.store.rows && !Incomplete(s.world.store.rows)
    ensures s' == Run(s, trace) && s'.phase == s.phase && s'.nextThread == s.nextThread + 2
    ensures s.nextThread in s'.threads && s'.threads[s.nextThread] == Thread(ReconcileJob, Persist(ReconciliationOk))
    ensures CanTransition(s'.world.store.rows, job.id, Submitted) && !s'.world.store.killActive
    ensures s'.world.store.rows.Keys == s.world.store.rows.Keys + {job.id}
    ensures s'.world.broker.positions == s.world.broker.positions
  {
    hide Run;
    var s1, trace1 := EarlyVerdict(s);
    var s2, trace2 := StuckRequest(s1, job);
    RunConcat(s, trace1, trace2);
    s', trace := s2, trace1 + trace2;
  }

  /** A reconciliation that read the table before a request arrived can store its OK after a later
      one reported MISMATCH: the row stays SUBMITTED without owner, yet the next open is let through. */
  lemma StaleOkHidesStuckRow(s: Sys, job: Job, next: Job)
    requires GatesOpen(s, job) && GatesOpen(s, next) && !Incomplete(s.world.store.rows) && job.id != next.id
    requires job.id !in s.world.store.rows && next.id !in s.world.store.rows
    ensures exists trace :: StuckAndHidden(Run(s, trace), job.id, next.id)
  {
    hide Run;
    var s2, trace2 := EarlyThenStuck(s, job);
    var s3, trace3 := StaleVerdictStored(s2, s.nextThread, job.id);
    var s4, trace4 := OpenReachesBroker(s3, next);
    RunConcat(s, trace2, trace3);
    RunConcat(s, trace2 + trace3, trace4);
    assert s4.threads[s2.nextThread].pc == Done(Reported(Mismatch));
    assert StuckAndHidden(Run(s, trace2 + trace3 + trace4), job.id, next.id);
  }

  /** These runs exist from the very start of the bridge, for any two ids and with room for one position. */
  lemma {:induction false} RacesAreReachable(job: Job, next: Job)
    requires job.OpenJob? && next.OpenJob? && job.id != next.id && job.maxPositions >= 1 && next.maxPositions >= 1
    ensures exists trace :: StuckAndHidden(Run(Initial(), trace), job.id, next.id)
    ensures exists trace, more :: TwoAtBoundary(Run(Initial(), trace), Run(Run(Initial(), trace), more), job)
    ensures exists trace, more :: DuplicateOfSubmitted(Run(Initial(), trace), Run(Run(Initial(), trace), more), job)
  {
    hide Run, StuckAndHidden, TwoAtBoundary, DuplicateOfSubmitted, Exec;
    var s, boot := BootOpensGates();
    StaleOkHidesStuckRow(s, job, next);
    GuardAdmitsDuplicates(s, job);
    var trace :| StuckAndHidden(Run(s, trace), job.id, next.id);
    RunConcat(Initial(), boot, trace);
    assert StuckAndHidden(Run(Initial(), boot + trace), job.id, next.id);
    var more :| TwoAtBoundary(s, Run(s, more), job);
    assert TwoAtBoundary(Run(Initial(), boot), Run(Run(Initial(), boot), more), job);
    GuardAdmitsSubmittedDuplicate(s, job);
    var later :| DuplicateOfSubmitted(s, Run(s, later), job);
    assert DuplicateOfSubmitted(Run(Initial(), boot), Run(Run(Initial(), boot), later), job);
  }

  /** A first start leaves every gate open and the table and the account empty. */
  lemma {:induction false} BootOpensGates() returns (s: Sys, trace: seq<Action>)
    ensures s == Run(Initial(), trace) && s.world.store.rows == map[] && s.world.broker == FRESH_BROKER
    ensures forall job: Job :: job.OpenJob? && job.maxPositions >= 1 ==> GatesOpen(s, job)
  {
    hide Run;
    s, trace := BootServes(Initial(), 0);
    assert !Incomplete(Initial().world.store.rows);
  }

  /** A later reconciliation reports MISMATCH, and then the preempted one stores its OK. */
  lemma StaleVerdictStored(s: Sys, early: nat, id: string) returns (s': Sys, trace: seq<Action>)
    requires s.phase.Serving? && CanTransition(s.world.store.rows, id, Submitted)
    requires early < s.nextThread && early in s.threads
    requires s.threads[early] == Thread(ReconcileJob, Persist(ReconciliationOk))
    ensures s' == Run(s, trace) && s'.phase == s.phase && s'.nextThread == s.nextThread + 1
    ensures s.nextThread in s'.threads && s'.threads[s.nextThread].pc == Done(Reported(Mismatch))
    ensures s'.world.broker == s.world.broker
    ensures s'.world.store.rows == s.world.store.rows && s'.world.store.killActive == s.world.store.killActive
    ensures s'.world.store.reconciliation == Some(ReconciliationOk)
  {
    s', trace := LateMismatch(s, id);
    assert s'.threads[early] == Thread(ReconcileJob, Persist(ReconciliationOk));
    s', trace := Extend(s, s', trace, Step(early, COOPERATIVE));
  }

  /** A stuck row, a MISMATCH already reported, and an open for another id that reached order_send. */
  predicate StuckAndHidden(s: Sys, stuck: string, next: string) {
    && CanTransition(s.world.store.rows, stuck, Submitted)
    && s.world.store.reconciliation == Some(ReconciliationOk)
    && (exists tid :: tid in s.threads && s.threads[tid].pc == Done(Reported(Mismatch)))
    && (exists i :: 0 <= i < |s.world.broker.calls| && s.world.broker.calls[i].clientOrderId == next &&
          s.world.broker.calls[i].opens)
  }

  lemma LateMismatch(s: Sys, id: string) returns (s': Sys, trace: seq<Action>)
    requires s.phase.Serving? && CanTransition(s.world.store.rows, id, Submitted)
    ensures s' == Run(s, trace)
    ensures s'.threads == s.threads[s.nextThread := Thread(ReconcileJob, Done(Reported(Mismatch)))]
    ensures s'.phase == s.phase && s'.nextThread == s.nextThread + 1
    ensures s'.world.store.rows == s.world.store.rows && s'.world.store.killActive == s.world.store.killActive
    ensures s'.world.broker == s.world.broker && s'.world.submitter == s.world.submitter
    ensures s'.world.store.reconciliation == Some(Mismatch)
  {
    hide Run;
    var t, rows := s.nextThread, s.world.store.rows;
    s', trace := MismatchFound(s, id);
    s', trace := Extend(s, s', trace, Step(t, COOPERATIVE));
  }

  lemma MismatchFound(s: Sys, id: string) returns (s': Sys, trace: seq<Action>)
    requires s.phase.Serving? && CanTransition(s.world.store.rows, id, Submitted)
    ensures s' == Run(s, trace) && Stage(s, s', s.nextThread, ReconcileJob, Persist(Mismatch), s.world.store.rows)
  {
    hide Run;
    var t, rows := s.nextThread, s.world.store.rows;
    s', trace := Started(s, ReconcileJob);
    s', trace := Advance(s, s', trace, t, ReconcileJob, ReconcilePositions, rows, ReconcileOrders);
    s', trace := Advance(s, s', trace, t, ReconcileJob, ReconcileOrders, rows, FindIncomplete);
    s', trace := Advance(s, s', trace, t, ReconcileJob, FindIncomplete, rows, Persist(Mismatch));
  }

  /** A request for a FILLED id with the same fields is answered with the stored result, marked as a
      replay, and nothing but the journal changes. */
  lemma ReplayIsAnswered(s: Sys, job: Job)
    requires s.phase.Serving? && IsRequest(job) && CanTransition(s.world.store.rows, job.id, Filled)
    requires s.world.store.rows[job.id].requestHash == PrintOf(job) && s.world.store.rows[job.id].payload.Some?
    ensures exists trace ::
              var s', t, payload := Run(s, trace), s.nextThread, s.world.store.rows[job.id].payload.value;
              && s'.threads == s.threads[t := Thread(job, Done(Returned(payload, true)))]
              && s'.world == s.world.(store := s.world.store.(journal := s'.world.store.journal))
  {
    hide Run;
    var t, rows := s.nextThread, s.world.store.rows;
    var payload := rows[job.id].payload.value;
    var s1, trace := ReachReplay(s, job);
    s1, trace := Advance(s, s1, trace, t, job, JournalReplay(payload), rows, Done(Returned(payload, true)));
    assert s1.world == s.world.(store := s.world.store.(journal := s1.world.store.journal));
    assert s1 == Run(s, trace);
  }

  lemma ReachReplay(s: Sys, job: Job) returns (s1: Sys, trace: seq<Action>)
    requires s.phase.Serving? && IsRequest(job) && CanTransition(s.world.store.rows, job.id, Filled)
    requires s.world.store.rows[job.id].requestHash == PrintOf(job) && s.world.store.rows[job.id].payload.Some?
    ensures s1 == Run(s, trace)
    ensures Stage(s, s1, s.nextThread, job, JournalReplay(s.world.store.rows[job.id].payload.value), s.world.store.rows)
  {
    hide Run;
    s1, trace := ReachBegin(s, job);
    s1, trace := AdvanceBegin(s, s1, trace, s.nextThread, job, s.world.store.rows);
  }

  /** A received attempt without a sign of submission can be resolved: the row ends REJECTED as aborted, and
      the resolution reports what its reconciliation finds. */
  lemma ResolutionGoesThrough(s: Sys, id: string, verdict: ReconciliationState)
    requires s.phase.Serving? && Resolvable(s, id)
    requires var rejected := AbortedRows(s.world.store.rows, id);
             verdict == if Incomplete(rejected) then Mismatch else ReconciliationOk
    ensures exists trace ::
              var s', t := Run(s, trace), s.nextThread;
              && s'.threads == s.threads[t := Thread(ResolveJob(id), Done(Reported(verdict)))]
              && s'.world.store.rows == AbortedRows(s.world.store.rows, id) && s'.world.broker == s.world.broker
              && s'.world.store.reconciliation == Some(verdict)
  {
    hide Run, Incomplete, Resolvable;
    var t := s.nextThread;
    var s1, trace := ReachVerdict(s, id, verdict);
    s1, trace := Extend(s, s1, trace, Step(t, COOPERATIVE));
    assert s1 == Run(s, trace);
  }

  lemma ReachVerdict(s: Sys, id: string, verdict: ReconciliationState) returns (s1: Sys, trace: seq<Action>)
    requires s.phase.Serving? && Resolvable(s, id)
    requires verdict == if Incomplete(AbortedRows(s.world.store.rows, id)) then Mismatch else ReconciliationOk
    ensures s1 == Run(s, trace)
    ensures Stage(s, s1, s.nextThread, ResolveJob(id), Persist(verdict), AbortedRows(s.world.store.rows, id))
  {
    hide Run, Incomplete, Resolvable, TransitionRows;
    var t, job, rejected := s.nextThread, ResolveJob(id), AbortedRows(s.world.store.rows, id);
    s1, trace := ReachAborted(s, id);
    s1, trace := Advance(s, s1, trace, t, job, JournalResolved, rejected, ReconcilePositions);
    s1, trace := Advance(s, s1, trace, t, job, ReconcilePositions, rejected, ReconcileOrders);
    s1, trace := Advance(s, s1, trace, t, job, ReconcileOrders, rejected, FindIncomplete);
    s1, trace := Advance(s, s1, trace, t, job, FindIncomplete, rejected, Persist(verdict));
  }

  predicate Resolvable(s: Sys, id: string) {
    && CanTransition(s.world.store.rows, id, Received) && !HasIdentifiers(s.world.store.rows[id])
    && !HasSubmissionEvidence(s.world.store.journal, id) && !HasTag(s.world.broker.positions, id)
  }

  function AbortedRows(rows: Rows, id: string): Rows {
    TransitionRows(rows, id, Received, Rejected, 0, ErrorPatch(AbortedBeforeSubmission))
  }

  lemma ReachAborted(s: Sys, id: string) returns (s1: Sys, trace: seq<Action>)
    requires s.phase.Serving? && Resolvable(s, id)
    ensures s1 == Run(s, trace)
    ensures Stage(s, s1, s.nextThread, ResolveJob(id), JournalResolved, AbortedRows(s.world.store.rows, id))
  {
    hide Run, HasTag;
    var t, job, rows := s.nextThread, ResolveJob(id), s.world.store.rows;
    s1, trace := ReachEvidence(s, id);
    s1, trace := Advance(s, s1, trace, t, job, ReadLivePositions, rows, ReadLiveOrders(false));
    s1, trace := Advance(s, s1, trace, t, job, ReadLiveOrders(false), rows, AbortRow);
    s1, trace := Extend(s, s1, trace, Step(t, COOPERATIVE));
  }

  /** The row and the journal show nothing. */
  lemma ReachEvidence(s: Sys, id: string) returns (s1: Sys, trace: seq<Action>)
    requires s.phase.Serving? && Resolvable(s, id)
    ensures s1 == Run(s, trace)
    ensures Stage(s, s1, s.nextThread, ResolveJob(id), ReadLivePositions, s.world.store.rows)
  {
    hide Run, HasTag;
    var t, job, rows := s.nextThread, ResolveJob(id), s.world.store.rows;
    s1, trace := Started(s, job);
    s1, trace := Extend(s, s1, trace, Step(t, COOPERATIVE));
    s1, trace := Extend(s, s1, trace, Step(t, COOPERATIVE));
  }
}
