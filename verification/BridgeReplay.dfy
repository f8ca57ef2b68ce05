/** Idempotent replay: what a later request with an already FILLED id gets. */
module BridgeReplay {
  import opened Common
  import opened BridgeTable
  import opened BridgeProtocol
  import opened BridgeSafety
  import opened BridgeTheorems

  /** Everywhere a request can be when its id is FILLED with `payload` and its fields match. */
  predicate ReplayPath(pc: Pc, payload: Payload) {
    || pc.ReadAccount? || pc.ReadConnection? || pc.JournalBegin? || pc.BeginRow?
    || pc == JournalReplay(payload)
    || pc == Done(Returned(payload, true)) || pc == Done(Raised(NotDemo)) || pc == Done(Raised(Aborted))
  }

  /** Everywhere a request can be when its id is taken by a request with other fields. */
  predicate ConflictPath(pc: Pc) {
    || pc.ReadAccount? || pc.ReadConnection? || pc.JournalBegin? || pc.BeginRow? || pc.JournalConflict?
    || pc == Done(Raised(RequestConflict)) || pc == Done(Raised(NotDemo)) || pc == Done(Raised(Aborted))
  }

  predicate OnPath(th: Thread, row: Row) {
    IsRequest(th.job) &&
    if PrintOf(th.job) == row.requestHash then row.payload.Some? && ReplayPath(th.pc, row.payload.value)
    else ConflictPath(th.pc)
  }

  /** A step on the path stays on it and changes nothing but the journal. */
  lemma PathStep(w: World, tid: nat, th: Thread, env: Env)
    requires IsRequest(th.job) && CanTransition(w.store.rows, th.job.id, Filled)
    requires OnPath(th, w.store.rows[th.job.id])
    ensures OnPath(th.(pc := NextPc(w, th, env)), w.store.rows[th.job.id])
    ensures var w' := Effect(w, tid, th, env);
            w' == w.(store := w.store.(journal := w'.store.journal)) && w.store.journal <= w'.store.journal
  {
  }

  /** Every request for `id` that starts at thread number `mark` or later is on the path. */
  predicate LateOnPath(s: Sys, mark: nat, id: string) {
    && CanTransition(s.world.store.rows, id, Filled)
    && mark <= s.nextThread
    && forall tid :: tid in s.threads && mark <= tid && IsRequest(s.threads[tid].job) && s.threads[tid].job.id == id ==>
         OnPath(s.threads[tid], s.world.store.rows[id])
  }

  lemma LateOnPathExec(s: Sys, action: Action, mark: nat, id: string)
    requires Inv(s) && LateOnPath(s, mark, id)
    ensures LateOnPath(Exec(s, action), mark, id)
  {
    ExecOnRows(s, action);
    assert RowOk(s.world.store.rows[id], true);
    if action.Step? && Enabled(s, action) {
      var th := s.threads[action.thread];
      if mark <= action.thread && IsRequest(th.job) && th.job.id == id {
        PathStep(s.world, action.thread, th, action.env);
      }
    }
  }

  lemma {:induction false} LateOnPathRun(s: Sys, more: seq<Action>, mark: nat, id: string)
    requires Inv(s) && LateOnPath(s, mark, id)
    ensures LateOnPath(Run(s, more), mark, id)
  {
    if more != [] {
      var init := more[..|more| - 1];
      LateOnPathRun(s, init, mark, id);
      RunKeepsInv(s, init);
      LateOnPathExec(Run(s, init), more[|more| - 1], mark, id);
    }
  }

  /** Once an id is FILLED, a request for it that starts later, after any number of crashes, can
      only replay the stored result (equal fields) or raise the conflict (other fields). Its steps
      write nothing but journal entries, so neither order_check nor order_send is called. */
  lemma {:induction false} ReplayFidelity(actions: seq<Action>, more: seq<Action>, id: string, tid: nat, env: Env)
    requires var s := Run(Initial(), actions);
             && CanTransition(s.world.store.rows, id, Filled) && s.nextThread <= tid
             && tid in Run(s, more).threads
             && IsRequest(Run(s, more).threads[tid].job) && Run(s, more).threads[tid].job.id == id
    ensures var s := Run(Initial(), actions);
            var row, s' := s.world.store.rows[id], Run(s, more);
            var th, w' := s'.threads[tid], Effect(s'.world, tid, s'.threads[tid], env);
            && row.payload.Some?
            && (PrintOf(th.job) == row.requestHash ==> ReplayPath(th.pc, row.payload.value))
            && (PrintOf(th.job) != row.requestHash ==> ConflictPath(th.pc))
            && id in s'.world.store.rows && s'.world.store.rows[id] == row
            && w' == s'.world.(store := s'.world.store.(journal := w'.store.journal))
            && s'.world.store.journal <= w'.store.journal
  {
    var s := Run(Initial(), actions);
    Reachable(actions);
    assert RowOk(s.world.store.rows[id], true);
    LateOnPathRun(s, more, s.nextThread, id);
    RunOnRows(s, more, id);
    PathStep(Run(s, more).world, tid, Run(s, more).threads[tid], env);
  }

  /** Two requests for one id that both return a result return the same result. */
  lemma {:induction false} ResultsAgree(actions: seq<Action>, first: nat, second: nat)
    requires var s := Run(Initial(), actions);
             && first in s.threads && second in s.threads
             && JobId(s.threads[first].job) == JobId(s.threads[second].job)
             && s.threads[first].pc.Done? && s.threads[first].pc.outcome.Returned?
             && s.threads[second].pc.Done? && s.threads[second].pc.outcome.Returned?
    ensures var s := Run(Initial(), actions);
            s.threads[first].pc.outcome.payload == s.threads[second].pc.outcome.payload
  {
    Reachable(actions);
    var s := Run(Initial(), actions);
    assert ThreadOk(s.world, first, s.threads[first]);
    assert ThreadOk(s.world, second, s.threads[second]);
  }
}
