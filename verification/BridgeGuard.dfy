/** What the timestamp guard is worth: over every run, exactly which rows let a second request with the
    same id and fields go on to its business checks. */
module BridgeGuard {
  import opened Common
  import opened BridgeTable
  import opened BridgeProtocol
  import opened BridgeSafety
  import opened BridgeTheorems

  /** A row is written twice at the earliest when it leaves RECEIVED. */
  predicate Unwritten(row: Row) {
    row.state == Received ==> row.updatedAt == row.createdAt
  }

  predicate AllUnwritten(rows: Rows) {
    forall id :: id in rows ==> Unwritten(rows[id])
  }

  lemma StepKeepsUnwritten(w: World, tid: nat, th: Thread, env: Env, id: string)
    requires RowsOk(w.store.rows, w.submitter) && ThreadOk(w, tid, th) && AllUnwritten(w.store.rows)
    requires id in RowsAfter(w, th, env)
    ensures Unwritten(RowsAfter(w, th, env)[id])
  {
    EffectOnTable(w, tid, th, env);
    hide ThreadOk, RowsOk;
    if id !in w.store.rows { NewRowIsFresh(w, th, env, id); }
    hide RowsAfter;
  }

  lemma NewRowIsFresh(w: World, th: Thread, env: Env, id: string)
    requires id in RowsAfter(w, th, env) && id !in w.store.rows
    ensures Unwritten(RowsAfter(w, th, env)[id])
  {
  }

  lemma ExecKeepsUnwritten(s: Sys, action: Action)
    requires Inv(s) && AllUnwritten(s.world.store.rows)
    ensures AllUnwritten(Exec(s, action).world.store.rows)
  {
    hide Effect, NextPc, RowsAfter, Unwritten;
    if action.Step? && Enabled(s, action) {
      var th := s.threads[action.thread];
      assert ThreadOk(s.world, action.thread, th);
      EffectParts(s.world, action.thread, th, action.env);
      forall id | id in RowsAfter(s.world, th, action.env) ensures Unwritten(RowsAfter(s.world, th, action.env)[id]) {
        StepKeepsUnwritten(s.world, action.thread, th, action.env, id);
      }
    }
  }

  lemma {:induction false} RunKeepsUnwritten(actions: seq<Action>)
    ensures AllUnwritten(Run(Initial(), actions).world.store.rows)
  {
    hide Exec, Inv;
    if actions != [] {
      var init := actions[..|actions| - 1];
      RunKeepsUnwritten(init);
      Reachable(init);
      ExecKeepsUnwritten(Run(Initial(), init), actions[|actions| - 1]);
    }
  }

  /** The rows that let a duplicate pass: every RECEIVED row, and a SUBMITTED row whose submission was
      stamped with the very reading it was created with. */
  predicate LetsDuplicatePass(row: Row) {
    row.state == Received || (row.state == Submitted && row.updatedAt == row.createdAt)
  }

  /** Over every run, crashes and restarts included: a request that finds a row with its own fingerprint
      goes on to its business checks if and only if the row is one of those two kinds. */
  lemma {:induction false} GuardPassesExactlyWhen(actions: seq<Action>, tid: nat, env: Env)
    requires var s := Run(Initial(), actions);
             && tid in s.threads && IsRequest(s.threads[tid].job) && s.threads[tid].pc.BeginRow?
             && s.threads[tid].job.id in s.world.store.rows
             && s.world.store.rows[s.threads[tid].job.id].requestHash == PrintOf(s.threads[tid].job)
    ensures var s := Run(Initial(), actions);
            NextPc(s.world, s.threads[tid], env) == ReadTerminal <==>
              LetsDuplicatePass(s.world.store.rows[s.threads[tid].job.id])
  {
    RunKeepsUnwritten(actions);
    Reachable(actions);
    var s := Run(Initial(), actions);
    hide Run;
    var row := s.world.store.rows[s.threads[tid].job.id];
    assert RowOk(row, s.threads[tid].job.id in s.world.submitter) && Unwritten(row);
  }
}
