/** What the protocol means for the broker's own books: no client order id ever holds two positions. */
module BridgeBroker {
  import opened Common
  import opened BridgeTable
  import opened BridgeProtocol
  import opened BridgeSafety

  predicate HasOrder(pc: Pc) {
    pc.JournalContext? || pc.CheckOrder? || pc.JournalCheck? || pc.SubmitRow? || pc.JournalSubmit? || pc.SendOrder?
  }

  /** Every order in preparation carries the identity tag of its own request. */
  predicate Tagged(th: Thread) {
    HasOrder(th.pc) ==> th.pc.order.request.comment == JobId(th.job)
  }

  predicate PositionsOk(positions: seq<BackendPosition>, calls: seq<SendCall>, nextTicket: nat) {
    && (forall i :: 0 <= i < |positions| ==> 
          positions[i].ticket < nextTicket && (positions[i].tag.Some? ==> !NotCalled(calls, positions[i].tag.value)))
    && Distinct(positions)
  }

  predicate BooksOk(s: Sys) {
    && PositionsOk(s.world.broker.positions, s.world.broker.calls, s.world.broker.nextTicket)
    && forall tid :: tid in s.threads ==> Tagged(s.threads[tid])
  }

  lemma {:induction false} WithoutTicketMembers(positions: seq<BackendPosition>, ticket: nat)
    ensures forall p :: p in WithoutTicket(positions, ticket) ==> p in positions
  {
    if positions != [] {
      var n := |positions| - 1;
      WithoutTicketMembers(positions[..n], ticket);
    }
  }

  predicate Distinct(positions: seq<BackendPosition>) {
    forall i, j :: 0 <= i < j < |positions| ==>
      positions[i].ticket != positions[j].ticket && (positions[i].tag.Some? ==> positions[i].tag != positions[j].tag)
  }

  lemma {:induction false} WithoutTicketDistinct(positions: seq<BackendPosition>, ticket: nat)
    requires Distinct(positions)
    ensures Distinct(WithoutTicket(positions, ticket))
  {
    if positions != [] {
      var n := |positions| - 1;
      var rest := WithoutTicket(positions[..n], ticket);
      WithoutTicketDistinct(positions[..n], ticket);
      WithoutTicketMembers(positions[..n], ticket);
      forall i | 0 <= i < |rest|
        ensures rest[i].ticket != positions[n].ticket && (rest[i].tag.Some? ==> rest[i].tag != positions[n].tag)
      {
        assert rest[i] in positions[..n];
      }
    }
  }

  lemma OneMoreCall(positions: seq<BackendPosition>, calls: seq<SendCall>, call: SendCall, nextTicket: nat)
    requires PositionsOk(positions, calls, nextTicket)
    ensures PositionsOk(positions, calls + [call], nextTicket) && PositionsOk(positions, calls + [call], nextTicket + 1)
  {
    forall i | 0 <= i < |positions| && positions[i].tag.Some?
      ensures !NotCalled(calls + [call], positions[i].tag.value)
    {
      assert !NotCalled(calls, positions[i].tag.value);
      var k :| 0 <= k < |calls| && calls[k].clientOrderId == positions[i].tag.value;
      assert (calls + [call])[k] == calls[k];
    }
  }

  lemma SentKeepsBooks(broker: Broker, call: SendCall)
    requires PositionsOk(broker.positions, broker.calls, broker.nextTicket)
    requires NotCalled(broker.calls, call.clientOrderId) && call.request.comment == call.clientOrderId
    ensures var b := Sent(broker, call); PositionsOk(b.positions, b.calls, b.nextTicket)
  {
    OneMoreCall(broker.positions, broker.calls, call, broker.nextTicket);
    if call.answer.reply.executed {
      match call.request.positionTicket
      case Some(ticket) =>
        WithoutTicketDistinct(broker.positions, ticket);
        WithoutTicketMembers(broker.positions, ticket);
        var kept := WithoutTicket(broker.positions, ticket);
        forall i | 0 <= i < |kept|
          ensures kept[i].ticket < broker.nextTicket + 1
          ensures kept[i].tag.Some? ==> !NotCalled(broker.calls + [call], kept[i].tag.value)
        {
          assert kept[i] in broker.positions;
        }
      case None =>
        assert (broker.calls + [call])[|broker.calls|].clientOrderId == call.request.comment;
    }
  }

  lemma StepKeepsTag(w: World, th: Thread, env: Env)
    requires Tagged(th) && RightPc(th.job, th.pc)
    ensures Tagged(th.(pc := NextPc(w, th, env)))
  {
    if IsRequest(th.job) && !SubmissionPc(th.pc) { CheckKeepsTag(w, th.job, th.pc, env); }
  }

  lemma CheckKeepsTag(w: World, job: Job, pc: Pc, env: Env)
    requires Tagged(Thread(job, pc)) && IsRequest(job) && !SubmissionPc(pc)
    ensures Tagged(Thread(job, CheckNext(w, job, pc, env)))
  {
  }

  /** Positions opened outside the bridge carry no tag of its own. */
  lemma MoveKeepsBooks(w: World, move: BrokerMove)
    requires PositionsOk(w.broker.positions, w.broker.calls, w.broker.nextTicket)
    ensures var b := Moved(w, move).broker; PositionsOk(b.positions, b.calls, b.nextTicket)
  {
    if move.ForeignClose? {
      WithoutTicketDistinct(w.broker.positions, move.ticket);
      WithoutTicketMembers(w.broker.positions, move.ticket);
      var kept := WithoutTicket(w.broker.positions, move.ticket);
      forall i | 0 <= i < |kept|
        ensures kept[i].ticket < w.broker.nextTicket
        ensures kept[i].tag.Some? ==> !NotCalled(w.broker.calls, kept[i].tag.value)
      {
        assert kept[i] in w.broker.positions;
      }
    }
  }

  lemma ExecKeepsBooks(s: Sys, action: Action)
    requires Inv(s) && BooksOk(s)
    ensures BooksOk(Exec(s, action))
  {
    if Enabled(s, action) {
      match action
      case Step(tid, env) =>
        var th := s.threads[tid];
        assert ThreadOk(s.world, tid, th);
        StepKeepsTag(s.world, th, env);
        if th.pc.SendOrder? {
          SentKeepsBooks(s.world.broker, CallOf(s.world, tid, th, env));
        }
      case Spawn(job) => assert !HasOrder(FirstPc(job));
      case External(move) => MoveKeepsBooks(s.world, move);
      case _ =>
    }
  }

  lemma {:induction false} BooksKept(s: Sys, more: seq<Action>)
    requires Inv(s) && BooksOk(s)
    ensures BooksOk(Run(s, more))
  {
    hide Inv, BooksOk, Exec;
    if more != [] {
      var init := more[..|more| - 1];
      BooksKept(s, init);
      RunKeepsInv(s, init);
      ExecKeepsBooks(Run(s, init), more[|more| - 1]);
    }
  }

  lemma {:induction false} RunKeepsBooks(actions: seq<Action>)
    ensures BooksOk(Run(Initial(), actions))
  {
    Reachable([]);
    assert Run(Initial(), []) == Initial();
    BooksKept(Initial(), actions);
  }

  /** In every run, open positions have distinct tickets, and those the bridge opened have distinct client
      order ids, each of an id order_send was called for, even when calls raised after executing and
      requests were retried. */
  lemma OnePositionPerClientOrder(actions: seq<Action>)
    ensures var b := Run(Initial(), actions).world.broker;
            && (forall i, j :: 0 <= i < j < |b.positions| ==>
                  b.positions[i].ticket != b.positions[j].ticket &&
                  (b.positions[i].tag.Some? ==> b.positions[i].tag != b.positions[j].tag))
            && (forall i :: 0 <= i < |b.positions| && b.positions[i].tag.Some? ==>
                  !NotCalled(b.calls, b.positions[i].tag.value))
  {
    RunKeepsBooks(actions);
  }
}
