/** One thread driven by its surroundings. A schedule says, turn by turn, what the other threads do
    first, what the terminal then shows and what the clock reads; it leaves the thread no choice, so
    where the thread ends after so many turns is a function of the schedule. */
module BridgeDriver {
  import opened Common
  import opened BridgeTable
  import opened BridgeProtocol
  import opened BridgeSafety
  import opened BridgeTheorems

  datatype AccountInfo = AccountInfo(demo: bool, tradeAllowed: bool, tradeExpert: bool)
  datatype TerminalInfo = TerminalInfo(connected: bool, tradeAllowed: bool)
  datatype SymbolInfo = SymbolInfo(visible: bool, tradeEnabled: bool, volumeMin: string)
  datatype Tick = Tick(bid: real, ask: real, isFresh: bool)

  /** What the terminal shows at one moment; it may be different at the next. `orders` are the
      identity tags of the working orders. */
  datatype Market = Market(
    raises: bool, account: AccountInfo, connected: bool, terminal: TerminalInfo,
    symbols: map<string, SymbolInfo>, ticks: map<string, Tick>, orders: seq<string>,
    checkPasses: bool, reply: SendReply)

  /** What happens before the thread's next step: other threads' actions, a new market, a clock reading. */
  datatype Turn = Turn(others: seq<Action>, market: Market, now: int)

  // ------------------------------------------------------------------ what a step sees

  /** The symbol a request asks the terminal about. */
  function SymbolOf(th: Thread): string {
    if th.job.OpenJob? then th.job.symbol
    else if (th.pc.ReadSymbol? || th.pc.ReadTick?) && th.pc.position.Some? then th.pc.position.value.symbol
    else ""
  }

  /** A close needs metadata only; an open needs full trading enabled. */
  predicate Tradable(job: Job, symbols: map<string, SymbolInfo>, symbol: string) {
    symbol in symbols && (!job.OpenJob? || (symbols[symbol].visible && symbols[symbol].tradeEnabled))
  }

  predicate VolumeOk(job: Job, symbols: map<string, SymbolInfo>, symbol: string) {
    symbol in symbols && job.OpenJob? && job.volume == symbols[symbol].volumeMin
  }

  predicate Usable(ticks: map<string, Tick>, symbol: string) {
    symbol in ticks && ticks[symbol].isFresh
  }

  predicate TerminalOk(market: Market) {
    market.terminal.connected && market.terminal.tradeAllowed
  }

  predicate FlagsOk(market: Market) {
    market.account.tradeAllowed && market.account.tradeExpert
  }

  /** Whether the condition a step asks about holds in the market it meets. */
  predicate Holds(th: Thread, market: Market) {
    match th.pc
    case ReadAccount => market.account.demo
    case ReadConnection => market.connected
    case ReadTerminal => TerminalOk(market)
    case ReadPermissions(_) => FlagsOk(market)
    case ReadSymbol(_) => Tradable(th.job, market.symbols, SymbolOf(th))
    case ReadTick(_) => Usable(market.ticks, SymbolOf(th))
    case CheckOrder(_) => market.checkPasses
    case ReadLiveOrders(_) => JobId(th.job) !in market.orders
    case _ => true
  }

  function Observed(th: Thread, t: Turn): Env {
    var symbol, ticks := SymbolOf(th), t.market.ticks;
    Env(t.now, t.market.raises, Holds(th, t.market), VolumeOk(th.job, t.market.symbols, symbol),
        if symbol in ticks then ticks[symbol].bid else 0.0, if symbol in ticks then ticks[symbol].ask else 0.0,
        t.market.reply)
  }

  // ------------------------------------------------------------------ turns

  /** What other threads, operators, startups and the market can do while thread `tid` exists. */
  predicate Foreign(action: Action, tid: nat) {
    match action
    case Step(t, _) => t != tid
    case Abort(t) => t != tid
    case Crash => false
    case _ => true
  }

  function ForeignOnly(actions: seq<Action>, tid: nat): seq<Action> {
    if actions == [] then []
    else
      var last := actions[|actions| - 1];
      ForeignOnly(actions[..|actions| - 1], tid) + if Foreign(last, tid) then [last] else []
  }

  /** The others have taken their part of the turn. */
  function Others(s: Sys, tid: nat, t: Turn): Sys {
    Run(s, ForeignOnly(t.others, tid))
  }

  predicate Alive(s: Sys, tid: nat) {
    tid in s.threads && !s.threads[tid].pc.Done?
  }

  /** One turn: the others, then one step of the thread in the market it meets. */
  function TurnOn(s: Sys, tid: nat, t: Turn): Sys {
    var m := Others(s, tid, t);
    if Alive(m, tid) then StepThread(m, tid, Observed(m.threads[tid], t)) else m
  }

  /** Where the turns from..until lead. */
  function Driven(s: Sys, tid: nat, schedule: nat -> Turn, from: nat, until: nat): Sys
    decreases until
  {
    if until <= from then s else TurnOn(Driven(s, tid, schedule, from, until - 1), tid, schedule(until - 1))
  }

  lemma {:induction false} DrivenAdds(s: Sys, tid: nat, schedule: nat -> Turn, a: nat, b: nat, c: nat)
    requires a <= b <= c
    ensures Driven(Driven(s, tid, schedule, a, b), tid, schedule, b, c) == Driven(s, tid, schedule, a, c)
    decreases c
  {
    hide TurnOn;
    if b < c { DrivenAdds(s, tid, schedule, a, b, c - 1); }
  }

  lemma OneTurn(s: Sys, tid: nat, schedule: nat -> Turn, n: nat)
    ensures Driven(s, tid, schedule, n, n + 1) == TurnOn(s, tid, schedule(n))
  {
    hide TurnOn;
    assert Driven(s, tid, schedule, n, n) == s;
  }

  lemma ForeignStepKeepsThread(s: Sys, action: Action, tid: nat)
    requires tid in s.threads && tid < s.nextThread && Foreign(action, tid)
    ensures var s' := Exec(s, action);
            tid in s'.threads && tid < s'.nextThread && s'.threads[tid] == s.threads[tid]
  {
  }

  lemma {:induction false} ForeignKeepsThread(s: Sys, actions: seq<Action>, tid: nat)
    requires tid in s.threads && tid < s.nextThread
    ensures var s' := Run(s, ForeignOnly(actions, tid));
            tid in s'.threads && tid < s'.nextThread && s'.threads[tid] == s.threads[tid]
  {
    hide Exec;
    if actions != [] {
      var init, last := actions[..|actions| - 1], actions[|actions| - 1];
      ForeignKeepsThread(s, init, tid);
      if Foreign(last, tid) {
        var all := ForeignOnly(init, tid) + [last];
        assert all[..|all| - 1] == ForeignOnly(init, tid);
        ForeignStepKeepsThread(Run(s, ForeignOnly(init, tid)), last, tid);
      } else {
        assert ForeignOnly(actions, tid) == ForeignOnly(init, tid);
      }
    }
  }

  // ------------------------------------------------------------------ every drive is a run

  /** The thread takes its own steps, and nobody ends it, erases it or moves it. */
  predicate Untouched(actions: seq<Action>, tid: nat) {
    forall i :: 0 <= i < |actions| ==> Foreign(actions[i], tid) || (actions[i].Step? && actions[i].thread == tid)
  }

  lemma {:induction false} ForeignIsUntouched(actions: seq<Action>, tid: nat)
    ensures Untouched(ForeignOnly(actions, tid), tid)
  {
    if actions != [] { ForeignIsUntouched(actions[..|actions| - 1], tid); }
  }

  lemma TurnIsRun(s: Sys, tid: nat, t: Turn) returns (actions: seq<Action>)
    ensures TurnOn(s, tid, t) == Run(s, actions) && Untouched(actions, tid)
  {
    hide StepThread, Observed;
    ForeignIsUntouched(t.others, tid);
    actions := ForeignOnly(t.others, tid);
    var m := Others(s, tid, t);
    if Alive(m, tid) {
      var step := Step(tid, Observed(m.threads[tid], t));
      assert (actions + [step])[..|actions|] == actions;
      assert Exec(m, step) == StepThread(m, tid, step.env);
      actions := actions + [step];
    }
  }

  /** A drive is a run of the protocol in which the thread itself takes steps and nothing else: it is
      neither aborted nor caught in a crash. */
  lemma {:induction false} DrivenIsRun(s: Sys, tid: nat, schedule: nat -> Turn, from: nat, until: nat)
    returns (actions: seq<Action>)
    requires from <= until
    ensures Driven(s, tid, schedule, from, until) == Run(s, actions) && Untouched(actions, tid)
    decreases until
  {
    hide TurnOn, Exec;
    if from == until {
      actions := [];
      assert Run(s, []) == s;
    } else {
      var before := DrivenIsRun(s, tid, schedule, from, until - 1);
      var last := TurnIsRun(Driven(s, tid, schedule, from, until - 1), tid, schedule(until - 1));
      RunConcat(s, before, last);
      actions := before + last;
    }
  }

  lemma {:induction false} DrivenKeepsInv(s: Sys, tid: nat, schedule: nat -> Turn, from: nat, until: nat)
    requires Inv(s) && from <= until
    ensures Inv(Driven(s, tid, schedule, from, until))
  {
    var actions := DrivenIsRun(s, tid, schedule, from, until);
    hide Inv, Driven;
    RunKeepsInv(s, actions);
  }

  /** No turn of anybody changes a terminal row. */
  lemma {:induction false} TerminalStays(s: Sys, tid: nat, schedule: nat -> Turn, from: nat, until: nat, id: string)
    requires Inv(s) && from <= until && id in s.world.store.rows && Terminal(s.world.store.rows[id].state)
    ensures var rows' := Driven(s, tid, schedule, from, until).world.store.rows;
            id in rows' && rows'[id] == s.world.store.rows[id]
  {
    var actions := DrivenIsRun(s, tid, schedule, from, until);
    hide Inv, Driven, Run;
    RunOnRows(s, actions, id);
  }

  /** Nor the row a thread owns, until that thread itself records how order_send ended. */
  lemma OwnedTurn(s: Sys, tid: nat, t: Turn)
    requires Inv(s) && tid in s.threads && IsRequest(s.threads[tid].job) && Owning(s.threads[tid].pc)
    ensures var th, rows' := s.threads[tid], TurnOn(s, tid, t).world.store.rows;
            && th.job.id in rows'
            && (!th.pc.RecordRejected? && !th.pc.RecordFilled? ==> rows'[th.job.id].state == Submitted)
            && (th.pc.RecordRejected? ==>
                  rows'[th.job.id].state == Rejected &&
                    rows'[th.job.id].errorCode == Some(BrokerRetcode(th.pc.retcode)))
            && (th.pc.RecordFilled? ==> RowHolds(rows', th.job.id, th.pc.payload))
  {
    var th, m := s.threads[tid], Others(s, tid, t);
    assert tid < s.nextThread;
    ForeignKeepsThread(s, t.others, tid);
    RunKeepsInv(s, ForeignOnly(t.others, tid));
    assert ThreadOk(m.world, tid, th);
    hide Others, Inv;
    OwnedStep(m.world, tid, th, Observed(th, t));
    EffectParts(m.world, tid, th, Observed(th, t));
    hide RowsAfter, Effect;
    assert TurnOn(s, tid, t).world == Effect(m.world, tid, th, Observed(th, t));
  }

  lemma OwnedStep(w: World, tid: nat, th: Thread, env: Env)
    requires ThreadOk(w, tid, th) && IsRequest(th.job) && Owning(th.pc)
    ensures var rows' := RowsAfter(w, th, env);
            && th.job.id in rows'
            && (!th.pc.RecordRejected? && !th.pc.RecordFilled? ==> rows'[th.job.id].state == Submitted)
            && (th.pc.RecordRejected? ==>
                  rows'[th.job.id].state == Rejected &&
                    rows'[th.job.id].errorCode == Some(BrokerRetcode(th.pc.retcode)))
            && (th.pc.RecordFilled? ==> RowHolds(rows', th.job.id, th.pc.payload))
  {
  }
}
