/** The bridge's persistent store: the idempotency table, the append-only journal, the kill
    switch and the last reconciliation state. The table operations are functions on a map;
    the class `BridgeStore` applies each of them to its fields as one atomic method, as the
    original does under its lock and transaction. */
module BridgeTable {
  import opened Common

  datatype OrderState = Received | Submitted | Filled | Rejected | NeedsReconciliation

  datatype ReconciliationState = ReconciliationOk | Mismatch | Unknown

  /** The semantic fields a request fingerprint is computed from; equal fields, equal fingerprint. */
  datatype Fingerprint =
    | OpenPrint(symbol: string, side: string, volume: string)
    | ClosePrint(positionId: nat)

  /** The result stored with a FILLED row and replayed to later requests with the same id. */
  datatype Payload =
    | OrderPayload(clientOrderId: string, brokerOrderId: nat, dealId: nat, positionId: nat,
                   requestedVolume: string, filledVolume: string, bid: real, ask: real,
                   referencePrice: real, fillPrice: real, slippage: real, timestamp: int)
    | ClosePayload(clientOrderId: string, positionId: nat, closedVolume: string, dealId: nat, bid: real, ask: real,
                   referencePrice: real, fillPrice: real, slippage: real, timestamp: int)

  datatype ErrorCode =
    | AutotradingDisabled | KillSwitchActive | ReconciliationNotOk | TooManyPositions | SymbolNotTradable
    | InvalidVolume | StaleQuote | PositionNotFound | OrderCheckFailed | AbortedBeforeSubmission
    | BrokerRetcode(retcode: int)

  datatype Row = Row(
    requestHash: Fingerprint,
    state: OrderState,
    createdAt: int,
    updatedAt: int,
    brokerOrderId: Option<nat>,
    dealId: Option<nat>,
    positionId: Option<nat>,
    payload: Option<Payload>,
    errorCode: Option<ErrorCode>)

  /** The optional columns of an update; None leaves the column as it is (SQL COALESCE). */
  datatype Patch = Patch(
    brokerOrderId: Option<nat>,
    dealId: Option<nat>,
    positionId: Option<nat>,
    payload: Option<Payload>,
    errorCode: Option<ErrorCode>)

  const NO_PATCH := Patch(None, None, None, None, None)

  function ErrorPatch(code: ErrorCode): Patch {
    NO_PATCH.(errorCode := Some(code))
  }

  datatype Event =
    | BeginEvent | ConflictEvent | ReplayEvent | ContextEvent | CheckEvent | PreSubmitRejectedEvent
    | SubmittingEvent | CrashDuringSendEvent | SendRejectedEvent | FilledEvent | ResolvedEvent

  datatype Entry = Entry(clientOrderId: string, event: Event)

  type Rows = map<string, Row>

  predicate Terminal(state: OrderState) {
    state == Filled || state == Rejected
  }

  /** Journal events that show a request came to the order_send boundary. */
  predicate SubmissionEvidence(event: Event) {
    event == SubmittingEvent || event == CrashDuringSendEvent || event == FilledEvent
  }

  predicate HasSubmissionEvidence(journal: seq<Entry>, id: string) {
    exists e :: e in journal && e.clientOrderId == id && SubmissionEvidence(e.event)
  }

  /** The history of one client order, oldest first. */
  function EntriesFor(journal: seq<Entry>, id: string): seq<Entry> {
    if journal == [] then []
    else
      var last := journal[|journal| - 1];
      EntriesFor(journal[..|journal| - 1], id) + if last.clientOrderId == id then [last] else []
  }

  /** The entries are those of the journal at these places: exactly the client order's own, in their order. */
  ghost predicate HistoryAt(journal: seq<Entry>, id: string, entries: seq<Entry>, places: seq<nat>) {
    && |places| == |entries|
    && (forall k :: 0 <= k < |places| ==> places[k] < |journal| && entries[k] == journal[places[k]])
    && (forall k :: 0 <= k < |entries| ==> entries[k].clientOrderId == id)
    && (forall j, k :: 0 <= j < k < |places| ==> places[j] < places[k])
    && (forall i: nat :: i < |journal| && journal[i].clientOrderId == id ==> i in places)
  }

  lemma OneMoreEntry(journal: seq<Entry>, id: string, entries: seq<Entry>, places: seq<nat>, e: Entry)
    requires HistoryAt(journal, id, entries, places)
    ensures e.clientOrderId == id ==> HistoryAt(journal + [e], id, entries + [e], places + [|journal|])
    ensures e.clientOrderId != id ==> HistoryAt(journal + [e], id, entries, places)
  {
    forall i: nat | i < |journal + [e]| && (journal + [e])[i].clientOrderId == id
      ensures i in places + [|journal|] && (e.clientOrderId != id ==> i in places)
    {
      assert i < |journal| ==> i in places;
    }
  }

  lemma {:induction false} EntriesAreHistory(journal: seq<Entry>, id: string)
    ensures exists places :: HistoryAt(journal, id, EntriesFor(journal, id), places)
  {
    if journal == [] {
      assert HistoryAt(journal, id, EntriesFor(journal, id), []);
    } else {
      hide HistoryAt;
      var n := |journal| - 1;
      var before := EntriesFor(journal[..n], id);
      EntriesAreHistory(journal[..n], id);
      var places :| HistoryAt(journal[..n], id, before, places);
      OneMoreEntry(journal[..n], id, before, places, journal[n]);
      assert journal[..n] + [journal[n]] == journal;
      if journal[n].clientOrderId == id {
        assert EntriesFor(journal, id) == before + [journal[n]];
        assert HistoryAt(journal, id, before + [journal[n]], places + [n]);
      } else {
        assert EntriesFor(journal, id) == before;
        assert HistoryAt(journal, id, before, places);
      }
    }
  }

  predicate HasIdentifiers(row: Row) {
    row.brokerOrderId.Some? || row.dealId.Some? || row.positionId.Some? || row.payload.Some?
  }

  function FreshRow(hash: Fingerprint, now: int): Row {
    Row(hash, Received, now, now, None, None, None, None, None)
  }

  function Coalesce<T>(update: Option<T>, stored: Option<T>): Option<T> {
    if update.Some? then update else stored
  }

  function Patched(row: Row, state: OrderState, now: int, patch: Patch): Row {
    Row(row.requestHash, state, row.createdAt, now,
        Coalesce(patch.brokerOrderId, row.brokerOrderId), Coalesce(patch.dealId, row.dealId),
        Coalesce(patch.positionId, row.positionId), Coalesce(patch.payload, row.payload),
        Coalesce(patch.errorCode, row.errorCode))
  }

  datatype BeginOutcome = Conflict | Record(row: Row)

  function BeginRows(rows: Rows, id: string, hash: Fingerprint, now: int): Rows {
    if id in rows then rows else rows[id := FreshRow(hash, now)]
  }

  function BeginResult(rows: Rows, id: string, hash: Fingerprint, now: int): BeginOutcome {
    if id !in rows then Record(FreshRow(hash, now))
    else if rows[id].requestHash != hash then Conflict
    else Record(rows[id])
  }

  /** The unconditional update: it looks at the id only, never at the row's state. */
  function UpdateRows(rows: Rows, id: string, state: OrderState, now: int, patch: Patch): Rows {
    if id in rows then rows[id := Patched(rows[id], state, now, patch)] else rows
  }

  predicate CanTransition(rows: Rows, id: string, expected: OrderState) {
    id in rows && rows[id].state == expected
  }

  /** The compare-and-set: the update happens only from the expected state. */
  function TransitionRows(rows: Rows, id: string, expected: OrderState, state: OrderState, now: int,
                          patch: Patch): Rows {
    if CanTransition(rows, id, expected) then UpdateRows(rows, id, state, now, patch) else rows
  }

  predicate Incomplete(rows: Rows) {
    exists id :: id in rows && (rows[id].state == Received || rows[id].state == Submitted)
  }

  /** Everything the database file holds. */
  datatype StoreState = StoreState(
    rows: Rows,
    journal: seq<Entry>,
    killActive: bool,
    reconciliation: Option<ReconciliationState>)

  const EMPTY_STORE := StoreState(map[], [], false, None)

  class BridgeStore {
    var rows: Rows
    var journal: seq<Entry>
    var killActive: bool
    var reconciliation: Option<ReconciliationState>

    function View(): StoreState
      reads this
    {
      StoreState(rows, journal, killActive, reconciliation)
    }

    constructor ()
      ensures View() == EMPTY_STORE
    {
      rows, journal, killActive, reconciliation := map[], [], false, None;
    }

    method GetIdempotencyRecord(id: string) returns (record: Option<Row>)
      ensures record == if id in rows then Some(rows[id]) else None
    {
      if id in rows { record := Some(rows[id]); } else { record := None; }
    }

    method BeginIdempotentRequest(id: string, hash: Fingerprint, now: int) returns (outcome: BeginOutcome)
      modifies this`rows
      ensures rows == BeginRows(old(rows), id, hash, now)
      ensures outcome == BeginResult(old(rows), id, hash, now)
    {
      if id in rows {
        var existing := rows[id];
        if existing.requestHash != hash {
          return Conflict;
        }
        return Record(existing);
      }
      rows := rows[id := FreshRow(hash, now)];
      outcome := Record(FreshRow(hash, now));
    }

    method UpdateIdempotencyState(id: string, state: OrderState, now: int, patch: Patch)
      modifies this`rows
      ensures rows == UpdateRows(old(rows), id, state, now, patch)
    {
      if id in rows {
        rows := rows[id := Patched(rows[id], state, now, patch)];
      }
    }

    method TransitionIdempotencyState(id: string, expected: OrderState, state: OrderState, now: int, patch: Patch)
      returns (ok: bool)
      modifies this`rows
      ensures ok == CanTransition(old(rows), id, expected)
      ensures rows == TransitionRows(old(rows), id, expected, state, now, patch)
    {
      ok := id in rows && rows[id].state == expected;
      if ok {
        rows := rows[id := Patched(rows[id], state, now, patch)];
      }
    }

    method FindIncompleteAtStartup() returns (found: set<string>)
      ensures forall id :: id in found <==> id in rows && (rows[id].state == Received || rows[id].state == Submitted)
      ensures found != {} <==> Incomplete(rows)
    {
      found := set id | id in rows && (rows[id].state == Received || rows[id].state == Submitted);
      if Incomplete(rows) {
        ghost var id :| id in rows && (rows[id].state == Received || rows[id].state == Submitted);
        assert id in found;
      }
    }

    method AppendJournal(id: string, event: Event)
      modifies this`journal
      ensures journal == old(journal) + [Entry(id, event)]
    {
      journal := journal + [Entry(id, event)];
    }

    method ReadJournalForClientOrderId(id: string) returns (entries: seq<Entry>)
      ensures entries == EntriesFor(journal, id)
      ensures exists places :: HistoryAt(journal, id, entries, places)
    {
      entries := [];
      for i := 0 to |journal|
        invariant entries == EntriesFor(journal[..i], id)
      {
        assert journal[..i + 1][..i] == journal[..i];
        if journal[i].clientOrderId == id {
          entries := entries + [journal[i]];
        }
      }
      assert journal[..|journal|] == journal;
      EntriesAreHistory(journal, id);
    }

    method SetKillSwitch(active: bool)
      modifies this`killActive
      ensures killActive == active
    {
      killActive := active;
    }

    method SetLastReconciliation(state: ReconciliationState)
      modifies this`reconciliation
      ensures reconciliation == Some(state)
    {
      reconciliation := Some(state);
    }
  }
}
