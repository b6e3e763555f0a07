/** The worker's execution store: the three operations it runs against the
    relational backend, over in-memory copies of the tables they touch
    (relays, relay_actions, processed_events, execution_logs). */
module WorkerStore {
  import opened Wrappers
  import opened Json
  import opened Ordering
  import opened WorkerErrors

  /** store.RelayAction: one configured step of a relay, with its decoded config. */
  datatype RelayAction = RelayAction(orderIndex: int, actionType: string, config: Object)

  /** A relay_actions row; `config` is the stored JSON document. */
  datatype ActionRow = ActionRow(relayId: string, actionType: string, config: Doc, orderIndex: int)

  /** An execution_logs row as inserted: `payload` and `errorMessage` are NULL when None. */
  datatype LogRow = LogRow(
    relayId: string, eventId: string, status: string,
    payload: Option<string>, errorMessage: Option<string>)

  /** The tables: `relays` maps a relay id to its is_active flag; `processed` holds the
      dedup markers (relay id, event id). */
  datatype Tables = Tables(
    relays: map<string, bool>,
    actionRows: seq<ActionRow>,
    processed: set<(string, string)>,
    logs: seq<LogRow>)

  /** Where the backend fails during GetRelayActions: the query itself, the scan of
      row `row` of the result, or the iteration after the last row. */
  datatype FetchFault =
    | NoFetchFault
    | QueryFails(cause: string)
    | ScanFails(row: nat, cause: string)
    | RowsFail(cause: string)

  // ----- RegisterEvent -----

  datatype Registered = Registered(tables: Tables, isNew: bool, err: Option<Error>)

  /** The dedup claim, with `fault` the error of the INSERT ... ON CONFLICT DO NOTHING. */
  function RegisterSpec(t: Tables, relayId: string, eventId: string, fault: Option<string>): (r: Registered)
    ensures eventId == "" ==> r == Registered(t, true, None)
    ensures eventId != "" && fault.Some? ==> r == Registered(t, false, Some(DedupInsertFailed(fault.value)))
    ensures eventId != "" && fault.None? ==>
      && r.err == None
      && (r.isNew <==> (relayId, eventId) !in t.processed)
      && r.tables == t.(processed := t.processed + {(relayId, eventId)})
  {
    if eventId == "" then Registered(t, true, None)
    else if fault.Some? then Registered(t, false, Some(DedupInsertFailed(fault.value)))
    else Registered(t.(processed := t.processed + {(relayId, eventId)}), (relayId, eventId) !in t.processed, None)
  }

  /** A second claim of the same non-empty pair reports a duplicate and changes nothing. */
  lemma RegisterTwice(t: Tables, relayId: string, eventId: string)
    requires eventId != ""
    ensures var first := RegisterSpec(t, relayId, eventId, None);
            var second := RegisterSpec(first.tables, relayId, eventId, None);
            !second.isNew && second.err == None && second.tables == first.tables
  {
    var first := RegisterSpec(t, relayId, eventId, None);
    assert (relayId, eventId) in first.tables.processed;
  }

  // ----- GetRelayActions -----

  function OrderIndexOf(row: ActionRow): int { row.orderIndex }

  function ActionOrder(a: RelayAction): int { a.orderIndex }

  /** The rows of relay_actions that belong to relayId, in table order. */
  function RowsOf(rows: seq<ActionRow>, relayId: string): (r: seq<ActionRow>)
    ensures |r| <= |rows|
    ensures forall x :: x in r <==> x in rows && x.relayId == relayId
    ensures forall x :: multiset(r)[x] == if x.relayId == relayId then multiset(rows)[x] else 0
  {
    if rows == [] then []
    else
      assert rows == [rows[0]] + rows[1..];
      (if rows[0].relayId == relayId then [rows[0]] else []) + RowsOf(rows[1..], relayId)
  }

  predicate IsActive(t: Tables, relayId: string) {
    relayId in t.relays && t.relays[relayId]
  }

  /** The result set of the join at store.go:36-40: the actions of relayId if that relay
      exists and is active, ordered by order_index ascending. */
  function QueryResult(t: Tables, relayId: string): (r: seq<ActionRow>)
    ensures SortedBy(r, OrderIndexOf)
    ensures multiset(r) == multiset(if IsActive(t, relayId) then RowsOf(t.actionRows, relayId) else [])
    ensures forall x :: x in r <==> IsActive(t, relayId) && x in t.actionRows && x.relayId == relayId
  {
    var selected := if IsActive(t, relayId) then RowsOf(t.actionRows, relayId) else [];
    var sorted := SortByKey(selected, OrderIndexOf);
    assert forall x :: x in sorted <==> x in multiset(selected);
    sorted
  }

  function ToAction(row: ActionRow, config: Option<Object>): RelayAction {
    RelayAction(row.orderIndex, row.actionType, config.GetOr(map[]))
  }

  /** The rows.Next() loop from row k on, with `acc` the actions built so far. */
  function DecodeFrom(rows: seq<ActionRow>, k: nat, fault: FetchFault, acc: seq<RelayAction>): Result<seq<RelayAction>, Error>
    requires k <= |rows|
    decreases |rows| - k
  {
    if k == |rows| then
      if fault.RowsFail? then Failure(RowsFailed(fault.cause))
      else if acc == [] then Failure(NoActions)
      else Success(acc)
    else if fault.ScanFails? && fault.row == k then Failure(ScanFailed(fault.cause))
    else match DecodeObject(rows[k].config)
      case Failure(e) => Failure(ParseConfigFailed(e))
      case Success(cfg) => DecodeFrom(rows, k + 1, fault, acc + [ToAction(rows[k], cfg)])
  }

  function FetchSpec(t: Tables, relayId: string, fault: FetchFault): Result<seq<RelayAction>, Error> {
    if fault.QueryFails? then Failure(QueryFailed(fault.cause))
    else DecodeFrom(QueryResult(t, relayId), 0, fault, [])
  }

  /** Row k of the result was decoded into action a. */
  predicate DecodedAs(row: ActionRow, a: RelayAction) {
    DecodeObject(row.config).Success? && a == ToAction(row, DecodeObject(row.config).value)
  }

  /** A successful decode appends one action per remaining row to `acc`. */
  lemma {:induction false} DecodeFromLength(rows: seq<ActionRow>, k: nat, fault: FetchFault, acc: seq<RelayAction>, out: seq<RelayAction>)
    requires k <= |rows|
    requires DecodeFrom(rows, k, fault, acc) == Success(out)
    ensures |out| == |acc| + |rows| - k && out[..|acc|] == acc
    ensures out != []
    decreases |rows| - k
  {
    if k < |rows| {
      var acc' := acc + [ToAction(rows[k], DecodeObject(rows[k].config).value)];
      DecodeFromLength(rows, k + 1, fault, acc', out);
      assert out[..|acc'|][..|acc|] == acc;
    }
  }

  /** Row i of a successful decode became the action at the matching place. */
  lemma {:induction false} DecodeFromAt(rows: seq<ActionRow>, k: nat, fault: FetchFault, acc: seq<RelayAction>, out: seq<RelayAction>, i: nat)
    requires k <= i < |rows|
    requires DecodeFrom(rows, k, fault, acc) == Success(out)
    ensures |acc| + i - k < |out| && DecodedAs(rows[i], out[|acc| + i - k])
    decreases i - k
  {
    var acc' := acc + [ToAction(rows[k], DecodeObject(rows[k].config).value)];
    if i == k {
      DecodeFromLength(rows, k + 1, fault, acc', out);
      assert out[|acc|] == out[..|acc'|][|acc|];
    } else {
      DecodeFromAt(rows, k + 1, fault, acc', out, i);
    }
  }

  lemma DecodeFromSuccess(rows: seq<ActionRow>, k: nat, fault: FetchFault, acc: seq<RelayAction>, out: seq<RelayAction>)
    requires k <= |rows|
    requires DecodeFrom(rows, k, fault, acc) == Success(out)
    ensures |out| == |acc| + |rows| - k && out[..|acc|] == acc
    ensures forall i :: k <= i < |rows| ==> DecodedAs(rows[i], out[|acc| + i - k])
    ensures out != []
  {
    DecodeFromLength(rows, k, fault, acc, out);
    forall i | k <= i < |rows| ensures DecodedAs(rows[i], out[|acc| + i - k]) {
      DecodeFromAt(rows, k, fault, acc, out, i);
    }
  }

  /** Decoding keeps the order_index of each row, so a sorted result set gives a sorted
      action list. */
  lemma DecodedSorted(rows: seq<ActionRow>, actions: seq<RelayAction>)
    requires |actions| == |rows| && SortedBy(rows, OrderIndexOf)
    requires forall i :: 0 <= i < |rows| ==> DecodedAs(rows[i], actions[i])
    ensures SortedBy(actions, ActionOrder)
  {
    forall i, j | 0 <= i < j < |actions| ensures ActionOrder(actions[i]) <= ActionOrder(actions[j]) {
      assert DecodedAs(rows[i], actions[i]) && DecodedAs(rows[j], actions[j]);
      assert OrderIndexOf(rows[i]) <= OrderIndexOf(rows[j]);
    }
  }

  /** A successful fetch returns every row of the result set, in its order, decoded;
      the relay is active and the list is non-empty and sorted by order_index. */
  lemma FetchSuccess(t: Tables, relayId: string, fault: FetchFault, actions: seq<RelayAction>)
    requires FetchSpec(t, relayId, fault) == Success(actions)
    ensures var rows := QueryResult(t, relayId);
      && IsActive(t, relayId)
      && |actions| == |rows| > 0
      && (forall i :: 0 <= i < |rows| ==> DecodedAs(rows[i], actions[i]))
      && SortedBy(actions, ActionOrder)
  {
    var rows := QueryResult(t, relayId);
    DecodedResultSet(rows, fault, actions);
    assert rows[0] in rows;
  }

  /** A fully decoded result set: one action per row, in row order. */
  lemma DecodedResultSet(rows: seq<ActionRow>, fault: FetchFault, actions: seq<RelayAction>)
    requires DecodeFrom(rows, 0, fault, []) == Success(actions) && SortedBy(rows, OrderIndexOf)
    ensures |actions| == |rows| > 0 && SortedBy(actions, ActionOrder)
    ensures forall i :: 0 <= i < |rows| ==> DecodedAs(rows[i], actions[i])
  {
    DecodeFromSuccess(rows, 0, fault, [], actions);
    DecodedSorted(rows, actions);
  }

  /** A config that does not decode fails the whole fetch: no partial list. */
  lemma FetchMalformedConfig(t: Tables, relayId: string, fault: FetchFault, i: nat)
    requires i < |QueryResult(t, relayId)| && QueryResult(t, relayId)[i].config == OtherDoc
    ensures FetchSpec(t, relayId, fault).Failure?
  {
    if FetchSpec(t, relayId, fault).Success? {
      FetchSuccess(t, relayId, fault, FetchSpec(t, relayId, fault).value);
    }
  }

  lemma {:induction false} DecodeFromNeverNotFound(rows: seq<ActionRow>, k: nat, fault: FetchFault, acc: seq<RelayAction>)
    requires k <= |rows|
    ensures DecodeFrom(rows, k, fault, acc) != Failure(RelayNotFound)
    ensures DecodeFrom(rows, k, fault, acc) != Success([])
    decreases |rows| - k
  {
    if k < |rows| && !(fault.ScanFails? && fault.row == k) && DecodeObject(rows[k].config).Success? {
      DecodeFromNeverNotFound(rows, k + 1, fault, acc + [ToAction(rows[k], DecodeObject(rows[k].config).value)]);
    }
  }

  /** An empty result set is reported as ErrNoActions, whether the relay is absent,
      inactive or has no actions; ErrRelayNotFound and an empty list never come back. */
  lemma FetchEmpty(t: Tables, relayId: string, fault: FetchFault)
    ensures FetchSpec(t, relayId, fault) != Failure(RelayNotFound)
    ensures FetchSpec(t, relayId, fault) != Success([])
    ensures !fault.QueryFails? && !fault.RowsFail? && QueryResult(t, relayId) == [] ==>
      FetchSpec(t, relayId, fault) == Failure(NoActions)
    ensures !fault.QueryFails? && !fault.RowsFail? && !IsActive(t, relayId) ==>
      FetchSpec(t, relayId, fault) == Failure(NoActions)
  {
    if !fault.QueryFails? {
      DecodeFromNeverNotFound(QueryResult(t, relayId), 0, fault, []);
    }
    if !IsActive(t, relayId) {
      assert QueryResult(t, relayId) == [];
    }
  }

  // ----- LogExecution -----

  /** The row `LogExecution(relayID, eventID, status, details, payload)` inserts. */
  function LogRowFor(relayId: string, eventId: string, status: string, details: string, payload: string): (row: LogRow)
    ensures row.relayId == relayId && row.eventId == eventId && row.status == status
    ensures row.payload.None? <==> payload == ""
    ensures row.payload.Some? ==> row.payload.value == payload
    ensures row.errorMessage.Some? <==> status != "success" && details != ""
    ensures row.errorMessage.Some? ==> row.errorMessage.value == details
  {
    LogRow(relayId, eventId, status,
           if |payload| > 0 then Some(payload) else None,
           if status != "success" && details != "" then Some(details) else None)
  }

  datatype Logged = Logged(tables: Tables, err: Option<Error>)

  function LogSpec(t: Tables, relayId: string, eventId: string, status: string, details: string,
                   payload: string, fault: Option<string>): (r: Logged)
    ensures fault.None? ==> r == Logged(t.(logs := t.logs + [LogRowFor(relayId, eventId, status, details, payload)]), None)
    ensures fault.Some? ==> r == Logged(t, Some(LogWriteFailed(fault.value)))
  {
    match fault
    case None => Logged(t.(logs := t.logs + [LogRowFor(relayId, eventId, status, details, payload)]), None)
    case Some(cause) => Logged(t, Some(LogWriteFailed(cause)))
  }

  /** store.Store over in-memory tables. */
  /** The rows.Next() loop of GetRelayActions: scan each row and unmarshal its config,
      stopping at the first error; then the iteration error and the empty result. */
  method ScanActions(rows: seq<ActionRow>, fault: FetchFault) returns (r: Result<seq<RelayAction>, Error>)
    ensures r == DecodeFrom(rows, 0, fault, [])
  {
    var actions: seq<RelayAction> := [];
    var i := 0;
    while i < |rows|
      invariant 0 <= i <= |rows|
      invariant DecodeFrom(rows, i, fault, actions) == DecodeFrom(rows, 0, fault, [])
    {
      if fault.ScanFails? && fault.row == i {
        return Failure(ScanFailed(fault.cause));
      }
      var config := DecodeObject(rows[i].config);
      if config.Failure? {
        return Failure(ParseConfigFailed(config.error));
      }
      actions := actions + [ToAction(rows[i], config.value)];
      i := i + 1;
    }
    if fault.RowsFail? {
      return Failure(RowsFailed(fault.cause));
    }
    if |actions| == 0 {
      return Failure(NoActions);
    }
    return Success(actions);
  }

  class Store {
    var relays: map<string, bool>
    var actionRows: seq<ActionRow>
    var processed: set<(string, string)>
    var logs: seq<LogRow>

    /** The current contents of the tables. */
    function Snapshot(): Tables
      reads this
    {
      Tables(relays, actionRows, processed, logs)
    }

    constructor (relays: map<string, bool>, actionRows: seq<ActionRow>)
      ensures Snapshot() == Tables(relays, actionRows, {}, [])
    {
      this.relays := relays;
      this.actionRows := actionRows;
      this.processed := {};
      this.logs := [];
    }

    /** Insert-if-absent on the dedup markers; `fault` is a backend error on the insert. */
    method RegisterEvent(relayId: string, eventId: string, fault: Option<string>) returns (isNew: bool, err: Option<Error>)
      modifies this`processed
      ensures Registered(Snapshot(), isNew, err) == RegisterSpec(old(Snapshot()), relayId, eventId, fault)
    {
      if eventId == "" {
        return true, None;
      }
      if fault.Some? {
        return false, Some(DedupInsertFailed(fault.value));
      }
      isNew := (relayId, eventId) !in processed;
      processed := processed + {(relayId, eventId)};
      err := None;
    }

    /** The ordered, active-relay-filtered actions of relayId, decoded row by row. */
    method GetRelayActions(relayId: string, fault: FetchFault) returns (r: Result<seq<RelayAction>, Error>)
      ensures r == FetchSpec(Snapshot(), relayId, fault)
    {
      if fault.QueryFails? {
        return Failure(QueryFailed(fault.cause));
      }
      var rows := QueryResult(Snapshot(), relayId);
      r := ScanActions(rows, fault);
    }

    /** Append one execution_logs row; `fault` is a backend error on the insert. */
    method LogExecution(relayId: string, eventId: string, status: string, details: string,
                        payload: string, fault: Option<string>) returns (err: Option<Error>)
      modifies this`logs
      ensures Logged(Snapshot(), err) == LogSpec(old(Snapshot()), relayId, eventId, status, details, payload, fault)
    {
      if fault.Some? {
        return Some(LogWriteFailed(fault.value));
      }
      logs := logs + [LogRowFor(relayId, eventId, status, details, payload)];
      return None;
    }
  }
}
