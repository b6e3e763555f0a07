/** The core service's relay store: relays, their actions and their execution logs
    held as in-memory tables, with the CRUD operations of the API. Database faults,
    the clock and generated ids are parameters. */
module CoreStore {
  import opened Wrappers
  import opened Json
  import opened Ordering
  import opened Text

  const DefaultLogLimit: int := 50
  const WebhookPathPrefix: string := "/hooks/"

  /** models.Relay. The store leaves `webhookUrl` empty; the handlers fill it in. */
  datatype Relay = Relay(id: string, userId: string, name: string, description: string,
                         webhookPath: string, webhookUrl: string, isActive: bool,
                         createdAt: int, updatedAt: int)

  /** models.RelayAction; a None config is a nil map. */
  datatype RelayAction = RelayAction(id: string, relayId: string, actionType: string,
                                     config: Option<Object>, orderIndex: int,
                                     createdAt: int, updatedAt: int)

  datatype RelayWithActions = RelayWithActions(relay: Relay, actions: seq<RelayAction>)

  /** models.ExecutionLog; a NULL error_message reads as "". */
  datatype ExecutionLog = ExecutionLog(id: string, relayId: string, status: string,
                                       payload: Option<Object>, errorMessage: string, executedAt: int)

  /** models.CreateRelayActionInput and models.CreateRelayRequest. */
  datatype CreateRelayActionInput = CreateRelayActionInput(actionType: string, config: Option<Object>, orderIndex: int)
  datatype CreateRelayRequest = CreateRelayRequest(name: string, userId: string, description: string,
                                                   actions: seq<CreateRelayActionInput>)

  /** models.UpdateRelayRequest; None is a nil field (absent from the body). */
  datatype UpdateRelayRequest = UpdateRelayRequest(name: Option<string>, description: Option<string>, isActive: Option<bool>)

  /** A row of `relays`, keyed by id in the table. */
  datatype RelayRow = RelayRow(userId: string, name: string, description: string, webhookPath: string,
                               isActive: bool, createdAt: int, updatedAt: int)

  /** A row of `relay_actions`; the config column holds a JSON document. */
  datatype ActionRow = ActionRow(id: string, relayId: string, actionType: string, config: Doc,
                                 orderIndex: int, createdAt: int, updatedAt: int)

  /** A row of `execution_logs`; None is SQL NULL. */
  datatype LogRow = LogRow(id: string, relayId: string, status: string, payload: Option<Doc>,
                           errorMessage: Option<string>, executedAt: int)

  datatype Database = Database(relays: map<string, RelayRow>, actions: seq<ActionRow>, logs: seq<LogRow>)

  /** A Go error value as `errors.Is` sees it: the package's sentinel, a fresh value from
      `fmt.Errorf` without `%w` (a new value, equal to nothing else), or a context
      wrapping a driver error. */
  datatype StoreError = Sentinel(text: string) | Fresh(text: string) | Wrapped(context: string, cause: string)

  /** `store.ErrRelayNotFound`. */
  const ErrRelayNotFound: StoreError := Sentinel("relay not found")

  /** The not-found error the store returns as written (relay_store.go:148, 235, 252). */
  const NotFoundAsWritten: StoreError := Fresh("relay not found")

  /** `err.Error()`. */
  function ErrorText(e: StoreError): string {
    match e
    case Sentinel(t) => t
    case Fresh(t) => t
    case Wrapped(c, cause) => c + cause
  }

  /** `errors.Is(err, target)`: only the sentinel itself matches a sentinel; a driver
      cause under `%w` is never one of the store's sentinels. */
  predicate ErrorsIs(err: StoreError, target: StoreError) {
    target.Sentinel? && err == target
  }

  /** The as-written not-found error has the sentinel's text but is not the sentinel. */
  lemma NotFoundAsWrittenIsNotSentinel()
    ensures ErrorText(NotFoundAsWritten) == ErrorText(ErrRelayNotFound)
    ensures !ErrorsIs(NotFoundAsWritten, ErrRelayNotFound)
    ensures ErrorsIs(ErrRelayNotFound, ErrRelayNotFound)
  {
  }

  function RelayOf(id: string, row: RelayRow): (r: Relay)
    ensures r.id == id && r.webhookUrl == "" && r.webhookPath == row.webhookPath
  {
    Relay(id, row.userId, row.name, row.description, row.webhookPath, "", row.isActive, row.createdAt, row.updatedAt)
  }

  // ---------------------------------------------------------------- CreateRelay

  /** Where the CreateRelay transaction fails, if anywhere. */
  datatype CreateFault =
    | NoCreateFault
    | BeginFails(cause: string)
    | RelayInsertFails(cause: string)
    | ActionInsertFails(index: nat, cause: string)
    | CommitFails(cause: string)

  const DuplicateKey: string := "duplicate key value violates unique constraint"

  /** The columns of the relay INSERT and its VALUES list, as written and corrected. */
  const RelayColumns: seq<string> :=
    ["id", "user_id", "name", "description", "webhook_path", "is_active", "created_at", "updated_at"]
  /** The VALUES list of the relay INSERT split at its commas, as written and corrected. */
  const RelayValuesAsWritten: seq<string> := ["$1", "$2", "$3", "$4", "$5", "$6.$7.$8"]
  const RelayValues: seq<string> := ["$1", "$2", "$3", "$4", "$5", "$6", "$7", "$8"]

  /** A bound statement argument. `BoolAddress` is the address of the `*bool` field, as `&req.IsActive` passes it. */
  datatype Arg = TimeArg(t: int) | TextArg(s: string) | BoolArg(b: bool) | BoolAddress(b: bool)

  /** The eight arguments of the relay INSERT (relay_store.go:38-46). */
  function RelayInsertArgs(relayId: string, req: CreateRelayRequest, now: int): (args: seq<Arg>)
    ensures |args| == |RelayColumns|
  {
    [TextArg(relayId), TextArg(req.userId), TextArg(req.name), TextArg(req.description),
     TextArg(WebhookPathPrefix + relayId), BoolArg(true), TimeArg(now), TimeArg(now)]
  }

  /** As written, the VALUES list has six expressions for eight columns and eight
      arguments, and its last one is not a placeholder, so the relay INSERT is rejected
      and no relay can be created. */
  lemma RelayInsertAsWrittenMismatch(relayId: string, req: CreateRelayRequest, now: int)
    ensures |RelayValuesAsWritten| == 6 < |RelayColumns| == |RelayInsertArgs(relayId, req, now)|
    ensures RelayValuesAsWritten[5] != Placeholder(6)
  {
    assert RelayValuesAsWritten[5][2] == '.';
  }

  /** The corrected VALUES list is `$1` to `$8`, one placeholder per column and argument. */
  lemma RelayInsertMatches(relayId: string, req: CreateRelayRequest, now: int)
    ensures |RelayValues| == |RelayColumns| == |RelayInsertArgs(relayId, req, now)|
    ensures forall i :: 0 <= i < |RelayValues| ==> RelayValues[i] == Placeholder(i + 1)
  {
    forall i | 0 <= i < |RelayValues| ensures RelayValues[i] == Placeholder(i + 1) {
      assert IntToString(i + 1) == [DigitChar(i + 1)];
    }
  }

  /** The action-insert error as written: `%w` with no operand, so the driver error is
      dropped and the text ends in Go's missing-operand marker. */
  function InsertActionErrorAsWritten(cause: string): StoreError {
    Fresh("insert action: %!w(MISSING)")
  }

  /** The action-insert error as intended: the driver error wrapped under a context. */
  function InsertActionError(cause: string): StoreError {
    Wrapped("insert action: ", cause)
  }

  /** As written the cause is lost: two different driver errors give the same error;
      corrected, the cause is kept in the text. */
  lemma InsertActionCauseLost(c1: string, c2: string)
    requires c1 != c2
    ensures InsertActionErrorAsWritten(c1) == InsertActionErrorAsWritten(c2)
    ensures ErrorText(InsertActionError(c1)) != ErrorText(InsertActionError(c2))
  {
    assert ErrorText(InsertActionError(c1))[|"insert action: "|..] == c1;
  }

  function NewRelayRow(req: CreateRelayRequest, relayId: string, now: int): RelayRow {
    RelayRow(req.userId, req.name, req.description, WebhookPathPrefix + relayId, true, now, now)
  }

  function ActionRowOf(input: CreateRelayActionInput, id: string, relayId: string, now: int): ActionRow {
    ActionRow(id, relayId, input.actionType, EncodeObject(input.config), input.orderIndex, now, now)
  }

  /** The rows the transaction inserts into relay_actions, in request order. */
  function NewActionRows(req: CreateRelayRequest, relayId: string, ids: seq<string>, now: int): (rows: seq<ActionRow>)
    requires |ids| == |req.actions|
    ensures |rows| == |req.actions|
    ensures forall k :: 0 <= k < |rows| ==>
      && rows[k] == ActionRowOf(req.actions[k], ids[k], relayId, now)
      && rows[k].relayId == relayId && rows[k].id == ids[k]
      && rows[k].actionType == req.actions[k].actionType
      && DecodeObject(rows[k].config) == Success(req.actions[k].config)
      && rows[k].orderIndex == req.actions[k].orderIndex
  {
    seq(|req.actions|, k requires 0 <= k < |req.actions| => ActionRowOf(req.actions[k], ids[k], relayId, now))
  }

  /** The actions the call returns: one per request action, in request order. */
  function CreatedActions(req: CreateRelayRequest, relayId: string, ids: seq<string>, now: int): (acts: seq<RelayAction>)
    requires |ids| == |req.actions|
    ensures |acts| == |req.actions|
  {
    seq(|req.actions|, k requires 0 <= k < |req.actions| =>
      var input := req.actions[k];
      RelayAction(ids[k], relayId, input.actionType, input.config, input.orderIndex, now, now))
  }

  datatype Created = Created(db: Database, result: Result<RelayWithActions, StoreError>)

  /** `RelayStore.CreateRelay` (relay_store.go:23-92) with the corrected statements: one
      transaction, rolled back on any error. */
  function CreateSpec(db: Database, req: CreateRelayRequest, relayId: string, ids: seq<string>, now: int,
                      fault: CreateFault): Created
    requires |ids| == |req.actions|
  {
    if fault.BeginFails? then Created(db, Failure(Wrapped("begin transaction: ", fault.cause)))
    else if fault.RelayInsertFails? then Created(db, Failure(Wrapped("insert relay: ", fault.cause)))
    else if relayId in db.relays then Created(db, Failure(Wrapped("insert relay: ", DuplicateKey)))
    else if fault.ActionInsertFails? && fault.index < |req.actions| then
      Created(db, Failure(InsertActionError(fault.cause)))
    else if fault.CommitFails? then Created(db, Failure(Wrapped("commit transaction: ", fault.cause)))
    else
      var row := NewRelayRow(req, relayId, now);
      Created(db.(relays := db.relays[relayId := row], actions := db.actions + NewActionRows(req, relayId, ids, now)),
              Success(RelayWithActions(RelayOf(relayId, row), CreatedActions(req, relayId, ids, now))))
  }

  /** A created relay has webhook path "/hooks/" + its id, is active, and carries one
      action per request action in request order; the tables gain exactly its rows.
      A failed call leaves every table as it was. */
  lemma CreateRelayShape(db: Database, req: CreateRelayRequest, relayId: string, ids: seq<string>, now: int,
                         fault: CreateFault)
    requires |ids| == |req.actions|
    ensures var c := CreateSpec(db, req, relayId, ids, now, fault);
      && (c.result.Failure? ==> c.db == db)
      && (c.result.Success? ==>
            var r := c.result.value;
            && relayId !in db.relays
            && r.relay.id == relayId && r.relay.webhookPath == "/hooks/" + relayId && r.relay.isActive
            && r.relay.userId == req.userId && r.relay.name == req.name && r.relay.description == req.description
            && |r.actions| == |req.actions|
            && (forall k :: 0 <= k < |req.actions| ==>
                  && r.actions[k].id == ids[k] && r.actions[k].relayId == relayId
                  && r.actions[k].actionType == req.actions[k].actionType
                  && r.actions[k].config == req.actions[k].config
                  && r.actions[k].orderIndex == req.actions[k].orderIndex)
            && c.db.relays == db.relays[relayId := NewRelayRow(req, relayId, now)]
            && c.db.actions == db.actions + NewActionRows(req, relayId, ids, now)
            && c.db.logs == db.logs)
      && (c.result.Success? <==>
            !fault.BeginFails? && !fault.RelayInsertFails? && relayId !in db.relays
            && !(fault.ActionInsertFails? && fault.index < |req.actions|) && !fault.CommitFails?)
  {
  }

  // ---------------------------------------------------------------- reading rows

  /** The failures of a multi-row query: the query itself, the scan of one row, or the
      error reported after the last row. */
  datatype ReadFault = NoReadFault | QueryFails(cause: string) | ScanFails(row: nat, cause: string) | RowsFail(cause: string)

  /** The `rows.Next()` loop from row k on, with `acc` the values built so far: each row
      is scanned and decoded; the first failure ends the loop, and `rows.Err()` is
      checked after the last row. */
  function DecodeRows<R, T>(rows: seq<R>, k: nat, fault: ReadFault, acc: seq<T>,
                            decode: R -> Result<T, StoreError>, scanContext: string): Result<seq<T>, StoreError>
    requires k <= |rows|
    decreases |rows| - k
  {
    if k == |rows| then
      if fault.RowsFail? then Failure(Wrapped("rows error: ", fault.cause)) else Success(acc)
    else if fault.ScanFails? && fault.row == k then Failure(Wrapped(scanContext, fault.cause))
    else match decode(rows[k])
      case Failure(e) => Failure(e)
      case Success(v) => DecodeRows(rows, k + 1, fault, acc + [v], decode, scanContext)
  }

  /** A successful read decodes every row, in order, and nothing else. */
  lemma {:induction false} DecodeRowsSuccess<R, T>(rows: seq<R>, k: nat, fault: ReadFault, acc: seq<T>,
                                                   decode: R -> Result<T, StoreError>, scanContext: string)
    requires k <= |rows|
    ensures var r := DecodeRows(rows, k, fault, acc, decode, scanContext);
      r.Success? ==>
        && |r.value| == |acc| + |rows| - k && r.value[..|acc|] == acc
        && forall i :: k <= i < |rows| ==> decode(rows[i]) == Success(r.value[|acc| + i - k])
    decreases |rows| - k
  {
    if k < |rows| && !(fault.ScanFails? && fault.row == k) && decode(rows[k]).Success? {
      var v := decode(rows[k]).value;
      DecodeRowsSuccess(rows, k + 1, fault, acc + [v], decode, scanContext);
      var r := DecodeRows(rows, k + 1, fault, acc + [v], decode, scanContext);
      if r.Success? {
        assert r.value[..|acc| + 1][..|acc|] == r.value[..|acc|];
      }
    }
  }

  /** A row that does not decode, with no scan fault at or before it, makes the whole
      read fail with its error: no partial list is returned, and a later scan fault or
      a `rows.Err()` failure is never reached. */
  lemma {:induction false} DecodeRowsFailure<R, T>(rows: seq<R>, k: nat, fault: ReadFault, acc: seq<T>,
                                                   decode: R -> Result<T, StoreError>, scanContext: string, bad: nat)
    requires k <= bad < |rows| && decode(rows[bad]).Failure?
    requires !(fault.ScanFails? && fault.row <= bad)
    requires forall i :: k <= i < bad ==> decode(rows[i]).Success?
    ensures DecodeRows(rows, k, fault, acc, decode, scanContext) == Failure(decode(rows[bad]).error)
    decreases bad - k
  {
    if k < bad {
      DecodeRowsFailure(rows, k + 1, fault, acc + [decode(rows[k]).value], decode, scanContext, bad);
    }
  }

  /** The loop of relay_store.go:168-193 and 278-310 over the rows of a query. */
  method ReadRows<R, T>(rows: seq<R>, fault: ReadFault, decode: R -> Result<T, StoreError>, scanContext: string)
    returns (r: Result<seq<T>, StoreError>)
    ensures r == DecodeRows(rows, 0, fault, [], decode, scanContext)
  {
    var values: seq<T> := [];
    var i := 0;
    while i < |rows|
      invariant 0 <= i <= |rows|
      invariant DecodeRows(rows, i, fault, values, decode, scanContext) == DecodeRows(rows, 0, fault, [], decode, scanContext)
    {
      if fault.ScanFails? && fault.row == i {
        return Failure(Wrapped(scanContext, fault.cause));
      }
      var decoded := decode(rows[i]);
      if decoded.Failure? {
        return Failure(decoded.error);
      }
      values := values + [decoded.value];
      i := i + 1;
    }
    if fault.RowsFail? {
      return Failure(Wrapped("rows error: ", fault.cause));
    }
    r := Success(values);
  }

  // ---------------------------------------------------------------- GetRelay

  function ActionsOf(rows: seq<ActionRow>, relayId: string): (r: seq<ActionRow>)
    ensures forall x :: x in r <==> x in rows && x.relayId == relayId
    ensures forall i :: 0 <= i < |r| ==> r[i].relayId == relayId
    ensures forall x :: multiset(r)[x] == if x.relayId == relayId then multiset(rows)[x] else 0
  {
    if rows == [] then []
    else
      assert rows == [rows[0]] + rows[1..];
      (if rows[0].relayId == relayId then [rows[0]] else []) + ActionsOf(rows[1..], relayId)
  }

  function RowOrder(row: ActionRow): int { row.orderIndex }

  /** The rows `WHERE relay_id = $1 ORDER BY order_index ASC`. */
  function ActionQuery(db: Database, relayId: string): seq<ActionRow> {
    SortByKey(ActionsOf(db.actions, relayId), RowOrder)
  }

  /** One scanned action row, its config unmarshalled into a map. */
  function DecodeAction(row: ActionRow): (r: Result<RelayAction, StoreError>)
    ensures r.Success? ==> r.value.relayId == row.relayId && r.value.orderIndex == row.orderIndex
                           && r.value.actionType == row.actionType
    ensures r.Failure? <==> row.config.OtherDoc?
  {
    match DecodeObject(row.config)
    case Failure(m) => Failure(Wrapped("unmarshal config: ", m))
    case Success(c) => Success(RelayAction(row.id, row.relayId, row.actionType, c, row.orderIndex, row.createdAt, row.updatedAt))
  }

  /** The failures of GetRelay: the relay lookup, then the action query. */
  datatype GetFault = GetFault(relayQuery: Option<string>, actions: ReadFault)

  /** `RelayStore.GetRelay` (relay_store.go:129-199), with a missing relay reported by
      the sentinel the handlers test for. */
  function GetSpec(db: Database, relayId: string, fault: GetFault): Result<RelayWithActions, StoreError> {
    if fault.relayQuery.Some? then Failure(Wrapped("query relay: ", fault.relayQuery.value))
    else if relayId !in db.relays then Failure(ErrRelayNotFound)
    else if fault.actions.QueryFails? then Failure(Wrapped("query actions: ", fault.actions.cause))
    else match DecodeRows(ActionQuery(db, relayId), 0, fault.actions, [], DecodeAction, "scan action: ")
      case Failure(e) => Failure(e)
      case Success(actions) => Success(RelayWithActions(RelayOf(relayId, db.relays[relayId]), actions))
  }

  function ActionOrder(a: RelayAction): int { a.orderIndex }

  /** The action rows of a relay come out of the query sorted by order_index, and all
      belong to it. */
  lemma ActionQueryRows(db: Database, relayId: string)
    ensures var rows := ActionQuery(db, relayId);
      SortedBy(rows, RowOrder) && forall i :: 0 <= i < |rows| ==> rows[i].relayId == relayId
  {
    var rows := ActionQuery(db, relayId);
    forall i | 0 <= i < |rows| ensures rows[i].relayId == relayId {
      assert rows[i] in multiset(rows);
      assert rows[i] in ActionsOf(db.actions, relayId);
    }
  }

  /** Decoding keeps each row's relay and order_index. */
  lemma DecodedActions(rows: seq<ActionRow>, acts: seq<RelayAction>, relayId: string)
    requires |acts| == |rows| && forall i :: 0 <= i < |rows| ==> DecodeAction(rows[i]) == Success(acts[i])
    requires SortedBy(rows, RowOrder) && forall i :: 0 <= i < |rows| ==> rows[i].relayId == relayId
    ensures SortedBy(acts, ActionOrder) && forall i :: 0 <= i < |acts| ==> acts[i].relayId == relayId
  {
    assert forall i :: 0 <= i < |acts| ==> acts[i].orderIndex == rows[i].orderIndex && acts[i].relayId == rows[i].relayId;
  }

  /** A missing relay is reported as not found; a found relay comes with all and only
      its own actions, ascending by order index. */
  lemma GetRelayResult(db: Database, relayId: string, fault: GetFault)
    ensures fault.relayQuery.None? && relayId !in db.relays ==> GetSpec(db, relayId, fault) == Failure(ErrRelayNotFound)
    ensures var r := GetSpec(db, relayId, fault);
      r.Success? ==>
        && relayId in db.relays && r.value.relay == RelayOf(relayId, db.relays[relayId])
        && |r.value.actions| == |ActionQuery(db, relayId)|
        && (forall i :: 0 <= i < |r.value.actions| ==> r.value.actions[i].relayId == relayId)
        && SortedBy(r.value.actions, ActionOrder)
  {
    var rows := ActionQuery(db, relayId);
    var r := GetSpec(db, relayId, fault);
    if r.Success? {
      var decoded := DecodeRows(rows, 0, fault.actions, [], DecodeAction, "scan action: ");
      assert decoded == Success(r.value.actions);
      DecodeRowsSuccess(rows, 0, fault.actions, [], DecodeAction, "scan action: ");
      assert forall i :: 0 <= i < |rows| ==> DecodeAction(rows[i]) == Success(r.value.actions[i]);
      ActionQueryRows(db, relayId);
      DecodedActions(rows, r.value.actions, relayId);
    }
  }

  /** With no fault and every row decoding, the read succeeds. */
  lemma {:induction false} DecodeRowsAllSucceed<R, T>(rows: seq<R>, k: nat, acc: seq<T>,
                                                      decode: R -> Result<T, StoreError>, scanContext: string)
    requires k <= |rows|
    requires forall i :: k <= i < |rows| ==> decode(rows[i]).Success?
    ensures DecodeRows(rows, k, NoReadFault, acc, decode, scanContext).Success?
    decreases |rows| - k
  {
    if k < |rows| {
      DecodeRowsAllSucceed(rows, k + 1, acc + [decode(rows[k]).value], decode, scanContext);
    }
  }

  /** Removing the element at j from s removes one occurrence of it. */
  lemma RemoveAt<T>(s: seq<T>, j: nat)
    requires j < |s|
    ensures multiset(s[..j] + s[j + 1..]) + multiset{s[j]} == multiset(s)
  {
    assert s == s[..j] + [s[j]] + s[j + 1..];
  }

  /** Two reorderings of each other, less their first element and its match. */
  lemma RemoveMatch<T>(s: seq<T>, t: seq<T>, j: nat)
    requires 0 < |s| && j < |t| && t[j] == s[0] && multiset(s) == multiset(t)
    ensures multiset(s[1..]) == multiset(t[..j] + t[j + 1..])
  {
    RemoveAt(t, j);
    assert s == [s[0]] + s[1..];
    assert multiset(s) == multiset{s[0]} + multiset(s[1..]);
    var t' := t[..j] + t[j + 1..];
    forall x ensures multiset(s[1..])[x] == multiset(t')[x] {
      assert multiset(s)[x] == multiset(t)[x];
    }
  }

  /** Pointwise decoding survives removing the same index from both sides. */
  lemma DecodeRemoved(src: seq<ActionRow>, out: seq<RelayAction>, j: nat)
    requires |src| == |out| && j < |src|
    requires forall i :: 0 <= i < |src| ==> DecodeAction(src[i]) == Success(out[i])
    ensures var src', out' := src[..j] + src[j + 1..], out[..j] + out[j + 1..];
      forall i :: 0 <= i < |src'| ==> DecodeAction(src'[i]) == Success(out'[i])
  {
    var src', out' := src[..j] + src[j + 1..], out[..j] + out[j + 1..];
    forall i | 0 <= i < |src'| ensures DecodeAction(src'[i]) == Success(out'[i]) {
      if i < j {
        assert src'[i] == src[i] && out'[i] == out[i];
      } else {
        assert src'[i] == src[i + 1] && out'[i] == out[i + 1];
      }
    }
  }

  /** Decoding two orderings of the same rows gives two orderings of the same actions. */
  lemma {:induction false} DecodedPermutation(rows: seq<ActionRow>, acts: seq<RelayAction>,
                                              src: seq<ActionRow>, out: seq<RelayAction>)
    requires |rows| == |acts| && |src| == |out| && multiset(rows) == multiset(src)
    requires forall i :: 0 <= i < |rows| ==> DecodeAction(rows[i]) == Success(acts[i])
    requires forall i :: 0 <= i < |src| ==> DecodeAction(src[i]) == Success(out[i])
    ensures multiset(acts) == multiset(out)
    decreases |rows|
  {
    if rows == [] {
      assert |multiset(src)| == 0;
    } else {
      assert rows[0] in multiset(src);
      assert rows[0] in src;
      var j :| 0 <= j < |src| && src[j] == rows[0];
      RemoveMatch(rows, src, j);
      DecodeRemoved(src, out, j);
      assert forall i :: 0 <= i < |rows| - 1 ==> rows[1..][i] == rows[i + 1] && acts[1..][i] == acts[i + 1];
      DecodedPermutation(rows[1..], acts[1..], src[..j] + src[j + 1..], out[..j] + out[j + 1..]);
      assert acts[0] == out[j];
      RemoveAt(out, j);
      assert acts == [acts[0]] + acts[1..];
    }
  }

  /** The rows of a new relay decode into the actions the create call returned. */
  lemma NewRowsDecode(req: CreateRelayRequest, relayId: string, ids: seq<string>, now: int)
    requires |ids| == |req.actions|
    ensures var rows := NewActionRows(req, relayId, ids, now);
            var acts := CreatedActions(req, relayId, ids, now);
      forall k :: 0 <= k < |rows| ==> DecodeAction(rows[k]) == Success(acts[k])
  {
  }

  /** The action query after a create returns exactly the new relay's rows. */
  lemma CreatedRowsQueried(db: Database, req: CreateRelayRequest, relayId: string, ids: seq<string>, now: int)
    requires |ids| == |req.actions|
    requires forall i :: 0 <= i < |db.actions| ==> db.actions[i].relayId != relayId
    ensures var rows := NewActionRows(req, relayId, ids, now);
      multiset(ActionsOf(db.actions + rows, relayId)) == multiset(rows)
  {
    var rows := NewActionRows(req, relayId, ids, now);
    var all := db.actions + rows;
    forall x ensures multiset(ActionsOf(all, relayId))[x] == multiset(rows)[x] {
      if x.relayId == relayId {
        assert x !in db.actions;
      } else {
        assert x !in rows;
      }
    }
  }

  /** Decoding a reordering of rows whose decodings are known gives a reordering of
      those decodings. */
  lemma DecodeReordered(rows: seq<ActionRow>, src: seq<ActionRow>, out: seq<RelayAction>)
    requires |src| == |out| && multiset(rows) == multiset(src)
    requires forall i :: 0 <= i < |src| ==> DecodeAction(src[i]) == Success(out[i])
    ensures var d := DecodeRows(rows, 0, NoReadFault, [], DecodeAction, "scan action: ");
      && d.Success? && multiset(d.value) == multiset(out) && |d.value| == |rows|
      && forall i :: 0 <= i < |rows| ==> DecodeAction(rows[i]) == Success(d.value[i])
  {
    forall i | 0 <= i < |rows| ensures DecodeAction(rows[i]).Success? {
      assert rows[i] in multiset(src);
    }
    DecodeRowsAllSucceed(rows, 0, [], DecodeAction, "scan action: ");
    var d := DecodeRows(rows, 0, NoReadFault, [], DecodeAction, "scan action: ");
    DecodeRowsSuccess(rows, 0, NoReadFault, [], DecodeAction, "scan action: ");
    assert forall i :: 0 <= i < |rows| ==> DecodeAction(rows[i]) == Success(d.value[i]);
    DecodedPermutation(rows, d.value, src, out);
  }

  /** Sorted rows that reorder rows decoding to `out` read as a sorted reordering of `out`. */
  lemma ReadReordered(rows: seq<ActionRow>, src: seq<ActionRow>, out: seq<RelayAction>, relayId: string)
    requires |src| == |out| && multiset(rows) == multiset(src)
    requires forall i :: 0 <= i < |src| ==> DecodeAction(src[i]) == Success(out[i])
    requires SortedBy(rows, RowOrder) && forall i :: 0 <= i < |rows| ==> rows[i].relayId == relayId
    ensures var d := DecodeRows(rows, 0, NoReadFault, [], DecodeAction, "scan action: ");
      d.Success? && multiset(d.value) == multiset(out) && SortedBy(d.value, ActionOrder)
  {
    DecodeReordered(rows, src, out);
    var d := DecodeRows(rows, 0, NoReadFault, [], DecodeAction, "scan action: ");
    DecodedActions(rows, d.value, relayId);
  }

  /** A relay whose action rows are a reordering of rows decoding to `created` reads
      back as that relay with a reordering of `created`, ascending by order_index. */
  lemma GetStored(db: Database, relayId: string, src: seq<ActionRow>, created: seq<RelayAction>)
    requires relayId in db.relays
    requires |src| == |created| && multiset(ActionsOf(db.actions, relayId)) == multiset(src)
    requires forall i :: 0 <= i < |src| ==> DecodeAction(src[i]) == Success(created[i])
    ensures var g := GetSpec(db, relayId, GetFault(None, NoReadFault));
      && g.Success? && g.value.relay == RelayOf(relayId, db.relays[relayId])
      && multiset(g.value.actions) == multiset(created)
      && SortedBy(g.value.actions, ActionOrder)
  {
    var rows := ActionQuery(db, relayId);
    ActionQueryRows(db, relayId);
    ReadReordered(rows, src, created, relayId);
  }

  /** Reading a relay back after creating it returns the relay as created and exactly
      the created actions, ascending by order_index, as long as no action row already
      named the new id. */
  lemma CreateThenGet(db: Database, req: CreateRelayRequest, relayId: string, ids: seq<string>, now: int,
                      fault: CreateFault)
    requires |ids| == |req.actions|
    requires forall i :: 0 <= i < |db.actions| ==> db.actions[i].relayId != relayId
    ensures var c := CreateSpec(db, req, relayId, ids, now, fault);
      c.result.Success? ==>
        var g := GetSpec(c.db, relayId, GetFault(None, NoReadFault));
        && g.Success? && g.value.relay == c.result.value.relay
        && multiset(g.value.actions) == multiset(c.result.value.actions)
        && SortedBy(g.value.actions, ActionOrder)
  {
    var c := CreateSpec(db, req, relayId, ids, now, fault);
    if c.result.Success? {
      var newRows := NewActionRows(req, relayId, ids, now);
      var created := CreatedActions(req, relayId, ids, now);
      var row := NewRelayRow(req, relayId, now);
      assert c.db == db.(relays := db.relays[relayId := row], actions := db.actions + newRows);
      assert c.result.value == RelayWithActions(RelayOf(relayId, row), created);
      CreatedRowsQueried(db, req, relayId, ids, now);
      NewRowsDecode(req, relayId, ids, now);
      GetStored(c.db, relayId, newRows, created);
    }
  }

  // ---------------------------------------------------------------- UpdateRelay

  /** A piece of statement text: literal SQL, a `$k` placeholder, or a number printed
      with `%d`. */
  datatype Piece = Sql(text: string) | Param(index: nat) | Number(n: int)

  /** The text of placeholder k, `$k`. */
  function Placeholder(k: nat): string {
    "$" + IntToString(k)
  }

  function RenderPiece(p: Piece): string {
    match p
    case Sql(t) => t
    case Param(k) => Placeholder(k)
    case Number(n) => IntToString(n)
  }

  /** The statement text the pieces spell. */
  function Render(ps: seq<Piece>): string {
    if ps == [] then "" else Render(ps[..|ps| - 1]) + RenderPiece(ps[|ps| - 1])
  }

  function ParamOf(p: Piece): seq<nat> {
    if p.Param? then [p.index] else []
  }

  /** The placeholders the statement refers to, in order. */
  function Params(ps: seq<Piece>): seq<nat> {
    if ps == [] then [] else Params(ps[..|ps| - 1]) + ParamOf(ps[|ps| - 1])
  }

  /** The numbers 1 to n. */
  function Positions(n: nat): (r: seq<nat>)
    ensures |r| == n && forall i :: 0 <= i < n ==> r[i] == i + 1
  {
    if n == 0 then [] else Positions(n - 1) + [n]
  }

  /** Appending one piece extends the text and the placeholder list. */
  lemma AppendPiece(ps: seq<Piece>, p: Piece)
    ensures Render(ps + [p]) == Render(ps) + RenderPiece(p)
    ensures Params(ps + [p]) == Params(ps) + ParamOf(p)
  {
    assert (ps + [p])[..|ps|] == ps;
  }

  /** The statement's opening up to its first placeholder, as written and corrected. */
  const UpdateOpeningAsWritten: string := "UPDATEA relays SET updated_at = "
  const UpdateOpening: string := "UPDATE relays SET updated_at = "

  /** The opening followed by `$1`, the updated_at argument. */
  lemma Opening(head: string)
    ensures Render([Sql(head), Param(1)]) == head + "$1"
    ensures Params([Sql(head), Param(1)]) == [1]
  {
    var ps := [Sql(head), Param(1)];
    assert ps[..1] == [Sql(head)];
    assert [Sql(head)][..0] == [];
    assert Render([Sql(head)]) == head && Params([Sql(head)]) == [];
    assert Placeholder(1) == "$1" by {
      assert IntToString(1) == [DigitChar(1)];
    }
  }

  /** How many of the optional fields are set. */
  function FieldCount(req: UpdateRelayRequest): nat {
    (if req.name.Some? then 1 else 0) + (if req.description.Some? then 1 else 0) + (if req.isActive.Some? then 1 else 0)
  }

  const UpdateReturning: string :=
    " RETURNING id, user_id, name, description, webhook_path, is_active, created_at, updated_at"

  /** One `query +=` step: a literal fragment followed by a placeholder or a printed
      number. */
  method Emit(query: string, ghost pieces: seq<Piece>, fragment: string, ghost ref: Piece, text: string)
    returns (query': string, ghost pieces': seq<Piece>)
    requires query == Render(pieces) && text == RenderPiece(ref)
    ensures query' == query + fragment + text
    ensures query' == Render(pieces') && (|pieces| > 0 ==> |pieces'| > 0 && pieces'[0] == pieces[0])
    ensures !ref.Param? ==> Params(pieces') == Params(pieces)
    ensures ref.Param? ==> Params(pieces') == Params(pieces) + [ref.index]
  {
    AppendPiece(pieces, Sql(fragment));
    AppendPiece(pieces + [Sql(fragment)], ref);
    query' := query + fragment + text;
    pieces' := pieces + [Sql(fragment)] + [ref];
  }

  /** The argument an optional field contributes: none when it is absent. */
  function Listed(value: Option<Arg>): (r: seq<Arg>)
    ensures |r| == if value.Some? then 1 else 0
  {
    if value.Some? then [value.value] else []
  }

  /** One optional field of the builder: when it is set, its assignment is appended to
      the query, its value to the arguments, and argIdx moves on; either way
      `len(args) == argIdx - 1` is kept. */
  method AddField(query: string, ghost pieces: seq<Piece>, args: seq<Arg>, argIdx: nat,
                  fragment: string, ghost ref: Piece, text: string, value: Option<Arg>)
    returns (query': string, ghost pieces': seq<Piece>, args': seq<Arg>, argIdx': nat)
    requires query == Render(pieces) && text == RenderPiece(ref) && |args| == argIdx - 1
    ensures query' == Render(pieces') && (|pieces| > 0 ==> |pieces'| > 0 && pieces'[0] == pieces[0])
    ensures query' == if value.Some? then query + fragment + text else query
    ensures Params(pieces') == Params(pieces) + (if value.Some? then ParamOf(ref) else [])
    ensures args' == args + Listed(value) && argIdx' == argIdx + |Listed(value)| && |args'| == argIdx' - 1
  {
    query', pieces', args', argIdx' := query, pieces, args, argIdx;
    if value.Some? {
      query', pieces' := Emit(query, pieces, fragment, ref, text);
      args' := args + [value.value];
      argIdx' := argIdx + 1;
    } else {
      assert Params(pieces') == Params(pieces) + [];
    }
  }

  lemma SnocOne(p: seq<nat>, k: nat)
    requires p == [1]
    ensures p + [k] == [1, k]
  {
  }

  /** One optional field as written: `%d` prints argIdx as a bare number, so the
      assignment refers to no placeholder while its value is still appended. */
  method PrintField(query: string, ghost pieces: seq<Piece>, args: seq<Arg>, argIdx: nat,
                    fragment: string, value: Option<Arg>)
    returns (query': string, ghost pieces': seq<Piece>, args': seq<Arg>, argIdx': nat)
    requires query == Render(pieces) && |args| == argIdx - 1 && |pieces| > 0
    ensures query' == Render(pieces') && |pieces'| > 0 && pieces'[0] == pieces[0]
    ensures Params(pieces') == Params(pieces)
    ensures args' == args + Listed(value) && argIdx' == argIdx + |Listed(value)| && |args'| == argIdx' - 1
  {
    query', pieces', args', argIdx' := AddField(query, pieces, args, argIdx, fragment, Number(argIdx), IntToString(argIdx), value);
    assert Params(pieces') == Params(pieces) + [];
  }

  /** The three optional assignments as relay_store.go:206-220 writes them: each
      printed with `%d`, so none adds a placeholder, and is_active bound by its address. */
  method FieldsAsWritten(query: string, ghost pieces: seq<Piece>, args: seq<Arg>, argIdx: nat, req: UpdateRelayRequest)
    returns (query': string, ghost pieces': seq<Piece>, args': seq<Arg>, argIdx': nat)
    requires query == Render(pieces) && |args| == argIdx - 1 && |pieces| > 0
    ensures query' == Render(pieces') && |pieces'| > 0 && pieces'[0] == pieces[0]
    ensures Params(pieces') == Params(pieces)
    ensures |args'| == |args| + FieldCount(req) && argIdx' == argIdx + FieldCount(req)
    ensures args' == args + Listed(NameValue(req)) + Listed(DescriptionValue(req))
                          + Listed(if req.isActive.Some? then Some(BoolAddress(req.isActive.value)) else None)
    ensures req.isActive.Some? ==> args'[|args'| - 1] == BoolAddress(req.isActive.value)
  {
    query', pieces', args', argIdx' := PrintField(query, pieces, args, argIdx, ", name=", NameValue(req));
    query', pieces', args', argIdx' := PrintField(query', pieces', args', argIdx', ",description=", DescriptionValue(req));
    var isActive := if req.isActive.Some? then Some(BoolAddress(req.isActive.value)) else None;
    query', pieces', args', argIdx' := PrintField(query', pieces', args', argIdx', ", is_active=", isActive);
  }


  /** The end of the statement, relay_store.go:221-222: the WHERE clause refers to
      `$argIdx`, the position relayId takes in the arguments. */
  method Finish(query: string, ghost pieces: seq<Piece>, args: seq<Arg>, argIdx: nat, relayId: string)
    returns (query': string, ghost pieces': seq<Piece>, args': seq<Arg>)
    requires query == Render(pieces) && |args| == argIdx - 1 && |pieces| > 0
    ensures query' == query + " WHERE id = " + Placeholder(argIdx) + UpdateReturning
    ensures query' == Render(pieces') && |pieces'| > 0 && pieces'[0] == pieces[0]
    ensures Params(pieces') == Params(pieces) + [argIdx]
    ensures args' == args + [TextArg(relayId)] && |args'| == argIdx
  {
    query', pieces' := Emit(query, pieces, " WHERE id = ", Param(argIdx), Placeholder(argIdx));
    query', pieces' := Emit(query', pieces', UpdateReturning, Sql(""), "");
    assert query' == query + " WHERE id = " + Placeholder(argIdx) + UpdateReturning + "";
    args' := args + [TextArg(relayId)];
  }

  /** The query builder of relay_store.go:202-222, as written: `UPDATEA`, the
      optional assignments printed with `%d` instead of `$%d`, and `&req.IsActive`
      bound for is_active. `pieces` spells the query. */
  method BuildUpdateQueryAsWritten(relayId: string, req: UpdateRelayRequest, now: int)
    returns (query: string, args: seq<Arg>, ghost pieces: seq<Piece>)
    ensures query == Render(pieces)
    ensures |args| == FieldCount(req) + 2
    ensures Params(pieces) == [1, |args|]
    ensures FieldCount(req) > 0 ==> |Params(pieces)| < |args|
    ensures pieces[0] == Sql(UpdateOpeningAsWritten)
    ensures req.isActive.Some? ==> args[|args| - 2] == BoolAddress(req.isActive.value)
  {
    query := UpdateOpeningAsWritten + "$1";
    pieces := [Sql(UpdateOpeningAsWritten), Param(1)];
    Opening(UpdateOpeningAsWritten);
    args := [TimeArg(now)];
    var argIdx: nat := 2;
    query, pieces, args, argIdx := FieldsAsWritten(query, pieces, args, argIdx, req);
    ghost var fields := Params(pieces);
    query, pieces, args := Finish(query, pieces, args, argIdx, relayId);
    SnocOne(fields, argIdx);
  }

  /** The value an UPDATE binds for each optional field, when it is given. */
  function NameValue(req: UpdateRelayRequest): Option<Arg> {
    if req.name.Some? then Some(TextArg(req.name.value)) else None
  }

  function DescriptionValue(req: UpdateRelayRequest): Option<Arg> {
    if req.description.Some? then Some(TextArg(req.description.value)) else None
  }

  function ActiveValue(req: UpdateRelayRequest): Option<Arg> {
    if req.isActive.Some? then Some(BoolArg(req.isActive.value)) else None
  }

  /** The arguments an UPDATE binds for the optional fields, in the order name,
      description, is_active. */
  function FieldArgs(req: UpdateRelayRequest): (args: seq<Arg>)
    ensures |args| == FieldCount(req)
  {
    Listed(NameValue(req)) + Listed(DescriptionValue(req)) + Listed(ActiveValue(req))
  }

  lemma ConcatAssoc<T>(a: seq<T>, b: seq<T>, c: seq<T>, d: seq<T>)
    ensures a + b + c + d == a + (b + c + d)
  {
  }

  /** One corrected optional field: its assignment refers to `$argIdx`, the position
      its value takes in the arguments, so the statement keeps referring to the
      placeholders 1..len(args) in order. */
  method PlaceField(query: string, ghost pieces: seq<Piece>, args: seq<Arg>, argIdx: nat,
                    fragment: string, value: Option<Arg>)
    returns (query': string, ghost pieces': seq<Piece>, args': seq<Arg>, argIdx': nat)
    requires query == Render(pieces) && |args| == argIdx - 1 && Params(pieces) == Positions(|args|)
    ensures query' == Render(pieces') && Params(pieces') == Positions(|args'|)
    ensures args' == args + Listed(value) && argIdx' == argIdx + |Listed(value)| && |args'| == argIdx' - 1
    ensures value.None? ==> query' == query
  {
    query', pieces', args', argIdx' := AddField(query, pieces, args, argIdx, fragment, Param(argIdx), Placeholder(argIdx), value);
    if value.Some? {
      assert Positions(argIdx) == Positions(|args|) + [argIdx];
    } else {
      assert Params(pieces') == Params(pieces);
    }
  }

  /** The three optional assignments, corrected. */
  method Fields(query: string, ghost pieces: seq<Piece>, args: seq<Arg>, argIdx: nat, req: UpdateRelayRequest)
    returns (query': string, ghost pieces': seq<Piece>, args': seq<Arg>, argIdx': nat)
    requires query == Render(pieces) && |args| == argIdx - 1 && Params(pieces) == Positions(|args|)
    ensures query' == Render(pieces') && Params(pieces') == Positions(|args'|)
    ensures args' == args + FieldArgs(req) && argIdx' == argIdx + FieldCount(req)
    ensures FieldCount(req) == 0 ==> query' == query
  {
    query', pieces', args', argIdx' := PlaceField(query, pieces, args, argIdx, ", name = ", NameValue(req));
    query', pieces', args', argIdx' := PlaceField(query', pieces', args', argIdx', ", description = ", DescriptionValue(req));
    query', pieces', args', argIdx' := PlaceField(query', pieces', args', argIdx', ", is_active = ", ActiveValue(req));
    ConcatAssoc(args, Listed(NameValue(req)), Listed(DescriptionValue(req)), Listed(ActiveValue(req)));
  }

  /** The corrected builder: the statement refers to the placeholders 1..n exactly once
      each, in order, where n is the number of arguments, and the WHERE placeholder is
      the last argument, relayId. */
  method BuildUpdateQuery(relayId: string, req: UpdateRelayRequest, now: int)
    returns (query: string, args: seq<Arg>, ghost pieces: seq<Piece>)
    ensures query == Render(pieces)
    ensures Params(pieces) == Positions(|args|)
    ensures args == [TimeArg(now)] + FieldArgs(req) + [TextArg(relayId)]
    ensures FieldCount(req) == 0 ==>
      query == UpdateOpening + "$1" + " WHERE id = " + Placeholder(2) + UpdateReturning
  {
    query := UpdateOpening + "$1";
    pieces := [Sql(UpdateOpening), Param(1)];
    Opening(UpdateOpening);
    args := [TimeArg(now)];
    var argIdx: nat := 2;
    query, pieces, args, argIdx := Fields(query, pieces, args, argIdx, req);
    ghost var fields := Params(pieces);
    query, pieces, args := Finish(query, pieces, args, argIdx, relayId);
    assert Positions(argIdx) == fields + [argIdx];
  }

  /** The row after the UPDATE: given fields replaced, updated_at set to now. */
  function UpdatedRow(row: RelayRow, req: UpdateRelayRequest, now: int): (r: RelayRow)
    ensures r.name == req.name.GetOr(row.name) && r.description == req.description.GetOr(row.description)
    ensures r.isActive == req.isActive.GetOr(row.isActive) && r.updatedAt == now
    ensures r.userId == row.userId && r.webhookPath == row.webhookPath && r.createdAt == row.createdAt
  {
    row.(name := req.name.GetOr(row.name), description := req.description.GetOr(row.description),
         isActive := req.isActive.GetOr(row.isActive), updatedAt := now)
  }

  datatype Updated = Updated(db: Database, result: Result<Relay, StoreError>)

  /** `RelayStore.UpdateRelay` (relay_store.go:201-242) with the corrected statement. */
  function UpdateSpec(db: Database, relayId: string, req: UpdateRelayRequest, now: int, fault: Option<string>): Updated {
    if fault.Some? then Updated(db, Failure(Wrapped("update relay: ", fault.value)))
    else if relayId !in db.relays then Updated(db, Failure(ErrRelayNotFound))
    else
      var row := UpdatedRow(db.relays[relayId], req, now);
      Updated(db.(relays := db.relays[relayId := row]), Success(RelayOf(relayId, row)))
  }

  /** An update succeeds iff there is no fault and the relay exists; it then stores the
      updated row in place of the old one and changes nothing else, and returns that row.
      A missing relay is reported as not found and changes nothing. */
  lemma UpdateRelayEffect(db: Database, relayId: string, req: UpdateRelayRequest, now: int, fault: Option<string>)
    ensures var u := UpdateSpec(db, relayId, req, now, fault);
      && u.db.actions == db.actions && u.db.logs == db.logs
      && u.db.relays.Keys == db.relays.Keys
      && (forall id :: id in db.relays && id != relayId ==> u.db.relays[id] == db.relays[id])
      && (u.result.Failure? ==> u.db == db)
      && (fault.None? && relayId !in db.relays ==> u.result == Failure(ErrRelayNotFound))
      && (u.result.Success? <==> fault.None? && relayId in db.relays)
      && (u.result.Success? ==>
            u.db == db.(relays := db.relays[relayId := UpdatedRow(db.relays[relayId], req, now)]))
      && (u.result.Success? ==>
            var r := u.result.value;
            && relayId in db.relays && r.id == relayId
            && r.name == req.name.GetOr(db.relays[relayId].name)
            && r.description == req.description.GetOr(db.relays[relayId].description)
            && r.isActive == req.isActive.GetOr(db.relays[relayId].isActive)
            && r.updatedAt == now && r.webhookPath == db.relays[relayId].webhookPath)
  {
  }

  // ---------------------------------------------------------------- DeleteRelay

  /** `RelayStore.DeleteRelay` (relay_store.go:244-256): zero rows affected is not found. */
  function DeleteSpec(db: Database, relayId: string, fault: Option<string>): (Database, Option<StoreError>) {
    if fault.Some? then (db, Some(Wrapped("delete relay: ", fault.value)))
    else if relayId !in db.relays then (db, Some(ErrRelayNotFound))
    else (db.(relays := db.relays - {relayId}), None)
  }

  /** Deleting an existing relay removes exactly its row; deleting an absent one reports
      not found and changes nothing, so a second delete always does. */
  lemma DeleteTwice(db: Database, relayId: string)
    ensures var (db1, e1) := DeleteSpec(db, relayId, None);
            var (db2, e2) := DeleteSpec(db1, relayId, None);
      && (e1.None? <==> relayId in db.relays)
      && (relayId in db.relays ==> db1 == db.(relays := db.relays - {relayId}))
      && (relayId !in db.relays ==> e1 == Some(ErrRelayNotFound) && db1 == db)
      && relayId !in db1.relays
      && e2 == Some(ErrRelayNotFound) && db2 == db1
  {
  }

  // ---------------------------------------------------------------- GetLogs

  /** The limit GetLogs uses: a non-positive limit becomes 50. */
  function EffectiveLimit(limit: int): (n: int)
    ensures n > 0
    ensures limit > 0 ==> n == limit
    ensures limit <= 0 ==> n == DefaultLogLimit
  {
    if limit <= 0 then DefaultLogLimit else limit
  }

  function LogsOf(rows: seq<LogRow>, relayId: string): (r: seq<LogRow>)
    ensures forall x :: x in r <==> x in rows && x.relayId == relayId
    ensures |r| <= |rows|
    ensures forall x :: multiset(r)[x] == if x.relayId == relayId then multiset(rows)[x] else 0
  {
    if rows == [] then []
    else
      assert rows == [rows[0]] + rows[1..];
      (if rows[0].relayId == relayId then [rows[0]] else []) + LogsOf(rows[1..], relayId)
  }

  function NewestFirst(row: LogRow): int { -row.executedAt }

  /** The rows `WHERE relay_id = $1 ORDER BY executed_at DESC LIMIT $2`. */
  function LogQuery(db: Database, relayId: string, limit: int): seq<LogRow> {
    Take(SortByKey(LogsOf(db.logs, relayId), NewestFirst), EffectiveLimit(limit))
  }

  /** One scanned log row: a non-NULL payload is unmarshalled, a NULL error reads "". */
  function DecodeLog(row: LogRow): (r: Result<ExecutionLog, StoreError>)
    ensures r.Success? ==> r.value.relayId == row.relayId && r.value.executedAt == row.executedAt
    ensures r.Success? ==> (r.value.errorMessage == if row.errorMessage.Some? then row.errorMessage.value else "")
    ensures r.Success? && row.payload.None? ==> r.value.payload.None?
    ensures r.Failure? <==> row.payload == Some(OtherDoc)
  {
    var errorMessage := if row.errorMessage.Some? then row.errorMessage.value else "";
    if row.payload.None? then Success(ExecutionLog(row.id, row.relayId, row.status, None, errorMessage, row.executedAt))
    else match DecodeObject(row.payload.value)
      case Failure(m) => Failure(Wrapped("unmarshal payload: ", m))
      case Success(p) => Success(ExecutionLog(row.id, row.relayId, row.status, p, errorMessage, row.executedAt))
  }

  /** `RelayStore.GetLogs` (relay_store.go:258-313). */
  function LogsSpec(db: Database, relayId: string, limit: int, fault: ReadFault): Result<seq<ExecutionLog>, StoreError> {
    if fault.QueryFails? then Failure(Wrapped("query logs: ", fault.cause))
    else DecodeRows(LogQuery(db, relayId, limit), 0, fault, [], DecodeLog, "scan log: ")
  }

  function LogTime(l: ExecutionLog): int { -l.executedAt }

  /** The rows of a page all belong to the relay, newest first, and there are as many
      as the limit allows. */
  lemma LogQueryRows(db: Database, relayId: string, limit: int)
    ensures var rows := LogQuery(db, relayId, limit);
            var total := |LogsOf(db.logs, relayId)|;
      && |rows| == (if EffectiveLimit(limit) < total then EffectiveLimit(limit) else total)
      && (forall i :: 0 <= i < |rows| ==> rows[i].relayId == relayId)
      && SortedBy(rows, NewestFirst)
  {
    var sorted := SortByKey(LogsOf(db.logs, relayId), NewestFirst);
    var rows := LogQuery(db, relayId, limit);
    TakeSorted(sorted, EffectiveLimit(limit), NewestFirst);
    forall i | 0 <= i < |rows| ensures rows[i].relayId == relayId {
      assert rows[i] == sorted[i];
      assert sorted[i] in multiset(sorted);
      assert sorted[i] in LogsOf(db.logs, relayId);
    }
  }

  /** A page of logs holds at most the effective limit, and exactly that many when the
      relay has enough; it holds only the relay's logs, newest first. */
  lemma GetLogsPage(db: Database, relayId: string, limit: int, fault: ReadFault)
    ensures var r := LogsSpec(db, relayId, limit, fault);
      r.Success? ==>
        var total := |LogsOf(db.logs, relayId)|;
        && |r.value| == (if EffectiveLimit(limit) < total then EffectiveLimit(limit) else total)
        && |r.value| <= EffectiveLimit(limit)
        && (forall i :: 0 <= i < |r.value| ==> r.value[i].relayId == relayId)
        && SortedBy(r.value, LogTime)
  {
    var r := LogsSpec(db, relayId, limit, fault);
    if r.Success? {
      var rows := LogQuery(db, relayId, limit);
      assert !fault.QueryFails?;
      LogQueryRows(db, relayId, limit);
      DecodedLogs(rows, fault, r.value, relayId);
    }
  }

  /** Decoding keeps each row's relay and time, so it keeps the page's order. */
  lemma DecodedLogs(rows: seq<LogRow>, fault: ReadFault, logs: seq<ExecutionLog>, relayId: string)
    requires DecodeRows(rows, 0, fault, [], DecodeLog, "scan log: ") == Success(logs)
    requires SortedBy(rows, NewestFirst) && forall i :: 0 <= i < |rows| ==> rows[i].relayId == relayId
    ensures |logs| == |rows| && SortedBy(logs, LogTime) && forall i :: 0 <= i < |logs| ==> logs[i].relayId == relayId
  {
    DecodeRowsSuccess(rows, 0, fault, [], DecodeLog, "scan log: ");
    assert forall i :: 0 <= i < |rows| ==> DecodeLog(rows[i]) == Success(logs[i]);
    assert forall i :: 0 <= i < |logs| ==> logs[i].executedAt == rows[i].executedAt && logs[i].relayId == rows[i].relayId;
  }

  // ---------------------------------------------------------------- the store

  /** store.RelayStore over in-memory tables. */
  class RelayStore {
    var relays: map<string, RelayRow>
    var actions: seq<ActionRow>
    var logs: seq<LogRow>

    function Snapshot(): Database
      reads this
    {
      Database(relays, actions, logs)
    }

    constructor (db: Database)
      ensures Snapshot() == db
    {
      relays, actions, logs := db.relays, db.actions, db.logs;
    }

    /** `CreateRelay`: the relay and its actions in one transaction; `relayId` and
        `actionIds` are the generated UUIDs, one per request action, `now` the clock. */
    method CreateRelay(req: CreateRelayRequest, relayId: string, actionIds: seq<string>, now: int, fault: CreateFault)
      returns (r: Result<RelayWithActions, StoreError>)
      requires |actionIds| == |req.actions|
      modifies this
      ensures Created(Snapshot(), r) == CreateSpec(old(Snapshot()), req, relayId, actionIds, now, fault)
    {
      if fault.BeginFails? {
        return Failure(Wrapped("begin transaction: ", fault.cause));
      }
      var webhookPath := WebhookPathPrefix + relayId;
      if fault.RelayInsertFails? {
        return Failure(Wrapped("insert relay: ", fault.cause));
      }
      if relayId in relays {
        return Failure(Wrapped("insert relay: ", DuplicateKey));
      }
      var row := RelayRow(req.userId, req.name, req.description, webhookPath, true, now, now);
      var relay := RelayOf(relayId, row);
      var created: seq<RelayAction> := [];
      var newRows: seq<ActionRow> := [];
      var i := 0;
      while i < |req.actions|
        invariant 0 <= i <= |req.actions|
        invariant !(fault.ActionInsertFails? && fault.index < i)
        invariant created == CreatedActions(req, relayId, actionIds, now)[..i]
        invariant newRows == NewActionRows(req, relayId, actionIds, now)[..i]
      {
        var input := req.actions[i];
        if fault.ActionInsertFails? && fault.index == i {
          return Failure(InsertActionError(fault.cause));
        }
        var stored := ActionRowOf(input, actionIds[i], relayId, now);
        var config := DecodeObject(stored.config).value;
        newRows := newRows + [stored];
        created := created + [RelayAction(actionIds[i], relayId, input.actionType, config, input.orderIndex, now, now)];
        i := i + 1;
      }
      assert created == CreatedActions(req, relayId, actionIds, now);
      assert newRows == NewActionRows(req, relayId, actionIds, now);
      if fault.CommitFails? {
        return Failure(Wrapped("commit transaction: ", fault.cause));
      }
      relays := relays[relayId := row];
      actions := actions + newRows;
      r := Success(RelayWithActions(relay, created));
    }

    /** `GetRelay`: the relay and its actions ordered by order_index. */
    method GetRelay(relayId: string, fault: GetFault) returns (r: Result<RelayWithActions, StoreError>)
      ensures r == GetSpec(Snapshot(), relayId, fault)
    {
      if fault.relayQuery.Some? {
        return Failure(Wrapped("query relay: ", fault.relayQuery.value));
      }
      if relayId !in relays {
        return Failure(ErrRelayNotFound);
      }
      var relay := RelayOf(relayId, relays[relayId]);
      if fault.actions.QueryFails? {
        return Failure(Wrapped("query actions: ", fault.actions.cause));
      }
      var rows := SortByKey(ActionsOf(actions, relayId), RowOrder);
      var decoded := ReadRows(rows, fault.actions, DecodeAction, "scan action: ");
      if decoded.Failure? {
        return Failure(decoded.error);
      }
      r := Success(RelayWithActions(relay, decoded.value));
    }

    /** `UpdateRelay`: builds the statement, whose arguments it returns, and applies the
        update to the relay row. */
    method UpdateRelay(relayId: string, req: UpdateRelayRequest, now: int, fault: Option<string>)
      returns (r: Result<Relay, StoreError>, args: seq<Arg>)
      modifies this
      ensures args == [TimeArg(now)] + FieldArgs(req) + [TextArg(relayId)]
      ensures Updated(Snapshot(), r) == UpdateSpec(old(Snapshot()), relayId, req, now, fault)
    {
      var query: string;
      ghost var pieces;
      query, args, pieces := BuildUpdateQuery(relayId, req, now);
      if fault.Some? {
        return Failure(Wrapped("update relay: ", fault.value)), args;
      }
      if relayId !in relays {
        return Failure(ErrRelayNotFound), args;
      }
      var row := UpdatedRow(relays[relayId], req, now);
      relays := relays[relayId := row];
      r := Success(RelayOf(relayId, row));
    }

    /** `DeleteRelay`. */
    method DeleteRelay(relayId: string, fault: Option<string>) returns (err: Option<StoreError>)
      modifies this
      ensures (Snapshot(), err) == DeleteSpec(old(Snapshot()), relayId, fault)
    {
      if fault.Some? {
        return Some(Wrapped("delete relay: ", fault.value));
      }
      if relayId !in relays {
        return Some(ErrRelayNotFound);
      }
      relays := relays - {relayId};
      err := None;
    }

    /** `GetLogs`: the relay's newest logs, at most `limit` of them (50 when limit <= 0). */
    method GetLogs(relayId: string, limit: int, fault: ReadFault) returns (r: Result<seq<ExecutionLog>, StoreError>)
      ensures r == LogsSpec(Snapshot(), relayId, limit, fault)
    {
      var lim := limit;
      if lim <= 0 {
        lim := DefaultLogLimit;
      }
      if fault.QueryFails? {
        return Failure(Wrapped("query logs: ", fault.cause));
      }
      var rows := Take(SortByKey(LogsOf(logs, relayId), NewestFirst), lim);
      r := ReadRows(rows, fault, DecodeLog, "scan log: ");
    }
  }
}
