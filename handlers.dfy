/** The decision logic of the core service's HTTP handlers: request validation, the
    logs limit clamp, the webhook URL, and how store results become responses.
    A request body is the decoded value, or None when it is not valid JSON; the
    generated UUIDs and the clock are parameters, and the store is the in-memory
    RelayStore. The response is the status and the value handed to the JSON encoder. */
module Api {
  import opened Wrappers
  import opened Text
  import opened CoreStore
  import opened Ordering

  const DefaultBaseUrl: string := "http://localhost:8080"
  const DefaultLimit: int := 50
  const MaxLimit: int := 200

  /** Status codes of section 15 of RFC 9110. */
  const StatusOK: int := 200
  const StatusCreated: int := 201
  const StatusBadRequest: int := 400
  const StatusNotFound: int := 404
  const StatusInternalServerError: int := 500

  const ValidationError: string := "VALIDATION_ERROR"
  const DbError: string := "DB_ERROR"
  const NotFoundCode: string := "NOT_FOUND"
  const InvalidJson: string := "INVALID_JSON"

  /** What a success response carries in `data`. */
  datatype Data =
    | NoData
    | RelayData(relay: Relay)
    | FullRelayData(full: RelayWithActions)
    | RelayListData(relays: seq<Relay>)
    | LogListData(logs: seq<ExecutionLog>)
    | DeletedData(deletedId: string)

  /** models.ErrorResponse and models.APIResponse. */
  datatype Body =
    | ErrorResponse(success: bool, error: string, code: string)
    | ApiResponse(success: bool, message: string, data: Data)

  /** A JSON response, or the plain-text body `http.Error` writes. */
  datatype Response = JsonResponse(status: int, body: Body) | PlainText(status: int, text: string)

  /** `respondError`: always `success: false`. */
  function RespondError(status: int, message: string, code: string): (r: Response)
    ensures r.JsonResponse? && r.status == status && r.body.ErrorResponse? && !r.body.success
    ensures r.body.error == message && r.body.code == code
  {
    JsonResponse(status, ErrorResponse(false, message, code))
  }

  /** `respondSuccess`: always `success: true`. */
  function RespondSuccess(status: int, message: string, data: Data): (r: Response)
    ensures r.JsonResponse? && r.status == status && r.body.ApiResponse? && r.body.success
    ensures r.body.message == message && r.body.data == data
  {
    JsonResponse(status, ApiResponse(true, message, data))
  }

  /** `http.Error`: the message as plain text with a trailing newline. */
  function HttpError(message: string, status: int): (r: Response)
    ensures r.PlainText? && r.status == status && r.text == message + "\n"
  {
    PlainText(status, message + "\n")
  }

  /** A JSON response whose `success` flag agrees with its status class: true exactly
      for 2xx (section 15.3 of RFC 9110). */
  predicate FlagMatchesStatus(r: Response) {
    r.JsonResponse? ==> (r.body.success <==> 200 <= r.status < 300)
  }

  // ---------------------------------------------------------------- webhook URL

  /** `h.baseURL + WebhookPath`. */
  function WebhookUrl(baseUrl: string, path: string): (u: string)
    ensures |u| == |baseUrl| + |path| && u[..|baseUrl|] == baseUrl && u[|baseUrl|..] == path
  {
    baseUrl + path
  }

  /** The relay with its WebhookURL filled in; nothing else changes. */
  function WithUrl(relay: Relay, baseUrl: string): (r: Relay)
    ensures r.webhookUrl == WebhookUrl(baseUrl, relay.webhookPath)
    ensures r.(webhookUrl := relay.webhookUrl) == relay
  {
    relay.(webhookUrl := baseUrl + relay.webhookPath)
  }

  function WithUrls(relays: seq<Relay>, baseUrl: string): (r: seq<Relay>)
    ensures |r| == |relays| && forall i :: 0 <= i < |r| ==> r[i] == WithUrl(relays[i], baseUrl)
  {
    seq(|relays|, i requires 0 <= i < |relays| => WithUrl(relays[i], baseUrl))
  }

  /** The loop of handlers.go:125-127, in place over the fetched relays. */
  method FillWebhookUrls(relays: array<Relay>, baseUrl: string)
    modifies relays
    ensures relays[..] == WithUrls(old(relays[..]), baseUrl)
  {
    for i := 0 to relays.Length
      invariant forall k :: 0 <= k < i ==> relays[k] == WithUrl(old(relays[k]), baseUrl)
      invariant forall k :: i <= k < relays.Length ==> relays[k] == old(relays[k])
    {
      relays[i] := relays[i].(webhookUrl := baseUrl + relays[i].webhookPath);
    }
  }

  // ---------------------------------------------------------------- CreateRelay validation

  predicate ActionValid(a: CreateRelayActionInput) {
    a.actionType != "" && a.config.Some?
  }

  /** The check of one action at index i: its type first, then its config. */
  function ActionProblem(a: CreateRelayActionInput, i: nat): (r: Option<string>)
    ensures r.None? <==> ActionValid(a)
    ensures a.actionType == "" ==> r == Some("Action type is required for action at index " + IntToString(i))
    ensures a.actionType != "" && a.config.None? ==> r == Some("Config is required for action at index " + IntToString(i))
  {
    if a.actionType == "" then Some("Action type is required for action at index " + IntToString(i))
    else if a.config.None? then Some("Config is required for action at index " + IntToString(i))
    else None
  }

  /** The first problem among the actions from index `from` on. */
  function FirstActionProblem(actions: seq<CreateRelayActionInput>, from: nat): Option<string>
    requires from <= |actions|
    decreases |actions| - from
  {
    if from == |actions| then None
    else if ActionProblem(actions[from], from).Some? then ActionProblem(actions[from], from)
    else FirstActionProblem(actions, from + 1)
  }

  /** FirstActionProblem reports nothing exactly when every action is valid, and
      otherwise the problem of the first invalid one. */
  lemma {:induction false} FirstActionProblemIsFirst(actions: seq<CreateRelayActionInput>, from: nat)
    requires from <= |actions|
    ensures FirstActionProblem(actions, from).None? <==> forall i :: from <= i < |actions| ==> ActionValid(actions[i])
    ensures forall i :: from <= i < |actions| && !ActionValid(actions[i]) &&
                        (forall j :: from <= j < i ==> ActionValid(actions[j])) ==>
              FirstActionProblem(actions, from) == ActionProblem(actions[i], i)
    decreases |actions| - from
  {
    if from < |actions| {
      FirstActionProblemIsFirst(actions, from + 1);
      if ActionValid(actions[from]) {
        forall i | from <= i < |actions| && !ActionValid(actions[i]) &&
                   (forall j :: from <= j < i ==> ActionValid(actions[j]))
          ensures FirstActionProblem(actions, from) == ActionProblem(actions[i], i)
        {
          assert i != from;
        }
      }
    }
  }

  /** The validation of handlers.go:60-86; the first failing check wins. */
  function CreateValidation(req: CreateRelayRequest): Option<string> {
    if TrimSpace(req.name) == "" then Some("Name is required")
    else if TrimSpace(req.userId) == "" then Some("UserID is required")
    else if |req.actions| == 0 then Some("At least one action is required")
    else FirstActionProblem(req.actions, 0)
  }

  /** The checks run in a fixed order: a blank (empty or whitespace-only) name, then a
      blank user id, then an empty action list, then the first action with an empty
      type or no config, named by its index. A request passes exactly when none applies. */
  lemma CreateValidationOrder(req: CreateRelayRequest)
    ensures AllSpace(req.name) ==> CreateValidation(req) == Some("Name is required")
    ensures !AllSpace(req.name) && AllSpace(req.userId) ==> CreateValidation(req) == Some("UserID is required")
    ensures !AllSpace(req.name) && !AllSpace(req.userId) && req.actions == [] ==>
      CreateValidation(req) == Some("At least one action is required")
    ensures forall i :: !AllSpace(req.name) && !AllSpace(req.userId) &&
                        0 <= i < |req.actions| && !ActionValid(req.actions[i]) &&
                        (forall j :: 0 <= j < i ==> ActionValid(req.actions[j])) ==>
              CreateValidation(req) == ActionProblem(req.actions[i], i)
    ensures CreateValidation(req).None? <==>
      && !AllSpace(req.name) && !AllSpace(req.userId) && |req.actions| > 0
      && forall i :: 0 <= i < |req.actions| ==> ActionValid(req.actions[i])
  {
    TrimSpaceEmpty(req.name);
    TrimSpaceEmpty(req.userId);
    FirstActionProblemIsFirst(req.actions, 0);
  }

  /** The validation steps of the CreateRelay handler, with the loop over the actions. */
  method ValidateCreate(req: CreateRelayRequest) returns (problem: Option<string>)
    ensures problem == CreateValidation(req)
  {
    if TrimSpace(req.name) == "" {
      return Some("Name is required");
    }
    if TrimSpace(req.userId) == "" {
      return Some("UserID is required");
    }
    if |req.actions| == 0 {
      return Some("At least one action is required");
    }
    var i := 0;
    while i < |req.actions|
      invariant 0 <= i <= |req.actions|
      invariant FirstActionProblem(req.actions, i) == FirstActionProblem(req.actions, 0)
    {
      var action := req.actions[i];
      if action.actionType == "" {
        return Some("Action type is required for action at index " + IntToString(i));
      }
      if action.config.None? {
        return Some("Config is required for action at index " + IntToString(i));
      }
      i := i + 1;
    }
    problem := None;
  }

  // ---------------------------------------------------------------- logs limit

  /** The `limit` query parameter of GetRelayLogs ("" when absent): 50 unless it
      parses as a positive integer, which is capped at 200. */
  function LogsLimit(limitStr: string): (n: int)
    ensures DefaultLimit <= MaxLimit && 1 <= n <= MaxLimit
    ensures Atoi(limitStr).None? ==> n == DefaultLimit
    ensures Atoi(limitStr).Some? && Atoi(limitStr).value <= 0 ==> n == DefaultLimit
    ensures Atoi(limitStr).Some? && Atoi(limitStr).value > 0 ==>
      n == if Atoi(limitStr).value < MaxLimit then Atoi(limitStr).value else MaxLimit
  {
    if limitStr == "" then DefaultLimit
    else match Atoi(limitStr)
      case Some(v) => if v > 0 then (if v < MaxLimit then v else MaxLimit) else DefaultLimit
      case None => DefaultLimit
  }

  /** For a limit written as a decimal int64, the handler uses min(limit, 200) when it is
      positive and 50 otherwise; the store's own default never applies. */
  lemma LogsLimitOfNumber(v: int)
    requires MinInt64 <= v <= MaxInt64
    ensures LogsLimit(IntToString(v)) == if v <= 0 then DefaultLimit else if v < MaxLimit then v else MaxLimit
    ensures EffectiveLimit(LogsLimit(IntToString(v))) == LogsLimit(IntToString(v))
  {
    AtoiOfIntToString(v);
  }

  // ---------------------------------------------------------------- store errors

  /** An error from GetRelay, UpdateRelay or DeleteRelay: 404 when it is the store's
      not-found sentinel (by `errors.Is`), 500 otherwise. */
  function StoreErrorResponse(err: StoreError, notFoundMessage: string, failMessage: string): (r: Response)
    ensures r.status == StatusNotFound <==> ErrorsIs(err, ErrRelayNotFound)
    ensures ErrorsIs(err, ErrRelayNotFound) ==> r == RespondError(StatusNotFound, notFoundMessage, NotFoundCode)
    ensures !ErrorsIs(err, ErrRelayNotFound) ==> r == RespondError(StatusInternalServerError, failMessage, DbError)
  {
    if ErrorsIs(err, ErrRelayNotFound) then RespondError(StatusNotFound, notFoundMessage, NotFoundCode)
    else RespondError(StatusInternalServerError, failMessage, DbError)
  }

  /** With the store as written, whose not-found errors are fresh values, the
      handlers' not-found branch is never taken: a missing relay is a 500. */
  lemma NotFoundAsWrittenIsServerError(notFoundMessage: string, failMessage: string)
    ensures StoreErrorResponse(NotFoundAsWritten, notFoundMessage, failMessage)
            == RespondError(StatusInternalServerError, failMessage, DbError)
    ensures StoreErrorResponse(ErrRelayNotFound, notFoundMessage, failMessage)
            == RespondError(StatusNotFound, notFoundMessage, NotFoundCode)
  {
    NotFoundAsWrittenIsNotSentinel();
  }

  // ---------------------------------------------------------------- the handlers' outcomes

  /** `Handler.CreateRelay`: the tables afterwards and the response. */
  function CreateResponse(db: Database, baseUrl: string, body: Option<CreateRelayRequest>, relayId: string,
                          ids: seq<string>, now: int, fault: CreateFault): (Database, Response)
    requires body.Some? ==> |ids| == |body.value.actions|
  {
    if body.None? then (db, HttpError("Invalid JSON body", StatusBadRequest))
    else match CreateValidation(body.value)
      case Some(problem) => (db, RespondError(StatusBadRequest, problem, ValidationError))
      case None =>
        var c := CreateSpec(db, body.value, relayId, ids, now, fault);
        match c.result
        case Failure(_) => (c.db, RespondError(StatusInternalServerError, "Failed to create relay", DbError))
        case Success(r) =>
          (c.db, RespondSuccess(StatusCreated, "Relay created successfully",
                                FullRelayData(r.(relay := WithUrl(r.relay, baseUrl)))))
  }

  /** An undecodable body is a plain-text 400 and a request that fails validation a
      VALIDATION_ERROR 400; neither reaches the store, so the tables are unchanged and
      the store's behaviour does not matter. A created relay is a 201 whose webhook URL
      is the base URL followed by "/hooks/" and the relay id. */
  lemma CreateRelayHandling(db: Database, baseUrl: string, body: Option<CreateRelayRequest>, relayId: string,
                            ids: seq<string>, now: int, fault: CreateFault, otherFault: CreateFault)
    requires body.Some? ==> |ids| == |body.value.actions|
    ensures var (db', resp) := CreateResponse(db, baseUrl, body, relayId, ids, now, fault);
      && FlagMatchesStatus(resp)
      && (body.None? ==> db' == db && resp == PlainText(StatusBadRequest, "Invalid JSON body\n"))
      && (body.Some? && CreateValidation(body.value).Some? ==>
            && db' == db && resp.status == StatusBadRequest && resp.body.code == ValidationError
            && CreateResponse(db, baseUrl, body, relayId, ids, now, otherFault) == (db', resp))
      && (resp.status == StatusCreated ==>
            && body.Some? && CreateValidation(body.value).None?
            && resp.body.data.FullRelayData?
            && resp.body.data.full.relay.webhookUrl == baseUrl + "/hooks/" + relayId
            && relayId in db'.relays && relayId !in db.relays)
      && (resp.status == StatusInternalServerError ==> db' == db)
  {
    if body.Some? && CreateValidation(body.value).None? {
      CreateRelayShape(db, body.value, relayId, ids, now, fault);
      var c := CreateSpec(db, body.value, relayId, ids, now, fault);
      if c.result.Success? {
        assert (baseUrl + ("/hooks/" + relayId)) == baseUrl + "/hooks/" + relayId;
      }
    }
  }

  /** `Handler.GetRelay`. */
  function GetRelayResponse(db: Database, baseUrl: string, relayId: string, fault: GetFault): Response {
    match GetSpec(db, relayId, fault)
    case Failure(e) => StoreErrorResponse(e, "Relay Not found", "Failed to fetch relay")
    case Success(r) => RespondSuccess(StatusOK, "", FullRelayData(r.(relay := WithUrl(r.relay, baseUrl))))
  }

  /** A missing relay is a 404; a found one comes with its webhook URL and its actions
      in order_index order. */
  lemma GetRelayHandling(db: Database, baseUrl: string, relayId: string, fault: GetFault)
    ensures var resp := GetRelayResponse(db, baseUrl, relayId, fault);
      && FlagMatchesStatus(resp)
      && (fault.relayQuery.None? && relayId !in db.relays ==>
            resp == RespondError(StatusNotFound, "Relay Not found", NotFoundCode))
      && (resp.status == StatusOK ==>
            && resp.body.data.FullRelayData?
            && resp.body.data.full.relay.webhookUrl == baseUrl + db.relays[relayId].webhookPath
            && SortedBy(resp.body.data.full.actions, ActionOrder))
  {
    GetRelayResult(db, relayId, fault);
  }

  /** `Handler.UpdateRelay`. */
  function UpdateResponse(db: Database, baseUrl: string, relayId: string, body: Option<UpdateRelayRequest>,
                          now: int, fault: Option<string>): (Database, Response)
  {
    if body.None? then (db, RespondError(StatusBadRequest, "Invalid JSON body", InvalidJson))
    else if body.value.name.None? && body.value.description.None? && body.value.isActive.None? then
      (db, RespondError(StatusBadRequest, "No fields to update", ValidationError))
    else
      var u := UpdateSpec(db, relayId, body.value, now, fault);
      match u.result
      case Failure(e) => (u.db, StoreErrorResponse(e, "Relay not found", "Failed to update relay"))
      case Success(r) => (u.db, RespondSuccess(StatusOK, "Relay updated successfully", RelayData(WithUrl(r, baseUrl))))
  }

  /** A body without any of the three fields is rejected before the store, whatever
      the store would do; a missing relay is a 404; an update changes nothing but the
      relay's given fields and updated_at. */
  lemma UpdateRelayHandling(db: Database, baseUrl: string, relayId: string, body: Option<UpdateRelayRequest>,
                            now: int, fault: Option<string>, otherFault: Option<string>)
    ensures var (db', resp) := UpdateResponse(db, baseUrl, relayId, body, now, fault);
      && FlagMatchesStatus(resp)
      && (body.None? ==> db' == db && resp == RespondError(StatusBadRequest, "Invalid JSON body", InvalidJson))
      && (body.Some? && FieldCount(body.value) == 0 ==>
            && db' == db && resp == RespondError(StatusBadRequest, "No fields to update", ValidationError)
            && UpdateResponse(db, baseUrl, relayId, body, now, otherFault) == (db', resp))
      && (body.Some? && FieldCount(body.value) > 0 && fault.None? && relayId !in db.relays ==>
            db' == db && resp == RespondError(StatusNotFound, "Relay not found", NotFoundCode))
      && (resp.status == StatusOK ==>
            && body.Some? && relayId in db.relays
            && resp.body.data.RelayData?
            && resp.body.data.relay.webhookUrl == baseUrl + db.relays[relayId].webhookPath
            && db'.relays.Keys == db.relays.Keys && db'.actions == db.actions && db'.logs == db.logs)
  {
    if body.Some? && FieldCount(body.value) > 0 {
      UpdateRelayEffect(db, relayId, body.value, now, fault);
    }
  }

  /** `Handler.DeleteRelay`. */
  function DeleteResponse(db: Database, relayId: string, fault: Option<string>): (Database, Response) {
    var (db', err) := DeleteSpec(db, relayId, fault);
    if err.Some? then (db', StoreErrorResponse(err.value, "Relay not found", "Failed to delete relay"))
    else (db', RespondSuccess(StatusOK, "Relay deleted successfully", DeletedData(relayId)))
  }

  /** Deleting reports the deleted id; deleting the same relay again is a 404. */
  lemma DeleteRelayHandling(db: Database, relayId: string)
    ensures var (db1, r1) := DeleteResponse(db, relayId, None);
            var (db2, r2) := DeleteResponse(db1, relayId, None);
      && FlagMatchesStatus(r1)
      && (relayId in db.relays ==> r1 == RespondSuccess(StatusOK, "Relay deleted successfully", DeletedData(relayId)))
      && (relayId !in db.relays ==> r1 == RespondError(StatusNotFound, "Relay not found", NotFoundCode))
      && r2 == RespondError(StatusNotFound, "Relay not found", NotFoundCode) && db2 == db1
  {
    DeleteTwice(db, relayId);
  }

  /** `Handler.GetRelayLogs`. */
  function LogsResponse(db: Database, relayId: string, limitStr: string, fault: ReadFault): Response {
    match LogsSpec(db, relayId, LogsLimit(limitStr), fault)
    case Failure(_) => RespondError(StatusInternalServerError, "Failed to fetch logs", DbError)
    case Success(logs) => RespondSuccess(StatusOK, "", LogListData(logs))
  }

  /** A page of logs never holds more than 200 entries, all of the relay, newest first. */
  lemma LogsHandling(db: Database, relayId: string, limitStr: string, fault: ReadFault)
    ensures var resp := LogsResponse(db, relayId, limitStr, fault);
      && FlagMatchesStatus(resp)
      && (resp.status == StatusOK ==>
            && resp.body.data.LogListData?
            && |resp.body.data.logs| <= LogsLimit(limitStr) <= MaxLimit
            && (forall i :: 0 <= i < |resp.body.data.logs| ==> resp.body.data.logs[i].relayId == relayId)
            && SortedBy(resp.body.data.logs, LogTime))
  {
    GetLogsPage(db, relayId, LogsLimit(limitStr), fault);
  }

  /** `Handler.GetAllRelays`, given what the store's listing query returned. */
  function AllRelaysResponse(baseUrl: string, listing: Result<seq<Relay>, StoreError>): Response {
    match listing
    case Failure(_) => RespondError(StatusInternalServerError, "Failed to fetch relays", DbError)
    case Success(relays) => RespondSuccess(StatusOK, "", RelayListData(WithUrls(relays, baseUrl)))
  }

  /** Every listed relay gets the base URL followed by its own webhook path. */
  lemma AllRelaysHandling(baseUrl: string, listing: Result<seq<Relay>, StoreError>)
    ensures var resp := AllRelaysResponse(baseUrl, listing);
      && FlagMatchesStatus(resp)
      && (listing.Success? <==> resp.status == StatusOK)
      && (listing.Success? ==>
            && |resp.body.data.relays| == |listing.value|
            && forall i :: 0 <= i < |listing.value| ==>
                 && resp.body.data.relays[i].webhookUrl == baseUrl + listing.value[i].webhookPath
                 && resp.body.data.relays[i].(webhookUrl := listing.value[i].webhookUrl) == listing.value[i])
  {
  }

  // ---------------------------------------------------------------- the handler

  /** api.Handler: the store and the base URL webhook URLs start with. */
  class Handler {
    const store: RelayStore
    const baseUrl: string

    /** `NewHandler`. */
    constructor (s: RelayStore)
      ensures store == s && baseUrl == DefaultBaseUrl
    {
      store := s;
      baseUrl := DefaultBaseUrl;
    }

    /** `CreateRelay` (handlers.go:50-107). */
    method CreateRelay(body: Option<CreateRelayRequest>, relayId: string, actionIds: seq<string>, now: int,
                       fault: CreateFault) returns (resp: Response)
      requires body.Some? ==> |actionIds| == |body.value.actions|
      modifies store
      ensures (store.Snapshot(), resp) == CreateResponse(old(store.Snapshot()), baseUrl, body, relayId, actionIds, now, fault)
    {
      if body.None? {
        return HttpError("Invalid JSON body", StatusBadRequest);
      }
      var req := body.value;
      var problem := ValidateCreate(req);
      if problem.Some? {
        return RespondError(StatusBadRequest, problem.value, ValidationError);
      }
      var created := store.CreateRelay(req, relayId, actionIds, now, fault);
      if created.Failure? {
        return RespondError(StatusInternalServerError, "Failed to create relay", DbError);
      }
      var relay := created.value;
      relay := relay.(relay := relay.relay.(webhookUrl := baseUrl + relay.relay.webhookPath));
      resp := RespondSuccess(StatusCreated, "Relay created successfully", FullRelayData(relay));
    }

    /** `GetAllRelays` (handlers.go:109-135); `listing` is what the store's listing
        query returned. */
    method GetAllRelays(listing: Result<seq<Relay>, StoreError>) returns (resp: Response)
      ensures resp == AllRelaysResponse(baseUrl, listing)
    {
      if listing.Failure? {
        return RespondError(StatusInternalServerError, "Failed to fetch relays", DbError);
      }
      var relays := new Relay[|listing.value|](i requires 0 <= i < |listing.value| => listing.value[i]);
      FillWebhookUrls(relays, baseUrl);
      resp := RespondSuccess(StatusOK, "", RelayListData(relays[..]));
    }

    /** `GetRelayLogs` (handlers.go:137-156); `limitStr` is the `limit` query parameter. */
    method GetRelayLogs(relayId: string, limitStr: string, fault: ReadFault) returns (resp: Response)
      ensures resp == LogsResponse(store.Snapshot(), relayId, limitStr, fault)
    {
      var limit := DefaultLimit;
      if limitStr != "" {
        var parsed := Atoi(limitStr);
        if parsed.Some? && parsed.value > 0 {
          limit := if parsed.value < MaxLimit then parsed.value else MaxLimit;
        }
      }
      var logs := store.GetLogs(relayId, limit, fault);
      if logs.Failure? {
        return RespondError(StatusInternalServerError, "Failed to fetch logs", DbError);
      }
      resp := RespondSuccess(StatusOK, "", LogListData(logs.value));
    }

    /** `GetRelay` (handlers.go:158-182). */
    method GetRelay(relayId: string, fault: GetFault) returns (resp: Response)
      ensures resp == GetRelayResponse(store.Snapshot(), baseUrl, relayId, fault)
    {
      var found := store.GetRelay(relayId, fault);
      if found.Failure? {
        if ErrorsIs(found.error, ErrRelayNotFound) {
          return RespondError(StatusNotFound, "Relay Not found", NotFoundCode);
        }
        return RespondError(StatusInternalServerError, "Failed to fetch relay", DbError);
      }
      var relay := found.value;
      relay := relay.(relay := relay.relay.(webhookUrl := baseUrl + relay.relay.webhookPath));
      resp := RespondSuccess(StatusOK, "", FullRelayData(relay));
    }

    /** `UpdateRelay` (handlers.go:184-211). */
    method UpdateRelay(relayId: string, body: Option<UpdateRelayRequest>, now: int, fault: Option<string>)
      returns (resp: Response)
      modifies store
      ensures (store.Snapshot(), resp) == UpdateResponse(old(store.Snapshot()), baseUrl, relayId, body, now, fault)
    {
      if body.None? {
        return RespondError(StatusBadRequest, "Invalid JSON body", InvalidJson);
      }
      var req := body.value;
      if req.name.None? && req.description.None? && req.isActive.None? {
        return RespondError(StatusBadRequest, "No fields to update", ValidationError);
      }
      var updated, _ := store.UpdateRelay(relayId, req, now, fault);
      if updated.Failure? {
        if ErrorsIs(updated.error, ErrRelayNotFound) {
          return RespondError(StatusNotFound, "Relay not found", NotFoundCode);
        }
        return RespondError(StatusInternalServerError, "Failed to update relay", DbError);
      }
      var relay := updated.value;
      relay := relay.(webhookUrl := baseUrl + relay.webhookPath);
      resp := RespondSuccess(StatusOK, "Relay updated successfully", RelayData(relay));
    }

    /** `DeleteRelay` (handlers.go:213-232). */
    method DeleteRelay(relayId: string, fault: Option<string>) returns (resp: Response)
      modifies store
      ensures (store.Snapshot(), resp) == DeleteResponse(old(store.Snapshot()), relayId, fault)
    {
      var err := store.DeleteRelay(relayId, fault);
      if err.Some? {
        if ErrorsIs(err.value, ErrRelayNotFound) {
          return RespondError(StatusNotFound, "Relay not found", NotFoundCode);
        }
        return RespondError(StatusInternalServerError, "Failed to delete relay", DbError);
      }
      resp := RespondSuccess(StatusOK, "Relay deleted successfully", DeletedData(relayId));
    }
  }
}
