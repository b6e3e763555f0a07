/** The errors a worker job can end with, and their `Error()` texts. The text is what
    the audit record stores as its detail. */
module WorkerErrors {
  import opened Text

  datatype Error =
    | DedupInsertFailed(cause: string)          // store.go:76
    | QueryFailed(cause: string)                // store.go:44
    | ScanFailed(cause: string)                 // store.go:53
    | ParseConfigFailed(cause: string)          // store.go:56
    | RowsFailed(cause: string)                 // store.go:61
    | NoActions                                 // ErrNoActions, store.go:24
    | RelayNotFound                             // ErrRelayNotFound, store.go:23 (never returned)
    | LogWriteFailed(cause: string)             // store.go:97
    | UnknownActionType(actionType: string)     // Registry.Get
    | ActionFailed(actionType: string, orderIndex: int, cause: string)  // worker_pool.go:135

  /** `err.Error()`. No error text is the status word "success". */
  function Message(e: Error): (m: string)
    ensures m != "success"
  {
    match e
    case DedupInsertFailed(c) => "dedupe insert failed: " + c
    case QueryFailed(c) => "db error: " + c
    case ScanFailed(c) => "scan action: " + c
    case ParseConfigFailed(c) => "parse config: " + c
    case RowsFailed(c) => "rows error: " + c
    case NoActions => "no actions configured for relay"
    case RelayNotFound => "relay not found"
    case LogWriteFailed(c) => "failed to write execution log: " + c
    case UnknownActionType(t) => "unknown action type: " + t
    case ActionFailed(t, i, c) => "action " + t + " (order " + IntToString(i) + ") failed: " + c
  }
}
