/** The worker pool's per-job protocol: claim the dedup marker, fetch the relay's
    ordered actions, run them one after another stopping at the first failure, write
    one audit record, and acknowledge the job. One worker is modelled as a sequential
    loop draining the job queue. */
module Engine {
  import opened Wrappers
  import opened Json
  import opened WorkerErrors
  import opened WorkerStore
  import opened Text
  import Slack

  const StatusSuccess: string := "success"
  const StatusFailed: string := "failed"
  const SuccessDetails: string := "Relay executed successfully"

  /** engine.Job; the acknowledge callback is the pool's record of acks. */
  datatype Job = Job(relayId: string, eventId: string, payload: string)

  /** An executor's behaviour: the error text it returns for a config and a payload,
      or None on success. `SlackExecutor` is the Slack sender in this form; other
      executors are left open. */
  type Executor = (Object, string) -> Option<string>

  /** The action registry, from action type to executor. */
  type Registry = map<string, Executor>

  /** The backend failures one job meets: on the dedup insert, during the fetch, on the
      audit insert. */
  datatype JobFaults = JobFaults(dedup: Option<string>, fetch: FetchFault, log: Option<string>)

  /** What running an action chain did: the actions whose executor was invoked, in
      order, and the error that stopped the chain. */
  datatype Chain = Chain(invoked: seq<RelayAction>, err: Option<Error>)

  /** The loop at worker_pool.go:125-137. */
  function RunChain(actions: seq<RelayAction>, registry: Registry, payload: string): Chain
    decreases |actions|
  {
    if actions == [] then Chain([], None)
    else
      var act := actions[0];
      if act.actionType !in registry then Chain([], Some(UnknownActionType(act.actionType)))
      else match registry[act.actionType](act.config, payload)
        case Some(cause) => Chain([act], Some(ActionFailed(act.actionType, act.orderIndex, cause)))
        case None =>
          var rest := RunChain(actions[1..], registry, payload);
          Chain([act] + rest.invoked, rest.err)
  }

  /** The chain c preceded by actions that all succeeded. */
  function Prefixed(done: seq<RelayAction>, c: Chain): Chain {
    Chain(done + c.invoked, c.err)
  }

  /** One step of RunChain, from position i. */
  lemma ChainStep(actions: seq<RelayAction>, i: nat, registry: Registry, payload: string)
    requires i < |actions|
    ensures var act := actions[i];
      RunChain(actions[i..], registry, payload) ==
        if act.actionType !in registry then Chain([], Some(UnknownActionType(act.actionType)))
        else match registry[act.actionType](act.config, payload)
          case Some(cause) => Chain([act], Some(ActionFailed(act.actionType, act.orderIndex, cause)))
          case None => Prefixed([act], RunChain(actions[i + 1..], registry, payload))
  {
    assert actions[i..][0] == actions[i] && actions[i..][1..] == actions[i + 1..];
  }

  lemma PrefixedAssoc(done: seq<RelayAction>, act: RelayAction, c: Chain)
    ensures Prefixed(done, Prefixed([act], c)) == Prefixed(done + [act], c)
  {
    assert done + ([act] + c.invoked) == done + [act] + c.invoked;
  }

  predicate Succeeds(registry: Registry, act: RelayAction, payload: string) {
    act.actionType in registry && registry[act.actionType](act.config, payload).None?
  }

  /** Actions run strictly in the given order and the first failure stops the chain:
      the invoked actions are a prefix of the list; on success that prefix is the whole
      list; an unknown type stops before the action that has it; an executor error is
      reported for the last invoked action, with its type and order index. */
  lemma {:induction false} ChainIsFailFast(actions: seq<RelayAction>, registry: Registry, payload: string)
    ensures var c := RunChain(actions, registry, payload);
      && |c.invoked| <= |actions| && c.invoked == actions[..|c.invoked|]
      && (c.err.None? ==> c.invoked == actions)
      && (c.err.None? || c.err.value.UnknownActionType? || c.err.value.ActionFailed?)
      && (c.err.Some? && c.err.value.UnknownActionType? ==>
            && |c.invoked| < |actions|
            && actions[|c.invoked|].actionType == c.err.value.actionType
            && c.err.value.actionType !in registry
            && forall k :: 0 <= k < |c.invoked| ==> Succeeds(registry, c.invoked[k], payload))
      && (c.err.Some? && c.err.value.ActionFailed? ==>
            var last := c.invoked[|c.invoked| - 1];
            && |c.invoked| > 0
            && last.actionType == c.err.value.actionType && last.orderIndex == c.err.value.orderIndex
            && last.actionType in registry
            && registry[last.actionType](last.config, payload) == Some(c.err.value.cause)
            && forall k :: 0 <= k < |c.invoked| - 1 ==> Succeeds(registry, c.invoked[k], payload))
      && (c.err.None? ==> forall k :: 0 <= k < |actions| ==> Succeeds(registry, actions[k], payload))
    decreases |actions|
  {
    if actions != [] {
      var act := actions[0];
      if act.actionType in registry && registry[act.actionType](act.config, payload).None? {
        var rest := RunChain(actions[1..], registry, payload);
        ChainIsFailFast(actions[1..], registry, payload);
        var c := RunChain(actions, registry, payload);
        assert c.invoked == [act] + rest.invoked;
        assert actions == [act] + actions[1..];
        assert forall k :: 1 <= k < |c.invoked| ==> c.invoked[k] == rest.invoked[k - 1];
      }
    }
  }

  /** The Slack sender as a registry entry: the text of its send error, if any.
      `urlError` and `outcomes` are what building the request and the endpoint give it. */
  function SlackExecutor(urlError: Option<string>, outcomes: seq<Slack.HttpOutcome>): Executor
    requires |outcomes| == Slack.MaxAttempts
  {
    (cfg: Object, payload: string) =>
      var s := Slack.SendSpec(cfg, urlError, outcomes);
      if s.err.Some? then Some(Slack.SendMessage(s.err.value)) else None
  }

  /** A Slack action under a registry that maps "slack" to the sender: the chain fails
      exactly when the send does, with the send error's text annotated by the action's
      order. */
  lemma SlackActionChain(act: RelayAction, registry: Registry, urlError: Option<string>,
                         outcomes: seq<Slack.HttpOutcome>, payload: string)
    requires |outcomes| == Slack.MaxAttempts && act.actionType == "slack"
    requires "slack" in registry && registry["slack"] == SlackExecutor(urlError, outcomes)
    ensures var s := Slack.SendSpec(act.config, urlError, outcomes);
            var c := RunChain([act], registry, payload);
      && (s.err.None? ==> c == Chain([act], None))
      && (s.err.Some? ==> c == Chain([act], Some(ActionFailed("slack", act.orderIndex, Slack.SendMessage(s.err.value)))))
  {
    var s := Slack.SendSpec(act.config, urlError, outcomes);
    assert registry["slack"](act.config, payload) == if s.err.Some? then Some(Slack.SendMessage(s.err.value)) else None;
    assert [act][1..] == [];
  }

  /** When every attempt of a Slack action is retryable, the audit detail reads
      "action slack (order i) failed: slack send failed after retries: " followed by
      the last attempt's error. */
  lemma SlackRetriesDetails(act: RelayAction, registry: Registry, urlError: Option<string>,
                            outcomes: seq<Slack.HttpOutcome>, payload: string)
    requires |outcomes| == Slack.MaxAttempts && act.actionType == "slack"
    requires "slack" in registry && registry["slack"] == SlackExecutor(urlError, outcomes)
    requires StringField(act.config, "webhook_url") != "" && urlError.None?
    requires forall k :: 0 <= k < Slack.MaxAttempts ==> Slack.Classify(outcomes[k]) == Slack.Retryable
    ensures DetailsOf(RunChain([act], registry, payload).err) ==
      "action " + "slack" + " (order " + IntToString(act.orderIndex) + ") failed: "
      + "slack send failed after retries: " + Slack.AttemptMessage(Slack.AttemptErrorOf(outcomes[Slack.MaxAttempts - 1]))
  {
    Slack.RetriesExhaustedSend(act.config, urlError, outcomes);
    SlackActionChain(act, registry, urlError, outcomes, payload);
    var last := Slack.AttemptMessage(Slack.AttemptErrorOf(outcomes[Slack.MaxAttempts - 1]));
    var cause := Slack.SendMessage(Slack.RetriesExhausted(Slack.AttemptErrorOf(outcomes[Slack.MaxAttempts - 1])));
    assert cause == "slack send failed after retries: " + last;
    assert RunChain([act], registry, payload).err == Some(ActionFailed("slack", act.orderIndex, cause));
    var head := "action " + "slack" + " (order " + IntToString(act.orderIndex) + ") failed: ";
    assert head + cause == head + "slack send failed after retries: " + last;
  }

  /** The job's error before the audit write: the fetch error, or the chain's. */
  function ChainSpec(t: Tables, registry: Registry, job: Job, fetch: FetchFault): Chain {
    match FetchSpec(t, job.relayId, fetch)
    case Failure(e) => Chain([], Some(e))
    case Success(actions) => RunChain(actions, registry, job.payload)
  }

  function StatusOf(err: Option<Error>): string {
    if err.Some? then StatusFailed else StatusSuccess
  }

  function DetailsOf(err: Option<Error>): string {
    if err.Some? then Message(err.value) else SuccessDetails
  }

  /** The row the deferred call at worker_pool.go:116 inserts, with its arguments in
      the order written there: (relayID, status, details, eventID, payload) passed to the
      parameters (relayID, eventID, status, details, payload). */
  function AuditRowAsWritten(job: Job, err: Option<Error>): LogRow {
    LogRowFor(job.relayId, StatusOf(err), DetailsOf(err), job.eventId, job.payload)
  }

  /** The row the audit call evidently means to insert. */
  function IntendedAuditRow(job: Job, err: Option<Error>): (row: LogRow)
    ensures row.relayId == job.relayId && row.eventId == job.eventId
    ensures row.status == StatusSuccess <==> err.None?
    ensures row.status == StatusFailed <==> err.Some?
    ensures row.errorMessage == if err.Some? then Some(Message(err.value)) else None
  {
    LogRowFor(job.relayId, job.eventId, StatusOf(err), DetailsOf(err), job.payload)
  }

  /** As written, the stored event_id is the status word, the stored status is the
      detail text, and error_message holds the event id whenever there is one. */
  lemma AuditColumnsSwapped(job: Job, err: Option<Error>)
    ensures var row := AuditRowAsWritten(job, err);
      && row.eventId == StatusOf(err)
      && row.status == DetailsOf(err) && row.status != StatusSuccess
      && row.errorMessage == if job.eventId != "" then Some(job.eventId) else None
  {
  }

  /** The intended row differs from the row written for every job. */
  lemma AuditRowDiffers(job: Job, err: Option<Error>)
    ensures AuditRowAsWritten(job, err) != IntendedAuditRow(job, err)
  {
    assert AuditRowAsWritten(job, err).status != IntendedAuditRow(job, err).status;
  }

  /** What one job did to the tables, the error it ended with, the executors it invoked. */
  datatype Outcome = Outcome(tables: Tables, err: Option<Error>, invoked: seq<RelayAction>)

  /** `WorkerPool.process` (worker_pool.go:93-139). */
  function ProcessSpec(t: Tables, registry: Registry, job: Job, faults: JobFaults): Outcome {
    var reg := RegisterSpec(t, job.relayId, job.eventId, faults.dedup);
    if reg.err.Some? then Outcome(t, reg.err, [])
    else if !reg.isNew then Outcome(reg.tables, None, [])
    else
      var chain := ChainSpec(reg.tables, registry, job, faults.fetch);
      var logged := LogSpec(reg.tables, job.relayId, StatusOf(chain.err), DetailsOf(chain.err),
                            job.eventId, job.payload, faults.log);
      Outcome(logged.tables, chain.err, chain.invoked)
  }

  /** A failed dedup claim ends the job with that error before anything else happens:
      no fetch, no executor, no audit record. */
  lemma DedupFailureStopsJob(t: Tables, registry: Registry, job: Job, faults: JobFaults)
    requires job.eventId != "" && faults.dedup.Some?
    ensures ProcessSpec(t, registry, job, faults) == Outcome(t, Some(DedupInsertFailed(faults.dedup.value)), [])
  {
  }

  /** A duplicate delivery is skipped without error: nothing is executed or logged. */
  lemma DuplicateIsSkipped(t: Tables, registry: Registry, job: Job, faults: JobFaults)
    requires job.eventId != "" && faults.dedup.None? && (job.relayId, job.eventId) in t.processed
    ensures ProcessSpec(t, registry, job, faults) == Outcome(t, None, [])
  {
    assert t.(processed := t.processed + {(job.relayId, job.eventId)}) == t;
  }

  /** Every job that gets past the dedup claim writes exactly one audit record, as
      written at line 116, unless the audit insert itself fails; the claim is recorded
      when the event id is non-empty and the dedup markers are otherwise untouched. */
  lemma AuditWrittenOnce(t: Tables, registry: Registry, job: Job, faults: JobFaults)
    requires faults.dedup.None? || job.eventId == ""
    requires job.eventId == "" || (job.relayId, job.eventId) !in t.processed
    ensures var o := ProcessSpec(t, registry, job, faults);
      && o.tables.relays == t.relays && o.tables.actionRows == t.actionRows
      && o.tables.processed == (if job.eventId == "" then t.processed else t.processed + {(job.relayId, job.eventId)})
      && o.tables.logs == (if faults.log.None? then t.logs + [AuditRowAsWritten(job, o.err)] else t.logs)
  {
  }

  /** A failed audit write is only observed: the job's error and the executors it
      invoked do not depend on it. */
  lemma AuditFailureIsNotFatal(t: Tables, registry: Registry, job: Job, faults: JobFaults, logFault: Option<string>)
    ensures var a := ProcessSpec(t, registry, job, faults);
            var b := ProcessSpec(t, registry, job, faults.(log := logFault));
            a.err == b.err && a.invoked == b.invoked
  {
  }

  /** A job whose fetch fails, or whose actions contain an unknown type or a failing
      executor, ends with an error; a job ends without error only if it was a duplicate
      or every fetched action ran and succeeded. */
  lemma ProcessErrors(t: Tables, registry: Registry, job: Job, faults: JobFaults)
    ensures var o := ProcessSpec(t, registry, job, faults);
      o.err.None? ==>
        || (job.eventId != "" && (job.relayId, job.eventId) in t.processed && o.invoked == [])
        || (exists actions :: FetchSpec(RegisterSpec(t, job.relayId, job.eventId, faults.dedup).tables, job.relayId, faults.fetch) == Success(actions)
              && o.invoked == actions
              && forall k :: 0 <= k < |actions| ==> Succeeds(registry, actions[k], job.payload))
  {
    var reg := RegisterSpec(t, job.relayId, job.eventId, faults.dedup);
    var fetched := FetchSpec(reg.tables, job.relayId, faults.fetch);
    if reg.err.None? && reg.isNew && fetched.Success? {
      ChainIsFailFast(fetched.value, registry, job.payload);
    }
  }

  /** Dedup-before-execute: once a job with a non-empty event id has been claimed, a
      redelivery of it is skipped and acknowledged, whatever the first run's outcome. */
  lemma RedeliveryIsSkipped(t: Tables, registry: Registry, job: Job, first: JobFaults, second: JobFaults)
    requires job.eventId != "" && first.dedup.None? && second.dedup.None?
    ensures var o1 := ProcessSpec(t, registry, job, first);
            var o2 := ProcessSpec(o1.tables, registry, job, second);
            o2 == Outcome(o1.tables, None, [])
  {
    var o1 := ProcessSpec(t, registry, job, first);
    assert (job.relayId, job.eventId) in o1.tables.processed;
    DuplicateIsSkipped(o1.tables, registry, job, second);
  }

  /** The acknowledgement a job's source receives. */
  datatype Ack = Ack(relayId: string, eventId: string, ok: bool)

  /** The ack decision at worker_pool.go:76-87. */
  function AckFor(job: Job, err: Option<Error>): (a: Ack)
    ensures a.relayId == job.relayId && a.eventId == job.eventId
    ensures a.ok <==> err.None?
  {
    Ack(job.relayId, job.eventId, err.None?)
  }

  datatype Run = Run(tables: Tables, outcomes: seq<Outcome>)

  /** One worker draining `jobs` in order. */
  function RunSpec(t: Tables, registry: Registry, jobs: seq<Job>, faults: seq<JobFaults>): (r: Run)
    requires |faults| == |jobs|
    ensures |r.outcomes| == |jobs|
    decreases |jobs|
  {
    if jobs == [] then Run(t, [])
    else
      var o := ProcessSpec(t, registry, jobs[0], faults[0]);
      var rest := RunSpec(o.tables, registry, jobs[1..], faults[1..]);
      Run(rest.tables, [o] + rest.outcomes)
  }

  function AcksOf(jobs: seq<Job>, outcomes: seq<Outcome>): (acks: seq<Ack>)
    requires |outcomes| == |jobs|
    ensures |acks| == |jobs|
    ensures forall i :: 0 <= i < |jobs| ==> acks[i] == AckFor(jobs[i], outcomes[i].err)
  {
    seq(|jobs|, i requires 0 <= i < |jobs| => AckFor(jobs[i], outcomes[i].err))
  }

  /** The run r preceded by outcomes already produced. */
  function Spliced(done: seq<Outcome>, r: Run): Run {
    Run(r.tables, done + r.outcomes)
  }

  /** One step of RunSpec, from position i. */
  lemma RunStep(t: Tables, registry: Registry, jobs: seq<Job>, faults: seq<JobFaults>, i: nat)
    requires |faults| == |jobs| && i < |jobs|
    ensures var o := ProcessSpec(t, registry, jobs[i], faults[i]);
      RunSpec(t, registry, jobs[i..], faults[i..]) ==
        Spliced([o], RunSpec(o.tables, registry, jobs[i + 1..], faults[i + 1..]))
  {
    assert jobs[i..][0] == jobs[i] && jobs[i..][1..] == jobs[i + 1..];
    assert faults[i..][0] == faults[i] && faults[i..][1..] == faults[i + 1..];
  }

  lemma SplicedAssoc(done: seq<Outcome>, o: Outcome, r: Run)
    ensures Spliced(done, Spliced([o], r)) == Spliced(done + [o], r)
  {
    assert done + ([o] + r.outcomes) == done + [o] + r.outcomes;
  }

  lemma AcksSnoc(jobs: seq<Job>, outs: seq<Outcome>, o: Outcome, i: nat)
    requires i < |jobs| && |outs| == i
    ensures AcksOf(jobs[..i + 1], outs + [o]) == AcksOf(jobs[..i], outs) + [AckFor(jobs[i], o.err)]
  {
  }

  /** Delivering the same job twice in a row: the second delivery
      invokes no executor, writes no second audit record and is acknowledged. */
  lemma SecondDeliveryIsNoOp(t: Tables, registry: Registry, job: Job, f1: JobFaults, f2: JobFaults)
    requires job.eventId != "" && f1.dedup.None? && f2.dedup.None?
    ensures var r := RunSpec(t, registry, [job, job], [f1, f2]);
      && r.outcomes[1] == Outcome(r.outcomes[0].tables, None, [])
      && r.tables.logs == r.outcomes[0].tables.logs
      && AcksOf([job, job], r.outcomes)[1].ok
  {
    var o1 := ProcessSpec(t, registry, job, f1);
    RedeliveryIsSkipped(t, registry, job, f1, f2);
    var rest := RunSpec(o1.tables, registry, [job], [f2]);
    assert [job, job][1..] == [job] && [f1, f2][1..] == [f2];
    var o2 := ProcessSpec(o1.tables, registry, job, f2);
    assert [job][1..] == [] && [f2][1..] == [];
    assert rest == Run(RunSpec(o2.tables, registry, [], []).tables, [o2]);
  }

  /** engine.WorkerPool with one worker: the bounded job queue and the acks sent back. */
  class WorkerPool {
    const store: Store
    const registry: Registry
    var queue: seq<Job>
    var acks: seq<Ack>

    constructor (store: Store, registry: Registry)
      ensures this.store == store && this.registry == registry
      ensures queue == [] && acks == []
    {
      this.store := store;
      this.registry := registry;
      queue := [];
      acks := [];
    }

    /** The loop at worker_pool.go:125-137 over fetched actions. */
    method RunActions(actions: seq<RelayAction>, payload: string) returns (err: Option<Error>, invoked: seq<RelayAction>)
      ensures Chain(invoked, err) == RunChain(actions, registry, payload)
    {
      invoked := [];
      var i := 0;
      while i < |actions|
        invariant 0 <= i <= |actions|
        invariant invoked == actions[..i]
        invariant RunChain(actions, registry, payload) == Prefixed(invoked, RunChain(actions[i..], registry, payload))
      {
        var act := actions[i];
        ChainStep(actions, i, registry, payload);
        if act.actionType !in registry {
          return Some(UnknownActionType(act.actionType)), invoked;
        }
        var executor := registry[act.actionType];
        var execErr := executor(act.config, payload);
        if execErr.Some? {
          invoked := invoked + [act];
          return Some(ActionFailed(act.actionType, act.orderIndex, execErr.value)), invoked;
        }
        PrefixedAssoc(invoked, act, RunChain(actions[i + 1..], registry, payload));
        invoked := invoked + [act];
        i := i + 1;
        assert invoked == actions[..i];
      }
      err := None;
      assert actions[i..] == [];
    }

    /** The part of `process` after the deferred audit call is installed: fetch the
        actions and run them in order, stopping at the first failure. */
    method ExecuteActions(job: Job, fetch: FetchFault) returns (err: Option<Error>, invoked: seq<RelayAction>)
      ensures Chain(invoked, err) == ChainSpec(store.Snapshot(), registry, job, fetch)
    {
      var fetched := store.GetRelayActions(job.relayId, fetch);
      if fetched.Failure? {
        return Some(fetched.error), [];
      }
      err, invoked := RunActions(fetched.value, job.payload);
    }

    /** `process`: the dedup claim, then the actions, then the deferred audit write,
        whose own failure is only observed. */
    method Process(job: Job, faults: JobFaults) returns (err: Option<Error>, invoked: seq<RelayAction>)
      modifies store
      ensures Outcome(store.Snapshot(), err, invoked) == ProcessSpec(old(store.Snapshot()), registry, job, faults)
    {
      var status := StatusSuccess;
      var details := SuccessDetails;
      if job.eventId != "" {
        var isNew, dedupErr := store.RegisterEvent(job.relayId, job.eventId, faults.dedup);
        if dedupErr.Some? {
          return dedupErr, [];
        }
        if !isNew {
          return None, [];
        }
      }
      err, invoked := ExecuteActions(job, faults.fetch);
      // the deferred audit call
      if err.Some? {
        status := StatusFailed;
        details := Message(err.value);
      }
      var logErr := store.LogExecution(job.relayId, status, details, job.eventId, job.payload, faults.log);
    }

    /** One turn of the worker loop: take the next job, process it and acknowledge it
        with true exactly when processing returned no error. */
    method HandleNext(faults: JobFaults)
      requires |queue| > 0
      modifies this, store
      ensures queue == old(queue)[1..]
      ensures var o := ProcessSpec(old(store.Snapshot()), registry, old(queue)[0], faults);
        store.Snapshot() == o.tables && acks == old(acks) + [AckFor(old(queue)[0], o.err)]
    {
      var job := queue[0];
      queue := queue[1..];
      var err, _ := Process(job, faults);
      acks := acks + [AckFor(job, err)];
    }

    /** The worker loop: take each queued job in order, process it and acknowledge it
        once, with true exactly when processing returned no error. */
    method Worker(faults: seq<JobFaults>)
      requires |faults| == |queue|
      modifies this, store
      ensures queue == []
      ensures var run := RunSpec(old(store.Snapshot()), registry, old(queue), faults);
        store.Snapshot() == run.tables && acks == old(acks) + AcksOf(old(queue), run.outcomes)
    {
      var jobs := queue;
      ghost var run := RunSpec(store.Snapshot(), registry, jobs, faults);
      ghost var outs: seq<Outcome> := [];
      var i := 0;
      while |queue| > 0
        invariant 0 <= i <= |jobs| && queue == jobs[i..] && |outs| == i
        invariant run == Spliced(outs, RunSpec(store.Snapshot(), registry, jobs[i..], faults[i..]))
        invariant acks == old(acks) + AcksOf(jobs[..i], outs)
      {
        ghost var before := store.Snapshot();
        RunStep(before, registry, jobs, faults, i);
        HandleNext(faults[i]);
        ghost var o := ProcessSpec(before, registry, jobs[i], faults[i]);
        SplicedAssoc(outs, o, RunSpec(o.tables, registry, jobs[i + 1..], faults[i + 1..]));
        AcksSnoc(jobs, outs, o, i);
        outs := outs + [o];
        i := i + 1;
      }
      assert jobs[..i] == jobs;
    }
  }
}
