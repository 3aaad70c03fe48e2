/**
 * `lastLogCheckpoint`: one run of the extension. Check the settings, read the
 * saved checkpoint, fetch every log after it, rewrite and push each log to
 * Azure Log Analytics, and save the checkpoint for the next run.
 */
module Orchestrator {
  import opened Wrappers
  import opened JsText
  import opened Settings
  import opened LogRecords
  import opened LogTypes
  import opened Transform
  import opened Fetch
  import opened AzureClient

  /** The collaborators a run talks to, each as the answers it gives. */
  datatype Environment = Environment(
    feed: Feed,                           // Auth0's /api/v2/logs
    parse: string -> UserAgent,           // useragent.parse
    serialize: LogRecord -> string,       // JSON.stringify
    hmac: Hmac,                           // crypto.createHmac('sha256', key) ... digest('base64')
    sink: SinkRequest -> SinkResponse,    // the Data Collector API
    now: string,                          // (new Date()).toUTCString()
    storeError: Option<string>)           // the error storage.set reports, if any

  /** The string `exportLogs` hands to its callback, once `JSON.parse` has read it (or failed to). */
  datatype ExportResponse = ItemsAccepted(n: int) | Unparseable(raw: string)

  /**
   * The HTTP reply of the run, or `Uncaught`: an exception escaped the
   * callbacks and the code sends no reply of its own.
   */
  datatype Reply = BadRequest(message: string) | ServerError(error: string) | Success | Uncaught(exception: string)

  /** The status of a reply the code sends. */
  function StatusCode(r: Reply): int
    requires !r.Uncaught?
  {
    match r
    case BadRequest(_) => 400
    case ServerError(_) => 500
    case Success => 200
  }

  /** What a run does: its reply, the cursor it asks storage to save (None: no write), each push's outcome. */
  datatype RunResult = RunResult(reply: Reply, saved: Option<Cursor>, outcomes: seq<bool>)

  /** The records as `exportLogs` leaves them. */
  function TransformAll(logs: seq<LogRecord>, parse: string -> UserAgent, types: map<string, EventType>): seq<LogRecord> {
    seq(|logs|, i requires 0 <= i < |logs| => TransformRecord(logs[i], parse(logs[i].userAgent), types))
  }

  /** Whether the sink accepted the push of one (already rewritten) record. */
  function Delivered(c: Client, env: Environment, record: LogRecord): bool {
    IsAccepted(env.sink(PushRequest(c, env.serialize(record))))
  }

  /** The outcome of pushing each record in turn; a rejection does not stop the later pushes. */
  function Deliveries(c: Client, env: Environment, records: seq<LogRecord>): (outcomes: seq<bool>)
    ensures |outcomes| == |records|
    ensures forall i :: 0 <= i < |records| ==> outcomes[i] == Delivered(c, env, records[i])
  {
    if records == [] then []
    else Deliveries(c, env, records[..|records| - 1]) + [Delivered(c, env, records[|records| - 1])]
  }

  /** Pushing one more record adds its outcome at the end. */
  lemma DeliveriesStep(c: Client, env: Environment, records: seq<LogRecord>, i: nat)
    requires i < |records|
    ensures Deliveries(c, env, records[..i + 1]) == Deliveries(c, env, records[..i]) + [Delivered(c, env, records[i])]
  {
    assert records[..i + 1][..i] == records[..i];
  }

  /** How many pushes the sink accepted. */
  function CountAccepted(outcomes: seq<bool>): nat {
    if outcomes == [] then 0
    else CountAccepted(outcomes[..|outcomes| - 1]) + (if outcomes[|outcomes| - 1] then 1 else 0)
  }

  /**
   * The accepted pushes never outnumber the records, and match them only when
   * every push was accepted: reporting `logs.length` as `itemsAccepted` overstates
   * the deliveries whenever one is rejected.
   */
  lemma {:induction false} CountAcceptedBound(outcomes: seq<bool>)
    ensures CountAccepted(outcomes) <= |outcomes|
    ensures CountAccepted(outcomes) == |outcomes| <==> forall i :: 0 <= i < |outcomes| ==> outcomes[i]
    ensures CountAccepted(outcomes) == 0 <==> forall i :: 0 <= i < |outcomes| ==> !outcomes[i]
  {
    if outcomes != [] {
      var init := outcomes[..|outcomes| - 1];
      CountAcceptedBound(init);
      assert forall i :: 0 <= i < |init| ==> init[i] == outcomes[i];
    }
  }

  /** The three branches after `exportLogs`: what is replied, and which cursor is saved. */
  function Commit(response: ExportResponse, checkpointId: Cursor, storeError: Option<string>): (Reply, Cursor) {
    match response
    case Unparseable(raw) =>
      (if storeError.Some? then ServerError(storeError.value) else ServerError(raw), checkpointId)
    case ItemsAccepted(n) =>
      if n > 0 then (if storeError.Some? then ServerError(storeError.value) else Success, checkpointId)
      else (if storeError.Some? then ServerError(storeError.value) else Success, checkpointId)
  }

  /** Every branch saves the current `checkpointId`; only a storage error or an unreadable response turns the reply into a 500. */
  lemma CommitSavesCheckpoint(response: ExportResponse, checkpointId: Cursor, storeError: Option<string>)
    ensures Commit(response, checkpointId, storeError).1 == checkpointId
    ensures Commit(response, checkpointId, storeError).0 == Success <==> response.ItemsAccepted? && storeError.None?
    ensures StatusCode(Commit(response, checkpointId, storeError).0) == if response.ItemsAccepted? && storeError.None? then 200 else 500
  {
  }

  /** The client a run builds from its settings. */
  function RunClient(data: Config, env: Environment): Client {
    GetClient(Get(data, WorkspaceId), Get(data, WorkspaceKey), Get(data, Namespace), Get(data, ApiVersion), env.now, env.hmac)
  }

  /**
   * One run from the saved cursor `stored`, if Auth0's feed ends within `fuel`
   * requests; `types` is the log-type catalog, `Catalog()` in the extension.
   */
  function Run(data: Config, stored: Cursor, env: Environment, types: map<string, EventType>, fuel: nat): Option<RunResult> {
    match CheckConfig(data)
    case Some(message) => Some(RunResult(BadRequest(message), None, []))
    case None =>
      var fetched := Paginate(env.feed, BatchSize(data), stored, fuel);
      if fetched.None? then None
      else if fetched.value.Fetched? then Some(Export(data, env, types, fetched.value.logs, fetched.value.checkpointId))
      else Some(RunResult(FailureReply(fetched.value), None, []))
  }

  /** A fetch that did not complete: `!logs` gives a 500 with the error; an exception escapes with no reply. */
  function FailureReply(r: FetchResult): Reply
    requires !r.Fetched?
  {
    if r.FetchFailed? then ServerError(r.error) else Uncaught(r.exception)
  }

  /** The part of a run after a complete fetch: rewrite and push every record, then save `checkpointId`. */
  function Export(data: Config, env: Environment, types: map<string, EventType>,
                  logs: seq<LogRecord>, checkpointId: Cursor): RunResult {
    var records := TransformAll(logs, env.parse, types);
    var outcomes := Deliveries(RunClient(data, env), env, records);
    var (reply, saved) := Commit(ItemsAccepted(|logs|), checkpointId, env.storeError);
    RunResult(reply, Some(saved), outcomes)
  }

  /** A missing setting is a 400 with its message, before storage or Auth0 is touched. */
  lemma RunRejectsMissingSetting(data: Config, stored: Cursor, env: Environment, types: map<string, EventType>, fuel: nat)
    requires CheckConfig(data).Some?
    ensures Run(data, stored, env, types, fuel) == Some(RunResult(BadRequest(CheckConfig(data).value), None, []))
    ensures StatusCode(Run(data, stored, env, types, fuel).value.reply) == 400
  {
  }

  /** A failed request to Auth0 is a 500: nothing is pushed and nothing is saved, whatever was fetched before it. */
  lemma RunFetchErrorSavesNothing(data: Config, stored: Cursor, env: Environment, types: map<string, EventType>, fuel: nat)
    requires CheckConfig(data).None?
    requires Paginate(env.feed, BatchSize(data), stored, fuel).Some?
    requires Paginate(env.feed, BatchSize(data), stored, fuel).value.FetchFailed?
    ensures var r := Run(data, stored, env, types, fuel).value;
      && r.reply == ServerError(Paginate(env.feed, BatchSize(data), stored, fuel).value.error)
      && StatusCode(r.reply) == 500 && r.saved.None? && r.outcomes == []
  {
  }

  /** A non-empty string body from Auth0 throws in `forEach`: no reply is built, nothing is pushed and nothing is saved. */
  lemma RunThrowsSavesNothing(data: Config, stored: Cursor, env: Environment, types: map<string, EventType>, fuel: nat)
    requires CheckConfig(data).None?
    requires Paginate(env.feed, BatchSize(data), stored, fuel).Some?
    requires Paginate(env.feed, BatchSize(data), stored, fuel).value.FetchThrew?
    ensures var r := Run(data, stored, env, types, fuel).value;
      && r.reply == Uncaught(ForEachTypeError) && r.saved.None? && r.outcomes == []
  {
    var _ := PaginateThrowsAfterChain(env.feed, BatchSize(data), stored, fuel);
  }

  /**
   * After a complete fetch every record is pushed once, and the cursor saved is
   * the `_id` of the last record fetched, or the saved cursor when nothing was fetched.
   */
  lemma RunSavesLastFetchedId(data: Config, stored: Cursor, env: Environment, types: map<string, EventType>, fuel: nat)
    requires CheckConfig(data).None?
    requires Paginate(env.feed, BatchSize(data), stored, fuel).Some?
    requires Paginate(env.feed, BatchSize(data), stored, fuel).value.Fetched?
    ensures var logs := Paginate(env.feed, BatchSize(data), stored, fuel).value.logs;
      var r := Run(data, stored, env, types, fuel).value;
      && r.saved == Some(if logs == [] then stored else Some(logs[|logs| - 1].id))
      && |r.outcomes| == |logs|
      && r.reply == (if env.storeError.Some? then ServerError(env.storeError.value) else Success)
  {
    var f := Paginate(env.feed, BatchSize(data), stored, fuel).value;
    PaginateCheckpoint(env.feed, BatchSize(data), stored, fuel);
    assert Run(data, stored, env, types, fuel) == Some(Export(data, env, types, f.logs, f.checkpointId));
    CommitSavesCheckpoint(ItemsAccepted(|f.logs|), f.checkpointId, env.storeError);
  }

  /** What the sink answers changes neither the reply nor the saved cursor. */
  lemma RunIgnoresDeliveryOutcome(data: Config, stored: Cursor, env: Environment, types: map<string, EventType>, fuel: nat,
                                  sink: SinkRequest -> SinkResponse)
    requires Run(data, stored, env, types, fuel).Some?
    ensures var other := Run(data, stored, env.(sink := sink), types, fuel);
      && other.Some?
      && other.value.reply == Run(data, stored, env, types, fuel).value.reply
      && other.value.saved == Run(data, stored, env, types, fuel).value.saved
  {
  }

  /**
   * `itemsAccepted`, which `exportLogs` sets to the number of fetched logs, is
   * the number of pushes the sink accepted exactly when it accepted every push,
   * and is never below it.
   */
  lemma RunItemsAcceptedOverstates(data: Config, stored: Cursor, env: Environment, types: map<string, EventType>, fuel: nat)
    requires CheckConfig(data).None?
    requires Paginate(env.feed, BatchSize(data), stored, fuel).Some?
    requires Paginate(env.feed, BatchSize(data), stored, fuel).value.Fetched?
    ensures var logs := Paginate(env.feed, BatchSize(data), stored, fuel).value.logs;
      var r := Run(data, stored, env, types, fuel).value;
      && CountAccepted(r.outcomes) <= |logs|
      && (CountAccepted(r.outcomes) == |logs| <==> forall i :: 0 <= i < |r.outcomes| ==> r.outcomes[i])
  {
    RunSavesLastFetchedId(data, stored, env, types, fuel);
    var r := Run(data, stored, env, types, fuel).value;
    CountAcceptedBound(r.outcomes);
  }

  /** Even when the sink rejects every push, a run that fetched logs moves the cursor past all of them. */
  lemma RunAdvancesWhenAllRejected(data: Config, stored: Cursor, env: Environment, types: map<string, EventType>, fuel: nat)
    requires CheckConfig(data).None?
    requires forall q :: !IsAccepted(env.sink(q))
    requires Paginate(env.feed, BatchSize(data), stored, fuel).Some?
    requires Paginate(env.feed, BatchSize(data), stored, fuel).value.Fetched?
    requires Paginate(env.feed, BatchSize(data), stored, fuel).value.logs != []
    ensures var logs := Paginate(env.feed, BatchSize(data), stored, fuel).value.logs;
      var r := Run(data, stored, env, types, fuel).value;
      && CountAccepted(r.outcomes) == 0
      && r.saved == Some(Some(logs[|logs| - 1].id))
  {
    RunSavesLastFetchedId(data, stored, env, types, fuel);
    var r := Run(data, stored, env, types, fuel).value;
    CountAcceptedBound(r.outcomes);
  }

  /** `req.webtaskContext.storage`, holding the one saved cursor. */
  class CheckpointStore {
    var checkpointId: Cursor
    ghost var setCalls: nat

    constructor (initial: Cursor)
      ensures checkpointId == initial && setCalls == 0
    {
      checkpointId := initial;
      setCalls := 0;
    }

    /** `storage.get`: no data reads as `null`. */
    method Load() returns (c: Cursor)
      ensures c == checkpointId
    {
      c := checkpointId;
    }

    /** `storage.set({checkpointId: c}, {force: 1}, cb)`, reporting `error` to the callback. */
    method Save(c: Cursor, error: Option<string>) returns (err: Option<string>)
      modifies this
      ensures setCalls == old(setCalls) + 1 && err == error
      ensures checkpointId == if error.None? then c else old(checkpointId)
    {
      setCalls := setCalls + 1;
      if error.None? {
        checkpointId := c;
      }
      err := error;
    }
  }

  /** The closure state of one run: the working `checkpointId` and the shared `logs` array. */
  class Invocation {
    var checkpointId: Cursor
    var logs: seq<LogRecord>
    ghost var outcomes: seq<bool>

    constructor (start: Cursor)
      ensures checkpointId == start && logs == [] && outcomes == []
    {
      checkpointId := start;
      logs := [];
      outcomes := [];
    }

    /**
     * `getLogs`: pages are appended to `logs` and `checkpointId` follows the last
     * `_id`; a failed request, or the exception a non-empty string body raises
     * in `forEach`, is returned and the run stops, with `logs` holding every page
     * before it and `checkpointId` the cursor of the request that stopped it. Every
     * call of `getLogs` computes the same `take` from the settings, `BatchSize(data)`,
     * so it is a parameter here.
     */
    method GetLogs(take: JsInt, feed: Feed, ghost fuel: nat) returns (failure: Option<FetchResult>)
      requires logs == []
      requires Paginate(feed, take, checkpointId, fuel).Some?
      modifies this
      ensures outcomes == old(outcomes)
      ensures match Paginate(feed, take, old(checkpointId), fuel).value
        case Fetched(all, last) => failure.None? && logs == all && checkpointId == last
        case FetchFailed(e) =>
          && failure == Some(FetchFailed(e))
          && exists pages :: FailsChain(feed, take, old(checkpointId), pages, e)
               && logs == Flatten(pages) && checkpointId == CursorAt(old(checkpointId), pages, |pages|)
        case FetchThrew(x) =>
          && failure == Some(FetchThrew(x))
          && exists pages :: ThrowsChain(feed, take, old(checkpointId), pages)
               && logs == Flatten(pages) && checkpointId == CursorAt(old(checkpointId), pages, |pages|)
    {
      ghost var whole := Paginate(feed, take, checkpointId, fuel);
      ghost var left := fuel;
      ghost var start := checkpointId;
      ghost var pages: seq<seq<LogRecord>> := [];
      assert Prepend(logs, whole) == whole by {
        if whole.Some? && whole.value.Fetched? { assert [] + whole.value.logs == whole.value.logs; }
      }
      while true
        invariant Paginate(feed, take, checkpointId, left).Some?
        invariant whole == Prepend(logs, Paginate(feed, take, checkpointId, left))
        invariant IsChain(feed, take, start, pages)
        invariant logs == Flatten(pages) && checkpointId == CursorAt(start, pages, |pages|)
        invariant outcomes == old(outcomes)
        decreases left
      {
        var result := feed(take, checkpointId);
        match result {
          case FetchError(e) =>
            assert Paginate(feed, take, checkpointId, left) == Some(FetchFailed(e));
            assert FailsChain(feed, take, start, pages, e);
            return Some(FetchFailed(e));
          case NotAnArray =>
            assert Paginate(feed, take, checkpointId, left) == Some(Fetched([], checkpointId));
            assert logs + [] == logs;
            return None;
          case Body(text) =>
            if text == [] {
              assert Paginate(feed, take, checkpointId, left) == Some(Fetched([], checkpointId));
              assert logs + [] == logs;
              return None;
            }
            assert Paginate(feed, take, checkpointId, left) == Some(FetchThrew(ForEachTypeError));
            assert ThrowsChain(feed, take, start, pages);
            return Some(FetchThrew(ForEachTypeError));
          case Logs(page) =>
            if page == [] {
              assert Paginate(feed, take, checkpointId, left) == Some(Fetched([], checkpointId));
              assert logs + [] == logs;
              return None;
            }
            var next := LastId(page);
            assert Paginate(feed, take, checkpointId, left) == Prepend(page, Paginate(feed, take, next, left - 1));
            PrependTwice(logs, page, Paginate(feed, take, next, left - 1));
            ChainSnoc(feed, take, start, pages, page);
            FlattenSnoc(pages, page);
            logs := logs + page;
            checkpointId := next;
            pages := pages + [page];
            left := left - 1;
        }
      }
    }

    /**
     * `exportLogs`: each record is rewritten in place and pushed, a rejected push
     * not stopping the rest; the response claims every record was accepted.
     */
    method ExportLogs(client: Client, env: Environment, types: map<string, EventType>) returns (response: ExportResponse)
      modifies this
      ensures checkpointId == old(checkpointId)
      ensures logs == TransformAll(old(logs), env.parse, types)
      ensures outcomes == Deliveries(client, env, logs)
      ensures response == ItemsAccepted(|logs|)
    {
      outcomes := [];
      var i := 0;
      ghost var original := logs;
      ghost var target := TransformAll(original, env.parse, types);
      while i < |logs|
        invariant 0 <= i <= |logs| == |original| == |target|
        invariant checkpointId == old(checkpointId)
        invariant forall k :: 0 <= k < i ==> logs[k] == target[k]
        invariant forall k :: i <= k < |logs| ==> logs[k] == original[k]
        invariant outcomes == Deliveries(client, env, target[..i])
      {
        var record := TransformRecord(logs[i], env.parse(logs[i].userAgent), types);
        assert record == target[i];
        logs := logs[i := record];
        DeliveriesStep(client, env, target, i);
        outcomes := outcomes + [Delivered(client, env, record)];
        i := i + 1;
      }
      assert logs == target;
      assert target[..i] == target;
      response := ItemsAccepted(|logs|);
    }
  }

  /**
   * `lastLogCheckpoint`: the reply, the outcome of each push, and the saved
   * cursor are those of `Run` from the cursor storage held, with `logTypes`.
   */
  method LastLogCheckpoint(data: Config, store: CheckpointStore, env: Environment, ghost fuel: nat)
    returns (reply: Reply, ghost outcomes: seq<bool>)
    requires CheckConfig(data).None? ==> Paginate(env.feed, BatchSize(data), store.checkpointId, fuel).Some?
    modifies store
    ensures var r := Run(data, old(store.checkpointId), env, Catalog(), fuel);
      && r.Some? && reply == r.value.reply && outcomes == r.value.outcomes
      && store.setCalls == old(store.setCalls) + (if r.value.saved.Some? then 1 else 0)
      && store.checkpointId == if r.value.saved.Some? && env.storeError.None? then r.value.saved.value
                               else old(store.checkpointId)
  {
    var missing := CheckConfig(data);
    if missing.Some? {
      return BadRequest(missing.value), [];
    }
    var stored := store.Load();
    var client := RunClient(data, env);
    var run := new Invocation(stored);
    var failure := run.GetLogs(BatchSize(data), env.feed, fuel);
    if failure.Some? {
      return FailureReply(failure.value), [];
    }
    var response := run.ExportLogs(client, env, Catalog());
    outcomes := run.outcomes;
    reply := SaveCheckpoint(store, response, run.checkpointId, env.storeError);
  }

  /**
   * The callback of `exportLogs`: each of its three branches writes `checkpointId`
   * to storage and replies; `Commit` says which reply.
   */
  method SaveCheckpoint(store: CheckpointStore, response: ExportResponse, checkpointId: Cursor, storeError: Option<string>)
    returns (reply: Reply)
    modifies store
    ensures reply == Commit(response, checkpointId, storeError).0
    ensures store.setCalls == old(store.setCalls) + 1
    ensures store.checkpointId == if storeError.None? then Commit(response, checkpointId, storeError).1
                                  else old(store.checkpointId)
  {
    match response {
      case Unparseable(raw) =>
        var error := store.Save(checkpointId, storeError);
        reply := if error.Some? then ServerError(error.value) else ServerError(raw);
      case ItemsAccepted(n) =>
        if n > 0 {
          var error := store.Save(checkpointId, storeError);
          reply := if error.Some? then ServerError(error.value) else Success;
        } else {
          var error := store.Save(checkpointId, storeError);
          reply := if error.Some? then ServerError(error.value) else Success;
        }
    }
  }
}
