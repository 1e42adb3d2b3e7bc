/** The read endpoint `GET /:transactionId` of the Fabric REST sample's
    transactions router: it reconciles what the Redis submission tracker
    has recorded about a transaction with what a ledger peer reports, and
    answers with one JSON response.

    The two collaborators are not modelled; the handler is given the
    outcome of each call it makes and returns, beside the response, the
    trace of the calls it made. */
module TransactionsRouter {

  import opened Wrappers

  // ---------------------------------------------------------------------
  // Constants of the endpoint
  // ---------------------------------------------------------------------

  /** Namespace under which the submission tracker keeps one hash per
      transaction. */
  const KEY_PREFIX: string := "txn:"

  /** Query-system-chaincode function used to read a committed transaction. */
  const GET_TRANSACTION_BY_ID: string := "GetTransactionByID"

  const OK: int := 200
  const NOT_FOUND: int := 404
  const INTERNAL_SERVER_ERROR: int := 500

  /** Reason phrases of the three status codes, as the HTTP status-code
      table gives them. */
  const OK_PHRASE: string := "OK"
  const NOT_FOUND_PHRASE: string := "Not Found"
  const INTERNAL_SERVER_ERROR_PHRASE: string := "Internal Server Error"

  // ---------------------------------------------------------------------
  // Data model
  // ---------------------------------------------------------------------

  /** The `Progress` union type: 'ACCEPTED' | 'RETRYING' | 'DONE'. */
  datatype Progress = Accepted | Retrying | Done

  /** What the submission tracker stores under one key: the `state` field,
      if the hash has one, and the `retries` field after `parseInt`, where
      `None` stands for `NaN` (the field is missing or not numeric). */
  datatype SavedTransaction = SavedTransaction(state: Option<string>, retries: Option<int>)

  /** What `HGETALL` returns for a key that holds nothing: an empty hash. */
  const EMPTY_HASH: SavedTransaction := SavedTransaction(None, None)

  /** Outcome of the cache lookup: the client failed, or it answered with a
      hash whose fields may be missing. */
  datatype CacheOutcome =
    | CacheError
    | CacheHash(saved: SavedTransaction)

  /** Outcome of the ledger query: the transaction was found and its
      envelope decoded to an integer validation code, the distinguished
      transaction-not-found error was raised, or any other error (a peer
      failure or an envelope that does not decode). */
  datatype LedgerOutcome =
    | Found(code: int)
    | NotFound
    | LedgerError

  /** The calls the handler makes to its collaborators. */
  datatype Call =
    | RedisHGetAll(key: string)
    | FabricEvaluate(fcn: string, channel: string, transactionId: string)

  /** A JSON response body. `None` marks a key absent from the serialised
      object; a `validationCode` of `None` is JavaScript `undefined`, which
      serialisation drops. The timestamp's value is not modelled, only
      whether it is present. */
  datatype Body = Body(
    status: string,
    progress: Option<Progress>,
    validationCode: Option<string>,
    hasTimestamp: bool)

  datatype Response = Response(statusCode: int, body: Body)

  /** The keys present in a serialised body. */
  function Fields(b: Body): set<string> {
    {"status"}
    + (if b.progress.Some? then {"progress"} else {})
    + (if b.validationCode.Some? then {"validationCode"} else {})
    + (if b.hasTimestamp then {"timestamp"} else {})
  }

  function OkResponse(progress: Progress, validationCode: Option<string>): Response {
    Response(OK, Body(OK_PHRASE, Some(progress), validationCode, true))
  }

  function NotFoundResponse(): Response {
    Response(NOT_FOUND, Body(NOT_FOUND_PHRASE, None, None, true))
  }

  function ServerErrorResponse(): Response {
    Response(INTERNAL_SERVER_ERROR, Body(INTERNAL_SERVER_ERROR_PHRASE, None, None, true))
  }

  /** Every response is exactly one of the three the handler sends:
      200 with a progress, 404 or 500 with only a status and a timestamp. */
  predicate WellFormed(r: Response) {
    || (r.statusCode == OK && r.body.status == OK_PHRASE
        && r.body.progress.Some? && r.body.hasTimestamp)
    || r == NotFoundResponse()
    || r == ServerErrorResponse()
  }

  // ---------------------------------------------------------------------
  // The cache key and the cache as a snapshot
  // ---------------------------------------------------------------------

  /** The key the handler reads: the prefix followed by the identifier,
      character for character, whatever the identifier holds. */
  function CacheKey(transactionId: string): (k: string)
    ensures |k| == |KEY_PREFIX| + |transactionId|
    ensures k[..|KEY_PREFIX|] == KEY_PREFIX && k[|KEY_PREFIX|..] == transactionId
  {
    KEY_PREFIX + transactionId
  }

  /** Distinct identifiers are looked up under distinct keys. */
  lemma CacheKeyInjective(id1: string, id2: string)
    ensures CacheKey(id1) == CacheKey(id2) <==> id1 == id2
  {
  }

  /** A Redis server as the handler can observe it: unreachable, or
      answering from its current hashes. */
  datatype Redis = RedisDown | RedisUp(hashes: map<string, SavedTransaction>)

  /** What `HGETALL key` yields against a snapshot: a failure when the
      server is unreachable, and an empty hash for a key holding nothing. */
  function HGetAll(redis: Redis, key: string): (c: CacheOutcome)
    ensures c.CacheError? <==> redis.RedisDown?
    ensures redis.RedisUp? && key !in redis.hashes ==> c == CacheHash(EMPTY_HASH)
  {
    match redis
    case RedisDown => CacheError
    case RedisUp(hashes) =>
      CacheHash(if key in hashes then hashes[key] else EMPTY_HASH)
  }

  // ---------------------------------------------------------------------
  // The decision rule as a reconciliation of two findings
  // ---------------------------------------------------------------------

  /** JavaScript truthiness of the `state` field: present and non-empty. */
  predicate Truthy(state: Option<string>) {
    state.Some? && state.value != ""
  }

  /** What the submission tracker says about the transaction: nothing, when
      the hash has no truthy `state`; otherwise RETRYING when `retries`
      parses to a positive integer and ACCEPTED when it parses to zero or
      less or does not parse (`NaN > 0` is false). */
  function TrackedProgress(state: Option<string>, retries: Option<int>): Option<Progress> {
    if !Truthy(state) then None
    else match retries
      case Some(n) => if n > 0 then Some(Retrying) else Some(Accepted)
      case None => Some(Accepted)
  }

  /** The response as a function of the two findings. Either collaborator
      failing (other than the ledger's not-found error) gives 500. A ledger
      hit gives 200 with the decoded name and the tracker's progress, which
      is DONE only when the tracker knows nothing. Otherwise the tracker
      alone decides between 200 and 404. `codeName` is the name lookup in
      the validation-code enumeration. */
  function Decide(cache: CacheOutcome, ledger: LedgerOutcome, codeName: int -> Option<string>): (r: Response)
    ensures WellFormed(r)
  {
    match cache
    case CacheError => ServerErrorResponse()
    case CacheHash(SavedTransaction(state, retries)) =>
      var tracked := TrackedProgress(state, retries);
      match ledger
      case LedgerError => ServerErrorResponse()
      case Found(code) => OkResponse(tracked.GetOr(Done), codeName(code))
      case NotFound =>
        match tracked
        case Some(p) => OkResponse(p, Some(""))
        case None => NotFoundResponse()
  }

  /** The calls a request makes, in order. */
  function ExpectedCalls(transactionId: string, channelName: string, cache: CacheOutcome): seq<Call> {
    [RedisHGetAll(CacheKey(transactionId))]
    + (if cache.CacheError? then []
       else [FabricEvaluate(GET_TRANSACTION_BY_ID, channelName, transactionId)])
  }

  // ---------------------------------------------------------------------
  // The handler
  // ---------------------------------------------------------------------

  /** The request handler, step by step: three locals with their initial
      values, a cache stage and a ledger stage that each return early on an
      error, then the choice between 200 and 404. */
  method HandleGet(
    transactionId: string,
    channelName: string,
    cache: CacheOutcome,
    ledger: LedgerOutcome,
    codeName: int -> Option<string>)
    returns (res: Response, calls: seq<Call>)
    ensures res == Decide(cache, ledger, codeName)
    ensures calls == ExpectedCalls(transactionId, channelName, cache)
  {
    var foundTransaction := false;
    var progress := Done;
    var validationCode: Option<string> := Some("");

    calls := [RedisHGetAll(CacheKey(transactionId))];
    match cache {
      case CacheError =>
        res := ServerErrorResponse();
        return;
      case CacheHash(SavedTransaction(state, retries)) =>
        if Truthy(state) {
          foundTransaction := true;
          if retries.Some? && retries.value > 0 {
            progress := Retrying;
          } else {
            progress := Accepted;
          }
        }
    }

    calls := calls + [FabricEvaluate(GET_TRANSACTION_BY_ID, channelName, transactionId)];
    match ledger {
      case Found(code) =>
        foundTransaction := true;
        validationCode := codeName(code);
      case NotFound =>
      case LedgerError =>
        res := ServerErrorResponse();
        return;
    }

    if foundTransaction {
      res := OkResponse(progress, validationCode);
    } else {
      res := NotFoundResponse();
    }
  }

  // ---------------------------------------------------------------------
  // Properties of the decision rule
  // ---------------------------------------------------------------------

  /** The cache is read first, under the key built from the identifier, and
      the ledger is queried with the identifier itself exactly when the
      cache answered. */
  lemma CallsInOrder(transactionId: string, channelName: string, cache: CacheOutcome)
    ensures var calls := ExpectedCalls(transactionId, channelName, cache);
      && calls[0] == RedisHGetAll(KEY_PREFIX + transactionId)
      && |calls| == (if cache.CacheError? then 1 else 2)
      && (|calls| == 2 ==> calls[1] == FabricEvaluate(GET_TRANSACTION_BY_ID, channelName, transactionId))
  {
  }

  /** A cache failure gives 500 with only a status and a timestamp, whatever
      the ledger would have said. */
  lemma CacheErrorIsServerError(ledger: LedgerOutcome, codeName: int -> Option<string>)
    ensures Decide(CacheError, ledger, codeName) == ServerErrorResponse()
    ensures Fields(Decide(CacheError, ledger, codeName).body) == {"status", "timestamp"}
  {
  }

  /** A truthy `state` makes the transaction found; its progress is
      RETRYING exactly when `retries` parses to a positive integer and
      ACCEPTED otherwise, including when it does not parse. */
  lemma TrackedStateProgress(state: Option<string>, retries: Option<int>, ledger: LedgerOutcome, codeName: int -> Option<string>)
    requires Truthy(state) && !ledger.LedgerError?
    ensures var r := Decide(CacheHash(SavedTransaction(state, retries)), ledger, codeName);
      && r.statusCode == OK
      && (r.body.progress == Some(Retrying) <==> retries.Some? && retries.value > 0)
      && (r.body.progress == Some(Accepted) <==> retries.None? || retries.value <= 0)
  {
  }

  /** Without a truthy `state` the hash is not an error: found stays false,
      progress DONE and the validation code empty, so the ledger alone
      decides. */
  lemma UntrackedKeepsInitialValues(state: Option<string>, retries: Option<int>, ledger: LedgerOutcome, codeName: int -> Option<string>)
    requires !Truthy(state)
    ensures ledger.NotFound? ==> Decide(CacheHash(SavedTransaction(state, retries)), ledger, codeName) == NotFoundResponse()
    ensures ledger.Found? ==> Decide(CacheHash(SavedTransaction(state, retries)), ledger, codeName) == OkResponse(Done, codeName(ledger.code))
  {
  }

  /** A ledger hit makes the transaction found with the decoded name but
      does not assign progress: the result is DONE exactly when the tracker
      had nothing, and otherwise keeps ACCEPTED or RETRYING. */
  lemma LedgerHitKeepsTrackedProgress(state: Option<string>, retries: Option<int>, code: int, codeName: int -> Option<string>)
    ensures var r := Decide(CacheHash(SavedTransaction(state, retries)), Found(code), codeName);
      && r.statusCode == OK
      && r.body.validationCode == codeName(code)
      && (r.body.progress == Some(Done) <==> !Truthy(state))
      && (Truthy(state) ==> r.body.progress == TrackedProgress(state, retries))
  {
  }

  /** The not-found error is swallowed: the response then depends only on
      the cache, never on the name lookup, and any 200 carries an empty
      validation code. */
  lemma LedgerNotFoundSwallowed(state: Option<string>, retries: Option<int>, codeName1: int -> Option<string>, codeName2: int -> Option<string>)
    ensures Decide(CacheHash(SavedTransaction(state, retries)), NotFound, codeName1) == Decide(CacheHash(SavedTransaction(state, retries)), NotFound, codeName2)
    ensures var r := Decide(CacheHash(SavedTransaction(state, retries)), NotFound, codeName1);
      && (r.statusCode == OK <==> Truthy(state))
      && (r.statusCode == OK ==> r.body.validationCode == Some(""))
      && (r.statusCode != OK ==> r == NotFoundResponse())
  {
  }

  /** Any other ledger error gives 500, even when the cache had found the
      transaction. */
  lemma LedgerErrorIsServerError(cache: CacheOutcome, codeName: int -> Option<string>)
    ensures Decide(cache, LedgerError, codeName) == ServerErrorResponse()
    ensures Fields(Decide(cache, LedgerError, codeName).body) == {"status", "timestamp"}
  {
  }

  /** When both stages complete, the response is 200 with status, progress,
      validation code and timestamp exactly when one of them found the
      transaction, and 404 with only status and timestamp otherwise. (A
      validation code whose name is undefined drops that key.) */
  lemma ResponseSelection(state: Option<string>, retries: Option<int>, ledger: LedgerOutcome, codeName: int -> Option<string>)
    requires !ledger.LedgerError?
    ensures var r := Decide(CacheHash(SavedTransaction(state, retries)), ledger, codeName);
      var found := Truthy(state) || ledger.Found?;
      && (found ==> r.statusCode == OK && r.body.status == OK_PHRASE)
      && (found && (ledger.NotFound? || codeName(ledger.code).Some?)
          ==> Fields(r.body) == {"status", "progress", "validationCode", "timestamp"})
      && (!found ==> r.statusCode == NOT_FOUND && Fields(r.body) == {"status", "timestamp"})
  {
  }

  /** Updating the record of any other transaction in the cache does not
      change the response to a request: identifiers never share a key. */
  lemma OtherRecordsAreIrrelevant(
    transactionId: string, otherId: string, saved: SavedTransaction,
    hashes: map<string, SavedTransaction>, ledger: LedgerOutcome, codeName: int -> Option<string>)
    requires otherId != transactionId
    ensures Decide(HGetAll(RedisUp(hashes[CacheKey(otherId) := saved]), CacheKey(transactionId)), ledger, codeName)
         == Decide(HGetAll(RedisUp(hashes), CacheKey(transactionId)), ledger, codeName)
  {
    CacheKeyInjective(otherId, transactionId);
  }

  /** A transaction the tracker has no record of behaves as one without a
      `state`: the ledger alone decides. */
  lemma MissingRecordIsUntracked(
    transactionId: string, hashes: map<string, SavedTransaction>, ledger: LedgerOutcome, codeName: int -> Option<string>)
    requires CacheKey(transactionId) !in hashes && !ledger.LedgerError?
    ensures var r := Decide(HGetAll(RedisUp(hashes), CacheKey(transactionId)), ledger, codeName);
      && (ledger.NotFound? ==> r == NotFoundResponse())
      && (ledger.Found? ==> r == OkResponse(Done, codeName(ledger.code)))
  {
  }

  /** The responses the handler can give, for a given name lookup: the two
      error-free bodiless answers, ACCEPTED or RETRYING with an empty
      validation code (a tracked transaction the ledger does not have), and
      any progress with the decoded name of some code (a ledger hit). */
  ghost predicate Producible(r: Response, codeName: int -> Option<string>) {
    || r == ServerErrorResponse()
    || r == NotFoundResponse()
    || r == OkResponse(Accepted, Some(""))
    || r == OkResponse(Retrying, Some(""))
    || (exists p: Progress, code: int :: r == OkResponse(p, codeName(code)))
  }

  /** The handler's range is exactly the producible responses: each of them
      arises from some pair of collaborator outcomes, and nothing else does.
      In particular ACCEPTED and RETRYING can come with a decoded name,
      while DONE comes only with a decoded name. */
  lemma ProducibleResponses(r: Response, codeName: int -> Option<string>)
    ensures Producible(r, codeName) <==> exists cache, ledger :: Decide(cache, ledger, codeName) == r
  {
    var tracked := CacheHash(SavedTransaction(Some("tracked"), Some(1)));
    var accepted := CacheHash(SavedTransaction(Some("tracked"), Some(0)));
    var untracked := CacheHash(EMPTY_HASH);
    if Producible(r, codeName) {
      if r == ServerErrorResponse() {
        assert Decide(CacheError, NotFound, codeName) == r;
      } else if r == NotFoundResponse() {
        assert Decide(untracked, NotFound, codeName) == r;
      } else if r == OkResponse(Accepted, Some("")) {
        assert Decide(accepted, NotFound, codeName) == r;
      } else if r == OkResponse(Retrying, Some("")) {
        assert Decide(tracked, NotFound, codeName) == r;
      } else {
        var p: Progress, code: int :| r == OkResponse(p, codeName(code));
        match p {
          case Accepted => assert Decide(accepted, Found(code), codeName) == r;
          case Retrying => assert Decide(tracked, Found(code), codeName) == r;
          case Done => assert Decide(untracked, Found(code), codeName) == r;
        }
      }
    }
    if exists cache, ledger :: Decide(cache, ledger, codeName) == r {
      var cache, ledger :| Decide(cache, ledger, codeName) == r;
      if cache.CacheHash? && ledger.Found? {
        var p := TrackedProgress(cache.saved.state, cache.saved.retries).GetOr(Done);
        assert r == OkResponse(p, codeName(ledger.code));
      }
    }
  }

  /** DONE is reported only for a ledger hit, and then with the decoded
      name: the initial value of `progress` survives only when the cache
      had nothing to say. */
  lemma DoneOnlyFromLedger(cache: CacheOutcome, ledger: LedgerOutcome, codeName: int -> Option<string>)
    ensures var r := Decide(cache, ledger, codeName);
      r.body.progress == Some(Done) <==>
        cache.CacheHash? && !Truthy(cache.saved.state) && ledger.Found? && r.body.validationCode == codeName(ledger.code)
  {
  }
}
