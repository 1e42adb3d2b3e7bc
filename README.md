# Transaction status endpoint of the Fabric REST sample

A Dafny model of the `GET /:transactionId` handler of the asset-transfer
REST server's transactions router. The handler reports how far a submitted
transaction has got by combining two sources: the hash that the Redis
submission tracker keeps under `txn:<id>` (a `state` field and a `retries`
count), and a `GetTransactionByID` query to a ledger peer that yields the
transaction's validation code. It answers with exactly one of:

- 200 `{status: "OK", progress, validationCode, timestamp}`, where progress is
  `ACCEPTED`, `RETRYING` or `DONE`. The `validationCode` key is dropped when
  the ledger's validation code has no name in the enumeration;
- 404 `{status: "Not Found", timestamp}`;
- 500 `{status: "Internal Server Error", timestamp}`.

Files:

- `wrappers.dfy`: module `Wrappers`, the `Option` type.
- `transactions_router.dfy`: module `TransactionsRouter`. It holds the
  outcomes of the two collaborator calls (`CacheOutcome`, `LedgerOutcome`),
  the response (`Response`, `Body`), and the cache key. The handler itself
  is the method `HandleGet`. It keeps the source's three locals
  (`foundTransaction`, `progress`, `validationCode`), returns early on
  either error, and also returns the trace of calls it made. `HandleGet` is
  proved equal to the pure rule `Decide`. `Decide` states the same
  behaviour as one reconciliation of the tracker's finding
  (`TrackedProgress`) with the ledger's. The lemmas state the endpoint's
  properties about `Decide`.

How the code is modelled:

- Progress on a ledger hit follows the code. Reading `DONE` as "the ledger
  has the final outcome", one might expect a ledger hit to report `DONE`.
  Lines 73-78 never assign `progress`, though. `DONE` comes only from the
  initial value at line 28, so an `ACCEPTED` or `RETRYING` set from the
  cache survives a ledger hit (`LedgerHitKeepsTrackedProgress`).
- `savedTransaction.state` is tested for JavaScript truthiness. A `state`
  holding the empty string therefore counts as absent (`Truthy`).
- `parseInt` is reduced to "an integer or NaN" (`Option<int>`). `NaN > 0` is
  false, so an unparsable or missing `retries` gives `ACCEPTED`.
- The enumerant name lookup is a parameter `codeName: int -> Option<string>`.
  `None` stands for JavaScript `undefined`, the result for a code the
  enumeration does not name. JSON serialisation then drops the
  `validationCode` key. The model keeps that case rather than inventing an
  "unknown" name.
- The collaborators' answers are inputs. `HGetAll` models what `HGETALL`
  returns against a snapshot of Redis, with an empty hash for a key that
  holds nothing. It is used to state that other transactions' records never
  affect a request.

## Model

| member | source | states |
|---|---|---|
| TransactionsRouter.HandleGet | asset-transfer-basic/rest-api-typescript/src/transactions.router.ts:27-106 | The step-by-step handler gives exactly the response of the reconciliation rule `Decide`. It reads the cache under `CacheKey(id)` first, and queries `GetTransactionByID` on the channel with the identifier verbatim only when the cache answered. |
| TransactionsRouter.Decide | asset-transfer-basic/rest-api-typescript/src/transactions.router.ts:27-106 | Every response is exactly one of three shapes: 200 with "OK" and a progress, 404 with only status and timestamp, or 500 with only status and timestamp. |
| TransactionsRouter.CacheKey | asset-transfer-basic/rest-api-typescript/src/transactions.router.ts:35-37 | The key is `txn:` followed by the identifier itself, unchanged. No identifier is rejected. |
| TransactionsRouter.CacheKeyInjective | asset-transfer-basic/rest-api-typescript/src/transactions.router.ts:35-37 | Two identifiers share a cache key if and only if they are equal. |
| TransactionsRouter.HGetAll | asset-transfer-basic/rest-api-typescript/src/transactions.router.ts:35-37 | The cache lookup fails exactly when Redis is unreachable. A key with no record reads as a hash with neither field. |
| TransactionsRouter.CallsInOrder | asset-transfer-basic/rest-api-typescript/src/transactions.router.ts:34-71 | The first call is `HGETALL "txn:" + id`. The trace has exactly one call after a cache failure and exactly two otherwise. The second is the ledger query with the identifier. |
| TransactionsRouter.CacheErrorIsServerError | asset-transfer-basic/rest-api-typescript/src/transactions.router.ts:52-63 | A cache failure gives 500 with body keys exactly `{status, timestamp}`, whatever the ledger outcome. |
| TransactionsRouter.TrackedStateProgress | asset-transfer-basic/rest-api-typescript/src/transactions.router.ts:43-51 | With a truthy `state` and no ledger error, the response is 200. Progress is RETRYING if and only if `retries` parses to an integer > 0. It is ACCEPTED if and only if `retries` is NaN or ≤ 0. |
| TransactionsRouter.UntrackedKeepsInitialValues | asset-transfer-basic/rest-api-typescript/src/transactions.router.ts:27-51 | A hash without a truthy `state` is not an error. The initial values decide: 404 when the ledger has nothing, and 200 with DONE and the decoded name on a ledger hit. |
| TransactionsRouter.LedgerHitKeepsTrackedProgress | asset-transfer-basic/rest-api-typescript/src/transactions.router.ts:73-78 | A ledger hit gives 200 with the decoded name. Progress is DONE if and only if the cache had no truthy `state`, and otherwise is the cache-derived ACCEPTED or RETRYING. |
| TransactionsRouter.LedgerNotFoundSwallowed | asset-transfer-basic/rest-api-typescript/src/transactions.router.ts:79-92 | When the ledger reports not-found, the response does not depend on the name lookup. It is 200 if and only if the cache had a truthy `state`, with validation code `""`, and otherwise 404. |
| TransactionsRouter.LedgerErrorIsServerError | asset-transfer-basic/rest-api-typescript/src/transactions.router.ts:79-91 | Any other ledger error gives 500 with body keys exactly `{status, timestamp}`, for every cache outcome, including a found transaction. |
| TransactionsRouter.ResponseSelection | asset-transfer-basic/rest-api-typescript/src/transactions.router.ts:94-106 | When both stages succeed and either one found the transaction, the response is 200 "OK", with body keys `{status, progress, validationCode, timestamp}` whenever the code name is defined. Otherwise it is 404 with keys `{status, timestamp}`. |
| TransactionsRouter.OtherRecordsAreIrrelevant | asset-transfer-basic/rest-api-typescript/src/transactions.router.ts:35-37 | Changing the cached record of a different transaction never changes a request's response. |
| TransactionsRouter.ProducibleResponses | asset-transfer-basic/rest-api-typescript/src/transactions.router.ts:27-106 | The handler's possible responses are exactly these: 500, 404, ACCEPTED or RETRYING with `""`, and any progress with the decoded name of a code. Each one arises from some pair of outcomes. |
| TransactionsRouter.DoneOnlyFromLedger | asset-transfer-basic/rest-api-typescript/src/transactions.router.ts:28-78 | Progress is DONE if and only if the ledger found the transaction, the cache answered without a truthy `state`, and the validation code is the decoded name. |
| TransactionsRouter.MissingRecordIsUntracked | asset-transfer-basic/rest-api-typescript/src/transactions.router.ts:35-51 | A transaction with no cached record behaves like one without `state`: 404 on ledger not-found, and 200 DONE with the decoded name on a ledger hit. |

## Left out

- Express routing, `req.app.get` lookup of the Redis client and the query-system contract, and `res.status().json()`: the response is a datatype.
- The Redis client and the Fabric `evatuateTransaction` call, which are network I/O. Their answers are the inputs `CacheOutcome` and `LedgerOutcome`. The calls appear only as the returned trace.
- `ProcessedTransaction.decode` and the `TxValidationCode` enumeration, which are protobuf library code. A decode failure is one of the errors `LedgerError` stands for. The name lookup is the parameter `codeName`.
- The full semantics of `parseInt` (whitespace, signs, radix prefixes, trailing text): `retries` arrives already reduced to an integer or NaN.
- The `getReasonPhrase` table: only its three phrases appear, as constants.
- Timestamps: only whether the `timestamp` key is present is modelled, not its value or format.
- Logging and async scheduling, which have no bearing on the response.
