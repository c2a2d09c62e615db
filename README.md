# OAuth2 token and client registries on DynamoDB, modelled in Dafny

This project models the persistence layer of an OAuth2 authorization server that keeps its
clients and tokens in DynamoDB.

**Token registry.** One grant is kept as up to three rows:

- a *basic* row holding the token information as JSON, keyed by the authorization code or by a generated id;
- an *access-index* row keyed by the access token, whose `BasicID` names the basic row;
- a *refresh-index* row keyed by the refresh token, pointing the same way.

`Create` writes a single code row when there is a code. Otherwise it writes two or three rows in one
all-or-nothing transaction: the basic row, the access row, and the refresh row only when there is a
refresh token. The lookups resolve a code, access token or refresh token to the token
information. Each removal deletes one row from one table and never cascades.

**Client registry.** It upserts, reads and deletes client rows.

## Files and modules

- `results.dfy`, module `Results`: the error kinds (`NotFound`, `Serialization`, `Transaction`,
  `Unavailable`) and the `Result`/`Outcome` wrappers. They stand for Go's `(value, error)` returns.
- `records.dfy`, module `Records`: the token information (`TokenInfo`, the fields of `models.Token`),
  the rows `BasicData`, `TokenData` and `ClientRow`, the client view `ClientInfo`, and how a stored
  row decodes into each structure. Decoding matches attributes by name. A missing row decodes to the
  zero value.
- `dynamo.dfy`, module `Dynamo`: the store. Class `Db` holds every table as one map from
  `ItemKey(table, id)` to row. It offers `PutItem` (an upsert), `DeleteItem` (idempotent) and
  `TransactWriteItems` (all puts or none). A transaction that targets one row twice is rejected,
  as DynamoDB does. `Env` is a per-call parameter: it says whether each encoder succeeds, whether
  the store answers a request about a row, and whether it commits a transaction.
  `Db.Valid()` says every row is stored under its own id. Every write keeps it, and the lookups
  use it: in a valid store the row `getToken` or `getClient` finds carries the requested id.
- `operations.dfy`, module `Operations`: `insert`, `remove`, `getRaw`, `getToStruct`, `getToken`, `getClient`.
- `token_store.dfy`, module `Tokens`: the configuration, the expiry rule, the class `TokenStore`,
  and the lemmas about grants, expiries, referential consistency and lookups.
- `client_store.dfy`, module `Clients`: the configuration, the class `ClientStore` and its lemmas.

Timestamps are integer seconds. `time.Time.Add` is `+`. `time.Time.Second()` is `t % 60`.
Dafny's `%` is Euclidean, so this is the second within the minute for times before 1970 too.

## What the expiry and removal code does (the model follows the code)

- One would expect the basic row to expire at the *later* of the access and refresh deadlines. The
  code uses the refresh deadline whenever there is a refresh token (`rexp`), so it is not a maximum
  (`Tokens.GrantExpiryIsNotTheLater`).
- The access row's expiry is replaced by the refresh deadline only when its *second-of-minute* is
  larger than the refresh deadline's. For whole-second deadlines within one minute this picks the
  earlier deadline (`Tokens.SameMinuteAccessExpiryIsEarlier`). Across minutes it does not:
  - the access row can outlive the basic row it points at (`Tokens.AccessRowCanOutliveGrant`);
  - the access row can outlive the access token itself (`Tokens.AccessRowCanOutliveAccessToken`).
- One would expect an index row always to point at a live basic row. When the basic table is separate
  from the index tables, as in the default configuration, grants, code rows and index removals keep
  that true. `RemoveByCode` does not cascade, so it can leave index rows dangling
  (`Tokens.BasicRemovalCanDangle`). A dangling access or refresh token then reads as `NotFound`
  (`Tokens.DanglingAccessIsNotFound`, `Tokens.DanglingRefreshIsNotFound`).

## Model

| member | source | states |
|---|---|---|
| `Records.AsBasic` | operations.go:107-108 | a non-empty decoded id is the id of the row that was fetched, and it never comes from a client row; a JSON payload comes only from a basic row; a missing row decodes with an empty id |
| `Records.AsToken` | operations.go:97 | an index row decodes to itself; only an index row yields a non-empty `BasicID`; a non-empty decoded id is the row's own id |
| `Records.AsClient` | operations.go:51-52 | a client row decodes to itself; a non-empty client id comes only from a client row; a missing row decodes with an empty client id |
| `Dynamo.Db.PutItem` | operations.go:20-24 | an answered put stores the row under its id in the named table; every other row is unchanged; an unanswered put changes nothing |
| `Dynamo.Db.DeleteItem` | operations.go:35-40 | an answered delete removes exactly that row, and removing a missing row is a no-op; an unanswered delete changes nothing |
| `Dynamo.Db.TransactWriteItems` | token_store.go:154-156 | the transaction commits exactly when the store accepts it and no row is targeted twice; then all puts apply, otherwise no row changes |
| `Dynamo.ApplyPutsKeepsWellKeyed` | token_store.go:154-156 | a committed transaction keeps every row stored under its own id |
| `Dynamo.ApplyPutsHit` | token_store.go:154-156 | with distinct targets, every put's row is present after the transaction |
| `Dynamo.ApplyPutsMiss` | token_store.go:154-156 | a row no put targets keeps its presence and value |
| `Operations.Insert` | operations.go:14-26 | upsert: on success the table maps the row's id to the row and nothing else changes; a marshal failure is a Serialization error and an unanswered put is Unavailable; on failure nothing changes |
| `Operations.Remove` | operations.go:28-42 | deletes only the given id from the given table; a missing id is not an error; on failure nothing changes |
| `Operations.GetRaw` | operations.go:69-82 | an answered get returns the row under the id, or no row when there is none; an unanswered one is an Unavailable error |
| `Operations.GetToStruct` | operations.go:84-99 | a store error is returned unchanged; a missing row is NotFound; otherwise the row decoded as a tokenData |
| `Operations.GetToken` | operations.go:101-125 | a store error is returned unchanged; NotFound exactly when the row is missing or decodes with an empty id; success means a basic row with that payload; a basic row with a non-empty id and a JSON payload yields that token info, and a row with a non-empty decoded id but no JSON payload is a Serialization error; in a well-keyed store the row found is the one with the requested id |
| `Operations.GetClient` | operations.go:44-67 | an unanswered request is Unavailable and every answered failure is NotFound; success exactly when a client row with a non-empty id is stored; the result carries only its id, secret and user id; in a well-keyed store its id is the requested one |
| `Tokens.NewDefaultTokenConfig` | token_store.go:30-37 | the default names are oauth2_txn, oauth2_basic, oauth2_access, oauth2_refresh, and the three row tables are distinct |
| `Tokens.TokenStore.WithSession` | token_store.go:48-60 | the first supplied configuration, if any, replaces the default wholesale |
| `Tokens.TokenStore.Create` | token_store.go:70-158 | with a code, on success exactly one basic row under the code with the code deadline; otherwise, on success the tables are the puts of `GrantOps` applied (basic row and refresh row expiring at `GrantExpiry`, access row at `AccessExpiry`, the refresh row only with a refresh token); a JSON or marshal failure is a Serialization error and a rejected transaction a Transaction error; any failure changes no row |
| `Tokens.TokenStore.RemoveByCode` | token_store.go:161-164 | deletes only the basic row under the code; a failure is Serialization when the key does not marshal and Unavailable otherwise, and changes nothing |
| `Tokens.TokenStore.RemoveByAccess` | token_store.go:167-170 | deletes only the access row under the token; a failure is Serialization when the key does not marshal and Unavailable otherwise, and changes nothing |
| `Tokens.TokenStore.RemoveByRefresh` | token_store.go:173-176 | deletes only the refresh row under the token; a failure is Serialization when the key does not marshal and Unavailable otherwise, and changes nothing |
| `Tokens.TokenStore.GetData` | token_store.go:178-181 | an unanswered request is Unavailable; NotFound exactly when the basic row is missing or decodes with an empty id; success means the basic row under the id, with a non-empty id, holds that token info; a basic row with a non-empty id and a JSON payload yields its token info; a non-empty decoded id without a JSON payload is a Serialization error |
| `Tokens.TokenStore.GetBasicID` | token_store.go:183-191 | a missing index row is NotFound; otherwise the `BasicID` of the decoded row, which is non-empty only for an index row |
| `Tokens.TokenStore.GetByCode` | token_store.go:194-197 | an unanswered request is Unavailable; NotFound exactly when the code row is missing or decodes with an empty id; success means the basic row under the code, with a non-empty id, holds that token info; a code row with a non-empty id and a JSON payload yields its token info; a non-empty decoded id without a JSON payload is a Serialization error |
| `Tokens.TokenStore.GetByAccess` | token_store.go:200-207 | an index lookup error is returned as it is; a missing access row is NotFound; for a present access row, the basic row it names being unanswered is Unavailable, missing or decoding with an empty id is NotFound, decoding with an id but no JSON payload is a Serialization error, and holding token info yields that info; success means the access row points at a basic row with a non-empty id holding that token info |
| `Tokens.TokenStore.GetByRefresh` | token_store.go:210-217 | an index lookup error is returned as it is; a missing refresh row is NotFound; for a present refresh row, the basic row it names being unanswered is Unavailable, missing or decoding with an empty id is NotFound, decoding with an id but no JSON payload is a Serialization error, and holding token info yields that info; success means the refresh row points at a basic row with a non-empty id holding that token info |
| `Tokens.SameMinuteAccessExpiryIsEarlier` | token_store.go:86-93 | when both deadlines fall in one minute, the access row expires at the earlier deadline, never after the grant |
| `Tokens.AccessRowCanOutliveGrant` | token_store.go:86-93 | some grant's access row expires after its basic and refresh rows |
| `Tokens.AccessRowCanOutliveAccessToken` | token_store.go:86-93 | some grant's access row expires after the access token's own deadline |
| `Tokens.GrantExpiryIsNotTheLater` | token_store.go:86-104 | the basic row's expiry can be earlier than the access deadline: it is not a maximum |
| `Tokens.HourAndDayExpiries` | token_store.go:86-93 | a one-hour access token and a one-day refresh token issued together: the basic row expires at the one-day bound and the access row at the one-hour bound |
| `Tokens.GrantRows` | token_store.go:95-153 | a committed grant holds the basic row under the id (expiry `rexp`), the access row under the access token (`BasicID` the id, expiry `aexp`), and the refresh row (expiry `rexp`) exactly when there is a refresh token; every other row is unchanged |
| `Tokens.GrantKeepsConsistent` | token_store.go:95-156 | with the basic table apart from the index tables, a committed grant keeps every index row pointing at a present basic row |
| `Tokens.CodeRowKeepsConsistent` | token_store.go:77-84 | writing a code row keeps every index row pointing at a present basic row |
| `Tokens.IndexRemovalKeepsConsistent` | token_store.go:166-176 | removing a row outside the basic table keeps every index row pointing at a present basic row |
| `Tokens.BasicRemovalCanDangle` | token_store.go:160-164 | removing a basic row does not cascade and can leave an index row pointing at nothing |
| `Tokens.CodeRoundTrip` | token_store.go:77-84 | a stored code row reads back through GetByCode as the token info it was written from |
| `Tokens.GrantResolves` | token_store.go:199-217 | after a committed grant with a non-empty id, the id, the access token and the refresh token (when present) all resolve to the same token info |
| `Tokens.DanglingAccessIsNotFound` | token_store.go:160-164 | after a grant whose basic row is then removed, GetByAccess on its access token is NotFound |
| `Tokens.DanglingRefreshIsNotFound` | token_store.go:160-164 | after a grant whose basic row is then removed, GetByRefresh on its refresh token is NotFound |
| `Tokens.RemoveAccessKeepsRefresh` | token_store.go:166-170 | after removing a grant's access token, GetByAccess is NotFound while GetByRefresh and the basic row still yield the token info |
| `Clients.NewDefaultClientConfig` | client_store.go:19-23 | the default clients table is oauth2_clients |
| `Clients.ClientStore.WithSession` | client_store.go:33-44 | the first supplied configuration, if any, replaces the default |
| `Clients.ClientStore.Set` | client_store.go:54-69 | on success the clients table maps the id to a row with all ten fields, each in its own place, overwriting any earlier row; nothing else changes; a failure is Serialization when the row does not marshal and Unavailable otherwise, and changes nothing |
| `Clients.ClientStore.GetByID` | client_store.go:72-75 | success exactly when a client row with a non-empty id is stored under the id; it yields that row's id, secret and user id; an unanswered request is Unavailable and every answered failure, a missing row included, is NotFound; in a well-keyed store the id returned is the requested one |
| `Clients.ClientStore.RemoveByID` | client_store.go:78-81 | deletes only that client id; other clients are untouched; a failure is Serialization when the key does not marshal and Unavailable otherwise, and changes nothing |
| `Clients.SetThenGet` | client_store.go:54-75 | after a stored Set, GetByID returns the id, secret and user id; an empty client id reads as NotFound |
| `Clients.SetRemoveGet` | client_store.go:54-81 | Set, then RemoveByID, then GetByID on the same id is NotFound |

## Left out

- Session and client construction (`NewTokenStore`, `NewClientStore`) are SDK plumbing. The stores are
  built from an existing `Db` by `WithSession`.
- Table provisioning (`createTable` and the migration file) runs once at setup and is not on the request path.
- The foreign encoders are not modelled: `json.Marshal`, and `MarshalMap` of rows and of key structures.
  Whether each one succeeds is a parameter of the call (`Env`).
  - `json.Unmarshal` is modelled as reading back the token info, and failing on a missing payload.
  - `UnmarshalMap` is modelled as a total decoding that matches attributes by name. Its error branches
    (operations.go:54-56, 110-112) are therefore never taken.
- The generated object id is a parameter of `Create`. The model does not assume it is new, because the
  code does not check.
- Attribute names are abstracted: every table is keyed by the row's own id. The source looks up
  every table by the attribute `client_id`, but the token tables are keyed `id`. It deletes by `id`,
  but the clients table is keyed `client_id`. Both mismatches are hidden by this abstraction.
- `getBasicID` on a missing index row: what `td` holds after `UnmarshalMap` of an empty item depends on
  the SDK decoder, which is not part of this model (it may stay nil or become a zero `tokenData`). The
  model does not follow either outcome and reports `NotFound`.
- `GetByAccess`/`GetByRefresh` return early when the lookup failed and the basic id is empty. The lookup
  leaves the id empty whenever it fails, so the model returns early on every lookup error.
- A nil configuration pointer supplied by the caller is not modelled.
- The store's own validation is not modelled beyond two things: the requests it chooses not to answer,
  and a transaction that targets one row twice. It would also reject an empty-string key, for example.
  An empty access token is therefore written like any other.
- The unused transaction-table name `TxnCName` is carried in the configuration but never read.
- Concurrent callers are out of scope. So is the store's internal atomicity beyond all-or-nothing.
- Sub-second precision is not modelled: timestamps are whole seconds. `time.Time.Second()` drops the
  nanoseconds, so with real timestamps two deadlines in the same second keep the access deadline even
  when it is up to a second later than the refresh deadline.
- Real `time.Time` semantics (zones, monotonic readings, leap seconds) are out of scope.
