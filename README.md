# Logistics tracking service — a Dafny model

The service answers `GET /query?sno=<tracking number>` with the record of a parcel. The record holds:

- its status and estimated delivery
- the ordered tracking events
- the recipient
- the current location

Lookups are cache-aside. The service reads field `sno` of the Redis hash `logistics_cache`:

- On a hit it decodes the JSON stored there.
- On a miss (`redis.Nil`) it assembles the record from four PostgreSQL queries, writes it back to the hash with a two-minute TTL, and returns it.
- Any other cache error is returned.

config.go does two things:

- It builds the Redis address and the PostgreSQL connection string from the environment.
- Its health handler serves `/healthcheck` (main.go:43). It also serves `/query` when there is no database handle (main.go:64-65).

Beside it, API/Health.go defines a second health handler with its own status codes, which no route in main.go serves. vault.go and consul.go build the addresses of the Vault and Consul servers.

Modules, one per source file or concern:

- `Modal`: the four record types of modal.go, with Go's zero values.
- `Store`: the four tables as sequences of rows, with the nullable text columns as options. Each SQL statement is a pure selection. `LatestDetail` plays the part of `ORDER BY date DESC, time DESC LIMIT 1`, with NULL sorting first.
- `Json`: the text `json.Marshal` produces for a record, and a decoder for it. Their round trip is proved, not assumed.
- `Redis`: the keyspace as a value (`ServerState`) and a `Client` class whose `HGet`, `HSet` and `Expire` methods update it in place. Network failure is an input: the set of commands that currently fail.
- `Logistics`: main.go. It has three specification functions:
  - `Assembled` (getPackageDetailsInDB)
  - `CacheWrite` (setLogisticsInfoInCache)
  - `Lookup` (get)

  It also has methods that follow the Go code step by step and are proved to compute those functions. The handler's mapping from outcome to HTTP reply is here too.
- `Config`, `ApiHealth`, `Vault`, `Consul`: config.go, API/Health.go, vault.go, consul.go. `Address` is a helper that splits `host:port` at the last colon.
- `EnvVars`: the process environment as a map (`os.Getenv`).

## Model

| member | source | states |
|---|---|---|
| Logistics.GetPackageDetailsInDB | main.go:116-169 | Fills the record field by field and returns at the first failing query or scan. Returns exactly the record, error and issued-query prefix of `Assembled`. |
| Logistics.ScanDetailRows | main.go:136-144 | The `rows.Next()` loop appends one event per row and stops at the first row whose scan fails. Its result equals `ScanDetails`. |
| Logistics.ScanDetails | main.go:136-144 | The loop reads at most one event per row. No error exactly when every row became an event. On an error, the error is the scan failure of the first row that did not become an event. |
| Logistics.ScanPackage | main.go:122 | Assigns `sno`, then `tracking_status`, then `estimated_delivery`, and stops at the first NULL. The error names that column. Fields after it keep the values they had. Events, recipient and location are untouched. |
| Logistics.ScanDetail | main.go:137-139 | Scans a row into a fresh event. It succeeds exactly when date, time and status are all non-NULL, and then copies id, date, time, status and location id, with `LocationTitle` "". Otherwise the error names the first NULL column. |
| Logistics.ScanRecipient | main.go:149-150 | Assigns the id, then name, address and phone, and stops at the first NULL. The error names that column. Later fields keep the values they had. |
| Logistics.ScanLocation | main.go:158-163 | Assigns the location id, then title, city and address, and stops at the first NULL. The error names that column. Later fields keep the values they had. |
| Logistics.Assembled | main.go:116-169 | The statements issued are a prefix of base, events, recipient, location, in that order. No error means all four ran and the record belongs to the requested `sno`. |
| Logistics.AssembledFromDetails | main.go:127-144 | From the events step on, the issued statements extend the base step in order. The base fields are kept. |
| Logistics.AssembledFromRecipient | main.go:146-153 | From the recipient step on, only the recipient and the location of the record change. |
| Logistics.AssembledFromLocation | main.go:155-166 | The location step issues the fourth statement and changes only the current location. |
| Logistics.StepError | main.go:120-168 | A step reports a connection error exactly when its statement fails. The package and recipient steps succeed only for an `sno` present in their table. The location step succeeds only for a package with events. |
| Logistics.AssemblyStopsAtFirstFailure | main.go:120-168 | The issued statements are the first n of the four, with 1 <= n <= 4. Every step before the n-th succeeded, both query and scan. The error returned is exactly the n-th step's query or scan error. Fewer than four steps means that step failed. |
| Logistics.AssemblyKeepsScannedValues | main.go:117-166 | The record returned holds what each step reached has scanned, including events read before a failing row. Parts of steps not reached keep Go's zero value. |
| Logistics.ScanDetailsStopsAt | main.go:136-144 | When row k is the first row whose scan fails, the loop returns that row's error with the k events scanned before it, in order. |
| Logistics.AssembledSuccess | main.go:136-168 | A successful assembly scanned every event row and the location row without error. |
| Logistics.AssembledDetails | main.go:128-144 | On success the events are the event rows of `sno`, in the order the store returned them. Each keeps its id, date, time, status and location id, and `LocationTitle` is "". |
| Logistics.AssembledCurrentLocation | main.go:155-166 | On success the current location is the Locations row of an event whose (date, time) is latest. That event's location id is the current location's id. |
| Logistics.NoEventsFails | main.go:155-166 | A package without events fails at the location step with `sql.ErrNoRows`, leaving the location zero. |
| Logistics.ScanDetailsAll | main.go:136-144 | The events scan succeeds exactly when no row has a NULL date, time or status. Then it yields one event per row, position by position. |
| Logistics.CacheWrite | main.go:202-211 | Stores the marshalled record under field `sno` of `logistics_cache`. Every other field and key is left unchanged. Sets a 120-second TTL on the hash when EXPIRE succeeds on a hash that exists. A failed EXPIRE, or a failed HSET on a missing hash, leaves every TTL as it was, and no other key gains or loses a TTL. An HSET failure is ignored; the error returned is EXPIRE's. |
| Logistics.SetLogisticsInfoInCache | main.go:202-212 | The client's new keyspace and the returned error are those of `CacheWrite` applied to the encoded record. |
| Logistics.Lookup | main.go:171-199 | Only a miss changes the cache. A miss never reports an error and returns the assembled record. A failed HGET is returned as the error. A decode error arises exactly on a hit whose payload does not decode. Any error comes with the all-zero record. |
| Logistics.Get | main.go:171-199 | The returned record, the error and the client's new keyspace are those of `Lookup`. |
| Logistics.LookupHit | main.go:190-197 | A hit decodes the stored payload without consulting the store or changing the cache. The result is the same for every database. A decode failure gives the zero record and an error. |
| Logistics.LookupMiss | main.go:174-185 | A miss always succeeds. The assembly error is dropped and the record built so far is returned. That record is what the cache now holds for `sno`, unless HSET failed. |
| Logistics.LookupCacheError | main.go:186-189 | Any other cache-read error returns the zero record and that error. The result is the same for every database. |
| Logistics.LookupIgnoresWriteFailure | main.go:180-185 | Whether HSET or EXPIRE fails changes neither the record nor the error returned. |
| Logistics.MissThenHit | main.go:174-197 | After a miss has written the cache, the next lookup of the same `sno` is a hit. It returns the identical record, even if the first assembly failed part way. |
| Logistics.UnknownNumberCachedAsZero | main.go:174-185 | A tracking number absent from Packages is returned without error as the all-zero record. |
| Logistics.RespondToLookup | main.go:83-111 | Any lookup error gives 404 "Tracking number not found" with no data. Success gives 200 "success" with the record as data. |
| Logistics.QueryLogisticsHandler | main.go:63-114 | With no db handle, the route serves config.go's health reply. An empty `sno` gives 404 without a lookup. Otherwise the reply is `RespondToLookup` of the lookup, and the cache is left as `Lookup` leaves it. |
| Logistics.UnknownNumberAnswered200 | main.go:82-111 | A miss on an unknown tracking number is answered 200 with the all-zero record, never 404. |
| Logistics.Sno123CurrentLocation | main.go:155-168 | For SNO123, with events on 2024-01-08 at location 5 and 2024-01-09 at location 7, a miss returns exactly those two events, in table order, and location 7. |
| Logistics.LatestOfTwo | main.go:156 | Of two events, the one strictly later in (date, time) is the one selected. |
| Logistics.Sno123Latest | main.go:156 | The later of SNO123's two events is the one the location subquery selects. |
| Logistics.Sno123EventsScan | main.go:136-144 | SNO123's two event rows scan into exactly its two events, without error. |
| Logistics.Sno123Assembled | main.go:116-169 | Assembling SNO123 succeeds, with exactly its two events and location 7. |
| Logistics.InvalidPayloadIsError | main.go:192-196 | A cached payload that is not JSON gives the zero record and a decode error. The store is never queried. |
| Store.LatestDetail | main.go:156 | No row exactly when there are no events. Otherwise the result is one of the events and no event is later than it. |
| Store.NotLaterTransitive | main.go:156 | The (date, time) order of events is transitive. |
| Store.NotLaterTotal | main.go:156 | Any two events are ordered one way or the other. |
| Store.TextLeFirstDifference | main.go:156 | Two texts are ordered by their first differing character. |
| Store.DetailsOf | main.go:128-129 | An event is selected exactly when it is a row of the table with the given `sno`. |
| Store.ColumnLeTransitive | main.go:156 | The order of a nullable text column, with NULL above every value, is transitive. |
| Store.ColumnLeAntisymmetric | main.go:156 | Two values of a nullable column that are each at or before the other are equal. |
| Store.FirstWhere | main.go:121 | The row `QueryRow` scans is a row of the table whose key column equals the value. There is none exactly when no row has that value. |
| Store.QueryPackage | main.go:120-121 | A failed statement gives a connection error. Otherwise a row is returned exactly when some package has this `sno`, and the error is `sql.ErrNoRows` when none has. A row returned is a Packages row with this `sno`. No other error occurs. |
| Store.QueryDetails | main.go:128-133 | Fails exactly when the statement fails. Otherwise the rows are exactly the TrackingDetails rows of this `sno`. |
| Store.QueryRecipient | main.go:147-148 | A failed statement gives a connection error. Otherwise a row is returned exactly when some recipient has this `sno`, and the error is `sql.ErrNoRows` when none has. A row returned is a Recipients row with this `sno`. No other error occurs. |
| Store.QueryCurrentLocation | main.go:156-157 | A failed statement gives a connection error. A package without events gives `sql.ErrNoRows`. For a package with events, a row is returned exactly when some location has the id of its latest event. A row returned is a Locations row whose id is the location id of a latest event of this `sno`. No error other than a connection error or `sql.ErrNoRows` occurs. |
| Json.Encode | main.go:204 | `json.Marshal` of a record is a JSON object whose first key is `sno`. |
| Json.Decode | main.go:193 | A payload decodes only when it is a JSON object whose first key is `sno`. |
| Json.DecodeEncode | main.go:193-211 | Decoding what `setLogisticsInfoInCache` stores gives back the record that was stored. |
| Json.EncodeInjective | modal.go:3-33 | Distinct records have distinct encodings. |
| Json.DetailsRoundTrip | modal.go:7 | The events list, including the empty list written as `null`, decodes back to itself. |
| Json.DetailRoundTrip | modal.go:12-19 | A tracking event decodes back to itself. |
| Json.RecipientRoundTrip | modal.go:21-26 | A recipient decodes back to itself. |
| Json.LocationRoundTrip | modal.go:28-33 | A location decodes back to itself. |
| Json.StringRoundTrip | modal.go:4-6 | A string field decodes back to itself, whatever characters it holds. |
| Json.IntRoundTrip | modal.go:13 | A 64-bit `int` field decodes back to itself. |
| Redis.HGetReplyOf | main.go:172 | The reply is an error exactly when HGET fails. It is a hit exactly when the field exists, and then it carries the stored value. |
| Redis.AfterHSet | main.go:210 | Sets one field of one hash and changes nothing else. On failure nothing changes. |
| Redis.AfterExpire | main.go:211 | Sets the TTL of an existing key. On a missing key it does nothing and is not an error. |
| Redis.HSetThenHGet | main.go:210 | A field written by HSET reads back unchanged. |
| Redis.Client.HGet | main.go:172 | The reply is `HGetReplyOf` of the current keyspace. |
| Redis.Client.HSet | main.go:210 | The new keyspace and error are those of `AfterHSet`. |
| Redis.Client.Expire | main.go:211 | The new keyspace and error are those of `AfterExpire`. |
| Config.HealthStatus | config.go:72-79 | "All OK" exactly when both handles are set. Otherwise the text names the missing handle or handles. |
| Config.HealthCheck | config.go:70-96 | Always HTTP 200. The status is `HealthStatus` of the two handles, so "All OK" exactly when both are set. The five environment variables are echoed, the password included. |
| Config.RedisAddr | config.go:23-33 | No address exactly when REDIS_HOST is empty. |
| Config.RedisAddrSplits | config.go:32 | The client dials REDIS_HOST on port 6379. |
| Config.PostgresConnStr | config.go:46-59 | No connection string exactly when POSTGRES_HOST is empty. |
| Config.ConnStrSwapsDbNameAndPassword | config.go:54-59 | With POSTGRES_USER, POSTGRES_PASSWORD, POSTGRES_DB and POSTGRES_HOST each non-empty, not opening with a quote, and free of backslashes and white space, the driver reads POSTGRES_PASSWORD as `dbname` and POSTGRES_DB as `password`. `user`, `host` and `port=5432` are as intended. |
| ApiHealth.HealthCheck | API/Health.go:11-36 | Each component reads "Not Connected" exactly when its handle is nil, else "OK". The code is 503 exactly when a handle is nil, and 200 exactly when both are set. |
| Vault.VaultConnectAddress | vault.go:7-20 | With VAULT_HOST unset, "http://127.0.0.1:8200". With VAULT_HOST = h, h + ":" + h. |
| Vault.VaultPortIsHost | vault.go:14-19 | With a colon-free VAULT_HOST, both the host part and the port part of the address are VAULT_HOST itself. |
| Vault.VaultSchemeHost | vault.go:9-19 | With a VAULT_HOST that contains a colon, such as "http://vault", the port part is what follows VAULT_HOST's last colon ("//vault"), never VAULT_HOST itself. The host part is VAULT_HOST, a colon, and VAULT_HOST's own host part. |
| Vault.VaultDefaultSplits | vault.go:9-19 | Unset, the address splits into host "http://127.0.0.1" and port "8200". |
| Consul.ConsulConnectAddress | consul.go:7-19 | With both variables unset, "127.0.0.1:8500". |
| Consul.ConsulSplits | consul.go:8-18 | With a colon-free CONSUL_PORT, the host part is CONSUL_HOST or "127.0.0.1", and the port part is CONSUL_PORT or "8500". Each is taken verbatim and independently. |
| Address.SplitJoined | vault.go:19 | `host + ":" + port` splits back into host and port when the port has no colon. |
| Address.SplitAfterPrefix | vault.go:19 | Text put in front of an address that holds a colon changes neither its port part nor the tail of its host part. |

## Left out

- Logistics.GetPackageDetailsInDB: the source never checks `rows.Err()` after the events loop (main.go:134-144). An error partway through the rows therefore ends the loop silently, and assembly goes on with the events read so far. It can then succeed with a shortened Details list, and the location subquery can pick an event that is not in that list. The model's events query either fails whole or returns every row, so this truncation is not modelled. `rows.Close` and the SQL text are not modelled either. Each query is a pure selection over the tables, and a connection failure is a per-statement input.
- Store.LatestDetail: SQL leaves the choice among events with the same latest (date, time) open. The model takes the first such row in table order. The lemmas promise only "a latest event".
- Store: integer columns (the ids and TrackingDetails.location_id) are taken never to be NULL. A NULL there would also make `Scan` into a Go `int` fail; the model does not represent it.
- Store: `date`, `time` and `estimated_delivery` are taken to be text columns whose stored text `Scan` copies verbatim. Were they DATE or TIME columns, lib/pq would return `time.Time` and `Scan` would write RFC 3339 text into the string, so the scanned values (and the SNO123 lemmas) would differ.
- Store.NotLater: `date` and `time` are compared as text, character by character. For text columns PostgreSQL orders by the database collation, which agrees with code-point order only under the C collation; for DATE/TIME columns it agrees for zero-padded ISO values only. NULL sorts above every value, which is PostgreSQL's default, so `DESC` picks an event with a NULL date first.
- Store.QueryCurrentLocation: with no events the subquery is NULL and matches no location, so the code fails with `sql.ErrNoRows`. It does not skip the location step.
- Json.Decode: accepts only the text `json.Marshal` writes: keys in declaration order, no whitespace, no unknown keys. `json.Unmarshal` accepts more, such as reordered keys or whitespace. A `\u` escape of a UTF-16 surrogate is rejected rather than combined.
- Json.Escape: follows the escaping of recent Go releases, where `\b` and `\f` are written in short form. Strings are sequences of code points, so invalid UTF-8 is not modelled.
- Logistics.SetLogisticsInfoInCache: the `json.Marshal` error branch (main.go:205-208) is never taken for these field types, so it is not modelled.
- Logistics.CacheWrite: the TTL is recorded, but time passing and key expiry are not simulated.
- Logistics.QueryLogisticsHandler: a nil Redis client with a db handle and a non-empty `sno` makes `get` panic. The method requires a client in that case.
- Logistics.QueryLogisticsHandler: the health route is built from the package-level `client` (main.go:65), which the model passes in. The reply is modelled as its code and JSON body, not Gin's framing.
- Logistics.Get: concurrent requests and races on the shared hash are not modelled. Each lookup is one sequential call.
- Config.PostgresConnStr: connection-string parsing by the driver is reduced to space-separated `key=value` words. lib/pq also ends an unquoted value at any Unicode white space, unescapes backslashes, and reads a value opening with `'` as quoted; with POSTGRES_PASSWORD `p\ss` its dbname is `pss`. The swap lemma therefore requires values with none of these (`Config.VerbatimValue`). A failing `sql.Open` (config.go:61-65) also leaves the handle nil. That is I/O and is not part of this model.
- Config.ConnStrSwapsDbNameAndPassword: an empty POSTGRES_USER, POSTGRES_PASSWORD or POSTGRES_DB leaves a `user=`, `dbname=` or `password=` word with no value. The driver then reads the next word as the value, so the lemma requires all three to be non-empty.
- Config.RedisAddr: a failed `Ping` (config.go:35-39) also makes initRedis return a nil client. That is I/O, so the model gives only the address the client would dial.
- Json.Encode: its own contract states only the opening of the payload. The full round trip back to the record is `Json.DecodeEncode`, and the model uses that.
- Logging (logger.go, zap), `.env` loading, the `/radom` route and `fmt.Println` tracing are not part of this model.
