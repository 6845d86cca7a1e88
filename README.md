# goports ingestor and in-memory store, modelled in Dafny

This project models the core of goports: a service that loads a catalogue of
sea ports from one large JSON file and stores them in batches.

- **The file ingestor** (`PortIngestor.Process`). It checks that the file opens
  and starts with `{`. It reads the object's members one by one. It stamps each
  port with its key as identifier. It hands every full batch of `batchSize`
  ports to a goroutine that calls `BulkUpsert`. It upserts a non-empty
  remainder synchronously at the end, waits for the goroutines, and returns
  the error it holds.
- **The in-memory key/value store** and the **port repository** built on it.
- **The matchers** the tests use to compare ports.
- **The configuration's derived values**: `IsProduction` and `Host`.
- **The generic slice copy** `slices.Interfaces`.

Modules, one per source file:
`Domain` (the `Port` record and the dynamic values an `any` can hold),
`Config`, `Slices`, `MemoryDb`, `MemoryPort`, `DomainTest`,
`Ingest` (the ingestor and the specification of its runs),
and `IngestProperties` (what a run promises). `Optional` is the option type.

How the ingestor is modelled:

- **The JSON decoder** is a `Source`. It holds the outcome of opening the file,
  the outcome of `Stat`, the first token, and the members the decoder yields
  while `More()` is true. Each member is a key that cannot be read, a key that
  is not a string, a value that does not decode, or a port.
- **The `select` at the top of each iteration** is a `Poll` oracle. It names
  the case Go picked: `ctx.Done()`, a receive from goroutine g, or `default`.
  A receive from a goroutine that was not launched, or whose upsert did not
  fail, is not ready, so `default` runs in its place.
- **The goroutines** are given by what each one's `BulkUpsert` returns
  (`Sink.async`). The result of the synchronous call is `Sink.final`.
- **`Process`** is a loop method. It returns the real outcome, a ghost log of
  the dispatched batches, and the ghost final batch. Its postcondition equates
  these with `Expected`. `Expected` is a declarative description of a run:
  - the first iteration that stops the loop (`StopIndex`);
  - the ports decoded before that iteration;
  - those ports cut from the front into full batches (`FullBatches`) and a
    remainder (`Remainder`).
- **Outcomes.** `errCh` is unbuffered. A goroutine whose upsert fails blocks on
  its send until the loop receives from it. Only one receive can happen,
  because a receive stops the loop. So a run whose failed goroutine is never
  received from blocks forever in `wg.Wait()`. The outcome `Hangs` records
  this. A negative batch size makes `make` panic once the opening `{` has
  been checked: outcome `Panics`. A batch size of 0 is modelled as written:
  no batch is ever full, and every port goes into the final call.
- A cancelled run returns nil, not a separate cancellation outcome, because
  `err` is nil when the cancellation is seen. `errCh` is unbuffered, so a
  goroutine whose failed upsert is never received blocks forever.
- The error for a key that is not a string formats the type of the opening
  token, not the key (internal/adapters/handler/ingest/port.go:104). The
  model carries the opening token in that error.

## Model

| member | source | states |
|---|---|---|
| Config.IsProduction | internal/core/config/config.go:60-62 | a production environment name has the length of "PROD", and "PROD" itself is production |
| Config.Host | internal/core/config/config.go:64-66 | the address starts with the hostname followed by ':' and is longer than both |
| Config.IsProductionCaseInsensitive | internal/core/config/config.go:60-62 | an environment is production exactly when it is four characters spelling P, R, O, D in either case |
| Config.ProductionSpellings | internal/core/config/config.go:10-15 | "prod", "Prod" and "PROD" are production; "TEST" and "" are not |
| Config.DigitsRoundTrip | internal/core/config/config.go:64-66 | the decimal digits of a natural number are non-empty digits that read back as the number |
| Config.DecimalRoundTrip | internal/core/config/config.go:64-66 | the `%d` rendering of a port has no colon and reads back as the port, negative ports included |
| Config.HostSplitsAtLastColon | internal/core/config/config.go:64-66 | `Host()` is the hostname, then ':', then the port: the last colon follows the hostname and what follows it reads back as the port |
| Config.EmptyHostname | internal/core/config/config.go:64-66 | with an empty hostname the address is ':' and the port, ":8080" for the default port |
| Slices.Interfaces | pkg/slices/slices.go:3-11 | a fresh array of the input's length whose element i boxes input element i, in order; the input is not modified |
| MemoryDb.Database.constructor | internal/adapters/repository/memory/db.go:14-18 | a new database holds no keys |
| MemoryDb.Database.Get | internal/adapters/repository/memory/db.go:20-26 | ok exactly when the key is present; then the stored value, else nil; nothing changes |
| MemoryDb.Database.Set | internal/adapters/repository/memory/db.go:28-32 | the key now maps to the value, replacing any earlier one; all other keys keep presence and value |
| MemoryDb.SetThenGet | internal/adapters/repository/memory/db.go:20-32 | a Get after a Set of the same key returns the value set and true |
| MemoryDb.GetFromNewDatabase | internal/adapters/repository/memory/db.go:14-26 | on a new database every Get returns nil and false |
| MemoryPort.Upserted | internal/adapters/repository/memory/port.go:45-51 | the writes keep every key already present and add the identifier of every written port |
| MemoryPort.UpsertedKeys | internal/adapters/repository/memory/port.go:45-51 | after the writes a key is present exactly when it was before or some written port carries it |
| MemoryPort.UpsertedLeavesOthers | internal/adapters/repository/memory/port.go:45-51 | a key no written port carries keeps its presence and value |
| MemoryPort.UpsertedLastWins | internal/adapters/repository/memory/port.go:45-51 | of several ports with one identifier, the last written is the one stored |
| MemoryPort.UpsertedStoresValues | internal/adapters/repository/memory/port.go:50 | every written identifier holds a `domain.Port` value, never a `*domain.Port` |
| MemoryPort.PortRepository.constructor | internal/adapters/repository/memory/port.go:18-23 | the repository works on the given database |
| MemoryPort.PortRepository.Get | internal/adapters/repository/memory/port.go:25-37 | a missing id gives ErrPortNotFound; a stored `*domain.Port` is returned; any other stored value fails the type assertion |
| MemoryPort.PortRepository.BulkUpsert | internal/adapters/repository/memory/port.go:39-56 | the ports before the first element at which the context is seen done are written in order under their ids; nothing else changes; the result is nil, cancelled or not |
| MemoryPort.PortRepository.GetCorrected | internal/adapters/repository/memory/port.go:25-37 | Get with the assertion on `domain.Port`, the type BulkUpsert stores |
| MemoryPort.GetAfterBulkUpsert | internal/adapters/repository/memory/port.go:25-56 | as written, Get of any id that BulkUpsert stored fails the type assertion |
| MemoryPort.GetCorrectedAfterBulkUpsert | internal/adapters/repository/memory/port.go:25-56 | with the corrected Get, the last port written under an id is read back |
| DomainTest.PortMatches | internal/core/domain/domaintest/matcher.go:13-21 | a match is a `*domain.Port` carrying the expected identifier |
| DomainTest.MatchesFrom | internal/core/domain/domaintest/matcher.go:41-47 | when the loop from position i returns true, every later position agrees on id and name |
| DomainTest.PortsMatches | internal/core/domain/domaintest/matcher.go:35-48 | a match is a `domain.Ports` of the expected length |
| DomainTest.MatchesFromPairwise | internal/core/domain/domaintest/matcher.go:41-47 | the loop from position i returns true exactly when every later position agrees on id and name |
| DomainTest.PortsMatchesPairwise | internal/core/domain/domaintest/matcher.go:35-48 | `portsMatcher.Matches` holds exactly for a `domain.Ports` of the expected length agreeing on id and name at every position |
| DomainTest.PortMatcherNeedsPointer | internal/core/domain/domaintest/matcher.go:13-17 | `portMatcher.Matches` rejects every argument that is not a `*domain.Port` |
| DomainTest.PortMatcherIgnoresOtherFields | internal/core/domain/domaintest/matcher.go:19-20 | two ports with the same id and name are matched alike, whatever their other fields |
| DomainTest.PortsMatchReflexive | internal/core/domain/domaintest/matcher.go:35-48 | every list of ports matches itself |
| DomainTest.PortsMatchIsOrderSensitive | internal/core/domain/domaintest/matcher.go:41-47 | two ports with different ids in swapped order do not match |
| Ingest.FullBatches | internal/adapters/handler/ingest/port.go:123-138 | every full batch holds exactly the batch size; with size 0 there are none |
| Ingest.Remainder | internal/adapters/handler/ingest/port.go:123-142 | what is left over is shorter than a non-zero batch size, and everything when the size is 0 |
| Ingest.BatchesCoverRecords | internal/adapters/handler/ingest/port.go:123-144 | the full batches followed by the remainder are the records, in order |
| Ingest.AppendRecord | internal/adapters/handler/ingest/port.go:123-138 | appending a port either completes the buffer into a new batch and empties it, or grows the buffer |
| Ingest.DecodedFromEntries | internal/adapters/handler/ingest/port.go:110-123 | every buffered port is an earlier member's port with that member's key as id |
| Ingest.DecodedAllMembers | internal/adapters/handler/ingest/port.go:110-123 | over members only, the buffered ports are those ports, stamped with their keys, in input order |
| Ingest.StopIndex | internal/adapters/handler/ingest/port.go:85-119 | the loop stops at the first iteration whose `select` ends it or whose member is bad, and no earlier one |
| Ingest.FailedCountOther | internal/adapters/handler/ingest/port.go:128-135 | besides a failed goroutine g, another failed goroutine exists exactly when more than one failed |
| Ingest.PortIngestor.constructor | internal/adapters/handler/ingest/port.go:29-41 | the batch size is the default 20 unless a WithBatchSize option is given, and then the last one given |
| Ingest.Expected | internal/adapters/handler/ingest/port.go:43-156 | a run whose file does not open, stat and start with `{`, or whose batch size is negative, upserts nothing; an upsert error is only returned from a run whose file did |
| Ingest.PortIngestor.Process | internal/adapters/handler/ingest/port.go:43-156 | outcome, dispatched batches and final batch are those of the specified run `Expected` |
| IngestProperties.EarlyFailuresNeverUpsert | internal/adapters/handler/ingest/port.go:50-78 | open, Stat, first-token and non-`{` failures each return their own error with no BulkUpsert call |
| IngestProperties.NegativeBatchSizePanics | internal/adapters/handler/ingest/port.go:82 | a negative batch size panics after the file checks, with no BulkUpsert call |
| IngestProperties.DeliveredPortsCarryTheirKeys | internal/adapters/handler/ingest/port.go:113-123 | every port passed to BulkUpsert is a member read before the stop, stamped with its key as id |
| IngestProperties.DispatchedBatchesAreFull | internal/adapters/handler/ingest/port.go:125-138 | every batch handed to a goroutine has exactly the batch size |
| IngestProperties.CleanRunDeliversAllInOrder | internal/adapters/handler/ingest/port.go:123-144 | without cancel, receive or bad member, the upserted ports are all members, stamped, in input order; nil when no call fails |
| IngestProperties.FinalBatchOnlyAtCleanEnd | internal/adapters/handler/ingest/port.go:142-144 | the synchronous batch is sent only after every member was read; it is non-empty, smaller than a non-zero batch size, and completes the records |
| IngestProperties.BadMemberStopsReading | internal/adapters/handler/ingest/port.go:94-119 | a bad member stops reading, nothing from it on is delivered, the partial batch is dropped, and its error (naming the key for a decode failure) is returned unless the run hangs |
| IngestProperties.CancelledRunReturnsNil | internal/adapters/handler/ingest/port.go:85-88 | a cancellation stops reading there, drops the partial batch and returns nil unless a goroutine failed |
| IngestProperties.ReceivedErrorIsReturned | internal/adapters/handler/ingest/port.go:89-90 | a received goroutine error stops reading and is returned; the run hangs exactly when another goroutine failed too |
| IngestProperties.FinalUpsertErrorIsReturned | internal/adapters/handler/ingest/port.go:142-155 | the synchronous call's error is returned; the run hangs exactly when some goroutine failed |
| IngestProperties.HangsIffUnreceivedFailure | internal/adapters/handler/ingest/port.go:126-146 | a run hangs exactly when a dispatched goroutine failed and its error was not the one received |
| IngestProperties.NonStringKeyReportsOpeningDelimiter | internal/adapters/handler/ingest/port.go:102-105 | the non-string-key error carries the opening `{` (whose type the source formats), not the offending key |
| IngestProperties.BatchSizeTwoScenario | internal/adapters/handler/ingest/port_test.go:64-110 | four ports with size 2 go out as [AEAJM, AEAUH] and [AEDXB, AEFJR], accepted by the test's matcher, with no extra call, and nil is returned |
| IngestProperties.DefaultBatchSizeUpsertErrorScenario | internal/adapters/handler/ingest/port_test.go:52-61 | with the default size the four ports go out in one synchronous call whose error is returned |
| IngestProperties.FailingFileScenarios | internal/adapters/handler/ingest/port_test.go:24-50 | a missing file, a first token "abc", an unreadable key and an undecodable value each return their error |

## Findings

| source | as written | input that shows it | evidently intended | confidence | as-written member | corrected member |
|---|---|---|---|---|---|---|
| internal/adapters/repository/memory/port.go:36 | `Get` asserts `*domain.Port`, but `BulkUpsert` (line 50) stores `domain.Port` values, so reading back any stored port panics | `BulkUpsert([p])` with no cancellation, then `Get(p.ID)` | `Get` returns the port stored under the id | high; not executed | MemoryPort.GetAfterBulkUpsert | MemoryPort.GetCorrectedAfterBulkUpsert |

## Left out

- Goroutines, the `sync.WaitGroup` and `errCh` are not modelled as concurrency. The results of the goroutines and the `select` choices are oracles. Liveness is not proved; a blocked sender is the outcome `Hangs`.
- `encoding/json` is not modelled (`Token`, `More`, `Decode`, the field tags of `Port`). The decoder is the sequence of what it yields.
- File access (`os.Open`, `Stat`, the deferred `Close` and its logging) is reduced to the errors they return.
- Logging and the exact Go error strings (`%w`, `%T`, `%s` wrapping) are not modelled. Errors are variants that carry their cause, key or token.
- The context is only modelled where it is polled: the `Poll` oracle in the ingestor and the index of the first element at which `BulkUpsert` sees it done.
- The port service and the HTTP client behind `BulkUpsert` are not modelled; their results are the `Sink` oracle.
- The mutex of the in-memory database is not modelled: the map is used sequentially.
- Pointer identity and aliasing are not modelled. A `*domain.Port` is the port it points to. A nil `*domain.Port` passed to `portMatcher.Matches`, which would panic on the dereference, is not modelled.
- `Coordinates` are float64 values kept as opaque bit patterns; nothing computes with them.
- Config.IsProductionCaseInsensitive: upper-casing is ASCII only, where Go's `strings.ToUpper` is Unicode.
- `config.Load`, the redis repository, the HTTP handlers and client, `pkg/cid`, `pkg/logging`, the port service, `MarshalBinary`/`UnmarshalBinary` and the `cmd/*` binaries are not part of this model. They are library calls, delegation or wiring.
- The binary sets the batch size from the configuration default of 50 (cmd/ingestor/main.go:55); that wiring is not modelled, and the ingestor is modelled with whatever batch size its options give.
- `encoding/json`'s `Token()` already turns a non-string object key into a syntax error (internal/adapters/handler/ingest/port_test.go:38-42), so the check at internal/adapters/handler/ingest/port.go:102-107 is evidently dead code; `Ingest.Entry.NonStringKey` models a case the real decoder never produces.
