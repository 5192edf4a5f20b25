# ndns record synchronisation, modelled in Dafny

ndns lets hosts on a local network answer multicast-DNS questions for their own names.
A server command keeps the authoritative name → address store. Each client command
registers its names with the server and keeps a copy of the server's records, which it
uses to answer type-A questions.

This project models the synchronisation protocol between the two:

- `protocol.dfy` (module `Protocol`): name records, the signed request, the response, and the
  signature. The signature is the SHA-1 hex digest of salt, `JSON.stringify(body)` and the
  decimal timestamp. SHA-1 and `JSON.stringify` are not modelled inside. They are the two fields
  of a `Crypto` value, and client and server are built with the same one. The decimal
  rendering of the timestamp is modelled, and proved to be the decimal numeral of the clock reading.
- `server.dfy` (module `Store`): the server command. `Accepts` is the signature gate
  (a missing or empty `signature` or `timestamp` is refused, like a wrong digest).
  `Merge` is `Object.assign`. Class `Server` holds the store. `Handle` is the request
  handler: it answers 403 `"wrong signature"`, or it merges the body and returns the
  whole store. `ServerMain` holds the option checks and the initial store.
- `cache.dfy` (module `Sync`): the client's `Cache`. `FindConflict` is the conflict loop.
  `StartRound` and `TickRound` are pure functions that give the outcome of `start()` and
  of one timer tick. Each round is given the producer's output and the fate of each round
  trip (`Delivered`, `RequestLost`, `ResponseLost`). Class `Cache` has `UpdateCache`,
  `Start`, `Tick` and `GetRecord`. Their contracts tie the new `records` and the new
  server store to these functions. A ghost log `pushed` records every body the cache has sent.
- `client.dfy` (module `Client`): the client command. It covers the option checks, the
  choice between the two producers, the producer that binds every name to the interface
  address, the rule for answering questions, and `ClientMain`, which builds and starts
  the cache.
- `scenario.dfy` (module `Scenarios`): two runs of the whole system. In the first, two
  clients claim one name. In the second, a refresh tick loses its request.

`JSON.stringify` follows key insertion order, so two processes can serialise equal records
differently; the model takes serialisation as a given function. The code has no guard
against overlapping ticks, and the model adds none. The model departs from the code on
purpose in two places, both about names that every JavaScript object inherits
(`toString`, `constructor`, ...). The conflict check at start uses the corrected test,
and the cache lookup that answers questions reads only names that are actually cached.
Both are described under "Findings", and the members that rely on them are listed under
"Left out".

## Model

| member | source | states |
|---|---|---|
| Protocol.DecimalText | src/util/cache.ts:27-29 | the timestamp text is a non-empty run of decimal digits, so the server's `!timestamp` test never refuses it |
| Protocol.DecimalRoundTrip | src/util/cache.ts:27-29 | `DecimalText(n)` is the decimal numeral of `n`: reading its digits back gives `n`, so `${timestamp}` is rendered correctly and different clock readings give different texts |
| Protocol.SignatureOf | src/util/cache.ts:28 | the signature is the SHA-1 hex digest of the salt, then the serialised body, then the timestamp text; the server recomputes the same expression at src/commands/server.ts:58 |
| Store.Accepts | src/commands/server.ts:58 | a request passes the gate exactly when its signature and its timestamp are present and non-empty, and the signature equals the digest of the salt, the body (`{}` when absent) and the timestamp text |
| Store.Merge | src/commands/server.ts:63 | after the merge, every key of the body holds the body's value, every other key keeps its old value, and the key set is the union, so no key is removed |
| Store.MergeEmpty | src/commands/server.ts:63 | merging `{}` leaves the store unchanged |
| Store.MergeIdempotent | src/commands/server.ts:63 | merging the same body twice gives the same store as merging it once |
| Store.MergeLastWriterWins | src/commands/server.ts:63 | two merges in a row are one merge of the two bodies, and the later body wins on every key it holds |
| Store.ServeKeepsNames | src/commands/server.ts:58-64 | no request removes a name; a 200 answer carries exactly the post-merge store; any other answer is 403 `"wrong signature"` and leaves the store unchanged |
| Store.UnsignedRejected | src/commands/server.ts:58-61 | a request whose signature or timestamp is missing or empty gets 403 `"wrong signature"` and the store is unchanged |
| Store.Serve | src/commands/server.ts:55-64 | the handler as a function: a refused request gives 403 `"wrong signature"` and the same store; an accepted one gives the merged store and a 200 answer that carries it |
| Store.Server.constructor | src/commands/server.ts:42 | the store starts as the given initial records |
| Store.Server.Handle | src/commands/server.ts:55-65 | a request that fails the signature gate gets 403 `"wrong signature"` and the store is unchanged; an accepted request merges its body (`{}` when absent) and gets status 200 with the full post-merge store |
| Store.ServerMain | src/commands/server.ts:36-52 | a missing `--port`, then a missing `--salt`, fails with its usage message; otherwise a new server starts with the preloaded records, or with an empty store when no config is given |
| Sync.SignedRequestAccepted | src/util/cache.ts:26-30 | a request that the client signs with the server's salt and library functions passes the server's signature check |
| Sync.SignedRequest | src/util/cache.ts:27-29 | the request the client sends: the signature computed over the salt, the body and the timestamp text, that timestamp text, and the record as the body |
| Sync.Exchange | src/util/cache.ts:29 | one superagent round trip into the server's handler: a lost request leaves the store and yields a transport error; otherwise the handler runs, and a lost response yields a transport error after the store has changed |
| Sync.RoundTrip | src/util/cache.ts:26-30 | `updateCache` as a function: the record signed with the cache's salt at the given clock reading, exchanged with the server |
| Sync.ReplyOf | src/util/cache.ts:29 | how the client reads an answer: superagent throws on any status of 400 or more, so a 403 becomes an error; otherwise the result is the parsed record body |
| Sync.ExchangeReplyIsStore | src/commands/server.ts:63-64 | a successful round trip hands the client exactly the server's store after the request; no round trip removes a name |
| Sync.EmptyPushKeepsStore | src/util/cache.ts:37 | pushing `{}` never changes the server's store, whatever the salts, the clock or the network do |
| Sync.DeliveredPushMerges | src/util/cache.ts:26-30 | with a matching salt and a delivered round trip, the body is merged into the store and the client receives the merged store |
| Sync.InheritedNameFalseConflict | src/util/cache.ts:41 | the conflict test as written reports a conflict for the name `toString` on an empty server; the corrected test reports none |
| Sync.ConflictOnlyOnDifferentAddress | src/util/cache.ts:41 | a name absent on the server, or present with the same address, is not a conflict; the corrected test and the test as written agree on every name except names that a plain object inherits and the server lacks |
| Sync.ConflictsOn | src/util/cache.ts:41 | the corrected conflict test for one name: the server holds the name with a different address |
| Sync.HasConflict | src/util/cache.ts:40-44 | the corrected loop condition: some local name conflicts with the server |
| Sync.HasConflictAsWritten | src/util/cache.ts:40-41 | the loop condition as written: some local name fails the as-written test, inherited names included |
| Sync.ConflictsAsWritten | src/util/cache.ts:41 | the conflict test as written: a name the server holds conflicts when the addresses differ, and a name it lacks conflicts when a plain object inherits a member of that name |
| Sync.InheritedNameStartDiverges | src/util/cache.ts:39-46 | on an empty server, an unforced start for `toString` is refused by the test as written, while the corrected start registers the name |
| Sync.FindConflict | src/util/cache.ts:40-44 | returns no name exactly when no local name conflicts; a name it returns is a local name that the server holds with a different address |
| Sync.StartRound | src/util/cache.ts:36-46 | `start()` as a function: a failed pull or a throwing producer fails the start; without force a conflict refuses it on the conflicting names; otherwise the local records are pushed and the answer, or the push's error, ends the start |
| Sync.TickRound | src/util/cache.ts:49-53 | one tick as a function: a throwing producer fails it; otherwise the producer's output is pushed with no conflict check, and the answer, or the push's error, ends the tick |
| Sync.RoundsNeverAheadOfServer | src/util/cache.ts:46-53 | after a synced start or tick, the cached records equal the server's store; no round removes a name from the store |
| Sync.ConflictRefusesStart | src/util/cache.ts:37-45 | without force, a conflict after a successful pull refuses the start on exactly the conflicting names, and the store is unchanged; a failed pull or a throwing producer ends the start with the store unchanged |
| Sync.ForceSkipsConflictCheck | src/util/cache.ts:39-46 | with force, a start is never refused, and after a successful pull the local records are pushed whatever they are |
| Sync.StartRegisters | src/util/cache.ts:36-46 | with a matching salt, a working producer and two delivered round trips, a start that is forced or has no conflict leaves both the store and the cache equal to the old store merged with the local records |
| Sync.TickFailureKinds | src/util/cache.ts:49-53 | a throwing producer or a lost request makes the tick fail with the store unchanged; a lost response also makes it fail |
| Sync.Cache.constructor | src/util/cache.ts:22-34 | a new cache holds its options and an empty `records` |
| Sync.Cache.GetRecord | src/util/cache.ts:59-61 | returns the cached record for a cached name, and nothing for any other name |
| Sync.Cache.UpdateCache | src/util/cache.ts:26-30 | sends the signed record once, and returns the server's answer or a thrown error; the server's store becomes what the round trip leaves |
| Sync.Cache.Start | src/util/cache.ts:36-46 | the store and `records` end as `StartRound` says: a synced start caches the push's answer, and a failed or refused start keeps `records`; the first push sends `{}`, and the local records are pushed only when no conflict stopped the start |
| Sync.Cache.Tick | src/util/cache.ts:47-55 | a successful tick replaces `records` with the answer; a failing tick returns the error and keeps `records`; the producer's output is pushed only when the producer did not throw |
| Client.ChooseProducer | src/commands/client.ts:41 | the choice between the two producers; its promise is stated by Client.EmptyRecordExactlyWithoutNames |
| Client.EmptyRecordExactlyWithoutNames | src/commands/client.ts:41-50 | with no names, or an empty list, the cache receives `{}` without the interface being read; with names and no interface address the producer throws; with an address the record is empty only when every name is `__proto__` |
| Client.NamesToRecord | src/commands/client.ts:60-65 | the produced keys are exactly the given names, a repeated name appearing once, less `__proto__` (assigning it sets the accumulator's prototype); every value is the interface address |
| Client.Produced | src/commands/client.ts:47-66 | what the chosen producer returns: `{}` for no names; for names, nothing when the interface address lookup throws, and otherwise every name but `__proto__` bound to the address |
| Client.Execute | src/commands/client.ts:47-67 | the empty producer returns `{}`; the names producer throws when the interface has no IPv4 address, and otherwise binds every given name except `__proto__`, and only those, to that address |
| Client.Respond | src/commands/client.ts:78-90 | a question gets at most one packet; it gets one exactly when it is of type `A` and its name is cached; that packet has one answer with the question's name, type `A`, TTL 300 and the cached address |
| Client.RespondAsWritten | src/commands/client.ts:78-90 | the query rule as written: a type-A question for a cached name gets the cached address; one for an uncached inherited name makes `respond` be called with an answer whose `data` is undefined |
| Client.InheritedNameAnsweredAsWritten | src/commands/client.ts:79-80 | for a type-A question on an uncached `toString`, the rule as written calls `respond` with an answer whose `data` is undefined, and the corrected rule makes no call |
| Client.RespondAgreesExceptInherited | src/commands/client.ts:79-80 | on a cached name, or a name no object inherits, the rule as written and the corrected rule make the same `respond` call with the address defined, or neither makes one |
| Client.Responses | src/commands/client.ts:77-92 | the packets for a list of questions are the packets for each question, in question order |
| Client.ResponsesSound | src/commands/client.ts:76-93 | every packet sent answers a type-A question of the query whose name is cached, with the cached address and TTL 300 |
| Client.ResponsesComplete | src/commands/client.ts:76-93 | every type-A question whose name is cached is answered |
| Client.AnswerQuery | src/commands/client.ts:76-93 | the packets sent for a query are those of its questions, in question order, looked up in the cache |
| Client.ClientMain | src/commands/client.ts:29-69 | a missing `--server`, then `--salt`, then `--port`, fails with its usage message before any cache exists and leaves the store unchanged; otherwise a cache is built with a 300000 ms interval and URL `http://host:port` and is started; its outcome and the new store are those of `StartRound` on the chosen producer's output |
| Scenarios.TwoClientsOneName | src/util/cache.ts:36-46 | on an empty server, client A registers `svc.local`; client B's start without force is refused with a conflict on `svc.local`, and the store keeps A's address; B's forced start puts B's address in the store |
| Scenarios.LostTickKeepsCache | src/util/cache.ts:49-61 | after a start caches `bar`, a tick whose request is lost keeps answering `bar`, and `baz` is still not found |

## Left out

- SHA-1 and `JSON.stringify` are not modelled inside; they are the `Crypto` parameter. The model therefore does not show that two processes can serialise equal records with different key orders. It also cannot show that a changed body or timestamp is refused, because that needs collision resistance.
- HTTP transport (superagent, Koa, koa-bodyparser, `app.listen`) is modelled as one call into the server, together with a `Link` outcome. Not modelled: query parameters given twice, URL encoding, request bodies that are not a record, and a body key `__proto__` sent by some other client, which `Object.assign` would treat as a prototype rather than a name. (The model's own client never sends that key.)
- The `setInterval` timer and ticks that overlap while in flight are not modelled, because that is concurrency. One tick is one call of `Tick`.
- `Date.now()` is not modelled; each push takes the clock reading as a parameter.
- The multicast-DNS socket and its events, `networkInterfaces()`, `platform()` and the choice of interface name are not modelled. The interface address and the incoming questions are parameters.
- Loading the server's config file (existence check, read, `JSON.parse` and its usage errors) is not modelled; the initial records are a parameter.
- clipanion command-line parsing, the unused `--print` option, and console logging in `src/util/log.ts` are not modelled.
- Sync.Cache.Start: on a conflict it reports some conflicting name, not necessarily the first one in `Object.entries` order, because a Dafny map has no key order.
- Client.ClientMain: it calls the producer before `start` and hands its output to `Start`, whereas the source calls the producer after the first push. The producer only reads the interface, so the outcomes are the same.
- Sync.FindConflict: it uses the corrected conflict test, so it does not stop on a local name that the server lacks but that every object inherits (`toString`, `constructor`, ...), where the loop at src/util/cache.ts:40-44 throws (see Findings and Sync.InheritedNameStartDiverges).
- Sync.StartRound: for the same reason, an unforced start is not refused for an inherited name that the server lacks.
- Sync.Cache.Start: it follows Sync.StartRound, so an unforced start for an inherited name that the server lacks registers the name where the source throws.
- Sync.StartRegisters: its no-conflict premise uses the corrected test, so it also covers an unforced local `toString` that the server lacks, which the source refuses.
- Client.ClientMain: its outcome is that of Sync.StartRound, so an unforced `--name toString` on a server without it starts where the source throws.
- Sync.Cache.GetRecord: it reads only names that are actually cached. In the source, an inherited member name such as `toString` reads as a hit (see Findings).
- Client.Respond: it uses the corrected lookup, so it sends nothing for a type-A question on an uncached inherited name, where the source calls `respond` with an answer whose `data` is undefined (see Client.RespondAsWritten).
- Client.ResponsesSound: it holds of the corrected rule; in the source, an uncached inherited name also makes `respond` be called, with `data` undefined rather than a cached address.
- Client.AnswerQuery: it reads through Sync.Cache.GetRecord, so it stays silent for an uncached inherited name, for which the source calls `respond` with `data` undefined. What multicast-dns does with such an argument is not part of this model.

## Findings

| source | as written | input that shows it | evidently intended | confidence | as-written member | corrected member |
|---|---|---|---|---|---|---|
| src/util/cache.ts:41 | `records_from_server[k]` reads a property of a parsed JSON object, so it also finds members every object inherits (`toString`, `constructor`, ...), and their `address` is undefined | server store `{}`, client `--name toString`: the start without force fails with a conflict | only a name the server actually holds with another address is a conflict; Sync.ConflictOnlyOnDifferentAddress proves this of the corrected test, which Sync.FindConflict, Sync.StartRound, Sync.Cache.Start and Client.ClientMain use (Sync.InheritedNameFalseConflict shows the single-name case) | high; not executed | Sync.InheritedNameStartDiverges | Sync.FindConflict |
| src/commands/client.ts:79-80 | `cache.getRecord(q.name)` is a property read on a parsed JSON object, so an inherited member name counts as a hit, and `record.address` is undefined | empty cache, a type-A question for `toString`: `respond` is called with an answer whose `data` is undefined (what multicast-dns does with it is not modelled) | only cached names are answered, with their cached address; Client.ResponsesSound and Client.ResponsesComplete prove this of the corrected rule, which Client.AnswerQuery uses (Client.RespondAgreesExceptInherited shows the two rules agree elsewhere) | medium; not executed | Client.InheritedNameAnsweredAsWritten | Client.Respond |
