# Deferred Tebex command delivery for a Bedrock server, modelled in Dafny

This project is a Dafny model of the `TebexIntegration` class of `tebexAPI.js`. The class
polls the Tebex plugin API for purchased commands. A command for a player who is online runs
at once and is then acknowledged with a DELETE. A command for a player who is away is saved
in a world dynamic property, and it runs on that player's next initial spawn.

The model has one Dafny module per part of the integration:

- `Wrappers`: `Option`, `Result`.
- `Seqs`: `FirstIndex`, the linear search behind `Array.prototype.find`.
- `Text`: the decimal rendering of an id inside a template literal (`Decimal`), and
  `String.prototype.replace` with a string pattern, which replaces the first occurrence only
  (`ReplaceFirst`).
- `Identity`: the `tebexIdToUsername` map as an insertion-ordered sequence of
  (id, name) entries. `Map.set` is `Upsert` (an existing key keeps its place) and the
  spawn handler's scan by name is `FindByName`.
- `Remote`: the queue records, an HTTP reply (no reply at all, or a status and a parsed
  body), the status handling of `makeTebexRequest` (`Classify`), the null fallback of
  `getTebexPlayerId` (`ResolvePlayerId`) and the guard of `deleteCommands`
  (`DeleteRequestFor`).
- `Store`: the storage key `${id}_tebex_commands_${online|offline}` and the stored value.
  A stored value (`Payload`) is either a serialised batch or text that does not parse back
  into one.
- `Delivery`: the whole behaviour as functions of one value `State`: the dynamic
  properties, the identity map, the log of command strings issued to players, and the log
  of DELETE requests sent. It defines `Routed` (`processCommands`), `Executed`
  (`executeCommands`), `FlushedChannel`/`Spawned` (the `playerSpawn` handler), `Joined`
  (the `playerJoin` handler) and `Passed` (`checkCommandQueue`), plus the lemmas about them.
- `Integration`: the class `TebexIntegration`. Its fields are those four parts of the
  state. Its methods have the source's loops and early returns. Each is proved to leave
  `Snapshot()` equal to the matching `Delivery` function of the old snapshot.

The outside world is reduced to data:

- `present`: the set of names of online players (`world.getPlayers({ name })`).
- `accepts`: says whether `runCommandAsync` accepts a command string. The outcome is logged
  with each attempt.
- The reply to `/queue`, and `online(i)`: the reply to the i-th online-commands request of
  a pass.
- The reply to `/user/{name}` for a join.

Ids are `nat`. The Tebex plugin API's ids are numeric, so `0` is the only falsy id. The
`nat` ids are unbounded, while a JavaScript number is exact only up to 2^53 and
`${id}` writes ids from 1e21 upward in exponent form. The model assumes ids stay below
both limits (see "## Left out").

The model follows the code as written, including these behaviours of it that a reader
might not expect:

- The storage key puts `_tebex_commands_` between the id and the channel:
  `${id}_tebex_commands_offline` / `_online`.
- A stored value that does not parse is left in place. A thrown `JSON.parse` skips the
  `setDynamicProperty(key, undefined)`, so the value is not loaded back as empty and cleared.
- A failed online-commands fetch is rethrown to the catch around the whole loop. It ends
  the pass for every later player; the two channels are not independent.
- In the flush the order is execute, then DELETE, then clear the key.
- A stored batch can be delivered twice. Storing a batch for an absent player (line 76)
  sends no DELETE, so the remote queue still lists it. A later pass can find the player
  present, for example when the spawn flush was skipped because the identity map was still
  empty after a restart. That pass runs the batch and sends a DELETE (lines 72-74), but it
  never clears the stored key. The player's next initial spawn runs the stored copy again
  and sends a second DELETE (lines 124-129). A deferred-delivery queue should never leave a
  command both executed and still buffered, and this one does. `Delivery.StoredOfflineBatchIsReplayed` proves that this
  happens as written.
- The identity map is keyed by id (lines 87 and 110), not by name. A second id seen with a
  name the map already holds is added beside the first. The spawn scan (lines 117-118)
  takes the older entry. So the player's spawn does not flush a batch stored under the
  newer id for as long as the older entry still holds the name.
  `Delivery.NewerIdForKnownNameIsNotFlushed` proves this for one spawn. A later `set` of
  the older id to another name, or a restart that empties the map, lets the newer id's
  batch be flushed again.

The offline batch for a queued player is looked up again with
`queueData.players.find(p => p.id === tebexId)` (line 90). So it is the batch of the first
entry with that id. The model follows this as written (`Remote.OfflineBatch`).
`Remote.OfflineBatchOwn` proves that this is the player's own batch whenever no earlier
entry shares its id. `Remote.OfflineBatchUnique` draws the corollary for a queue whose ids
are unique.

## Model

| member | source | states |
|---|---|---|
| Text.ReplaceFirst | tebexAPI.js:47 | With no `{username}` in the template, the result is the template. Otherwise the first occurrence, and only that one, is replaced by the name; text before and after it is kept verbatim. |
| Text.Decimal | tebexAPI.js:70 | The rendering of an id is a non-empty string of decimal digits that denotes the id (most significant digit first) and has no leading zero. It is one digit long exactly when the id is below 10. |
| Text.DecimalInjective | tebexAPI.js:70 | Two ids render to the same numeral exactly when they are equal. |
| Store.StorageKey | tebexAPI.js:70 | The key `${tebexId}_tebex_commands_${channel}`, built the same way by the flush at line 122. No contract of its own; characterised by StorageKeyInjective and, for id 42, by AliceKey. |
| Store.Encode | tebexAPI.js:76 | `JSON.stringify(commands)`. No contract of its own; characterised by DecodeEncode. |
| Store.Decode | tebexAPI.js:126 | `JSON.parse` of a stored value, failing on text that is no serialised batch. No contract of its own; characterised by DecodeEncode. |
| Store.IsTruthy | tebexAPI.js:124 | `if (commandsStr)`: only empty text is falsy. No contract of its own; DecodeEncode proves that a stored batch is truthy. |
| Store.StorageKeyInjective | tebexAPI.js:70 | Two (id, channel) pairs share a storage key exactly when they are equal: the two channels of one id never collide, and neither do different ids. The flush (line 122) builds its keys with the same function. |
| Store.DecodeEncode | tebexAPI.js:76 | A stored batch parses back to the same commands (line 126) and is never falsy. |
| Remote.Classify | tebexAPI.js:23-31 | Status 200 gives the parsed body (JSON null included) and 204 gives null. Any other status gives an error carrying that status. No reply, or an unparsable 200 body, is an error too. |
| Remote.ResolvePlayerId | tebexAPI.js:34-42 | An id is returned exactly when the lookup answered 200 with a body carrying an id, and it is that id. Every error, null body or missing id gives null, never an exception. |
| Remote.DeleteRequestFor | tebexAPI.js:56-60 | A DELETE is sent exactly when the id list is present and non-empty, and its body is that list. |
| Remote.CommandIds | tebexAPI.js:69 | The id list has one id per command, in order: `commands.map(cmd => cmd.id)`. |
| Remote.PlayersOf | tebexAPI.js:84 | `queueData?.players ?? []`: the queue's players, or none for a null body. No contract of its own; used by Passed. |
| Remote.OfflineBatch | tebexAPI.js:90-92 | `queueData.players.find(p => p.id === tebexId)?.commands`, as written: the commands of the first entry with the id. No contract of its own; characterised by OfflineBatchOwn, OfflineBatchUnique and OfflineBatchPrefix. |
| Remote.OfflineBatchOwn | tebexAPI.js:90-92 | The `find` by id returns a queued player's own inline commands when no earlier entry shares its id. |
| Remote.OfflineBatchUnique | tebexAPI.js:90-92 | When no two queue entries share an id, the `find` for every entry returns that entry's own inline commands. |
| Remote.OfflineBatchPrefix | tebexAPI.js:90 | The `find` for an entry's id does not depend on the entries after it. |
| Identity.Upsert | tebexAPI.js:87 | `tebexIdToUsername.set(id, name)`, also used at line 110. No contract of its own; characterised by UpsertSemantics. |
| Identity.UpsertSemantics | tebexAPI.js:87 | After `set`, the id maps to the new name and every other id maps to what it did before. An existing id keeps its position, and a new one is appended after all others. Unique ids stay unique. |
| Identity.FindByName | tebexAPI.js:117-118 | The scan returns null exactly when no entry has the name. Otherwise it returns the id of the first entry, in insertion order, with that name. |
| Identity.FindByNameAppend | tebexAPI.js:117-118 | Adding an entry after one that already has the name does not change what the scan returns. |
| Identity.UpsertNewKeyKeepsFindByName | tebexAPI.js:87-118 | Setting an id the map does not hold leaves the scan for a name the map already holds returning the same, older id. |
| Identity.UpsertAllLookup | tebexAPI.js:86-87 | After a run of `set` calls, each id maps to the name of its last `set`. An id that was never set keeps its earlier name. |
| Delivery.Attempts | tebexAPI.js:44-54 | The attempts `executeCommands` makes: exactly one per command. Each attempt is characterised by AttemptsAt and the order by AttemptsAppend. |
| Delivery.Executed | tebexAPI.js:44-54 | `executeCommands` as a state change: the issued log grows by Attempts. No contract of its own; characterised by AttemptsAt, and the loop of ExecuteCommands is proved equal to it. |
| Delivery.DeleteLogged | tebexAPI.js:56-65 | `deleteCommands` as a state change: the DELETE log grows by what DeleteRequestFor gives. No contract of its own; characterised by DeleteRequestFor. |
| Delivery.Routed | tebexAPI.js:67-79 | `processCommands`. No contract of its own; characterised by RoutingIsExclusive and RoutingKeepsOtherBatches. |
| Delivery.RoutedIfAny | tebexAPI.js:91-98 | `if (data?.commands?.length) processCommands(...)`, for both channels. No contract of its own; characterised by StepRoutesOfflineFirst. |
| Delivery.FlushedChannel | tebexAPI.js:122-131 | One iteration of the flush loop. No contract of its own; characterised by FlushedChannelEffect, FlushedChannelKeepsOther and StoredBatchIsDeliveredOnSpawn. |
| Delivery.FlushedAll | tebexAPI.js:121-133 | The flush loop over a list of channels, in list order. No contract of its own; characterised by SpawnFlushesOfflineThenOnline. |
| Delivery.Spawned | tebexAPI.js:114-134 | The `playerSpawn` handler. No contract of its own; characterised by SpawnGuards, SpawnFlushesOfflineThenOnline and SpawnKeepsOtherIdBatches. |
| Delivery.Joined | tebexAPI.js:107-112 | The `playerJoin` handler. No contract of its own; characterised by JoinRemembersResolvedId. |
| Delivery.Step | tebexAPI.js:86-99 | One iteration of the queue loop for a given player, offline batch and online reply. No contract of its own; characterised by StepRoutesOfflineFirst. |
| Delivery.PlayerStep | tebexAPI.js:86-99 | The iteration for `players[i]`, with its offline batch looked up in the queue (line 90) and its online reply. No contract of its own; characterised by StepRoutesOfflineFirst and PlayerStepPrefix. |
| Delivery.PassFrom | tebexAPI.js:86-103 | The queue loop from position i, ending at the first failed online fetch. No contract of its own; characterised by PassFromIdentities and PassStopsAtFailure. |
| Delivery.Passed | tebexAPI.js:81-104 | `checkCommandQueue`. No contract of its own; characterised by PassFailureChangesNothing, PassRemembersReachedPlayers and PassKeepsUniqueKeys. |
| Delivery.AttemptsAt | tebexAPI.js:44-54 | Command k of a batch is attempted as its template with `{username}` replaced by the player's name, whatever the outcomes of the earlier commands. There is exactly one attempt per command, in list order. |
| Delivery.RoutingIsExclusive | tebexAPI.js:67-79 | Routing either executes or stores, never both. For a present player, every command is attempted and one DELETE of exactly the batch's ids is sent (none for an empty batch); no property changes. For an absent player, there is no attempt and no DELETE. One property is written instead: the key gains the batch, replacing any earlier value, and no other key changes. |
| Delivery.RoutingKeepsOtherBatches | tebexAPI.js:76 | Storing under one (id, channel) leaves every other (id, channel)'s stored value, and its presence, unchanged. |
| Delivery.SpawnGuards | tebexAPI.js:114-119 | A spawn that is not initial changes nothing. So does a player with no identity entry, or whose first entry has id 0. |
| Delivery.FlushedChannelEffect | tebexAPI.js:122-133 | Flushing one channel runs its stored batch, acknowledges it when it is non-empty, and clears the key. A missing, falsy or unparsable value changes nothing. |
| Delivery.SpawnFlushesOfflineThenOnline | tebexAPI.js:114-134 | On an initial spawn with a known non-zero id, the offline batch's attempts come before the online batch's, and likewise their DELETEs. Exactly the keys whose value parsed are removed: an unparsable value stays, and a stored empty batch is removed with no attempt and no DELETE. |
| Delivery.StoredBatchIsDeliveredOnSpawn | tebexAPI.js:122-129 | A batch stored for an absent player is exactly what the later flush of that channel runs and acknowledges, and the flush removes its key. |
| Delivery.JoinRemembersResolvedId | tebexAPI.js:107-111 | A resolved non-zero id now maps to the joining player and other ids are untouched. A resolved id of 0, which is falsy, and a failed or empty lookup leave everything unchanged. |
| Delivery.PassFailureChangesNothing | tebexAPI.js:82-84 | When the `/queue` request fails, the identity map, every property and both logs are unchanged. |
| Delivery.StepRoutesOfflineFirst | tebexAPI.js:86-99 | For each player, the name is upserted before any routing. Offline routing is done before the online reply is looked at. A failed online fetch keeps the offline routing and stops the pass. A null reply routes nothing more. A fetched online batch is routed on top of the state the offline routing left. |
| Delivery.PassFromIdentities | tebexAPI.js:86-100 | The identity map after a pass is the result of upserting exactly the players the pass reached, in queue order. The pass reaches up to and including the first whose online fetch fails. |
| Delivery.PassRemembersReachedPlayers | tebexAPI.js:87 | After a successful `/queue` request, each reached player's id maps to the name in its last reached queue entry. |
| Delivery.PassStopsAtFailure | tebexAPI.js:96-103 | A failed online fetch for player k aborts the rest of the pass: the result is the same as if the queue ended at player k. |
| Delivery.PlayerStepPrefix | tebexAPI.js:90 | The step for a queue entry does not depend on the entries after it. |
| Delivery.PassKeepsUniqueKeys | tebexAPI.js:86-87 | A pass never puts a second entry for an id into the identity map. |
| Delivery.StoredOfflineBatchIsReplayed | tebexAPI.js:67-134 | An offline batch is stored while its player is away. A later routing with the player present runs it and sends one DELETE, but the stored copy stays readable. The next initial spawn runs the same attempts a second time and sends a second DELETE, then handles the online key. |
| Delivery.SpawnKeepsOtherIdBatches | tebexAPI.js:114-134 | An initial spawn whose scan finds one id leaves the stored value under every other id, and whether it is there, unchanged. |
| Delivery.NewerIdForKnownNameIsNotFlushed | tebexAPI.js:87-122 | A new id set with a name the map already holds maps to that name, but the scan by name still returns the older id. The initial spawn then leaves the newer id's stored value, and whether it is there, unchanged. |
| Delivery.AliceScenario | tebexAPI.js:67-134 | Account 42 / Alice, away: `give {username} diamond` (id 1) is stored under `42_tebex_commands_offline`. On her initial spawn it is issued as `give Alice diamond`, one DELETE of ids [1] is sent and the key is cleared. |
| Integration.TebexIntegration.constructor | tebexAPI.js:6-10 | The identity map and both logs start empty. The world's dynamic properties are what the world already holds. |
| Integration.TebexIntegration.ExecuteCommands | tebexAPI.js:44-54 | The loop appends exactly the attempts of `Delivery.Attempts` (see AttemptsAt) and changes nothing else. |
| Integration.TebexIntegration.DeleteCommands | tebexAPI.js:56-65 | The DELETE log grows by the request `DeleteRequestFor` gives, if any, and nothing else changes. A failed request is swallowed, so its reply plays no part. |
| Integration.TebexIntegration.ProcessCommands | tebexAPI.js:67-79 | The new state is `Routed` of the old one (see RoutingIsExclusive). |
| Integration.TebexIntegration.VisitPlayer | tebexAPI.js:86-99 | One loop iteration moves the state as `PlayerStep` does, and reports whether the online fetch failed. |
| Integration.TebexIntegration.CheckCommandQueue | tebexAPI.js:81-104 | The new state is `Passed` of the old one, and the identity map keeps unique ids. |
| Integration.TebexIntegration.OnPlayerJoin | tebexAPI.js:107-112 | The new state is `Joined` of the old one, and the identity map keeps unique ids. |
| Integration.TebexIntegration.OnPlayerSpawn | tebexAPI.js:114-135 | The channel loop leaves the state as `Spawned` describes (see SpawnFlushesOfflineThenOnline). |

## Left out

- The HTTP transport (`http.request`, URL building, headers, secret, timeout). Each request is represented by its reply.
- The reply to a DELETE is not an input: `deleteCommands` swallows every failure, so the reply affects only console output.
- `JSON.parse` and `JSON.stringify`. A stored value is either a serialised batch or text that does not parse back into one. Stored JSON that parses but is not an array of commands is treated as unparsable; only other code could write such a value.
- A queued command whose `command` field is missing is not modelled (it would throw inside the per-command try and be skipped).
- `encodeURIComponent` on the name in the `/user/{name}` request: the lookup is represented by its reply alone.
- The special `$` patterns of `String.prototype.replace`. A player name is inserted literally.
- The `@minecraft/server` API. `getPlayers({ name })` is membership in a set of present names, `runCommandAsync` is an oracle on the issued string, and `get`/`setDynamicProperty` is the `properties` map. `setDynamicProperty` is assumed never to throw (for example on the property size limit).
- Event subscription, `system.runInterval`, asynchronous interleaving: overlapping passes, and a spawn handled while a join's lookup is still in flight. Each handler body is one sequential method. The presence set and the oracle are fixed for the duration of one call.
- Ids are numbers. A string id would render as itself in the storage key, not as a numeral.
- Text.Decimal: ids are unbounded naturals. A JavaScript number id above 2^53 is not exact, and `${id}` renders ids from 1e21 upward in exponent form; neither is modelled.
- `console` logging.
- config.js holds only constants (secret, base URL, interval, timeout) and no logic.
- Module-level instantiation and `initialize` (tebexAPI.js:106, 137-143).
