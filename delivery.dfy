/** The deferred-delivery logic of `TebexIntegration` as functions of one value `State`:
    routing a batch (`processCommands`), running it (`executeCommands`), acknowledging it
    (`deleteCommands`), the queue pass (`checkCommandQueue`) and the two event handlers.
    The world is reduced to data: a set of present player names, an oracle saying whether
    `runCommandAsync` accepts a command string, and the replies of the HTTP requests. */
module Delivery {
  import opened Wrappers
  import opened Text
  import opened Identity
  import opened Remote
  import opened Store

  const Placeholder := "{username}"

  /** One call of `player.runCommandAsync`: who, which queued command, the string issued,
      and whether it was accepted. */
  datatype Attempt = Attempt(player: string, commandId: CommandId, text: string, accepted: bool)

  /** Everything the integration changes: the world's dynamic properties, the identity
      map, and the logs of issued commands and of DELETE requests sent. */
  datatype State = State(
    properties: map<string, Payload>,
    identities: seq<(TebexId, string)>,
    issued: seq<Attempt>,
    deleteRequests: seq<seq<CommandId>>)

  // ---- Executor and acknowledgement ----

  function AttemptOf(player: string, c: QueueCommand, accepts: string -> bool): Attempt {
    var text := ReplaceFirst(c.command, Placeholder, player);
    Attempt(player, c.id, text, accepts(text))
  }

  /** The attempts `executeCommands` makes, in list order, one per command. */
  function Attempts(player: string, commands: seq<QueueCommand>, accepts: string -> bool): (r: seq<Attempt>)
    ensures |r| == |commands|
  {
    if commands == [] then []
    else [AttemptOf(player, commands[0], accepts)] + Attempts(player, commands[1..], accepts)
  }

  /** Command `k` is attempted, as its template with the player's name substituted, whatever
      became of the commands before it. */
  lemma {:induction false} AttemptsAt(player: string, commands: seq<QueueCommand>, accepts: string -> bool, k: nat)
    requires k < |commands|
    ensures Attempts(player, commands, accepts)[k] ==
            Attempt(player, commands[k].id, ReplaceFirst(commands[k].command, Placeholder, player),
                    accepts(ReplaceFirst(commands[k].command, Placeholder, player)))
  {
    if k > 0 {
      AttemptsAt(player, commands[1..], accepts, k - 1);
    }
  }

  lemma {:induction false} AttemptsAppend(player: string, commands: seq<QueueCommand>, c: QueueCommand, accepts: string -> bool)
    ensures Attempts(player, commands + [c], accepts) == Attempts(player, commands, accepts) + [AttemptOf(player, c, accepts)]
    decreases |commands|
  {
    if commands == [] {
      assert commands + [c] == [c];
    } else {
      assert (commands + [c])[1..] == commands[1..] + [c];
      AttemptsAppend(player, commands[1..], c, accepts);
    }
  }

  function Executed(st: State, player: string, commands: seq<QueueCommand>, accepts: string -> bool): State {
    st.(issued := st.issued + Attempts(player, commands, accepts))
  }

  function DeleteLogged(st: State, ids: Option<seq<CommandId>>): State {
    match DeleteRequestFor(ids)
    case None => st
    case Some(body) => st.(deleteRequests := st.deleteRequests + [body])
  }

  /** The DELETE requests acknowledging a batch: one, or none for an empty batch. */
  function Acknowledgement(commands: seq<QueueCommand>): seq<seq<CommandId>> {
    if commands == [] then [] else [CommandIds(commands)]
  }

  // ---- Routing ----

  /** `processCommands`: run now and acknowledge when the player is present, otherwise store. */
  function Routed(st: State, id: TebexId, name: string, commands: seq<QueueCommand>, ch: Channel,
                  present: set<string>, accepts: string -> bool): State
  {
    if name in present then DeleteLogged(Executed(st, name, commands, accepts), Some(CommandIds(commands)))
    else st.(properties := st.properties[StorageKey(id, ch) := Encode(commands)])
  }

  /** Run and acknowledge, or store, never both. A present player gets every command attempted
      and one DELETE of exactly the batch's ids, with no property written; an absent one gets
      exactly one property write (overwriting any earlier batch under that key), no attempt and
      no DELETE. The identity map is untouched either way. */
  lemma RoutingIsExclusive(st: State, id: TebexId, name: string, commands: seq<QueueCommand>, ch: Channel,
                           present: set<string>, accepts: string -> bool)
    ensures var r := Routed(st, id, name, commands, ch, present, accepts);
      && r.identities == st.identities
      && (name in present ==>
            && r.properties == st.properties
            && r.issued == st.issued + Attempts(name, commands, accepts)
            && r.deleteRequests == st.deleteRequests + Acknowledgement(commands))
      && (name !in present ==>
            && r.issued == st.issued
            && r.deleteRequests == st.deleteRequests
            && r.properties.Keys == st.properties.Keys + {StorageKey(id, ch)}
            && Decode(r.properties[StorageKey(id, ch)]) == Some(commands)
            && forall k :: k in st.properties && k != StorageKey(id, ch) ==> r.properties[k] == st.properties[k])
  {
    DecodeEncode(commands);
  }

  /** Routing one (id, channel) never disturbs the batch stored for another (id, channel),
      the other channel of the same id included. */
  lemma RoutingKeepsOtherBatches(st: State, id: TebexId, name: string, commands: seq<QueueCommand>, ch: Channel,
                                 present: set<string>, accepts: string -> bool, other: TebexId, otherCh: Channel)
    requires (other, otherCh) != (id, ch)
    ensures var r := Routed(st, id, name, commands, ch, present, accepts);
            var k := StorageKey(other, otherCh);
            (k in r.properties <==> k in st.properties) && (k in st.properties ==> r.properties[k] == st.properties[k])
  {
    StorageKeyInjective(other, otherCh, id, ch);
  }

  // ---- Join-time flush ----

  /** The batch the flush reads back under an (id, channel) key, if the stored value is
      truthy and parses. */
  function PendingBatch(properties: map<string, Payload>, id: TebexId, ch: Channel): Option<seq<QueueCommand>> {
    var key := StorageKey(id, ch);
    if key in properties && IsTruthy(properties[key]) then Decode(properties[key]) else None
  }

  /** One iteration of the flush loop: run the stored batch, acknowledge it, clear the key.
      A value that is missing, falsy or unparsable is left as it is. */
  function FlushedChannel(st: State, id: TebexId, player: string, ch: Channel, accepts: string -> bool): State {
    match PendingBatch(st.properties, id, ch)
    case None => st
    case Some(commands) =>
      var s := DeleteLogged(Executed(st, player, commands, accepts), Some(CommandIds(commands)));
      s.(properties := s.properties - {StorageKey(id, ch)})
  }

  function FlushedAll(st: State, id: TebexId, player: string, channels: seq<Channel>, accepts: string -> bool): State
    decreases |channels|
  {
    if channels == [] then st
    else FlushedAll(FlushedChannel(st, id, player, channels[0], accepts), id, player, channels[1..], accepts)
  }

  const FlushOrder: seq<Channel> := [Offline, Online]

  /** The `playerSpawn` handler. */
  function Spawned(st: State, player: string, initialSpawn: bool, accepts: string -> bool): State {
    if !initialSpawn then st
    else match FindByName(st.identities, player)
      case None => st
      case Some(id) => if id == 0 then st else FlushedAll(st, id, player, FlushOrder, accepts)
  }

  /** A respawn, a player with no identity entry, or a falsy id changes nothing. */
  lemma SpawnGuards(st: State, player: string, initialSpawn: bool, accepts: string -> bool)
    requires !initialSpawn || FindByName(st.identities, player) in {None, Some(0)}
    ensures Spawned(st, player, initialSpawn, accepts) == st
  {
  }

  /** The commands the flush would take from a channel (none when nothing usable is stored). */
  function Pending(properties: map<string, Payload>, id: TebexId, ch: Channel): seq<QueueCommand> {
    PendingBatch(properties, id, ch).GetOr([])
  }

  /** The keys the flush clears: those whose value parses. */
  function Drained(properties: map<string, Payload>, id: TebexId): set<string> {
    (if PendingBatch(properties, id, Offline).Some? then {StorageKey(id, Offline)} else {}) +
    (if PendingBatch(properties, id, Online).Some? then {StorageKey(id, Online)} else {})
  }

  /** The effect of flushing one channel, stated field by field. */
  lemma FlushedChannelEffect(st: State, id: TebexId, player: string, ch: Channel, accepts: string -> bool)
    ensures var r := FlushedChannel(st, id, player, ch, accepts);
      var cs := Pending(st.properties, id, ch);
      && r.identities == st.identities
      && r.issued == st.issued + Attempts(player, cs, accepts)
      && r.deleteRequests == st.deleteRequests + Acknowledgement(cs)
      && r.properties == if PendingBatch(st.properties, id, ch).Some? then st.properties - {StorageKey(id, ch)}
                         else st.properties
  {
    if PendingBatch(st.properties, id, ch).None? {
      assert Attempts(player, [], accepts) == [];
      assert st.issued + [] == st.issued;
    }
  }

  /** Flushing one channel leaves what the flush would read for the other channel. */
  lemma FlushedChannelKeepsOther(st: State, id: TebexId, player: string, ch: Channel, accepts: string -> bool, other: Channel)
    requires other != ch
    ensures PendingBatch(FlushedChannel(st, id, player, ch, accepts).properties, id, other) == PendingBatch(st.properties, id, other)
  {
    StorageKeyInjective(id, ch, id, other);
  }

  /** The initial spawn of a player whose first identity entry has a non-zero id runs the
      stored offline batch, then the stored online batch, acknowledges each non-empty one,
      and clears exactly the keys whose value parsed: an unparsable value stays in place, a
      stored empty batch is cleared with no attempt and no DELETE. */
  lemma SpawnFlushesOfflineThenOnline(st: State, player: string, accepts: string -> bool, id: TebexId)
    requires FindByName(st.identities, player) == Some(id) && id != 0
    ensures var r := Spawned(st, player, true, accepts);
      var off := Pending(st.properties, id, Offline);
      var on := Pending(st.properties, id, Online);
      && r.identities == st.identities
      && r.issued == st.issued + Attempts(player, off, accepts) + Attempts(player, on, accepts)
      && r.deleteRequests == st.deleteRequests + Acknowledgement(off) + Acknowledgement(on)
      && r.properties == st.properties - Drained(st.properties, id)
  {
    var s1 := FlushedChannel(st, id, player, Offline, accepts);
    var s2 := FlushedChannel(s1, id, player, Online, accepts);
    assert FlushOrder[1..] == [Online];
    assert Spawned(st, player, true, accepts) == FlushedAll(s1, id, player, [Online], accepts) == s2;
    FlushedChannelEffect(st, id, player, Offline, accepts);
    FlushedChannelKeepsOther(st, id, player, Offline, accepts, Online);
    FlushedChannelEffect(s1, id, player, Online, accepts);
    assert s2.properties == st.properties - Drained(st.properties, id);
  }

  /** A batch stored for an absent player is exactly what the flush of that channel later
      runs and acknowledges, and the flush removes it. */
  lemma StoredBatchIsDeliveredOnSpawn(st: State, id: TebexId, name: string, commands: seq<QueueCommand>,
                                      ch: Channel, present: set<string>, accepts: string -> bool)
    requires name !in present
    ensures var r := FlushedChannel(Routed(st, id, name, commands, ch, present, accepts), id, name, ch, accepts);
      && r.issued == st.issued + Attempts(name, commands, accepts)
      && r.deleteRequests == st.deleteRequests + Acknowledgement(commands)
      && r.properties == st.properties - {StorageKey(id, ch)}
      && r.identities == st.identities
  {
    DecodeEncode(commands);
    var key := StorageKey(id, ch);
    assert st.properties[key := Encode(commands)] - {key} == st.properties - {key};
  }

  // ---- Join ----

  /** The `playerJoin` handler: remember the id the lookup returns, when it is truthy. */
  function Joined(st: State, player: string, reply: Reply<Option<TebexId>>): State {
    match ResolvePlayerId(reply)
    case Some(id) => if id != 0 then st.(identities := Upsert(st.identities, id, player)) else st
    case None => st
  }

  /** A resolved non-zero id now maps to the joining player and nothing else changes;
      a resolved id of 0 (falsy), and any failed or empty lookup, leave the state as it was. */
  lemma JoinRemembersResolvedId(st: State, player: string, reply: Reply<Option<TebexId>>)
    ensures var r := Joined(st, player, reply);
      && r.properties == st.properties && r.issued == st.issued && r.deleteRequests == st.deleteRequests
      && (match ResolvePlayerId(reply)
          case Some(id) =>
            if id != 0 then
              && Lookup(r.identities, id) == Some(player)
              && forall other :: other != id ==> Lookup(r.identities, other) == Lookup(st.identities, other)
            else r == st
          case None => r == st)
  {
    match ResolvePlayerId(reply)
    case Some(id) => UpsertSemantics(st.identities, id, player);
    case None =>
  }

  // ---- Queue pass ----

  datatype Progress = Continue(state: State) | Stop(state: State)

  /** `if (data?.commands?.length) processCommands(...)`. */
  function RoutedIfAny(st: State, id: TebexId, name: string, commands: seq<QueueCommand>, ch: Channel,
                       present: set<string>, accepts: string -> bool): State
  {
    if |commands| > 0 then Routed(st, id, name, commands, ch, present, accepts) else st
  }

  /** One iteration of the pass for the queued player `p`: remember the name, route the
      offline batch, then route the online batch from `reply`; a failed fetch stops the pass. */
  function Step(st: State, p: QueuedPlayer, offline: seq<QueueCommand>, reply: Reply<seq<QueueCommand>>,
                present: set<string>, accepts: string -> bool): Progress
  {
    var remembered := st.(identities := Upsert(st.identities, p.id, p.name));
    var offlineDone := RoutedIfAny(remembered, p.id, p.name, offline, Offline, present, accepts);
    match Classify(reply)
    case Err(_) => Stop(offlineDone)
    case Ok(None) => Continue(offlineDone)
    case Ok(Some(commands)) => Continue(RoutedIfAny(offlineDone, p.id, p.name, commands, Online, present, accepts))
  }

  /** The step for `players[i]`, whose offline batch is looked up in the whole queue and
      whose online reply is `online(i)`, the reply to the pass's i-th online-commands request. */
  function PlayerStep(st: State, players: seq<QueuedPlayer>, i: nat, online: nat -> Reply<seq<QueueCommand>>,
                      present: set<string>, accepts: string -> bool): Progress
    requires i < |players|
  {
    Step(st, players[i], OfflineBatch(players, players[i].id), online(i), present, accepts)
  }

  function PassFrom(st: State, players: seq<QueuedPlayer>, i: nat, online: nat -> Reply<seq<QueueCommand>>,
                    present: set<string>, accepts: string -> bool): State
    decreases |players| - i
  {
    if i >= |players| then st
    else match PlayerStep(st, players, i, online, present, accepts)
      case Stop(s) => s
      case Continue(s) => PassFrom(s, players, i + 1, online, present, accepts)
  }

  /** `checkCommandQueue`. */
  function Passed(st: State, queue: Reply<seq<QueuedPlayer>>, online: nat -> Reply<seq<QueueCommand>>,
                  present: set<string>, accepts: string -> bool): State
  {
    match Classify(queue)
    case Err(_) => st
    case Ok(body) => PassFrom(st, PlayersOf(body), 0, online, present, accepts)
  }

  /** A failed `/queue` request leaves the identity map, the properties and the logs as they were. */
  lemma PassFailureChangesNothing(st: State, queue: Reply<seq<QueuedPlayer>>, online: nat -> Reply<seq<QueueCommand>>,
                                  present: set<string>, accepts: string -> bool)
    requires Classify(queue).Err?
    ensures Passed(st, queue, online, present, accepts) == st
  {
  }

  /** Within one player's step the name is remembered before any routing, and the offline
      batch is routed before the online reply is looked at: a failed online fetch keeps the
      offline routing and only stops what follows, and a fetched online batch is routed on
      top of the state the offline routing left. */
  lemma StepRoutesOfflineFirst(st: State, players: seq<QueuedPlayer>, i: nat, online: nat -> Reply<seq<QueueCommand>>,
                               present: set<string>, accepts: string -> bool)
    requires i < |players|
    ensures var p := players[i];
      var offlineDone := RoutedIfAny(st.(identities := Upsert(st.identities, p.id, p.name)), p.id, p.name,
                                     OfflineBatch(players, p.id), Offline, present, accepts);
      var step := PlayerStep(st, players, i, online, present, accepts);
      && step.state.identities == Upsert(st.identities, p.id, p.name)
      && (step.Stop? <==> Classify(online(i)).Err?)
      && (step.Stop? ==> step.state == offlineDone)
      && (Classify(online(i)) == Ok(None) ==> step.state == offlineDone)
      && (Classify(online(i)).Ok? && Classify(online(i)).value.Some? ==>
            step == Continue(RoutedIfAny(offlineDone, p.id, p.name, Classify(online(i)).value.value,
                                         Online, present, accepts)))
  {
  }

  /** The number of players whose step the pass starts, counting from `i`: up to and
      including the first whose online fetch fails. */
  function ReachedFrom(players: seq<QueuedPlayer>, online: nat -> Reply<seq<QueueCommand>>, i: nat): (n: nat)
    requires i <= |players|
    ensures i <= n <= |players|
    ensures i < |players| ==> i < n
    decreases |players| - i
  {
    if i == |players| then i
    else if Classify(online(i)).Err? then i + 1
    else ReachedFrom(players, online, i + 1)
  }

  /** The (id, name) pairs of the queue, in order. */
  function Pairs(players: seq<QueuedPlayer>): seq<(TebexId, string)> {
    seq(|players|, k requires 0 <= k < |players| => (players[k].id, players[k].name))
  }

  /** The pass leaves the identity map as the upserts of exactly the players it reached,
      in queue order; routing never touches the map. */
  lemma {:induction false} PassFromIdentities(st: State, players: seq<QueuedPlayer>, i: nat,
                                              online: nat -> Reply<seq<QueueCommand>>,
                                              present: set<string>, accepts: string -> bool)
    requires i <= |players|
    ensures PassFrom(st, players, i, online, present, accepts).identities
         == UpsertAll(st.identities, Pairs(players)[i..ReachedFrom(players, online, i)])
    decreases |players| - i
  {
    if i < |players| {
      var ps := Pairs(players);
      var n := ReachedFrom(players, online, i);
      var step := PlayerStep(st, players, i, online, present, accepts);
      StepRoutesOfflineFirst(st, players, i, online, present, accepts);
      assert ps[i..n][0] == (players[i].id, players[i].name);
      if step.Stop? {
        assert |ps[i..n]| == 1;
      } else {
        PassFromIdentities(step.state, players, i + 1, online, present, accepts);
        assert ps[i..n][1..] == ps[i + 1..n];
      }
    }
  }

  /** After a successful `/queue` request, every player the pass reached maps to the name of
      its last reached entry in the queue. */
  lemma PassRemembersReachedPlayers(st: State, queue: Reply<seq<QueuedPlayer>>, online: nat -> Reply<seq<QueueCommand>>,
                                    present: set<string>, accepts: string -> bool, k: nat)
    requires Classify(queue).Ok?
    requires var players := PlayersOf(Classify(queue).value);
      && k < ReachedFrom(players, online, 0)
      && forall j :: k < j < ReachedFrom(players, online, 0) ==> players[j].id != players[k].id
    ensures var players := PlayersOf(Classify(queue).value);
      Lookup(Passed(st, queue, online, present, accepts).identities, players[k].id) == Some(players[k].name)
  {
    var players := PlayersOf(Classify(queue).value);
    var n := ReachedFrom(players, online, 0);
    var ps := Pairs(players)[0..n];
    PassFromIdentities(st, players, 0, online, present, accepts);
    LastValueAt(ps, players[k].id, k);
    UpsertAllLookup(st.identities, ps, players[k].id);
  }

  /** The step for an entry does not depend on the entries after it. */
  lemma PlayerStepPrefix(st: State, players: seq<QueuedPlayer>, n: nat, i: nat,
                         online: nat -> Reply<seq<QueueCommand>>, present: set<string>, accepts: string -> bool)
    requires i < n <= |players|
    ensures PlayerStep(st, players[..n], i, online, present, accepts) == PlayerStep(st, players, i, online, present, accepts)
  {
    OfflineBatchPrefix(players, n, i);
    assert players[..n][i] == players[i];
  }

  /** A failed online fetch for `players[k]` aborts the pass: the players after `k` have no
      effect at all, as if the queue had ended with `players[k]`. */
  lemma {:induction false} PassStopsAtFailure(st: State, players: seq<QueuedPlayer>, i: nat, k: nat,
                                              online: nat -> Reply<seq<QueueCommand>>,
                                              present: set<string>, accepts: string -> bool)
    requires i <= k < |players|
    requires Classify(online(k)).Err?
    ensures PassFrom(st, players, i, online, present, accepts) == PassFrom(st, players[..k + 1], i, online, present, accepts)
    decreases k - i
  {
    var prefix := players[..k + 1];
    var step := PlayerStep(st, players, i, online, present, accepts);
    PlayerStepPrefix(st, players, k + 1, i, online, present, accepts);
    assert step.Stop? <==> Classify(online(i)).Err?;
    if i < k && step.Continue? {
      PassStopsAtFailure(step.state, players, i + 1, k, online, present, accepts);
    }
  }

  /** A pass keeps the identity map free of duplicate ids, as a JavaScript `Map` is. */
  lemma PassKeepsUniqueKeys(st: State, queue: Reply<seq<QueuedPlayer>>, online: nat -> Reply<seq<QueueCommand>>,
                            present: set<string>, accepts: string -> bool)
    requires UniqueKeys(st.identities)
    ensures UniqueKeys(Passed(st, queue, online, present, accepts).identities)
  {
    match Classify(queue)
    case Err(_) =>
    case Ok(body) =>
      var players := PlayersOf(body);
      PassFromIdentities(st, players, 0, online, present, accepts);
      UpsertAllKeepsUniqueKeys(st.identities, Pairs(players)[0..ReachedFrom(players, online, 0)]);
  }

  // ---- Behaviours of the code as written that a delivery queue should not have ----

  /** A batch stored while its player was away is not removed from the remote queue (no
      DELETE is sent when storing), so a later pass that finds the player present runs and
      acknowledges it again, yet leaves the stored copy in place. The player's next initial
      spawn then runs the stored copy a second time and sends a second DELETE of the same
      ids: the same offline batch is issued twice, then whatever the online key held. */
  lemma StoredOfflineBatchIsReplayed(st: State, id: TebexId, name: string, commands: seq<QueueCommand>,
                                     accepts: string -> bool)
    requires FindByName(st.identities, name) == Some(id) && id != 0
    ensures var stored := Routed(st, id, name, commands, Offline, {}, accepts);
      var executed := Routed(stored, id, name, commands, Offline, {name}, accepts);
      var spawned := Spawned(executed, name, true, accepts);
      var on := Pending(st.properties, id, Online);
      && executed.issued == st.issued + Attempts(name, commands, accepts)
      && executed.deleteRequests == st.deleteRequests + Acknowledgement(commands)
      && PendingBatch(executed.properties, id, Offline) == Some(commands)
      && spawned.issued == st.issued + Attempts(name, commands, accepts) + Attempts(name, commands, accepts)
                                     + Attempts(name, on, accepts)
      && spawned.deleteRequests == st.deleteRequests + Acknowledgement(commands) + Acknowledgement(commands)
                                   + Acknowledgement(on)
  {
    DecodeEncode(commands);
    var stored := Routed(st, id, name, commands, Offline, {}, accepts);
    var executed := Routed(stored, id, name, commands, Offline, {name}, accepts);
    RoutingKeepsOtherBatches(st, id, name, commands, Offline, {}, accepts, id, Online);
    assert PendingBatch(executed.properties, id, Online) == PendingBatch(st.properties, id, Online);
    SpawnFlushesOfflineThenOnline(executed, name, accepts, id);
  }

  /** The initial spawn of a player whose scan finds `id` leaves every value stored under
      another id as it was. */
  lemma SpawnKeepsOtherIdBatches(st: State, player: string, accepts: string -> bool,
                                 id: TebexId, other: TebexId, ch: Channel)
    requires FindByName(st.identities, player) == Some(id) && other != id
    ensures var r := Spawned(st, player, true, accepts);
      var key := StorageKey(other, ch);
      && (key in r.properties <==> key in st.properties)
      && (key in st.properties ==> r.properties[key] == st.properties[key])
  {
    if id != 0 {
      SpawnFlushesOfflineThenOnline(st, player, accepts, id);
      StorageKeyInjective(other, ch, id, Offline);
      StorageKeyInjective(other, ch, id, Online);
    }
  }

  /** The identity map is keyed by id, so a second account id seen with a name the map
      already holds is added beside the first rather than replacing it. The spawn handler
      takes the first entry with the name, so while the older entry still holds the name
      the spawn flushes the older id's keys and leaves what is stored under the newer id. */
  lemma NewerIdForKnownNameIsNotFlushed(st: State, player: string, accepts: string -> bool,
                                        olderId: TebexId, newerId: TebexId, ch: Channel)
    requires FindByName(st.identities, player) == Some(olderId)
    requires Lookup(st.identities, newerId) == None
    ensures var ids := Upsert(st.identities, newerId, player);
      var r := Spawned(st.(identities := ids), player, true, accepts);
      var key := StorageKey(newerId, ch);
      && Lookup(ids, newerId) == Some(player)
      && FindByName(ids, player) == Some(olderId)
      && (key in r.properties <==> key in st.properties)
      && (key in st.properties ==> r.properties[key] == st.properties[key])
  {
    var ids := Upsert(st.identities, newerId, player);
    UpsertSemantics(st.identities, newerId, player);
    UpsertNewKeyKeepsFindByName(st.identities, newerId, player, player);
    SpawnKeepsOtherIdBatches(st.(identities := ids), player, accepts, olderId, newerId, ch);
  }

  // ---- A worked scenario ----

  lemma AliceKey()
    ensures StorageKey(42, Offline) == "42_tebex_commands_offline"
  {
    assert Decimal(42) == "42" by {
      assert Decimal(4) == [DigitChar(4)];
      assert Decimal(42) == Decimal(4) + [DigitChar(2)];
    }
  }

  lemma AliceText()
    ensures ReplaceFirst("give {username} diamond", Placeholder, "Alice") == "give Alice diamond"
  {
    var template := "give {username} diamond";
    assert IsFirstOccurrence(template, Placeholder, 5) by {
      assert template[5..15] == Placeholder;
      forall j: nat | j < 5 ensures !OccursAt(template, Placeholder, j) {
        assert template[j] != '{';
      }
    }
    assert template[..5] + "Alice" + template[15..] == "give Alice diamond";
  }

  /** Account 42 belongs to Alice. Her offline command `give {username} diamond` (id 1)
      arrives while she is away, so it is stored under `42_tebex_commands_offline`. On her
      initial spawn it is issued as `give Alice diamond`, the key is cleared and one DELETE
      of ids [1] is sent. */
  lemma AliceScenario(accepts: string -> bool)
    ensures var cmd := QueueCommand(1, "give {username} diamond");
      var st := State(map[], [(42, "Alice")], [], []);
      var stored := Routed(st, 42, "Alice", [cmd], Offline, {}, accepts);
      var delivered := Spawned(stored, "Alice", true, accepts);
      && stored.properties == map["42_tebex_commands_offline" := Batch([cmd])]
      && delivered.issued == [Attempt("Alice", 1, "give Alice diamond", accepts("give Alice diamond"))]
      && delivered.deleteRequests == [[1]]
      && delivered.properties == map[]
  {
    var cmd := QueueCommand(1, "give {username} diamond");
    var st := State(map[], [(42, "Alice")], [], []);
    AliceKey();
    AliceText();
    var stored := Routed(st, 42, "Alice", [cmd], Offline, {}, accepts);
    var key := StorageKey(42, Offline);
    assert stored.properties == map[key := Batch([cmd])];
    assert FindByName(stored.identities, "Alice") == Some(42);
    StorageKeyInjective(42, Offline, 42, Online);
    assert Pending(stored.properties, 42, Offline) == [cmd];
    assert Pending(stored.properties, 42, Online) == [];
    SpawnFlushesOfflineThenOnline(stored, "Alice", accepts, 42);
    AttemptsAt("Alice", [cmd], accepts, 0);
    assert CommandIds([cmd]) == [1];
  }
}
