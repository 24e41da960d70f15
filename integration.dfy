/** `TebexIntegration` as a class over the two stores it changes: the world's dynamic
    properties and the identity map. Two more fields log what it does to the outside
    world: the command strings issued to players and the DELETE requests sent to Tebex.
    Each method is proved to leave the object in the state the matching function of
    module Delivery describes. */
module Integration {
  import opened Wrappers
  import opened Text
  import opened Identity
  import opened Remote
  import opened Store
  import opened Delivery

  class TebexIntegration {
    var properties: map<string, Payload>
    var identities: seq<(TebexId, string)>
    var issued: seq<Attempt>
    var deleteRequests: seq<seq<CommandId>>

    /** The identity map has the shape of a JavaScript `Map`: no id appears twice. It records
        that shape only; no other contract depends on it. */
    ghost predicate Valid()
      reads this
    {
      UniqueKeys(identities)
    }

    function Snapshot(): State
      reads this
    {
      State(properties, identities, issued, deleteRequests)
    }

    /** A fresh integration over the properties the world already holds; the identity map
        starts empty and is rebuilt from queue observations and joins. */
    constructor (stored: map<string, Payload>)
      ensures Valid()
      ensures Snapshot() == State(stored, [], [], [])
    {
      properties := stored;
      identities := [];
      issued := [];
      deleteRequests := [];
    }

    /** `executeCommands`: every command, in order, with `{username}` substituted; a
        rejected command is recorded and the loop goes on. */
    method ExecuteCommands(player: string, commands: seq<QueueCommand>, accepts: string -> bool)
      modifies this
      ensures Snapshot() == Executed(old(Snapshot()), player, commands, accepts)
    {
      for i := 0 to |commands|
        invariant Snapshot() == Executed(old(Snapshot()), player, commands[..i], accepts)
      {
        var c := commands[i];
        var text := ReplaceFirst(c.command, Placeholder, player);
        var accepted := accepts(text);
        issued := issued + [Attempt(player, c.id, text, accepted)];
        AttemptsAppend(player, commands[..i], c, accepts);
        assert commands[..i + 1] == commands[..i] + [c];
      }
      assert commands[..|commands|] == commands;
    }

    /** `deleteCommands`: no request for a missing or empty id list; a failed request is
        swallowed, so the reply plays no part. */
    method DeleteCommands(ids: Option<seq<CommandId>>)
      modifies this
      ensures Snapshot() == DeleteLogged(old(Snapshot()), ids)
    {
      if ids.None? || |ids.value| == 0 {
        return;
      }
      deleteRequests := deleteRequests + [ids.value];
    }

    /** `processCommands`. */
    method ProcessCommands(tebexId: TebexId, username: string, commands: seq<QueueCommand>, ch: Channel,
                           present: set<string>, accepts: string -> bool)
      modifies this
      ensures Snapshot() == Routed(old(Snapshot()), tebexId, username, commands, ch, present, accepts)
    {
      var commandIds := CommandIds(commands);
      var storageKey := StorageKey(tebexId, ch);
      if username in present {
        ExecuteCommands(username, commands, accepts);
        DeleteCommands(Some(commandIds));
      } else {
        properties := properties[storageKey := Encode(commands)];
      }
    }

    /** One iteration of `checkCommandQueue`'s loop, for `players[i]`; `stop` says the
        online fetch failed and the pass must end. */
    method VisitPlayer(players: seq<QueuedPlayer>, i: nat, online: nat -> Reply<seq<QueueCommand>>,
                       present: set<string>, accepts: string -> bool) returns (stop: bool)
      requires i < |players|
      requires Valid()
      modifies this
      ensures Valid()
      ensures PlayerStep(old(Snapshot()), players, i, online, present, accepts)
           == if stop then Stop(Snapshot()) else Continue(Snapshot())
    {
      var p := players[i];
      UpsertSemantics(identities, p.id, p.name);
      identities := Upsert(identities, p.id, p.name);
      var offline := OfflineBatch(players, p.id);
      if |offline| > 0 {
        ProcessCommands(p.id, p.name, offline, Offline, present, accepts);
      }
      var onlineData := Classify(online(i));
      if onlineData.Err? {
        return true;
      }
      if onlineData.value.Some? && |onlineData.value.value| > 0 {
        ProcessCommands(p.id, p.name, onlineData.value.value, Online, present, accepts);
      }
      return false;
    }

    /** `checkCommandQueue`: `queue` is the reply to `/queue` and `online(i)` the reply to
        the online-commands request for the i-th queued player. Any failed request ends
        the pass. */
    method CheckCommandQueue(queue: Reply<seq<QueuedPlayer>>, online: nat -> Reply<seq<QueueCommand>>,
                             present: set<string>, accepts: string -> bool)
      requires Valid()
      modifies this
      ensures Valid()
      ensures Snapshot() == Passed(old(Snapshot()), queue, online, present, accepts)
    {
      var queueData := Classify(queue);
      if queueData.Err? {
        return;
      }
      var players := PlayersOf(queueData.value);
      var i := 0;
      while i < |players|
        invariant i <= |players|
        invariant Valid()
        invariant PassFrom(Snapshot(), players, i, online, present, accepts)
               == Passed(old(Snapshot()), queue, online, present, accepts)
      {
        var stop := VisitPlayer(players, i, online, present, accepts);
        if stop {
          return;
        }
        i := i + 1;
      }
    }

    /** The `playerJoin` handler; `reply` answers the `/user/{name}` request. */
    method OnPlayerJoin(player: string, reply: Reply<Option<TebexId>>)
      requires Valid()
      modifies this
      ensures Valid()
      ensures Snapshot() == Joined(old(Snapshot()), player, reply)
    {
      var tebexId := ResolvePlayerId(reply);
      if tebexId.Some? && tebexId.value != 0 {
        UpsertSemantics(identities, tebexId.value, player);
        identities := Upsert(identities, tebexId.value, player);
      }
    }

    /** The `playerSpawn` handler. */
    method OnPlayerSpawn(player: string, initialSpawn: bool, accepts: string -> bool)
      requires Valid()
      modifies this
      ensures Valid()
      ensures Snapshot() == Spawned(old(Snapshot()), player, initialSpawn, accepts)
    {
      if !initialSpawn {
        return;
      }
      var found := FindByName(identities, player);
      if found.None? || found.value == 0 {
        return;
      }
      var tebexId := found.value;
      var channels := FlushOrder;
      for i := 0 to |channels|
        invariant identities == old(identities)
        invariant FlushedAll(Snapshot(), tebexId, player, channels[i..], accepts)
               == FlushedAll(old(Snapshot()), tebexId, player, channels, accepts)
      {
        ghost var before := Snapshot();
        var key := StorageKey(tebexId, channels[i]);
        if key in properties && IsTruthy(properties[key]) {
          var decoded := Decode(properties[key]);
          if decoded.Some? {
            var commands := decoded.value;
            ExecuteCommands(player, commands, accepts);
            DeleteCommands(Some(CommandIds(commands)));
            properties := properties - {key};
          }
        }
        assert Snapshot() == FlushedChannel(before, tebexId, player, channels[i], accepts);
        assert channels[i..][1..] == channels[i + 1..];
      }
    }
  }
}
