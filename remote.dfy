/** The Tebex plugin API as the integration sees it: the queue's records, the outcome of
    one HTTP request, and how `makeTebexRequest` and `getTebexPlayerId` classify it. The
    transport itself (URL, headers, timeout) is not modelled: a request is represented by
    its reply. */
module Remote {
  import opened Wrappers
  import opened Seqs

  /** A Tebex player id (numeric in the plugin API); 0 is the one falsy value. */
  type TebexId = nat
  type CommandId = nat

  /** One queued command: its id and its template, which may contain `{username}`. */
  datatype QueueCommand = QueueCommand(id: CommandId, command: string)

  /** One entry of `players` in the `/queue` reply, with its inline offline commands
      (an absent `commands` field is the empty sequence). */
  datatype QueuedPlayer = QueuedPlayer(id: TebexId, name: string, commands: seq<QueueCommand>)

  /** What `JSON.parse` makes of a reply body, already read into the model's terms. */
  datatype Body<T> = Decoded(value: T) | JsonNull | Malformed

  /** The outcome of `http.request`: no reply at all (timeout, network), or a status and a body. */
  datatype Reply<T> = Unreachable | Response(status: int, body: Body<T>)

  /** The exceptions `makeTebexRequest` rethrows. */
  datatype RequestError = TransportFailure | MalformedBody | BadStatus(status: int)

  /** `makeTebexRequest`: 200 yields the parsed body (JSON `null` included), 204 yields null,
      and every other status, a missing reply or an unparsable 200 body is an error. */
  function Classify<T>(reply: Reply<T>): (r: Result<Option<T>, RequestError>)
    ensures r.Ok? <==> reply.Response? && (reply.status == 204 || (reply.status == 200 && !reply.body.Malformed?))
    ensures r.Ok? && r.value.Some? <==> reply.Response? && reply.status == 200 && reply.body.Decoded?
    ensures r.Ok? && r.value.Some? ==> r.value.value == reply.body.value
    ensures reply.Unreachable? ==> r == Err(TransportFailure)
    ensures reply.Response? && reply.status != 200 && reply.status != 204 ==> r == Err(BadStatus(reply.status))
  {
    match reply
    case Unreachable => Err(TransportFailure)
    case Response(status, body) =>
      if status == 200 then
        match body
        case Decoded(v) => Ok(Some(v))
        case JsonNull => Ok(None)
        case Malformed => Err(MalformedBody)
      else if status == 204 then Ok(None)
      else Err(BadStatus(status))
  }

  /** `getTebexPlayerId`: the `/user/{name}` reply's body is the `id` field, when present.
      Every error, a null body and a missing id all become "no id"; nothing is raised. */
  function ResolvePlayerId(reply: Reply<Option<TebexId>>): (r: Option<TebexId>)
    ensures r.Some? <==> reply.Response? && reply.status == 200 && reply.body.Decoded? && reply.body.value.Some?
    ensures r.Some? ==> r.value == reply.body.value.value
  {
    match Classify(reply)
    case Err(_) => None
    case Ok(None) => None
    case Ok(Some(body)) => body
  }

  /** `queueData?.players ?? []`. */
  function PlayersOf(body: Option<seq<QueuedPlayer>>): seq<QueuedPlayer> {
    body.GetOr([])
  }

  function HasId(id: TebexId): QueuedPlayer -> bool {
    (p: QueuedPlayer) => p.id == id
  }

  /** `queueData.players.find(p => p.id === tebexId)?.commands`: the inline commands of the
      first queue entry carrying this id. */
  function OfflineBatch(players: seq<QueuedPlayer>, id: TebexId): seq<QueueCommand> {
    match FirstIndex(players, HasId(id))
    case None => []
    case Some(k) => players[k].commands
  }

  predicate UniqueIds(players: seq<QueuedPlayer>) {
    forall i, j :: 0 <= i < j < |players| ==> players[i].id != players[j].id
  }

  /** The lookup finds the entry itself when no earlier entry shares its id (always so
      when ids are unique in the queue). */
  lemma OfflineBatchOwn(players: seq<QueuedPlayer>, i: nat)
    requires i < |players|
    requires forall j :: 0 <= j < i ==> players[j].id != players[i].id
    ensures OfflineBatch(players, players[i].id) == players[i].commands
  {
    FirstIndexAt(players, HasId(players[i].id), i);
  }

  /** With unique ids in the queue, every entry's lookup finds its own inline commands. */
  lemma OfflineBatchUnique(players: seq<QueuedPlayer>, i: nat)
    requires UniqueIds(players) && i < |players|
    ensures OfflineBatch(players, players[i].id) == players[i].commands
  {
    OfflineBatchOwn(players, i);
  }

  /** The lookup for an entry's id sees nothing past that entry. */
  lemma OfflineBatchPrefix(players: seq<QueuedPlayer>, n: nat, j: nat)
    requires j < n <= |players|
    ensures OfflineBatch(players[..n], players[j].id) == OfflineBatch(players, players[j].id)
  {
    FirstIndexPrefix(players, HasId(players[j].id), n, j);
  }

  /** `commands.map(cmd => cmd.id)`. */
  function CommandIds(commands: seq<QueueCommand>): (ids: seq<CommandId>)
    ensures |ids| == |commands|
    ensures forall k :: 0 <= k < |commands| ==> ids[k] == commands[k].id
  {
    seq(|commands|, k requires 0 <= k < |commands| => commands[k].id)
  }

  /** `deleteCommands`' guard `if (!commandIds?.length) return`: the body of the DELETE
      request it sends, if it sends one. `None` stands for a null or undefined argument. */
  function DeleteRequestFor(ids: Option<seq<CommandId>>): (req: Option<seq<CommandId>>)
    ensures req.Some? <==> ids.Some? && |ids.value| > 0
    ensures req.Some? ==> req == ids
  {
    if ids.None? || |ids.value| == 0 then None else ids
  }
}
