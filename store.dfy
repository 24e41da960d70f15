/** The command buffer: world dynamic properties holding serialised command batches under
    a key built from the Tebex id and the channel. */
module Store {
  import opened Wrappers
  import opened Text
  import opened Remote

  /** `isOnlineCommands` in `processCommands`, the loop variable `type` in the spawn flush. */
  datatype Channel = Offline | Online

  function ChannelName(ch: Channel): string {
    match ch
    case Offline => "offline"
    case Online => "online"
  }

  const KeyInfix := "_tebex_commands_"

  /** `${tebexId}_tebex_commands_${channel}`. */
  function StorageKey(id: TebexId, ch: Channel): string {
    Decimal(id) + KeyInfix + ChannelName(ch)
  }

  /** Distinct (id, channel) pairs get distinct keys: the decimal id is all digits and so
      ends where the first `_` is, and the two channel names differ. */
  lemma StorageKeyInjective(a: TebexId, c: Channel, b: TebexId, d: Channel)
    ensures StorageKey(a, c) == StorageKey(b, d) <==> a == b && c == d
  {
    if StorageKey(a, c) == StorageKey(b, d) {
      var k := StorageKey(a, c);
      var da, db := Decimal(a), Decimal(b);
      assert k[|da|] == '_';
      assert k[|db|] == '_';
      assert |da| == |db|;
      assert da == k[..|da|] == db;
      DecimalInjective(a, b);
      assert ChannelName(c) == k[|da| + |KeyInfix|..] == ChannelName(d);
    }
  }

  /** A dynamic-property value: the serialisation of a command batch, or some other text
      that does not parse back into one. */
  datatype Payload = Batch(commands: seq<QueueCommand>) | Unparsable(text: string)

  /** `JSON.stringify(commands)`. */
  function Encode(commands: seq<QueueCommand>): Payload {
    Batch(commands)
  }

  /** `JSON.parse` of a stored value, with failure. */
  function Decode(p: Payload): Option<seq<QueueCommand>> {
    match p
    case Batch(commands) => Some(commands)
    case Unparsable(_) => None
  }

  /** `if (commandsStr)`: only the empty string is falsy; a serialised batch never is. */
  predicate IsTruthy(p: Payload) {
    p.Batch? || p.text != ""
  }

  /** What is stored is read back intact and passes the truthiness test. */
  lemma DecodeEncode(commands: seq<QueueCommand>)
    ensures Decode(Encode(commands)) == Some(commands)
    ensures IsTruthy(Encode(commands))
  {
  }
}
