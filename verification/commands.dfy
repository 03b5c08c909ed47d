/**
 * The identifiers of WeeScript.py's registry and command table, and the
 * scope a cascading removal purges.
 */
module Commands {
  import opened Wrappers

  type Network = string
  type Channel = string
  type CommandName = string
  /** A stored handler, kept opaque: the model routes to it but never runs it. */
  type HandlerId = nat
  /** The opaque handle `weechat.hook_signal` returns. */
  type Hook = string
  /** The opaque send target `weechat.info_get("irc_buffer", ...)` returns. */
  type Buffer = string

  /** The key of the command table: (network, channel, command name). */
  type CommandKey = (Network, Channel, CommandName)

  /** Whether `key` is purged by `remove_commands(network=network, channel=channel)`. */
  predicate InScope(key: CommandKey, network: Network, channel: Option<Channel>)
  {
    key.0 == network && (channel.None? || key.1 == channel.value)
  }

  /** The command table after purging the scope: every other entry kept as it was. */
  function Purged(commands: map<CommandKey, HandlerId>, network: Network, channel: Option<Channel>)
    : (r: map<CommandKey, HandlerId>)
    ensures r.Keys <= commands.Keys
    ensures forall k :: k in r ==> !InScope(k, network, channel) && r[k] == commands[k]
    ensures forall k :: k in commands && !InScope(k, network, channel) ==> k in r
  {
    map k | k in commands && !InScope(k, network, channel) :: commands[k]
  }

  /** Every command is keyed to a network active in `activations` and a channel active on it. */
  ghost predicate Subscribed(commands: map<CommandKey, HandlerId>, activations: map<Network, set<Channel>>)
  {
    forall k :: k in commands ==> k.0 in activations && k.1 in activations[k.0]
  }

  /** Subscribing more networks or channels keeps every command subscribed. */
  lemma SubscribedGrows(commands: map<CommandKey, HandlerId>, before: map<Network, set<Channel>>,
                        after: map<Network, set<Channel>>)
    requires Subscribed(commands, before)
    requires forall n :: n in before ==> n in after && before[n] <= after[n]
    ensures Subscribed(commands, after)
  {
  }

  /** Purging a channel and then its network is purging the network. */
  lemma PurgeChannelThenNetwork(commands: map<CommandKey, HandlerId>, network: Network, channel: Channel)
    ensures Purged(Purged(commands, network, Some(channel)), network, None) == Purged(commands, network, None)
  {
  }

  /** Purging is idempotent. */
  lemma PurgeIdempotent(commands: map<CommandKey, HandlerId>, network: Network, channel: Option<Channel>)
    ensures Purged(Purged(commands, network, channel), network, channel) == Purged(commands, network, channel)
  {
  }

  /** Purges commute, so the order of cascaded removals does not matter. */
  lemma PurgesCommute(commands: map<CommandKey, HandlerId>, n1: Network, c1: Option<Channel>, n2: Network, c2: Option<Channel>)
    ensures Purged(Purged(commands, n1, c1), n2, c2) == Purged(Purged(commands, n2, c2), n1, c1)
  {
  }
}
