/**
 * The class `WS` of WeeScript.py: the subscription registry (active
 * networks and their channels, one inbound and one outbound hook per
 * network, a send target per network and channel), the command table, the
 * log threshold, and the inbound-message callback that routes to handlers.
 *
 * Host values (the handles `weechat.hook_signal` returns, the buffer
 * `weechat.info_get` returns) are parameters of the methods that obtain
 * them. Two ghost traces record the effects on the host that matter here:
 * `emitted`, the levels of the `log_X` calls that passed the threshold,
 * and `unhooked`, the handles given to `weechat.unhook`.
 */
module WeeScript {
  import opened Wrappers
  import opened Lists
  import opened Message
  import opened Logging
  import opened Commands
  import opened Router

  class WS {
    var activations: map<Network, set<Channel>>
    var inHooks: map<Network, Hook>
    var outHooks: map<Network, Hook>
    var buffers: map<(Network, Channel), Buffer>
    var commands: map<CommandKey, HandlerId>
    var loggingLevel: Level
    ghost var emitted: seq<Level>
    ghost var unhooked: seq<Hook>

    /** Every active network, and only an active network, has both of its hooks. */
    ghost predicate Valid()
      reads this
    {
      activations.Keys == inHooks.Keys && activations.Keys == outHooks.Keys
    }

    /**
     * Every command is keyed to a subscribed network and channel. The table
     * does not enforce this on registration; the removals preserve it.
     */
    ghost predicate CommandsSubscribed()
      reads this
    {
      Subscribed(commands, activations)
    }

    /** `WS.__init__`: empty registry and table, threshold DEBUG; registering the settings command logs at INFO. */
    constructor ()
      ensures Valid() && CommandsSubscribed()
      ensures activations == map[] && inHooks == map[] && outHooks == map[]
      ensures buffers == map[] && commands == map[]
      ensures loggingLevel == DEBUG
      ensures emitted == [INFO] && unhooked == []
    {
      activations, inHooks, outHooks := map[], map[], map[];
      buffers, commands := map[], map[];
      loggingLevel := DEBUG;
      emitted, unhooked := [], [];
      new;
      LogAt(INFO);
    }

    /** The `log_X` family: a message at `level` is emitted iff the threshold is at most `level`. */
    method LogAt(level: Level)
      modifies this`emitted
      ensures emitted == old(emitted) + Emitted(loggingLevel, [level])
      ensures |emitted| == |old(emitted)| + 1 <==> loggingLevel <= level
    {
      if loggingLevel <= level {
        emitted := emitted + [level];
      }
    }

    /** `set_logging_level`: an unknown name leaves the threshold as it was and logs at ERR. */
    method SetLoggingLevel(name: string)
      modifies this`loggingLevel, this`emitted
      ensures ParseLevel(name).Some? ==>
        loggingLevel == ParseLevel(name).value && LevelNames[loggingLevel] == name
        && emitted == old(emitted) + Emitted(loggingLevel, [INFO])
      ensures ParseLevel(name).None? ==>
        loggingLevel == old(loggingLevel) && emitted == old(emitted) + Emitted(loggingLevel, [ERR])
    {
      var level := ParseLevel(name);
      if level.Some? {
        loggingLevel := level.value;
        LogAt(INFO);
      } else {
        LogAt(ERR);
      }
    }

    /**
     * `add_network(*args)`: without an argument it only logs; an active
     * network is left as it is, silently; a new one gets an empty channel set
     * and its two hooks.
     */
    method AddNetwork(args: seq<Network>, inHook: Hook, outHook: Hook)
      requires Valid()
      modifies this`activations, this`inHooks, this`outHooks, this`emitted
      ensures Valid()
      ensures old(CommandsSubscribed()) ==> CommandsSubscribed()
      ensures |args| == 0 ==>
        && activations == old(activations) && inHooks == old(inHooks) && outHooks == old(outHooks)
        && emitted == old(emitted) + Emitted(loggingLevel, [INFO])
      ensures |args| > 0 && args[0] in old(activations) ==>
        && activations == old(activations) && inHooks == old(inHooks) && outHooks == old(outHooks)
        && emitted == old(emitted)
      ensures |args| > 0 && args[0] !in old(activations) ==>
        && activations == old(activations)[args[0] := {}]
        && inHooks == old(inHooks)[args[0] := inHook]
        && outHooks == old(outHooks)[args[0] := outHook]
        && emitted == old(emitted) + Emitted(loggingLevel, [INFO])
    {
      if |args| < 1 {
        LogAt(INFO);
        return;
      }
      var network := args[0];
      if network !in activations {
        activations := activations[network := {}];
        inHooks := inHooks[network := inHook];
        outHooks := outHooks[network := outHook];
        LogAt(INFO);
      }
    }

    /**
     * `add_channel_to_network(*args)`: with fewer than two arguments, or for
     * a pair already active, it only logs. Otherwise the network is added
     * first if absent, the channel joins its set, and the send target of the
     * pair is recorded.
     */
    method AddChannelToNetwork(args: seq<string>, inHook: Hook, outHook: Hook, buffer: Buffer)
      requires Valid()
      modifies this`activations, this`inHooks, this`outHooks, this`buffers, this`emitted
      ensures Valid()
      ensures old(CommandsSubscribed()) ==> CommandsSubscribed()
      ensures |args| < 2 || (args[0] in old(activations) && args[1] in old(activations)[args[0]]) ==>
        && activations == old(activations) && inHooks == old(inHooks) && outHooks == old(outHooks)
        && buffers == old(buffers)
        && emitted == old(emitted) + Emitted(loggingLevel, [INFO])
      ensures |args| >= 2 && args[0] in old(activations) && args[1] !in old(activations)[args[0]] ==>
        && activations == old(activations)[args[0] := old(activations)[args[0]] + {args[1]}]
        && inHooks == old(inHooks) && outHooks == old(outHooks)
        && buffers == old(buffers)[(args[0], args[1]) := buffer]
        && emitted == old(emitted) + Emitted(loggingLevel, [INFO])
      ensures |args| >= 2 && args[0] !in old(activations) ==>
        && activations == old(activations)[args[0] := {args[1]}]
        && inHooks == old(inHooks)[args[0] := inHook] && outHooks == old(outHooks)[args[0] := outHook]
        && buffers == old(buffers)[(args[0], args[1]) := buffer]
        && emitted == old(emitted) + Emitted(loggingLevel, [INFO]) + Emitted(loggingLevel, [INFO])
    {
      if |args| < 2 {
        LogAt(INFO);
        return;
      }
      var network, channel := args[0], args[1];
      if network in activations && channel in activations[network] {
        LogAt(INFO);
        return;
      }
      if network !in activations {
        AddNetwork([network], inHook, outHook);
        assert activations[network] + {channel} == {channel};
      }
      ghost var before := activations;
      activations := activations[network := activations[network] + {channel}];
      if Subscribed(commands, before) {
        SubscribedGrows(commands, before, activations);
      }
      buffers := buffers[(network, channel) := buffer];
      LogAt(INFO);
    }

    /** `add_command_to_channel`: never overwrites; a taken key leaves the table as it was and logs. */
    method AddCommandToChannel(network: Network, channel: Channel, command: CommandName, handler: HandlerId)
      requires Valid()
      modifies this`commands, this`emitted
      ensures Valid()
      ensures (network, channel, command) !in old(commands) ==>
        commands == old(commands)[(network, channel, command) := handler] && emitted == old(emitted)
      ensures (network, channel, command) in old(commands) ==>
        commands == old(commands) && emitted == old(emitted) + Emitted(loggingLevel, [INFO])
      ensures old(CommandsSubscribed()) ==>
        (CommandsSubscribed() <==>
          (network, channel, command) in old(commands) || (network in activations && channel in activations[network]))
    {
      var key := (network, channel, command);
      if key !in commands {
        commands := commands[key := handler];
      } else {
        LogAt(INFO);
      }
    }

    /** `remove_command_from_channel`: deletes exactly that key; an absent key only logs. */
    method RemoveCommandFromChannel(network: Network, channel: Channel, command: CommandName)
      requires Valid()
      modifies this`commands, this`emitted
      ensures Valid()
      ensures old(CommandsSubscribed()) ==> CommandsSubscribed()
      ensures (network, channel, command) in old(commands) ==>
        commands == old(commands) - {(network, channel, command)} && emitted == old(emitted)
      ensures (network, channel, command) !in old(commands) ==>
        commands == old(commands) && emitted == old(emitted) + Emitted(loggingLevel, [INFO])
    {
      var key := (network, channel, command);
      if key !in commands {
        LogAt(INFO);
      } else {
        commands := commands - {key};
      }
    }

    /**
     * `remove_commands(network=..., channel=...)`: deletes every key of the
     * network, and of the channel when one is given, over a snapshot of the
     * keys; nothing else changes.
     */
    method RemoveCommands(network: Network, channel: Option<Channel>)
      requires Valid()
      modifies this`commands, this`emitted
      ensures Valid()
      ensures old(CommandsSubscribed()) ==> CommandsSubscribed()
      ensures commands == Purged(old(commands), network, channel)
      ensures emitted == old(emitted)
    {
      var keys := commands.Keys;
      while keys != {}
        invariant keys <= old(commands).Keys
        invariant commands == map k | k in old(commands) && (k in keys || !InScope(k, network, channel)) :: old(commands)[k]
        invariant emitted == old(emitted)
        decreases keys
      {
        var key :| key in keys;
        if network == key.0 {
          if channel.None? || channel.value == key.1 {
            RemoveCommandFromChannel(key.0, key.1, key.2);
          }
        }
        keys := keys - {key};
      }
      assert commands.Keys == Purged(old(commands), network, channel).Keys;
    }

    /**
     * `remove_network`: an active network loses its channel set and both
     * hooks (each handed to `weechat.unhook` once) and every command keyed to
     * it; send targets stay. An unknown network only logs.
     */
    method RemoveNetwork(network: Network)
      requires Valid()
      modifies this`activations, this`inHooks, this`outHooks, this`commands, this`emitted, this`unhooked
      ensures Valid()
      ensures old(CommandsSubscribed()) ==> CommandsSubscribed()
      ensures emitted == old(emitted) + Emitted(loggingLevel, [INFO])
      ensures network in old(activations) ==>
        && activations == old(activations) - {network}
        && inHooks == old(inHooks) - {network} && outHooks == old(outHooks) - {network}
        && commands == Purged(old(commands), network, None)
        && unhooked == old(unhooked) + [old(inHooks)[network], old(outHooks)[network]]
      ensures network !in old(activations) ==>
        && activations == old(activations) && inHooks == old(inHooks) && outHooks == old(outHooks)
        && commands == old(commands) && unhooked == old(unhooked)
    {
      if network in activations {
        unhooked := unhooked + [inHooks[network]];
        unhooked := unhooked + [outHooks[network]];
        activations := activations - {network};
        inHooks := inHooks - {network};
        outHooks := outHooks - {network};
        RemoveCommands(network, None);
        LogAt(INFO);
      } else {
        LogAt(INFO);
      }
    }

    /**
     * `remove_channel_from_network`: an active pair loses the channel and
     * every command keyed to the pair; the network stays active and the send
     * target stays. An unknown pair only logs.
     */
    method RemoveChannelFromNetwork(network: Network, channel: Channel)
      requires Valid()
      modifies this`activations, this`commands, this`emitted
      ensures Valid()
      ensures old(CommandsSubscribed()) ==> CommandsSubscribed()
      ensures network in old(activations) && channel in old(activations)[network] ==>
        && activations == old(activations)[network := old(activations)[network] - {channel}]
        && commands == Purged(old(commands), network, Some(channel))
        && emitted == old(emitted)
      ensures !(network in old(activations) && channel in old(activations)[network]) ==>
        && activations == old(activations) && commands == old(commands)
        && emitted == old(emitted) + Emitted(loggingLevel, [INFO])
    {
      if network in activations && channel in activations[network] {
        activations := activations[network := activations[network] - {channel}];
        RemoveCommands(network, Some(channel));
      } else {
        LogAt(INFO);
      }
    }

    /**
     * `handle_msg_cb`, bound to the network `nw` (None when the binding is
     * missing): the outcome is the one `Route` decides, and the command key,
     * once built, is logged at DEBUG.
     */
    method HandleMsgCb(nw: Option<Network>, signalData: string) returns (rc: Outcome)
      modifies this`emitted
      ensures rc == Route(activations, commands, nw, signalData)
      ensures emitted == old(emitted) +
        if nw.None? then Emitted(loggingLevel, [ERR])
        else if ReachesLookup(activations, nw, signalData) then Emitted(loggingLevel, [DEBUG])
        else []
    {
      if nw.None? {
        LogAt(ERR);
        return RcError;
      }
      var network := nw.value;
      if network in activations {
        // parse_message is called outside the `try`: its IndexError escapes
        var parsed := ParseMessage(signalData);
        if parsed.Err? {
          return Raised(parsed.error);
        }
        // reading "channel" of an OTHER record raises KeyError, also outside the `try`
        if parsed.value.Other? {
          return Raised(KeyError);
        }
        var channel := parsed.value.channel;
        if channel in activations[network] {
          var msg := parsed.value.msg;
          // an empty message makes msg[0] raise IndexError, which the `try` swallows
          if msg != [] {
            var key := (network, channel, DropFirst(msg[0]));
            LogAt(DEBUG);
            if key in commands {
              return RcOk(Some(Dispatch(commands[key], Context(network, channel), msg[1..])));
            }
          }
        }
      }
      return RcOk(None);
    }

    /** The buffer lookup of `send_message_to_channel`: the target's send target, or an ERR log when there is none. */
    method SendMessageToChannel(target: Context) returns (buf: Option<Buffer>)
      modifies this`emitted
      ensures buf.Some? <==> (target.network, target.channel) in buffers
      ensures buf.Some? ==> buf.value == buffers[(target.network, target.channel)]
      ensures emitted == old(emitted) + if buf.None? then Emitted(loggingLevel, [ERR]) else []
    {
      var key := (target.network, target.channel);
      if key in buffers {
        buf := Some(buffers[key]);
      } else {
        buf := None;
        LogAt(ERR);
      }
    }
  }
}
