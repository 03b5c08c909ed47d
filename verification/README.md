# WeeScript core, modelled in Dafny

WeeScript is a small framework for WeeChat IRC scripts (`WeeScript.py`, class `WS`).
A script built on it declares networks, channels on them, and text commands per
(network, channel, command name). The framework installs one inbound and one
outbound `PRIVMSG` signal hook per network. For each inbound line it decides
whether a registered command handler runs.

This project models that core:

- **Message parser** (module `Message`). `str.split()` and `WS.parse_message`
  find the first `PRIVMSG` token (the command of section 3.3.1 of RFC 2812).
  The parser returns either an `OTHER` record or a record with the destination
  and the remaining words. It raises `IndexError` when `PRIVMSG` is the last token.
- **Log levels** (module `Logging`). There are eight ordered levels. A name's level
  is its index. `Emitted` gives the levels that pass a threshold.
- **Command scopes** (module `Commands`). These are the identifier types, the command
  key, and `Purged`, the table left after `remove_commands`.
- **Router** (module `Router`). `Route` is the decision of `handle_msg_cb` as a
  pure function: return ERROR, return OK (optionally with the handler call it
  makes), or raise. The handler call is returned as a `Dispatch` value; it is
  not executed.
- **The `WS` object** (module `WeeScript`). The class has the source's dicts as
  `map` fields: `activations`, `inHooks`, `outHooks`, `buffers`, `commands`,
  and the threshold `loggingLevel`. Each source method becomes a method with
  `modifies` frames and postconditions that give the new state in terms of the
  old. `Valid()` says the key sets of `activations`, `inHooks` and `outHooks`
  are equal. `CommandsSubscribed()` says every command is keyed to an active
  pair. The removals and additions preserve it. Registration does not:
  `AddCommandToChannel` states exactly when it breaks it.
- **Scenarios** (module `Scenarios`). Client sequences over `WS` show what the
  contracts add up to.

Host values become method parameters: the handles `weechat.hook_signal`
returns, and the buffer `weechat.info_get` returns. Two ghost traces on `WS`
record host effects:

- `emitted`: the levels of the `log_X` calls that passed the threshold.
- `unhooked`: the handles given to `weechat.unhook`.

Behaviours kept as the code has them, which a reader might not expect:

- A non-`PRIVMSG` line on an active network makes the callback raise `KeyError`.
  Line 307 parses outside the `try`, and line 308 reads `channel` of an `OTHER` record.
- A line whose only `PRIVMSG` is its last word raises `IndexError` from the
  parser (line 55). This is also outside the `try`.
- The command name is the first word minus exactly one character. For the
  line `:n!u@h PRIVMSG #chan :!ping arg1`, the first word is `:!ping`, so the
  name is `!ping`, not `ping` (`Router.RoutePing`).
- Neither removal deletes send targets. After a channel is removed, a reply to
  it still finds the buffer (`Scenarios.RemovedChannelKeepsBuffer`).
- Removing a channel leaves its network active, even with no channels.
- `list_networks` and `list_channels` print through the unfiltered `WS.log`.
  Their output is not subject to the threshold.

## Model

| member | source | states |
|---|---|---|
| `Lists.IndexOf` | WeeScript.py:51 | `list.index`: the result holds `x` and no earlier position does |
| `Message.Split` | WeeScript.py:44 | every token of `str.split()` is non-empty and free of whitespace |
| `Message.SplitAllSpace` | WeeScript.py:44 | a string of whitespace only splits into no tokens |
| `Message.SplitWord` | WeeScript.py:44 | a single word splits into exactly itself |
| `Message.SplitAtSpace` | WeeScript.py:44 | any whitespace character separates: the tokens of `a c b` are those of `a` followed by those of `b`, which together with the two rows above fixes `str.split()` on every string |
| `Message.SplitJoin` | WeeScript.py:44 | round trip: splitting words joined by spaces gives back the same words |
| `Message.ParseMessage` | WeeScript.py:43-57 | `OTHER` with `raw` the input iff no token is `PRIVMSG`; otherwise, with `i` the first `PRIVMSG`, channel `t[i+1]` and msg `t[i+2..]` (so `|msg| = |t| - i - 2`), or `IndexError` when `PRIVMSG` is last |
| `Message.ParsePrivmsgLine` | WeeScript.py:50-57 | a line `prefix PRIVMSG channel body` with no earlier `PRIVMSG` parses to exactly that channel and body |
| `Message.ParseTrailingPrivmsg` | WeeScript.py:55 | a line whose only `PRIVMSG` is its last word makes the parser raise `IndexError` |
| `Logging.ParseLevel` | WeeScript.py:241-243 | a name is accepted iff it is one of the eight, and then it denotes the level at whose position the name stands |
| `Logging.ParseLevelName` | WeeScript.py:12-16 | round trip: each level's name maps back to that level |
| `Logging.Emitted` | WeeScript.py:95-125 | what a series of `log_X` calls emits: never more entries than calls, every entry passes the threshold, and every passing level that was logged appears |
| `Logging.EmittedCounts` | WeeScript.py:95-125 | emitting only filters: each level occurs in the output exactly as often as it was logged if it passes the threshold, and never otherwise |
| `Logging.EmittedAppend` | WeeScript.py:95-125 | the levels emitted by two series of calls in a row are those of each series, concatenated |
| `Logging.DebugPassesAll` | WeeScript.py:84 | under the default threshold DEBUG every call is emitted |
| `Logging.EmittedMonotone` | WeeScript.py:95-125 | raising the threshold only drops messages: the output under the higher threshold is the output under the lower one, filtered again by the higher; and all of it passes the lower one |
| `Commands.Purged` | WeeScript.py:226-232 | exactly the keys in scope (network matches, and channel when given) are gone; every other entry is kept with its handler |
| `Commands.PurgeChannelThenNetwork` | WeeScript.py:226-232 | purging a channel and then its network is purging the network |
| `Commands.PurgeIdempotent` | WeeScript.py:226-232 | purging twice is purging once |
| `Commands.PurgesCommute` | WeeScript.py:226-232 | purges commute, so the order of cascaded removals does not matter |
| `Router.DropFirst` | WeeScript.py:310 | Python's `w[1:]`: one character shorter, the rest shifted, empty for the empty string |
| `Router.Route` | WeeScript.py:300-317 | ERROR iff no network is bound; raises iff the network is active and the line is not a complete PRIVMSG; a handler runs iff the network and channel are active, msg is non-empty and `(nw, channel, msg[0][1:])` is registered, and then it receives `{network, channel}` and `msg[1:]` |
| `Router.ParseExampleLine` | WeeScript.py:43-57 | `:n!u@h PRIVMSG #chan :!ping arg1` parses to channel `#chan` and words `:!ping`, `arg1` |
| `Router.RoutePing` | WeeScript.py:306-314 | for that line on `netA`, the handler under `!ping` gets `["arg1"]`; one under `ping` is never found; on the inactive `netB` nothing runs |
| `WeeScript.WS.constructor` | WeeScript.py:66-93 | empty registry and table, threshold DEBUG, one INFO line from registering the settings command |
| `WeeScript.WS.LogAt` | WeeScript.py:95-125 | a `log_X` call emits iff `logging_level <= level(X)` |
| `WeeScript.WS.SetLoggingLevel` | WeeScript.py:241-246 | a known name sets the threshold to its level and logs at INFO under the new threshold; an unknown name leaves it unchanged and logs at ERR |
| `WeeScript.WS.AddNetwork` | WeeScript.py:127-144 | no argument: only a log line; an active network: nothing at all; a new network: an empty channel set and its two hooks; the key sets stay equal |
| `WeeScript.WS.AddChannelToNetwork` | WeeScript.py:178-194 | fewer than two arguments or an active pair: only a log line; otherwise the network is added first if absent, the channel joins its set, the pair's buffer is stored, and other networks are untouched |
| `WeeScript.WS.AddCommandToChannel` | WeeScript.py:196-202 | never overwrites: a free key is bound to the handler, a taken key leaves the table unchanged and logs; the subscription invariant survives iff the key was taken or its pair is active |
| `WeeScript.WS.RemoveCommandFromChannel` | WeeScript.py:234-239 | deletes exactly that key; an absent key leaves the table unchanged and logs |
| `WeeScript.WS.RemoveCommands` | WeeScript.py:226-232 | the loop over a snapshot of the keys leaves exactly `Purged` of the old table and logs nothing |
| `WeeScript.WS.RemoveNetwork` | WeeScript.py:204-216 | an active network leaves `activations`, `inHooks` and `outHooks`, each hook is unhooked once, every command keyed to it goes, and buffers stay; an unknown one changes nothing |
| `WeeScript.WS.RemoveChannelFromNetwork` | WeeScript.py:218-224 | an active pair loses only that channel and the commands keyed to the pair; an unknown pair changes nothing |
| `WeeScript.WS.HandleMsgCb` | WeeScript.py:300-317 | the callback's outcome is `Route` of the current state; it logs at ERR when the network is missing and at DEBUG once the key is built |
| `WeeScript.WS.SendMessageToChannel` | WeeScript.py:319-325 | the buffer of the target pair if one was stored, otherwise none and an ERR log line |
| `Scenarios.AddThenRemoveNetwork` | WeeScript.py:127-216 | adding a new network and removing it restores the registry and unhooks its two hooks, once each |
| `Scenarios.RegisterTwice` | WeeScript.py:196-202 | a second registration of a key keeps the first handler and logs the conflict |
| `Scenarios.NoticeThreshold` | WeeScript.py:99-125 | under NOTICE, DEBUG and INFO calls are dropped and NOTICE and EMERG pass |
| `Scenarios.DispatchExample` | WeeScript.py:300-317 | with `#chan` on `netA` and `!ping` registered, the example line calls the handler with `["arg1"]` on `netA` and nothing on `netB` |
| `Scenarios.RemovedNetworkIsSilent` | WeeScript.py:204-216 | after a network is removed, no line arriving on it runs a handler or raises |
| `Scenarios.RemovedChannelKeepsBuffer` | WeeScript.py:218-224 | a removed channel stays inactive on its still active network, and its buffer is still found |

## Left out

- The `weechat.*` host calls (`hook_signal`, `unhook`, `info_get`, `command`, `prnt`, `color`, `register`, `hook_command`). Their results are method parameters. `unhook` is recorded in the ghost trace `unhooked`.
- The `uuid`-generated callback names and the `get_globals`/`global_scope` injection. These are a host-API workaround with no logic.
- Log message text, the prefix and colour tables, and the static `WS.log`. The trace `emitted` keeps only the level of each `log_X` call that passes the threshold.
- The output of `list_networks`, `list_channels` and `list_logging_levels`. It is presentation only, printed through the unfiltered `WS.log`, and is not in the trace.
- `handle_setup_commands`, `handle_weechat_command` and `register_weechat_command`. These are dispatch glue whose state effects are those of the operations they call. The constructor records only the INFO line that `register_weechat_command` logs.
- The `name`, `version` and `author` fields of `__init__`. Nothing in the core reads them.
- `WeeScript.WS.SendMessageToChannel`: the Python 2 `unicode(...).encode("utf-8").strip()` and the delivery by `weechat.command` are host I/O. Only the buffer lookup is modelled.
- `WeeScript.WS.HandleMsgCb`: handlers are opaque ids, so the call is returned rather than made. An `IndexError` raised inside a handler, which the `try` would swallow, is therefore not modelled.
- `WeeScript.WS.RemoveCommands`: the keys are visited in an arbitrary order over a snapshot, as Python 2's `items()` gives. Dict order and Python 3's error on deleting during iteration are not modelled. A call without a network, which matches nothing in the source, is not modelled: every caller passes one.
- `Message.Split`: whitespace is the ASCII set of a Python 2 byte string (space, tab, newline, vertical tab, form feed, carriage return). The Unicode whitespace of Python 3's `str.split()` is not modelled.
- `WeeScript.WS.AddNetwork`: only `args[0]` is read, as in the source. Extra arguments are ignored.
