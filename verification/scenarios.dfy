/**
 * Client sequences over `WS` that show what its contracts add up to:
 * add/remove round trips, refused re-registration, the log threshold, the
 * dispatch example, and what survives a removal.
 */
module Scenarios {
  import opened Wrappers
  import opened Message
  import opened Logging
  import opened Commands
  import opened Router
  import opened WeeScript

  /** Adding a new network and removing it restores the registry and unhooks its two hooks, once each. */
  method AddThenRemoveNetwork(ws: WS, network: Network, inHook: Hook, outHook: Hook)
    requires ws.Valid() && network !in ws.activations
    modifies ws
    ensures ws.Valid()
    ensures ws.activations == old(ws.activations)
    ensures ws.inHooks == old(ws.inHooks) && ws.outHooks == old(ws.outHooks)
    ensures ws.unhooked == old(ws.unhooked) + [inHook, outHook]
    ensures ws.commands == Purged(old(ws.commands), network, None)
  {
    ws.AddNetwork([network], inHook, outHook);
    ws.RemoveNetwork(network);
    assert ws.activations.Keys == old(ws.activations).Keys;
    assert ws.inHooks.Keys == old(ws.inHooks).Keys;
    assert ws.outHooks.Keys == old(ws.outHooks).Keys;
  }

  /** A second registration under the same key keeps the first handler and logs the conflict at INFO. */
  method RegisterTwice(ws: WS, network: Network, channel: Channel, command: CommandName, first: HandlerId, second: HandlerId)
    requires ws.Valid() && (network, channel, command) !in ws.commands
    modifies ws
    ensures ws.commands == old(ws.commands)[(network, channel, command) := first]
    ensures ws.emitted == old(ws.emitted) + Emitted(ws.loggingLevel, [INFO])
  {
    ws.AddCommandToChannel(network, channel, command, first);
    ws.AddCommandToChannel(network, channel, command, second);
  }

  /**
   * Under the threshold NOTICE, DEBUG and INFO messages are dropped (the
   * INFO confirmation of the level change too) and NOTICE and above pass.
   */
  method NoticeThreshold(ws: WS)
    modifies ws
    ensures ws.loggingLevel == NOTICE
    ensures ws.emitted == old(ws.emitted) + [NOTICE, EMERG]
  {
    ParseLevelName(NOTICE);
    ws.SetLoggingLevel("NOTICE");
    ws.LogAt(DEBUG);
    ws.LogAt(INFO);
    ws.LogAt(NOTICE);
    ws.LogAt(EMERG);
  }

  /**
   * A fresh `WS` with `#chan` added on `netA` and `!ping` registered there:
   * the line `:n!u@h PRIVMSG #chan :!ping arg1` calls the handler with
   * `["arg1"]` when it arrives on `netA` and calls nothing on `netB`.
   */
  method DispatchExample(h: HandlerId) returns (onNetA: Outcome, onNetB: Outcome)
    ensures onNetA == RcOk(Some(Dispatch(h, Context("netA", "#chan"), ["arg1"])))
    ensures onNetB == RcOk(None)
  {
    var ws := new WS();
    ws.AddChannelToNetwork(["netA", "#chan"], "in", "out", "buffer");
    ws.AddCommandToChannel("netA", "#chan", "!ping", h);
    ParseExampleLine();
    RoutePing(ExampleLine, h);
    onNetA := ws.HandleMsgCb(Some("netA"), ExampleLine);
    onNetB := ws.HandleMsgCb(Some("netB"), ExampleLine);
  }

  /**
   * After a network is removed, no line arriving on it runs a handler or
   * raises, and no command is keyed to it any more, unless it was not active
   * and the table held commands for it anyway (registration does not check).
   */
  method RemovedNetworkIsSilent(ws: WS, network: Network, line: string) returns (rc: Outcome)
    requires ws.Valid()
    modifies ws
    ensures rc == RcOk(None)
    ensures network in old(ws.activations) || old(ws.CommandsSubscribed()) ==>
      forall k :: k in ws.commands ==> k.0 != network
  {
    ws.RemoveNetwork(network);
    rc := ws.HandleMsgCb(Some(network), line);
  }

  /** Removing a channel keeps its send target: a reply to it still finds the buffer. */
  method RemovedChannelKeepsBuffer(ws: WS, network: Network, channel: Channel,
                                   inHook: Hook, outHook: Hook, buffer: Buffer) returns (buf: Option<Buffer>)
    requires ws.Valid() && !(network in ws.activations && channel in ws.activations[network])
    modifies ws
    ensures network in ws.activations && channel !in ws.activations[network]
    ensures buf == Some(buffer)
  {
    ws.AddChannelToNetwork([network, channel], inHook, outHook, buffer);
    ws.RemoveChannelFromNetwork(network, channel);
    buf := ws.SendMessageToChannel(Context(network, channel));
  }
}
