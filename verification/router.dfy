/**
 * The dispatch decision of `WS.handle_msg_cb` as a pure function of the
 * registry, the command table, the bound network and the raw line. The
 * handler call is returned as a `Dispatch` instead of being made.
 */
module Router {
  import opened Wrappers
  import opened Message
  import opened Commands

  /** The context dictionary a handler receives: `{network, channel}`. */
  datatype Context = Context(network: Network, channel: Channel)

  /** A handler call: which handler, with which context and which arguments. */
  datatype Dispatch = Dispatch(handler: HandlerId, ctx: Context, args: seq<string>)

  /** What the callback does: returns OK (maybe after a handler call), returns ERROR, or raises. */
  datatype Outcome =
    | RcOk(dispatch: Option<Dispatch>)
    | RcError
    | Raised(error: PyError)

  /** Python's `w[1:]`: `w` without its first character, empty for the empty string. */
  function DropFirst(w: string): (r: string)
    ensures |r| == if w == [] then 0 else |w| - 1
    ensures forall k :: 0 <= k < |r| ==> r[k] == w[k + 1]
  {
    if w == [] then [] else w[1..]
  }

  /**
   * Whether the callback gets as far as building the command key: the network
   * is active, the line parses to a PRIVMSG on a channel active on it, and
   * the message has a first word.
   */
  predicate ReachesLookup(activations: map<Network, set<Channel>>, nw: Option<Network>, line: string)
  {
    && nw.Some? && nw.value in activations
    && ParseMessage(line).Ok? && ParseMessage(line).value.Privmsg?
    && ParseMessage(line).value.channel in activations[nw.value]
    && ParseMessage(line).value.msg != []
  }

  /** The command key the callback builds: network, channel, and the first word minus its first character. */
  function LookupKey(activations: map<Network, set<Channel>>, nw: Option<Network>, line: string): (key: CommandKey)
    requires ReachesLookup(activations, nw, line)
    ensures key.0 == nw.value && key.1 in activations[nw.value]
  {
    var p := ParseMessage(line).value;
    (nw.value, p.channel, DropFirst(p.msg[0]))
  }

  /** `WS.handle_msg_cb`, with the handler call returned rather than made. */
  function Route(activations: map<Network, set<Channel>>, commands: map<CommandKey, HandlerId>,
                 nw: Option<Network>, line: string): (r: Outcome)
    // ERROR only for a missing network context
    ensures r == RcError <==> nw.None?
    // it raises only on an active network, and then exactly when the line is not a complete PRIVMSG
    ensures r.Raised? <==> nw.Some? && nw.value in activations && !(ParseMessage(line).Ok? && ParseMessage(line).value.Privmsg?)
    ensures r.Raised? ==> r.error == if ParseMessage(line).Err? then IndexError else KeyError
    // a handler runs exactly when the key is built and registered
    ensures (r.RcOk? && r.dispatch.Some?) <==>
      ReachesLookup(activations, nw, line) && LookupKey(activations, nw, line) in commands
    ensures r.RcOk? && r.dispatch.Some? ==>
      var p := ParseMessage(line).value;
      && r.dispatch.value.handler == commands[LookupKey(activations, nw, line)]
      && r.dispatch.value.ctx == Context(nw.value, p.channel)
      && r.dispatch.value.args == p.msg[1..]
  {
    if nw.None? then RcError
    else if nw.value !in activations then RcOk(None)
    else
      match ParseMessage(line)
      case Err(e) => Raised(e)
      case Ok(Other(_)) => Raised(KeyError)
      case Ok(Privmsg(_, channel, msg)) =>
        if channel !in activations[nw.value] then RcOk(None)
        else if msg == [] then RcOk(None)
        else
          var key := (nw.value, channel, DropFirst(msg[0]));
          if key in commands then RcOk(Some(Dispatch(commands[key], Context(nw.value, channel), msg[1..])))
          else RcOk(None)
  }

  /** The raw line of the dispatch example: `:n!u@h PRIVMSG #chan :!ping arg1`. */
  const ExampleLine: string := ":n!u@h PRIVMSG #chan :!ping arg1"

  /** The example line parses to channel `#chan` with words `:!ping` and `arg1`. */
  lemma ParseExampleLine()
    ensures ParseMessage(ExampleLine) == Ok(Privmsg(ExampleLine, "#chan", [":!ping", "arg1"]))
  {
    var prefix, body := [":n!u@h"], [":!ping", "arg1"];
    assert forall k :: 0 <= k < |prefix| ==> IsWord(prefix[k]);
    assert forall k :: 0 <= k < |body| ==> IsWord(body[k]);
    assert IsWord("#chan");
    assert MsgCmd !in prefix;
    ParsePrivmsgLine(prefix, "#chan", body);
    var ws := prefix + [MsgCmd, "#chan"] + body;
    assert ws == ExampleWords;
    ExampleLineIsJoin();
  }

  /** The words of the example line. */
  const ExampleWords: seq<string> := [":n!u@h", "PRIVMSG", "#chan", ":!ping", "arg1"]

  /** The example line is its words joined by single spaces. */
  lemma ExampleLineIsJoin()
    ensures Join(ExampleWords) == ExampleLine
  {
    var ws := ExampleWords;
    ExampleTail();
    JoinCons(ws, "PRIVMSG #chan :!ping arg1");
    assert ":n!u@h" + " " + "PRIVMSG #chan :!ping arg1" == ExampleLine;
  }

  /** The example line without its first word. */
  lemma ExampleTail()
    ensures Join(ExampleWords[1..]) == "PRIVMSG #chan :!ping arg1"
  {
    var ws := ExampleWords;
    ExampleBody();
    JoinCons(ws[1..], "#chan :!ping arg1");
    assert "PRIVMSG" + " " + "#chan :!ping arg1" == "PRIVMSG #chan :!ping arg1";
  }

  /** The example line from its destination on. */
  lemma ExampleBody()
    ensures Join(ExampleWords[2..]) == "#chan :!ping arg1"
  {
    var ws := ExampleWords;
    JoinCons(ws[3..], "arg1");
    assert ":!ping" + " " + "arg1" == ":!ping arg1";
    JoinCons(ws[2..], ":!ping arg1");
    assert "#chan" + " " + ":!ping arg1" == "#chan :!ping arg1";
  }

  /** The registry of the dispatch example: `#chan` active on `netA`. */
  const ExampleActivations: map<Network, set<Channel>> := map["netA" := {"#chan"}]

  /**
   * For a line that parses to channel `#chan` with words `:!ping arg1`
   * (`ParseExampleLine` shows `:n!u@h PRIVMSG #chan :!ping arg1` is one), on
   * `netA`: a handler registered under `!ping` (the first word minus its
   * leading `:`) is called with context `{netA, #chan}` and arguments
   * `["arg1"]`; one registered under the bare name `ping` is never found;
   * on `netB`, not active, nothing runs.
   */
  lemma RoutePing(line: string, h: HandlerId)
    requires ParseMessage(line) == Ok(Privmsg(line, "#chan", [":!ping", "arg1"]))
    ensures Route(ExampleActivations, map[("netA", "#chan", "!ping") := h], Some("netA"), line)
         == RcOk(Some(Dispatch(h, Context("netA", "#chan"), ["arg1"])))
    ensures Route(ExampleActivations, map[("netA", "#chan", "ping") := h], Some("netA"), line) == RcOk(None)
    ensures Route(ExampleActivations, map[("netA", "#chan", "!ping") := h], Some("netB"), line) == RcOk(None)
  {
    assert DropFirst(":!ping") == "!ping";
    assert ("netA", "#chan", "ping") != ("netA", "#chan", "!ping") by { assert "ping"[0] != "!ping"[0]; }
    assert "netB" !in ExampleActivations by { assert "netB"[3] != "netA"[3]; }
  }

}
