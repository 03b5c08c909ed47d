/**
 * The inbound message parser of WeeScript.py: whitespace splitting as
 * `str.split()` does it, and `WS.parse_message`, which finds the first
 * PRIVMSG token (the command of section 3.3.1 of RFC 2812) and isolates
 * the destination and the remaining words.
 */
module Message {
  import opened Wrappers
  import opened Lists

  /** The command token the parser looks for. */
  const MsgCmd: string := "PRIVMSG"

  /** The exceptions the source can raise on a malformed line. */
  datatype PyError = IndexError | KeyError

  /** What `parse_message` returns: the `OTHER` record or the PRIVMSG record. */
  datatype Parsed =
    | Other(raw: string)
    | Privmsg(raw: string, channel: string, msg: seq<string>)

  /** The whitespace `str.split()` separates on (ASCII, as for a byte string). */
  predicate IsSpace(c: char)
  {
    c == ' ' || c == '\t' || c == '\n' || c == '\U{000B}' || c == '\U{000C}' || c == '\r'
  }

  /** A token `str.split()` can produce: non-empty and free of whitespace. */
  predicate IsWord(w: string)
  {
    w != [] && forall k :: 0 <= k < |w| ==> !IsSpace(w[k])
  }

  /** `s` without its leading whitespace. */
  function DropSpaces(s: string): (r: string)
    ensures |r| <= |s|
    ensures r == [] || !IsSpace(r[0])
  {
    if s != [] && IsSpace(s[0]) then DropSpaces(s[1..]) else s
  }

  /** The longest whitespace-free prefix of `s`. */
  function TakeWord(s: string): (w: string)
    ensures |w| <= |s|
    ensures forall k :: 0 <= k < |w| ==> !IsSpace(w[k])
    ensures |w| == |s| || IsSpace(s[|w|])
  {
    if s == [] || IsSpace(s[0]) then [] else [s[0]] + TakeWord(s[1..])
  }

  /** `str.split()` without arguments: the maximal runs of non-whitespace, in order. */
  function Split(s: string): (ts: seq<string>)
    ensures forall k :: 0 <= k < |ts| ==> IsWord(ts[k])
    decreases |s|
  {
    var t := DropSpaces(s);
    if t == [] then []
    else
      var w := TakeWord(t);
      assert w != [] by { assert !IsSpace(t[0]); }
      assert IsWord(w);
      [w] + Split(t[|w|..])
  }

  /** The words joined by single spaces: the inverse of `Split` on words. */
  function Join(ws: seq<string>): (s: string)
    ensures |ws| == 1 ==> s == ws[0]
  {
    if |ws| == 0 then ""
    else if |ws| == 1 then ws[0]
    else ws[0] + " " + Join(ws[1..])
  }

  /** One step of `Join`: the first word, a space, and the rest joined. */
  lemma JoinCons(ws: seq<string>, rest: string)
    requires |ws| >= 2 && Join(ws[1..]) == rest
    ensures Join(ws) == ws[0] + " " + rest
  {
  }

  /** `WS.parse_message`: `IndexError` when the first PRIVMSG is the last token. */
  function ParseMessage(signal: string): (r: Result<Parsed, PyError>)
    ensures MsgCmd !in Split(signal) <==> r == Ok(Other(signal))
    ensures r.Ok? ==> r.value.raw == signal
    ensures r.Err? ==> r.error == IndexError
    ensures var t := Split(signal);
      forall i :: 0 <= i < |t| && t[i] == MsgCmd && MsgCmd !in t[..i] ==>
        if i + 1 < |t| then r == Ok(Privmsg(signal, t[i + 1], t[i + 2..])) && |r.value.msg| == |t| - i - 2
        else r == Err(IndexError)
  {
    var parts := Split(signal);
    if MsgCmd !in parts then Ok(Other(signal))
    else
      var cmdIndex := IndexOf(parts, MsgCmd);
      if cmdIndex + 1 < |parts| then Ok(Privmsg(signal, parts[cmdIndex + 1], parts[cmdIndex + 2..]))
      else Err(IndexError)
  }

  /** Splitting ignores one leading whitespace character. */
  lemma SplitSkipsSpace(c: char, s: string)
    requires IsSpace(c)
    ensures Split([c] + s) == Split(s)
  {
  }

  /** A string of whitespace only has no tokens. */
  lemma {:induction false} SplitAllSpace(s: string)
    requires forall k :: 0 <= k < |s| ==> IsSpace(s[k])
    ensures Split(s) == []
  {
    if s != [] {
      SplitAllSpace(s[1..]);
      assert s == [s[0]] + s[1..];
      SplitSkipsSpace(s[0], s[1..]);
    }
  }

  /** A word on its own is its only token. */
  lemma SplitWord(w: string)
    requires IsWord(w)
    ensures Split(w) == [w]
  {
    SplitJoin([w]);
  }

  /**
   * A whitespace character separates: the tokens of `a c b` are those of
   * `a` followed by those of `b`. With `SplitAllSpace` and `SplitWord` this
   * fixes `Split` on every string.
   */
  lemma {:induction false} SplitAtSpace(a: string, c: char, b: string)
    requires IsSpace(c)
    ensures Split(a + [c] + b) == Split(a) + Split(b)
    decreases |a|
  {
    var s := a + [c] + b;
    if a == [] {
      assert s == [c] + b;
      SplitSkipsSpace(c, b);
    } else if IsSpace(a[0]) {
      assert s == [a[0]] + (a[1..] + [c] + b);
      assert a == [a[0]] + a[1..];
      SplitSkipsSpace(a[0], a[1..] + [c] + b);
      SplitSkipsSpace(a[0], a[1..]);
      SplitAtSpace(a[1..], c, b);
    } else {
      var w := TakeWord(a);
      TakeWordAppend(a, [c] + b);
      assert s == a + ([c] + b);
      assert w != [] by { assert !IsSpace(a[0]); }
      assert DropSpaces(s) == s && DropSpaces(a) == a;
      assert s[|w|..] == a[|w|..] + [c] + b;
      SplitAtSpace(a[|w|..], c, b);
    }
  }

  /** The first token of `a` is not extended across whitespace that follows `a`. */
  lemma {:induction false} TakeWordAppend(a: string, x: string)
    requires x == [] || IsSpace(x[0])
    ensures TakeWord(a + x) == TakeWord(a)
  {
    if a == [] {
      assert a + x == x;
    } else if !IsSpace(a[0]) {
      assert (a + x)[1..] == a[1..] + x;
      TakeWordAppend(a[1..], x);
    }
  }

  /** A word followed by the end or by whitespace is exactly the next token. */
  lemma {:induction false} TakeWordOf(w: string, rest: string)
    requires forall k :: 0 <= k < |w| ==> !IsSpace(w[k])
    requires rest == [] || IsSpace(rest[0])
    ensures TakeWord(w + rest) == w
  {
    if w != [] {
      assert (w + rest)[1..] == w[1..] + rest;
      TakeWordOf(w[1..], rest);
    }
  }

  /** Round trip: splitting words joined by spaces gives the words back. */
  lemma {:induction false} SplitJoin(ws: seq<string>)
    requires forall k :: 0 <= k < |ws| ==> IsWord(ws[k])
    ensures Split(Join(ws)) == ws
  {
    if |ws| == 1 {
      var w := ws[0];
      TakeWordOf(w, []);
      assert w + [] == w;
      assert w[|w|..] == [];
    } else if |ws| > 1 {
      var w, j := ws[0], Join(ws[1..]);
      var s := w + " " + j;
      assert DropSpaces(s) == s;
      assert s == w + (" " + j);
      TakeWordOf(w, " " + j);
      assert s[|w|..] == [' '] + j;
      SplitSkipsSpace(' ', j);
      SplitJoin(ws[1..]);
      assert ws == [w] + ws[1..];
    }
  }

  /**
   * A line built as `prefix PRIVMSG channel body...` with no earlier
   * PRIVMSG parses to that channel and that body.
   */
  lemma ParsePrivmsgLine(prefix: seq<string>, channel: string, body: seq<string>)
    requires forall k :: 0 <= k < |prefix| ==> IsWord(prefix[k])
    requires forall k :: 0 <= k < |body| ==> IsWord(body[k])
    requires IsWord(channel) && MsgCmd !in prefix
    ensures var line := Join(prefix + [MsgCmd, channel] + body);
      ParseMessage(line) == Ok(Privmsg(line, channel, body))
  {
    var ws := prefix + [MsgCmd, channel] + body;
    PrivmsgLineWords(prefix, channel, body);
    SplitJoin(ws);
    PrivmsgAt(Join(ws), |prefix|);
  }

  /** The words of `prefix PRIVMSG channel body...`: all of them words, with PRIVMSG first at `|prefix|`. */
  lemma PrivmsgLineWords(prefix: seq<string>, channel: string, body: seq<string>)
    requires forall k :: 0 <= k < |prefix| ==> IsWord(prefix[k])
    requires forall k :: 0 <= k < |body| ==> IsWord(body[k])
    requires IsWord(channel) && MsgCmd !in prefix
    ensures var ws, i := prefix + [MsgCmd, channel] + body, |prefix|;
      && (forall k :: 0 <= k < |ws| ==> IsWord(ws[k]))
      && i + 1 < |ws| && ws[i] == MsgCmd && MsgCmd !in ws[..i] && ws[i + 1] == channel && ws[i + 2..] == body
  {
    var ws, i := prefix + [MsgCmd, channel] + body, |prefix|;
    CmdIsWord();
    AllWordsConcat(prefix, [MsgCmd, channel]);
    AllWordsConcat(prefix + [MsgCmd, channel], body);
    assert ws[..i] == prefix;
    assert ws[i + 2..] == body;
  }

  /** PRIVMSG is itself a word. */
  lemma CmdIsWord()
    ensures IsWord(MsgCmd)
  {
  }

  /** A concatenation of word sequences is a word sequence. */
  lemma AllWordsConcat(a: seq<string>, b: seq<string>)
    requires forall k :: 0 <= k < |a| ==> IsWord(a[k])
    requires forall k :: 0 <= k < |b| ==> IsWord(b[k])
    ensures forall k :: 0 <= k < |a + b| ==> IsWord((a + b)[k])
  {
  }

  /** The parse of a line whose first PRIVMSG token is at index `i`, followed by a destination. */
  lemma PrivmsgAt(line: string, i: nat)
    requires i + 1 < |Split(line)| && Split(line)[i] == MsgCmd && MsgCmd !in Split(line)[..i]
    ensures ParseMessage(line) == Ok(Privmsg(line, Split(line)[i + 1], Split(line)[i + 2..]))
  {
  }

  /** A line whose only PRIVMSG is its last word makes the parser raise `IndexError`. */
  lemma ParseTrailingPrivmsg(prefix: seq<string>)
    requires forall k :: 0 <= k < |prefix| ==> IsWord(prefix[k])
    requires MsgCmd !in prefix
    ensures ParseMessage(Join(prefix + [MsgCmd])) == Err(IndexError)
  {
    var ws := prefix + [MsgCmd];
    CmdIsWord();
    AllWordsConcat(prefix, [MsgCmd]);
    SplitJoin(ws);
    assert ws[|prefix|] == MsgCmd && ws[..|prefix|] == prefix;
  }
}
