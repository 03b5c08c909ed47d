/**
 * The severity levels of WeeScript.py: eight names in ascending order, the
 * index of a name is its level, and a `log_X` call emits only when the
 * configured threshold is at most the level of X.
 */
module Logging {
  import opened Wrappers
  import opened Lists

  /** A severity level: the position of its name in `LevelNames`. */
  type Level = l: nat | l < 8

  /** The level names, in ascending order of severity. */
  const LevelNames: seq<string> := ["DEBUG", "INFO", "NOTICE", "WARNING", "ERR", "CRIT", "ALERT", "EMERG"]

  const DEBUG: Level := 0
  const INFO: Level := 1
  const NOTICE: Level := 2
  const WARNING: Level := 3
  const ERR: Level := 4
  const CRIT: Level := 5
  const ALERT: Level := 6
  const EMERG: Level := 7

  /** The `LOG_LEVELS` lookup: the level a name denotes, if it is one of the eight. */
  function ParseLevel(name: string): (r: Option<Level>)
    ensures r.Some? <==> name in LevelNames
    ensures r.Some? ==> LevelNames[r.value] == name
  {
    if name in LevelNames then Some(IndexOf(LevelNames, name)) else None
  }

  /** Whether a message at `level` passes the threshold `threshold`. */
  predicate Passes(threshold: Level, level: Level)
  {
    threshold <= level
  }

  /** The levels actually emitted by a series of `log_X` calls at `levels` under `threshold`. */
  function Emitted(threshold: Level, levels: seq<Level>): (r: seq<Level>)
    ensures |r| <= |levels|
    ensures forall k :: 0 <= k < |r| ==> Passes(threshold, r[k])
    ensures forall l :: l in levels && Passes(threshold, l) ==> l in r
  {
    if levels == [] then []
    else (if Passes(threshold, levels[0]) then [levels[0]] else []) + Emitted(threshold, levels[1..])
  }

  /**
   * Emitting only filters: each level occurs in the output exactly as often
   * as it was logged when it passes the threshold, and not at all otherwise.
   */
  lemma {:induction false} EmittedCounts(threshold: Level, levels: seq<Level>)
    ensures forall l: Level ::
              multiset(Emitted(threshold, levels))[l] == if Passes(threshold, l) then multiset(levels)[l] else 0
  {
    if levels != [] {
      EmittedCounts(threshold, levels[1..]);
      assert levels == [levels[0]] + levels[1..];
    }
  }

  /** Round trip: every level's name parses back to that level. */
  lemma ParseLevelName(l: Level)
    ensures ParseLevel(LevelNames[l]) == Some(l)
  {
  }

  /** The default threshold, DEBUG, lets every level through. */
  lemma {:induction false} DebugPassesAll(levels: seq<Level>)
    ensures Emitted(DEBUG, levels) == levels
  {
    if levels != [] {
      DebugPassesAll(levels[1..]);
    }
  }

  /** Filtering a concatenation filters each part. */
  lemma {:induction false} EmittedAppend(threshold: Level, a: seq<Level>, b: seq<Level>)
    ensures Emitted(threshold, a + b) == Emitted(threshold, a) + Emitted(threshold, b)
  {
    if a == [] {
      assert a + b == b;
    } else {
      assert (a + b)[1..] == a[1..] + b;
      EmittedAppend(threshold, a[1..], b);
    }
  }

  /**
   * Raising the threshold only drops messages: the output under `hi` is the
   * output under `lo` with the messages below `hi` dropped, and everything it
   * keeps passes `lo` as well.
   */
  lemma {:induction false} EmittedMonotone(lo: Level, hi: Level, levels: seq<Level>)
    requires lo <= hi
    ensures Emitted(hi, levels) == Emitted(hi, Emitted(lo, levels))
    ensures Emitted(hi, levels) == Emitted(lo, Emitted(hi, levels))
  {
    if levels != [] {
      var head := if Passes(hi, levels[0]) then [levels[0]] else [];
      var headLo := if Passes(lo, levels[0]) then [levels[0]] else [];
      EmittedMonotone(lo, hi, levels[1..]);
      EmittedAppend(lo, head, Emitted(hi, levels[1..]));
      EmittedAppend(hi, headLo, Emitted(lo, levels[1..]));
    }
  }
}
