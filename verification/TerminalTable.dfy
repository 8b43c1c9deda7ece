/** Stopping terminals and cutting their output, as the loops they are. */
module TerminalTable {
  import opened Prelude
  import opened CappedBuffers
  import opened Terminals

  /** In UTF-8 every byte but a continuation byte begins a character, and so does the end. */
  predicate Boundary(text: seq<byte>, i: nat) {
    i == |text| || (i < |text| && !(0x80 <= text[i] < 0xC0))
  }

  /** The longest tail of at most `limit` bytes that does not cut a character, and whether anything is
      missing. */
  method TerminalText(text: seq<byte>, truncated: bool, limit: nat) returns (tail: seq<byte>, cut: bool)
    ensures |tail| <= limit && |tail| <= |text| && tail == text[|text| - |tail|..]
    ensures Boundary(text, |text| - |tail|)
    ensures forall i: nat | |text| - limit <= i < |text| - |tail| :: !Boundary(text, i)
    ensures cut <==> truncated || tail != text
  {
    var start := if |text| >= limit then |text| - limit else 0;
    while !Boundary(text, start)
      invariant |text| - limit <= start <= |text|
      invariant forall i: nat | |text| - limit <= i < start :: !Boundary(text, i)
      decreases |text| - start
    {
      start := start + 1;
    }
    tail := text[start..];
    cut := truncated || start > 0;
    assert start > 0 <==> |tail| < |text|;
  }

  class Table {
    /** The session of each terminal. */
    var entries: map<nat, nat>

    constructor ()
      ensures entries == map[]
    {
      entries := map[];
    }

    /** `stop_terminals`: takes out the terminals of one session, or all of them. */
    method Stop(session: Option<nat>) returns (taken: map<nat, nat>)
      modifies this
      ensures entries == old(entries) - taken.Keys && taken.Keys <= old(entries).Keys
      ensures taken.Keys == if session.None? then old(entries).Keys else Of(old(entries), session.value)
      ensures forall id | id in taken :: taken[id] == old(entries)[id]
    {
      var ids := if session.None? then entries.Keys else Of(entries, session.value);
      taken := map[];
      var rest := ids;
      while rest != {}
        invariant rest <= ids && taken.Keys == ids - rest
        invariant entries == old(entries) - taken.Keys
        invariant forall id | id in taken :: taken[id] == old(entries)[id]
        decreases |rest|
      {
        var id :| id in rest;
        rest := rest - {id};
        taken := taken[id := entries[id]];
        entries := entries - {id};
      }
    }
  }
}
