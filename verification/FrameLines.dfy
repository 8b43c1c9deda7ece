/** What the decoder makes of a stream, told line by line, and how the read loop ends. */
module FrameLines {
  import opened Prelude
  import opened CappedBuffers
  import opened Frames

  /** Bytes up to and including the first delimiter. */
  predicate Complete(line: seq<byte>) {
    line != [] && line[|line| - 1] == 10 && 10 !in line[..|line| - 1]
  }

  /** A line that is a message: 8 MiB and its delimiter at most, and the parser takes it. */
  predicate Readable<V>(parse: seq<byte> -> Option<V>, line: seq<byte>) {
    Complete(line) && |line| <= 8 * 1024 * 1024 + 1 && parse(line).Some?
  }

  function Values<V>(parse: seq<byte> -> Option<V>, lines: seq<seq<byte>>): seq<V>
    requires forall line <- lines :: Readable(parse, line)
  {
    if lines == [] then []
    else
      assert lines[0] in lines && forall line <- lines[1..] :: line in lines;
      assert Readable(parse, lines[0]);
      [parse(lines[0]).value] + Values(parse, lines[1..])
  }

  /** A stream is readable lines and then a tail at which reading comes to a stop: a part of a line, which is
      kept; a line, or the beginning of one, that is too long; or a line that the parser refuses. */
  ghost predicate IsLines<V>(parse: seq<byte> -> Option<V>, s: seq<byte>, lines: seq<seq<byte>>, tail: seq<byte>) {
    && (forall line <- lines :: Readable(parse, line))
    && s == Flatten(lines) + tail
    && forall k | 0 < k <= |tail| :: !Readable(parse, tail[..k])
  }

  /** What stops the reading at `tail`, if anything does. */
  function Fault(tail: seq<byte>): Option<FrameError> {
    if |tail| > 8 * 1024 * 1024 + 1 && 10 !in tail[..8 * 1024 * 1024 + 1] then Some(TooLong)
    else if 10 in tail then Some(Malformed)
    else None
  }

  lemma CompleteLine(line: seq<byte>, more: seq<byte>)
    requires Complete(line)
    ensures LineEnd(line + more) == |line| - 1
  {
    var body := line[..|line| - 1];
    WithoutLine(body);
    LineEndOfConcat(body, [10]);
    assert line == body + [10];
    LineEndOfConcat(line, more);
  }

  lemma ReadableFirst<V>(parse: seq<byte> -> Option<V>, line: seq<byte>, more: seq<byte>)
    requires Readable(parse, line)
    ensures First(parse, line + more) == Line(parse(line).value, more)
  {
    CompleteLine(line, more);
    assert (line + more)[..|line|] == line;
    assert (line + more)[|line|..] == more;
  }

  /** The first line is too long exactly when no delimiter is among as many bytes as a line may have. */
  lemma FaultByLine(tail: seq<byte>)
    ensures
      Fault(tail)
      == if LineEnd(tail) > 8 * 1024 * 1024 && |tail| > 8 * 1024 * 1024 + 1 then Some(TooLong)
         else if LineEnd(tail) < |tail| then Some(Malformed) else None
  {
    var n := LineEnd(tail);
    WithoutLine(tail);
    hide LineEnd;
    if |tail| > 8 * 1024 * 1024 + 1 {
      var most := tail[..8 * 1024 * 1024 + 1];
      if n > 8 * 1024 * 1024 {
        assert most == tail[..n][..8 * 1024 * 1024 + 1];
      } else {
        assert most[n] == 10;
      }
    }
  }

  lemma TailStops<V>(parse: seq<byte> -> Option<V>, tail: seq<byte>)
    requires forall k | 0 < k <= |tail| :: !Readable(parse, tail[..k])
    ensures Decode(parse, tail) == Decoded([], if Fault(tail).Some? then [] else tail, Fault(tail))
  {
    var n := LineEnd(tail);
    FaultByLine(tail);
    hide Fault, LineEnd;
    if n < |tail| {
      var line := tail[..n + 1];
      assert line[..|line| - 1] == tail[..n];
      assert Complete(line);
      assert !Readable(parse, line);
    }
  }

  lemma FirstLine<V>(parse: seq<byte> -> Option<V>, line: seq<byte>, after: seq<byte>)
    requires Readable(parse, line)
    ensures
      var later := Decode(parse, after);
      Decode(parse, line + after) == Decoded([parse(line).value] + later.messages, later.rest, later.error)
  {
    ReadableFirst(parse, line, after);
    hide Readable, First;
  }

  lemma OneLineLess<V>(parse: seq<byte> -> Option<V>, s: seq<byte>, lines: seq<seq<byte>>, tail: seq<byte>)
    requires IsLines(parse, s, lines, tail) && lines != []
    ensures Readable(parse, lines[0]) && IsLines(parse, Flatten(lines[1..]) + tail, lines[1..], tail)
    ensures s == lines[0] + (Flatten(lines[1..]) + tail)
  {
    var line, rest := lines[0], lines[1..];
    hide Readable;
    assert line in lines && forall l <- rest :: l in lines;
    assert lines == [line] + rest;
    FlattenCons(line, rest);
    hide Flatten;
  }

  /** Whoever cuts a stream into lines knows what the decoder makes of it. */
  lemma {:induction false} LinesAreDecoded<V>(
    parse: seq<byte> -> Option<V>, s: seq<byte>, lines: seq<seq<byte>>, tail: seq<byte>)
    requires IsLines(parse, s, lines, tail)
    ensures Decode(parse, s) == Decoded(Values(parse, lines), if Fault(tail).Some? then [] else tail, Fault(tail))
    decreases |lines|
  {
    if lines == [] {
      assert s == tail;
      TailStops(parse, tail);
    } else {
      var after := Flatten(lines[1..]) + tail;
      OneLineLess(parse, s, lines, tail);
      hide Readable, Fault, First, Flatten, Decode;
      LinesAreDecoded(parse, after, lines[1..], tail);
      FirstLine(parse, lines[0], after);
    }
  }

  lemma {:induction false} FlattenCons<T>(first: seq<T>, rest: seq<seq<T>>)
    ensures Flatten([first] + rest) == first + Flatten(rest)
  {
    var all := [first] + rest;
    if rest == [] {
      assert all[..0] == [] && Flatten(all[..0]) == [];
    } else {
      FlattenCons(first, rest[..|rest| - 1]);
      assert all[..|all| - 1] == [first] + rest[..|rest| - 1];
    }
  }

  /** Every stream can be cut so, and in one way only, as far as the decoder can tell. */
  lemma {:induction false} EveryStreamIsLines<V>(parse: seq<byte> -> Option<V>, s: seq<byte>)
    returns (lines: seq<seq<byte>>, tail: seq<byte>)
    ensures IsLines(parse, s, lines, tail)
    decreases |s|
  {
    if k :| 0 < k <= |s| && Readable(parse, s[..k]) {
      var later;
      later, tail := EveryStreamIsLines(parse, s[k..]);
      lines := [s[..k]] + later;
      FlattenCons(s[..k], later);
      assert s == s[..k] + s[k..];
    } else {
      lines, tail := [], s;
    }
  }

  // ---------------------------------------------------------------- the read loop

  /** Where the reading of `inputs` comes to a stop by itself. */
  predicate StopsAt(inputs: seq<Read>, n: nat) {
    && n <= |inputs|
    && (forall k | 0 <= k < n :: inputs[k].Output? && inputs[k].bytes != [])
    && (n < |inputs| ==> inputs[n] == Stopping || inputs[n] == ReadError || inputs[n] == Output([]))
  }

  function BytesOf(inputs: seq<Read>, n: nat): seq<byte>
    requires n <= |inputs| && forall k | 0 <= k < n :: inputs[k].Output?
  {
    if n == 0 then [] else BytesOf(inputs, n - 1) + inputs[n - 1].bytes
  }

  lemma {:induction false} OutputsBefore(inputs: seq<Read>, n: nat)
    requires StopsAt(inputs, n)
    ensures |Outputs(inputs)| == n && forall k | 0 <= k < n :: Outputs(inputs)[k] == inputs[k].bytes
  {
    if n > 0 {
      assert forall k | 0 <= k < n - 1 :: inputs[1..][k] == inputs[k + 1];
      OutputsBefore(inputs[1..], n - 1);
    }
  }

  lemma {:induction false} FlatOutputs(inputs: seq<Read>, n: nat, outputs: seq<seq<byte>>)
    requires n <= |inputs| && |outputs| == n
    requires forall k | 0 <= k < n :: inputs[k].Output? && outputs[k] == inputs[k].bytes
    ensures Flatten(outputs) == BytesOf(inputs, n)
  {
    if n > 0 {
      FlatOutputs(inputs, n - 1, outputs[..n - 1]);
    }
  }

  /** Given the lines of what is read up to where the reads stop: the loop hands on their messages up to the
      first that dispatching refuses. If there is none it ends because of the fault the lines end in; and if
      they end in none, the way the next read tells. */
  lemma LoopEnds<V>(parse: seq<byte> -> Option<V>, refuse: (nat, V) -> Option<Refusal>, inputs: seq<Read>, n: nat,
                    lines: seq<seq<byte>>, tail: seq<byte>)
    requires StopsAt(inputs, n) && IsLines(parse, BytesOf(inputs, n), lines, tail)
    ensures
      var (handed, end) := Outcome(parse, refuse, inputs);
      var messages := Values(parse, lines);
      && handed <= messages
      && (forall k: nat | k < |handed| :: refuse(k, handed[k]).None?)
      && (end.Refused? ==> |handed| < |messages| && refuse(|handed|, messages[|handed|]) == Some(end.refusal))
      && (end.Rejected? ==> Fault(tail) == Some(end.error))
      && (!end.Refused? && !end.Rejected? ==>
            && handed == messages && Fault(tail).None?
            && end == if n == |inputs| then Waiting
                      else match inputs[n]
                        case Stopping => Stopped
                        case ReadError => Unreadable
                        case Output(_) => if tail == [] then Closed else Incomplete)
  {
    OutcomeIsReference(parse, refuse, inputs);
    OutputsBefore(inputs, n);
    FlatOutputs(inputs, n, Outputs(inputs));
    LinesAreDecoded(parse, BytesOf(inputs, n), lines, tail);
    hide Outcome, Decode, Flatten, Outputs, Fault, Values;
  }

  lemma {:induction false} FaultIsMet<V>(parse: seq<byte> -> Option<V>, outputs: seq<seq<byte>>) returns (i: nat)
    requires Feed(parse, outputs).error.Some?
    ensures i < |outputs| && Feed(parse, outputs[..i]).error.None? && Feed(parse, outputs[..i + 1]).error.Some?
    ensures Feed(parse, outputs[..i]).handed == Feed(parse, outputs).handed
  {
    var init := outputs[..|outputs| - 1];
    hide Decode;
    if Feed(parse, init).error.Some? {
      i := FaultIsMet(parse, init);
      assert outputs[..i] == init[..i] && outputs[..i + 1] == init[..i + 1];
    } else {
      i := |init|;
      assert outputs[..i + 1] == outputs;
    }
  }

  /** When the loop gives up because of a fault, it has handed on the messages of all reads before the one that
      shows the fault. */
  lemma RejectedAtItsRead<V>(parse: seq<byte> -> Option<V>, refuse: (nat, V) -> Option<Refusal>,
                             inputs: seq<Read>, n: nat) returns (i: nat)
    requires StopsAt(inputs, n) && Outcome(parse, refuse, inputs).1.Rejected?
    ensures i < n
    ensures
      var before := Decode(parse, BytesOf(inputs, i));
      before.error.None? && Outcome(parse, refuse, inputs).0 == before.messages
    ensures Decode(parse, BytesOf(inputs, i + 1)).error == Some(Outcome(parse, refuse, inputs).1.error)
  {
    var outputs := Outputs(inputs);
    OutputsBefore(inputs, n);
    EndsByFault(parse, refuse, inputs);
    i := FaultIsMet(parse, outputs);
    FailedFeedStays(parse, outputs, i + 1);
    FlatOutputs(inputs, i, outputs[..i]);
    FlatOutputs(inputs, i + 1, outputs[..i + 1]);
    ChunkIndependence(parse, outputs[..i]);
    ChunkIndependence(parse, outputs[..i + 1]);
    hide Feed, Decode, Flatten, Outputs, Outcome;
  }

  lemma EndsByFault<V>(parse: seq<byte> -> Option<V>, refuse: (nat, V) -> Option<Refusal>, inputs: seq<Read>)
    requires Outcome(parse, refuse, inputs).1.Rejected?
    ensures
      var fed := Feed(parse, Outputs(inputs));
      Outcome(parse, refuse, inputs).0 == fed.handed && fed.error == Some(Outcome(parse, refuse, inputs).1.error)
  {
    hide Feed, Outputs;
  }
}
