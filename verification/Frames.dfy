/** The incremental decoder of newline-delimited messages. */
module Frames {
  import opened Prelude
  import opened CappedBuffers

  datatype FrameError = TooLong | Malformed

  /** Where the first line of `s` ends, or |s| if it does not. */
  function LineEnd(s: seq<byte>): (n: nat)
    ensures n <= |s|
    ensures NEWLINE !in s[..n]
    ensures n < |s| ==> s[n] == NEWLINE
  {
    if s == [] || s[0] == NEWLINE then 0 else
    var n := 1 + LineEnd(s[1..]);
    assert s[..n] == [s[0]] + s[1..][..n - 1];
    n
  }

  datatype Head<V> = NoLine | Bad(error: FrameError) | Line(value: V, after: seq<byte>)

  /** The first line of a stream. `parse` is the JSON parser, which is handed the delimiter too. */
  function First<V>(parse: seq<byte> -> Option<V>, s: seq<byte>): (head: Head<V>)
    ensures head.Line? ==> |head.after| < |s|
  {
    var n := LineEnd(s);
    if n == |s| then if |s| > MAX_FRAME + 1 then Bad(TooLong) else NoLine
    else if n + 1 > MAX_FRAME + 1 then Bad(TooLong)
    else match parse(s[..n + 1])
      case None => Bad(Malformed)
      case Some(value) => Line(value, s[n + 1..])
  }

  datatype Decoded<V> = Decoded(messages: seq<V>, rest: seq<byte>, error: Option<FrameError>)

  /** The reference: a whole stream decoded line by line. */
  function Decode<V>(parse: seq<byte> -> Option<V>, s: seq<byte>): Decoded<V>
    decreases |s|
  {
    match First(parse, s)
    case NoLine => Decoded([], s, None)
    case Bad(error) => Decoded([], [], Some(error))
    case Line(value, after) =>
      var later := Decode(parse, after);
      Decoded([value] + later.messages, later.rest, later.error)
  }

  /** What the decoder may be holding between two reads. */
  predicate Partial(pending: seq<byte>) {
    NEWLINE !in pending && |pending| <= MAX_FRAME + 1
  }

  lemma {:induction false} RestIsPartial<V>(parse: seq<byte> -> Option<V>, s: seq<byte>)
    ensures Partial(Decode(parse, s).rest)
    decreases |s|
  {
    var head := First(parse, s);
    if head.Line? {
      RestIsPartial(parse, head.after);
    } else if head.NoLine? {
      assert s[..|s|] == s;
    }
  }

  lemma LineEndOfConcat(s: seq<byte>, t: seq<byte>)
    ensures LineEnd(s) < |s| ==> LineEnd(s + t) == LineEnd(s)
    ensures LineEnd(s) == |s| ==> LineEnd(s + t) == |s| + LineEnd(t)
  {
    if s == [] {
      assert s + t == t;
    } else if s[0] != NEWLINE {
      LineEndOfConcat(s[1..], t);
      assert (s + t)[1..] == s[1..] + t;
    }
  }

  lemma FirstOfConcat<V>(parse: seq<byte> -> Option<V>, s: seq<byte>, t: seq<byte>)
    ensures First(parse, s).Bad? ==> First(parse, s + t) == First(parse, s)
    ensures First(parse, s).Line? ==> First(parse, s + t) == Line(First(parse, s).value, First(parse, s).after + t)
  {
    LineEndOfConcat(s, t);
    var n := LineEnd(s);
    if n < |s| {
      assert (s + t)[..n + 1] == s[..n + 1];
      assert (s + t)[n + 1..] == s[n + 1..] + t;
    }
  }

  /** Decoding may stop anywhere and resume from what is left over; an error is final. */
  lemma {:induction false} DecodeConcat<V>(parse: seq<byte> -> Option<V>, s: seq<byte>, t: seq<byte>)
    ensures
      var d, whole := Decode(parse, s), Decode(parse, s + t);
      if d.error.None? then
        var later := Decode(parse, d.rest + t);
        whole == Decoded(d.messages + later.messages, later.rest, later.error)
      else
        whole.error == d.error && whole.messages == d.messages
    decreases |s|
  {
    hide First;
    FirstOfConcat(parse, s, t);
    match First(parse, s) {
      case NoLine =>
      case Bad(_) =>
      case Line(value, after) =>
        DecodeConcat(parse, after, t);
        var d := Decode(parse, after);
        var later := Decode(parse, d.rest + t);
        assert [value] + (d.messages + later.messages) == [value] + d.messages + later.messages;
    }
  }

  /** The first line of `pending + input`, when `input[..k]` is its first segment. */
  lemma FirstSegment<V>(parse: seq<byte> -> Option<V>, pending: seq<byte>, input: seq<byte>, k: nat)
    requires Partial(pending) && 0 < k <= |input|
    requires NEWLINE !in input[..k - 1] && (input[k - 1] == NEWLINE || k == |input|)
    ensures
      var head, line := First(parse, pending + input), pending + input[..k];
      if |line| > MAX_FRAME + 1 then head == Bad(TooLong)
      else if input[k - 1] != NEWLINE then Partial(line) && line == pending + input
      else head == match parse(line)
        case None => Bad(Malformed)
        case Some(value) => Line(value, input[k..])
  {
    WithoutLine(pending);
    LineEndOfConcat(pending, input);
    WithoutLine(input[..k - 1]);
    assert input == input[..k - 1] + input[k - 1..];
    LineEndOfConcat(input[..k - 1], input[k - 1..]);
    hide LineEnd;
    if input[k - 1] != NEWLINE {
      assert input[k - 1..] == [input[k - 1]];
    } else {
      assert (pending + input)[..|pending| + k] == pending + input[..k];
      assert (pending + input)[|pending| + k..] == input[k..];
    }
  }

  /** What consuming that segment does to the decoding. */
  lemma DecodeSegment<V>(parse: seq<byte> -> Option<V>, pending: seq<byte>, input: seq<byte>, k: nat)
    requires Partial(pending) && 0 < k <= |input|
    requires NEWLINE !in input[..k - 1] && (input[k - 1] == NEWLINE || k == |input|)
    ensures
      var d, line := Decode(parse, pending + input), pending + input[..k];
      if |line| > MAX_FRAME + 1 then d.error == Some(TooLong)
      else if input[k - 1] != NEWLINE then k == |input| && Partial(line) && d == Decoded([], line, None)
      else match parse(line)
        case None => d.error == Some(Malformed)
        case Some(value) => Continues(d, [value], Decode(parse, input[k..]))
  {
    hide First;
    FirstSegment(parse, pending, input, k);
    if |pending + input[..k]| <= MAX_FRAME + 1 && input[k - 1] != NEWLINE {
      DecodePartial(parse, pending + input);
    }
  }

  lemma DecodePartial<V>(parse: seq<byte> -> Option<V>, s: seq<byte>)
    requires Partial(s)
    ensures Decode(parse, s) == Decoded([], s, None)
  {
    WithoutLine(s);
  }

  /** Decoding `whole` means having decoded `messages` and then decoding the rest as `later`. */
  ghost predicate Continues<V>(whole: Decoded<V>, messages: seq<V>, later: Decoded<V>) {
    whole == Decoded(messages + later.messages, later.rest, later.error)
  }

  lemma ContinuesFurther<V>(whole: Decoded<V>, messages: seq<V>, middle: Decoded<V>, more: seq<V>, later: Decoded<V>)
    requires Continues(whole, messages, middle) && Continues(middle, more, later)
    ensures Continues(whole, messages + more, later)
  {
    assert messages + (more + later.messages) == messages + more + later.messages;
  }

  lemma WithoutLine(s: seq<byte>)
    ensures NEWLINE !in s <==> LineEnd(s) == |s|
  {
    var n := LineEnd(s);
    if n == |s| {
      assert s[..n] == s;
    }
  }

  // ---------------------------------------------------------------- the object

  class Decoder<V> {
    const parse: seq<byte> -> Option<V>
    var pending: seq<byte>

    constructor (parse: seq<byte> -> Option<V>)
      ensures this.parse == parse && pending == []
    {
      this.parse := parse;
      pending := [];
    }

    /** One read: `input[..count]` split after each delimiter. */
    method Push(input: array<byte>, count: nat) returns (result: Result<seq<V>, FrameError>)
      requires Partial(pending) && count <= input.Length
      modifies this
      ensures
        var d := Decode(parse, old(pending) + input[..count]);
        match d.error
        case None => result == Success(d.messages) && pending == d.rest && Partial(pending)
        case Some(error) => result == Failure(error)
    {
      hide Decode;
      var messages: seq<V> := [];
      var start := 0;
      ghost var whole := Decode(parse, pending + input[..count]);
      assert input[0..count] == input[..count];
      while start < count
        invariant 0 <= start <= count
        invariant Partial(pending)
        invariant Continues(whole, messages, Decode(parse, pending + input[start..count]))
      {
        var end := SegmentEnd(input, start, count);
        ghost var middle := Decode(parse, pending + input[start..count]);
        DecodeSegment(parse, pending, input[start..count], end - start);
        assert input[start..count][..end - start] == input[start..end];
        assert input[start..count][end - start..] == input[end..count];
        if |pending| + (end - start) > MAX_FRAME + 1 {
          return Failure(TooLong);
        }
        pending := pending + input[start..end];
        if pending[|pending| - 1] == NEWLINE {
          match parse(pending) {
            case None =>
              return Failure(Malformed);
            case Some(value) =>
              pending := [];
              assert pending + input[end..count] == input[end..count];
              ContinuesFurther(whole, messages, middle, [value], Decode(parse, input[end..count]));
              messages := messages + [value];
          }
        } else {
          assert pending + input[end..count] == pending;
          DecodePartial(parse, pending);
        }
        start := end;
      }
      assert pending + input[start..count] == pending;
      DecodePartial(parse, pending);
      assert messages + [] == messages;
      return Success(messages);
    }

    /** The end of the segment starting at `start`: just past the first delimiter, or `count`. */
    method SegmentEnd(input: array<byte>, start: nat, count: nat) returns (end: nat)
      requires start < count <= input.Length
      ensures start < end <= count
      ensures NEWLINE !in input[start..end - 1]
      ensures input[end - 1] == NEWLINE || end == count
    {
      end := start + 1;
      while end < count && input[end - 1] != NEWLINE
        invariant start < end <= count
        invariant NEWLINE !in input[start..end - 1]
      {
        end := end + 1;
      }
    }
  }

  // ---------------------------------------------------------------- many reads

  datatype Fed<V> = Fed(handed: seq<V>, rest: seq<byte>, error: Option<FrameError>)

  /** Successive reads, stopping at the first error, whose own messages are lost. */
  function Feed<V>(parse: seq<byte> -> Option<V>, chunks: seq<seq<byte>>): Fed<V> {
    if chunks == [] then Fed([], [], None) else
    var earlier := Feed(parse, chunks[..|chunks| - 1]);
    if earlier.error.Some? then earlier else
    var d := Decode(parse, earlier.rest + chunks[|chunks| - 1]);
    if d.error.Some? then earlier.(error := d.error) else
    Fed(earlier.handed + d.messages, d.rest, None)
  }

  /** However the stream is cut, the outcome is that of the line-by-line reference; on an error,
      what was handed on before it is a prefix of the reference's messages. */
  lemma {:induction false} ChunkIndependence<V>(parse: seq<byte> -> Option<V>, chunks: seq<seq<byte>>)
    ensures
      var f, d := Feed(parse, chunks), Decode(parse, Flatten(chunks));
      && Partial(f.rest)
      && f.error == d.error
      && (f.error.None? ==> f.handed == d.messages && f.rest == d.rest)
      && (f.error.Some? ==> f.handed <= d.messages)
  {
    if chunks != [] {
      var init, last := chunks[..|chunks| - 1], chunks[|chunks| - 1];
      ChunkIndependence(parse, init);
      DecodeConcat(parse, Flatten(init), last);
      RestIsPartial(parse, Feed(parse, init).rest + last);
    }
  }

  /** Any two ways of cutting one stream agree. */
  lemma TwoCutsAgree<V>(parse: seq<byte> -> Option<V>, left: seq<seq<byte>>, right: seq<seq<byte>>)
    requires Flatten(left) == Flatten(right)
    ensures
      var l, r := Feed(parse, left), Feed(parse, right);
      l.error == r.error && (l.error.None? ==> l.handed == r.handed && l.rest == r.rest)
  {
    ChunkIndependence(parse, left);
    ChunkIndependence(parse, right);
  }

  lemma {:induction false} FailedFeedStays<V>(parse: seq<byte> -> Option<V>, chunks: seq<seq<byte>>, k: nat)
    requires k <= |chunks| && Feed(parse, chunks[..k]).error.Some?
    ensures Feed(parse, chunks) == Feed(parse, chunks[..k])
    decreases |chunks|
  {
    if k < |chunks| {
      var init := chunks[..|chunks| - 1];
      assert init[..k] == chunks[..k];
      FailedFeedStays(parse, init, k);
    } else {
      assert chunks[..k] == chunks;
    }
  }

  /** One more read. */
  lemma FeedNext<V>(parse: seq<byte> -> Option<V>, chunks: seq<seq<byte>>, i: nat)
    requires i < |chunks| && Feed(parse, chunks[..i]).error.None?
    ensures
      var earlier := Feed(parse, chunks[..i]);
      var d := Decode(parse, earlier.rest + chunks[i]);
      Feed(parse, chunks[..i + 1])
      == if d.error.Some? then earlier.(error := d.error) else Fed(earlier.handed + d.messages, d.rest, None)
  {
    hide Decode;
    assert chunks[..i + 1][..i] == chunks[..i];
  }

  lemma {:induction false} FeedGrows<V>(parse: seq<byte> -> Option<V>, chunks: seq<seq<byte>>, k: nat)
    requires k <= |chunks|
    ensures Feed(parse, chunks[..k]).handed <= Feed(parse, chunks).handed
  {
    if k < |chunks| {
      var init := chunks[..|chunks| - 1];
      assert init[..k] == chunks[..k];
      hide Decode;
      FeedGrows(parse, init, k);
    } else {
      assert chunks[..k] == chunks;
    }
  }

  // ---------------------------------------------------------------- the read loop

  /** What the loop gets when it asks for more: output, of which none means that there is no more; an
      error; or that the connection has been stopped meanwhile. */
  datatype Read = Output(bytes: seq<byte>) | ReadError | Stopping

  /** Why a message was not dispatched. */
  datatype Refusal = Exhausted | BadEnvelope

  /** How the loop ends, `Waiting` if it has not yet. */
  datatype ReadEnd =
    | Waiting
    | Stopped
    | Closed
    | Incomplete
    | Unreadable
    | Rejected(error: FrameError)
    | Refused(refusal: Refusal)

  predicate Productive(read: Read) {
    read.Output? && read.bytes != []
  }

  /** The output before the first read that brings none. */
  function Outputs(inputs: seq<Read>): seq<seq<byte>> {
    if inputs == [] || !Productive(inputs[0]) then [] else [inputs[0].bytes] + Outputs(inputs[1..])
  }

  lemma {:induction false} OutputsAre(inputs: seq<Read>, i: nat)
    requires i <= |Outputs(inputs)|
    ensures |Outputs(inputs)| <= |inputs|
    ensures i < |Outputs(inputs)| <==> i < |inputs| && Productive(inputs[i])
    ensures i < |Outputs(inputs)| ==> Outputs(inputs)[i] == inputs[i].bytes
  {
    if inputs != [] && Productive(inputs[0]) {
      OutputsAre(inputs[1..], if i == 0 then 0 else i - 1);
    }
  }

  /** The messages up to the first that dispatching refuses; `refuse` may depend on how many came before. */
  function Dispatched<V>(refuse: (nat, V) -> Option<Refusal>, messages: seq<V>): (n: nat)
    ensures n <= |messages|
    ensures forall k: nat | k < n :: refuse(k, messages[k]).None?
    ensures n < |messages| ==> refuse(n, messages[n]).Some?
  {
    if messages == [] then 0
    else
      var last := |messages| - 1;
      var n := Dispatched(refuse, messages[..last]);
      if n < last then n else if refuse(last, messages[last]).Some? then last else last + 1
  }

  /** How the loop ends when everything read could be decoded and dispatched. */
  function Ending(inputs: seq<Read>, rest: seq<byte>): ReadEnd {
    OutputsAre(inputs, |Outputs(inputs)|);
    if |Outputs(inputs)| == |inputs| then Waiting
    else match inputs[|Outputs(inputs)|]
      case Output(_) => if rest == [] then Closed else Incomplete
      case ReadError => Unreadable
      case Stopping => Stopped
  }

  /** One read of the loop, into a buffer of its own. */
  method PushChunk<V>(frames: Decoder<V>, chunk: seq<byte>) returns (result: Result<seq<V>, FrameError>)
    requires Partial(frames.pending)
    modifies frames
    ensures
      var d := Decode(frames.parse, old(frames.pending) + chunk);
      match d.error
      case None => result == Success(d.messages) && frames.pending == d.rest && Partial(frames.pending)
      case Some(error) => result == Failure(error)
  {
    var buffer := new byte[|chunk|](k requires 0 <= k < |chunk| => chunk[k]);
    assert buffer[..buffer.Length] == chunk;
    result := frames.Push(buffer, buffer.Length);
  }

  /** Dispatching what one read brought, up to the first message that is refused. */
  method DispatchAll<V>(refuse: (nat, V) -> Option<Refusal>, handed: seq<V>, messages: seq<V>)
    returns (now: seq<V>, refusal: Option<Refusal>)
    ensures handed <= now <= handed + messages
    ensures forall k: nat | |handed| <= k < |now| :: refuse(k, now[k]).None?
    ensures
      if refusal.None? then now == handed + messages
      else |now| < |handed + messages| && refuse(|now|, (handed + messages)[|now|]) == refusal
  {
    now := handed;
    var i := 0;
    while i < |messages|
      invariant 0 <= i <= |messages| && now == handed + messages[..i]
      invariant forall k: nat | |handed| <= k < |now| :: refuse(k, now[k]).None?
    {
      var verdict := refuse(|now|, messages[i]);
      if verdict.Some? {
        return now, verdict;
      }
      now := now + [messages[i]];
      i := i + 1;
    }
    return now, None;
  }

  lemma DispatchedIs<V>(refuse: (nat, V) -> Option<Refusal>, messages: seq<V>, n: nat)
    requires n <= |messages| && (forall k: nat | k < n :: refuse(k, messages[k]).None?)
    requires n < |messages| ==> refuse(n, messages[n]).Some?
    ensures Dispatched(refuse, messages) == n
  {}

  /** What the loop hands on and how it ends, given how the output was cut. */
  function Outcome<V>(parse: seq<byte> -> Option<V>, refuse: (nat, V) -> Option<Refusal>, inputs: seq<Read>)
    : (seq<V>, ReadEnd)
  {
    var fed := Feed(parse, Outputs(inputs));
    var n := Dispatched(refuse, fed.handed);
    (fed.handed[..n],
     if n < |fed.handed| then Refused(refuse(n, fed.handed[n]).value)
     else if fed.error.Some? then Rejected(fed.error.value)
     else Ending(inputs, fed.rest))
  }

  /** The loop has taken `i` reads, handed on `handed` and keeps `pending`. */
  ghost predicate Reading<V>(parse: seq<byte> -> Option<V>, refuse: (nat, V) -> Option<Refusal>, inputs: seq<Read>,
                             i: nat, handed: seq<V>, pending: seq<byte>)
  {
    && i <= |Outputs(inputs)| && Partial(pending)
    && Feed(parse, Outputs(inputs)[..i]) == Fed(handed, pending, None)
    && forall k: nat | k < |handed| :: refuse(k, handed[k]).None?
  }

  lemma ReadingStarts<V>(parse: seq<byte> -> Option<V>, refuse: (nat, V) -> Option<Refusal>, inputs: seq<Read>)
    ensures Reading(parse, refuse, inputs, 0, [], [])
  {
    assert Outputs(inputs)[..0] == [];
  }

  lemma ReadingGoesOn<V>(parse: seq<byte> -> Option<V>, refuse: (nat, V) -> Option<Refusal>, inputs: seq<Read>,
                         i: nat, handed: seq<V>, pending: seq<byte>)
    requires Reading(parse, refuse, inputs, i, handed, pending) && i < |inputs| && Productive(inputs[i])
    ensures
      var d := Decode(parse, pending + inputs[i].bytes);
      if d.error.Some? then Outcome(parse, refuse, inputs) == (handed, Rejected(d.error.value))
      else
        && i < |Outputs(inputs)| && Partial(d.rest)
        && Feed(parse, Outputs(inputs)[..i + 1]) == Fed(handed + d.messages, d.rest, None)
  {
    hide Feed, Decode, Outputs, Dispatched, Ending;
    OutputsAre(inputs, i);
    FeedNext(parse, Outputs(inputs), i);
    RestIsPartial(parse, pending + inputs[i].bytes);
    if Decode(parse, pending + inputs[i].bytes).error.Some? {
      FailedFeedStays(parse, Outputs(inputs), i + 1);
      DispatchedIs(refuse, handed, |handed|);
      assert handed[..|handed|] == handed;
    }
  }

  /** Dispatching stopped in the middle of what `i` reads brought. */
  lemma ReadingRefused<V>(parse: seq<byte> -> Option<V>, refuse: (nat, V) -> Option<Refusal>, inputs: seq<Read>,
                          i: nat, now: seq<V>, refusal: Refusal)
    requires i <= |Outputs(inputs)|
    requires now < Feed(parse, Outputs(inputs)[..i]).handed
    requires forall k: nat | k < |now| :: refuse(k, now[k]).None?
    requires refuse(|now|, Feed(parse, Outputs(inputs)[..i]).handed[|now|]) == Some(refusal)
    ensures Outcome(parse, refuse, inputs) == (now, Refused(refusal))
  {
    hide Feed, Outputs, Dispatched, Ending;
    FeedGrows(parse, Outputs(inputs), i);
    var all := Feed(parse, Outputs(inputs)).handed;
    DispatchedIs(refuse, all, |now|);
    assert all[..|now|] == now;
  }

  lemma ReadingEnds<V>(parse: seq<byte> -> Option<V>, refuse: (nat, V) -> Option<Refusal>, inputs: seq<Read>,
                       i: nat, handed: seq<V>, pending: seq<byte>)
    requires Reading(parse, refuse, inputs, i, handed, pending)
    requires i == |inputs| || (i < |inputs| && !Productive(inputs[i]))
    ensures i == |Outputs(inputs)| && Outcome(parse, refuse, inputs) == (handed, Ending(inputs, pending))
  {
    hide Feed, Outputs, Dispatched, Ending;
    OutputsAre(inputs, i);
    assert Outputs(inputs)[..i] == Outputs(inputs);
    DispatchedIs(refuse, handed, |handed|);
    assert handed[..|handed|] == handed;
  }

  /** The read loop, one buffer per read. */
  method ReadLoop<V>(parse: seq<byte> -> Option<V>, refuse: (nat, V) -> Option<Refusal>, inputs: seq<Read>)
    returns (handed: seq<V>, end: ReadEnd)
    ensures (handed, end) == Outcome(parse, refuse, inputs)
  {
    var frames := new Decoder(parse);
    handed := [];
    var i := 0;
    ReadingStarts(parse, refuse, inputs);
    hide Feed, Decode, Outputs, Outcome;
    while i < |inputs| && Productive(inputs[i])
      invariant i <= |inputs| && frames.parse == parse
      invariant Reading(parse, refuse, inputs, i, handed, frames.pending)
    {
      ReadingGoesOn(parse, refuse, inputs, i, handed, frames.pending);
      var pushed := PushChunk(frames, inputs[i].bytes);
      match pushed {
        case Failure(error) => return handed, Rejected(error);
        case Success(messages) =>
          var refusal;
          handed, refusal := DispatchAll(refuse, handed, messages);
          if refusal.Some? {
            ReadingRefused(parse, refuse, inputs, i + 1, handed, refusal.value);
            return handed, Refused(refusal.value);
          }
      }
      i := i + 1;
    }
    ReadingEnds(parse, refuse, inputs, i, handed, frames.pending);
    if i == |inputs| {
      return handed, Waiting;
    }
    match inputs[i] {
      case Stopping => return handed, Stopped;
      case ReadError => return handed, Unreadable;
      case Output(_) => return handed, if frames.pending == [] then Closed else Incomplete;
    }
  }

  /** However the output is cut, the loop hands on messages of the line-by-line reference, from the first
      on; it ends at a refused message only if that is the next one, at a malformed line only if the
      reference does, and otherwise has handed on everything and says whether a line was left over. */
  lemma OutcomeIsReference<V>(parse: seq<byte> -> Option<V>, refuse: (nat, V) -> Option<Refusal>, inputs: seq<Read>)
    ensures
      var (handed, end) := Outcome(parse, refuse, inputs);
      var whole := Decode(parse, Flatten(Outputs(inputs)));
      && handed <= whole.messages
      && (forall k: nat | k < |handed| :: refuse(k, handed[k]).None?)
      && match end
         case Refused(refusal) =>
           |handed| < |whole.messages| && refuse(|handed|, whole.messages[|handed|]) == Some(refusal)
         case Rejected(error) => whole.error == Some(error)
         case _ => whole.error.None? && handed == whole.messages && end == Ending(inputs, whole.rest)
  {
    ChunkIndependence(parse, Outputs(inputs));
    hide Feed, Decode, Outputs, Flatten;
  }
}
