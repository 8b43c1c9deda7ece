/** What the agent's decoder makes of the bytes the output queue produces. */
module Transport {
  import opened Prelude
  import opened CappedBuffers
  import opened Frames
  import opened Outbound

  /** The values of the frames written completely, in order. */
  function Delivered<V>(parse: seq<byte> -> Option<V>, log: seq<Delivery>): seq<V>
    requires forall d <- log :: parse(d.frame.bytes).Some?
  {
    if log == [] then [] else
    var init, last := log[..|log| - 1], log[|log| - 1];
    assert forall d <- init :: d in log;
    Delivered(parse, init) + if last.written then [parse(last.frame.bytes).value] else []
  }

  lemma DecodeFrame<V>(parse: seq<byte> -> Option<V>, f: Frame)
    requires WellFramed(f) && parse(f.bytes).Some?
    ensures Decode(parse, f.bytes) == Decoded([parse(f.bytes).value], [], None)
  {
    var body := f.bytes[..|f.bytes| - 1];
    WithoutLine(body);
    LineEndOfConcat(body, [NEWLINE]);
    assert f.bytes == body + [NEWLINE];
    assert f.bytes[..|f.bytes|] == f.bytes;
    assert f.bytes[|f.bytes|..] == [];
    assert First(parse, f.bytes) == Line(parse(f.bytes).value, []);
  }

  lemma {:induction false} DecodeComplete<V>(parse: seq<byte> -> Option<V>, log: seq<Delivery>)
    requires forall d <- log :: WellFramed(d.frame) && parse(d.frame.bytes).Some?
    ensures Decode(parse, Complete(log)) == Decoded(Delivered(parse, log), [], None)
  {
    if log != [] {
      var init, last := log[..|log| - 1], log[|log| - 1];
      assert forall d <- init :: d in log;
      assert last in log;
      DecodeComplete(parse, init);
      if last.written {
        DecodeConcat(parse, Complete(init), last.frame.bytes);
        assert [] + last.frame.bytes == last.frame.bytes;
        DecodeFrame(parse, last.frame);
      } else {
        assert Complete(log) == Complete(init);
      }
    }
  }

  /** In every run, however the agent's reads cut the bytes, its decoder yields exactly the values of
      the frames written, in order, holds the unfinished frame, and reports no error. */
  lemma AgentReadsWhatWasSent<V>(es: seq<Event>, parse: seq<byte> -> Option<V>, chunks: seq<seq<byte>>)
    requires Flatten(chunks) == Run(es).wire
    requires forall f <- Run(es).sent :: parse(f.bytes).Some?
    ensures forall d <- Run(es).log :: parse(d.frame.bytes).Some?
    ensures Feed(parse, chunks) == Fed(Delivered(parse, Run(es).log), Torn(Run(es).writer), None)
  {
    var s := Run(es);
    WireIsFrames(es);
    forall d <- s.log
      ensures d.frame in s.sent
    {
      var i :| 0 <= i < |s.log| && s.log[i] == d;
      assert Outbound.Frames(s.log)[i] == d.frame == s.sent[i];
    }
    hide Run;
    DecodeComplete(parse, s.log);
    ChunkIndependence(parse, chunks);
    var torn := Torn(s.writer);
    DecodeConcat(parse, Complete(s.log), torn);
    assert [] + torn == torn;
    TornIsPartial(s);
    DecodePartial(parse, torn);
    assert Delivered(parse, s.log) + [] == Delivered(parse, s.log);
  }

  lemma TornIsPartial(s: State)
    requires Delivering(s)
    ensures Partial(Torn(s.writer))
  {
    var torn := Torn(s.writer);
    if torn != [] {
      var f := s.sent[|s.log|];
      assert f in s.sent;
      assert torn == f.bytes[..|torn|];
      assert torn == f.bytes[..|f.bytes| - 1][..|torn|];
    }
  }
}
