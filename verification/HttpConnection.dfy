/**
  `httpadapter.connection`: the `closed` flag around the encoder. A write that
  fails closes the connection, so that nothing is ever written after a frame
  that was cut short.
*/
module HttpConnection {
  import opened Options
  import opened EventStream
  import opened Wire
  import opened WireRoundTrip

  datatype SendResult = Sent | Invalid | Closed

  /** The comment `openStream` writes first. */
  const OPENING := ":\n\n"

  /** What a response holds after `sent` was sent and then, perhaps, part of `last`'s frame. */
  ghost predicate Written(wire: string, sent: seq<Message>, last: Option<Message>, tail: string) {
    && AllAccepted(sent) && wire == OPENING + (Stream(sent) + tail)
    && (last.None? ==> tail == "")
    && (last.Some? ==> Accepts(last.value) && tail <= Frame(last.value))
  }

  lemma OpeningLines(rest: string)
    ensures Lines(OPENING + rest) == [":", ""] + Lines(rest)
  {
    assert Unlines([":", ""]) == OPENING by {
      assert [":", ""][1..] == [""] && [""][1..] == [];
    }
    LinesOfUnlines([":", ""], rest);
  }

  lemma OpeningInvisible(rest: string)
    ensures Interpret(OPENING + rest) == ProcessAll(FRESH, Lines(rest))
  {
    OpeningLines(rest);
    ProcessAllAppend(FRESH, [":", ""], Lines(rest));
    assert ProcessAll(FRESH, [":", ""]) == FRESH by {
      assert [":", ""][1..] == [""] && [""][1..] == [];
    }
    assert (OPENING + rest)[0] == ':';
  }

  lemma {:induction false} StreamAppend(ms: seq<Message>, m: Message)
    ensures Stream(ms + [m]) == Stream(ms) + Frame(m)
  {
    if ms == [] {
      assert ms + [m] == [m];
      StreamOfOne(m);
    } else {
      var longer := ms + [m];
      assert longer[0] == ms[0] && longer[1..] == ms[1..] + [m];
      StreamAppend(ms[1..], m);
      assert Stream(longer) == Frame(ms[0]) + (Stream(ms[1..]) + Frame(m));
      Assoc(Frame(ms[0]), Stream(ms[1..]), Frame(m));
    }
  }

  /** Writing all or part of one more frame. */
  lemma WrittenMore(wire: string, sent: seq<Message>, m: Message, written: string)
    requires Written(wire, sent, None, "") && Accepts(m) && written <= Frame(m)
    ensures Written(wire + written, sent, Some(m), written)
    ensures written == Frame(m) ==> Written(wire + written, sent + [m], None, "")
  {
    assert Stream(sent) + "" == Stream(sent);
    Assoc(OPENING, Stream(sent), written);
    if written == Frame(m) {
      StreamAppend(sent, m);
      assert Stream(sent + [m]) + "" == Stream(sent + [m]);
    }
  }

  /**
    The client gets the messages whose `Send` succeeded and, at most, the one
    whose frame went out whole before its `Send` failed.
  */
  lemma ClientSees(wire: string, sent: seq<Message>, last: Option<Message>, tail: string)
    requires Written(wire, sent, last, tail)
    ensures var whole := last.Some? && tail == Frame(last.value);
            Interpret(wire).events == Meanings(FRESH, if whole then sent + [last.value] else sent).events
  {
    OpeningInvisible(Stream(sent) + tail);
    if last.Some? && tail == Frame(last.value) {
      WholeTail(sent, last.value);
    } else {
      StreamRoundTrip(FRESH, sent, tail);
      if last.Some? {
        FrameLinesSafe(last.value);
        CutLinesNotEmpty(FrameLines(last.value), tail);
      }
      NoEmptyLineNoEvent(Meanings(FRESH, sent), Lines(tail));
    }
  }

  lemma WholeTail(sent: seq<Message>, m: Message)
    requires AllAccepted(sent) && Accepts(m)
    ensures ProcessAll(FRESH, Lines(Stream(sent) + Frame(m))) == Meanings(FRESH, sent + [m])
  {
    StreamRoundTrip(FRESH, sent, Frame(m));
    FrameConsumed(Meanings(FRESH, sent), m, "");
    assert Frame(m) + "" == Frame(m);
    MeaningsAppend(FRESH, sent, m);
  }

  class Connection {
    var closed: bool
    /** Everything written to the response. */
    var wire: string
    ghost var sent: seq<Message>
    ghost var last: Option<Message>
    ghost var tail: string

    ghost predicate Valid()
      reads this
    {
      Written(wire, sent, last, tail) && (last.Some? ==> closed)
    }

    /** A connection on which `openStream` has succeeded. */
    constructor ()
      ensures Valid() && !closed && sent == []
    {
      closed, wire, sent, last, tail := false, OPENING, [], None, "";
    }

    /**
      `Send`. The response writer takes `accepted` characters of the frame and
      then flushes, or fails to; `requestDone` is the state of the request.
    */
    method Send(m: Message, requestDone: bool, accepted: nat, flushed: bool) returns (result: SendResult)
      requires Valid()
      modifies this
      ensures Valid()
      ensures result.Invalid? <==> !old(closed) && !requestDone && !Accepts(m)
      ensures Accepts(m) <==>
                && '\r' !in m.event && '\n' !in m.event && '\0' !in m.id && '\r' !in m.id && '\n' !in m.id
                && m.retry >= 0
      ensures result.Sent? <==> !old(closed) && !requestDone && Accepts(m) && accepted >= |Frame(m)| && flushed
      ensures sent == if result.Sent? then old(sent) + [m] else old(sent)
      ensures result.Invalid? || old(closed) || requestDone ==> wire == old(wire) && closed == old(closed)
      ensures result.Closed? && !requestDone ==> closed
    {
      AcceptsExactly(m);
      if closed || requestDone {
        return Closed;
      }
      if !BreakFree(m.event) {
        return Invalid;
      }
      if !BreakFree(m.id) || '\0' in m.id {
        return Invalid;
      }
      if m.retry < 0 {
        return Invalid;
      }
      var frame := Encode(m);
      var written := if accepted < |frame| then frame[..accepted] else frame;
      WrittenMore(wire, sent, m, written);
      wire := wire + written;
      if |written| == |frame| && flushed {
        sent := sent + [m];
        return Sent;
      }
      closed, last, tail := true, Some(m), written;
      return Closed;
    }

    method Close()
      requires Valid()
      modifies this`closed
      ensures Valid() && closed
    {
      closed := true;
    }
  }
}
