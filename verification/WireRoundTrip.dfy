/** What a client that parses by the standard gets out of what the encoder wrote. */
module WireRoundTrip {
  import opened Options
  import opened EventStream
  import opened Wire

  /** Between frames the parser's data and event type buffers are empty. */
  predicate BetweenFrames(p: Parser) {
    p.data == "" && p.eventType == ""
  }

  /** What one accepted message means to the client. */
  function Meaning(p: Parser, m: Message): (r: Parser)
    requires m.retry >= 0
  {
    var id := if m.id != "" then m.id else p.idBuffer;
    Parser("", "", id, id,
           if m.retry > 0 then Some(m.retry / NANOSECONDS_PER_MILLISECOND) else p.reconnection,
           if m.hasData then p.events + [Dispatched(if m.event == "" then "message" else m.event, Normalized(m.data), id)]
           else p.events)
  }

  function Meanings(p: Parser, ms: seq<Message>): (r: Parser)
    requires forall i :: 0 <= i < |ms| ==> ms[i].retry >= 0
    decreases ms
  {
    if ms == [] then p else Meanings(Meaning(p, ms[0]), ms[1..])
  }

  function Stream(ms: seq<Message>): (s: string) {
    if ms == [] then "" else Frame(ms[0]) + Stream(ms[1..])
  }

  predicate AllAccepted(ms: seq<Message>) {
    forall i :: 0 <= i < |ms| ==> Accepts(ms[i])
  }

  // -------------------------------------------------------- splitting frames

  predicate AllBreakFree(ls: seq<string>) {
    forall i :: 0 <= i < |ls| ==> BreakFree(ls[i])
  }

  predicate NoneEmpty(ls: seq<string>) {
    forall i :: 0 <= i < |ls| ==> ls[i] != ""
  }

  lemma {:induction false} LinesOfUnlines(ls: seq<string>, rest: string)
    requires AllBreakFree(ls)
    ensures Lines(Unlines(ls) + rest) == ls + Lines(rest)
  {
    if ls == [] {
      assert Unlines(ls) + rest == rest;
    } else {
      calc {
        Lines(Unlines(ls) + rest);
        { UnlinesFirst(ls, rest); }
        Lines(ls[0] + "\n" + (Unlines(ls[1..]) + rest));
        { LinesFirst(ls[0], Unlines(ls[1..]) + rest); }
        [ls[0]] + Lines(Unlines(ls[1..]) + rest);
        { LinesOfUnlines(ls[1..], rest); }
        [ls[0]] + (ls[1..] + Lines(rest));
        ls + Lines(rest);
      }
    }
  }

  lemma UnlinesFirst(ls: seq<string>, rest: string)
    requires ls != []
    ensures Unlines(ls) + rest == ls[0] + "\n" + (Unlines(ls[1..]) + rest)
  {
    Assoc(ls[0] + "\n", Unlines(ls[1..]), rest);
  }

  lemma {:induction false} CommentLinesSafe(ls: seq<string>)
    requires AllBreakFree(ls)
    ensures AllBreakFree(CommentLines(ls)) && NoneEmpty(CommentLines(ls))
  {
    if ls != [] {
      CommentLinesSafe(ls[1..]);
    }
  }

  lemma {:induction false} DataLinesSafe(ls: seq<string>)
    requires AllBreakFree(ls)
    ensures AllBreakFree(DataLines(ls)) && NoneEmpty(DataLines(ls))
  {
    if ls != [] {
      DataLinesSafe(ls[1..]);
    }
  }

  predicate Safe(ls: seq<string>) {
    AllBreakFree(ls) && NoneEmpty(ls)
  }

  lemma SafeAppend(a: seq<string>, b: seq<string>)
    requires Safe(a) && Safe(b)
    ensures Safe(a + b)
  {}

  lemma FieldSafe(name: string, value: string)
    requires name != "" && BreakFree(name) && BreakFree(value)
    ensures Safe([FieldLine(name, value)])
  {}

  lemma TextPartsSafe(m: Message)
    ensures Safe(CommentPart(m)) && Safe(DataPart(m))
  {
    SplitLinesNormalizes(m.comment);
    CommentLinesSafe(SplitLines(m.comment));
    SplitLinesNormalizes(m.data);
    DataLinesSafe(SplitLines(m.data));
  }

  lemma FieldPartsSafe(m: Message)
    requires Accepts(m)
    ensures Safe(EventPart(m)) && Safe(IdPart(m))
  {
    FieldSafe("event", m.event);
    FieldSafe("id", m.id);
  }

  /** No line of a frame contains a break or is blank, so no frame can affect how another is split. */
  lemma FrameLinesSafe(m: Message)
    requires Accepts(m)
    ensures Safe(FrameLines(m))
  {
    TextPartsSafe(m);
    FieldPartsSafe(m);
    RetryLineSafe(m);
    SafeAppend(CommentPart(m), EventPart(m));
    SafeAppend(CommentPart(m) + EventPart(m), IdPart(m));
    SafeAppend(CommentPart(m) + EventPart(m) + IdPart(m), RetryPart(m));
    SafeAppend(CommentPart(m) + EventPart(m) + IdPart(m) + RetryPart(m), DataPart(m));
  }

  lemma RetryLineSafe(m: Message)
    requires m.retry >= 0
    ensures Safe(RetryPart(m))
  {
    if m.retry > 0 {
      var digits := FormatInt(m.retry / NANOSECONDS_PER_MILLISECOND);
      forall i | 0 <= i < |digits|
        ensures !IsBreak(digits[i])
      {
        assert IsDigit(digits[i]);
      }
    }
  }

  lemma FrameAsLines(m: Message)
    ensures Frame(m) == Unlines(FrameLines(m) + [""])
  {
    UnlinesAppend(FrameLines(m), [""]);
    assert Unlines([""]) == "" + "\n" + Unlines([]);
  }

  lemma FrameSplits(m: Message, rest: string)
    requires Accepts(m)
    ensures Lines(Frame(m) + rest) == FrameLines(m) + [""] + Lines(rest)
  {
    FrameLinesSafe(m);
    FrameAsLines(m);
    LinesOfUnlines(FrameLines(m) + [""], rest);
  }

  // ----------------------------------------------------- interpreting one frame

  /** Reading a written field gives the name and the value back, leading spaces included. */
  lemma FieldRoundTrip(p: Parser, name: string, value: string)
    requires name != "" && ':' !in name
    ensures Process(p, FieldLine(name, value)) == Field(p, name, value)
  {
    var line := FieldLine(name, value);
    var i := FirstColon(line);
    assert line[..|name|] == name && line[|name|] == ':';
    assert ':' !in line[..i];
    assert i == |name|;
    var after := (if value != "" && value[0] == ' ' then " " else "") + value;
    assert line[i + 1..] == after;
    assert StripSpace(after) == value;
  }

  lemma {:induction false} CommentsIgnored(p: Parser, ls: seq<string>)
    ensures ProcessAll(p, CommentLines(ls)) == p
  {
    if ls != [] {
      CommentsIgnored(p, ls[1..]);
      assert CommentLines(ls)[1..] == CommentLines(ls[1..]);
    }
  }

  lemma DataLineCollected(p: Parser, ls: seq<string>)
    requires ls != []
    ensures ProcessAll(p, DataLines(ls)) == ProcessAll(p.(data := p.data + ls[0] + "\n"), DataLines(ls[1..]))
  {
    FieldRoundTrip(p, "data", ls[0]);
    assert DataLines(ls)[1..] == DataLines(ls[1..]);
  }

  lemma {:induction false} DataCollected(p: Parser, ls: seq<string>)
    requires ls != []
    ensures ProcessAll(p, DataLines(ls)) == p.(data := p.data + Join(ls) + "\n")
    decreases ls
  {
    DataLineCollected(p, ls);
    if |ls| > 1 {
      DataCollected(p.(data := p.data + ls[0] + "\n"), ls[1..]);
      FiveParts(p.data, ls[0], Join(ls[1..]));
    }
  }

  lemma FiveParts(a: string, b: string, c: string)
    ensures (a + b + "\n") + c + "\n" == a + (b + "\n" + c) + "\n"
  {}

  lemma ProcessOne(p: Parser, line: string)
    ensures ProcessAll(p, [line]) == Process(p, line)
  {
    assert [line][1..] == [];
  }

  lemma RetryRoundTrip(p: Parser, m: Message)
    requires m.retry > 0
    ensures ProcessAll(p, RetryPart(m)) == p.(reconnection := Some(m.retry / NANOSECONDS_PER_MILLISECOND))
  {
    var ms := m.retry / NANOSECONDS_PER_MILLISECOND;
    FormatIntParses(ms);
    assert IsDigit(FormatInt(ms)[0]);
    FieldRoundTrip(p, "retry", FormatInt(ms));
    assert FieldLine("retry", FormatInt(ms)) == "retry:" + FormatInt(ms);
    ProcessOne(p, "retry:" + FormatInt(ms));
  }

  lemma EventRoundTrip(p: Parser, m: Message)
    ensures ProcessAll(p, EventPart(m)) == if EventPart(m) == [] then p else p.(eventType := m.event)
  {
    if m.event != "" && m.event != DEFAULT_EVENT {
      FieldRoundTrip(p, "event", m.event);
      ProcessOne(p, FieldLine("event", m.event));
    }
  }

  lemma IdRoundTrip(p: Parser, m: Message)
    requires '\0' !in m.id
    ensures ProcessAll(p, IdPart(m)) == if m.id == "" then p else p.(idBuffer := m.id)
  {
    if m.id != "" {
      FieldRoundTrip(p, "id", m.id);
      ProcessOne(p, FieldLine("id", m.id));
    }
  }

  lemma DataRoundTrip(p: Parser, m: Message)
    requires p.data == ""
    ensures ProcessAll(p, DataPart(m)) == if m.hasData then p.(data := Normalized(m.data) + "\n") else p
  {
    if m.hasData {
      SplitLinesNormalizes(m.data);
      var lines := SplitLines(m.data);
      DataCollected(p, lines);
      assert "" + Join(lines) == Join(lines);
    }
  }

  /** The buffers when all lines of the frame but the blank one are read. */
  function Buffered(p: Parser, m: Message): (r: Parser)
    requires m.retry >= 0
  {
    p.(eventType := if m.event == DEFAULT_EVENT then "" else m.event,
       idBuffer := if m.id == "" then p.idBuffer else m.id,
       reconnection := if m.retry > 0 then Some(m.retry / NANOSECONDS_PER_MILLISECOND) else p.reconnection,
       data := if m.hasData then Normalized(m.data) + "\n" else "")
  }

  lemma FrameBuffered(p: Parser, m: Message)
    requires Accepts(m) && BetweenFrames(p)
    ensures ProcessAll(p, FrameLines(m)) == Buffered(p, m)
  {
    var c, e, i, r := CommentPart(m), EventPart(m), IdPart(m), RetryPart(m);
    ProcessAllAppend(p, c + e + i + r, DataPart(m));
    ProcessAllAppend(p, c + e + i, r);
    ProcessAllAppend(p, c + e, i);
    ProcessAllAppend(p, c, e);
    CommentsIgnored(p, SplitLines(m.comment));
    EventRoundTrip(p, m);
    var p1 := ProcessAll(p, e);
    IdRoundTrip(p1, m);
    var p2 := ProcessAll(p1, i);
    if m.retry > 0 {
      RetryRoundTrip(p2, m);
    }
    DataRoundTrip(ProcessAll(p2, r), m);
  }

  lemma BlankLineDispatches(p: Parser, m: Message)
    requires Accepts(m) && BetweenFrames(p)
    ensures Process(Buffered(p, m), "") == Meaning(p, m)
  {
    var data := Normalized(m.data) + "\n";
    assert data[..|data| - 1] == Normalized(m.data);
  }

  /** One frame, read between frames: exactly what the message means, and the parser is between frames again. */
  lemma FrameRoundTrip(p: Parser, m: Message)
    requires Accepts(m) && BetweenFrames(p)
    ensures ProcessAll(p, FrameLines(m) + [""]) == Meaning(p, m)
    ensures BetweenFrames(Meaning(p, m))
  {
    ProcessAllAppend(p, FrameLines(m), [""]);
    FrameBuffered(p, m);
    ProcessOne(Buffered(p, m), "");
    BlankLineDispatches(p, m);
  }

  // ---------------------------------------------------------- whole streams

  /** Frame by frame, whatever follows the frames. */
  lemma {:induction false} StreamRoundTrip(p: Parser, ms: seq<Message>, rest: string)
    requires AllAccepted(ms) && BetweenFrames(p)
    ensures ProcessAll(p, Lines(Stream(ms) + rest)) == ProcessAll(Meanings(p, ms), Lines(rest))
    ensures BetweenFrames(Meanings(p, ms))
    decreases ms
  {
    if ms == [] {
      assert Stream(ms) + rest == rest;
    } else {
      StreamFirst(ms, rest);
      FrameConsumed(p, ms[0], Stream(ms[1..]) + rest);
      StreamRoundTrip(Meaning(p, ms[0]), ms[1..], rest);
    }
  }

  lemma StreamFirst(ms: seq<Message>, rest: string)
    requires ms != []
    ensures Stream(ms) + rest == Frame(ms[0]) + (Stream(ms[1..]) + rest)
  {}

  /** The first frame is read for what it means, whatever follows it. */
  lemma FrameConsumed(p: Parser, m: Message, rest: string)
    requires Accepts(m) && BetweenFrames(p)
    ensures ProcessAll(p, Lines(Frame(m) + rest)) == ProcessAll(Meaning(p, m), Lines(rest))
  {
    FrameSplits(m, rest);
    ProcessAllAppend(p, FrameLines(m) + [""], Lines(rest));
    FrameRoundTrip(p, m);
  }

  lemma {:induction false} MeaningsAppend(p: Parser, ms: seq<Message>, m: Message)
    requires AllAccepted(ms) && Accepts(m)
    ensures Meanings(p, ms + [m]) == Meaning(Meanings(p, ms), m)
    decreases ms
  {
    if ms == [] {
      assert ms + [m] == [m] && [m][1..] == [];
    } else {
      MeaningsAppend(Meaning(p, ms[0]), ms[1..], m);
      assert (ms + [m])[0] == ms[0] && (ms + [m])[1..] == ms[1..] + [m];
    }
  }

  lemma FrameStartsPlain(m: Message)
    requires Accepts(m)
    ensures Frame(m) != "" && Frame(m)[0] != BYTE_ORDER_MARK
  {
    var ls := FrameLines(m);
    if ls != [] {
      FirstLine(m);
      assert Frame(m)[0] == ls[0][0];
    }
  }

  lemma FirstLine(m: Message)
    requires FrameLines(m) != []
    ensures FrameLines(m)[0] != "" && FrameLines(m)[0][0] in {':', 'e', 'i', 'r', 'd'}
  {
    if m.comment != "" {
      assert FrameLines(m)[0] == CommentPart(m)[0];
    } else if EventPart(m) != [] {
      assert FrameLines(m)[0] == EventPart(m)[0];
    } else if IdPart(m) != [] {
      assert FrameLines(m)[0] == IdPart(m)[0];
    } else if RetryPart(m) != [] {
      assert FrameLines(m)[0] == RetryPart(m)[0];
    } else {
      assert FrameLines(m)[0] == DataPart(m)[0];
    }
  }

  /**
    Wire round trip: parsing the frames of any accepted messages gives, for
    each message with data, one event with its name, its normalized data and
    the latest non-empty ID, and the latest retry; a message without data
    dispatches nothing.
  */
  lemma WireRoundTrips(ms: seq<Message>)
    requires AllAccepted(ms)
    ensures Interpret(Stream(ms)) == Meanings(FRESH, ms)
  {
    if ms != [] {
      FrameStartsPlain(ms[0]);
    }
    StreamRoundTrip(FRESH, ms, "");
    assert Stream(ms) + "" == Stream(ms);
  }

  lemma StreamOfOne(m: Message)
    ensures Stream([m]) == Frame(m)
  {
    assert [m][1..] == [];
    assert Stream([m]) == Frame(m) + Stream([]);
  }

  lemma MeaningsOfOne(p: Parser, m: Message)
    requires m.retry >= 0
    ensures Meanings(p, [m]) == Meaning(p, m)
  {
    assert [m][1..] == [];
  }

  /** One frame by itself. */
  lemma OneRoundTrip(m: Message)
    requires Accepts(m)
    ensures Interpret(Frame(m)) == Meaning(FRESH, m)
  {
    StreamOfOne(m);
    assert AllAccepted([m]);
    WireRoundTrips([m]);
    MeaningsOfOne(FRESH, m);
  }

  // ----------------------------------------------------------------- comments

  /** The text of a line if it is a comment, which a parser passes over. */
  function CommentOf(line: string): (r: seq<string>) {
    if line != "" && line[0] == ':' then [line[1..]] else []
  }

  function CommentsOf(ls: seq<string>): (r: seq<string>) {
    if ls == [] then [] else CommentOf(ls[0]) + CommentsOf(ls[1..])
  }

  predicate NoComment(ls: seq<string>) {
    forall i :: 0 <= i < |ls| ==> ls[i] == "" || ls[i][0] != ':'
  }

  lemma {:induction false} CommentsAppend(a: seq<string>, b: seq<string>)
    ensures CommentsOf(a + b) == CommentsOf(a) + CommentsOf(b)
  {
    if a == [] {
      assert a + b == b;
    } else {
      var c, d, f := CommentOf(a[0]), CommentsOf(a[1..]), CommentsOf(b);
      assert (a + b)[0] == a[0] && (a + b)[1..] == a[1..] + b;
      CommentsAppend(a[1..], b);
      assert CommentsOf(a + b) == c + (d + f);
      assert c + (d + f) == (c + d) + f;
    }
  }

  lemma {:induction false} NoCommentsOf(ls: seq<string>)
    requires NoComment(ls)
    ensures CommentsOf(ls) == []
  {
    if ls != [] {
      NoCommentsOf(ls[1..]);
    }
  }

  lemma {:induction false} CommentsOfCommentLines(ls: seq<string>)
    ensures CommentsOf(CommentLines(ls)) == ls
  {
    if ls != [] {
      CommentsOfCommentLines(ls[1..]);
      assert CommentLines(ls)[1..] == CommentLines(ls[1..]);
      assert (":" + ls[0])[1..] == ls[0];
    }
  }

  lemma {:induction false} DataLinesNoComment(ls: seq<string>)
    ensures NoComment(DataLines(ls))
  {
    if ls != [] {
      DataLinesNoComment(ls[1..]);
    }
  }

  lemma FieldsNoComment(m: Message)
    ensures NoComment(EventPart(m) + IdPart(m) + RetryPart(m) + DataPart(m) + [""])
  {
    DataLinesNoComment(SplitLines(m.data));
  }

  /**
    The comment of a message is written, line by line, and nothing else as a
    comment: so a heartbeat's text goes out.
  */
  lemma CommentIsWritten(m: Message)
    requires Accepts(m)
    ensures CommentsOf(Lines(Frame(m))) == if m.comment == "" then [] else SplitLines(m.comment)
    ensures m.comment != "" ==> Join(CommentsOf(Lines(Frame(m)))) == Normalized(m.comment)
  {
    var rest := EventPart(m) + IdPart(m) + RetryPart(m) + DataPart(m) + [""];
    LinesOfFrame(m);
    CommentsAppend(CommentPart(m), rest);
    FieldsNoComment(m);
    NoCommentsOf(rest);
    if m.comment != "" {
      CommentsOfCommentLines(SplitLines(m.comment));
      SplitLinesNormalizes(m.comment);
    }
  }

  lemma LinesOfFrame(m: Message)
    requires Accepts(m)
    ensures Lines(Frame(m)) == CommentPart(m) + (EventPart(m) + IdPart(m) + RetryPart(m) + DataPart(m) + [""])
  {
    LinesOfOne(m);
    SixParts(CommentPart(m), EventPart(m), IdPart(m), RetryPart(m), DataPart(m), [""]);
  }

  lemma LinesOfOne(m: Message)
    requires Accepts(m)
    ensures Lines(Frame(m)) == FrameLines(m) + [""]
  {
    FrameSplits(m, "");
    assert Frame(m) + "" == Frame(m);
    assert Lines("") == [];
  }

  lemma SixParts(a: seq<string>, b: seq<string>, c: seq<string>, d: seq<string>, e: seq<string>, f: seq<string>)
    ensures a + b + c + d + e + f == a + (b + c + d + e + f)
  {}

  // ------------------------------------------------------------ broken writes

  lemma {:induction false} CutLinesNotEmpty(ls: seq<string>, cut: string)
    requires AllBreakFree(ls) && NoneEmpty(ls) && cut < Unlines(ls) + "\n"
    ensures NoneEmpty(Lines(cut))
  {
    if ls == [] {
      assert cut == "";
    } else {
      var whole := Unlines(ls) + "\n";
      var rest := Unlines(ls[1..]) + "\n";
      assert whole == ls[0] + "\n" + rest;
      if |cut| <= |ls[0]| {
        assert cut == ls[0][..|cut|];
        assert FirstBreak(cut) == |cut|;
      } else {
        var after := cut[|ls[0]| + 1..];
        assert cut == ls[0] + "\n" + after;
        assert after < rest;
        CutLinesNotEmpty(ls[1..], after);
        LinesFirst(ls[0], after);
      }
    }
  }

  /** A frame that was cut short dispatches nothing: everything before it, and only that, arrives. */
  lemma CutFrameDispatchesNothing(ms: seq<Message>, m: Message, cut: string)
    requires AllAccepted(ms) && Accepts(m) && cut < Frame(m)
    ensures Interpret(Stream(ms) + cut).events == Interpret(Stream(ms)).events
  {
    FrameLinesSafe(m);
    CutLinesNotEmpty(FrameLines(m), cut);
    if ms != [] {
      FrameStartsPlain(ms[0]);
      assert (Stream(ms) + cut)[0] == Frame(ms[0])[0];
    } else {
      FrameStartsPlain(m);
      assert cut != "" ==> cut[0] == Frame(m)[0];
    }
    StreamRoundTrip(FRESH, ms, cut);
    NoEmptyLineNoEvent(Meanings(FRESH, ms), Lines(cut));
    WireRoundTrips(ms);
  }
}
