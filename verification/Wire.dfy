/** The SSE encoder of the HTTP adapter (`connection.Send`, `writeField`, `splitLines`). */
module Wire {
  import opened EventStream

  /** `retry` is in nanoseconds. */
  datatype Message = Message(event: string, data: string, hasData: bool, retry: int, id: string, comment: string)

  const DEFAULT_EVENT := "message"
  const NANOSECONDS_PER_MILLISECOND := 1_000_000

  /** The three checks `Send` makes before encoding. */
  predicate Accepts(m: Message) {
    BreakFree(m.event) && BreakFree(m.id) && '\0' !in m.id && m.retry >= 0
  }

  /** What the connection can encode: no break in the name or the ID, no null in the ID, no negative retry time. */
  lemma AcceptsExactly(m: Message)
    ensures Accepts(m) <==>
              && '\r' !in m.event && '\n' !in m.event && '\0' !in m.id && '\r' !in m.id && '\n' !in m.id
              && m.retry >= 0
  {}

  // -------------------------------------------------------------- splitLines

  /** `strings.ReplaceAll(s, "\r\n", "\n")`. */
  function ReplaceCrLf(s: string): (r: string) {
    if s == "" then ""
    else if |s| >= 2 && s[0] == '\r' && s[1] == '\n' then "\n" + ReplaceCrLf(s[2..])
    else [s[0]] + ReplaceCrLf(s[1..])
  }

  /** `strings.ReplaceAll(s, "\r", "\n")`. */
  function ReplaceCr(s: string): (r: string) {
    if s == "" then "" else [if s[0] == '\r' then '\n' else s[0]] + ReplaceCr(s[1..])
  }

  /** `strings.Split(s, "\n")`. */
  function Split(s: string): (ls: seq<string>)
    ensures ls != []
  {
    if s == "" then [""]
    else
      var rest := Split(s[1..]);
      if s[0] == '\n' then [""] + rest else [[s[0]] + rest[0]] + rest[1..]
  }

  function SplitLines(s: string): (ls: seq<string>)
    ensures ls != []
  {
    Split(ReplaceCr(ReplaceCrLf(s)))
  }

  /** The text with every line break, of whatever kind, written as one LF. */
  function Normalized(s: string): (r: string) {
    if s == "" then ""
    else if s[0] == '\r' then "\n" + Normalized(if |s| >= 2 && s[1] == '\n' then s[2..] else s[1..])
    else [s[0]] + Normalized(s[1..])
  }

  function Join(ls: seq<string>): (s: string)
    requires ls != []
  {
    if |ls| == 1 then ls[0] else ls[0] + "\n" + Join(ls[1..])
  }

  lemma {:induction false} ReplacingNormalizes(s: string)
    ensures ReplaceCr(ReplaceCrLf(s)) == Normalized(s)
  {
    if s != "" {
      if |s| >= 2 && s[0] == '\r' && s[1] == '\n' {
        ReplacingNormalizes(s[2..]);
        assert ReplaceCrLf(s)[1..] == ReplaceCrLf(s[2..]);
      } else {
        ReplacingNormalizes(s[1..]);
        assert ReplaceCrLf(s)[1..] == ReplaceCrLf(s[1..]);
      }
    }
  }

  lemma {:induction false} NormalizedHasNoCr(s: string)
    ensures '\r' !in Normalized(s)
  {
    if s != "" {
      NormalizedHasNoCr(if s[0] == '\r' && |s| >= 2 && s[1] == '\n' then s[2..] else s[1..]);
    }
  }

  lemma {:induction false} SplitParts(s: string)
    requires '\r' !in s
    ensures Join(Split(s)) == s
    ensures forall i :: 0 <= i < |Split(s)| ==> BreakFree(Split(s)[i])
  {
    if s != "" {
      SplitParts(s[1..]);
      assert s == [s[0]] + s[1..];
      if s[0] == '\n' {
        JoinBlank(Split(s[1..]));
      } else {
        JoinLonger(s[0], Split(s[1..]));
      }
    }
  }

  lemma JoinBlank(rest: seq<string>)
    requires rest != []
    ensures Join([""] + rest) == "\n" + Join(rest)
  {
    assert ([""] + rest)[1..] == rest;
    assert Join([""] + rest) == "" + "\n" + Join(rest);
  }

  lemma JoinLonger(c: char, rest: seq<string>)
    requires rest != []
    ensures Join([[c] + rest[0]] + rest[1..]) == [c] + Join(rest)
  {
    var ls := [[c] + rest[0]] + rest[1..];
    if |rest| > 1 {
      assert ls[1..] == rest[1..];
      Assoc([c], rest[0] + "\n", Join(rest[1..]));
      Assoc([c], rest[0], "\n");
    }
  }

  /** `splitLines` gives lines without breaks that make up the normalized text. */
  lemma SplitLinesNormalizes(s: string)
    ensures Join(SplitLines(s)) == Normalized(s)
    ensures forall i :: 0 <= i < |SplitLines(s)| ==> BreakFree(SplitLines(s)[i])
  {
    ReplacingNormalizes(s);
    NormalizedHasNoCr(s);
    SplitParts(Normalized(s));
  }

  // ------------------------------------------------------------------- frame

  function FormatInt(n: nat): (s: string)
    ensures AllDigits(s)
  {
    var digit := ('0' as int + n % 10) as char;
    if n < 10 then [digit] else FormatInt(n / 10) + [digit]
  }

  lemma {:induction false} FormatIntParses(n: nat)
    ensures ParseDigits(FormatInt(n)) == n
  {
    var s := FormatInt(n);
    if n < 10 {
      assert s[..|s| - 1] == "";
    } else {
      FormatIntParses(n / 10);
      assert s[..|s| - 1] == FormatInt(n / 10);
    }
  }

  /** What `writeField` writes, without the final LF: one more space before a value that starts with one. */
  function FieldLine(name: string, value: string): (line: string) {
    name + ":" + (if value != "" && value[0] == ' ' then " " else "") + value
  }

  function CommentLines(ls: seq<string>): (r: seq<string>) {
    if ls == [] then [] else [":" + ls[0]] + CommentLines(ls[1..])
  }

  function DataLines(ls: seq<string>): (r: seq<string>) {
    if ls == [] then [] else [FieldLine("data", ls[0])] + DataLines(ls[1..])
  }

  function CommentPart(m: Message): (ls: seq<string>) {
    if m.comment != "" then CommentLines(SplitLines(m.comment)) else []
  }

  function EventPart(m: Message): (ls: seq<string>) {
    if m.event != "" && m.event != DEFAULT_EVENT then [FieldLine("event", m.event)] else []
  }

  function IdPart(m: Message): (ls: seq<string>) {
    if m.id != "" then [FieldLine("id", m.id)] else []
  }

  function RetryPart(m: Message): (ls: seq<string>) {
    if m.retry > 0 then ["retry:" + FormatInt(m.retry / NANOSECONDS_PER_MILLISECOND)] else []
  }

  function DataPart(m: Message): (ls: seq<string>) {
    if m.hasData then DataLines(SplitLines(m.data)) else []
  }

  /** The lines of the frame before the blank one that ends it. */
  function FrameLines(m: Message): (ls: seq<string>) {
    CommentPart(m) + EventPart(m) + IdPart(m) + RetryPart(m) + DataPart(m)
  }

  function Unlines(ls: seq<string>): (s: string) {
    if ls == [] then "" else ls[0] + "\n" + Unlines(ls[1..])
  }

  function Frame(m: Message): (s: string) {
    Unlines(FrameLines(m)) + "\n"
  }

  lemma {:induction false} UnlinesAppend(a: seq<string>, b: seq<string>)
    ensures Unlines(a + b) == Unlines(a) + Unlines(b)
  {
    if a == [] {
      assert a + b == b;
    } else {
      UnlinesAppend(a[1..], b);
      assert (a + b)[1..] == a[1..] + b;
    }
  }

  // ------------------------------------------------------------ the encoder

  /** `writeField`, on a string builder. */
  method WriteField(builder: string, name: string, value: string) returns (r: string)
    ensures r == builder + Unlines([FieldLine(name, value)])
  {
    r := builder + name;
    r := r + ":";
    if value != "" && value[0] == ' ' {
      r := r + " ";
    }
    r := r + value;
    r := r + "\n";
    assert Unlines([FieldLine(name, value)]) == FieldLine(name, value) + "\n" + Unlines([]);
  }

  lemma FrameInParts(m: Message)
    ensures Frame(m) == Unlines(CommentPart(m)) + Unlines(EventPart(m)) + Unlines(IdPart(m)) + Unlines(RetryPart(m))
                        + Unlines(DataPart(m)) + "\n"
  {
    UnlinesAppend(CommentPart(m), EventPart(m));
    UnlinesAppend(CommentPart(m) + EventPart(m), IdPart(m));
    UnlinesAppend(CommentPart(m) + EventPart(m) + IdPart(m), RetryPart(m));
    UnlinesAppend(CommentPart(m) + EventPart(m) + IdPart(m) + RetryPart(m), DataPart(m));
  }

  /** The frame construction of `Send`. */
  method Encode(m: Message) returns (frame: string)
    requires m.retry >= 0
    ensures frame == Frame(m)
  {
    FrameInParts(m);
    frame := "";
    if m.comment != "" {
      frame := EncodeComment(m.comment);
    }
    assert frame == Unlines(CommentPart(m));
    if m.event != "" && m.event != DEFAULT_EVENT {
      frame := WriteField(frame, "event", m.event);
    }
    assert frame == Unlines(CommentPart(m)) + Unlines(EventPart(m));
    if m.id != "" {
      frame := WriteField(frame, "id", m.id);
    }
    assert frame == Unlines(CommentPart(m)) + Unlines(EventPart(m)) + Unlines(IdPart(m));
    frame := EncodeRetry(frame, m);
    if m.hasData {
      frame := EncodeData(frame, m.data);
    }
    frame := frame + "\n";
  }

  method EncodeRetry(builder: string, m: Message) returns (r: string)
    requires m.retry >= 0
    ensures r == builder + Unlines(RetryPart(m))
  {
    r := builder;
    if m.retry > 0 {
      var line := "retry:" + FormatInt(m.retry / NANOSECONDS_PER_MILLISECOND);
      r := r + line + "\n";
      assert Unlines([line]) == line + "\n" + Unlines([]);
    }
  }

  method WriteComment(builder: string, line: string) returns (r: string)
    ensures r == builder + Unlines([":" + line])
  {
    r := builder + ":";
    r := r + line;
    r := r + "\n";
    assert Unlines([":" + line]) == ":" + line + "\n" + Unlines([]);
  }

  lemma CommentStep(lines: seq<string>, i: nat)
    requires i < |lines|
    ensures Unlines(CommentLines(lines[i..])) == Unlines([":" + lines[i]]) + Unlines(CommentLines(lines[i + 1..]))
  {
    assert lines[i..][0] == lines[i] && lines[i..][1..] == lines[i + 1..];
    UnlinesAppend([":" + lines[i]], CommentLines(lines[i + 1..]));
  }

  lemma DataStep(lines: seq<string>, i: nat)
    requires i < |lines|
    ensures Unlines(DataLines(lines[i..])) == Unlines([FieldLine("data", lines[i])]) + Unlines(DataLines(lines[i + 1..]))
  {
    assert lines[i..][0] == lines[i] && lines[i..][1..] == lines[i + 1..];
    UnlinesAppend([FieldLine("data", lines[i])], DataLines(lines[i + 1..]));
  }

  method EncodeComment(comment: string) returns (r: string)
    ensures r == Unlines(CommentLines(SplitLines(comment)))
  {
    var lines := SplitLines(comment);
    r := "";
    var i := 0;
    while i < |lines|
      invariant 0 <= i <= |lines|
      invariant r + Unlines(CommentLines(lines[i..])) == Unlines(CommentLines(lines))
    {
      CommentStep(lines, i);
      ghost var first, rest := Unlines([":" + lines[i]]), Unlines(CommentLines(lines[i + 1..]));
      assert r + (first + rest) == (r + first) + rest;
      r := WriteComment(r, lines[i]);
      i := i + 1;
    }
  }

  method EncodeData(builder: string, data: string) returns (r: string)
    ensures r == builder + Unlines(DataLines(SplitLines(data)))
  {
    var lines := SplitLines(data);
    r := builder;
    var i := 0;
    while i < |lines|
      invariant 0 <= i <= |lines|
      invariant r + Unlines(DataLines(lines[i..])) == builder + Unlines(DataLines(lines))
    {
      DataStep(lines, i);
      ghost var first, rest := Unlines([FieldLine("data", lines[i])]), Unlines(DataLines(lines[i + 1..]));
      assert r + (first + rest) == (r + first) + rest;
      r := WriteField(r, "data", lines[i]);
      i := i + 1;
    }
  }
}
