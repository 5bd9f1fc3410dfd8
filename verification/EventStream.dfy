/**
  Parsing and interpreting an event stream, as sections 9.2.5 and 9.2.6 of the
  WHATWG HTML Living Standard define it. This is the client's side: the
  reference against which the encoder in `Wire` is proved.
*/
module EventStream {
  import opened Options

  /** An event as dispatched to the page. */
  datatype Dispatched = Dispatched(name: string, data: string, lastEventId: string)

  /** The buffers of section 9.2.6, the reconnection time once one was set, and the events dispatched so far. */
  datatype Parser = Parser(
    data: string,
    eventType: string,
    idBuffer: string,
    lastEventId: string,
    reconnection: Option<nat>,
    events: seq<Dispatched>)

  const FRESH := Parser("", "", "", "", None, [])

  // ------------------------------------------------------------------- lines

  predicate IsBreak(c: char) {
    c == '\r' || c == '\n'
  }

  predicate BreakFree(s: string) {
    forall i :: 0 <= i < |s| ==> !IsBreak(s[i])
  }

  function FirstBreak(s: string): (i: nat)
    ensures i <= |s| && BreakFree(s[..i]) && (i < |s| ==> IsBreak(s[i]))
  {
    if s == "" || IsBreak(s[0]) then 0
    else
      var i := 1 + FirstBreak(s[1..]);
      assert s[..i] == [s[0]] + s[1..][..i - 1];
      i
  }

  /** The complete lines: each ended by a CRLF pair, a lone LF or a lone CR. An unfinished last line is dropped. */
  function Lines(s: string): (ls: seq<string>) {
    var i := FirstBreak(s);
    if i == |s| then []
    else if s[i] == '\r' && i + 1 < |s| && s[i + 1] == '\n' then [s[..i]] + Lines(s[i + 2..])
    else [s[..i]] + Lines(s[i + 1..])
  }

  // ------------------------------------------------------------------ fields

  function FirstColon(s: string): (i: nat)
    ensures i <= |s| && ':' !in s[..i] && (i < |s| ==> s[i] == ':')
  {
    if s == "" || s[0] == ':' then 0
    else
      var i := 1 + FirstColon(s[1..]);
      assert s[..i] == [s[0]] + s[1..][..i - 1];
      i
  }

  function StripSpace(s: string): (r: string) {
    if s != "" && s[0] == ' ' then s[1..] else s
  }

  predicate IsDigit(c: char) {
    '0' <= c <= '9'
  }

  predicate AllDigits(s: string) {
    s != "" && forall i :: 0 <= i < |s| ==> IsDigit(s[i])
  }

  function ParseDigits(s: string): (n: nat)
    requires forall i :: 0 <= i < |s| ==> IsDigit(s[i])
  {
    if s == "" then 0
    else
      assert IsDigit(s[|s| - 1]);
      ParseDigits(s[..|s| - 1]) * 10 + (s[|s| - 1] as int - '0' as int)
  }

  function Field(p: Parser, name: string, value: string): (r: Parser) {
    if name == "event" then p.(eventType := value)
    else if name == "data" then p.(data := p.data + value + "\n")
    else if name == "id" then (if '\0' in value then p else p.(idBuffer := value))
    else if name == "retry" then (if AllDigits(value) then p.(reconnection := Some(ParseDigits(value))) else p)
    else p
  }

  /** "Dispatch the event." */
  function Dispatch(p: Parser): (r: Parser) {
    var q := p.(lastEventId := p.idBuffer, data := "", eventType := "");
    if p.data == "" then q
    else
      var data := if p.data[|p.data| - 1] == '\n' then p.data[..|p.data| - 1] else p.data;
      q.(events := p.events + [Dispatched(if p.eventType == "" then "message" else p.eventType, data, p.idBuffer)])
  }

  function Process(p: Parser, line: string): (r: Parser) {
    if line == "" then Dispatch(p)
    else if line[0] == ':' then p
    else
      var i := FirstColon(line);
      if i < |line| then Field(p, line[..i], StripSpace(line[i + 1..])) else Field(p, line, "")
  }

  function ProcessAll(p: Parser, lines: seq<string>): (r: Parser)
    decreases lines
  {
    if lines == [] then p else ProcessAll(Process(p, lines[0]), lines[1..])
  }

  const BYTE_ORDER_MARK: char := '\U{FEFF}'

  function Interpret(stream: string): (r: Parser) {
    ProcessAll(FRESH, Lines(if stream != "" && stream[0] == BYTE_ORDER_MARK then stream[1..] else stream))
  }

  // ------------------------------------------------------- about these functions

  lemma {:induction false} ProcessAllAppend(p: Parser, a: seq<string>, b: seq<string>)
    ensures ProcessAll(p, a + b) == ProcessAll(ProcessAll(p, a), b)
    decreases a
  {
    if a == [] {
      assert a + b == b;
    } else {
      ProcessAllAppend(Process(p, a[0]), a[1..], b);
      assert (a + b)[1..] == a[1..] + b;
    }
  }

  /** Only an empty line dispatches. */
  lemma {:induction false} NoEmptyLineNoEvent(p: Parser, lines: seq<string>)
    requires forall i :: 0 <= i < |lines| ==> lines[i] != ""
    ensures ProcessAll(p, lines).events == p.events
    decreases lines
  {
    if lines != [] {
      NoEmptyLineNoEvent(Process(p, lines[0]), lines[1..]);
    }
  }

  /** A break-free line ended by LF is split off, whatever follows. */
  lemma LinesFirst(line: string, rest: string)
    requires BreakFree(line)
    ensures Lines(line + "\n" + rest) == [line] + Lines(rest)
  {
    var s := line + "\n" + rest;
    var i := FirstBreak(s);
    assert s[..|line|] == line && s[|line|] == '\n';
    assert BreakFree(s[..i]);
    assert i == |line| && s[..i] == line && s[i + 1..] == rest;
  }

  lemma Assoc(a: string, b: string, c: string)
    ensures a + b + c == a + (b + c)
  {}
}
