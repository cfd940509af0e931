/**
 * Server-sent events, as section 9.2 (Server-sent events) of the WHATWG HTML
 * Living Standard defines the `text/event-stream` format. The backend writes
 * every event as the frame "event: NAME\ndata: DATA\n\n"; the parser below is
 * the standard's "interpreting an event stream" algorithm restricted to the
 * event type and data buffers, which is what a client sees of such a stream.
 */
module Sse {

  datatype Event = Event(eventType: string, data: string)

  predicate NoLineBreak(s: string) {
    forall i :: 0 <= i < |s| ==> s[i] != '\n' && s[i] != '\r'
  }

  /** What a single "event:"/"data:" frame can carry and still be read back unchanged. */
  predicate WellFormed(e: Event) {
    e.eventType != [] && NoLineBreak(e.eventType) && NoLineBreak(e.data)
  }

  /** `f"event: {name}\ndata: {data}\n\n"`. */
  function Frame(e: Event): string {
    "event: " + e.eventType + "\n" + "data: " + e.data + "\n\n"
  }

  /** The frames of `events`, one after another, as the response body carries them. */
  function Stream(events: seq<Event>): string {
    if events == [] then "" else Frame(events[0]) + Stream(events[1..])
  }

  // ---------------------------------------------------------------------------
  // The client side: splitting into lines and interpreting each line.
  // ---------------------------------------------------------------------------

  /**
   * The complete lines of `s`, `cur` being the part of the current line read so
   * far. CR, LF and CRLF each end a line; an unterminated last line is dropped,
   * as the standard discards pending data at the end of the stream.
   */
  function SplitLines(s: string, cur: string): seq<string>
    decreases |s|
  {
    if s == [] then []
    else if s[0] == '\n' then [cur] + SplitLines(s[1..], "")
    else if s[0] == '\r' then
      [cur] + SplitLines(if |s| > 1 && s[1] == '\n' then s[2..] else s[1..], "")
    else SplitLines(s[1..], cur + [s[0]])
  }

  /** The buffers the algorithm keeps between lines. */
  datatype Buffers = Buffers(eventType: string, data: string)

  const Fresh := Buffers("", "")

  function FirstColon(line: string): (r: nat)
    ensures r <= |line|
    ensures forall i :: 0 <= i < r ==> line[i] != ':'
    ensures r < |line| ==> line[r] == ':'
  {
    if line == [] then 0
    else if line[0] == ':' then 0
    else 1 + FirstColon(line[1..])
  }

  /** The field name and value of a line: split at the first colon, one space after it dropped. */
  function Field(line: string): (string, string) {
    var k := FirstColon(line);
    if k == |line| then (line, "")
    else
      var value := line[k + 1..];
      (line[..k], if value != [] && value[0] == ' ' then value[1..] else value)
  }

  /** Drops one trailing LF, as the algorithm does before dispatching. */
  function DropFinalLf(s: string): string {
    if s != [] && s[|s| - 1] == '\n' then s[..|s| - 1] else s
  }

  /** One line: a blank line dispatches, a line starting with a colon is a comment. */
  function Step(line: string, b: Buffers): (Buffers, seq<Event>) {
    if line == [] then
      if b.data == [] then (Fresh, [])
      else (Fresh, [Event(if b.eventType == [] then "message" else b.eventType, DropFinalLf(b.data))])
    else if line[0] == ':' then (b, [])
    else
      var (name, value) := Field(line);
      if name == "event" then (b.(eventType := value), [])
      else if name == "data" then (b.(data := b.data + value + "\n"), [])
      else (b, [])
  }

  function Process(lines: seq<string>, b: Buffers): seq<Event> {
    if lines == [] then []
    else
      var (b', out) := Step(lines[0], b);
      out + Process(lines[1..], b')
  }

  /** The events a client dispatches for a complete response body (a leading BOM is ignored). */
  function Parse(body: string): seq<Event> {
    var s := if body != [] && body[0] == '\U{FEFF}' then body[1..] else body;
    Process(SplitLines(s, ""), Fresh)
  }

  // ---------------------------------------------------------------------------
  // Round trip: a client reads back exactly the events the frames carry.
  // ---------------------------------------------------------------------------

  lemma {:induction false} SplitLinesLine(a: string, rest: string, cur: string)
    requires NoLineBreak(a)
    ensures SplitLines(a + "\n" + rest, cur) == [cur + a] + SplitLines(rest, "")
    decreases |a|
  {
    var s := a + "\n" + rest;
    if a == [] {
      assert s[0] == '\n' && s[1..] == rest;
      assert cur + a == cur;
    } else {
      assert s[0] == a[0] && a[0] != '\n' && a[0] != '\r';
      assert s[1..] == a[1..] + "\n" + rest;
      assert NoLineBreak(a[1..]) by {
        assert forall i :: 0 <= i < |a[1..]| ==> a[1..][i] == a[i + 1];
      }
      SplitLinesLine(a[1..], rest, cur + [a[0]]);
      assert cur + [a[0]] + a[1..] == cur + a;
    }
  }

  lemma FrameLines(e: Event, rest: string)
    requires WellFormed(e)
    ensures SplitLines(Frame(e) + rest, "")
         == ["event: " + e.eventType, "data: " + e.data, ""] + SplitLines(rest, "")
  {
    var l1, l2 := "event: " + e.eventType, "data: " + e.data;
    assert NoLineBreak(l1) by {
      assert forall i :: 7 <= i < |l1| ==> l1[i] == e.eventType[i - 7];
    }
    assert NoLineBreak(l2) by {
      assert forall i :: 6 <= i < |l2| ==> l2[i] == e.data[i - 6];
    }
    var r3 := "" + "\n" + rest;
    var r2 := l2 + "\n" + r3;
    assert Frame(e) + rest == l1 + "\n" + r2;
    SplitLinesLine(l1, r2, "");
    SplitLinesLine(l2, r3, "");
    SplitLinesLine("", rest, "");
    assert "" + l1 == l1 && "" + l2 == l2 && "" + "" == "";
  }

  lemma {:induction false} FirstColonAt(line: string, k: nat)
    requires k < |line| && line[k] == ':'
    requires forall i :: 0 <= i < k ==> line[i] != ':'
    ensures FirstColon(line) == k
  {
    if k > 0 {
      assert forall i :: 0 <= i < k - 1 ==> line[1..][i] == line[i + 1];
      FirstColonAt(line[1..], k - 1);
    }
  }

  lemma FieldOf(prefix: string, value: string)
    requires prefix == "event" || prefix == "data"
    ensures Field(prefix + ": " + value) == (prefix, value)
  {
    var line := prefix + ": " + value;
    assert line[|prefix|] == ':';
    assert forall i :: 0 <= i < |prefix| ==> line[i] == prefix[i] && line[i] != ':';
    FirstColonAt(line, |prefix|);
    assert line[..|prefix|] == prefix;
    assert line[|prefix| + 1..] == " " + value;
  }

  lemma StepEvent(name: string, b: Buffers)
    ensures Step("event: " + name, b) == (b.(eventType := name), [])
  {
    FieldOf("event", name);
    assert "event" + ": " + name == "event: " + name;
    assert ("event: " + name)[0] == 'e';
  }

  lemma StepData(data: string, b: Buffers)
    ensures Step("data: " + data, b) == (b.(data := b.data + data + "\n"), [])
  {
    FieldOf("data", data);
    assert "data" + ": " + data == "data: " + data;
    assert ("data: " + data)[0] == 'd';
  }

  lemma ProcessFrame(e: Event, more: seq<string>)
    requires WellFormed(e)
    ensures Process(["event: " + e.eventType, "data: " + e.data, ""] + more, Fresh)
         == [e] + Process(more, Fresh)
  {
    var lines := ["event: " + e.eventType, "data: " + e.data, ""] + more;
    var b1 := Buffers(e.eventType, "");
    var b2 := Buffers(e.eventType, e.data + "\n");
    StepEvent(e.eventType, Fresh);
    StepData(e.data, b1);
    assert "" + e.data + "\n" == e.data + "\n";
    assert DropFinalLf(b2.data) == e.data;
    assert Step("", b2) == (Fresh, [e]);
    assert lines[0] == "event: " + e.eventType && lines[1..][0] == "data: " + e.data;
    assert lines[1..][1..][0] == "" && lines[1..][1..][1..] == more;
    calc {
      Process(lines, Fresh);
      [] + Process(lines[1..], b1);
      [] + ([] + Process(lines[1..][1..], b2));
      [] + ([] + ([e] + Process(more, Fresh)));
      [e] + Process(more, Fresh);
    }
  }

  lemma {:induction false} ProcessStream(events: seq<Event>)
    requires forall i :: 0 <= i < |events| ==> WellFormed(events[i])
    ensures Process(SplitLines(Stream(events), ""), Fresh) == events
  {
    if events != [] {
      ProcessStream(events[1..]);
      FrameLines(events[0], Stream(events[1..]));
      ProcessFrame(events[0], SplitLines(Stream(events[1..]), ""));
    }
  }

  /** Whatever events the backend frames, a conforming client dispatches exactly those, in order. */
  lemma ParseStream(events: seq<Event>)
    requires forall i :: 0 <= i < |events| ==> WellFormed(events[i])
    ensures Parse(Stream(events)) == events
  {
    ProcessStream(events);
    if events != [] {
      assert Stream(events)[0] == 'e';
    }
  }
}
