/**
 * The streamed HTTP response and the status-tag markup written into it
 * (backend/helpers/response-label.go).
 */
module Labels {

  import opened Wrappers

  /** What reaches the response writer: a `Write` of some text, or a `Flush`. */
  datatype Event = Write(data: string) | Flush

  /** A progress notification: `<tag>text</tag>`. */
  datatype Status = Status(tag: string, text: string)

  function OpenTag(tag: string): string { "<" + tag + ">" }

  function CloseTag(tag: string): string { "</" + tag + ">" }

  /** The string `ResponseLabel` writes. */
  function Render(s: Status): string
  {
    OpenTag(s.tag) + s.text + CloseTag(s.tag)
  }

  const LineBreak := "<br>"

  /** The string `ResponseLabelNewLine` writes. */
  function RenderNewLine(s: Status): string
  {
    Render(s) + LineBreak
  }

  /**
   * A label opens with its tag and closes with it; the new-line variant is
   * the same label followed by the line break.
   */
  lemma RenderFraming(s: Status)
    ensures var r, open, close := Render(s), OpenTag(s.tag), CloseTag(s.tag);
      && |r| == |open| + |s.text| + |close|
      && r[..|open|] == open
      && r[|open|..|r| - |close|] == s.text
      && r[|r| - |close|..] == close
    ensures var r, n := Render(s), RenderNewLine(s);
      && |n| == |r| + |LineBreak|
      && n[..|r|] == r
      && n[|r|..] == LineBreak
  {
    var r, open, close := Render(s), OpenTag(s.tag), CloseTag(s.tag);
    assert r == open + s.text + close;
    assert r[..|open|] == open;
    assert r[|open|..|r| - |close|] == s.text;
    assert r[|r| - |close|..] == close;
    assert RenderNewLine(s) == r + LineBreak;
  }

  /** Reads back the text of a `tag` status, if `s` is one. */
  function Unwrap(tag: string, s: string): (r: Option<string>)
  {
    var open, close := OpenTag(tag), CloseTag(tag);
    if |open| + |close| <= |s| && s[..|open|] == open && s[|s| - |close|..] == close
    then Some(s[|open|..|s| - |close|])
    else None
  }

  /** Reading back a rendered status gives its text. */
  lemma UnwrapRender(s: Status)
    ensures Unwrap(s.tag, Render(s)) == Some(s.text)
  {
    var r := Render(s);
    var open, close := OpenTag(s.tag), CloseTag(s.tag);
    assert r == open + s.text + close;
    assert r[..|open|] == open;
    assert r[|r| - |close|..] == close;
    assert r[|open|..|r| - |close|] == s.text;
  }

  /** A string reads back as a status exactly when it is that status rendered. */
  lemma RenderUnwrap(tag: string, str: string, text: string)
    ensures Unwrap(tag, str) == Some(text) <==> str == Render(Status(tag, text))
  {
    if str == Render(Status(tag, text)) {
      UnwrapRender(Status(tag, text));
    }
    if Unwrap(tag, str) == Some(text) {
      var open, close := OpenTag(tag), CloseTag(tag);
      assert str == str[..|open|] + str[|open|..|str| - |close|] + str[|str| - |close|..];
    }
  }

  /** The events of writing each status and flushing after each. */
  function Emitted(statuses: seq<Status>): (es: seq<Event>)
    ensures |es| == 2 * |statuses|
    decreases |statuses|
  {
    if |statuses| == 0 then []
    else Emitted(statuses[..|statuses| - 1]) + [Write(Render(statuses[|statuses| - 1])), Flush]
  }

  lemma {:induction false} EmittedAppend(a: seq<Status>, b: seq<Status>)
    ensures Emitted(a + b) == Emitted(a) + Emitted(b)
    decreases |b|
  {
    if |b| == 0 {
      assert a + b == a;
    } else {
      var b' := b[..|b| - 1];
      assert (a + b)[..|a + b| - 1] == a + b';
      assert (a + b)[|a + b| - 1] == b[|b| - 1];
      EmittedAppend(a, b');
    }
  }

  /** Two reports in a row emit the events of both, in order. */
  lemma EventsGrow(e0: seq<Event>, e1: seq<Event>, e2: seq<Event>, a: seq<Status>, b: seq<Status>)
    requires e1 == e0 + Emitted(a) && e2 == e1 + Emitted(b)
    ensures e2 == e0 + Emitted(a + b)
  {
    EmittedAppend(a, b);
  }

  /** Every status is written, in order, and each write is followed by a flush. */
  lemma {:induction false} EmittedAt(statuses: seq<Status>, i: nat)
    requires i < |statuses|
    ensures Emitted(statuses)[2 * i] == Write(Render(statuses[i]))
    ensures Emitted(statuses)[2 * i + 1] == Flush
    decreases |statuses|
  {
    if i < |statuses| - 1 {
      EmittedAt(statuses[..|statuses| - 1], i);
    }
  }

  /** The text a sequence of events has written, in order. */
  function Body(events: seq<Event>): string
    decreases |events|
  {
    if |events| == 0 then ""
    else
      var last := events[|events| - 1];
      Body(events[..|events| - 1]) + (if last.Write? then last.data else "")
  }

  /** An HTTP response writer with its flusher: everything written and flushed so far. */
  class Response {
    var events: seq<Event>

    constructor ()
      ensures events == []
    {
      events := [];
    }

    /** `response.Write([]byte(data))`. */
    method Write(data: string)
      modifies this
      ensures events == old(events) + [Event.Write(data)]
    {
      events := events + [Event.Write(data)];
    }

    /** `flusher.Flush()`. */
    method Flush()
      modifies this
      ensures events == old(events) + [Event.Flush]
    {
      events := events + [Event.Flush];
    }
  }

  /** `ResponseLabel`: one write of the rendered status, then one flush. */
  method ResponseLabel(response: Response, tag: string, text: string)
    modifies response
    ensures response.events == old(response.events) + Emitted([Status(tag, text)])
    ensures Body(response.events) == Body(old(response.events)) + Render(Status(tag, text))
  {
    response.Write(Render(Status(tag, text)));
    response.Flush();
    assert Emitted([Status(tag, text)]) == [Write(Render(Status(tag, text))), Flush];
    BodyOfWrite(old(response.events), Render(Status(tag, text)));
  }

  /** `ResponseLabel` for a status value. */
  method Report(response: Response, s: Status)
    modifies response
    ensures response.events == old(response.events) + Emitted([s])
  {
    ResponseLabel(response, s.tag, s.text);
  }

  /** `ResponseLabelNewLine`: as `ResponseLabel`, with `<br>` after the closing tag. */
  method ResponseLabelNewLine(response: Response, tag: string, text: string)
    modifies response
    ensures response.events == old(response.events) + [Write(RenderNewLine(Status(tag, text))), Flush]
    ensures Body(response.events) == Body(old(response.events)) + RenderNewLine(Status(tag, text))
  {
    response.Write(RenderNewLine(Status(tag, text)));
    response.Flush();
    BodyOfWrite(old(response.events), RenderNewLine(Status(tag, text)));
  }

  /** A write followed by a flush adds exactly the written text to the body. */
  lemma BodyOfWrite(events: seq<Event>, data: string)
    ensures Body(events + [Write(data), Flush]) == Body(events) + data
  {
    var e := events + [Write(data), Flush];
    assert e[..|e| - 1] == events + [Write(data)];
    assert (events + [Write(data)])[..|events|] == events;
  }
}
