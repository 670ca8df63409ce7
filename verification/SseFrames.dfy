/** The text framing of an event stream, and a reader for it that follows
    section 9.2 (Server-sent events) of the WHATWG HTML Living Standard. */
module SseFrames {

  function EncodeFrame(payload: string): string {
    "data: " + payload + "\n\n"
  }

  function EncodeFrames(payloads: seq<string>): string {
    if payloads == [] then "" else EncodeFrame(payloads[0]) + EncodeFrames(payloads[1..])
  }

  /** Where the first colon of a line is; the length of the line if there is none. */
  function ColonAt(line: string): (i: nat)
    ensures i <= |line|
  {
    if line == "" || line[0] == ':' then 0 else 1 + ColonAt(line[1..])
  }

  /** What one field line adds to the data buffer. Comments and other fields add
      nothing; one space after the colon is dropped. */
  function DataOf(line: string): string {
    var colon := ColonAt(line);
    var value := if colon == |line| then "" else line[colon + 1..];
    if line[..colon] != "data" then ""
    else if value != "" && value[0] == ' ' then value[1..] + "\n"
    else value + "\n"
  }

  /** The payloads dispatched while reading text, with an unfinished line and an
      unfinished data buffer in hand. An event the text does not finish is dropped. */
  function Read(text: string, line: string, data: string): seq<string>
    decreases |text|, 0
  {
    if text == "" then []
    else if text[0] == '\n' then EndLine(text[1..], line, data)
    else if text[0] == '\r' then
      EndLine(if |text| > 1 && text[1] == '\n' then text[2..] else text[1..], line, data)
    else Read(text[1..], line + [text[0]], data)
  }

  function EndLine(rest: string, line: string, data: string): seq<string>
    decreases |rest|, 1
  {
    if line != "" then Read(rest, "", data + DataOf(line))
    else if data == "" then Read(rest, "", "")
    else [data[..|data| - 1]] + Read(rest, "", "")
  }

  ghost predicate OneLine(payload: string) {
    forall k :: 0 <= k < |payload| ==> payload[k] != '\n' && payload[k] != '\r'
  }

  lemma {:induction false} ReadLine(body: string, rest: string, line: string, data: string)
    requires OneLine(body)
    ensures Read(body + "\n" + rest, line, data) == EndLine(rest, line + body, data)
  {
    if body == "" {
      assert body + "\n" + rest == "\n" + rest;
      assert line + body == line;
    } else {
      assert (body + "\n" + rest)[1..] == body[1..] + "\n" + rest;
      ReadLine(body[1..], rest, line + [body[0]], data);
      assert line + [body[0]] + body[1..] == line + body;
    }
  }

  lemma DataOfFrame(payload: string)
    ensures DataOf("data: " + payload) == payload + "\n"
  {
    var line := "data: " + payload;
    assert line == "data" + ":" + (" " + payload);
    ColonOfData(" " + payload);
    assert line[..4] == "data" && line[5..] == " " + payload;
    assert (" " + payload)[1..] == payload;
  }

  lemma {:induction false} EndData(payload: string, rest: string)
    ensures Read("\n" + rest, "", payload + "\n") == [payload] + Read(rest, "", "")
  {
    var data := payload + "\n";
    assert ("\n" + rest)[1..] == rest;
    assert data[..|data| - 1] == payload;
  }

  lemma {:induction false} ReadFrame(payload: string, rest: string)
    requires OneLine(payload)
    ensures Read(EncodeFrame(payload) + rest, "", "") == [payload] + Read(rest, "", "")
  {
    hide Read, DataOf;
    var line, tail := "data: " + payload, "\n" + rest;
    assert EncodeFrame(payload) + rest == line + "\n" + tail;
    ReadLine(line, tail, "", "");
    assert "" + line == line;
    DataOfFrame(payload);
    assert "" + DataOf(line) == payload + "\n";
    assert EndLine(tail, line, "") == Read(tail, "", payload + "\n");
    EndData(payload, rest);
  }

  lemma {:induction false} ColonOfData(value: string)
    ensures ColonAt("data" + ":" + value) == 4
  {
    var line := "data" + ":" + value;
    var l1, l2, l3, l4 := line[1..], line[2..], line[3..], line[4..];
    assert l1[1..] == l2 && l2[1..] == l3 && l3[1..] == l4;
    assert line[0] == 'd' && l1[0] == 'a' && l2[0] == 't' && l3[0] == 'a' && l4[0] == ':';
    assert ColonAt(l4) == 0;
    assert ColonAt(l3) == 1;
    assert ColonAt(l2) == 2;
    assert ColonAt(l1) == 3;
  }

  /** A reader of the stream dispatches exactly the payloads that were framed. */
  lemma {:induction false} FramesReadBack(payloads: seq<string>)
    requires forall k :: 0 <= k < |payloads| ==> OneLine(payloads[k])
    ensures Read(EncodeFrames(payloads), "", "") == payloads
  {
    if payloads != [] {
      ReadFrame(payloads[0], EncodeFrames(payloads[1..]));
      FramesReadBack(payloads[1..]);
      assert payloads == [payloads[0]] + payloads[1..];
    }
  }
}
