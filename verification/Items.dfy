/** Output items and the response object
    (crates/copenai-openai/src/responses/output.rs, response.rs, sse.rs). */
module Items {
  import opened Wrappers
  import opened Events

  /** A message's content list holds the texts of its output_text parts. */
  datatype OutputItem =
    | Message(id: string, role: string, status: string, content: seq<string>)
    | FunctionCall(id: string, callId: string, name: string, arguments: string, status: string)
    | FunctionCallOutput(id: string, callId: string, output: string, status: string)
    | Reasoning(id: string, summary: string, status: string)

  function MessageText(text: string, id: string): OutputItem {
    Message(id, "assistant", "completed", [text])
  }

  function FunctionCallItem(id: string, callId: string, name: string, arguments: string): OutputItem {
    FunctionCall(id, callId, name, arguments, "completed")
  }

  function ReasoningItem(id: string, text: string): OutputItem {
    Reasoning(id, text, "completed")
  }

  function AgentFunctionCall(id: string, callId: string, title: string, arguments: Option<string>): OutputItem {
    FunctionCall(id, callId, "agent_" + SanitizeAgentName(title), arguments.GetOr("{}"), "in_progress")
  }

  function SanitizeChars(title: string): string {
    if title == "" then "" else
      var c := title[0];
      var kept :=
        if 'a' <= c <= 'z' || '0' <= c <= '9' || c == '_' then c
        else if 'A' <= c <= 'Z' then (c as int + 32) as char
        else '_';
      [kept] + SanitizeChars(title[1..])
  }

  function TrimUnderscores(s: string): string
    decreases |s|
  {
    if s == "" then ""
    else if s[0] == '_' then TrimUnderscores(s[1..])
    else if s[|s| - 1] == '_' then TrimUnderscores(s[..|s| - 1])
    else s
  }

  function SanitizeAgentName(title: string): string {
    var s := TrimUnderscores(SanitizeChars(title));
    if |s| > 64 then s[..64] else s
  }

  /** A character as it may stand in a name: small letters, digits and underscores
      stay, capital letters become small, everything else an underscore. */
  predicate NamedAs(c: char, d: char) {
    if 'a' <= c <= 'z' || '0' <= c <= '9' || c == '_' then d == c
    else if 'A' <= c <= 'Z' then 'a' <= d <= 'z' && d as int - 'a' as int == c as int - 'A' as int
    else d == '_'
  }

  lemma {:induction false} SanitizedChars(title: string)
    ensures |SanitizeChars(title)| == |title|
    ensures forall k :: 0 <= k < |title| ==> NamedAs(title[k], SanitizeChars(title)[k])
  {
    if title != "" {
      SanitizedChars(title[1..]);
      assert forall k :: 1 <= k < |title| ==> title[k] == title[1..][k - 1];
    }
  }

  /** A name runs from the first to the last character that is not an underscore. */
  ghost predicate Trims(s: string, i: nat, j: nat) {
    && i <= j <= |s|
    && (forall k :: 0 <= k < i || j <= k < |s| ==> s[k] == '_')
    && (i < j ==> s[i] != '_' && s[j - 1] != '_')
  }

  lemma {:induction false} Trimmed(s: string) returns (i: nat, j: nat)
    ensures Trims(s, i, j) && TrimUnderscores(s) == s[i..j]
    decreases |s|
  {
    i, j := 0, |s|;
    if s != "" && s[0] == '_' {
      var i', j' := Trimmed(s[1..]);
      i, j := i' + 1, j' + 1;
      assert s[1..][i'..j'] == s[i..j];
      assert forall k :: 1 <= k < |s| ==> s[k] == s[1..][k - 1];
    } else if s != "" && s[|s| - 1] == '_' {
      i, j := Trimmed(s[..|s| - 1]);
      assert s[..|s| - 1][i..j] == s[i..j];
      assert forall k :: 0 <= k < |s| - 1 ==> s[k] == s[..|s| - 1][k];
    }
  }

  /** An agent tool's name: the title character by character, without underscores at
      its ends, and its first 64 characters if it is longer. */
  lemma AgentName(title: string) returns (whole: string, i: nat, j: nat)
    ensures |whole| == |title| && forall k :: 0 <= k < |title| ==> NamedAs(title[k], whole[k])
    ensures Trims(whole, i, j)
    ensures SanitizeAgentName(title) == if j - i > 64 then whole[i..i + 64] else whole[i..j]
  {
    whole := SanitizeChars(title);
    SanitizedChars(title);
    i, j := Trimmed(whole);
    hide SanitizeChars, TrimUnderscores, NamedAs;
    assert j - i > 64 ==> whole[i..j][..64] == whole[i..i + 64];
  }

  /** A generated identifier: the prefix is fixed, the rest is arbitrary. */
  method NewItemId(prefix: string) returns (id: string)
    ensures prefix + "_" <= id
  {
    var unique: string := *;
    id := prefix + "_" + unique;
  }

  /** The item without its generated identifier. */
  function Anonymous(item: OutputItem): OutputItem {
    item.(id := "")
  }

  function AnonymousAll(items: seq<OutputItem>): (r: seq<OutputItem>)
    ensures |r| == |items|
    ensures forall k :: 0 <= k < |items| ==> r[k] == Anonymous(items[k])
  {
    seq(|items|, k requires 0 <= k < |items| => Anonymous(items[k]))
  }

  datatype ResponseObject = ResponseObject(
    id: string,
    createdAt: int,
    model: string,
    status: string,
    output: seq<OutputItem>,
    usage: Option<UsageSnapshot>,
    incompleteDetails: Option<string>,
    metadata: Option<map<string, string>>,
    previousResponseId: Option<string>)

  function ResponseCreated(id: string, model: string, now: int): ResponseObject {
    ResponseObject(id, now, model, "in_progress", [], None, None, None, None)
  }

  /** What two runs of the same request can be compared on. */
  function Comparable(r: ResponseObject): ResponseObject {
    r.(createdAt := 0, output := AnonymousAll(r.output))
  }

  method CompletedResponse(response: ResponseObject, text: string, usage: UsageSnapshot, incomplete: bool)
    returns (r: ResponseObject)
    ensures r == response.(output := r.output, status := r.status, usage := Some(usage))
    ensures r.status == if incomplete then "incomplete" else "completed"
    ensures AnonymousAll(r.output) ==
            if response.output == [] && text != "" then [MessageText(text, "")] else AnonymousAll(response.output)
  {
    r := response;
    if r.output == [] && text != "" {
      var id := NewItemId("msg");
      r := r.(output := r.output + [MessageText(text, id)]);
    }
    r := r.(status := if incomplete then "incomplete" else "completed");
    r := r.(usage := Some(usage));
  }

  datatype ResponsesStreamEvent =
    | Created(response: ResponseObject)
    | InProgress(response: ResponseObject)
    | OutputItemAdded(response: ResponseObject, outputIndex: nat, item: OutputItem)
    | ContentPartAdded(response: ResponseObject, outputIndex: nat, contentIndex: nat, part: string)
    | OutputTextDelta(itemId: string, response: ResponseObject, outputIndex: nat, contentIndex: nat, delta: string)
    | ReasoningTextDelta(response: ResponseObject, outputIndex: nat, delta: string)
    | FunctionCallArgumentsDelta(itemId: string, response: ResponseObject, outputIndex: nat, delta: string)
    | FunctionCallArgumentsDone(response: ResponseObject, outputIndex: nat, arguments: string)
    | OutputItemDone(response: ResponseObject, outputIndex: nat, item: OutputItem)
    | Completed(response: ResponseObject)
    | FailedResponse(response: ResponseObject, error: string)
}
