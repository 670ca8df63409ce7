/** Tool choice and the tool calls found in an agent's answer
    (crates/copenai-openai/src/tools/choice.rs, detect.rs, validate.rs). */
module ToolCalls {
  import opened Wrappers
  import opened Json

  datatype FunctionTool = FunctionTool(name: string, parameters: Option<Json>)

  datatype ToolChoice = Auto | NoTools | Required | Named(name: string)

  datatype FunctionCall = FunctionCall(callId: string, name: string, arguments: Json)

  type Calls = Result<seq<FunctionCall>, string>

  function FilterByName(tools: seq<FunctionTool>, name: string): (r: seq<FunctionTool>)
    ensures forall t :: t in r <==> t in tools && t.name == name
  {
    if tools == [] then []
    else (if tools[0].name == name then [tools[0]] else []) + FilterByName(tools[1..], name)
  }

  /** The tools a choice leaves: none, those of one name, or all. */
  function FilterTools(tools: seq<FunctionTool>, choice: ToolChoice): (r: seq<FunctionTool>)
    ensures forall t :: t in r <==> t in tools && !choice.NoTools? && (choice.Named? ==> t.name == choice.name)
    ensures choice.Auto? || choice.Required? ==> r == tools
  {
    match choice
    case NoTools => []
    case Named(name) => FilterByName(tools, name)
    case _ => tools
  }

  lemma {:induction false} FilterByNameTwice(tools: seq<FunctionTool>, name: string)
    ensures FilterByName(FilterByName(tools, name), name) == FilterByName(tools, name)
  {
    if tools != [] {
      FilterByNameTwice(tools[1..], name);
      if tools[0].name == name {
        assert ([tools[0]] + FilterByName(tools[1..], name))[1..] == FilterByName(tools[1..], name);
      } else {
        assert FilterByName(tools, name) == FilterByName(tools[1..], name);
      }
    }
  }

  /** Filtering again changes nothing, so callers may pass filtered tools. */
  lemma FilterTwice(tools: seq<FunctionTool>, choice: ToolChoice)
    ensures FilterTools(FilterTools(tools, choice), choice) == FilterTools(tools, choice)
  {
    if choice.Named? {
      FilterByNameTwice(tools, choice.name);
    }
  }

  predicate RequiresCall(choice: ToolChoice) {
    choice.Required? || choice.Named?
  }

  predicate Offered(tools: seq<FunctionTool>, name: string) {
    exists t :: t in tools && t.name == name
  }

  function FindTool(tools: seq<FunctionTool>, name: string): (r: Option<FunctionTool>)
    ensures r.Some? <==> Offered(tools, name)
    ensures r.Some? ==> r.value in tools && r.value.name == name
  {
    if tools == [] then None
    else if tools[0].name == name then Some(tools[0])
    else FindTool(tools[1..], name)
  }

  lemma {:induction false} FirstIsFound(tools: seq<FunctionTool>, k: nat)
    requires k < |tools| && forall j :: 0 <= j < k ==> tools[j].name != tools[k].name
    ensures FindTool(tools, tools[k].name) == Some(tools[k])
  {
    if k > 0 {
      FirstIsFound(tools[1..], k - 1);
    }
  }

  /** The first tool of that name accepts these arguments. */
  predicate ArgumentsValid(lib: JsonLibrary, tools: seq<FunctionTool>, name: string, arguments: Json) {
    var tool := FindTool(tools, name);
    tool.Some? && (tool.value.parameters.Some? ==> lib.violation(tool.value.parameters.value, arguments).None?)
  }

  function GivenName(obj: Json): Option<string> {
    StringOf(OrElse(obj.Get("name"), Field(obj.Get("function"), "name")))
  }

  function GivenId(obj: Json): Option<string> {
    StringOf(OrElse(obj.Get("call_id"), obj.Get("id")))
  }

  /** Arguments that are missing are an empty object, and text is parsed if it can be. */
  function GivenArguments(lib: JsonLibrary, obj: Json): Json {
    var arguments := OrElse(obj.Get("arguments"), Field(obj.Get("function"), "arguments")).GetOr(Object(map[]));
    if arguments.Str? then lib.parse(arguments.s).GetOr(arguments) else arguments
  }

  /** One call object; generated is the id to use when the object carries none. */
  function SingleCall(lib: JsonLibrary, obj: Json, tools: seq<FunctionTool>,
                      generated: string): (r: Result<FunctionCall, string>)
    requires obj.Object?
    ensures r.Success? <==> GivenName(obj).Some? && Offered(tools, GivenName(obj).value)
    ensures r.Success? ==> r.value.name == GivenName(obj).value && r.value.callId == GivenId(obj).GetOr(generated)
    ensures r.Success? ==> r.value.arguments == GivenArguments(lib, obj)
  {
    var name := GivenName(obj);
    if name.None? then Failure("tool call missing name")
    else if !Offered(tools, name.value) then Failure("unknown tool name: " + name.value)
    else
      Success(FunctionCall(GivenId(obj).GetOr(generated), name.value, GivenArguments(lib, obj)))
  }

  /** The ways an agent may write down a call: flat or with a nested function, with
      its arguments as a value or as their text. */
  function Written(lib: JsonLibrary, call: FunctionCall, nested: bool, asText: bool): Json {
    var arguments := if asText then Str(lib.render(call.arguments)) else call.arguments;
    if nested then
      Object(map["id" := Str(call.callId),
                 "function" := Object(map["name" := Str(call.name), "arguments" := arguments])])
    else
      Object(map["call_id" := Str(call.callId), "name" := Str(call.name), "arguments" := arguments])
  }

  /** However it is written down, a call of an offered tool reads back as itself. */
  lemma CallReadsBack(lib: JsonLibrary, call: FunctionCall, nested: bool, asText: bool, tools: seq<FunctionTool>,
                      generated: string)
    requires Offered(tools, call.name)
    requires if asText then lib.parse(lib.render(call.arguments)) == Some(call.arguments) else !call.arguments.Str?
    ensures SingleCall(lib, Written(lib, call, nested, asText), tools, generated) == Success(call)
  {
  }

  /** A call written without arguments, or with text that is no JSON, or without an
      id: an empty object, the text as it is, and the generated id. */
  lemma CallWithoutArguments(lib: JsonLibrary, name: string, text: string, tools: seq<FunctionTool>, generated: string)
    requires Offered(tools, name)
    ensures SingleCall(lib, Object(map["name" := Str(name)]), tools, generated)
         == Success(FunctionCall(generated, name, Object(map[])))
    ensures lib.parse(text).None? ==>
      SingleCall(lib, Object(map["name" := Str(name), "arguments" := Str(text)]), tools, generated)
      == Success(FunctionCall(generated, name, Str(text)))
  {
  }

  /** The objects a payload offers as calls. */
  function Candidates(value: Json): seq<Json> {
    match value
    case Object(_) =>
      var listed := value.Get("tool_calls");
      if listed.Some? then (if listed.value.Array? then listed.value.items else [])
      else if value.Get("name").Some? then [value]
      else []
    case Array(items) => items
    case _ => []
  }

  /** The calls of a candidate list: non-objects are skipped, the first bad object
      fails the whole list. newId gives the id generated at each position. */
  function CallsOf(lib: JsonLibrary, items: seq<Json>, tools: seq<FunctionTool>, newId: nat -> string): (r: Calls)
    ensures r.Success? ==> forall c :: c in r.value ==> Offered(tools, c.name)
  {
    if items == [] then Success([]) else
      var front := CallsOf(lib, items[..|items| - 1], tools, newId);
      var last := items[|items| - 1];
      if front.Failure? || !last.Object? then front else
        var call := SingleCall(lib, last, tools, newId(|items| - 1));
        if call.Failure? then Failure(call.error) else Success(front.value + [call.value])
  }

  lemma {:induction false} CallsOfFailsEarly(lib: JsonLibrary, items: seq<Json>, n: nat, tools: seq<FunctionTool>,
                                             newId: nat -> string)
    requires n <= |items| && CallsOf(lib, items[..n], tools, newId).Failure?
    ensures CallsOf(lib, items, tools, newId) == CallsOf(lib, items[..n], tools, newId)
    decreases |items|
  {
    if n == |items| {
      assert items[..n] == items;
    } else {
      assert items[..|items| - 1][..n] == items[..n];
      CallsOfFailsEarly(lib, items[..|items| - 1], n, tools, newId);
    }
  }

  /** The loop returns at its first error, so an early Failure decides the list. */
  method ParseToolCalls(lib: JsonLibrary, value: Json, tools: seq<FunctionTool>, newId: nat -> string)
    returns (r: Calls)
    ensures r == CallsOf(lib, Candidates(value), tools, newId)
  {
    var items := Candidates(value);
    var calls: seq<FunctionCall> := [];
    var i := 0;
    while i < |items|
      invariant 0 <= i <= |items|
      invariant CallsOf(lib, items[..i], tools, newId) == Success(calls)
    {
      assert items[..i + 1][..i] == items[..i];
      if items[i].Object? {
        var call := SingleCall(lib, items[i], tools, newId(i));
        if call.Failure? {
          CallsOfFailsEarly(lib, items, i + 1, tools, newId);
          return Failure(call.error);
        }
        calls := calls + [call.value];
      }
      i := i + 1;
    }
    assert items[..i] == items;
    return Success(calls);
  }

  predicate AllValid(lib: JsonLibrary, tools: seq<FunctionTool>, calls: seq<FunctionCall>) {
    forall c :: c in calls ==> ArgumentsValid(lib, tools, c.name, c.arguments)
  }

  /** validate_detected_calls: None when the calls suit the choice. */
  function ChoiceError(calls: seq<FunctionCall>, choice: ToolChoice, tools: seq<FunctionTool>): Option<string> {
    if choice.NoTools? && calls != [] then Some("tool_choice is none but model emitted tool calls")
    else if RequiresCall(choice) && calls == [] then Some("tool_choice requires a tool call but none were detected")
    else if choice.Named? && (exists c :: c in calls && c.name != choice.name) then
      Some("tool_choice requires another tool")
    else if choice.Named? && !Offered(tools, choice.name) then Some("tool_choice names unknown tool")
    else None
  }

  /** Empty ids are generated anew; from ids were generated before. */
  function WithIds(calls: seq<FunctionCall>, newId: nat -> string, from: nat): (r: seq<FunctionCall>)
    ensures |r| == |calls|
    ensures forall k :: 0 <= k < |r| ==>
      r[k] == if calls[k].callId == "" then calls[k].(callId := newId(from + k)) else calls[k]
  {
    seq(|calls|, k requires 0 <= k < |calls| =>
      if calls[k].callId == "" then calls[k].(callId := newId(from + k)) else calls[k])
  }

  /** Generated ids overwrite empty ones in place. */
  method EnsureCallIds(calls: array<FunctionCall>, newId: nat -> string, from: nat)
    modifies calls
    ensures calls[..] == WithIds(old(calls[..]), newId, from)
  {
    var i := 0;
    while i < calls.Length
      invariant 0 <= i <= calls.Length
      invariant forall k :: i <= k < calls.Length ==> calls[k] == old(calls[k])
      invariant forall k :: 0 <= k < i ==> calls[k] == WithIds(old(calls[..]), newId, from)[k]
    {
      if calls[i].callId == "" {
        calls[i] := calls[i].(callId := newId(from + i));
      }
      i := i + 1;
    }
  }

  /** parse_calls as a whole. */
  function AcceptedCalls(lib: JsonLibrary, text: string, tools: seq<FunctionTool>, choice: ToolChoice,
                         newId: nat -> string): Calls
  {
    var offered := FilterTools(tools, choice);
    if offered == [] then Success([]) else
      var found := Candidates(lib.payload(text));
      var calls := CallsOf(lib, found, offered, newId);
      if calls.Failure? then calls
      else if !AllValid(lib, offered, calls.value) then Failure("invalid arguments")
      else
        var wrong := ChoiceError(calls.value, choice, offered);
        if wrong.Some? then Failure(wrong.value) else Success(WithIds(calls.value, newId, |found|))
  }

  method ParseCalls(lib: JsonLibrary, text: string, tools: seq<FunctionTool>, choice: ToolChoice, newId: nat -> string)
    returns (r: Calls)
    ensures r == AcceptedCalls(lib, text, tools, choice, newId)
  {
    hide CallsOf, FilterTools, ChoiceError;
    var offered := FilterTools(tools, choice);
    if offered == [] {
      return Success([]);
    }
    var parsed := ParseToolCalls(lib, lib.payload(text), offered, newId);
    if parsed.Failure? {
      return parsed;
    }
    var i := 0;
    while i < |parsed.value|
      invariant 0 <= i <= |parsed.value|
      invariant forall k :: 0 <= k < i ==> ArgumentsValid(lib, offered, parsed.value[k].name, parsed.value[k].arguments)
    {
      if !ArgumentsValid(lib, offered, parsed.value[i].name, parsed.value[i].arguments) {
        assert parsed.value[i] in parsed.value;
        return Failure("invalid arguments");
      }
      i := i + 1;
    }
    var wrong := ChoiceError(parsed.value, choice, offered);
    if wrong.Some? {
      return Failure(wrong.value);
    }
    var calls := new FunctionCall[|parsed.value|](k requires 0 <= k < |parsed.value| => parsed.value[k]);
    assert calls[..] == parsed.value;
    EnsureCallIds(calls, newId, |Candidates(lib.payload(text))|);
    return Success(calls[..]);
  }

  ghost predicate GeneratesIds(newId: nat -> string) {
    forall n :: newId(n) != ""
  }

  /** Whatever parse_calls accepts: every call has an id, names an offered tool
      the choice allows, and has arguments that tool accepts; and a choice that
      demands a call gets one whenever a tool is left to call. */
  lemma AcceptedCallsSound(lib: JsonLibrary, text: string, tools: seq<FunctionTool>, choice: ToolChoice,
                           newId: nat -> string)
    requires GeneratesIds(newId)
    requires AcceptedCalls(lib, text, tools, choice, newId).Success?
    ensures var calls := AcceptedCalls(lib, text, tools, choice, newId).value;
            && (forall c :: c in calls ==>
                  && c.callId != ""
                  && Offered(tools, c.name) && !choice.NoTools? && (choice.Named? ==> c.name == choice.name)
                  && ArgumentsValid(lib, FilterTools(tools, choice), c.name, c.arguments))
            && (RequiresCall(choice) && FilterTools(tools, choice) != [] ==> calls != [])
  {
    var offered := FilterTools(tools, choice);
    if offered != [] {
      var before := CallsOf(lib, Candidates(lib.payload(text)), offered, newId).value;
      var calls := AcceptedCalls(lib, text, tools, choice, newId).value;
      forall c | c in calls
        ensures c.callId != "" && Offered(tools, c.name) && !choice.NoTools?
        ensures choice.Named? ==> c.name == choice.name
        ensures ArgumentsValid(lib, offered, c.name, c.arguments)
      {
        var k :| 0 <= k < |calls| && calls[k] == c;
        assert before[k] in before;
      }
    }
  }

  /** The half of it that holds whatever ids are generated. */
  lemma DemandedCallsExist(lib: JsonLibrary, text: string, tools: seq<FunctionTool>, choice: ToolChoice,
                           newId: nat -> string)
    requires RequiresCall(choice) && FilterTools(tools, choice) != []
    requires AcceptedCalls(lib, text, tools, choice, newId).Success?
    ensures AcceptedCalls(lib, text, tools, choice, newId).value != []
  {
    hide CallsOf, FilterTools;
  }

  // ---- Ids ----

  /** Positions of the candidates the calls were read from. */
  ghost predicate Origins(calls: seq<FunctionCall>, items: seq<Json>, newId: nat -> string, at: seq<nat>) {
    && |at| == |calls|
    && (forall k :: 0 <= k < |at| ==> at[k] < |items| && calls[k].callId == GivenId(items[at[k]]).GetOr(newId(at[k])))
    && (forall j, k :: 0 <= j < k < |at| ==> at[j] != at[k])
  }

  lemma {:induction false} CallsHaveOrigins(lib: JsonLibrary, items: seq<Json>, tools: seq<FunctionTool>,
                                            newId: nat -> string)
    returns (at: seq<nat>)
    requires CallsOf(lib, items, tools, newId).Success?
    ensures Origins(CallsOf(lib, items, tools, newId).value, items, newId, at)
  {
    at := [];
    if items != [] {
      var n := |items| - 1;
      at := CallsHaveOrigins(lib, items[..n], tools, newId);
      if items[n].Object? {
        at := at + [n];
      }
    }
  }

  /** No generated id is ever repeated: two calls share an id only if the agent gave
      it to both. */
  lemma IdsApart(lib: JsonLibrary, text: string, tools: seq<FunctionTool>, choice: ToolChoice, newId: nat -> string,
                 j: nat, k: nat)
    requires forall a, b :: newId(a) == newId(b) ==> a == b
    requires forall item, n :: item in Candidates(lib.payload(text)) ==> GivenId(item) != Some(newId(n))
    requires AcceptedCalls(lib, text, tools, choice, newId).Success?
    requires j < k < |AcceptedCalls(lib, text, tools, choice, newId).value|
    ensures var calls := AcceptedCalls(lib, text, tools, choice, newId).value;
      calls[j].callId == calls[k].callId ==> forall n :: newId(n) != calls[j].callId
  {
    var items := Candidates(lib.payload(text));
    var read := CallsOf(lib, items, FilterTools(tools, choice), newId).value;
    var at := CallsHaveOrigins(lib, items, FilterTools(tools, choice), newId);
    var calls := AcceptedCalls(lib, text, tools, choice, newId).value;
    assert calls == WithIds(read, newId, |items|);
    hide CallsOf, AcceptedCalls, Candidates, GivenId;
    forall i | i == j || i == k
      ensures calls[i].callId == newId(|items| + i) || calls[i].callId == newId(at[i])
              || Some(calls[i].callId) == GivenId(items[at[i]])
    {
      assert items[at[i]] in items;
    }
  }

  // ---- What is found, and what is refused ----

  /** The objects of a list, in order. */
  function Objects(items: seq<Json>): seq<Json> {
    if items == [] then [] else
      var n := |items| - 1;
      Objects(items[..n]) + (if items[n].Object? then [items[n]] else [])
  }

  /** The payload lists these items as calls: under "tool_calls", as a bare array, or
      as a single flat call. */
  predicate Lists(payload: Json, items: seq<Json>) {
    || payload.Get("tool_calls") == Some(Array(items))
    || payload == Array(items)
    || (payload.Object? && payload.Get("tool_calls").None? && payload.Get("name").Some? && items == [payload])
  }

  /** The payload lists nothing that could be a call. */
  predicate Silent(payload: Json) {
    match payload
    case Object(_) =>
      var listed := payload.Get("tool_calls");
      if listed.Some? then !listed.value.Array? || Objects(listed.value.items) == []
      else payload.Get("name").None?
    case Array(items) => Objects(items) == []
    case _ => true
  }

  /** Each object was read as the call at its place. */
  ghost predicate ReadAs(lib: JsonLibrary, objects: seq<Json>, calls: seq<FunctionCall>) {
    && |calls| == |objects|
    && forall k :: 0 <= k < |calls| ==>
         && GivenName(objects[k]) == Some(calls[k].name)
         && calls[k].arguments == GivenArguments(lib, objects[k])
         && (GivenId(objects[k]).Some? ==> calls[k].callId == GivenId(objects[k]).value)
  }

  predicate NamesATool(obj: Json, tools: seq<FunctionTool>) {
    GivenName(obj).Some? && Offered(tools, GivenName(obj).value)
  }

  ghost predicate AllNameTools(objects: seq<Json>, tools: seq<FunctionTool>) {
    forall obj :: obj in objects ==> NamesATool(obj, tools)
  }

  lemma AllNameMore(objects: seq<Json>, obj: Json, tools: seq<FunctionTool>)
    ensures AllNameTools(objects + [obj], tools) <==> AllNameTools(objects, tools) && NamesATool(obj, tools)
  {
    assert forall x :: x in objects + [obj] <==> x in objects || x == obj;
  }

  lemma ReadMore(lib: JsonLibrary, objects: seq<Json>, calls: seq<FunctionCall>, obj: Json, tools: seq<FunctionTool>,
                 generated: string)
    requires ReadAs(lib, objects, calls) && obj.Object? && SingleCall(lib, obj, tools, generated).Success?
    ensures ReadAs(lib, objects + [obj], calls + [SingleCall(lib, obj, tools, generated).value])
  {
    hide GivenName, GivenArguments, GivenId;
  }

  /** A list is read exactly when every object in it names an offered tool, and then
      every object is read, in order. */
  lemma {:induction false} ListIsRead(lib: JsonLibrary, items: seq<Json>, tools: seq<FunctionTool>,
                                      newId: nat -> string)
    ensures var r := CallsOf(lib, items, tools, newId);
      && (r.Success? <==> AllNameTools(Objects(items), tools))
      && (r.Success? ==> ReadAs(lib, Objects(items), r.value))
  {
    if items != [] {
      var n := |items| - 1;
      ListIsRead(lib, items[..n], tools, newId);
      hide GivenName, GivenId, GivenArguments, Offered, AllNameTools, ReadAs;
      var front := Objects(items[..n]);
      if items[n].Object? {
        AllNameMore(front, items[n], tools);
        if CallsOf(lib, items, tools, newId).Success? {
          ReadMore(lib, front, CallsOf(lib, items[..n], tools, newId).value, items[n], tools, newId(n));
        }
      } else {
        assert Objects(items) == front;
      }
    }
  }

  lemma ListsAreCandidates(payload: Json, items: seq<Json>)
    requires Lists(payload, items)
    ensures Candidates(payload) == items
  {
  }

  lemma SilentExactly(payload: Json)
    ensures Silent(payload) <==> Objects(Candidates(payload)) == []
  {
    if payload.Object? && payload.Get("tool_calls").None? && payload.Get("name").Some? {
      assert [payload][..0] == [];
      assert Objects([payload]) == [] + [payload];
    }
  }

  /** A call a client could ask for: offered under the choice, with an id and with
      arguments its tool accepts. */
  predicate Acceptable(lib: JsonLibrary, call: FunctionCall, tools: seq<FunctionTool>, choice: ToolChoice) {
    && Offered(FilterTools(tools, choice), call.name) && call.callId != ""
    && ArgumentsValid(lib, FilterTools(tools, choice), call.name, call.arguments)
  }

  /** Calls are found however they are listed and written down, whatever stands
      between them: the answer is accepted as exactly these calls, in order. */
  lemma {:induction false} AllCallsFound(lib: JsonLibrary, text: string, tools: seq<FunctionTool>, choice: ToolChoice,
                                         newId: nat -> string, items: seq<Json>, calls: seq<FunctionCall>,
                                         nested: seq<bool>, asText: seq<bool>)
    requires Lists(lib.payload(text), items) && calls != []
    requires |nested| == |asText| == |calls| == |Objects(items)|
    requires forall k :: 0 <= k < |calls| ==>
      && Objects(items)[k] == Written(lib, calls[k], nested[k], asText[k])
      && (if asText[k] then lib.parse(lib.render(calls[k].arguments)) == Some(calls[k].arguments)
          else !calls[k].arguments.Str?)
      && Acceptable(lib, calls[k], tools, choice)
    ensures AcceptedCalls(lib, text, tools, choice, newId) == Success(calls)
  {
    var offered := FilterTools(tools, choice);
    ListsAreCandidates(lib.payload(text), items);
    ListIsRead(lib, items, offered, newId);
    forall k | 0 <= k < |calls|
      ensures NamesATool(Objects(items)[k], offered)
      ensures GivenId(Objects(items)[k]) == Some(calls[k].callId) && GivenName(Objects(items)[k]) == Some(calls[k].name)
      ensures GivenArguments(lib, Objects(items)[k]) == calls[k].arguments
    {
      WrittenSays(lib, calls[k], nested[k], asText[k]);
    }
    hide GivenName, GivenId, GivenArguments, Written, Lists, Objects, CallsOf, FilterTools;
    var read := CallsOf(lib, items, offered, newId).value;
    assert read == calls;
    AcceptedWhenValid(lib, text, tools, choice, newId, calls);
  }

  lemma WrittenSays(lib: JsonLibrary, call: FunctionCall, nested: bool, asText: bool)
    requires if asText then lib.parse(lib.render(call.arguments)) == Some(call.arguments) else !call.arguments.Str?
    ensures var obj := Written(lib, call, nested, asText);
      && GivenId(obj) == Some(call.callId) && GivenName(obj) == Some(call.name)
      && GivenArguments(lib, obj) == call.arguments
  {
  }

  lemma {:induction false} AcceptedWhenValid(lib: JsonLibrary, text: string, tools: seq<FunctionTool>,
                                             choice: ToolChoice, newId: nat -> string, calls: seq<FunctionCall>)
    requires CallsOf(lib, Candidates(lib.payload(text)), FilterTools(tools, choice), newId) == Success(calls)
    requires calls != [] && forall k :: 0 <= k < |calls| ==> Acceptable(lib, calls[k], tools, choice)
    ensures AcceptedCalls(lib, text, tools, choice, newId) == Success(calls)
  {
    var offered := FilterTools(tools, choice);
    assert Acceptable(lib, calls[0], tools, choice);
    assert offered != [];
    forall c | c in calls ensures Acceptable(lib, c, tools, choice) {
      var k :| 0 <= k < |calls| && calls[k] == c;
    }
    assert choice.Named? ==> forall c :: c in calls ==> c.name == choice.name;
    assert choice.Named? ==> Offered(offered, choice.name);
    assert WithIds(calls, newId, |Candidates(lib.payload(text))|) == calls;
    hide CallsOf, FilterTools, Candidates, ArgumentsValid;
  }

  /** No call is found exactly when no tool is left to call, or none is demanded and
      the payload lists nothing that could be a call. */
  lemma NothingFoundExactly(lib: JsonLibrary, text: string, tools: seq<FunctionTool>, choice: ToolChoice,
                            newId: nat -> string)
    ensures AcceptedCalls(lib, text, tools, choice, newId) == Success([])
      <==> FilterTools(tools, choice) == [] || (!RequiresCall(choice) && Silent(lib.payload(text)))
  {
    var items := Candidates(lib.payload(text));
    ListIsRead(lib, items, FilterTools(tools, choice), newId);
    SilentExactly(lib.payload(text));
    NoCallsAllowed(choice, FilterTools(tools, choice));
    hide CallsOf, Candidates, Silent, FilterTools, NamesATool;
  }

  lemma NoCallsAllowed(choice: ToolChoice, tools: seq<FunctionTool>)
    ensures ChoiceError([], choice, tools).None? <==> !RequiresCall(choice)
  {
  }

  /** An answer is refused exactly when it lists an object that names no offered tool
      or whose arguments its tool rejects, or when a call is demanded and none listed. */
  lemma RefusedExactly(lib: JsonLibrary, text: string, tools: seq<FunctionTool>, choice: ToolChoice,
                       newId: nat -> string)
    ensures var offered, objects := FilterTools(tools, choice), Objects(Candidates(lib.payload(text)));
      AcceptedCalls(lib, text, tools, choice, newId).Failure?
      <==> offered != []
           && (|| (exists obj :: obj in objects && !NamesATool(obj, offered))
               || (exists obj :: obj in objects && NamesATool(obj, offered)
                                 && !ArgumentsValid(lib, offered, GivenName(obj).value, GivenArguments(lib, obj)))
               || (RequiresCall(choice) && objects == []))
  {
    var offered, items := FilterTools(tools, choice), Candidates(lib.payload(text));
    var objects := Objects(items);
    ListIsRead(lib, items, offered, newId);
    var r := CallsOf(lib, items, offered, newId);
    if offered != [] && r.Success? {
      ValidWhenObjectsAre(lib, objects, r.value, offered);
      AllowedExactly(r.value, tools, choice);
      hide CallsOf, Objects, FilterTools, ArgumentsValid, GivenName, GivenArguments, GivenId, Candidates, ChoiceError;
      hide NamesATool, AllValid;
    }
  }

  lemma ValidWhenObjectsAre(lib: JsonLibrary, objects: seq<Json>, calls: seq<FunctionCall>, tools: seq<FunctionTool>)
    requires ReadAs(lib, objects, calls)
    ensures AllValid(lib, tools, calls) <==>
      forall obj :: obj in objects ==> GivenName(obj).Some?
                                       && ArgumentsValid(lib, tools, GivenName(obj).value, GivenArguments(lib, obj))
  {
    hide ArgumentsValid, GivenName, GivenArguments, GivenId;
    forall obj | obj in objects
      ensures GivenName(obj).Some?
      ensures AllValid(lib, tools, calls) ==> ArgumentsValid(lib, tools, GivenName(obj).value, GivenArguments(lib, obj))
    {
      var k :| 0 <= k < |objects| && objects[k] == obj;
      assert calls[k] in calls;
    }
    if forall obj :: obj in objects ==> GivenName(obj).Some?
                                        && ArgumentsValid(lib, tools, GivenName(obj).value, GivenArguments(lib, obj)) {
      forall c | c in calls ensures ArgumentsValid(lib, tools, c.name, c.arguments) {
        var k :| 0 <= k < |calls| && calls[k] == c;
        assert objects[k] in objects;
      }
    }
  }

  lemma AllowedExactly(calls: seq<FunctionCall>, tools: seq<FunctionTool>, choice: ToolChoice)
    requires FilterTools(tools, choice) != []
    requires forall c :: c in calls ==> Offered(FilterTools(tools, choice), c.name)
    ensures ChoiceError(calls, choice, FilterTools(tools, choice)).Some? <==> RequiresCall(choice) && calls == []
  {
    if choice.Named? {
      var t := FilterTools(tools, choice)[0];
      assert t in FilterTools(tools, choice);
    }
  }
}
