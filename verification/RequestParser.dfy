/** Reading the input items of a Responses request
    (crates/copenai-openai/src/responses/parser.rs and input.rs). */
module RequestParser {
  import opened Wrappers
  import opened History

  datatype InputPart =
    | InputText(text: string)
    | OutputText(text: string)
    | InputImage(url: Option<string>)
    | InputFilePart(fileId: Option<string>)
    | InputAudioPart(data: Option<string>, format: Option<string>)

  datatype InputContent = Bare(text: string) | Many(parts: seq<InputPart>)

  datatype InputItem =
    | Message(role: string, content: InputContent)
    | FunctionCall(callId: string, name: string, arguments: string)
    | FunctionCallOutput(callId: string, output: string)

  datatype Input = TextInput(text: string) | Items(items: seq<InputItem>)

  datatype ParsedResponse = ParsedResponse(system: string, history: seq<Turn>, finalUser: MessageContent,
                                           functionCallOutputs: seq<(string, string)>)

  function ToContentPart(part: InputPart): ContentPart {
    match part
    case InputText(text) => TextPart(text)
    case OutputText(text) => TextPart(text)
    case InputImage(url) => ImageUrl(url.GetOr(""))
    case InputFilePart(fileId) => InputFile(fileId.GetOr(""))
    case InputAudioPart(data, format) => InputAudio(data.GetOr(""), format.GetOr("wav"))
  }

  function ToContent(content: InputContent): MessageContent {
    match content
    case Bare(text) => Text(text)
    case Many(parts) => Parts(seq(|parts|, i requires 0 <= i < |parts| => ToContentPart(parts[i])))
  }

  function UserText(content: MessageContent): string {
    match content
    case Text(text) => text
    case Parts(parts) => Join(Texts(parts), "\n")
  }

  function ItemsOf(input: Input): seq<InputItem> {
    match input
    case TextInput(text) => if text == "" then [] else [Message("user", Bare(text))]
    case Items(items) => items
  }

  const NOTHING := Text("")

  function UserTurn(content: MessageContent): Turn { Turn("user", Plain(UserText(content))) }

  function AssistantTurn(content: MessageContent): Turn { Turn("assistant", Plain(UserText(content))) }

  predicate From(item: InputItem, role: string) { item.Message? && item.role == role }

  // ---- What is in the items, role by role ----

  function SaidIn(item: InputItem, role: string): seq<MessageContent> {
    if From(item, role) then [ToContent(item.content)] else []
  }

  /** The contents of one role's messages, in order. */
  function Said(items: seq<InputItem>, role: string): seq<MessageContent> {
    if items == [] then [] else SaidIn(items[0], role) + Said(items[1..], role)
  }

  function OutputIn(item: InputItem): seq<(string, string)> {
    if item.FunctionCallOutput? then [(item.callId, item.output)] else []
  }

  function OutputsGiven(items: seq<InputItem>): seq<(string, string)> {
    if items == [] then [] else OutputIn(items[0]) + OutputsGiven(items[1..])
  }

  function SystemIn(item: InputItem): seq<string> {
    if (From(item, "system") || From(item, "developer")) && item.content.Bare? then [item.content.text] else []
  }

  function SystemTexts(items: seq<InputItem>): seq<string> {
    if items == [] then [] else SystemIn(items[0]) + SystemTexts(items[1..])
  }

  function SystemParts(instructions: Option<string>, items: seq<InputItem>): seq<string> {
    (if instructions.GetOr("") != "" then [instructions.value] else []) + SystemTexts(items)
  }

  function LastOr(contents: seq<MessageContent>, fallback: MessageContent): MessageContent {
    if contents == [] then fallback else contents[|contents| - 1]
  }

  function DropLast<T>(s: seq<T>): seq<T> {
    if s == [] then [] else s[..|s| - 1]
  }

  /** The turn of a user message, unless it says nothing. */
  function UserTurns(contents: seq<MessageContent>): seq<Turn> {
    if contents == [] then [] else Spoken(contents[0]) + UserTurns(contents[1..])
  }

  function Spoken(content: MessageContent): seq<Turn> {
    if content != NOTHING then [UserTurn(content)] else []
  }

  function AssistantTurns(contents: seq<MessageContent>): seq<Turn> {
    if contents == [] then [] else [AssistantTurn(contents[0])] + AssistantTurns(contents[1..])
  }

  function WithRole(turns: seq<Turn>, role: string): seq<Turn> {
    if turns == [] then [] else IfRole(turns[0], role) + WithRole(turns[1..], role)
  }

  function IfRole(turn: Turn, role: string): seq<Turn> {
    if turn.role == role then [turn] else []
  }

  // ---- The history ----

  /** The turns one item adds while pending is the last user message. */
  function Added(item: InputItem, pending: MessageContent): seq<Turn> {
    if From(item, "user") then Spoken(pending)
    else if From(item, "assistant") then [AssistantTurn(ToContent(item.content))]
    else []
  }

  function Next(item: InputItem, pending: MessageContent): MessageContent {
    if From(item, "user") then ToContent(item.content) else pending
  }

  function HistoryFrom(items: seq<InputItem>, pending: MessageContent): seq<Turn> {
    if items == [] then [] else Added(items[0], pending) + HistoryFrom(items[1..], Next(items[0], pending))
  }

  function HistoryOf(items: seq<InputItem>): seq<Turn> {
    HistoryFrom(items, NOTHING)
  }

  method ParseResponseRequest(input: Input, instructions: Option<string>) returns (parsed: ParsedResponse)
    ensures parsed.system == Join(SystemParts(instructions, ItemsOf(input)), "\n\n")
    ensures parsed.history == HistoryOf(ItemsOf(input))
    ensures parsed.finalUser == LastOr(Said(ItemsOf(input), "user"), NOTHING)
    ensures parsed.functionCallOutputs == OutputsGiven(ItemsOf(input))
    ensures input.TextInput? ==>
      parsed.finalUser == Text(input.text) && parsed.history == [] && parsed.functionCallOutputs == []
  {
    if input.TextInput? {
      TextIsUserMessage(input);
    }
    hide Join, ItemsOf, ToContentPart;
    var items := ItemsOf(input);
    var systemParts: seq<string> := [];
    if instructions.Some? && instructions.value != "" {
      systemParts := [instructions.value];
    }
    var history: seq<Turn> := [];
    var finalUser := NOTHING;
    var outputs: seq<(string, string)> := [];
    for i := 0 to |items|
      invariant history + HistoryFrom(items[i..], finalUser) == HistoryOf(items)
      invariant LastOr(Said(items[i..], "user"), finalUser) == LastOr(Said(items, "user"), NOTHING)
      invariant outputs + OutputsGiven(items[i..]) == OutputsGiven(items)
      invariant systemParts + SystemTexts(items[i..]) == SystemParts(instructions, items)
    {
      var item := items[i];
      Unfolded(items, i, finalUser);
      hide HistoryFrom, OutputsGiven, SystemTexts, Said, SystemParts, HistoryOf, LastOr;
      Moves(history, Added(item, finalUser), HistoryFrom(items[i + 1..], Next(item, finalUser)));
      Moves(outputs, OutputIn(item), OutputsGiven(items[i + 1..]));
      Moves(systemParts, SystemIn(item), SystemTexts(items[i + 1..]));
      if item.FunctionCallOutput? {
        outputs := outputs + [(item.callId, item.output)];
        continue;
      }
      if item.FunctionCall? {
        continue;
      }
      var content := ToContent(item.content);
      if item.role == "system" || item.role == "developer" {
        if content.Text? {
          systemParts := systemParts + [content.text];
        }
      } else if item.role == "user" {
        if finalUser != NOTHING {
          history := history + [UserTurn(finalUser)];
        }
        finalUser := content;
      } else if item.role == "assistant" {
        history := history + [AssistantTurn(content)];
      }
    }
    assert items[|items|..] == [];
    assert systemParts == SystemParts(instructions, items);
    parsed := ParsedResponse(Join(systemParts, "\n\n"), history, finalUser, outputs);
  }

  lemma TextIsUserMessage(input: Input)
    requires input.TextInput?
    ensures LastOr(Said(ItemsOf(input), "user"), NOTHING) == Text(input.text)
    ensures HistoryOf(ItemsOf(input)) == [] && OutputsGiven(ItemsOf(input)) == []
  {
    if input.text != "" {
      assert ItemsOf(input)[1..] == [];
      assert HistoryFrom([], Text(input.text)) == [];
    }
  }

  lemma Moves<T>(done: seq<T>, step: seq<T>, rest: seq<T>)
    ensures done + (step + rest) == (done + step) + rest
    ensures step == [] ==> done + step == done
  {
  }

  lemma {:induction false} Unfolded(items: seq<InputItem>, i: nat, pending: MessageContent)
    requires i < |items|
    ensures HistoryFrom(items[i..], pending)
            == Added(items[i], pending) + HistoryFrom(items[i + 1..], Next(items[i], pending))
    ensures LastOr(Said(items[i..], "user"), pending) == LastOr(Said(items[i + 1..], "user"), Next(items[i], pending))
    ensures OutputsGiven(items[i..]) == OutputIn(items[i]) + OutputsGiven(items[i + 1..])
    ensures SystemTexts(items[i..]) == SystemIn(items[i]) + SystemTexts(items[i + 1..])
  {
    assert items[i..][1..] == items[i + 1..];
  }

  // ---- What one more item says ----

  predicate IsText(part: InputPart) {
    part.InputText? || part.OutputText?
  }

  /** The text of a message: a bare one as it is, else its text parts, in order, with
      a line break between two of them. */
  lemma TextOfMessage(text: string, parts: seq<InputPart>, part: InputPart)
    ensures UserText(ToContent(Bare(text))) == text
    ensures UserText(ToContent(Many([]))) == ""
    ensures var said := UserText(ToContent(Many(parts)));
      UserText(ToContent(Many(parts + [part])))
      == if !IsText(part) then said
         else if exists k :: 0 <= k < |parts| && IsText(parts[k]) then said + "\n" + part.text
         else part.text
  {
    var before := ToContent(Many(parts)).parts;
    var last := ToContentPart(part);
    assert ToContent(Many(parts + [part])).parts == before + [last];
    PartsText(before, last);
    assert forall k :: 0 <= k < |parts| ==> (before[k].TextPart? <==> IsText(parts[k]));
  }

  /** What is passed on of the last user message, part by part. */
  lemma PartsPassedOn(parts: seq<InputPart>, k: nat)
    requires k < |parts|
    ensures var content := ToContent(Many(parts));
      && content.Parts? && |content.parts| == |parts|
      && match parts[k]
         case InputText(text) => content.parts[k] == TextPart(text)
         case OutputText(text) => content.parts[k] == TextPart(text)
         case InputImage(url) => content.parts[k] == ImageUrl(if url.Some? then url.value else "")
         case InputFilePart(id) => content.parts[k] == InputFile(if id.Some? then id.value else "")
         case InputAudioPart(data, format) =>
           content.parts[k] == InputAudio(if data.Some? then data.value else "",
                                          if format.Some? then format.value else "wav")
  {
  }

  /** The last user message, which is not yet in the history. */
  function Pending(items: seq<InputItem>): MessageContent {
    LastOr(Said(items, "user"), NOTHING)
  }

  lemma NoItems(instructions: Option<string>)
    ensures Pending([]) == Text("") && HistoryOf([]) == [] && OutputsGiven([]) == []
    ensures Join(SystemParts(instructions, []), "\n\n") == if instructions.Some? then instructions.value else ""
  {
    var parts := SystemParts(instructions, []);
    assert parts == if instructions.GetOr("") != "" then [instructions.value] else [];
  }

  /** Each kind of item changes one part of what is parsed: a user message takes the
      place of the pending one, which enters the history unless it is empty text; an
      assistant message enters at once; a bare system or developer text goes behind
      the others after an empty line; an output is added; nothing else counts. */
  lemma {:induction false} OneMoreItem(items: seq<InputItem>, item: InputItem, instructions: Option<string>)
    ensures var more := items + [item];
      && HistoryOf(more) == HistoryOf(items)
           + (if item.Message? && item.role == "assistant"
              then [Turn("assistant", Plain(UserText(ToContent(item.content))))]
              else if item.Message? && item.role == "user" && Pending(items) != Text("")
              then [Turn("user", Plain(UserText(Pending(items))))]
              else [])
      && Pending(more) == (if item.Message? && item.role == "user" then ToContent(item.content) else Pending(items))
      && OutputsGiven(more) == OutputsGiven(items)
           + (if item.FunctionCallOutput? then [(item.callId, item.output)] else [])
      && var heard := SystemParts(instructions, items);
         Join(SystemParts(instructions, more), "\n\n")
         == if item.Message? && item.role in {"system", "developer"} && item.content.Bare?
            then if heard == [] then item.content.text else Join(heard, "\n\n") + "\n\n" + item.content.text
            else Join(heard, "\n\n")
  {
    SaidMore(items, item);
    HistoryMore(items, item, NOTHING);
    OutputsMore(items, item);
    SystemJoins(items, item, instructions);
    hide HistoryFrom, Said, OutputsGiven, SystemTexts, Join, SystemParts, ToContent, UserText;
  }

  lemma {:induction false} SystemJoins(items: seq<InputItem>, item: InputItem, instructions: Option<string>)
    ensures var heard := SystemParts(instructions, items);
      Join(SystemParts(instructions, items + [item]), "\n\n")
      == if item.Message? && item.role in {"system", "developer"} && item.content.Bare?
         then if heard == [] then item.content.text else Join(heard, "\n\n") + "\n\n" + item.content.text
         else Join(heard, "\n\n")
  {
    hide Join, SystemTexts;
    SystemMore(items, item);
    var heard := SystemParts(instructions, items);
    assert SystemParts(instructions, items + [item]) == heard + SystemIn(item);
    if SystemIn(item) != [] {
      JoinMore(heard, item.content.text, "\n\n");
    } else {
      assert heard + [] == heard;
    }
  }

  lemma {:induction false} SaidMore(items: seq<InputItem>, item: InputItem)
    ensures Said(items + [item], "user") == Said(items, "user") + SaidIn(item, "user")
  {
    if items == [] {
      assert items + [item] == [item] && [item][1..] == [];
    } else {
      assert (items + [item])[1..] == items[1..] + [item];
      SaidMore(items[1..], item);
    }
  }

  lemma {:induction false} HistoryMore(items: seq<InputItem>, item: InputItem, pending: MessageContent)
    ensures HistoryFrom(items + [item], pending)
         == HistoryFrom(items, pending) + Added(item, LastOr(Said(items, "user"), pending))
  {
    hide Added;
    if items == [] {
      assert items + [item] == [item] && [item][1..] == [];
    } else {
      assert (items + [item])[1..] == items[1..] + [item];
      HistoryMore(items[1..], item, Next(items[0], pending));
      assert items[0..] == items;
      Unfolded(items, 0, pending);
      var rest := HistoryFrom(items[1..], Next(items[0], pending));
      assert HistoryFrom(items + [item], pending)
          == Added(items[0], pending) + HistoryFrom(items[1..] + [item], Next(items[0], pending));
      hide *;
      Moves(Added(items[0], pending), rest, Added(item, LastOr(Said(items, "user"), pending)));
    }
  }

  lemma {:induction false} OutputsMore(items: seq<InputItem>, item: InputItem)
    ensures OutputsGiven(items + [item]) == OutputsGiven(items) + OutputIn(item)
  {
    if items == [] {
      assert items + [item] == [item] && [item][1..] == [];
    } else {
      assert (items + [item])[1..] == items[1..] + [item];
      OutputsMore(items[1..], item);
    }
  }

  lemma {:induction false} SystemMore(items: seq<InputItem>, item: InputItem)
    ensures SystemTexts(items + [item]) == SystemTexts(items) + SystemIn(item)
  {
    if items == [] {
      assert items + [item] == [item] && [item][1..] == [];
    } else {
      assert (items + [item])[1..] == items[1..] + [item];
      SystemMore(items[1..], item);
    }
  }

  // ---- Nothing is lost or reordered within a role ----

  lemma {:induction false} WithRoleAppend(a: seq<Turn>, b: seq<Turn>, role: string)
    ensures WithRole(a + b, role) == WithRole(a, role) + WithRole(b, role)
  {
    hide IfRole;
    if a == [] {
      assert a + b == b;
    } else {
      assert (a + b)[1..] == a[1..] + b;
      WithRoleAppend(a[1..], b, role);
    }
  }

  lemma AddedRoles(item: InputItem, pending: MessageContent)
    ensures WithRole(Added(item, pending), "user") == if From(item, "user") then Spoken(pending) else []
    ensures WithRole(Added(item, pending), "assistant") == AssistantTurns(SaidIn(item, "assistant"))
  {
  }

  lemma {:induction false} AssistantTurnsAppend(a: seq<MessageContent>, b: seq<MessageContent>)
    ensures AssistantTurns(a + b) == AssistantTurns(a) + AssistantTurns(b)
  {
    if a == [] {
      assert a + b == b;
    } else {
      assert (a + b)[1..] == a[1..] + b;
      AssistantTurnsAppend(a[1..], b);
    }
  }

  lemma {:induction false} HistoryKeepsAssistants(items: seq<InputItem>, pending: MessageContent)
    ensures WithRole(HistoryFrom(items, pending), "assistant") == AssistantTurns(Said(items, "assistant"))
  {
    if items != [] {
      hide Added, Next, SaidIn;
      var rest := HistoryFrom(items[1..], Next(items[0], pending));
      HistoryKeepsAssistants(items[1..], Next(items[0], pending));
      WithRoleAppend(Added(items[0], pending), rest, "assistant");
      AddedRoles(items[0], pending);
      AssistantTurnsAppend(SaidIn(items[0], "assistant"), Said(items[1..], "assistant"));
    }
  }

  lemma {:induction false} HistoryKeepsUsers(items: seq<InputItem>, pending: MessageContent)
    ensures WithRole(HistoryFrom(items, pending), "user") == UserTurns(DropLast([pending] + Said(items, "user")))
  {
    if items == [] {
      assert DropLast([pending] + []) == [];
    } else {
      hide Added, From, Spoken, ToContent;
      var next := Next(items[0], pending);
      var said := Said(items[1..], "user");
      HistoryKeepsUsers(items[1..], next);
      WithRoleAppend(Added(items[0], pending), HistoryFrom(items[1..], next), "user");
      AddedRoles(items[0], pending);
      if From(items[0], "user") {
        var before := DropLast([next] + said);
        assert DropLast([pending] + ([next] + said)) == [pending] + before;
        assert ([pending] + before)[1..] == before;
      } else {
        assert [] + said == said;
      }
    }
  }

  /** The history holds every assistant message and every non-empty user message but
      the last user one, each role in order. */
  lemma {:induction false} HistoryConserves(items: seq<InputItem>)
    ensures WithRole(HistoryOf(items), "assistant") == AssistantTurns(Said(items, "assistant"))
    ensures WithRole(HistoryOf(items), "user") == UserTurns(DropLast(Said(items, "user")))
  {
    HistoryKeepsAssistants(items, NOTHING);
    HistoryKeepsUsers(items, NOTHING);
    var said := Said(items, "user");
    if said != [] {
      assert DropLast([NOTHING] + said) == [NOTHING] + DropLast(said);
      assert ([NOTHING] + DropLast(said))[1..] == DropLast(said);
    }
  }

  // ---- Chronology ----

  predicate UserSpeaks(items: seq<InputItem>) {
    exists k :: 0 <= k < |items| && From(items[k], "user")
  }

  /** What an item would add at its own place: a user message unless it is the last. */
  function Uttered(item: InputItem, last: bool): seq<Turn> {
    if From(item, "assistant") then [AssistantTurn(ToContent(item.content))]
    else if From(item, "user") && !last then Spoken(ToContent(item.content))
    else []
  }

  /** The same turns in the order in which they were said. */
  function Chronological(items: seq<InputItem>): seq<Turn> {
    if items == [] then [] else Uttered(items[0], !UserSpeaks(items[1..])) + Chronological(items[1..])
  }

  /** An assistant message at j answers a non-empty user message, and another user
      message follows it. */
  predicate AnswersMidway(items: seq<InputItem>, pending: MessageContent, j: nat)
    requires j < |items|
  {
    && From(items[j], "assistant")
    && LastOr(Said(items[..j], "user"), pending) != NOTHING
    && UserSpeaks(items[j + 1..])
  }

  lemma MidwayShifts(items: seq<InputItem>, pending: MessageContent, j: nat)
    requires 1 <= j < |items|
    ensures AnswersMidway(items, pending, j) <==> AnswersMidway(items[1..], Next(items[0], pending), j - 1)
  {
    assert items[..j][1..] == items[1..][..j - 1];
    assert items[..j][0] == items[0];
    assert items[1..][j..] == items[j + 1..];
  }

  ghost predicate NoneMidway(items: seq<InputItem>, pending: MessageContent) {
    forall j :: 0 <= j < |items| ==> !AnswersMidway(items, pending, j)
  }

  lemma MidwaySplits(items: seq<InputItem>, pending: MessageContent)
    requires items != []
    ensures NoneMidway(items, pending)
      <==> !(From(items[0], "assistant") && pending != NOTHING && UserSpeaks(items[1..]))
           && NoneMidway(items[1..], Next(items[0], pending))
  {
    assert Said(items[..0], "user") == [];
    assert AnswersMidway(items, pending, 0)
      <==> From(items[0], "assistant") && pending != NOTHING && UserSpeaks(items[1..]);
    hide AnswersMidway;
    var rest, next := items[1..], Next(items[0], pending);
    forall j | 1 <= j < |items| ensures AnswersMidway(items, pending, j) <==> AnswersMidway(rest, next, j - 1) {
      MidwayShifts(items, pending, j);
    }
    if NoneMidway(items, pending) {
      forall j | 0 <= j < |rest| ensures !AnswersMidway(rest, next, j) {
        assert !AnswersMidway(items, pending, j + 1);
      }
    }
  }

  lemma SpeaksCons(items: seq<InputItem>)
    requires items != []
    ensures UserSpeaks(items) <==> From(items[0], "user") || UserSpeaks(items[1..])
  {
    if UserSpeaks(items) && !From(items[0], "user") {
      var k :| 0 <= k < |items| && From(items[k], "user");
      assert items[1..][k - 1] == items[k];
    }
    if UserSpeaks(items[1..]) {
      var k :| 0 <= k < |items[1..]| && From(items[1..][k], "user");
      assert items[k + 1] == items[1..][k];
    }
  }

  lemma SamePrefix<T>(a: seq<T>, b: seq<T>, c: seq<T>)
    ensures a + b == a + c <==> b == c
  {
    if a + b == a + c {
      assert (a + b)[|a|..] == b;
      assert (a + c)[|a|..] == c;
    }
  }

  /** The pending message at its own place, if it is not the last. */
  function Lead(items: seq<InputItem>, pending: MessageContent): seq<Turn> {
    if UserSpeaks(items) then Spoken(pending) else []
  }

  lemma {:induction false} InOrderFrom(items: seq<InputItem>, pending: MessageContent)
    ensures HistoryFrom(items, pending) == Lead(items, pending) + Chronological(items)
      <==> NoneMidway(items, pending)
  {
    if items != [] {
      InOrderFrom(items[1..], Next(items[0], pending));
      MidwaySplits(items, pending);
      SpeaksCons(items);
      if From(items[0], "assistant") && Lead(items, pending) != [] {
        AnsweredTooEarly(items, pending);
      } else {
        InOrderSoFar(items, pending);
        hide *;
      }
    }
  }

  lemma {:induction false} AnsweredTooEarly(items: seq<InputItem>, pending: MessageContent)
    requires items != [] && From(items[0], "assistant") && Lead(items, pending) != []
    ensures HistoryFrom(items, pending) != Lead(items, pending) + Chronological(items)
  {
    assert HistoryFrom(items, pending)[0].role == "assistant";
    assert (Lead(items, pending) + Chronological(items))[0].role == "user";
  }

  lemma {:induction false} InOrderSoFar(items: seq<InputItem>, pending: MessageContent)
    requires items != []
    requires From(items[0], "assistant") ==> Lead(items, pending) == []
    ensures var rest, next := items[1..], Next(items[0], pending);
            HistoryFrom(items, pending) == Lead(items, pending) + Chronological(items)
            <==> HistoryFrom(rest, next) == Lead(rest, next) + Chronological(rest)
  {
    LeadMoves(items, pending);
    var rest, next := items[1..], Next(items[0], pending);
    var uttered := Uttered(items[0], !UserSpeaks(rest));
    assert Chronological(items) == uttered + Chronological(rest);
    assert HistoryFrom(items, pending) == Added(items[0], pending) + HistoryFrom(rest, next);
    hide *;
    Moves(Lead(items, pending), uttered, Chronological(rest));
    Moves(Added(items[0], pending), Lead(rest, next), Chronological(rest));
    SamePrefix(Added(items[0], pending), HistoryFrom(rest, next), Lead(rest, next) + Chronological(rest));
  }

  lemma LeadMoves(items: seq<InputItem>, pending: MessageContent)
    requires items != []
    requires From(items[0], "assistant") ==> Lead(items, pending) == []
    ensures Lead(items, pending) + Uttered(items[0], !UserSpeaks(items[1..]))
            == Added(items[0], pending) + Lead(items[1..], Next(items[0], pending))
  {
    hide UserSpeaks, ToContent;
    SpeaksCons(items);
  }

  lemma {:induction false} SpeaksWhenSaid(items: seq<InputItem>)
    ensures UserSpeaks(items) <==> Said(items, "user") != []
  {
    if items != [] {
      SpeaksCons(items);
      SpeaksWhenSaid(items[1..]);
    }
  }

  lemma UtteredRoles(item: InputItem, last: bool)
    ensures WithRole(Uttered(item, last), "user") == if last then [] else UserTurns(SaidIn(item, "user"))
    ensures WithRole(Uttered(item, last), "assistant") == AssistantTurns(SaidIn(item, "assistant"))
  {
  }

  /** The chronological order holds the same turns of each role. */
  lemma {:induction false} ChronologicalConserves(items: seq<InputItem>)
    ensures WithRole(Chronological(items), "assistant") == WithRole(HistoryOf(items), "assistant")
    ensures WithRole(Chronological(items), "user") == WithRole(HistoryOf(items), "user")
  {
    HistoryConserves(items);
    if items != [] {
      var item, rest := items[0], items[1..];
      var uttered := Uttered(item, !UserSpeaks(rest));
      HistoryConserves(rest);
      ChronologicalConserves(rest);
      SpeaksWhenSaid(rest);
      UtteredRoles(item, !UserSpeaks(rest));
      WithRoleAppend(uttered, Chronological(rest), "assistant");
      WithRoleAppend(uttered, Chronological(rest), "user");
      hide UserSpeaks, ToContent, Uttered, HistoryOf, WithRole, Spoken, From;
      AssistantTurnsAppend(SaidIn(item, "assistant"), Said(rest, "assistant"));
      DropLastSaid(SaidIn(item, "user"), Said(rest, "user"));
    }
  }

  lemma {:induction false} DropLastSaid(a: seq<MessageContent>, b: seq<MessageContent>)
    requires |a| <= 1
    ensures UserTurns(DropLast(a + b)) == (if b == [] then [] else UserTurns(a)) + UserTurns(DropLast(b))
  {
    if b == [] {
      assert a + b == a;
    } else {
      assert DropLast(a + b) == a + DropLast(b);
      if a == [] {
        assert a + DropLast(b) == DropLast(b);
      } else {
        assert (a + DropLast(b))[1..] == DropLast(b);
        assert UserTurns(a) == Spoken(a[0]);
      }
    }
  }

  /** A user message enters the history only when the next one arrives. So the
      history is in the order of the conversation exactly when no assistant message
      stands between a non-empty user message and the next user message. */
  lemma {:induction false} ChronologicalExactly(items: seq<InputItem>)
    ensures HistoryOf(items) == Chronological(items)
      <==> forall j :: 0 <= j < |items| ==> !AnswersMidway(items, NOTHING, j)
  {
    InOrderFrom(items, NOTHING);
  }

  /** An ordinary three-message conversation already comes out reversed. */
  lemma AnswerBeforeQuestion()
    ensures HistoryOf([Message("user", Bare("hi")), Message("assistant", Bare("hello")), Message("user", Bare("more"))])
      == [AssistantTurn(Text("hello")), UserTurn(Text("hi"))]
  {
    var m1, m2, m3 := Message("user", Bare("hi")), Message("assistant", Bare("hello")), Message("user", Bare("more"));
    assert [m1, m2, m3][1..] == [m2, m3];
    assert [m2, m3][1..] == [m3];
    assert HistoryFrom([m3], Text("hi")) == [UserTurn(Text("hi"))];
    assert HistoryFrom([m2, m3], Text("hi")) == [AssistantTurn(Text("hello"))] + [UserTurn(Text("hi"))];
  }
}
