/** Conversation turns and the trimming of a history to a budget
    (crates/copenai-openai/src/messages.rs, types.rs). */
module History {
  import opened Wrappers
  import Worker

  datatype ContentPart =
    | TextPart(text: string)
    | ImageUrl(url: string)
    | InputFile(fileId: string)
    | InputAudio(data: string, format: string)

  datatype MessageContent = Text(text: string) | Parts(parts: seq<ContentPart>)

  function Texts(parts: seq<ContentPart>): seq<string> {
    if parts == [] then []
    else (if parts[0].TextPart? then [parts[0].text] else []) + Texts(parts[1..])
  }

  function Join(texts: seq<string>, separator: string): string {
    if texts == [] then ""
    else if |texts| == 1 then texts[0]
    else texts[0] + separator + Join(texts[1..], separator)
  }

  /** One more text comes behind a separator, unless it is the first. */
  lemma {:induction false} JoinMore(texts: seq<string>, last: string, separator: string)
    ensures Join(texts + [last], separator) == if texts == [] then last else Join(texts, separator) + separator + last
  {
    if texts == [] {
      assert texts + [last] == [last];
    } else {
      assert (texts + [last])[1..] == texts[1..] + [last];
      JoinMore(texts[1..], last, separator);
      if |texts| > 1 {
        assert Join(texts + [last], separator)
            == texts[0] + separator + (Join(texts[1..], separator) + separator + last);
      } else {
        assert texts[1..] == [];
      }
    }
  }

  lemma {:induction false} TextsMore(parts: seq<ContentPart>, last: ContentPart)
    ensures Texts(parts + [last]) == Texts(parts) + if last.TextPart? then [last.text] else []
    ensures Texts(parts) == [] <==> forall k :: 0 <= k < |parts| ==> !parts[k].TextPart?
  {
    if parts == [] {
      assert parts + [last] == [last] && [last][1..] == [];
    } else {
      assert (parts + [last])[1..] == parts[1..] + [last];
      TextsMore(parts[1..], last);
      if Texts(parts) == [] {
        forall k | 0 <= k < |parts| ensures !parts[k].TextPart? {
          assert k > 0 ==> parts[1..][k - 1] == parts[k];
        }
      }
    }
  }

  lemma {:induction false} PartsText(parts: seq<ContentPart>, last: ContentPart)
    ensures Join(Texts([]), "\n") == ""
    ensures var said := Join(Texts(parts), "\n");
      Join(Texts(parts + [last]), "\n")
      == if !last.TextPart? then said
         else if exists k :: 0 <= k < |parts| && parts[k].TextPart? then said + "\n" + last.text
         else last.text
    ensures Texts(parts) == [] ==> Join(Texts(parts), "\n") == ""
  {
    TextsMore(parts, last);
    if last.TextPart? {
      JoinMore(Texts(parts), last.text, "\n");
    } else {
      assert Texts(parts) + [] == Texts(parts);
    }
  }

  function AsText(content: MessageContent): Option<string> {
    match content
    case Text(text) => Some(text)
    case Parts(parts) => if Texts(parts) == [] then None else Some(Join(Texts(parts), "\n"))
  }

  datatype TurnContent = Plain(text: string) | Rich(content: MessageContent) {

    function Shown(): string {
      match this
      case Plain(text) => text
      case Rich(content) => AsText(content).GetOr("")
    }
  }

  datatype Turn = Turn(role: string, content: TurnContent)

  /** The bytes all the texts take together. */
  function Size(turns: seq<Turn>): (n: nat) {
    if turns == [] then 0 else Worker.ByteLength(turns[0].content.Shown()) + Size(turns[1..])
  }

  function SaturatingSub(a: nat, b: nat): nat {
    if a >= b then a - b else 0
  }

  predicate IsSuffix(kept: seq<Turn>, all: seq<Turn>) {
    |kept| <= |all| && kept == all[|all| - |kept|..]
  }

  /** kept is a suffix that fits, and every longer one does not. */
  ghost predicate LongestFitting(kept: seq<Turn>, all: seq<Turn>, budget: nat) {
    && IsSuffix(kept, all)
    && Size(kept) <= budget
    && forall other :: IsSuffix(other, all) && Size(other) <= budget ==> |other| <= |kept|
  }

  class Conversation {
    var history: seq<Turn>

    constructor (history: seq<Turn>)
      ensures this.history == history
    {
      this.history := history;
    }

    /** The running total never drifts from the true size, so the saturating
        subtraction never saturates and nothing is kept or dropped by mistake. */
    method Truncate(budget: nat)
      modifies this
      ensures LongestFitting(history, old(history), budget)
    {
      var total := 0;
      for i := 0 to |history|
        invariant total + Size(history[i..]) == Size(history)
      {
        total := total + Worker.ByteLength(history[i].content.Shown());
      }
      ghost var all := history;
      ghost var gone := 0;
      while total > budget && history != []
        invariant 0 <= gone <= |all|
        invariant history == all[gone..]
        invariant total == Size(history)
        invariant forall k :: 0 <= k < gone ==> Size(all[k..]) > budget
        decreases |history|
      {
        var removed := history[0];
        history := history[1..];
        total := SaturatingSub(total, Worker.ByteLength(removed.content.Shown()));
        gone := gone + 1;
      }
      assert Size([]) == 0;
      FirstFit(history, all, gone, budget);
    }
  }

  /** The size is the number of bytes of all the texts, plain ones as they are and
      parts with a line break between two texts. */
  lemma {:induction false} SizeCounts(turns: seq<Turn>, turn: Turn, last: ContentPart)
    ensures Size([]) == 0
    ensures turn.content.Plain? ==> Size(turns + [turn]) == Size(turns) + Worker.ByteLength(turn.content.text)
    ensures turn.content.Rich? && turn.content.content.Text? ==>
      Size(turns + [turn]) == Size(turns) + Worker.ByteLength(turn.content.content.text)
    ensures turn.content.Rich? && turn.content.content.Parts? ==>
      var parts := turn.content.content.parts;
      var shown := Rich(Parts(parts)).Shown();
      && Size(turns + [turn]) == Size(turns) + Worker.ByteLength(shown)
      && Rich(Parts([])).Shown() == ""
      && Rich(Parts(parts + [last])).Shown()
         == if !last.TextPart? then shown
            else if exists k :: 0 <= k < |parts| && parts[k].TextPart? then shown + "\n" + last.text
            else last.text
  {
    if turns == [] {
      assert turns + [turn] == [turn] && [turn][1..] == [];
    } else {
      assert (turns + [turn])[1..] == turns[1..] + [turn];
      SizeCounts(turns[1..], turn, last);
    }
    if turn.content.Rich? && turn.content.content.Parts? {
      var parts := turn.content.content.parts;
      PartsText(parts, last);
    }
  }

  /** The first suffix that fits is the longest one. */
  lemma {:induction false} FirstFit(kept: seq<Turn>, all: seq<Turn>, gone: nat, budget: nat)
    requires gone <= |all| && kept == all[gone..] && Size(kept) <= budget
    requires forall k :: 0 <= k < gone ==> Size(all[k..]) > budget
    ensures LongestFitting(kept, all, budget)
  {
    hide Size;
    forall other | IsSuffix(other, all) && Size(other) <= budget ensures |other| <= |kept| {
      assert other == all[|all| - |other|..];
    }
  }

  lemma {:induction false} SuffixIsSmaller(turns: seq<Turn>, k: nat)
    requires k <= |turns|
    ensures Size(turns[k..]) <= Size(turns)
  {
    if k > 0 {
      SuffixIsSmaller(turns[1..], k - 1);
      assert turns[1..][k - 1..] == turns[k..];
    } else {
      assert turns[k..] == turns;
    }
  }

  /** What fits can be told from the kept length alone. */
  lemma {:induction false} FitsExactlyWithin(kept: seq<Turn>, all: seq<Turn>, budget: nat, other: seq<Turn>)
    requires LongestFitting(kept, all, budget)
    requires IsSuffix(other, all)
    ensures Size(other) <= budget <==> |other| <= |kept|
  {
    hide Size;
    if |other| <= |kept| {
      assert other == kept[|kept| - |other|..];
      SuffixIsSmaller(kept, |kept| - |other|);
    }
  }

  /** So there is one answer, and a larger budget never keeps less. */
  lemma OneLongest(a: seq<Turn>, b: seq<Turn>, all: seq<Turn>, small: nat, large: nat)
    requires small <= large
    requires LongestFitting(a, all, small) && LongestFitting(b, all, large)
    ensures IsSuffix(a, b)
    ensures small == large ==> a == b
  {
    hide Size;
    assert a == b[|b| - |a|..];
  }

  /** Trimming again changes nothing. */
  lemma TrimmedForGood(kept: seq<Turn>, all: seq<Turn>, budget: nat)
    requires LongestFitting(kept, all, budget)
    ensures LongestFitting(kept, kept, budget)
  {
    hide Size;
    assert kept[|kept| - |kept|..] == kept;
  }
}
