/** The command line an agent is spawned with (crates/copenai-core/src/cursor.rs),
    and the shell's reading of it: sections 2.2 (Quoting) and 2.3 (Token
    Recognition) of the Shell Command Language volume of POSIX.1-2017. */
module CommandLine {
  import opened Wrappers

  datatype CursorCommand = CursorCommand(agentBin: string, apiKey: Option<string>, endpoint: Option<string>,
                                         extraArgs: seq<string>)

  // ---- Printing ----

  predicate IsPlain(c: char) {
    'a' <= c <= 'z' || 'A' <= c <= 'Z' || '0' <= c <= '9' || c in "/._-:"
  }

  predicate AllPlain(s: string) {
    forall c :: c in s ==> IsPlain(c)
  }

  /** Each quote closes the quoted string, is escaped, and opens it again. */
  function QuotesReplaced(s: string): string {
    if s == "" then ""
    else (if s[0] == '\'' then "'\\''" else [s[0]]) + QuotesReplaced(s[1..])
  }

  function ShellEscape(s: string): string {
    if AllPlain(s) then s else "'" + QuotesReplaced(s) + "'"
  }

  function JoinEscaped(args: seq<string>): string {
    if args == [] then ""
    else if |args| == 1 then ShellEscape(args[0])
    else ShellEscape(args[0]) + " " + JoinEscaped(args[1..])
  }

  function SpawnArgv(command: CursorCommand, model: Option<string>): seq<string> {
    [command.agentBin]
    + (if command.apiKey.Some? then ["--api-key", command.apiKey.value] else [])
    + (if command.endpoint.Some? && command.endpoint.value != "" then ["-e", command.endpoint.value] else [])
    + command.extraArgs
    + (if model.Some? && model.value != "" then ["--model", model.value] else [])
    + ["acp"]
  }

  method AcpSpawnArgv(command: CursorCommand, model: Option<string>) returns (argv: seq<string>)
    ensures argv == SpawnArgv(command, model)
    ensures ArgvReads(argv, command, model)
  {
    hide ArgvReads;
    PlaceByPlace(command, model);
    argv := [command.agentBin];
    ghost var key := if command.apiKey.Some? then ["--api-key", command.apiKey.value] else [];
    if command.apiKey.Some? {
      argv := argv + ["--api-key"];
      argv := argv + [command.apiKey.value];
    }
    assert argv == [command.agentBin] + key;
    ghost var keyed := argv;
    ghost var endpoint := if command.endpoint.Some? && command.endpoint.value != ""
                          then ["-e", command.endpoint.value] else [];
    if command.endpoint.Some? && command.endpoint.value != "" {
      argv := argv + ["-e"];
      argv := argv + [command.endpoint.value];
    }
    assert argv == keyed + endpoint;
    argv := argv + command.extraArgs;
    ghost var extended := argv;
    ghost var chosen := if model.Some? && model.value != "" then ["--model", model.value] else [];
    if model.Some? && model.value != "" {
      argv := argv + ["--model"];
      argv := argv + [model.value];
    }
    assert argv == extended + chosen;
    argv := argv + ["acp"];
  }

  lemma PlaceByPlace(command: CursorCommand, model: Option<string>)
    ensures ArgvReads(SpawnArgv(command, model), command, model)
  {
  }

  /** Place by place: the binary first, the key and the endpoint with their flags,
      every extra argument, the model with its flag, and "acp" last. */
  ghost predicate ArgvReads(argv: seq<string>, command: CursorCommand, model: Option<string>) {
    var keyed := if command.apiKey.Some? then 2 else 0;
    var reached := keyed + if command.endpoint.Some? && command.endpoint.value != "" then 2 else 0;
    var extra := |command.extraArgs|;
    && |argv| == 2 + reached + extra + (if model.Some? && model.value != "" then 2 else 0)
    && argv[0] == command.agentBin && argv[|argv| - 1] == "acp"
    && (command.apiKey.Some? ==> argv[1] == "--api-key" && argv[2] == command.apiKey.value)
    && (reached > keyed ==> argv[keyed + 1] == "-e" && argv[keyed + 2] == command.endpoint.value)
    && (forall k :: 0 <= k < extra ==> argv[1 + reached + k] == command.extraArgs[k])
    && (model.Some? && model.value != "" ==>
          argv[1 + reached + extra] == "--model" && argv[2 + reached + extra] == model.value)
  }

  function AcpCommandString(command: CursorCommand, model: Option<string>): string {
    JoinEscaped(SpawnArgv(command, model))
  }

  // ---- The shell's reading ----

  /** Characters with a meaning of their own outside quotes. */
  predicate IsSpecial(c: char) {
    c in "|&;<>()$`*?[#~=%"
  }

  predicate IsBlank(c: char) {
    c == ' ' || c == '\t' || c == '\n'
  }

  /** In double quotes a backslash only escapes these. */
  predicate EscapableInDouble(c: char) {
    c in "$`\"\\\n"
  }

  datatype Problem = Unterminated | NeedsExpansion

  type Words = Result<seq<string>, Problem>

  function Cons(word: string, rest: Words): Words {
    if rest.Failure? then rest else Success([word] + rest.value)
  }

  /** Outside quotes. word is the word being read, if one was begun. An unquoted
      special character would be more than a plain word and is reported. */
  function Unquoted(s: string, word: Option<string>): Words
    decreases |s|
  {
    if s == "" then (if word.Some? then Success([word.value]) else Success([]))
    else if IsBlank(s[0]) then
      (if word.Some? then Cons(word.value, Unquoted(s[1..], None)) else Unquoted(s[1..], None))
    else if s[0] == '\'' then SingleQuoted(s[1..], word.GetOr(""))
    else if s[0] == '"' then DoubleQuoted(s[1..], word.GetOr(""))
    else if s[0] == '\\' then
      if |s| == 1 then Failure(Unterminated)
      else if s[1] == '\n' then Unquoted(s[2..], word)
      else Unquoted(s[2..], Some(word.GetOr("") + [s[1]]))
    else if IsSpecial(s[0]) then Failure(NeedsExpansion)
    else Unquoted(s[1..], Some(word.GetOr("") + [s[0]]))
  }

  function SingleQuoted(s: string, word: string): Words
    decreases |s|
  {
    if s == "" then Failure(Unterminated)
    else if s[0] == '\'' then Unquoted(s[1..], Some(word))
    else SingleQuoted(s[1..], word + [s[0]])
  }

  function DoubleQuoted(s: string, word: string): Words
    decreases |s|
  {
    if s == "" then Failure(Unterminated)
    else if s[0] == '"' then Unquoted(s[1..], Some(word))
    else if s[0] == '$' || s[0] == '`' then Failure(NeedsExpansion)
    else if s[0] == '\\' && |s| > 1 && s[1] == '\n' then DoubleQuoted(s[2..], word)
    else if s[0] == '\\' && |s| > 1 && EscapableInDouble(s[1]) then DoubleQuoted(s[2..], word + [s[1]])
    else DoubleQuoted(s[1..], word + [s[0]])
  }

  function Split(s: string): Words {
    Unquoted(s, None)
  }

  // ---- The shell reads back what was printed ----

  lemma {:induction false} ReadPlain(s: string, rest: string, word: string)
    requires AllPlain(s)
    ensures Unquoted(s + rest, Some(word)) == Unquoted(rest, Some(word + s))
  {
    hide Unquoted, IsPlain;
    if s == "" {
      assert s + rest == rest;
      assert word + s == word;
    } else {
      assert AllPlain(s[1..]);
      assert (s + rest)[0] == s[0];
      PlainStep(s + rest, Some(word));
      ReadPlain(s[1..], rest, word + [s[0]]);
      assert (s + rest)[1..] == s[1..] + rest;
      assert word + [s[0]] + s[1..] == word + s;
    }
  }

  lemma {:induction false} ReadQuoted(s: string, rest: string, word: string)
    ensures SingleQuoted(QuotesReplaced(s) + "'" + rest, word) == Unquoted(rest, Some(word + s))
  {
    if s == "" {
      assert QuotesReplaced(s) + "'" + rest == "'" + rest;
      assert ("'" + rest)[1..] == rest;
      assert word + s == word;
    } else {
      var tail := QuotesReplaced(s[1..]) + "'" + rest;
      ReadQuoted(s[1..], rest, word + [s[0]]);
      assert word + [s[0]] + s[1..] == word + s;
      if s[0] == '\'' {
        ReadEscapedQuote(tail, word);
        assert QuotesReplaced(s) + "'" + rest == "'\\''" + tail;
      } else {
        assert QuotesReplaced(s) + "'" + rest == [s[0]] + tail;
        assert ([s[0]] + tail)[1..] == tail;
      }
    }
  }

  lemma {:induction false} ReadEscapedQuote(tail: string, word: string)
    ensures SingleQuoted("'\\''" + tail, word) == SingleQuoted(tail, word + "'")
  {
    var s := "'\\''" + tail;
    var s1 := s[1..];
    assert s1 == "\\''" + tail;
    var s3 := s1[2..];
    assert s3 == "'" + tail;
    assert s3[1..] == tail;
    assert SingleQuoted(s, word) == Unquoted(s1, Some(word));
    assert Unquoted(s1, Some(word)) == Unquoted(s3, Some(word + "'"));
    assert Unquoted(s3, Some(word + "'")) == SingleQuoted(tail, word + "'");
  }

  lemma PlainIsOrdinary(c: char)
    requires IsPlain(c)
    ensures !IsBlank(c) && !IsSpecial(c) && c != '\'' && c != '"' && c != '\\'
  {
  }

  lemma {:induction false} PlainStep(s: string, word: Option<string>)
    requires s != "" && IsPlain(s[0])
    ensures Unquoted(s, word) == Unquoted(s[1..], Some(word.GetOr("") + [s[0]]))
  {
    PlainIsOrdinary(s[0]);
    hide IsPlain, IsBlank, IsSpecial, SingleQuoted, DoubleQuoted, Cons;
  }

  lemma {:induction false} ReadPlainArg(arg: string, rest: string)
    requires arg != "" && AllPlain(arg)
    ensures Unquoted(arg + rest, None) == Unquoted(rest, Some(arg))
  {
    hide Unquoted, IsPlain;
    assert AllPlain(arg[1..]);
    assert (arg + rest)[0] == arg[0];
    PlainStep(arg + rest, None);
    assert (arg + rest)[1..] == arg[1..] + rest;
    ReadPlain(arg[1..], rest, "" + [arg[0]]);
    assert "" + [arg[0]] + arg[1..] == arg;
  }

  lemma {:induction false} QuoteStep(body: string)
    ensures Unquoted("'" + body, None) == SingleQuoted(body, "")
  {
    hide SingleQuoted;
    assert ("'" + body)[1..] == body;
  }

  /** A non-empty argument is read back as one word, an empty one as none. */
  lemma {:induction false} ReadEscaped(arg: string, rest: string)
    ensures Unquoted(ShellEscape(arg) + rest, None) ==
            if arg == "" then Unquoted(rest, None) else Unquoted(rest, Some(arg))
  {
    hide Unquoted, SingleQuoted, QuotesReplaced, IsPlain;
    if arg == "" {
      assert ShellEscape(arg) + rest == rest;
    } else if AllPlain(arg) {
      ReadPlainArg(arg, rest);
    } else {
      var body := QuotesReplaced(arg) + "'" + rest;
      assert ShellEscape(arg) + rest == "'" + body;
      QuoteStep(body);
      ReadQuoted(arg, rest, "");
      assert "" + arg == arg;
    }
  }

  function NonEmpty(args: seq<string>): seq<string> {
    if args == [] then [] else (if args[0] == "" then [] else [args[0]]) + NonEmpty(args[1..])
  }

  /** For every argument list, with quotes, backslashes, blanks or anything else in
      it, the shell reads back exactly the non-empty arguments, in order, and finds
      nothing to expand. */
  lemma {:induction false} SplitReadsBack(args: seq<string>)
    ensures Split(JoinEscaped(args)) == Success(NonEmpty(args))
  {
    hide Unquoted, ShellEscape;
    if args == [] {
      BlankThenNext("", "");
    } else {
      SplitReadsBack(args[1..]);
      var rest := JoinEscaped(args[1..]);
      var tail := if |args| == 1 then "" else " " + rest;
      ReadEscaped(args[0], tail);
      BlankThenNext(args[0], rest);
      assert JoinEscaped(args) == ShellEscape(args[0]) + tail by {
        assert ShellEscape(args[0]) + "" == ShellEscape(args[0]);
        assert ShellEscape(args[0]) + " " + rest == ShellEscape(args[0]) + (" " + rest);
      }
      var others := NonEmpty(args[1..]);
      assert |args| == 1 ==> args[1..] == [] && others == [];
      assert NonEmpty(args) == (if args[0] == "" then [] else [args[0]]) + others;
      hide JoinEscaped, NonEmpty;
      assert [] + others == others;
      assert others == [] ==> [args[0]] + others == [args[0]];
    }
  }

  /** The end or a blank closes the word being read. */
  lemma {:induction false} BlankThenNext(word: string, rest: string)
    ensures Unquoted("", None) == Success([])
    ensures Unquoted("", Some(word)) == Success([word])
    ensures Unquoted(" " + rest, None) == Split(rest)
    ensures Unquoted(" " + rest, Some(word)) == Cons(word, Split(rest))
  {
    assert (" " + rest)[1..] == rest;
  }

  lemma {:induction false} NonEmptyIsAll(args: seq<string>)
    ensures |NonEmpty(args)| <= |args|
    ensures NonEmpty(args) == args <==> "" !in args
  {
    if args != [] {
      NonEmptyIsAll(args[1..]);
      assert args == [args[0]] + args[1..];
    }
  }

  /** The spawned process gets exactly the intended arguments exactly when none of
      the configured ones is empty: the program, the key, the extra arguments. */
  lemma CommandStringExact(command: CursorCommand, model: Option<string>)
    ensures Split(AcpCommandString(command, model)) == Success(SpawnArgv(command, model))
      <==> command.agentBin != "" && command.apiKey != Some("") && "" !in command.extraArgs
  {
    var argv := SpawnArgv(command, model);
    SplitReadsBack(argv);
    NonEmptyIsAll(argv);
    var key := if command.apiKey.Some? then ["--api-key", command.apiKey.value] else [];
    var endpoint := if command.endpoint.Some? && command.endpoint.value != ""
                    then ["-e", command.endpoint.value] else [];
    var chosen := if model.Some? && model.value != "" then ["--model", model.value] else [];
    assert argv == [command.agentBin] + key + endpoint + command.extraArgs + chosen + ["acp"];
    assert "" !in endpoint && "" !in chosen && "" !in ["acp"];
    assert "" in key <==> command.apiKey == Some("");
    assert "" in argv <==> "" == command.agentBin || "" in key || "" in command.extraArgs;
  }
}
