// src/cloud.rs:98-112 and 350-352: arguments of a remote command.
module ShellQuoting {
  import opened Wrappers

  const QUOTE: char := '\''

  // Inside single quotes a quote is closed, escaped and opened again.
  function Escape(value: string): string {
    if value == "" then ""
    else (if value[0] == QUOTE then "'\\''" else [value[0]]) + Escape(value[1..])
  }

  function ShellQuote(value: string): string {
    "'" + Escape(value) + "'"
  }

  function Join(words: seq<string>): string {
    if words == [] then ""
    else if |words| == 1 then words[0]
    else words[0] + " " + Join(words[1..])
  }

  function Quoted(arguments: seq<string>): seq<string> {
    seq(|arguments|, i requires 0 <= i < |arguments| => ShellQuote(arguments[i]))
  }

  function RemoteCommand(arguments: seq<string>): string {
    if arguments == [] then "sh -s --" else "sh -s -- " + Join(Quoted(arguments))
  }

  // ------------------------------------------------------------ word parsing

  // Characters that stand for themselves outside quotes. All others but blanks,
  // quotes and backslashes have a meaning of their own and end the parse.
  predicate Ordinary(c: char) {
    'a' <= c <= 'z' || 'A' <= c <= 'Z' || '0' <= c <= '9' || c in "-_./,:+@%"
  }

  function Begun(word: Option<string>): string {
    if word.Some? then word.value else ""
  }

  function Ended(word: Option<string>): seq<string> {
    if word.Some? then [word.value] else []
  }

  // Field by field as in section 2.2 of the POSIX Shell Command Language, with
  // quote removal. `word` is the field begun so far.
  function Fields(text: string, word: Option<string>): Option<seq<string>> {
    if text == "" then Some(Ended(word))
    else if text[0] == ' ' then
      match Fields(text[1..], None)
      case None => None
      case Some(rest) => Some(Ended(word) + rest)
    else if text[0] == QUOTE then InQuotes(text[1..], Begun(word))
    else if text[0] == '\\' then
      if |text| < 2 || text[1] == '\n' then None else Fields(text[2..], Some(Begun(word) + [text[1]]))
    else if Ordinary(text[0]) then Fields(text[1..], Some(Begun(word) + [text[0]]))
    else None
  }

  function InQuotes(text: string, word: string): Option<seq<string>> {
    if text == "" then None
    else if text[0] == QUOTE then Fields(text[1..], Some(word))
    else InQuotes(text[1..], word + [text[0]])
  }

  lemma {:induction false} QuotedField(value: string, word: string, rest: string)
    ensures InQuotes(Escape(value) + "'" + rest, word) == Fields(rest, Some(word + value))
    decreases value
  {
    var text := Escape(value) + "'" + rest;
    if value == "" {
      assert text[1..] == rest;
      assert word + value == word;
    } else {
      var tail := Escape(value[1..]) + "'" + rest;
      QuotedField(value[1..], word + [value[0]], rest);
      assert word + [value[0]] + value[1..] == word + value;
      if value[0] == QUOTE {
        var escaped, reopened := "\\''" + tail, "'" + tail;
        assert text[1..] == escaped && escaped[2..] == reopened && reopened[1..] == tail;
        assert Fields(escaped, Some(word)) == Fields(reopened, Some(word + [QUOTE]));
      } else {
        assert text[1..] == tail;
      }
    }
  }

  lemma Separator(word: Option<string>, rest: string, fields: seq<string>)
    requires Fields(rest, None) == Some(fields)
    ensures Fields(" " + rest, word) == Some(Ended(word) + fields)
  {
    assert (" " + rest)[1..] == rest;
  }

  // Splitting and unquoting the joined arguments gives back exactly the list:
  // no argument is split, merged, changed or taken for shell syntax.
  lemma {:induction false} ArgumentsRoundTrip(arguments: seq<string>)
    ensures Fields(Join(Quoted(arguments)), None) == Some(arguments)
  {
    if arguments != [] {
      var first, others := arguments[0], arguments[1..];
      assert Quoted(arguments)[1..] == Quoted(others);
      if others == [] {
        FirstArgument(first, "");
        assert Join(Quoted(arguments)) == ShellQuote(first) + "";
        assert arguments == [first];
      } else {
        ArgumentsRoundTrip(others);
        var rest := " " + Join(Quoted(others));
        Separator(Some(first), Join(Quoted(others)), others);
        FirstArgument(first, rest);
        assert [first] + others == arguments;
        assert Join(Quoted(arguments)) == ShellQuote(first) + rest;
      }
    }
  }

  lemma FirstArgument(first: string, rest: string)
    ensures Fields(ShellQuote(first) + rest, None) == Fields(rest, Some(first))
  {
    var text := ShellQuote(first) + rest;
    assert text[1..] == Escape(first) + "'" + rest;
    QuotedField(first, "", rest);
    assert "" + first == first;
  }

  lemma {:induction false} OrdinaryField(value: string, word: Option<string>, rest: string)
    requires value != "" && forall i :: 0 <= i < |value| ==> Ordinary(value[i])
    ensures Fields(value + rest, word) == Fields(rest, Some(Begun(word) + value))
    decreases value
  {
    assert (value + rest)[1..] == value[1..] + rest;
    if |value| > 1 {
      OrdinaryField(value[1..], Some(Begun(word) + [value[0]]), rest);
      assert Begun(word) + [value[0]] + value[1..] == Begun(word) + value;
    } else {
      assert value[1..] + rest == rest;
      assert Begun(word) + [value[0]] == Begun(word) + value;
    }
  }

  lemma PlainField(value: string, rest: string)
    requires value != "" && forall i :: 0 <= i < |value| ==> Ordinary(value[i])
    ensures Fields(value + rest, None) == Fields(rest, Some(value))
  {
    OrdinaryField(value, None, rest);
    assert Begun(None) + value == value;
  }

  lemma CommandRoundTrip(arguments: seq<string>)
    ensures Fields(RemoteCommand(arguments), None) == Some(["sh", "-s", "--"] + arguments)
  {
    var tail := if arguments == [] then "" else " " + Join(Quoted(arguments));
    ArgumentsRoundTrip(arguments);
    PlainField("--", tail);
    if arguments == [] {
      assert tail == "" && ["--"] + arguments == ["--"];
    } else {
      Separator(Some("--"), Join(Quoted(arguments)), arguments);
      assert Ended(Some("--")) + arguments == ["--"] + arguments;
    }
    PlainField("-s", " " + ("--" + tail));
    Separator(Some("-s"), "--" + tail, ["--"] + arguments);
    PlainField("sh", " " + ("-s" + (" " + ("--" + tail))));
    Separator(Some("sh"), "-s" + (" " + ("--" + tail)), ["-s"] + (["--"] + arguments));
    assert RemoteCommand(arguments) == "sh" + (" " + ("-s" + (" " + ("--" + tail))));
    assert ["sh"] + (["-s"] + (["--"] + arguments)) == ["sh", "-s", "--"] + arguments;
  }
}
