/** Hook command lines: how arguments are quoted for a POSIX shell, and how such a shell reads them back. */
module HookCommand {
  import opened Wrappers

  /** `part.replace('\'', "'\"'\"'")`: a single quote is closed, quoted by double quotes, and opened again. */
  function EscapeQuotes(part: string): string {
    if part == "" then ""
    else (if part[0] == '\'' then "'\"'\"'" else [part[0]]) + EscapeQuotes(part[1..])
  }

  function Quote(part: string): string {
    "'" + EscapeQuotes(part) + "'"
  }

  /** `build_posix_hook_command` */
  function BuildCommand(parts: seq<string>): string {
    if parts == [] then "" else if |parts| == 1 then Quote(parts[0])
        else Quote(parts[0]) + " " + BuildCommand(parts[1..])
  }

  // ---- Reading words ---------------------------------------------------------------------------

  datatype Quoting = Bare | Single | Double

  /** Characters with a meaning to the shell outside quotes, other than blanks and the two quotes. */
  predicate IsSpecial(c: char) {
    c in "|&;<>()$`\\*?[#~=%{}!\n"
  }

  /** Characters that double quotes leave a meaning to (POSIX.1-2017 Shell Command Language, section 2.2.3). */
  predicate IsSpecialInDouble(c: char) {
    c in "$`\\"
  }

  /**
   * The words of a simple command by sections 2.2.2 and 2.2.3 of the POSIX.1-2017 Shell Command
   * Language; `word` is the word being read, if one has begun. Anything that a shell would expand
   * or treat as an operator, and an unterminated quote, gives no answer.
   */
  function Words(s: string, quoting: Quoting, word: Option<string>, done: seq<string>): Option<seq<string>>
    decreases |s|
  {
    if s == "" then
      if !quoting.Bare? then None else Some(done + (if word.Some? then [word.value] else []))
    else
      var c, rest, soFar := s[0], s[1..], word.GetOr("");
      match quoting
      case Single => if c == '\'' then Words(rest, Bare, Some(soFar), done)
          else Words(rest, Single, Some(soFar + [c]), done)
      case Double =>
        if c == '"' then Words(rest, Bare, Some(soFar), done)
        else if IsSpecialInDouble(c) then None
        else Words(rest, Double, Some(soFar + [c]), done)
      case Bare =>
        if c == '\'' then Words(rest, Single, Some(soFar), done)
        else if c == '"' then Words(rest, Double, Some(soFar), done)
        else if c == ' ' || c == '\t' then Words(rest, Bare, None, done + (if word.Some? then [word.value] else []))
        else if IsSpecial(c) then None
        else Words(rest, Bare, Some(soFar + [c]), done)
  }

  function SplitCommand(s: string): Option<seq<string>> {
    Words(s, Bare, None, [])
  }

  // ---- The round trip --------------------------------------------------------------------------

  lemma ReadChar(c: char, rest: string, quoting: Quoting, word: string, done: seq<string>)
    ensures quoting.Single? && c != '\'' ==>
              Words([c] + rest, Single, Some(word), done)
              == Words(rest, Single, Some(word + [c]), done)
    ensures quoting.Single? && c == '\'' ==>
              Words([c] + rest, Single, Some(word), done)
              == Words(rest, Bare, Some(word), done)
    ensures quoting.Bare? && c == '\'' ==>
              Words([c] + rest, Bare, Some(word), done)
              == Words(rest, Single, Some(word), done)
    ensures quoting.Bare? && c == '"' ==>
              Words([c] + rest, Bare, Some(word), done)
              == Words(rest, Double, Some(word), done)
    ensures quoting.Double? && c == '"' ==>
              Words([c] + rest, Double, Some(word), done)
              == Words(rest, Bare, Some(word), done)
    ensures quoting.Double? && c == '\'' ==>
              Words([c] + rest, Double, Some(word), done)
              == Words(rest, Double, Some(word + [c]), done)
  {
    assert ([c] + rest)[1..] == rest;
  }

  /** An escaped single quote adds one single quote to the word, and leaves the shell inside single quotes. */
  lemma EscapedQuote(rest: string, word: string, done: seq<string>)
    ensures Words("'\"'\"'" + rest, Single, Some(word), done) == Words(rest, Single, Some(word + "'"), done)
  {
    hide Words;
    var r4 := ['\''] + rest;
    var r3 := ['"'] + r4;
    var r2 := ['\''] + r3;
    var r1 := ['"'] + r2;
    assert "'\"'\"'" + rest == ['\''] + r1;
    ReadChar('\'', r1, Single, word, done);
    ReadChar('"', r2, Bare, word, done);
    ReadChar('\'', r3, Double, word, done);
    ReadChar('"', r4, Double, word + ['\''], done);
    ReadChar('\'', rest, Bare, word + ['\''], done);
  }

  lemma EscapeStep(part: string, tail: string)
    requires part != ""
    ensures EscapeQuotes(part) + tail
         == (if part[0] == '\'' then "'\"'\"'" else [part[0]]) + (EscapeQuotes(part[1..]) + tail)
  {
  }

  lemma JoinWord(word: string, part: string)
    requires part != ""
    ensures word + [part[0]] + part[1..] == word + part
  {
  }

  lemma {:induction false} InsideQuotes(part: string, rest: string, word: string, done: seq<string>)
    ensures Words(EscapeQuotes(part) + ("'" + rest), Single, Some(word), done)
            == Words(rest, Bare, Some(word + part), done)
    decreases |part|
  {
    hide Words, EscapeQuotes;
    var tail := "'" + rest;
    if part == "" {
      NothingEscaped(tail);
      assert tail == ['\''] + rest;
      ReadChar('\'', rest, Single, word, done);
      assert word + part == word;
    } else {
      var more := EscapeQuotes(part[1..]) + tail;
      EscapeStep(part, tail);
      JoinWord(word, part);
      InsideQuotes(part[1..], rest, word + [part[0]], done);
      if part[0] == '\'' {
        EscapedQuote(more, word, done);
      } else {
        ReadChar(part[0], more, Single, word, done);
      }
    }
  }

  lemma NothingEscaped(tail: string)
    ensures EscapeQuotes("") + tail == tail
  {
  }

  lemma OneWord(part: string, rest: string, done: seq<string>)
    ensures Words(Quote(part) + rest, Bare, None, done) == Words(rest, Bare, Some(part), done)
  {
    var inner := EscapeQuotes(part) + ("'" + rest);
    assert Quote(part) + rest == ['\''] + inner;
    assert (['\''] + inner)[1..] == inner;
    hide EscapeQuotes;
    assert Words(['\''] + inner, Bare, None, done) == Words(inner, Single, Some(""), done);
    InsideQuotes(part, rest, "", done);
    assert "" + part == part;
  }

  lemma NextWord(word: string, rest: string, done: seq<string>)
    ensures Words(" " + rest, Bare, Some(word), done) == Words(rest, Bare, None, done + [word])
    ensures Words("", Bare, Some(word), done) == Some(done + [word])
  {
    assert (" " + rest)[1..] == rest;
  }

  lemma {:induction false} CommandWords(parts: seq<string>, done: seq<string>)
    ensures Words(BuildCommand(parts), Bare, None, done) == Some(done + parts)
    decreases |parts|
  {
    hide Words, Quote;
    if parts == [] {
      NoWords(done);
      assert done + parts == done;
    } else if |parts| == 1 {
      assert Quote(parts[0]) + "" == Quote(parts[0]);
      OneWord(parts[0], "", done);
      NextWord(parts[0], "", done);
      assert [parts[0]] == parts;
    } else {
      var rest := BuildCommand(parts[1..]);
      assert Quote(parts[0]) + " " + rest == Quote(parts[0]) + (" " + rest);
      OneWord(parts[0], " " + rest, done);
      NextWord(parts[0], rest, done);
      CommandWords(parts[1..], done + [parts[0]]);
      assert done + [parts[0]] + parts[1..] == done + parts;
    }
  }

  lemma NoWords(done: seq<string>)
    ensures Words("", Bare, None, done) == Some(done)
  {
    assert done + [] == done;
  }

  /**
   * A shell reads back exactly the arguments that the command was built from, empty ones and runs of quotes
   * included.
   */
  lemma ShellReadsBack(parts: seq<string>)
    ensures SplitCommand(BuildCommand(parts)) == Some(parts)
  {
    CommandWords(parts, []);
    assert [] + parts == parts;
  }
}
